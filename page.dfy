/** The home page: the `commands` state and `addCommand`. */
module Page {
  import opened Types
  import opened Text

  /** `{ ...newCommand, id }`. */
  function WithId(draft: CommandDraft, id: string): Command {
    Command(id, draft.labelText, draft.command, draft.category, draft.group)
  }

  /** The new list `addCommand` builds: the submitted command, with the clock's decimal string as id, in front. */
  function AddCommandTo(prev: seq<Command>, newCommand: CommandDraft, now: int): (r: seq<Command>)
    ensures |r| == |prev| + 1
    ensures r[1..] == prev
    ensures r[0].labelText == newCommand.labelText && r[0].command == newCommand.command
    ensures r[0].category == newCommand.category && r[0].group == newCommand.group
    ensures r[0].id == IntToDecimal(now)
  {
    [WithId(newCommand, IntToDecimal(now))] + prev
  }

  /** The new head's id reads back as the clock value it was made from. */
  lemma NewIdEncodesClock(prev: seq<Command>, newCommand: CommandDraft, now: int)
    ensures ParseInt(AddCommandTo(prev, newCommand, now)[0].id) == now
  {
    IntToDecimalRoundTrip(now);
  }

  /** Ids of two added commands coincide exactly when the clock read the same both times: there is no uniqueness check. */
  lemma SameClockSameId(prev: seq<Command>, first: CommandDraft, second: CommandDraft, t1: int, t2: int)
    ensures var r := AddCommandTo(AddCommandTo(prev, first, t1), second, t2);
            r[0].id == r[1].id <==> t1 == t2
  {
    IntToDecimalInjective(t1, t2);
  }

  class Home {
    var commands: seq<Command>

    /** `useState(INITIAL_COMMANDS)`: the seed list is whatever the caller supplies. */
    constructor (initialCommands: seq<Command>)
      ensures commands == initialCommands
    {
      commands := initialCommands;
    }

    /** `addCommand`: prepend the new command; `now` is `Date.now()`. */
    method AddCommand(newCommand: CommandDraft, now: int)
      modifies this
      ensures commands == AddCommandTo(old(commands), newCommand, now)
    {
      commands := [WithId(newCommand, IntToDecimal(now))] + commands;
    }
  }
}
