/** The add-command dialog: its form schema and what submitting does. */
module AddCommandDialog {
  import opened Types
  import opened Schema
  import Page

  const LabelTooShort: string := "Label must be at least 3 characters."
  const CommandEmpty: string := "Command cannot be empty."
  const CategoryEmpty: string := "Category cannot be empty."

  /** The form's `defaultValues`. */
  const EmptyForm: CommandDraft := CommandDraft("", "", "", Some(""))

  /** The check on each schema field; any group is accepted. */
  function LabelIssues(v: CommandDraft): seq<Issue> {
    MinLength("label", v.labelText, 3, LabelTooShort)
  }

  function CommandIssues(v: CommandDraft): seq<Issue> {
    MinLength("command", v.command, 1, CommandEmpty)
  }

  function CategoryIssues(v: CommandDraft): seq<Issue> {
    MinLength("category", v.category, 1, CategoryEmpty)
  }

  /** Every issue `formSchema` reports, in the schema's field order. */
  function Issues(v: CommandDraft): seq<Issue> {
    LabelIssues(v) + CommandIssues(v) + CategoryIssues(v)
  }

  /** `formSchema.safeParse`: accepted values come through unchanged; each failing field is reported. */
  function Parse(v: CommandDraft): (r: Parsed<CommandDraft>)
    ensures r.Parsed? <==> |v.labelText| >= 3 && v.command != "" && v.category != ""
    ensures r.Parsed? ==> r.data == v
    ensures r.Rejected? ==>
      && ("label" in Paths(r.issues) <==> |v.labelText| < 3)
      && ("command" in Paths(r.issues) <==> v.command == "")
      && ("category" in Paths(r.issues) <==> v.category == "")
  {
    var issues := Issues(v);
    PathsAppend(LabelIssues(v), CommandIssues(v));
    PathsAppend(LabelIssues(v) + CommandIssues(v), CategoryIssues(v));
    if issues == [] then Parsed(v) else Rejected(issues)
  }

  /**
   * The issues shown after the user changes the values from `before` to `after` once a submit has
   * been attempted: react-hook-form checks each changed field again on its own
   * (`reValidateMode: "onChange"`), and every unchanged field keeps what it showed.
   */
  function Revalidate(shown: seq<Issue>, before: CommandDraft, after: CommandDraft): (r: seq<Issue>)
    ensures OnPath(r, "label") ==
      if after.labelText != before.labelText then LabelIssues(after) else OnPath(shown, "label")
    ensures OnPath(r, "command") ==
      if after.command != before.command then CommandIssues(after) else OnPath(shown, "command")
    ensures OnPath(r, "category") ==
      if after.category != before.category then CategoryIssues(after) else OnPath(shown, "category")
  {
    var a := Refresh(shown, "label", after.labelText != before.labelText, LabelIssues(after));
    var b := Refresh(shown, "command", after.command != before.command, CommandIssues(after));
    var c := Refresh(shown, "category", after.category != before.category, CategoryIssues(after));
    OnPathOfThree(a, "label", b, "command", c, "category", "label");
    OnPathOfThree(a, "label", b, "command", c, "category", "command");
    OnPathOfThree(a, "label", b, "command", c, "category", "category");
    a + b + c
  }

  /** Once a rejected submit has shown every field's issues, each later edit shows exactly the schema's issues for the new values. */
  lemma RevalidateAfterRejection(before: CommandDraft, after: CommandDraft)
    ensures Revalidate(Issues(before), before, after) == Issues(after)
  {
    var shown := Issues(before);
    OnPathOfThree(LabelIssues(before), "label", CommandIssues(before), "command", CategoryIssues(before), "category", "label");
    OnPathOfThree(LabelIssues(before), "label", CommandIssues(before), "command", CategoryIssues(before), "category", "command");
    OnPathOfThree(LabelIssues(before), "label", CommandIssues(before), "command", CategoryIssues(before), "category", "category");
    assert Refresh(shown, "label", after.labelText != before.labelText, LabelIssues(after)) == LabelIssues(after);
    assert Refresh(shown, "command", after.command != before.command, CommandIssues(after)) == CommandIssues(after);
    assert Refresh(shown, "category", after.category != before.category, CategoryIssues(after)) == CategoryIssues(after);
  }

  /** Labels are not trimmed: three spaces pass. */
  lemma BlankLabelAccepted(command: string, category: string, group: Option<string>)
    requires command != "" && category != ""
    ensures Parse(CommandDraft("   ", command, category, group)).Parsed?
  {
  }

  /** The group never affects acceptance. */
  lemma GroupIrrelevant(v: CommandDraft, group: Option<string>)
    ensures Parse(v.(group := group)).Parsed? == Parse(v).Parsed?
  {
  }

  /** The empty form is rejected with all three messages, in field order. */
  lemma EmptyFormRejected()
    ensures Parse(EmptyForm) == Rejected([Issue("label", LabelTooShort), Issue("command", CommandEmpty), Issue("category", CategoryEmpty)])
  {
  }

  /** The dialog's `open` state and its form; `submitted` is react-hook-form's `formState.isSubmitted`. */
  class Dialog {
    var open: bool
    var values: CommandDraft
    var issues: seq<Issue>
    var submitted: bool

    constructor ()
      ensures !open && values == EmptyForm && issues == [] && !submitted
    {
      open := false;
      values := EmptyForm;
      issues := [];
      submitted := false;
    }

    /** `onOpenChange`: this dialog does not reset its form on open. */
    method SetOpen(b: bool)
      modifies this
      ensures open == b && values == old(values) && issues == old(issues) && submitted == old(submitted)
    {
      open := b;
    }

    /**
     * The user edits the fields. Before the first submit nothing is checked (the default
     * `mode: "onSubmit"`); afterwards each changed field is checked again.
     */
    method Input(v: CommandDraft)
      modifies this
      ensures values == v && open == old(open) && submitted == old(submitted)
      ensures issues == if old(submitted) then Revalidate(old(issues), old(values), v) else old(issues)
    {
      if submitted {
        issues := Revalidate(issues, values, v);
      }
      values := v;
    }

    /**
     * `form.handleSubmit(onSubmit)`, with `onAddCommand` wired to the page's `addCommand` and `now`
     * the clock: valid values are passed on without an id, then the form is reset and the dialog closed.
     * Either way the form counts as submitted afterwards: `handleSubmit` sets `isSubmitted` after
     * `onSubmit` has returned, so after its `reset()`.
     */
    method HandleSubmit(home: Page.Home, now: int) returns (accepted: bool)
      modifies this, home
      ensures accepted <==> Parse(old(values)).Parsed?
      ensures submitted
      ensures accepted ==>
        && home.commands == Page.AddCommandTo(old(home.commands), old(values), now)
        && values == EmptyForm && issues == [] && !open
      ensures !accepted ==>
        && home.commands == old(home.commands)
        && values == old(values) && issues == Parse(old(values)).issues && open == old(open)
    {
      var parsed := Parse(values);
      if parsed.Parsed? {
        home.AddCommand(parsed.data, now);
        values, issues := EmptyForm, [];
        open := false;
        accepted := true;
      } else {
        issues := parsed.issues;
        accepted := false;
      }
      submitted := true;
    }
  }

  /** After submitting the empty form, whatever the user then types shows exactly the schema's issues for it. */
  method CorrectAfterRejection(v: CommandDraft) returns (shown: seq<Issue>)
    ensures shown == Issues(v)
  {
    var home := new Page.Home([]);
    var d := new Dialog();
    d.SetOpen(true);
    EmptyFormRejected();
    var accepted := d.HandleSubmit(home, 0);
    d.Input(v);
    RevalidateAfterRejection(EmptyForm, v);
    shown := d.issues;
  }
}
