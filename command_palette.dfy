/** The command palette: search, grouping and category icons for saved commands. */
module CommandPalette {
  import opened Types
  import opened Text
  import opened Search
  import JsObject
  import Hotkey

  /** The `filter` callback for commands: the payload field is the command text. */
  function Keep(term: string): Command -> bool {
    (c: Command) => Matches(term, c.labelText, c.command, c.category, c.group)
  }

  function GroupOf(c: Command): Option<string> {
    c.group
  }

  /** What the palette shows for a search term: the kept commands grouped by name. */
  function View(commands: seq<Command>, term: string): map<string, seq<Command>> {
    Grouped(Filter(commands, Keep(term)), GroupOf)
  }

  /** `filteredAndGroupedCommands`: filter, then group by a scan that pushes onto each group's list. */
  method FilteredAndGrouped(commands: seq<Command>, term: string) returns (groups: map<string, seq<Command>>)
    ensures groups == View(commands, term)
  {
    var filtered := Filter(commands, Keep(term));
    groups := GroupByName(filtered, GroupOf);
  }

  /** A command is kept iff the lower-cased term occurs in its lower-cased label, command, category or present group. */
  lemma KeptIff(commands: seq<Command>, term: string, c: Command)
    ensures c in Filter(commands, Keep(term)) <==>
      && c in commands
      && (|| Includes(Lower(c.labelText), Lower(term))
          || Includes(Lower(c.command), Lower(term))
          || Includes(Lower(c.category), Lower(term))
          || (c.group.Some? && Includes(Lower(c.group.value), Lower(term))))
  {
    FilterMembership(commands, Keep(term), c);
  }

  /** The kept commands keep their input order. */
  lemma KeptInOrder(commands: seq<Command>, term: string)
    ensures IsSubsequence(Filter(commands, Keep(term)), commands)
  {
    FilterIsSubsequence(commands, Keep(term));
  }

  /** With an empty search term every command is kept and grouped. */
  lemma EmptyTermKeepsAll(commands: seq<Command>)
    ensures Filter(commands, Keep("")) == commands
    ensures View(commands, "") == Grouped(commands, GroupOf)
  {
    forall i | 0 <= i < |commands|
      ensures Keep("")(commands[i])
    {
      var c := commands[i];
      EmptyTermMatches(c.labelText, c.command, c.category, c.group);
    }
    FilterKeepsAll(commands, Keep(""));
  }

  /** "No commands found." is shown exactly when no command matches. */
  lemma NothingFoundIff(commands: seq<Command>, term: string)
    ensures View(commands, term) == map[] <==> forall i :: 0 <= i < |commands| ==> !Keep(term)(commands[i])
  {
    GroupedEmptyIff(Filter(commands, Keep(term)), GroupOf);
    FilterEmptyIff(commands, Keep(term));
  }

  /** Ctrl+K or Cmd+K (either case of K) focuses the search box; the two registrations cover exactly those. */
  lemma SearchShortcut(event: Hotkey.KeyEvent)
    ensures Hotkey.Fires("k", Hotkey.HotkeyOptions(None, Some(true), None), event)
         || Hotkey.Fires("k", Hotkey.HotkeyOptions(Some(true), None, None), event)
        <==> Lower(event.key) == "k" && (event.metaKey || event.ctrlKey)
  {
    assert Lower("k") == "k";
  }

  // ---- category icons ----

  datatype Icon = GitBranch | Box | Package | Cog | Container

  /** `categoryIcons`, keyed by lower-case category. */
  const CategoryIcons: map<string, Icon> :=
    map["git" := GitBranch, "docker" := Box, "npm" := Package, "system" := Cog, "kubectl" := Container]

  /** `getCategoryIcon`: a case-insensitive table lookup with `Cog` for every other category. */
  function CategoryIcon(category: string): (icon: Icon)
    ensures Lower(category) in CategoryIcons ==> icon == CategoryIcons[Lower(category)]
    ensures Lower(category) !in CategoryIcons ==> icon == Cog
  {
    var key := Lower(category);
    if key in CategoryIcons then CategoryIcons[key] else Cog
  }

  /** The lookup does not depend on the case of the category. */
  lemma CategoryIconIgnoresCase(category: string)
    ensures CategoryIcon(category) == CategoryIcon(Lower(category))
  {
    LowerIdempotent(category);
  }

  /** "Docker" and "KUBECTL" get their icons; an unknown category gets `Cog`. */
  lemma CategoryIconExamples()
    ensures CategoryIcon("Docker") == Box
    ensures CategoryIcon("KUBECTL") == Container
    ensures CategoryIcon("aws") == Cog
  {
    assert Lower("Docker") == "docker";
    assert Lower("KUBECTL") == "kubectl";
    assert Lower("aws") == "aws";
  }

  /**
   * `getCategoryIcon` as written: `categoryIcons` is an object literal, so a category that
   * lower-cases to an `Object.prototype` member name finds that member, which is not an icon
   * component and fails to render. `None` stands for that failure.
   */
  function CategoryIconAsWritten(category: string): Option<Icon> {
    match JsObject.Get(CategoryIcons, Lower(category))
    case Own(icon) => Some(icon)
    case Undefined => Some(Cog)
    case Inherited(_) => None
  }

  /** As written, category "Constructor" finds `Object` instead of an icon; the intended lookup gives `Cog`. */
  lemma ConstructorCategoryBreaksIcon()
    ensures CategoryIconAsWritten("Constructor") == None
    ensures CategoryIcon("Constructor") == Cog
  {
    assert Lower("Constructor") == "constructor";
  }

  /** Away from those names the lookup as written agrees with `CategoryIcon`. */
  lemma CategoryIconAsWrittenAgrees(category: string)
    requires Lower(category) !in JsObject.PrototypeMembers
    ensures CategoryIconAsWritten(category) == Some(CategoryIcon(category))
  {
  }

  // ---- the grouping as written ----

  /** `filteredAndGroupedCommands` as written, with the JavaScript object semantics of `acc`; `None` is a thrown TypeError. */
  function FilteredAndGroupedAsWritten(commands: seq<Command>, term: string): Option<map<string, seq<Command>>> {
    GroupAsWritten(Filter(commands, Keep(term)), GroupOf)
  }

  /** As written, one command in group "toString" makes the palette throw; the intended view has a "toString" group. */
  lemma ToStringGroupThrows(c: Command)
    requires c.group == Some("toString")
    ensures FilteredAndGroupedAsWritten([c], "") == None
    ensures View([c], "") == map["toString" := [c]]
  {
    EmptyTermKeepsAll([c]);
    GroupAsWrittenCharacterised([c], GroupOf);
    assert GroupNames([c], GroupOf) == {"toString"};
    assert Filter([c], InGroup(GroupOf, "toString")) == [c];
  }

  /** The grouping as written agrees with `View` unless a kept command's group name is an `Object.prototype` member, when it throws. */
  lemma FilteredAndGroupedAsWrittenAgrees(commands: seq<Command>, term: string)
    ensures FilteredAndGroupedAsWritten(commands, term) ==
      if NoPrototypeNames(Filter(commands, Keep(term)), GroupOf) then Some(View(commands, term)) else None
  {
    GroupAsWrittenCharacterised(Filter(commands, Keep(term)), GroupOf);
  }
}
