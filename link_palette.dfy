/** The link palette: search, grouping, category icons, and the search-term reset on new links. */
module LinkPalette {
  import opened Types
  import opened Text
  import opened Search
  import JsObject

  /** The `filter` callback for links: the payload field is the URL. */
  function Keep(term: string): Link -> bool {
    (l: Link) => Matches(term, l.labelText, l.url, l.category, l.group)
  }

  function GroupOf(l: Link): Option<string> {
    l.group
  }

  /** What the palette shows for a search term: the kept links grouped by name. */
  function View(links: seq<Link>, term: string): map<string, seq<Link>> {
    Grouped(Filter(links, Keep(term)), GroupOf)
  }

  /** `filteredAndGroupedLinks`: filter, then group by a scan that pushes onto each group's list. */
  method FilteredAndGrouped(links: seq<Link>, term: string) returns (groups: map<string, seq<Link>>)
    ensures groups == View(links, term)
  {
    var filtered := Filter(links, Keep(term));
    groups := GroupByName(filtered, GroupOf);
  }

  /** A link is kept iff the lower-cased term occurs in its lower-cased label, URL, category or present group. */
  lemma KeptIff(links: seq<Link>, term: string, l: Link)
    ensures l in Filter(links, Keep(term)) <==>
      && l in links
      && (|| Includes(Lower(l.labelText), Lower(term))
          || Includes(Lower(l.url), Lower(term))
          || Includes(Lower(l.category), Lower(term))
          || (l.group.Some? && Includes(Lower(l.group.value), Lower(term))))
  {
    FilterMembership(links, Keep(term), l);
  }

  /** The kept links keep their input order. */
  lemma KeptInOrder(links: seq<Link>, term: string)
    ensures IsSubsequence(Filter(links, Keep(term)), links)
  {
    FilterIsSubsequence(links, Keep(term));
  }

  /** With an empty search term every link is kept and grouped. */
  lemma EmptyTermKeepsAll(links: seq<Link>)
    ensures Filter(links, Keep("")) == links
    ensures View(links, "") == Grouped(links, GroupOf)
  {
    forall i | 0 <= i < |links|
      ensures Keep("")(links[i])
    {
      var l := links[i];
      EmptyTermMatches(l.labelText, l.url, l.category, l.group);
    }
    FilterKeepsAll(links, Keep(""));
  }

  /** Each kept link sits in exactly one group, its group or "General"; groups are non-empty and keep the filtered order. */
  lemma GroupsPartitionKept(links: seq<Link>, term: string, l: Link)
    requires l in Filter(links, Keep(term))
    ensures var v := View(links, term);
      && GroupName(l.group) in v
      && l in v[GroupName(l.group)]
      && (forall name :: name in v && l in v[name] ==> name == GroupName(l.group))
      && (forall name :: name in v ==> v[name] != [] && IsSubsequence(v[name], Filter(links, Keep(term))))
  {
    var filtered := Filter(links, Keep(term));
    EachEntryInExactlyOneGroup(filtered, GroupOf, l);
    forall name | name in View(links, term)
      ensures View(links, term)[name] != [] && IsSubsequence(View(links, term)[name], filtered)
    {
      GroupNonEmpty(filtered, GroupOf, name);
      GroupKeepsOrder(filtered, GroupOf, name);
    }
  }

  /** "No links found." is shown exactly when no link matches. */
  lemma NothingFoundIff(links: seq<Link>, term: string)
    ensures View(links, term) == map[] <==> forall i :: 0 <= i < |links| ==> !Keep(term)(links[i])
  {
    GroupedEmptyIff(Filter(links, Keep(term)), GroupOf);
    FilterEmptyIff(links, Keep(term));
  }

  // ---- component state ----

  /** The palette's `links` prop and `searchTerm` state. */
  class Palette {
    var links: seq<Link>
    var searchTerm: string

    /** What the palette currently shows. */
    function Shown(): map<string, seq<Link>>
      reads this
    {
      View(links, searchTerm)
    }

    constructor (links: seq<Link>)
      ensures this.links == links && searchTerm == ""
      ensures Shown() == Grouped(links, GroupOf)
    {
      this.links := links;
      searchTerm := "";
      new;
      EmptyTermKeepsAll(links);
    }

    /** Typing in the search box. */
    method SetSearchTerm(term: string)
      modifies this
      ensures searchTerm == term && links == old(links)
    {
      searchTerm := term;
    }

    /** A new `links` prop: the effect on `[links]` resets the term, so every link is shown again. */
    method ReceiveLinks(newLinks: seq<Link>)
      modifies this
      ensures links == newLinks && searchTerm == ""
      ensures Shown() == Grouped(newLinks, GroupOf)
    {
      links := newLinks;
      searchTerm := "";
      EmptyTermKeepsAll(newLinks);
    }
  }

  // ---- category icons ----

  datatype Icon = Book | Code | Brain | Globe

  /** `categoryIcons`, keyed by lower-case category. */
  const CategoryIcons: map<string, Icon> :=
    map["documentation" := Book, "frameworks" := Code, "styling" := Code, "ai" := Brain]

  /** `getCategoryIcon`: a case-insensitive table lookup with `Globe` for every other category. */
  function CategoryIcon(category: string): (icon: Icon)
    ensures Lower(category) in CategoryIcons ==> icon == CategoryIcons[Lower(category)]
    ensures Lower(category) !in CategoryIcons ==> icon == Globe
  {
    var key := Lower(category);
    if key in CategoryIcons then CategoryIcons[key] else Globe
  }

  /** The lookup does not depend on the case of the category. */
  lemma CategoryIconIgnoresCase(category: string)
    ensures CategoryIcon(category) == CategoryIcon(Lower(category))
  {
    LowerIdempotent(category);
  }

  /** `getCategoryIcon` as written, over the object literal; `None` is a render failure on an inherited member. */
  function CategoryIconAsWritten(category: string): Option<Icon> {
    match JsObject.Get(CategoryIcons, Lower(category))
    case Own(icon) => Some(icon)
    case Undefined => Some(Globe)
    case Inherited(_) => None
  }

  /** As written, category "__proto__" finds `Object.prototype` instead of an icon; the intended lookup gives `Globe`. */
  lemma ProtoCategoryBreaksIcon()
    ensures CategoryIconAsWritten("__proto__") == None
    ensures CategoryIcon("__proto__") == Globe
  {
    assert Lower("__proto__") == "__proto__";
  }

  /** Away from those names the lookup as written agrees with `CategoryIcon`. */
  lemma CategoryIconAsWrittenAgrees(category: string)
    requires Lower(category) !in JsObject.PrototypeMembers
    ensures CategoryIconAsWritten(category) == Some(CategoryIcon(category))
  {
  }

  // ---- the grouping as written ----

  /** `filteredAndGroupedLinks` as written, with the JavaScript object semantics of `acc`; `None` is a thrown TypeError. */
  function FilteredAndGroupedAsWritten(links: seq<Link>, term: string): Option<map<string, seq<Link>>> {
    GroupAsWritten(Filter(links, Keep(term)), GroupOf)
  }

  /** As written, a link in group "constructor" makes the palette throw; the intended view has a "constructor" group. */
  lemma ConstructorGroupThrows(l: Link)
    requires l.group == Some("constructor")
    ensures FilteredAndGroupedAsWritten([l], "") == None
    ensures View([l], "") == map["constructor" := [l]]
  {
    EmptyTermKeepsAll([l]);
    GroupAsWrittenCharacterised([l], GroupOf);
    assert GroupNames([l], GroupOf) == {"constructor"};
    assert Filter([l], InGroup(GroupOf, "constructor")) == [l];
  }
}
