/**
 * The search-and-group projection both palettes compute: keep the entries the
 * search term matches, then split them into named groups.
 */
module Search {
  import opened Types
  import opened Text
  import JsObject

  /** The `filter` callback: the lower-cased term occurs in a lower-cased field; an absent group never matches. */
  predicate Matches(term: string, labelText: string, payload: string, category: string, group: Option<string>) {
    var q := Lower(term);
    || Includes(Lower(labelText), q)
    || Includes(Lower(payload), q)
    || Includes(Lower(category), q)
    || (group.Some? && Includes(Lower(group.value), q))
  }

  /** An empty term matches every entry. */
  lemma EmptyTermMatches(labelText: string, payload: string, category: string, group: Option<string>)
    ensures Matches("", labelText, payload, category, group)
  {
    assert Lower("") == "";
    IncludesEmpty(Lower(labelText));
  }

  /** `Array.prototype.filter`. */
  function Filter<T(==)>(s: seq<T>, keep: T -> bool): (r: seq<T>)
    ensures |r| <= |s|
    ensures forall i :: 0 <= i < |r| ==> keep(r[i])
  {
    if s == [] then [] else (if keep(s[0]) then [s[0]] else []) + Filter(s[1..], keep)
  }

  /** `r` can be obtained from `s` by deleting entries. */
  ghost predicate IsSubsequence<T>(r: seq<T>, s: seq<T>)
    decreases |s|
  {
    || r == []
    || (s != [] && ((r[0] == s[0] && IsSubsequence(r[1..], s[1..])) || IsSubsequence(r, s[1..])))
  }

  /** The filtered list is a subsequence of its input: input order is kept. */
  lemma {:induction false} FilterIsSubsequence<T>(s: seq<T>, keep: T -> bool)
    ensures IsSubsequence(Filter(s, keep), s)
  {
    if s != [] {
      FilterIsSubsequence(s[1..], keep);
      var r := Filter(s, keep);
      if keep(s[0]) {
        assert r[0] == s[0] && r[1..] == Filter(s[1..], keep);
      } else {
        assert r == Filter(s[1..], keep);
      }
    }
  }

  /** Every matching entry is kept as often as it occurs; no other entry is kept. */
  lemma {:induction false} FilterCount<T>(s: seq<T>, keep: T -> bool, x: T)
    ensures multiset(Filter(s, keep))[x] == if keep(x) then multiset(s)[x] else 0
  {
    if s != [] {
      FilterCount(s[1..], keep, x);
      assert s == [s[0]] + s[1..];
      assert multiset(s) == multiset([s[0]]) + multiset(s[1..]);
    }
  }

  /** An entry is kept iff it is in the input and matches. */
  lemma FilterMembership<T>(s: seq<T>, keep: T -> bool, x: T)
    ensures x in Filter(s, keep) <==> x in s && keep(x)
  {
    FilterCount(s, keep, x);
  }

  /** When every entry matches, the filter keeps the whole list. */
  lemma {:induction false} FilterKeepsAll<T>(s: seq<T>, keep: T -> bool)
    requires forall i :: 0 <= i < |s| ==> keep(s[i])
    ensures Filter(s, keep) == s
  {
    if s != [] {
      FilterKeepsAll(s[1..], keep);
    }
  }

  /** The filter keeps nothing iff no entry matches. */
  lemma FilterEmptyIff<T>(s: seq<T>, keep: T -> bool)
    ensures Filter(s, keep) == [] <==> forall i :: 0 <= i < |s| ==> !keep(s[i])
  {
    forall i | 0 <= i < |s| && keep(s[i]) ensures Filter(s, keep) != [] {
      FilterMembership(s, keep, s[i]);
    }
  }

  /** Filtering a list extended by one entry extends the filtered list by that entry if it matches. */
  lemma {:induction false} FilterSnoc<T>(s: seq<T>, x: T, keep: T -> bool)
    ensures Filter(s + [x], keep) == Filter(s, keep) + (if keep(x) then [x] else [])
  {
    if s == [] {
      assert [x][1..] == [];
    } else {
      FilterSnoc(s[1..], x, keep);
      assert (s + [x])[1..] == s[1..] + [x];
    }
  }

  // ---- grouping ----

  const DefaultGroup: string := "General"

  /** `entry.group || "General"`: an absent or empty group falls back to "General". */
  function GroupName(group: Option<string>): (name: string)
    ensures name != ""
    ensures name == DefaultGroup <==> group == None || group == Some("") || group == Some(DefaultGroup)
    ensures group.Some? && group.value != "" ==> name == group.value
  {
    if group.Some? && group.value != "" then group.value else DefaultGroup
  }

  function InGroup<T(==)>(groupOf: T -> Option<string>, name: string): T -> bool {
    x => GroupName(groupOf(x)) == name
  }

  /** The names of the groups of the entries of `s`. */
  function GroupNames<T(==)>(s: seq<T>, groupOf: T -> Option<string>): set<string> {
    set x | x in s :: GroupName(groupOf(x))
  }

  /** Reference definition of the grouped view: each group holds, in order, the entries with its name. */
  function Grouped<T(==)>(s: seq<T>, groupOf: T -> Option<string>): map<string, seq<T>> {
    map name | name in GroupNames(s, groupOf) :: Filter(s, InGroup(groupOf, name))
  }

  /** One step of the `reduce`: appending an entry appends it to its group, creating the group if new. */
  lemma GroupedSnoc<T>(s: seq<T>, x: T, groupOf: T -> Option<string>)
    ensures var m := Grouped(s, groupOf);
            var name := GroupName(groupOf(x));
            Grouped(s + [x], groupOf) == m[name := (if name in m then m[name] else []) + [x]]
  {
    var m := Grouped(s, groupOf);
    var name := GroupName(groupOf(x));
    var m' := Grouped(s + [x], groupOf);
    assert GroupNames(s + [x], groupOf) == GroupNames(s, groupOf) + {name} by {
      forall y | y in s + [x] ensures y in s || y == x { }
    }
    forall n | n in m'.Keys
      ensures m'[n] == m[name := (if name in m then m[name] else []) + [x]][n]
    {
      FilterSnoc(s, x, InGroup(groupOf, n));
      if n == name && name !in m {
        FilterEmptyIff(s, InGroup(groupOf, n));
      }
    }
  }

  /** The `reduce` of both palettes: scan the filtered entries, pushing each onto its group's list. */
  method GroupByName<T(==)>(filtered: seq<T>, groupOf: T -> Option<string>) returns (acc: map<string, seq<T>>)
    ensures acc == Grouped(filtered, groupOf)
  {
    acc := map[];
    for i := 0 to |filtered|
      invariant acc == Grouped(filtered[..i], groupOf)
    {
      var entry := filtered[i];
      var groupName := GroupName(groupOf(entry));
      if groupName !in acc {
        acc := acc[groupName := []];
      }
      acc := acc[groupName := acc[groupName] + [entry]];
      GroupedSnoc(filtered[..i], entry, groupOf);
      assert filtered[..i + 1] == filtered[..i] + [entry];
    }
    assert filtered[..|filtered|] == filtered;
  }

  /** A group holds exactly the entries carrying its name, each as often as in the input. */
  lemma GroupContents<T>(s: seq<T>, groupOf: T -> Option<string>, name: string, x: T)
    requires name in Grouped(s, groupOf)
    ensures multiset(Grouped(s, groupOf)[name])[x] == if GroupName(groupOf(x)) == name then multiset(s)[x] else 0
  {
    FilterCount(s, InGroup(groupOf, name), x);
  }

  /** Within a group, entries keep their relative order from the scanned list. */
  lemma GroupKeepsOrder<T>(s: seq<T>, groupOf: T -> Option<string>, name: string)
    requires name in Grouped(s, groupOf)
    ensures IsSubsequence(Grouped(s, groupOf)[name], s)
  {
    FilterIsSubsequence(s, InGroup(groupOf, name));
  }

  /** No group list is empty. */
  lemma GroupNonEmpty<T>(s: seq<T>, groupOf: T -> Option<string>, name: string)
    requires name in Grouped(s, groupOf)
    ensures Grouped(s, groupOf)[name] != []
  {
    var x :| x in s && GroupName(groupOf(x)) == name;
    FilterMembership(s, InGroup(groupOf, name), x);
  }

  /** Each entry lands in exactly one group: the one named by its group, or "General". */
  lemma EachEntryInExactlyOneGroup<T>(s: seq<T>, groupOf: T -> Option<string>, x: T)
    requires x in s
    ensures GroupName(groupOf(x)) in Grouped(s, groupOf)
    ensures x in Grouped(s, groupOf)[GroupName(groupOf(x))]
    ensures forall name :: name in Grouped(s, groupOf) && x in Grouped(s, groupOf)[name] ==> name == GroupName(groupOf(x))
  {
    var m := Grouped(s, groupOf);
    FilterMembership(s, InGroup(groupOf, GroupName(groupOf(x))), x);
    forall name | name in m && x in m[name] ensures name == GroupName(groupOf(x)) {
      FilterMembership(s, InGroup(groupOf, name), x);
    }
  }

  /** The grouped view is empty iff there was nothing to group. */
  lemma GroupedEmptyIff<T>(s: seq<T>, groupOf: T -> Option<string>)
    ensures Grouped(s, groupOf) == map[] <==> s == []
  {
    if s != [] {
      assert GroupName(groupOf(s[0])) in Grouped(s, groupOf);
    }
  }

  /** The group lists laid out one after another, in the order `order` lists the group names. */
  function Concat<T(==)>(m: map<string, seq<T>>, order: seq<string>): seq<T> {
    if order == [] then [] else (if order[0] in m then m[order[0]] else []) + Concat(m, order[1..])
  }

  ghost predicate Distinct(order: seq<string>) {
    forall i, j :: 0 <= i < j < |order| ==> order[i] != order[j]
  }

  lemma {:induction false} ConcatCount<T>(s: seq<T>, groupOf: T -> Option<string>, order: seq<string>, x: T)
    requires Distinct(order)
    ensures multiset(Concat(Grouped(s, groupOf), order))[x] == if GroupName(groupOf(x)) in order then multiset(s)[x] else 0
  {
    var m := Grouped(s, groupOf);
    if order != [] {
      ConcatCount(s, groupOf, order[1..], x);
      var name := GroupName(groupOf(x));
      assert name == order[0] ==> name !in order[1..] by {
        forall k | 0 <= k < |order[1..]| ensures order[1..][k] != order[0] {
          assert order[1..][k] == order[k + 1];
        }
      }
      assert name in order <==> name == order[0] || name in order[1..] by {
        assert order == [order[0]] + order[1..];
      }
      if order[0] in m {
        GroupContents(s, groupOf, order[0], x);
      } else if name == order[0] {
        assert x !in s;
      }
    }
  }

  lemma SameCountsSameMultiset<T>(a: seq<T>, b: seq<T>)
    requires forall x :: multiset(a)[x] == multiset(b)[x]
    ensures multiset(a) == multiset(b)
  {
  }

  lemma GroupsPartitionAt<T>(s: seq<T>, groupOf: T -> Option<string>, order: seq<string>, x: T)
    requires Distinct(order)
    requires forall name :: name in Grouped(s, groupOf) ==> name in order
    ensures multiset(Concat(Grouped(s, groupOf), order))[x] == multiset(s)[x]
  {
    ConcatCount(s, groupOf, order, x);
    if x in s {
      assert GroupName(groupOf(x)) in Grouped(s, groupOf);
    }
  }

  /** Laying out the groups in any order of their names yields a permutation of the scanned list: same length, same entries. */
  lemma GroupsPartition<T>(s: seq<T>, groupOf: T -> Option<string>, order: seq<string>)
    requires Distinct(order)
    requires forall name :: name in Grouped(s, groupOf) ==> name in order
    ensures multiset(Concat(Grouped(s, groupOf), order)) == multiset(s)
    ensures |Concat(Grouped(s, groupOf), order)| == |s|
  {
    var c := Concat(Grouped(s, groupOf), order);
    forall x ensures multiset(c)[x] == multiset(s)[x] {
      GroupsPartitionAt(s, groupOf, order, x);
    }
    SameCountsSameMultiset(c, s);
    assert |multiset(c)| == |c| && |multiset(s)| == |s|;
  }

  // ---- the reduce as written, over a JavaScript object literal ----

  /**
   * The `reduce` as the source writes it: `acc` is `{}`, so `acc[groupName]` may find a member
   * inherited from `Object.prototype`; that value is truthy, so no list is created, and
   * `.push` on it throws. `None` stands for that TypeError.
   */
  function GroupAsWritten<T(==)>(s: seq<T>, groupOf: T -> Option<string>): Option<map<string, seq<T>>>
    decreases |s|
  {
    if s == [] then Some(map[])
    else
      match GroupAsWritten(s[..|s| - 1], groupOf)
      case None => None
      case Some(acc) =>
        var entry := s[|s| - 1];
        var groupName := GroupName(groupOf(entry));
        match JsObject.Get(acc, groupName)
        case Own(list) => Some(acc[groupName := list + [entry]])
        case Undefined => Some(acc[groupName := [entry]])
        case Inherited(_) => None
  }

  /** No entry's group name is the name of an `Object.prototype` member. */
  ghost predicate NoPrototypeNames<T>(s: seq<T>, groupOf: T -> Option<string>) {
    forall i :: 0 <= i < |s| ==> GroupName(groupOf(s[i])) !in JsObject.PrototypeMembers
  }

  /** The reduce as written throws iff some group name is an `Object.prototype` member; otherwise it agrees with `Grouped`. */
  lemma {:induction false} GroupAsWrittenCharacterised<T>(s: seq<T>, groupOf: T -> Option<string>)
    ensures GroupAsWritten(s, groupOf) == if NoPrototypeNames(s, groupOf) then Some(Grouped(s, groupOf)) else None
    decreases |s|
  {
    if s != [] {
      var p, x := s[..|s| - 1], s[|s| - 1];
      assert s == p + [x];
      GroupAsWrittenCharacterised(p, groupOf);
      GroupedSnoc(p, x, groupOf);
      assert NoPrototypeNames(s, groupOf) <==> NoPrototypeNames(p, groupOf) && GroupName(groupOf(x)) !in JsObject.PrototypeMembers by {
        forall i | 0 <= i < |p| ensures p[i] == s[i] { }
      }
      var r := GroupAsWritten(p, groupOf);
      if r.Some? {
        var acc, name := r.value, GroupName(groupOf(x));
        if name in acc {
          var y :| y in p && GroupName(groupOf(y)) == name;
          var k :| 0 <= k < |p| && p[k] == y;
          assert GroupAsWritten(s, groupOf) == Some(acc[name := acc[name] + [x]]);
        } else if name in JsObject.PrototypeMembers {
          assert GroupAsWritten(s, groupOf) == None;
        } else {
          assert GroupAsWritten(s, groupOf) == Some(acc[name := [x]]);
          assert [] + [x] == [x];
          assert acc[name := [x]] == Grouped(s, groupOf);
        }
      }
    }
  }
}
