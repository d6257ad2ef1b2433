/** The list of update conditions: every set is followed by a stable sort by status and age, and the
    list still answers like a map from condition types to statuses. */
module ConditionList {

  datatype ConditionStatus = True | False | Unknown

  /** `since` is the time of the last change of the status. */
  datatype Entry = Entry(name: string, status: ConditionStatus, since: int)

  function StatusOrder(s: ConditionStatus): nat {
    match s case True => 0 case False => 1 case Unknown => 2
  }

  /** The comparison of sortConditions: `a` may stand before `b`. */
  predicate Precedes(a: Entry, b: Entry) {
    StatusOrder(a.status) < StatusOrder(b.status) || (a.status == b.status && a.since <= b.since)
  }

  predicate Sorted(es: seq<Entry>) { forall i, j :: 0 <= i < j < |es| ==> Precedes(es[i], es[j]) }

  /** At most one entry per type. */
  predicate Unique(es: seq<Entry>) { forall i, j :: 0 <= i < j < |es| ==> es[i].name != es[j].name }

  /** What the list answers for a type: the status of the first entry, as the lookups find it. */
  function StatusOf(es: seq<Entry>, name: string): (r: seq<ConditionStatus>)
    ensures |r| <= 1
  {
    if es == [] then [] else if es[0].name == name then [es[0].status] else StatusOf(es[1..], name)
  }

  method IsConditionTrue(es: seq<Entry>, name: string) returns (yes: bool)
    ensures yes <==> StatusOf(es, name) == [True]
  {
    for i := 0 to |es|
      invariant StatusOf(es, name) == StatusOf(es[i..], name)
    {
      if es[i].name == name { return es[i].status == True; }
      assert es[i..][1..] == es[i + 1..];
    }
    return false;
  }

  /** With unique types, the answer does not depend on the order. */
  lemma {:induction false} StatusMeans(es: seq<Entry>, name: string, s: ConditionStatus)
    requires Unique(es)
    ensures StatusOf(es, name) == [s] <==> exists e :: e in es && e.name == name && e.status == s
  {
    if es != [] {
      var rest := es[1..];
      assert forall i :: 0 <= i < |rest| ==> rest[i] == es[i + 1];
      assert forall e :: e in es <==> e == es[0] || e in rest;
      StatusMeans(rest, name, s);
      if es[0].name == name {
        forall e | e in rest ensures e.name != name {
          var i :| 0 <= i < |rest| && rest[i] == e;
          assert es[i + 1] == e;
        }
      }
    }
  }

  // ----- setting -----

  /** The entry after a set: the time changes only with the status. */
  function Updated(e: Entry, s: ConditionStatus, now: int): Entry {
    if e.status == s then e else Entry(e.name, s, now)
  }

  /** Set in place if the type is there, else append. */
  function WithEntry(es: seq<Entry>, name: string, s: ConditionStatus, now: int): seq<Entry> {
    if es == [] then [Entry(name, s, now)]
    else if es[0].name == name then [Updated(es[0], s, now)] + es[1..]
    else [es[0]] + WithEntry(es[1..], name, s, now)
  }

  lemma {:induction false} WithEntryKeeps(es: seq<Entry>, name: string, s: ConditionStatus, now: int, other: string)
    requires Unique(es)
    ensures var r := WithEntry(es, name, s, now);
      && Unique(r)
      && (forall i :: 0 <= i < |r| ==> r[i].name == name || r[i] in es)
      && StatusOf(r, other) == if other == name then [s] else StatusOf(es, other)
  {
    if es != [] && es[0].name != name {
      var rest := es[1..];
      assert forall i :: 0 <= i < |rest| ==> rest[i] == es[i + 1];
      WithEntryKeeps(rest, name, s, now, other);
      var r := WithEntry(es, name, s, now);
      forall i, j | 0 <= i < j < |r| ensures r[i].name != r[j].name {
        if i == 0 { assert r[j] == WithEntry(rest, name, s, now)[j - 1]; }
        else { assert r[i] == WithEntry(rest, name, s, now)[i - 1] && r[j] == WithEntry(rest, name, s, now)[j - 1]; }
      }
    }
  }

  // ----- the stable sort -----

  /** Inserts behind everything that may stand before it. */
  function Insert(es: seq<Entry>, e: Entry): seq<Entry> {
    if es == [] then [e]
    else if Precedes(es[|es| - 1], e) then es + [e]
    else Insert(es[..|es| - 1], e) + [es[|es| - 1]]
  }

  function StableSort(es: seq<Entry>): seq<Entry> {
    if es == [] then [] else Insert(StableSort(es[..|es| - 1]), es[|es| - 1])
  }

  lemma {:induction false} InsertMembers(es: seq<Entry>, e: Entry)
    ensures multiset(Insert(es, e)) == multiset(es) + multiset{e}
    decreases |es|
  {
    if es != [] {
      assert es == es[..|es| - 1] + [es[|es| - 1]];
      if !Precedes(es[|es| - 1], e) { InsertMembers(es[..|es| - 1], e); }
    }
  }

  lemma {:induction false} InsertFacts(es: seq<Entry>, e: Entry)
    requires Sorted(es)
    ensures Sorted(Insert(es, e)) && multiset(Insert(es, e)) == multiset(es) + multiset{e}
    decreases |es|
  {
    InsertMembers(es, e);
    if es != [] {
      var front, last := es[..|es| - 1], es[|es| - 1];
      if Precedes(last, e) {
        assert forall i :: 0 <= i < |es| ==> Precedes(es[i], last) || es[i] == last;
      } else {
        InsertFacts(front, e);
        InsertedPrecede(front, e, last);
      }
    }
  }

  lemma InsertedPrecede(front: seq<Entry>, e: Entry, last: Entry)
    requires Sorted(front + [last]) && !Precedes(last, e)
    ensures forall i :: 0 <= i < |Insert(front, e)| ==> Precedes(Insert(front, e)[i], last)
  {
    var r := Insert(front, e);
    InsertMembers(front, e);
    forall i | 0 <= i < |r| ensures Precedes(r[i], last) {
      assert r[i] in multiset(r);
      if r[i] != e {
        var k :| 0 <= k < |front| && front[k] == r[i];
        assert (front + [last])[k] == r[i] && (front + [last])[|front|] == last;
      }
    }
  }

  lemma {:induction false} SortFacts(es: seq<Entry>)
    ensures Sorted(StableSort(es)) && multiset(StableSort(es)) == multiset(es)
  {
    if es != [] {
      SortFacts(es[..|es| - 1]);
      assert es == es[..|es| - 1] + [es[|es| - 1]];
      InsertFacts(StableSort(es[..|es| - 1]), es[|es| - 1]);
    }
  }

  function IfAlike(e: Entry, s: ConditionStatus, since: int): seq<Entry> {
    if e.status == s && e.since == since then [e] else []
  }

  /** The entries with one status and age, in the order in which they stand. */
  function Alike(es: seq<Entry>, s: ConditionStatus, since: int): seq<Entry> {
    if es == [] then [] else Alike(es[..|es| - 1], s, since) + IfAlike(es[|es| - 1], s, since)
  }

  lemma AlikeAppend(es: seq<Entry>, e: Entry, s: ConditionStatus, since: int)
    ensures Alike(es + [e], s, since) == Alike(es, s, since) + IfAlike(e, s, since)
  {
    assert (es + [e])[..|es|] == es;
  }

  lemma TellsApart(a: Entry, b: Entry, s: ConditionStatus, since: int)
    requires !Precedes(a, b)
    ensures IfAlike(a, s, since) == [] || IfAlike(b, s, since) == []
  {}

  lemma {:induction false} InsertIsStable(es: seq<Entry>, e: Entry, s: ConditionStatus, since: int)
    ensures Alike(Insert(es, e), s, since) == Alike(es, s, since) + IfAlike(e, s, since)
    decreases |es|
  {
    if es == [] || Precedes(es[|es| - 1], e) {
      AlikeAppend(es, e, s, since);
      assert es == [] ==> es + [e] == [e];
    } else {
      var front, last := es[..|es| - 1], es[|es| - 1];
      InsertIsStable(front, e, s, since);
      AlikeAppend(Insert(front, e), last, s, since);
      TellsApart(last, e, s, since);
      SwapWithNothing(Alike(front, s, since), IfAlike(e, s, since), IfAlike(last, s, since));
    }
  }

  lemma SwapWithNothing(a: seq<Entry>, b: seq<Entry>, c: seq<Entry>)
    requires b == [] || c == []
    ensures a + b + c == a + c + b
  {}

  /** Entries that the comparison does not tell apart keep their order. */
  lemma {:induction false} SortIsStable(es: seq<Entry>, s: ConditionStatus, since: int)
    ensures Alike(StableSort(es), s, since) == Alike(es, s, since)
    decreases |es|
  {
    if es != [] {
      SortIsStable(es[..|es| - 1], s, since);
      InsertIsStable(StableSort(es[..|es| - 1]), es[|es| - 1], s, since);
    }
  }

  /** Reordering unique entries leaves them unique and changes no answer. */
  lemma PermutationKeepsAnswers(a: seq<Entry>, b: seq<Entry>, name: string)
    requires Unique(a) && multiset(a) == multiset(b)
    ensures Unique(b) && StatusOf(b, name) == StatusOf(a, name)
  {
    PermutationKeepsUnique(a, b);
    forall s ensures StatusOf(b, name) == [s] <==> StatusOf(a, name) == [s] {
      StatusMeans(a, name, s);
      StatusMeans(b, name, s);
      SameMembers(a, b);
    }
    if StatusOf(a, name) != [] { assert StatusOf(a, name) == [StatusOf(a, name)[0]]; }
    if StatusOf(b, name) != [] { assert StatusOf(b, name) == [StatusOf(b, name)[0]]; }
  }

  lemma SameMembers(a: seq<Entry>, b: seq<Entry>)
    requires multiset(a) == multiset(b)
    ensures forall e :: e in a <==> e in b
  {
    forall e ensures e in a <==> e in b { assert e in a <==> e in multiset(a); assert e in b <==> e in multiset(b); }
  }

  lemma PermutationKeepsUnique(a: seq<Entry>, b: seq<Entry>)
    requires Unique(a) && multiset(a) == multiset(b)
    ensures Unique(b)
  {
    forall i, j | 0 <= i < j < |b| ensures b[i].name != b[j].name {
      SameMembers(a, b);
      assert b[i] in b && b[j] in b;
      var x :| 0 <= x < |a| && a[x] == b[i];
      var y :| 0 <= y < |a| && a[y] == b[j];
      if b[i].name == b[j].name {
        assert x == y;
        TwiceMeansTwice(b, i, j);
        OnceMeansOnce(a, x);
      }
    }
  }

  lemma TwiceMeansTwice(b: seq<Entry>, i: nat, j: nat)
    requires i < j < |b| && b[i] == b[j]
    ensures multiset(b)[b[i]] >= 2
  {
    assert b == b[..i] + [b[i]] + b[i + 1..j] + [b[j]] + b[j + 1..];
  }

  lemma OnceMeansOnce(a: seq<Entry>, x: nat)
    requires Unique(a) && x < |a|
    ensures multiset(a)[a[x]] == 1
  {
    assert a == a[..x] + [a[x]] + a[x + 1..];
    assert a[x] !in a[..x] && a[x] !in a[x + 1..];
  }

  // ----- SetUpdateStatusCondition -----

  /** The list object of the status; a set replaces or appends the entry and then sorts in place. */
  class Conditions {
    var entries: seq<Entry>

    predicate Valid() reads this { Unique(entries) }

    constructor ()
      ensures Valid() && entries == []
    {
      entries := [];
    }

    method Set(name: string, s: ConditionStatus, now: int)
      requires Valid()
      modifies this
      ensures entries == StableSort(WithEntry(old(entries), name, s, now))
      ensures Valid() && Sorted(entries)
      ensures forall other :: StatusOf(entries, other) == if other == name then [s] else StatusOf(old(entries), other)
    {
      ghost var before := entries;
      Put(name, s, now);
      Sort();
      SetKeeps(before, name, s, now, name);
      forall other ensures StatusOf(entries, other) == if other == name then [s] else StatusOf(before, other) {
        SetKeeps(before, name, s, now, other);
      }
    }

    /** The replace-or-append of the library. */
    method Put(name: string, s: ConditionStatus, now: int)
      modifies this
      ensures entries == WithEntry(old(entries), name, s, now)
    {
      ghost var before := entries;
      var i := 0;
      while i < |entries| && entries[i].name != name
        invariant 0 <= i <= |entries| && entries == before
        invariant WithEntry(before, name, s, now) == before[..i] + WithEntry(before[i..], name, s, now)
      {
        assert before[i..][1..] == before[i + 1..];
        i := i + 1;
      }
      if i < |entries| {
        entries := entries[..i] + [Updated(entries[i], s, now)] + entries[i + 1..];
        assert before[i..][1..] == before[i + 1..];
      } else {
        entries := entries + [Entry(name, s, now)];
      }
    }

    /** An insertion sort, which is stable. */
    method Sort()
      modifies this
      ensures entries == StableSort(old(entries))
      ensures Sorted(entries) && multiset(entries) == multiset(old(entries))
      ensures forall s, since :: Alike(entries, s, since) == Alike(old(entries), s, since)
    {
      ghost var before := entries;
      SortFacts(before);
      forall s, since ensures Alike(StableSort(before), s, since) == Alike(before, s, since) { SortIsStable(before, s, since); }
      var sorted := [];
      for i := 0 to |entries|
        invariant entries == before && sorted == StableSort(before[..i])
      {
        assert before[..i + 1][..i] == before[..i];
        sorted := InsertSorted(sorted, entries[i]);
      }
      assert before[..|before|] == before;
      entries := sorted;
    }
  }

  method InsertSorted(es: seq<Entry>, e: Entry) returns (r: seq<Entry>)
    ensures r == Insert(es, e)
  {
    var k := |es|;
    assert es[..k] == es;
    while k > 0 && !Precedes(es[k - 1], e)
      invariant 0 <= k <= |es|
      invariant Insert(es, e) == Insert(es[..k], e) + es[k..]
    {
      assert es[..k][..k - 1] == es[..k - 1];
      k := k - 1;
    }
    r := es[..k] + [e] + es[k..];
  }

  lemma SetKeeps(es: seq<Entry>, name: string, s: ConditionStatus, now: int, other: string)
    requires Unique(es)
    ensures var r := StableSort(WithEntry(es, name, s, now));
      Unique(r) && Sorted(r) && StatusOf(r, other) == if other == name then [s] else StatusOf(es, other)
  {
    var changed := WithEntry(es, name, s, now);
    WithEntryKeeps(es, name, s, now, other);
    SortFacts(changed);
    PermutationKeepsAnswers(changed, StableSort(changed), other);
  }

  // ----- over any sequence of sets -----

  datatype Change = Change(name: string, status: ConditionStatus, now: int)

  function AfterAll(changes: seq<Change>): seq<Entry> {
    if changes == [] then []
    else
      var c := changes[|changes| - 1];
      StableSort(WithEntry(AfterAll(changes[..|changes| - 1]), c.name, c.status, c.now))
  }

  /** The map that the list stands for. */
  function AsMap(changes: seq<Change>): map<string, ConditionStatus> {
    if changes == [] then map[]
    else AsMap(changes[..|changes| - 1])[changes[|changes| - 1].name := changes[|changes| - 1].status]
  }

  /** After any sequence of sets the list has one entry per type and answers exactly like the map. */
  lemma {:induction false} ListRefinesMap(changes: seq<Change>, name: string)
    ensures var es, m := AfterAll(changes), AsMap(changes);
      Unique(es) && Sorted(es) && StatusOf(es, name) == if name in m then [m[name]] else []
    decreases |changes|
  {
    if changes != [] {
      var front, c := changes[..|changes| - 1], changes[|changes| - 1];
      ListRefinesMap(front, name);
      SetKeeps(AfterAll(front), c.name, c.status, c.now, name);
    }
  }
}
