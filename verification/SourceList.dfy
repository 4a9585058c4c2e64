/** Listing the sources of an instruction state in order, and reading a list back as a set. */
module SourceList {
  import opened Domain
  import opened Ordering

  function SourceKey(s: InstructionSource): Key {
    KeyOf(s.scope, s.path)
  }

  /** Every source is filed under its own path. */
  ghost predicate Keyed(m: map<string, InstructionSource>) {
    forall p :: p in m ==> m[p].path == p
  }

  ghost function Pick(m: map<string, InstructionSource>): (p: string)
    requires m != map[]
    ensures p in m
  {
    var p :| p in m;
    p
  }

  /** The sources in some order. */
  ghost function Listing(m: map<string, InstructionSource>): seq<InstructionSource>
    decreases |m|
  {
    if m == map[] then [] else [m[Pick(m)]] + Listing(m - {Pick(m)})
  }

  /** The sources, shallow scopes first and alphabetically. */
  ghost function OrderedSources(m: map<string, InstructionSource>): seq<InstructionSource> {
    Sort(SourceKey, Listing(m))
  }

  /** Sources by path, a later one replacing an earlier one of the same path. */
  function ByPath(sources: seq<InstructionSource>): map<string, InstructionSource> {
    if sources == [] then map[]
    else ByPath(sources[..|sources| - 1])[sources[|sources| - 1].path := sources[|sources| - 1]]
  }

  /** The list shows the sources of `m` and no others. */
  ghost predicate Shows(list: seq<InstructionSource>, m: map<string, InstructionSource>) {
    && (forall s :: s in list ==> s.path in m && m[s.path] == s)
    && (forall p :: p in m ==> m[p] in list)
  }

  lemma {:induction false} ListingShows(m: map<string, InstructionSource>)
    requires Keyed(m)
    ensures Shows(Listing(m), m)
    decreases |m|
  {
    if m != map[] {
      var rest, first := m - {Pick(m)}, m[Pick(m)];
      ListingShows(rest);
      assert Listing(m) == [first] + Listing(rest);
      forall s | s in Listing(m)
        ensures s.path in m && m[s.path] == s
      {
        assert s == first || s in Listing(rest);
      }
      forall p | p in m
        ensures m[p] in Listing(m)
      {
        assert p == Pick(m) || rest[p] in Listing(rest);
      }
    }
  }

  lemma OrderedSourcesShow(m: map<string, InstructionSource>)
    requires Keyed(m)
    ensures Shows(OrderedSources(m), m)
  {
    ListingShows(m);
    forall s
      ensures s in OrderedSources(m) <==> s in Listing(m)
    {
      SortMembers(SourceKey, Listing(m), s);
    }
  }

  lemma {:induction false} ByPathMembers(list: seq<InstructionSource>)
    ensures forall p :: p in ByPath(list) ==> ByPath(list)[p] in list && ByPath(list)[p].path == p
    ensures forall s :: s in list ==> s.path in ByPath(list)
  {
    if list != [] {
      var less, last := list[..|list| - 1], list[|list| - 1];
      ByPathMembers(less);
      assert list == less + [last];
    }
  }

  /** Reading back a list that shows a set gives the set. */
  lemma ByPathIs(list: seq<InstructionSource>, m: map<string, InstructionSource>)
    requires Shows(list, m) && Keyed(m)
    ensures ByPath(list) == m
  {
    ByPathMembers(list);
    forall p | p in m
      ensures p in ByPath(list)
    {
      assert m[p] in list;
    }
  }

  /** Listing the sources in order and reading them back by path gives the set. */
  lemma OrderedSourcesReadBack(m: map<string, InstructionSource>)
    requires Keyed(m)
    ensures ByPath(OrderedSources(m)) == m
  {
    OrderedSourcesShow(m);
    ByPathIs(OrderedSources(m), m);
  }

  lemma ByPathIsKeyed(list: seq<InstructionSource>)
    ensures Keyed(ByPath(list))
  {
    ByPathMembers(list);
  }

  /** Taking one source out of a set. */
  lemma ValuesWithout(m: map<string, InstructionSource>, p: string)
    requires Keyed(m) && p in m
    ensures m.Values == {m[p]} + (m - {p}).Values && m[p] !in (m - {p}).Values
  {
    var rest := m - {p};
    forall s | s in m.Values
      ensures s in {m[p]} + rest.Values
    {
      var q :| q in m && m[q] == s;
      assert q == p || (q in rest && rest[q] == s);
    }
  }

  lemma OneMoreValue(s: InstructionSource, rest: set<InstructionSource>)
    requires s !in rest
    ensures multiset({s} + rest) == multiset{s} + multiset(rest)
  {
  }

  lemma ListedFirst(s: InstructionSource, rest: seq<InstructionSource>)
    ensures multiset([s] + rest) == multiset{s} + multiset(rest)
  {
  }

  /** Each source is listed once. */
  lemma {:induction false} ListingValues(m: map<string, InstructionSource>)
    requires Keyed(m)
    ensures multiset(Listing(m)) == multiset(m.Values)
    decreases |m|
  {
    if m != map[] {
      var p := Pick(m);
      ListingValues(m - {p});
      ValuesWithout(m, p);
      OneMoreValue(m[p], (m - {p}).Values);
      ListedFirst(m[p], Listing(m - {p}));
    } else {
      assert m.Values == {};
    }
  }

  lemma KeysDistinguish(list: seq<InstructionSource>, m: map<string, InstructionSource>)
    requires Shows(list, m)
    ensures Distinguishes(SourceKey, list)
  {
  }

  /** Collect the sources from the map in any order, keeping them sorted. */
  method ListSources(m: map<string, InstructionSource>) returns (list: seq<InstructionSource>)
    requires Keyed(m)
    ensures list == OrderedSources(m)
  {
    list := [];
    var rest := m;
    while rest != map[]
      invariant Collected(m, rest, list)
      decreases |rest|
    {
      var p :| p in rest;
      CollectOne(m, rest, list, p);
      list := Insert(SourceKey, rest[p], list);
      rest := rest - {p};
    }
    CollectedAll(m, list);
  }

  /** The sources taken so far are in order; with the others they are all there are. */
  ghost predicate Collected(m: map<string, InstructionSource>, rest: map<string, InstructionSource>,
                            list: seq<InstructionSource>)
  {
    Keyed(rest) && Sorted(SourceKey, list) && multiset(list) + multiset(rest.Values) == multiset(m.Values)
  }

  lemma CollectOne(m: map<string, InstructionSource>, rest: map<string, InstructionSource>,
                   list: seq<InstructionSource>, p: string)
    requires Collected(m, rest, list) && p in rest
    ensures Collected(m, rest - {p}, Insert(SourceKey, rest[p], list))
  {
    ValuesWithout(rest, p);
    OneMoreValue(rest[p], (rest - {p}).Values);
    InsertSorted(SourceKey, rest[p], list);
    InsertKeeps(SourceKey, rest[p], list);
    ListedFirst(rest[p], []);
  }

  lemma CollectedAll(m: map<string, InstructionSource>, list: seq<InstructionSource>)
    requires Keyed(m) && Collected(m, map[], list)
    ensures list == OrderedSources(m)
  {
    var none: map<string, InstructionSource> := map[];
    assert none.Values == {};
    ListingValues(m);
    SortSorts(SourceKey, Listing(m));
    OrderedSourcesShow(m);
    KeysDistinguish(OrderedSources(m), m);
    SortedUnique(SourceKey, OrderedSources(m), list);
  }
}
