/** Grouping of the input rows: by ticker into a hash map whose lists are then
    sorted by date, and by date into a sorted map (a `TreeMap`), modelled as a
    strictly ascending sequence of cohorts. */
module Grouping {
  import opened Records
  import opened StringOrder

  /** The key a grouping uses. */
  datatype GroupKey = ByTicker | ByDate

  function KeyOf(x: StockData, key: GroupKey): string
  {
    match key
    case ByTicker => x.ticker
    case ByDate => x.date
  }

  lemma SplitLast(s: seq<StockData>)
    requires s != []
    ensures s == s[..|s| - 1] + [s[|s| - 1]]
  {
  }

  lemma SplitHead(s: seq<StockData>)
    requires s != []
    ensures s == [s[0]] + s[1..]
  {
  }

  lemma PrefixSnoc(s: seq<StockData>, i: nat)
    requires i < |s|
    ensures s[..i + 1] == s[..i] + [s[i]]
  {
  }

  /** The records of `s` whose key is `k`, in input order. */
  function Members(s: seq<StockData>, key: GroupKey, k: string): seq<StockData>
  {
    if s == [] then []
    else Members(s[..|s| - 1], key, k) + (if KeyOf(s[|s| - 1], key) == k then [s[|s| - 1]] else [])
  }

  /** The distinct keys occurring in `s`. */
  function KeysOf(s: seq<StockData>, key: GroupKey): set<string>
  {
    if s == [] then {} else KeysOf(s[..|s| - 1], key) + {KeyOf(s[|s| - 1], key)}
  }

  lemma {:induction false} MembersConcat(a: seq<StockData>, b: seq<StockData>, key: GroupKey, k: string)
    ensures Members(a + b, key, k) == Members(a, key, k) + Members(b, key, k)
  {
    if b == [] {
      assert a + b == a;
    } else {
      assert (a + b)[..|a + b| - 1] == a + b[..|b| - 1];
      MembersConcat(a, b[..|b| - 1], key, k);
    }
  }

  /** A record is a member of group `k` exactly when it occurs in the input
      with key `k`. */
  lemma {:induction false} MembersMembership(s: seq<StockData>, key: GroupKey, k: string, x: StockData)
    ensures x in Members(s, key, k) <==> x in s && KeyOf(x, key) == k
  {
    if s != [] {
      MembersMembership(s[..|s| - 1], key, k, x);
      SplitLast(s);
    }
  }

  lemma {:induction false} MembersOfAbsentKey(s: seq<StockData>, key: GroupKey, k: string)
    requires k !in KeysOf(s, key)
    ensures Members(s, key, k) == []
  {
    if s != [] {
      MembersOfAbsentKey(s[..|s| - 1], key, k);
    }
  }

  lemma KeysOfSnoc(s: seq<StockData>, x: StockData, key: GroupKey)
    ensures KeysOf(s + [x], key) == KeysOf(s, key) + {KeyOf(x, key)}
  {
    assert (s + [x])[..|s|] == s;
  }

  /** `k` is a key of `s` exactly when some record of `s` carries it. */
  lemma {:induction false} KeysOfMembership(s: seq<StockData>, key: GroupKey, x: StockData)
    requires x in s
    ensures KeyOf(x, key) in KeysOf(s, key)
  {
    if x != s[|s| - 1] {
      SplitLast(s);
      KeysOfMembership(s[..|s| - 1], key, x);
    }
  }

  // ----- stable sort by date (`list.sort(Comparator.comparing(data -> data.date))`)

  predicate SortedByDate(s: seq<StockData>)
  {
    forall i, j :: 0 <= i < j < |s| ==> StrLe(s[i].date, s[j].date)
  }

  /** Inserts `x` after every element whose date is not later than its own. */
  function InsertByDate(x: StockData, s: seq<StockData>): seq<StockData>
  {
    if s == [] then [x]
    else if StrLt(x.date, s[0].date) then [x] + s
    else [s[0]] + InsertByDate(x, s[1..])
  }

  /** Insertion sort by date, taking the input left to right. */
  function SortByDate(s: seq<StockData>): seq<StockData>
  {
    if s == [] then [] else InsertByDate(s[|s| - 1], SortByDate(s[..|s| - 1]))
  }

  lemma {:induction false} InsertByDatePermutes(x: StockData, s: seq<StockData>)
    ensures multiset(InsertByDate(x, s)) == multiset(s) + multiset{x}
  {
    if s != [] && !StrLt(x.date, s[0].date) {
      InsertByDatePermutes(x, s[1..]);
      SplitHead(s);
    }
  }

  /** A record no later than every record of a sorted sequence can go in front. */
  lemma SortedCons(h: StockData, t: seq<StockData>)
    requires SortedByDate(t)
    requires forall j :: 0 <= j < |t| ==> StrLe(h.date, t[j].date)
    ensures SortedByDate([h] + t)
  {
    var r := [h] + t;
    forall a, b | 0 <= a < b < |r| ensures StrLe(r[a].date, r[b].date) {
      assert r[b] == t[b - 1];
      if a > 0 {
        assert r[a] == t[a - 1];
      }
    }
  }

  lemma HeadBelowInserted(x: StockData, s: seq<StockData>, t: seq<StockData>)
    requires SortedByDate(s) && s != [] && StrLe(s[0].date, x.date)
    requires multiset(t) == multiset(s[1..]) + multiset{x}
    ensures forall j :: 0 <= j < |t| ==> StrLe(s[0].date, t[j].date)
  {
    forall j | 0 <= j < |t| ensures StrLe(s[0].date, t[j].date) {
      assert t[j] in multiset(t);
      if t[j] != x {
        assert t[j] in s[1..];
      }
    }
  }

  lemma {:induction false} InsertByDateSorted(x: StockData, s: seq<StockData>)
    requires SortedByDate(s)
    ensures SortedByDate(InsertByDate(x, s))
  {
    if s != [] && !StrLt(x.date, s[0].date) {
      SortedTail(s);
      InsertByDateSorted(x, s[1..]);
      InsertByDatePermutes(x, s[1..]);
      if x.date != s[0].date {
        StrLtTotal(x.date, s[0].date);
      }
      HeadBelowInserted(x, s, InsertByDate(x, s[1..]));
      SortedCons(s[0], InsertByDate(x, s[1..]));
    } else if s != [] {
      forall j | 0 <= j < |s| ensures StrLe(x.date, s[j].date) {
        if j > 0 {
          StrLeTransitive(x.date, s[0].date, s[j].date);
        }
      }
      SortedCons(x, s);
    }
  }

  lemma MembersSingleton(x: StockData, key: GroupKey, k: string)
    ensures Members([x], key, k) == if KeyOf(x, key) == k then [x] else []
  {
    assert [x][..0] == [];
  }

  lemma SortedTail(s: seq<StockData>)
    requires SortedByDate(s) && s != []
    ensures SortedByDate(s[1..])
  {
    forall i, j | 0 <= i < j < |s| - 1 ensures StrLe(s[1..][i].date, s[1..][j].date) {
      assert s[1..][i] == s[i + 1] && s[1..][j] == s[j + 1];
    }
  }

  /** No record of a sorted sequence is dated `d` when its first one is later. */
  lemma SortedAfter(s: seq<StockData>, d: string)
    requires SortedByDate(s) && s != [] && StrLt(d, s[0].date)
    ensures d !in KeysOf(s, ByDate)
  {
    StrLtIrreflexive(d);
    forall y | y in s ensures y.date != d {
      var j :| 0 <= j < |s| && s[j] == y;
      if j > 0 && s[0].date != s[j].date {
        StrLtTransitive(d, s[0].date, s[j].date);
      }
    }
  }

  /** Stability when `x` goes in front of `s`. */
  lemma InsertInFrontStable(x: StockData, s: seq<StockData>, d: string)
    requires x.date == d ==> d !in KeysOf(s, ByDate)
    ensures Members([x] + s, ByDate, d) == Members(s, ByDate, d) + (if x.date == d then [x] else [])
  {
    MembersSingleton(x, ByDate, d);
    MembersConcat([x], s, ByDate, d);
    if x.date == d {
      MembersOfAbsentKey(s, ByDate, d);
    }
  }

  /** Stability when `x` goes after the head `y` of the sequence. */
  lemma InsertBehindStable(x: StockData, y: StockData, t: seq<StockData>, t': seq<StockData>, d: string)
    requires Members(t', ByDate, d) == Members(t, ByDate, d) + (if x.date == d then [x] else [])
    ensures Members([y] + t', ByDate, d) == Members([y] + t, ByDate, d) + (if x.date == d then [x] else [])
  {
    MembersConcat([y], t, ByDate, d);
    MembersConcat([y], t', ByDate, d);
  }

  lemma {:induction false} InsertByDateStable(x: StockData, s: seq<StockData>, d: string)
    requires SortedByDate(s)
    ensures Members(InsertByDate(x, s), ByDate, d) ==
            Members(s, ByDate, d) + (if x.date == d then [x] else [])
  {
    if s == [] {
      MembersSingleton(x, ByDate, d);
      assert InsertByDate(x, s) == [x];
    } else if StrLt(x.date, s[0].date) {
      assert InsertByDate(x, s) == [x] + s;
      if x.date == d {
        SortedAfter(s, d);
      }
      InsertInFrontStable(x, s, d);
    } else {
      assert InsertByDate(x, s) == [s[0]] + InsertByDate(x, s[1..]);
      SortedTail(s);
      InsertByDateStable(x, s[1..], d);
      InsertBehindStable(x, s[0], s[1..], InsertByDate(x, s[1..]), d);
      SplitHead(s);
    }
  }

  /** The sort returns a permutation of its input, in date order. */
  lemma {:induction false} SortByDateCorrect(s: seq<StockData>)
    ensures SortedByDate(SortByDate(s))
    ensures multiset(SortByDate(s)) == multiset(s)
  {
    if s != [] {
      SortByDateCorrect(s[..|s| - 1]);
      InsertByDateSorted(s[|s| - 1], SortByDate(s[..|s| - 1]));
      InsertByDatePermutes(s[|s| - 1], SortByDate(s[..|s| - 1]));
      SplitLast(s);
    }
  }

  /** The sort is stable: records sharing a date keep their input order. */
  lemma {:induction false} SortByDateStable(s: seq<StockData>, d: string)
    ensures Members(SortByDate(s), ByDate, d) == Members(s, ByDate, d)
  {
    if s != [] {
      SortByDateStable(s[..|s| - 1], d);
      SortByDateCorrect(s[..|s| - 1]);
      InsertByDateStable(s[|s| - 1], SortByDate(s[..|s| - 1]), d);
    }
  }

  // ----- groupDataByTicker

  /** What `groupDataByTicker` returns for `s`: one entry per ticker, holding
      that ticker's records sorted by date. */
  predicate IsTickerGrouping(s: seq<StockData>, g: map<string, seq<StockData>>)
  {
    && g.Keys == KeysOf(s, ByTicker)
    && forall k :: k in g ==> g[k] == SortByDate(Members(s, ByTicker, k))
  }

  /** `dataByTicker.computeIfAbsent(data.ticker, k -> new ArrayList<>()).add(data)`:
      given the unsorted groups of `p`, the unsorted groups of `p + [data]`. */
  method AddByTicker(ghost p: seq<StockData>, dataByTicker: map<string, seq<StockData>>, data: StockData)
      returns (r: map<string, seq<StockData>>)
    requires dataByTicker.Keys == KeysOf(p, ByTicker)
    requires forall k :: k in dataByTicker ==> dataByTicker[k] == Members(p, ByTicker, k)
    ensures r.Keys == KeysOf(p + [data], ByTicker)
    ensures forall k :: k in r ==> r[k] == Members(p + [data], ByTicker, k)
  {
    KeysOfSnoc(p, data, ByTicker);
    if data.ticker !in dataByTicker {
      MembersOfAbsentKey(p, ByTicker, data.ticker);
    }
    var list := if data.ticker in dataByTicker then dataByTicker[data.ticker] else [];
    r := dataByTicker[data.ticker := list + [data]];
    forall k | k in r ensures r[k] == Members(p + [data], ByTicker, k) {
      MembersSnoc(p, data, ByTicker, k);
    }
  }

  /** Sorts every group by date, one key at a time. */
  method SortGroups(ghost s: seq<StockData>, groups: map<string, seq<StockData>>)
      returns (r: map<string, seq<StockData>>)
    requires groups.Keys == KeysOf(s, ByTicker)
    requires forall k :: k in groups ==> groups[k] == Members(s, ByTicker, k)
    ensures IsTickerGrouping(s, r)
  {
    r := groups;
    var pending := r.Keys;
    while pending != {}
      invariant pending <= r.Keys
      invariant r.Keys == KeysOf(s, ByTicker)
      invariant forall k :: k in r && k in pending ==> r[k] == Members(s, ByTicker, k)
      invariant forall k :: k in r && k !in pending ==> r[k] == SortByDate(Members(s, ByTicker, k))
      decreases pending
    {
      var k :| k in pending;
      r := r[k := SortByDate(r[k])];
      pending := pending - {k};
    }
  }

  method GroupDataByTicker(allData: seq<StockData>) returns (dataByTicker: map<string, seq<StockData>>)
    ensures IsTickerGrouping(allData, dataByTicker)
  {
    dataByTicker := map[];
    var i := 0;
    while i < |allData|
      invariant 0 <= i <= |allData|
      invariant dataByTicker.Keys == KeysOf(allData[..i], ByTicker)
      invariant forall k :: k in dataByTicker ==> dataByTicker[k] == Members(allData[..i], ByTicker, k)
    {
      PrefixSnoc(allData, i);
      dataByTicker := AddByTicker(allData[..i], dataByTicker, allData[i]);
      i := i + 1;
    }
    assert allData[..i] == allData;
    dataByTicker := SortGroups(allData, dataByTicker);
  }

  /** All records held in the groups of `g`, with multiplicity. */
  ghost function AllGrouped(g: map<string, seq<StockData>>): multiset<StockData>
    decreases g.Keys
  {
    if g == map[] then multiset{}
    else
      var k :| k in g;
      multiset(g[k]) + AllGrouped(g - {k})
  }

  lemma {:induction false} AllGroupedRemove(g: map<string, seq<StockData>>, k: string)
    requires k in g
    ensures AllGrouped(g) == multiset(g[k]) + AllGrouped(g - {k})
    decreases g.Keys
  {
    var k' :| k' in g && AllGrouped(g) == multiset(g[k']) + AllGrouped(g - {k'});
    if k' != k {
      var withoutK', withoutK := g - {k'}, g - {k};
      assert k in withoutK' && withoutK'[k] == g[k];
      assert k' in withoutK && withoutK[k'] == g[k'];
      AllGroupedRemove(withoutK', k);
      AllGroupedRemove(withoutK, k');
      assert withoutK' - {k} == withoutK - {k'};
    }
  }

  lemma AllGroupedUpdate(g: map<string, seq<StockData>>, k: string, v: seq<StockData>)
    requires k in g
    ensures AllGrouped(g[k := v]) == multiset(v) + AllGrouped(g - {k})
  {
    AllGroupedRemove(g[k := v], k);
    assert g[k := v] - {k} == g - {k};
  }

  lemma MembersSnoc(p: seq<StockData>, x: StockData, key: GroupKey, k: string)
    ensures Members(p + [x], key, k) == Members(p, key, k) + (if KeyOf(x, key) == k then [x] else [])
  {
    assert (p + [x])[..|p|] == p;
  }

  /** The grouping of `s` without its last record, obtained from a grouping
      `g` of `s`: the group of that record's key loses it, or disappears when
      the record was its only member. */
  ghost function DropLast(s: seq<StockData>, key: GroupKey, g: map<string, seq<StockData>>)
    : map<string, seq<StockData>>
    requires s != []
  {
    var p, k0 := s[..|s| - 1], KeyOf(s[|s| - 1], key);
    if k0 in KeysOf(p, key) then g[k0 := Members(p, key, k0)] else g - {k0}
  }

  lemma DropLastKeys(s: seq<StockData>, key: GroupKey, g: map<string, seq<StockData>>)
    requires s != []
    requires g.Keys == KeysOf(s, key)
    ensures DropLast(s, key, g).Keys == KeysOf(s[..|s| - 1], key)
  {
  }

  lemma DropLastGroups(s: seq<StockData>, key: GroupKey, g: map<string, seq<StockData>>, k: string)
    requires s != []
    requires k in g && multiset(g[k]) == multiset(Members(s, key, k))
    requires k in DropLast(s, key, g)
    ensures multiset(DropLast(s, key, g)[k]) == multiset(Members(s[..|s| - 1], key, k))
  {
  }

  lemma DropLastAllGrouped(s: seq<StockData>, key: GroupKey, g: map<string, seq<StockData>>)
    requires s != []
    requires g.Keys == KeysOf(s, key)
    requires KeyOf(s[|s| - 1], key) in g ==>
               multiset(g[KeyOf(s[|s| - 1], key)]) == multiset(Members(s, key, KeyOf(s[|s| - 1], key)))
    ensures AllGrouped(g) == AllGrouped(DropLast(s, key, g)) + multiset{s[|s| - 1]}
  {
    var p, k0 := s[..|s| - 1], KeyOf(s[|s| - 1], key);
    assert k0 in g;
    AllGroupedRemove(g, k0);
    if k0 in KeysOf(p, key) {
      AllGroupedUpdate(g, k0, Members(p, key, k0));
    } else {
      MembersOfAbsentKey(p, key, k0);
    }
  }

  lemma MultisetSplitLast(s: seq<StockData>)
    requires s != []
    ensures multiset(s) == multiset(s[..|s| - 1]) + multiset{s[|s| - 1]}
  {
    assert s == s[..|s| - 1] + [s[|s| - 1]];
  }

  /** The groups of a map whose lists are permutations of the per-key members
      of `s` hold exactly the records of `s`. */
  lemma {:induction false} GroupsHoldInput(s: seq<StockData>, key: GroupKey, g: map<string, seq<StockData>>)
    requires g.Keys == KeysOf(s, key)
    requires forall k :: k in g ==> multiset(g[k]) == multiset(Members(s, key, k))
    ensures AllGrouped(g) == multiset(s)
    decreases |s|
  {
    if s == [] {
      assert g.Keys == {};
      assert g == map[];
    } else {
      DropLastKeys(s, key, g);
      forall k | k in DropLast(s, key, g)
        ensures multiset(DropLast(s, key, g)[k]) == multiset(Members(s[..|s| - 1], key, k))
      {
        DropLastGroups(s, key, g, k);
      }
      DropLastAllGrouped(s, key, g);
      GroupsHoldInput(s[..|s| - 1], key, DropLast(s, key, g));
      MultisetSplitLast(s);
    }
  }

  /** The groups of `groupDataByTicker` together hold exactly its input, so
      their sizes sum to the input's size. */
  lemma TickerGroupsHoldInput(s: seq<StockData>, g: map<string, seq<StockData>>)
    requires IsTickerGrouping(s, g)
    ensures AllGrouped(g) == multiset(s)
    ensures |AllGrouped(g)| == |s|
  {
    forall k | k in g ensures multiset(g[k]) == multiset(Members(s, ByTicker, k)) {
      SortByDateCorrect(Members(s, ByTicker, k));
    }
    GroupsHoldInput(s, ByTicker, g);
  }

  /** Every ticker's group is sorted by date. */
  lemma TickerGroupsSorted(s: seq<StockData>, g: map<string, seq<StockData>>)
    requires IsTickerGrouping(s, g)
    ensures forall k :: k in g ==> SortedByDate(g[k])
  {
    forall k | k in g ensures SortedByDate(g[k]) {
      SortByDateCorrect(Members(s, ByTicker, k));
    }
  }

  /** A record is in a ticker's sorted group exactly when it is an input record of that ticker. */
  lemma InSortedMembers(s: seq<StockData>, k: string, x: StockData)
    ensures x in SortByDate(Members(s, ByTicker, k)) <==> x in s && x.ticker == k
  {
    SortByDateCorrect(Members(s, ByTicker, k));
    assert x in SortByDate(Members(s, ByTicker, k)) <==> x in multiset(Members(s, ByTicker, k));
    MembersMembership(s, ByTicker, k, x);
  }

  /** Every input record sits in the group of its own ticker. */
  lemma TickerGroupsCover(s: seq<StockData>, g: map<string, seq<StockData>>)
    requires IsTickerGrouping(s, g)
    ensures forall x :: x in s ==> x.ticker in g && x in g[x.ticker]
  {
    forall x | x in s ensures x.ticker in g && x in g[x.ticker] {
      KeysOfMembership(s, ByTicker, x);
      InSortedMembers(s, x.ticker, x);
    }
  }

  /** A group holds only input records of its own ticker. */
  lemma TickerGroupsFromInput(s: seq<StockData>, g: map<string, seq<StockData>>)
    requires IsTickerGrouping(s, g)
    ensures forall k, x :: k in g && x in g[k] ==> x.ticker == k && x in s
  {
    forall k, x | k in g && x in g[k] ensures x.ticker == k && x in s {
      InSortedMembers(s, k, x);
    }
  }

  /** Within one ticker's group, records of the same date keep input order. */
  lemma TickerGroupKeepsSameDateOrder(s: seq<StockData>, g: map<string, seq<StockData>>, k: string, d: string)
    requires IsTickerGrouping(s, g) && k in g
    ensures Members(g[k], ByDate, d) == Members(Members(s, ByTicker, k), ByDate, d)
  {
    SortByDateStable(Members(s, ByTicker, k), d);
  }

  // ----- groupDataByDate

  /** One entry of the date map: a date and the records observed on it. */
  datatype Cohort = Cohort(date: string, stocks: seq<StockData>)

  /** The entries are in strictly ascending date order, as a `TreeMap` keeps them. */
  predicate StrictlyAscending(r: seq<Cohort>)
  {
    forall i, j :: 0 <= i < j < |r| ==> StrLt(r[i].date, r[j].date)
  }

  function CohortDates(r: seq<Cohort>): set<string>
  {
    set i | 0 <= i < |r| :: r[i].date
  }

  /** The records of all entries, entry after entry. */
  function Flatten(r: seq<Cohort>): seq<StockData>
  {
    if r == [] then [] else Flatten(r[..|r| - 1]) + r[|r| - 1].stocks
  }

  /** What `groupDataByDate` returns for `s`: one entry per distinct date, in
      ascending date order, holding that date's records in input order. */
  predicate IsDateGrouping(s: seq<StockData>, r: seq<Cohort>)
  {
    && StrictlyAscending(r)
    && CohortDates(r) == KeysOf(s, ByDate)
    && forall i :: 0 <= i < |r| ==> r[i].stocks == Members(s, ByDate, r[i].date)
  }

  lemma {:induction false} FlattenConcat(a: seq<Cohort>, b: seq<Cohort>)
    ensures Flatten(a + b) == Flatten(a) + Flatten(b)
  {
    if b == [] {
      assert a + b == a;
    } else {
      assert (a + b)[..|a + b| - 1] == a + b[..|b| - 1];
      FlattenConcat(a, b[..|b| - 1]);
    }
  }

  lemma FlattenAround(a: seq<Cohort>, c: Cohort, b: seq<Cohort>)
    ensures multiset(Flatten(a + [c] + b)) == multiset(Flatten(a)) + multiset(c.stocks) + multiset(Flatten(b))
  {
    FlattenConcat(a + [c], b);
    FlattenConcat(a, [c]);
    assert Flatten([c]) == Flatten([]) + c.stocks;
  }

  lemma AscendingDistinct(r: seq<Cohort>, i: int, j: int)
    requires StrictlyAscending(r) && 0 <= i < |r| && 0 <= j < |r| && i != j
    ensures r[i].date != r[j].date
  {
    if i < j {
      StrLtIrreflexive(r[i].date);
    } else {
      StrLtIrreflexive(r[j].date);
    }
  }

  lemma CohortDatesUpdate(r: seq<Cohort>, j: nat, c: Cohort)
    requires j < |r| && c.date == r[j].date
    ensures CohortDates(r[j := c]) == CohortDates(r)
  {
    forall d | d in CohortDates(r) ensures d in CohortDates(r[j := c]) {
      var i :| 0 <= i < |r| && r[i].date == d;
      assert r[j := c][i].date == d;
    }
  }

  lemma FlattenAppend(r: seq<Cohort>, j: nat, x: StockData)
    requires j < |r|
    ensures multiset(Flatten(r[j := Cohort(r[j].date, r[j].stocks + [x])])) == multiset(Flatten(r)) + multiset{x}
  {
    var c := Cohort(r[j].date, r[j].stocks + [x]);
    assert r == r[..j] + [r[j]] + r[j + 1..];
    assert r[j := c] == r[..j] + [c] + r[j + 1..];
    FlattenAround(r[..j], r[j], r[j + 1..]);
    FlattenAround(r[..j], c, r[j + 1..]);
  }

  lemma MembersAfterAppend(p: seq<StockData>, r: seq<Cohort>, x: StockData, j: nat, r': seq<Cohort>)
    requires StrictlyAscending(r) && j < |r| && r[j].date == x.date
    requires forall i :: 0 <= i < |r| ==> r[i].stocks == Members(p, ByDate, r[i].date)
    requires r' == r[j := Cohort(x.date, r[j].stocks + [x])]
    ensures forall i :: 0 <= i < |r'| ==> r'[i].stocks == Members(p + [x], ByDate, r'[i].date)
  {
    forall i | 0 <= i < |r'| ensures r'[i].stocks == Members(p + [x], ByDate, r'[i].date) {
      MembersSnoc(p, x, ByDate, r[i].date);
      if i != j {
        AscendingDistinct(r, i, j);
      }
    }
  }

  lemma UpdateKeepsAscending(r: seq<Cohort>, j: nat, c: Cohort)
    requires StrictlyAscending(r) && j < |r| && c.date == r[j].date
    ensures StrictlyAscending(r[j := c])
  {
    assert forall i :: 0 <= i < |r| ==> r[j := c][i].date == r[i].date;
  }

  /** The record goes to the end of the existing entry `j` of its date. */
  lemma AppendToCohort(p: seq<StockData>, r: seq<Cohort>, x: StockData, j: nat)
    requires IsDateGrouping(p, r) && j < |r| && r[j].date == x.date
    ensures IsDateGrouping(p + [x], r[j := Cohort(x.date, r[j].stocks + [x])])
    ensures multiset(Flatten(r[j := Cohort(x.date, r[j].stocks + [x])])) == multiset(Flatten(r)) + multiset{x}
  {
    var c := Cohort(x.date, r[j].stocks + [x]);
    KeysOfSnoc(p, x, ByDate);
    CohortDatesUpdate(r, j, c);
    assert x.date in CohortDates(r);
    UpdateKeepsAscending(r, j, c);
    MembersAfterAppend(p, r, x, j, r[j := c]);
    FlattenAppend(r, j, x);
  }

  /** Every entry from the insertion point on is later than the new date. */
  lemma LaterFrom(r: seq<Cohort>, d: string, j: nat)
    requires StrictlyAscending(r) && j <= |r|
    requires j < |r| ==> StrLt(d, r[j].date)
    ensures forall k :: j <= k < |r| ==> StrLt(d, r[k].date)
  {
    forall k | j < k < |r| ensures StrLt(d, r[k].date) {
      StrLtTransitive(d, r[j].date, r[k].date);
    }
  }

  lemma InsertKeepsAscending(r: seq<Cohort>, c: Cohort, j: nat)
    requires StrictlyAscending(r) && j <= |r|
    requires forall k :: 0 <= k < j ==> StrLt(r[k].date, c.date)
    requires forall k :: j <= k < |r| ==> StrLt(c.date, r[k].date)
    ensures StrictlyAscending(r[..j] + [c] + r[j..])
  {
    var r' := r[..j] + [c] + r[j..];
    forall a, b | 0 <= a < b < |r'| ensures StrLt(r'[a].date, r'[b].date) {
      if a < j && j < b {
        StrLtTransitive(r[a].date, c.date, r[b - 1].date);
      }
    }
  }

  lemma DateAbsent(r: seq<Cohort>, d: string, j: nat)
    requires j <= |r|
    requires forall k :: 0 <= k < j ==> StrLt(r[k].date, d)
    requires forall k :: j <= k < |r| ==> StrLt(d, r[k].date)
    ensures d !in CohortDates(r)
  {
    StrLtIrreflexive(d);
  }

  lemma CohortDatesInsert(r: seq<Cohort>, c: Cohort, j: nat)
    requires j <= |r|
    ensures CohortDates(r[..j] + [c] + r[j..]) == CohortDates(r) + {c.date}
  {
    var r' := r[..j] + [c] + r[j..];
    forall d | d in CohortDates(r') ensures d in CohortDates(r) + {c.date} {
      var i :| 0 <= i < |r'| && r'[i].date == d;
      if i < j {
        assert r'[i] == r[i];
      } else if i > j {
        assert r'[i] == r[i - 1];
      }
    }
    forall d | d in CohortDates(r) ensures d in CohortDates(r') {
      var i :| 0 <= i < |r| && r[i].date == d;
      if i < j {
        assert r'[i] == r[i];
      } else {
        assert r'[i + 1] == r[i];
      }
    }
    assert r'[j] == c;
  }

  lemma MembersAfterInsert(p: seq<StockData>, r: seq<Cohort>, x: StockData, j: nat)
    requires j <= |r| && x.date !in CohortDates(r)
    requires Members(p, ByDate, x.date) == []
    requires forall i :: 0 <= i < |r| ==> r[i].stocks == Members(p, ByDate, r[i].date)
    ensures forall i :: 0 <= i < |r| + 1 ==>
      (r[..j] + [Cohort(x.date, [x])] + r[j..])[i].stocks
        == Members(p + [x], ByDate, (r[..j] + [Cohort(x.date, [x])] + r[j..])[i].date)
  {
    var r' := r[..j] + [Cohort(x.date, [x])] + r[j..];
    forall i | 0 <= i < |r'| ensures r'[i].stocks == Members(p + [x], ByDate, r'[i].date) {
      MembersSnoc(p, x, ByDate, r'[i].date);
      if i < j {
        assert r'[i] == r[i];
      } else if i > j {
        assert r'[i] == r[i - 1];
      }
    }
  }

  lemma FlattenInsert(r: seq<Cohort>, c: Cohort, j: nat)
    requires j <= |r|
    ensures multiset(Flatten(r[..j] + [c] + r[j..])) == multiset(Flatten(r)) + multiset(c.stocks)
  {
    assert r == r[..j] + r[j..];
    FlattenConcat(r[..j], r[j..]);
    FlattenAround(r[..j], c, r[j..]);
  }

  /** The record opens a new entry for its date, at position `j`. */
  lemma InsertCohort(p: seq<StockData>, r: seq<Cohort>, x: StockData, j: nat)
    requires IsDateGrouping(p, r) && j <= |r|
    requires forall k :: 0 <= k < j ==> StrLt(r[k].date, x.date)
    requires j < |r| ==> StrLt(x.date, r[j].date)
    ensures IsDateGrouping(p + [x], r[..j] + [Cohort(x.date, [x])] + r[j..])
    ensures multiset(Flatten(r[..j] + [Cohort(x.date, [x])] + r[j..])) == multiset(Flatten(r)) + multiset{x}
  {
    var c := Cohort(x.date, [x]);
    LaterFrom(r, x.date, j);
    InsertKeepsAscending(r, c, j);
    DateAbsent(r, x.date, j);
    KeysOfSnoc(p, x, ByDate);
    MembersOfAbsentKey(p, ByDate, x.date);
    CohortDatesInsert(r, c, j);
    MembersAfterInsert(p, r, x, j);
    FlattenInsert(r, c, j);
  }

  /** `dataByDate.computeIfAbsent(data.date, k -> new ArrayList<>()).add(data)` on
      the sorted map: find the first entry not earlier than the record's date;
      append to it when it is that date, else open a new entry there. */
  method AddByDate(ghost p: seq<StockData>, dataByDate: seq<Cohort>, data: StockData)
      returns (r: seq<Cohort>)
    requires IsDateGrouping(p, dataByDate)
    ensures IsDateGrouping(p + [data], r)
    ensures multiset(Flatten(r)) == multiset(Flatten(dataByDate)) + multiset{data}
  {
    var j := 0;
    while j < |dataByDate| && StrLt(dataByDate[j].date, data.date)
      invariant 0 <= j <= |dataByDate|
      invariant forall k :: 0 <= k < j ==> StrLt(dataByDate[k].date, data.date)
    {
      j := j + 1;
    }
    if j < |dataByDate| && dataByDate[j].date == data.date {
      AppendToCohort(p, dataByDate, data, j);
      r := dataByDate[j := Cohort(data.date, dataByDate[j].stocks + [data])];
    } else {
      if j < |dataByDate| {
        StrLtTotal(data.date, dataByDate[j].date);
      }
      InsertCohort(p, dataByDate, data, j);
      r := dataByDate[..j] + [Cohort(data.date, [data])] + dataByDate[j..];
    }
  }

  method GroupDataByDate(allData: seq<StockData>) returns (dataByDate: seq<Cohort>)
    ensures IsDateGrouping(allData, dataByDate)
    ensures multiset(Flatten(dataByDate)) == multiset(allData)
    ensures |Flatten(dataByDate)| == |allData|
  {
    dataByDate := [];
    var i := 0;
    while i < |allData|
      invariant 0 <= i <= |allData|
      invariant IsDateGrouping(allData[..i], dataByDate)
      invariant multiset(Flatten(dataByDate)) == multiset(allData[..i])
    {
      PrefixSnoc(allData, i);
      dataByDate := AddByDate(allData[..i], dataByDate, allData[i]);
      i := i + 1;
    }
    assert allData[..i] == allData;
    assert |multiset(Flatten(dataByDate))| == |Flatten(dataByDate)|;
  }

  lemma CohortDatesSnoc(r: seq<Cohort>)
    requires r != []
    ensures CohortDates(r) == CohortDates(r[..|r| - 1]) + {r[|r| - 1].date}
  {
    var init := r[..|r| - 1];
    assert r == init + [r[|r| - 1]];
    CohortDatesInsert(init, r[|r| - 1], |init|);
    assert init[..|init|] == init && init[|init|..] == [];
  }

  lemma {:induction false} AscendingDatesCount(r: seq<Cohort>)
    requires StrictlyAscending(r)
    ensures |CohortDates(r)| == |r|
  {
    if r != [] {
      var init := r[..|r| - 1];
      assert StrictlyAscending(init);
      AscendingDatesCount(init);
      CohortDatesSnoc(r);
      assert r[|r| - 1].date !in CohortDates(init) by {
        forall i | 0 <= i < |init| ensures init[i].date != r[|r| - 1].date {
          AscendingDistinct(r, i, |r| - 1);
        }
      }
    }
  }

  /** `groupDataByDate` has exactly one entry per distinct date of its input. */
  lemma DateGroupingCountsDates(s: seq<StockData>, r: seq<Cohort>)
    requires IsDateGrouping(s, r)
    ensures |r| == |KeysOf(s, ByDate)|
  {
    AscendingDatesCount(r);
  }

  /** Every record of the input sits in the entry of its own date, entries
      hold only input records of their date, and no date has two entries. */
  lemma DateGroupingIsPartition(s: seq<StockData>, r: seq<Cohort>)
    requires IsDateGrouping(s, r)
    ensures forall x :: x in s ==> exists i :: 0 <= i < |r| && r[i].date == x.date && x in r[i].stocks
    ensures forall i, x :: 0 <= i < |r| && x in r[i].stocks ==> x.date == r[i].date && x in s
    ensures forall i, j :: 0 <= i < |r| && 0 <= j < |r| && r[i].date == r[j].date ==> i == j
  {
    forall x | x in s ensures exists i :: 0 <= i < |r| && r[i].date == x.date && x in r[i].stocks {
      KeysOfMembership(s, ByDate, x);
      var i :| 0 <= i < |r| && r[i].date == x.date;
      MembersMembership(s, ByDate, x.date, x);
    }
    forall i, x | 0 <= i < |r| && x in r[i].stocks ensures x.date == r[i].date && x in s {
      MembersMembership(s, ByDate, r[i].date, x);
    }
    forall i, j | 0 <= i < |r| && 0 <= j < |r| && r[i].date == r[j].date ensures i == j {
      if i != j {
        AscendingDistinct(r, i, j);
      }
    }
  }
}
