/**
 * The DPS ranking: the stored `[userId, dps]` pairs sorted by DPS, highest
 * first, with the comparator `(a, b) => b[1] - a[1]` handed to JavaScript's
 * stable `Array.prototype.sort`, and the positions picked from it for the
 * `!rank` listing and for the four rank roles.
 */
module Ranking {

  datatype Option<+T> = None | Some(value: T)

  /** A Discord user id (a snowflake, kept as text). */
  type UserId = string

  /** One stored score: the pair `[entry.key[1], entry.value]` the handlers build. */
  datatype Entry = Entry(id: UserId, dps: int)

  /** Number of entries the `!rank` listing and the `TOP 10` role take. */
  const ListingSize: nat := 10

  function Min(a: nat, b: nat): nat { if a <= b then a else b }

  /** The sort comparator: positive exactly when `b` must be placed before `a`. */
  function Compare(a: Entry, b: Entry): int
  {
    b.dps - a.dps
  }

  /** DPS never increases along `s`. */
  predicate Ranked(s: seq<Entry>)
  {
    forall i, j :: 0 <= i < j < |s| ==> s[i].dps >= s[j].dps
  }

  /** The entries of `s` whose DPS is `v`, in the order they have in `s`. */
  function WithDps(s: seq<Entry>, v: int): (r: seq<Entry>)
    ensures |r| <= |s|
    ensures forall e :: e in r ==> e in s && e.dps == v
  {
    if s == [] then []
    else (if s[0].dps == v then [s[0]] else []) + WithDps(s[1..], v)
  }

  /**
   * Places `x` in front of the first entry of `t` that the comparator does
   * not move ahead of it; `x` came before every entry of `t` in the input,
   * so among equal DPS it stays first.
   */
  function Insert(x: Entry, t: seq<Entry>): (r: seq<Entry>)
    ensures |r| == |t| + 1
  {
    if t == [] then [x]
    else if Compare(x, t[0]) <= 0 then [x] + t
    else [t[0]] + Insert(x, t[1..])
  }

  /** `entries.sort((a, b) => b[1] - a[1])`: a stable sort by DPS, highest first. */
  function SortByDps(entries: seq<Entry>): (r: seq<Entry>)
    ensures |r| == |entries|
  {
    if entries == [] then []
    else Insert(entries[0], SortByDps(entries[1..]))
  }

  lemma {:induction false} WithDpsAppend(a: seq<Entry>, b: seq<Entry>, v: int)
    ensures WithDps(a + b, v) == WithDps(a, v) + WithDps(b, v)
  {
    if a == [] {
      assert a + b == b;
    } else {
      assert (a + b)[1..] == a[1..] + b;
      WithDpsAppend(a[1..], b, v);
    }
  }

  lemma {:induction false} InsertPermutes(x: Entry, t: seq<Entry>)
    ensures multiset(Insert(x, t)) == multiset(t) + multiset{x}
  {
    if t != [] && Compare(x, t[0]) > 0 {
      InsertPermutes(x, t[1..]);
      assert t == [t[0]] + t[1..];
    }
  }

  lemma {:induction false} InsertKeepsRanked(x: Entry, t: seq<Entry>)
    requires Ranked(t)
    ensures Ranked(Insert(x, t))
  {
    if t == [] {
    } else if Compare(x, t[0]) <= 0 {
      var r := [x] + t;
      forall i, j | 0 <= i < j < |r| ensures r[i].dps >= r[j].dps {
        if i > 0 {
          assert r[i] == t[i - 1] && r[j] == t[j - 1];
        } else {
          assert r[j] == t[j - 1];
        }
      }
    } else {
      var rest := Insert(x, t[1..]);
      InsertKeepsRanked(x, t[1..]);
      InsertPermutes(x, t[1..]);
      var r := [t[0]] + rest;
      forall i, j | 0 <= i < j < |r| ensures r[i].dps >= r[j].dps {
        if i > 0 {
          assert r[i] == rest[i - 1] && r[j] == rest[j - 1];
        } else {
          assert r[j] == rest[j - 1];
          assert r[j] in multiset(rest);
          assert r[j] == x || r[j] in multiset(t[1..]);
          if r[j] != x {
            var k :| 0 <= k < |t[1..]| && t[1..][k] == r[j];
            assert t[k + 1] == r[j];
          }
        }
      }
    }
  }

  lemma {:induction false} InsertKeepsOrderOfEquals(x: Entry, t: seq<Entry>, v: int)
    ensures WithDps(Insert(x, t), v) == WithDps([x] + t, v)
  {
    if t != [] && Compare(x, t[0]) > 0 {
      InsertKeepsOrderOfEquals(x, t[1..], v);
      WithDpsAppend([t[0]], Insert(x, t[1..]), v);
      WithDpsAppend([x], t[1..], v);
      WithDpsAppend([x], t, v);
      assert t == [t[0]] + t[1..];
      WithDpsAppend([t[0]], t[1..], v);
    }
  }

  /** The sorted list holds exactly the stored entries. */
  lemma {:induction false} SortPermutes(entries: seq<Entry>)
    ensures multiset(SortByDps(entries)) == multiset(entries)
  {
    if entries != [] {
      SortPermutes(entries[1..]);
      InsertPermutes(entries[0], SortByDps(entries[1..]));
      assert entries == [entries[0]] + entries[1..];
    }
  }

  /** The sorted list has DPS non-increasing. */
  lemma {:induction false} SortRanks(entries: seq<Entry>)
    ensures Ranked(SortByDps(entries))
  {
    if entries != [] {
      SortRanks(entries[1..]);
      InsertKeepsRanked(entries[0], SortByDps(entries[1..]));
    }
  }

  /** The sort is stable: entries with equal DPS keep their input order. */
  lemma {:induction false} SortIsStable(entries: seq<Entry>, v: int)
    ensures WithDps(SortByDps(entries), v) == WithDps(entries, v)
  {
    if entries != [] {
      SortIsStable(entries[1..], v);
      InsertKeepsOrderOfEquals(entries[0], SortByDps(entries[1..]), v);
      WithDpsAppend([entries[0]], SortByDps(entries[1..]), v);
      WithDpsAppend([entries[0]], entries[1..], v);
      assert entries == [entries[0]] + entries[1..];
    }
  }

  lemma RankedHeadIsMax(s: seq<Entry>, e: Entry)
    requires Ranked(s) && e in s
    ensures s[0].dps >= e.dps
  {
    var k :| 0 <= k < |s| && s[k] == e;
    if k > 0 {
      assert s[0].dps >= s[k].dps;
    }
  }

  lemma WithDpsOfHead(s: seq<Entry>)
    requires s != []
    ensures WithDps(s, s[0].dps) == [s[0]] + WithDps(s[1..], s[0].dps)
    ensures forall v :: v != s[0].dps ==> WithDps(s, v) == WithDps(s[1..], v)
  {
  }

  lemma RankedTail(s: seq<Entry>)
    requires Ranked(s) && s != []
    ensures Ranked(s[1..])
  {
    forall i, j | 0 <= i < j < |s[1..]| ensures s[1..][i].dps >= s[1..][j].dps {
      assert s[1..][i] == s[i + 1] && s[1..][j] == s[j + 1];
    }
  }

  /** Two non-empty rankings with the same entries per DPS value start alike. */
  lemma RankedSameHead(t: seq<Entry>, u: seq<Entry>)
    requires Ranked(t) && Ranked(u) && t != [] && u != []
    requires forall v :: WithDps(t, v) == WithDps(u, v)
    ensures t[0] == u[0]
  {
    var a, b := t[0].dps, u[0].dps;
    WithDpsOfHead(t);
    WithDpsOfHead(u);
    assert t[0] in WithDps(u, a);
    RankedHeadIsMax(u, t[0]);
    assert u[0] in WithDps(t, b);
    RankedHeadIsMax(t, u[0]);
    assert WithDps(t, a)[0] == t[0];
    assert WithDps(u, a)[0] == u[0];
  }

  lemma SameTailsPerDps(t: seq<Entry>, u: seq<Entry>, v: int)
    requires t != [] && u != [] && t[0] == u[0]
    requires WithDps(t, v) == WithDps(u, v)
    ensures WithDps(t[1..], v) == WithDps(u[1..], v)
  {
    WithDpsOfHead(t);
    WithDpsOfHead(u);
    if v == t[0].dps {
      assert WithDps(t[1..], v) == WithDps(t, v)[1..];
      assert WithDps(u[1..], v) == WithDps(u, v)[1..];
    }
  }

  lemma HeadDpsIsPresent(s: seq<Entry>)
    requires s != []
    ensures WithDps(s, s[0].dps) != []
  {
    WithDpsOfHead(s);
  }

  /**
   * Two rankings that agree, for every DPS value, on the entries with that
   * value and their order are the same list.
   */
  lemma {:induction false} RankedStableIsUnique(t: seq<Entry>, u: seq<Entry>)
    requires Ranked(t) && Ranked(u)
    requires forall v :: WithDps(t, v) == WithDps(u, v)
    ensures t == u
  {
    if t != [] && u == [] {
      HeadDpsIsPresent(t);
    } else if t == [] && u != [] {
      HeadDpsIsPresent(u);
    } else if t != [] && u != [] {
      RankedSameHead(t, u);
      forall v ensures WithDps(t[1..], v) == WithDps(u[1..], v) {
        SameTailsPerDps(t, u, v);
      }
      RankedTail(t);
      RankedTail(u);
      RankedStableIsUnique(t[1..], u[1..]);
      assert t == [t[0]] + t[1..] && u == [u[0]] + u[1..];
    }
  }

  /**
   * Whatever stable sort algorithm the JavaScript engine uses, its result is
   * this one: any list ordered by DPS that keeps the input order among equal
   * DPS is `SortByDps(entries)`.
   */
  lemma SortIsTheStableSort(entries: seq<Entry>, r: seq<Entry>)
    requires Ranked(r)
    requires forall v :: WithDps(r, v) == WithDps(entries, v)
    ensures r == SortByDps(entries)
  {
    SortRanks(entries);
    forall v ensures WithDps(r, v) == WithDps(SortByDps(entries), v) {
      SortIsStable(entries, v);
    }
    RankedStableIsUnique(r, SortByDps(entries));
  }

  /** Sorting an already sorted list changes nothing; in particular sorting twice is sorting once. */
  lemma SortIdempotent(entries: seq<Entry>)
    ensures Ranked(entries) ==> SortByDps(entries) == entries
    ensures SortByDps(SortByDps(entries)) == SortByDps(entries)
  {
    if Ranked(entries) {
      SortIsTheStableSort(entries, entries);
    }
    SortRanks(entries);
    SortIsTheStableSort(SortByDps(entries), SortByDps(entries));
  }

  /** `sorted.slice(0, 10)`. */
  function TopTen(sorted: seq<Entry>): (r: seq<Entry>)
    ensures |r| == Min(ListingSize, |sorted|)
    ensures forall k :: 0 <= k < |r| ==> r[k] == sorted[k]
  {
    sorted[..Min(ListingSize, |sorted|)]
  }

  /** `sorted[k]?.[0]`: the id at position `k`, absent past the end. */
  function IdAt(sorted: seq<Entry>, k: nat): (r: Option<UserId>)
    ensures r.Some? <==> k < |sorted|
    ensures r.Some? ==> r.value == sorted[k].id
  {
    if k < |sorted| then Some(sorted[k].id) else None
  }

  /** `entries.map(([id]) => id)`. */
  function Ids(entries: seq<Entry>): (r: seq<UserId>)
    ensures |r| == |entries|
    ensures forall k :: 0 <= k < |entries| ==> r[k] == entries[k].id
  {
    seq(|entries|, k requires 0 <= k < |entries| => entries[k].id)
  }

  /** The ids `updateRankingRoles` picks for the four rank roles. */
  datatype Selection = Selection(top1: Option<UserId>, top2: Option<UserId>, top3: Option<UserId>, top10: seq<UserId>)

  function Select(sorted: seq<Entry>): (sel: Selection)
    ensures |sel.top10| == Min(ListingSize, |sorted|)
    ensures sel.top1.Some? ==> 0 < |sel.top10| && sel.top1.value == sel.top10[0]
    ensures sel.top2.Some? ==> 1 < |sel.top10| && sel.top2.value == sel.top10[1]
    ensures sel.top3.Some? ==> 2 < |sel.top10| && sel.top3.value == sel.top10[2]
  {
    Selection(IdAt(sorted, 0), IdAt(sorted, 1), IdAt(sorted, 2), Ids(TopTen(sorted)))
  }

  /**
   * The role picks agree with the listing: `top10` has `min(10, n)` ids in
   * rank order, and `top1`, `top2`, `top3` are present exactly when the
   * ranking is long enough and are then its first three ids.
   */
  lemma SelectionPicksPositions(sorted: seq<Entry>)
    ensures var sel := Select(sorted);
      && |sel.top10| == Min(ListingSize, |sorted|)
      && (forall k :: 0 <= k < |sel.top10| ==> sel.top10[k] == sorted[k].id)
      && (sel.top1.Some? <==> |sorted| >= 1) && (sel.top1.Some? ==> sel.top1.value == sel.top10[0])
      && (sel.top2.Some? <==> |sorted| >= 2) && (sel.top2.Some? ==> sel.top2.value == sel.top10[1])
      && (sel.top3.Some? <==> |sorted| >= 3) && (sel.top3.Some? ==> sel.top3.value == sel.top10[2])
  {
  }

  /**
   * The `!rank` listing: `min(10, n)` entries, the first ones of the ranking;
   * together with the entries left out they are the stored entries, and no
   * entry left out has more DPS than an entry shown.
   */
  lemma ListingIsTopOfRanking(entries: seq<Entry>)
    ensures var sorted := SortByDps(entries); var shown := TopTen(sorted);
      && |shown| == Min(ListingSize, |entries|)
      && multiset(shown) + multiset(sorted[|shown|..]) == multiset(entries)
      && forall i, j :: 0 <= i < |shown| <= j < |sorted| ==> sorted[i].dps >= sorted[j].dps
  {
    var sorted := SortByDps(entries);
    var shown := TopTen(sorted);
    SortPermutes(entries);
    SortRanks(entries);
    assert sorted == shown + sorted[|shown|..];
  }

  /** Index `i` holds the highest DPS of `s`, and no earlier index does. */
  predicate IsFirstBest(s: seq<Entry>, i: int)
  {
    && 0 <= i < |s|
    && (forall j :: 0 <= j < |s| ==> s[j].dps <= s[i].dps)
    && (forall j :: 0 <= j < i ==> s[j].dps < s[i].dps)
  }

  /** Index of the first entry of `s` with DPS `v`, when there is one. */
  lemma {:induction false} WithDpsStartsAtFirst(s: seq<Entry>, v: int, i: nat)
    requires i < |s| && s[i].dps == v
    requires forall j :: 0 <= j < i ==> s[j].dps != v
    ensures WithDps(s, v) != [] && WithDps(s, v)[0] == s[i]
  {
    if i > 0 {
      WithDpsStartsAtFirst(s[1..], v, i - 1);
    }
  }

  /** The first index of `s` holding DPS `v`, given that index `i0` holds it. */
  lemma {:induction false} FirstWithDps(s: seq<Entry>, v: int, i0: nat) returns (i: nat)
    requires i0 < |s| && s[i0].dps == v
    ensures i <= i0 && s[i].dps == v
    ensures forall j :: 0 <= j < i ==> s[j].dps != v
  {
    if s[0].dps == v {
      i := 0;
    } else {
      var k := FirstWithDps(s[1..], v, i0 - 1);
      i := k + 1;
    }
  }

  /** The head of the ranking is the first stored entry among those with the highest DPS. */
  lemma HeadIsFirstBest(entries: seq<Entry>) returns (i: nat)
    requires entries != []
    ensures IsFirstBest(entries, i) && entries[i] == SortByDps(entries)[0]
  {
    var sorted := SortByDps(entries);
    SortRanks(entries);
    SortPermutes(entries);
    var best := sorted[0];
    assert best in multiset(entries);
    var i0 :| 0 <= i0 < |entries| && entries[i0] == best;
    forall j | 0 <= j < |entries| ensures entries[j].dps <= best.dps {
      assert entries[j] in multiset(sorted);
      RankedHeadIsMax(sorted, entries[j]);
    }
    i := FirstWithDps(entries, best.dps, i0);
    WithDpsStartsAtFirst(entries, best.dps, i);
    WithDpsOfHead(sorted);
    SortIsStable(entries, best.dps);
  }

  /**
   * The `TOP 1` pick is the first stored entry, in store order, among those
   * with the highest DPS; it is absent only when nothing is stored.
   */
  lemma TopOneIsFirstBest(entries: seq<Entry>)
    ensures Select(SortByDps(entries)).top1.None? <==> entries == []
    ensures entries != [] ==>
      exists i :: IsFirstBest(entries, i) && Select(SortByDps(entries)).top1 == Some(entries[i].id)
  {
    if entries != [] {
      var i := HeadIsFirstBest(entries);
      assert Select(SortByDps(entries)).top1 == Some(entries[i].id);
    }
  }

  /** Equal DPS keep the store order: A and C (both 90) stay in that order behind B (100). */
  lemma TiesKeepStoreOrder()
    ensures SortByDps([Entry("A", 90), Entry("B", 100), Entry("C", 90)])
      == [Entry("B", 100), Entry("A", 90), Entry("C", 90)]
  {
  }
}
