/**
 * The final statistics over a latency map: per-endpoint wins (global map
 * only), how many signatures were seen on both streams, which stream was
 * first, and the sorted timing differences with their minimum, median and
 * maximum. Both reports are read-only loops over the map.
 */
module Statistics {
  import opened Common
  import opened Latency

  predicate BothReceived(d: StreamLatencyData) {
    d.accountTimestamp.Some? && d.transactionTimestamp.Some?
  }

  /** What a record is counted as; a tie counts as transaction-first. */
  datatype Tally = Both | AccountFirst | TransactionFirst

  predicate Holds(d: StreamLatencyData, t: Tally) {
    BothReceived(d) &&
    match t
    case Both => true
    case AccountFirst => d.accountTimestamp.value < d.transactionTimestamp.value
    case TransactionFirst => !(d.accountTimestamp.value < d.transactionTimestamp.value)
  }

  function Abs(x: int): int {
    if x < 0 then -x else x
  }

  /** Transaction time minus account time, or its absolute value. */
  function Diff(d: StreamLatencyData, absolute: bool): int
    requires BothReceived(d)
  {
    var delta := d.transactionTimestamp.value - d.accountTimestamp.value;
    if absolute then Abs(delta) else delta
  }

  /** The number of records under `keys` that count as `t`. */
  ghost function Count(m: Tracker, keys: set<string>, t: Tally): nat {
    |set k | k in keys && k in m && Holds(m[k], t)|
  }

  /** The number of records under `keys` whose slot `s` was won by endpoint `e`. */
  ghost function Wins(m: Tracker, keys: set<string>, s: Stream, e: string): nat {
    |set k | k in keys && k in m && m[k].Endpoint(s) == Some(e)|
  }

  /** The number of records under `keys` whose slot `s` has an endpoint. */
  ghost function Slotted(m: Tracker, keys: set<string>, s: Stream): nat {
    |set k | k in keys && k in m && m[k].Endpoint(s).Some?|
  }

  /** The bag of timing differences of the records under `keys` seen on both streams. */
  ghost function DiffBag(m: Tracker, keys: set<string>, absolute: bool): multiset<int>
    decreases keys
  {
    if keys == {} then multiset{}
    else
      var k :| k in keys;
      DiffBag(m, keys - {k}, absolute) + DiffOf(m, k, absolute)
  }

  ghost function DiffOf(m: Tracker, k: string, absolute: bool): multiset<int> {
    if k in m && BothReceived(m[k]) then multiset{Diff(m[k], absolute)} else multiset{}
  }

  /** The total of a win table. */
  ghost function SumValues(w: map<string, nat>): nat
    decreases |w|
  {
    if w == map[] then 0
    else
      var e :| e in w;
      w[e] + SumValues(w - {e})
  }

  predicate SortedAsc(s: seq<int>) {
    forall i, j :: 0 <= i < j < |s| ==> s[i] <= s[j]
  }

  datatype Summary = Summary(minimum: int, median: int, maximum: int)

  /** Counts for one map, with the differences sorted in ascending order. */
  datatype Timing = Timing(
    bothReceived: nat,
    accountFirst: nat,
    transactionFirst: nat,
    diffs: seq<int>,
    summary: Option<Summary>)

  /** One runner's report: its own map's size and its timing. */
  datatype StreamReport = StreamReport(tracked: nat, timing: Timing)

  datatype GlobalReport = GlobalReport(
    tracked: nat,
    accountWins: map<string, nat>,
    transactionWins: map<string, nat>,
    timing: Timing)

  lemma CountAdd(m: Tracker, keys: set<string>, k: string, t: Tally)
    requires k !in keys && k in m
    ensures Count(m, keys + {k}, t) == Count(m, keys, t) + (if Holds(m[k], t) then 1 else 0)
  {
    var before := set k' | k' in keys && k' in m && Holds(m[k'], t);
    var after := set k' | k' in keys + {k} && k' in m && Holds(m[k'], t);
    if Holds(m[k], t) {
      assert after == before + {k};
    } else {
      assert after == before;
    }
  }

  lemma WinsAdd(m: Tracker, keys: set<string>, k: string, s: Stream, e: string)
    requires k !in keys && k in m
    ensures Wins(m, keys + {k}, s, e) == Wins(m, keys, s, e) + (if m[k].Endpoint(s) == Some(e) then 1 else 0)
  {
    var before := set k' | k' in keys && k' in m && m[k'].Endpoint(s) == Some(e);
    var after := set k' | k' in keys + {k} && k' in m && m[k'].Endpoint(s) == Some(e);
    if m[k].Endpoint(s) == Some(e) {
      assert after == before + {k};
    } else {
      assert after == before;
    }
  }

  /** DiffBag does not depend on the order in which keys are chosen. */
  lemma {:induction false} DiffBagRemove(m: Tracker, keys: set<string>, k: string, absolute: bool)
    requires k in keys
    ensures DiffBag(m, keys, absolute) == DiffBag(m, keys - {k}, absolute) + DiffOf(m, k, absolute)
    decreases keys
  {
    var k' :| k' in keys && DiffBag(m, keys, absolute) == DiffBag(m, keys - {k'}, absolute) + DiffOf(m, k', absolute);
    if k' != k {
      DiffBagRemove(m, keys - {k'}, k, absolute);
      DiffBagRemove(m, keys - {k}, k', absolute);
      assert keys - {k'} - {k} == keys - {k} - {k'};
    }
  }

  lemma {:induction false} SumValuesRemove(w: map<string, nat>, e: string)
    requires e in w
    ensures SumValues(w) == w[e] + SumValues(w - {e})
    decreases |w|
  {
    var e' :| e' in w && SumValues(w) == w[e'] + SumValues(w - {e'});
    if e' != e {
      SumValuesRemove(w - {e'}, e);
      SumValuesRemove(w - {e}, e');
      assert w - {e'} - {e} == w - {e} - {e'};
    }
  }

  /** `*wins.entry(e).or_insert(0) += 1`. */
  function Bump(w: map<string, nat>, e: string): (r: map<string, nat>)
    ensures r.Keys == w.Keys + {e}
    ensures r[e] == (if e in w then w[e] else 0) + 1
    ensures forall x :: x in w && x != e ==> r[x] == w[x]
  {
    w[e := (if e in w then w[e] else 0) + 1]
  }

  /** Bumping a win table adds exactly one to its total. */
  lemma BumpAddsOne(w: map<string, nat>, e: string)
    ensures SumValues(Bump(w, e)) == SumValues(w) + 1
  {
    var r := Bump(w, e);
    SumValuesRemove(r, e);
    assert r - {e} == w - {e};
    if e in w {
      SumValuesRemove(w, e);
    } else {
      assert w - {e} == w;
    }
  }

  /** Insertion into a sorted sequence. */
  function Insert(x: int, s: seq<int>): (r: seq<int>)
    requires SortedAsc(s)
    ensures SortedAsc(r) && multiset(r) == multiset(s) + multiset{x}
    decreases |s|
  {
    if s == [] then [x]
    else if x <= s[0] then [x] + s
    else
      var rest := Insert(x, s[1..]);
      assert s == [s[0]] + s[1..];
      BoundedBelow(s[0], x, s[1..], rest);
      [s[0]] + rest
  }

  /** A lower bound of `x` and of every element of `s` bounds every element of a rearrangement of them. */
  lemma BoundedBelow(lo: int, x: int, s: seq<int>, r: seq<int>)
    requires lo <= x && forall i :: 0 <= i < |s| ==> lo <= s[i]
    requires multiset(r) == multiset(s) + multiset{x}
    ensures forall i :: 0 <= i < |r| ==> lo <= r[i]
  {
    forall i | 0 <= i < |r| ensures lo <= r[i] {
      assert r[i] in multiset(r);
      if r[i] != x {
        assert r[i] in multiset(s);
      }
    }
  }

  /** The vector sort of the source, as a function: ascending, same elements. */
  function SortAscending(s: seq<int>): (r: seq<int>)
    ensures SortedAsc(r) && multiset(r) == multiset(s)
    decreases |s|
  {
    if s == [] then []
    else
      assert s == [s[0]] + s[1..];
      Insert(s[0], SortAscending(s[1..]))
  }

  /**
   * Minimum at index 0, maximum at the last index, median at index len/2;
   * nothing when there are no differences.
   */
  function Summarize(sorted: seq<int>): (r: Option<Summary>)
    requires SortedAsc(sorted)
    ensures r.Some? <==> |sorted| > 0
    ensures r.Some? ==> r.value.minimum in sorted && r.value.maximum in sorted && r.value.median in sorted
    ensures r.Some? ==> forall i :: 0 <= i < |sorted| ==> r.value.minimum <= sorted[i] <= r.value.maximum
    ensures r.Some? ==> forall i :: 0 <= i < |sorted| ==>
      (i <= |sorted| / 2 ==> sorted[i] <= r.value.median) && (|sorted| / 2 <= i ==> r.value.median <= sorted[i])
  {
    if |sorted| == 0 then None
    else Some(Summary(sorted[0], sorted[|sorted| / 2], sorted[|sorted| - 1]))
  }

  /** The per-record tallies over the visited keys. */
  ghost predicate TimingSoFar(m: Tracker, keys: set<string>, absolute: bool,
                              both: nat, accountFirst: nat, transactionFirst: nat, diffs: seq<int>)
  {
    && both == Count(m, keys, Both)
    && accountFirst == Count(m, keys, AccountFirst)
    && transactionFirst == Count(m, keys, TransactionFirst)
    && both == accountFirst + transactionFirst
    && |diffs| == both
    && multiset(diffs) == DiffBag(m, keys, absolute)
  }

  /** The endpoints that won slot `s` of at least one record under `keys`. */
  ghost function Winners(m: Tracker, keys: set<string>, s: Stream): set<string> {
    set k | k in keys && k in m && m[k].Endpoint(s).Some? :: m[k].Endpoint(s).value
  }

  /** The win table the pass should build: per endpoint, how many slots `s` it won. */
  ghost function WinTable(m: Tracker, keys: set<string>, s: Stream): (w: map<string, nat>)
    ensures forall e :: e in w <==> Wins(m, keys, s, e) > 0
    ensures forall e :: e in w ==> w[e] == Wins(m, keys, s, e)
  {
    var w := map e | e in Winners(m, keys, s) :: Wins(m, keys, s, e);
    assert forall e :: e in w <==> Wins(m, keys, s, e) > 0 by {
      forall e ensures e in w <==> Wins(m, keys, s, e) > 0 {
        var won := set k | k in keys && k in m && m[k].Endpoint(s) == Some(e);
        if e in w {
          var k :| k in keys && k in m && m[k].Endpoint(s).Some? && m[k].Endpoint(s).value == e;
          assert k in won;
        }
      }
    }
    w
  }

  /** A win table that counts, per endpoint, the records whose slot `s` it won. */
  ghost predicate WinsSoFar(m: Tracker, keys: set<string>, s: Stream, w: map<string, nat>) {
    w == WinTable(m, keys, s)
  }

  /** What a timing report promises about a map. */
  ghost predicate DescribesTiming(m: Tracker, absolute: bool, t: Timing) {
    && TimingSoFar(m, m.Keys, absolute, t.bothReceived, t.accountFirst, t.transactionFirst, t.diffs)
    && SortedAsc(t.diffs)
    && t.summary == Summarize(t.diffs)
  }

  /** What the global report promises about the global tracker. */
  ghost predicate DescribesGlobal(m: Tracker, r: GlobalReport) {
    && r.tracked == |m|
    && WinsSoFar(m, m.Keys, AccountStream, r.accountWins)
    && WinsSoFar(m, m.Keys, TransactionStream, r.transactionWins)
    && SumValues(r.accountWins) == Slotted(m, m.Keys, AccountStream) <= |m|
    && SumValues(r.transactionWins) == Slotted(m, m.Keys, TransactionStream) <= |m|
    && DescribesTiming(m, false, r.timing)
  }

  /** Visiting one more record keeps the tallies. */
  lemma TimingKept(m: Tracker, keys: set<string>, k: string, absolute: bool,
                   both: nat, accountFirst: nat, transactionFirst: nat, diffs: seq<int>,
                   both': nat, accountFirst': nat, transactionFirst': nat, diffs': seq<int>)
    requires k !in keys && k in m
    requires TimingSoFar(m, keys, absolute, both, accountFirst, transactionFirst, diffs)
    requires both' == both + (if Holds(m[k], Both) then 1 else 0)
    requires accountFirst' == accountFirst + (if Holds(m[k], AccountFirst) then 1 else 0)
    requires transactionFirst' == transactionFirst + (if Holds(m[k], TransactionFirst) then 1 else 0)
    requires diffs' == diffs + (if BothReceived(m[k]) then [Diff(m[k], absolute)] else [])
    ensures TimingSoFar(m, keys + {k}, absolute, both', accountFirst', transactionFirst', diffs')
  {
    CountAdd(m, keys, k, Both);
    CountAdd(m, keys, k, AccountFirst);
    CountAdd(m, keys, k, TransactionFirst);
    DiffBagRemove(m, keys + {k}, k, absolute);
    assert keys + {k} - {k} == keys;
    if BothReceived(m[k]) {
      assert multiset(diffs') == multiset(diffs) + DiffOf(m, k, absolute);
    } else {
      assert diffs' == diffs;
    }
  }

  /** Visiting one more record changes one endpoint's entry of the win table, or none. */
  lemma WinTableEntryStep(m: Tracker, keys: set<string>, k: string, s: Stream, e: string)
    requires k !in keys && k in m
    ensures var w := WinTable(m, keys, s);
      var w' := if m[k].Endpoint(s).Some? then Bump(w, m[k].Endpoint(s).value) else w;
      var t := WinTable(m, keys + {k}, s);
      (e in w' <==> e in t) && (e in w' ==> w'[e] == t[e])
  {
    WinsAdd(m, keys, k, s, e);
  }

  /** Visiting one more record keeps a win table. */
  lemma WinsStep(m: Tracker, keys: set<string>, k: string, s: Stream, w: map<string, nat>)
    requires k !in keys && k in m
    requires WinsSoFar(m, keys, s, w)
    ensures WinsSoFar(m, keys + {k}, s, if m[k].Endpoint(s).Some? then Bump(w, m[k].Endpoint(s).value) else w)
  {
    var w' := if m[k].Endpoint(s).Some? then Bump(w, m[k].Endpoint(s).value) else w;
    var t := WinTable(m, keys + {k}, s);
    forall e ensures (e in w' <==> e in t) && (e in w' ==> w'[e] == t[e]) {
      WinTableEntryStep(m, keys, k, s, e);
    }
    assert w' == t;
  }

  lemma SlottedAdd(m: Tracker, keys: set<string>, k: string, s: Stream)
    requires k !in keys && k in m
    ensures Slotted(m, keys + {k}, s) == Slotted(m, keys, s) + (if m[k].Endpoint(s).Some? then 1 else 0)
  {
    var before := set k' | k' in keys && k' in m && m[k'].Endpoint(s).Some?;
    var after := set k' | k' in keys + {k} && k' in m && m[k'].Endpoint(s).Some?;
    if m[k].Endpoint(s).Some? {
      assert after == before + {k};
    } else {
      assert after == before;
    }
  }

  lemma SlottedAtMost(m: Tracker, keys: set<string>, s: Stream)
    ensures Slotted(m, keys, s) <= |keys|
  {
    var slotted := set k | k in keys && k in m && m[k].Endpoint(s).Some?;
    assert Slotted(m, keys, s) == |slotted|;
    assert keys == slotted + (keys - slotted);
    assert slotted !! (keys - slotted);
  }

  /** A full win table hands out one win per record that has an endpoint in slot `s`. */
  lemma {:induction false} WinTableTotal(m: Tracker, keys: set<string>, s: Stream)
    requires keys <= m.Keys
    ensures SumValues(WinTable(m, keys, s)) == Slotted(m, keys, s)
    decreases keys
  {
    if keys == {} {
      assert WinTable(m, keys, s) == map[];
    } else {
      var k :| k in keys;
      var rest := keys - {k};
      assert rest + {k} == keys;
      WinTableTotal(m, rest, s);
      WinsStep(m, rest, k, s, WinTable(m, rest, s));
      SlottedAdd(m, rest, k, s);
      if m[k].Endpoint(s).Some? {
        BumpAddsOne(WinTable(m, rest, s), m[k].Endpoint(s).value);
      }
    }
  }

  /** Sorting the differences keeps the tallies and yields the summary. */
  lemma SortingKeepsTiming(m: Tracker, absolute: bool, both: nat, accountFirst: nat, transactionFirst: nat, diffs: seq<int>)
    requires TimingSoFar(m, m.Keys, absolute, both, accountFirst, transactionFirst, diffs)
    ensures var sorted := SortAscending(diffs);
      DescribesTiming(m, absolute, Timing(both, accountFirst, transactionFirst, sorted, Summarize(sorted)))
  {
    var sorted := SortAscending(diffs);
    assert |sorted| == |multiset(sorted)| == |multiset(diffs)| == |diffs|;
  }

  /**
   * One record's contribution to the comparison: counted once if both streams
   * saw it, as account-first only when the account sighting is strictly
   * earlier, with its difference appended.
   */
  method TallyRecord(ghost m: Tracker, ghost keys: set<string>, k: string, d: StreamLatencyData, absolute: bool,
                     both: nat, accountFirst: nat, transactionFirst: nat, diffs: seq<int>)
    returns (both': nat, accountFirst': nat, transactionFirst': nat, diffs': seq<int>)
    requires k !in keys && k in m && d == m[k]
    requires TimingSoFar(m, keys, absolute, both, accountFirst, transactionFirst, diffs)
    ensures TimingSoFar(m, keys + {k}, absolute, both', accountFirst', transactionFirst', diffs')
  {
    both', accountFirst', transactionFirst', diffs' := both, accountFirst, transactionFirst, diffs;
    if d.accountTimestamp.Some? && d.transactionTimestamp.Some? {
      both' := both + 1;
      var diff := d.transactionTimestamp.value - d.accountTimestamp.value;
      diffs' := diffs + [if absolute then Abs(diff) else diff];
      if d.accountTimestamp.value < d.transactionTimestamp.value {
        accountFirst' := accountFirst + 1;
      } else {
        transactionFirst' := transactionFirst + 1;
      }
    }
    TimingKept(m, keys, k, absolute, both, accountFirst, transactionFirst, diffs,
               both', accountFirst', transactionFirst', diffs');
  }

  /** One record's contribution to a win table: its slot's endpoint, if any, gains a win. */
  method TallyWin(ghost m: Tracker, ghost keys: set<string>, k: string, d: StreamLatencyData, s: Stream, wins: map<string, nat>)
    returns (wins': map<string, nat>)
    requires k !in keys && k in m && d == m[k]
    requires WinsSoFar(m, keys, s, wins)
    ensures WinsSoFar(m, keys + {k}, s, wins')
  {
    WinsStep(m, keys, k, s, wins);
    wins' := wins;
    if d.Endpoint(s).Some? {
      wins' := Bump(wins, d.Endpoint(s).value);
    }
  }

  /** The running totals of the global pass. */
  datatype GlobalTally = GlobalTally(
    accountWins: map<string, nat>,
    transactionWins: map<string, nat>,
    both: nat,
    accountFirst: nat,
    transactionFirst: nat,
    diffs: seq<int>)

  /** Everything the global pass has established over the visited keys. */
  ghost predicate GlobalSoFar(m: Tracker, keys: set<string>, g: GlobalTally) {
    match g
    case GlobalTally(accountWins, transactionWins, both, accountFirst, transactionFirst, diffs) =>
      && WinsSoFar(m, keys, AccountStream, accountWins)
      && WinsSoFar(m, keys, TransactionStream, transactionWins)
      && TimingSoFar(m, keys, false, both, accountFirst, transactionFirst, diffs)
  }

  /** The global pass with the keys in `pending` still to visit. */
  ghost predicate GlobalPending(m: Tracker, pending: set<string>, g: GlobalTally) {
    pending <= m.Keys && GlobalSoFar(m, m.Keys - pending, g)
  }

  /** Before the pass nothing is tallied. */
  lemma NothingTallied(m: Tracker)
    ensures GlobalPending(m, m.Keys, GlobalTally(map[], map[], 0, 0, 0, []))
  {
    assert m.Keys - m.Keys == {};
    assert WinTable(m, {}, AccountStream) == map[];
    assert WinTable(m, {}, TransactionStream) == map[];
  }

  /** The body of the global pass for one record. */
  method TallyGlobal(ghost m: Tracker, ghost pending: set<string>, k: string, data: StreamLatencyData, g: GlobalTally)
    returns (g': GlobalTally)
    requires k in pending && k in m && data == m[k]
    requires GlobalPending(m, pending, g)
    ensures GlobalPending(m, pending - {k}, g')
  {
    ghost var keys := m.Keys - pending;
    var accountWins := TallyWin(m, keys, k, data, AccountStream, g.accountWins);
    var transactionWins := TallyWin(m, keys, k, data, TransactionStream, g.transactionWins);
    var both, accountFirst, transactionFirst, diffs :=
      TallyRecord(m, keys, k, data, false, g.both, g.accountFirst, g.transactionFirst, g.diffs);
    g' := GlobalTally(accountWins, transactionWins, both, accountFirst, transactionFirst, diffs);
    assert keys + {k} == m.Keys - (pending - {k});
  }

  /** The global pass over all keys, then the sort, makes the report. */
  lemma GlobalReportHolds(m: Tracker, g: GlobalTally)
    requires GlobalPending(m, {}, g)
    ensures var sorted := SortAscending(g.diffs);
      DescribesGlobal(m, GlobalReport(|m|, g.accountWins, g.transactionWins,
                                      Timing(g.both, g.accountFirst, g.transactionFirst, sorted, Summarize(sorted))))
  {
    assert m.Keys - {} == m.Keys;
    SortingKeepsTiming(m, false, g.both, g.accountFirst, g.transactionFirst, g.diffs);
    WinTableTotal(m, m.Keys, AccountStream);
    WinTableTotal(m, m.Keys, TransactionStream);
    SlottedAtMost(m, m.Keys, AccountStream);
    SlottedAtMost(m, m.Keys, TransactionStream);
    assert |m.Keys| == |m|;
  }

  /** `print_global_statistics`: one pass over the global tracker, then the sorted differences. */
  method GlobalStatistics(m: Tracker) returns (r: GlobalReport)
    ensures DescribesGlobal(m, r)
  {
    var g := GlobalTally(map[], map[], 0, 0, 0, []);
    var pending := m.Keys;
    NothingTallied(m);
    while pending != {}
      invariant pending <= m.Keys
      invariant GlobalPending(m, pending, g)
      decreases pending
    {
      var k :| k in pending;
      g := TallyGlobal(m, pending, k, m[k], g);
      pending := pending - {k};
    }
    GlobalReportHolds(m, g);
    var sorted := SortAscending(g.diffs);
    r := GlobalReport(|m|, g.accountWins, g.transactionWins,
                      Timing(g.both, g.accountFirst, g.transactionFirst, sorted, Summarize(sorted)));
  }

  /** `print_stream_statistics`: one pass over a runner's local map, with absolute differences. */
  method StreamStatistics(m: Tracker) returns (r: Option<StreamReport>)
    ensures r.Some? <==> Count(m, m.Keys, Both) > 0
    ensures r.Some? ==> r.value.tracked == |m| && DescribesTiming(m, true, r.value.timing)
  {
    var both, accountFirst, transactionFirst := 0, 0, 0;
    var diffs: seq<int> := [];
    var pending := m.Keys;
    while pending != {}
      invariant pending <= m.Keys
      invariant TimingSoFar(m, m.Keys - pending, true, both, accountFirst, transactionFirst, diffs)
      decreases pending
    {
      var k :| k in pending;
      both, accountFirst, transactionFirst, diffs :=
        TallyRecord(m, m.Keys - pending, k, m[k], true, both, accountFirst, transactionFirst, diffs);
      assert m.Keys - pending + {k} == m.Keys - (pending - {k});
      pending := pending - {k};
    }
    assert m.Keys - pending == m.Keys;
    SortingKeepsTiming(m, true, both, accountFirst, transactionFirst, diffs);
    var sorted := SortAscending(diffs);
    var t := Timing(both, accountFirst, transactionFirst, sorted, Summarize(sorted));
    r := if both > 0 then Some(StreamReport(|m|, t)) else None;
  }
}
