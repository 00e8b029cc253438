/**
 * The dual-stream latency records of the accounts runner: per signature, the
 * time and endpoint of its account-update sighting and of its transaction
 * sighting, with the two update rules (the runner's local map and the global
 * cross-endpoint tracker).
 */
module Latency {
  import opened Common

  /** The two notification channels of one endpoint. */
  datatype Stream = AccountStream | TransactionStream {
    function Other(): Stream {
      if this == AccountStream then TransactionStream else AccountStream
    }
  }

  /** One sighting of a signature on one stream, by one endpoint, at one time. */
  datatype Sighting = Sighting(signature: string, stream: Stream, timestamp: int, endpoint: string)

  datatype StreamLatencyData = StreamLatencyData(
    signature: string,
    accountTimestamp: Option<int>,
    transactionTimestamp: Option<int>,
    accountEndpoint: Option<string>,
    transactionEndpoint: Option<string>)
  {
    function Timestamp(s: Stream): Option<int> {
      match s
      case AccountStream => accountTimestamp
      case TransactionStream => transactionTimestamp
    }

    function Endpoint(s: Stream): Option<string> {
      match s
      case AccountStream => accountEndpoint
      case TransactionStream => transactionEndpoint
    }

    /** This record with slot `s` set to (`ts`, `ep`). */
    function WithSlot(s: Stream, ts: Option<int>, ep: Option<string>): (r: StreamLatencyData)
      ensures r.signature == signature
      ensures r.Timestamp(s) == ts && r.Endpoint(s) == ep
      ensures SameSlot(r, this, s.Other())
    {
      match s
      case AccountStream => this.(accountTimestamp := ts, accountEndpoint := ep)
      case TransactionStream => this.(transactionTimestamp := ts, transactionEndpoint := ep)
    }
  }

  type Tracker = map<string, StreamLatencyData>

  predicate SameSlot(a: StreamLatencyData, b: StreamLatencyData, s: Stream) {
    a.Timestamp(s) == b.Timestamp(s) && a.Endpoint(s) == b.Endpoint(s)
  }

  /** The record `or_insert` creates on the first sighting of a signature. */
  function Blank(sig: string): (r: StreamLatencyData)
    ensures r.signature == sig
    ensures forall s: Stream :: r.Timestamp(s) == None && r.Endpoint(s) == None
  {
    StreamLatencyData(sig, None, None, None, None)
  }

  /** `entry(sig).or_insert(...)`: the stored record, or a fresh blank one. */
  function Entry(m: Tracker, sig: string): (r: StreamLatencyData)
    ensures sig in m ==> r == m[sig]
    ensures sig !in m ==> r.signature == sig && forall s: Stream :: r.Timestamp(s).None? && r.Endpoint(s).None?
    ensures WellKeyed(m) ==> r.signature == sig
  {
    if sig in m then m[sig] else Blank(sig)
  }

  /** Every record is stored under its own signature. */
  ghost predicate WellKeyed(m: Tracker) {
    forall k :: k in m ==> m[k].signature == k
  }

  /**
   * The local rule: the slot's timestamp is overwritten by every sighting; its
   * endpoint is set by the first one only.
   */
  function LocalUpdate(d: StreamLatencyData, s: Stream, ts: int, ep: string): (r: StreamLatencyData)
    ensures r.signature == d.signature && SameSlot(r, d, s.Other())
    ensures r.Timestamp(s) == Some(ts)
    ensures r.Endpoint(s) == if d.Endpoint(s).None? then Some(ep) else d.Endpoint(s)
  {
    d.WithSlot(s, Some(ts), if d.Endpoint(s).None? then Some(ep) else d.Endpoint(s))
  }

  /** The slot is empty or holds a timestamp later than `ts`. */
  predicate Earlier(ts: int, stored: Option<int>) {
    stored.None? || ts < stored.value
  }

  /**
   * The global rule, minimum wins: the slot (timestamp and endpoint together)
   * is replaced exactly when it is empty or the new timestamp is strictly
   * earlier; otherwise the record is left as it was.
   */
  function GlobalUpdate(d: StreamLatencyData, s: Stream, ts: int, ep: string): (r: StreamLatencyData)
    ensures r.signature == d.signature && SameSlot(r, d, s.Other())
    ensures Earlier(ts, d.Timestamp(s)) ==> r.Timestamp(s) == Some(ts) && r.Endpoint(s) == Some(ep)
    ensures !Earlier(ts, d.Timestamp(s)) ==> r == d
  {
    if Earlier(ts, d.Timestamp(s)) then d.WithSlot(s, Some(ts), Some(ep)) else d
  }

  /** A sighting applied to the runner's local map (entry, then the local rule). */
  function MergeLocal(m: Tracker, x: Sighting): (r: Tracker)
    ensures r.Keys == m.Keys + {x.signature}
    ensures forall k :: k in m && k != x.signature ==> r[k] == m[k]
    ensures SameSlot(r[x.signature], Entry(m, x.signature), x.stream.Other())
    ensures r[x.signature].Timestamp(x.stream) == Some(x.timestamp)
    ensures r[x.signature].Endpoint(x.stream)
      == if Entry(m, x.signature).Endpoint(x.stream).None? then Some(x.endpoint) else Entry(m, x.signature).Endpoint(x.stream)
    ensures WellKeyed(m) ==> WellKeyed(r)
  {
    m[x.signature := LocalUpdate(Entry(m, x.signature), x.stream, x.timestamp, x.endpoint)]
  }

  /**
   * `b` keeps every record of `a`, and no filled slot of `a` holds a later
   * timestamp in `b`.
   */
  ghost predicate NoLater(a: Tracker, b: Tracker) {
    && (forall k :: k in a ==> k in b)
    && (forall k, s: Stream :: k in a && a[k].Timestamp(s).Some? ==>
          b[k].Timestamp(s).Some? && b[k].Timestamp(s).value <= a[k].Timestamp(s).value)
  }

  lemma NoLaterTransitive(a: Tracker, b: Tracker, c: Tracker)
    requires NoLater(a, b) && NoLater(b, c)
    ensures NoLater(a, c)
  {
  }

  /** A sighting applied to the global tracker (entry, then the minimum-wins rule). */
  function MergeGlobal(m: Tracker, x: Sighting): (r: Tracker)
    ensures r.Keys == m.Keys + {x.signature}
    ensures forall k :: k in m && k != x.signature ==> r[k] == m[k]
    ensures SameSlot(r[x.signature], Entry(m, x.signature), x.stream.Other())
    ensures x.signature !in m ==> r[x.signature].Timestamp(x.stream) == Some(x.timestamp)
    ensures WellKeyed(m) ==> WellKeyed(r)
    ensures NoLater(m, r)
  {
    m[x.signature := GlobalUpdate(Entry(m, x.signature), x.stream, x.timestamp, x.endpoint)]
  }

  /** The global rule applied to one record, sighting after sighting. */
  function GlobalFold(d: StreamLatencyData, ups: seq<Sighting>): StreamLatencyData
    decreases |ups|
  {
    if ups == [] then d
    else
      var u := ups[|ups| - 1];
      GlobalUpdate(GlobalFold(d, ups[..|ups| - 1]), u.stream, u.timestamp, u.endpoint)
  }

  /** The local rule applied to one record, sighting after sighting. */
  function LocalFold(d: StreamLatencyData, ups: seq<Sighting>): StreamLatencyData
    decreases |ups|
  {
    if ups == [] then d
    else
      var u := ups[|ups| - 1];
      LocalUpdate(LocalFold(d, ups[..|ups| - 1]), u.stream, u.timestamp, u.endpoint)
  }

  /**
   * Minimum wins over any sequence of sightings of one slot that starts
   * empty: the stored timestamp is the minimum submitted, the stored endpoint
   * is the first submitter of that minimum, and the other slot is untouched.
   */
  lemma {:induction false} GlobalFoldIsMinimum(d: StreamLatencyData, s: Stream, ups: seq<Sighting>)
    requires |ups| > 0
    requires forall i :: 0 <= i < |ups| ==> ups[i].stream == s
    requires d.Timestamp(s).None?
    ensures GlobalFold(d, ups).Timestamp(s).Some? && GlobalFold(d, ups).Endpoint(s).Some?
    ensures forall i :: 0 <= i < |ups| ==> GlobalFold(d, ups).Timestamp(s).value <= ups[i].timestamp
    ensures exists i :: (0 <= i < |ups|
      && ups[i].timestamp == GlobalFold(d, ups).Timestamp(s).value
      && ups[i].endpoint == GlobalFold(d, ups).Endpoint(s).value
      && forall j :: 0 <= j < i ==> ups[i].timestamp < ups[j].timestamp)
    ensures SameSlot(GlobalFold(d, ups), d, s.Other()) && GlobalFold(d, ups).signature == d.signature
  {
    var n := |ups|;
    var u := ups[n - 1];
    var prev := ups[..n - 1];
    assert u.stream == s;
    if n == 1 {
      assert prev == [];
      assert GlobalFold(d, ups) == GlobalUpdate(d, s, u.timestamp, u.endpoint);
      assert ups[0] == u;
    } else {
      GlobalFoldIsMinimum(d, s, prev);
      var p := GlobalFold(d, prev);
      assert GlobalFold(d, ups) == GlobalUpdate(p, s, u.timestamp, u.endpoint);
      var i0 :| 0 <= i0 < |prev|
        && prev[i0].timestamp == p.Timestamp(s).value
        && prev[i0].endpoint == p.Endpoint(s).value
        && forall j :: 0 <= j < i0 ==> prev[i0].timestamp < prev[j].timestamp;
      if u.timestamp < p.Timestamp(s).value {
        assert forall j :: 0 <= j < n - 1 ==> ups[j] == prev[j];
        assert ups[n - 1].timestamp == GlobalFold(d, ups).Timestamp(s).value;
      } else {
        assert ups[i0] == prev[i0];
        assert forall j :: 0 <= j < i0 ==> ups[j] == prev[j];
      }
    }
  }

  /**
   * The local rule over any non-empty sequence of sightings of one slot: the
   * stored timestamp is the LATEST submitted, the endpoint is the first
   * submitter (unless one was already stored), and the other slot is untouched.
   */
  lemma {:induction false} LocalFoldKeepsLatest(d: StreamLatencyData, s: Stream, ups: seq<Sighting>)
    requires |ups| > 0
    requires forall i :: 0 <= i < |ups| ==> ups[i].stream == s
    ensures LocalFold(d, ups).Timestamp(s) == Some(ups[|ups| - 1].timestamp)
    ensures LocalFold(d, ups).Endpoint(s) == if d.Endpoint(s).None? then Some(ups[0].endpoint) else d.Endpoint(s)
    ensures SameSlot(LocalFold(d, ups), d, s.Other()) && LocalFold(d, ups).signature == d.signature
  {
    var n := |ups|;
    var prev := ups[..n - 1];
    assert ups[n - 1].stream == s;
    if n == 1 {
      assert prev == [];
    } else {
      LocalFoldKeepsLatest(d, s, prev);
      assert prev[0] == ups[0];
    }
  }

  /** The global tracker after a sequence of merges. */
  function MergeAll(m: Tracker, xs: seq<Sighting>): Tracker
    decreases |xs|
  {
    if xs == [] then m else MergeGlobal(MergeAll(m, xs[..|xs| - 1]), xs[|xs| - 1])
  }

  /** The sightings of one signature on one stream, in submission order. */
  function Project(xs: seq<Sighting>, sig: string, s: Stream): (r: seq<Sighting>)
    ensures |r| <= |xs|
    ensures forall i :: 0 <= i < |r| ==> r[i].signature == sig && r[i].stream == s
    decreases |xs|
  {
    if xs == [] then []
    else
      var x := xs[|xs| - 1];
      Project(xs[..|xs| - 1], sig, s) + (if x.signature == sig && x.stream == s then [x] else [])
  }

  /** A single sighting is kept iff it is of that signature and stream. */
  lemma ProjectOne(x: Sighting, sig: string, s: Stream)
    ensures Project([x], sig, s) == if x.signature == sig && x.stream == s then [x] else []
  {
    assert [x][..0] == [];
  }

  /**
   * Projection keeps order and multiplicity: it distributes over
   * concatenation, so together with `ProjectOne` it keeps exactly the
   * sightings of `sig` on `s`, in submission order.
   */
  lemma {:induction false} ProjectAppend(xs: seq<Sighting>, ys: seq<Sighting>, sig: string, s: Stream)
    ensures Project(xs + ys, sig, s) == Project(xs, sig, s) + Project(ys, sig, s)
    decreases |ys|
  {
    if ys == [] {
      assert xs + ys == xs;
    } else {
      var ys' := ys[..|ys| - 1];
      assert (xs + ys)[..|xs + ys| - 1] == xs + ys';
      assert (xs + ys)[|xs + ys| - 1] == ys[|ys| - 1];
      ProjectAppend(xs, ys', sig, s);
    }
  }

  /**
   * Whatever the interleaving of signatures and streams, each slot of the
   * tracker ends as the global rule folded over that slot's own sightings.
   */
  lemma {:induction false} MergeAllPerSlot(m: Tracker, xs: seq<Sighting>, sig: string, s: Stream)
    ensures SameSlot(Entry(MergeAll(m, xs), sig), GlobalFold(Entry(m, sig), Project(xs, sig, s)), s)
    decreases |xs|
  {
    if xs != [] {
      var prev := xs[..|xs| - 1];
      var x := xs[|xs| - 1];
      MergeAllPerSlot(m, prev, sig, s);
      var before := MergeAll(m, prev);
      var p := Project(prev, sig, s);
      var folded := GlobalFold(Entry(m, sig), p);
      assert MergeAll(m, xs) == MergeGlobal(before, x);
      EntryAfterMerge(before, x, sig);
      if x.signature == sig && x.stream == s {
        assert Project(xs, sig, s) == p + [x];
        assert (p + [x])[..|p|] == p;
        assert GlobalFold(Entry(m, sig), p + [x]) == GlobalUpdate(folded, s, x.timestamp, x.endpoint);
        GlobalUpdateReadsOneSlot(Entry(before, sig), folded, s, x.timestamp, x.endpoint);
      } else {
        assert Project(xs, sig, s) == p;
        if x.signature == sig {
          assert x.stream.Other() == s;
        }
      }
    }
  }

  /** Merging a sighting touches only the entry of its own signature. */
  lemma EntryAfterMerge(m: Tracker, x: Sighting, sig: string)
    ensures Entry(MergeGlobal(m, x), sig)
         == if x.signature == sig then GlobalUpdate(Entry(m, sig), x.stream, x.timestamp, x.endpoint)
            else Entry(m, sig)
  {
  }

  /** The global rule's effect on a slot depends only on that slot. */
  lemma GlobalUpdateReadsOneSlot(a: StreamLatencyData, b: StreamLatencyData, s: Stream, ts: int, ep: string)
    requires SameSlot(a, b, s)
    ensures SameSlot(GlobalUpdate(a, s, ts, ep), GlobalUpdate(b, s, ts, ep), s)
  {
  }

  /**
   * The minimum-wins property of the global tracker: for a signature the
   * tracker did not hold before, each slot ends holding the earliest submitted
   * timestamp, together with the endpoint that submitted it first.
   */
  lemma TrackerSlotIsMinimum(m: Tracker, xs: seq<Sighting>, sig: string, s: Stream)
    requires sig !in m
    requires |Project(xs, sig, s)| > 0
    ensures var stored := Entry(MergeAll(m, xs), sig);
      var ups := Project(xs, sig, s);
      && stored.Timestamp(s).Some? && stored.Endpoint(s).Some?
      && (forall i :: 0 <= i < |ups| ==> stored.Timestamp(s).value <= ups[i].timestamp)
      && exists i :: (0 <= i < |ups|
        && ups[i].timestamp == stored.Timestamp(s).value
        && ups[i].endpoint == stored.Endpoint(s).value
        && forall j :: 0 <= j < i ==> ups[i].timestamp < ups[j].timestamp)
  {
    MergeAllPerSlot(m, xs, sig, s);
    GlobalFoldIsMinimum(Blank(sig), s, Project(xs, sig, s));
  }

  /** The global tracker: one map shared by every accounts runner. */
  class AccountTracker {
    var entries: Tracker

    constructor ()
      ensures entries == map[]
    {
      entries := map[];
    }

    /** Lock, `entry().or_insert`, then replace the slot if empty or strictly later. */
    method Merge(x: Sighting)
      modifies this
      ensures entries == MergeGlobal(old(entries), x)
    {
      var e := if x.signature in entries then entries[x.signature] else Blank(x.signature);
      if e.Timestamp(x.stream).None? || x.timestamp < e.Timestamp(x.stream).value {
        e := e.WithSlot(x.stream, Some(x.timestamp), Some(x.endpoint));
      }
      entries := entries[x.signature := e];
    }
  }
}
