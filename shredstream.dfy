/**
 * The shredstream runner (`process_shreds_endpoint` and `process_entry`): one
 * endpoint streaming bundled entries. Each entry's payload is decoded into
 * Solana entries (or fails to decode and is skipped); every transaction that
 * mentions the watched account is logged and handed to the comparator, in
 * order. The target check runs once per entry, after all of its adds.
 */
module Shredstream {
  import opened Common
  import opened Coordination

  /** A message in either format; both carry their account keys, already encoded. */
  datatype VersionedMessage = Legacy(accountKeys: seq<string>) | V0(accountKeys: seq<string>)

  datatype SolanaTransaction = SolanaTransaction(signatures: seq<string>, message: VersionedMessage)

  datatype SolanaEntry = SolanaEntry(transactions: seq<SolanaTransaction>)

  /** A streamed entry: its slot and its payload, `None` when it does not decode. */
  datatype Entry = Entry(slot: nat, entries: Option<seq<SolanaEntry>>)

  datatype Event =
    | EntryReceived(entry: Entry)
    | ReceiveError
    | Closed
    | ShutdownSignal

  datatype State = State(transactionCount: nat, observations: nat, adds: seq<Observation>)

  datatype Outcome = Running(st: State) | Stopped(st: State, exit: Exit)

  /** What `process_entry` leaves behind: the new state and whether it returned `Ok`. */
  datatype EntryResult = EntryResult(st: State, ok: bool)

  /** The account keys of a message, whichever its format. */
  function AccountKeys(m: VersionedMessage): (r: seq<string>)
    ensures r == m.accountKeys
  {
    match m
    case Legacy(keys) => keys
    case V0(keys) => keys
  }

  predicate Matches(c: Context, tx: SolanaTransaction) {
    c.config.account in AccountKeys(tx.message)
  }

  /** A legacy and a V0 message with the same account keys are filtered alike. */
  lemma FormatsFilterAlike(c: Context, signatures: seq<string>, keys: seq<string>)
    ensures Matches(c, SolanaTransaction(signatures, Legacy(keys))) <==> Matches(c, SolanaTransaction(signatures, V0(keys)))
  {
  }

  /** The transactions of the entries, entry by entry, in order. */
  function Flatten(entries: seq<SolanaEntry>): (r: seq<SolanaTransaction>)
    ensures forall t :: t in r ==> exists e :: e in entries && t in e.transactions
    decreases |entries|
  {
    if |entries| == 0 then []
    else
      var last := entries[|entries| - 1];
      var rest := Flatten(entries[..|entries| - 1]);
      assert forall t :: t in rest ==> exists e :: e in entries && t in e.transactions by {
        forall t | t in rest ensures exists e :: e in entries && t in e.transactions {
          var e :| e in entries[..|entries| - 1] && t in e.transactions;
          assert e in entries;
        }
      }
      rest + last.transactions
  }

  lemma {:induction false} FlattenAppend(a: seq<SolanaEntry>, b: seq<SolanaEntry>)
    ensures Flatten(a + b) == Flatten(a) + Flatten(b)
    decreases |b|
  {
    if |b| == 0 {
      assert a + b == a;
    } else {
      var b' := b[..|b| - 1];
      assert (a + b)[..|a + b| - 1] == a + b';
      FlattenAppend(a, b');
      assert b'[..|b'|] == b';
      assert Flatten(b) == Flatten(b') + b[|b| - 1].transactions;
    }
  }

  /** The transactions that mention the watched account, in order. */
  function Matching(c: Context, txs: seq<SolanaTransaction>): (r: seq<SolanaTransaction>)
    ensures |r| <= |txs|
    ensures forall t :: t in r ==> t in txs && Matches(c, t)
    ensures forall t :: t in txs && Matches(c, t) ==> t in r
    ensures Signed(c, txs) ==> AllSigned(r)
    decreases |txs|
  {
    if |txs| == 0 then []
    else
      var rest := Matching(c, txs[..|txs| - 1]);
      var last := txs[|txs| - 1];
      assert forall t :: t in txs ==> t in txs[..|txs| - 1] || t == last by {
        forall t | t in txs ensures t in txs[..|txs| - 1] || t == last {
          var i :| 0 <= i < |txs| && txs[i] == t;
          if i < |txs| - 1 {
            assert txs[..|txs| - 1][i] == t;
          }
        }
      }
      if Matches(c, last) then rest + [last] else rest
  }

  /** A single transaction is kept iff it matches. */
  lemma MatchingOne(c: Context, t: SolanaTransaction)
    ensures Matching(c, [t]) == if Matches(c, t) then [t] else []
  {
    assert [t][..0] == [];
  }

  /**
   * The filter keeps order and multiplicity: it distributes over
   * concatenation, so together with `MatchingOne` it keeps exactly the
   * matching transactions, in input order.
   */
  lemma {:induction false} MatchingAppend(c: Context, a: seq<SolanaTransaction>, b: seq<SolanaTransaction>)
    ensures Matching(c, a + b) == Matching(c, a) + Matching(c, b)
    decreases |b|
  {
    if b == [] {
      assert a + b == a;
    } else {
      var b' := b[..|b| - 1];
      assert (a + b)[..|a + b| - 1] == a + b';
      assert (a + b)[|a + b| - 1] == b[|b| - 1];
      MatchingAppend(c, a, b');
    }
  }

  /** Every matching transaction has a first signature (`signatures[0]` does not panic). */
  predicate Signed(c: Context, txs: seq<SolanaTransaction>) {
    forall i :: 0 <= i < |txs| && Matches(c, txs[i]) ==> |txs[i].signatures| > 0
  }

  /** Every transaction has a first signature. */
  predicate AllSigned(ms: seq<SolanaTransaction>) {
    forall i :: 0 <= i < |ms| ==> |ms[i].signatures| > 0
  }

  /**
   * One transaction of the payload: a matching one reads the clock, is logged
   * (a failed write ends `process_entry` with the error, before the add),
   * then added to the comparator and counted.
   */
  function TxStep(c: Context, st: State, tx: SolanaTransaction): (r: EntryResult)
    requires Matches(c, tx) ==> |tx.signatures| > 0
    ensures !Matches(c, tx) ==> r == EntryResult(st, true)
    ensures Matches(c, tx) ==> r.st.observations == st.observations + 1
    ensures Matches(c, tx) ==> (r.ok <==> c.env.logWriteSucceeds(st.observations))
    ensures Matches(c, tx) && !r.ok ==> r.st.adds == st.adds && r.st.transactionCount == st.transactionCount
    ensures Matches(c, tx) && r.ok ==>
      && r.st.adds == st.adds + [Observation(c.name, tx.signatures[0], c.env.clock(st.observations), c.startTime)]
      && r.st.transactionCount == st.transactionCount + 1
  {
    if !Matches(c, tx) then EntryResult(st, true)
    else if !c.env.logWriteSucceeds(st.observations) then
      EntryResult(st.(observations := st.observations + 1), false)
    else
      var o := Observation(c.name, tx.signatures[0], c.env.clock(st.observations), c.startTime);
      EntryResult(State(st.transactionCount + 1, st.observations + 1, st.adds + [o]), true)
  }

  /** The transactions in order, stopping at the first failed log write. */
  function ProcessTxs(c: Context, st: State, txs: seq<SolanaTransaction>): (r: EntryResult)
    requires Signed(c, txs)
    ensures |st.adds| <= |r.st.adds| && r.st.transactionCount == st.transactionCount + |r.st.adds| - |st.adds|
    ensures st.observations + |r.st.adds| - |st.adds| <= r.st.observations
    decreases |txs|
  {
    if |txs| == 0 then EntryResult(st, true)
    else
      var r := ProcessTxs(c, st, txs[..|txs| - 1]);
      if !r.ok then r else TxStep(c, r.st, txs[|txs| - 1])
  }

  predicate EntryDefined(c: Context, entry: Entry) {
    entry.entries.Some? ==> Signed(c, Flatten(entry.entries.value))
  }

  /**
   * `process_entry`: a payload that does not decode changes nothing and
   * returns `Ok`; otherwise the transactions of its entries, in order.
   */
  function ProcessEntrySpec(c: Context, st: State, entry: Entry): (r: EntryResult)
    requires EntryDefined(c, entry)
    ensures entry.entries.None? ==> r == EntryResult(st, true)
  {
    if entry.entries.None? then EntryResult(st, true)
    else ProcessTxs(c, st, Flatten(entry.entries.value))
  }

  lemma SignedPrefix(c: Context, txs: seq<SolanaTransaction>, n: nat)
    requires Signed(c, txs) && n <= |txs|
    ensures Signed(c, txs[..n])
  {
    forall i | 0 <= i < n && Matches(c, txs[..n][i]) ensures |txs[..n][i].signatures| > 0 {
      assert txs[..n][i] == txs[i];
    }
  }

  /**
   * What a payload whose matching transactions are `ms` leaves behind, from
   * `st` on: the adds are the first k of `ms`, in order, each under its first
   * signature, stamped with consecutive clock readings, and counted; their k
   * log writes succeeded. Either all of `ms` were added and the result is `Ok`,
   * or the log write of the (k+1)-th failed and nothing after it was visited.
   */
  ghost predicate Logged(c: Context, st: State, ms: seq<SolanaTransaction>, r: EntryResult)
    requires AllSigned(ms)
  {
    && |st.adds| <= |r.st.adds| <= |st.adds| + |ms|
    && r.st.adds[..|st.adds|] == st.adds
    && (forall j :: |st.adds| <= j < |r.st.adds| ==>
          r.st.adds[j] == Observation(c.name, ms[j - |st.adds|].signatures[0],
                                      c.env.clock(st.observations + j - |st.adds|), c.startTime))
    && r.st.transactionCount == st.transactionCount + |r.st.adds| - |st.adds|
    && (forall n :: st.observations <= n < st.observations + |r.st.adds| - |st.adds| ==> c.env.logWriteSucceeds(n))
    && (r.ok ==> |r.st.adds| == |st.adds| + |ms| && r.st.observations == st.observations + |ms|)
    && (!r.ok ==>
          && |r.st.adds| < |st.adds| + |ms|
          && !c.env.logWriteSucceeds(st.observations + |r.st.adds| - |st.adds|)
          && r.st.observations == st.observations + |r.st.adds| - |st.adds| + 1)
  }

  /** One more transaction after an `Ok` prefix keeps `Logged`. */
  lemma LoggedTx(c: Context, st: State, ms: seq<SolanaTransaction>, p: EntryResult, tx: SolanaTransaction)
    requires AllSigned(ms) && (Matches(c, tx) ==> |tx.signatures| > 0)
    requires p.ok && Logged(c, st, ms, p)
    ensures AllSigned(if Matches(c, tx) then ms + [tx] else ms)
    ensures Logged(c, st, if Matches(c, tx) then ms + [tx] else ms, TxStep(c, p.st, tx))
  {
    if Matches(c, tx) {
      var ms' := ms + [tx];
      assert forall i :: 0 <= i < |ms| ==> ms'[i] == ms[i];
      var r := TxStep(c, p.st, tx);
      if r.ok {
        assert r.st.adds[..|st.adds|] == p.st.adds[..|st.adds|];
      }
    }
  }

  /** After a failed write, more matching transactions in the payload change nothing. */
  lemma LoggedFailed(c: Context, st: State, ms: seq<SolanaTransaction>, p: EntryResult, extra: seq<SolanaTransaction>)
    requires AllSigned(ms) && AllSigned(ms + extra)
    requires !p.ok && Logged(c, st, ms, p)
    ensures Logged(c, st, ms + extra, p)
  {
    assert forall i :: 0 <= i < |ms| ==> (ms + extra)[i] == ms[i];
  }

  /** A payload's adds follow its matching transactions, as `Logged` says. */
  lemma {:induction false} EntryAddsFollowMatches(c: Context, st: State, txs: seq<SolanaTransaction>)
    requires Signed(c, txs)
    ensures Logged(c, st, Matching(c, txs), ProcessTxs(c, st, txs))
    decreases |txs|
  {
    if |txs| == 0 {
      assert ProcessTxs(c, st, txs).st.adds[..|st.adds|] == st.adds;
    } else {
      var prefix := txs[..|txs| - 1];
      var last := txs[|txs| - 1];
      SignedPrefix(c, txs, |txs| - 1);
      EntryAddsFollowMatches(c, st, prefix);
      var p := ProcessTxs(c, st, prefix);
      var mp := Matching(c, prefix);
      if p.ok {
        LoggedTx(c, st, mp, p, last);
      } else {
        LoggedFailed(c, st, mp, p, if Matches(c, last) then [last] else []);
        assert mp + [] == mp;
      }
    }
  }

  /** The shredstream needs no more of an event than that its payload's matching transactions are signed. */
  predicate EventDefined(c: Context, e: Event) {
    e.EntryReceived? ==> EntryDefined(c, e.entry)
  }

  /**
   * One turn of the loop: an entry is processed, a failed log write aborts the
   * runner, and then the valid count is compared with the target once. Any end
   * of the stream or error, and the shutdown signal, stop the runner.
   */
  function Step(c: Context, valid: seq<Observation> -> nat, st: State, e: Event): (r: Outcome)
    requires EventDefined(c, e)
    ensures |st.adds| <= |r.st.adds| && r.st.adds[..|st.adds|] == st.adds
    ensures forall j :: |st.adds| <= j < |r.st.adds| ==>
      r.st.adds[j].endpoint == c.name && r.st.adds[j].startTime == c.startTime
    ensures r.st.transactionCount == st.transactionCount + |r.st.adds| - |st.adds|
    ensures r.Stopped? && r.exit == TargetReached <==>
      e.EntryReceived? && ProcessEntrySpec(c, st, e.entry).ok && valid(r.st.adds) == c.config.transactions
    ensures !e.EntryReceived? ==> r.Stopped? && r.st == st
    ensures e.ShutdownSignal? ==> r == Stopped(st, StopSignal)
    ensures e.ReceiveError? ==> r == Stopped(st, StreamError)
    ensures e.Closed? ==> r == Stopped(st, StreamClosed)
    ensures e.EntryReceived? ==> r.st == ProcessEntrySpec(c, st, e.entry).st
    ensures e.EntryReceived? && !ProcessEntrySpec(c, st, e.entry).ok ==> r.Stopped? && r.exit == LogWriteFailed
    ensures e.EntryReceived? && ProcessEntrySpec(c, st, e.entry).ok && valid(r.st.adds) != c.config.transactions ==>
      r.Running?
  {
    match e
    case ShutdownSignal => Stopped(st, StopSignal)
    case ReceiveError => Stopped(st, StreamError)
    case Closed => Stopped(st, StreamClosed)
    case EntryReceived(entry) =>
      var r := ProcessEntrySpec(c, st, entry);
      StepAccounting(c, st, entry);
      if !r.ok then Stopped(r.st, LogWriteFailed)
      else if valid(r.st.adds) == c.config.transactions then Stopped(r.st, TargetReached)
      else Running(r.st)
  }

  /** What one entry does to the comparator trace and the count. */
  lemma StepAccounting(c: Context, st: State, entry: Entry)
    requires EntryDefined(c, entry)
    ensures var r := ProcessEntrySpec(c, st, entry);
      && |st.adds| <= |r.st.adds| && r.st.adds[..|st.adds|] == st.adds
      && (forall j :: |st.adds| <= j < |r.st.adds| ==>
            r.st.adds[j].endpoint == c.name && r.st.adds[j].startTime == c.startTime)
      && r.st.transactionCount == st.transactionCount + |r.st.adds| - |st.adds|
  {
    if entry.entries.Some? {
      EntryAddsFollowMatches(c, st, Flatten(entry.entries.value));
    }
  }

  predicate RunDefined(c: Context, events: seq<Event>) {
    forall i :: 0 <= i < |events| ==> EventDefined(c, events[i])
  }

  /** The events in order; once stopped, the runner stays stopped. */
  function Run(c: Context, valid: seq<Observation> -> nat, init: State, events: seq<Event>): (r: Outcome)
    requires RunDefined(c, events)
    ensures r.Running? ==> forall i :: 0 <= i < |events| ==> events[i].EntryReceived?
    decreases |events|
  {
    if |events| == 0 then Running(init)
    else
      var o := Run(c, valid, init, events[..|events| - 1]);
      if o.Stopped? then o else Step(c, valid, o.st, events[|events| - 1])
  }

  lemma {:induction false} RunStaysStopped(c: Context, valid: seq<Observation> -> nat, init: State,
                                           events: seq<Event>, i: nat)
    requires i <= |events| && RunDefined(c, events)
    ensures RunDefined(c, events[..i])
    ensures Run(c, valid, init, events[..i]).Stopped? ==>
      Run(c, valid, init, events) == Run(c, valid, init, events[..i])
    decreases |events|
  {
    if i < |events| {
      var prefix := events[..|events| - 1];
      assert events[..i] == prefix[..i];
      RunStaysStopped(c, valid, init, prefix, i);
    } else {
      assert events[..i] == events;
    }
  }

  /**
   * Over any events, the comparator trace only grows, by observations
   * carrying this runner's name and start time, and the transaction count is
   * exactly the number of them; the target is reached only when the valid
   * count equals it after an entry.
   */
  lemma {:induction false} RunAccounting(c: Context, valid: seq<Observation> -> nat, init: State,
                                         events: seq<Event>)
    requires RunDefined(c, events)
    ensures var o := Run(c, valid, init, events);
      && |init.adds| <= |o.st.adds| && o.st.adds[..|init.adds|] == init.adds
      && (forall j :: |init.adds| <= j < |o.st.adds| ==>
            o.st.adds[j].endpoint == c.name && o.st.adds[j].startTime == c.startTime)
      && o.st.transactionCount == init.transactionCount + |o.st.adds| - |init.adds|
      && (o.Stopped? && o.exit == TargetReached ==> valid(o.st.adds) == c.config.transactions)
    decreases |events|
  {
    if |events| > 0 {
      var prefix := events[..|events| - 1];
      RunStaysStopped(c, valid, init, events, |events| - 1);
      RunAccounting(c, valid, init, prefix);
      var p := Run(c, valid, init, prefix);
      if p.Running? {
        var o := Step(c, valid, p.st, events[|events| - 1]);
        assert o.st.adds[..|p.st.adds|] == p.st.adds;
        assert o.st.adds[..|init.adds|] == p.st.adds[..|init.adds|];
      }
    }
  }

  /**
   * The check runs once per entry, after all of its adds: for an entry
   * holding two matching transactions, whether the runner stops on the target
   * depends only on the valid count after both adds, so a count that equals
   * the target after the first and passes it with the second goes unnoticed.
   */
  lemma OvershootWithinEntryIsMissed(c: Context, valid: seq<Observation> -> nat, st: State,
                                     tx1: SolanaTransaction, tx2: SolanaTransaction, slot: nat)
    requires Matches(c, tx1) && |tx1.signatures| > 0 && Matches(c, tx2) && |tx2.signatures| > 0
    requires c.env.logWriteSucceeds(st.observations) && c.env.logWriteSucceeds(st.observations + 1)
    ensures var e := EntryReceived(Entry(slot, Some([SolanaEntry([tx1, tx2])])));
      var both := st.adds + [Observation(c.name, tx1.signatures[0], c.env.clock(st.observations), c.startTime),
                             Observation(c.name, tx2.signatures[0], c.env.clock(st.observations + 1), c.startTime)];
      var after := State(st.transactionCount + 2, st.observations + 2, both);
      && EventDefined(c, e)
      && Step(c, valid, st, e) == (if valid(both) == c.config.transactions then Stopped(after, TargetReached) else Running(after))
  {
    var entries := [SolanaEntry([tx1, tx2])];
    assert entries[..0] == [];
    assert Flatten(entries) == [tx1, tx2];
    assert [tx1, tx2][..1] == [tx1];
    assert [tx1][..0] == [];
    var o1 := Observation(c.name, tx1.signatures[0], c.env.clock(st.observations), c.startTime);
    var o2 := Observation(c.name, tx2.signatures[0], c.env.clock(st.observations + 1), c.startTime);
    assert ProcessTxs(c, st, [tx1]) == EntryResult(State(st.transactionCount + 1, st.observations + 1, st.adds + [o1]), true);
    assert st.adds + [o1] + [o2] == st.adds + [o1, o2];
  }

  /** The transactions `txs` were all visited from `st0` without a failed write, reaching `st`. */
  ghost predicate Visited(c: Context, st0: State, txs: seq<SolanaTransaction>, st: State) {
    Signed(c, txs) && ProcessTxs(c, st0, txs) == EntryResult(st, true)
  }

  /** `process_entry`: the payload's entries in order, acting on the shared comparator. */
  method ProcessEntry(c: Context, entry: Entry, comparator: Comparator, transactionCount: nat, observations: nat)
    returns (transactionCount': nat, observations': nat, ok: bool)
    requires EntryDefined(c, entry)
    modifies comparator
    ensures ProcessEntrySpec(c, State(transactionCount, observations, old(comparator.adds)), entry)
      == EntryResult(State(transactionCount', observations', comparator.adds), ok)
  {
    transactionCount', observations', ok := transactionCount, observations, true;
    if entry.entries.None? {
      return;
    }
    var entries := entry.entries.value;
    ghost var st0 := State(transactionCount, observations, comparator.adds);
    assert entries[..0] == [];
    var i := 0;
    while i < |entries|
      invariant 0 <= i <= |entries|
      invariant Visited(c, st0, Flatten(entries[..i]), State(transactionCount', observations', comparator.adds))
      decreases |entries| - i
    {
      transactionCount', observations', ok := ProcessTransactions(c, st0, entries, i, comparator, transactionCount', observations');
      if !ok {
        return;
      }
      i := i + 1;
    }
    assert entries[..i] == entries;
  }

  /**
   * The inner loop of `process_entry`, over the transactions of entry i: it
   * either visits all of them, or returns the error of the first failed log
   * write, which is then the result of the whole payload.
   */
  method ProcessTransactions(c: Context, ghost st0: State, entries: seq<SolanaEntry>, i: nat, comparator: Comparator,
                             transactionCount: nat, observations: nat)
    returns (transactionCount': nat, observations': nat, ok: bool)
    requires i < |entries| && Signed(c, Flatten(entries))
    requires Visited(c, st0, Flatten(entries[..i]), State(transactionCount, observations, comparator.adds))
    modifies comparator
    ensures ok ==> Visited(c, st0, Flatten(entries[..i + 1]), State(transactionCount', observations', comparator.adds))
    ensures !ok ==> ProcessTxs(c, st0, Flatten(entries)) == EntryResult(State(transactionCount', observations', comparator.adds), false)
  {
    transactionCount', observations', ok := transactionCount, observations, true;
    var txs := entries[i].transactions;
    ghost var before := Flatten(entries[..i]);
    EntryPrefix(entries, i);
    var j := 0;
    while j < |txs|
      invariant 0 <= j <= |txs|
      invariant Visited(c, st0, before + txs[..j], State(transactionCount', observations', comparator.adds))
      decreases |txs| - j
    {
      VisitStep(c, st0, entries, i, j, State(transactionCount', observations', comparator.adds));
      var tx := txs[j];
      var accounts := AccountKeys(tx.message);
      if c.config.account in accounts {
        var timestamp := c.env.clock(observations');
        var signature := tx.signatures[0];
        if !c.env.logWriteSucceeds(observations') {
          observations', ok := observations' + 1, false;
          return;
        }
        comparator.Add(Observation(c.name, signature, timestamp, c.startTime));
        observations' := observations' + 1;
        transactionCount' := transactionCount' + 1;
      }
      j := j + 1;
    }
    assert txs[..j] == txs;
  }

  /** The transactions of the first i+1 entries extend those of the first i. */
  lemma EntryPrefix(entries: seq<SolanaEntry>, i: nat)
    requires i < |entries|
    ensures Flatten(entries[..i + 1]) == Flatten(entries[..i]) + entries[i].transactions
    ensures Flatten(entries[..i]) + entries[i].transactions[..0] == Flatten(entries[..i])
  {
    assert entries[..i + 1][..i] == entries[..i];
    assert entries[i].transactions[..0] == [];
  }

  /** The transactions of all entries, around entry i. */
  lemma FlattenAround(entries: seq<SolanaEntry>, i: nat)
    requires i < |entries|
    ensures Flatten(entries) == Flatten(entries[..i]) + entries[i].transactions + Flatten(entries[i + 1..])
  {
    assert entries == entries[..i + 1] + entries[i + 1..];
    FlattenAppend(entries[..i + 1], entries[i + 1..]);
    EntryPrefix(entries, i);
  }

  /** The transactions of all entries, cut after transaction j of entry i. */
  lemma FlattenSplit(entries: seq<SolanaEntry>, i: nat, j: nat)
    requires i < |entries| && j < |entries[i].transactions|
    ensures var txs := entries[i].transactions;
      Flatten(entries) == (Flatten(entries[..i]) + txs[..j + 1]) + (txs[j + 1..] + Flatten(entries[i + 1..]))
  {
    var txs := entries[i].transactions;
    FlattenAround(entries, i);
    assert txs == txs[..j + 1] + txs[j + 1..];
  }

  /**
   * Transaction j of entry i, visited after the ones before it: it is signed
   * if it matches, an `Ok` step extends the visited prefix, and a failed
   * write is the result of the whole payload.
   */
  lemma VisitStep(c: Context, st0: State, entries: seq<SolanaEntry>, i: nat, j: nat, st: State)
    requires i < |entries| && j < |entries[i].transactions| && Signed(c, Flatten(entries))
    requires Visited(c, st0, Flatten(entries[..i]) + entries[i].transactions[..j], st)
    ensures Matches(c, entries[i].transactions[j]) ==> |entries[i].transactions[j].signatures| > 0
    ensures var r := TxStep(c, st, entries[i].transactions[j]);
      && (r.ok ==> Visited(c, st0, Flatten(entries[..i]) + entries[i].transactions[..j + 1], r.st))
      && (!r.ok ==> ProcessTxs(c, st0, Flatten(entries)) == r)
  {
    var txs := entries[i].transactions;
    var head := Flatten(entries[..i]) + txs[..j + 1];
    var tail := txs[j + 1..] + Flatten(entries[i + 1..]);
    FlattenSplit(entries, i, j);
    assert Flatten(entries)[..|head|] == head;
    SignedPrefix(c, Flatten(entries), |head|);
    assert txs[..j + 1] == txs[..j] + [txs[j]];
    assert head[..|head| - 1] == Flatten(entries[..i]) + txs[..j];
    assert head[|head| - 1] == txs[j];
    ProcessTxsSticks(c, st0, head, tail);
  }

  /** Once a log write has failed, later transactions change nothing. */
  lemma {:induction false} ProcessTxsSticks(c: Context, st: State, xs: seq<SolanaTransaction>, ys: seq<SolanaTransaction>)
    requires Signed(c, xs + ys)
    ensures Signed(c, xs)
    ensures !ProcessTxs(c, st, xs).ok ==> ProcessTxs(c, st, xs + ys) == ProcessTxs(c, st, xs)
    decreases |ys|
  {
    assert (xs + ys)[..|xs|] == xs;
    SignedPrefix(c, xs + ys, |xs|);
    if |ys| > 0 {
      var ys' := ys[..|ys| - 1];
      assert (xs + ys)[..|xs + ys| - 1] == xs + ys';
      SignedPrefix(c, xs + ys, |xs + ys'|);
      ProcessTxsSticks(c, st, xs, ys');
    } else {
      assert xs + ys == xs;
    }
  }

  /** A running prefix is extended by one step. */
  lemma RunExtends(c: Context, valid: seq<Observation> -> nat, init: State, events: seq<Event>, i: nat)
    requires i < |events| && RunDefined(c, events)
    ensures RunDefined(c, events[..i]) && RunDefined(c, events[..i + 1])
    ensures Run(c, valid, init, events[..i]).Running? ==>
      Run(c, valid, init, events[..i + 1]) == Step(c, valid, Run(c, valid, init, events[..i]).st, events[i])
  {
    RunStaysStopped(c, valid, init, events, i);
    RunStaysStopped(c, valid, init, events, i + 1);
    assert events[..i + 1][..i] == events[..i];
  }

  /**
   * `process_shreds_endpoint` from its first event on: it leaves its loop as
   * `Run` says (running out of events counts as the stream ending) and sends
   * shutdown once exactly when it stops on the target.
   */
  method ProcessShredsEndpoint(c: Context, events: seq<Event>, comparator: Comparator, shutdown: ShutdownChannel)
    returns (exit: Exit, transactionCount: nat)
    requires RunDefined(c, events)
    modifies comparator, shutdown
    ensures var o := Run(c, comparator.validCount, State(0, 0, old(comparator.adds)), events);
      && comparator.adds == o.st.adds && transactionCount == o.st.transactionCount
      && exit == (if o.Stopped? then o.exit else StreamClosed)
    ensures shutdown.sent == old(shutdown.sent) + (if exit == TargetReached then 1 else 0)
  {
    ghost var init := State(0, 0, comparator.adds);
    transactionCount := 0;
    var observations: nat := 0;
    var stop: Option<Exit> := None;
    var i := 0;
    while i < |events| && stop.None?
      invariant 0 <= i <= |events|
      invariant RunDefined(c, events[..i])
      invariant var o := Run(c, comparator.validCount, init, events[..i]);
        o.st == State(transactionCount, observations, comparator.adds) && (o.Stopped? <==> stop.Some?)
        && (o.Stopped? ==> o.exit == stop.value)
      invariant shutdown.sent == old(shutdown.sent) + (if stop == Some(TargetReached) then 1 else 0)
      decreases |events| - i
    {
      RunExtends(c, comparator.validCount, init, events, i);
      match events[i] {
        case ShutdownSignal => stop := Some(StopSignal);
        case ReceiveError => stop := Some(StreamError);
        case Closed => stop := Some(StreamClosed);
        case EntryReceived(entry) =>
          var ok;
          transactionCount, observations, ok := ProcessEntry(c, entry, comparator, transactionCount, observations);
          if !ok {
            stop := Some(LogWriteFailed);
          } else {
            var validCount := comparator.GetValidCount();
            if validCount == c.config.transactions {
              shutdown.Send();
              stop := Some(TargetReached);
            }
          }
      }
      i := i + 1;
    }
    RunStaysStopped(c, comparator.validCount, init, events, i);
    if stop.None? {
      assert events[..i] == events;
    }
    exit := if stop.Some? then stop.value else StreamClosed;
  }
}
