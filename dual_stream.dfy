/**
 * The accounts runner (`process_yellowstone_accounts_endpoint`): one endpoint
 * subscribed to the transaction stream of the watched account and to an
 * unfiltered account stream. Each message is turned into sightings for the runner's own
 * latency map and the shared global tracker; matching transactions are also
 * handed to the comparator, and the runner stops once the comparator's valid
 * count equals the target.
 *
 * The stream is a sequence of events. `Step` and `Run` say what one event and
 * a prefix of events do to the runner's state; `ProcessAccountsEndpoint` is the
 * loop itself, acting on the shared objects, proved to follow `Run`.
 */
module DualStream {
  import opened Common
  import opened Latency
  import opened Statistics
  import opened Coordination

  /** A transaction's message: its account keys, already base58-encoded. */
  datatype Message = Message(accountKeys: seq<string>)

  datatype Transaction = Transaction(signatures: seq<string>, message: Option<Message>)

  /** The `transaction` field of a transaction update. */
  datatype TransactionInfo = TransactionInfo(transaction: Option<Transaction>)

  /** The `account` field of an account update; the signature is already encoded. */
  datatype AccountInfo = AccountInfo(pubkey: string, txnSignature: Option<string>)

  /** The `update_oneof` of a stream message. */
  datatype Update =
    | TransactionUpdate(tx: Option<TransactionInfo>)
    | AccountUpdate(account: Option<AccountInfo>)
    | Ping
    | OtherUpdate
    | EmptyUpdate

  /** What one turn of the `select!` loop yields. */
  datatype Event =
    | Received(update: Update)
    | ReceiveError
    | Closed
    | ShutdownSignal

  /** The runner's own variables. */
  datatype Local = Local(transactionCount: nat, accountUpdateCount: nat, observations: nat, latencies: Tracker)

  /** The runner's variables with the shared global tracker and the comparator's trace. */
  datatype State = State(local: Local, global: Tracker, adds: seq<Observation>)

  datatype Outcome = Running(st: State) | Stopped(st: State, exit: Exit)

  function Resume(st: State, stop: Option<Exit>): Outcome {
    if stop.Some? then Stopped(st, stop.value) else Running(st)
  }

  /** The state a runner starts from: fresh counters and an empty map of its own. */
  function Start(global: Tracker, adds: seq<Observation>): State {
    State(Local(0, 0, 0, map[]), global, adds)
  }

  /** The clock reading of the next observation. */
  function Now(c: Context, st: State): int {
    c.env.clock(st.local.observations)
  }

  /** Read the clock and apply the sighting to both maps; its log write comes next. */
  function Observe(c: Context, st: State, sig: string, s: Stream): (r: State)
    ensures r.adds == st.adds && r.local.observations == st.local.observations + 1
    ensures r.local.transactionCount == st.local.transactionCount
    ensures r.local.accountUpdateCount == st.local.accountUpdateCount
    ensures sig in r.local.latencies && r.local.latencies[sig].Timestamp(s) == Some(Now(c, st))
    ensures sig in r.global && r.global[sig].Timestamp(s).Some? && r.global[sig].Timestamp(s).value <= Now(c, st)
    ensures forall k :: k != sig ==> Entry(r.local.latencies, k) == Entry(st.local.latencies, k) && Entry(r.global, k) == Entry(st.global, k)
  {
    var x := Sighting(sig, s, Now(c, st), c.name);
    State(st.local.(observations := st.local.observations + 1, latencies := MergeLocal(st.local.latencies, x)),
          MergeGlobal(st.global, x), st.adds)
  }

  /**
   * What the transaction arm needs not to panic: the transaction and its
   * message are present, and a matching transaction has a first signature.
   */
  predicate TransactionDefined(c: Context, info: TransactionInfo) {
    && info.transaction.Some?
    && info.transaction.value.message.Some?
    && (c.config.account in info.transaction.value.message.value.accountKeys ==>
          |info.transaction.value.signatures| > 0)
  }

  predicate Matches(c: Context, info: TransactionInfo)
    requires TransactionDefined(c, info)
  {
    c.config.account in info.transaction.value.message.value.accountKeys
  }

  /**
   * The transaction arm. A transaction that does not mention the watched
   * account changes nothing. A matching one is keyed by its first signature:
   * it is merged into both maps and logged; if the log write fails the runner
   * aborts, otherwise one observation is added to the comparator, and the
   * runner stops (without counting the transaction) exactly when the valid
   * count then equals the target.
   */
  function TransactionStep(c: Context, valid: seq<Observation> -> nat, st: State, info: TransactionInfo): (r: Outcome)
    requires TransactionDefined(c, info)
    ensures r.st.local.accountUpdateCount == st.local.accountUpdateCount
    ensures !Matches(c, info) ==> r == Running(st)
    ensures Matches(c, info) ==>
      var sig := info.transaction.value.signatures[0];
      && r.st.local.observations == st.local.observations + 1
      && r.st.local.latencies == MergeLocal(st.local.latencies, Sighting(sig, TransactionStream, Now(c, st), c.name))
      && r.st.global == MergeGlobal(st.global, Sighting(sig, TransactionStream, Now(c, st), c.name))
      && (!c.env.logWriteSucceeds(st.local.observations) ==>
            r.Stopped? && r.exit == LogWriteFailed && r.st.adds == st.adds
            && r.st.local.transactionCount == st.local.transactionCount)
      && (c.env.logWriteSucceeds(st.local.observations) ==>
            && r.st.adds == st.adds + [Observation(c.name, sig, Now(c, st), c.startTime)]
            && (r.Running? <==> valid(r.st.adds) != c.config.transactions)
            && (r.Stopped? ==> r.exit == TargetReached)
            && r.st.local.transactionCount == st.local.transactionCount + (if r.Running? then 1 else 0))
  {
    if !Matches(c, info) then Running(st)
    else
      var sig := info.transaction.value.signatures[0];
      var seen := Observe(c, st, sig, TransactionStream);
      if !c.env.logWriteSucceeds(st.local.observations) then Stopped(seen, LogWriteFailed)
      else
        var added := seen.(adds := seen.adds + [Observation(c.name, sig, Now(c, st), c.startTime)]);
        if valid(added.adds) == c.config.transactions then Stopped(added, TargetReached)
        else Running(added.(local := added.local.(transactionCount := added.local.transactionCount + 1)))
  }

  /**
   * What the account arm needs not to panic. With info logging on, the first
   * ten account updates print the first eight characters of the account key
   * and of the signature, and an update whose signature the local map already
   * holds a transaction time for prints the signature's first eight characters
   * after its log write.
   */
  predicate AccountDefined(c: Context, st: State, info: AccountInfo) {
    info.txnSignature.Some? && c.env.infoLogging ==>
      var sig := info.txnSignature.value;
      && (st.local.accountUpdateCount + 1 <= 10 ==> |info.pubkey| >= 8 && |sig| >= 8)
      && (c.env.logWriteSucceeds(st.local.observations) && Entry(st.local.latencies, sig).transactionTimestamp.Some? ==>
            |sig| >= 8)
  }

  /**
   * The account arm. Every update with account info is counted; only one
   * that carries a transaction signature reads the clock, is merged into both
   * maps and logged. It never reaches the comparator.
   */
  function AccountStep(c: Context, st: State, info: AccountInfo): (r: Outcome)
    ensures r.st.adds == st.adds && r.st.local.transactionCount == st.local.transactionCount
    ensures r.st.local.accountUpdateCount == st.local.accountUpdateCount + 1
    ensures info.txnSignature.None? ==>
      r.Running? && r.st.local.observations == st.local.observations
      && r.st.local.latencies == st.local.latencies && r.st.global == st.global
    ensures info.txnSignature.Some? ==>
      var x := Sighting(info.txnSignature.value, AccountStream, Now(c, st), c.name);
      && r.st.local.observations == st.local.observations + 1
      && r.st.local.latencies == MergeLocal(st.local.latencies, x)
      && r.st.global == MergeGlobal(st.global, x)
      && (r.Running? <==> c.env.logWriteSucceeds(st.local.observations))
      && (r.Stopped? ==> r.exit == LogWriteFailed)
  {
    var counted := st.(local := st.local.(accountUpdateCount := st.local.accountUpdateCount + 1));
    if info.txnSignature.None? then Running(counted)
    else
      var seen := Observe(c, counted, info.txnSignature.value, AccountStream);
      if c.env.logWriteSucceeds(st.local.observations) then Running(seen) else Stopped(seen, LogWriteFailed)
  }

  predicate StepDefined(c: Context, st: State, e: Event) {
    match e
    case Received(TransactionUpdate(Some(info))) => TransactionDefined(c, info)
    case Received(AccountUpdate(Some(info))) => AccountDefined(c, st, info)
    case _ => true
  }

  /**
   * One turn of the loop. The shutdown signal, a stream error and the end of
   * the stream stop the runner without touching anything; a ping, any other
   * update kind and an empty update change nothing.
   */
  function Step(c: Context, valid: seq<Observation> -> nat, st: State, e: Event): (r: Outcome)
    requires StepDefined(c, st, e)
    ensures |st.adds| <= |r.st.adds| <= |st.adds| + 1 && r.st.adds[..|st.adds|] == st.adds
    ensures |r.st.adds| == |st.adds| + 1 ==>
      r.st.adds[|st.adds|].endpoint == c.name && r.st.adds[|st.adds|].startTime == c.startTime
    ensures r.st.local.transactionCount + (if r.Stopped? && r.exit == TargetReached then 1 else 0)
      == st.local.transactionCount + |r.st.adds| - |st.adds|
    ensures r.Stopped? && r.exit == TargetReached ==>
      |r.st.adds| == |st.adds| + 1 && valid(r.st.adds) == c.config.transactions
    ensures r.Stopped? && r.exit != TargetReached ==> r.st.adds == st.adds
    ensures r.Running? && |r.st.adds| == |st.adds| + 1 ==> valid(r.st.adds) != c.config.transactions
    ensures NoLater(st.global, r.st.global)
    ensures WellKeyed(st.global) ==> WellKeyed(r.st.global)
    ensures WellKeyed(st.local.latencies) ==> WellKeyed(r.st.local.latencies)
    ensures !e.Received? ==> r.Stopped? && r.exit != TargetReached && r.st == st
    ensures e.ShutdownSignal? ==> r == Stopped(st, StopSignal)
    ensures e.ReceiveError? ==> r == Stopped(st, StreamError)
    ensures e.Closed? ==> r == Stopped(st, StreamClosed)
  {
    match e
    case ShutdownSignal => Stopped(st, StopSignal)
    case ReceiveError => Stopped(st, StreamError)
    case Closed => Stopped(st, StreamClosed)
    case Received(u) =>
      match u
      case TransactionUpdate(tx) =>
        if tx.Some? then TransactionStep(c, valid, st, tx.value) else Running(st)
      case AccountUpdate(account) =>
        if account.Some? then AccountStep(c, st, account.value) else Running(st)
      case Ping => Running(st)
      case OtherUpdate => Running(st)
      case EmptyUpdate => Running(st)
  }

  /** Every event the runner reaches while still running can be handled without a panic. */
  predicate RunDefined(c: Context, valid: seq<Observation> -> nat, init: State, events: seq<Event>)
    decreases |events|, 0
  {
    |events| == 0 ||
    (RunDefined(c, valid, init, events[..|events| - 1]) &&
     var o := Run(c, valid, init, events[..|events| - 1]);
     o.Running? ==> StepDefined(c, o.st, events[|events| - 1]))
  }

  /** The events in order; once stopped, the runner stays stopped. */
  function Run(c: Context, valid: seq<Observation> -> nat, init: State, events: seq<Event>): (r: Outcome)
    requires RunDefined(c, valid, init, events)
    ensures r.Running? ==> forall i :: 0 <= i < |events| ==> events[i].Received?
    decreases |events|, 1
  {
    if |events| == 0 then Running(init)
    else
      var prefix := events[..|events| - 1];
      var o := Run(c, valid, init, prefix);
      if o.Stopped? then o
      else
        var r := Step(c, valid, o.st, events[|events| - 1]);
        assert r.Running? ==> forall i :: 0 <= i < |events| ==> events[i].Received? by {
          if r.Running? {
            forall i | 0 <= i < |events| ensures events[i].Received? {
              if i < |events| - 1 {
                assert events[i] == prefix[i];
              }
            }
          }
        }
        r
  }

  /** Once stopped, later events change nothing. */
  lemma {:induction false} RunStaysStopped(c: Context, valid: seq<Observation> -> nat, init: State,
                                           events: seq<Event>, i: nat)
    requires i <= |events| && RunDefined(c, valid, init, events)
    ensures RunDefined(c, valid, init, events[..i])
    ensures Run(c, valid, init, events[..i]).Stopped? ==>
      Run(c, valid, init, events) == Run(c, valid, init, events[..i])
    decreases |events|
  {
    if i < |events| {
      var prefix := events[..|events| - 1];
      assert events[..i] == prefix[..i];
      RunStaysStopped(c, valid, init, prefix, i);
    } else {
      assert events[..i] == events;
    }
  }

  /** A running prefix is extended by one step. */
  lemma RunExtends(c: Context, valid: seq<Observation> -> nat, init: State, events: seq<Event>, i: nat)
    requires i < |events| && RunDefined(c, valid, init, events[..i + 1])
    requires RunDefined(c, valid, init, events[..i]) && Run(c, valid, init, events[..i]).Running?
    ensures StepDefined(c, Run(c, valid, init, events[..i]).st, events[i])
    ensures Run(c, valid, init, events[..i + 1]) == Step(c, valid, Run(c, valid, init, events[..i]).st, events[i])
  {
    assert events[..i + 1][..i] == events[..i];
  }

  /**
   * The comparator trace only grows, by observations carrying this runner's
   * name and start time, and the transaction count is the number of them,
   * less the one that reached the target.
   */
  lemma {:induction false} RunAddsOwnObservations(c: Context, valid: seq<Observation> -> nat, init: State,
                                                  events: seq<Event>)
    requires RunDefined(c, valid, init, events)
    ensures var o := Run(c, valid, init, events);
      && |init.adds| <= |o.st.adds| && o.st.adds[..|init.adds|] == init.adds
      && (forall j :: |init.adds| <= j < |o.st.adds| ==>
            o.st.adds[j].endpoint == c.name && o.st.adds[j].startTime == c.startTime)
      && o.st.local.transactionCount + (if o.Stopped? && o.exit == TargetReached then 1 else 0)
           == init.local.transactionCount + |o.st.adds| - |init.adds|
    decreases |events|
  {
    if |events| > 0 {
      var prefix := events[..|events| - 1];
      RunAddsOwnObservations(c, valid, init, prefix);
      var p := Run(c, valid, init, prefix);
      if p.Running? {
        var o := Step(c, valid, p.st, events[|events| - 1]);
        assert o.st.adds[..|p.st.adds|] == p.st.adds;
        assert o.st.adds[..|init.adds|] == p.st.adds[..|init.adds|];
      }
    }
  }

  /**
   * The runner stops on the target exactly at its first own observation after
   * which the valid count equals the target: at every earlier one it differs.
   */
  lemma {:induction false} RunStopsAtFirstTarget(c: Context, valid: seq<Observation> -> nat, init: State,
                                                 events: seq<Event>)
    requires RunDefined(c, valid, init, events)
    ensures var o := Run(c, valid, init, events);
      && |init.adds| <= |o.st.adds|
      && (o.Stopped? && o.exit == TargetReached ==>
            |o.st.adds| > |init.adds| && valid(o.st.adds) == c.config.transactions)
      && (forall n :: |init.adds| < n <= |o.st.adds| && !(n == |o.st.adds| && o.Stopped? && o.exit == TargetReached) ==>
            valid(o.st.adds[..n]) != c.config.transactions)
    decreases |events|
  {
    if |events| > 0 {
      var prefix := events[..|events| - 1];
      RunStopsAtFirstTarget(c, valid, init, prefix);
      var p := Run(c, valid, init, prefix);
      if p.Running? {
        var o := Step(c, valid, p.st, events[|events| - 1]);
        forall n | |init.adds| < n <= |o.st.adds| && !(n == |o.st.adds| && o.Stopped? && o.exit == TargetReached)
          ensures valid(o.st.adds[..n]) != c.config.transactions
        {
          if n <= |p.st.adds| {
            assert o.st.adds[..n] == p.st.adds[..n];
          } else {
            assert o.st.adds[..n] == o.st.adds;
          }
        }
      }
    }
  }

  /**
   * The global tracker keeps every record and no filled slot gets later; both
   * maps keep every record under its own signature.
   */
  lemma {:induction false} RunKeepsTrackers(c: Context, valid: seq<Observation> -> nat, init: State,
                                            events: seq<Event>)
    requires RunDefined(c, valid, init, events)
    ensures var o := Run(c, valid, init, events);
      && NoLater(init.global, o.st.global)
      && (WellKeyed(init.global) ==> WellKeyed(o.st.global))
      && (WellKeyed(init.local.latencies) ==> WellKeyed(o.st.local.latencies))
    decreases |events|
  {
    if |events| == 0 {
      assert NoLater(init.global, init.global);
    } else {
      var prefix := events[..|events| - 1];
      RunKeepsTrackers(c, valid, init, prefix);
      var p := Run(c, valid, init, prefix);
      if p.Running? {
        NoLaterTransitive(init.global, p.st.global, Step(c, valid, p.st, events[|events| - 1]).st.global);
      }
    }
  }

  /**
   * The events that change nothing: pings, other update kinds, empty updates,
   * transaction and account messages without their payload, and transactions
   * that do not mention the watched account.
   */
  predicate Ignored(c: Context, e: Event) {
    match e
    case Received(TransactionUpdate(tx)) => tx.None? || (TransactionDefined(c, tx.value) && !Matches(c, tx.value))
    case Received(AccountUpdate(account)) => account.None?
    case Received(_) => true
    case _ => false
  }

  lemma {:induction false} IgnoredEventsChangeNothing(c: Context, valid: seq<Observation> -> nat, init: State,
                                                      events: seq<Event>)
    requires forall i :: 0 <= i < |events| ==> Ignored(c, events[i])
    ensures RunDefined(c, valid, init, events) && Run(c, valid, init, events) == Running(init)
    decreases |events|
  {
    if |events| > 0 {
      IgnoredEventsChangeNothing(c, valid, init, events[..|events| - 1]);
    }
  }

  /** The number of account updates that carry account info. */
  function AccountInfos(events: seq<Event>): nat
    decreases |events|
  {
    if |events| == 0 then 0
    else
      var e := events[|events| - 1];
      AccountInfos(events[..|events| - 1]) + (if e.Received? && e.update.AccountUpdate? && e.update.account.Some? then 1 else 0)
  }

  predicate IsAccountUpdate(e: Event) {
    e.Received? && e.update.AccountUpdate?
  }

  /**
   * Account updates never reach the comparator nor the transaction count, and
   * while the runner runs each one with account info is counted once.
   */
  lemma {:induction false} AccountUpdatesNeverAdd(c: Context, valid: seq<Observation> -> nat, init: State,
                                                  events: seq<Event>)
    requires RunDefined(c, valid, init, events)
    requires forall i :: 0 <= i < |events| ==> IsAccountUpdate(events[i])
    ensures var o := Run(c, valid, init, events);
      && o.st.adds == init.adds
      && o.st.local.transactionCount == init.local.transactionCount
      && (o.Running? ==> o.st.local.accountUpdateCount == init.local.accountUpdateCount + AccountInfos(events))
    decreases |events|
  {
    if |events| > 0 {
      AccountUpdatesNeverAdd(c, valid, init, events[..|events| - 1]);
    }
  }

  /** The transaction arm, acting on the shared comparator and global tracker. */
  method HandleTransaction(c: Context, comparator: Comparator, tracker: AccountTracker, loc: Local, info: TransactionInfo)
    returns (loc': Local, stop: Option<Exit>)
    requires TransactionDefined(c, info)
    modifies comparator, tracker
    ensures TransactionStep(c, comparator.validCount, State(loc, old(tracker.entries), old(comparator.adds)), info)
      == Resume(State(loc', tracker.entries, comparator.adds), stop)
  {
    loc', stop := loc, None;
    var tx := info.transaction.value;
    var accounts := tx.message.value.accountKeys;
    if c.config.account in accounts {
      var timestamp := c.env.clock(loc.observations);
      var signature := tx.signatures[0];
      var x := Sighting(signature, TransactionStream, timestamp, c.name);
      loc' := loc'.(latencies := MergeLocal(loc.latencies, x));
      tracker.Merge(x);
      loc' := loc'.(observations := loc.observations + 1);
      if !c.env.logWriteSucceeds(loc.observations) {
        stop := Some(LogWriteFailed);
        return;
      }
      comparator.Add(Observation(c.name, signature, timestamp, c.startTime));
      var validCount := comparator.GetValidCount();
      if validCount == c.config.transactions {
        stop := Some(TargetReached);
        return;
      }
      loc' := loc'.(transactionCount := loc'.transactionCount + 1);
    }
  }

  /** The account arm, acting on the shared global tracker. */
  method HandleAccount(c: Context, tracker: AccountTracker, ghost adds: seq<Observation>, loc: Local, info: AccountInfo)
    returns (loc': Local, stop: Option<Exit>)
    modifies tracker
    ensures AccountStep(c, State(loc, old(tracker.entries), adds), info)
      == Resume(State(loc', tracker.entries, adds), stop)
  {
    loc', stop := loc.(accountUpdateCount := loc.accountUpdateCount + 1), None;
    if info.txnSignature.Some? {
      var timestamp := c.env.clock(loc.observations);
      var signature := info.txnSignature.value;
      var x := Sighting(signature, AccountStream, timestamp, c.name);
      loc' := loc'.(latencies := MergeLocal(loc.latencies, x));
      tracker.Merge(x);
      loc' := loc'.(observations := loc.observations + 1);
      if !c.env.logWriteSucceeds(loc.observations) {
        stop := Some(LogWriteFailed);
      }
    }
  }

  /** One turn of the loop. */
  method HandleEvent(c: Context, comparator: Comparator, tracker: AccountTracker, loc: Local, e: Event)
    returns (loc': Local, stop: Option<Exit>)
    requires StepDefined(c, State(loc, tracker.entries, comparator.adds), e)
    modifies comparator, tracker
    ensures Step(c, comparator.validCount, State(loc, old(tracker.entries), old(comparator.adds)), e)
      == Resume(State(loc', tracker.entries, comparator.adds), stop)
  {
    loc', stop := loc, None;
    match e
    case ShutdownSignal => stop := Some(StopSignal);
    case ReceiveError => stop := Some(StreamError);
    case Closed => stop := Some(StreamClosed);
    case Received(u) =>
      match u
      case TransactionUpdate(tx) =>
        if tx.Some? {
          loc', stop := HandleTransaction(c, comparator, tracker, loc, tx.value);
        }
      case AccountUpdate(account) =>
        if account.Some? {
          loc', stop := HandleAccount(c, tracker, comparator.adds, loc, account.value);
        }
      case Ping =>
      case OtherUpdate =>
      case EmptyUpdate =>
  }

  /** The `'ploop` loop: the events in order until one stops the runner or they run out. */
  method ConsumeEvents(c: Context, events: seq<Event>, comparator: Comparator, tracker: AccountTracker)
    returns (loc: Local, exit: Exit)
    requires RunDefined(c, comparator.validCount, Start(tracker.entries, comparator.adds), events)
    modifies comparator, tracker
    ensures var o := Run(c, comparator.validCount, Start(old(tracker.entries), old(comparator.adds)), events);
      o.st == State(loc, tracker.entries, comparator.adds) && exit == (if o.Stopped? then o.exit else StreamClosed)
  {
    ghost var init := Start(tracker.entries, comparator.adds);
    loc := Local(0, 0, 0, map[]);
    var stop: Option<Exit> := None;
    var i := 0;
    while i < |events| && stop.None?
      invariant 0 <= i <= |events|
      invariant RunDefined(c, comparator.validCount, init, events[..i])
      invariant Run(c, comparator.validCount, init, events[..i]) == Resume(State(loc, tracker.entries, comparator.adds), stop)
      decreases |events| - i
    {
      RunStaysStopped(c, comparator.validCount, init, events, i + 1);
      RunExtends(c, comparator.validCount, init, events, i);
      loc, stop := HandleEvent(c, comparator, tracker, loc, events[i]);
      i := i + 1;
    }
    RunStaysStopped(c, comparator.validCount, init, events, i);
    if stop.None? {
      assert events[..i] == events;
    }
    exit := if stop.Some? then stop.value else StreamClosed;
  }

  /**
   * `process_yellowstone_accounts_endpoint` from its first event on. It leaves
   * its loop as `Run` says (running out of events counts as the stream
   * closing); on the target it prints its own statistics and sends shutdown
   * once. Unless the log write failed, it bumps the finished-runner counter,
   * and the runner that saw the prior value 1 prints the global statistics.
   */
  method ProcessAccountsEndpoint(c: Context, events: seq<Event>, comparator: Comparator, tracker: AccountTracker,
                                 shutdown: ShutdownChannel, finished: FinishedRunners)
    returns (exit: Exit, transactionCount: nat, accountUpdateCount: nat,
             streamReport: Option<StreamReport>, globalReport: Option<GlobalReport>)
    requires RunDefined(c, comparator.validCount, Start(tracker.entries, comparator.adds), events)
    modifies comparator, tracker, shutdown, finished
    ensures var o := Run(c, comparator.validCount, Start(old(tracker.entries), old(comparator.adds)), events);
      && tracker.entries == o.st.global && comparator.adds == o.st.adds
      && transactionCount == o.st.local.transactionCount && accountUpdateCount == o.st.local.accountUpdateCount
      && exit == (if o.Stopped? then o.exit else StreamClosed)
      && (streamReport.Some? <==> exit == TargetReached && Count(o.st.local.latencies, o.st.local.latencies.Keys, Both) > 0)
      && (streamReport.Some? ==>
            streamReport.value.tracked == |o.st.local.latencies|
            && DescribesTiming(o.st.local.latencies, true, streamReport.value.timing))
    ensures shutdown.sent == old(shutdown.sent) + (if exit == TargetReached then 1 else 0)
    ensures finished.count == old(finished.count) + (if exit == LogWriteFailed then 0 else 1)
    ensures globalReport.Some? <==> exit != LogWriteFailed && old(finished.count) == 1
    ensures globalReport.Some? ==> DescribesGlobal(tracker.entries, globalReport.value)
  {
    var loc;
    loc, exit := ConsumeEvents(c, events, comparator, tracker);
    transactionCount, accountUpdateCount := loc.transactionCount, loc.accountUpdateCount;
    streamReport, globalReport := None, None;
    if exit == TargetReached {
      streamReport := StreamStatistics(loc.latencies);
      shutdown.Send();
    }
    if exit != LogWriteFailed {
      var prior := finished.FetchAdd();
      if prior == 1 {
        var r := GlobalStatistics(tracker.entries);
        globalReport := Some(r);
      }
    }
  }
}
