# geyserbench stream runners, modelled in Dafny

geyserbench races several Solana data-feed endpoints against each other. Each
endpoint gets a runner: it subscribes to the endpoint's stream, and for every
transaction that mentions the watched account it reads the clock, writes a
log line and hands `(endpoint, signature, timestamp, start time)` to a shared
comparator. The run ends when the comparator's valid count equals the target
`N` (`config.transactions`): that runner broadcasts shutdown and every other
runner leaves its loop on the signal.

This project models two runners:

- **The Yellowstone accounts runner** (`process_yellowstone_accounts_endpoint`).
  It subscribes to the transaction stream and the account stream at once.
  Every sighting goes into two latency maps, keyed by signature, with one slot
  per stream (timestamp and endpoint):
  - the runner's own map overwrites the timestamp and keeps the first endpoint;
  - the global tracker, shared by all accounts runners, keeps the earliest
    timestamp with the endpoint that reported it first.

  The runner that reaches the target summarises its own map
  (`print_stream_statistics`) inside the loop, just before it sends shutdown
  and breaks; the model produces that report right after the loop, which is
  the same in a sequential model. That report prints nothing unless some
  record was seen on both streams, and the model then produces none. The runner the finish counter picks summarises
  the global tracker (`print_global_statistics`): per-endpoint wins, the number
  of signatures seen on both streams, which stream was first, and the sorted
  timing differences with their minimum, median and maximum.
- **The shredstream runner** (`process_shreds_endpoint` / `process_entry`).
  Each streamed entry carries a serialized list of Solana entries. A payload
  that does not decode is skipped. Otherwise every matching transaction, in
  order, is logged and added. The target is checked once per entry, after all
  of its adds.

Files:

| file | module | contents |
|---|---|---|
| common.dfy | Common | `Option`, the configuration, the host environment (clock and log writes as oracles), observations, exit reasons |
| coordination.dfy | Coordination | the comparator (a recorded trace of adds and a valid-count oracle), the shutdown channel, the finish counter, as classes |
| latency.dfy | Latency | `StreamLatencyData`, the local and global update rules, the global tracker as a class |
| statistics.dfy | Statistics | both statistics loops as methods, proved against specification functions |
| dual_stream.dfy | DualStream | the accounts runner: specification functions `Step`/`Run` and the imperative loop proved to follow them |
| shredstream.dfy | Shredstream | the shredstream runner: specification functions and the nested loops of `process_entry` |

Each runner's loop is a `method` over a sequence of events, acting on the
shared comparator, trackers and channel objects. Its `ensures` ties its final
state to `Run`, a function that applies `Step` to each event in order. The
lemmas about `Run` state what the runner promises over any event sequence.

Timestamps are integers (think microseconds), because only `<` and
subtraction matter. The clock and the log writes are oracles in `Env`, indexed
by the number of observations the runner has made. In both sources every
observation reads the clock once and then writes exactly one log entry.

Two behaviours of the code worth knowing; the model follows the code:

- The global statistics are printed by the runner whose finish counter read 1
  before its increment, i.e. the second accounts runner to finish. The
  comment at src/providers/yellowstone_accounts.rs:359 says they are printed
  when the last endpoint shuts down, which holds only with exactly two
  accounts runners. With one runner they are never printed. With three, the second
  prints them while the third may still be merging.
  `DualStream.ProcessAccountsEndpoint` states this gate exactly.
- The shredstream runner checks the valid count once per entry, not after each
  add. An entry whose adds carry the count past `N` does not stop the run
  (`Shredstream.OvershootWithinEntryIsMissed`).

## Model

| member | source | states |
|---|---|---|
| Latency.StreamLatencyData.WithSlot | src/providers/yellowstone_accounts.rs:58-65 | setting one stream's slot (timestamp and endpoint) leaves the other stream's slot and the signature as they were |
| Latency.Entry | src/providers/yellowstone_accounts.rs:177-183 | `entry(sig).or_insert(...)`: the stored record if the signature is present, otherwise a record for that signature with both slots empty; in a well-keyed map always the signature's own record |
| Latency.Blank | src/providers/yellowstone_accounts.rs:177-183 | the record created on a first sighting carries the signature and has both slots empty |
| Latency.LocalUpdate | src/providers/yellowstone_accounts.rs:184-187 | the local rule: the slot's timestamp becomes the new one (latest wins), its endpoint is set only if empty, the other slot is untouched |
| Latency.GlobalUpdate | src/providers/yellowstone_accounts.rs:199-202 | the global rule: the slot takes the new timestamp and endpoint together iff it was empty or the new timestamp is strictly earlier, otherwise the record is unchanged (a tie keeps the earlier endpoint); the other slot is untouched |
| Latency.MergeLocal | src/providers/yellowstone_accounts.rs:270-280 | the local map gains the signature's key and no other, other records are unchanged, the other slot of this record is kept, the timestamp is the new one, the endpoint is set to the sighting's if it was empty and kept otherwise (new or existing record), records stay under their own signature |
| Latency.MergeGlobal | src/providers/yellowstone_accounts.rs:285-295 | the global map gains the signature's key and no other, other records are unchanged, the other slot is kept, a first sighting fills the slot, and no filled slot of any record gets a later timestamp |
| Latency.GlobalFoldIsMinimum | src/providers/yellowstone_accounts.rs:199-202 | over any non-empty sequence of updates to an empty slot, the slot ends holding the minimum submitted timestamp, with the endpoint of the first update that submitted it |
| Latency.LocalFoldKeepsLatest | src/providers/yellowstone_accounts.rs:184-187 | over any non-empty sequence of updates to one slot, the local record holds the last timestamp and the first endpoint (or the one it had), the other slot untouched |
| Latency.Project | src/providers/yellowstone_accounts.rs:192-202 | the sightings one slot of one signature receives: each is of that signature and stream, and none is longer than the input |
| Latency.ProjectOne | src/providers/yellowstone_accounts.rs:192-202 | a single sighting is kept iff it is of that signature and stream |
| Latency.ProjectAppend | src/providers/yellowstone_accounts.rs:192-202 | projection distributes over concatenation; with `ProjectOne` it keeps exactly the slot's sightings, in submission order and with their multiplicity |
| Latency.MergeAllPerSlot | src/providers/yellowstone_accounts.rs:192-202 | after merging any sequence of sightings into the global map, a signature's slot is what the global rule makes of that signature's updates to that slot alone: slots and signatures are independent |
| Latency.EntryAfterMerge | src/providers/yellowstone_accounts.rs:192-202 | merging a sighting changes only its own signature's record, by the global rule |
| Latency.TrackerSlotIsMinimum | src/providers/yellowstone_accounts.rs:285-295 | for a signature new to the tracker, each slot ends at the minimum timestamp submitted for it, with the first endpoint that submitted it |
| Latency.NoLaterTransitive | src/providers/yellowstone_accounts.rs:199-202 | "no slot got later" composes over successive states of the global tracker |
| Latency.AccountTracker.Merge | src/providers/yellowstone_accounts.rs:190-203 | locking the shared tracker and applying `entry().or_insert` plus the replace rule changes the map exactly as `MergeGlobal` |
| Coordination.Comparator.Add | src/providers/yellowstone_accounts.rs:221-229 | an add appends exactly one observation to the comparator's trace |
| Coordination.Comparator.GetValidCount | src/providers/yellowstone_accounts.rs:231 | the valid count is the oracle applied to the trace so far |
| Coordination.ShutdownChannel.Send | src/providers/yellowstone_accounts.rs:238 | a send counts one more shutdown broadcast |
| Coordination.FinishedRunners.FetchAdd | src/providers/yellowstone_accounts.rs:360-361 | the finish counter returns its prior value and increments by one |
| Statistics.CountAdd | src/providers/yellowstone_accounts.rs:393-402 | adding a record to the counted keys raises its tally class's count by one iff the record falls in it |
| Statistics.WinsAdd | src/providers/yellowstone_accounts.rs:383-390 | adding a record raises exactly its winning endpoint's win count, per stream |
| Statistics.DiffBagRemove | src/providers/yellowstone_accounts.rs:393-396 | the bag of timing differences splits off any one record's difference |
| Statistics.Bump | src/providers/yellowstone_accounts.rs:384 | `entry(e).or_insert(0) += 1` adds key e, raises its count by one, and leaves every other count unchanged |
| Statistics.BumpAddsOne | src/providers/yellowstone_accounts.rs:384 | bumping an endpoint raises the table's total by exactly one |
| Statistics.Insert | src/providers/yellowstone_accounts.rs:421 | inserting into a sorted sequence keeps it sorted and adds exactly that element |
| Statistics.SortAscending | src/providers/yellowstone_accounts.rs:421 | the vector sort: ascending and a permutation of its input |
| Statistics.Summarize | src/providers/yellowstone_accounts.rs:420-440 | a summary exists iff there are differences; then min is the first element and at most every element, max the last and at least every element, median the element at `len/2` |
| Statistics.WinTable | src/providers/yellowstone_accounts.rs:374-390 | an endpoint has a win entry iff it won at least one record's slot, and its entry is its number of won records |
| Statistics.WinsStep | src/providers/yellowstone_accounts.rs:383-390 | bumping the winner of one more record keeps the win table equal to `WinTable` of the larger key set |
| Statistics.SlottedAtMost | src/providers/yellowstone_accounts.rs:381-390 | at most one win per record: the records with a stream's endpoint set are at most the records tracked |
| Statistics.WinTableTotal | src/providers/yellowstone_accounts.rs:381-390 | a stream's win counts sum to exactly the number of records whose endpoint for that stream is set |
| Statistics.TimingKept | src/providers/yellowstone_accounts.rs:393-403 | one more record keeps the counters equal to the counts of their classes, `both == account-first + tx-first` (ties count as tx-first), and the differences equal to the bag of the records seen on both streams |
| Statistics.SortingKeepsTiming | src/providers/yellowstone_accounts.rs:420-423 | sorting the differences keeps every counted fact and yields a sorted sequence |
| Statistics.TallyRecord | src/providers/yellowstone_accounts.rs:451-464 | one turn of a statistics loop updates the counters and the differences as `TimingKept` requires |
| Statistics.TallyWin | src/providers/yellowstone_accounts.rs:383-390 | one record's winner is bumped, keeping the win table equal to `WinTable` |
| Statistics.NothingTallied | src/providers/yellowstone_accounts.rs:374-379 | the empty win tables, zero counters and empty difference list describe no records |
| Statistics.TallyGlobal | src/providers/yellowstone_accounts.rs:381-404 | one turn of the global loop keeps the win tables and the counters describing exactly the records already visited |
| Statistics.GlobalReportHolds | src/providers/yellowstone_accounts.rs:405-441 | tallies over the whole tracker, with the differences sorted and summarised, describe the tracker |
| Statistics.GlobalStatistics | src/providers/yellowstone_accounts.rs:368-442 | the global report: number tracked, per-endpoint wins per stream (each total equal to the records with that endpoint set and at most the number tracked), both-received split into account-first and tx-first, signed differences sorted and a permutation of the records' differences, min, median and max only when some record has both |
| Statistics.StreamStatistics | src/providers/yellowstone_accounts.rs:444-492 | the per-runner report exists iff some record of the runner's own map was seen on both streams (nothing is printed otherwise). It gives the number of signatures tracked, which is the map's size. It also gives the same counts over that map with absolute differences, sorted and summarised |
| DualStream.Observe | src/providers/yellowstone_accounts.rs:173-203 | one sighting (also 254-296): reads the clock, stores it as the local slot's timestamp, leaves the global slot at or before it, changes no other signature's record in either map, and leaves the comparator and the counters alone |
| DualStream.TransactionStep | src/providers/yellowstone_accounts.rs:165-245 | a non-matching transaction changes nothing. A matching one reads the clock and merges into both maps under its first signature. Then a failed log write stops the runner before the add. Otherwise exactly one add follows, and the runner stops on the target iff the valid count equals `N`, without counting that transaction |
| DualStream.AccountStep | src/providers/yellowstone_accounts.rs:246-316 | every account update with info is counted. Only one carrying a transaction signature reads the clock and touches the maps. It never adds to the comparator or the transaction count, and a failed log write stops the runner |
| DualStream.Step | src/providers/yellowstone_accounts.rs:154-352 | per event: at most one add, under this runner's name and start time. The count grows with the adds except the one that reached the target. A target stop means the valid count equals `N`. A non-target stop adds nothing. A running add means the count differs from `N`. The global tracker never gets later. The shutdown signal, a stream error and the end of the stream stop the runner with the state unchanged, as `StopSignal`, `StreamError` and `StreamClosed` respectively. These are normal ends, never `LogWriteFailed`, so the finish counter still moves |
| DualStream.Run | src/providers/yellowstone_accounts.rs:154-352 | the `'ploop` loop over a sequence of events, sticky once stopped; a runner still running has seen only stream messages, never a shutdown signal, error or end of stream |
| DualStream.RunStaysStopped | src/providers/yellowstone_accounts.rs:239 | once the loop has broken, later events change nothing |
| DualStream.RunAddsOwnObservations | src/providers/yellowstone_accounts.rs:221-242 | over any events the comparator trace only grows. It grows by this runner's observations. The transaction count equals their number, less the one that reached the target |
| DualStream.RunStopsAtFirstTarget | src/providers/yellowstone_accounts.rs:231-240 | the runner stops on the target only right after an add whose valid count equals `N`, and after every earlier add of its own the count differed from `N` |
| DualStream.RunKeepsTrackers | src/providers/yellowstone_accounts.rs:282-296 | over any events the global tracker keeps every record and no filled slot gets later; both maps keep records under their own signatures |
| DualStream.IgnoredEventsChangeNothing | src/providers/yellowstone_accounts.rs:317-338 | pings, other update kinds, empty updates, messages without payload and non-matching transactions leave the state unchanged and the runner running |
| DualStream.AccountUpdatesNeverAdd | src/providers/yellowstone_accounts.rs:248-255 | account updates never add to the comparator or the transaction count, and while running, each one with account info is counted once |
| DualStream.HandleTransaction | src/providers/yellowstone_accounts.rs:165-245 | the imperative transaction arm, on the shared comparator and tracker, ends exactly as `TransactionStep` |
| DualStream.HandleAccount | src/providers/yellowstone_accounts.rs:246-316 | the imperative account arm ends exactly as `AccountStep` and leaves the comparator alone |
| DualStream.HandleEvent | src/providers/yellowstone_accounts.rs:161-349 | one turn of the `select!` loop ends exactly as `Step` |
| DualStream.ConsumeEvents | src/providers/yellowstone_accounts.rs:154-352 | the loop leaves the comparator, the tracker and its counters as `Run` says; running out of events counts as the stream closing |
| DualStream.ProcessAccountsEndpoint | src/providers/yellowstone_accounts.rs:154-366 | the whole runner: its outputs follow `Run`. The stream report exists iff it stopped on the target and some record of its own map was seen on both streams. It then gives that map's size and describes its timing. Shutdown is sent once iff it stopped on the target. The finish counter moves unless a log write failed. The global report is made iff the counter's prior value was 1, and it describes the tracker |
| Shredstream.Flatten | src/providers/shredstream_proxy.rs:131-133 | the transactions visited, entry by entry; every one comes from some entry |
| Shredstream.FlattenAppend | src/providers/shredstream_proxy.rs:131-133 | the transactions of concatenated entry lists are the concatenation |
| Shredstream.AccountKeys | src/providers/shredstream_proxy.rs:135-142 | both message formats yield their own account keys |
| Shredstream.Matching | src/providers/shredstream_proxy.rs:135-145 | the matching transactions: no longer than the input, each one from the input and matching, every matching input transaction present |
| Shredstream.MatchingOne | src/providers/shredstream_proxy.rs:144 | a single transaction is kept iff its account keys contain the watched account |
| Shredstream.MatchingAppend | src/providers/shredstream_proxy.rs:131-145 | the filter distributes over concatenation; with `MatchingOne` it keeps exactly the matching transactions, in input order and with their multiplicity |
| Shredstream.TxStep | src/providers/shredstream_proxy.rs:144-162 | one transaction: a non-matching one changes nothing. A matching one makes one observation. If its log write fails the result is the error with no add and no count. Otherwise exactly one add under its first signature with the clock reading, and the count grows by one |
| Shredstream.ProcessTxs | src/providers/shredstream_proxy.rs:133-163 | the transactions in order, stopping at the first failed write: the trace only grows, the count grows by the number of adds, and each add took one observation |
| Shredstream.FormatsFilterAlike | src/providers/shredstream_proxy.rs:135-142 | legacy and V0 messages are filtered alike, by their account keys |
| Shredstream.ProcessEntrySpec | src/providers/shredstream_proxy.rs:130-170 | a payload that does not decode changes nothing and returns `Ok` |
| Shredstream.EntryAddsFollowMatches | src/providers/shredstream_proxy.rs:131-163 | a decoded payload's adds are its first k matching transactions, in order, under their first signatures, with consecutive clock readings and this runner's name. The count grows by k. Either `Ok` and k is all of them, or the (k+1)-th log write failed and nothing after it was visited |
| Shredstream.ProcessTxsSticks | src/providers/shredstream_proxy.rs:148 | after a failed log write the rest of the payload changes nothing |
| Shredstream.Step | src/providers/shredstream_proxy.rs:73-105 | per event: adds only grow, under this runner's name and start time. The count grows by the number of adds. On an entry the new state is the one processing the entry leaves. A failed log write stops it with `LogWriteFailed`. It stops on the target iff the processing succeeded and the valid count equals `N` after the whole entry. Otherwise it keeps running, also when the payload did not decode. The shutdown signal, a stream error and the end of the stream stop it with nothing changed, as `StopSignal`, `StreamError` and `StreamClosed` respectively. These are normal ends, never `LogWriteFailed` |
| Shredstream.Run | src/providers/shredstream_proxy.rs:73-108 | the `'ploop` loop over a sequence of events, sticky once stopped; a runner still running has received only entries, never a shutdown signal, error or end of stream |
| Shredstream.RunStaysStopped | src/providers/shredstream_proxy.rs:73-108 | once the loop has broken, later events change nothing |
| Shredstream.RunAccounting | src/providers/shredstream_proxy.rs:73-108 | over any events the trace only grows by this runner's observations, the transaction count equals their number, and a target stop means the valid count equals `N` |
| Shredstream.OvershootWithinEntryIsMissed | src/providers/shredstream_proxy.rs:83-100 | for an entry with two matching transactions, stopping depends only on the valid count after both adds, so a count equal to `N` after the first and past it after the second does not stop the runner |
| Shredstream.ProcessEntry | src/providers/shredstream_proxy.rs:113-170 | the imperative `process_entry`, with its nested loops over the payload, ends exactly as `ProcessEntrySpec` |
| Shredstream.ProcessTransactions | src/providers/shredstream_proxy.rs:133-163 | the inner loop over one entry's transactions either visits all of them without error, or returns the first failed log write, which is then the result of the payload |
| Shredstream.ProcessShredsEndpoint | src/providers/shredstream_proxy.rs:73-111 | the whole runner: its comparator trace, count and exit follow `Run`, and it sends shutdown once iff it stopped on the target |

## Left out

- Network and foreign libraries are not modelled: gRPC client construction, TLS, connect, subscribe and the subscribe request. A stream is given as a finite sequence of events, and running out of events counts as the stream closing.
- The ping reply send is not modelled. A ping is modelled as no state change, so a failed reply send (which would end the runner with an error) is not captured.
- Concurrency is not modelled: `tokio::select!`, broadcast channels, `Arc<Mutex<…>>`, `lazy_static` and the atomic counter. One runner is modelled at a time. The global tracker and the finish counter are shared objects it acts on sequentially. Shutdown is one event kind. Interleavings between runners are not modelled.
- The comparator's internals and `get_current_timestamp` live in a utility module that is not part of this model. The comparator is a recorded trace of adds with a valid-count oracle. The clock is an oracle.
- Floating point is not modelled: percentages, averages, the `* 1000.0` conversion and the `partial_cmp().unwrap()` sort (which cannot fail on integers). Timestamps are integers, and only counts, comparisons, differences and the sort are modelled.
- bs58 encoding, `to_string` on keys and `bincode` decoding are not modelled. Keys and signatures are already-encoded strings. A decoded payload is `Some`, a failed decode `None`.
- Log formatting, log-file opening and the info, debug and warn messages are not modelled. `write_log_entry` is a step that may fail, and a failure propagates out of the runner.
- Panics are stated as preconditions, not modelled:
  - `.unwrap()` on a missing transaction or message;
  - `signatures[0]` on an empty list;
  - `&account_key[0..8]` and `&signature[0..8]` on strings shorter than 8.

  The slicing preconditions apply only when info logging is on, as in the source.
- Map iteration order is not modelled. Both statistics loops visit the map's keys in an unspecified order, as `HashMap::iter` does, and every count they state is independent of that order.
