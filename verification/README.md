# Outbox relay: a Dafny model of its protocols

protoevent-go delivers events through an outbox: business transactions commit rows, and relays
forward them to a broker, commit how far they got, and delete what every consumer group has
passed. Any number of relay instances can run, crash, stall, or believe for a while that they
still lead. This project models that code and proves what it promises for every run.

The project has three parts.

**The sequenced log (TiDB).** `LogProtocol` is a state machine over the four tables, each
instance's place in its pass, the writes given up on that may still land, and a history of what
was delivered. A label is one SQL statement, one whole sequencing transaction, one delivery event
or one crash, and carries everything the environment decides; a run is any sequence of labels by
any number of instances. `LogSafety` proves one invariant of every run, and `LogTheorems` reads
the promises off it. `Sequencing` is the numbering query, `Leases` both leader-lock statements.
The code itself is modelled as classes: `Clusters.Cluster` is the database as one instance meets it, with the others moving
between any two of its statements; `TidbStores.RelayStore`, `Leaders.Elector`, `Lanes.Lane`,
`StuckLanes.StuckTracker` and `SequenceRelays.Relay` are the store, elector, delivery policy,
wedge tracker and relay. `Cluster.Valid` says that all they did is a run of the protocol, and
`Relay.Valid` that the relay's deliveries in that run are its downstream's own record, event by
event and in order; so every theorem about runs is a theorem about them.

**The change stream (MongoDB).** `StreamProtocol` and `StreamTheorems` are the state machine and
its promises: stored tokens, cursors, in-memory baselines, fresh starts, restarts. `TokenKeys`
and `TokenStores` are the token order and the guarded save; `StreamClusters.Cluster` and
`StreamRelays.Relay` are the store and the relay, again tied to a run of the protocol.

**What both rest on.** `BatchSenders` is the RabbitMQ sender with its pipelined publish,
`ConfirmModes` the confirm-mode handshake among concurrent callers.

What the environment decides (failures, lost answers, rivals' moves, clocks, broker verdicts,
handler answers, token readings) is read off functions fixed beforehand, over which every
statement is universal. A statement that fails has been given up on: it may never land, or land
among any later steps, and a failed send may or may not have arrived.

`dafny verify dfyconfig.toml` checks everything.

Where code and comments differ, the model follows the code:

- `internal/lane/lane.go:181-186` stops the lane when a complete batch comes with an error, though
  every message may be passed, and reports nothing, though `lane.go:313-316` says that every path
  that stops the lane does. The RabbitMQ sender gets there if Process can fail behind a complete
  attempt (`OvertakenHappens`), which its code neither shows nor excludes. The model does the same:
  no message is lost, and `Lanes.Lane.SendBatch` states exactly when a stopped lane is reported.
- `sequence/run.go:255` says that a known non-leader must not keep sequencing. A registration that
  the fence rejects means leadership is lost, and the sequencer pass runs all the same
  (`run.go:184-210`): `SequenceRelays.Relay.RunOnce` states that this is exactly when rows are
  labelled behind a loss. It moves no watermark, so `Journals.Harmless` allows it.
- `tidb/store.go:664-671` takes the lock row's answer for the commit's. An acquire that this
  instance gave up on can land between the two, and the answer is yes over a watermark that was not
  written: `ReadBackMisleadsExactlyByALateBid`. Nothing a group is owed is lost by it; a group whose
  first registration it hides stays unregistered, and the sweep does not wait for it.
- `mongodb/store.go:558-604`: on a missing lock document the pipeline claims the lock only if the
  server's time is past the epoch, which `PipelineIsElect` states as the exact condition.
- `stream/run.go:217-236` says that a parked event's commit time never rewinds. With nothing
  advanced in the window its own time is used even when it is older than the committed one, and the
  guard then refuses the save: `FlooredFallsBackExactly`, `FallenSaveIsRefusedExactly`.
- `publish.go:107-108` says at most once per channel. It is once per bookkeeping, and a channel that
  was forgotten gets a new one: `SecondRpcExactlyOnceForgotten`.

The no-loss statements speak of the rows a group is owed: those present above its start when it
registered, and those labelled later. `InitOffsetLatest` starts a group at the maximum over the
rows still present, which a sweep can have lowered. The overlapped form of delivery is proved for
a sender whose count is the acknowledged prefix, which `BatchSenders` proves of the RabbitMQ one;
its equality with the serial form needs a sender that is not overruled as well.

## Model

| member | source | states |
|---|---|---|
| LogTheorems.WatermarkPassesOnlyDisposedRows | pkg/transport/outbox/relay/sequence/run.go:341-553 | no loss: in every run, each row a group is owed at or below its stored watermark was acknowledged by the broker or confirmed parked |
| LogTheorems.CommitPassesOnlyDisposedRows | pkg/transport/outbox/relay/sequence/run.go:484-512 | an instance about to commit, however stale, has earned the seq: nothing owed below it is undisposed, even behind swept rows |
| LogTheorems.LateWritePassesOnlyDisposedRows | pkg/transport/outbox/tidb/store.go:628-677 | a watermark write its instance gave up on has earned its seq whenever it lands, however much later |
| LogTheorems.ConfirmedWasSettled | pkg/transport/outbox/relay/sequence/run.go:376-502 | a row counts as disposed of for a group only where an instance of that group settled it in the run |
| LogTheorems.RunsGrow | pkg/transport/outbox/tidb/store.go:281-302 | watermarks never decrease, labels, registrations and disposals are never taken back, whoever writes and whatever lands late |
| LogTheorems.EveryRunIsOrderly | pkg/transport/outbox/relay/sequence/run.go:376-408 | with serial sends, whatever may have reached the broker came after everything owed before it |
| LogTheorems.OrderlyExactlyWhenSerial | pkg/transport/outbox/relay/sequence/run.go:376-457 | with two rows that decode, every run is in order for a group if and only if no instance of the group batches |
| LogTheorems.DeliveriesAreDownwardClosed | pkg/transport/outbox/relay/sequence/run.go:376-408 | the owed seqs that ever reached the broker or were parked form a downward-closed set, with any number of leaders at once |
| LogTheorems.FirstDeliveriesAscend | pkg/transport/outbox/relay/sequence/run.go:461-513 | first deliveries of owed rows happen in ascending seq order |
| LogTheorems.SweepTakesOnlySettledRows | pkg/transport/outbox/tidb/store.go:385-390 | a deleted row was disposed of, or lies at or below the start, for every group registered at that moment |
| LogTheorems.SeqsAreDense | pkg/transport/outbox/tidb/store.go:869-917 | the seqs ever given are exactly 1 to next_seq - 1, one row each, none of them pending |
| LogTheorems.PassLabelsOldestFirst | pkg/transport/outbox/tidb/store.go:327-338 | of two rows labelled by one pass the one with the smaller tx_start_ts, or an equal one and the smaller id, has the smaller seq, and no row the pass read and left pending comes before a row it labelled |
| LogTheorems.CommittedRowsAreKept | pkg/transport/outbox/tidb/store.go:799-861 | a committed row stays pending until it has a seq, in every continuation |
| LogTheorems.BacklogIsOwedAfterPriming | pkg/transport/outbox/relay/sequence/run.go:176-184 | a row pending when a group registers at the latest seq later gets a seq above the group's start and is owed to it |
| LogTheorems.PassBeforePrimingForfeitsTheBacklog | pkg/transport/outbox/relay/sequence/run.go:176-184 | in the opposite order every row the pass labels lies at or below the new group's start and is never owed |
| LogTheorems.HolderWasHolder | pkg/transport/outbox/tidb/store.go:359-368 | with no acquire of its own in between, an instance that holds the lock held it throughout |
| LogTheorems.ReadBackMisleadsExactlyByALateBid | pkg/transport/outbox/tidb/store.go:648-677 | behind a commit that changed nothing, the read of the lock row can answer yes over a watermark that was not written if and only if the fence was closed and an acquire this instance gave up on is outstanding |
| LogTheorems.LateBidMisleads | pkg/transport/outbox/tidb/store.go:648-677 | the steps that do it: the holder releases, and the abandoned acquire lands |
| LogSafety.EveryRunKeeps | pkg/transport/outbox/relay/sequence/run.go:166-226 | the mutual invariant of sequencer, page loop, commit, sweep and writes still to land holds in every reachable state |
| LogSafety.TopIsCovered | pkg/transport/outbox/relay/sequence/run.go:484-502 | the watermark a page has earned covers every owed row at or below it |
| LogSafety.PassStaysLabelled | pkg/transport/outbox/tidb/store.go:869-917 | a sequencing transaction keeps seqs dense, unique and apart from pending rows |
| LogSafety.PageSkipsNoRow | pkg/transport/outbox/tidb/store.go:515-588 | a listed page holds every row of the log between the offset and its last row, poison row included |
| LogProtocol.ListFromIsTheLog | pkg/transport/outbox/tidb/store.go:273-278 | the page query returns the log's content from a seq on, in order, without gaps, up to the limit |
| LogProtocol.MaxSeq | pkg/transport/outbox/tidb/store.go:303-305 | COALESCE(MAX(seq), 0) over the rows present: an upper bound that is one of them, or 0 |
| Sequencing.RewriteKeepsEverySeq | pkg/transport/outbox/tidb/store.go:310-342 | limiting by (seq, tx_start_ts, id) below the window gives every row the seq that numbering the whole backlog would |
| Sequencing.PassNumbersTaken | pkg/transport/outbox/tidb/store.go:327-338 | a pass hands out next, next + 1, ... to the first pending rows, whose order `TakenComeFirst` and `PassLabelsOldestFirst` state in the rows' own fields |
| Sequencing.TakenComeFirst | pkg/transport/outbox/tidb/store.go:334-338 | a pending row that the limit leaves over has a greater tx_start_ts than every row taken, or the same one and a greater id |
| Sequencing.AnySplitIsOnePass | pkg/transport/outbox/tidb/store.go:799-861 | with no commits between, any split of a backlog into passes assigns what one large pass would |
| Sequencing.ShortPassEmpties | pkg/transport/outbox/relay/sequence/run.go:237-250 | a pass that comes up short leaves nothing pending |
| Leases.UpsertIsElect | pkg/transport/outbox/tidb/store.go:359-376 | the two-IF left-to-right upsert is the abstract election, and its outcome code never misreports a win or a loss |
| Leases.PipelineIsElect | pkg/transport/outbox/mongodb/store.go:558-604 | the MongoDB pipeline is the same election, if and only if a document exists or the server's time is past the epoch |
| Leases.AtMostOneLeads | pkg/transport/outbox/internal/leader/leader.go:56-82 | under one non-decreasing clock two holders are never inside leases they count on together, with any delay between reading the clock and the statement that applies, lost answers included, unless a statement its holder gave up on undercuts that holder |
| Leases.TwoLeadExactlyPastAnUndercut | pkg/transport/outbox/internal/leader/leader.go:56-118 | the condition is exact: behind a run without undercuts, one more step lets some continuation make two lead if and only if it is an undercut, which is an unanswered bid with an earlier deadline than its holder counts on, or a delete of a lease its holder counts on |
| Leases.OrderlyIsNeverUndercut | pkg/transport/outbox/internal/leader/leader.go:67-118 | where each holder's own statements reach the table in the order it issued them, nothing undercuts it; other holders may come between in any order |
| Leases.LateBidUndercuts | pkg/transport/outbox/tidb/store.go:938-976 | an acquire abandoned at its deadline that reaches the table behind the same holder's next one undercuts it |
| TidbStores.RelayStore.Offset | pkg/transport/outbox/tidb/store.go:610-622 | what the group's row says at the read: its watermark, a missing row told from a watermark of 0; it fails only where a statement failed |
| TidbStores.RelayStore.InitOffsetLatest | pkg/transport/outbox/tidb/store.go:725-735 | inserts if absent and answers the offset that survived, whoever inserted it; a start of its own is the newest seq then present; it fails only where a statement failed |
| TidbStores.RelayStore.CommitOffset | pkg/transport/outbox/tidb/store.go:628-634 | on success the stored watermark is at least the seq; on failure the write may land at any later time; an error only where a statement failed |
| TidbStores.RelayStore.CommitOffsetFenced | pkg/transport/outbox/tidb/store.go:648-677 | true means the lock was held when the upsert ran and the watermark is at least the seq from then on, also through the separate read-back, unless an acquire this instance had given up on landed behind the upsert; false means the lock is not held; an error only where a statement failed |
| TidbStores.RelayStore.HoldsLeaderLock | pkg/transport/outbox/tidb/store.go:982-994 | true exactly when the lock row names this holder |
| TidbStores.RelayStore.TryAcquireLeaderLock | pkg/transport/outbox/tidb/store.go:938-976 | one election was held, and the answer was true of this holder at a moment after that election, for every outcome code |
| TidbStores.RelayStore.ListMessages | pkg/transport/outbox/tidb/store.go:515-588 | the listing is exactly the protocol's page: the decodable prefix, and behind it the row that will not decode |
| TidbStores.RelayStore.DecodeRows | pkg/transport/outbox/tidb/store.go:515-588 | the growing buffer ends with the rows decoded before the first that does not, for every page size |
| TidbStores.RelayStore.SequenceMessages | pkg/transport/outbox/tidb/store.go:799-861 | on success a pass of the protocol over what was pending at some moment of the call, or an idle log; fewer rows than the limit means every row pending when the call began has a seq, while rows that commit behind the UPDATE wait; what it labels it labels oldest first, and what it leaves is younger |
| TidbStores.RelayStore.SequenceLocked | pkg/transport/outbox/tidb/store.go:869-917 | lock, assign, bump, commit, with rivals and business commits between any two of them, amount to one pass over the rows the UPDATE read, and the counter moves by the rows labelled, oldest first |
| TidbStores.RelayStore.SweepMessages | pkg/transport/outbox/tidb/store.go:1041-1054 | one sweep step with the retention cutoff, of at most the batch: every row taken was created before the cutoff and is behind every group, and a short batch leaves no such row |
| Clusters.CommitIsThePass | pkg/transport/outbox/tidb/store.go:879-913 | committing whatever page the UPDATE numbered from the locked counter, with rows committed meanwhile left alone, is the protocol's pass |
| Clusters.DraftNumbersTaken | pkg/transport/outbox/tidb/store.go:310-342 | any page the limited query may number holds exactly the first pending rows, numbered from the counter on |
| TidbStores.LeavesPendingForGood | pkg/transport/outbox/tidb/store.go:799-861 | a row that has its seq is never pending again, in any run: what a short pass reports stays true |
| Leaders.Elector.TryAcquire | pkg/transport/outbox/internal/leader/leader.go:67-82 | the flag and the answer agree with the lock at a moment after the attempt's own election; an unanswered attempt claims nothing and changes no flag |
| Leaders.Elector.Release | pkg/transport/outbox/internal/leader/leader.go:102-118 | drops the flag first, so a second release issues no statement |
| StuckLanes.StuckTracker.Stuck | pkg/transport/outbox/internal/notify/stuck.go:90-108 | escalates exactly when the history of calls makes this one due |
| StuckLanes.StuckTracker.Progress | pkg/transport/outbox/internal/notify/stuck.go:62-72 | ends an episode exactly when the history says it does |
| StuckLanes.OncePerEpisode | pkg/transport/outbox/internal/notify/stuck.go:74-108 | two escalations never fall into one unbroken episode |
| StuckLanes.LongWedgeEscalates | pkg/transport/outbox/internal/notify/stuck.go:74-108 | an episode that spans the threshold has escalated |
| StuckLanes.ForeignProgressPostponesNothing | pkg/transport/outbox/internal/notify/stuck.go:62-72 | successful redeliveries at other positions never postpone an identified wedge |
| Lanes.Lane.MessageFailure | pkg/transport/outbox/internal/notify/notify.go:113-143 | the handler's answer, and success when there is no handler |
| Lanes.Lane.Failed | pkg/transport/outbox/internal/lane/lane.go:209-237 | a dead context decides first; parked only if a hook claims the error and the handler took the message; stopped otherwise |
| Lanes.PolicyTable | pkg/transport/outbox/internal/lane/lane.go:209-283 | the whole policy in the hooks' own fields: a dead context cancels; a marked error with a handler, or one the classifier claims, is parked unless a handler declines it, and then stops; everything else stops |
| Lanes.Lane.Send | pkg/transport/outbox/internal/lane/lane.go:122-131 | the disposition is the policy's verdict, and the downstream and the tracker record exactly what it implies |
| Lanes.Lane.SendBatch | pkg/transport/outbox/internal/lane/lane.go:160-205 | the delivered prefix has no gap, the next message meets the same policy as a single send, and a stopped lane counts as stuck if and only if a message is left: an error on top of a complete batch stops it past every message without a report |
| Lanes.Lane.Park | pkg/transport/outbox/internal/lane/lane.go:299-306 | progress is recorded only for a confirmed park |
| Lanes.Lane.Stuck | pkg/transport/outbox/internal/lane/lane.go:317-329 | a wedge is reported exactly when the tracker's history makes it due |
| Lanes.SafeExactlyWhenNothingIsClaimedUnparked | pkg/transport/outbox/internal/relaycfg/relaycfg.go:193-200 | the policy never advances past an undisposed message if and only if the hooks are validated or the classifier without a handler claims nothing |
| Lanes.AdvanceLeavesProof | pkg/transport/outbox/internal/lane/lane.go:209-306 | with validated hooks an advance leaves an acknowledgement or a confirmed park behind, and a stop leaves neither |
| Journals.ObedientMeansNothingAfterALoss | pkg/transport/outbox/relay/sequence/run.go:142-165 | what obeying the lease means over a whole pass: behind a loss nothing but labelling rows and asking for the lease |
| Journals.OverrunsMeansLabellingAfterALoss | pkg/transport/outbox/relay/sequence/run.go:176-192 | what labelling rows behind a loss means over a whole pass |
| Journals.FailingMeansAFailure | pkg/transport/outbox/relay/sequence/run.go:166-226 | what a failed store call, an unanswered lease and a refused park mean over a whole pass |
| SequenceRelays.Relay.CommitOffset | pkg/transport/outbox/relay/sequence/run.go:53-71 | through the fence when there is one; a rejection is a lost leadership; no error means the watermark is written, or the fence is there and an abandoned acquire of its own landed in between |
| SequenceRelays.Relay.RenewLease | pkg/transport/outbox/relay/sequence/run.go:75-85 | a failed renewal counts as lost leadership and stays distinguishable from an election lost |
| SequenceRelays.Relay.PrimeOffset | pkg/transport/outbox/relay/sequence/run.go:341-363 | the pass starts from the watermark read; only a missing row is registered, at 0 or at the latest seq as configured; there is a start exactly when the journal shows one, and leadership is lost here exactly by a rejected registration |
| SequenceRelays.Relay.Sequence | pkg/transport/outbox/relay/sequence/run.go:233-264 | passes until nothing is pending, or the page bound, or a fault; full pages and won leases take turns in the journal, and only a dead context leaves a full page without its renewal |
| SequenceRelays.Relay.SequencePage | pkg/transport/outbox/relay/sequence/run.go:237-261 | a full page is followed by a renewal under a live context, the phase goes on exactly when that was won, and a short page ends it with nothing pending |
| SequenceRelays.Relay.PacedOn | pkg/transport/outbox/relay/sequence/run.go:233-264 | one page more behind a renewed lease keeps pages and renewals taking turns |
| SequenceRelays.Relay.ForwardSerial | pkg/transport/outbox/relay/sequence/run.go:376-408 | under a live context the answer is that of delivering the page message by message up to the first that stops the lane, which is then reported |
| SequenceRelays.Relay.ForwardBatched | pkg/transport/outbox/relay/sequence/run.go:423-457 | wherever each message meets one fate and no batch is overruled, the overlapped form gives the same (maxSeq, sent, outcome) for every page; overruled or not it terminates with the watermark earned, and a stopped page counts as stuck if and only if a message of it is left |
| SequenceRelays.Relay.Forward | pkg/transport/outbox/relay/sequence/run.go:376-457 | either form leaves the protocol where the counts say, with the watermark earned |
| SequenceRelays.HeadsOnByBatch | pkg/transport/outbox/relay/sequence/run.go:423-457 | one batch moves the tally exactly as its messages would one by one |
| SequenceRelays.BatchFits | pkg/transport/outbox/relay/sequence/run.go:423-457 | everything an overlapped batch leaves downstream is a run of protocol steps of this page |
| SequenceRelays.Relay.ParkPoison | pkg/transport/outbox/relay/sequence/run.go:491-502 | an undecodable row is passed only behind a fully delivered page and a confirmed park |
| SequenceRelays.Relay.DeliverPage | pkg/transport/outbox/relay/sequence/run.go:484-502 | the seq to commit is the page's earned watermark, poison row included; a page done has the last decoded row, or the parked one, as that seq |
| SequenceRelays.Relay.CommitPage | pkg/transport/outbox/relay/sequence/run.go:504-512 | commits exactly when something was earned; a failed commit moves nothing here and may land later |
| SequenceRelays.Relay.DrainPage | pkg/transport/outbox/relay/sequence/run.go:461-553 | a page that ends well was passed whole, up to the last row listed, poison row included; under fixed verdicts where it ends, how and with which fault are those of the page listed; nothing delivered stays uncommitted but by a store fault, a lost lease or an abandoned acquire of its own that landed behind the commit; a page that cannot be listed counts as stuck; a row that does not decode and was not passed is reported exactly where the page has one, a refused park exactly where the handler refused |
| SequenceRelays.Relay.PassPage | pkg/transport/outbox/relay/sequence/run.go:484-553 | delivery, commit and ending of a listed page: passed whole when it ends well, and under fixed verdicts exactly what its messages and its poison row come to |
| SequenceRelays.Relay.EndPage | pkg/transport/outbox/relay/sequence/run.go:514-553 | the page is full exactly when its limit was reached or its poison row parked; a poison row nobody took counts as stuck |
| SequenceRelays.Relay.Drain | pkg/transport/outbox/relay/sequence/run.go:290-328 | every page behind the first comes right after a renewed lease, and a drain that ends well has met a short page and finished it, a stopped lane or the page bound; the poison row of the last page read, a refused park and a dead context are each reported exactly where they were met |
| SequenceRelays.Relay.MaybeSweep | pkg/transport/outbox/relay/sequence/run.go:629-685 | sweeps exactly when the interval is due, and latches the clock exactly when a batch came up short, with nothing deletable left then |
| SequenceRelays.Relay.SweepPages | pkg/transport/outbox/relay/sequence/run.go:660-684 | full batches until one is short, which leaves nothing deletable, a fault or the page bound |
| SequenceRelays.Relay.Lead | pkg/transport/outbox/relay/sequence/run.go:176-226 | the pass of a leader: each fault of a phase is returned unless the lease is lost, and the sweep runs behind any other |
| SequenceRelays.Relay.RunOnce | pkg/transport/outbox/relay/sequence/run.go:166-226 | after a lost or unanswerable lease or a rejected commit nothing is delivered, committed or swept for the rest of the pass, and rows are labelled behind a loss if and only if the sequencer is on and the loss is a rejected registration; a pass that has its start lists pages unless it loses the lease, whatever else the sequencer met, no other fault skips the sweep, and a dead context always does; a store fault is returned exactly where the journal has met one, unless the lease is lost; a wedge is returned if and only if the last page read has a row that does not decode and the lane is stuck on it, a failed park if and only if the handler refused it, and a cancellation only under a dead context, always where the context was dead and the page had messages |
| SequenceRelays.DatabasePassesOnlyDisposedRows | pkg/transport/outbox/relay/sequence/run.go:166-226 | no loss as the relay's own database shows it: each owed row at or below a watermark was settled in the run by an instance of the group, and if by this one its downstream's own record holds the acknowledgement or the confirmed park |
| SequenceRelays.SettledByTheDownstream | pkg/transport/outbox/relay/sequence/run.go:376-502 | every settlement this relay has in the run is an acknowledgement or a confirmed park in its downstream's record |
| SequenceRelays.OwnDeliveriesAscend | pkg/transport/outbox/relay/sequence/run.go:376-408 | with serial sends, whatever reached this relay's downstream, a failed send that arrived included, came after every owed row before it |
| TokenKeys.TokenKey | pkg/transport/outbox/mongodb/watch.go:226-253 | the loop accepts exactly the texts that spell some bytes in hex digits of either case, by the digit table, and the key is those bytes' lower-case text |
| TokenKeys.KeysAreHexTexts | pkg/transport/outbox/mongodb/watch.go:226-253 | every non-empty sequence of bytes, spelled in upper, lower or mixed case, has its lower-case text as its key, and nothing else has a key |
| TokenKeys.KeyOrderIsByteOrder | pkg/transport/outbox/mongodb/watch.go:217-225 | text order of two keys is the byte order of the payloads they came from |
| TokenKeys.SecondsAreBigEndian | pkg/transport/outbox/mongodb/watch.go:193-215 | the commit time is the marker's next four bytes as one big-endian number, and anything shorter or otherwise marked has none |
| TokenKeys.KeyOrderKeepsTime | pkg/transport/outbox/mongodb/watch.go:193-215 | a key at or before another decodes to a commit time at or before the other's |
| TokenStores.RelayStore.SaveToken | pkg/transport/outbox/mongodb/store.go:496-536 | refuses an empty token; otherwise the row gives way or stays exactly as the keyed or coarse guard says, and the answer says which |
| TokenStores.RefusedExactlyWhenBehind | pkg/transport/outbox/mongodb/store.go:496-536 | a save is refused if and only if it is strictly behind the stored row, by key where both are keyed and by commit time otherwise; an equal time advances |
| TokenStores.RelayStore.LoadToken | pkg/transport/outbox/mongodb/store.go:456-466 | the stored token and its commit time, or none and the zero time for a missing row |
| TokenStores.RelayStore.TryAcquireLeaderLock | pkg/transport/outbox/mongodb/store.go:558-604 | the document becomes the abstract election's result, and the answer is whether it names this holder |
| TokenStores.RelayStore.ReleaseLeaderLock | pkg/transport/outbox/mongodb/store.go:607-613 | deletes the document only if it names this holder |
| TokenStores.KeyedSavesKeepTheGreatest | pkg/transport/outbox/mongodb/store.go:468-536 | after any run of keyed saves the stored key is the greatest tried, and a save persists exactly when its key is at least all earlier ones |
| TokenStores.StoredTimeNeverFalls | pkg/transport/outbox/mongodb/store.go:468-536 | keyed and opaque saves mixed in any order never take the stored commit time back |
| StreamProtocol.EveryTidyRunKeeps | pkg/transport/outbox/relay/stream/run.go:106-175 | the invariant of stored token, saves still to land, cursors, baselines and disposals holds in every run that skips nothing |
| StreamTheorems.StoredPositionPassesOnlyDisposedEvents | pkg/transport/outbox/relay/stream/run.go:189-379 | from the latest fresh start on, every event before the stored position was acknowledged or confirmed parked |
| StreamTheorems.ConfirmedWasDisposed | pkg/transport/outbox/relay/stream/run.go:189-313 | an event counts as disposed of only where a process disposed of it in the run |
| StreamTheorems.NothingIsLostAfterTheFirstToken | pkg/transport/outbox/relay/stream/run.go:106-175 | nothing between the first stored token and any later one is lost, if every fresh start began at or before the first token and none follows |
| StreamTheorems.DeliverableExactlyWhileWithin | pkg/transport/outbox/relay/stream/run.go:112-173 | with no save given up on outstanding at or before it, an event can still be delivered if and only if the stored position, an open cursor, a loaded position or an unsaved group's baseline is at or before it |
| StreamTheorems.DeliverableIsWithinOrLate | pkg/transport/outbox/relay/stream/run.go:112-173 | in every run that skips nothing, an event that can still be delivered lies within reach of those positions, or a save given up on is outstanding at or before it |
| StreamTheorems.StoredGroupLosesNothing | pkg/transport/outbox/relay/stream/run.go:390-430 | once a token is stored, every event from the latest fresh start on is delivered or still deliverable |
| StreamTheorems.DeliveriesAreDownwardClosed | pkg/transport/outbox/relay/stream/run.go:189-379 | whatever reached the broker came after everything from the fresh start to it |
| StreamTheorems.RacingFreshStartLoses | pkg/transport/outbox/relay/stream/run.go:140-173 | in a whole run from the empty store, two processes that both start fresh store the later start over the earlier one, and no event between is delivered in any continuation |
| StreamTheorems.TornCursorSkipsItsEvent | pkg/transport/outbox/relay/stream/run.go:250-276 | the concrete run: calling RunOnce again after an error without closing the stream skips an event and stores a position past it; Run always closes it |
| StreamTheorems.OneSkipIsWhatLoses | pkg/transport/outbox/relay/stream/run.go:250-276 | the condition is exact: behind a run that skipped nothing, one more step lets some continuation store a position past an owed, undisposed event if and only if that step serves on past such an event, or stores behind it |
| StreamTheorems.StoredPositionNeverFalls | pkg/transport/outbox/mongodb/store.go:496-536 | with keyed saves no writer, however stale, and no save that lands late takes the stored position back |
| StreamClusters.Cluster.SaveToken | pkg/transport/outbox/mongodb/store.go:496-536 | the store's guarded save is the protocol's step; an unanswered save may land at any later time, and only a persisted one drops the baseline; an error is an empty token or a failed call |
| StreamClusters.Cluster.Watch | pkg/transport/outbox/mongodb/watch.go:56-92 | resumes at the token's position, or fresh at "now", or reports history lost |
| StreamClusters.Cluster.TryNext | pkg/transport/outbox/mongodb/watch.go:107-164 | serves the next event, moves past it even when it does not decode, and reports fatal conditions as such |
| StreamClusters.Cluster.Checkpoint | pkg/transport/outbox/mongodb/watch.go:182-191 | a token, if there is one, resumes at the cursor's position |
| StreamClusters.Cluster.KeysTellEventsApart | pkg/transport/outbox/relay/stream/run.go:200-294 | two events with resume tokens share a lane key only if they are the same event; one without goes by its id |
| StreamRelays.Floored | pkg/transport/outbox/relay/stream/run.go:217-236 | a parked event's commit time never rewinds the window's once it has one, nor falls to zero once one was committed |
| StreamRelays.FlooredFallsBackExactly | pkg/transport/outbox/relay/stream/run.go:217-236 | with nothing advanced in the window the time falls below the committed one exactly when the event's own is set and older |
| StreamRelays.FallenSaveIsRefusedExactly | pkg/transport/outbox/relay/stream/run.go:217-236 | that save persists if and only if both tokens are keyed and their keys ascend; otherwise the stored row stays before the parked event |
| StreamRelays.Relay.SaveToken | pkg/transport/outbox/relay/stream/run.go:390-430 | the save is tried at exactly the cursor's safe position; trackers move and the baseline goes only once it is persisted; persisted, all three trackers hold the new position, otherwise all stay |
| StreamRelays.Relay.Anchor | pkg/transport/outbox/relay/stream/run.go:140-173 | a fresh start's baseline is remembered before it is saved, so a failed save leaves it |
| StreamRelays.Relay.OpenStream | pkg/transport/outbox/relay/stream/run.go:112-174 | resumes from the store, else from the baseline; a process with a baseline never starts fresh; the last saved token and the committed time are those of the position resumed from; only a token that was once stored suppresses a later save |
| StreamRelays.Relay.Reopen | pkg/transport/outbox/relay/stream/run.go:112-139 | store first, then baseline, then fresh, and the trackers only once the stream is open |
| StreamRelays.Relay.Offer | pkg/transport/outbox/relay/stream/run.go:290-312 | the disposition is the policy's verdict on what the sender answered; the position moves past the event exactly when it was acknowledged or confirmed parked, and the process's deliveries are the downstream's own record |
| StreamRelays.Relay.ParkPoison | pkg/transport/outbox/relay/stream/run.go:201-249 | a poison event is passed only with a resume token, a handler, a live context and that handler's answer for this event, which the downstream records |
| StreamRelays.Relay.PassPoison | pkg/transport/outbox/relay/stream/run.go:201-260 | every poison event the lane cannot get past counts as stuck, and a failed park joins the error |
| StreamRelays.Relay.ServeNext | pkg/transport/outbox/relay/stream/run.go:199-312 | one turn either finds the stream drained or failed, or takes the next event to the lane, and then the turn, the position, the token and the time are what the policy makes of its send or park |
| StreamRelays.Relay.ServeWindow | pkg/transport/outbox/relay/stream/run.go:189-313 | under fixed verdicts the position, token, time and ending are those of taking the served events one by one up to the first that does not advance; a window ends early only by that, a drained or failed stream, or a dead context; the one event served and not passed is the one the lane is stuck on, and the fault says what it is |
| StreamRelays.Relay.OneTurnMore | pkg/transport/outbox/relay/stream/run.go:189-313 | one more event served moves a window's result by exactly its own turn |
| StreamRelays.Relay.SaveWindow | pkg/transport/outbox/relay/stream/run.go:315-362 | saves the last disposed event's token, or an idle window's checkpoint unless it is the one saved last |
| StreamRelays.Relay.SavePrefix | pkg/transport/outbox/relay/stream/run.go:261-276 | what was disposed of before a fault is saved first, and its failure joins the fault |
| StreamRelays.Relay.EndWindow | pkg/transport/outbox/relay/stream/run.go:315-380 | a stopped window gives up its stream once its position is saved |
| StreamRelays.Relay.SettleWindow | pkg/transport/outbox/relay/stream/run.go:261-380 | the save that ends a window, behind a fault or not: its failure joins the fault and replaces only a stop |
| StreamRelays.Relay.CloseStream | pkg/transport/outbox/relay/stream/run.go:548-569 | drops the cursor and nothing else |
| StreamRelays.Relay.DrainWindow | pkg/transport/outbox/relay/stream/run.go:180-380 | however the window ends, exactly the disposed events are passed and the save is tried just behind them with the last one's token and time; under fixed verdicts how far it gets, what it saves and why it stops are determined by them; a stream fault is never hidden behind a failed save; no error means a full window, or that the stream had nothing to serve at some moment of the call; a stop, an undecodable event, a failed park, a stream fault and a store fault are each reported only where one was met; an undecodable event and a failed park always are, and a stop unless its save failed |
| StreamRelays.Relay.RunOnce | pkg/transport/outbox/relay/stream/run.go:106-176 | a process that does not lead delivers and saves nothing; one that leads has its stream served: it returns no error only behind a full window or a stream that had nothing to serve at some moment of the call, and an error only where the store, the stream or the lane met it; the events it pulled are those of its window; fatal conditions reach the caller; from a stream that had not stopped short the run stays tidy |
| StreamRelays.Relay.Run | pkg/transport/outbox/relay/stream/run.go:26-75 | one election a pass; each pass that led and met no fault had a full window or a stream with nothing to serve, and the passes' windows are all that was pulled; only a dead context or a fatal condition ends it early; a fatal condition is returned at once and never retried, every other fault closes the stream, and the whole is a tidy run of the protocol |
| StreamRelays.StoreHoldsOnlyDisposedEvents | pkg/transport/outbox/relay/stream/run.go:26-75 | no loss as the token in the relay's own store shows it: each event it has passed was disposed of in the run by some process, and if by this one its downstream's own record holds the acknowledgement or the confirmed park |
| StreamRelays.DisposedByTheDownstream | pkg/transport/outbox/relay/stream/run.go:189-313 | every event this process disposed of in the run has its acknowledgement or confirmed park in the downstream's record |
| StreamRelays.OwnDeliveriesAscend | pkg/transport/outbox/relay/stream/run.go:189-313 | whatever reached this process's downstream came after every event from the latest fresh start to it |
| BatchSenders.PrefixIsTheOne | pkg/eventbus/publisher.go:50-74 | only one length is a contiguous confirmed prefix ending at a message that is not confirmed |
| BatchSenders.Pipeline.Callback | pkg/transport/rabbitmq/sender.go:388-445 | publish loop, collect loop and reset give one run's confirmed prefix and the fate of the message behind it, whatever earlier runs left |
| BatchSenders.Pipeline.Publish | pkg/transport/rabbitmq/sender.go:405-420 | publishes in order up to the first failure |
| BatchSenders.Pipeline.Collect | pkg/transport/rabbitmq/sender.go:422-440 | counts confirms in publish order up to the first that is missing, whatever is acked behind it |
| BatchSenders.LastRunStands | pkg/transport/rabbitmq/sender.go:381-448 | over any number of runs the count is a prefix acknowledged within one of them, and it agrees with the error unless Process reports its own failure after a complete run |
| BatchSenders.OvertakenHappens | pkg/transport/rabbitmq/sender.go:381-448 | given a Process that reports a failure of its own behind a complete attempt, every batch can come with an error on top of all its messages |
| BatchSenders.Sender.PublishPipelined | pkg/transport/rabbitmq/sender.go:381-448 | the same for the retried callback as the code runs it |
| BatchSenders.Sender.Send | pkg/transport/rabbitmq/sender.go:156-250 | no error exactly when the last try delivered: written, and confirmed and not returned where the options ask for it |
| BatchSenders.Sender.SendSerial | pkg/transport/rabbitmq/sender.go:346-354 | the fallback reports the prefix delivered and the next message's own error |
| BatchSenders.Sender.Prepare | pkg/transport/rabbitmq/sender.go:316-333 | the messages before the first that cannot be encoded or routed, and that one's own error |
| BatchSenders.Sender.SendBatch | pkg/transport/rabbitmq/sender.go:308-342 | the batch contract: the first `sent` messages were acknowledged, an error that names a message names the next one and keeps its marker, and no error means all of them; the converse fails exactly where Process overrides a complete attempt |
| ConfirmModes.EveryScheduleKeeps | pkg/transport/rabbitmq/internal/publish/publish.go:131-191 | the handshake's invariant holds under every interleaving of callers and goroutines |
| ConfirmModes.AtMostOneRpc | pkg/transport/rabbitmq/internal/publish/publish.go:131-191 | at most one Confirm RPC is ever issued under one bookkeeping |
| ConfirmModes.RpcsAreBounded | pkg/transport/rabbitmq/internal/publish/publish.go:86-105 | a channel never sees more Confirm RPCs than the times it was forgotten, and one |
| ConfirmModes.SecondRpcExactlyOnceForgotten | pkg/transport/rabbitmq/internal/publish/publish.go:86-191 | without being forgotten again a channel can come to a second RPC if and only if it was forgotten |
| ConfirmModes.AnswersAreTrue | pkg/transport/rabbitmq/internal/publish/publish.go:173-190 | nil means the channel is enabled, an error is the broker's refusal or the caller's own context, and the "state was reset" branch is never taken |
| ConfirmModes.OutcomesArePermanent | pkg/transport/rabbitmq/internal/publish/publish.go:134-149 | success and refusal are permanent and exclude each other |
| ConfirmModes.AnswersAgree | pkg/transport/rabbitmq/internal/publish/publish.go:131-191 | two callers answered on one channel never disagree |
| ConfirmModes.ChannelState.Begin | pkg/transport/rabbitmq/internal/publish/publish.go:134-168 | the entry section answers from the outcome if there is one, joins a running attempt, or starts the only one |
| ConfirmModes.ChannelState.Finish | pkg/transport/rabbitmq/internal/publish/publish.go:157-168 | the goroutine's section records one of the two outcomes and ends the attempt |
| ConfirmModes.ChannelState.Enable | pkg/transport/rabbitmq/internal/publish/publish.go:131-191 | nil only when enabled, the sticky refusal, or an expired context; an outcome already known is answered at once; an attempt has been started by then, and a caller that looked gives up only while it is still under way |
| ConfirmModes.Confirms.StateFor | pkg/transport/rabbitmq/internal/publish/publish.go:86-105 | a known channel keeps its state, a new one gets a blank one, only retired channels are forgotten, and the map follows the shelf of all bookkeepings |

## Left out

- `StreamRelays.Relay.Run`: takes a limit on the number of passes, because the original loops until it is told to stop.
- `TidbStores.RelayStore.SweepMessages`: which of the deletable rows a limited DELETE picks is arbitrary, and the retention window enters only as a cutoff.
- `StreamClusters.Cluster.TryLead`: the stream relay's leadership answer is the environment's, since no stream promise depends on it; the lock statement itself is `TokenStores.RelayStore.TryAcquireLeaderLock`.
- `BatchSenders.Sender.Send`: a basic.return is taken as already attributed to its publish; the watch that attributes it depends on broker behaviour.
- `Leases.AtMostOneLeads`: one clock for all; instances whose clocks disagree are caught by the fence, which `TidbStores.RelayStore.CommitOffsetFenced` states.
- The sequencing transaction becomes visible at its COMMIT; a deadlock or a lost connection is a failure that may have committed.
- Message bodies are reduced to seqs and stream positions; reused scratch slices are values.
- The stream object is the process's one cursor in the protocol, and `streaming` stands for a stream that is not nil.
- A store that returns a nil event without an error: the type has no such value.
- Operator actions: DeleteOffset, DeleteToken and manual row repair reset a group's obligations on purpose.
- Timeouts, shutdown budgets and sleeping: a bounded call is a call that may fail.
- Telemetry: drained counts, lag, clock calibration, the leadership latch, log lines.
- The sequence runtime's Run: ticking and error reporting around RunOnce.
- Drivers, SQL and BSON transport, AMQP frames, and connection pooling beyond the tries of one Process call.
- Publish-side stores, codecs, content-type parsing, subscribers, the parking lot and the in-process transport: easy, or decided by libraries.
