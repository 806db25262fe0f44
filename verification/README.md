# The constellation op-log, modelled and proved

Every manager of a constellation keeps its users, its devices and its shared config domains by
applying one ordered log per *epoch*. The log is bounded (100 entries), delivery may repeat, reorder
and lose entries, processes die between any two writes, nodes join, reset and force a reform into the
next epoch. This project models that code as it is, with its branches, constants and error cases, and
proves what it is for: **replicas never diverge**.

It also proves, each on its own, the five algorithms around it that have to be right for every input:
the start order of a blueprint's services, the cutting of a JSON stream, cluster DNS, the merge of
tunnel heartbeats, the coalesced restart, and the address allocator.

Run `dafny verify dfyconfig.toml` to check everything.

## How it is laid out

- `Store.dfy`: the tables, their unique indexes, one mutation as one transaction. The physical order
  of rows is unknown to the program, so the model proves that it never shows.
- `Replay.dfy`: one log entry on one replica, replay of a whole log, death between an effect and the
  commit of its sequence, domain values that run ahead of the rows.
- `Node.dfy`: every decision and state change of one node as a function of its state.
- `OplogNode.dfy`: the same node as the program runs it, a class whose methods overwrite stored
  values and process-wide flags step by step. Each method is tied to the functions of `Node.dfy`.
- `Cluster.dfy`: many nodes, one log per epoch, snapshots in flight, and 30 kinds of steps. All
  timing, delivery order, crashes, lost replies and lost streams are nondeterminism in the steps.
  Leaving is four separate writes, between which anything may happen. An entry is only delivered from
  a stream the process has opened a subscription on, possibly long after the node has moved on.
  `seed`, `owner`, `home`, `ahead` and a draft's `materialized` are history variables that no decision
  reads.
- `Agreement.dfy`, `Verdicts.dfy`, `Runs.dfy`: invariants and theorems over all runs.
- `Witness.dfy`: for every hypothesis, a run without it that fails.
- `Blocking.dfy`, `Subjects.dfy`, `StallDetector.dfy`: the blocking of departed managers, the publish
  fence, the progress probe.
- `ServiceOrder.dfy`, `JsonSplit.dfy`, `ClusterDns.dfy`, `TunnelMerge.dfy`, `RestartQueue.dfy`,
  `IpAllocator.dfy`, with `Text.dfy` for strings: the algorithms.

## What agreement rests on

The program relies on timing, on which node happens to ask which, or on nothing, in eleven places. Each
is a hypothesis: a predicate on a step and the state it is taken in (`Cluster.MemberMeets`). Each theorem
names those it assumes:

- the rows of bootstrapped nodes agree under the first seven (`Agreement.RowsReplayTheLog`,
  `Agreement.ReplicasAgree`), whatever became of their domains;
- a writer is told what every replica finds under those and MaterializedReader
  (`Verdicts.VerdictIsEveryReplicas`);
- the domains agree under the first seven and the last three (`Agreement.DomainsReplayTheLog`).

Each is needed: `Witness.dfy` has, for each, a run from a fresh cluster that keeps to all ten others
and fails. Without one of the first seven, two bootstrapped nodes at one epoch and sequence hold
different rows; without MaterializedReader, a writer returns success where the replay has a constraint
error; without one of the last three, two bootstrapped nodes at the end of one log hold different
values of one config domain.

| hypothesis | what it says | without it |
|---|---|---|
| FrozenSeed | a licence holder does not write its rows around the log once they are the epoch's seed | `ThawedSeedDiverges` |
| FreshSetups | a setup, which empties the users locally, and a client's sync, which replaces the devices locally, run only on a node that is not bootstrapped | `SetupDiverges` |
| OneSeed | a licence is granted for, and a stream created at, an epoch nobody else holds, and no epoch's stream is created twice | `TwoLicencesDiverge` |
| SameEpoch | a node handles only entries of the epoch it is at | `ForeignEntryDiverges` |
| MaterializedServer | only a bootstrapped or licensed node answers snapshot requests | `StaleLatchDiverges` |
| MembersOnly | the loop of a node that is not enabled does not create, seed or install | `OutsiderDiverges` |
| WholeResets | a node that has begun to leave does not die, give up, serve, attach, join, found or reform until its position is gone | `TornResetDiverges` |
| MaterializedReader | a node handles an entry that a writer there still waits for only while bootstrapped and not leaving | `UnseatedReaderMisleads` |
| FrozenDomains | a licence holder does not write its domains around the log once they are the epoch's seed | `ThawedDomainsDiverge` |
| SteadyServer | a server has not moved back, moved on or begun to leave when it reads its domains | `MovedOnServerDiverges` |
| WholeInstalls | no domain of a snapshot fails to be written | `HalfInstallDiverges` |

A node between the first write of leaving and the one that drops its position is still marked
bootstrapped and has lost its devices; the theorems are about the other nodes (`Agreement.Counts`).

## Where the code and its documentation disagree

The model follows the code.

- `src/constellation/oplog_snapshot.go:77-86` says that no peer can obtain a formation writer's
  snapshot before the stream exists, so its store is frozen by then. But an unlicensed node asks for a
  snapshot before it is refused the creation (`src/constellation/oplog_apply.go:329`), a licensed node
  answers without being attached, and it writes directly until it has seen the stream: hence
  FrozenSeed.
- `src/constellation/api_get_ip.go:11-14` says that the address ending in .1 is skipped. It is not.

## What the proofs brought up

- An entry of another epoch is consumed: the sequence moves and the own entry in its place is lost
  (`src/constellation/oplog_apply.go:529-536`, `Witness.ForeignEntrySkips`).
- A bootstrapped standalone node that recreates its epoch's stream keeps its old sequence: it can take
  all entries of the new stream exactly when it stood at zero, and otherwise never takes the first
  ones (`Witness.RecreatedStreamIsSkipped`).
- The latch `oplogAttached` survives a join at a newer epoch, so the node can serve rows that are not
  that epoch's (`Witness.StaleLatchDiverges`).
- A licence holder whose fast-forward takes a reply's rows and then fails declares those rows the seed,
  and may subscribe below what the stream still holds (`OplogNode.HalfTakenReplyMisses`); it is the one
  exception in `OplogNode.Attach`.
- An install that fails after the rows leaves the node bootstrapped without some domains, and nothing
  repairs it later (`Witness.HalfInstallDiverges`).
- A fast-forward can report success while standing lower than before, when the stream it checks has
  been emptied; `Node.AcceptedMeansForward` says exactly when it cannot.
- A creator that dies between creating the stream and setting its marker leaves a stream without a
  seed exactly when it held no licence (`Runs.DyingCreatorLeavesSeedless`), and then no node is ever
  bootstrapped at that epoch without a new licence or the loss of the stream
  (`Runs.SeedlessStaysSeedless`).
- A reset deletes the devices before it drops the position (`src/constellation/nebula.go:388-403`). A
  death, or an error, in between leaves a bootstrapped member without devices
  (`Witness.TornResetDiverges`).
- A node that leaves keeps handling entries, and tells a writer that still waits what the entry comes
  to on a store without devices (`Witness.UnseatedReaderMisleads`).
- With the range 0.0.0.0/0 and every usable address taken the allocator never ends
  (`IpAllocator.WholeSpaceNeverEnds`).
- Two cluster DNS names that differ only in letter case make the lookup depend on the iteration order
  of a map; `ClusterDns.OneAnswerExactlyWhen` says exactly when.
- Two unnamed advertisers make a tunnel's configuration depend on the order of the heartbeats;
  `TunnelMerge.OneRouteExactlyWhenSettled` says exactly when.

## Model

| member | source | states |
|---|---|---|
| Agreement.RowsReplayTheLog | src/constellation/oplog_apply.go:297-448 | In every reachable state of every run under the seven row hypotheses, a bootstrapped node's rows are the replay of its epoch's whole log up to its recorded sequence over the epoch's one seed, entries beyond retention included, whether or not the installs it came from were finished |
| Agreement.DomainsReplayTheLog | src/constellation/oplog_snapshot.go:133-147 | Under the domain hypotheses too, its domains are the replay's once it has passed the position they were captured at, at the latest at the end of the log |
| Agreement.ReplicasAgree | src/constellation/oplog_apply.go:297-448 | Two bootstrapped nodes at the same epoch and sequence hold the same rows, under the row hypotheses alone |
| Agreement.StepKeepsInv | src/constellation/oplog_apply.go:297-542 | Every one of the 30 kinds of steps keeps every node, every snapshot in flight and every half-built snapshot in place in its epoch's log, for the rows alone and with the domains |
| Agreement.SnapshotThenTail | src/constellation/oplog_snapshot.go:133-147 | A snapshot of position s followed by entries s+1 to k gives the rows of the replay from the seed, and domains that agree from the capture position on |
| Agreement.NextPlaced | src/constellation/oplog_apply.go:566-596 | The next entry takes a replica in place to the next place, wherever its domains ran ahead to |
| Agreement.RowsApart | src/constellation/oplog_apply.go:544-597 | The domains of a replica influence neither what an entry does to the rows nor its verdict |
| Agreement.DeliverGood | src/constellation/oplog_apply.go:493-542 | Delivering any entry of the node's epoch, due or not, to a node bootstrapped or not, in the middle of leaving or not, leaves it in order |
| Agreement.DeliverInterruptedGood | src/constellation/oplog_apply.go:599-633 | So does a delivery whose process dies before the sequence is committed |
| Agreement.DeliverUncommittedGood | src/constellation/oplog_apply.go:621-632 | And one whose commit fails without a death: the domain is written, the loop halts |
| Agreement.CreateOk | src/constellation/oplog.go:363-391 | Creating an epoch's first stream, whether or not the creator lives to set its marker, leaves creator and world in order |
| Agreement.CaptureRowsOk | src/utils/store_op.go:295-311 | The rows a server reads in one transaction are those of the position read with them |
| Agreement.CaptureDomainsOk | src/constellation/oplog_snapshot.go:133-147 | Domains read after the rows belong to the rows' position and run ahead of it by no more than the server's own did |
| Agreement.InstallOk | src/constellation/oplog_snapshot.go:297-316 | An install puts the rows in place whatever part of the domains is written, and a whole one the domains too |
| Agreement.JoinGood | src/constellation/api_nebula_connect.go:177-262 | Joining at any epoch keeps the node in order |
| Agreement.LeavingGood | src/constellation/nebula.go:388-425 | Each of the four writes of leaving keeps the node in order, out of place only between the first and the third |
| Agreement.FoundOk | src/constellation/api_nebula_connect.go:136-150 | The licence of an unowned epoch makes its holder the owner and keeps the disk in order |
| Agreement.ReformOk | src/utils/store_op.go:135-161 | So does the licence a reform grants itself for the next epoch |
| Replay.InterruptedReplays | src/constellation/oplog_apply.go:611-632 | An entry interrupted after its effect replays to the same replica and the same verdict |
| Replay.DeathsDoNotShow | src/constellation/oplog_apply.go:566-632 | Wherever and however often the process dies along any log, halting entries included, replay reaches the replica of the run without deaths |
| Replay.FoldAppend | src/constellation/oplog_apply.go:16-19 | Replaying a log in two stretches is replaying it whole |
| Replay.AfterDomains | src/constellation/oplog_domains.go:295-314 | An entry sets exactly the domain it names; an empty file payload and an unknown domain set nothing |
| Replay.StepKeepsAhead | src/constellation/oplog_apply.go:599-633 | Domain values that ran ahead of the position stay explained by the rest of the log as the position moves |
| Replay.InterruptKeepsAhead | src/constellation/oplog_apply.go:621-632 | A death after a domain install leaves values at most one position ahead |
| Replay.FilesStay | src/constellation/oplog_domains.go:241-268 | A file the cluster holds is never lost again |
| Replay.CaptureLater | src/constellation/oplog_snapshot.go:133-147 | Domains captured at a later position are valid ones for the rows of an earlier position |
| Replay.InstallKeepsAhead | src/constellation/oplog_snapshot.go:297-316 | Installing a snapshot's domains over any local ones keeps what the snapshot says about every domain the cluster holds |
| Replay.PassedMeansAgree | src/constellation/oplog_snapshot.go:133-147 | Past the capture position the domains agree exactly |
| Node.DeliveryIsContiguous | src/constellation/oplog_apply.go:483-542 | For every delivery order with repeats, reordering and gaps, the processed entries are last+1, last+2, and so on, each once and in order, the recorded sequence is the last of them, and the replica is the replay of exactly that stretch |
| Node.InOrderTakesTheRest | src/constellation/oplog_apply.go:483-542 | A log delivered in order that halts nothing is taken from the entry after the position to its end |
| Node.ToldByOwnEntry | src/constellation/oplog.go:314-351 | Whatever the loop handles while a writer waits, the writer is told a verdict by its own entry alone, and it is the one the loop reached when it took that entry |
| Node.GivingUpDoesNotShow | src/constellation/oplog.go:276-319 | A refusal or a timeout promises nothing: whether a writer waits shows in nothing the loop does |
| Node.HandleDisk | src/constellation/oplog_apply.go:493-542 | A delivered entry either is the next one and moves rows and sequence together, or changes nothing on disk |
| Node.FastForwardTriple | src/constellation/oplog_snapshot.go:220-267 | However a fast-forward ends, the node holds its old epoch, sequence and rows or those of one non-empty reply whose epoch was not behind |
| Node.FastForwardAdvances | src/constellation/oplog_snapshot.go:253-264 | A node behind retention that catches up stands strictly further on at the epoch it meant, bootstrapped, and an attempt saw the stream still hold its next entry |
| Node.FastForwardExactly | src/constellation/oplog_snapshot.go:220-267 | A fast-forward succeeds exactly when, after answers that aged out, one arrives; the node then stands where that answer's snapshot stood; it leaves its epoch exactly when an answer leads on to a newer one |
| Node.AcceptedMeansForward | src/constellation/oplog_snapshot.go:253-264 | For a given stream report, every accepted reply moves the node forward exactly when the stream is not empty and starts beyond the node's next entry |
| Node.BootstrappedNeverDirect | src/constellation/oplog.go:100-178 | A bootstrapped member's write mode is never the direct one, whatever the mesh shows |
| Node.WriteModeExactly | src/constellation/oplog.go:100-178 | Refused exactly on a removed node, and on an unattached enabled one that has materialized, or sees a mesh with peers while unlicensed or after the stream was seen; published on the other attached nodes; direct on the rest |
| Verdicts.VerdictIsEveryReplicas | src/constellation/oplog.go:276-351 | A publisher that returns success or a constraint error returns the verdict of its entry on the one replay of that log on which every replica past the entry stands; a replica about to take the entry reaches the same; and the entry has one place in one log |
| Verdicts.RequestHasOnePlace | src/constellation/oplog.go:276-319 | A request stands at the place recorded for it and nowhere else |
| Verdicts.RunKeepsVerdicts | src/constellation/oplog.go:276-351 | Every run keeps every told verdict equal to the replay's |
| Verdicts.SecondClaimNeedsRelease | src/utils/store_mutation.go:55-151 | Of two entries of one log, inserts or updates of any number of rows, that put in rows claiming one unique key, the second can only be accepted if an entry after the first took the first row out |
| Verdicts.SecondInsertNeedsRelease | src/utils/store_schema.go:12-52 | Of two accepted inserts, of one row or many, that claim one key, an entry strictly between them released it |
| Runs.EpochsOnlyAdvance | src/constellation/oplog_snapshot.go:178-248 | Over every run, with no hypothesis, no node's epoch decreases |
| Runs.InstallsAreNeverEmpty | src/constellation/oplog_snapshot.go:155-216 | Only a local write, an entry of the log or the first write of leaving can take a store's last row away; an install never does |
| Runs.MarksAfter | src/utils/store_op.go:90-207 | What each kind of step does to epoch, bootstrap marker, licence and membership of the node that takes it |
| Runs.BootstrappedWritesThroughTheLog | src/constellation/oplog.go:100-178 | Once bootstrapped, no later step of any run lets a node write outside the log until a reset drops its position, it reforms or it joins at a newer epoch |
| Runs.RowsChangeThroughTheLog | src/constellation/oplog.go:206-274 | And then only a log entry, an install, the first write of leaving, and the two local writers that look at no write mode (setup, client sync) change its rows |
| Runs.AbandonedEpochStaysDead | src/constellation/oplog.go:402-458 | Once an epoch's stream is gone and all its managers are bootstrapped, unlicensed and see peers, and as long as they do and nobody enrolls, founds, leaves or reforms into it, no later step recreates it and every publish at it is refused; its nodes may move on, by reform or by enrolling into a newer epoch, at any time |
| Runs.SeedTakesLicence | src/constellation/oplog_apply.go:381-404 | On a stream that exists without a seed, a node of its epoch can neither seed itself, create it again nor subscribe |
| Runs.SeedlessStaysSeedless | src/constellation/oplog_apply.go:364-404 | And no run bootstraps a node at that epoch without a new licence, the loss of the stream, or an answer from a node of that epoch that has not materialized |
| Cluster.RetainsTheLast | src/constellation/oplog.go:363-391 | A stream holds its last hundred entries, or all of fewer |
| Runs.DyingCreatorLeavesSeedless | src/constellation/oplog_apply.go:355-367 | A creator that dies before its marker is set leaves the stream without a seed exactly when it was neither licensed nor bootstrapped |
| Subjects.EpochIsTheFence | src/constellation/oplog.go:50-77 | A subject matches an epoch's stream wildcard exactly when it names that epoch, whatever table or domain it is about |
| Subjects.SubjectTokens | src/constellation/oplog.go:63-77 | A subject has exactly six tokens whatever the target's name contains |
| Subjects.SanitizedAt | src/constellation/oplog.go:63-77 | A name keeps all but the five characters that mean something in a subject, and an empty one is an underscore |
| Subjects.StreamNamesDiffer | src/constellation/oplog.go:50-52 | Two epochs never share a stream name |
| Witness.ThawedSeedDiverges | src/constellation/oplog_apply.go:329-331 | A run without FrozenSeed alone in which two replicas' rows diverge |
| Witness.TwoLicencesDiverge | src/constellation/oplog.go:402-458 | A run without OneSeed alone in which rows diverge |
| Witness.ForeignEntryDiverges | src/constellation/oplog_apply.go:529-536 | A run without SameEpoch alone in which rows diverge |
| Witness.ForeignEntrySkips | src/constellation/oplog_apply.go:529-536 | A foreign entry leaves a node in place exactly when the own entry it displaces exists and would have changed no row |
| Witness.StaleLatchDiverges | src/constellation/oplog_snapshot.go:41-64 | A run without MaterializedServer alone in which rows diverge |
| Witness.OutsiderDiverges | src/constellation/oplog_snapshot.go:178-216 | A run without MembersOnly alone in which the rows of a node that has left and installs again diverge |
| Witness.SetupDiverges | src/constellation/NATS_client_only.go:84-110 | A run without FreshSetups alone in which rows diverge |
| Witness.TornResetDiverges | src/constellation/nebula.go:388-403 | A run without WholeResets alone in which rows diverge |
| Witness.UnseatedReaderMisleads | src/constellation/nebula.go:384-403 | A run without MaterializedReader alone in which a writer is told success where the replay has a constraint error |
| Witness.ThawedDomainsDiverge | src/constellation/oplog.go:251-259 | A run without FrozenDomains alone in which two replicas' domains diverge |
| Witness.MovedOnServerDiverges | src/constellation/oplog_snapshot.go:133-147 | A run without SteadyServer alone in which domains diverge |
| Witness.HalfInstallDiverges | src/constellation/oplog_snapshot.go:297-316 | A run without WholeInstalls alone in which domains diverge |
| Witness.RecreatedStreamIsSkipped | src/constellation/oplog.go:402-458 | A standalone node that recreates its stream at position a takes entries a+1 on and never 1 to a; it can take all of them exactly when a is zero |
| Witness.SomethingChanges | src/utils/store_mutation.go:69-87 | There is a store and a mutation for the witness runs |
| Witness.SomeActiveDevice | src/utils/store_schema.go:12-52 | There is a store with an active device for them |
| Store.ApplyTx | src/utils/store_mutation.go:55-177 | One mutation run over rows in scan order gives the verdict and rows of the order-free definition |
| Store.ApplyIgnoresOrder | src/utils/store_mutation.go:109-151 | Two replicas with the same rows in different physical orders reach the same verdict and the same rows |
| Store.ApplyKeepsConsistent | src/utils/store_schema.go:12-52 | Accepted mutations keep every unique index |
| Store.InsertVerdict | src/utils/store_mutation.go:313-339 | A one-row insert is rejected exactly when one of its unique keys is held, and holds them when accepted |
| Store.DeviceInsertVerdict | src/utils/store_schema.go:50-52 | On a consistent store a device is rejected exactly when it is in service and another in service has its name or its address, and is put in otherwise |
| Store.UserInsertVerdict | src/utils/store_schema.go:12-32 | On a consistent store a user is rejected exactly when another has the nickname, and is put in otherwise |
| Store.ConsistentMeansKeysApart | src/utils/store_schema.go:12-52 | A store is consistent exactly when no two users share a nickname and no two devices in service a name or an address |
| Store.RejectedExactly | src/utils/store_mutation.go:55-177 | Any well-formed mutation of a consistent store is rejected exactly when the table it would leave has two rows that share one of those keys, and leaves that table otherwise |
| Store.FaultExactly | src/utils/store_mutation.go:55-177 | A mutation is an error, and halts a replica, exactly when it names a table, a column or an operation the store does not have |
| Store.EncodesExactly | src/utils/store_op_codec.go:93-119 | And a publisher refuses exactly those, and updates that set nothing under an unknown name |
| Store.UpdateExact | src/utils/store_mutation.go:109-142 | An update sets exactly the given fields of exactly the matching rows, row by row, and touches no other table |
| Store.DeleteExact | src/utils/store_mutation.go:144-151 | A delete takes out every matching row and nothing else |
| Store.DeleteNeverRejected | src/utils/store_mutation.go:144-151 | A delete is never a constraint violation |
| Store.InsertManyVerdict | src/utils/store_mutation.go:89-107 | An accepted insert of many rows found the keys of each free and puts each in |
| Store.EncodedNeverFaults | src/utils/store_op_codec.go:93-119 | What a publisher is willing to write down never halts a replica |
| Store.NoConflictsIsUnique | src/utils/store_schema.go:12-52 | The pairwise check on any layout is the uniqueness of the table |
| OplogNode.OplogNode.HandleMsg | src/constellation/oplog_apply.go:493-542 | By sequence and content: on a halted loop or with an old sequence nothing changes; a gap detaches and changes nothing else; the next entry halts the loop and changes nothing else when it cannot be read, has an unknown version or kind, or faults; one of another epoch only moves the sequence; an accepted, rejected or domain entry moves it with its effect and tells its writer the verdict |
| OplogNode.OplogNode.ApplyEnvelope | src/constellation/oplog_apply.go:544-597 | Rows and sequence move together, the waiter learns the verdict, and everything else halts |
| OplogNode.OplogNode.ApplyDomainEnvelope | src/constellation/oplog_apply.go:599-633 | Domain first, sequence second; an empty file is skipped; an unknown domain only moves the sequence; an unreadable payload changes nothing |
| OplogNode.OplogNode.ApplyTableEnvelope | src/constellation/oplog_apply.go:566-596 | Accepted, rejected and failed mutations, with rows, sequence and waiter in each case |
| OplogNode.OplogNode.NotifyWaiter | src/constellation/oplog.go:340-351 | The first verdict is kept, a second one dropped, an unknown request ignored |
| OplogNode.OplogNode.AwaitVerdict | src/constellation/oplog.go:312-318 | While the loop goes on, the writer returns what it is told, or a timeout only after everything that came |
| OplogNode.OplogNode.PublishEnvelope | src/constellation/oplog.go:276-319 | Registered before publishing, released on every path, refused without a client even when best-effort; the result is the told verdict, a timeout, or a refusal, and the node is otherwise what the loop made of it |
| OplogNode.OplogNode.PublishOp | src/constellation/oplog.go:206-246 | A removed node, attached or not, and an unattached enabled one that has materialized, or that sees a mesh with peers and is unlicensed or has seen the stream, writes and offers nothing and is told read-only (a best-effort write is dropped); any other unattached node writes around the log, by the verdict of the store; any other attached one offers exactly its entry, or fails before that when it cannot be encoded |
| OplogNode.OplogNode.PublishDomainOp | src/constellation/oplog.go:251-274 | The same three cases for a domain's full state |
| OplogNode.OplogNode.InstallSnapshot | src/constellation/oplog_snapshot.go:297-316 | Epoch, position, rows and marker are the snapshot's; each domain it has is set, but for unknown ones and files that are not there, and every other domain and field stays |
| OplogNode.OplogNode.FastForwardLoop | src/constellation/oplog_snapshot.go:220-267 | The loop of five attempts succeeds exactly when, after answers that all aged out, one arrives: a non-empty reply of this epoch, installed, whose stream is empty or still holds its next entry; the node then stands where that reply stood; it leaves the epoch exactly when a reply leads on to a newer one |
| OplogNode.OplogNode.AdoptFromPeer | src/constellation/oplog_snapshot.go:178-216 | A reply is adopted exactly when it has rows and is of a newer epoch, or of this one while the node has not materialized, and it installs; position, rows and marker are then the reply's, and otherwise nothing changes |
| OplogNode.OplogNode.CatchUp | src/constellation/oplog_apply.go:352-411 | Exactly when a node gets ready to subscribe at its epoch: behind retention only by a fast-forward; else as it stands when it has materialized; else by a fast-forward or, with the licence, from its own store; when it was behind, it stands where a reply stood whose stream still held the next entry |
| OplogNode.OplogNode.Attach | src/constellation/oplog_apply.go:297-448 | Success exactly in the listed cases, the fast-forward of a node behind retention among them; only at the epoch it started for and bootstrapped there; and only where the stream it worked with is empty or starts at most at the next entry, or a reply of which that held was taken, with the one exception of a licence holder that declares half-taken rows the seed |
| OplogNode.OplogNode.FindStream | src/constellation/oplog_apply.go:312-338 | The stream is there, or a peer's snapshot sends the caller back, or this node is allowed to make it (never an agent; the licence holder, a node that is alone, or, before its first snapshot, one that has waited) and it or another does |
| OplogNode.OplogNode.Latch | src/constellation/oplog_apply.go:430-447 | The attached flag and its epoch are set, and the licence of this epoch, which has served, is cleared |
| OplogNode.CoveredIsRetained | src/constellation/oplog_apply.go:367-374 | Where the reports an attach worked with were true of the log, the next entry is among the last hundred or yet to come |
| OplogNode.HalfTakenReplyMisses | src/constellation/oplog_apply.go:381-404 | For any licence holder before its marker, a reply with an older position whose domains fail leaves it below what the stream holds, and it gets ready all the same |
| OplogNode.OplogNode.CheckAttachedStream | src/constellation/oplog_apply.go:147-193 | An attached node detaches exactly when the epoch moved under it, the stream is definitely gone, or the probe finds it stalled |
| OplogNode.OplogNode.AnswerSnapshotRequest | src/constellation/oplog_snapshot.go:41-131 | A reply exactly from a node that is not halted or removed, is attached or licensed, is not behind the asker and has rows; it holds this epoch, position and rows, and every known domain |
| OplogNode.OplogNode.WriteDirect | src/utils/store_op.go:219-236 | A direct write is the mutation without a sequence |
| OplogNode.OplogNode.JoinExisting | src/constellation/api_nebula_connect.go:177-262 | A newer epoch is taken and drops position and marker; an older or equal one changes neither; the node is enabled as manager or agent |
| OplogNode.OplogNode.FoundConstellation | src/constellation/api_nebula_connect.go:136-150 | Enabled as a manager, with the licence for the current epoch, and nothing else |
| OplogNode.OplogNode.ResetNebula | src/constellation/nebula.go:373-437 | Devices, licence, position, membership, in this order; a failure at each of the three transactions leaves exactly the state of the stage before; users, domains and epoch stay |
| OplogNode.OplogNode.ListManagers | src/constellation/api_force_reform.go:36-41 | The names of exactly the active managers, in the order the store lists them |
| OplogNode.OplogNode.BlockDeadManagers | src/constellation/api_force_reform.go:36-59 | The names reported are exactly those of the other active managers, in listing order; none of them stays active; this one alone does if it did; no row of another name is lost or revived |
| OplogNode.OplogNode.ReformEpoch | src/utils/store_op.go:135-161 | Next epoch, no position, no marker, the licence |
| OplogNode.OplogNode.ForceReform | src/constellation/api_force_reform.go:121-166 | The fence first, then the blocking, nothing else |
| OplogNode.FastForwardFacts | src/constellation/oplog_snapshot.go:220-267 | Success of a fast-forward means bootstrapped at the target epoch from one of the replies, and the licence is never touched |
| Blocking.BlockedLeavesOne | src/constellation/api_force_reform.go:36-59 | With the other listed managers blocked, this one is the only active manager left |
| Blocking.BlockAccepted | src/constellation/api_force_reform.go:36-59 | The store never rejects the blocking of a device |
| Blocking.BlockingBlocks | src/constellation/api_force_reform.go:36-59 | Blocking takes the name out of service, brings no other back, and loses no other row |
| StallDetector.Detector.NoteApplyProgress | src/constellation/oplog_apply.go:233-252 | It reports a dead subscription exactly when the log is ahead, the position is where it was, and two probes before saw that; it counts those, forgets them otherwise, and records the position |
| StallDetector.Detector.ArmStallDetector | src/constellation/oplog_apply.go:280-286 | Arming leaves one probe to go, never lowers the count, and keeps the position |
| StallDetector.Detector.ResetStallTracking | src/constellation/oplog_apply.go:290-295 | A reset forgets the count and takes the current position |
| StallDetector.UnarmedNeedsThreeProbes | src/constellation/oplog_apply.go:233-252 | Never armed, it fires only on the third probe in a row that saw the log ahead of one same position |
| StallDetector.ArmedNeedsOne | src/constellation/oplog_apply.go:280-286 | Once armed, a probe fires exactly when the log is ahead of the recorded position |
| StallDetector.FrozenIsReported | src/constellation/oplog_apply.go:233-295 | From any state, a position frozen below the log is reported within four probes, with arm hints anywhere between |
| StallDetector.PatienceRunsOut | src/constellation/oplog_apply.go:233-295 | And exactly how many probes each state can let pass |
| ServiceOrder.ReOrderServices | src/docker/api_blueprint.go:1110-1193 | Ends on every input; succeeds exactly when some order of all services puts each after everything it names, by a dependency or by the network it shares; returns one such order, each service as it was but for the shared container written into the dependencies it declares; the must-start flag is up exactly when some service shares a network or waits for another to be started or healthy |
| ServiceOrder.CheckDependencies | src/docker/api_blueprint.go:1130-1165 | Whether one service is ready, and the flag it raises, for every order of its dependencies |
| ServiceOrder.OrdersIsGood | src/docker/api_blueprint.go:1118-1165 | The dependencies the loop goes through are exactly the declared ones and the shared container |
| ServiceOrder.StuckMeansUnorderable | src/docker/api_blueprint.go:1170-1190 | A pass that places nothing proves that no order exists |
| JsonSplit.SplitJSONObjects | src/backups/restic.go:23-62 | The pieces stand in the output in order, within brackets, with exactly one comma between two; for well-formed objects in harmless noise the output is the text of the JSON array of exactly those objects |
| JsonSplit.ArrayText | src/backups/restic.go:23-62 | Joining the pieces cut from well-formed objects in harmless noise is writing down the array of these objects, which is well-formed |
| JsonSplit.OutputLaid | src/backups/restic.go:61-61 | Whatever the pieces, where each stands in the output and what stands between |
| JsonSplit.PiecesOfAnyInput | src/backups/restic.go:23-62 | On any input the pieces are disjoint, in order, and run from { to } |
| JsonSplit.SplitFindsTheObjects | src/backups/restic.go:23-62 | Any list of well-formed objects with quiet noise before, between and after them is cut into exactly those objects |
| JsonSplit.FoundExactlyWhenHarmless | src/backups/restic.go:23-62 | Well-formed objects in any noise at all are found, each where it stands and nothing else, exactly when each piece of noise before an object, scanned on its own, leaves the scanner as it began, and what follows the last one has no piece of its own |
| JsonSplit.StrayBraceHides | src/backups/restic.go:23-62 | Behind one stray closing brace an object is not found |
| ClusterDns.BuildClusterDNS | src/constellation/dns_cluster.go:63-104 | By the heartbeats' fields: a host is in the table exactly when it is a usable name, before any port, of a hostname or of a host-using route; it is tunneled exactly when a route gives it; its addresses are those of the heartbeats that give it, or the load balancers' for a tunneled one, without masks, ascending, each once |
| ClusterDns.NamedIsTold | src/constellation/dns_cluster.go:63-104 | The advertisements the loop adds name exactly the hosts the heartbeats give |
| ClusterDns.OffersIsTold | src/constellation/dns_cluster.go:63-104 | And offer exactly the addresses that belong to them |
| ClusterDns.AppendUniqueIP | src/constellation/dns_cluster.go:106-122 | The slice insertion is ordered insertion of the cleaned address |
| ClusterDns.WithIpsSpec | src/constellation/dns_cluster.go:106-122 | Ordered insertion gives an ascending list of exactly the addresses offered |
| ClusterDns.AddedMerged | src/constellation/dns_cluster.go:66-81 | One more advertisement keeps the table equal to what the advertisements say |
| ClusterDns.OrderDoesNotShow | src/constellation/dns_cluster.go:63-104 | Heartbeats in any other order, even repeated, give the same table |
| ClusterDns.MatchesOnLabels | src/constellation/dns_match.go:15-19 | A match is exactly equality of labels at the end of the query |
| ClusterDns.ClusterDNSLookup | src/constellation/dns_cluster.go:131-146 | No match is longer than the answer, no tunneled one of its length is passed over for a plain one, and there is no answer when nothing matches |
| ClusterDns.LookupIsLongest | src/constellation/dns_cluster.go:131-146 | With keys that differ by more than letter case the answer is the unique longest match, and none exactly when nothing matches |
| ClusterDns.OneAnswerExactlyWhen | src/constellation/dns_cluster.go:131-146 | Every query has one answer for every walk exactly when no name stands under two spellings that are both tunneled, or both plain with no tunneled third |
| ClusterDns.SameNameTwice | src/constellation/dns_cluster.go:131-146 | A table and a query with two answers |
| TunnelMerge.MergeTunnelHeartbeats | src/constellation/tunnels.go:590-643 | By the heartbeats' fields: one tunnel for each name some route for this node has; each target as often as it is advertised; the local node first wherever it appears; the route, marked as tunneled, is the first one of the device that all other advertisers yield to |
| TunnelMerge.Record | src/constellation/tunnels.go:597-624 | One eligible route adds one target and governs when its advertiser is named and lesser |
| TunnelMerge.PutLocalFirst | src/constellation/tunnels.go:629-637 | The swap keeps the targets, exchanges two places, and ends with the local node first if there is one |
| TunnelMerge.OneTargetPerPair | src/constellation/tunnels.go:597-617 | Each eligible (heartbeat, route) pair becomes exactly one target |
| TunnelMerge.GovernorIsLeading | src/constellation/tunnels.go:597-624 | The offer that governs is the first advertised route of the least named device, of an unnamed one only when all are |
| TunnelMerge.NamedOneSettles | src/constellation/tunnels.go:586-624 | With distinct names and a named advertiser, the route is that of the least non-empty name |
| TunnelMerge.OneRouteExactlyWhenSettled | src/constellation/tunnels.go:586-624 | A name has one route for every order of the heartbeats exactly when the heartbeats that could govern lead with the same route |
| TunnelMerge.OrderDoesNotShow | src/constellation/tunnels.go:590-643 | Two merges of reordered heartbeats have the same names, the same targets, and the same settled routes |
| TunnelMerge.UnnamedFlap | src/constellation/tunnels.go:586-624 | Two unnamed advertisers with no one route |
| RestartQueue.NothingIsLost | src/constellation/nebula.go:292-340 | Under every interleaving at most one reactive restart is queued, at most one restart runs, and every request is served by a restart that began after it or is on its way |
| RestartQueue.EveryRequestIsServed | src/constellation/nebula.go:292-340 | With no new request every schedule ends, and where it ends a restart has begun after every request and flag and mutex are down |
| RestartQueue.StuckIsDone | src/constellation/nebula.go:292-299 | No schedule gets stuck before all callers are done |
| RestartQueue.BurstIsOne | src/constellation/nebula.go:313-340 | A burst of requests starts at most one goroutine |
| IpAllocator.IncrementIP | src/constellation/api_get_ip.go:46-53 | Carrying through the bytes in place is adding one modulo 256 to their number |
| IpAllocator.GetNextAvailableIP | src/constellation/api_get_ip.go:15-43 | The least address of the interval from the base on whose last byte is neither 0 nor 255 and of which no spelling is in use, spelled as four numbers without leading zeros and dots between; empty exactly when there is none |
| IpAllocator.RangeIsInterval | src/constellation/api_get_ip.go:29-29 | A range is an interval of 2^(32 - prefix) addresses that ends within the 32-bit space |
| IpAllocator.DottedInjective | src/constellation/api_get_ip.go:33-36 | The text names the address |
| IpAllocator.SpellsIsDotted | src/constellation/api_get_ip.go:33-36 | The text is the one way to spell the four numbers |
| IpAllocator.WholeSpaceNeverEnds | src/constellation/api_get_ip.go:29-40 | With prefix 0 and nothing free no iteration ends the search |

## Left out

- GetNextAvailableIP: requires a free address when the prefix is 0, because without one the program does not end (`IpAllocator.WholeSpaceNeverEnds`). Parsing of the range text belongs to the Go library and is a parameter; a text that does not parse and an IPv6 range both yield no address.
- VerdictIsEveryReplicas: makes no claim about a publish that times out or is refused, since the program promises nothing there; such an entry can still be stored and applied (`Node.GivingUpDoesNotShow`).
- PublishEnvelope: while the writer waits, the loop handles entries; other steps of the node during the wait are what the cluster model covers.
- DomainsReplayTheLog: a file the cluster has never held says nothing about a local copy, because an empty file payload is skipped on purpose.
- SplitFindsTheObjects: the grammar takes any quote-free, brace-free token as a number or literal, which is more than RFC 8259 allows.
- MatchesOnLabels: letter case is the ASCII case that section 3 of RFC 4343 compares.
- Attach: the answers of the outside (stream report, replies, creation, subscription) are parameters; the interleaving of its stages with other steps is what the cluster model covers.
- CheckAttachedStream: the pacing between two checks is not part of this model; whether the probe finds the node stalled is what `StallDetector` is about.
- ResetNebula: the certificate files and processes it removes are not part of this model.
- FoundConstellation: certificates and configuration texts are not part of this model.
- Retention is judged where the code judges it, on the reports an attach works with (`OplogNode.Covered`). In the cluster model a node may subscribe wherever it stands, and a subscription may bring any entry its log ever held, which is more than the stream can deliver.
- Error texts, log output and wall-clock pacing: replaced by outcomes and nondeterministic steps.
- Whether a node finds itself blocked, alone or with its mesh up is environment: it may change at any step. Request ids are taken to be unique.
- SQLite's engine: a statement's uniqueness is judged on the table it leaves; a row and its sequence commit together. Times, tags and JSON encoding of columns are values.
- Turning `Enabled` off by hand in the configuration is not a step; leaving is.
- Replica counts, stream placement, leader election, TLS and the transport.
- Reactions to applied entries (restarting services, reloading DNS) change nothing the op-log reads back.
- HTTP handlers, permissions, cron, OpenID and the user interface.
