/**
 One node of a constellation: what it persists, what it only remembers, what the
 mesh shows it, and every decision and state change of its op-log code as a
 function of that state.
 */
module Node {
  import opened Store
  import opened Replay

  /** SQLite (the tables, the op-log position and its two epoch-tied markers) and the config files. */
  datatype Disk = Disk(
    rows: Rows,
    domains: Domains,
    epoch: nat,
    applied: nat,
    bootMark: nat,
    licMark: nat,
    enabled: bool,
    agent: bool)

  /** A writer blocked on its own entry: still waiting, or told the verdict. */
  datatype Waiter = Waiting | Told(verdict: Verdict)

  /** What a publish returns to its caller. */
  datatype Published = Done | ConstraintError | ReadOnlyError | ApplyTimeout | Failed

  /** What a writer returns when it stops waiting: the verdict it was told, or a timeout. */
  function Returned(w: Waiter): Published {
    match w
    case Waiting => ApplyTimeout
    case Told(v) => if v == Constraint then ConstraintError else Done
  }

  datatype Memory = Memory(
    streamSeen: bool,
    attached: bool,
    attachedEpoch: nat,
    halted: bool,
    waiters: map<string, Waiter>)

  /** What the node sees of the mesh at the moment. */
  datatype Mesh = Mesh(nebulaUp: bool, alone: bool, selfBlocked: bool)

  datatype Node = Node(disk: Disk, mem: Memory, mesh: Mesh)

  /** Both markers hold the epoch they were set for, so an epoch move drops them by itself. */
  predicate Bootstrapped(d: Disk) {
    d.bootMark == d.epoch
  }

  predicate Licensed(d: Disk) {
    d.licMark == d.epoch
  }

  predicate Standalone(n: Node) {
    !n.disk.enabled || n.mesh.alone
  }

  function ReplicaOf(d: Disk): Replica {
    Replica(d.rows, d.domains)
  }

  function WithReplica(d: Disk, s: Replica): Disk {
    d.(rows := s.rows, domains := s.domains)
  }

  // ----- decisions

  datatype Mode = Direct | Publish | ReadOnly

  function WriteMode(n: Node): Mode {
    if n.mesh.selfBlocked then ReadOnly
    else if n.mem.attached then Publish
    else if !n.disk.enabled then Direct
    else if Bootstrapped(n.disk) then ReadOnly
    else if Standalone(n) then Direct
    else if !n.mesh.nebulaUp then Direct
    else if Licensed(n.disk) && !n.mem.streamSeen then Direct
    else ReadOnly
  }

  /** The states in which a write is refused: the node has been removed; or it follows no log now and
      either has materialized from one, or knows of peers and a mesh and is not the one that may write
      before there is a log. */
  predicate MustNotWrite(n: Node) {
    || n.mesh.selfBlocked
    || (&& !n.mem.attached && n.disk.enabled
        && (|| n.disk.bootMark == n.disk.epoch
            || (n.mesh.nebulaUp && !n.mesh.alone && (n.disk.licMark != n.disk.epoch || n.mem.streamSeen))))
  }

  /** A write is refused in exactly those states, published in the others while a log is followed, and
      made around the log in the rest. */
  lemma WriteModeExactly(n: Node)
    ensures WriteMode(n) == ReadOnly <==> MustNotWrite(n)
    ensures WriteMode(n) == Publish <==> n.mem.attached && !n.mesh.selfBlocked
    ensures WriteMode(n) == Direct <==> !n.mem.attached && !MustNotWrite(n)
  {
  }

  /** Whether this node may create the missing log of its epoch; `waited` is the fallback window. */
  predicate MayCreate(n: Node, waited: bool) {
    if n.disk.agent then false
    else if Licensed(n.disk) then true
    else if Bootstrapped(n.disk) then Standalone(n)
    else Standalone(n) || waited
  }

  predicate MayServe(n: Node) {
    !n.mem.halted && !n.mesh.selfBlocked && (n.mem.attached || Licensed(n.disk))
  }

  datatype SeqAction = Process | Skip | Gap

  function SeqActionOf(k: nat, last: nat): SeqAction {
    if k <= last then Skip
    else if k > last + 1 then Gap
    else Process
  }

  // ----- the apply loop

  /** The channel holds one verdict; a second one is dropped. */
  function Notify(waiters: map<string, Waiter>, reqId: string, v: Verdict): map<string, Waiter> {
    if reqId in waiters && waiters[reqId] == Waiting then waiters[reqId := Told(v)] else waiters
  }

  /** What consuming entry `k` changes on disk, and what it changes in memory. */
  function Settle(n: Node, k: nat, entry: Entry, c: Consumption): Node {
    match c
    case Halts => n.(mem := n.mem.(halted := true))
    case Consumed(s, v) =>
      n.(disk := WithReplica(n.disk, s).(applied := k),
         mem := if v == Silent || entry.Garbled? then n.mem
                else n.mem.(waiters := Notify(n.mem.waiters, entry.reqId, v)))
  }

  /** Entry `k` handed to the apply loop. */
  ghost function Handle(n: Node, k: nat, entry: Entry): Node {
    if n.mem.halted then n
    else
      match SeqActionOf(k, n.disk.applied)
      case Skip => n
      case Gap => n.(mem := n.mem.(attached := false))
      case Process => Settle(n, k, entry, Consume(ReplicaOf(n.disk), n.disk.epoch, entry))
  }

  /** A restart keeps what is on disk and forgets the rest. */
  function Restarted(n: Node): Node {
    Node(n.disk, Memory(false, false, 0, false, map[]), n.mesh.(nebulaUp := false))
  }

  /** Entry `k` handed to the apply loop of a process that dies before committing its sequence. */
  ghost function HandleInterrupted(n: Node, k: nat, entry: Entry): Node {
    if n.mem.halted || SeqActionOf(k, n.disk.applied) != Process then Restarted(n)
    else Restarted(n.(disk := WithReplica(n.disk, Interrupted(ReplicaOf(n.disk), n.disk.epoch, entry))))
  }

  /** Entry `k` handed to the apply loop of a process that cannot commit its sequence, or its rows with
      it: a domain stays written, nothing else does, and the loop halts. */
  ghost function HandleUncommitted(n: Node, k: nat, entry: Entry): Node {
    if n.mem.halted || SeqActionOf(k, n.disk.applied) != Process then Handle(n, k, entry)
    else n.(disk := WithReplica(n.disk, Interrupted(ReplicaOf(n.disk), n.disk.epoch, entry)),
            mem := n.mem.(halted := true))
  }

  /** A writer waits for this entry. */
  predicate Awaits(n: Node, entry: Entry) {
    entry.Envelope? && entry.reqId in n.mem.waiters && n.mem.waiters[entry.reqId] == Waiting
  }

  // ----- a writer that waits

  /** An entry handed to the loop. */
  datatype Delivery = Delivery(k: nat, entry: Entry)

  ghost function AfterEach(n: Node, ds: seq<Delivery>): Node
    decreases |ds|
  {
    if ds == [] then n
    else Handle(AfterEach(n, ds[..|ds| - 1]), ds[|ds| - 1].k, ds[|ds| - 1].entry)
  }

  /** A best-effort write does not wait. */
  function Expects(n: Node, reqId: string, bestEffort: bool): Node {
    if bestEffort then n else n.(mem := n.mem.(waiters := n.mem.waiters[reqId := Waiting]))
  }

  function Forgets(n: Node, reqId: string): Node {
    n.(mem := n.mem.(waiters := n.mem.waiters - {reqId}))
  }

  /** What a writer returns that stops waiting now. */
  function ResultOf(n: Node, reqId: string): Published {
    if reqId in n.mem.waiters then Returned(n.mem.waiters[reqId]) else ApplyTimeout
  }

  lemma HandleKeepsWaiters(n: Node, k: nat, entry: Entry)
    ensures Handle(n, k, entry).mem.waiters.Keys == n.mem.waiters.Keys
  {
  }

  lemma {:induction false} EachKeepsWaiters(n: Node, ds: seq<Delivery>)
    ensures AfterEach(n, ds).mem.waiters.Keys == n.mem.waiters.Keys
    decreases |ds|
  {
    if ds != [] {
      var i := |ds| - 1;
      EachKeepsWaiters(n, ds[..i]);
      HandleKeepsWaiters(AfterEach(n, ds[..i]), ds[i].k, ds[i].entry);
    }
  }

  lemma {:induction false} EachAppend(n: Node, a: seq<Delivery>, b: seq<Delivery>)
    ensures AfterEach(n, a + b) == AfterEach(AfterEach(n, a), b)
    decreases |b|
  {
    if b == [] {
      assert a + b == a;
    } else {
      var i := |b| - 1;
      assert (a + b)[..|a + b| - 1] == a + b[..i];
      EachAppend(n, a, b[..i]);
    }
  }

  /** The loop takes this delivery, which is request `reqId`, with this verdict. */
  ghost predicate Tells(n: Node, d: Delivery, reqId: string, v: Verdict) {
    && Takes(n, d.k, d.entry) && d.entry.Envelope? && d.entry.reqId == reqId && v != Silent
    && Consume(ReplicaOf(n.disk), n.disk.epoch, d.entry).verdict == v
  }

  lemma ToldByHandling(n: Node, d: Delivery, reqId: string)
    requires reqId in n.mem.waiters && n.mem.waiters[reqId] == Waiting
    ensures var w := Handle(n, d.k, d.entry).mem.waiters;
            reqId in w && (w[reqId].Told? ==> Tells(n, d, reqId, w[reqId].verdict))
  {
  }

  lemma ToldStaysTold(n: Node, k: nat, entry: Entry, reqId: string)
    requires reqId in n.mem.waiters && n.mem.waiters[reqId].Told?
    ensures var w := Handle(n, k, entry).mem.waiters; reqId in w && w[reqId] == n.mem.waiters[reqId]
  {
  }

  /** A writer is told a verdict by its own entry alone, and it is the verdict the loop reached when it
      took that entry, the first time it came. */
  lemma {:induction false} ToldByOwnEntry(n: Node, ds: seq<Delivery>, reqId: string) returns (i: nat)
    requires ResultOf(AfterEach(Expects(n, reqId, false), ds), reqId) != ApplyTimeout
    ensures i < |ds|
    ensures var m := AfterEach(Expects(n, reqId, false), ds);
            reqId in m.mem.waiters && m.mem.waiters[reqId].Told? &&
            Tells(AfterEach(Expects(n, reqId, false), ds[..i]), ds[i], reqId, m.mem.waiters[reqId].verdict)
    decreases |ds|
  {
    var start, last := Expects(n, reqId, false), |ds| - 1;
    EachKeepsWaiters(start, ds);
    assert ds != [];
    var before := AfterEach(start, ds[..last]);
    EachKeepsWaiters(start, ds[..last]);
    if before.mem.waiters[reqId] == Waiting {
      ToldByHandling(before, ds[last], reqId);
      i := last;
    } else {
      ToldStaysTold(before, ds[last].k, ds[last].entry, reqId);
      i := ToldByOwnEntry(n, ds[..last], reqId);
      assert ds[..last][..i] == ds[..i];
    }
  }

  /** The two nodes differ in their waiters at most. */
  predicate SameButWaiters(a: Node, b: Node) {
    a.disk == b.disk && a.mesh == b.mesh && a.mem.(waiters := map[]) == b.mem.(waiters := map[])
  }

  lemma WaitersDoNotShow(a: Node, b: Node, k: nat, entry: Entry)
    requires SameButWaiters(a, b)
    ensures SameButWaiters(Handle(a, k, entry), Handle(b, k, entry))
  {
  }

  /** Whether a writer still waits, has given up, or never waited shows nowhere else: an entry whose
      writer was refused or timed out does all it does otherwise. */
  lemma {:induction false} GivingUpDoesNotShow(a: Node, b: Node, ds: seq<Delivery>)
    requires SameButWaiters(a, b)
    ensures SameButWaiters(AfterEach(a, ds), AfterEach(b, ds))
    decreases |ds|
  {
    if ds != [] {
      var i := |ds| - 1;
      GivingUpDoesNotShow(a, b, ds[..i]);
      WaitersDoNotShow(AfterEach(a, ds[..i]), AfterEach(b, ds[..i]), ds[i].k, ds[i].entry);
    }
  }

  // ----- snapshots

  const ALL_DOMAINS: set<Domain> :=
    {AuthKeys, Dns, ApiTokens, Roles, OpenIdClients, Database, FileCaCrt, FileCaKey, FileRclone}

  /** Every registered domain's current value; a file that is not there is the empty payload. */
  function CapturedDomains(m: Domains): Domains {
    map[AuthKeys := ValueOf(m, AuthKeys), Dns := ValueOf(m, Dns), ApiTokens := ValueOf(m, ApiTokens),
        Roles := ValueOf(m, Roles), OpenIdClients := ValueOf(m, OpenIdClients), Database := ValueOf(m, Database),
        FileCaCrt := ValueOf(m, FileCaCrt), FileCaKey := ValueOf(m, FileCaKey), FileRclone := ValueOf(m, FileRclone)]
  }

  datatype Snapshot = Snapshot(epoch: nat, at: nat, rows: Rows, domains: Domains)

  function Restrict(m: Domains, keep: set<Domain>): Domains {
    m - (m.Keys - keep)
  }

  /** Rows, position and marker change in one transaction; then the domains, one by one. */
  function Install(d: Disk, s: Snapshot): Disk {
    d.(rows := s.rows, epoch := s.epoch, applied := s.at, bootMark := s.epoch,
       domains := InstallDomains(d.domains, s.domains))
  }

  /** An install whose domain step fails leaves only some of the domains written. */
  function InstallPartly(d: Disk, s: Snapshot, written: set<Domain>): Disk {
    Install(d, s.(domains := Restrict(s.domains, written)))
  }

  datatype StreamInfo = Unavailable | Info(msgs: nat, firstSeq: nat)

  datatype InstallResult = Installed | DumpRefused | DomainsFailed(written: set<Domain>)

  /** What one fast-forward attempt meets: a peer's reply or none, how the install went, and what
      the stream then reports. */
  datatype Answer = NoReply | Reply(snap: Snapshot, result: InstallResult, info: StreamInfo)

  datatype Catchup = CaughtUp | Unanswered | EmptyReply | StaleReply | InstallFailed | EpochMoved | NoInfo | Outrun

  const FAST_FORWARD_ATTEMPTS: nat := 5

  /** The stream still holds the entry after `at`, or holds none at all. */
  predicate Covers(info: StreamInfo, at: nat) {
    info.Info? && (info.msgs == 0 || info.firstSeq <= at + 1)
  }

  /** How one attempt ends, or `Outrun` when the loop has to go round again. */
  function Attempt(d: Disk, epoch: nat, a: Answer): Catchup {
    match a
    case NoReply => Unanswered
    case Reply(snap, result, info) =>
      if IsEmpty(snap.rows) then EmptyReply
      else if snap.epoch < d.epoch then StaleReply
      else if !result.Installed? then InstallFailed
      else if snap.epoch != epoch then EpochMoved
      else if info.Unavailable? then NoInfo
      else if Covers(info, snap.at) then CaughtUp
      else Outrun
  }

  /** What one attempt leaves on disk. */
  function AttemptDisk(d: Disk, a: Answer): Disk {
    match a
    case NoReply => d
    case Reply(snap, result, _) =>
      if IsEmpty(snap.rows) || snap.epoch < d.epoch || result.DumpRefused? then d
      else if result.DomainsFailed? then InstallPartly(d, snap, result.written)
      else Install(d, snap)
  }

  datatype FastForwarded = FastForwarded(disk: Disk, outcome: Catchup)

  /** The retry loop: one attempt per answer. */
  function FastForward(d: Disk, epoch: nat, answers: seq<Answer>): FastForwarded
    decreases |answers|
  {
    if answers == [] then FastForwarded(d, Outrun)
    else if Attempt(d, epoch, answers[0]) == Outrun then FastForward(AttemptDisk(d, answers[0]), epoch, answers[1..])
    else FastForwarded(AttemptDisk(d, answers[0]), Attempt(d, epoch, answers[0]))
  }

  // ----- attaching

  /** Declaring the local store to be the state of the epoch, as founder. */
  function Seeded(n: Node): Node {
    n.(disk := n.disk.(bootMark := n.disk.epoch), mem := n.mem.(streamSeen := true))
  }

  /** The end of a successful attach; clearing the licence may fail and is only logged then. */
  function Subscribed(n: Node, cleared: bool): Node {
    n.(disk := if Licensed(n.disk) && cleared then n.disk.(licMark := 0) else n.disk,
       mem := n.mem.(attached := true, attachedEpoch := n.disk.epoch, streamSeen := true))
  }

  // ----- membership

  /** Enrolling with a bundle that names `epoch`; the stored epoch only ever moves forward. */
  function Joined(d: Disk, epoch: nat, agent: bool): Disk {
    if epoch > d.epoch
    then d.(epoch := epoch, applied := 0, bootMark := 0, enabled := true, agent := agent)
    else d.(enabled := true, agent := agent)
  }

  /** Creating a constellation here: the licence for the current epoch. */
  function Founded(d: Disk): Disk {
    d.(enabled := true, agent := false, licMark := d.epoch)
  }

  // Leaving takes four separate writes, and the apply loop is not touched by any of them.

  /** The devices go, once the mesh is down. */
  function Wiped(n: Node): Node {
    n.(disk := n.disk.(rows := n.disk.rows.(devices := multiset{})), mesh := n.mesh.(nebulaUp := false))
  }

  /** The licence goes. */
  function Unlicensed(n: Node): Node {
    n.(disk := n.disk.(licMark := 0))
  }

  /** The position goes, and the bootstrap marker with it. */
  function Dropped(n: Node): Node {
    n.(disk := n.disk.(applied := 0, bootMark := 0))
  }

  /** The latch and the configuration go; the epoch stays. */
  function Departed(n: Node): Node {
    n.(disk := n.disk.(enabled := false, agent := false), mem := n.mem.(streamSeen := false))
  }

  /** The first transaction and the teardown of a force-reform. */
  function Reformed(n: Node): Node {
    n.(disk := n.disk.(epoch := n.disk.epoch + 1, applied := 0, bootMark := 0, licMark := n.disk.epoch + 1),
       mem := n.mem.(streamSeen := false, attached := false))
  }

  /** Blocking one departed manager, a local write. */
  function BlockMutation(device: string): Mutation {
    Mutation(Devices, Update(map[DeviceName := device, Blocked := "0"], map[Blocked := "1"]))
  }

  /** A write that bypasses the log: the rows change only if the mutation is accepted. */
  ghost function Wrote(rows: Rows, m: Mutation): Rows {
    match Apply(rows, m)
    case Accepted(rows') => rows'
    case Rejected => rows
    case Fault => rows
  }

  // ----- when a fast-forward succeeds

  /** A reply with rows, of this epoch, that was installed whole, and after which the stream answered. */
  predicate Lands(a: Answer, e: nat) {
    && a.Reply? && (a.snap.rows.users != multiset{} || a.snap.rows.devices != multiset{})
    && a.snap.epoch == e && a.result.Installed? && a.info.Info?
  }

  /** And the stream still holds the entry after the snapshot, or nothing. */
  predicate Arrives(a: Answer, e: nat) {
    Lands(a, e) && (a.info.msgs == 0 || a.info.firstSeq <= a.snap.at + 1)
  }

  /** Or the entry after the snapshot has aged out in the meantime. */
  predicate Ages(a: Answer, e: nat) {
    Lands(a, e) && a.info.msgs > 0 && a.info.firstSeq > a.snap.at + 1
  }

  /** Some answer arrives, and all before it aged out. */
  predicate CatchesUp(answers: seq<Answer>, e: nat) {
    exists i :: 0 <= i < |answers| && Arrives(answers[i], e) && AgedUntil(answers, i, e)
  }

  predicate AgedUntil(answers: seq<Answer>, i: int, e: nat)
    requires 0 <= i <= |answers|
  {
    forall j | 0 <= j < i :: Ages(answers[j], e)
  }

  /** A reply of a newer epoch whose rows were installed. */
  predicate LeadsOn(a: Answer, e: nat) {
    && a.Reply? && (a.snap.rows.users != multiset{} || a.snap.rows.devices != multiset{})
    && a.snap.epoch > e && !a.result.DumpRefused?
  }

  /** Some answer leads on to a newer epoch, and all before it aged out. */
  predicate MovesOn(answers: seq<Answer>, e: nat) {
    exists i :: 0 <= i < |answers| && LeadsOn(answers[i], e) && AgedUntil(answers, i, e)
  }

  lemma AgedUntilNext(all: seq<Answer>, a: Answer, rest: seq<Answer>, i: int, e: nat)
    requires all == [a] + rest && 0 <= i <= |rest|
    ensures AgedUntil(all, i + 1, e) <==> Ages(a, e) && AgedUntil(rest, i, e)
  {
    if AgedUntil(all, i + 1, e) {
      assert all[0] == a;
      forall j | 0 <= j < i ensures Ages(rest[j], e) {
        assert all[j + 1] == rest[j];
      }
    }
  }

  lemma CatchesUpNext(a: Answer, rest: seq<Answer>, e: nat)
    ensures CatchesUp([a] + rest, e) <==> Arrives(a, e) || (Ages(a, e) && CatchesUp(rest, e))
  {
    var all := [a] + rest;
    if Arrives(a, e) {
      assert Arrives(all[0], e) && AgedUntil(all, 0, e);
    } else if Ages(a, e) && CatchesUp(rest, e) {
      var i :| 0 <= i < |rest| && Arrives(rest[i], e) && AgedUntil(rest, i, e);
      AgedUntilNext(all, a, rest, i, e);
      assert all[i + 1] == rest[i];
    } else if CatchesUp(all, e) {
      var i :| 0 <= i < |all| && Arrives(all[i], e) && AgedUntil(all, i, e);
      assert all[0] == a && all[i] == rest[i - 1];
      AgedUntilNext(all, a, rest, i - 1, e);
    }
  }

  lemma MovesOnNext(a: Answer, rest: seq<Answer>, e: nat)
    ensures MovesOn([a] + rest, e) <==> LeadsOn(a, e) || (Ages(a, e) && MovesOn(rest, e))
  {
    var all := [a] + rest;
    if LeadsOn(a, e) {
      assert LeadsOn(all[0], e) && AgedUntil(all, 0, e);
    } else if Ages(a, e) && MovesOn(rest, e) {
      var i :| 0 <= i < |rest| && LeadsOn(rest[i], e) && AgedUntil(rest, i, e);
      AgedUntilNext(all, a, rest, i, e);
      assert all[i + 1] == rest[i];
    } else if MovesOn(all, e) {
      var i :| 0 <= i < |all| && LeadsOn(all[i], e) && AgedUntil(all, i, e);
      assert all[0] == a && all[i] == rest[i - 1];
      AgedUntilNext(all, a, rest, i - 1, e);
    }
  }

  /** One attempt at the node's own epoch. */
  lemma AttemptExactly(d: Disk, a: Answer)
    ensures Attempt(d, d.epoch, a) == CaughtUp <==> Arrives(a, d.epoch)
    ensures Attempt(d, d.epoch, a) == Outrun <==> Ages(a, d.epoch)
    ensures Ages(a, d.epoch) || Arrives(a, d.epoch) ==>
              && AttemptDisk(d, a).epoch == d.epoch && AttemptDisk(d, a).bootMark == d.epoch
              && AttemptDisk(d, a).applied == a.snap.at && AttemptDisk(d, a).rows == a.snap.rows
    ensures AttemptDisk(d, a).epoch != d.epoch <==> LeadsOn(a, d.epoch)
  {
  }

  /** A fast-forward at the node's own epoch succeeds exactly when some answer arrives after others that
      aged out; it then stands where that answer's snapshot stood. It leaves the epoch exactly when
      an answer leads on to a newer one. */
  lemma {:induction false} FastForwardExactly(d: Disk, answers: seq<Answer>)
    ensures var r := FastForward(d, d.epoch, answers);
            && (r.outcome == CaughtUp <==> CatchesUp(answers, d.epoch))
            && (r.outcome == CaughtUp ==>
                  exists i :: 0 <= i < |answers| && Arrives(answers[i], d.epoch) && Stands(r.disk, answers[i].snap))
            && (r.disk.epoch != d.epoch <==> MovesOn(answers, d.epoch))
    decreases |answers|
  {
    if answers != [] {
      var a, rest := answers[0], answers[1..];
      assert answers == [a] + rest;
      AttemptExactly(d, a);
      CatchesUpNext(a, rest, d.epoch);
      MovesOnNext(a, rest, d.epoch);
      if Ages(a, d.epoch) {
        FastForwardExactly(AttemptDisk(d, a), rest);
        StandsLater(FastForward(d, d.epoch, answers), a, rest, d.epoch);
      } else if Arrives(a, d.epoch) {
        assert Stands(AttemptDisk(d, answers[0]), answers[0].snap);
      }
    }
  }

  /** The disk stands where the snapshot stood, and is bootstrapped there. */
  predicate Stands(d: Disk, s: Snapshot) {
    d.epoch == s.epoch && d.applied == s.at && d.rows == s.rows && d.bootMark == s.epoch
  }

  lemma StandsLater(r: FastForwarded, a: Answer, rest: seq<Answer>, e: nat)
    requires r.outcome == CaughtUp ==> exists i :: 0 <= i < |rest| && Arrives(rest[i], e) && Stands(r.disk, rest[i].snap)
    ensures var all := [a] + rest;
            r.outcome == CaughtUp ==> exists i :: 0 <= i < |all| && Arrives(all[i], e) && Stands(r.disk, all[i].snap)
  {
    var all := [a] + rest;
    if r.outcome == CaughtUp {
      var i :| 0 <= i < |rest| && Arrives(rest[i], e) && Stands(r.disk, rest[i].snap);
      assert Arrives(all[i + 1], e) && Stands(r.disk, all[i + 1].snap);
    }
  }

  // ----- facts about fast-forwarding

  /** The disk stands exactly where the snapshot stood, and the snapshot had rows. */
  predicate TookFrom(d: Disk, s: Snapshot) {
    d.epoch == s.epoch && d.applied == s.at && d.rows == s.rows && d.bootMark == s.epoch && !IsEmpty(s.rows)
  }

  predicate SamePosition(a: Disk, b: Disk) {
    a.epoch == b.epoch && a.applied == b.applied && a.rows == b.rows && a.bootMark == b.bootMark
  }

  /** Whatever a fast-forward ends in, the node holds its old (epoch, seq, rows) triple or that of
      one reply, whose rows were not empty and whose epoch was not behind. */
  lemma {:induction false} FastForwardTriple(d: Disk, epoch: nat, answers: seq<Answer>)
    ensures var d' := FastForward(d, epoch, answers).disk;
            || SamePosition(d', d)
            || exists i :: 0 <= i < |answers| && answers[i].Reply? && TookFrom(d', answers[i].snap)
    ensures FastForward(d, epoch, answers).disk.epoch >= d.epoch
    decreases |answers|
  {
    if answers != [] {
      var d1 := AttemptDisk(d, answers[0]);
      assert SamePosition(d1, d) || (answers[0].Reply? && TookFrom(d1, answers[0].snap));
      if Attempt(d, epoch, answers[0]) == Outrun {
        FastForwardTriple(d1, epoch, answers[1..]);
        var d' := FastForward(d1, epoch, answers[1..]).disk;
        if !SamePosition(d', d1) {
          var j :| 0 <= j < |answers[1..]| && answers[1..][j].Reply? && TookFrom(d', answers[1..][j].snap);
          assert answers[j + 1] == answers[1..][j];
        }
      }
    }
  }

  /** The stream a fast-forward watches never empties and never brings an entry back. */
  predicate StreamOnlyGrows(answers: seq<Answer>, first: nat) {
    forall i | 0 <= i < |answers| && answers[i].Reply? && answers[i].info.Info? ::
      answers[i].info.msgs > 0 && answers[i].info.firstSeq >= first
  }

  /** Attempt `i` saw the stream and the stream still held the entry after `at`. */
  predicate SawCovered(a: Answer, at: nat) {
    a.Reply? && a.info.Info? && a.info.firstSeq <= at + 1
  }

  /** A node behind retention that catches up stands strictly further on, at the epoch it meant to
      attach to, and the stream still held the next entry when it looked. */
  lemma {:induction false} FastForwardAdvances(d: Disk, epoch: nat, answers: seq<Answer>, first: nat, last: nat)
    requires first > last + 1
    requires StreamOnlyGrows(answers, first)
    requires FastForward(d, epoch, answers).outcome == CaughtUp
    ensures var d' := FastForward(d, epoch, answers).disk;
            && d'.applied > last && d'.epoch == epoch && Bootstrapped(d')
            && exists i :: 0 <= i < |answers| && SawCovered(answers[i], d'.applied)
    decreases |answers|
  {
    var d1 := AttemptDisk(d, answers[0]);
    if Attempt(d, epoch, answers[0]) == Outrun {
      forall i | 0 <= i < |answers[1..]| && answers[1..][i].Reply? && answers[1..][i].info.Info?
        ensures answers[1..][i].info.msgs > 0 && answers[1..][i].info.firstSeq >= first
      {
        assert answers[1..][i] == answers[i + 1];
      }
      FastForwardAdvances(d1, epoch, answers[1..], first, last);
      var d' := FastForward(d1, epoch, answers[1..]).disk;
      var j :| 0 <= j < |answers[1..]| && SawCovered(answers[1..][j], d'.applied);
      assert answers[j + 1] == answers[1..][j];
    } else {
      assert SawCovered(answers[0], d1.applied);
    }
  }

  /** Every reply that this stream report lets an attempt accept moves the node forward. */
  ghost predicate OnlyForward(d: Disk, info: StreamInfo) {
    forall snap | Attempt(d, d.epoch, Reply(snap, Installed, info)) == CaughtUp :: snap.at > d.applied
  }

  /** The growth of the stream is needed, and this is exactly how much of it: an accepted reply is
      sure to move the node forward when the stream is not empty and its first entry still lies
      beyond the node's next one. Against an emptied stream any old snapshot counts as caught up. */
  lemma AcceptedMeansForward(d: Disk, info: StreamInfo)
    requires info.Info?
    ensures OnlyForward(d, info) <==> info.msgs > 0 && info.firstSeq > d.applied + 1
  {
    var someone: Row := map[];
    var stale := Snapshot(d.epoch, d.applied, Rows(multiset{someone}, multiset{}), map[]);
    assert someone in stale.rows.users;
    assert Attempt(d, d.epoch, Reply(stale, Installed, info)) == (if Covers(info, d.applied) then CaughtUp else Outrun);
  }

  // ----- facts about arbitrary delivery orders

  predicate Deliveries(log: seq<Entry>, order: seq<nat>) {
    forall i | 0 <= i < |order| :: 1 <= order[i] <= |log|
  }

  /** Entries handed to the loop one after the other, in any order, with repeats and holes. */
  ghost function HandleAll(n: Node, log: seq<Entry>, order: seq<nat>): Node
    requires Deliveries(log, order)
    decreases |order|
  {
    if order == [] then n
    else
      var i := |order| - 1;
      Handle(HandleAll(n, log, order[..i]), order[i], log[order[i] - 1])
  }

  /** The loop takes entry `k` now. */
  ghost predicate Takes(n: Node, k: nat, entry: Entry) {
    !n.mem.halted && SeqActionOf(k, n.disk.applied) == Process && Consume(ReplicaOf(n.disk), n.disk.epoch, entry).Consumed?
  }

  /** The sequence numbers the loop processed, in the order it processed them. */
  ghost function Processed(n: Node, log: seq<Entry>, order: seq<nat>): seq<nat>
    requires Deliveries(log, order)
    decreases |order|
  {
    if order == [] then []
    else
      var i := |order| - 1;
      var k := order[i];
      Processed(n, log, order[..i]) + if Takes(HandleAll(n, log, order[..i]), k, log[k - 1]) then [k] else []
  }

  lemma SettleShape(n: Node, k: nat, entry: Entry, s: Replica, v: Verdict)
    ensures Settle(n, k, entry, Consumed(s, v)).disk == WithReplica(n.disk, s).(applied := k)
  {
  }

  lemma HandleDisk(n: Node, k: nat, entry: Entry)
    ensures Takes(n, k, entry) ==>
              && k == n.disk.applied + 1
              && Handle(n, k, entry).disk ==
                 WithReplica(n.disk, After(ReplicaOf(n.disk), n.disk.epoch, entry)).(applied := k)
    ensures !Takes(n, k, entry) ==> Handle(n, k, entry).disk == n.disk
  {
    var c := Consume(ReplicaOf(n.disk), n.disk.epoch, entry);
    if Takes(n, k, entry) {
      SettleShape(n, k, entry, c.after, c.verdict);
    }
  }

  /** from+1, from+2, ..., until. */
  function Onwards(from: nat, until: nat): (r: seq<nat>)
    requires from <= until
    ensures |r| == until - from && forall i | 0 <= i < |r| :: r[i] == from + 1 + i
    decreases until
  {
    if from == until then [] else Onwards(from, until - 1) + [until]
  }

  /** The loop has moved from `d` to `d'` by processing exactly these entries, one after the other. */
  ghost predicate MovedBy(d: Disk, d': Disk, log: seq<Entry>, processed: seq<nat>) {
    && d.applied <= d'.applied <= |log| && d'.epoch == d.epoch
    && processed == Onwards(d.applied, d'.applied)
    && ReplicaOf(d') == FoldFrom(ReplicaOf(d), d.epoch, log, d.applied, d'.applied)
  }

  lemma MovedOn(d: Disk, d': Disk, log: seq<Entry>, processed: seq<nat>, next: Disk)
    requires MovedBy(d, d', log, processed) && d'.applied < |log|
    requires next == WithReplica(d', After(ReplicaOf(d'), d'.epoch, log[d'.applied])).(applied := d'.applied + 1)
    ensures MovedBy(d, next, log, processed + [d'.applied + 1])
  {
  }

  lemma {:induction false} DeliveryMoves(n: Node, log: seq<Entry>, order: seq<nat>)
    requires n.disk.applied <= |log| && Deliveries(log, order)
    ensures MovedBy(n.disk, HandleAll(n, log, order).disk, log, Processed(n, log, order))
    decreases |order|
  {
    if order != [] {
      var i := |order| - 1;
      var k := order[i];
      DeliveryMoves(n, log, order[..i]);
      var m, processed := HandleAll(n, log, order[..i]), Processed(n, log, order[..i]);
      HandleDisk(m, k, log[k - 1]);
      if Takes(m, k, log[k - 1]) {
        MovedOn(n.disk, m.disk, log, processed, Handle(m, k, log[k - 1]).disk);
      } else {
        assert processed + [] == processed;
      }
    }
  }

  /** Whatever is delivered, the processed entries are last+1, last+2, ..., each once and in order;
      the recorded sequence is the last of them; and the replica is the replay of exactly that
      stretch, so neither a gap nor a halt leaves a skipped entry behind. */
  lemma DeliveryIsContiguous(n: Node, log: seq<Entry>, order: seq<nat>)
    requires n.disk.applied <= |log| && Deliveries(log, order)
    ensures var d, d' := n.disk, HandleAll(n, log, order).disk;
            && d.applied <= d'.applied <= |log| && d'.epoch == d.epoch
            && Processed(n, log, order) == Onwards(d.applied, d'.applied)
            && ReplicaOf(d') == Fold(ReplicaOf(d), d.epoch, log[d.applied..d'.applied])
  {
    var d, d' := n.disk, HandleAll(n, log, order).disk;
    DeliveryMoves(n, log, order);
    FoldFromIsFold(ReplicaOf(d), d.epoch, log, d.applied, d'.applied);
  }

  /** The loop is running and no entry of the log after its position would halt it. */
  ghost predicate Flows(n: Node, log: seq<Entry>) {
    && !n.mem.halted
    && forall k | n.disk.applied <= k < |log| ::
         Consume(FoldFrom(ReplicaOf(n.disk), n.disk.epoch, log, n.disk.applied, k), n.disk.epoch, log[k]).Consumed?
  }

  lemma SkippedStays(n: Node, k: nat, entry: Entry)
    requires k <= n.disk.applied
    ensures Handle(n, k, entry) == n && !Takes(n, k, entry)
  {
  }

  lemma TakenKeepsRunning(n: Node, k: nat, entry: Entry)
    requires Takes(n, k, entry)
    ensures !Handle(n, k, entry).mem.halted
  {
  }

  /** Entries at or below the position change nothing, in whatever order they come. */
  lemma {:induction false} OldEntriesStay(n: Node, log: seq<Entry>, order: seq<nat>)
    requires Deliveries(log, order) && forall i | 0 <= i < |order| :: order[i] <= n.disk.applied
    ensures HandleAll(n, log, order) == n && Processed(n, log, order) == []
    decreases |order|
  {
    if order != [] {
      var i := |order| - 1;
      OldEntriesStay(n, log, order[..i]);
      SkippedStays(n, order[i], log[order[i] - 1]);
    }
  }

  lemma OnwardsOnce(until: nat)
    requires until > 0
    ensures Onwards(0, until)[..until - 1] == Onwards(0, until - 1) && Onwards(0, until)[until - 1] == until
  {
  }

  lemma FlowsOn(n: Node, log: seq<Entry>, m: Node, processed: seq<nat>)
    requires Flows(n, log) && MovedBy(n.disk, m.disk, log, processed) && !m.mem.halted && m.disk.applied < |log|
    ensures Takes(m, m.disk.applied + 1, log[m.disk.applied])
  {
  }

  /** Delivered from the first to the last, a log that does not halt the loop is taken from the entry
      after the position to the end. */
  lemma {:induction false} InOrderTakesTheRest(n: Node, log: seq<Entry>, until: nat)
    requires Flows(n, log) && n.disk.applied <= until <= |log|
    ensures Deliveries(log, Onwards(0, until))
    ensures var m := HandleAll(n, log, Onwards(0, until));
            && !m.mem.halted && m.disk.applied == until
            && Processed(n, log, Onwards(0, until)) == Onwards(n.disk.applied, until)
    decreases until
  {
    var order := Onwards(0, until);
    DeliveryMoves(n, log, order);
    if until == n.disk.applied {
      OldEntriesStay(n, log, order);
    } else {
      OnwardsOnce(until);
      InOrderTakesTheRest(n, log, until - 1);
      var m := HandleAll(n, log, order[..until - 1]);
      DeliveryMoves(n, log, order[..until - 1]);
      FlowsOn(n, log, m, Processed(n, log, order[..until - 1]));
      TakenKeepsRunning(m, until, log[until - 1]);
    }
  }

  /** A bootstrapped member never writes outside the log, whatever the mesh shows. */
  lemma BootstrappedNeverDirect(n: Node)
    requires n.disk.enabled && Bootstrapped(n.disk)
    ensures WriteMode(n) != Direct
  {
  }
}
