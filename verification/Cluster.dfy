/**
 A constellation as a state machine: nodes, one bounded log per epoch, snapshots in
 flight, and every step the op-log code can take, with all nondeterminism (timing,
 delivery, crashes, lost replies) in the parameters of the step.
 */
module Cluster {
  import opened Store
  import opened Replay
  import opened Node

  /** Names a node of the model; the program's device names play no part in the op-log's decisions. */
  type Id = nat

  /** How far a node has got with leaving: not at all, or past the write that is named. */
  datatype Leaving = Settled | DevicesWiped | LicenceDropped | PositionDropped

  /** A node together with what happens around it: how far in the log its domain values may reach (a
      history variable), the epochs whose stream its process has opened a subscription on, which may
      still bring entries after the node has moved on, and how far it has got with leaving. */
  datatype Member = Member(node: Node, ahead: nat, subs: set<nat>, leaving: Leaving)

  /** Between the first write of leaving and the one that drops the position. */
  predicate MidReset(m: Member) {
    m.leaving == DevicesWiped || m.leaving == LicenceDropped
  }

  /** The streams and their history. `live` holds the epochs whose stream exists now; `log` is all a
      stream was ever given, of which it retains the last entries. `seed`, `owner` and `home` are
      history variables: the replica an epoch started from, the node entitled to say so, and where
      in which log a request went. */
  datatype World = World(
    live: set<nat>,
    log: map<nat, seq<Entry>>,
    seed: map<nat, Replica>,
    owner: map<nat, Id>,
    home: map<string, Place>)

  datatype Place = Place(epoch: nat, k: nat)

  /** The rows half of a snapshot being built; `materialized` is a history variable: whether the server
      was bootstrapped or licensed when it read them. */
  datatype Draft = Draft(server: Id, epoch: nat, at: nat, rows: Rows, materialized: bool)

  datatype Sent = Sent(snap: Snapshot, ahead: nat)

  datatype Cluster = Cluster(members: map<Id, Member>, world: World, drafts: set<Draft>, sent: set<Sent>)

  const MAX_MSGS: nat := 100

  function Log(w: World, e: nat): seq<Entry> {
    if e in w.log then w.log[e] else []
  }

  /** Entry `k` of an epoch's log, counting from one. */
  function EntryAt(w: World, e: nat, k: nat): Entry {
    if 1 <= k <= |Log(w, e)| then Log(w, e)[k - 1] else Garbled
  }

  /** The first entry the stream still holds. */
  function FirstRetained(log: seq<Entry>): nat {
    if |log| > MAX_MSGS then |log| - MAX_MSGS + 1 else 1
  }

  /** A stream holds its last hundred entries. */
  lemma RetainsTheLast(log: seq<Entry>)
    ensures 1 <= FirstRetained(log) <= |log| + 1
    ensures |log| - FirstRetained(log) + 1 == if |log| < 100 then |log| else 100
  {
  }

  /** How a publish fares: stored and acknowledged, stored with the acknowledgement lost, or refused. */
  datatype Fate = Acked | AckLost | Refused

  datatype Step =
    // writes
    | DirectWrite(id: Id, m: Mutation)
    | DirectDomain(id: Id, d: Domain, text: string)
    | BlockManager(id: Id, device: string)
    | LocalWrite(id: Id, m: Mutation)
    | PublishOp(id: Id, version: nat, body: Body, reqId: string, bestEffort: bool, fate: Fate)
    | Collect(id: Id, reqId: string)
    // the apply loop
    | Deliver(id: Id, epoch: nat, k: nat)
    | DeliverInterrupted(id: Id, epoch: nat, k: nat)
    | DeliverUncommitted(id: Id, epoch: nat, k: nat)
    | Fail(id: Id)
    | StartLoop(id: Id)
    // attaching
    | See(id: Id)
    | Create(id: Id, waited: bool, survives: bool)
    | SelfSeed(id: Id)
    | Subscribe(id: Id, cleared: bool)
    | Detach(id: Id)
    // snapshots
    | CaptureRows(id: Id)
    | CaptureDomains(draft: Draft)
    | InstallSent(id: Id, item: Sent, written: set<Domain>)
    // everything around it
    | Crash(id: Id)
    | MeshChanges(id: Id, mesh: Mesh)
    | Join(id: Id, epoch: nat, agent: bool)
    | Found(id: Id)
    | WipeDevices(id: Id)
    | DropLicence(id: Id)
    | DropPosition(id: Id)
    | Depart(id: Id)
    | GiveUp(id: Id)
    | Reform(id: Id)
    | LoseStream(epoch: nat)

  /** One of the four writes by which a node leaves. */
  predicate LeavingStep(st: Step) {
    st.WipeDevices? || st.DropLicence? || st.DropPosition? || st.Depart?
  }

  predicate Has(c: Cluster, id: Id) {
    id in c.members
  }

  function NodeOf(c: Cluster, id: Id): Node
    requires Has(c, id)
  {
    c.members[id].node
  }

  /** The node a step acts on; losing a stream acts on none. */
  function Actor(c: Cluster, st: Step): Id {
    match st
    case CaptureDomains(draft) => draft.server
    case LoseStream(_) => 0
    case _ => st.id
  }

  /** When the code takes a step. */
  predicate Enabled(c: Cluster, st: Step) {
    if st.LoseStream? then true
    else Has(c, Actor(c, st)) && MemberEnabled(c, c.members[Actor(c, st)], st)
  }

  predicate MemberEnabled(c: Cluster, m: Member, st: Step) {
    var n, d := m.node, m.node.disk;
    match st
    case DirectWrite(_, _) => WriteMode(n) == Direct
    case DirectDomain(_, _, _) => WriteMode(n) == Direct
    case BlockManager(_, _) => Licensed(d) && !Bootstrapped(d) && !n.mem.attached
    case PublishOp(_, _, _, reqId, _, fate) =>
      // a request id is random and never used twice; the subject names the epoch, so only the
      // stream of that epoch can take the entry
      WriteMode(n) == Publish && reqId !in c.world.home && (fate != Refused ==> d.epoch in c.world.live)
    case Collect(_, reqId) => reqId in n.mem.waiters
    case Deliver(_, e, k) => e in m.subs && 1 <= k <= |Log(c.world, e)|
    case LocalWrite(_, _) => true
    case DeliverInterrupted(_, e, k) => e in m.subs && 1 <= k <= |Log(c.world, e)|
    case DeliverUncommitted(_, e, k) => e in m.subs && 1 <= k <= |Log(c.world, e)|
    case Fail(_) => true
    case StartLoop(_) => true
    case See(_) => d.epoch in c.world.live
    case Create(_, waited, _) => d.epoch !in c.world.live && !n.mem.attached && MayCreate(n, waited)
    case SelfSeed(_) => d.epoch in c.world.live && !n.mem.attached && !Bootstrapped(d) && Licensed(d)
    // whatever the stream still holds by then: the next entry may have aged out since the code looked
    case Subscribe(_, _) => d.epoch in c.world.live && !n.mem.attached && Bootstrapped(d)
    case Detach(_) => true
    case CaptureRows(_) => MayServe(n) && !IsEmpty(d.rows)
    case CaptureDomains(draft) => draft in c.drafts
    case InstallSent(_, item, _) =>
      && item in c.sent && !n.mem.attached
      && !IsEmpty(item.snap.rows) && item.snap.epoch >= d.epoch
    case Crash(_) => true
    case MeshChanges(_, _) => true
    case Join(_, _, _) => true
    case Found(_) => true
    case WipeDevices(_) => m.leaving == Settled
    case DropLicence(_) => m.leaving == DevicesWiped
    case DropPosition(_) => m.leaving == LicenceDropped
    case Depart(_) => m.leaving == PositionDropped
    case GiveUp(_) => m.leaving != Settled
    case Reform(_) => true
    case LoseStream(_) => true
  }

  // ----- what a step does to the node that takes it

  ghost function NodeAfter(c: Cluster, n: Node, st: Step): Node {
    match st
    case DirectWrite(_, m) => n.(disk := n.disk.(rows := Wrote(n.disk.rows, m)))
    case DirectDomain(_, d, text) => n.(disk := n.disk.(domains := SetDomain(n.disk.domains, d, text)))
    case BlockManager(_, device) => n.(disk := n.disk.(rows := Wrote(n.disk.rows, BlockMutation(device))))
    case PublishOp(_, _, _, reqId, bestEffort, fate) =>
      if fate == Acked && !bestEffort then n.(mem := n.mem.(waiters := n.mem.waiters[reqId := Waiting])) else n
    case Collect(_, reqId) => n.(mem := n.mem.(waiters := n.mem.waiters - {reqId}))
    case Deliver(_, e, k) => Handle(n, k, EntryAt(c.world, e, k))
    case LocalWrite(_, m) => n.(disk := n.disk.(rows := Wrote(n.disk.rows, m)))
    case DeliverInterrupted(_, e, k) => HandleInterrupted(n, k, EntryAt(c.world, e, k))
    case DeliverUncommitted(_, e, k) => HandleUncommitted(n, k, EntryAt(c.world, e, k))
    case Fail(_) => n.(mem := n.mem.(halted := true))
    case StartLoop(_) => n.(mem := n.mem.(halted := false))
    case See(_) => n.(mem := n.mem.(streamSeen := true))
    case Create(_, _, survives) => if survives then Seeded(n) else Restarted(n)
    case SelfSeed(_) => Seeded(n)
    case Subscribe(_, cleared) => Subscribed(n, cleared)
    case Detach(_) => n.(mem := n.mem.(attached := false))
    case CaptureRows(_) => n
    case CaptureDomains(_) => n
    case InstallSent(_, item, written) => n.(disk := InstallPartly(n.disk, item.snap, written))
    case Crash(_) => Restarted(n)
    case MeshChanges(_, mesh) => n.(mesh := mesh)
    case Join(_, e, agent) => n.(disk := Joined(n.disk, e, agent))
    case Found(_) => n.(disk := Founded(n.disk))
    case WipeDevices(_) => Wiped(n)
    case DropLicence(_) => Unlicensed(n)
    case DropPosition(_) => Dropped(n)
    case Depart(_) => Departed(n)
    case GiveUp(_) => n
    case Reform(_) => Reformed(n)
    case LoseStream(_) => n
  }

  /** How far the domain values of the acting node may reach: to an entry it took, or may have
      installed before it died; to what a snapshot says. */
  ghost function AheadAfter(c: Cluster, m: Member, st: Step): nat {
    match st
    case Deliver(_, e, k) =>
      if Takes(m.node, k, EntryAt(c.world, e, k)) && k > m.ahead then k else m.ahead
    case DeliverInterrupted(_, e, k) =>
      if !m.node.mem.halted && SeqActionOf(k, m.node.disk.applied) == Process && k > m.ahead then k else m.ahead
    case DeliverUncommitted(_, e, k) =>
      if !m.node.mem.halted && SeqActionOf(k, m.node.disk.applied) == Process && k > m.ahead then k else m.ahead
    case InstallSent(_, item, _) => item.ahead
    case Create(_, _, _) => if Bootstrapped(m.node.disk) then m.ahead else 0
    case SelfSeed(_) => 0
    case _ => m.ahead
  }

  /** A subscription ends with its process at the latest. */
  function OpenedAfter(m: Member, st: Step): set<nat> {
    if st.Subscribe? then m.subs + {m.node.disk.epoch}
    else if EndsProcess(st) then {}
    else m.subs
  }

  predicate EndsProcess(st: Step) {
    st.Crash? || st.DeliverInterrupted? || (st.Create? && !st.survives)
  }

  function LeavingAfter(m: Member, st: Step): Leaving {
    if EndsProcess(st) then Settled
    else
      match st
      case WipeDevices(_) => DevicesWiped
      case DropLicence(_) => LicenceDropped
      case DropPosition(_) => PositionDropped
      case Depart(_) => Settled
      case GiveUp(_) => Settled
      case _ => m.leaving
  }

  ghost function MemberAfter(c: Cluster, m: Member, st: Step): Member {
    Member(NodeAfter(c, m.node, st), AheadAfter(c, m, st), OpenedAfter(m, st), LeavingAfter(m, st))
  }

  // ----- what a step does to the streams and their history

  function ClaimSeed(w: World, e: nat, s: Replica): World {
    if e in w.seed then w else w.(seed := w.seed[e := s])
  }

  function ClaimOwner(w: World, e: nat, id: Id): World {
    if e in w.owner then w else w.(owner := w.owner[e := id])
  }

  function WorldAfter(w: World, n: Node, st: Step): World {
    var d := n.disk;
    match st
    case PublishOp(_, version, body, reqId, _, fate) =>
      if fate == Refused then w
      else w.(log := w.log[d.epoch := Log(w, d.epoch) + [Envelope(version, d.epoch, body, reqId)]],
              home := w.home[reqId := Place(d.epoch, |Log(w, d.epoch)| + 1)])
    case Create(id, _, survives) =>
      var w1 := ClaimOwner(w.(live := w.live + {d.epoch}, log := w.log[d.epoch := []]), d.epoch, id);
      if survives then ClaimSeed(w1, d.epoch, ReplicaOf(d)) else w1
    case SelfSeed(_) => ClaimSeed(w, d.epoch, ReplicaOf(d))
    case CaptureRows(_) => if Licensed(d) && !Bootstrapped(d) then ClaimSeed(w, d.epoch, ReplicaOf(d)) else w
    case Found(id) => ClaimOwner(w, d.epoch, id)
    case Reform(id) => ClaimOwner(w, d.epoch + 1, id)
    case LoseStream(e) => w.(live := w.live - {e})
    case _ => w
  }

  function DraftOf(id: Id, d: Disk): Draft {
    Draft(id, d.epoch, d.applied, d.rows, Bootstrapped(d) || Licensed(d))
  }

  ghost function Do(c: Cluster, st: Step): Cluster
    requires Enabled(c, st)
  {
    if st.LoseStream? then c.(world := c.world.(live := c.world.live - {st.epoch}))
    else
      var id := Actor(c, st);
      var m := c.members[id];
      Cluster(
        c.members[id := MemberAfter(c, m, st)],
        WorldAfter(c.world, m.node, st),
        if st.CaptureRows? then c.drafts + {DraftOf(id, m.node.disk)} else c.drafts,
        if st.CaptureDomains?
        then c.sent + {Sent(Snapshot(st.draft.epoch, st.draft.at, st.draft.rows, CapturedDomains(m.node.disk.domains)),
                           if Bootstrapped(m.node.disk) then m.ahead else 0)}
        else c.sent)
  }

  // ----- runs

  ghost predicate Init(c: Cluster) {
    && c.world == World({}, map[], map[], map[], map[])
    && c.drafts == {} && c.sent == {}
    && forall id | id in c.members ::
         FreshNode(c.members[id].node) && c.members[id].subs == {} && c.members[id].leaving == Settled
  }

  /** A node no constellation has touched: any rows, any config, any epoch, no log position. */
  ghost predicate FreshNode(n: Node) {
    && n.disk.epoch >= 1 && n.disk.applied == 0 && n.disk.bootMark == 0 && n.disk.licMark == 0
    && Consistent(n.disk.rows)
    && !n.mem.attached && n.mem.waiters == map[]
  }

  /** The states a list of steps passes through, when every step is enabled where it is taken. */
  ghost predicate Run(c: Cluster, steps: seq<Step>, c': Cluster)
    decreases |steps|
  {
    if steps == [] then c == c'
    else Enabled(c, steps[0]) && Run(Do(c, steps[0]), steps[1..], c')
  }

  // ----- hypotheses under which replicas cannot diverge

  /** What the real system relies on timing, order or luck for. For the rows:
      - FrozenSeed: a licence holder does not write its rows around the log once they are the seed;
      - FreshSetups: a setup, which empties the users, and a client's sync, which replaces the devices,
        run only on a node that is not bootstrapped;
      - OneSeed: a licence is granted for, and a stream created at, an epoch nobody else holds, and
        no epoch's stream is created twice;
      - SameEpoch: a node only handles entries of the epoch it is at;
      - MaterializedServer: only a bootstrapped or licensed node answers snapshot requests;
      - MembersOnly: the loop of a node that has left does not go on attaching;
      - WholeResets: a node that has begun to leave does nothing but leave, write, publish and read
        its log until its position is gone.
      For what a writer is told:
      - MaterializedReader: a node only handles an entry that a writer there waits for while it is
        bootstrapped and not leaving.
      For the domains:
      - FrozenDomains: a licence holder does not write its domains around the log once they are the seed;
      - SteadyServer: a server has not moved back, moved on or begun to leave when its domains are read;
      - WholeInstalls: no domain of a snapshot fails to be written. */
  datatype Hypothesis =
    | FrozenSeed | FreshSetups | OneSeed | SameEpoch | MaterializedServer | MembersOnly | WholeResets
    | MaterializedReader
    | FrozenDomains | SteadyServer | WholeInstalls

  /** What the agreement of the rows takes. */
  const FOR_ROWS: set<Hypothesis> := {FrozenSeed, FreshSetups, OneSeed, SameEpoch, MaterializedServer, MembersOnly, WholeResets}

  /** What it takes for a writer to be told what every replica finds. */
  const FOR_VERDICTS: set<Hypothesis> := FOR_ROWS + {MaterializedReader}

  /** What the agreement of the domains takes. */
  const FOR_DOMAINS: set<Hypothesis> := FOR_ROWS + {FrozenDomains, SteadyServer, WholeInstalls}

  const ALL_HYPOTHESES: set<Hypothesis> := FOR_VERDICTS + FOR_DOMAINS

  /** The store of a licence holder is the seed of its epoch. */
  predicate IsSeed(w: World, d: Disk) {
    Licensed(d) && d.epoch in w.seed
  }

  /** Steps that a node in the middle of leaving may take. */
  predicate KeepsToItself(st: Step) {
    || st.DirectWrite? || st.DirectDomain? || st.BlockManager? || st.LocalWrite? || st.PublishOp? || st.Collect?
    || st.Deliver? || st.DeliverUncommitted? || st.Fail? || st.StartLoop? || st.See? || st.Detach? || st.CaptureDomains? || st.MeshChanges?
    || st.DropLicence? || st.DropPosition? || st.Depart?
  }

  /** Whether a step keeps to one hypothesis, judged on the state it is taken in. */
  predicate Meets(c: Cluster, st: Step, h: Hypothesis)
    requires Enabled(c, st)
  {
    st.LoseStream? || MemberMeets(c, c.members[Actor(c, st)], st, h)
  }

  predicate MemberMeets(c: Cluster, m: Member, st: Step, h: Hypothesis) {
    var d, w := m.node.disk, c.world;
    match h
    case FrozenSeed => st.DirectWrite? || st.BlockManager? || st.LocalWrite? ==> !IsSeed(w, d)
    case FreshSetups => st.LocalWrite? ==> !Bootstrapped(d)
    case OneSeed =>
      && (st.Found? ==> d.epoch !in w.owner)
      && (st.Reform? ==> d.epoch + 1 !in w.owner)
      && (st.Create? ==> d.epoch !in w.log && (d.epoch !in w.owner || Licensed(d)))
    case SameEpoch => st.Deliver? || st.DeliverInterrupted? || st.DeliverUncommitted? ==> d.epoch == st.epoch
    case MaterializedServer => st.CaptureRows? ==> Bootstrapped(d) || Licensed(d)
    case MembersOnly => st.Create? || st.SelfSeed? || st.InstallSent? ==> d.enabled
    case WholeResets =>
      || m.leaving == Settled || KeepsToItself(st)
      || (m.leaving == PositionDropped && (st.Crash? || st.GiveUp? || st.DeliverInterrupted?))
    case MaterializedReader =>
      st.Deliver? && Awaits(m.node, EntryAt(w, st.epoch, st.k)) ==> Bootstrapped(d) && m.leaving == Settled
    case FrozenDomains => st.DirectDomain? ==> !IsSeed(w, d)
    case SteadyServer =>
      st.CaptureDomains? ==>
        && (st.draft.materialized ==> Bootstrapped(d) || Licensed(d)) && !MidReset(m)
        && d.epoch == st.draft.epoch && d.applied >= st.draft.at
    case WholeInstalls => st.InstallSent? ==> ALL_DOMAINS <= st.written
  }

  predicate MeetsAll(c: Cluster, st: Step, hs: set<Hypothesis>)
    requires Enabled(c, st)
  {
    forall h | h in hs :: Meets(c, st, h)
  }

  /** A run whose every step meets every one of these hypotheses. */
  ghost predicate RunUnder(hs: set<Hypothesis>, c: Cluster, steps: seq<Step>, c': Cluster)
    decreases |steps|
  {
    if steps == [] then c == c'
    else Enabled(c, steps[0]) && MeetsAll(c, steps[0], hs) && RunUnder(hs, Do(c, steps[0]), steps[1..], c')
  }

  /** A run whose every step meets every hypothesis except possibly `h`. */
  ghost predicate RunWithout(h: Hypothesis, c: Cluster, steps: seq<Step>, c': Cluster) {
    RunUnder(ALL_HYPOTHESES - {h}, c, steps, c')
  }
}
