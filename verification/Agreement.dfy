/**
 Replicas never diverge: in every state of every run that meets the hypotheses, a
 bootstrapped node holds exactly the replay of its epoch's log, up to the sequence
 it has recorded, over that epoch's one seed.

 The invariant comes in two strengths. About the rows alone it needs the hypotheses
 of FOR_ROWS; with `dom` it speaks of the domains as well and needs those of
 FOR_DOMAINS.
 */
module Agreement {
  import opened Store
  import opened Replay
  import opened Node
  import opened Cluster

  /** The replica an epoch's log gives at position `k`. */
  ghost function Canon(w: World, e: nat, k: nat): Replica
    requires e in w.seed && k <= |Log(w, e)|
  {
    Fold(w.seed[e], e, Log(w, e)[..k])
  }

  // ----- the invariant

  /** These rows are the replay of epoch `e` up to `at`. */
  ghost predicate RowsPlaced(w: World, e: nat, at: nat, rows: Rows) {
    e in w.seed && at <= |Log(w, e)| && rows == Canon(w, e, at).rows
  }

  /** These domains belong to position `at` of epoch `e` and run no further ahead than `ahead`. */
  ghost predicate DomainsPlaced(w: World, e: nat, at: nat, m: Domains, ahead: nat) {
    && e in w.seed && at <= ahead <= |Log(w, e)|
    && DomainsAhead(m, w.seed[e], e, Log(w, e), at, ahead)
  }

  ghost predicate Placed(w: World, e: nat, at: nat, s: Replica, ahead: nat, dom: bool) {
    RowsPlaced(w, e, at, s.rows) && (dom ==> DomainsPlaced(w, e, at, s.domains, ahead))
  }

  /** This replica is the seed of the epoch. */
  ghost predicate HoldsSeed(w: World, e: nat, s: Replica, dom: bool) {
    e in w.seed && s.rows == w.seed[e].rows && (dom ==> s.domains == w.seed[e].domains)
  }

  /** A licence belongs to the epoch's owner, who stands at its start and holds the seed once it is set. */
  ghost predicate LicenceOk(w: World, id: Id, d: Disk, dom: bool) {
    Licensed(d) ==>
      && d.epoch in w.owner && w.owner[d.epoch] == id
      && (!Bootstrapped(d) ==> d.applied == 0)
      && (!Bootstrapped(d) && d.epoch in w.seed ==> HoldsSeed(w, d.epoch, ReplicaOf(d), dom))
  }

  ghost predicate MarksOk(d: Disk) {
    1 <= d.epoch && d.licMark <= d.epoch && Consistent(d.rows)
  }

  ghost predicate DiskOk(w: World, id: Id, d: Disk, ahead: nat, dom: bool) {
    && MarksOk(d)
    && (Bootstrapped(d) ==> d.enabled && Placed(w, d.epoch, d.applied, ReplicaOf(d), ahead, dom))
    && (!Bootstrapped(d) && d.applied > 0 ==> d.epoch in w.log)
    && LicenceOk(w, id, d, dom)
  }

  /** A licence holder has no subscription at its epoch before it is bootstrapped there. */
  predicate SubsOk(d: Disk, subs: set<nat>) {
    d.epoch in subs && Licensed(d) ==> Bootstrapped(d)
  }

  ghost predicate MemberOk(w: World, id: Id, m: Member, dom: bool) {
    && MarksOk(m.node.disk)
    && m.subs <= w.log.Keys
    && (m.leaving == LicenceDropped ==> !Licensed(m.node.disk))
    && (m.leaving == PositionDropped ==> !Licensed(m.node.disk) && !Bootstrapped(m.node.disk))
    && (!MidReset(m) ==> DiskOk(w, id, m.node.disk, m.ahead, dom) && SubsOk(m.node.disk, m.subs))
  }

  ghost predicate WorldOk(w: World) {
    && w.live <= w.log.Keys <= w.owner.Keys
    && w.seed.Keys <= w.owner.Keys
    && (forall e | e in w.seed :: Consistent(w.seed[e].rows))
  }

  ghost predicate SentOk(w: World, s: Sent, dom: bool) {
    && Placed(w, s.snap.epoch, s.snap.at, Replica(s.snap.rows, s.snap.domains), s.ahead, dom)
    && (forall d | Registered(d) :: d in s.snap.domains)
  }

  ghost predicate DraftOk(w: World, dr: Draft) {
    dr.materialized && RowsPlaced(w, dr.epoch, dr.at, dr.rows)
  }

  ghost predicate Inv(c: Cluster, dom: bool) {
    && WorldOk(c.world)
    && (forall id | id in c.members :: MemberOk(c.world, id, c.members[id], dom))
    && (forall dr | dr in c.drafts :: DraftOk(c.world, dr))
    && (forall s | s in c.sent :: SentOk(c.world, s, dom))
  }

  // ----- the world only grows

  /** Logs get longer, seeds and owners stay, and a new seed belongs to the acting node. */
  ghost predicate Grows(w: World, w': World, actor: Id) {
    && w.log.Keys <= w'.log.Keys
    && (forall e :: Log(w, e) <= Log(w', e))
    && (forall e | e in w.seed :: e in w'.seed && w'.seed[e] == w.seed[e])
    && (forall e | e in w.owner :: e in w'.owner && w'.owner[e] == w.owner[e])
    && (forall e | e in w'.seed && e !in w.seed :: e in w'.owner && w'.owner[e] == actor)
  }

  lemma GrowsReflexive(w: World, actor: Id)
    ensures Grows(w, w, actor)
  {
  }

  lemma GrowsTransitive(a: World, b: World, c: World, actor: Id)
    requires Grows(a, b, actor) && Grows(b, c, actor)
    ensures Grows(a, c, actor)
  {
    forall e ensures Log(a, e) <= Log(c, e) {
      assert Log(a, e) <= Log(b, e) && Log(b, e) <= Log(c, e);
    }
    forall e | e in c.seed && e !in a.seed ensures e in c.owner && c.owner[e] == actor {
      if e in b.seed {
        assert e in b.owner && b.owner[e] == actor;
      }
    }
  }

  lemma RowsPlacedGrows(w: World, w': World, actor: Id, e: nat, at: nat, rows: Rows)
    requires Grows(w, w', actor) && RowsPlaced(w, e, at, rows)
    ensures RowsPlaced(w', e, at, rows)
  {
    assert Log(w, e) <= Log(w', e);
    assert Log(w', e)[..at] == Log(w, e)[..at];
  }

  lemma DomainsPlacedGrows(w: World, w': World, actor: Id, e: nat, at: nat, m: Domains, ahead: nat)
    requires Grows(w, w', actor) && DomainsPlaced(w, e, at, m, ahead)
    ensures DomainsPlaced(w', e, at, m, ahead)
  {
    AheadStable(m, w.seed[e], e, Log(w, e), Log(w', e), at, ahead);
  }

  lemma PlacedGrows(w: World, w': World, actor: Id, e: nat, at: nat, s: Replica, ahead: nat, dom: bool)
    requires Grows(w, w', actor) && Placed(w, e, at, s, ahead, dom)
    ensures Placed(w', e, at, s, ahead, dom)
  {
    RowsPlacedGrows(w, w', actor, e, at, s.rows);
    if dom {
      DomainsPlacedGrows(w, w', actor, e, at, s.domains, ahead);
    }
  }

  /** A disk keeps its standing when the world grows under it, unless it is the seed that grows. */
  lemma DiskGrows(w: World, w': World, actor: Id, id: Id, d: Disk, ahead: nat, dom: bool)
    requires Grows(w, w', actor) && DiskOk(w, id, d, ahead, dom) && (id != actor || w'.seed == w.seed)
    ensures DiskOk(w', id, d, ahead, dom)
  {
    if Bootstrapped(d) {
      PlacedGrows(w, w', actor, d.epoch, d.applied, ReplicaOf(d), ahead, dom);
    }
  }

  lemma MemberGrows(w: World, w': World, actor: Id, id: Id, m: Member, dom: bool)
    requires Grows(w, w', actor) && MemberOk(w, id, m, dom) && (id != actor || w'.seed == w.seed)
    ensures MemberOk(w', id, m, dom)
  {
    if !MidReset(m) {
      DiskGrows(w, w', actor, id, m.node.disk, m.ahead, dom);
    }
  }

  // ----- positions

  /** Looking further ahead only weakens the claim. */
  lemma Widen(m: Domains, seed: Replica, epoch: nat, log: seq<Entry>, at: nat, ahead: nat, further: nat)
    requires at <= |log| && ahead <= further
    requires DomainsAhead(m, seed, epoch, log, at, ahead)
    ensures DomainsAhead(m, seed, epoch, log, at, further)
  {
    forall d | Registered(d) && WritesBetween(log, epoch, d, at, ahead)
      ensures WritesBetween(log, epoch, d, at, further)
    {
      var k :| at <= k < ahead && k < |log| && Writes(log[k], epoch, d);
      assert at <= k < further;
    }
  }

  function Max(a: nat, b: nat): nat {
    if a > b then a else b
  }

  lemma NextRows(w: World, e: nat, at: nat, s: Replica)
    requires RowsPlaced(w, e, at, s.rows) && at < |Log(w, e)|
    ensures RowsPlaced(w, e, at + 1, After(s, e, Log(w, e)[at]).rows)
  {
    FoldNext(w.seed[e], e, Log(w, e), at);
    RowsApart(s, Canon(w, e, at), e, Log(w, e)[at]);
  }

  lemma NextDomains(w: World, e: nat, at: nat, s: Replica, ahead: nat)
    requires DomainsPlaced(w, e, at, s.domains, ahead) && at < |Log(w, e)|
    ensures DomainsPlaced(w, e, at + 1, After(s, e, Log(w, e)[at]).domains, Max(at + 1, ahead))
  {
    var seed, log := w.seed[e], Log(w, e);
    StepKeepsAhead(s, seed, e, log, at, ahead);
    Widen(After(s, e, log[at]).domains, seed, e, log, at + 1, ahead, Max(at + 1, ahead));
  }

  /** Consuming the next entry keeps a replica in place. */
  lemma NextPlaced(w: World, e: nat, at: nat, s: Replica, ahead: nat, dom: bool)
    requires Placed(w, e, at, s, ahead, dom) && at < |Log(w, e)|
    ensures Placed(w, e, at + 1, After(s, e, Log(w, e)[at]), Max(at + 1, ahead), dom)
  {
    NextRows(w, e, at, s);
    if dom {
      NextDomains(w, e, at, s, ahead);
    }
  }

  /** The domains never influence what an entry does to the rows, nor its verdict. */
  lemma RowsApart(s: Replica, s': Replica, epoch: nat, e: Entry)
    requires s.rows == s'.rows
    ensures After(s, epoch, e).rows == After(s', epoch, e).rows
    ensures Consume(s, epoch, e).Consumed? <==> Consume(s', epoch, e).Consumed?
    ensures Consume(s, epoch, e).Consumed? ==> Consume(s, epoch, e).verdict == Consume(s', epoch, e).verdict
  {
  }

  lemma AfterConsistent(s: Replica, epoch: nat, e: Entry)
    requires Consistent(s.rows)
    ensures Consistent(After(s, epoch, e).rows)
  {
    if e.Envelope? && e.body.Db? {
      ApplyKeepsConsistent(s.rows, e.body.m);
    }
  }

  /** A replica that holds the seed is in place at position zero of its epoch. */
  lemma SeedPlaced(w: World, e: nat, s: Replica, dom: bool)
    requires HoldsSeed(w, e, s, dom)
    ensures Placed(w, e, 0, s, 0, dom)
  {
    assert Log(w, e)[..0] == [];
  }

  // ----- what one step makes of the node that takes it

  /** What the hypotheses come to for each kind of step. */
  predicate Asked(c: Cluster, m: Member, st: Step, dom: bool) {
    var d, w := m.node.disk, c.world;
    match st
    case DirectWrite(_, _) => !IsSeed(w, d)
    case BlockManager(_, _) => !IsSeed(w, d)
    case LocalWrite(_, _) => !IsSeed(w, d) && !Bootstrapped(d)
    case DirectDomain(_, _, _) => dom ==> !IsSeed(w, d)
    case Deliver(_, e, _) => d.epoch == e
    case DeliverInterrupted(_, e, _) => d.epoch == e && !MidReset(m)
    case DeliverUncommitted(_, e, _) => d.epoch == e
    case Create(_, _, _) => m.leaving == Settled && d.enabled && d.epoch !in w.log && (d.epoch !in w.owner || Licensed(d))
    case SelfSeed(_) => m.leaving == Settled && d.enabled
    case Subscribe(_, _) => m.leaving == Settled
    case CaptureRows(_) => m.leaving == Settled && (Bootstrapped(d) || Licensed(d))
    case CaptureDomains(draft) =>
      dom ==> (draft.materialized ==> Bootstrapped(d) || Licensed(d)) && !MidReset(m) && d.epoch == draft.epoch && d.applied >= draft.at
    case InstallSent(_, _, written) => m.leaving == Settled && d.enabled && (dom ==> ALL_DOMAINS <= written)
    case Join(_, _, _) => m.leaving == Settled
    case Found(_) => m.leaving == Settled && d.epoch !in w.owner
    case Reform(_) => m.leaving == Settled && d.epoch + 1 !in w.owner
    case Crash(_) => !MidReset(m)
    case GiveUp(_) => !MidReset(m)
    case _ => true
  }

  ghost predicate Ready(c: Cluster, id: Id, m: Member, st: Step, dom: bool) {
    WorldOk(c.world) && MemberOk(c.world, id, m, dom) && MemberEnabled(c, m, st) && Asked(c, m, st, dom)
  }

  /** The step leaves the world grown and in order, and its node in place. */
  ghost predicate Good(c: Cluster, id: Id, m: Member, st: Step, dom: bool) {
    var w' := WorldAfter(c.world, m.node, st);
    Grows(c.world, w', id) && WorldOk(w') && MemberOk(w', id, MemberAfter(c, m, st), dom)
  }

  /** For steps that leave the world alone it is enough to look at the node. */
  lemma SameWorld(c: Cluster, id: Id, m: Member, st: Step, dom: bool)
    requires Ready(c, id, m, st, dom) && WorldAfter(c.world, m.node, st) == c.world
    requires MemberOk(c.world, id, MemberAfter(c, m, st), dom)
    ensures Good(c, id, m, st, dom)
  {
    GrowsReflexive(c.world, id);
  }

  /** A settled member whose new disk is in order. */
  lemma SettledMember(w: World, id: Id, m: Member, m': Member, dom: bool)
    requires m.subs <= w.log.Keys && m'.leaving == Settled && DiskOk(w, id, m'.node.disk, m'.ahead, dom)
    requires m'.subs <= m.subs && SubsOk(m'.node.disk, m'.subs)
    ensures MemberOk(w, id, m', dom)
  {
  }

  // ----- steps that leave the disk alone

  predicate TouchesMemoryOnly(st: Step) {
    || st.Collect? || st.Fail? || st.StartLoop? || st.See? || st.Detach? || st.Crash? || st.MeshChanges?
    || st.GiveUp? || st.CaptureDomains?
  }

  lemma MemoryShape(c: Cluster, m: Member, st: Step)
    requires TouchesMemoryOnly(st)
    ensures WorldAfter(c.world, m.node, st) == c.world
    ensures var m' := MemberAfter(c, m, st);
            && m'.node.disk == m.node.disk && m'.ahead == m.ahead && m'.subs <= m.subs
            && (m'.leaving == m.leaving || (m'.leaving == Settled && (st.Crash? || st.GiveUp?)))
  {
  }

  lemma MemoryGood(c: Cluster, id: Id, m: Member, st: Step, dom: bool)
    requires Ready(c, id, m, st, dom) && TouchesMemoryOnly(st)
    ensures Good(c, id, m, st, dom)
  {
    MemoryShape(c, m, st);
    SameWorld(c, id, m, st, dom);
  }

  // ----- writes

  /** A node that is not bootstrapped may change its store as long as no seed depends on it. */
  lemma LocalWriteOk(w: World, id: Id, d: Disk, ahead: nat, s: Replica, dom: bool)
    requires DiskOk(w, id, d, ahead, dom) && !Bootstrapped(d) && Consistent(s.rows)
    requires IsSeed(w, d) ==> s.rows == d.rows && (dom ==> s.domains == d.domains)
    ensures DiskOk(w, id, WithReplica(d, s), ahead, dom)
  {
  }

  lemma LocalWriteMember(w: World, id: Id, m: Member, s: Replica, dom: bool, m': Member)
    requires MemberOk(w, id, m, dom) && Consistent(s.rows) && (!MidReset(m) ==> !Bootstrapped(m.node.disk))
    requires IsSeed(w, m.node.disk) ==> s.rows == m.node.disk.rows && (dom ==> s.domains == m.node.disk.domains)
    requires m' == m.(node := m.node.(disk := WithReplica(m.node.disk, s)))
    ensures MemberOk(w, id, m', dom)
  {
    if !MidReset(m) {
      LocalWriteOk(w, id, m.node.disk, m.ahead, s, dom);
    }
  }

  lemma DirectMeansFresh(c: Cluster, id: Id, m: Member, st: Step, dom: bool)
    requires Ready(c, id, m, st, dom) && (st.DirectWrite? || st.DirectDomain? || st.BlockManager? || st.LocalWrite?)
    ensures !MidReset(m) ==> !Bootstrapped(m.node.disk)
  {
  }

  lemma WroteConsistent(rows: Rows, m: Mutation)
    requires Consistent(rows)
    ensures Consistent(Wrote(rows, m))
  {
    ApplyKeepsConsistent(rows, m);
  }

  lemma RowWriteGood(c: Cluster, id: Id, m: Member, st: Step, mut: Mutation, dom: bool)
    requires Ready(c, id, m, st, dom)
    requires ((st.DirectWrite? || st.LocalWrite?) && mut == st.m) || (st.BlockManager? && mut == BlockMutation(st.device))
    ensures Good(c, id, m, st, dom)
  {
    var d := m.node.disk;
    var s := Replica(Wrote(d.rows, mut), d.domains);
    WroteConsistent(d.rows, mut);
    DirectMeansFresh(c, id, m, st, dom);
    LocalWriteMember(c.world, id, m, s, dom, MemberAfter(c, m, st));
    SameWorld(c, id, m, st, dom);
  }

  lemma DomainWriteGood(c: Cluster, id: Id, m: Member, st: Step, dom: bool)
    requires Ready(c, id, m, st, dom) && st.DirectDomain?
    ensures Good(c, id, m, st, dom)
  {
    var d := m.node.disk;
    var s := Replica(d.rows, SetDomain(d.domains, st.d, st.text));
    DirectMeansFresh(c, id, m, st, dom);
    LocalWriteMember(c.world, id, m, s, dom, MemberAfter(c, m, st));
    SameWorld(c, id, m, st, dom);
  }

  lemma LogGrows(w: World, w': World, id: Id, e: nat, entry: Entry)
    requires WorldOk(w) && e in w.log && w'.log == w.log[e := w.log[e] + [entry]]
    requires w'.live == w.live && w'.seed == w.seed && w'.owner == w.owner
    ensures Grows(w, w', id) && WorldOk(w')
  {
    forall x ensures Log(w, x) <= Log(w', x) {
      assert x != e ==> Log(w', x) == Log(w, x);
    }
  }

  lemma PublishShape(w: World, id: Id, n: Node, st: Step)
    requires WorldOk(w) && st.PublishOp? && (st.fate != Refused ==> n.disk.epoch in w.live)
    ensures var w' := WorldAfter(w, n, st); Grows(w, w', id) && WorldOk(w') && w'.seed == w.seed
  {
    if st.fate == Refused {
      GrowsReflexive(w, id);
    } else {
      LogGrows(w, WorldAfter(w, n, st), id, n.disk.epoch, Envelope(st.version, n.disk.epoch, st.body, st.reqId));
    }
  }

  lemma PublishGood(c: Cluster, id: Id, m: Member, st: Step, dom: bool)
    requires Ready(c, id, m, st, dom) && st.PublishOp?
    ensures Good(c, id, m, st, dom)
  {
    var w', m' := WorldAfter(c.world, m.node, st), MemberAfter(c, m, st);
    PublishShape(c.world, id, m.node, st);
    MemberGrows(c.world, w', id, id, m, dom);
    assert m'.node.disk == m.node.disk && m'.ahead == m.ahead && m'.subs == m.subs && m'.leaving == m.leaving;
  }

  // ----- deliveries

  /** A disk whose new replica is in place at its new position is in order. */
  lemma MovedOk(w: World, id: Id, d: Disk, ahead: nat, s: Replica, at: nat, further: nat, dom: bool)
    requires DiskOk(w, id, d, ahead, dom) && Bootstrapped(d)
    requires Consistent(s.rows) && Placed(w, d.epoch, at, s, further, dom)
    ensures DiskOk(w, id, WithReplica(d, s).(applied := at), further, dom)
  {
  }

  /** An entry taken by a bootstrapped node. */
  lemma TakenOk(w: World, id: Id, d: Disk, ahead: nat, dom: bool)
    requires DiskOk(w, id, d, ahead, dom) && Bootstrapped(d) && d.applied < |Log(w, d.epoch)|
    ensures var s' := After(ReplicaOf(d), d.epoch, Log(w, d.epoch)[d.applied]);
            DiskOk(w, id, WithReplica(d, s').(applied := d.applied + 1), Max(d.applied + 1, ahead), dom)
  {
    var e, at := d.epoch, d.applied;
    NextPlaced(w, e, at, ReplicaOf(d), ahead, dom);
    AfterConsistent(ReplicaOf(d), e, Log(w, e)[at]);
    MovedOk(w, id, d, ahead, After(ReplicaOf(d), e, Log(w, e)[at]), at + 1, Max(at + 1, ahead), dom);
  }

  /** An entry taken by a node that is neither bootstrapped nor licensed. */
  lemma StrayOk(w: World, id: Id, d: Disk, ahead: nat, s: Replica, at: nat, further: nat, dom: bool)
    requires DiskOk(w, id, d, ahead, dom) && !Bootstrapped(d) && !Licensed(d)
    requires Consistent(s.rows) && d.epoch in w.log
    ensures DiskOk(w, id, WithReplica(d, s).(applied := at), further, dom)
  {
  }

  lemma DeliverShape(c: Cluster, id: Id, m: Member, e: nat, k: nat)
    requires m.node.disk.epoch == e && 1 <= k <= |Log(c.world, e)|
    ensures var m', n, entry := MemberAfter(c, m, Deliver(id, e, k)), m.node, Log(c.world, e)[k - 1];
            && m'.subs == m.subs && m'.leaving == m.leaving
            && ((m'.node.disk == n.disk && m'.ahead == m.ahead) ||
                (&& k == n.disk.applied + 1 && m'.ahead == Max(k, m.ahead)
                 && m'.node.disk == WithReplica(n.disk, After(ReplicaOf(n.disk), e, entry)).(applied := k)))
  {
    HandleDisk(m.node, k, EntryAt(c.world, e, k));
  }

  /** A member with a new replica and position, where a bootstrapped one is known to stand in place. */
  lemma DeliverMoved(w: World, id: Id, m: Member, s: Replica, k: nat, m': Member, dom: bool)
    requires MemberOk(w, id, m, dom) && m.node.disk.epoch in m.subs && Consistent(s.rows)
    requires m'.node.disk == WithReplica(m.node.disk, s).(applied := k) && m'.subs <= m.subs
    requires m'.leaving == m.leaving || (m'.leaving == Settled && !MidReset(m))
    requires !MidReset(m) && Bootstrapped(m.node.disk) ==> DiskOk(w, id, m'.node.disk, m'.ahead, dom)
    ensures MemberOk(w, id, m', dom)
  {
    if !MidReset(m) && !Bootstrapped(m.node.disk) {
      StrayOk(w, id, m.node.disk, m.ahead, s, k, m'.ahead, dom);
    }
  }

  lemma DeliverMember(w: World, id: Id, m: Member, e: nat, k: nat, m': Member, dom: bool)
    requires MemberOk(w, id, m, dom) && m.node.disk.epoch == e && e in m.subs
    requires k == m.node.disk.applied + 1 && k <= |Log(w, e)|
    requires m'.node.disk == WithReplica(m.node.disk, After(ReplicaOf(m.node.disk), e, Log(w, e)[k - 1])).(applied := k)
    requires m'.subs == m.subs && m'.leaving == m.leaving && m'.ahead == Max(k, m.ahead)
    ensures MemberOk(w, id, m', dom)
  {
    var d := m.node.disk;
    AfterConsistent(ReplicaOf(d), e, Log(w, e)[k - 1]);
    if !MidReset(m) && Bootstrapped(d) {
      TakenOk(w, id, d, m.ahead, dom);
    }
    DeliverMoved(w, id, m, After(ReplicaOf(d), e, Log(w, e)[k - 1]), k, m', dom);
  }

  lemma DeliverGood(c: Cluster, id: Id, m: Member, e: nat, k: nat, dom: bool)
    requires Ready(c, id, m, Deliver(id, e, k), dom)
    ensures Good(c, id, m, Deliver(id, e, k), dom)
  {
    var m' := MemberAfter(c, m, Deliver(id, e, k));
    DeliverShape(c, id, m, e, k);
    if m'.node.disk != m.node.disk || m'.ahead != m.ahead {
      DeliverMember(c.world, id, m, e, k, m', dom);
    }
    SameWorld(c, id, m, Deliver(id, e, k), dom);
  }

  /** Dying in the middle of an entry leaves the rows and the position as they were, and domains at
      most one entry ahead. */
  lemma InterruptedOk(w: World, id: Id, d: Disk, ahead: nat, dom: bool)
    requires DiskOk(w, id, d, ahead, dom) && Bootstrapped(d) && d.applied < |Log(w, d.epoch)|
    ensures var s' := Interrupted(ReplicaOf(d), d.epoch, Log(w, d.epoch)[d.applied]);
            DiskOk(w, id, WithReplica(d, s'), Max(d.applied + 1, ahead), dom)
  {
    var e, at, further := d.epoch, d.applied, Max(d.applied + 1, ahead);
    var s' := Interrupted(ReplicaOf(d), e, Log(w, e)[at]);
    InterruptedRows(ReplicaOf(d), e, Log(w, e)[at]);
    if dom {
      InterruptKeepsAhead(ReplicaOf(d), w.seed[e], e, Log(w, e), at, ahead);
      Widen(s'.domains, w.seed[e], e, Log(w, e), at, if ahead > at then ahead else at + 1, further);
    }
  }

  lemma InterruptedRows(s: Replica, epoch: nat, entry: Entry)
    ensures Interrupted(s, epoch, entry).rows == s.rows
  {
  }

  lemma InterruptedShape(c: Cluster, id: Id, m: Member, e: nat, k: nat)
    requires m.node.disk.epoch == e && 1 <= k <= |Log(c.world, e)|
    ensures var m', d, entry := MemberAfter(c, m, DeliverInterrupted(id, e, k)), m.node.disk, Log(c.world, e)[k - 1];
            && m'.subs == {} && m'.leaving == Settled
            && ((m'.node.disk == d && m'.ahead == m.ahead) ||
                (&& k == d.applied + 1 && m'.ahead == Max(k, m.ahead)
                 && m'.node.disk == WithReplica(d, Interrupted(ReplicaOf(d), e, entry))))
  {
  }

  lemma InterruptedMember(w: World, id: Id, m: Member, e: nat, k: nat, m': Member, dom: bool)
    requires MemberOk(w, id, m, dom) && m.node.disk.epoch == e && e in m.subs
    requires k == m.node.disk.applied + 1 && k <= |Log(w, e)|
    requires m'.node.disk == WithReplica(m.node.disk, Interrupted(ReplicaOf(m.node.disk), e, Log(w, e)[k - 1]))
    requires m'.subs <= m.subs && m'.ahead == Max(k, m.ahead)
    requires m'.leaving == m.leaving || (m'.leaving == Settled && !MidReset(m))
    ensures MemberOk(w, id, m', dom)
  {
    var d := m.node.disk;
    InterruptedRows(ReplicaOf(d), e, Log(w, e)[k - 1]);
    if Bootstrapped(d) && !MidReset(m) {
      InterruptedOk(w, id, d, m.ahead, dom);
    }
    DeliverMoved(w, id, m, Interrupted(ReplicaOf(d), e, Log(w, e)[k - 1]), d.applied, m', dom);
  }

  lemma UncommittedShape(c: Cluster, id: Id, m: Member, e: nat, k: nat)
    requires m.node.disk.epoch == e && 1 <= k <= |Log(c.world, e)|
    ensures var m', d, entry := MemberAfter(c, m, DeliverUncommitted(id, e, k)), m.node.disk, Log(c.world, e)[k - 1];
            && m'.subs == m.subs && m'.leaving == m.leaving
            && ((m'.node.disk == d && m'.ahead == m.ahead) ||
                (&& k == d.applied + 1 && m'.ahead == Max(k, m.ahead)
                 && m'.node.disk == WithReplica(d, Interrupted(ReplicaOf(d), e, entry))))
  {
  }

  /** A commit that fails leaves what a death would leave, in a process that goes on. */
  lemma DeliverUncommittedGood(c: Cluster, id: Id, m: Member, e: nat, k: nat, dom: bool)
    requires Ready(c, id, m, DeliverUncommitted(id, e, k), dom)
    ensures Good(c, id, m, DeliverUncommitted(id, e, k), dom)
  {
    var m' := MemberAfter(c, m, DeliverUncommitted(id, e, k));
    UncommittedShape(c, id, m, e, k);
    if m'.node.disk != m.node.disk || m'.ahead != m.ahead {
      InterruptedMember(c.world, id, m, e, k, m', dom);
    }
    SameWorld(c, id, m, DeliverUncommitted(id, e, k), dom);
  }

  lemma DeliverInterruptedGood(c: Cluster, id: Id, m: Member, e: nat, k: nat, dom: bool)
    requires Ready(c, id, m, DeliverInterrupted(id, e, k), dom)
    ensures Good(c, id, m, DeliverInterrupted(id, e, k), dom)
  {
    var m' := MemberAfter(c, m, DeliverInterrupted(id, e, k));
    InterruptedShape(c, id, m, e, k);
    if m'.node.disk != m.node.disk || m'.ahead != m.ahead {
      InterruptedMember(c.world, id, m, e, k, m', dom);
    }
    SameWorld(c, id, m, DeliverInterrupted(id, e, k), dom);
  }

  // ----- seeds and streams

  lemma ClaimGrows(w: World, id: Id, e: nat, s: Replica)
    requires WorldOk(w) && e in w.owner && w.owner[e] == id && Consistent(s.rows)
    ensures Grows(w, ClaimSeed(w, e, s), id) && WorldOk(ClaimSeed(w, e, s))
  {
  }

  /** Claiming the seed of an epoch one owns leaves the claimant holding it. */
  lemma ClaimOk(w: World, id: Id, d: Disk, ahead: nat, dom: bool)
    requires WorldOk(w) && DiskOk(w, id, d, ahead, dom) && !Bootstrapped(d)
    requires d.epoch in w.owner && w.owner[d.epoch] == id
    requires d.epoch in w.seed ==> Licensed(d)
    ensures var w' := ClaimSeed(w, d.epoch, ReplicaOf(d));
            && Grows(w, w', id) && WorldOk(w')
            && HoldsSeed(w', d.epoch, ReplicaOf(d), dom) && DiskOk(w', id, d, ahead, dom)
  {
    ClaimGrows(w, id, d.epoch, ReplicaOf(d));
  }

  /** A node that holds the seed and marks itself materialized is in place. */
  lemma SeededOk(w: World, id: Id, n: Node, ahead: nat, dom: bool)
    requires DiskOk(w, id, n.disk, ahead, dom) && n.disk.enabled && n.disk.applied == 0
    requires HoldsSeed(w, n.disk.epoch, ReplicaOf(n.disk), dom)
    ensures DiskOk(w, id, Seeded(n).disk, 0, dom)
  {
    SeedPlaced(w, n.disk.epoch, ReplicaOf(n.disk), dom);
  }

  lemma SelfSeedGood(c: Cluster, id: Id, m: Member, dom: bool)
    requires Ready(c, id, m, SelfSeed(id), dom)
    ensures Good(c, id, m, SelfSeed(id), dom)
  {
    var w' := ClaimSeed(c.world, m.node.disk.epoch, ReplicaOf(m.node.disk));
    ClaimOk(c.world, id, m.node.disk, m.ahead, dom);
    SeededOk(w', id, m.node, m.ahead, dom);
  }

  function Opened(w: World, id: Id, e: nat): World {
    ClaimOwner(w.(live := w.live + {e}, log := w.log[e := []]), e, id)
  }

  /** Opening the first stream of an epoch changes no position in any log. */
  lemma OpenOk(w: World, id: Id, d: Disk, ahead: nat, dom: bool)
    requires WorldOk(w) && DiskOk(w, id, d, ahead, dom)
    requires d.epoch !in w.log && (d.epoch !in w.owner || Licensed(d))
    ensures var w1 := Opened(w, id, d.epoch);
            && Grows(w, w1, id) && WorldOk(w1) && DiskOk(w1, id, d, ahead, dom)
            && w1.seed == w.seed && d.epoch in w1.owner && w1.owner[d.epoch] == id
  {
    var w1 := Opened(w, id, d.epoch);
    forall e ensures Log(w, e) == Log(w1, e) {
    }
    assert Grows(w, w1, id);
    DiskGrows(w, w1, id, id, d, ahead, dom);
  }

  /** The creator of a stream marks itself materialized. */
  lemma MarkOk(w: World, id: Id, n: Node, ahead: nat, dom: bool)
    requires WorldOk(w) && DiskOk(w, id, n.disk, ahead, dom) && n.disk.enabled
    requires n.disk.epoch in w.owner && w.owner[n.disk.epoch] == id
    requires !Bootstrapped(n.disk) ==> n.disk.applied == 0 && (n.disk.epoch in w.seed ==> Licensed(n.disk))
    ensures var w' := ClaimSeed(w, n.disk.epoch, ReplicaOf(n.disk));
            && Grows(w, w', id) && WorldOk(w')
            && DiskOk(w', id, Seeded(n).disk, if Bootstrapped(n.disk) then ahead else 0, dom)
  {
    var d := n.disk;
    if Bootstrapped(d) {
      assert d.epoch in w.seed;
      GrowsReflexive(w, id);
    } else {
      ClaimOk(w, id, d, ahead, dom);
      SeededOk(ClaimSeed(w, d.epoch, ReplicaOf(d)), id, n, ahead, dom);
    }
  }

  lemma CreateShape(w: World, n: Node, id: Id, waited: bool, survives: bool)
    ensures WorldAfter(w, n, Create(id, waited, survives)) ==
            if survives then ClaimSeed(Opened(w, id, n.disk.epoch), n.disk.epoch, ReplicaOf(n.disk))
            else Opened(w, id, n.disk.epoch)
  {
  }

  lemma CreateOk(w: World, id: Id, n: Node, ahead: nat, survives: bool, w': World, dom: bool)
    requires WorldOk(w) && DiskOk(w, id, n.disk, ahead, dom) && n.disk.enabled
    requires n.disk.epoch !in w.log && (n.disk.epoch !in w.owner || Licensed(n.disk))
    requires w' == if survives then ClaimSeed(Opened(w, id, n.disk.epoch), n.disk.epoch, ReplicaOf(n.disk))
                   else Opened(w, id, n.disk.epoch)
    ensures Grows(w, w', id) && WorldOk(w')
    ensures survives ==> DiskOk(w', id, Seeded(n).disk, if Bootstrapped(n.disk) then ahead else 0, dom)
    ensures !survives ==> DiskOk(w', id, n.disk, ahead, dom)
  {
    var w1 := Opened(w, id, n.disk.epoch);
    OpenOk(w, id, n.disk, ahead, dom);
    if survives {
      MarkOk(w1, id, n, ahead, dom);
      GrowsTransitive(w, w1, w', id);
    }
  }

  lemma AheadHarmless(w: World, id: Id, d: Disk, ahead: nat, ahead': nat, dom: bool)
    requires DiskOk(w, id, d, ahead, dom) && !Bootstrapped(d)
    ensures DiskOk(w, id, d, ahead', dom)
  {
  }

  lemma CreateGood(c: Cluster, id: Id, m: Member, waited: bool, survives: bool, dom: bool)
    requires Ready(c, id, m, Create(id, waited, survives), dom)
    ensures Good(c, id, m, Create(id, waited, survives), dom)
  {
    var st := Create(id, waited, survives);
    var w' := WorldAfter(c.world, m.node, st);
    CreateShape(c.world, m.node, id, waited, survives);
    CreateOk(c.world, id, m.node, m.ahead, survives, w', dom);
    if !survives && !Bootstrapped(m.node.disk) {
      AheadHarmless(w', id, m.node.disk, m.ahead, 0, dom);
    }
  }

  lemma SubscribeGood(c: Cluster, id: Id, m: Member, cleared: bool, dom: bool)
    requires Ready(c, id, m, Subscribe(id, cleared), dom)
    ensures Good(c, id, m, Subscribe(id, cleared), dom)
  {
    SameWorld(c, id, m, Subscribe(id, cleared), dom);
  }

  // ----- snapshots

  /** The rows a server reads are those of the position it reads with them. */
  lemma CaptureRowsOk(w: World, id: Id, d: Disk, ahead: nat, w': World, dom: bool)
    requires WorldOk(w) && DiskOk(w, id, d, ahead, dom) && (Bootstrapped(d) || Licensed(d))
    requires w' == if Bootstrapped(d) then w else ClaimSeed(w, d.epoch, ReplicaOf(d))
    ensures Grows(w, w', id) && WorldOk(w') && DiskOk(w', id, d, ahead, dom)
    ensures RowsPlaced(w', d.epoch, d.applied, d.rows)
  {
    if Bootstrapped(d) {
      GrowsReflexive(w, id);
    } else {
      ClaimOk(w, id, d, ahead, dom);
      SeedPlaced(w', d.epoch, ReplicaOf(d), dom);
    }
  }

  lemma CaptureShape(c: Cluster, id: Id, m: Member)
    ensures MemberAfter(c, m, CaptureRows(id)) == m
    ensures var d := m.node.disk;
            WorldAfter(c.world, m.node, CaptureRows(id)) ==
            if Bootstrapped(d) || !Licensed(d) then c.world else ClaimSeed(c.world, d.epoch, ReplicaOf(d))
  {
  }

  lemma CaptureMember(w: World, id: Id, m: Member, w': World, dom: bool)
    requires WorldOk(w) && MemberOk(w, id, m, dom) && m.leaving == Settled
    requires var d := m.node.disk;
             && (Bootstrapped(d) || Licensed(d))
             && w' == if Bootstrapped(d) then w else ClaimSeed(w, d.epoch, ReplicaOf(d))
    ensures Grows(w, w', id) && WorldOk(w') && MemberOk(w', id, m, dom)
    ensures RowsPlaced(w', m.node.disk.epoch, m.node.disk.applied, m.node.disk.rows)
  {
    CaptureRowsOk(w, id, m.node.disk, m.ahead, w', dom);
  }

  lemma CaptureRowsGood(c: Cluster, id: Id, m: Member, dom: bool)
    requires Ready(c, id, m, CaptureRows(id), dom)
    ensures Good(c, id, m, CaptureRows(id), dom)
    ensures RowsPlaced(WorldAfter(c.world, m.node, CaptureRows(id)), m.node.disk.epoch, m.node.disk.applied, m.node.disk.rows)
  {
    CaptureShape(c, id, m);
    CaptureMember(c.world, id, m, WorldAfter(c.world, m.node, CaptureRows(id)), dom);
  }

  lemma AllDomains(d: Domain)
    ensures d in ALL_DOMAINS <==> Registered(d)
  {
  }

  lemma CapturedAll(m: Domains, d: Domain)
    requires Registered(d)
    ensures d in CapturedDomains(m) && ValueOf(CapturedDomains(m), d) == ValueOf(m, d)
  {
  }

  lemma SameValuesAhead(m: Domains, m': Domains, seed: Replica, epoch: nat, log: seq<Entry>, at: nat, ahead: nat)
    requires at <= |log| && DomainsAhead(m, seed, epoch, log, at, ahead)
    requires forall x | Registered(x) :: ValueOf(m', x) == ValueOf(m, x)
    ensures DomainsAhead(m', seed, epoch, log, at, ahead)
  {
  }

  /** Domains read from a server that has not moved back belong to the position its rows were read at. */
  lemma CaptureDomainsOk(w: World, id: Id, d: Disk, ahead: nat, at: nat)
    requires DiskOk(w, id, d, ahead, true) && (Bootstrapped(d) || Licensed(d)) && d.applied >= at
    requires d.epoch in w.seed
    ensures DomainsPlaced(w, d.epoch, at, d.domains, if Bootstrapped(d) then ahead else 0)
  {
    if Bootstrapped(d) {
      CaptureLater(d.domains, w.seed[d.epoch], d.epoch, Log(w, d.epoch), at, d.applied, ahead);
    } else {
      SeedPlaced(w, d.epoch, ReplicaOf(d), true);
    }
  }

  lemma CapturedPlaced(w: World, e: nat, at: nat, m: Domains, ahead: nat)
    requires DomainsPlaced(w, e, at, m, ahead)
    ensures DomainsPlaced(w, e, at, CapturedDomains(m), ahead)
  {
    forall x | Registered(x) ensures ValueOf(CapturedDomains(m), x) == ValueOf(m, x) {
      CapturedAll(m, x);
    }
    SameValuesAhead(m, CapturedDomains(m), w.seed[e], e, Log(w, e), at, ahead);
  }

  function SnapshotOf(dr: Draft, m: Member): Sent {
    Sent(Snapshot(dr.epoch, dr.at, dr.rows, CapturedDomains(m.node.disk.domains)),
         if Bootstrapped(m.node.disk) then m.ahead else 0)
  }

  lemma SnapshotOk(c: Cluster, dr: Draft, m: Member, dom: bool)
    requires Ready(c, dr.server, m, CaptureDomains(dr), dom) && DraftOk(c.world, dr)
    ensures SentOk(c.world, SnapshotOf(dr, m), dom)
  {
    var d := m.node.disk;
    forall x | Registered(x) ensures x in CapturedDomains(d.domains) {
      CapturedAll(d.domains, x);
    }
    if dom {
      CaptureDomainsOk(c.world, dr.server, d, m.ahead, dr.at);
      CapturedPlaced(c.world, dr.epoch, dr.at, d.domains, if Bootstrapped(d) then m.ahead else 0);
    }
  }

  lemma InstalledDomains(w: World, local: Domains, s: Sent, written: set<Domain>)
    requires SentOk(w, s, true) && ALL_DOMAINS <= written
    ensures DomainsPlaced(w, s.snap.epoch, s.snap.at, InstallDomains(local, Restrict(s.snap.domains, written)), s.ahead)
  {
    var e, log, kept := s.snap.epoch, Log(w, s.snap.epoch), Restrict(s.snap.domains, written);
    forall x | Registered(x) ensures ValueOf(kept, x) == ValueOf(s.snap.domains, x) && x in kept {
      AllDomains(x);
    }
    SameValuesAhead(s.snap.domains, kept, w.seed[e], e, log, s.snap.at, s.ahead);
    InstallKeepsAhead(local, kept, w.seed[e], e, log, s.snap.at, s.ahead);
  }

  /** An install puts the rows in place whether or not its domains are written; whole, the domains too. */
  lemma InstallOk(w: World, id: Id, d: Disk, ahead: nat, s: Sent, written: set<Domain>, dom: bool)
    requires WorldOk(w) && DiskOk(w, id, d, ahead, dom) && SentOk(w, s, dom)
    requires d.enabled && (dom ==> ALL_DOMAINS <= written) && s.snap.epoch >= d.epoch
    ensures DiskOk(w, id, InstallPartly(d, s.snap, written), s.ahead, dom)
  {
    FoldConsistent(w.seed[s.snap.epoch], s.snap.epoch, Log(w, s.snap.epoch)[..s.snap.at]);
    if dom {
      InstalledDomains(w, d.domains, s, written);
    }
  }

  lemma InstallShape(c: Cluster, id: Id, m: Member, item: Sent, written: set<Domain>)
    ensures var d' := InstallPartly(m.node.disk, item.snap, written);
            && MemberAfter(c, m, InstallSent(id, item, written)) == m.(node := m.node.(disk := d'), ahead := item.ahead)
            && Bootstrapped(d') && WorldAfter(c.world, m.node, InstallSent(id, item, written)) == c.world
  {
  }

  lemma InstallGood(c: Cluster, id: Id, m: Member, item: Sent, written: set<Domain>, dom: bool)
    requires Ready(c, id, m, InstallSent(id, item, written), dom) && SentOk(c.world, item, dom)
    ensures Good(c, id, m, InstallSent(id, item, written), dom)
  {
    var d' := InstallPartly(m.node.disk, item.snap, written);
    InstallOk(c.world, id, m.node.disk, m.ahead, item, written, dom);
    InstallShape(c, id, m, item, written);
    SettledMember(c.world, id, m, m.(node := m.node.(disk := d'), ahead := item.ahead), dom);
    SameWorld(c, id, m, InstallSent(id, item, written), dom);
  }

  // ----- joining, founding, reforming, leaving

  lemma JoinGood(c: Cluster, id: Id, m: Member, e: nat, agent: bool, dom: bool)
    requires Ready(c, id, m, Join(id, e, agent), dom)
    ensures Good(c, id, m, Join(id, e, agent), dom)
  {
    SameWorld(c, id, m, Join(id, e, agent), dom);
  }

  lemma OwnGrows(w: World, id: Id, e: nat)
    requires WorldOk(w)
    ensures Grows(w, ClaimOwner(w, e, id), id) && WorldOk(ClaimOwner(w, e, id))
  {
  }

  lemma FoundOk(w: World, id: Id, d: Disk, ahead: nat, dom: bool)
    requires WorldOk(w) && DiskOk(w, id, d, ahead, dom) && d.epoch !in w.owner
    ensures DiskOk(ClaimOwner(w, d.epoch, id), id, Founded(d), ahead, dom) && !Bootstrapped(d)
  {
  }

  lemma FoundGood(c: Cluster, id: Id, m: Member, dom: bool)
    requires Ready(c, id, m, Found(id), dom)
    ensures Good(c, id, m, Found(id), dom)
  {
    OwnGrows(c.world, id, m.node.disk.epoch);
    FoundOk(c.world, id, m.node.disk, m.ahead, dom);
  }

  lemma ReformOk(w: World, id: Id, n: Node, ahead: nat, dom: bool)
    requires WorldOk(w) && DiskOk(w, id, n.disk, ahead, dom) && n.disk.epoch + 1 !in w.owner
    ensures DiskOk(ClaimOwner(w, n.disk.epoch + 1, id), id, Reformed(n).disk, ahead, dom)
  {
  }

  lemma ReformShape(c: Cluster, m: Member, id: Id)
    ensures WorldAfter(c.world, m.node, Reform(id)) == ClaimOwner(c.world, m.node.disk.epoch + 1, id)
    ensures MemberAfter(c, m, Reform(id)) == m.(node := Reformed(m.node))
  {
  }

  lemma ReformGood(c: Cluster, id: Id, m: Member, dom: bool)
    requires Ready(c, id, m, Reform(id), dom)
    ensures Good(c, id, m, Reform(id), dom)
  {
    ReformShape(c, m, id);
    OwnGrows(c.world, id, m.node.disk.epoch + 1);
    ReformOk(c.world, id, m.node, m.ahead, dom);
  }

  lemma WipeConsistent(r: Rows)
    requires Consistent(r)
    ensures Consistent(r.(devices := multiset{}))
  {
    assert multiset{} <= r.devices;
    SubtableUnique(Devices, multiset{}, r.devices);
  }

  /** Each of the four writes of leaving; the node is out of place from the first to the third. */
  lemma LeavingGood(c: Cluster, id: Id, m: Member, st: Step, dom: bool)
    requires Ready(c, id, m, st, dom) && LeavingStep(st)
    ensures Good(c, id, m, st, dom)
  {
    WipeConsistent(m.node.disk.rows);
    SameWorld(c, id, m, st, dom);
  }

  // ----- every step

  predicate WritesOrReads(st: Step) {
    || st.DirectWrite? || st.BlockManager? || st.LocalWrite? || st.DirectDomain? || st.PublishOp?
    || st.Deliver? || st.DeliverInterrupted? || st.DeliverUncommitted?
  }

  lemma WriteOrReadGood(c: Cluster, id: Id, m: Member, st: Step, dom: bool)
    requires Ready(c, id, m, st, dom) && WritesOrReads(st) && st.id == id
    ensures Good(c, id, m, st, dom)
  {
    match st {
      case DirectWrite(_, mut) => RowWriteGood(c, id, m, st, mut, dom);
      case BlockManager(_, device) => RowWriteGood(c, id, m, st, BlockMutation(device), dom);
      case LocalWrite(_, mut) => RowWriteGood(c, id, m, st, mut, dom);
      case DirectDomain(_, _, _) => DomainWriteGood(c, id, m, st, dom);
      case PublishOp(_, _, _, _, _, _) => PublishGood(c, id, m, st, dom);
      case Deliver(_, e, k) => DeliverGood(c, id, m, e, k, dom);
      case DeliverInterrupted(_, e, k) => DeliverInterruptedGood(c, id, m, e, k, dom);
      case DeliverUncommitted(_, e, k) => DeliverUncommittedGood(c, id, m, e, k, dom);
    }
  }

  lemma MemberGood(c: Cluster, id: Id, m: Member, st: Step, dom: bool)
    requires Ready(c, id, m, st, dom) && !st.LoseStream?
    requires st.InstallSent? ==> SentOk(c.world, st.item, dom)
    requires st.CaptureDomains? || st.id == id
    ensures Good(c, id, m, st, dom)
  {
    if TouchesMemoryOnly(st) {
      MemoryGood(c, id, m, st, dom);
    } else if LeavingStep(st) {
      LeavingGood(c, id, m, st, dom);
    } else if WritesOrReads(st) {
      WriteOrReadGood(c, id, m, st, dom);
    } else {
      match st {
        case Create(_, waited, survives) => CreateGood(c, id, m, waited, survives, dom);
        case SelfSeed(_) => SelfSeedGood(c, id, m, dom);
        case Subscribe(_, cleared) => SubscribeGood(c, id, m, cleared, dom);
        case CaptureRows(_) => CaptureRowsGood(c, id, m, dom);
        case InstallSent(_, item, written) => InstallGood(c, id, m, item, written, dom);
        case Join(_, e, agent) => JoinGood(c, id, m, e, agent, dom);
        case Found(_) => FoundGood(c, id, m, dom);
        case Reform(_) => ReformGood(c, id, m, dom);
      }
    }
  }

  /** Shape of a step: only its actor, the world, one draft and one snapshot can change. */
  lemma StepShape(c: Cluster, st: Step)
    requires Enabled(c, st) && !st.LoseStream?
    ensures var id := Actor(c, st);
            var c', m := Do(c, st), c.members[id];
            && c'.members == c.members[id := MemberAfter(c, m, st)]
            && c'.world == WorldAfter(c.world, m.node, st)
            && c'.drafts == c.drafts + (if st.CaptureRows?
                                        then {DraftOf(id, m.node.disk)} else {})
            && c'.sent == c.sent + (if st.CaptureDomains? then {SnapshotOf(st.draft, m)} else {})
  {
  }

  ghost predicate Under(c: Cluster, st: Step, dom: bool) {
    Enabled(c, st) && MeetsAll(c, st, if dom then FOR_DOMAINS else FOR_ROWS)
  }

  lemma EachMet(c: Cluster, st: Step, hs: set<Hypothesis>, h: Hypothesis)
    requires Enabled(c, st) && MeetsAll(c, st, hs) && h in hs && !st.LoseStream?
    ensures MemberMeets(c, c.members[Actor(c, st)], st, h)
  {
    assert Meets(c, st, h);
  }

  lemma RowRulesMet(c: Cluster, st: Step, hs: set<Hypothesis>)
    requires Enabled(c, st) && MeetsAll(c, st, hs) && FOR_ROWS <= hs && !st.LoseStream?
    ensures Asked(c, c.members[Actor(c, st)], st, false)
  {
    EachMet(c, st, hs, FrozenSeed);
    EachMet(c, st, hs, FreshSetups);
    EachMet(c, st, hs, OneSeed);
    EachMet(c, st, hs, SameEpoch);
    EachMet(c, st, hs, MaterializedServer);
    EachMet(c, st, hs, MembersOnly);
    EachMet(c, st, hs, WholeResets);
  }

  lemma DomainRulesMet(c: Cluster, st: Step, hs: set<Hypothesis>)
    requires Enabled(c, st) && MeetsAll(c, st, hs) && FOR_DOMAINS <= hs && !st.LoseStream?
    requires Asked(c, c.members[Actor(c, st)], st, false)
    ensures Asked(c, c.members[Actor(c, st)], st, true)
  {
    EachMet(c, st, hs, FrozenDomains);
    EachMet(c, st, hs, SteadyServer);
    EachMet(c, st, hs, WholeInstalls);
  }

  lemma RulesMet(c: Cluster, st: Step, dom: bool)
    requires Under(c, st, dom) && !st.LoseStream?
    ensures Asked(c, c.members[Actor(c, st)], st, dom)
  {
    RowRulesMet(c, st, if dom then FOR_DOMAINS else FOR_ROWS);
    if dom {
      DomainRulesMet(c, st, FOR_DOMAINS);
    }
  }

  /** One acting node, one grown world, one draft or snapshot more: enough for the whole cluster. */
  lemma Assemble(c: Cluster, st: Step, c': Cluster, dom: bool)
    requires Inv(c, dom) && Enabled(c, st) && !st.LoseStream? && c' == Do(c, st)
    requires Good(c, Actor(c, st), c.members[Actor(c, st)], st, dom)
    requires forall dr | dr in c'.drafts && dr !in c.drafts :: DraftOk(c'.world, dr)
    requires forall s | s in c'.sent && s !in c.sent :: SentOk(c'.world, s, dom)
    ensures Inv(c', dom)
  {
    var actor := Actor(c, st);
    StepShape(c, st);
    forall id | id in c'.members ensures MemberOk(c'.world, id, c'.members[id], dom) {
      if id != actor {
        MemberGrows(c.world, c'.world, actor, id, c.members[id], dom);
      }
    }
    forall dr | dr in c'.drafts ensures DraftOk(c'.world, dr) {
      if dr in c.drafts {
        RowsPlacedGrows(c.world, c'.world, actor, dr.epoch, dr.at, dr.rows);
      }
    }
    forall s | s in c'.sent ensures SentOk(c'.world, s, dom) {
      if s in c.sent {
        PlacedGrows(c.world, c'.world, actor, s.snap.epoch, s.snap.at, Replica(s.snap.rows, s.snap.domains), s.ahead, dom);
      }
    }
  }

  lemma InvGivesReady(c: Cluster, st: Step, dom: bool)
    requires Inv(c, dom) && Under(c, st, dom) && !st.LoseStream?
    ensures Ready(c, Actor(c, st), c.members[Actor(c, st)], st, dom)
    ensures st.InstallSent? ==> SentOk(c.world, st.item, dom)
    ensures st.CaptureDomains? ==> DraftOk(c.world, st.draft)
  {
    RulesMet(c, st, dom);
  }

  lemma LoseStep(c: Cluster, e: nat, dom: bool)
    requires Inv(c, dom)
    ensures Inv(Do(c, LoseStream(e)), dom)
  {
    var w' := c.world.(live := c.world.live - {e});
    assert Grows(c.world, w', 0) && w'.seed == c.world.seed;
    forall id | id in c.members ensures MemberOk(w', id, c.members[id], dom) {
      MemberGrows(c.world, w', 0, id, c.members[id], dom);
    }
    forall dr | dr in c.drafts ensures DraftOk(w', dr) {
      RowsPlacedGrows(c.world, w', 0, dr.epoch, dr.at, dr.rows);
    }
    forall s | s in c.sent ensures SentOk(w', s, dom) {
      PlacedGrows(c.world, w', 0, s.snap.epoch, s.snap.at, Replica(s.snap.rows, s.snap.domains), s.ahead, dom);
    }
  }

  lemma StepGood(c: Cluster, st: Step, dom: bool)
    requires Inv(c, dom) && Under(c, st, dom) && !st.LoseStream?
    ensures Good(c, Actor(c, st), c.members[Actor(c, st)], st, dom)
  {
    InvGivesReady(c, st, dom);
    MemberGood(c, Actor(c, st), c.members[Actor(c, st)], st, dom);
  }

  lemma NewDraftOk(c: Cluster, st: Step, c': Cluster, dom: bool)
    requires Inv(c, dom) && Under(c, st, dom) && !st.LoseStream? && c' == Do(c, st)
    ensures forall dr | dr in c'.drafts && dr !in c.drafts :: DraftOk(c'.world, dr)
  {
    StepShape(c, st);
    if st.CaptureRows? {
      InvGivesReady(c, st, dom);
      CaptureRowsGood(c, st.id, c.members[st.id], dom);
    }
  }

  lemma NewSentOk(c: Cluster, st: Step, c': Cluster, dom: bool)
    requires Inv(c, dom) && Under(c, st, dom) && !st.LoseStream? && c' == Do(c, st)
    ensures forall s | s in c'.sent && s !in c.sent :: SentOk(c'.world, s, dom)
  {
    StepShape(c, st);
    if st.CaptureDomains? {
      InvGivesReady(c, st, dom);
      MemoryShape(c, c.members[st.draft.server], st);
      SnapshotOk(c, st.draft, c.members[st.draft.server], dom);
    }
  }

  /** Every step that meets the hypotheses keeps the invariant, for the rows alone and with the domains. */
  lemma StepKeepsInv(c: Cluster, st: Step, dom: bool)
    requires Inv(c, dom) && Under(c, st, dom)
    ensures Inv(Do(c, st), dom)
  {
    if st.LoseStream? {
      LoseStep(c, st.epoch, dom);
    } else {
      var c' := Do(c, st);
      StepGood(c, st, dom);
      NewDraftOk(c, st, c', dom);
      NewSentOk(c, st, c', dom);
      Assemble(c, st, c', dom);
    }
  }

  lemma InitInv(c: Cluster, dom: bool)
    requires Init(c)
    ensures Inv(c, dom)
  {
    forall id | id in c.members ensures MemberOk(c.world, id, c.members[id], dom) {
      assert FreshNode(c.members[id].node);
    }
  }

  lemma {:induction false} RunKeepsInv(hs: set<Hypothesis>, c: Cluster, steps: seq<Step>, c': Cluster, dom: bool)
    requires Inv(c, dom) && RunUnder(hs, c, steps, c') && (if dom then FOR_DOMAINS else FOR_ROWS) <= hs
    ensures Inv(c', dom)
    decreases |steps|
  {
    if steps != [] {
      StepKeepsInv(c, steps[0], dom);
      RunKeepsInv(hs, Do(c, steps[0]), steps[1..], c', dom);
    }
  }

  // ----- the theorems

  /** A node that counts: bootstrapped, and not between the first write of leaving and the one that
      drops its position. */
  predicate Counts(c: Cluster, id: Id) {
    Has(c, id) && Bootstrapped(NodeOf(c, id).disk) && !MidReset(c.members[id])
  }

  /** In every reachable state a bootstrapped node's rows are the replay of its epoch's whole log, up
      to the sequence it recorded, over the epoch's seed, although the stream has long dropped the
      older entries and whatever became of the domains. */
  lemma RowsReplayTheLog(hs: set<Hypothesis>, c0: Cluster, steps: seq<Step>, c: Cluster, id: Id)
    requires Init(c0) && RunUnder(hs, c0, steps, c) && FOR_ROWS <= hs && Counts(c, id)
    ensures var d := NodeOf(c, id).disk;
            && d.epoch in c.world.seed && d.applied <= |Log(c.world, d.epoch)|
            && d.rows == Canon(c.world, d.epoch, d.applied).rows && Consistent(d.rows)
  {
    InitInv(c0, false);
    RunKeepsInv(hs, c0, steps, c, false);
    assert MemberOk(c.world, id, c.members[id], false);
  }

  /** Its domains are those of the replay too, every one the cluster holds, once the node has passed
      the position its domains were captured at, which it has at the latest at the end of the log. */
  lemma DomainsReplayTheLog(hs: set<Hypothesis>, c0: Cluster, steps: seq<Step>, c: Cluster, id: Id)
    requires Init(c0) && RunUnder(hs, c0, steps, c) && FOR_DOMAINS <= hs && Counts(c, id)
    requires var d := NodeOf(c, id).disk; c.members[id].ahead <= d.applied || d.applied == |Log(c.world, d.epoch)|
    ensures var d := NodeOf(c, id).disk;
            && d.epoch in c.world.seed && d.applied <= |Log(c.world, d.epoch)|
            && DomainsAgree(d.domains, Canon(c.world, d.epoch, d.applied).domains)
  {
    InitInv(c0, true);
    RunKeepsInv(hs, c0, steps, c, true);
    assert MemberOk(c.world, id, c.members[id], true);
    var d := NodeOf(c, id).disk;
    PassedMeansAgree(d.domains, c.world.seed[d.epoch], d.epoch, Log(c.world, d.epoch), d.applied, c.members[id].ahead);
  }

  /** Replicas never diverge: at the same epoch and sequence, two bootstrapped nodes hold the same
      rows, whether or not the installs they came from were finished. */
  lemma ReplicasAgree(hs: set<Hypothesis>, c0: Cluster, steps: seq<Step>, c: Cluster, a: Id, b: Id)
    requires Init(c0) && RunUnder(hs, c0, steps, c) && FOR_ROWS <= hs
    requires Counts(c, a) && Counts(c, b)
    requires NodeOf(c, a).disk.epoch == NodeOf(c, b).disk.epoch
    requires NodeOf(c, a).disk.applied == NodeOf(c, b).disk.applied
    ensures NodeOf(c, a).disk.rows == NodeOf(c, b).disk.rows
  {
    RowsReplayTheLog(hs, c0, steps, c, a);
    RowsReplayTheLog(hs, c0, steps, c, b);
  }

  /** A node that installs a snapshot of position s and then takes the entries after it stands, at
      every later position, where a replay of the whole log from the seed stands. */
  lemma {:induction false} SnapshotThenTail(w: World, e: nat, s: Replica, at: nat, ahead: nat, k: nat, dom: bool)
    requires Placed(w, e, at, s, ahead, dom) && at <= k <= |Log(w, e)|
    ensures Placed(w, e, k, Fold(s, e, Log(w, e)[at..k]), Max(k, ahead), dom)
    decreases k
  {
    if at == k {
      assert Log(w, e)[at..k] == [];
      WidenPlaced(w, e, at, s, ahead, Max(k, ahead), dom);
    } else {
      SnapshotThenTail(w, e, s, at, ahead, k - 1, dom);
      OneMore(w, e, s, at, ahead, k, dom);
    }
  }

  lemma WidenPlaced(w: World, e: nat, at: nat, s: Replica, ahead: nat, further: nat, dom: bool)
    requires Placed(w, e, at, s, ahead, dom) && ahead <= further <= Max(ahead, |Log(w, e)|)
    ensures Placed(w, e, at, s, further, dom)
  {
    if dom {
      Widen(s.domains, w.seed[e], e, Log(w, e), at, ahead, further);
    }
  }

  lemma OneMore(w: World, e: nat, s: Replica, at: nat, ahead: nat, k: nat, dom: bool)
    requires at < k <= |Log(w, e)| && Placed(w, e, k - 1, Fold(s, e, Log(w, e)[at..k - 1]), Max(k - 1, ahead), dom)
    ensures Placed(w, e, k, Fold(s, e, Log(w, e)[at..k]), Max(k, ahead), dom)
  {
    FoldStretch(s, e, Log(w, e), at, k);
    NextPlaced(w, e, k - 1, Fold(s, e, Log(w, e)[at..k - 1]), Max(k - 1, ahead), dom);
  }
}
