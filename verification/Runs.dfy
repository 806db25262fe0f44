/**
 Properties of every run, with no hypothesis on timing: epochs only move forward, a
 bootstrapped member writes through the log alone, and an abandoned epoch stays dead.
 */
module Runs {
  import opened Store
  import opened Replay
  import opened Node
  import opened Cluster

  // ----- epochs

  lemma HandleKeepsMarks(n: Node, k: nat, entry: Entry)
    ensures SameMarks(Handle(n, k, entry).disk, n.disk)
    ensures SameMarks(HandleInterrupted(n, k, entry).disk, n.disk)
    ensures SameMarks(HandleUncommitted(n, k, entry).disk, n.disk)
  {
    HandleDisk(n, k, entry);
  }

  predicate SameMarks(a: Disk, b: Disk) {
    a.epoch == b.epoch && a.bootMark == b.bootMark && a.licMark == b.licMark && a.enabled == b.enabled && a.agent == b.agent
  }

  predicate MovesMarks(st: Step) {
    || st.InstallSent? || st.Join? || st.Reform? || st.Found? || LeavingStep(st)
    || st.Create? || st.SelfSeed? || st.Subscribe?
  }

  /** What any step does to the marks of the node that takes it. */
  lemma MarksAfter(c: Cluster, m: Member, st: Step)
    requires MemberEnabled(c, m, st)
    ensures var d, d' := m.node.disk, NodeAfter(c, m.node, st).disk;
            && d'.epoch >= d.epoch
            && (st.InstallSent? ==> d'.epoch == st.item.snap.epoch && Bootstrapped(d') && d'.licMark == d.licMark
                                    && d'.enabled == d.enabled && d'.agent == d.agent && !IsEmpty(d'.rows))
            && (st.Join? && st.epoch > d.epoch ==> d'.epoch == st.epoch && d'.licMark == d.licMark)
            && (st.Join? && st.epoch <= d.epoch ==> d'.epoch == d.epoch && d'.licMark == d.licMark
                                                    && d'.bootMark == d.bootMark && d'.enabled)
            && (st.Reform? ==> d'.epoch == d.epoch + 1 && d'.licMark == d'.epoch)
            && (st.Found? ==> d'.epoch == d.epoch && d'.bootMark == d.bootMark && d'.enabled && d'.licMark == d.epoch)
            && (LeavingStep(st) ==> d'.epoch == d.epoch && (d'.licMark == d.licMark || d'.licMark == 0))
            && (st.WipeDevices? ==> SameMarks(d', d))
            && (st.DropLicence? ==> d'.licMark == 0 && d'.bootMark == d.bootMark && d'.enabled == d.enabled && d'.agent == d.agent)
            && (st.Create? || st.SelfSeed? || st.Subscribe? ==>
                  && d'.epoch == d.epoch && d'.agent == d.agent && d'.enabled == d.enabled
                  && (d'.licMark == d.licMark || d'.licMark == 0)
                  && (Bootstrapped(d) ==> Bootstrapped(d')))
            && (!MovesMarks(st) ==> SameMarks(d', d))
  {
    if !MovesMarks(st) {
      QuietMarks(c, m, st);
    } else if LeavingStep(st) {
      LeavingMarks(c, m, st);
    } else if st.Create? || st.SelfSeed? || st.Subscribe? {
      AttachMarks(c, m, st);
    }
  }

  lemma LeavingMarks(c: Cluster, m: Member, st: Step)
    requires LeavingStep(st)
    ensures var d, d' := m.node.disk, NodeAfter(c, m.node, st).disk;
            && d'.epoch == d.epoch && (d'.licMark == d.licMark || d'.licMark == 0)
            && (st.WipeDevices? ==> SameMarks(d', d))
            && (st.DropLicence? ==> d'.licMark == 0 && d'.bootMark == d.bootMark && d'.enabled == d.enabled && d'.agent == d.agent)
  {
  }

  lemma AttachMarks(c: Cluster, m: Member, st: Step)
    requires st.Create? || st.SelfSeed? || st.Subscribe?
    ensures var d, d' := m.node.disk, NodeAfter(c, m.node, st).disk;
            && d'.epoch == d.epoch && d'.agent == d.agent && d'.enabled == d.enabled
            && (d'.licMark == d.licMark || d'.licMark == 0)
            && (Bootstrapped(d) ==> Bootstrapped(d'))
  {
  }

  /** Most kinds of steps leave all marks alone. */
  lemma QuietMarks(c: Cluster, m: Member, st: Step)
    requires !MovesMarks(st)
    ensures SameMarks(NodeAfter(c, m.node, st).disk, m.node.disk)
  {
    if st.Deliver? || st.DeliverInterrupted? || st.DeliverUncommitted? {
      HandleKeepsMarks(m.node, st.k, EntryAt(c.world, st.epoch, st.k));
    }
  }

  /** A step changes at most its actor. */
  lemma Others(c: Cluster, st: Step, id: Id)
    requires Enabled(c, st) && Has(c, id)
    ensures Has(Do(c, st), id)
    ensures st.LoseStream? || Actor(c, st) != id ==> NodeOf(Do(c, st), id) == NodeOf(c, id)
    ensures !st.LoseStream? && Actor(c, st) == id ==> NodeOf(Do(c, st), id) == NodeAfter(c, NodeOf(c, id), st)
  {
  }

  lemma EpochStep(c: Cluster, st: Step, id: Id)
    requires Enabled(c, st) && Has(c, id)
    ensures Has(Do(c, st), id) && NodeOf(Do(c, st), id).disk.epoch >= NodeOf(c, id).disk.epoch
  {
    Others(c, st, id);
    if !st.LoseStream? && Actor(c, st) == id {
      MarksAfter(c, c.members[id], st);
    }
  }

  /** Over any run no node's epoch ever decreases. */
  lemma {:induction false} EpochsOnlyAdvance(c: Cluster, steps: seq<Step>, c': Cluster, id: Id)
    requires Run(c, steps, c') && Has(c, id)
    ensures Has(c', id) && NodeOf(c', id).disk.epoch >= NodeOf(c, id).disk.epoch
    decreases |steps|
  {
    if steps != [] {
      EpochStep(c, steps[0], id);
      EpochsOnlyAdvance(Do(c, steps[0]), steps[1..], c', id);
    }
  }

  /** Over any run no step installs a dump without rows: a store that had rows still has them unless
      a mutation, local or from the log, or the start of a reset took them away. */
  lemma InstallsAreNeverEmpty(c: Cluster, st: Step, id: Id)
    requires Enabled(c, st) && Has(c, id)
    requires !IsEmpty(NodeOf(c, id).disk.rows) && IsEmpty(NodeOf(Do(c, st), id).disk.rows)
    ensures Actor(c, st) == id && (st.DirectWrite? || st.BlockManager? || st.LocalWrite? || st.Deliver? || st.WipeDevices?)
  {
    Others(c, st, id);
    if !st.LoseStream? && Actor(c, st) == id {
      MarksAfter(c, c.members[id], st);
    }
  }

  // ----- writing through the log alone

  predicate IsMember(n: Node) {
    n.disk.enabled && Bootstrapped(n.disk)
  }

  /** The node drops its position or departs in a reset, reforms, or joins at a newer epoch. */
  predicate Leaves(c: Cluster, st: Step, id: Id)
    requires Has(c, id)
  {
    || ((st.DropPosition? || st.Depart?) && st.id == id)
    || (st.Reform? && st.id == id)
    || (st.Join? && st.id == id && st.epoch > NodeOf(c, id).disk.epoch)
  }

  ghost predicate NeverLeaves(c: Cluster, steps: seq<Step>, id: Id)
    decreases |steps|
  {
    steps != [] && Enabled(c, steps[0]) && Has(c, id) ==>
      !Leaves(c, steps[0], id) && NeverLeaves(Do(c, steps[0]), steps[1..], id)
  }

  lemma MemberStep(c: Cluster, st: Step, id: Id)
    requires Enabled(c, st) && Has(c, id) && IsMember(NodeOf(c, id)) && !Leaves(c, st, id)
    ensures Has(Do(c, st), id) && IsMember(NodeOf(Do(c, st), id))
  {
    Others(c, st, id);
    if !st.LoseStream? && Actor(c, st) == id {
      MarksAfter(c, c.members[id], st);
    }
  }

  /** A write outside the log by this node. */
  predicate AroundTheLog(st: Step, id: Id) {
    (st.DirectWrite? || st.DirectDomain? || st.BlockManager?) && st.id == id
  }

  /** Once a node of an enabled constellation is bootstrapped, nothing that happens to it later
      (restarts, detaching, a lost device cache, lost quorum, losing a stream, a new licence)
      lets it write outside the log, until a reset drops its position, it reforms or it joins at a
      newer epoch. */
  lemma {:induction false} BootstrappedWritesThroughTheLog(c: Cluster, steps: seq<Step>, c': Cluster, id: Id)
    requires Run(c, steps, c') && Has(c, id) && IsMember(NodeOf(c, id)) && NeverLeaves(c, steps, id)
    ensures Has(c', id) && IsMember(NodeOf(c', id)) && WriteMode(NodeOf(c', id)) != Direct
    ensures forall st: Step | AroundTheLog(st, id) :: !Enabled(c', st)
    decreases |steps|
  {
    if steps == [] {
      BootstrappedNeverDirect(NodeOf(c, id));
    } else {
      MemberStep(c, steps[0], id);
      BootstrappedWritesThroughTheLog(Do(c, steps[0]), steps[1..], c', id);
    }
  }

  /** And then the only steps that change such a node's rows are an entry of a log, an install, the
      start of a reset, and a setup or client sync, which look at no write mode. */
  lemma RowsChangeThroughTheLog(c: Cluster, st: Step, id: Id)
    requires Enabled(c, st) && Has(c, id) && IsMember(NodeOf(c, id)) && !Leaves(c, st, id)
    requires NodeOf(Do(c, st), id).disk.rows != NodeOf(c, id).disk.rows
    ensures (st.Deliver? || st.InstallSent? || st.WipeDevices? || st.LocalWrite?) && st.id == id
  {
    Others(c, st, id);
    BootstrappedNeverDirect(NodeOf(c, id));
  }

  // ----- an abandoned epoch

  /** Nothing at epoch `e` may create its stream: agents never do, and a manager there has
      materialized and holds no licence. */
  predicate Fenced(n: Node, e: nat) {
    && n.disk.licMark <= n.disk.epoch
    && (n.disk.epoch == e && !n.disk.agent ==> Bootstrapped(n.disk) && !Licensed(n.disk))
  }

  /** No manager at epoch `e` believes itself the only node. */
  predicate SeesPeers(n: Node, e: nat) {
    n.disk.epoch == e && !n.disk.agent ==> !Standalone(n)
  }

  ghost predicate Abandoned(c: Cluster, e: nat) {
    e !in c.world.live && forall id | id in c.members :: Fenced(NodeOf(c, id), e) && SeesPeers(NodeOf(c, id), e)
  }

  /** A node that enrolls into epoch `e` or, being there, enrolls again without moving on; that founds
      or leaves there; or that reforms into it. Moving on, by enrolling into a newer epoch or by
      reforming, is not excluded. */
  predicate Enters(c: Cluster, st: Step, e: nat)
    requires Enabled(c, st)
  {
    || ((st.Found? || st.DropPosition? || st.Depart?) && NodeOf(c, st.id).disk.epoch == e)
    || (st.Join? && (st.epoch == e || (NodeOf(c, st.id).disk.epoch == e && st.epoch < e)))
    || (st.Reform? && NodeOf(c, st.id).disk.epoch + 1 == e)
  }

  /** Along the run nobody enters the epoch and its managers go on seeing peers. */
  ghost predicate LeftAlone(c: Cluster, steps: seq<Step>, e: nat)
    decreases |steps|
  {
    steps != [] && Enabled(c, steps[0]) ==>
      && !Enters(c, steps[0], e)
      && (forall id | id in c.members :: SeesPeers(NodeOf(Do(c, steps[0]), id), e))
      && LeftAlone(Do(c, steps[0]), steps[1..], e)
  }

  lemma FencedStep(c: Cluster, m: Member, st: Step, e: nat)
    requires MemberEnabled(c, m, st) && Fenced(m.node, e)
    requires st.Found? || st.DropPosition? || st.Depart? ==> m.node.disk.epoch != e
    requires st.Join? ==> st.epoch != e && !(m.node.disk.epoch == e && st.epoch < e)
    requires st.Reform? ==> m.node.disk.epoch + 1 != e
    ensures Fenced(NodeAfter(c, m.node, st), e)
  {
    MarksAfter(c, m, st);
  }

  lemma NoCreation(c: Cluster, st: Step, e: nat)
    requires Enabled(c, st) && Abandoned(c, e)
    ensures e !in Do(c, st).world.live
  {
    if st.Create? {
      var n := NodeOf(c, st.id);
      assert Fenced(n, e) && SeesPeers(n, e);
      assert n.disk.epoch != e;
    }
  }

  lemma AbandonedStep(c: Cluster, st: Step, e: nat)
    requires Enabled(c, st) && Abandoned(c, e) && !Enters(c, st, e)
    requires forall id | id in c.members :: SeesPeers(NodeOf(Do(c, st), id), e)
    ensures Abandoned(Do(c, st), e)
  {
    NoCreation(c, st, e);
    forall id | id in Do(c, st).members ensures Fenced(NodeOf(Do(c, st), id), e) {
      Others(c, st, id);
      if !st.LoseStream? && Actor(c, st) == id {
        FencedStep(c, c.members[id], st, e);
      }
    }
  }

  /** Once an epoch's stream is gone and every manager there is bootstrapped, unlicensed and sees
      peers, no later step recreates the stream, and no publish at that epoch is ever stored. */
  lemma {:induction false} AbandonedEpochStaysDead(c: Cluster, steps: seq<Step>, c': Cluster, e: nat)
    requires Run(c, steps, c') && Abandoned(c, e) && LeftAlone(c, steps, e)
    ensures e !in c'.world.live
    ensures forall st: Step | st.PublishOp? && Enabled(c', st) && NodeOf(c', st.id).disk.epoch == e :: st.fate == Refused
    ensures forall st: Step | st.Create? && Enabled(c', st) :: NodeOf(c', st.id).disk.epoch != e
    decreases |steps|
  {
    if steps == [] {
      forall st: Step | st.Create? && Enabled(c', st) ensures NodeOf(c', st.id).disk.epoch != e {
        var n := NodeOf(c', st.id);
        assert Fenced(n, e) && SeesPeers(n, e);
      }
    } else {
      AbandonedStep(c, steps[0], e);
      AbandonedEpochStaysDead(Do(c, steps[0]), steps[1..], c', e);
    }
  }

  // ----- an epoch whose stream has no seed

  /** The stream of epoch `e` exists, and nobody can say what it starts from: no node there is
      bootstrapped or licensed, and no snapshot of that epoch is about. */
  ghost predicate Seedless(c: Cluster, e: nat) {
    && e in c.world.live
    && (forall id | id in c.members :: Unseeded(NodeOf(c, id).disk, e))
    && (forall dr | dr in c.drafts :: dr.epoch != e)
    && (forall s | s in c.sent :: s.snap.epoch != e)
  }

  predicate Unseeded(d: Disk, e: nat) {
    d.licMark <= d.epoch && (d.epoch == e ==> !Bootstrapped(d) && !Licensed(d))
  }

  /** A step that could give the epoch a seed again: a licence for it, or the loss of its stream; or
      an answer from a node there that has not materialized. */
  predicate Reseeds(c: Cluster, st: Step, e: nat)
    requires Enabled(c, st)
  {
    || (st.LoseStream? && st.epoch == e)
    || (st.Found? && NodeOf(c, st.id).disk.epoch == e)
    || (st.Reform? && NodeOf(c, st.id).disk.epoch + 1 == e)
    || (!st.LoseStream? && NodeOf(c, Actor(c, st)).disk.epoch == e && !Meets(c, st, MaterializedServer))
  }

  ghost predicate NeverReseeded(c: Cluster, steps: seq<Step>, e: nat)
    decreases |steps|
  {
    steps != [] && Enabled(c, steps[0]) ==> !Reseeds(c, steps[0], e) && NeverReseeded(Do(c, steps[0]), steps[1..], e)
  }

  /** On a stream that exists, the only way to declare oneself its seed is a licence for its epoch. */
  lemma SeedTakesLicence(c: Cluster, id: Id, e: nat)
    requires Seedless(c, e) && Has(c, id) && NodeOf(c, id).disk.epoch == e
    ensures !Enabled(c, SelfSeed(id)) && !Enabled(c, Create(id, true, true)) && !Enabled(c, Create(id, false, true))
    ensures forall cleared :: !Enabled(c, Subscribe(id, cleared))
  {
    assert Unseeded(NodeOf(c, id).disk, e);
  }

  lemma UnseededStep(c: Cluster, st: Step, e: nat)
    requires Enabled(c, st) && Seedless(c, e) && !Reseeds(c, st, e) && !st.LoseStream?
    ensures var m := c.members[Actor(c, st)]; Unseeded(NodeAfter(c, m.node, st).disk, e)
  {
    var m := c.members[Actor(c, st)];
    assert Unseeded(m.node.disk, e);
    MarksAfter(c, m, st);
    if st.InstallSent? {
      assert st.item in c.sent && st.item.snap.epoch != e;
    }
  }

  lemma SeedlessStep(c: Cluster, st: Step, e: nat)
    requires Enabled(c, st) && Seedless(c, e) && !Reseeds(c, st, e)
    ensures Seedless(Do(c, st), e)
  {
    var c' := Do(c, st);
    forall id | id in c'.members ensures Unseeded(NodeOf(c', id).disk, e) {
      Others(c, st, id);
      if !st.LoseStream? && Actor(c, st) == id {
        UnseededStep(c, st, e);
      }
    }
    if st.CaptureRows? {
      assert Unseeded(NodeOf(c, st.id).disk, e);
      assert NodeOf(c, st.id).disk.epoch == e ==> Meets(c, st, MaterializedServer);
    }
  }

  /** Then nothing but a new licence, the loss of the stream, or an answer it should not have got,
      ever bootstraps a node at that epoch: every node there waits for good. */
  lemma {:induction false} SeedlessStaysSeedless(c: Cluster, steps: seq<Step>, c': Cluster, e: nat)
    requires Run(c, steps, c') && Seedless(c, e) && NeverReseeded(c, steps, e)
    ensures Seedless(c', e)
    decreases |steps|
  {
    if steps != [] {
      SeedlessStep(c, steps[0], e);
      SeedlessStaysSeedless(Do(c, steps[0]), steps[1..], c', e);
    }
  }

  /** How an epoch gets there: a creator dies between making the stream and setting its marker. It
      leaves the stream without a seed exactly when it held no licence and was not bootstrapped,
      given that nobody else there could seed it and no snapshot of the epoch is about. */
  lemma DyingCreatorLeavesSeedless(c: Cluster, id: Id, waited: bool)
    requires Enabled(c, Create(id, waited, false))
    requires forall x | x in c.members :: NodeOf(c, x).disk.licMark <= NodeOf(c, x).disk.epoch
    requires var e := NodeOf(c, id).disk.epoch;
             && (forall x | x in c.members && x != id :: Unseeded(NodeOf(c, x).disk, e))
             && (forall dr | dr in c.drafts :: dr.epoch != e) && (forall s | s in c.sent :: s.snap.epoch != e)
    ensures Seedless(Do(c, Create(id, waited, false)), NodeOf(c, id).disk.epoch) <==>
            !Licensed(NodeOf(c, id).disk) && !Bootstrapped(NodeOf(c, id).disk)
  {
    var e, c' := NodeOf(c, id).disk.epoch, Do(c, Create(id, waited, false));
    forall x | x in c.members ensures NodeOf(c', x).disk == NodeOf(c, x).disk {
      Others(c, Create(id, waited, false), x);
    }
    assert Unseeded(NodeOf(c', id).disk, e) <==> !Licensed(NodeOf(c, id).disk) && !Bootstrapped(NodeOf(c, id).disk);
  }
}
