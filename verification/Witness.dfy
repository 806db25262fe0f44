/**
 Every hypothesis is needed: for each one, a run from a fresh cluster that keeps to all
 the others and ends in what the hypothesis is there to prevent. Without one of those
 for the rows, two bootstrapped nodes at one position hold different rows; without the
 one for verdicts, a writer is told what no replica finds; without one of those for the
 domains, two bootstrapped nodes at the end of one log hold different domains.
 */
module Witness {
  import opened Store
  import opened Replay
  import opened Node
  import opened Cluster
  import opened Agreement
  import opened Verdicts

  // ----- a small cluster

  /** The runs below work with any store that has rows and any mutation that it accepts and that
      changes it. */
  ghost predicate Changing(rows: Rows, m: Mutation) {
    Consistent(rows) && !IsEmpty(rows) && !IsEmpty(Wrote(rows, m)) && Wrote(rows, m) != rows
  }

  /** There are such: one user, and the insert of another. */
  lemma SomethingChanges()
    ensures exists rows, m :: Changing(rows, m)
  {
    var alice: Row, bob: Row := map[Nickname := "alice"], map[Nickname := "bob"];
    var rows, m := Rows(multiset{alice}, multiset{}), Mutation(Users, Insert([bob]));
    assert "alice"[0] != "bob"[0];
    assert Get(alice, Nickname) != Get(bob, Nickname);
    assert alice in rows.users;
    AddUnique(Users, multiset{alice}, bob);
    ApplyInsert(rows, Users, [bob]);
    assert multiset([bob]) == multiset{bob};
    assert bob in Wrote(rows, m).users && bob !in rows.users;
    assert Changing(rows, m);
  }

  /** And a store with an active device, the insert of which is therefore a violation. */
  ghost predicate HasActive(rows: Rows, dev: Row) {
    Consistent(rows) && dev in rows.devices && Active(dev)
  }

  lemma SomeActiveDevice()
    ensures exists rows, dev :: HasActive(rows, dev)
  {
    var dev: Row := map[];
    var rows := Rows(multiset{}, multiset{dev});
    assert HasActive(rows, dev);
  }

  const A: Id := 1
  const B: Id := 2
  const D: Id := 3

  const BLANK: Memory := Memory(false, false, 0, false, map[])
  const UP: Mesh := Mesh(true, false, false)

  function Newcomer(rows: Rows, epoch: nat, domains: Domains): Member {
    Member(Node(Disk(rows, domains, epoch, 0, 0, 0, false, false), BLANK, UP), 0, {}, Settled)
  }

  /** A cluster of three untouched nodes, and the empty run on it. */
  lemma Start(h: Hypothesis, rows: Rows, e: nat, e': nat, domains: Domains) returns (c: Cluster)
    requires e >= 1 && e' >= 1 && Consistent(rows)
    ensures Init(c) && Reached(h, c, c)
    ensures Has(c, A) && Has(c, B) && Has(c, D)
    ensures c.members[A] == Newcomer(rows, e, domains)
    ensures c.members[B] == Newcomer(rows, e', map[])
    ensures c.members[D] == Newcomer(rows, e', map[])
    ensures c.world == World({}, map[], map[], map[], map[])
  {
    c := Cluster(map[A := Newcomer(rows, e, domains), B := Newcomer(rows, e', map[]), D := Newcomer(rows, e', map[])],
                 World({}, map[], map[], map[], map[]), {}, {});
    assert RunWithout(h, c, [], c);
  }

  // ----- building runs step by step

  /** A run that keeps to every hypothesis but `h` leads from the one state to the other. */
  ghost predicate Reached(h: Hypothesis, c0: Cluster, c: Cluster) {
    exists steps :: RunWithout(h, c0, steps, c)
  }

  lemma {:induction false} ExtendUnder(hs: set<Hypothesis>, c0: Cluster, steps: seq<Step>, c: Cluster, st: Step)
    requires RunUnder(hs, c0, steps, c) && Enabled(c, st) && MeetsAll(c, st, hs)
    ensures RunUnder(hs, c0, steps + [st], Do(c, st))
    decreases |steps|
  {
    if steps == [] {
      assert [st][1..] == [];
      assert RunUnder(hs, Do(c, st), [], Do(c, st));
      assert steps + [st] == [st];
    } else {
      ExtendUnder(hs, Do(c0, steps[0]), steps[1..], c, st);
      assert (steps + [st])[0] == steps[0];
      assert (steps + [st])[1..] == steps[1..] + [st];
    }
  }

  /** A step that can be taken and meets every hypothesis but `h`. */
  predicate Lawful(h: Hypothesis, c: Cluster, st: Step) {
    && !st.LoseStream? && Has(c, Actor(c, st))
    && MemberEnabled(c, c.members[Actor(c, st)], st)
    && forall g | g != h :: MemberMeets(c, c.members[Actor(c, st)], st, g)
  }

  lemma LawfulMeets(h: Hypothesis, c: Cluster, st: Step)
    requires Lawful(h, c, st)
    ensures Enabled(c, st) && MeetsAll(c, st, ALL_HYPOTHESES - {h})
  {
    assert Enabled(c, st);
    forall g | g in ALL_HYPOTHESES - {h} ensures Meets(c, st, g) {
      assert MemberMeets(c, c.members[Actor(c, st)], st, g);
    }
  }

  /** One more step at the end of a run. */
  lemma Extend(h: Hypothesis, c0: Cluster, c: Cluster, st: Step) returns (c': Cluster)
    requires Reached(h, c0, c) && Lawful(h, c, st)
    ensures Reached(h, c0, c')
    ensures var id, m := Actor(c, st), c.members[Actor(c, st)];
            && c'.members == c.members[id := MemberAfter(c, m, st)]
            && c'.world == WorldAfter(c.world, m.node, st)
            && c'.drafts == c.drafts + (if st.CaptureRows? then {DraftOf(id, m.node.disk)} else {})
            && c'.sent == c.sent + (if st.CaptureDomains? then {SnapshotOf(st.draft, m)} else {})
  {
    var steps :| RunWithout(h, c0, steps, c);
    LawfulMeets(h, c, st);
    ExtendUnder(ALL_HYPOTHESES - {h}, c0, steps, c, st);
    c' := Do(c, st);
    StepShape(c, st);
    assert RunWithout(h, c0, steps + [st], c');
  }

  /** Between two states only one member differs. */
  predicate Frame(c: Cluster, c': Cluster, id: Id, m: Member) {
    && c'.members.Keys == c.members.Keys && Has(c', id)
    && c'.members[id] == m
    && (forall x | x in c.members && x != id :: c'.members[x] == c.members[x])
    && c.drafts <= c'.drafts && c.sent <= c'.sent
  }

  predicate SettledAt(c: Cluster, id: Id) {
    Has(c, id) && c.members[id].leaving == Settled
  }

  function WithDisk(m: Member, d: Disk): Member {
    m.(node := m.node.(disk := d))
  }

  lemma FoundLawful(h: Hypothesis, c: Cluster, id: Id)
    requires SettledAt(c, id) && (h == OneSeed || NodeOf(c, id).disk.epoch !in c.world.owner)
    ensures Lawful(h, c, Found(id))
  {
  }

  lemma TakeFound(h: Hypothesis, c0: Cluster, c: Cluster, id: Id) returns (c': Cluster)
    requires Reached(h, c0, c) && SettledAt(c, id)
    requires h == OneSeed || NodeOf(c, id).disk.epoch !in c.world.owner
    ensures Reached(h, c0, c')
    ensures Frame(c, c', id, WithDisk(c.members[id], Founded(NodeOf(c, id).disk)))
    ensures c'.world == ClaimOwner(c.world, NodeOf(c, id).disk.epoch, id)
  {
    FoundLawful(h, c, id);
    c' := Extend(h, c0, c, Found(id));
  }

  lemma TakeDirectWrite(h: Hypothesis, c0: Cluster, c: Cluster, id: Id, m: Mutation) returns (c': Cluster)
    requires Reached(h, c0, c) && SettledAt(c, id) && WriteMode(NodeOf(c, id)) == Direct
    requires h == FrozenSeed || !IsSeed(c.world, NodeOf(c, id).disk)
    ensures Reached(h, c0, c')
    ensures var d := NodeOf(c, id).disk; Frame(c, c', id, WithDisk(c.members[id], d.(rows := Wrote(d.rows, m))))
    ensures c'.world == c.world
  {
    c' := Extend(h, c0, c, DirectWrite(id, m));
  }

  lemma TakeDirectDomain(h: Hypothesis, c0: Cluster, c: Cluster, id: Id, x: Domain, text: string) returns (c': Cluster)
    requires Reached(h, c0, c) && SettledAt(c, id) && WriteMode(NodeOf(c, id)) == Direct
    requires h == FrozenDomains || !IsSeed(c.world, NodeOf(c, id).disk)
    ensures Reached(h, c0, c')
    ensures var d := NodeOf(c, id).disk;
            Frame(c, c', id, WithDisk(c.members[id], d.(domains := SetDomain(d.domains, x, text))))
    ensures c'.world == c.world
  {
    c' := Extend(h, c0, c, DirectDomain(id, x, text));
  }

  /** A licensed node opens the first stream of its epoch and marks itself. */
  lemma TakeCreate(h: Hypothesis, c0: Cluster, c: Cluster, id: Id) returns (c': Cluster)
    requires Reached(h, c0, c) && SettledAt(c, id)
    requires var n := NodeOf(c, id);
             && n.disk.epoch !in c.world.live && n.disk.epoch !in c.world.log && n.disk.epoch in c.world.owner
             && !n.mem.attached && !n.disk.agent && n.disk.enabled && Licensed(n.disk) && !Bootstrapped(n.disk)
    ensures Reached(h, c0, c')
    ensures Frame(c, c', id, c.members[id].(node := Seeded(NodeOf(c, id)), ahead := 0))
    ensures var e := NodeOf(c, id).disk.epoch;
            c'.world == ClaimSeed(c.world.(live := c.world.live + {e}, log := c.world.log[e := []]), e, ReplicaOf(NodeOf(c, id).disk))
  {
    c' := Extend(h, c0, c, Create(id, false, true));
  }

  lemma TakeSelfSeed(h: Hypothesis, c0: Cluster, c: Cluster, id: Id) returns (c': Cluster)
    requires Reached(h, c0, c) && SettledAt(c, id)
    requires var n := NodeOf(c, id);
             && n.disk.epoch in c.world.live && n.disk.epoch in c.world.seed
             && !n.mem.attached && n.disk.enabled && Licensed(n.disk) && !Bootstrapped(n.disk)
    ensures Reached(h, c0, c')
    ensures Frame(c, c', id, c.members[id].(node := Seeded(NodeOf(c, id)), ahead := 0)) && c'.world == c.world
  {
    c' := Extend(h, c0, c, SelfSeed(id));
  }

  lemma JoinLawful(h: Hypothesis, c: Cluster, id: Id, e: nat)
    requires SettledAt(c, id)
    ensures Lawful(h, c, Join(id, e, false))
  {
  }

  lemma TakeJoin(h: Hypothesis, c0: Cluster, c: Cluster, id: Id, e: nat) returns (c': Cluster)
    requires Reached(h, c0, c) && SettledAt(c, id)
    ensures Reached(h, c0, c')
    ensures Frame(c, c', id, WithDisk(c.members[id], Joined(NodeOf(c, id).disk, e, false))) && c'.world == c.world
  {
    JoinLawful(h, c, id, e);
    c' := Extend(h, c0, c, Join(id, e, false));
  }

  lemma ReformLawful(h: Hypothesis, c: Cluster, id: Id)
    requires SettledAt(c, id) && NodeOf(c, id).disk.epoch + 1 !in c.world.owner
    ensures Lawful(h, c, Reform(id))
  {
  }

  lemma TakeReform(h: Hypothesis, c0: Cluster, c: Cluster, id: Id) returns (c': Cluster)
    requires Reached(h, c0, c) && SettledAt(c, id) && NodeOf(c, id).disk.epoch + 1 !in c.world.owner
    ensures Reached(h, c0, c')
    ensures Frame(c, c', id, c.members[id].(node := Reformed(NodeOf(c, id))))
    ensures c'.world == ClaimOwner(c.world, NodeOf(c, id).disk.epoch + 1, id)
  {
    ReformLawful(h, c, id);
    c' := Extend(h, c0, c, Reform(id));
    ReformShape(c, c.members[id], id);
  }

  lemma TakeSubscribe(h: Hypothesis, c0: Cluster, c: Cluster, id: Id) returns (c': Cluster)
    requires Reached(h, c0, c) && SettledAt(c, id)
    requires var n := NodeOf(c, id);
             n.disk.epoch in c.world.live && !n.mem.attached && Bootstrapped(n.disk)
    ensures Reached(h, c0, c')
    ensures var m := c.members[id];
            Frame(c, c', id, m.(node := Subscribed(m.node, true), subs := m.subs + {m.node.disk.epoch})) && c'.world == c.world
  {
    c' := Extend(h, c0, c, Subscribe(id, true));
  }

  lemma OneEntryMore(w: World, w': World, e: nat, entry: Entry)
    requires w'.log == w.log[e := Log(w, e) + [entry]]
    ensures forall x :: Log(w', x) == Log(w, x) + if x == e then [entry] else []
  {
  }

  lemma PublishLawful(h: Hypothesis, c: Cluster, id: Id, m: Mutation, r: string, bestEffort: bool)
    requires SettledAt(c, id) && r !in c.world.home
    requires WriteMode(NodeOf(c, id)) == Publish && NodeOf(c, id).disk.epoch in c.world.live
    ensures Lawful(h, c, PublishOp(id, ENV_VERSION, Db(m), r, bestEffort, Acked))
  {
  }

  /** A publish that is stored and acknowledged. */
  lemma TakePublish(h: Hypothesis, c0: Cluster, c: Cluster, id: Id, m: Mutation, r: string, bestEffort: bool) returns (c': Cluster)
    requires Reached(h, c0, c) && SettledAt(c, id) && r !in c.world.home
    requires WriteMode(NodeOf(c, id)) == Publish && NodeOf(c, id).disk.epoch in c.world.live
    ensures Reached(h, c0, c')
    ensures var n := NodeOf(c, id);
            Frame(c, c', id, c.members[id].(node := if bestEffort then n else n.(mem := n.mem.(waiters := n.mem.waiters[r := Waiting]))))
    ensures var e := NodeOf(c, id).disk.epoch;
            c'.world == c.world.(log := c.world.log[e := Log(c.world, e) + [Envelope(ENV_VERSION, e, Db(m), r)]],
                                 home := c.world.home[r := Place(e, |Log(c.world, e)| + 1)])
    ensures forall e :: Log(c'.world, e) ==
              Log(c.world, e) + if e == NodeOf(c, id).disk.epoch then [Envelope(ENV_VERSION, e, Db(m), r)] else []
  {
    PublishLawful(h, c, id, m, r, bestEffort);
    c' := Extend(h, c0, c, PublishOp(id, ENV_VERSION, Db(m), r, bestEffort, Acked));
    OneEntryMore(c.world, c'.world, NodeOf(c, id).disk.epoch, Envelope(ENV_VERSION, NodeOf(c, id).disk.epoch, Db(m), r));
  }

  lemma TakeDeliver(h: Hypothesis, c0: Cluster, c: Cluster, id: Id, e: nat, k: nat) returns (c': Cluster, ahead: nat)
    requires Reached(h, c0, c) && Has(c, id) && e in c.members[id].subs && 1 <= k <= |Log(c.world, e)|
    requires h == SameEpoch || NodeOf(c, id).disk.epoch == e
    requires h == MaterializedReader || !Awaits(NodeOf(c, id), EntryAt(c.world, e, k))
             || (Bootstrapped(NodeOf(c, id).disk) && c.members[id].leaving == Settled)
    ensures Reached(h, c0, c') && c'.world == c.world
    ensures var m := c.members[id];
            Frame(c, c', id, m.(node := Handle(m.node, k, EntryAt(c.world, e, k)), ahead := ahead))
  {
    c' := Extend(h, c0, c, Deliver(id, e, k));
    ahead := c'.members[id].ahead;
  }

  function WholeSnapshot(d: Disk): Sent {
    Sent(Snapshot(d.epoch, d.applied, d.rows, CapturedDomains(d.domains)), 0)
  }

  lemma TakeCaptureRows(h: Hypothesis, c0: Cluster, c: Cluster, id: Id) returns (c': Cluster)
    requires Reached(h, c0, c) && SettledAt(c, id)
    requires MayServe(NodeOf(c, id)) && !IsEmpty(NodeOf(c, id).disk.rows)
    requires h == MaterializedServer || Bootstrapped(NodeOf(c, id).disk) || Licensed(NodeOf(c, id).disk)
    ensures Reached(h, c0, c')
    ensures c'.members == c.members && c.sent <= c'.sent
    ensures DraftOf(id, NodeOf(c, id).disk) in c'.drafts
    ensures var d := NodeOf(c, id).disk;
            c'.world == if Licensed(d) && !Bootstrapped(d) then ClaimSeed(c.world, d.epoch, ReplicaOf(d)) else c.world
  {
    c' := Extend(h, c0, c, CaptureRows(id));
  }

  lemma TakeCaptureDomains(h: Hypothesis, c0: Cluster, c: Cluster, dr: Draft) returns (c': Cluster)
    requires Reached(h, c0, c) && SettledAt(c, dr.server) && dr in c.drafts && c.members[dr.server].ahead == 0
    requires var d := NodeOf(c, dr.server).disk;
             h == SteadyServer ||
             ((dr.materialized ==> Bootstrapped(d) || Licensed(d)) && d.epoch == dr.epoch && d.applied >= dr.at)
    ensures Reached(h, c0, c')
    ensures c'.members == c.members && c'.world == c.world && c.sent <= c'.sent
    ensures Sent(Snapshot(dr.epoch, dr.at, dr.rows, CapturedDomains(NodeOf(c, dr.server).disk.domains)), 0) in c'.sent
  {
    c' := Extend(h, c0, c, CaptureDomains(dr));
  }

  /** A node answers a snapshot request: the rows, then the domains. */
  lemma TakeServe(h: Hypothesis, c0: Cluster, c: Cluster, id: Id) returns (c': Cluster)
    requires Reached(h, c0, c) && SettledAt(c, id) && c.members[id].ahead == 0
    requires MayServe(NodeOf(c, id)) && !IsEmpty(NodeOf(c, id).disk.rows)
    requires h == MaterializedServer || Bootstrapped(NodeOf(c, id).disk) || Licensed(NodeOf(c, id).disk)
    ensures Reached(h, c0, c')
    ensures c'.members == c.members && WholeSnapshot(NodeOf(c, id).disk) in c'.sent && c.sent <= c'.sent
    ensures var d := NodeOf(c, id).disk;
            c'.world == if Licensed(d) && !Bootstrapped(d) then ClaimSeed(c.world, d.epoch, ReplicaOf(d)) else c.world
  {
    var d := NodeOf(c, id).disk;
    c' := TakeCaptureRows(h, c0, c, id);
    c' := TakeCaptureDomains(h, c0, c', DraftOf(id, d));
  }

  lemma TakeInstall(h: Hypothesis, c0: Cluster, c: Cluster, id: Id, item: Sent, written: set<Domain>) returns (c': Cluster)
    requires Reached(h, c0, c) && SettledAt(c, id) && item in c.sent
    requires !NodeOf(c, id).mem.attached && !IsEmpty(item.snap.rows) && item.snap.epoch >= NodeOf(c, id).disk.epoch
    requires h == MembersOnly || NodeOf(c, id).disk.enabled
    requires h == WholeInstalls || written == ALL_DOMAINS
    ensures Reached(h, c0, c') && c'.world == c.world
    ensures var m := c.members[id];
            Frame(c, c', id, WithDisk(m, InstallPartly(m.node.disk, item.snap, written)).(ahead := item.ahead))
  {
    c' := Extend(h, c0, c, InstallSent(id, item, written));
  }

  lemma WipeLawful(h: Hypothesis, c: Cluster, id: Id)
    requires SettledAt(c, id)
    ensures Lawful(h, c, WipeDevices(id))
  {
  }

  lemma TakeWipe(h: Hypothesis, c0: Cluster, c: Cluster, id: Id) returns (c': Cluster)
    requires Reached(h, c0, c) && SettledAt(c, id)
    ensures Reached(h, c0, c') && c'.world == c.world
    ensures Frame(c, c', id, c.members[id].(node := Wiped(NodeOf(c, id)), leaving := DevicesWiped))
  {
    WipeLawful(h, c, id);
    c' := Extend(h, c0, c, WipeDevices(id));
  }

  lemma DropLicenceLawful(h: Hypothesis, c: Cluster, id: Id)
    requires Has(c, id) && c.members[id].leaving == DevicesWiped
    ensures Lawful(h, c, DropLicence(id))
  {
  }

  lemma TakeDropLicence(h: Hypothesis, c0: Cluster, c: Cluster, id: Id) returns (c': Cluster)
    requires Reached(h, c0, c) && Has(c, id) && c.members[id].leaving == DevicesWiped
    ensures Reached(h, c0, c') && c'.world == c.world
    ensures Frame(c, c', id, c.members[id].(node := Unlicensed(NodeOf(c, id)), leaving := LicenceDropped))
  {
    DropLicenceLawful(h, c, id);
    c' := Extend(h, c0, c, DropLicence(id));
  }

  lemma DropPositionLawful(h: Hypothesis, c: Cluster, id: Id)
    requires Has(c, id) && c.members[id].leaving == LicenceDropped
    ensures Lawful(h, c, DropPosition(id))
  {
  }

  lemma TakeDropPosition(h: Hypothesis, c0: Cluster, c: Cluster, id: Id) returns (c': Cluster)
    requires Reached(h, c0, c) && Has(c, id) && c.members[id].leaving == LicenceDropped
    ensures Reached(h, c0, c') && c'.world == c.world
    ensures Frame(c, c', id, c.members[id].(node := Dropped(NodeOf(c, id)), leaving := PositionDropped))
  {
    DropPositionLawful(h, c, id);
    c' := Extend(h, c0, c, DropPosition(id));
  }

  lemma DepartLawful(h: Hypothesis, c: Cluster, id: Id)
    requires Has(c, id) && c.members[id].leaving == PositionDropped
    ensures Lawful(h, c, Depart(id))
  {
  }

  lemma TakeDepart(h: Hypothesis, c0: Cluster, c: Cluster, id: Id) returns (c': Cluster)
    requires Reached(h, c0, c) && Has(c, id) && c.members[id].leaving == PositionDropped
    ensures Reached(h, c0, c') && c'.world == c.world
    ensures Frame(c, c', id, c.members[id].(node := Departed(NodeOf(c, id)), leaving := Settled))
  {
    DepartLawful(h, c, id);
    c' := Extend(h, c0, c, Depart(id));
  }

  lemma TakeLocalWrite(h: Hypothesis, c0: Cluster, c: Cluster, id: Id, m: Mutation) returns (c': Cluster)
    requires Reached(h, c0, c) && SettledAt(c, id) && !IsSeed(c.world, NodeOf(c, id).disk)
    requires h == FreshSetups || !Bootstrapped(NodeOf(c, id).disk)
    ensures Reached(h, c0, c') && c'.world == c.world
    ensures var d := NodeOf(c, id).disk; Frame(c, c', id, WithDisk(c.members[id], d.(rows := Wrote(d.rows, m))))
  {
    c' := Extend(h, c0, c, LocalWrite(id, m));
  }

  lemma TakeCrash(h: Hypothesis, c0: Cluster, c: Cluster, id: Id) returns (c': Cluster)
    requires Reached(h, c0, c) && Has(c, id) && (h == WholeResets || c.members[id].leaving == Settled)
    ensures Reached(h, c0, c') && c'.world == c.world
    ensures Frame(c, c', id, c.members[id].(node := Restarted(NodeOf(c, id)), subs := {}, leaving := Settled))
  {
    c' := Extend(h, c0, c, Crash(id));
  }

  // ----- what a witness shows

  ghost predicate SamePlace(c: Cluster, a: Id, b: Id) {
    && Counts(c, a) && Counts(c, b)
    && NodeOf(c, a).disk.epoch == NodeOf(c, b).disk.epoch
    && NodeOf(c, a).disk.applied == NodeOf(c, b).disk.applied
  }

  /** Two bootstrapped nodes at one position with different rows. */
  ghost predicate Diverged(c: Cluster, a: Id, b: Id) {
    SamePlace(c, a, b) && NodeOf(c, a).disk.rows != NodeOf(c, b).disk.rows
  }

  /** A settled, bootstrapped node with these rows at this position. */
  predicate At(c: Cluster, id: Id, rows: Rows, e: nat, at: nat) {
    && SettledAt(c, id)
    && var d := NodeOf(c, id).disk; d.rows == rows && d.epoch == e && d.bootMark == e && d.applied == at
  }

  lemma Apart(c: Cluster, a: Id, b: Id, rows: Rows, other: Rows, e: nat, at: nat)
    requires At(c, a, rows, e, at) && At(c, b, other, e, at) && rows != other
    ensures Diverged(c, a, b)
  {
  }

  /** Two bootstrapped nodes at the end of one log with different values of one config domain. */
  ghost predicate DomainsDiverged(c: Cluster, a: Id, b: Id, x: Domain) {
    && SamePlace(c, a, b) && NodeOf(c, a).disk.applied == |Log(c.world, NodeOf(c, a).disk.epoch)|
    && Registered(x) && !IsFile(x) && ValueOf(NodeOf(c, a).disk.domains, x) != ValueOf(NodeOf(c, b).disk.domains, x)
  }

  /** A writer is about to return a verdict that is not the one of the replay. */
  ghost predicate Misled(c: Cluster, id: Id, r: string) {
    && Has(c, id) && r in NodeOf(c, id).mem.waiters && NodeOf(c, id).mem.waiters[r] == Told(Success)
    && r in c.world.home && CanonVerdict(c.world, c.world.home[r].epoch, c.world.home[r].k, Constraint)
  }

  /** The founder at the end of formation: bootstrapped at (1, 0), still licensed, its stream open. */
  predicate Founder(m: Member, rows: Rows, domains: Domains) {
    && m.node.disk == Disk(rows, domains, 1, 0, 1, 1, true, false)
    && !m.node.mem.attached && !m.node.mem.halted && m.node.mem.waiters == map[] && m.node.mesh == UP
    && m.ahead == 0 && m.leaving == Settled && m.subs == {}
  }

  /** The streams when epoch one alone was ever opened, by node A, and nothing was published. */
  predicate OnlyOne(w: World, seed: Replica) {
    w.live == {1} && w.log == map[1 := []] && w.seed == map[1 := seed] && w.owner == map[1 := A] && w.home == map[]
  }

  predicate Untouched(c: Cluster, id: Id, rows: Rows, e: nat) {
    Has(c, id) && c.members[id] == Newcomer(rows, e, map[])
  }

  /** Node A founds a constellation at epoch one and opens its log. */
  lemma Formation(h: Hypothesis, rows: Rows, e': nat, domains: Domains) returns (c0: Cluster, c: Cluster)
    requires e' >= 1 && Consistent(rows)
    ensures Init(c0) && Reached(h, c0, c)
    ensures Has(c, A) && Founder(c.members[A], rows, domains) && OnlyOne(c.world, Replica(rows, domains))
    ensures Untouched(c, B, rows, e') && Untouched(c, D, rows, e')
  {
    c0 := Start(h, rows, 1, e', domains);
    c := TakeFound(h, c0, c0, A);
    c := TakeCreate(h, c0, c, A);
  }

  /** Node A founds a constellation and writes, before the log exists. */
  lemma FoundedAndWritten(h: Hypothesis, rows: Rows, m: Mutation, e': nat) returns (c0: Cluster, c: Cluster)
    requires e' >= 1 && Consistent(rows)
    ensures Init(c0) && Reached(h, c0, c)
    ensures Has(c, A)
    ensures c.members[A] == Member(Node(Disk(Wrote(rows, m), map[], 1, 0, 0, 1, true, false), BLANK, UP), 0, {}, Settled)
    ensures c.world == World({}, map[], map[], map[1 := A], map[])
    ensures Untouched(c, B, rows, e') && Untouched(c, D, rows, e')
  {
    c0 := Start(h, rows, 1, e', map[]);
    c := TakeFound(h, c0, c0, A);
    c := TakeDirectWrite(h, c0, c, A, m);
  }

  /** The same with one write of the founder before the log exists. */
  lemma FormationWithWrite(h: Hypothesis, rows: Rows, m: Mutation, e': nat) returns (c0: Cluster, c: Cluster)
    requires e' >= 1 && Consistent(rows)
    ensures Init(c0) && Reached(h, c0, c)
    ensures Has(c, A) && Founder(c.members[A], Wrote(rows, m), map[]) && OnlyOne(c.world, Replica(Wrote(rows, m), map[]))
    ensures Untouched(c, B, rows, e') && Untouched(c, D, rows, e')
  {
    c0, c := FoundedAndWritten(h, rows, m, e');
    c := TakeCreate(h, c0, c, A);
  }

  /** The founder's snapshot, handed to B at (1, 0). */
  lemma Shared(h: Hypothesis, rows: Rows, domains: Domains, written: set<Domain>) returns (c0: Cluster, c: Cluster)
    requires Consistent(rows) && !IsEmpty(rows) && (h == WholeInstalls || written == ALL_DOMAINS)
    ensures Init(c0) && Reached(h, c0, c)
    ensures Has(c, A) && Founder(c.members[A], rows, domains) && OnlyOne(c.world, Replica(rows, domains))
    ensures Has(c, B) && c.members[B].leaving == Settled && c.members[B].ahead == 0
    ensures var item := WholeSnapshot(Disk(rows, domains, 1, 0, 1, 1, true, false));
            NodeOf(c, B).disk == InstallPartly(Disk(rows, map[], 1, 0, 0, 0, true, false), item.snap, written)
    ensures Untouched(c, D, rows, 1)
  {
    c0, c := Formation(h, rows, 1, domains);
    c := TakeJoin(h, c0, c, B, 1);
    var item := WholeSnapshot(NodeOf(c, A).disk);
    c := TakeServe(h, c0, c, A);
    c := TakeInstall(h, c0, c, B, item, written);
  }

  // ----- rows

  /** A licensed node at the start of its epoch makes the stream its own. */
  predicate AboutToCreate(c: Cluster, id: Id, rows: Rows, e: nat) {
    && SettledAt(c, id) && e !in c.world.live && e !in c.world.log && e in c.world.owner
    && var n := NodeOf(c, id);
       && n.disk.epoch == e && n.disk.licMark == e && n.disk.bootMark != e && n.disk.applied == 0 && n.disk.rows == rows
       && n.disk.enabled && !n.disk.agent && !n.mem.attached
  }

  lemma FounderCreates(h: Hypothesis, c0: Cluster, c: Cluster, id: Id, rows: Rows, e: nat) returns (c': Cluster)
    requires Reached(h, c0, c) && AboutToCreate(c, id, rows, e)
    ensures Reached(h, c0, c') && At(c', id, rows, e, 0)
    ensures forall x | x in c.members && x != id :: x in c'.members && c'.members[x] == c.members[x]
    ensures c.sent <= c'.sent
  {
    c' := TakeCreate(h, c0, c, id);
  }

  /** The founder has its stream, and a second node is given a licence for the same epoch. */
  lemma SecondLicence(rows: Rows, m: Mutation) returns (c0: Cluster, c: Cluster)
    requires Consistent(rows)
    ensures Init(c0) && Reached(OneSeed, c0, c)
    ensures At(c, A, Wrote(rows, m), 1, 0)
    ensures SettledAt(c, B) && NodeOf(c, B) == Node(Disk(rows, map[], 1, 0, 0, 1, true, false), BLANK, UP)
    ensures 1 in c.world.live && 1 in c.world.seed
  {
    c0, c := FormationWithWrite(OneSeed, rows, m, 1);
    c := TakeFound(OneSeed, c0, c, B);
  }

  lemma TwoLicencesApart(rows: Rows, m: Mutation) returns (c0: Cluster, c: Cluster)
    requires Changing(rows, m)
    ensures Init(c0) && Reached(OneSeed, c0, c)
    ensures At(c, A, Wrote(rows, m), 1, 0) && At(c, B, rows, 1, 0)
  {
    c0, c := SecondLicence(rows, m);
    c := SecondSeeds(c0, c, rows);
  }

  lemma SecondSeeds(c0: Cluster, c: Cluster, rows: Rows) returns (c': Cluster)
    requires Reached(OneSeed, c0, c) && Has(c, A) && SettledAt(c, B) && 1 in c.world.live && 1 in c.world.seed
    requires NodeOf(c, B) == Node(Disk(rows, map[], 1, 0, 0, 1, true, false), BLANK, UP)
    ensures Reached(OneSeed, c0, c') && At(c', B, rows, 1, 0) && Has(c', A) && c'.members[A] == c.members[A]
  {
    c' := TakeSelfSeed(OneSeed, c0, c, B);
  }

  /** OneSeed is needed. Two licences for one epoch: the second holder seeds itself over the first
      one's log. */
  lemma TwoLicencesDiverge(rows: Rows, m: Mutation) returns (c0: Cluster, c: Cluster)
    requires Changing(rows, m)
    ensures Init(c0) && Reached(OneSeed, c0, c) && Diverged(c, A, B)
  {
    c0, c := TwoLicencesApart(rows, m);
    Apart(c, A, B, Wrote(rows, m), rows, 1, 0);
  }

  /** A peer installs the founder's snapshot before there is a stream. */
  lemma EarlySnapshot(h: Hypothesis, rows: Rows) returns (c0: Cluster, c: Cluster)
    requires Consistent(rows) && !IsEmpty(rows)
    ensures Init(c0) && Reached(h, c0, c)
    ensures SettledAt(c, A) && NodeOf(c, A) == Node(Disk(rows, map[], 1, 0, 0, 1, true, false), BLANK, UP)
    ensures SettledAt(c, B) && c.members[B].ahead == 0
    ensures NodeOf(c, B).disk == Install(Disk(rows, map[], 1, 0, 0, 0, true, false), Snapshot(1, 0, rows, CapturedDomains(map[])))
    ensures c.world == World({}, map[], map[1 := Replica(rows, map[])], map[1 := A], map[])
  {
    c0 := Start(h, rows, 1, 1, map[]);
    c := TakeFound(h, c0, c0, A);
    c := TakeJoin(h, c0, c, B, 1);
    var item := WholeSnapshot(NodeOf(c, A).disk);
    c := TakeServe(h, c0, c, A);
    c := TakeInstall(h, c0, c, B, item, ALL_DOMAINS);
    WholeRestrict(item.snap.domains);
  }

  lemma WholeRestrict(m: Domains)
    requires m.Keys <= ALL_DOMAINS
    ensures Restrict(m, ALL_DOMAINS) == m
  {
    assert m.Keys - ALL_DOMAINS == {};
  }

  lemma WritesAfterServing(rows: Rows, m: Mutation) returns (c0: Cluster, c: Cluster)
    requires Consistent(rows) && !IsEmpty(rows)
    ensures Init(c0) && Reached(FrozenSeed, c0, c)
    ensures SettledAt(c, A) && NodeOf(c, A) == Node(Disk(Wrote(rows, m), map[], 1, 0, 0, 1, true, false), BLANK, UP)
    ensures At(c, B, rows, 1, 0)
    ensures c.world == World({}, map[], map[1 := Replica(rows, map[])], map[1 := A], map[])
  {
    c0, c := EarlySnapshot(FrozenSeed, rows);
    c := TakeDirectWrite(FrozenSeed, c0, c, A, m);
  }

  lemma ThawedSeedApart(rows: Rows, m: Mutation) returns (c0: Cluster, c: Cluster)
    requires Changing(rows, m)
    ensures Init(c0) && Reached(FrozenSeed, c0, c)
    ensures At(c, A, Wrote(rows, m), 1, 0) && At(c, B, rows, 1, 0)
  {
    c0, c := WritesAfterServing(rows, m);
    c := FounderCreates(FrozenSeed, c0, c, A, Wrote(rows, m), 1);
  }

  /** FrozenSeed is needed. The founder, whose store a peer has already been given, writes on. */
  lemma ThawedSeedDiverges(rows: Rows, m: Mutation) returns (c0: Cluster, c: Cluster)
    requires Changing(rows, m)
    ensures Init(c0) && Reached(FrozenSeed, c0, c) && Diverged(c, A, B)
  {
    c0, c := ThawedSeedApart(rows, m);
    Apart(c, A, B, Wrote(rows, m), rows, 1, 0);
  }

  /** A node has joined and left again. */
  lemma JoinedAndLeft(rows: Rows) returns (c0: Cluster, c: Cluster)
    requires Consistent(rows)
    ensures Init(c0) && Reached(MembersOnly, c0, c)
    ensures Has(c, A) && Founder(c.members[A], rows, map[])
    ensures SettledAt(c, B) && NodeOf(c, B).mem == BLANK && !NodeOf(c, B).mesh.selfBlocked
    ensures NodeOf(c, B).disk == Disk(rows.(devices := multiset{}), map[], 1, 0, 0, 0, false, false)
  {
    var h := MembersOnly;
    c0, c := Formation(h, rows, 1, map[]);
    c := TakeJoin(h, c0, c, B, 1);
    c := TakeWipe(h, c0, c, B);
    c := TakeDropLicence(h, c0, c, B);
    c := TakeDropPosition(h, c0, c, B);
    c := TakeDepart(h, c0, c, B);
  }

  /** Its loop goes on and installs the founder's snapshot. */
  lemma OutsiderInstalls(rows: Rows) returns (c0: Cluster, c: Cluster)
    requires Consistent(rows) && !IsEmpty(rows)
    ensures Init(c0) && Reached(MembersOnly, c0, c)
    ensures At(c, A, rows, 1, 0) && At(c, B, rows, 1, 0)
    ensures WriteMode(NodeOf(c, B)) == Direct && NodeOf(c, B).disk.licMark == 0
  {
    var h := MembersOnly;
    c0, c := JoinedAndLeft(rows);
    var item := WholeSnapshot(NodeOf(c, A).disk);
    c := TakeServe(h, c0, c, A);
    c := TakeInstall(h, c0, c, B, item, ALL_DOMAINS);
  }

  lemma OutsiderApart(rows: Rows, m: Mutation) returns (c0: Cluster, c: Cluster)
    requires Changing(rows, m)
    ensures Init(c0) && Reached(MembersOnly, c0, c)
    ensures At(c, A, rows, 1, 0) && At(c, B, Wrote(rows, m), 1, 0)
  {
    c0, c := OutsiderInstalls(rows);
    c := OutsiderWrites(c0, c, rows, m);
  }

  lemma OutsiderWrites(c0: Cluster, c: Cluster, rows: Rows, m: Mutation) returns (c': Cluster)
    requires Reached(MembersOnly, c0, c) && Has(c, A) && At(c, B, rows, 1, 0)
    requires WriteMode(NodeOf(c, B)) == Direct && NodeOf(c, B).disk.licMark == 0
    ensures Reached(MembersOnly, c0, c') && At(c', B, Wrote(rows, m), 1, 0)
    ensures Has(c', A) && c'.members[A] == c.members[A]
  {
    c' := TakeDirectWrite(MembersOnly, c0, c, B, m);
  }

  /** MembersOnly is needed. A node that has left installs a snapshot and then writes directly. */
  lemma OutsiderDiverges(rows: Rows, m: Mutation) returns (c0: Cluster, c: Cluster)
    requires Changing(rows, m)
    ensures Init(c0) && Reached(MembersOnly, c0, c) && Diverged(c, A, B)
  {
    c0, c := OutsiderApart(rows, m);
    Apart(c, A, B, rows, Wrote(rows, m), 1, 0);
  }

  lemma SharedPlain(rows: Rows) returns (c0: Cluster, c: Cluster)
    requires Consistent(rows) && !IsEmpty(rows)
    ensures Init(c0) && Reached(FreshSetups, c0, c)
    ensures At(c, A, rows, 1, 0) && At(c, B, rows, 1, 0) && NodeOf(c, B).disk.licMark == 0
  {
    c0, c := Shared(FreshSetups, rows, map[], ALL_DOMAINS);
  }

  lemma SetupApart(rows: Rows, m: Mutation) returns (c0: Cluster, c: Cluster)
    requires Changing(rows, m)
    ensures Init(c0) && Reached(FreshSetups, c0, c)
    ensures At(c, A, rows, 1, 0) && At(c, B, Wrote(rows, m), 1, 0)
  {
    c0, c := SharedPlain(rows);
    c := SetupTaken(c0, c, rows, m);
  }

  lemma SetupTaken(c0: Cluster, c: Cluster, rows: Rows, m: Mutation) returns (c': Cluster)
    requires Reached(FreshSetups, c0, c) && Has(c, A) && At(c, B, rows, 1, 0) && NodeOf(c, B).disk.licMark == 0
    ensures Reached(FreshSetups, c0, c') && At(c', B, Wrote(rows, m), 1, 0)
    ensures Has(c', A) && c'.members[A] == c.members[A]
  {
    c' := TakeLocalWrite(FreshSetups, c0, c, B, m);
  }

  /** FreshSetups is needed. A setup, or a client's sync, writes locally on a bootstrapped member. */
  lemma SetupDiverges(rows: Rows, m: Mutation) returns (c0: Cluster, c: Cluster)
    requires Changing(rows, m)
    ensures Init(c0) && Reached(FreshSetups, c0, c) && Diverged(c, A, B)
  {
    c0, c := SetupApart(rows, m);
    Apart(c, A, B, rows, Wrote(rows, m), 1, 0);
  }

  /** WholeResets is needed. A node dies after its first write of leaving: it is still a bootstrapped
      member at the old position, without its devices. */
  lemma TornResetDiverges(rows: Rows) returns (c0: Cluster, c: Cluster)
    requires Consistent(rows) && rows.devices != multiset{}
    ensures Init(c0) && Reached(WholeResets, c0, c) && Diverged(c, A, B)
  {
    var h := WholeResets;
    c0, c := Shared(h, rows, map[], ALL_DOMAINS);
    c := TakeWipe(h, c0, c, A);
    c := TakeCrash(h, c0, c, A);
  }

  /** Node A, attached at epoch one, enrolls into epoch two. */
  lemma StaleLatch(rows: Rows, m: Mutation) returns (c0: Cluster, c: Cluster)
    requires Consistent(rows)
    ensures Init(c0) && Reached(MaterializedServer, c0, c)
    ensures SettledAt(c, A) && MayServe(NodeOf(c, A)) && c.members[A].ahead == 0
    ensures NodeOf(c, A).disk == Disk(Wrote(rows, m), map[], 2, 0, 0, 0, true, false)
    ensures 2 !in c.world.live && 2 !in c.world.log && 2 !in c.world.owner
    ensures Untouched(c, B, rows, 2) && Untouched(c, D, rows, 2)
  {
    c0, c := FormationWithWrite(MaterializedServer, rows, m, 2);
    c := TakeSubscribe(MaterializedServer, c0, c, A);
    c := TakeJoin(MaterializedServer, c0, c, A, 2);
  }

  /** And answers a request there. */
  lemma StaleLatchServes(rows: Rows, m: Mutation) returns (c0: Cluster, c: Cluster, item: Sent)
    requires Changing(rows, m)
    ensures Init(c0) && Reached(MaterializedServer, c0, c)
    ensures item in c.sent && item.snap.epoch == 2 && item.snap.at == 0 && item.snap.rows == Wrote(rows, m)
    ensures 2 !in c.world.live && 2 !in c.world.log && 2 !in c.world.owner
    ensures Untouched(c, B, rows, 2) && Untouched(c, D, rows, 2)
  {
    c0, c := StaleLatch(rows, m);
    item := WholeSnapshot(NodeOf(c, A).disk);
    c := TakeServe(MaterializedServer, c0, c, A);
  }

  /** Another node is given the licence for that epoch. */
  lemma LicensedElsewhere(rows: Rows, m: Mutation) returns (c0: Cluster, c: Cluster, item: Sent)
    requires Changing(rows, m)
    ensures Init(c0) && Reached(MaterializedServer, c0, c)
    ensures item in c.sent && item.snap.epoch == 2 && item.snap.at == 0 && item.snap.rows == Wrote(rows, m)
    ensures AboutToCreate(c, B, rows, 2) && Untouched(c, D, rows, 2)
  {
    c0, c, item := StaleLatchServes(rows, m);
    c := TakeFound(MaterializedServer, c0, c, B);
  }

  /** It founds it. */
  lemma FoundedElsewhere(rows: Rows, m: Mutation) returns (c0: Cluster, c: Cluster, item: Sent)
    requires Changing(rows, m)
    ensures Init(c0) && Reached(MaterializedServer, c0, c)
    ensures item in c.sent && item.snap.epoch == 2 && item.snap.at == 0 && item.snap.rows == Wrote(rows, m)
    ensures At(c, B, rows, 2, 0) && Untouched(c, D, rows, 2)
  {
    c0, c, item := LicensedElsewhere(rows, m);
    c := FounderCreates(MaterializedServer, c0, c, B, rows, 2);
  }

  /** A member installs a snapshot of its epoch. */
  lemma InstallsThere(h: Hypothesis, c0: Cluster, c: Cluster, id: Id, item: Sent) returns (c': Cluster)
    requires Reached(h, c0, c) && SettledAt(c, id) && item in c.sent && !IsEmpty(item.snap.rows)
    requires !NodeOf(c, id).mem.attached && NodeOf(c, id).disk.enabled && NodeOf(c, id).disk.epoch == item.snap.epoch
    ensures Reached(h, c0, c') && At(c', id, item.snap.rows, item.snap.epoch, item.snap.at)
    ensures forall x | x in c.members && x != id :: x in c'.members && c'.members[x] == c.members[x]
  {
    c' := TakeInstall(h, c0, c, id, item, ALL_DOMAINS);
  }

  /** And a third one joins it. */
  lemma JoinedElsewhere(rows: Rows, m: Mutation) returns (c0: Cluster, c: Cluster, item: Sent)
    requires Changing(rows, m)
    ensures Init(c0) && Reached(MaterializedServer, c0, c)
    ensures item in c.sent && item.snap.epoch == 2 && item.snap.at == 0 && item.snap.rows == Wrote(rows, m)
    ensures At(c, B, rows, 2, 0)
    ensures SettledAt(c, D) && NodeOf(c, D).disk.enabled && NodeOf(c, D).disk.epoch == 2 && !NodeOf(c, D).mem.attached
  {
    c0, c, item := FoundedElsewhere(rows, m);
    c := TakeJoin(MaterializedServer, c0, c, D, 2);
  }

  lemma StaleLatchApart(rows: Rows, m: Mutation) returns (c0: Cluster, c: Cluster)
    requires Changing(rows, m)
    ensures Init(c0) && Reached(MaterializedServer, c0, c)
    ensures At(c, B, rows, 2, 0) && At(c, D, Wrote(rows, m), 2, 0)
  {
    var item;
    c0, c, item := JoinedElsewhere(rows, m);
    c := InstallsThere(MaterializedServer, c0, c, D, item);
  }

  /** MaterializedServer is needed. A node attached to one epoch enrolls into the next and, on the
      strength of the old latch, answers a request with rows that are not that epoch's. */
  lemma StaleLatchDiverges(rows: Rows, m: Mutation) returns (c0: Cluster, c: Cluster)
    requires Changing(rows, m)
    ensures Init(c0) && Reached(MaterializedServer, c0, c) && Diverged(c, B, D)
  {
    c0, c := StaleLatchApart(rows, m);
    Apart(c, B, D, rows, Wrote(rows, m), 2, 0);
  }

  // ----- entries of another epoch

  /** An entry of another epoch, handed over where the next own entry is due, is consumed without
      being applied. */
  lemma ForeignEntryIsConsumed(n: Node, entry: Entry)
    requires !n.mem.halted && entry.Envelope? && entry.epoch != n.disk.epoch
    ensures Handle(n, n.disk.applied + 1, entry).disk == n.disk.(applied := n.disk.applied + 1)
  {
  }

  /** So a bootstrapped node is still in place afterwards exactly when the own entry it thereby skips
      exists and would have changed no row. */
  lemma ForeignEntrySkips(w: World, id: Id, n: Node, ahead: nat, entry: Entry)
    requires DiskOk(w, id, n.disk, ahead, false) && Bootstrapped(n.disk)
    requires !n.mem.halted && entry.Envelope? && entry.epoch != n.disk.epoch
    ensures var d, d' := n.disk, Handle(n, n.disk.applied + 1, entry).disk;
            RowsPlaced(w, d'.epoch, d'.applied, d'.rows) <==>
              d.applied < |Log(w, d.epoch)| && Canon(w, d.epoch, d.applied + 1).rows == Canon(w, d.epoch, d.applied).rows
  {
    ForeignEntryIsConsumed(n, entry);
  }

  /** Bootstrapped at (2, 0) with these rows. */
  predicate AtEpochTwo(n: Node, rows: Rows) {
    n.disk.rows == rows && n.disk.epoch == 2 && n.disk.applied == 0 && n.disk.bootMark == 2 && !n.mem.halted
  }

  lemma FirstEntry(log: map<nat, seq<Entry>>, entry: Entry)
    requires log == map[1 := []][1 := [] + [entry]]
    ensures log == map[1 := [entry]]
  {
    assert [] + [entry] == [entry];
  }

  /** The founder attaches. */
  lemma FounderAttached(h: Hypothesis, rows: Rows) returns (c0: Cluster, c: Cluster)
    requires Consistent(rows)
    ensures Init(c0) && Reached(h, c0, c)
    ensures SettledAt(c, A) && c.members[A].ahead == 0 && c.members[A].subs == {1}
    ensures var n := NodeOf(c, A);
            && n.disk == Disk(rows, map[], 1, 0, 1, 0, true, false) && n.mesh == UP
            && n.mem.attached && !n.mem.halted && n.mem.waiters == map[]
    ensures Untouched(c, B, rows, 1) && OnlyOne(c.world, Replica(rows, map[]))
  {
    c0, c := Formation(h, rows, 1, map[]);
    c := TakeSubscribe(h, c0, c, A);
  }

  /** And publishes its first entry. */
  lemma Published(h: Hypothesis, rows: Rows, m: Mutation, r: string, bestEffort: bool) returns (c0: Cluster, c: Cluster)
    requires Consistent(rows)
    ensures Init(c0) && Reached(h, c0, c)
    ensures SettledAt(c, A) && NodeOf(c, A).disk == Disk(rows, map[], 1, 0, 1, 0, true, false)
    ensures NodeOf(c, A).mesh == UP && !NodeOf(c, A).mem.halted && c.members[A].ahead == 0 && c.members[A].subs == {1}
    ensures !bestEffort ==> NodeOf(c, A).mem.waiters == map[r := Waiting]
    ensures Untouched(c, B, rows, 1)
    ensures c.world == World({1}, map[1 := [Envelope(ENV_VERSION, 1, Db(m), r)]], map[1 := Replica(rows, map[])],
                             map[1 := A], map[r := Place(1, 1)])
  {
    c0, c := FounderAttached(h, rows);
    c := TakePublish(h, c0, c, A, m, r, bestEffort);
    FirstEntry(c.world.log, Envelope(ENV_VERSION, 1, Db(m), r));
  }

  /** Node A reforms to epoch two and opens its log there. */
  lemma ReformedFounder(rows: Rows, m: Mutation, r: string) returns (c0: Cluster, c: Cluster)
    requires Consistent(rows)
    ensures Init(c0) && Reached(SameEpoch, c0, c)
    ensures SettledAt(c, A) && AtEpochTwo(NodeOf(c, A), rows) && NodeOf(c, A).disk.licMark == 2 && NodeOf(c, A).disk.enabled
    ensures NodeOf(c, A).mesh == UP && !NodeOf(c, A).mem.attached && c.members[A].ahead == 0 && 1 in c.members[A].subs
    ensures Untouched(c, B, rows, 1)
    ensures 2 in c.world.live && Log(c.world, 2) == [] && forall x | x != r :: x !in c.world.home
    ensures Log(c.world, 1) == [Envelope(ENV_VERSION, 1, Db(m), r)]
  {
    c0, c := Published(SameEpoch, rows, m, r, true);
    c := TakeReform(SameEpoch, c0, c, A);
    c := TakeCreate(SameEpoch, c0, c, A);
  }

  /** Node A, founder of epoch two, hands B a snapshot. */
  lemma SharedTwo(rows: Rows, m: Mutation, r: string) returns (c0: Cluster, c: Cluster)
    requires Consistent(rows) && !IsEmpty(rows)
    ensures Init(c0) && Reached(SameEpoch, c0, c)
    ensures SettledAt(c, A) && AtEpochTwo(NodeOf(c, A), rows) && NodeOf(c, A).mesh == UP && !NodeOf(c, A).mem.attached
    ensures 1 in c.members[A].subs
    ensures SettledAt(c, B) && AtEpochTwo(NodeOf(c, B), rows) && !NodeOf(c, B).mem.attached
    ensures 2 in c.world.live && Log(c.world, 2) == [] && forall x | x != r :: x !in c.world.home
    ensures Log(c.world, 1) == [Envelope(ENV_VERSION, 1, Db(m), r)]
  {
    var h := SameEpoch;
    c0, c := ReformedFounder(rows, m, r);
    c := TakeJoin(h, c0, c, B, 1);
    var item := WholeSnapshot(NodeOf(c, A).disk);
    c := TakeServe(h, c0, c, A);
    c := TakeInstall(h, c0, c, B, item, ALL_DOMAINS);
  }

  /** Both attach and A publishes: both stand at (2, 0) with one entry in the log of epoch two, and
      epoch one's entry still exists. */
  lemma TwoEpochs(rows: Rows, m: Mutation, r: string, r': string) returns (c0: Cluster, c: Cluster)
    requires Consistent(rows) && !IsEmpty(rows) && r != r'
    ensures Init(c0) && Reached(SameEpoch, c0, c)
    ensures SettledAt(c, A) && AtEpochTwo(NodeOf(c, A), rows) && 1 in c.members[A].subs
    ensures SettledAt(c, B) && AtEpochTwo(NodeOf(c, B), rows) && 2 in c.members[B].subs
    ensures Log(c.world, 1) == [Envelope(ENV_VERSION, 1, Db(m), r)]
    ensures Log(c.world, 2) == [Envelope(ENV_VERSION, 2, Db(m), r')]
  {
    c0, c := SharedTwo(rows, m, r);
    c := TakeSubscribe(SameEpoch, c0, c, B);
    c := TakeSubscribe(SameEpoch, c0, c, A);
    c := TakePublish(SameEpoch, c0, c, A, m, r', true);
  }

  lemma EntryIsHandled(n: Node, rows: Rows, m: Mutation, r: string)
    requires AtEpochTwo(n, rows) && Wrote(rows, m) != rows
    ensures var n' := Handle(n, 1, Envelope(ENV_VERSION, 2, Db(m), r));
            n'.disk.rows == Wrote(rows, m) && n'.disk.applied == 1 && n'.disk.epoch == 2 && n'.disk.bootMark == 2
  {
    HandleDisk(n, 1, Envelope(ENV_VERSION, 2, Db(m), r));
  }

  /** A takes epoch one's entry where epoch two's first is due. */
  lemma ForeignEntryTaken(rows: Rows, m: Mutation, r: string, r': string) returns (c0: Cluster, c: Cluster)
    requires Consistent(rows) && !IsEmpty(rows) && r != r'
    ensures Init(c0) && Reached(SameEpoch, c0, c)
    ensures At(c, A, rows, 2, 1)
    ensures SettledAt(c, B) && AtEpochTwo(NodeOf(c, B), rows) && 2 in c.members[B].subs
    ensures Log(c.world, 2) == [Envelope(ENV_VERSION, 2, Db(m), r')]
  {
    c0, c := TwoEpochs(rows, m, r, r');
    ForeignEntryIsConsumed(NodeOf(c, A), EntryAt(c.world, 1, 1));
    var ahead;
    c, ahead := TakeDeliver(SameEpoch, c0, c, A, 1, 1);
  }

  lemma OwnEntryTaken(c0: Cluster, c: Cluster, rows: Rows, m: Mutation, r: string) returns (c': Cluster)
    requires Changing(rows, m) && Reached(SameEpoch, c0, c)
    requires Has(c, A) && SettledAt(c, B) && AtEpochTwo(NodeOf(c, B), rows) && 2 in c.members[B].subs
    requires Log(c.world, 2) == [Envelope(ENV_VERSION, 2, Db(m), r)]
    ensures Reached(SameEpoch, c0, c') && At(c', B, Wrote(rows, m), 2, 1)
    ensures Has(c', A) && c'.members[A] == c.members[A]
  {
    var ahead;
    EntryIsHandled(NodeOf(c, B), rows, m, r);
    c', ahead := TakeDeliver(SameEpoch, c0, c, B, 2, 1);
  }

  lemma ForeignEntryApart(rows: Rows, m: Mutation) returns (c0: Cluster, c: Cluster)
    requires Changing(rows, m)
    ensures Init(c0) && Reached(SameEpoch, c0, c)
    ensures At(c, A, rows, 2, 1) && At(c, B, Wrote(rows, m), 2, 1)
  {
    var r, r' := "r", "s";
    assert r[0] != r'[0];
    c0, c := ForeignEntryTaken(rows, m, r, r');
    c := OwnEntryTaken(c0, c, rows, m, r');
  }

  /** SameEpoch is needed. An entry of the epoch a node has left, still in flight after a reform, is
      consumed in the place of the first entry of the new epoch. */
  lemma ForeignEntryDiverges(rows: Rows, m: Mutation) returns (c0: Cluster, c: Cluster)
    requires Changing(rows, m)
    ensures Init(c0) && Reached(SameEpoch, c0, c) && Diverged(c, A, B)
  {
    c0, c := ForeignEntryApart(rows, m);
    Apart(c, A, B, rows, Wrote(rows, m), 2, 1);
  }

  // ----- verdicts

  /** What the insert of an active device that is there already comes to: a violation where it is there,
      a success where the devices have been wiped. */
  lemma SameDeviceTwice(rows: Rows, dev: Row)
    requires HasActive(rows, dev)
    ensures Apply(rows, Mutation(Devices, Insert([dev]))).Rejected?
    ensures Apply(rows.(devices := multiset{}), Mutation(Devices, Insert([dev]))).Accepted?
  {
    assert Claims(Devices, dev, dev);
    InsertVerdict(rows, Devices, dev);
    WipeConsistent(rows);
    InsertVerdict(rows.(devices := multiset{}), Devices, dev);
  }

  /** Its founder, waiting for its entry, leaves: the devices and the position go. */
  lemma LeavesWaiting(rows: Rows, m: Mutation, r: string) returns (c0: Cluster, c: Cluster)
    requires Consistent(rows)
    ensures Init(c0) && Reached(MaterializedReader, c0, c)
    ensures Has(c, A) && c.members[A].subs == {1} && !NodeOf(c, A).mem.halted && NodeOf(c, A).mem.waiters == map[r := Waiting]
    ensures NodeOf(c, A).disk == Disk(rows.(devices := multiset{}), map[], 1, 0, 0, 0, true, false)
    ensures c.world == World({1}, map[1 := [Envelope(ENV_VERSION, 1, Db(m), r)]], map[1 := Replica(rows, map[])],
                             map[1 := A], map[r := Place(1, 1)])
  {
    var h := MaterializedReader;
    c0, c := Published(h, rows, m, r, false);
    c := TakeWipe(h, c0, c, A);
    c := TakeDropLicence(h, c0, c, A);
    c := TakeDropPosition(h, c0, c, A);
  }

  lemma ToldOnHandling(n: Node, m: Mutation, r: string)
    requires !n.mem.halted && n.disk.applied == 0 && n.disk.epoch == 1 && n.mem.waiters == map[r := Waiting]
    requires Apply(n.disk.rows, m).Accepted?
    ensures Handle(n, 1, Envelope(ENV_VERSION, 1, Db(m), r)).mem.waiters == map[r := Told(Success)]
  {
    var entry := Envelope(ENV_VERSION, 1, Db(m), r);
    var s := ReplicaOf(n.disk).(rows := Apply(n.disk.rows, m).rows);
    assert Consume(ReplicaOf(n.disk), 1, entry) == Consumed(s, Success);
    TellsOnSettling(n, entry, s, r);
  }

  lemma TellsOnSettling(n: Node, entry: Entry, s: Replica, r: string)
    requires entry.Envelope? && entry.reqId == r && n.mem.waiters == map[r := Waiting]
    ensures Settle(n, 1, entry, Consumed(s, Success)).mem.waiters == map[r := Told(Success)]
  {
  }

  lemma CanonRejects(w: World, rows: Rows, m: Mutation, r: string)
    requires w.seed == map[1 := Replica(rows, map[])] && w.log == map[1 := [Envelope(ENV_VERSION, 1, Db(m), r)]]
    requires Apply(rows, m).Rejected?
    ensures CanonVerdict(w, 1, 1, Constraint)
  {
    assert Log(w, 1)[..0] == [];
    assert Canon(w, 1, 0) == Replica(rows, map[]);
  }

  /** MaterializedReader is needed. A node that leaves with a writer waiting is still given the entry,
      and tells its writer what it comes to on a store without devices. */
  lemma UnseatedReaderMisleads(rows: Rows, dev: Row) returns (c0: Cluster, c: Cluster, r: string)
    requires HasActive(rows, dev)
    ensures Init(c0) && Reached(MaterializedReader, c0, c) && Misled(c, A, r)
  {
    r := "r";
    var m := Mutation(Devices, Insert([dev]));
    SameDeviceTwice(rows, dev);
    c0, c := LeavesWaiting(rows, m, r);
    CanonRejects(c.world, rows, m, r);
    ToldOnHandling(NodeOf(c, A), m, r);
    var ahead;
    c, ahead := TakeDeliver(MaterializedReader, c0, c, A, 1, 1);
  }

  // ----- domains

  /** FrozenDomains is needed. The founder, whose config a peer has already been given, writes on. */
  lemma ThawedDomainsDiverge(rows: Rows, text: string) returns (c0: Cluster, c: Cluster)
    requires Consistent(rows) && !IsEmpty(rows) && text != ""
    ensures Init(c0) && Reached(FrozenDomains, c0, c) && DomainsDiverged(c, A, B, Dns)
  {
    c0, c := EarlySnapshot(FrozenDomains, rows);
    c := TakeDirectDomain(FrozenDomains, c0, c, A, Dns, text);
    c := TakeCreate(FrozenDomains, c0, c, A);
    NothingThere(map[]);
  }

  /** The domains of a snapshot without any, installed over none. */
  lemma NothingThere(local: Domains)
    requires local == map[]
    ensures ValueOf(InstallDomains(local, CapturedDomains(map[])), Dns) == ""
  {
  }

  /** The founder has shared its store and reads its rows again. */
  lemma ReadAgain(rows: Rows) returns (c0: Cluster, c: Cluster)
    requires Consistent(rows) && !IsEmpty(rows)
    ensures Init(c0) && Reached(SteadyServer, c0, c)
    ensures Has(c, A) && Founder(c.members[A], rows, map[]) && OnlyOne(c.world, Replica(rows, map[]))
    ensures At(c, B, rows, 1, 0) && ValueOf(NodeOf(c, B).disk.domains, Dns) == ""
    ensures Untouched(c, D, rows, 1) && Draft(A, 1, 0, rows, true) in c.drafts
  {
    c0, c := Shared(SteadyServer, rows, map[], ALL_DOMAINS);
    WholeRestrict(CapturedDomains(map[]));
    NothingThere(map[]);
    c := TakeCaptureRows(SteadyServer, c0, c, A);
  }

  /** It then reforms and writes its config at the new epoch. */
  lemma MovedOnServer(rows: Rows, text: string) returns (c0: Cluster, c: Cluster)
    requires Consistent(rows) && !IsEmpty(rows) && text != ""
    ensures Init(c0) && Reached(SteadyServer, c0, c)
    ensures SettledAt(c, A) && NodeOf(c, A).disk.domains == map[Dns := text] && c.members[A].ahead == 0
    ensures At(c, B, rows, 1, 0) && ValueOf(NodeOf(c, B).disk.domains, Dns) == ""
    ensures Untouched(c, D, rows, 1)
    ensures Draft(A, 1, 0, rows, true) in c.drafts && Log(c.world, 1) == []
  {
    c0, c := ReadAgain(rows);
    c := TakeReform(SteadyServer, c0, c, A);
    c := TakeDirectDomain(SteadyServer, c0, c, A, Dns, text);
  }

  lemma InstalledDns(local: Domains, text: string)
    requires text != ""
    ensures ValueOf(InstallDomains(local, Restrict(CapturedDomains(map[Dns := text]), ALL_DOMAINS)), Dns) == text
  {
    WholeRestrict(CapturedDomains(map[Dns := text]));
  }

  /** SteadyServer is needed. A server reads its domains after it has moved on to the next epoch, for a
      snapshot of the old one. */
  lemma MovedOnServerDiverges(rows: Rows, text: string) returns (c0: Cluster, c: Cluster)
    requires Consistent(rows) && !IsEmpty(rows) && text != ""
    ensures Init(c0) && Reached(SteadyServer, c0, c) && DomainsDiverged(c, B, D, Dns)
  {
    var h, dr := SteadyServer, Draft(A, 1, 0, rows, true);
    c0, c := MovedOnServer(rows, text);
    c := TakeCaptureDomains(h, c0, c, dr);
    var item := Sent(Snapshot(1, 0, rows, CapturedDomains(map[Dns := text])), 0);
    c := TakeJoin(h, c0, c, D, 1);
    InstalledDns(NodeOf(c, D).disk.domains, text);
    c := TakeInstall(h, c0, c, D, item, ALL_DOMAINS);
  }

  lemma NothingInstalled(d: Disk, s: Snapshot)
    ensures InstallPartly(d, s, {}).domains == d.domains
  {
    assert Restrict(s.domains, {}) == map[];
  }

  /** WholeInstalls is needed. A node whose install fails after the rows stands at the end of the log
      without a domain its peer holds, and, being bootstrapped, is not given it again. */
  lemma HalfInstallDiverges(rows: Rows, text: string) returns (c0: Cluster, c: Cluster)
    requires Consistent(rows) && !IsEmpty(rows) && text != ""
    ensures Init(c0) && Reached(WholeInstalls, c0, c) && DomainsDiverged(c, A, B, Dns)
  {
    var domains := map[Dns := text];
    var item := WholeSnapshot(Disk(rows, domains, 1, 0, 1, 1, true, false));
    NothingInstalled(Disk(rows, map[], 1, 0, 0, 0, true, false), item.snap);
    c0, c := Shared(WholeInstalls, rows, domains, {});
  }

  // ----- a stream created twice

  /** Some order of deliveries makes the loop take every entry of the log. */
  ghost predicate AllTaken(n: Node, log: seq<Entry>) {
    exists order :: Deliveries(log, order) && Processed(n, log, order) == Onwards(0, |log|)
  }

  lemma NeverFromTheStart(n: Node, log: seq<Entry>, order: seq<nat>)
    requires Deliveries(log, order) && n.disk.applied > 0 && log != []
    ensures Processed(n, log, order) != Onwards(0, |log|)
  {
    if n.disk.applied <= |log| {
      DeliveryIsContiguous(n, log, order);
    } else {
      OldEntriesStay(n, log, order);
    }
  }

  lemma RecreatedShape(n: Node, cleared: bool)
    requires Bootstrapped(n.disk) && !n.mem.halted
    ensures var n' := Subscribed(Seeded(n), cleared);
            ReplicaOf(n'.disk) == ReplicaOf(n.disk) && n'.disk.applied == n.disk.applied
            && n'.disk.epoch == n.disk.epoch && !n'.mem.halted
  {
  }

  /** A bootstrapped node that finds itself alone and its own stream gone recreates it and keeps its
      position. Whatever the new stream is given, the node takes none of the first `applied` entries
      and, when they come in order, all the others; so it can take all of them exactly when it stood
      at zero. The entries it does not take are acknowledged and never applied. */
  lemma RecreatedStreamIsSkipped(n: Node, cleared: bool, log: seq<Entry>)
    requires Bootstrapped(n.disk) && Standalone(n) && !n.disk.agent && log != []
    requires Flows(Subscribed(Seeded(n), cleared), log)
    ensures MayCreate(n, false)
    ensures var n' := Subscribed(Seeded(n), cleared);
            && Deliveries(log, Onwards(0, |log|))
            && (n.disk.applied <= |log| ==>
                  Processed(n', log, Onwards(0, |log|)) == Onwards(n.disk.applied, |log|))
            && (n.disk.applied > |log| ==> Processed(n', log, Onwards(0, |log|)) == [])
            && (AllTaken(n', log) <==> n.disk.applied == 0)
  {
    var n' := Subscribed(Seeded(n), cleared);
    if n.disk.applied <= |log| {
      InOrderTakesTheRest(n', log, |log|);
    } else {
      OldEntriesStay(n', log, Onwards(0, |log|));
    }
    if n.disk.applied > 0 {
      forall order | Deliveries(log, order) ensures Processed(n', log, order) != Onwards(0, |log|) {
        NeverFromTheStart(n', log, order);
      }
    }
  }
}
