/**
 What a publisher is told: a verdict that comes back through the waiter registry is
 the verdict of every replica, and of two writes claiming one unique key the second
 can only succeed after the key was released.
 */
module Verdicts {
  import opened Store
  import opened Replay
  import opened Node
  import opened Cluster
  import opened Agreement

  /** A request's place in a log really holds that request. */
  ghost predicate HomeOk(w: World, r: string)
    requires r in w.home
  {
    var p := w.home[r];
    1 <= p.k <= |Log(w, p.epoch)| && IsRequest(EntryAt(w, p.epoch, p.k), p.epoch, r)
  }

  predicate IsRequest(entry: Entry, e: nat, r: string) {
    entry.Envelope? && entry.epoch == e && entry.reqId == r
  }

  /** Every entry of every log is some request's only place. */
  ghost predicate EntryHome(w: World, e: nat, k: nat)
    requires 1 <= k <= |Log(w, e)|
  {
    var entry := EntryAt(w, e, k);
    entry.Envelope? && entry.epoch == e && entry.reqId in w.home && w.home[entry.reqId] == Place(e, k)
  }

  ghost predicate LogsOk(w: World) {
    && (forall r | r in w.home :: HomeOk(w, r))
    && (forall e, k | 1 <= k <= |Log(w, e)| :: EntryHome(w, e, k))
  }

  /** The verdict of the request at (e, k), on the replay of everything before it. */
  ghost predicate CanonVerdict(w: World, e: nat, k: nat, v: Verdict) {
    && e in w.seed && 1 <= k <= |Log(w, e)|
    && var out := Consume(Canon(w, e, k - 1), e, EntryAt(w, e, k));
       out.Consumed? && out.verdict == v
  }

  ghost predicate WaitersOk(w: World, waiters: map<string, Waiter>) {
    forall r | r in waiters && waiters[r].Told? ::
      waiters[r].verdict != Silent && r in w.home && CanonVerdict(w, w.home[r].epoch, w.home[r].k, waiters[r].verdict)
  }

  ghost predicate VerdictInv(c: Cluster) {
    && LogsOk(c.world)
    && (forall id | id in c.members :: WaitersOk(c.world, NodeOf(c, id).mem.waiters))
  }

  // ----- the world grows

  ghost predicate HomesKept(w: World, w': World) {
    forall r | r in w.home :: r in w'.home && w'.home[r] == w.home[r]
  }

  lemma CanonVerdictGrows(w: World, w': World, actor: Id, e: nat, k: nat, v: Verdict)
    requires Grows(w, w', actor) && CanonVerdict(w, e, k, v)
    ensures CanonVerdict(w', e, k, v)
  {
    assert Log(w, e) <= Log(w', e);
    assert Log(w', e)[..k - 1] == Log(w, e)[..k - 1];
  }

  lemma WaitersGrow(w: World, w': World, actor: Id, waiters: map<string, Waiter>)
    requires Grows(w, w', actor) && HomesKept(w, w') && WaitersOk(w, waiters)
    ensures WaitersOk(w', waiters)
  {
    forall r | r in waiters && waiters[r].Told?
      ensures r in w'.home && CanonVerdict(w', w'.home[r].epoch, w'.home[r].k, waiters[r].verdict)
    {
      CanonVerdictGrows(w, w', actor, w.home[r].epoch, w.home[r].k, waiters[r].verdict);
    }
  }

  /** Publishing gives the new request its place and disturbs no other. */
  lemma PublishLog(w: World, n: Node, st: Step, e: nat, k: nat)
    requires st.PublishOp? && st.fate != Refused && 1 <= k <= |Log(WorldAfter(w, n, st), e)|
    ensures var w' := WorldAfter(w, n, st);
            if k <= |Log(w, e)| then EntryAt(w', e, k) == EntryAt(w, e, k)
            else w'.home[st.reqId] == Place(e, k) && IsRequest(EntryAt(w', e, k), e, st.reqId)
  {
  }

  lemma PublishHomes(w: World, n: Node, st: Step)
    requires st.PublishOp? && st.fate != Refused && st.reqId !in w.home
    ensures var w' := WorldAfter(w, n, st);
            && HomesKept(w, w') && w'.home.Keys == w.home.Keys + {st.reqId}
            && w'.home[st.reqId] == Place(n.disk.epoch, |Log(w, n.disk.epoch)| + 1)
            && (forall e :: |Log(w', e)| == |Log(w, e)| + if e == n.disk.epoch then 1 else 0)
  {
  }

  lemma PublishLogs(w: World, n: Node, st: Step)
    requires LogsOk(w) && st.PublishOp? && st.fate != Refused && st.reqId !in w.home
    ensures LogsOk(WorldAfter(w, n, st)) && HomesKept(w, WorldAfter(w, n, st))
  {
    var w' := WorldAfter(w, n, st);
    PublishHomes(w, n, st);
    forall e, k | 1 <= k <= |Log(w', e)| ensures EntryHome(w', e, k) {
      PublishLog(w, n, st, e, k);
      if k <= |Log(w, e)| {
        assert EntryHome(w, e, k);
      }
    }
    forall r | r in w'.home ensures HomeOk(w', r) {
      if r != st.reqId {
        assert HomeOk(w, r);
      }
      PublishLog(w, n, st, w'.home[r].epoch, w'.home[r].k);
    }
  }

  /** A world whose logs and places are the same. */
  lemma SameLogs(w: World, w': World)
    requires LogsOk(w) && w'.home == w.home
    requires forall e :: Log(w', e) == Log(w, e)
    ensures LogsOk(w')
  {
    forall r | r in w'.home ensures HomeOk(w', r) {
      assert HomeOk(w, r);
    }
    forall e, k | 1 <= k <= |Log(w', e)| ensures EntryHome(w', e, k) {
      assert EntryHome(w, e, k);
    }
  }

  lemma LogsAfter(c: Cluster, n: Node, st: Step)
    requires LogsOk(c.world)
    requires st.PublishOp? ==> st.reqId !in c.world.home
    requires st.Create? ==> n.disk.epoch !in c.world.log
    ensures LogsOk(WorldAfter(c.world, n, st)) && HomesKept(c.world, WorldAfter(c.world, n, st))
  {
    if st.PublishOp? && st.fate != Refused {
      PublishLogs(c.world, n, st);
    } else {
      var w' := WorldAfter(c.world, n, st);
      forall e ensures Log(w', e) == Log(c.world, e) {
      }
      SameLogs(c.world, w');
    }
  }

  // ----- the waiters of the acting node

  lemma NotifyOk(w: World, waiters: map<string, Waiter>, r: string, v: Verdict)
    requires WaitersOk(w, waiters) && v != Silent
    requires r in w.home && CanonVerdict(w, w.home[r].epoch, w.home[r].k, v)
    ensures WaitersOk(w, Notify(waiters, r, v))
  {
  }

  lemma HandleWaiters(n: Node, k: nat, entry: Entry)
    ensures var after := Handle(n, k, entry).mem.waiters;
            || after == n.mem.waiters
            || (&& Takes(n, k, entry) && entry.Envelope?
                && Consume(ReplicaOf(n.disk), n.disk.epoch, entry).verdict != Silent
                && after == Notify(n.mem.waiters, entry.reqId, Consume(ReplicaOf(n.disk), n.disk.epoch, entry).verdict))
  {
  }

  lemma DeliveredVerdict(w: World, id: Id, n: Node, ahead: nat, k: nat)
    requires LogsOk(w) && DiskOk(w, id, n.disk, ahead, false) && Bootstrapped(n.disk)
    requires 1 <= k <= |Log(w, n.disk.epoch)| && Takes(n, k, EntryAt(w, n.disk.epoch, k))
    ensures CanonVerdict(w, n.disk.epoch, k, Consume(ReplicaOf(n.disk), n.disk.epoch, EntryAt(w, n.disk.epoch, k)).verdict)
    ensures var r := EntryAt(w, n.disk.epoch, k).reqId; r in w.home && w.home[r] == Place(n.disk.epoch, k)
  {
    var e := n.disk.epoch;
    assert EntryHome(w, e, k);
    RowsApart(ReplicaOf(n.disk), Canon(w, e, k - 1), e, EntryAt(w, e, k));
  }

  lemma DeliverWaiters(w: World, id: Id, n: Node, ahead: nat, k: nat)
    requires LogsOk(w) && DiskOk(w, id, n.disk, ahead, false) && Bootstrapped(n.disk)
    requires 1 <= k <= |Log(w, n.disk.epoch)| && WaitersOk(w, n.mem.waiters)
    ensures WaitersOk(w, Handle(n, k, EntryAt(w, n.disk.epoch, k)).mem.waiters)
  {
    var e := n.disk.epoch;
    var entry := EntryAt(w, e, k);
    HandleWaiters(n, k, entry);
    if Handle(n, k, entry).mem.waiters != n.mem.waiters {
      DeliveredVerdict(w, id, n, ahead, k);
      NotifyOk(w, n.mem.waiters, entry.reqId, Consume(ReplicaOf(n.disk), e, entry).verdict);
    }
  }

  lemma UncommittedWaiters(n: Node, k: nat, entry: Entry)
    ensures HandleUncommitted(n, k, entry).mem.waiters == n.mem.waiters
  {
  }

  lemma QuietWaiters(c: Cluster, n: Node, st: Step)
    requires !st.Deliver? && WaitersOk(c.world, n.mem.waiters)
    ensures WaitersOk(c.world, NodeAfter(c, n, st).mem.waiters)
  {
    if st.DeliverUncommitted? {
      UncommittedWaiters(n, st.k, EntryAt(c.world, st.epoch, st.k));
    }
  }

  // ----- every step

  /** A step under the hypotheses for verdicts. */
  ghost predicate TellsTruly(c: Cluster, st: Step) {
    Enabled(c, st) && MeetsAll(c, st, FOR_VERDICTS)
  }

  lemma RowsToo(c: Cluster, st: Step)
    requires TellsTruly(c, st)
    ensures Under(c, st, false)
  {
    forall h | h in FOR_ROWS ensures Meets(c, st, h) {
      assert h in FOR_VERDICTS;
    }
  }

  /** An entry that a writer waits for is handled in place. */
  lemma ReaderInPlace(c: Cluster, st: Step)
    requires Inv(c, false) && TellsTruly(c, st) && st.Deliver?
    requires Awaits(NodeOf(c, st.id), EntryAt(c.world, st.epoch, st.k))
    ensures var d := NodeOf(c, st.id).disk;
            Bootstrapped(d) && d.epoch == st.epoch && DiskOk(c.world, st.id, d, c.members[st.id].ahead, false)
  {
    EachMet(c, st, FOR_VERDICTS, MaterializedReader);
    EachMet(c, st, FOR_VERDICTS, SameEpoch);
    assert MemberOk(c.world, st.id, c.members[st.id], false);
  }

  lemma NobodyTold(n: Node, k: nat, entry: Entry)
    requires !Awaits(n, entry)
    ensures Handle(n, k, entry).mem.waiters == n.mem.waiters
  {
    HandleWaiters(n, k, entry);
  }

  lemma ActorWaiters(c: Cluster, st: Step)
    requires Inv(c, false) && VerdictInv(c) && TellsTruly(c, st) && !st.LoseStream?
    ensures WaitersOk(c.world, NodeAfter(c, NodeOf(c, Actor(c, st)), st).mem.waiters)
  {
    var id := Actor(c, st);
    var m := c.members[id];
    assert WaitersOk(c.world, NodeOf(c, id).mem.waiters);
    if st.Deliver? {
      ReaderWaiters(c, st);
    } else {
      QuietWaiters(c, m.node, st);
    }
  }

  lemma ReaderWaiters(c: Cluster, st: Step)
    requires Inv(c, false) && VerdictInv(c) && TellsTruly(c, st) && st.Deliver?
    ensures WaitersOk(c.world, Handle(NodeOf(c, st.id), st.k, EntryAt(c.world, st.epoch, st.k)).mem.waiters)
  {
    var m, entry := c.members[st.id], EntryAt(c.world, st.epoch, st.k);
    assert WaitersOk(c.world, NodeOf(c, st.id).mem.waiters);
    if Awaits(m.node, entry) {
      ReaderInPlace(c, st);
      DeliverWaiters(c.world, st.id, m.node, m.ahead, st.k);
    } else {
      NobodyTold(m.node, st.k, entry);
    }
  }

  lemma LoseVerdicts(c: Cluster, e: nat)
    requires VerdictInv(c)
    ensures VerdictInv(Do(c, LoseStream(e)))
  {
    var w' := c.world.(live := c.world.live - {e});
    SameLogs(c.world, w');
    forall id | id in c.members ensures WaitersOk(w', NodeOf(c, id).mem.waiters) {
      WaitersGrow(c.world, w', 0, NodeOf(c, id).mem.waiters);
    }
  }

  lemma WorldKeeps(c: Cluster, st: Step)
    requires Inv(c, false) && VerdictInv(c) && TellsTruly(c, st) && !st.LoseStream?
    ensures var w' := WorldAfter(c.world, NodeOf(c, Actor(c, st)), st);
            Grows(c.world, w', Actor(c, st)) && LogsOk(w') && HomesKept(c.world, w')
  {
    RowsToo(c, st);
    StepGood(c, st, false);
    RulesMet(c, st, false);
    LogsAfter(c, NodeOf(c, Actor(c, st)), st);
  }

  lemma StepKeepsVerdicts(c: Cluster, st: Step)
    requires Inv(c, false) && VerdictInv(c) && TellsTruly(c, st)
    ensures VerdictInv(Do(c, st))
  {
    if st.LoseStream? {
      LoseVerdicts(c, st.epoch);
    } else {
      var id := Actor(c, st);
      var c' := Do(c, st);
      StepShape(c, st);
      WorldKeeps(c, st);
      ActorWaiters(c, st);
      forall x | x in c'.members ensures WaitersOk(c'.world, NodeOf(c', x).mem.waiters) {
        if x == id {
          WaitersGrow(c.world, c'.world, id, NodeAfter(c, NodeOf(c, id), st).mem.waiters);
        } else {
          WaitersGrow(c.world, c'.world, id, NodeOf(c, x).mem.waiters);
        }
      }
    }
  }

  lemma {:induction false} RunKeepsVerdicts(hs: set<Hypothesis>, c: Cluster, steps: seq<Step>, c': Cluster)
    requires Inv(c, false) && VerdictInv(c) && RunUnder(hs, c, steps, c') && FOR_VERDICTS <= hs
    ensures Inv(c', false) && VerdictInv(c')
    decreases |steps|
  {
    if steps != [] {
      assert TellsTruly(c, steps[0]);
      RowsToo(c, steps[0]);
      StepKeepsInv(c, steps[0], false);
      StepKeepsVerdicts(c, steps[0]);
      RunKeepsVerdicts(hs, Do(c, steps[0]), steps[1..], c');
    }
  }

  lemma {:induction false} ReachableInv(hs: set<Hypothesis>, c0: Cluster, steps: seq<Step>, c: Cluster)
    requires Init(c0) && RunUnder(hs, c0, steps, c) && FOR_VERDICTS <= hs
    ensures Inv(c, false) && VerdictInv(c)
  {
    InitInv(c0, false);
    forall id | id in c0.members ensures WaitersOk(c0.world, NodeOf(c0, id).mem.waiters) {
      assert FreshNode(c0.members[id].node);
    }
    RunKeepsVerdicts(hs, c0, steps, c);
  }

  // ----- the theorems

  /** A stored request stands in exactly one place of one log. */
  lemma RequestHasOnePlace(w: World, r: string)
    requires LogsOk(w) && r in w.home
    ensures 1 <= w.home[r].k <= |Log(w, w.home[r].epoch)|
    ensures IsRequest(EntryAt(w, w.home[r].epoch, w.home[r].k), w.home[r].epoch, r)
    ensures forall e, k | 1 <= k <= |Log(w, e)| && IsRequest(EntryAt(w, e, k), e, r) :: Place(e, k) == w.home[r]
  {
    assert HomeOk(w, r);
    forall e, k | 1 <= k <= |Log(w, e)| && IsRequest(EntryAt(w, e, k), e, r) ensures Place(e, k) == w.home[r] {
      assert EntryHome(w, e, k);
    }
  }

  /** The node stands right before the place of request `r`. */
  predicate ComesTo(w: World, d: Disk, r: string) {
    Bootstrapped(d) && r in w.home && w.home[r] == Place(d.epoch, d.applied + 1)
  }

  /** The next entry is request `r`, and consuming it gives this verdict. */
  ghost predicate Reaches(w: World, d: Disk, r: string, v: Verdict) {
    var next := EntryAt(w, d.epoch, d.applied + 1);
    && IsRequest(next, d.epoch, r)
    && var out := Consume(ReplicaOf(d), d.epoch, next); out.Consumed? && out.verdict == v
  }

  lemma SameVerdict(s: Replica, canon: Replica, epoch: nat, entry: Entry, v: Verdict)
    requires s.rows == canon.rows
    requires Consume(canon, epoch, entry).Consumed? && Consume(canon, epoch, entry).verdict == v
    ensures Consume(s, epoch, entry).Consumed? && Consume(s, epoch, entry).verdict == v
  {
    RowsApart(s, canon, epoch, entry);
  }

  lemma VerdictAt(w: World, e: nat, k: nat, s: Replica, entry: Entry, v: Verdict)
    requires CanonVerdict(w, e, k, v) && entry == EntryAt(w, e, k) && RowsPlaced(w, e, k - 1, s.rows)
    ensures Consume(s, e, entry).Consumed? && Consume(s, e, entry).verdict == v
  {
    SameVerdict(s, Canon(w, e, k - 1), e, entry, v);
  }

  /** A bootstrapped replica about to take a request reaches the verdict of the replay. */
  lemma ReplicaVerdict(w: World, d: Disk, r: string, v: Verdict)
    requires RowsPlaced(w, d.epoch, d.applied, d.rows) && ComesTo(w, d, r)
    requires IsRequest(EntryAt(w, w.home[r].epoch, w.home[r].k), w.home[r].epoch, r)
    requires CanonVerdict(w, w.home[r].epoch, w.home[r].k, v)
    ensures Reaches(w, d, r, v)
  {
    VerdictAt(w, d.epoch, d.applied + 1, ReplicaOf(d), EntryAt(w, d.epoch, d.applied + 1), v);
  }

  lemma ToldIsCanon(c: Cluster, id: Id, r: string)
    requires VerdictInv(c) && Has(c, id) && r in NodeOf(c, id).mem.waiters && NodeOf(c, id).mem.waiters[r].Told?
    ensures r in c.world.home && NodeOf(c, id).mem.waiters[r].verdict != Silent
    ensures CanonVerdict(c.world, c.world.home[r].epoch, c.world.home[r].k, NodeOf(c, id).mem.waiters[r].verdict)
  {
    assert WaitersOk(c.world, NodeOf(c, id).mem.waiters);
  }

  /** A publisher that returns success or a constraint error returns the verdict of its own entry,
      which stands in exactly one place of one log, on the one replay of that log on which all
      replicas stand; so every replica that comes to the entry, or has passed it, reached the same. */
  lemma VerdictIsEveryReplicas(hs: set<Hypothesis>, c0: Cluster, steps: seq<Step>, c: Cluster, writer: Id, r: string, other: Id)
    requires Init(c0) && RunUnder(hs, c0, steps, c) && FOR_VERDICTS <= hs
    requires Has(c, writer) && r in NodeOf(c, writer).mem.waiters
    requires Returned(NodeOf(c, writer).mem.waiters[r]) != ApplyTimeout
    ensures r in c.world.home
    ensures forall e, k | 1 <= k <= |Log(c.world, e)| && IsRequest(EntryAt(c.world, e, k), e, r) ::
              Place(e, k) == c.world.home[r]
    ensures var p, v := c.world.home[r], NodeOf(c, writer).mem.waiters[r].verdict;
            && v == (if Returned(NodeOf(c, writer).mem.waiters[r]) == Done then Success else Constraint)
            && CanonVerdict(c.world, p.epoch, p.k, v)
            && (Counts(c, other) && ComesTo(c.world, NodeOf(c, other).disk, r) ==> Reaches(c.world, NodeOf(c, other).disk, r, v))
  {
    ReachableInv(hs, c0, steps, c);
    ToldIsCanon(c, writer, r);
    RequestHasOnePlace(c.world, r);
    if Counts(c, other) && ComesTo(c.world, NodeOf(c, other).disk, r) {
      assert MemberOk(c.world, other, c.members[other], false);
      ReplicaVerdict(c.world, NodeOf(c, other).disk, r, NodeOf(c, writer).mem.waiters[r].verdict);
    }
  }

  // ----- one key, two claims

  ghost function TableAt(seed: Replica, epoch: nat, log: seq<Entry>, k: nat, t: Table): multiset<Row>
    requires k <= |log|
  {
    TableOf(Fold(seed, epoch, log[..k]).rows, t)
  }

  /** Entry `i` puts this row into the table, by whatever kind of mutation. */
  ghost predicate Puts(seed: Replica, epoch: nat, log: seq<Entry>, i: nat, t: Table, a: Row) {
    i < |log| && a !in TableAt(seed, epoch, log, i, t) && a in TableAt(seed, epoch, log, i + 1, t)
  }

  /** Some entry after position `from` and up to `until` takes this row out. */
  ghost predicate TakenOut(seed: Replica, epoch: nat, log: seq<Entry>, from: nat, until: nat, t: Table, a: Row)
    requires until <= |log|
  {
    exists k :: from <= k < until && a in TableAt(seed, epoch, log, k, t) && a !in TableAt(seed, epoch, log, k + 1, t)
  }

  /** A row that is there early and gone later is taken out by some entry in between. */
  lemma {:induction false} SomeEntryRemoves(seed: Replica, epoch: nat, log: seq<Entry>, from: nat, until: nat, t: Table, a: Row)
    requires from <= until <= |log|
    requires a in TableAt(seed, epoch, log, from, t) && a !in TableAt(seed, epoch, log, until, t)
    ensures TakenOut(seed, epoch, log, from, until, t, a)
    decreases until
  {
    if a in TableAt(seed, epoch, log, until - 1, t) {
      assert a !in TableAt(seed, epoch, log, until - 1 + 1, t);
    } else {
      SomeEntryRemoves(seed, epoch, log, from, until - 1, t, a);
    }
  }

  lemma GoneBefore(seed: Replica, epoch: nat, log: seq<Entry>, from: nat, until: nat, t: Table, a: Row)
    requires from <= until < |log|
    requires a in TableAt(seed, epoch, log, from, t) && a !in TableAt(seed, epoch, log, until, t)
    ensures TakenOut(seed, epoch, log, from, until + 1, t, a)
  {
    SomeEntryRemoves(seed, epoch, log, from, until, t, a);
  }

  lemma NeverTwoAtOnce(seed: Replica, epoch: nat, log: seq<Entry>, k: nat, t: Table, a: Row, b: Row)
    requires Consistent(seed.rows) && k <= |log| && a != b && Conflict(t, b, a)
    requires b in TableAt(seed, epoch, log, k, t)
    ensures a !in TableAt(seed, epoch, log, k, t)
  {
    FoldConsistent(seed, epoch, log[..k]);
  }

  /** Two entries of one log, inserts or updates of any number of rows, that put in rows claiming one
      unique key: an entry after the first, at the latest the second itself, took the first row out.
      Without that the second is rejected, and on every replica. */
  lemma SecondClaimNeedsRelease(seed: Replica, epoch: nat, log: seq<Entry>, i: nat, j: nat, t: Table, a: Row, b: Row)
    requires Consistent(seed.rows) && Conflict(t, b, a) && i < j
    requires Puts(seed, epoch, log, i, t, a) && Puts(seed, epoch, log, j, t, b)
    ensures TakenOut(seed, epoch, log, i + 1, j + 1, t, a)
  {
    if a == b {
      GoneBefore(seed, epoch, log, i + 1, j, t, a);
    } else {
      NeverTwoAtOnce(seed, epoch, log, j + 1, t, a, b);
      SomeEntryRemoves(seed, epoch, log, i + 1, j + 1, t, a);
    }
  }

  /** Entry `e` inserts these rows. */
  predicate Inserts(entry: Entry, epoch: nat, t: Table, docs: seq<Row>) {
    && entry.Envelope? && entry.epoch == epoch && entry.version == ENV_VERSION
    && entry.body == Db(Mutation(t, Insert(docs)))
  }

  ghost predicate HeldAt(seed: Replica, epoch: nat, log: seq<Entry>, k: nat, t: Table, key: Row)
    requires k <= |log|
  {
    Held(Fold(seed, epoch, log[..k]).rows, t, key)
  }

  /** A key that is held early and free later is released by some entry in between. */
  lemma {:induction false} SomeEntryReleases(seed: Replica, epoch: nat, log: seq<Entry>, from: nat, until: nat, t: Table, key: Row)
    requires from <= until <= |log|
    requires HeldAt(seed, epoch, log, from, t, key) && !HeldAt(seed, epoch, log, until, t, key)
    ensures exists k :: from <= k < until && HeldAt(seed, epoch, log, k, t, key) && !HeldAt(seed, epoch, log, k + 1, t, key)
    decreases until
  {
    if HeldAt(seed, epoch, log, until - 1, t, key) {
      assert !HeldAt(seed, epoch, log, until - 1 + 1, t, key);
    } else {
      SomeEntryReleases(seed, epoch, log, from, until - 1, t, key);
    }
  }

  /** Entry `i` inserts rows, this one among them, and is accepted. */
  ghost predicate AcceptedInsert(seed: Replica, epoch: nat, log: seq<Entry>, i: nat, t: Table, docs: seq<Row>, doc: Row) {
    && i < |log| && t != OtherTable && Inserts(log[i], epoch, t, docs) && doc in docs
    && var out := Consume(Fold(seed, epoch, log[..i]), epoch, log[i]);
       out.Consumed? && out.verdict == Success
  }

  lemma InsertConsumed(s: Replica, epoch: nat, entry: Entry, t: Table, docs: seq<Row>, doc: Row)
    requires t != OtherTable && Inserts(entry, epoch, t, docs) && doc in docs
    requires Consume(s, epoch, entry).Consumed? && Consume(s, epoch, entry).verdict == Success
    ensures !Held(s.rows, t, doc) && doc in TableOf(After(s, epoch, entry).rows, t)
  {
    InsertManyVerdict(s.rows, t, docs, doc);
  }

  lemma AcceptedMeansFree(seed: Replica, epoch: nat, log: seq<Entry>, i: nat, t: Table, docs: seq<Row>, doc: Row)
    requires AcceptedInsert(seed, epoch, log, i, t, docs, doc)
    ensures !HeldAt(seed, epoch, log, i, t, doc)
    ensures doc in TableAt(seed, epoch, log, i + 1, t)
  {
    InsertConsumed(Fold(seed, epoch, log[..i]), epoch, log[i], t, docs, doc);
    FoldNext(seed, epoch, log, i);
  }

  /** Two accepted inserts, of one row or of many, that claim one key: some entry strictly between
      them released it. */
  lemma SecondInsertNeedsRelease(seed: Replica, epoch: nat, log: seq<Entry>, i: nat, j: nat, t: Table,
                                 as_: seq<Row>, a: Row, bs: seq<Row>, b: Row)
    requires Conflict(t, b, a) && i < j
    requires AcceptedInsert(seed, epoch, log, i, t, as_, a) && AcceptedInsert(seed, epoch, log, j, t, bs, b)
    ensures exists k :: i < k < j && HeldAt(seed, epoch, log, k, t, b) && !HeldAt(seed, epoch, log, k + 1, t, b)
  {
    AcceptedMeansFree(seed, epoch, log, i, t, as_, a);
    AcceptedMeansFree(seed, epoch, log, j, t, bs, b);
    assert Claims(t, b, a);
    assert HeldAt(seed, epoch, log, i + 1, t, b);
    SomeEntryReleases(seed, epoch, log, i + 1, j, t, b);
  }
}
