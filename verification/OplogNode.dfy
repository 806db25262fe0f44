/**
 The op-log code of one node as the program runs it: stored values and process-wide
 flags that methods overwrite step by step. `View` is the node as a value, and every
 method is tied to the function on that value which the cluster model uses.
 */
module OplogNode {
  import opened Store
  import opened Replay
  import opened Node
  import opened Blocking
  import Cluster

  /** How creating a missing stream went: an error, this call made it, or another manager's is there. */
  datatype Creation = NotMade | Made | LostRace(info: StreamInfo)

  /** What the outside answers during one attach: whether the epoch's stream exists and what it holds,
      the reply to the adoption request, whether the fallback window has passed and how a creation
      goes, the answers to the fast-forward attempts, whether the subscription is accepted while the
      loop is still running, and whether the licence could be cleared. */
  datatype Surroundings = Surroundings(
    stream: StreamInfo,
    adoption: Answer,
    waited: bool,
    creation: Creation,
    answers: seq<Answer>,
    subscribes: bool,
    clears: bool)

  /** The position on disk is that of the reply, and the reply had rows. */
  predicate Took(d: Disk, a: Answer) {
    a.Reply? && d.epoch == a.snap.epoch && d.applied == a.snap.at && d.rows == a.snap.rows && !IsEmpty(a.snap.rows)
  }

  predicate TookSome(d: Disk, s: Surroundings) {
    Took(d, s.adoption) || exists i :: 0 <= i < |s.answers| && Took(d, s.answers[i])
  }

  /** The same rows at the same place, whatever the markers say. */
  predicate SameTriple(a: Disk, b: Disk) {
    a.epoch == b.epoch && a.applied == b.applied && a.rows == b.rows
  }

  /** The loop has halted, and that is all. */
  predicate Halted(before: Node, after: Node) {
    after == before.(mem := before.mem.(halted := true))
  }

  /** The entry at `k` has been taken, with these rows and domains, and its writer told the verdict. */
  function Moved(n: Node, k: nat, rows: Rows, domains: Domains, reqId: string, v: Verdict): Node {
    n.(disk := n.disk.(rows := rows, domains := domains, applied := k),
       mem := n.mem.(waiters := Notify(n.mem.waiters, reqId, v)))
  }

  /** What a reply does to a node that has no stream: it is taken when it has rows and is of a newer
      epoch, or of this one while the node has not materialized there. */
  predicate Adopts(d: Disk, a: Answer) {
    && a.Reply? && (a.snap.rows.users != multiset{} || a.snap.rows.devices != multiset{})
    && (a.snap.epoch > d.epoch || (a.snap.epoch == d.epoch && d.bootMark != d.epoch))
  }

  predicate AdoptionLeaves(before: Disk, a: Answer, after: Disk) {
    if Adopts(before, a) && !a.result.DumpRefused?
    then Stands(after, a.snap) && after.licMark == before.licMark && after.enabled == before.enabled && after.agent == before.agent
    else after == before
  }

  /** The snapshot says what this domain is: it is a known one, and not a file that is not there. */
  predicate Installs(s: Snapshot, d: Domain) {
    d in s.domains && !d.OtherDomain? && !((d.FileCaCrt? || d.FileCaKey? || d.FileRclone?) && s.domains[d] == "")
  }

  /** The node behind the stream: its next entry has aged out. */
  predicate Behind(at: nat, info: StreamInfo) {
    info.Info? && info.msgs > 0 && info.firstSeq > at + 1
  }

  /** A node gets ready to subscribe at its epoch: from a peer when it is behind; else as it stands when
      it has materialized; else from a peer, or, with the licence, from its own store unless a peer
      leads it on to a newer epoch. */
  predicate GetsReady(d: Disk, info: StreamInfo, answers: seq<Answer>) {
    if Behind(d.applied, info) then CatchesUp(answers, d.epoch)
    else d.bootMark == d.epoch || CatchesUp(answers, d.epoch) || (d.licMark == d.epoch && !MovesOn(answers, d.epoch))
  }

  /** A licence holder whose fast-forward replaced its rows and then failed declares them the seed. */
  predicate SeedsFromReply(before: Disk, after: Disk, answers: seq<Answer>) {
    && before.licMark == before.epoch && before.bootMark != before.epoch
    && exists i :: 0 <= i < |answers| && Took(after, answers[i])
  }

  /** The stream still holds the entry after where the disk stands, as far as the last report says. */
  predicate Covered(after: Disk, info: StreamInfo, answers: seq<Answer>) {
    || !Behind(after.applied, info)
    || exists i :: 0 <= i < |answers| && Arrives(answers[i], after.epoch) && Stands(after, answers[i].snap)
  }

  /** Who may make the missing stream. */
  predicate MakesStream(d: Disk, alone: bool, waited: bool) {
    !d.agent && (d.licMark == d.epoch || !d.enabled || alone || (d.bootMark != d.epoch && waited))
  }

  /** When an attempt to attach succeeds, `mid` being the disk after the adoption, if one was tried. */
  predicate Attaches(before: Disk, mid: Disk, alone: bool, s: Surroundings) {
    && s.subscribes && mid.epoch == before.epoch
    && if s.stream.Info? then GetsReady(mid, s.stream, s.answers)
       else
         && !(Adopts(before, s.adoption) && s.adoption.result.Installed?)
         && MakesStream(mid, alone, s.waited)
         && (s.creation.Made? || (s.creation.LostRace? && GetsReady(mid, s.creation.info, s.answers)))
  }

  /** What the stream holds, as far as the attempt knows. */
  function Report(s: Surroundings): StreamInfo {
    if s.stream.Info? then s.stream else if s.creation.LostRace? then s.creation.info else Unavailable
  }

  /** Which write of leaving fails, if any. */
  datatype ResetStop = Never | AtDevices | AtLicence | AtPosition

  /** Where leaving stands when that write fails. */
  function ResetUntil(n: Node, stop: ResetStop): Node {
    match stop
    case AtDevices => n.(mesh := n.mesh.(nebulaUp := false))
    case AtLicence => Wiped(n)
    case AtPosition => Unlicensed(Wiped(n))
    case Never => Departed(Dropped(Unlicensed(Wiped(n))))
  }

  /** How asking the stream to store an entry goes: there is no client, no acknowledgement came (which
      does not say whether it was stored), or it was acknowledged. */
  datatype PublishAttempt = Unconnected | NotStored | Stored

  /** What a node asks of its stream now and then: it is gone, it is there, or nobody answers. */
  datatype StreamCheck = Gone | There | NoAnswer

  datatype Reply = Silence | Sends(snap: Snapshot)

  datatype Offer = Nothing | Offers(entry: Entry)

  function DirectResult(out: Outcome): Published {
    match out
    case Accepted(_) => Done
    case Rejected => ConstraintError
    case Fault => Failed
  }

  class OplogNode {
    var rows: Rows
    var domains: Domains
    var epoch: nat
    var applied: nat
    var bootMark: nat
    var licMark: nat
    var enabled: bool
    var agent: bool
    var streamSeen: bool
    var attached: bool
    var attachedEpoch: nat
    var halted: bool
    var waiters: map<string, Waiter>
    var mesh: Mesh

    function DiskView(): Disk
      reads this
    {
      Disk(rows, domains, epoch, applied, bootMark, licMark, enabled, agent)
    }

    function MemView(): Memory
      reads this
    {
      Memory(streamSeen, attached, attachedEpoch, halted, waiters)
    }

    function View(): Node
      reads this
    {
      Node(DiskView(), MemView(), mesh)
    }

    // ----- the waiter registry

    method RegisterWaiter(reqId: string)
      modifies this`waiters
      ensures View() == Expects(old(View()), reqId, false) && waiters == old(waiters)[reqId := Waiting]
    {
      waiters := waiters[reqId := Waiting];
    }

    method ReleaseWaiter(reqId: string)
      modifies this`waiters
      ensures View() == Forgets(old(View()), reqId) && waiters == old(waiters) - {reqId}
    {
      waiters := waiters - {reqId};
    }

    method NotifyWaiter(reqId: string, v: Verdict)
      modifies this`waiters
      ensures waiters == Notify(old(waiters), reqId, v)
      ensures waiters == if reqId in old(waiters) && old(waiters)[reqId].Waiting? then old(waiters)[reqId := Told(v)] else old(waiters)
    {
      if reqId !in waiters {
        return;
      }
      if waiters[reqId] == Waiting {
        waiters := waiters[reqId := Told(v)];
      }
    }

    // ----- the apply loop

    /** Domain first, sequence second: the order a crash in between depends on. */
    method ApplyDomainEnvelope(d: Domain, payload: Payload, reqId: string, k: nat) returns (ok: bool)
      modifies this
      ensures ok <==> !(Registered(d) && payload.Unreadable?)
      ensures !ok ==> View() == old(View())
      ensures ok && !Registered(d) ==> View() == old(View()).(disk := old(DiskView()).(applied := k))
      ensures ok && Registered(d) ==>
                domains == if (d.FileCaCrt? || d.FileCaKey? || d.FileRclone?) && payload.text == "" then old(domains)
                           else old(domains)[d := payload.text]
      ensures ok && Registered(d) ==>
                View() == old(View()).(disk := old(DiskView()).(domains := SetDomain(old(domains), d, payload.text), applied := k),
                                       mem := old(MemView()).(waiters := Notify(old(waiters), reqId, Success)))
    {
      if !Registered(d) {
        applied := k;
        return true;
      }
      if payload.Unreadable? {
        return false;
      }
      domains := SetDomain(domains, d, payload.text);
      applied := k;
      NotifyWaiter(reqId, Success);
      return true;
    }

    method ApplyTableEnvelope(m: Mutation, reqId: string, k: nat) returns (ok: bool)
      modifies this
      ensures ok <==> !Apply(old(rows), m).Fault?
      ensures match Apply(old(rows), m)
              case Fault => View() == old(View())
              case Rejected => View() == Moved(old(View()), k, old(rows), old(domains), reqId, Constraint)
              case Accepted(after) => View() == Moved(old(View()), k, after, old(domains), reqId, Success)
    {
      var out := ApplyTx(rows, m);
      match out {
        case Fault => return false;
        case Rejected => Commit(rows, k, reqId, Constraint);
        case Accepted(after) => Commit(after, k, reqId, Success);
      }
      return true;
    }

    /** Rows and sequence in one transaction; then the writer, if one waits here, is told. */
    method Commit(after: Rows, k: nat, reqId: string, v: Verdict)
      modifies this
      ensures View() == Moved(old(View()), k, after, old(domains), reqId, v)
      ensures rows == after && applied == k && domains == old(domains) && epoch == old(epoch)
    {
      rows, applied := after, k;
      NotifyWaiter(reqId, v);
    }

    method ApplyEnvelope(entry: Entry, k: nat)
      requires entry.Envelope? && entry.epoch == epoch
      modifies this
      ensures View() == Settle(old(View()), k, entry, Consume(ReplicaOf(old(DiskView())), old(epoch), entry))
    {
      var ok := false;
      if entry.version == ENV_VERSION {
        match entry.body {
          case Dom(d, payload) => ok := ApplyDomainEnvelope(d, payload, entry.reqId, k);
          case Db(m) => ok := ApplyTableEnvelope(m, entry.reqId, k);
          case OtherKind =>
        }
      }
      if !ok {
        halted := true;
      }
    }

    /** One delivered entry. A halted loop and an old entry change nothing; a gap detaches and changes
        nothing else; the next entry either moves the sequence, with its effect and the verdict its
        writer is told, or halts the loop and changes nothing else. */
    method HandleMsg(k: nat, entry: Entry)
      modifies this
      ensures View() == Handle(old(View()), k, entry)
      ensures old(halted) || k <= old(applied) ==> View() == old(View())
      ensures !old(halted) && k > old(applied) + 1 ==>
                !attached && View() == old(View()).(mem := old(MemView()).(attached := false))
      ensures !old(halted) && k == old(applied) + 1 ==>
                attached == old(attached) && (Halted(old(View()), View()) || (applied == k && !halted))
      ensures !old(halted) && k == old(applied) + 1 && entry.Garbled? ==> Halted(old(View()), View())
      ensures !old(halted) && k == old(applied) + 1 && entry.Envelope? && entry.epoch != old(epoch) ==>
                View() == old(View()).(disk := old(DiskView()).(applied := k))
      ensures !old(halted) && k == old(applied) + 1 && entry.Envelope? && entry.epoch == old(epoch) ==>
                && (entry.version != 1 || entry.body.OtherKind? ==> Halted(old(View()), View()))
                && (entry.version == 1 && entry.body.Db? ==>
                      match Apply(old(rows), entry.body.m)
                      case Fault => Halted(old(View()), View())
                      case Rejected => View() == old(Moved(View(), k, rows, domains, entry.reqId, Constraint))
                      case Accepted(after) => View() == old(Moved(View(), k, after, domains, entry.reqId, Success)))
                && (entry.version == 1 && entry.body.Dom? ==>
                      if entry.body.d.OtherDomain? then View() == old(View()).(disk := old(DiskView()).(applied := k))
                      else if entry.body.payload.Unreadable? then Halted(old(View()), View())
                      else View() == old(Moved(View(), k, rows, SetDomain(domains, entry.body.d, entry.body.payload.text),
                                               entry.reqId, Success)))
    {
      if halted {
        return;
      }
      match SeqActionOf(k, applied) {
        case Skip => return;
        case Gap =>
          attached := false;
          return;
        case Process =>
      }
      if entry.Garbled? {
        halted := true;
        return;
      }
      if entry.epoch != epoch {
        applied := k;
        return;
      }
      ApplyEnvelope(entry, k);
    }

    // ----- snapshots

    /** The rows, the position and the marker in one transaction; then every domain in turn. */
    method InstallSnapshot(s: Snapshot)
      modifies this
      ensures DiskView() == Install(old(DiskView()), s) && MemView() == old(MemView()) && mesh == old(mesh)
      ensures Stands(DiskView(), s) && licMark == old(licMark) && enabled == old(enabled) && agent == old(agent)
      ensures forall d :: Installs(s, d) ==> d in domains && domains[d] == s.domains[d]
      ensures forall d :: !Installs(s, d) ==> (d in domains <==> d in old(domains)) && (d in domains ==> domains[d] == old(domains)[d])
    {
      rows, epoch, applied, bootMark := s.rows, s.epoch, s.at, s.epoch;
      WriteDomains(s.domains);
    }

    method WriteDomains(snap: Domains)
      modifies this`domains
      ensures domains == InstallDomains(old(domains), snap)
    {
      ghost var local := domains;
      var names := snap.Keys;
      while names != {}
        invariant names <= snap.Keys && Written(local, snap, names, domains)
        decreases |names|
      {
        var d :| d in names;
        OneMoreDomain(local, snap, names, d, domains);
        domains := SetDomain(domains, d, snap[d]);
        names := names - {d};
      }
      AllWritten(local, snap, domains);
    }

    /** Replace local state from peers' snapshots until the stream covers where it landed. */
    method FastForwardLoop(target: nat, answers: seq<Answer>) returns (outcome: Catchup)
      requires |answers| == 5
      modifies this
      ensures FastForwarded(DiskView(), outcome) == FastForward(old(DiskView()), target, answers)
      ensures MemView() == old(MemView()) && mesh == old(mesh)
      ensures target == old(epoch) ==>
                && (outcome == CaughtUp <==> CatchesUp(answers, target))
                && (outcome == CaughtUp ==> exists i :: 0 <= i < |answers| && Arrives(answers[i], target) && Stands(DiskView(), answers[i].snap))
                && (epoch != target <==> MovesOn(answers, target))
    {
      FastForwardExactly(DiskView(), answers);
      var attempt := 0;
      while attempt < FAST_FORWARD_ATTEMPTS
        invariant attempt <= FAST_FORWARD_ATTEMPTS
        invariant FastForward(old(DiskView()), target, answers) == FastForward(DiskView(), target, answers[attempt..])
        invariant MemView() == old(MemView()) && mesh == old(mesh)
      {
        ghost var before := DiskView();
        var a := answers[attempt];
        assert answers[attempt..][0] == a && answers[attempt..][1..] == answers[attempt + 1..];
        outcome := TryOnce(target, a);
        if outcome != Outrun {
          return;
        }
        attempt := attempt + 1;
      }
      outcome := Outrun;
    }

    method TryOnce(target: nat, a: Answer) returns (outcome: Catchup)
      modifies this
      ensures DiskView() == AttemptDisk(old(DiskView()), a) && outcome == Attempt(old(DiskView()), target, a)
      ensures MemView() == old(MemView()) && mesh == old(mesh)
    {
      if a.NoReply? {
        return Unanswered;
      }
      if IsEmpty(a.snap.rows) {
        return EmptyReply;
      }
      if a.snap.epoch < epoch {
        return StaleReply;
      }
      match a.result {
        case DumpRefused => return InstallFailed;
        case DomainsFailed(written) =>
          InstallSnapshot(a.snap.(domains := Restrict(a.snap.domains, written)));
          return InstallFailed;
        case Installed => InstallSnapshot(a.snap);
      }
      if a.snap.epoch != target {
        return EpochMoved;
      }
      if a.info.Unavailable? {
        return NoInfo;
      }
      if Covers(a.info, a.snap.at) {
        return CaughtUp;
      }
      outcome := Outrun;
    }

    // ----- attaching

    /** Ask the cluster before creating anything; reports whether the caller has to start over. */
    method AdoptFromPeer(a: Answer) returns (adopted: bool)
      modifies this
      ensures MemView() == old(MemView()) && mesh == old(mesh)
      ensures adopted <==> Adopts(old(DiskView()), a) && a.result.Installed?
      ensures AdoptionLeaves(old(DiskView()), a, DiskView())
      ensures licMark == old(licMark) && epoch >= old(epoch)
      ensures (DiskView() == old(DiskView())) || (Took(DiskView(), a) && Bootstrapped(DiskView()))
      ensures adopted ==> a.Reply? && DiskView() == Install(old(DiskView()), a.snap)
      ensures old(Bootstrapped(DiskView())) && a.Reply? && a.snap.epoch == old(epoch) ==> DiskView() == old(DiskView())
    {
      if a.NoReply? || IsEmpty(a.snap.rows) || a.snap.epoch < epoch {
        return false;
      }
      if a.snap.epoch == epoch && Bootstrapped(DiskView()) {
        return false;
      }
      match a.result {
        case DumpRefused => return false;
        case DomainsFailed(written) =>
          InstallSnapshot(a.snap.(domains := Restrict(a.snap.domains, written)));
          return false;
        case Installed =>
          InstallSnapshot(a.snap);
          return true;
      }
    }

    /** Bring the store to where the subscription can start; false means try again later. */
    method CatchUp(target: nat, created: bool, info: StreamInfo, answers: seq<Answer>) returns (ready: bool)
      requires |answers| == 5 && target <= epoch
      modifies this
      ensures MemView() == old(MemView()) && mesh == old(mesh) && licMark == old(licMark) && epoch >= old(epoch)
      ensures SameTriple(DiskView(), old(DiskView())) || exists i :: 0 <= i < |answers| && Took(DiskView(), answers[i])
      ensures ready && epoch == target ==> Bootstrapped(DiskView())
      ensures ready && !created && !old(Bootstrapped(DiskView())) ==>
                (exists i :: 0 <= i < |answers| && Took(DiskView(), answers[i])) || Licensed(DiskView())
      ensures target == old(epoch) ==>
                (ready && epoch == target <==> created || GetsReady(old(DiskView()), info, answers))
      ensures target == old(epoch) && ready && epoch == target && !created && Behind(old(applied), info) ==>
                exists i :: 0 <= i < |answers| && Arrives(answers[i], target) && Stands(DiskView(), answers[i].snap)
      ensures target == old(epoch) && ready && epoch == target ==>
                || SameTriple(DiskView(), old(DiskView()))
                || (exists i :: 0 <= i < |answers| && Arrives(answers[i], target) && Stands(DiskView(), answers[i].snap))
                || SeedsFromReply(old(DiskView()), DiskView(), answers)
    {
      if created {
        bootMark := target;
        return true;
      }
      ghost var before := DiskView();
      if info.Info? && info.msgs > 0 && info.firstSeq > applied + 1 {
        var outcome := FastForwardLoop(target, answers);
        FastForwardFacts(before, target, answers);
        return outcome == CaughtUp;
      }
      if !Bootstrapped(DiskView()) {
        var outcome := FastForwardLoop(target, answers);
        FastForwardFacts(before, target, answers);
        if outcome != CaughtUp {
          if !Licensed(DiskView()) {
            return false;
          }
          bootMark := target;
        }
      }
      return true;
    }

    /** Find the epoch's stream: it is there; or a peer's snapshot sends the caller back; or it is made,
        by this node or by another. `mid` is the disk after the adoption, if one was tried. */
    method FindStream(s: Surroundings) returns (found: bool, created: bool, info: StreamInfo, ghost mid: Disk)
      modifies this
      ensures MemView() == old(MemView()) && mesh == old(mesh) && DiskView() == mid
      ensures if s.stream.Info? then mid == old(DiskView()) else AdoptionLeaves(old(DiskView()), s.adoption, mid)
      ensures found <==> Found(old(DiskView()), mid, old(mesh).alone, s)
      ensures found ==> (created <==> s.stream.Unavailable? && s.creation.Made?)
      ensures found ==> info == Report(s)
    {
      created, info, mid := false, s.stream, DiskView();
      if s.stream.Unavailable? {
        var adopted := AdoptFromPeer(s.adoption);
        mid := DiskView();
        if adopted || !MayCreate(View(), s.waited) {
          return false, false, info, mid;
        }
        match s.creation {
          case NotMade => return false, false, info, mid;
          case Made => created := true;
          case LostRace(other) => info := other;
        }
      }
      found := true;
    }

    /** The end of an attach: the latch, and the licence, which has served. */
    method Latch(target: nat, clears: bool)
      requires target == epoch
      modifies this
      ensures View() == old(View()).(mem := old(MemView()).(attached := true, attachedEpoch := target),
                                     disk := old(DiskView()).(licMark := if old(licMark) == old(epoch) && clears then 0 else old(licMark)))
    {
      attachedEpoch, attached := target, true;
      if Licensed(DiskView()) && clears {
        licMark := 0;
      }
    }

    /** One attempt to attach. It succeeds exactly in the cases `Attaches` lists, only at the epoch it
        started for, only on a node that is bootstrapped there, and only where the stream still holds
        the next entry, unless a licence holder has just declared a peer's rows the seed; whatever
        happens, the rows and their position are the old ones or a non-empty reply's; and a node that
        ends up declaring its own store to be the seed has either made the stream itself or held the
        licence. */
    method Attach(s: Surroundings) returns (ok: bool, ghost mid: Disk)
      requires !attached && |s.answers| == 5
      modifies this
      ensures if s.stream.Info? then mid == old(DiskView()) else AdoptionLeaves(old(DiskView()), s.adoption, mid)
      ensures ok <==> Attaches(old(DiskView()), mid, old(mesh).alone, s)
      ensures ok ==> Covered(DiskView(), Report(s), s.answers) || SeedsFromReply(mid, DiskView(), s.answers)
      ensures ok && mid.applied == 0 ==> Covered(DiskView(), Report(s), s.answers)
      ensures !ok ==> licMark == old(licMark) && attachedEpoch == old(attachedEpoch)
      ensures ok == attached && halted == old(halted) && waiters == old(waiters) && mesh == old(mesh)
      ensures ok ==> epoch == old(epoch) && attachedEpoch == epoch && streamSeen && Bootstrapped(DiskView())
      ensures ok && s.clears && old(Licensed(DiskView())) ==> licMark == 0
      ensures epoch >= old(epoch)
      ensures SameTriple(DiskView(), old(DiskView())) || TookSome(DiskView(), s)
      ensures ok && !old(Bootstrapped(DiskView())) && !TookSome(DiskView(), s) ==>
                (s.stream.Unavailable? && s.creation.Made?) || old(Licensed(DiskView()))
    {
      var target := epoch;
      var found, created, info;
      found, created, info, mid := FindStream(s);
      AttachesWhen(old(DiskView()), mid, old(mesh).alone, s, created);
      if !found {
        return false, mid;
      }
      streamSeen := true;
      assert DiskView() == mid;
      var ready := CatchUp(target, created, info, s.answers);
      TripleOrTook(old(DiskView()), mid, DiskView(), s);
      if !ready || epoch != target || !s.subscribes {
        return false, mid;
      }
      ghost var caught := DiskView();
      ReadyMeansCovered(mid, caught, created, info, s.answers);
      Latch(target, s.clears);
      LicenceDoesNotShow(mid, caught, DiskView(), Report(s), s);
      return true, mid;
    }

    // ----- writes around the log, and membership

    /** The direct write path of a table mutation. */
    method WriteDirect(m: Mutation) returns (out: Outcome)
      modifies this`rows
      ensures out == Apply(old(rows), m) && rows == Wrote(old(rows), m)
      ensures rows == if out.Accepted? then out.rows else old(rows)
    {
      out := ApplyTx(rows, m);
      if out.Accepted? {
        rows := out.rows;
      }
    }

    method JoinExisting(bundleEpoch: nat, asAgent: bool)
      modifies this
      ensures View() == old(View()).(disk := Joined(old(DiskView()), bundleEpoch, asAgent))
      ensures DiskView() == old(DiskView()).(
                epoch := if bundleEpoch > old(epoch) then bundleEpoch else old(epoch),
                applied := if bundleEpoch > old(epoch) then 0 else old(applied),
                bootMark := if bundleEpoch > old(epoch) then 0 else old(bootMark),
                enabled := true, agent := asAgent)
    {
      agent := asAgent;
      if bundleEpoch > epoch {
        epoch, applied, bootMark := bundleEpoch, 0, 0;
      }
      enabled := true;
    }

    method FoundConstellation()
      modifies this
      ensures View() == old(View()).(disk := Founded(old(DiskView())))
      ensures DiskView() == old(DiskView()).(enabled := true, agent := false, licMark := old(epoch))
    {
      enabled := true;
      agent := false;
      licMark := epoch;
    }

    method DeleteDevices()
      modifies this`rows
      ensures View() == old(View()).(disk := old(DiskView()).(rows := old(rows).(devices := multiset{})))
    {
      rows := rows.(devices := multiset{});
    }

    method ClearFormationWriter()
      modifies this`licMark
      ensures View() == Unlicensed(old(View()))
    {
      licMark := 0;
    }

    /** Position and marker in one transaction. */
    method SetOplogState(seq_: nat)
      modifies this`applied, this`bootMark
      ensures View() == old(View()).(disk := old(DiskView()).(applied := seq_, bootMark := 0))
    {
      applied, bootMark := seq_, 0;
    }

    method LeaveConstellation()
      modifies this`streamSeen, this`enabled, this`agent
      ensures View() == Departed(old(View()))
    {
      streamSeen := false;
      enabled, agent := false, false;
    }

    /** Leaving: three transactions and the configuration, in this order, each of which may be the last;
        the loop stays attached throughout, and the epoch stays. */
    method ResetNebula(stop: ResetStop) returns (ok: bool)
      modifies this
      ensures ok <==> stop == Never
      ensures View() == ResetUntil(old(View()), stop)
      ensures !mesh.nebulaUp && attached == old(attached) && halted == old(halted) && waiters == old(waiters)
      ensures rows == if stop == AtDevices then old(rows) else Rows(old(rows).users, multiset{})
      ensures domains == old(domains) && epoch == old(epoch)
      ensures licMark == if stop == AtDevices || stop == AtLicence then old(licMark) else 0
      ensures ok ==> applied == 0 && bootMark == 0 && !enabled && !agent && !streamSeen
      ensures !ok ==> applied == old(applied) && bootMark == old(bootMark) && enabled == old(enabled) &&
                      agent == old(agent) && streamSeen == old(streamSeen)
    {
      mesh := mesh.(nebulaUp := false);
      if stop == AtDevices {
        return false;
      }
      DeleteDevices();
      if stop == AtLicence {
        return false;
      }
      ClearFormationWriter();
      if stop == AtPosition {
        return false;
      }
      SetOplogState(0);
      LeaveConstellation();
      ok := true;
    }

    /** Block one device by a local write. */
    method BlockDevice(name: string) returns (ok: bool)
      requires Consistent(rows)
      modifies this`rows
      ensures ok && BlocksOne(old(rows), rows, name)
    {
      BlockingBlocks(rows, name);
      var out := WriteDirect(BlockMutation(name));
      ok := out.Accepted?;
    }

    /** The names of the active managers, as the store lists them. */
    method ListManagers() returns (names: seq<string>, ghost listed: seq<Row>)
      ensures multiset(listed) == rows.devices && names == ManagerNames(listed)
    {
      var s := Scan(rows.devices);
      listed := s;
      names := [];
      var i := 0;
      while i < |s|
        invariant i <= |s| && names == ManagerNames(s[..i])
      {
        assert s[..i + 1][..i] == s[..i];
        if ActiveManager(s[i]) {
          names := names + [Get(s[i], DeviceName)];
        }
        i := i + 1;
      }
      assert s[..|s|] == s;
    }

    /** Block the listed managers but this one by local writes, one after the other; an error stops the
        loop and reports what was blocked so far. */
    method BlockAll(managers: seq<string>, self: string) returns (blocked: seq<string>, ok: bool)
      requires Consistent(rows)
      modifies this`rows
      ensures ok && blocked == Others(managers, self) && BlocksAll(old(rows), rows, blocked)
    {
      blocked := [];
      var i := 0;
      while i < |managers|
        invariant i <= |managers| && BlocksAll(old(rows), rows, blocked)
        invariant blocked + Others(managers[i..], self) == Others(managers, self)
      {
        OthersNext(managers, i, self, blocked);
        if managers[i] != "" && managers[i] != self {
          ghost var middle := rows;
          var done := BlockDevice(managers[i]);
          if !done {
            return blocked, false;
          }
          BlocksOneMore(old(rows), middle, rows, blocked, managers[i]);
          blocked := blocked + [managers[i]];
        }
        i := i + 1;
      }
      ok := true;
    }

    /** Block every other active manager, in the order the store lists them. */
    method BlockDeadManagers(self: string) returns (blocked: seq<string>, ok: bool, ghost listed: seq<Row>)
      requires Consistent(rows)
      modifies this`rows
      ensures ok && multiset(listed) == old(rows).devices && blocked == Others(ManagerNames(listed), self)
      ensures BlocksAll(old(rows), rows, blocked) && SoleManager(rows, self)
      ensures ReformBlocks(old(rows), rows, blocked, self)
    {
      var managers;
      managers, listed := ListManagers();
      blocked, ok := BlockAll(managers, self);
      BlockedLeavesOne(old(rows), rows, listed, self);
      BlockedAreManagers(old(rows), rows, listed, self);
    }

    /** What the periodic check of an attached node makes of its answer: it detaches when the epoch has
        moved under it, when the stream is definitely gone, or when the probe says that nothing arrives
        any more. No answer means nothing. */
    method CheckAttachedStream(answer: StreamCheck, stalled: bool)
      modifies this`attached
      ensures attached <==> old(attached) && attachedEpoch == epoch && answer != Gone && !(answer == There && stalled)
    {
      if attachedEpoch != epoch {
        attached := false;
      } else if answer == Gone || (answer == There && stalled) {
        attached := false;
      }
    }

    /** Answering a peer's snapshot request, which names the epoch it asks from. A halted, removed or
        unattached node stays silent, unless it holds the licence; so does one that is behind the asker,
        and one that has no rows. */
    method AnswerSnapshotRequest(asked: nat) returns (reply: Reply)
      ensures reply.Sends? <==>
                && !halted && !mesh.selfBlocked && (attached || licMark == epoch) && asked <= epoch
                && (rows.users != multiset{} || rows.devices != multiset{})
      ensures reply.Sends? ==> reply.snap.epoch == epoch && reply.snap.at == applied && reply.snap.rows == rows
      ensures reply.Sends? ==> forall d: Domain :: !d.OtherDomain? ==> d in reply.snap.domains
      ensures reply.Sends? ==> forall d | d in reply.snap.domains :: reply.snap.domains[d] == if d in domains then domains[d] else ""
    {
      if !MayServe(View()) || asked > epoch || IsEmpty(rows) {
        return Silence;
      }
      reply := Sends(Snapshot(epoch, applied, rows, CapturedDomains(domains)));
    }

    /** The fence of a force-reform, in one transaction, and the teardown that follows it. */
    method ReformEpoch()
      modifies this
      ensures View() == Reformed(old(View()))
      ensures epoch == old(epoch) + 1 && licMark == old(epoch) + 1 && applied == 0 && bootMark == 0
      ensures !attached && !streamSeen && rows == old(rows) && domains == old(domains) && enabled == old(enabled) && agent == old(agent)
      ensures halted == old(halted) && waiters == old(waiters) && attachedEpoch == old(attachedEpoch) && mesh == old(mesh)
    {
      epoch, applied, bootMark, licMark := epoch + 1, 0, 0, epoch + 1;
      streamSeen := false;
      attached := false;
    }

    /** Force-reform: the epoch moves first; then the departed managers are blocked. */
    method ForceReform(self: string) returns (blocked: seq<string>, ghost listed: seq<Row>)
      requires Consistent(rows)
      modifies this
      ensures DiskView() == Reformed(old(View())).disk.(rows := rows)
      ensures MemView() == Reformed(old(View())).mem && mesh == old(mesh)
      ensures multiset(listed) == old(rows).devices && blocked == Others(ManagerNames(listed), self)
      ensures BlocksAll(old(rows), rows, blocked) && SoleManager(rows, self)
      ensures ReformBlocks(old(rows), rows, blocked, self)
    {
      ghost var before := View();
      ReformEpoch();
      assert rows == before.disk.rows;
      var ok;
      blocked, ok, listed := BlockDeadManagers(self);
    }

    // ----- publishing

    /** The apply loop goes on while a writer publishes and waits. */
    method HandleEach(ds: seq<Delivery>)
      modifies this
      ensures View() == AfterEach(old(View()), ds)
    {
      var i := 0;
      while i < |ds|
        invariant i <= |ds| && View() == AfterEach(old(View()), ds[..i])
      {
        assert ds[..i + 1][..i] == ds[..i];
        HandleMsg(ds[i].k, ds[i].entry);
        i := i + 1;
      }
      assert ds[..|ds|] == ds;
    }

    /** Wait for the verdict while the loop goes on, until it comes or the deadline does. */
    method AwaitVerdict(reqId: string, ds: seq<Delivery>) returns (r: Published, ghost n: nat)
      requires reqId in waiters
      modifies this
      ensures n <= |ds| && View() == AfterEach(old(View()), ds[..n])
      ensures reqId in waiters && r == Returned(waiters[reqId])
      ensures r == ApplyTimeout <==> waiters[reqId].Waiting?
      ensures waiters[reqId].Told? ==> r == if waiters[reqId].verdict.Constraint? then ConstraintError else Done
      ensures r == ApplyTimeout ==> n == |ds|
    {
      var i := 0;
      while i < |ds| && waiters[reqId] == Waiting
        invariant i <= |ds| && View() == AfterEach(old(View()), ds[..i])
        invariant reqId in waiters
      {
        assert ds[..i + 1][..i] == ds[..i];
        HandleKeepsWaiters(View(), ds[i].k, ds[i].entry);
        HandleMsg(ds[i].k, ds[i].entry);
        i := i + 1;
      }
      r, n := Returned(waiters[reqId]), i;
    }

    /** Register, publish, wait, release. `during` comes in while the stream is being asked, `later`
        while the writer waits. The waiter is gone on every path, and nothing but the loop's own work
        is left behind. */
    method PublishEnvelope(reqId: string, bestEffort: bool, attempt: PublishAttempt, during: seq<Delivery>, later: seq<Delivery>)
      returns (r: Published, ghost n: nat)
      requires reqId !in waiters
      modifies this
      ensures n <= |later| && (n > 0 ==> attempt == Stored && !bestEffort)
      ensures View() == Forgets(AfterEach(Expects(old(View()), reqId, bestEffort),
                                          (if attempt == Unconnected then [] else during) + later[..n]), reqId)
      ensures reqId !in waiters
      ensures attempt == Unconnected ==> r == ReadOnlyError
      ensures bestEffort && attempt != Unconnected ==> r == Done
      ensures !bestEffort && attempt == NotStored ==> r == ReadOnlyError
      ensures !bestEffort && attempt == Stored ==>
                r == ResultOf(AfterEach(Expects(old(View()), reqId, false), during + later[..n]), reqId)
      ensures r == ApplyTimeout ==> n == |later|
    {
      n := 0;
      ghost var start := Expects(View(), reqId, bestEffort);
      if !bestEffort {
        RegisterWaiter(reqId);
      }
      assert View() == start;
      if attempt == Unconnected {
        assert later[..0] == [] && [] + later[..0] == [];
        ReleaseWaiter(reqId);
        return ReadOnlyError, 0;
      }
      HandleEach(during);
      EachKeepsWaiters(start, during);
      if attempt == Stored && !bestEffort {
        ghost var published := View();
        r, n := AwaitVerdict(reqId, later);
        EachAppend(start, during, later[..n]);
      } else {
        assert later[..0] == [] && during + later[..0] == during;
        r := if bestEffort then Done else ReadOnlyError;
      }
      ReleaseWaiter(reqId);
    }

    /** Where a table mutation goes, and what the caller is told. `sent` is what the stream is offered. */
    method PublishOp(m: Mutation, reqId: string, bestEffort: bool, attempt: PublishAttempt, during: seq<Delivery>, later: seq<Delivery>)
      returns (r: Published, sent: Offer, ghost n: nat)
      requires reqId !in waiters
      modifies this
      ensures n <= |later| && reqId !in waiters
      // refused: nothing is written and nothing offered
      ensures old(MustNotWrite(View())) ==>
                sent == Nothing && View() == old(View()) && r == if bestEffort then Done else ReadOnlyError
      // around the log
      ensures !old(MustNotWrite(View())) && !old(attached) ==>
                && sent == Nothing
                && match Apply(old(rows), m)
                   case Accepted(after) => View() == old(View()).(disk := old(DiskView()).(rows := after)) && r == Done
                   case Rejected => View() == old(View()) && r == ConstraintError
                   case Fault => View() == old(View()) && r == Failed
      // into the log
      ensures !old(MustNotWrite(View())) && old(attached) && !Encodes(m) ==> sent == Nothing && View() == old(View()) && r == Failed
      ensures !old(MustNotWrite(View())) && old(attached) && Encodes(m) ==>
                && sent == Offers(Envelope(1, old(epoch), Db(m), reqId))
                && View() == Forgets(AfterEach(Expects(old(View()), reqId, bestEffort),
                                               (if attempt == Unconnected then [] else during) + later[..n]), reqId)
                && (attempt == Stored && !bestEffort ==>
                      r == ResultOf(AfterEach(Expects(old(View()), reqId, false), during + later[..n]), reqId))
                && (attempt == Unconnected || (attempt == NotStored && !bestEffort) ==> r == ReadOnlyError)
                && (attempt != Unconnected && bestEffort ==> r == Done)
    {
      WriteModeExactly(View());
      sent, n := Nothing, 0;
      match WriteMode(View()) {
        case Direct =>
          var out := WriteDirect(m);
          r := DirectResult(out);
        case ReadOnly => r := if bestEffort then Done else ReadOnlyError;
        case Publish =>
          if !Encodes(m) {
            return Failed, Nothing, 0;
          }
          sent := Offers(Envelope(ENV_VERSION, epoch, Db(m), reqId));
          r, n := PublishEnvelope(reqId, bestEffort, attempt, during, later);
      }
    }

    /** The same for the full state of a config domain. */
    method PublishDomainOp(d: Domain, payload: Payload, reqId: string, attempt: PublishAttempt, during: seq<Delivery>, later: seq<Delivery>)
      returns (r: Published, sent: Offer, ghost n: nat)
      requires reqId !in waiters
      modifies this
      ensures n <= |later| && reqId !in waiters
      // refused: nothing is written and nothing offered
      ensures old(MustNotWrite(View())) ==> sent == Nothing && View() == old(View()) && r == ReadOnlyError
      // around the log
      ensures !old(MustNotWrite(View())) && !old(attached) ==>
                && sent == Nothing && r == (if d.OtherDomain? || payload.Unreadable? then Failed else Done)
                && View() == (if r == Done
                              then old(View()).(disk := old(DiskView()).(domains := SetDomain(old(domains), d, payload.text)))
                              else old(View()))
      // into the log
      ensures !old(MustNotWrite(View())) && old(attached) ==>
                && sent == Offers(Envelope(1, old(epoch), Dom(d, payload), reqId))
                && View() == Forgets(AfterEach(Expects(old(View()), reqId, false),
                                               (if attempt == Unconnected then [] else during) + later[..n]), reqId)
                && (attempt == Stored ==>
                      r == ResultOf(AfterEach(Expects(old(View()), reqId, false), during + later[..n]), reqId))
                && (attempt != Stored ==> r == ReadOnlyError)
    {
      WriteModeExactly(View());
      sent, n := Nothing, 0;
      match WriteMode(View()) {
        case Direct =>
          if Registered(d) && payload.State? {
            domains := SetDomain(domains, d, payload.text);
            r := Done;
          } else {
            r := Failed;
          }
        case ReadOnly => r := ReadOnlyError;
        case Publish =>
          sent := Offers(Envelope(ENV_VERSION, epoch, Dom(d, payload), reqId));
          r, n := PublishEnvelope(reqId, false, attempt, during, later);
      }
    }
  }

  /** The exception in what `Attach` promises is real: a licence holder behind nothing, whose first reply
      has older rows and fails a domain, stands below what the stream still holds afterwards. With the
      licence it goes on to declare those rows the seed. */
  lemma HalfTakenReplyMisses(d: Disk, snap: Snapshot, rest: seq<Answer>)
    requires Licensed(d) && !Bootstrapped(d) && !IsEmpty(snap.rows) && snap.epoch == d.epoch && snap.at < d.applied
    ensures var answers, info := [Reply(snap, DomainsFailed({}), Unavailable)] + rest, Info(1, d.applied + 1);
            var after := FastForward(d, d.epoch, answers);
            && !Behind(d.applied, info) && GetsReady(d, info, answers) && after.outcome != CaughtUp
            && after.disk.epoch == d.epoch && Behind(after.disk.applied, info)
  {
    var answers := [Reply(snap, DomainsFailed({}), Unavailable)] + rest;
    assert answers[0] == Reply(snap, DomainsFailed({}), Unavailable) && answers[1..] == rest;
    MovesOnNext(answers[0], rest, d.epoch);
  }

  /** The report tells what a stream with this log holds: its last entries, a hundred at most. */
  predicate Reports(info: StreamInfo, log: seq<Entry>) {
    && info.Info? && info.msgs == (if |log| < 100 then |log| else 100)
    && (info.msgs > 0 ==> info.firstSeq == |log| - info.msgs + 1)
  }

  /** Where the reports were true of the stream, an attached node finds its next entry there. */
  lemma CoveredIsRetained(after: Disk, info: StreamInfo, answers: seq<Answer>, log: seq<Entry>)
    requires Covered(after, info, answers) && (Reports(info, log) || log == [])
    requires forall i | 0 <= i < |answers| && Arrives(answers[i], after.epoch) :: Reports(answers[i].info, log)
    ensures Cluster.FirstRetained(log) <= after.applied + 1
  {
    Cluster.RetainsTheLast(log);
  }

  /** What the search for a stream found. */
  predicate Found(before: Disk, mid: Disk, alone: bool, s: Surroundings) {
    s.stream.Info? ||
    (&& !(Adopts(before, s.adoption) && s.adoption.result.Installed?)
     && MakesStream(mid, alone, s.waited) && !s.creation.NotMade?)
  }

  lemma AttachesWhen(before: Disk, mid: Disk, alone: bool, s: Surroundings, created: bool)
    requires Found(before, mid, alone, s) ==> (created <==> s.stream.Unavailable? && s.creation.Made?)
    ensures Attaches(before, mid, alone, s) <==>
            && Found(before, mid, alone, s) && s.subscribes && mid.epoch == before.epoch
            && (created || GetsReady(mid, Report(s), s.answers))
  {
  }

  /** Where the two stages of an attach leave the position. */
  lemma TripleOrTook(before: Disk, mid: Disk, after: Disk, s: Surroundings)
    requires if s.stream.Info? then mid == before else AdoptionLeaves(before, s.adoption, mid)
    requires SameTriple(after, mid) || exists i :: 0 <= i < |s.answers| && Took(after, s.answers[i])
    ensures SameTriple(after, before) || TookSome(after, s)
  {
    if SameTriple(after, mid) && mid != before {
      assert Took(after, s.adoption);
    }
  }

  /** A node that got ready stands where the stream still holds its next entry, or has declared a peer's
      rows the seed. */
  lemma ReadyMeansCovered(mid: Disk, after: Disk, created: bool, info: StreamInfo, answers: seq<Answer>)
    requires after.epoch == mid.epoch && (created ==> info.Unavailable?)
    requires !created && Behind(mid.applied, info) ==>
               exists i :: 0 <= i < |answers| && Arrives(answers[i], after.epoch) && Stands(after, answers[i].snap)
    requires || SameTriple(after, mid)
             || (exists i :: 0 <= i < |answers| && Arrives(answers[i], after.epoch) && Stands(after, answers[i].snap))
             || SeedsFromReply(mid, after, answers)
    ensures Covered(after, info, answers) || SeedsFromReply(mid, after, answers)
    ensures mid.applied == 0 ==> Covered(after, info, answers)
  {
  }

  lemma LicenceDoesNotShow(mid: Disk, a: Disk, b: Disk, info: StreamInfo, s: Surroundings)
    requires b == a.(licMark := b.licMark)
    ensures Covered(a, info, s.answers) ==> Covered(b, info, s.answers)
    ensures SeedsFromReply(mid, a, s.answers) ==> SeedsFromReply(mid, b, s.answers)
    ensures TookSome(b, s) <==> TookSome(a, s)
  {
    forall x ensures Took(b, x) <==> Took(a, x) {
    }
    forall x ensures Stands(b, x) <==> Stands(a, x) {
    }
    if Covered(a, info, s.answers) && Behind(a.applied, info) {
      var i :| 0 <= i < |s.answers| && Arrives(s.answers[i], a.epoch) && Stands(a, s.answers[i].snap);
      assert Stands(b, s.answers[i].snap);
    }
  }

  lemma {:induction false} FastForwardMarks(d: Disk, epoch: nat, answers: seq<Answer>)
    ensures var r := FastForward(d, epoch, answers);
            && r.disk.licMark == d.licMark
            && (r.outcome == CaughtUp ==> r.disk.epoch == epoch && Bootstrapped(r.disk))
            && (r.outcome == CaughtUp ==> exists i :: 0 <= i < |answers| && Took(r.disk, answers[i]))
    decreases |answers|
  {
    if answers != [] {
      if Attempt(d, epoch, answers[0]) == Outrun {
        FastForwardMarks(AttemptDisk(d, answers[0]), epoch, answers[1..]);
        var r := FastForward(d, epoch, answers);
        if r.outcome == CaughtUp {
          var j :| 0 <= j < |answers[1..]| && Took(r.disk, answers[1..][j]);
          assert answers[j + 1] == answers[1..][j];
        }
      } else if Attempt(d, epoch, answers[0]) == CaughtUp {
        assert Took(AttemptDisk(d, answers[0]), answers[0]);
      }
    }
  }

  lemma FastForwardFacts(d: Disk, epoch: nat, answers: seq<Answer>)
    ensures var r := FastForward(d, epoch, answers);
            && r.disk.licMark == d.licMark && r.disk.epoch >= d.epoch
            && (SameTriple(r.disk, d) || exists i :: 0 <= i < |answers| && Took(r.disk, answers[i]))
            && (r.outcome == CaughtUp ==>
                  r.disk.epoch == epoch && Bootstrapped(r.disk) && exists i :: 0 <= i < |answers| && Took(r.disk, answers[i]))
  {
    FastForwardMarks(d, epoch, answers);
    FastForwardTriple(d, epoch, answers);
    var r := FastForward(d, epoch, answers);
    if !SamePosition(r.disk, d) {
      var i :| 0 <= i < |answers| && answers[i].Reply? && TookFrom(r.disk, answers[i].snap);
      assert Took(r.disk, answers[i]);
    }
  }

  /** What stands in place of domain `d` once some of the snapshot's domains have been written. */
  ghost predicate WrittenAt(local: Domains, snap: Domains, left: set<Domain>, now: Domains, d: Domain) {
    if d in snap && d !in left && Effective(d, snap[d]) then d in now && now[d] == snap[d]
    else (d in now <==> d in local) && (d in local ==> now[d] == local[d])
  }

  ghost predicate Written(local: Domains, snap: Domains, left: set<Domain>, now: Domains) {
    forall d :: WrittenAt(local, snap, left, now, d)
  }

  lemma OneMoreDomain(local: Domains, snap: Domains, left: set<Domain>, d: Domain, now: Domains)
    requires Written(local, snap, left, now) && d in left && d in snap
    ensures Written(local, snap, left - {d}, SetDomain(now, d, snap[d]))
  {
    var rest, next := left - {d}, SetDomain(now, d, snap[d]);
    forall x ensures WrittenAt(local, snap, rest, next, x) {
      assert WrittenAt(local, snap, left, now, x);
    }
  }

  lemma AllWritten(local: Domains, snap: Domains, now: Domains)
    requires Written(local, snap, {}, now)
    ensures now == InstallDomains(local, snap)
  {
    var b := InstallDomains(local, snap);
    forall d ensures (d in now <==> d in b) && (d in b ==> now[d] == b[d]) {
      assert WrittenAt(local, snap, {}, now, d);
    }
  }
}
