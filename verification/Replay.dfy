/**
 What one entry of the config op-log does to a replica, and what replaying a log
 from a seed gives. A replica is the SQLite rows together with the config domains;
 no transaction spans the two.
 */
module Replay {
  import opened Store

  // ----- config domains

  datatype Domain =
    | AuthKeys | Dns | ApiTokens | Roles | OpenIdClients | Database
    | FileCaCrt | FileCaKey | FileRclone
    | OtherDomain(name: string)

  /** A domain's full state, or bytes its decoder refuses. */
  datatype Payload = State(text: string) | Unreadable

  type Domains = map<Domain, string>

  predicate Registered(d: Domain) {
    !d.OtherDomain?
  }

  predicate IsFile(d: Domain) {
    d.FileCaCrt? || d.FileCaKey? || d.FileRclone?
  }

  function ValueOf(m: Domains, d: Domain): string {
    if d in m then m[d] else ""
  }

  /** An empty file payload means "no such file here" and is never written. */
  predicate Effective(d: Domain, text: string) {
    Registered(d) && !(IsFile(d) && text == "")
  }

  function SetDomain(m: Domains, d: Domain, text: string): Domains {
    if Effective(d, text) then m[d := text] else m
  }

  // ----- log entries

  datatype Body = Db(m: Mutation) | Dom(d: Domain, payload: Payload) | OtherKind

  datatype Entry =
    | Envelope(version: nat, epoch: nat, body: Body, reqId: string)
    | Garbled

  const ENV_VERSION: nat := 1

  datatype Replica = Replica(rows: Rows, domains: Domains)

  /** What the originator of an entry is told: nothing, success, or a constraint rejection. */
  datatype Verdict = Silent | Success | Constraint

  datatype Consumption = Consumed(after: Replica, verdict: Verdict) | Halts

  /** Processing one entry on a replica at `epoch`: either the entry is consumed, or the loop halts. */
  ghost function Consume(s: Replica, epoch: nat, entry: Entry): Consumption {
    if entry.Garbled? then Halts
    else if entry.epoch != epoch then Consumed(s, Silent)
    else if entry.version != ENV_VERSION then Halts
    else
      match entry.body
      case OtherKind => Halts
      case Dom(d, payload) =>
        if !Registered(d) then Consumed(s, Silent)
        else if payload.Unreadable? then Halts
        else Consumed(s.(domains := SetDomain(s.domains, d, payload.text)), Success)
      case Db(m) =>
        match Apply(s.rows, m)
        case Accepted(rows) => Consumed(s.(rows := rows), Success)
        case Rejected => Consumed(s, Constraint)
        case Fault => Halts
  }

  ghost function After(s: Replica, epoch: nat, entry: Entry): Replica {
    match Consume(s, epoch, entry)
    case Consumed(s', _) => s'
    case Halts => s
  }

  /** The replica after the whole of `log`, replayed in order from `seed`. */
  ghost function Fold(seed: Replica, epoch: nat, log: seq<Entry>): Replica {
    if log == [] then seed
    else After(Fold(seed, epoch, log[..|log| - 1]), epoch, log[|log| - 1])
  }

  lemma FoldNext(seed: Replica, epoch: nat, log: seq<Entry>, k: nat)
    requires k < |log|
    ensures Fold(seed, epoch, log[..k + 1]) == After(Fold(seed, epoch, log[..k]), epoch, log[k])
  {
    assert log[..k + 1][..k] == log[..k];
  }

  lemma FoldStretch(s: Replica, epoch: nat, log: seq<Entry>, from: nat, until: nat)
    requires from < until <= |log|
    ensures Fold(s, epoch, log[from..until]) == After(Fold(s, epoch, log[from..until - 1]), epoch, log[until - 1])
  {
    var part := log[from..until];
    assert part[..|part| - 1] == log[from..until - 1] && part[|part| - 1] == log[until - 1];
  }

  /** The same stretch of a log, replayed by position. */
  ghost function FoldFrom(s: Replica, epoch: nat, log: seq<Entry>, from: nat, until: nat): Replica
    requires from <= until <= |log|
    decreases until
  {
    if from == until then s else After(FoldFrom(s, epoch, log, from, until - 1), epoch, log[until - 1])
  }

  lemma {:induction false} FoldFromIsFold(s: Replica, epoch: nat, log: seq<Entry>, from: nat, until: nat)
    requires from <= until <= |log|
    ensures FoldFrom(s, epoch, log, from, until) == Fold(s, epoch, log[from..until])
    decreases until
  {
    if from == until {
      assert log[from..until] == [];
    } else {
      FoldFromIsFold(s, epoch, log, from, until - 1);
      FoldStretch(s, epoch, log, from, until);
    }
  }

  lemma {:induction false} FoldAppend(seed: Replica, epoch: nat, a: seq<Entry>, b: seq<Entry>)
    ensures Fold(seed, epoch, a + b) == Fold(Fold(seed, epoch, a), epoch, b)
    decreases |b|
  {
    if b == [] {
      assert a + b == a;
    } else {
      var n := |b| - 1;
      assert (a + b)[..|a + b| - 1] == a + b[..n];
      FoldAppend(seed, epoch, a, b[..n]);
    }
  }

  lemma {:induction false} FoldConsistent(seed: Replica, epoch: nat, log: seq<Entry>)
    requires Consistent(seed.rows)
    ensures Consistent(Fold(seed, epoch, log).rows)
    decreases |log|
  {
    if log != [] {
      var before := Fold(seed, epoch, log[..|log| - 1]);
      FoldConsistent(seed, epoch, log[..|log| - 1]);
      var e := log[|log| - 1];
      if e.Envelope? && e.body.Db? {
        ApplyKeepsConsistent(before.rows, e.body.m);
      }
    }
  }

  // ----- dying between the effect of an entry and the commit of its sequence

  /** The replica a process leaves behind when it dies after an entry's effect and before its
      sequence number is committed. Rows and their sequence commit together and a rejected
      mutation has been rolled back, so only a domain install can be left behind. */
  ghost function Interrupted(s: Replica, epoch: nat, entry: Entry): Replica {
    if entry.Envelope? && entry.body.Dom? then After(s, epoch, entry) else s
  }

  ghost function InterruptedTimes(s: Replica, epoch: nat, entry: Entry, times: nat): Replica {
    if times == 0 then s else Interrupted(InterruptedTimes(s, epoch, entry, times - 1), epoch, entry)
  }

  /** Replay in which entry i is first interrupted `deaths[i]` times and then completed. */
  ghost function FoldWithDeaths(seed: Replica, epoch: nat, log: seq<Entry>, deaths: seq<nat>): Replica
    requires |deaths| == |log|
    decreases |log|
  {
    if log == [] then seed
    else
      var n := |log| - 1;
      After(InterruptedTimes(FoldWithDeaths(seed, epoch, log[..n], deaths[..n]), epoch, log[n], deaths[n]), epoch, log[n])
  }

  /** An interrupted entry replays to the same replica and the same verdict. */
  lemma InterruptedReplays(s: Replica, epoch: nat, entry: Entry)
    ensures Consume(Interrupted(s, epoch, entry), epoch, entry) == Consume(s, epoch, entry)
  {
    if entry.Envelope? && entry.body.Dom? && Registered(entry.body.d) && entry.body.payload.State? {
      var d, text := entry.body.d, entry.body.payload.text;
      assert SetDomain(SetDomain(s.domains, d, text), d, text) == SetDomain(s.domains, d, text);
    }
  }

  lemma {:induction false} InterruptedTimesReplays(s: Replica, epoch: nat, entry: Entry, times: nat)
    ensures Consume(InterruptedTimes(s, epoch, entry, times), epoch, entry) == Consume(s, epoch, entry)
  {
    if times > 0 {
      InterruptedTimesReplays(s, epoch, entry, times - 1);
      InterruptedReplays(InterruptedTimes(s, epoch, entry, times - 1), epoch, entry);
    }
  }

  /** An entry that halts the loop leaves nothing behind however often the process dies over it. */
  lemma {:induction false} HaltingLeavesNothing(s: Replica, epoch: nat, entry: Entry, times: nat)
    requires Consume(s, epoch, entry).Halts?
    ensures InterruptedTimes(s, epoch, entry, times) == s
  {
    if times > 0 {
      HaltingLeavesNothing(s, epoch, entry, times - 1);
    }
  }

  /** Wherever and however often the process dies, replaying reaches the replica of the run that
      never died. */
  lemma {:induction false} DeathsDoNotShow(seed: Replica, epoch: nat, log: seq<Entry>, deaths: seq<nat>)
    requires |deaths| == |log|
    ensures FoldWithDeaths(seed, epoch, log, deaths) == Fold(seed, epoch, log)
    decreases |log|
  {
    if log != [] {
      var n := |log| - 1;
      DeathsDoNotShow(seed, epoch, log[..n], deaths[..n]);
      OneMoreWithDeaths(Fold(seed, epoch, log[..n]), epoch, log[n], deaths[n]);
    }
  }

  lemma OneMoreWithDeaths(s: Replica, epoch: nat, entry: Entry, times: nat)
    ensures After(InterruptedTimes(s, epoch, entry, times), epoch, entry) == After(s, epoch, entry)
  {
    InterruptedTimesReplays(s, epoch, entry, times);
    if Consume(s, epoch, entry).Halts? {
      HaltingLeavesNothing(s, epoch, entry, times);
    }
  }

  // ----- domain values that run ahead of the rows

  /** Entry `e` gives domain `d` a new value on a replica at `epoch`. */
  predicate Writes(e: Entry, epoch: nat, d: Domain) {
    && e.Envelope? && e.epoch == epoch && e.version == ENV_VERSION
    && e.body.Dom? && e.body.d == d && e.body.payload.State? && Effective(d, e.body.payload.text)
  }

  ghost predicate WritesBetween(log: seq<Entry>, epoch: nat, d: Domain, from: nat, until: nat) {
    exists k :: from <= k < until && k < |log| && Writes(log[k], epoch, d)
  }

  /** The domains of a replica that stands at `seq` in `log` but whose domain values may stem from
      as far as `ahead`: each one is the value the log gives at `seq`, or the log still rewrites it
      up to `ahead`. A file the cluster has never held says nothing about a local copy. */
  ghost predicate DomainsAhead(m: Domains, seed: Replica, epoch: nat, log: seq<Entry>, at: nat, ahead: nat)
    requires at <= |log|
  {
    forall d | Registered(d) ::
      var canon := ValueOf(Fold(seed, epoch, log[..at]).domains, d);
      || ValueOf(m, d) == canon
      || (IsFile(d) && canon == "")
      || WritesBetween(log, epoch, d, at, ahead)
  }

  /** Exact agreement on every domain the cluster holds. */
  ghost predicate DomainsAgree(m: Domains, canon: Domains) {
    forall d | Registered(d) ::
      ValueOf(m, d) == ValueOf(canon, d) || (IsFile(d) && ValueOf(canon, d) == "")
  }

  /** Once the loop has passed the position the domains were captured at, they agree exactly. */
  lemma PassedMeansAgree(m: Domains, seed: Replica, epoch: nat, log: seq<Entry>, at: nat, ahead: nat)
    requires at <= |log| && ahead <= at
    requires DomainsAhead(m, seed, epoch, log, at, ahead)
    ensures DomainsAgree(m, Fold(seed, epoch, log[..at]).domains)
  {
  }

  lemma AfterDomains(s: Replica, epoch: nat, e: Entry, d: Domain)
    requires Registered(d)
    ensures Writes(e, epoch, d) ==> ValueOf(After(s, epoch, e).domains, d) == e.body.payload.text
    ensures !Writes(e, epoch, d) ==> ValueOf(After(s, epoch, e).domains, d) == ValueOf(s.domains, d)
  {
  }

  /** The rows never influence what an entry does to the domains. */
  lemma DomainsApart(s: Replica, s': Replica, epoch: nat, e: Entry, d: Domain)
    requires Registered(d)
    requires ValueOf(s.domains, d) == ValueOf(s'.domains, d)
    ensures ValueOf(After(s, epoch, e).domains, d) == ValueOf(After(s', epoch, e).domains, d)
  {
    AfterDomains(s, epoch, e, d);
    AfterDomains(s', epoch, e, d);
  }

  /** Applying the next entry moves the loop one position on and keeps the domains in step. */
  lemma StepKeepsAhead(s: Replica, seed: Replica, epoch: nat, log: seq<Entry>, at: nat, ahead: nat)
    requires at < |log|
    requires DomainsAhead(s.domains, seed, epoch, log, at, ahead)
    ensures DomainsAhead(After(s, epoch, log[at]).domains, seed, epoch, log, at + 1, ahead)
  {
    FoldNext(seed, epoch, log, at);
    var canon := Fold(seed, epoch, log[..at]);
    forall d | Registered(d)
      ensures var c := ValueOf(Fold(seed, epoch, log[..at + 1]).domains, d);
              || ValueOf(After(s, epoch, log[at]).domains, d) == c
              || (IsFile(d) && c == "")
              || WritesBetween(log, epoch, d, at + 1, ahead)
    {
      AfterDomains(s, epoch, log[at], d);
      AfterDomains(canon, epoch, log[at], d);
      if !Writes(log[at], epoch, d) && WritesBetween(log, epoch, d, at, ahead) {
        var k :| at <= k < ahead && k < |log| && Writes(log[k], epoch, d);
        assert k != at;
      }
    }
  }

  /** Dying after a domain install leaves values at most one position ahead. */
  lemma InterruptKeepsAhead(s: Replica, seed: Replica, epoch: nat, log: seq<Entry>, at: nat, ahead: nat)
    requires at < |log| && at <= ahead
    requires DomainsAhead(s.domains, seed, epoch, log, at, ahead)
    ensures DomainsAhead(Interrupted(s, epoch, log[at]).domains, seed, epoch, log, at,
                         if ahead > at then ahead else at + 1)
  {
    var further := if ahead > at then ahead else at + 1;
    forall d | Registered(d)
      ensures var c := ValueOf(Fold(seed, epoch, log[..at]).domains, d);
              || ValueOf(Interrupted(s, epoch, log[at]).domains, d) == c
              || (IsFile(d) && c == "")
              || WritesBetween(log, epoch, d, at, further)
    {
      AfterDomains(s, epoch, log[at], d);
      if WritesBetween(log, epoch, d, at, ahead) {
        var k :| at <= k < ahead && k < |log| && Writes(log[k], epoch, d);
        assert at <= k < further;
      }
      if Writes(log[at], epoch, d) {
        assert at <= at < further;
      }
    }
  }

  /** A domain either keeps its value over a stretch of the log or is rewritten in it. */
  lemma {:induction false} StretchWrites(seed: Replica, epoch: nat, log: seq<Entry>, d: Domain, from: nat, until: nat)
    requires Registered(d) && from <= until <= |log|
    ensures || WritesBetween(log, epoch, d, from, until)
            || ValueOf(Fold(seed, epoch, log[..from]).domains, d) == ValueOf(Fold(seed, epoch, log[..until]).domains, d)
    decreases until
  {
    if from < until {
      StretchWrites(seed, epoch, log, d, from, until - 1);
      FoldNext(seed, epoch, log, until - 1);
      AfterDomains(Fold(seed, epoch, log[..until - 1]), epoch, log[until - 1], d);
      if WritesBetween(log, epoch, d, from, until - 1) {
        var k :| from <= k < until - 1 && k < |log| && Writes(log[k], epoch, d);
        assert from <= k < until;
      } else if Writes(log[until - 1], epoch, d) {
        assert from <= until - 1 < until;
      }
    }
  }

  /** A file the cluster holds is never lost again. */
  lemma {:induction false} FilesStay(seed: Replica, epoch: nat, log: seq<Entry>, d: Domain, from: nat, until: nat)
    requires IsFile(d) && from <= until <= |log|
    requires ValueOf(Fold(seed, epoch, log[..until]).domains, d) == ""
    ensures ValueOf(Fold(seed, epoch, log[..from]).domains, d) == ""
    decreases until
  {
    if from < until {
      FoldNext(seed, epoch, log, until - 1);
      AfterDomains(Fold(seed, epoch, log[..until - 1]), epoch, log[until - 1], d);
      FilesStay(seed, epoch, log, d, from, until - 1);
    }
  }

  /** Domains captured while the server stood at `later` belong to a snapshot whose rows are from
      `at`: they run ahead of it, by no more than the server's own did. */
  lemma CaptureLater(m: Domains, seed: Replica, epoch: nat, log: seq<Entry>, at: nat, later: nat, ahead: nat)
    requires at <= later <= |log| && later <= ahead
    requires DomainsAhead(m, seed, epoch, log, later, ahead)
    ensures DomainsAhead(m, seed, epoch, log, at, ahead)
  {
    forall d | Registered(d)
      ensures var c := ValueOf(Fold(seed, epoch, log[..at]).domains, d);
              || ValueOf(m, d) == c
              || (IsFile(d) && c == "")
              || WritesBetween(log, epoch, d, at, ahead)
    {
      var c2 := ValueOf(Fold(seed, epoch, log[..later]).domains, d);
      if WritesBetween(log, epoch, d, later, ahead) {
        var k :| later <= k < ahead && k < |log| && Writes(log[k], epoch, d);
        assert at <= k < ahead;
      } else if IsFile(d) && c2 == "" {
        FilesStay(seed, epoch, log, d, at, later);
      } else {
        StretchWrites(seed, epoch, log, d, at, later);
        if WritesBetween(log, epoch, d, at, later) {
          var k :| at <= k < later && k < |log| && Writes(log[k], epoch, d);
          assert at <= k < ahead;
        }
      }
    }
  }

  /** A longer log says the same about every position the shorter one had. */
  lemma AheadStable(m: Domains, seed: Replica, epoch: nat, log: seq<Entry>, log': seq<Entry>, at: nat, ahead: nat)
    requires at <= |log| && log <= log'
    requires DomainsAhead(m, seed, epoch, log, at, ahead)
    ensures DomainsAhead(m, seed, epoch, log', at, ahead)
  {
    assert log'[..at] == log[..at];
    forall d | Registered(d) && WritesBetween(log, epoch, d, at, ahead)
      ensures WritesBetween(log', epoch, d, at, ahead)
    {
      var k :| at <= k < ahead && k < |log| && Writes(log[k], epoch, d);
      assert log'[k] == log[k];
    }
  }

  /** Installing a snapshot's domains over any local ones, skipping empty files. */
  function InstallDomains(local: Domains, snap: Domains): Domains {
    local + (snap - (set d | d in snap && !Effective(d, snap[d])))
  }

  lemma InstallKeepsAhead(local: Domains, snap: Domains, seed: Replica, epoch: nat, log: seq<Entry>, at: nat, ahead: nat)
    requires at <= |log|
    requires forall d | Registered(d) && !IsFile(d) :: d in snap
    requires DomainsAhead(snap, seed, epoch, log, at, ahead)
    ensures DomainsAhead(InstallDomains(local, snap), seed, epoch, log, at, ahead)
  {
    forall d | Registered(d)
      ensures var c := ValueOf(Fold(seed, epoch, log[..at]).domains, d);
              || ValueOf(InstallDomains(local, snap), d) == c
              || (IsFile(d) && c == "")
              || WritesBetween(log, epoch, d, at, ahead)
    {
      var c := ValueOf(Fold(seed, epoch, log[..at]).domains, d);
      if d in snap && Effective(d, snap[d]) {
        assert ValueOf(InstallDomains(local, snap), d) == ValueOf(snap, d);
      } else {
        assert IsFile(d) && ValueOf(snap, d) == "";
      }
    }
  }
}
