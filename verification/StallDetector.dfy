/**
 The progress probe of an attached node: it concludes that the subscription is dead
 when the log is ahead and the node's own position has not moved across probes.
 */
module StallDetector {

  const STALL_PROBES: nat := 3

  /** The stall counter and the position seen at the last probe. */
  datatype Tracking = Tracking(count: nat, last: nat)

  datatype Event =
    | Probe(applied: nat, streamLast: nat)
    | Arm
    | Reset(applied: nat)

  /** A probe that sees the log ahead and the position where it was. */
  predicate Stuck(t: Tracking, e: Event) {
    e.Probe? && e.streamLast > e.applied && e.applied == t.last
  }

  predicate Fires(t: Tracking, e: Event) {
    Stuck(t, e) && t.count + 1 >= STALL_PROBES
  }

  function After(t: Tracking, e: Event): Tracking {
    match e
    case Probe(applied, _) =>
      if !Stuck(t, e) then Tracking(0, applied)
      else if Fires(t, e) then Tracking(0, t.last)
      else Tracking(t.count + 1, t.last)
    case Arm => if t.count < STALL_PROBES - 1 then Tracking(STALL_PROBES - 1, t.last) else t
    case Reset(applied) => Tracking(0, applied)
  }

  function AfterAll(t: Tracking, events: seq<Event>): Tracking
    decreases |events|
  {
    if events == [] then t else After(AfterAll(t, events[..|events| - 1]), events[|events| - 1])
  }

  /** The counters as the program keeps them. */
  class Detector {
    var count: nat
    var last: nat

    function View(): Tracking
      reads this
    {
      Tracking(count, last)
    }

    method NoteApplyProgress(applied: nat, streamLast: nat) returns (dead: bool)
      modifies this
      ensures View() == After(old(View()), Probe(applied, streamLast))
      ensures dead == Fires(old(View()), Probe(applied, streamLast))
      ensures dead <==> streamLast > applied && applied == old(last) && old(count) >= 2
      ensures count == if streamLast > applied && applied == old(last) && old(count) < 2 then old(count) + 1 else 0
      ensures last == applied
    {
      if streamLast <= applied || applied != last {
        last := applied;
        count := 0;
        return false;
      }
      count := count + 1;
      if count < STALL_PROBES {
        return false;
      }
      count := 0;
      return true;
    }

    method ArmStallDetector()
      modifies this
      ensures View() == After(old(View()), Arm)
      ensures last == old(last) && count == if old(count) < 2 then 2 else old(count)
    {
      if count < STALL_PROBES - 1 {
        count := STALL_PROBES - 1;
      }
    }

    method ResetStallTracking(applied: nat)
      modifies this
      ensures View() == After(old(View()), Reset(applied))
      ensures last == applied && count == 0
    {
      count := 0;
      last := applied;
    }
  }

  // ----- firing needs evidence

  /** The last `n` events are probes that all saw the same position, with the log ahead of it. */
  predicate FrozenTail(events: seq<Event>, n: nat, at: nat) {
    && n <= |events|
    && forall i | |events| - n <= i < |events| :: events[i].Probe? && events[i].applied == at && events[i].streamLast > at
  }

  lemma {:induction false} CountIsEvidence(t: Tracking, events: seq<Event>)
    requires t.count == 0 && forall i | 0 <= i < |events| :: !events[i].Arm?
    ensures var t' := AfterAll(t, events); t'.count < STALL_PROBES && FrozenTail(events, t'.count, t'.last)
    decreases |events|
  {
    if events != [] {
      var n := |events| - 1;
      CountIsEvidence(t, events[..n]);
      var before := AfterAll(t, events[..n]);
      if Stuck(before, events[n]) && !Fires(before, events[n]) {
        forall i | |events| - (before.count + 1) <= i < |events|
          ensures events[i].Probe? && events[i].applied == before.last && events[i].streamLast > before.last
        {
          if i < n {
            assert events[i] == events[..n][i];
          }
        }
      }
    }
  }

  /** A detector that was never armed fires only on its third probe in a row that saw the log ahead of
      one and the same position, which is the one it last recorded. */
  lemma UnarmedNeedsThreeProbes(t: Tracking, events: seq<Event>, e: Event)
    requires t.count == 0 && forall i | 0 <= i < |events| :: !events[i].Arm?
    requires Fires(AfterAll(t, events), e)
    ensures e.Probe? && e.applied == AfterAll(t, events).last && FrozenTail(events + [e], 3, e.applied)
  {
    CountIsEvidence(t, events);
    var before := AfterAll(t, events);
    forall i | |events + [e]| - 3 <= i < |events + [e]|
      ensures (events + [e])[i].Probe? && (events + [e])[i].applied == e.applied && (events + [e])[i].streamLast > e.applied
    {
    }
  }

  /** Once armed, the next probe that sees the log ahead of the recorded position reports it. */
  lemma ArmedNeedsOne(t: Tracking, applied: nat, streamLast: nat)
    ensures Fires(After(t, Arm), Probe(applied, streamLast)) <==> applied == t.last && streamLast > applied
  {
  }

  // ----- a frozen position is always found

  /** Probes that all see position `at` behind the log, with arm hints anywhere between them. */
  predicate Frozen(events: seq<Event>, at: nat) {
    forall i | 0 <= i < |events| :: events[i].Arm? || (events[i].Probe? && events[i].applied == at && events[i].streamLast > at)
  }

  function Probes(events: seq<Event>): nat {
    if events == [] then 0 else (if events[0].Probe? then 1 else 0) + Probes(events[1..])
  }

  ghost predicate SomeFires(t: Tracking, events: seq<Event>)
    decreases |events|
  {
    events != [] && (Fires(t, events[0]) || SomeFires(After(t, events[0]), events[1..]))
  }

  /** How many more probes of a frozen position a tracking state can let pass. */
  function Patience(t: Tracking, at: nat): nat {
    if t.last != at then STALL_PROBES + 1
    else if t.count < STALL_PROBES then STALL_PROBES - t.count
    else 1
  }

  lemma {:induction false} PatienceRunsOut(t: Tracking, events: seq<Event>, at: nat)
    requires Frozen(events, at) && Probes(events) >= Patience(t, at)
    ensures SomeFires(t, events)
    decreases |events|
  {
    var e := events[0];
    if !Fires(t, e) {
      forall i | 0 <= i < |events[1..]|
        ensures events[1..][i].Arm? || (events[1..][i].Probe? && events[1..][i].applied == at && events[1..][i].streamLast > at)
      {
        assert events[1..][i] == events[i + 1];
      }
      PatienceRunsOut(After(t, e), events[1..], at);
    }
  }

  /** From any state whatever, a position frozen below the log is reported within four probes. */
  lemma FrozenIsReported(t: Tracking, events: seq<Event>, at: nat)
    requires Frozen(events, at) && Probes(events) >= 4
    ensures SomeFires(t, events)
  {
    PatienceRunsOut(t, events, at);
  }
}
