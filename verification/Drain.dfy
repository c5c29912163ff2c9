/**
 What is left when the runtime has stopped. With the first-in-first-out scheduler nothing is:
 every request it ever accepted has ended. The workload-aware scheduler may end the routing thread
 while it is still open; then it goes on accepting requests that no thread will ever take.
 */
module Drain {
  import opened Types
  import opened RequestLifecycle
  import opened Protocol
  import opened Ownership
  import opened Places
  import opened Delivery
  import opened BoundedWork

  /** `stop` has returned: the scheduler is closed, the routing thread and all workers joined. */
  predicate Stopped(s: State) {
    s.closed && s.routingEnded && forall w | 0 <= w < |s.workers| :: s.workers[w].phase.Ended?
  }

  ghost predicate Drained(s: State) {
    forall r | r in s.accepted :: Dead(s, r)
  }

  // ----- accepted requests -----

  predicate AcceptedOk(s: State, r: Id) {
    && (r in s.accepted ==> s.admitting[r] == 0 && s.refusing[r] == 0 && StateOf(s, r) != Received)
    && (r in s.scheduled ==> r in s.accepted)
  }

  lemma SubmitAccepted(c: Config, s: State, t: Step, r: Id)
    requires Enabled(c, s, t) && Submits(t) && OwnedOk(s, r) && AcceptedOk(s, r)
    ensures AcceptedOk(After(c, s, t), r)
  {
    if StateOf(s, r) != Received {
      StillNotReceived(c, s, t, r);
    }
  }

  lemma SchedulerUntouched(c: Config, s: State, t: Step, r: Id)
    requires Enabled(c, s, t) && !Submits(t)
    ensures var s' := After(c, s, t);
            && s'.admitting == s.admitting && s'.refusing == s.refusing && s'.accepted == s.accepted
            && (r in s'.scheduled ==> r in s.scheduled)
  {
    if t.Work? {
      LivesKeepDead(c, s, t.act, s.workers[t.w], r);
    }
  }

  lemma RouteAccepted(c: Config, s: State, t: Step, r: Id)
    requires Enabled(c, s, t) && !Submits(t) && AcceptedOk(s, r)
    ensures AcceptedOk(After(c, s, t), r)
  {
    SchedulerUntouched(c, s, t, r);
    if StateOf(s, r) != Received {
      StillNotReceived(c, s, t, r);
    }
  }

  lemma {:induction false} AcceptedInRun(c: Config, run: seq<State>, steps: seq<Step>, i: nat, r: Id)
    requires Protocol.Run(c, run, steps) && i < |run|
    ensures AcceptedOk(run[i], r)
  {
    if i > 0 {
      assert StepAt(c, run, steps, i - 1);
      AcceptedInRun(c, run, steps, i - 1, r);
      SingleOwnership(c, run, steps, i - 1);
      assert OwnedOk(run[i - 1], r);
      if Submits(steps[i - 1]) {
        SubmitAccepted(c, run[i - 1], steps[i - 1], r);
      } else {
        RouteAccepted(c, run[i - 1], steps[i - 1], r);
      }
    }
  }

  // ----- the routing thread -----

  /** A routing thread that has ended holds nothing; if it ended on a closed scheduler, nothing is scheduled. */
  predicate RoutingOk(c: Config, s: State) {
    s.routingEnded ==> s.hand.None? && (c.fifo ==> s.closed && s.scheduled == [])
  }

  lemma RoutingKept(c: Config, s: State, t: Step)
    requires Enabled(c, s, t) && RoutingOk(c, s)
    ensures RoutingOk(c, After(c, s, t))
  {
    if t.Work? {
      LivesKeepDead(c, s, t.act, s.workers[t.w], 0);
    }
  }

  lemma {:induction false} RoutingInRun(c: Config, run: seq<State>, steps: seq<Step>, i: nat)
    requires Protocol.Run(c, run, steps) && i < |run|
    ensures RoutingOk(c, run[i])
  {
    if i > 0 {
      assert StepAt(c, run, steps, i - 1);
      RoutingInRun(c, run, steps, i - 1);
      RoutingKept(c, run[i - 1], steps[i - 1]);
    }
  }

  // ----- drained, and when -----

  lemma {:induction false} EndedHoldNothing(c: Config, ws: seq<Worker>, r: Id)
    requires forall w | 0 <= w < |ws| :: ws[w].phase.Ended? && WorkerFits(c, ws[w])
    ensures HeldByAll(ws, r) == 0
  {
    if ws != [] {
      EndedHoldNothing(c, ws[..|ws| - 1], r);
    }
  }

  /** After a stop, whoever was accepted and has not ended is still in the scheduler. */
  lemma LeftIsScheduled(c: Config, run: seq<State>, steps: seq<Step>, i: nat, r: Id)
    requires WellConfigured(c) && Protocol.Run(c, run, steps) && i < |run| && Stopped(run[i])
    requires r in run[i].accepted && !Dead(run[i], r)
    ensures r in run[i].scheduled
  {
    var s := run[i];
    SingleOwnership(c, run, steps, i);
    FitsInRun(c, run, steps, i);
    AcceptedInRun(c, run, steps, i, r);
    RoutingInRun(c, run, steps, i);
    EndedHoldNothing(c, s.workers, r);
    assert OwnedOk(s, r);
    CountFound(s.scheduled, r);
  }

  lemma FifoDrains(c: Config, run: seq<State>, steps: seq<Step>, i: nat)
    requires c.fifo && WellConfigured(c) && Protocol.Run(c, run, steps) && i < |run| && Stopped(run[i])
    ensures Drained(run[i])
  {
    RoutingInRun(c, run, steps, i);
    forall r | r in run[i].accepted ensures Dead(run[i], r) {
      if !Dead(run[i], r) {
        LeftIsScheduled(c, run, steps, i, r);
      }
    }
  }

  // ----- ending on an open scheduler -----

  predicate EndsRouting(t: Step) {
    t.EndRouting? || t.GiveUp?
  }

  /** In the scheduler, alive, and with no thread left to take it. */
  predicate Stranded(s: State, r: Id) {
    s.routingEnded && r in s.scheduled && r in s.accepted && StateOf(s, r) == Queued
  }

  predicate Shut(s: State) {
    s.closed && s.routingEnded && s.scheduled == []
  }

  lemma ShutKept(c: Config, s: State, t: Step)
    requires Enabled(c, s, t) && Shut(s)
    ensures Shut(After(c, s, t))
  {
    if t.Work? {
      LivesKeepDead(c, s, t.act, s.workers[t.w], 0);
    }
  }

  lemma {:induction false} StaysShut(c: Config, run: seq<State>, steps: seq<Step>, e: nat, i: nat)
    requires Protocol.Run(c, run, steps) && e < i < |run| && EndsRouting(steps[e]) && run[e].closed
    ensures Shut(run[i])
  {
    assert StepAt(c, run, steps, i - 1);
    if i > e + 1 {
      StaysShut(c, run, steps, e, i - 1);
      ShutKept(c, run[i - 1], steps[i - 1]);
    }
  }

  /** With either scheduler, a routing thread that ended on a closed one leaves nothing behind. */
  lemma ClosedEndDrains(c: Config, run: seq<State>, steps: seq<Step>, e: nat, i: nat)
    requires WellConfigured(c) && Protocol.Run(c, run, steps) && e < i < |run| && EndsRouting(steps[e]) && run[e].closed
    requires Stopped(run[i])
    ensures Drained(run[i])
  {
    StaysShut(c, run, steps, e, i);
    forall r | r in run[i].accepted ensures Dead(run[i], r) {
      if !Dead(run[i], r) {
        LeftIsScheduled(c, run, steps, i, r);
      }
    }
  }

  lemma QueuedByWork(c: Config, s: State, w: nat, a: Act, r: Id)
    requires Enabled(c, s, Work(w, a)) && SystemInv(s) && StateOf(s, r) == Queued && r in s.scheduled
    ensures StateOf(After(c, s, Work(w, a)), r) == Queued
  {
    var k := s.workers[w];
    var i :| 0 <= i < |s.scheduled| && s.scheduled[i] == r;
    CountAt(s.scheduled, i);
    assert OwnedOk(s, r);
    HeldByOne(s.workers, w, r);
    HoldsAll(k);
    NotItsOwn(c, s, a, k, r);
  }

  lemma StrandedKept(c: Config, s: State, t: Step, r: Id)
    requires Enabled(c, s, t) && SystemInv(s) && RoutingOk(c, s) && Stranded(s, r) && !(t.Die? && t.r == r)
    ensures Stranded(After(c, s, t), r)
  {
    if t.Work? {
      QueuedByWork(c, s, t.w, t.act, r);
      LivesKeepDead(c, s, t.act, s.workers[t.w], r);
    } else {
      StrandedInFront(c, s, t, r);
    }
  }

  lemma StrandedInFront(c: Config, s: State, t: Step, r: Id)
    requires Enabled(c, s, t) && !t.Work? && SystemInv(s) && RoutingOk(c, s) && Stranded(s, r) && !(t.Die? && t.r == r)
    ensures Stranded(After(c, s, t), r)
  {
    var i :| 0 <= i < |s.scheduled| && s.scheduled[i] == r;
    CountAt(s.scheduled, i);
    assert OwnedOk(s, r);
  }

  /** Short of its client ending it, a stranded request is never run and never ends. */
  lemma {:induction false} StrandedStays(c: Config, run: seq<State>, steps: seq<Step>, i: nat, j: nat, r: Id)
    requires Protocol.Run(c, run, steps) && i <= j < |run| && Stranded(run[i], r)
    requires forall n | i <= n < j :: !(steps[n].Die? && steps[n].r == r)
    ensures Stranded(run[j], r) && !Drained(run[j])
  {
    if i < j {
      assert StepAt(c, run, steps, j - 1);
      StrandedStays(c, run, steps, i, j - 1, r);
      SingleOwnership(c, run, steps, j - 1);
      RoutingInRun(c, run, steps, j - 1);
      StrandedKept(c, run[j - 1], steps[j - 1], r);
    }
  }

  /** Some run that starts with this one ends with a stranded request. */
  ghost predicate MayStrand(c: Config, run: seq<State>, steps: seq<Step>) {
    exists run', steps', r :: StrandsBy(c, run, steps, run', steps', r)
  }

  ghost predicate StrandsBy(c: Config, run: seq<State>, steps: seq<Step>, run': seq<State>, steps': seq<Step>, r: Id) {
    Protocol.Run(c, run', steps') && run <= run' && steps <= steps' && Stranded(run'[|run'| - 1], r)
  }

  lemma OpenEndStrands(c: Config, run: seq<State>, steps: seq<Step>, r: Id)
    requires Protocol.Run(c, run, steps) && steps != [] && EndsRouting(steps[|steps| - 1]) && c.capacity >= 1
    requires !run[|run| - 1].closed && StateOf(run[|run| - 1], r) == Received
    ensures MayStrand(c, run, steps)
  {
    assert StepAt(c, run, steps, |steps| - 1);
    var s0 := run[|run| - 1];
    var s1 := After(c, s0, Claim(r));
    var s2 := After(c, s1, Accept(r));
    Extended(c, run, steps, Claim(r));
    Extended(c, run + [s1], steps + [Claim(r)], Accept(r));
    assert Stranded(s2, r);
    assert StrandsBy(c, run, steps, run + [s1] + [s2], steps + [Claim(r)] + [Accept(r)], r);
  }

  /** A request can be stranded after the routing thread has ended if and only if it ended on an open scheduler. */
  lemma StrandsIffEndedOpen(c: Config, run: seq<State>, steps: seq<Step>, r: Id)
    requires Protocol.Run(c, run, steps) && steps != [] && EndsRouting(steps[|steps| - 1]) && c.capacity >= 1
    requires StateOf(run[|run| - 1], r) == Received
    ensures MayStrand(c, run, steps) <==> !run[|run| - 2].closed
  {
    var e := |steps| - 1;
    assert StepAt(c, run, steps, e);
    if !run[e].closed {
      OpenEndStrands(c, run, steps, r);
    } else if MayStrand(c, run, steps) {
      var run', steps', x :| StrandsBy(c, run, steps, run', steps', x);
      assert run'[e] == run[e] && steps'[e] == steps[e];
      StaysShut(c, run', steps', e, |run'| - 1);
    }
  }

  /** The first-in-first-out scheduler never strands anything. */
  lemma FifoNeverStrands(c: Config, run: seq<State>, steps: seq<Step>, i: nat, r: Id)
    requires c.fifo && Protocol.Run(c, run, steps) && i < |run|
    ensures !Stranded(run[i], r)
  {
    RoutingInRun(c, run, steps, i);
  }

  /** One request accepted and cancelled before the routing thread wakes up. */
  lemma DiedInQueue(c: Config) returns (run: seq<State>, steps: seq<Step>)
    requires c.capacity >= 1
    ensures Protocol.Run(c, run, steps)
    ensures run[|run| - 1] == Initial(c).(scheduled := [0], accepted := {0}, lives := run[|run| - 1].lives)
    ensures Dead(run[|run| - 1], 0) && StateOf(run[|run| - 1], 1) == Received
  {
    run, steps := [Initial(c)], [];
    run, steps := ExtendedBy(c, run, steps, Claim(0));
    run, steps := ExtendedBy(c, run, steps, Accept(0));
    run, steps := ExtendedBy(c, run, steps, Die(0, RequestState.Cancelled, ErrorCode.Cancelled));
  }

  /** The routing thread gives up on it and ends; the scheduler, still open, takes another. */
  lemma AcceptedTooLate(c: Config) returns (run: seq<State>, steps: seq<Step>)
    requires c.capacity >= 1 && !c.fifo
    ensures Protocol.Run(c, run, steps) && Stranded(run[|run| - 1], 1)
    ensures run[|run| - 1].workers == Initial(c).workers && !run[|run| - 1].closed
  {
    run, steps := DiedInQueue(c);
    run, steps := ExtendedBy(c, run, steps, GiveUp);
    run, steps := ExtendedBy(c, run, steps, Claim(1));
    run, steps := ExtendedBy(c, run, steps, Accept(1));
  }

  const OPEN_END: Config := Config(false, 2, [Limits(1, 1)], r => "m")

  /** A whole run of the workload-aware scheduler, to the end of `stop`, that leaves an accepted request queued. */
  lemma WorkloadAwareMayNotDrain()
    ensures exists run, steps ::
        Protocol.Run(OPEN_END, run, steps) && Stopped(run[|run| - 1]) && !Drained(run[|run| - 1])
  {
    var run, steps := AcceptedTooLate(OPEN_END);
    run, steps := ExtendedBy(OPEN_END, run, steps, CloseScheduler);
    run, steps := ExtendedBy(OPEN_END, run, steps, Work(0, CloseLane));
    run, steps := ExtendedBy(OPEN_END, run, steps, Work(0, EndWorker));
    assert !Dead(run[|run| - 1], 1);
  }
}
