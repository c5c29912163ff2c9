/**
 How the members of a batch end, in every run. A batch fails at its start exactly when a member
 has ended since it was probed; and whoever its client leaves alone ends as the batch does: with
 the result of its own place, or with the error that failed the whole batch.
 */
module Endings {
  import opened Types
  import opened RequestLifecycle
  import opened Protocol
  import opened Ownership
  import opened Places
  import opened Delivery

  // ----- starting -----

  /** Starting the next request fails the whole batch if and only if that request has ended. */
  lemma StartFailsIffDead(c: Config, s: State, w: nat)
    requires SystemInv(s) && Enabled(c, s, Work(w, StartOne))
    ensures var p, p' := s.workers[w].phase, After(c, s, Work(w, StartOne)).workers[w].phase;
            p' == if Dead(s, p.batch[p.i]) then FailingAll(p.batch, 0, InvalidStateTransition)
                else Starting(p.batch, p.i + 1)
  {
    var k := s.workers[w];
    assert WorkerOk(s, k);
    HoldsAll(k);
    HeldIsClaimed(s, w, InHand(k.phase)[k.phase.i]);
    assert NotRunning(s, k.phase.batch[k.phase.i]);
  }

  /** Step `n` of a run starts a request of worker `w` that has ended since it was probed. */
  ghost predicate MetDead(run: seq<State>, steps: seq<Step>, w: nat, n: nat) {
    && n < |steps| && n < |run| && steps[n] == Work(w, StartOne) && w < |run[n].workers|
    && var p := run[n].workers[w].phase; p.Starting? && p.i < |p.batch| && Dead(run[n], p.batch[p.i])
  }

  lemma StartFailsIffMetDead(c: Config, run: seq<State>, steps: seq<Step>, w: nat, n: nat)
    requires Protocol.Run(c, run, steps) && n < |steps| && steps[n] == Work(w, StartOne)
    ensures w < |run[n + 1].workers| && (run[n + 1].workers[w].phase.FailingAll? <==> MetDead(run, steps, w, n))
  {
    assert StepAt(c, run, steps, n);
    SingleOwnership(c, run, steps, n);
    StartFailsIffDead(c, run[n], w);
  }

  ghost predicate MetDeadIn(run: seq<State>, steps: seq<Step>, w: nat, from: nat) {
    exists n: nat :: from <= n && MetDead(run, steps, w, n)
  }

  /** What a longer run adds is what its new steps add. */
  lemma MetDeadLater(run: seq<State>, steps: seq<Step>, run': seq<State>, steps': seq<Step>, w: nat, from: nat)
    requires run <= run' && steps <= steps' && |run| == |steps| + 1 && from <= |steps|
    ensures MetDeadIn(run', steps', w, from) <==> MetDeadIn(run, steps, w, from) || MetDeadIn(run', steps', w, |steps|)
  {
    forall n: nat | n < |steps| ensures MetDead(run, steps, w, n) <==> MetDead(run', steps', w, n) {
    }
  }

  // ----- ending -----

  /** The request has failed with this error. */
  predicate FailedBy(s: State, r: Id, error: ErrorCode) {
    StateOf(s, r) == Failed && LifeOf(s, r).result == Some(InferenceResult(error, None))
  }

  /** The request has ended with the result that was for it: completed with it when it is ok, and otherwise failed
      with its status. */
  predicate EndedWith(s: State, r: Id, result: InferenceResult) {
    && (result.Ok() ==> StateOf(s, r) == Completed && LifeOf(s, r).result == Some(result))
    && (!result.Ok() ==> FailedBy(s, r, result.status))
  }

  /** The batch is being settled or failed. */
  predicate Settles(p: Phase) {
    (p.Settling? && |p.results| == |p.batch|) || p.FailingAll?
  }

  /** What the batch has in store for its member `m`. */
  function Owed(p: Phase, m: nat): Life
    requires Settles(p) && m < |p.batch|
  {
    if p.FailingAll? then Life(Failed, Some(Failure(p.error)))
    else if p.results[m].Ok() then Life(Completed, Some(p.results[m]))
    else Life(Failed, Some(Failure(p.results[m].status)))
  }

  /** The same batch, at another place. */
  function At(p: Phase, i: nat): Phase
    requires Settles(p)
  {
    if p.Settling? then Settling(p.batch, p.results, i) else FailingAll(p.batch, i, p.error)
  }

  /** Its client, or its deadline, ends a request. */
  predicate Ends(t: Step, r: Id) {
    t.Die? && t.r == r
  }

  ghost predicate Spared(steps: seq<Step>, from: nat, to: nat, r: Id) {
    forall n | from <= n < to && n < |steps| :: !Ends(steps[n], r)
  }

  /** Member `m` of the batch in phase `p` has ended as it should, or its turn is still to come. */
  ghost predicate OnCourse(s: State, w: nat, p: Phase, m: nat)
    requires Settles(p) && m < |p.batch|
  {
    || LifeOf(s, p.batch[m]) == Owed(p, m)
    || (w < |s.workers| && !Dead(s, p.batch[m]) && ToCome(p, s.workers[w].phase, m))
  }

  predicate ToCome(p: Phase, p': Phase, m: nat)
    requires Settles(p)
  {
    Settles(p') && p' == At(p, p'.i) && p'.i <= m
  }

  lemma OtherWorker(c: Config, s: State, v: nat, a: Act, w: nat, r: Id)
    requires Enabled(c, s, Work(v, a)) && SystemInv(s) && w < |s.workers| && v != w && HeldBy(s.workers[w], r) >= 1
    ensures LifeOf(After(c, s, Work(v, a)), r) == LifeOf(s, r)
  {
    HeldByNoOther(s, w, v, r);
    HoldsAll(s.workers[v]);
    NotItsOwn(c, s, a, s.workers[v], r);
  }

  lemma FrontUntouched(c: Config, s: State, t: Step, r: Id)
    requires Enabled(c, s, t) && !t.Work? && InFront(s, r) == 0 && StateOf(s, r) != Received && !Ends(t, r)
    ensures LifeOf(After(c, s, t), r) == LifeOf(s, r)
  {
    assert s.refusing[r] == 0 && s.hand != Some(r);
  }

  /** Only its own worker and its client touch a request in a batch. */
  lemma HeldUntouched(c: Config, s: State, t: Step, w: nat, r: Id)
    requires Enabled(c, s, t) && SystemInv(s) && w < |s.workers| && HeldBy(s.workers[w], r) >= 1
    requires !Ends(t, r) && !(t.Work? && t.w == w)
    ensures LifeOf(After(c, s, t), r) == LifeOf(s, r)
  {
    HeldIsClaimed(s, w, r);
    if t.Work? {
      OtherWorker(c, s, t.w, t.act, w, r);
    } else {
      FrontUntouched(c, s, t, r);
    }
  }

  lemma PhaseUntouched(c: Config, s: State, t: Step, w: nat)
    requires Enabled(c, s, t) && w < |s.workers| && !(t.Work? && t.w == w)
    ensures w < |After(c, s, t).workers| && After(c, s, t).workers[w].phase == s.workers[w].phase
  {
  }

  /** What is known of a member whose turn is still to come. */
  predicate Awaits(s: State, p: Phase, m: nat)
    requires Settles(p)
  {
    && p.i <= m < |p.batch| && p.batch[m] !in p.batch[..m]
    && (StateOf(s, p.batch[m]) == Running || (StateOf(s, p.batch[m]) == Queued && p.FailingAll?))
  }

  ghost predicate Proceeds(p: Phase, l: State, p': Phase, m: nat)
    requires Settles(p) && m < |p.batch|
  {
    LifeOf(l, p.batch[m]) == Owed(p, m) || (!Dead(l, p.batch[m]) && ToCome(p, p', m))
  }

  lemma NotItsTurn(s: State, p: Phase, m: nat)
    requires Settles(p) && Awaits(s, p, m) && p.i < m
    ensures p.batch[p.i] != p.batch[m]
  {
    assert p.batch[..m][p.i] == p.batch[p.i];
  }

  lemma SettleAct(c: Config, s: State, k: Worker, m: nat)
    requires EnabledAct(c, s, SettleOne, k) && Settles(k.phase) && Awaits(s, k.phase, m)
    ensures Proceeds(k.phase, LivesAfter(c, s, SettleOne, k), WorkerAfter(c, s, SettleOne, k).phase, m)
  {
    if k.phase.i < m {
      NotItsTurn(s, k.phase, m);
    }
  }

  lemma FailAct(c: Config, s: State, k: Worker, m: nat)
    requires EnabledAct(c, s, FailOne, k) && Awaits(s, k.phase, m)
    ensures Proceeds(k.phase, LivesAfter(c, s, FailOne, k), WorkerAfter(c, s, FailOne, k).phase, m)
  {
    if k.phase.i < m {
      NotItsTurn(s, k.phase, m);
    }
  }

  lemma FailStartAct(c: Config, s: State, k: Worker, m: nat)
    requires EnabledAct(c, s, FailStart, k) && Awaits(s, k.phase, m)
    ensures Proceeds(k.phase, LivesAfter(c, s, FailStart, k), WorkerAfter(c, s, FailStart, k).phase, m)
  {
    if k.phase.i < m {
      NotItsTurn(s, k.phase, m);
    }
  }

  /** The member whose turn it is ends as owed, another is not touched. */
  lemma OwnAct(c: Config, s: State, a: Act, k: Worker, m: nat)
    requires EnabledAct(c, s, a, k) && Settles(k.phase) && Awaits(s, k.phase, m)
    ensures Proceeds(k.phase, LivesAfter(c, s, a, k), WorkerAfter(c, s, a, k).phase, m)
  {
    if a == SettleOne {
      SettleAct(c, s, k, m);
    } else if a == FailOne {
      FailAct(c, s, k, m);
    } else if a == FailStart {
      FailStartAct(c, s, k, m);
    } else {
      assert a == CloseLane;
    }
  }

  lemma AwaitsTurn(s: State, w: nat, m: nat)
    requires SystemInv(s) && w < |s.workers| && Settles(s.workers[w].phase)
    requires s.workers[w].phase.i <= m < |s.workers[w].phase.batch| && !Dead(s, s.workers[w].phase.batch[m])
    ensures Awaits(s, s.workers[w].phase, m)
  {
    var k := s.workers[w];
    var p := k.phase;
    assert WorkerOk(s, k) && InHand(p) == p.batch;
    HoldsAll(k);
    HeldIsClaimed(s, w, InHand(p)[m]);
    Alone(k, m);
    if p.Settling? {
      assert NotQueued(s, p.batch[m]);
    }
  }

  lemma OwnStep(c: Config, s: State, w: nat, a: Act, p: Phase, m: nat)
    requires Enabled(c, s, Work(w, a)) && SystemInv(s) && Settles(p) && m < |p.batch|
    requires !Dead(s, p.batch[m]) && ToCome(p, s.workers[w].phase, m)
    ensures OnCourse(After(c, s, Work(w, a)), w, p, m)
  {
    var k := s.workers[w];
    AwaitsTurn(s, w, m);
    OwnAct(c, s, a, k, m);
    Stepped(s, LivesAfter(c, s, a, k), w, WorkerAfter(c, s, a, k), After(c, s, Work(w, a)), p, m);
  }

  lemma Stepped(s: State, l: State, w: nat, k': Worker, s': State, p: Phase, m: nat)
    requires w < |s.workers| && s'.lives == l.lives && s'.workers == s.workers[w := k'] && Settles(p) && m < |p.batch|
    requires ToCome(p, s.workers[w].phase, m) && Proceeds(s.workers[w].phase, l, k'.phase, m)
    ensures OnCourse(s', w, p, m)
  {
  }

  lemma OnCourseKept(c: Config, s: State, t: Step, w: nat, p: Phase, m: nat)
    requires Enabled(c, s, t) && SystemInv(s) && Settles(p) && m < |p.batch| && OnCourse(s, w, p, m)
    requires !Ends(t, p.batch[m])
    ensures OnCourse(After(c, s, t), w, p, m)
  {
    var r := p.batch[m];
    if LifeOf(s, r) == Owed(p, m) {
      DeathIsFinal(c, s, t, r);
    } else if t.Work? && t.w == w {
      OwnStep(c, s, w, t.act, p, m);
    } else {
      HoldsAll(s.workers[w]);
      assert InHand(s.workers[w].phase) == p.batch;
      HeldUntouched(c, s, t, w, r);
      PhaseUntouched(c, s, t, w);
    }
  }

  /** In every run: from the moment a batch is settled or failed, a member that is alive and that its
      client leaves alone ends as the batch owes it, or its turn is still to come. */
  lemma {:induction false} EndsAsOwed(c: Config, run: seq<State>, steps: seq<Step>, w: nat, i: nat, j: nat, m: nat)
    requires Protocol.Run(c, run, steps) && i <= j < |run| && w < |run[i].workers|
    requires Settles(run[i].workers[w].phase) && run[i].workers[w].phase.i <= m < |run[i].workers[w].phase.batch|
    requires !Dead(run[i], run[i].workers[w].phase.batch[m]) && Spared(steps, i, j, run[i].workers[w].phase.batch[m])
    ensures OnCourse(run[j], w, run[i].workers[w].phase, m)
  {
    if i < j {
      EndsAsOwed(c, run, steps, w, i, j - 1, m);
      assert StepAt(c, run, steps, j - 1);
      SingleOwnership(c, run, steps, j - 1);
      OnCourseKept(c, run[j - 1], steps[j - 1], w, run[i].workers[w].phase, m);
    }
  }

  /** Hence, once the worker has let go of the batch, it has ended so. */
  lemma EndedAsOwed(c: Config, run: seq<State>, steps: seq<Step>, w: nat, i: nat, j: nat, m: nat)
    requires Protocol.Run(c, run, steps) && i <= j < |run| && w < |run[i].workers|
    requires Settles(run[i].workers[w].phase) && run[i].workers[w].phase.i <= m < |run[i].workers[w].phase.batch|
    requires !Dead(run[i], run[i].workers[w].phase.batch[m]) && Spared(steps, i, j, run[i].workers[w].phase.batch[m])
    requires w < |run[j].workers| && run[j].workers[w].phase == Idle
    ensures LifeOf(run[j], run[i].workers[w].phase.batch[m]) == Owed(run[i].workers[w].phase, m)
  {
    EndsAsOwed(c, run, steps, w, i, j, m);
  }

  /** A batch that fails does so for all: whoever was alive then, and its client leaves alone, has failed with its
      error when the worker lets go of it. */
  lemma BatchFailsTogether(c: Config, run: seq<State>, steps: seq<Step>, w: nat, i: nat, j: nat, m: nat)
    requires Protocol.Run(c, run, steps) && i <= j < |run| && w < |run[i].workers| && w < |run[j].workers|
    requires run[i].workers[w].phase.FailingAll? && m < |run[i].workers[w].phase.batch|
    requires !Dead(run[i], run[i].workers[w].phase.batch[m]) && Spared(steps, i, j, run[i].workers[w].phase.batch[m])
    requires run[j].workers[w].phase == Idle
    ensures var r := run[i].workers[w].phase.batch[m];
            StateOf(run[j], r) == Failed && LifeOf(run[j], r).result == Some(Failure(run[i].workers[w].phase.error))
  {
    SingleOwnership(c, run, steps, i);
    assert WorkerOk(run[i], run[i].workers[w]);
    EndedAsOwed(c, run, steps, w, i, j, m);
  }

  /** Step `n` of the run is a call of the backend that answered with as many results as worker `w` sent requests. */
  ghost predicate AnsweredCall(c: Config, run: seq<State>, steps: seq<Step>, w: nat, n: nat) {
    && Protocol.Run(c, run, steps) && n < |steps| && steps[n].Work? && steps[n].w == w && steps[n].act.Infer?
    && w < |run[n].workers| && run[n].workers[w].phase.Loaded?
    && |steps[n].act.results| == |run[n].workers[w].phase.batch|
  }

  /** In every run: a request that a call answered, and that its client leaves alone, has ended once its worker lets
      go of the batch; Completed with that very result if it is ok, else Failed with its status. */
  lemma AnsweredInRun(c: Config, run: seq<State>, steps: seq<Step>, w: nat, n: nat, j: nat, m: nat)
    requires AnsweredCall(c, run, steps, w, n) && n < j < |run| && m < |run[n].workers[w].phase.batch|
    requires !Dead(run[n], run[n].workers[w].phase.batch[m]) && Spared(steps, n, j, run[n].workers[w].phase.batch[m])
    requires w < |run[j].workers| && run[j].workers[w].phase == Idle
    ensures var r, result := run[n].workers[w].phase.batch[m], steps[n].act.results[m];
            && (result.Ok() ==> StateOf(run[j], r) == Completed && LifeOf(run[j], r).result == Some(result))
            && (!result.Ok() ==>
                  StateOf(run[j], r) == Failed && LifeOf(run[j], r).result == Some(Failure(result.status)))
  {
    assert StepAt(c, run, steps, n);
    EndedAsOwed(c, run, steps, w, n + 1, j, m);
  }

  // ----- before that -----

  /** A step by which worker `w` ends a member of its batch. */
  predicate EndsOne(t: Step, w: nat) {
    t == Work(w, SettleOne) || t == Work(w, FailOne)
  }

  lemma HoldsOn(c: Config, s: State, t: Step, w: nat, r: Id)
    requires Enabled(c, s, t) && SystemInv(s) && w < |s.workers| && HeldBy(s.workers[w], r) >= 1 && !Dead(s, r)
    ensures w < |After(c, s, t).workers| && HeldBy(After(c, s, t).workers[w], r) >= 1
  {
    var k := s.workers[w];
    assert WorkerOk(s, k);
    if t.Work? && t.w == w {
      ActBalanced(c, s, t.act, k, r);
    } else if t.Push? && t.w == w {
      CountSnoc(k.lane, s.hand.value, r);
    }
  }

  lemma OwnActSpares(c: Config, s: State, a: Act, k: Worker, r: Id)
    requires EnabledAct(c, s, a, k) && a != SettleOne && a != FailOne && !Dead(s, r)
    ensures !Dead(LivesAfter(c, s, a, k), r)
  {
  }

  lemma StaysAliveOnce(c: Config, s: State, t: Step, w: nat, r: Id)
    requires Enabled(c, s, t) && SystemInv(s) && w < |s.workers| && HeldBy(s.workers[w], r) >= 1 && !Dead(s, r)
    requires !Ends(t, r) && !EndsOne(t, w)
    ensures !Dead(After(c, s, t), r)
  {
    if t.Work? && t.w == w {
      OwnActSpares(c, s, t.act, s.workers[w], r);
    } else {
      HeldUntouched(c, s, t, w, r);
    }
  }

  /** A request a worker holds stays alive and with it until the worker or its client ends it. */
  lemma {:induction false} StaysAlive(c: Config, run: seq<State>, steps: seq<Step>, w: nat, i: nat, j: nat, r: Id)
    requires Protocol.Run(c, run, steps) && i <= j < |run| && w < |run[i].workers| && HeldBy(run[i].workers[w], r) >= 1
    requires !Dead(run[i], r) && Spared(steps, i, j, r) && forall n | i <= n < j :: !EndsOne(steps[n], w)
    ensures w < |run[j].workers| && HeldBy(run[j].workers[w], r) >= 1 && !Dead(run[j], r)
  {
    if i < j {
      StaysAlive(c, run, steps, w, i, j - 1, r);
      assert StepAt(c, run, steps, j - 1);
      SingleOwnership(c, run, steps, j - 1);
      HoldsOn(c, run[j - 1], steps[j - 1], w, r);
      StaysAliveOnce(c, run[j - 1], steps[j - 1], w, r);
    }
  }
}
