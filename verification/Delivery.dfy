/**
 What reaches the backend and what comes back, in every run: no request is in two calls of
 `infer_batch` or twice in one, and a completed request holds the result of its own place in the
 one call that carried it.
 */
module Delivery {
  import opened Types
  import opened RequestLifecycle
  import opened Protocol
  import opened Ownership
  import opened Places

  // ----- at most one call -----

  function Inferred(calls: seq<Call>, r: Id): nat {
    if calls == [] then 0 else Inferred(calls[..|calls| - 1], r) + Count(calls[|calls| - 1].batch, r)
  }

  /** The batch has been to the backend, or never will. */
  predicate Spent(p: Phase) {
    p.Settling? || p.FailingAll?
  }

  /** How often a worker holds a request that may still go to the backend. */
  function Waiting(k: Worker, r: Id): nat {
    (if Spent(k.phase) then 0 else Count(InHand(k.phase), r)) + One(k.deferred, r) + Count(k.lane, r)
  }

  predicate WaitsNowhere(s: State, r: Id) {
    InFront(s, r) == 0 && forall w | 0 <= w < |s.workers| :: Waiting(s.workers[w], r) == 0
  }

  ghost predicate OnceOk(s: State, r: Id) {
    Inferred(s.calls, r) <= 1 && (Inferred(s.calls, r) >= 1 ==> StateOf(s, r) != Received && WaitsNowhere(s, r))
  }

  lemma SpentSame(c: Config, s: State, a: Act, k: Worker, r: Id)
    requires EnabledAct(c, s, a, k) && Spent(k.phase) && DeferredOk(k)
    ensures Waiting(WorkerAfter(c, s, a, k), r) <= Waiting(k, r)
  {
  }

  lemma WaitingFalls(c: Config, s: State, a: Act, k: Worker, r: Id)
    requires EnabledAct(c, s, a, k) && DeferredOk(k) && PhaseOk(s, k.phase)
    ensures Waiting(WorkerAfter(c, s, a, k), r) <= Waiting(k, r)
  {
    if Spent(k.phase) {
      SpentSame(c, s, a, k, r);
    } else {
      ActBalanced(c, s, a, k, r);
    }
  }

  lemma FrontFalls(c: Config, s: State, t: Step, r: Id)
    requires Enabled(c, s, t) && t != Claim(r)
    ensures InFront(After(c, s, t), r) <= InFront(s, r)
  {
    if t.Accept? {
      CountSnoc(s.scheduled, t.r, r);
    } else if t.Take? || t.Prune? {
      CountRemoved(s.scheduled, t.k, r);
    } else if t.Work? {
      LivesKeepDead(c, s, t.act, s.workers[t.w], r);
    }
  }

  lemma WaitsNowhereKept(c: Config, s: State, t: Step, r: Id)
    requires Enabled(c, s, t) && SystemInv(s) && t != Claim(r) && WaitsNowhere(s, r)
    ensures WaitsNowhere(After(c, s, t), r)
  {
    FrontFalls(c, s, t, r);
    if t.Work? {
      assert WorkerOk(s, s.workers[t.w]);
      WaitingFalls(c, s, t.act, s.workers[t.w], r);
    } else if t.Push? {
      CountSnoc(s.workers[t.w].lane, s.hand.value, r);
    }
  }

  lemma InferredSnoc(calls: seq<Call>, call: Call, r: Id)
    ensures Inferred(calls + [call], r) == Inferred(calls, r) + Count(call.batch, r)
  {
    assert (calls + [call])[..|calls|] == calls;
  }

  lemma CallsStep(c: Config, s: State, t: Step)
    requires Enabled(c, s, t)
    ensures var s' := After(c, s, t);
            if t.Work? && t.act.Infer?
            then s'.calls == s.calls + [Call(s.workers[t.w].phase.batch, t.act.results)]
            else s'.calls == s.calls
  {
  }

  lemma HeldByNoOther(s: State, w: nat, v: nat, r: Id)
    requires OwnershipOk(s) && w < |s.workers| && v < |s.workers| && v != w && HeldBy(s.workers[w], r) >= 1
    ensures HeldBy(s.workers[v], r) == 0
  {
    assert OwnedOk(s, r);
    if v < w {
      HeldByTwo(s.workers, v, w, r);
    } else {
      HeldByTwo(s.workers, w, v, r);
    }
  }

  /** Once in the backend's hands, the worker's hands are the only place that holds it. */
  lemma SpentNowhere(c: Config, s: State, w: nat, a: Act, r: Id)
    requires Enabled(c, s, Work(w, a)) && a.Infer? && SystemInv(s) && Count(s.workers[w].phase.batch, r) >= 1
    ensures WaitsNowhere(After(c, s, Work(w, a)), r)
  {
    HeldIsClaimed(s, w, r);
    FrontFalls(c, s, Work(w, a), r);
    forall v | 0 <= v < |s.workers| && v != w ensures Waiting(s.workers[v], r) == 0 {
      HeldByNoOther(s, w, v, r);
    }
  }

  lemma StillNotReceived(c: Config, s: State, t: Step, r: Id)
    requires Enabled(c, s, t) && StateOf(s, r) != Received
    ensures StateOf(After(c, s, t), r) != Received
  {
    StateStep(c, s, t, r);
  }

  lemma InferredNow(c: Config, s: State, w: nat, a: Act, r: Id)
    requires Enabled(c, s, Work(w, a)) && a.Infer? && SystemInv(s) && OnceOk(s, r)
    requires Count(s.workers[w].phase.batch, r) >= 1
    ensures Inferred(After(c, s, Work(w, a)).calls, r) == 1 && StateOf(s, r) != Received
  {
    var k := s.workers[w];
    assert Waiting(k, r) >= 1;
    HeldIsClaimed(s, w, r);
    CallsStep(c, s, Work(w, a));
    InferredSnoc(s.calls, Call(k.phase.batch, a.results), r);
  }

  lemma InferredOnce(c: Config, s: State, w: nat, a: Act, r: Id)
    requires Enabled(c, s, Work(w, a)) && a.Infer? && SystemInv(s) && OnceOk(s, r)
    requires Count(s.workers[w].phase.batch, r) >= 1
    ensures OnceOk(After(c, s, Work(w, a)), r)
  {
    InferredNow(c, s, w, a, r);
    SpentNowhere(c, s, w, a, r);
    StillNotReceived(c, s, Work(w, a), r);
  }

  lemma NotInferredNow(c: Config, s: State, t: Step, r: Id)
    requires Enabled(c, s, t) && SystemInv(s) && OnceOk(s, r)
    requires Inferred(After(c, s, t).calls, r) == Inferred(s.calls, r)
    ensures OnceOk(After(c, s, t), r)
  {
    if Inferred(s.calls, r) >= 1 {
      WaitsNowhereKept(c, s, t, r);
      StillNotReceived(c, s, t, r);
    }
  }

  lemma NotInBatch(c: Config, s: State, w: nat, a: Act, r: Id)
    requires Enabled(c, s, Work(w, a)) && a.Infer? && Count(s.workers[w].phase.batch, r) == 0
    ensures Inferred(After(c, s, Work(w, a)).calls, r) == Inferred(s.calls, r)
  {
    CallsStep(c, s, Work(w, a));
    InferredSnoc(s.calls, Call(s.workers[w].phase.batch, a.results), r);
  }

  lemma OnceByInfer(c: Config, s: State, w: nat, a: Act, r: Id)
    requires Enabled(c, s, Work(w, a)) && a.Infer? && SystemInv(s) && OnceOk(s, r)
    ensures OnceOk(After(c, s, Work(w, a)), r)
  {
    if Count(s.workers[w].phase.batch, r) >= 1 {
      InferredOnce(c, s, w, a, r);
    } else {
      NotInBatch(c, s, w, a, r);
      NotInferredNow(c, s, Work(w, a), r);
    }
  }

  lemma OnceKept(c: Config, s: State, t: Step, r: Id)
    requires Enabled(c, s, t) && SystemInv(s) && OnceOk(s, r)
    ensures OnceOk(After(c, s, t), r)
  {
    if t.Work? && t.act.Infer? {
      OnceByInfer(c, s, t.w, t.act, r);
    } else {
      CallsStep(c, s, t);
      NotInferredNow(c, s, t, r);
    }
  }

  lemma {:induction false} OnceInRun(c: Config, run: seq<State>, steps: seq<Step>, i: nat, r: Id)
    requires Protocol.Run(c, run, steps) && i < |run|
    ensures OnceOk(run[i], r)
  {
    if i > 0 {
      assert StepAt(c, run, steps, i - 1);
      OnceInRun(c, run, steps, i - 1, r);
      SingleOwnership(c, run, steps, i - 1);
      OnceKept(c, run[i - 1], steps[i - 1], r);
    }
  }

  lemma {:induction false} InferredAt(calls: seq<Call>, n: nat, r: Id)
    requires n < |calls|
    ensures Inferred(calls, r) >= Count(calls[n].batch, r)
  {
    if n < |calls| - 1 {
      InferredAt(calls[..|calls| - 1], n, r);
    }
  }

  lemma {:induction false} InferredTwice(calls: seq<Call>, n: nat, m: nat, r: Id)
    requires n < m < |calls|
    ensures Inferred(calls, r) >= Count(calls[n].batch, r) + Count(calls[m].batch, r)
  {
    var rest := calls[..|calls| - 1];
    if m < |calls| - 1 {
      InferredTwice(rest, n, m, r);
    } else {
      InferredAt(rest, n, r);
    }
  }

  /** No request is twice in the calls of `infer_batch` that a run makes. */
  lemma InferredAtMostOnce(c: Config, run: seq<State>, steps: seq<Step>, k: nat, n: nat, i: nat, m: nat, j: nat)
    requires Protocol.Run(c, run, steps) && k < |run|
    requires n < |run[k].calls| && i < |run[k].calls[n].batch| && m < |run[k].calls| && j < |run[k].calls[m].batch|
    requires run[k].calls[n].batch[i] == run[k].calls[m].batch[j]
    ensures n == m && i == j
  {
    var calls := run[k].calls;
    var r := calls[n].batch[i];
    OnceInRun(c, run, steps, k, r);
    CountAt(calls[n].batch, i);
    CountAt(calls[m].batch, j);
    InferredAt(calls, n, r);
    if n < m {
      InferredTwice(calls, n, m, r);
    } else if m < n {
      InferredTwice(calls, m, n, r);
    } else if i < j {
      CountTwice(calls[n].batch, i, j);
    } else if j < i {
      CountTwice(calls[n].batch, j, i);
    }
  }

  lemma {:induction false} CallsGrow(c: Config, run: seq<State>, steps: seq<Step>, i: nat, j: nat)
    requires Protocol.Run(c, run, steps) && i <= j < |run|
    ensures run[i].calls <= run[j].calls
  {
    if i < j {
      CallsGrow(c, run, steps, i, j - 1);
      assert StepAt(c, run, steps, j - 1);
      CallsStep(c, run[j - 1], steps[j - 1]);
    }
  }

  // ----- one's own result -----

  /** Call `n` carried request `r` at place `i` and answered it there with this result. */
  predicate Delivers(calls: seq<Call>, n: nat, i: nat, r: Id, result: Option<InferenceResult>) {
    && n < |calls| && i < |calls[n].batch| == |calls[n].results|
    && calls[n].batch[i] == r && calls[n].results[i].Ok() && result == Some(calls[n].results[i])
  }

  ghost predicate OwnResult(s: State, r: Id) {
    StateOf(s, r) == Completed ==> exists n: nat, i: nat :: Delivers(s.calls, n, i, r, LifeOf(s, r).result)
  }

  /** A batch being settled is settled from a call that was made for it. */
  predicate Logged(calls: seq<Call>, k: Worker) {
    k.phase.Settling? ==> Call(k.phase.batch, k.phase.results) in calls
  }

  ghost predicate AllLogged(s: State) {
    forall w | 0 <= w < |s.workers| :: Logged(s.calls, s.workers[w])
  }

  lemma LoggedKept(c: Config, s: State, t: Step)
    requires Enabled(c, s, t) && AllLogged(s)
    ensures AllLogged(After(c, s, t))
  {
    CallsStep(c, s, t);
  }

  predicate SettlesWith(a: Act, k: Worker, r: Id, life: Life) {
    && a.SettleOne? && k.phase.Settling? && k.phase.i < |k.phase.batch| && k.phase.i < |k.phase.results|
    && k.phase.batch[k.phase.i] == r && k.phase.results[k.phase.i].Ok()
    && life == Life(Completed, Some(k.phase.results[k.phase.i]))
  }

  lemma CompletedByAct(c: Config, s: State, a: Act, k: Worker, r: Id)
    requires EnabledAct(c, s, a, k)
    ensures var l := LivesAfter(c, s, a, k);
            StateOf(l, r) == Completed ==> LifeOf(l, r) == LifeOf(s, r) || SettlesWith(a, k, r, LifeOf(l, r))
  {
  }

  lemma CompletedOnlyByWork(c: Config, s: State, t: Step, r: Id)
    requires Enabled(c, s, t) && !t.Work? && StateOf(After(c, s, t), r) == Completed
    ensures LifeOf(After(c, s, t), r) == LifeOf(s, r)
  {
  }

  lemma OwnResultKept(c: Config, s: State, t: Step, r: Id)
    requires Enabled(c, s, t) && SystemInv(s) && AllLogged(s) && OwnResult(s, r)
    ensures OwnResult(After(c, s, t), r)
  {
    var s' := After(c, s, t);
    CallsStep(c, s, t);
    if StateOf(s', r) == Completed {
      if LifeOf(s', r) == LifeOf(s, r) {
        var n: nat, i: nat :| Delivers(s.calls, n, i, r, LifeOf(s, r).result);
        assert Delivers(s'.calls, n, i, r, LifeOf(s', r).result);
      } else if t.Work? {
        var k := s.workers[t.w];
        CompletedByAct(c, s, t.act, k, r);
        assert WorkerOk(s, k) && Logged(s.calls, k);
        var n :| 0 <= n < |s.calls| && s.calls[n] == Call(k.phase.batch, k.phase.results);
        assert Delivers(s'.calls, n, k.phase.i, r, LifeOf(s', r).result);
      } else {
        CompletedOnlyByWork(c, s, t, r);
      }
    }
  }

  lemma {:induction false} AllLoggedInRun(c: Config, run: seq<State>, steps: seq<Step>, j: nat)
    requires Protocol.Run(c, run, steps) && j < |run|
    ensures AllLogged(run[j])
  {
    if j > 0 {
      assert StepAt(c, run, steps, j - 1);
      AllLoggedInRun(c, run, steps, j - 1);
      LoggedKept(c, run[j - 1], steps[j - 1]);
    }
  }

  lemma {:induction false} CompletedHoldsOwnResult(c: Config, run: seq<State>, steps: seq<Step>, j: nat, r: Id)
    requires Protocol.Run(c, run, steps) && j < |run|
    ensures OwnResult(run[j], r)
  {
    if j > 0 {
      assert StepAt(c, run, steps, j - 1);
      CompletedHoldsOwnResult(c, run, steps, j - 1, r);
      SingleOwnership(c, run, steps, j - 1);
      AllLoggedInRun(c, run, steps, j - 1);
      OwnResultKept(c, run[j - 1], steps[j - 1], r);
    }
  }
}
