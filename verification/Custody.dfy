/**
 Who can change a request that nobody has claimed yet, or that the routing thread has in hand.
 */
module Custody {
  import opened Types
  import opened RequestLifecycle
  import opened Protocol
  import opened Ownership
  import opened Places
  import opened Endings
  import opened Threads

  /** A request no worker holds is none of the workers' business. */
  lemma WorkUntouched(c: Config, s: State, w: nat, a: Act, r: Id)
    requires Enabled(c, s, Work(w, a)) && HeldByAll(s.workers, r) == 0
    ensures LifeOf(After(c, s, Work(w, a)), r) == LifeOf(s, r)
  {
    HeldByOne(s.workers, w, r);
    HoldsAll(s.workers[w]);
    NotItsOwn(c, s, a, s.workers[w], r);
  }

  // ----- unclaimed -----

  /** A step that takes a request out of Received. */
  predicate Forestalls(t: Step, r: Id) {
    Ends(t, r) || t == Claim(r)
  }

  lemma FrontReceived(c: Config, s: State, t: Step, r: Id)
    requires Enabled(c, s, t) && !t.Work? && InFront(s, r) == 0 && !Forestalls(t, r)
    ensures LifeOf(After(c, s, t), r) == LifeOf(s, r)
  {
    assert s.refusing[r] == 0 && s.hand != Some(r);
  }

  lemma ReceivedStays(c: Config, s: State, t: Step, r: Id)
    requires Enabled(c, s, t) && SystemInv(s) && StateOf(s, r) == Received && !Forestalls(t, r)
    ensures StateOf(After(c, s, t), r) == Received
  {
    assert OwnedOk(s, r);
    if t.Work? {
      WorkUntouched(c, s, t.w, t.act, r);
    } else {
      FrontReceived(c, s, t, r);
    }
  }

  lemma {:induction false} WhyNotReceived(c: Config, run: seq<State>, steps: seq<Step>, i: nat, j: nat, r: Id)
    returns (n: nat)
    requires Protocol.Run(c, run, steps) && i <= j < |run|
    requires StateOf(run[i], r) == Received && StateOf(run[j], r) != Received
    ensures i <= n < j && Forestalls(steps[n], r)
  {
    n := j - 1;
    if !Forestalls(steps[n], r) {
      assert StepAt(c, run, steps, n);
      SingleOwnership(c, run, steps, n);
      if StateOf(run[n], r) == Received {
        ReceivedStays(c, run[n], steps[n], r);
      }
      n := WhyNotReceived(c, run, steps, i, j - 1, r);
    }
  }

  // ----- in hand -----

  lemma HandUntouched(c: Config, s: State, t: Step, r: Id)
    requires Enabled(c, s, t) && SystemInv(s) && s.hand == Some(r) && !Ends(t, r) && !Mine(Router, t)
    ensures LifeOf(After(c, s, t), r) == LifeOf(s, r) && After(c, s, t).hand == Some(r)
  {
    assert OwnedOk(s, r);
    RouterUndisturbed(c, s, t);
    if t.Work? {
      WorkUntouched(c, s, t.w, t.act, r);
    } else {
      assert s.refusing[r] == 0;
    }
  }

  /** While the other threads run, a request in hand stays as it is unless its client ends it. */
  lemma {:induction false} HandLeftAlone(c: Config, run: seq<State>, steps: seq<Step>, i: nat, j: nat, r: Id)
    requires Protocol.Run(c, run, steps) && i <= j < |run| && run[i].hand == Some(r) && Spared(steps, i, j, r)
    requires forall n | i <= n < j :: !Mine(Router, steps[n])
    ensures LifeOf(run[j], r) == LifeOf(run[i], r) && run[j].hand == Some(r)
  {
    if i < j {
      HandLeftAlone(c, run, steps, i, j - 1, r);
      assert StepAt(c, run, steps, j - 1);
      SingleOwnership(c, run, steps, j - 1);
      HandUntouched(c, run[j - 1], steps[j - 1], r);
    }
  }
}
