/**
 The memory the threads share, and what one thread may count on while the others run.
 */
module Threads {
  import opened RequestLifecycle
  import opened Protocol
  import opened Ownership
  import opened Delivery

  /** For a worker, `fed` tells whether the routing thread may be pushing to its lane. */
  datatype Thread = Client(r: Id) | Stopper | Router | WorkerThread(w: nat, fed: bool)

  /** The steps no other thread takes meanwhile. */
  predicate Mine(who: Thread, t: Step) {
    match who
    case Client(r) => t == Accept(r) || t == TurnAway(r) || (t.Refuse? && t.r == r)
    case Stopper => t.Work? && t.act.CloseLane?
    case Router => t.Take? || t.Prune? || t.DropHand? || t.RejectHand? || t.Push? || t.EndRouting? || t.GiveUp?
    case WorkerThread(w, fed) => (t.Work? && t.w == w && !t.act.CloseLane?) || (!fed && t == Push(w))
  }

  /** What the others leave alone. */
  predicate Undisturbed(who: Thread, s: State, s': State) {
    && |s'.workers| == |s.workers| && (s.closed ==> s'.closed) && (s.routingEnded ==> s'.routingEnded)
    && s.accepted <= s'.accepted
    && match who
       case Client(r) =>
         StateOf(s, r) != Received ==>
           StateOf(s', r) != Received && s'.admitting[r] == s.admitting[r] && s'.refusing[r] == s.refusing[r]
       case Stopper => forall w | 0 <= w < |s.workers| && s.workers[w].closed :: s'.workers[w].closed
       case Router => s'.hand == s.hand && s'.routingEnded == s.routingEnded && s.scheduled <= s'.scheduled
       case WorkerThread(w, fed) =>
         w < |s.workers| ==>
           && s'.workers[w].limits == s.workers[w].limits && s'.workers[w].phase == s.workers[w].phase
               && s'.workers[w].deferred == s.workers[w].deferred
           && s.workers[w].lane <= s'.workers[w].lane && (!fed ==> s'.workers[w].lane == s.workers[w].lane)
           && (s.workers[w].closed ==> s'.workers[w].closed)
  }

  predicate Begun(s: State, r: Id) {
    StateOf(s, r) != Received && StateOf(s, r) != Queued
  }

  /** Whoever had begun does not wait again, and whoever had ended stays as they ended. */
  ghost predicate Later(s: State, s': State) {
    && (forall r: Id | Dead(s, r) :: LifeOf(s', r) == LifeOf(s, r))
    && (forall r: Id | Begun(s, r) :: Begun(s', r))
  }

  lemma OneLater(c: Config, s: State, t: Step)
    requires Enabled(c, s, t)
    ensures Later(s, After(c, s, t))
  {
    forall r: Id | Dead(s, r) ensures LifeOf(After(c, s, t), r) == LifeOf(s, r) {
      DeathIsFinal(c, s, t, r);
    }
    forall r: Id | Begun(s, r) ensures Begun(After(c, s, t), r) {
      StateStep(c, s, t, r);
    }
  }

  lemma OneUndisturbed(c: Config, s: State, t: Step, who: Thread)
    requires Enabled(c, s, t) && !Mine(who, t)
    ensures Undisturbed(who, s, After(c, s, t))
  {
    match who
    case Client(r) => ClientUndisturbed(c, s, t, r);
    case Stopper =>
      SameSize(c, s, t);
      StaysClosed(c, s, t);
    case Router => RouterUndisturbed(c, s, t);
    case WorkerThread(w, fed) => WorkerUndisturbed(c, s, t, w, fed);
  }

  lemma AdmissionUndisturbed(c: Config, s: State, t: Step, r: Id)
    requires Enabled(c, s, t) && !Mine(Client(r), t) && StateOf(s, r) != Received
    ensures var s' := After(c, s, t); s'.admitting[r] == s.admitting[r] && s'.refusing[r] == s.refusing[r]
  {
    if t.Work? {
      LivesKeepDead(c, s, t.act, s.workers[t.w], r);
    }
  }

  lemma SameSize(c: Config, s: State, t: Step)
    requires Enabled(c, s, t)
    ensures var s' := After(c, s, t);
            && |s'.workers| == |s.workers| && (s.closed ==> s'.closed) && (s.routingEnded ==> s'.routingEnded)
            && s.accepted <= s'.accepted
  {
  }

  lemma StaysClosed(c: Config, s: State, t: Step)
    requires Enabled(c, s, t)
    ensures var s' := After(c, s, t);
            && |s'.workers| == |s.workers|
            && forall w | 0 <= w < |s.workers| && s.workers[w].closed :: s'.workers[w].closed
  {
  }

  lemma ClientUndisturbed(c: Config, s: State, t: Step, r: Id)
    requires Enabled(c, s, t) && !Mine(Client(r), t)
    ensures Undisturbed(Client(r), s, After(c, s, t))
  {
    SameSize(c, s, t);
    if StateOf(s, r) != Received {
      AdmissionUndisturbed(c, s, t, r);
      StillNotReceived(c, s, t, r);
    }
  }

  lemma RouterUndisturbed(c: Config, s: State, t: Step)
    requires Enabled(c, s, t) && !Mine(Router, t)
    ensures Undisturbed(Router, s, After(c, s, t))
  {
  }

  lemma WorkerUndisturbed(c: Config, s: State, t: Step, w: nat, fed: bool)
    requires Enabled(c, s, t) && !Mine(WorkerThread(w, fed), t)
    ensures Undisturbed(WorkerThread(w, fed), s, After(c, s, t))
  {
  }

  lemma LongerUndisturbed(who: Thread, a: State, b: State, d: State)
    requires Undisturbed(who, a, b) && Undisturbed(who, b, d)
    ensures Undisturbed(who, a, d)
  {
  }

  lemma {:induction false} LaterInRun(c: Config, run: seq<State>, steps: seq<Step>, i: nat, j: nat)
    requires Protocol.Run(c, run, steps) && i <= j < |run|
    ensures Later(run[i], run[j])
  {
    if i < j {
      LaterInRun(c, run, steps, i, j - 1);
      assert StepAt(c, run, steps, j - 1);
      OneLater(c, run[j - 1], steps[j - 1]);
    }
  }

  class Shared {
    const c: Config
    var s: State
    ghost var run: seq<State>
    ghost var steps: seq<Step>
    // Which of the steps the thread at hand took itself.
    ghost var own: seq<bool>

    /** Every state of the shared memory is the last state of a run. */
    ghost predicate Valid()
      reads this
    {
      WellConfigured(c) && Protocol.Run(c, run, steps) && run[|steps|] == s && |own| == |steps|
    }

    constructor (c: Config)
      requires WellConfigured(c)
      ensures Valid() && this.c == c && s == Initial(c)
    {
      this.c := c;
      s := Initial(c);
      run := [Initial(c)];
      steps, own := [], [];
    }

    method Step(t: Step, ghost mine: bool)
      requires Valid() && Enabled(c, s, t)
      modifies this
      ensures Valid() && s == After(c, old(s), t) && run == old(run) + [s]
      ensures steps == old(steps) + [t] && own == old(own) + [mine]
    {
      Extended(c, run, steps, t);
      s := After(c, s, t);
      run := run + [s];
      steps, own := steps + [t], own + [mine];
    }

    /** A step of the thread at hand. */
    method Take(t: Step)
      requires Valid() && Enabled(c, s, t)
      modifies this
      ensures Valid() && s == After(c, old(s), t) && run == old(run) + [s]
      ensures steps == old(steps) + [t] && own == old(own) + [true]
    {
      Step(t, true);
    }

    method TakeOther(who: Thread, t: Step)
      requires Valid() && Enabled(c, s, t) && !Mine(who, t)
      modifies this
      ensures Valid() && run == old(run) + [s] && steps == old(steps) + [t] && own == old(own) + [false]
      ensures Undisturbed(who, old(s), s)
    {
      OneUndisturbed(c, s, t, who);
      Step(t, false);
    }

    /** The other threads run for a while, in any order. */
    method Others(who: Thread)
      requires Valid()
      modifies this
      ensures Valid() && old(run) <= run && old(steps) <= steps && old(own) <= own && Undisturbed(who, old(s), s)
      ensures forall i | |old(steps)| <= i < |steps| :: !Mine(who, steps[i]) && !own[i]
    {
      var n: nat := *;
      while n > 0
        invariant Valid() && old(run) <= run && old(steps) <= steps && old(own) <= own && Undisturbed(who, old(s), s)
        invariant forall i | |old(steps)| <= i < |steps| :: !Mine(who, steps[i]) && !own[i]
      {
        n := n - 1;
        var t: Step := *;
        if Enabled(c, s, t) && !Mine(who, t) {
          ghost var before := s;
          TakeOther(who, t);
          LongerUndisturbed(who, old(s), before, s);
        }
      }
    }
  }
}
