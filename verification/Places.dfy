/**
 The second half of the ownership invariant: a step of one thread never disturbs what another
 thread knows about the requests it holds. Together with the first half it holds in every state
 of every run.
 */
module Places {
  import opened Types
  import opened RequestLifecycle
  import opened Protocol
  import opened Ownership

  predicate Calm(s: State, s': State, r: Id) {
    && (NotRunning(s, r) ==> NotRunning(s', r))
    && (NotQueued(s, r) ==> NotQueued(s', r))
    && (Dead(s, r) ==> Dead(s', r))
  }

  /** Only the worker that starts a request disturbs it, and only the claim of an unclaimed one. */
  lemma CalmUnlessStarted(c: Config, s: State, t: Step, r: Id)
    requires Enabled(c, s, t) && StateOf(s, r) != Received && !StartsIn(s, t, r)
    ensures Calm(s, After(c, s, t), r)
  {
    StateStep(c, s, t, r);
  }

  // ----- what calm keeps -----

  lemma HoldsAll(k: Worker)
    ensures forall i | 0 <= i < |k.lane| :: HeldBy(k, k.lane[i]) >= 1
    ensures forall i | 0 <= i < |InHand(k.phase)| :: HeldBy(k, InHand(k.phase)[i]) >= 1
    ensures k.deferred.Some? ==> HeldBy(k, k.deferred.value) >= 1
  {
    forall i | 0 <= i < |k.lane| ensures HeldBy(k, k.lane[i]) >= 1 {
      CountAt(k.lane, i);
    }
    forall i | 0 <= i < |InHand(k.phase)| ensures HeldBy(k, InHand(k.phase)[i]) >= 1 {
      CountAt(InHand(k.phase), i);
    }
  }

  ghost predicate CalmFor(s: State, s': State, k: Worker) {
    forall r: Id | HeldBy(k, r) >= 1 :: Calm(s, s', r)
  }

  ghost predicate CalmIn(s: State, s': State, q: seq<Id>) {
    forall i | 0 <= i < |q| :: Calm(s, s', q[i])
  }

  lemma RangesCalm(s: State, s': State, q: seq<Id>, i: nat)
    requires i <= |q| && CalmIn(s, s', q)
    ensures NoneRunning(s, q, i) ==> NoneRunning(s', q, i)
    ensures NoneQueued(s, q, i) ==> NoneQueued(s', q, i)
    ensures AllDead(s, q, i) ==> AllDead(s', q, i)
  {
  }

  lemma PhaseCalm(s: State, s': State, p: Phase)
    requires PhaseOk(s, p) && CalmIn(s, s', InHand(p))
    ensures PhaseOk(s', p)
  {
    match p
    case Idle =>
    case Ended =>
    case Starting(batch, i) => RangesCalm(s, s', batch, i);
    case Settling(batch, _, i) =>
      RangesCalm(s, s', batch, i);
      RangesCalm(s, s', batch, |batch|);
    case FailingAll(batch, i, _) => RangesCalm(s, s', batch, i);
    case _ =>
      RangesCalm(s, s', InHand(p), 0);
      RangesCalm(s, s', InHand(p), |InHand(p)|);
  }

  lemma WorkerCalm(s: State, s': State, k: Worker)
    requires WorkerOk(s, k) && CalmFor(s, s', k)
    ensures WorkerOk(s', k)
  {
    HoldsAll(k);
    assert CalmIn(s, s', InHand(k.phase));
    PhaseCalm(s, s', k.phase);
    assert CalmIn(s, s', k.lane);
    RangesCalm(s, s', k.lane, 0);
  }

  ghost predicate CalmFront(s: State, s': State) {
    forall r: Id | InFront(s, r) >= 1 :: Calm(s, s', r)
  }

  lemma FrontCalm(s: State, s': State)
    requires FrontOk(s) && CalmFront(s, s')
    ensures FrontOk(s.(lives := s'.lives))
  {
    forall r | r in s.admitting || r in s.refusing ensures InFront(s, r) >= 1 {
    }
    forall i | 0 <= i < |s.scheduled| ensures InFront(s, s.scheduled[i]) >= 1 {
      CountAt(s.scheduled, i);
    }
    assert CalmIn(s, s', s.scheduled);
    RangesCalm(s, s', s.scheduled, 0);
    assert s.hand.Some? ==> InFront(s, s.hand.value) >= 1;
  }

  // ----- the steps of submitting and routing threads -----

  lemma OthersCalm(c: Config, s: State, t: Step)
    requires !t.Work? && Enabled(c, s, t) && SystemInv(s)
    ensures CalmFront(s, After(c, s, t))
    ensures forall w | 0 <= w < |s.workers| :: CalmFor(s, After(c, s, t), s.workers[w])
  {
    var s' := After(c, s, t);
    forall r: Id | InFront(s, r) >= 1 ensures Calm(s, s', r) {
      assert OwnedOk(s, r);
      CalmUnlessStarted(c, s, t, r);
    }
    forall w, r: Id | 0 <= w < |s.workers| && HeldBy(s.workers[w], r) >= 1 ensures Calm(s, s', r) {
      HeldByOne(s.workers, w, r);
      assert OwnedOk(s, r);
      CalmUnlessStarted(c, s, t, r);
    }
  }

  lemma SameLives(s: State, s': State, q: seq<Id>)
    requires s'.lives == s.lives && NoneRunning(s, q, 0)
    ensures NoneRunning(s', q, 0)
    ensures forall k | 0 <= k < |q| :: NoneRunning(s', Removed(q, k), 0)
    ensures forall x | NotRunning(s, x) :: NoneRunning(s', q + [x], 0)
  {
    forall k | 0 <= k < |q| ensures NoneRunning(s', Removed(q, k), 0) {
      forall i | 0 <= i < |Removed(q, k)| ensures NotRunning(s', Removed(q, k)[i]) {
        assert Removed(q, k)[i] == if i < k then q[i] else q[i + 1];
      }
    }
  }

  lemma SameLivesOf(s: State, s': State, m: multiset<Id>, x: Id)
    requires s'.lives == s.lives && NoneRunningOf(s, m)
    ensures NoneRunningOf(s', m) && NoneRunningOf(s', m - multiset{x})
    ensures NotRunning(s, x) ==> NoneRunningOf(s', m + multiset{x})
  {
  }

  lemma AdmittingMoved(m: State, x: Id)
    requires FrontOk(m) && NotRunning(m, x)
    ensures FrontOk(m.(admitting := m.admitting + multiset{x}))
    ensures FrontOk(m.(refusing := m.refusing - multiset{x}))
    ensures FrontOk(m.(admitting := m.admitting - multiset{x}, refusing := m.refusing + multiset{x}))
  {
  }

  lemma AcceptMoved(m: State, x: Id, accepted: set<Id>)
    requires FrontOk(m) && NotRunning(m, x)
    ensures FrontOk(m.(admitting := m.admitting - multiset{x}, scheduled := m.scheduled + [x], accepted := accepted))
  {
  }

  lemma SubmitFront(c: Config, s: State, m: State, t: Step)
    requires Submits(t) && !t.CloseScheduler? && Enabled(c, s, t) && m == s.(lives := After(c, s, t).lives)
    requires FrontOk(m)
    ensures FrontOk(After(c, s, t))
  {
    if !t.Die? {
      assert NotRunning(m, t.r);
      AdmittingMoved(m, t.r);
      AcceptMoved(m, t.r, After(c, s, t).accepted);
    }
  }

  lemma RouteFront(c: Config, s: State, m: State, t: Step)
    requires !Submits(t) && !t.Work? && Enabled(c, s, t) && m == s.(lives := After(c, s, t).lives) && FrontOk(m)
    ensures FrontOk(After(c, s, t))
  {
    var s' := After(c, s, t);
    SameLives(m, s', s.scheduled);
    SameLivesOf(m, s', s.admitting, 0);
    SameLivesOf(m, s', s.refusing, 0);
    if t.Take? {
      assert NotRunning(m, s.scheduled[t.k]);
    }
  }

  lemma FrontKept(c: Config, s: State, t: Step)
    requires !t.Work? && Enabled(c, s, t) && SystemInv(s)
    ensures FrontOk(After(c, s, t))
  {
    OthersCalm(c, s, t);
    FrontCalm(s, After(c, s, t));
    if t.CloseScheduler? {
    } else if Submits(t) {
      SubmitFront(c, s, s.(lives := After(c, s, t).lives), t);
    } else {
      RouteFront(c, s, s.(lives := After(c, s, t).lives), t);
    }
  }

  lemma Pushed(s: State, k: Worker, x: Id)
    requires WorkerOk(s, k) && NotRunning(s, x)
    ensures WorkerOk(s, k.(lane := k.lane + [x]))
  {
  }

  lemma WorkersKept(c: Config, s: State, t: Step)
    requires !t.Work? && Enabled(c, s, t) && SystemInv(s)
    ensures WorkersOk(After(c, s, t))
  {
    var s' := After(c, s, t);
    OthersCalm(c, s, t);
    forall w | 0 <= w < |s.workers| ensures WorkerOk(s', s.workers[w]) {
      WorkerCalm(s, s', s.workers[w]);
    }
    if t.Push? {
      Pushed(s', s.workers[t.w], s.hand.value);
    } else {
      assert s'.workers == s.workers;
    }
  }

  // ----- the steps of workers -----

  lemma ExtraOk(s: State, p: Phase)
    requires p.Extra? && PhaseOk(s, p)
    ensures NotRunning(s, p.next) && NoneRunning(s, p.batch, 0)
  {
    var q := p.batch + [p.next];
    assert q[|p.batch|] == p.next;
    forall i | 0 <= i < |p.batch| ensures NotRunning(s, p.batch[i]) {
      assert q[i] == p.batch[i];
    }
  }

  /** What the worker knows after its step, short of the step's effect on the lives. */
  lemma GatherOk(c: Config, s: State, a: Act, k: Worker)
    requires Gathers(a) && EnabledAct(c, s, a, k) && WorkerOk(s, k)
    ensures WorkerOk(s, WorkerAfter(c, s, a, k))
  {
    if k.phase.Extra? {
      ExtraOk(s, k.phase);
    }
  }

  lemma KeptFrom(s: State, batch: seq<Id>, keep: seq<bool>, j: nat)
    requires MayFilter(s, batch, keep) && j < |Kept(batch, keep)|
    ensures exists i :: 0 <= i < |batch| && batch[i] == Kept(batch, keep)[j]
  {
    var x := Kept(batch, keep)[j];
    CountAt(Kept(batch, keep), j);
    KeptCounts(s, batch, keep, x);
    CountFound(batch, x);
  }

  lemma KeptOk(s: State, batch: seq<Id>, keep: seq<bool>)
    requires MayFilter(s, batch, keep)
    ensures NoneRunning(s, batch, 0) ==> NoneRunning(s, Kept(batch, keep), 0)
    ensures NoneQueued(s, batch, |batch|) ==> NoneQueued(s, Kept(batch, keep), |Kept(batch, keep)|)
  {
    forall j | 0 <= j < |Kept(batch, keep)| ensures exists i :: 0 <= i < |batch| && batch[i] == Kept(batch, keep)[j] {
      KeptFrom(s, batch, keep, j);
    }
  }

  lemma FilterOk(c: Config, s: State, a: Act, k: Worker)
    requires Filters(a) && EnabledAct(c, s, a, k) && WorkerOk(s, k)
    ensures WorkerOk(s, WorkerAfter(c, s, a, k))
  {
    KeptOk(s, k.phase.batch, a.keep);
  }

  predicate Moves(a: Act) {
    a.StartOne? || a.FailStart? || a.SettleOne? || a.FailOne?
  }

  lemma StillOk(c: Config, s: State, a: Act, k: Worker)
    requires !Gathers(a) && !Filters(a) && !Moves(a) && EnabledAct(c, s, a, k) && WorkerOk(s, k)
    ensures WorkerOk(s, WorkerAfter(c, s, a, k))
  {
  }

  lemma CountTwice(q: seq<Id>, i: nat, j: nat)
    requires i < j < |q| && q[i] == q[j]
    ensures Count(q, q[i]) >= 2
  {
    CountRemoved(q, j, q[i]);
    assert Removed(q, j)[i] == q[i];
    CountAt(Removed(q, j), i);
  }

  /** A request the worker holds once is in one of its places only. */
  lemma Alone(k: Worker, i: nat)
    requires i < |InHand(k.phase)| && HeldBy(k, InHand(k.phase)[i]) <= 1
    ensures forall j | 0 <= j < |InHand(k.phase)| && j != i :: InHand(k.phase)[j] != InHand(k.phase)[i]
    ensures k.deferred != Some(InHand(k.phase)[i])
    ensures InHand(k.phase)[i] !in k.lane
  {
    var q := InHand(k.phase);
    CountAt(q, i);
    forall j | 0 <= j < |q| && q[j] == q[i] ensures j == i {
      if i < j {
        CountTwice(q, i, j);
      } else if j < i {
        CountTwice(q, j, i);
      }
    }
    forall j | 0 <= j < |k.lane| ensures k.lane[j] != q[i] {
      CountAt(k.lane, j);
    }
  }

  lemma StartOk(c: Config, s: State, k: Worker)
    requires EnabledAct(c, s, StartOne, k) && WorkerOk(s, k) && HeldBy(k, k.phase.batch[k.phase.i]) <= 1
    ensures WorkerOk(LivesAfter(c, s, StartOne, k), WorkerAfter(c, s, StartOne, k))
  {
    var s' := LivesAfter(c, s, StartOne, k);
    var batch, i := k.phase.batch, k.phase.i;
    Alone(k, i);
    if ValidTransition(StateOf(s, batch[i]), Running) {
      assert forall x | x != batch[i] :: StateOf(s', x) == StateOf(s, x);
      assert NoneRunning(s', k.lane, 0);
      assert NoneQueued(s', batch, i + 1) && NoneRunning(s', batch, i + 1);
    }
  }

  lemma FailStartOk(c: Config, s: State, k: Worker)
    requires EnabledAct(c, s, FailStart, k) && WorkerOk(s, k) && HeldBy(k, k.phase.batch[k.phase.i]) <= 1
    ensures WorkerOk(LivesAfter(c, s, FailStart, k), WorkerAfter(c, s, FailStart, k))
  {
    var s' := LivesAfter(c, s, FailStart, k);
    var batch, i := k.phase.batch, k.phase.i;
    Alone(k, i);
    assert forall x | x != batch[i] :: StateOf(s', x) == StateOf(s, x);
    assert NoneRunning(s', k.lane, 0);
    assert AllDead(s', batch, i);
  }

  lemma SettleOk(c: Config, s: State, a: Act, k: Worker)
    requires (a.SettleOne? || a.FailOne?) && EnabledAct(c, s, a, k) && WorkerOk(s, k)
    requires StateOf(s, k.phase.batch[k.phase.i]) != Received && CalmFor(s, LivesAfter(c, s, a, k), k)
    ensures WorkerOk(LivesAfter(c, s, a, k), WorkerAfter(c, s, a, k))
  {
    var s' := LivesAfter(c, s, a, k);
    var i := k.phase.i;
    WorkerCalm(s, s', k);
    assert NotQueued(s, k.phase.batch[i]);
    assert Dead(s', k.phase.batch[i]);
    assert AllDead(s', k.phase.batch, i + 1);
  }

  lemma HeldIsClaimed(s: State, w: nat, r: Id)
    requires OwnershipOk(s) && w < |s.workers| && HeldBy(s.workers[w], r) >= 1
    ensures StateOf(s, r) != Received && HeldBy(s.workers[w], r) <= 1 && InFront(s, r) == 0
  {
    assert OwnedOk(s, r);
    HeldByOne(s.workers, w, r);
  }

  lemma MoveOk(c: Config, s: State, w: nat, a: Act)
    requires Moves(a) && Enabled(c, s, Work(w, a)) && SystemInv(s)
    ensures WorkerOk(LivesAfter(c, s, a, s.workers[w]), WorkerAfter(c, s, a, s.workers[w]))
  {
    var k := s.workers[w];
    assert WorkerOk(s, k) && k.phase.batch == InHand(k.phase);
    HoldsAll(k);
    HeldIsClaimed(s, w, k.phase.batch[k.phase.i]);
    if a.StartOne? {
      StartOk(c, s, k);
    } else if a.FailStart? {
      FailStartOk(c, s, k);
    } else {
      forall x: Id | HeldBy(k, x) >= 1 ensures Calm(s, LivesAfter(c, s, a, k), x) {
        LivesStep(c, s, a, k, x);
      }
      SettleOk(c, s, a, k);
    }
  }

  /** The knowledge of worker `w` after its own step, over the lives it leaves behind. */
  lemma ActOk(c: Config, s: State, w: nat, a: Act)
    requires Enabled(c, s, Work(w, a)) && SystemInv(s)
    ensures WorkerOk(LivesAfter(c, s, a, s.workers[w]), WorkerAfter(c, s, a, s.workers[w]))
  {
    var k := s.workers[w];
    assert WorkerOk(s, k);
    if Moves(a) {
      MoveOk(c, s, w, a);
    } else {
      if Gathers(a) {
        GatherOk(c, s, a, k);
      } else if Filters(a) {
        FilterOk(c, s, a, k);
      } else {
        StillOk(c, s, a, k);
      }
      Unmoved(c, s, a, k);
    }
  }

  lemma Unmoved(c: Config, s: State, a: Act, k: Worker)
    requires !Moves(a) && EnabledAct(c, s, a, k) && WorkerOk(s, WorkerAfter(c, s, a, k))
    ensures WorkerOk(LivesAfter(c, s, a, k), WorkerAfter(c, s, a, k))
  {
    var s' := LivesAfter(c, s, a, k);
    assert s'.lives == s.lives;
    WorkerCalm(s, s', WorkerAfter(c, s, a, k));
  }

  lemma WorkCalm(c: Config, s: State, w: nat, a: Act)
    requires Enabled(c, s, Work(w, a)) && SystemInv(s)
    ensures CalmFront(s, After(c, s, Work(w, a)))
    ensures forall v | 0 <= v < |s.workers| && v != w :: CalmFor(s, After(c, s, Work(w, a)), s.workers[v])
  {
    var s' := After(c, s, Work(w, a));
    HoldsAll(s.workers[w]);
    forall r: Id | InFront(s, r) >= 1 ensures Calm(s, s', r) {
      assert OwnedOk(s, r);
      HeldByOne(s.workers, w, r);
      CalmUnlessStarted(c, s, Work(w, a), r);
    }
    forall v, r: Id | 0 <= v < |s.workers| && v != w && HeldBy(s.workers[v], r) >= 1 ensures Calm(s, s', r) {
      HeldIsClaimed(s, v, r);
      if v < w {
        HeldByTwo(s.workers, v, w, r);
      } else {
        HeldByTwo(s.workers, w, v, r);
      }
      assert OwnedOk(s, r);
      CalmUnlessStarted(c, s, Work(w, a), r);
    }
  }

  lemma WorkKept(c: Config, s: State, w: nat, a: Act)
    requires Enabled(c, s, Work(w, a)) && SystemInv(s)
    ensures PlacesOk(After(c, s, Work(w, a)))
  {
    var k := s.workers[w];
    ActOk(c, s, w, a);
    WorkCalm(c, s, w, a);
    WorkPlaces(s, LivesAfter(c, s, a, k), w, WorkerAfter(c, s, a, k), After(c, s, Work(w, a)));
  }

  lemma SameFront(s: State, s': State)
    requires FrontOk(s) && s' == s.(workers := s'.workers, calls := s'.calls)
    ensures FrontOk(s')
  {
    SameLives(s, s', s.scheduled);
  }

  lemma WorkPlaces(s: State, l: State, w: nat, k': Worker, s': State)
    requires w < |s.workers| && l == s.(lives := l.lives, calls := l.calls) && s' == l.(workers := s.workers[w := k'])
    requires PlacesOk(s) && WorkerOk(l, k') && CalmFront(s, s')
    requires forall v | 0 <= v < |s.workers| && v != w :: CalmFor(s, s', s.workers[v])
    ensures PlacesOk(s')
  {
    FrontCalm(s, s');
    SameFront(s.(lives := s'.lives), s');
    WorkerCalm(l, s', k');
    forall v | 0 <= v < |s.workers| && v != w ensures WorkerOk(s', s.workers[v]) {
      WorkerCalm(s, s', s.workers[v]);
    }
  }

  /** A worker moves only requests it holds. */
  lemma NotItsOwn(c: Config, s: State, a: Act, k: Worker, r: Id)
    requires EnabledAct(c, s, a, k) && HeldBy(k, r) == 0 && forall i | 0 <= i < |InHand(k.phase)| ::
        HeldBy(k, InHand(k.phase)[i]) >= 1
    ensures LifeOf(LivesAfter(c, s, a, k), r) == LifeOf(s, r)
  {
    if Moves(a) {
      assert InHand(k.phase)[k.phase.i] != r;
    }
  }

  // ----- the invariant in every run -----

  lemma SystemInvKept(c: Config, s: State, t: Step)
    requires Enabled(c, s, t) && SystemInv(s)
    ensures SystemInv(After(c, s, t))
  {
    OwnershipKept(c, s, t);
    if t.Work? {
      WorkKept(c, s, t.w, t.act);
    } else {
      FrontKept(c, s, t);
      WorkersKept(c, s, t);
    }
  }

  lemma {:induction false} NothingHeld(ws: seq<Worker>, r: Id)
    requires forall w | 0 <= w < |ws| :: ws[w] == Fresh(ws[w].limits)
    ensures HeldByAll(ws, r) == 0
  {
    if ws != [] {
      NothingHeld(ws[..|ws| - 1], r);
    }
  }

  lemma {:induction false} SingleOwnership(c: Config, run: seq<State>, steps: seq<Step>, i: nat)
    requires Protocol.Run(c, run, steps) && i < |run|
    ensures SystemInv(run[i])
  {
    if i == 0 {
      forall r: Id ensures OwnedOk(run[0], r) {
        NothingHeld(run[0].workers, r);
      }
    } else {
      assert StepAt(c, run, steps, i - 1);
      SingleOwnership(c, run, steps, i - 1);
      SystemInvKept(c, run[i - 1], steps[i - 1]);
    }
  }

  /** The first terminal state and its result stay, whatever the other threads still try. */
  lemma {:induction false} FirstTerminalStays(c: Config, run: seq<State>, steps: seq<Step>, r: Id, i: nat, j: nat)
    requires Protocol.Run(c, run, steps) && i <= j < |run| && Dead(run[i], r)
    ensures LifeOf(run[j], r) == LifeOf(run[i], r)
  {
    if i < j {
      assert StepAt(c, run, steps, j - 1);
      FirstTerminalStays(c, run, steps, r, i, j - 1);
      DeathIsFinal(c, run[j - 1], steps[j - 1], r);
    }
  }

  /** Whoever is queued or running was claimed by a submission. */
  lemma {:induction false} ClaimedInRun(c: Config, run: seq<State>, steps: seq<Step>, i: nat, r: Id)
    requires Protocol.Run(c, run, steps) && i < |run|
    ensures StateOf(run[i], r) in {Queued, Running} ==> Claim(r) in steps
  {
    if i > 0 {
      assert StepAt(c, run, steps, i - 1);
      ClaimedInRun(c, run, steps, i - 1, r);
      StateStep(c, run[i - 1], steps[i - 1], r);
    }
  }
}
