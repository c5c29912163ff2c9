/**
 Single ownership in every run: a claimed request that is not terminal is in exactly one place,
 no request is ever in two, and only a worker that has started a request finds it running.
 */
module Ownership {
  import opened Types
  import opened RequestLifecycle
  import opened Protocol

  // ----- who holds what -----

  function InHand(p: Phase): seq<Id> {
    match p
    case Idle => []
    case Ended => []
    case Holding(first) => [first]
    case Extra(batch, next) => batch + [next]
    case _ => p.batch
  }

  function Count(q: seq<Id>, r: Id): nat {
    if q == [] then 0 else Count(q[..|q| - 1], r) + (if q[|q| - 1] == r then 1 else 0)
  }

  lemma {:induction false} CountConcat(a: seq<Id>, b: seq<Id>, r: Id)
    ensures Count(a + b, r) == Count(a, r) + Count(b, r)
  {
    if b == [] {
      assert a + b == a;
    } else {
      assert (a + b)[..|a + b| - 1] == a + b[..|b| - 1];
      CountConcat(a, b[..|b| - 1], r);
    }
  }

  lemma CountOne(x: Id, r: Id)
    ensures Count([x], r) == if x == r then 1 else 0
  {
    assert [x][..0] == [];
  }

  lemma CountSnoc(q: seq<Id>, x: Id, r: Id)
    ensures Count(q + [x], r) == Count(q, r) + (if x == r then 1 else 0)
  {
    assert (q + [x])[..|q|] == q;
  }

  lemma CountRemoved(q: seq<Id>, k: nat, r: Id)
    requires k < |q|
    ensures Count(q, r) == Count(Removed(q, k), r) + (if q[k] == r then 1 else 0)
  {
    assert q == q[..k] + [q[k]] + q[k + 1..];
    CountConcat(q[..k] + [q[k]], q[k + 1..], r);
    CountSnoc(q[..k], q[k], r);
    CountConcat(q[..k], q[k + 1..], r);
  }

  lemma {:induction false} CountAt(q: seq<Id>, i: nat)
    requires i < |q|
    ensures Count(q, q[i]) >= 1
  {
    if i < |q| - 1 {
      CountAt(q[..|q| - 1], i);
    }
  }

  lemma {:induction false} CountFound(q: seq<Id>, r: Id)
    requires Count(q, r) >= 1
    ensures exists i :: 0 <= i < |q| && q[i] == r
  {
    if q[|q| - 1] != r {
      CountFound(q[..|q| - 1], r);
      var i :| 0 <= i < |q| - 1 && q[..|q| - 1][i] == r;
      assert q[i] == r;
    }
  }

  function One(o: Option<Id>, r: Id): nat {
    if o == Some(r) then 1 else 0
  }

  /** How often a worker holds a request: in its hands, deferred, and in its lane. */
  function HeldBy(k: Worker, r: Id): nat {
    Count(InHand(k.phase), r) + One(k.deferred, r) + Count(k.lane, r)
  }

  function HeldByAll(ws: seq<Worker>, r: Id): nat {
    if ws == [] then 0 else HeldByAll(ws[..|ws| - 1], r) + HeldBy(ws[|ws| - 1], r)
  }

  /** How often a request is held on its way to the workers. */
  function InFront(s: State, r: Id): nat {
    s.admitting[r] + s.refusing[r] + Count(s.scheduled, r) + One(s.hand, r)
  }

  /** Every place a request can be in between its claim and its end. */
  function Owned(s: State, r: Id): nat {
    InFront(s, r) + HeldByAll(s.workers, r)
  }

  lemma {:induction false} HeldByAllUpdate(ws: seq<Worker>, w: nat, k: Worker, r: Id)
    requires w < |ws|
    ensures HeldByAll(ws[w := k], r) + HeldBy(ws[w], r) == HeldByAll(ws, r) + HeldBy(k, r)
  {
    var n := |ws| - 1;
    if w == n {
      assert ws[w := k][..n] == ws[..n];
    } else {
      assert ws[w := k][..n] == ws[..n][w := k];
      HeldByAllUpdate(ws[..n], w, k, r);
    }
  }

  lemma {:induction false} HeldByOne(ws: seq<Worker>, w: nat, r: Id)
    requires w < |ws|
    ensures HeldBy(ws[w], r) <= HeldByAll(ws, r)
  {
    var n := |ws| - 1;
    if w < n {
      HeldByOne(ws[..n], w, r);
    }
  }

  lemma {:induction false} HeldByTwo(ws: seq<Worker>, v: nat, w: nat, r: Id)
    requires v < w < |ws|
    ensures HeldBy(ws[v], r) + HeldBy(ws[w], r) <= HeldByAll(ws, r)
  {
    var n := |ws| - 1;
    if w < n {
      HeldByTwo(ws[..n], v, w, r);
    } else {
      HeldByOne(ws[..n], v, r);
    }
  }

  // ----- the invariant -----

  predicate NotRunning(s: State, r: Id) {
    StateOf(s, r) != Running
  }

  predicate NotQueued(s: State, r: Id) {
    StateOf(s, r) != Queued
  }

  predicate NoneRunning(s: State, q: seq<Id>, from: nat) {
    forall i | from <= i < |q| :: NotRunning(s, q[i])
  }

  predicate NoneRunningOf(s: State, m: multiset<Id>) {
    forall r | r in m :: NotRunning(s, r)
  }

  predicate NoneQueued(s: State, q: seq<Id>, to: nat)
    requires to <= |q|
  {
    forall i | 0 <= i < to :: NotQueued(s, q[i])
  }

  predicate AllDead(s: State, q: seq<Id>, to: nat)
    requires to <= |q|
  {
    forall i | 0 <= i < to :: Dead(s, q[i])
  }

  /** What the phase of a worker says about the requests in its hands. */
  predicate PhaseOk(s: State, p: Phase) {
    match p
    case Idle => true
    case Ended => true
    case Starting(batch, i) => i <= |batch| && NoneQueued(s, batch, i) && NoneRunning(s, batch, i)
    case Started(batch) => NoneQueued(s, batch, |batch|)
    case Loaded(batch) => NoneQueued(s, batch, |batch|)
    case Settling(batch, results, i) => i <= |batch| == |results| && NoneQueued(s, batch, |batch|)
        && AllDead(s, batch, i)
    case FailingAll(batch, i, _) => i <= |batch| && AllDead(s, batch, i)
    case _ => NoneRunning(s, InHand(p), 0)
  }

  /** Nothing is deferred while a batch is being formed. */
  predicate DeferredOk(k: Worker) {
    k.phase.Holding? || k.phase.Forming? || k.phase.Extra? ==> k.deferred.None?
  }

  ghost predicate WorkerOk(s: State, k: Worker) {
    && DeferredOk(k) && PhaseOk(s, k.phase)
    && (k.deferred.Some? ==> NotRunning(s, k.deferred.value))
    && NoneRunning(s, k.lane, 0)
  }

  ghost predicate FrontOk(s: State) {
    && NoneRunningOf(s, s.admitting)
    && NoneRunningOf(s, s.refusing)
    && NoneRunning(s, s.scheduled, 0)
    && (s.hand.Some? ==> NotRunning(s, s.hand.value))
  }

  ghost predicate WorkersOk(s: State) {
    forall w | 0 <= w < |s.workers| :: WorkerOk(s, s.workers[w])
  }

  ghost predicate PlacesOk(s: State) {
    FrontOk(s) && WorkersOk(s)
  }

  /** Held at most once; held only after the claim; and held as long as it is neither unclaimed nor terminal. */
  ghost predicate OwnedOk(s: State, r: Id) {
    && Owned(s, r) <= 1 && (Owned(s, r) >= 1 ==> StateOf(s, r) != Received)
    && (StateOf(s, r) in {Queued, Running} ==> Owned(s, r) >= 1)
  }

  ghost predicate OwnershipOk(s: State) {
    forall r: Id :: OwnedOk(s, r)
  }

  ghost predicate SystemInv(s: State) {
    OwnershipOk(s) && PlacesOk(s)
  }

  // ----- how a step moves requests -----

  lemma {:induction false} KeptCounts(s: State, batch: seq<Id>, keep: seq<bool>, r: Id)
    requires MayFilter(s, batch, keep)
    ensures Count(Kept(batch, keep), r) <= Count(batch, r)
    ensures Count(Kept(batch, keep), r) == Count(batch, r) || Dead(s, r)
  {
    if batch != [] {
      var n := |batch| - 1;
      KeptCounts(s, batch[..n], keep[..n], r);
      CountSnoc(Kept(batch[..n], keep[..n]), batch[n], r);
      assert Kept(batch[..n], keep[..n]) + [] == Kept(batch[..n], keep[..n]);
    }
  }

  ghost predicate KeepsOrDrops(s: State, k: Worker, k': Worker, r: Id) {
    HeldBy(k', r) == HeldBy(k, r) || (HeldBy(k', r) <= HeldBy(k, r) && Dead(s, r))
  }

  /** The acts that take requests and put batches together; the others execute a batch. */
  predicate Gathers(a: Act) {
    a.TakeDeferred? || a.TakeFirst? || a.DropFirst? || a.BeginBatch? || a.TakeExtra? || a.DropExtra? || a.Join?
        || a.Defer?
  }

  lemma FirstBalanced(c: Config, s: State, a: Act, k: Worker, r: Id)
    requires Gathers(a) && !k.phase.Forming? && !k.phase.Extra? && EnabledAct(c, s, a, k) && DeferredOk(k)
    ensures KeepsOrDrops(s, k, WorkerAfter(c, s, a, k), r)
  {
    if a.TakeDeferred? {
      CountOne(k.deferred.value, r);
    } else if a.TakeFirst? {
      LaneTaken(k, r);
    } else {
      CountOne(k.phase.first, r);
    }
  }

  lemma TakeExtraBalanced(c: Config, s: State, k: Worker, r: Id)
    requires EnabledAct(c, s, TakeExtra, k)
    ensures HeldBy(WorkerAfter(c, s, TakeExtra, k), r) == HeldBy(k, r)
  {
    LaneTaken(k, r);
    CountSnoc(k.phase.batch, k.lane[0], r);
    CountOne(k.lane[0], r);
  }

  lemma ExtraBalanced(c: Config, s: State, a: Act, k: Worker, r: Id)
    requires Gathers(a) && k.phase.Extra? && EnabledAct(c, s, a, k) && DeferredOk(k)
    ensures KeepsOrDrops(s, k, WorkerAfter(c, s, a, k), r)
  {
    CountSnoc(k.phase.batch, k.phase.next, r);
  }

  predicate Filters(a: Act) {
    a.Filter? || a.Begin? || a.BeginLoad? || a.EndLoad?
  }

  lemma FilteredHands(c: Config, s: State, a: Act, k: Worker)
    requires Filters(a) && EnabledAct(c, s, a, k)
    ensures MayFilter(s, InHand(k.phase), a.keep)
    ensures var k' := WorkerAfter(c, s, a, k);
            InHand(k'.phase) == Kept(InHand(k.phase), a.keep) && k'.deferred == k.deferred && k'.lane == k.lane
  {
  }

  lemma FilterBalanced(c: Config, s: State, a: Act, k: Worker, r: Id)
    requires Filters(a) && EnabledAct(c, s, a, k)
    ensures KeepsOrDrops(s, k, WorkerAfter(c, s, a, k), r)
  {
    FilteredHands(c, s, a, k);
    KeptCounts(s, InHand(k.phase), a.keep, r);
  }

  /** No other act moves a request, but for the last, which lets go of a settled batch. */
  lemma SameHands(c: Config, s: State, a: Act, k: Worker)
    requires !Gathers(a) && !Filters(a) && !a.Finish? && EnabledAct(c, s, a, k)
    ensures var k' := WorkerAfter(c, s, a, k);
            InHand(k'.phase) == InHand(k.phase) && k'.deferred == k.deferred && k'.lane == k.lane
  {
  }

  lemma FinishBalanced(c: Config, s: State, k: Worker, r: Id)
    requires EnabledAct(c, s, Finish, k) && PhaseOk(s, k.phase)
    ensures KeepsOrDrops(s, k, WorkerAfter(c, s, Finish, k), r)
  {
    if Count(k.phase.batch, r) >= 1 {
      CountFound(k.phase.batch, r);
    }
  }

  lemma ActBalanced(c: Config, s: State, a: Act, k: Worker, r: Id)
    requires EnabledAct(c, s, a, k) && DeferredOk(k) && PhaseOk(s, k.phase)
    ensures KeepsOrDrops(s, k, WorkerAfter(c, s, a, k), r)
  {
    if Gathers(a) {
      if a.TakeExtra? {
        TakeExtraBalanced(c, s, k, r);
      } else if k.phase.Extra? {
        ExtraBalanced(c, s, a, k, r);
      } else {
        FirstBalanced(c, s, a, k, r);
      }
    } else if Filters(a) {
      FilterBalanced(c, s, a, k, r);
    } else if a.Finish? {
      FinishBalanced(c, s, k, r);
    } else {
      SameHands(c, s, a, k);
    }
  }

  lemma LaneTaken(k: Worker, r: Id)
    requires k.lane != []
    ensures Count(k.lane, r) == Count(k.lane[1..], r) + Count([k.lane[0]], r)
  {
    CountRemoved(k.lane, 0, r);
    CountOne(k.lane[0], r);
    assert Removed(k.lane, 0) == k.lane[1..];
  }

  ghost predicate Balanced(s: State, s': State, t: Step, r: Id) {
    var before := Owned(s, r) + (if t == Claim(r) then 1 else 0);
    Owned(s', r) == before || (Owned(s', r) <= before && Dead(s', r))
  }

  /** A dead request stays as it is through any transition. */
  lemma MovedKeepsDead(s: State, x: Id, to: RequestState, result: Option<InferenceResult>, r: Id)
    requires Dead(s, r)
    ensures LifeOf(Moved(s, x, to, result), r) == LifeOf(s, r)
  {
  }

  lemma LivesKeepDead(c: Config, s: State, a: Act, k: Worker, r: Id)
    requires EnabledAct(c, s, a, k)
    ensures var s' := LivesAfter(c, s, a, k);
            s' == s.(lives := s'.lives, calls := s'.calls) && (Dead(s, r) ==> LifeOf(s', r) == LifeOf(s, r))
  {
    var p := k.phase;
    match a
    case Infer(results) =>
    case _ =>
  }

  /** First terminal wins, also across the whole system. */
  lemma DeathIsFinal(c: Config, s: State, t: Step, r: Id)
    requires Enabled(c, s, t) && Dead(s, r)
    ensures LifeOf(After(c, s, t), r) == LifeOf(s, r)
  {
    match t
    case Die(x, to, error) => MovedKeepsDead(s, x, to, Some(Failure(error)), r);
    case Refuse(x, error) => MovedKeepsDead(s, x, Rejected, Some(Failure(error)), r);
    case RejectHand(error) => MovedKeepsDead(s, s.hand.value, Rejected, Some(Failure(error)), r);
    case Work(w, a) => LivesKeepDead(c, s, a, s.workers[w], r);
    case _ =>
  }

  lemma Replaced(s: State, l: State, w: nat, k: Worker, r: Id)
    requires w < |s.workers| && l == s.(lives := l.lives, calls := l.calls) && KeepsOrDrops(s, s.workers[w], k, r)
    requires Dead(s, r) ==> LifeOf(l, r) == LifeOf(s, r)
    ensures var s' := l.(workers := s.workers[w := k]);
            Owned(s', r) == Owned(s, r) || (Owned(s', r) <= Owned(s, r) && Dead(s', r))
  {
    HeldByAllUpdate(s.workers, w, k, r);
  }

  lemma WorkBalanced(c: Config, s: State, w: nat, a: Act, r: Id)
    requires w < |s.workers| && EnabledAct(c, s, a, s.workers[w]) && PlacesOk(s)
    ensures Balanced(s, After(c, s, Work(w, a)), Work(w, a), r)
  {
    var k := s.workers[w];
    assert WorkerOk(s, k);
    ActBalanced(c, s, a, k, r);
    LivesKeepDead(c, s, a, k, r);
    Replaced(s, LivesAfter(c, s, a, k), w, WorkerAfter(c, s, a, k), r);
  }

  lemma PushBalanced(s: State, w: nat, r: Id)
    requires s.hand.Some? && w < |s.workers|
    ensures var k := s.workers[w];
            HeldByAll(s.workers[w := k.(lane := k.lane + [s.hand.value])], r) == HeldByAll(s.workers, r)
                + One(s.hand, r)
  {
    var k := s.workers[w];
    CountSnoc(k.lane, s.hand.value, r);
    HeldByAllUpdate(s.workers, w, k.(lane := k.lane + [s.hand.value]), r);
  }

  predicate Submits(t: Step) {
    t.Die? || t.Claim? || t.Accept? || t.TurnAway? || t.Refuse? || t.CloseScheduler?
  }

  lemma RefuseBalanced(c: Config, s: State, t: Step, r: Id)
    requires t.Refuse? && Enabled(c, s, t) && PlacesOk(s)
    ensures Balanced(s, After(c, s, t), t, r)
  {
    assert NotRunning(s, t.r);
  }

  lemma SubmitBalanced(c: Config, s: State, t: Step, r: Id)
    requires Submits(t) && Enabled(c, s, t) && PlacesOk(s)
    ensures Balanced(s, After(c, s, t), t, r)
  {
    if t.Accept? {
      CountSnoc(s.scheduled, t.r, r);
    } else if t.Refuse? {
      RefuseBalanced(c, s, t, r);
    } else {
      assert After(c, s, t).workers == s.workers;
    }
  }

  lemma PushStepBalanced(c: Config, s: State, t: Step, r: Id)
    requires t.Push? && Enabled(c, s, t)
    ensures Balanced(s, After(c, s, t), t, r)
  {
    PushBalanced(s, t.w, r);
  }

  lemma RejectBalanced(c: Config, s: State, t: Step, r: Id)
    requires t.RejectHand? && Enabled(c, s, t) && PlacesOk(s)
    ensures Balanced(s, After(c, s, t), t, r)
  {
  }

  lemma RouteBalanced(c: Config, s: State, t: Step, r: Id)
    requires !Submits(t) && !t.Work? && Enabled(c, s, t) && PlacesOk(s)
    ensures Balanced(s, After(c, s, t), t, r)
  {
    if t.Push? {
      PushStepBalanced(c, s, t, r);
    } else if t.RejectHand? {
      RejectBalanced(c, s, t, r);
    } else if t.Take? || t.Prune? {
      CountRemoved(s.scheduled, t.k, r);
    } else if t.GiveUp? && Count(s.scheduled, r) >= 1 {
      CountFound(s.scheduled, r);
    }
  }

  /** A step moves a request from place to place; it drops only what is dead and takes in only what it claims. */
  lemma StepBalanced(c: Config, s: State, t: Step, r: Id)
    requires Enabled(c, s, t) && PlacesOk(s)
    ensures Balanced(s, After(c, s, t), t, r)
  {
    if t.Work? {
      WorkBalanced(c, s, t.w, t.act, r);
    } else if Submits(t) {
      SubmitBalanced(c, s, t, r);
    } else {
      RouteBalanced(c, s, t, r);
    }
  }

  // ----- how a step moves the lives -----

  /** The worker step that sets request `r` running. */
  predicate Starts(a: Act, k: Worker, r: Id) {
    match k.phase
    case Starting(batch, i) => a.StartOne? && i < |batch| && batch[i] == r
    case FailingAll(batch, i, _) => a.FailStart? && i < |batch| && batch[i] == r
    case _ => false
  }

  lemma LivesStep(c: Config, s: State, a: Act, k: Worker, r: Id)
    requires EnabledAct(c, s, a, k)
    ensures var s' := LivesAfter(c, s, a, k);
            LifeOf(s', r) == LifeOf(s, r) || Dead(s', r) || (Starts(a, k, r) && StateOf(s, r) == Queued
                && StateOf(s', r) == Running)
  {
  }

  predicate StartsIn(s: State, t: Step, r: Id) {
    t.Work? && t.w < |s.workers| && Starts(t.act, s.workers[t.w], r)
  }

  ghost predicate Lived(s: State, s': State, t: Step, r: Id) {
    || LifeOf(s', r) == LifeOf(s, r) || Dead(s', r)
    || (t == Claim(r) && StateOf(s, r) == Received && StateOf(s', r) == Queued)
    || (StartsIn(s, t, r) && StateOf(s, r) == Queued && StateOf(s', r) == Running)
  }

  lemma WorkLived(c: Config, s: State, t: Step, r: Id)
    requires t.Work? && Enabled(c, s, t)
    ensures Lived(s, After(c, s, t), t, r)
  {
    LivesStep(c, s, t.act, s.workers[t.w], r);
  }

  lemma MovedLived(s: State, x: Id, to: RequestState, result: Option<InferenceResult>, r: Id)
    requires Terminal(to)
    ensures var s' := Moved(s, x, to, result); LifeOf(s', r) == LifeOf(s, r) || Dead(s', r)
  {
  }

  lemma SubmitLived(c: Config, s: State, t: Step, r: Id)
    requires Submits(t) && Enabled(c, s, t)
    ensures Lived(s, After(c, s, t), t, r)
  {
    if t.Die? {
      MovedLived(s, t.r, t.to, Some(Failure(t.error)), r);
    } else if t.Refuse? {
      MovedLived(s, t.r, Rejected, Some(Failure(t.error)), r);
    }
  }

  lemma RouteLived(c: Config, s: State, t: Step, r: Id)
    requires !Submits(t) && !t.Work? && Enabled(c, s, t)
    ensures Lived(s, After(c, s, t), t, r)
  {
    if t.RejectHand? {
      MovedLived(s, s.hand.value, Rejected, Some(Failure(t.error)), r);
    } else {
      assert After(c, s, t).lives == s.lives;
    }
  }

  /** A life moves only by a claim, by being started, or to its end. */
  lemma StateStep(c: Config, s: State, t: Step, r: Id)
    requires Enabled(c, s, t)
    ensures Lived(s, After(c, s, t), t, r)
  {
    if t.Work? {
      WorkLived(c, s, t, r);
    } else if Submits(t) {
      SubmitLived(c, s, t, r);
    } else {
      RouteLived(c, s, t, r);
    }
  }

  lemma OwnedFrom(s: State, s': State, t: Step, r: Id)
    requires OwnedOk(s, r) && Balanced(s, s', t, r) && Lived(s, s', t, r)
    requires (t == Claim(r) ==> StateOf(s, r) == Received && StateOf(s', r) != Received)
    ensures OwnedOk(s', r)
  {
  }

  lemma OwnershipKept(c: Config, s: State, t: Step)
    requires Enabled(c, s, t) && SystemInv(s)
    ensures OwnershipOk(After(c, s, t))
  {
    var s' := After(c, s, t);
    forall r: Id
      ensures OwnedOk(s', r)
    {
      assert OwnedOk(s, r);
      StepBalanced(c, s, t, r);
      StateStep(c, s, t, r);
      OwnedFrom(s, s', t, r);
    }
  }
}
