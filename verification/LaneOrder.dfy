/**
 The order of a lane, in every run: the batches a worker has formed, laid end to end, then the
 request it has still to decide on, then its lane, spell out the order of arrival, with nothing
 missing but requests that were dead when they were dropped.
 */
module LaneOrder {
  import opened Protocol
  import opened Ownership
  import opened Places
  import opened BoundedWork

  datatype Fate = Fate(r: Id, dropped: bool)

  /** What a worker has been given, what it decided about each in turn, and the batches it formed. */
  datatype History = History(arrived: seq<Id>, passed: seq<Fate>, batches: seq<seq<Id>>)

  function Decided(h: History, r: Id, dropped: bool): History {
    h.(passed := h.passed + [Fate(r, dropped)])
  }

  function RecordedAct(a: Act, k: Worker, h: History): History {
    match k.phase
    case Holding(first) =>
      if a.DropFirst? then Decided(h, first, true) else if a.BeginBatch? then Decided(h, first, false) else h
    case Extra(batch, next) =>
      if a.DropExtra? then Decided(h, next, true)
      else if a.Join? then Decided(h, next, false)
      else if a.Defer? then h.(batches := h.batches + [batch])
      else h
    case Forming(batch) => if a.EndBatch? then h.(batches := h.batches + [batch]) else h
    case _ => h
  }

  function Recorded(s: State, t: Step, w: nat, h: History): History {
    if w >= |s.workers| then h
    else if t == Push(w) && s.hand.Some? then h.(arrived := h.arrived + [s.hand.value])
    else if t.Work? && t.w == w then RecordedAct(t.act, s.workers[w], h)
    else h
  }

  ghost function HistoryAt(run: seq<State>, steps: seq<Step>, w: nat, i: nat): History
    requires |run| == |steps| + 1 && i < |run|
  {
    if i == 0 then History([], [], []) else Recorded(run[i - 1], steps[i - 1], w, HistoryAt(run, steps, w, i - 1))
  }

  // ----- the law -----

  function Names(passed: seq<Fate>): seq<Id> {
    if passed == [] then [] else Names(passed[..|passed| - 1]) + [passed[|passed| - 1].r]
  }

  function Batched(passed: seq<Fate>): seq<Id> {
    if passed == [] then []
    else Batched(passed[..|passed| - 1]) + (if passed[|passed| - 1].dropped then [] else [passed[|passed| - 1].r])
  }

  function EndToEnd(batches: seq<seq<Id>>): seq<Id> {
    if batches == [] then [] else EndToEnd(batches[..|batches| - 1]) + batches[|batches| - 1]
  }

  /** Taken from the lane, and neither dropped nor in a batch yet. */
  function Undecided(k: Worker): seq<Id> {
    if k.phase.Holding? then [k.phase.first]
    else if k.phase.Extra? then [k.phase.next]
    else if k.deferred.Some? then [k.deferred.value]
    else []
  }

  function Growing(p: Phase): seq<Id> {
    if p.Forming? || p.Extra? then p.batch else []
  }

  predicate Conserved(k: Worker, h: History) {
    && Names(h.passed) + Undecided(k) + k.lane == h.arrived
    && Batched(h.passed) == EndToEnd(h.batches) + Growing(k.phase)
  }

  predicate OnlyDeadDropped(s: State, h: History) {
    forall i | 0 <= i < |h.passed| && h.passed[i].dropped :: Dead(s, h.passed[i].r)
  }

  predicate BatchesFit(c: Config, size: nat, h: History) {
    forall b | 0 <= b < |h.batches| :: Fits(c, size, h.batches[b])
  }

  // ----- conservation -----

  lemma DecidedLists(h: History, r: Id, dropped: bool)
    ensures Names(Decided(h, r, dropped).passed) == Names(h.passed) + [r]
    ensures Batched(Decided(h, r, dropped).passed) == Batched(h.passed) + (if dropped then [] else [r])
  {
    assert (h.passed + [Fate(r, dropped)])[..|h.passed|] == h.passed;
  }

  lemma EndToEndSnoc(batches: seq<seq<Id>>, batch: seq<Id>)
    ensures EndToEnd(batches + [batch]) == EndToEnd(batches) + batch
  {
    assert (batches + [batch])[..|batches|] == batches;
  }

  lemma TakeConserves(c: Config, s: State, a: Act, k: Worker, h: History)
    requires (a.TakeDeferred? || a.TakeFirst? || a.TakeExtra?) && EnabledAct(c, s, a, k) && DeferredOk(k)
        && Conserved(k, h)
    ensures Conserved(WorkerAfter(c, s, a, k), h)
  {
    var k' := WorkerAfter(c, s, a, k);
    assert Undecided(k') + k'.lane == Undecided(k) + k.lane;
    assert Names(h.passed) + Undecided(k') + k'.lane == Names(h.passed) + (Undecided(k') + k'.lane);
    assert Names(h.passed) + Undecided(k) + k.lane == Names(h.passed) + (Undecided(k) + k.lane);
  }

  predicate Decides(a: Act) {
    a.DropFirst? || a.BeginBatch? || a.DropExtra? || a.Join?
  }

  lemma DecideMoves(c: Config, s: State, a: Act, k: Worker, h: History)
    requires Decides(a) && EnabledAct(c, s, a, k) && DeferredOk(k)
    ensures |Undecided(k)| == 1
    ensures var r, dropped := Undecided(k)[0], a.DropFirst? || a.DropExtra?;
            var k' := WorkerAfter(c, s, a, k);
            && RecordedAct(a, k, h) == Decided(h, r, dropped) && Undecided(k') == [] && k'.lane == k.lane
            && Growing(k'.phase) == Growing(k.phase) + (if dropped then [] else [r])
  {
  }

  lemma DecideLaw(k: Worker, k': Worker, h: History, r: Id, dropped: bool)
    requires Conserved(k, h) && Undecided(k) == [r] && Undecided(k') == [] && k'.lane == k.lane
    requires Growing(k'.phase) == Growing(k.phase) + (if dropped then [] else [r])
    ensures Conserved(k', Decided(h, r, dropped))
  {
    DecidedLists(h, r, dropped);
  }

  lemma DecideConserves(c: Config, s: State, a: Act, k: Worker, h: History)
    requires Decides(a) && EnabledAct(c, s, a, k) && DeferredOk(k) && Conserved(k, h)
    ensures Conserved(WorkerAfter(c, s, a, k), RecordedAct(a, k, h))
  {
    DecideMoves(c, s, a, k, h);
    DecideLaw(k, WorkerAfter(c, s, a, k), h, Undecided(k)[0], a.DropFirst? || a.DropExtra?);
  }

  lemma CloseMoves(c: Config, s: State, a: Act, k: Worker, h: History)
    requires (a.Defer? || a.EndBatch?) && EnabledAct(c, s, a, k) && DeferredOk(k)
    ensures var k' := WorkerAfter(c, s, a, k);
            && RecordedAct(a, k, h) == h.(batches := h.batches + [Growing(k.phase)]) && Undecided(k') == Undecided(k)
            && k'.lane == k.lane && Growing(k'.phase) == []
  {
  }

  lemma CloseLaw(k: Worker, k': Worker, h: History)
    requires Conserved(k, h) && Undecided(k') == Undecided(k) && k'.lane == k.lane && Growing(k'.phase) == []
    ensures Conserved(k', h.(batches := h.batches + [Growing(k.phase)]))
  {
    EndToEndSnoc(h.batches, Growing(k.phase));
  }

  lemma CloseConserves(c: Config, s: State, a: Act, k: Worker, h: History)
    requires (a.Defer? || a.EndBatch?) && EnabledAct(c, s, a, k) && DeferredOk(k) && Conserved(k, h)
    ensures Conserved(WorkerAfter(c, s, a, k), RecordedAct(a, k, h))
  {
    CloseMoves(c, s, a, k, h);
    CloseLaw(k, WorkerAfter(c, s, a, k), h);
  }

  lemma RestConserves(c: Config, s: State, a: Act, k: Worker, h: History)
    requires !Gathers(a) && !a.EndBatch? && EnabledAct(c, s, a, k) && Conserved(k, h)
    ensures Conserved(WorkerAfter(c, s, a, k), RecordedAct(a, k, h))
  {
  }

  lemma ActConserves(c: Config, s: State, a: Act, k: Worker, h: History)
    requires EnabledAct(c, s, a, k) && DeferredOk(k) && Conserved(k, h)
    ensures Conserved(WorkerAfter(c, s, a, k), RecordedAct(a, k, h))
  {
    if a.TakeDeferred? || a.TakeFirst? || a.TakeExtra? {
      TakeConserves(c, s, a, k, h);
    } else if Decides(a) {
      DecideConserves(c, s, a, k, h);
    } else if a.Defer? || a.EndBatch? {
      CloseConserves(c, s, a, k, h);
    } else {
      RestConserves(c, s, a, k, h);
    }
  }

  lemma ActDropsDead(c: Config, s: State, a: Act, k: Worker, h: History)
    requires EnabledAct(c, s, a, k) && OnlyDeadDropped(s, h)
    ensures OnlyDeadDropped(s, RecordedAct(a, k, h))
  {
  }

  lemma ActFits(c: Config, s: State, a: Act, k: Worker, h: History)
    requires EnabledAct(c, s, a, k) && WorkerFits(c, k) && BatchesFit(c, k.limits.batch, h)
    ensures BatchesFit(c, k.limits.batch, RecordedAct(a, k, h))
  {
  }

  predicate InOrder(c: Config, s: State, w: nat, h: History) {
    w < |s.workers| && Conserved(s.workers[w], h) && OnlyDeadDropped(s, h)
        && BatchesFit(c, s.workers[w].limits.batch, h)
  }

  lemma StaysDead(c: Config, s: State, t: Step, h: History)
    requires Enabled(c, s, t) && OnlyDeadDropped(s, h)
    ensures OnlyDeadDropped(After(c, s, t), h)
  {
    forall i | 0 <= i < |h.passed| && h.passed[i].dropped ensures Dead(After(c, s, t), h.passed[i].r) {
      DeathIsFinal(c, s, t, h.passed[i].r);
    }
  }

  lemma PushConserves(k: Worker, h: History, x: Id)
    requires Conserved(k, h)
    ensures Conserved(k.(lane := k.lane + [x]), h.(arrived := h.arrived + [x]))
  {
  }

  lemma WorkerKept(c: Config, s: State, t: Step, w: nat)
    requires Enabled(c, s, t) && w < |s.workers| && t != Push(w) && !(t.Work? && t.w == w)
    ensures w < |After(c, s, t).workers| && After(c, s, t).workers[w] == s.workers[w]
  {
  }

  lemma InOrderKept(c: Config, s: State, t: Step, w: nat, h: History)
    requires Enabled(c, s, t) && SystemInv(s) && InOrder(c, s, w, h) && WorkerFits(c, s.workers[w])
    ensures InOrder(c, After(c, s, t), w, Recorded(s, t, w, h))
  {
    var k := s.workers[w];
    assert WorkerOk(s, k);
    if t == Push(w) {
      PushConserves(k, h, s.hand.value);
      StaysDead(c, s, t, h);
    } else if t.Work? && t.w == w {
      ActConserves(c, s, t.act, k, h);
      ActDropsDead(c, s, t.act, k, h);
      ActFits(c, s, t.act, k, h);
      StaysDead(c, s, t, RecordedAct(t.act, k, h));
    } else {
      WorkerKept(c, s, t, w);
      StaysDead(c, s, t, h);
    }
  }

  lemma FitsAt(c: Config, run: seq<State>, steps: seq<Step>, w: nat, i: nat)
    requires WellConfigured(c) && Protocol.Run(c, run, steps) && i < |run| && w < |c.limits|
    ensures SystemInv(run[i]) && w < |run[i].workers| && WorkerFits(c, run[i].workers[w])
    ensures run[i].workers[w].limits == c.limits[w]
  {
    SingleOwnership(c, run, steps, i);
    FitsInRun(c, run, steps, i);
  }

  lemma InOrderStep(c: Config, run: seq<State>, steps: seq<Step>, w: nat, i: nat, h: History)
    requires WellConfigured(c) && Protocol.Run(c, run, steps) && 0 < i < |run| && w < |c.limits|
    requires InOrder(c, run[i - 1], w, h)
    ensures InOrder(c, run[i], w, Recorded(run[i - 1], steps[i - 1], w, h))
  {
    assert StepAt(c, run, steps, i - 1);
    FitsAt(c, run, steps, w, i - 1);
    InOrderKept(c, run[i - 1], steps[i - 1], w, h);
  }

  lemma {:induction false} InOrderInRun(c: Config, run: seq<State>, steps: seq<Step>, w: nat, i: nat)
    requires WellConfigured(c) && Protocol.Run(c, run, steps) && i < |run| && w < |c.limits|
    ensures InOrder(c, run[i], w, HistoryAt(run, steps, w, i))
  {
    if i > 0 {
      InOrderInRun(c, run, steps, w, i - 1);
      InOrderStep(c, run, steps, w, i, HistoryAt(run, steps, w, i - 1));
    }
  }

  lemma LaneOrderConserved(c: Config, run: seq<State>, steps: seq<Step>, w: nat, i: nat)
    requires WellConfigured(c) && Protocol.Run(c, run, steps) && i < |run| && w < |c.limits|
    ensures InOrder(c, run[i], w, HistoryAt(run, steps, w, i)) && run[i].workers[w].limits == c.limits[w]
  {
    InOrderInRun(c, run, steps, w, i);
    FitsAt(c, run, steps, w, i);
  }
}
