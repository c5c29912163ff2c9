/**
 First in, first out, from the scheduler to the batches: with the first-in-first-out scheduler the
 batches of a worker, laid end to end, keep the order in which their requests were accepted, in
 every run.
 */
module FifoOrder {
  import opened Types
  import opened Protocol
  import opened LaneOrder

  /** The elements of `a` stand in `b` in the same order, at the places `at`. */
  predicate Within(a: seq<Id>, b: seq<Id>, at: seq<nat>) {
    && |at| == |a| && (forall i | 0 <= i < |at| :: at[i] < |b| && b[at[i]] == a[i])
    && (forall i, j | 0 <= i < j < |at| :: at[i] < at[j])
  }

  lemma WithinLonger(a: seq<Id>, b: seq<Id>, a': seq<Id>, b': seq<Id>, at: seq<nat>)
    requires Within(a, b, at) && a' <= a && b <= b'
    ensures Within(a', b', at[..|a'|])
  {
  }

  lemma WithinSnoc(a: seq<Id>, b: seq<Id>, at: seq<nat>, n: nat)
    requires Within(a, b, at) && n < |b| && (at != [] ==> at[|at| - 1] < n)
    ensures Within(a + [b[n]], b, at + [n])
  {
  }

  lemma WithinNext(a: seq<Id>, b: seq<Id>, at: seq<nat>, r: Id, kept: bool) returns (at': seq<nat>)
    requires Within(a, b, at)
    ensures Within(a + (if kept then [r] else []), b + [r], at')
  {
    assert at[..|a|] == at;
    WithinLonger(a, b, a, b + [r], at);
    at' := at;
    if kept {
      WithinSnoc(a, b + [r], at, |b|);
      at' := at + [|b|];
    }
  }

  function AcceptedBy(t: Step): seq<Id> {
    if t.Accept? then [t.r] else []
  }

  function TakenBy(s: State, t: Step): seq<Id> {
    if t.Take? && t.k < |s.scheduled| then [s.scheduled[t.k]] else []
  }

  /** All the scheduler has accepted, in order. */
  ghost function Accepted(steps: seq<Step>, i: nat): seq<Id>
    requires i <= |steps|
  {
    if i == 0 then [] else Accepted(steps, i - 1) + AcceptedBy(steps[i - 1])
  }

  /** All it has handed to the routing thread, in order. */
  ghost function Taken(run: seq<State>, steps: seq<Step>, i: nat): seq<Id>
    requires |run| == |steps| + 1 && i < |run|
  {
    if i == 0 then [] else Taken(run, steps, i - 1) + TakenBy(run[i - 1], steps[i - 1])
  }

  // ----- the scheduler -----

  lemma QueueStep(c: Config, s: State, t: Step)
    requires Enabled(c, s, t) && c.fifo
    ensures After(c, s, t).scheduled == if t.Take? then s.scheduled[1..] else s.scheduled + AcceptedBy(t)
  {
  }

  lemma QueueAt(c: Config, run: seq<State>, steps: seq<Step>, n: nat)
    requires Protocol.Run(c, run, steps) && c.fifo && n < |steps|
    ensures TakenBy(run[n], steps[n]) + run[n + 1].scheduled == run[n].scheduled + AcceptedBy(steps[n])
  {
    assert StepAt(c, run, steps, n);
    QueueStep(c, run[n], steps[n]);
  }

  lemma Chained(taken: seq<Id>, more: seq<Id>, q': seq<Id>, q: seq<Id>, accepted: seq<Id>)
    requires more + q' == q + accepted
    ensures (taken + more) + q' == (taken + q) + accepted
  {
    assert (taken + more) + q' == taken + (more + q');
    assert taken + (q + accepted) == (taken + q) + accepted;
  }

  /** What it handed out, and then what it holds, is what it has accepted. */
  lemma {:induction false} FifoConserves(c: Config, run: seq<State>, steps: seq<Step>, i: nat)
    requires Protocol.Run(c, run, steps) && c.fifo && i < |run|
    ensures Taken(run, steps, i) + run[i].scheduled == Accepted(steps, i)
  {
    if i > 0 {
      var s, t := run[i - 1], steps[i - 1];
      FifoConserves(c, run, steps, i - 1);
      QueueAt(c, run, steps, i - 1);
      Chained(Taken(run, steps, i - 1), TakenBy(s, t), run[i].scheduled, s.scheduled, AcceptedBy(t));
    }
  }

  // ----- the routing thread -----

  /** What has arrived in a lane was taken before, in this order; and what is in hand was taken last. */
  predicate Routed(arrived: seq<Id>, taken: seq<Id>, hand: Option<Id>, at: seq<nat>) {
    && Within(arrived, taken, at)
    && match hand
       case Some(r) => taken != [] && taken[|taken| - 1] == r && (at != [] ==> at[|at| - 1] < |taken| - 1)
       case None => true
  }

  /** A request is taken in hand, or nothing happens to the hand, or it is emptied, perhaps into the lane. */
  predicate Routes(hand: Option<Id>, hand': Option<Id>, more: seq<Id>, pushed: seq<Id>) {
    || (|more| == 1 && hand' == Some(more[0]) && pushed == [])
    || (more == [] && hand' == hand && pushed == [])
    || (more == [] && hand' == None && (pushed == [] || (hand.Some? && pushed == [hand.value])))
  }

  lemma RoutedOn(arrived: seq<Id>, taken: seq<Id>, hand: Option<Id>, at: seq<nat>,
                 hand': Option<Id>, more: seq<Id>, pushed: seq<Id>)
    returns (at': seq<nat>)
    requires Routed(arrived, taken, hand, at) && Routes(hand, hand', more, pushed)
    ensures Routed(arrived + pushed, taken + more, hand', at')
  {
    if pushed == [] {
      assert arrived + pushed == arrived && at[..|arrived|] == at;
      WithinLonger(arrived, taken, arrived, taken + more, at);
      at' := at;
    } else {
      assert taken + more == taken;
      WithinSnoc(arrived, taken, at, |taken| - 1);
      at' := at + [|taken| - 1];
    }
  }

  function PushedBy(s: State, t: Step, w: nat): seq<Id> {
    if w < |s.workers| && t == Push(w) && s.hand.Some? then [s.hand.value] else []
  }

  lemma HandStep(c: Config, s: State, t: Step, w: nat)
    requires Enabled(c, s, t)
    ensures Routes(s.hand, After(c, s, t).hand, TakenBy(s, t), PushedBy(s, t, w))
  {
  }

  lemma HandAt(c: Config, run: seq<State>, steps: seq<Step>, n: nat, w: nat)
    requires Protocol.Run(c, run, steps) && n < |steps|
    ensures Routes(run[n].hand, run[n + 1].hand, TakenBy(run[n], steps[n]), PushedBy(run[n], steps[n], w))
  {
    assert StepAt(c, run, steps, n);
    HandStep(c, run[n], steps[n], w);
  }

  lemma RoutedAt(c: Config, run: seq<State>, steps: seq<Step>, n: nat, w: nat, at: seq<nat>) returns (at': seq<nat>)
    requires Protocol.Run(c, run, steps) && n < |steps|
    requires Routed(HistoryAt(run, steps, w, n).arrived, Taken(run, steps, n), run[n].hand, at)
    ensures Routed(HistoryAt(run, steps, w, n + 1).arrived, Taken(run, steps, n + 1), run[n + 1].hand, at')
  {
    var s, t, arrived := run[n], steps[n], HistoryAt(run, steps, w, n).arrived;
    HandAt(c, run, steps, n, w);
    at' := RoutedOn(arrived, Taken(run, steps, n), s.hand, at, run[n + 1].hand, TakenBy(s, t), PushedBy(s, t, w));
    assert HistoryAt(run, steps, w, n + 1).arrived == arrived + PushedBy(s, t, w);
  }

  lemma NothingRouted(c: Config, run: seq<State>, steps: seq<Step>, w: nat) returns (at: seq<nat>)
    requires Protocol.Run(c, run, steps)
    ensures Routed(HistoryAt(run, steps, w, 0).arrived, Taken(run, steps, 0), run[0].hand, at)
  {
    at := [];
  }

  lemma {:induction false} RoutedInOrder(c: Config, run: seq<State>, steps: seq<Step>, i: nat, w: nat)
    returns (at: seq<nat>)
    requires Protocol.Run(c, run, steps) && i < |run|
    ensures Routed(HistoryAt(run, steps, w, i).arrived, Taken(run, steps, i), run[i].hand, at)
  {
    if i == 0 {
      at := NothingRouted(c, run, steps, w);
    } else {
      at := RoutedInOrder(c, run, steps, i - 1, w);
      at := RoutedAt(c, run, steps, i - 1, w, at);
    }
  }

  // ----- from end to end -----

  lemma WithinWithin(a: seq<Id>, b: seq<Id>, d: seq<Id>, at: seq<nat>, at': seq<nat>) returns (both: seq<nat>)
    requires Within(a, b, at) && Within(b, d, at')
    ensures Within(a, d, both)
  {
    both := seq(|at|, i requires 0 <= i < |at| => at'[at[i]]);
  }

  lemma {:induction false} BatchedWithin(passed: seq<Fate>) returns (at: seq<nat>)
    ensures Within(Batched(passed), Names(passed), at)
  {
    at := [];
    if passed != [] {
      var n := |passed| - 1;
      at := BatchedWithin(passed[..n]);
      at := WithinNext(Batched(passed[..n]), Names(passed[..n]), at, passed[n].r, !passed[n].dropped);
    }
  }

  /** The batches of a worker keep the order of acceptance. */
  lemma FirstInFirstOut(c: Config, run: seq<State>, steps: seq<Step>, i: nat, w: nat) returns (at: seq<nat>)
    requires WellConfigured(c) && c.fifo && Protocol.Run(c, run, steps) && i < |run| && w < |c.limits|
    ensures Within(EndToEnd(HistoryAt(run, steps, w, i).batches), Accepted(steps, i), at)
  {
    var h := HistoryAt(run, steps, w, i);
    LaneOrderConserved(c, run, steps, w, i);
    FifoConserves(c, run, steps, i);
    var routed := RoutedInOrder(c, run, steps, i, w);
    var batched := BatchedWithin(h.passed);
    assert Names(h.passed) <= h.arrived;
    WithinLonger(Batched(h.passed), Names(h.passed), EndToEnd(h.batches), h.arrived, batched);
    WithinLonger(h.arrived, Taken(run, steps, i), h.arrived, Accepted(steps, i), routed);
    batched, routed := batched[..|EndToEnd(h.batches)|], routed[..|h.arrived|];
    at := WithinWithin(EndToEnd(h.batches), h.arrived, Accepted(steps, i), batched, routed);
  }
}
