/**
 Members of a batch are not isolated from each other: a run in which one request is cancelled
 between its probe and its start, and another, which its client leaves alone, fails with it.
 */
module Siblings {
  import opened Types
  import opened RequestLifecycle
  import opened Protocol
  import opened Endings

  const PAIR: Config := Config(true, 2, [Limits(2, 2)], r => "m")

  /** A run that has reached this state of the worker, in which nobody ends request 0 or calls the backend. */
  ghost predicate Reached(run: seq<State>, steps: seq<Step>, k: Worker) {
    && Protocol.Run(PAIR, run, steps) && run[|run| - 1].workers == [k] && run[|run| - 1].calls == []
    && forall n | 0 <= n < |steps| :: !Ends(steps[n], 0)
  }

  function Last(run: seq<State>): State
    requires run != []
  {
    run[|run| - 1]
  }

  lemma Then(run: seq<State>, steps: seq<Step>, k: Worker, t: Step) returns (run': seq<State>, steps': seq<Step>)
    requires Reached(run, steps, k) && Enabled(PAIR, Last(run), t) && !Ends(t, 0)
    requires |After(PAIR, Last(run), t).workers| == 1 && After(PAIR, Last(run), t).calls == []
    ensures run' != [] && Last(run') == After(PAIR, Last(run), t) && Reached(run', steps', Last(run').workers[0])
  {
    run', steps' := ExtendedBy(PAIR, run, steps, t);
    assert Last(run').workers == [Last(run').workers[0]];
  }

  predicate FrontEmpty(s: State) {
    s.hand.None? && s.scheduled == [] && s.admitting == multiset{} && !s.closed && !s.routingEnded
  }

  /** One request goes all the way from its client to the lane. */
  lemma Delivered(run: seq<State>, steps: seq<Step>, k: Worker, r: Id) returns (run': seq<State>, steps': seq<Step>)
    requires Reached(run, steps, k) && FrontEmpty(Last(run)) && StateOf(Last(run), r) == Received
    requires !k.closed && |k.lane| < k.limits.queue
    ensures Reached(run', steps', k.(lane := k.lane + [r])) && FrontEmpty(Last(run'))
    ensures Last(run').lives == Last(run).lives[r := Life(Queued, None)]
  {
    run', steps' := Then(run, steps, k, Claim(r));
    run', steps' := Then(run', steps', k, Accept(r));
    run', steps' := Then(run', steps', k, Take(0));
    run', steps' := Then(run', steps', k, Push(0));
  }

  /** Both requests wait in the lane. */
  lemma BothInLane() returns (run: seq<State>, steps: seq<Step>)
    ensures Reached(run, steps, Fresh(Limits(2, 2)).(lane := [0, 1]))
    ensures StateOf(Last(run), 0) == Queued && StateOf(Last(run), 1) == Queued
  {
    run, steps := [Initial(PAIR)], [];
    assert Last(run).workers == [Fresh(Limits(2, 2))];
    run, steps := Delivered(run, steps, Fresh(Limits(2, 2)), 0);
    assert [] + [0] == [0];
    run, steps := Delivered(run, steps, Fresh(Limits(2, 2)).(lane := [0]), 1);
    assert [0] + [1] == [0, 1];
  }

  /** The first is in the worker's hands, and the second taken after it. */
  lemma BothInHand() returns (run: seq<State>, steps: seq<Step>)
    ensures Reached(run, steps, Fresh(Limits(2, 2)).(phase := Extra([0], 1)))
    ensures StateOf(Last(run), 0) == Queued && StateOf(Last(run), 1) == Queued
  {
    run, steps := BothInLane();
    var k := Fresh(Limits(2, 2)).(lane := [0, 1]);
    assert [0, 1][1..] == [1] && [1][1..] == [];
    run, steps := Then(run, steps, k, Work(0, TakeFirst));
    run, steps := Then(run, steps, Last(run).workers[0], Work(0, BeginBatch));
    run, steps := Then(run, steps, Last(run).workers[0], Work(0, TakeExtra));
  }

  /** Both are in one batch. */
  lemma BothFormed() returns (run: seq<State>, steps: seq<Step>)
    ensures Reached(run, steps, Fresh(Limits(2, 2)).(phase := Formed([0, 1])))
    ensures StateOf(Last(run), 0) == Queued && StateOf(Last(run), 1) == Queued
  {
    run, steps := BothInHand();
    assert [0] + [1] == [0, 1];
    run, steps := Then(run, steps, Last(run).workers[0], Work(0, Join));
    run, steps := Then(run, steps, Last(run).workers[0], Work(0, EndBatch));
  }

  /** The first is started, the second probed and then cancelled. */
  lemma SecondCancelled() returns (run: seq<State>, steps: seq<Step>)
    ensures Reached(run, steps, Fresh(Limits(2, 2)).(phase := Starting([0, 1], 1)))
    ensures StateOf(Last(run), 0) == Running && StateOf(Last(run), 1) == RequestState.Cancelled
  {
    run, steps := BothFormed();
    var k := Fresh(Limits(2, 2)).(phase := Formed([0, 1]));
    assert Kept([0, 1], [true, true]) == [0, 1];
    run, steps := Then(run, steps, k, Work(0, Begin([true, true])));
    run, steps := Then(run, steps, Last(run).workers[0], Work(0, StartOne));
    run, steps := Then(run, steps, Last(run).workers[0], Die(1, RequestState.Cancelled, ErrorCode.Cancelled));
  }

  /** Its start fails the batch, and the first with it. */
  lemma FirstFails() returns (run: seq<State>, steps: seq<Step>)
    ensures Reached(run, steps, Fresh(Limits(2, 2)).(phase := FailingAll([0, 1], 1, InvalidStateTransition)))
    ensures FailedBy(Last(run), 0, InvalidStateTransition)
    ensures StateOf(Last(run), 1) == RequestState.Cancelled
  {
    run, steps := SecondCancelled();
    var k := Fresh(Limits(2, 2)).(phase := Starting([0, 1], 1));
    run, steps := Then(run, steps, k, Work(0, StartOne));
    run, steps := Then(run, steps, k.(phase := FailingAll([0, 1], 0, InvalidStateTransition)), Work(0, FailOne));
  }

  /** To the end of the batch: request 0 has failed, though its client never ended it and the backend was
      never called. */
  lemma CancelFailsSibling() returns (run: seq<State>, steps: seq<Step>)
    ensures Protocol.Run(PAIR, run, steps) && (forall n | 0 <= n < |steps| :: !Ends(steps[n], 0))
    ensures FailedBy(Last(run), 0, InvalidStateTransition)
    ensures StateOf(Last(run), 1) == RequestState.Cancelled
    ensures Last(run).workers == [Fresh(Limits(2, 2))] && Last(run).calls == []
  {
    run, steps := FirstFails();
    var k := Fresh(Limits(2, 2)).(phase := FailingAll([0, 1], 1, InvalidStateTransition));
    run, steps := Then(run, steps, k, Work(0, FailOne));
    run, steps := Then(run, steps, k.(phase := FailingAll([0, 1], 2, InvalidStateTransition)), Work(0, Finish));
  }
}
