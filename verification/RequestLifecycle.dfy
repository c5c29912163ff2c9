/**
 The life of one request: its states, the operations that settle it, and the notices its
 observers get. Every operation decides under the request's lock, so an interleaving of calls is
 a sequence of operations; callbacks run after the lock is dropped, so `sent` is what has been
 handed to them, delivered or still pending, in no promised order.
 */
module RequestLifecycle {
  import opened Types

  datatype RequestState = Received | Queued | Running | Completed | Rejected | Failed | Cancelled | TimedOut

  predicate Terminal(s: RequestState) {
    s in {Completed, Rejected, Failed, RequestState.Cancelled, RequestState.TimedOut}
  }

  predicate ValidTransition(from: RequestState, to: RequestState) {
    match from
    case Received => to in {Queued, Rejected, RequestState.Cancelled, RequestState.TimedOut}
    case Queued => to in {Running, Rejected, RequestState.Cancelled, RequestState.TimedOut}
    case Running => to in {Completed, Failed, RequestState.Cancelled, RequestState.TimedOut}
    case _ => false
  }

  datatype Snapshot = Snapshot(state: RequestState, result: Option<InferenceResult>)

  datatype Notice = Notice(observer: nat, snapshot: Snapshot)

  /** Observers are numbered in the order of their registration. */
  datatype Request = Request(
    state: RequestState, result: Option<InferenceResult>, observers: seq<nat>, registrations: nat, sent: seq<Notice>)

  const INITIAL := Request(Received, None, [], 0, [])

  datatype Op =
    | TransitionTo(next: RequestState)
    | TryComplete(result: InferenceResult)
    | TryFail(error: ErrorCode)
    | TryReject(error: ErrorCode)
    | TryCancel
    | TryTimeout
    | AddObserver

  function Notify(observers: seq<nat>, snapshot: Snapshot): (notices: seq<Notice>)
    ensures |notices| == |observers| && forall i | 0 <= i < |notices| :: notices[i] == Notice(observers[i], snapshot)
  {
    seq(|observers|, i requires 0 <= i < |observers| => Notice(observers[i], snapshot))
  }

  /** A terminal snapshot takes the observer list with it; any other leaves it. */
  function Announce(r: Request): Request {
    r.(observers := if Terminal(r.state) then [] else r.observers,
       sent := r.sent + Notify(r.observers, Snapshot(r.state, r.result)))
  }

  /** The shape of every `try_` operation. */
  function Settle(r: Request, to: RequestState, result: InferenceResult): Request {
    if ValidTransition(r.state, to) then Announce(r.(state := to, result := Some(result))) else r
  }

  function Apply(r: Request, op: Op): Request {
    match op
    case TransitionTo(next) => if ValidTransition(r.state, next) then Announce(r.(state := next)) else r
    case TryComplete(result) => Settle(r, Completed, result)
    case TryFail(error) => Settle(r, Failed, Failure(error))
    case TryReject(error) => Settle(r, Rejected, Failure(error))
    case TryCancel => Settle(r, RequestState.Cancelled, Failure(ErrorCode.Cancelled))
    case TryTimeout => Settle(r, RequestState.TimedOut, Failure(ErrorCode.TimedOut))
    case AddObserver =>
      var o := r.registrations;
      if Terminal(r.state) then r.(registrations := o + 1, sent := r.sent + [Notice(o, Snapshot(r.state, r.result))])
      else r.(registrations := o + 1, observers := r.observers + [o])
  }

  function Run(ops: seq<Op>): Request {
    if ops == [] then INITIAL else Apply(Run(ops[..|ops| - 1]), ops[|ops| - 1])
  }

  // ----- exactly-once terminal notice -----

  /** How many terminal snapshots went to an observer. */
  function TerminalNotices(sent: seq<Notice>, o: nat): nat {
    if sent == [] then 0
    else
      var n := sent[|sent| - 1];
      TerminalNotices(sent[..|sent| - 1], o) + (if n.observer == o && Terminal(n.snapshot.state) then 1 else 0)
  }

  lemma {:induction false} TerminalNoticesConcat(a: seq<Notice>, b: seq<Notice>, o: nat)
    ensures TerminalNotices(a + b, o) == TerminalNotices(a, o) + TerminalNotices(b, o)
  {
    if b == [] {
      assert a + b == a;
    } else {
      assert (a + b)[..|a + b| - 1] == a + b[..|b| - 1];
      TerminalNoticesConcat(a, b[..|b| - 1], o);
    }
  }

  /** Announcing once to the observers below `n`, in order, gives each exactly one notice. */
  lemma {:induction false} NotifyCounts(n: nat, snapshot: Snapshot, o: nat)
    ensures TerminalNotices(Notify(FirstN(n), snapshot), o) == if o < n && Terminal(snapshot.state) then 1 else 0
  {
    if n > 0 {
      NotifyCounts(n - 1, snapshot, o);
      assert Notify(FirstN(n), snapshot)[..n - 1] == Notify(FirstN(n - 1), snapshot);
    }
  }

  function FirstN(n: nat): seq<nat> {
    seq(n, i => i)
  }

  ghost predicate Inv(r: Request) {
    && r.observers == (if Terminal(r.state) then [] else FirstN(r.registrations))
    && (forall o: nat :: TerminalNotices(r.sent, o) == if o < r.registrations && Terminal(r.state) then 1 else 0)
    && (forall i | 0 <= i < |r.sent| && Terminal(r.sent[i].snapshot.state) ::
        r.sent[i].snapshot == Snapshot(r.state, r.result))
  }

  lemma AnnounceInv(r: Request, state: RequestState, result: Option<InferenceResult>)
    requires Inv(r) && !Terminal(r.state)
    ensures Inv(Announce(r.(state := state, result := result)))
  {
    var r' := Announce(r.(state := state, result := result));
    var snapshot := Snapshot(state, result);
    forall o: nat ensures TerminalNotices(r'.sent, o) == if o < r.registrations && Terminal(state) then 1 else 0 {
      NotifyCounts(r.registrations, snapshot, o);
      TerminalNoticesConcat(r.sent, Notify(r.observers, snapshot), o);
    }
    forall i | 0 <= i < |r.sent| ensures !Terminal(r.sent[i].snapshot.state) {
      NoTerminalNotice(r, i);
    }
  }

  lemma {:induction false} CountedAt(sent: seq<Notice>, i: nat)
    requires i < |sent| && Terminal(sent[i].snapshot.state)
    ensures TerminalNotices(sent, sent[i].observer) >= 1
  {
    if i < |sent| - 1 {
      CountedAt(sent[..|sent| - 1], i);
    }
  }

  lemma NoTerminalNotice(r: Request, i: nat)
    requires Inv(r) && !Terminal(r.state) && i < |r.sent|
    ensures !Terminal(r.sent[i].snapshot.state)
  {
    if Terminal(r.sent[i].snapshot.state) {
      CountedAt(r.sent, i);
      assert false;
    }
  }

  lemma ApplyInv(r: Request, op: Op)
    requires Inv(r)
    ensures Inv(Apply(r, op))
  {
    var r' := Apply(r, op);
    if op.AddObserver? {
      if Terminal(r.state) {
        var notice := Notice(r.registrations, Snapshot(r.state, r.result));
        forall o: nat ensures TerminalNotices(r'.sent, o) == if o < r'.registrations then 1 else 0 {
          TerminalNoticesConcat(r.sent, [notice], o);
        }
      } else {
        assert r'.observers == FirstN(r'.registrations);
      }
    } else if r' != r {
      AnnounceInv(r, r'.state, r'.result);
    }
  }

  lemma {:induction false} RunInv(ops: seq<Op>)
    ensures Inv(Run(ops))
  {
    if ops != [] {
      RunInv(ops[..|ops| - 1]);
      ApplyInv(Run(ops[..|ops| - 1]), ops[|ops| - 1]);
    }
  }

  /** Whatever was called in whatever order: once the request is terminal, every observer ever
      registered has exactly one terminal snapshot, and it carries the final state and result. */
  lemma ExactlyOnceTerminalNotice(ops: seq<Op>, o: nat)
    requires Terminal(Run(ops).state) && o < Run(ops).registrations
    ensures TerminalNotices(Run(ops).sent, o) == 1
    ensures forall n | n in Run(ops).sent && Terminal(n.snapshot.state) ::
        n.snapshot == Snapshot(Run(ops).state, Run(ops).result)
  {
    RunInv(ops);
  }

  /** Before that, nobody has been told of an end. */
  lemma NoEarlyTerminalNotice(ops: seq<Op>, o: nat)
    requires !Terminal(Run(ops).state)
    ensures TerminalNotices(Run(ops).sent, o) == 0
  {
    RunInv(ops);
  }

  /** First terminal wins: no later call changes the state or the result. */
  lemma {:induction false} FirstTerminalWins(ops: seq<Op>, later: seq<Op>)
    requires Terminal(Run(ops).state)
    ensures Run(ops + later).state == Run(ops).state && Run(ops + later).result == Run(ops).result
  {
    if later == [] {
      assert ops + later == ops;
    } else {
      var all, n := ops + later, |later| - 1;
      assert all[..|all| - 1] == ops + later[..n];
      FirstTerminalWins(ops, later[..n]);
    }
  }

  /** A call that finds the request in state `before` and ends it: its state is then `state`, with this result. */
  predicate EndsAs(op: Op, before: RequestState, state: RequestState, result: Option<InferenceResult>) {
    match op
    case TryComplete(r) => before == Running && state == Completed && result == Some(r)
    case TryFail(e) => before == Running && state == Failed && result == Some(InferenceResult(e, None))
    case TryReject(e) =>
      before in {Received, Queued} && state == Rejected && result == Some(InferenceResult(e, None))
    case TryCancel =>
      && before in {Received, Queued, Running} && state == RequestState.Cancelled
      && result == Some(InferenceResult(ErrorCode.Cancelled, None))
    case TryTimeout =>
      && before in {Received, Queued, Running} && state == RequestState.TimedOut
      && result == Some(InferenceResult(ErrorCode.TimedOut, None))
    case TransitionTo(next) =>
      && state == next && result == None
      && (|| (before in {Received, Queued} && next == Rejected)
          || (before == Running && next in {Completed, Failed})
          || (before in {Received, Queued, Running} && next in {RequestState.Cancelled, RequestState.TimedOut}))
    case AddObserver => false
  }

  /** Without ending it, a call can only move a request on to the queue, or from there to running. */
  predicate MovesOn(op: Op, before: RequestState, state: RequestState) {
    || (op == TransitionTo(Queued) && before == Received && state == Queued)
    || (op == TransitionTo(Running) && before == Queued && state == Running)
  }

  /** A call ends a request, moves it on, or leaves it; and it leaves it only if it can do neither. */
  lemma OneCall(r: Request, op: Op)
    requires !Terminal(r.state) && r.result == None
    ensures var r' := Apply(r, op);
            || (Terminal(r'.state) && EndsAs(op, r.state, r'.state, r'.result))
            || (!Terminal(r'.state) && r'.result == None && (MovesOn(op, r.state, r'.state) || r'.state == r.state))
    ensures Apply(r, op).state == r.state ==>
              forall s, result :: !EndsAs(op, r.state, s, result) && !MovesOn(op, r.state, s)
  {
  }

  /** Until it ends, a request has no result. */
  lemma {:induction false} NoResultYet(ops: seq<Op>)
    requires !Terminal(Run(ops).state)
    ensures Run(ops).result == None
  {
    if ops != [] {
      NoResultYet(ops[..|ops| - 1]);
      OneCall(Run(ops[..|ops| - 1]), ops[|ops| - 1]);
    }
  }

  /** Every request that has ended was ended by one call, and has the state and the result of that call. */
  lemma {:induction false} EndedByOneCall(ops: seq<Op>) returns (i: nat)
    requires Terminal(Run(ops).state)
    ensures i < |ops| && !Terminal(Run(ops[..i]).state)
    ensures EndsAs(ops[i], Run(ops[..i]).state, Run(ops).state, Run(ops).result)
  {
    i := |ops| - 1;
    var earlier := ops[..i];
    if Terminal(Run(earlier).state) {
      i := EndedByOneCall(earlier);
      assert earlier[..i] == ops[..i];
    } else {
      NoResultYet(earlier);
      OneCall(Run(earlier), ops[i]);
    }
  }

  /** And the first call that can end it does. */
  lemma CanEndWillEnd(ops: seq<Op>, op: Op, state: RequestState, result: Option<InferenceResult>)
    requires EndsAs(op, Run(ops).state, state, result)
    ensures Run(ops + [op]).state == state && Run(ops + [op]).result == result
  {
    assert (ops + [op])[..|ops|] == ops;
    NoResultYet(ops);
  }

  /** The states only move forward, so a request is claimed for the queue at most once. */
  function Rank(s: RequestState): nat {
    match s
    case Received => 0
    case Queued => 1
    case Running => 2
    case _ => 3
  }

  lemma {:induction false} RankMonotone(ops: seq<Op>, later: seq<Op>)
    ensures Rank(Run(ops).state) <= Rank(Run(ops + later).state)
  {
    if later == [] {
      assert ops + later == ops;
    } else {
      var all, n := ops + later, |later| - 1;
      assert all[..|all| - 1] == ops + later[..n];
      RankMonotone(ops, later[..n]);
    }
  }

  lemma ClaimedOnce(ops: seq<Op>, i: nat, j: nat)
    requires i < j <= |ops| && ops[i] == TransitionTo(Queued) && Run(ops[..i]).state == Received
    ensures Run(ops[..j]).state != Received
  {
    assert ops[..i + 1][..i] == ops[..i];
    RankMonotone(ops[..i + 1], ops[i + 1..j]);
    assert ops[..i + 1] + ops[i + 1..j] == ops[..j];
  }

  // ----- the object -----

  class InferenceRequest {
    var state: RequestState
    var result: Option<InferenceResult>
    var observers: seq<nat>
    var registrations: nat
    ghost var sent: seq<Notice>

    ghost function Abs(): Request reads this {
      Request(state, result, observers, registrations, sent)
    }

    constructor ()
      ensures Abs() == INITIAL
    {
      state, result, observers, registrations, sent := Received, None, [], 0, [];
    }

    method Transition(next: RequestState) returns (status: ErrorCode)
      modifies this
      ensures Abs() == Apply(old(Abs()), TransitionTo(next))
      ensures status == if ValidTransition(old(state), next) then NoError else InvalidStateTransition
    {
      if !ValidTransition(state, next) {
        return InvalidStateTransition;
      }
      state := next;
      sent := sent + Notify(observers, Snapshot(state, result));
      if Terminal(state) {
        observers := [];
      }
      return NoError;
    }

    method TrySettle(next: RequestState, with: InferenceResult) returns (won: bool)
      modifies this
      ensures Abs() == if Terminal(next) then Settle(old(Abs()), next, with) else old(Abs())
      ensures won == (Terminal(next) && ValidTransition(old(state), next))
    {
      if !Terminal(next) || !ValidTransition(state, next) {
        return false;
      }
      state, result := next, Some(with);
      sent := sent + Notify(observers, Snapshot(state, result));
      observers := [];
      return true;
    }

    method Register() returns (o: nat)
      modifies this
      ensures Abs() == Apply(old(Abs()), AddObserver) && o == old(registrations)
    {
      o := registrations;
      registrations := registrations + 1;
      if Terminal(state) {
        sent := sent + [Notice(o, Snapshot(state, result))];
      } else {
        observers := observers + [o];
      }
    }
  }
}
