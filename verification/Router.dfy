/**
 Round-robin routing. `Rota` lists the feasible workers in the order in which the cursor will
 reach them; one selection takes its head and moves it to the back.
 */
module Router {
  import opened Types

  datatype ModelSpec = ModelSpec(modelId: string, bytes: nat)

  datatype WorkerSnapshot = WorkerSnapshot(workerId: nat, accepting: bool, budget: nat)

  predicate Feasible(m: ModelSpec, w: WorkerSnapshot) {
    w.accepting && m.bytes <= w.budget
  }

  /** The feasible indices from `lo` up to `hi`, ascending. */
  function Ascending(m: ModelSpec, ws: seq<WorkerSnapshot>, lo: nat, hi: nat): (r: seq<nat>)
    requires lo <= hi <= |ws|
    ensures forall i | 0 <= i < |r| :: lo <= r[i] < hi && Feasible(m, ws[r[i]])
    decreases hi - lo
  {
    if lo == hi then []
    else (if Feasible(m, ws[lo]) then [lo] else []) + Ascending(m, ws, lo + 1, hi)
  }

  function Cursor(next: nat, n: nat): nat {
    if next >= n then 0 else next
  }

  function Rota(m: ModelSpec, ws: seq<WorkerSnapshot>, next: nat): seq<nat> {
    var c := Cursor(next, |ws|);
    Ascending(m, ws, c, |ws|) + Ascending(m, ws, 0, c)
  }

  lemma {:induction false} AscendingSplits(m: ModelSpec, ws: seq<WorkerSnapshot>, lo: nat, mid: nat, hi: nat)
    requires lo <= mid <= hi <= |ws|
    ensures Ascending(m, ws, lo, hi) == Ascending(m, ws, lo, mid) + Ascending(m, ws, mid, hi)
    decreases mid - lo
  {
    if lo < mid {
      AscendingSplits(m, ws, lo + 1, mid, hi);
    }
  }

  lemma {:induction false} AscendingSkips(m: ModelSpec, ws: seq<WorkerSnapshot>, lo: nat, hi: nat)
    requires lo <= hi <= |ws| && forall i | lo <= i < hi :: !Feasible(m, ws[i])
    ensures Ascending(m, ws, lo, hi) == []
    decreases hi - lo
  {
    if lo < hi {
      AscendingSkips(m, ws, lo + 1, hi);
    }
  }

  function Count(s: seq<nat>, x: nat): nat {
    if s == [] then 0 else (if s[0] == x then 1 else 0) + Count(s[1..], x)
  }

  lemma {:induction false} CountConcat(a: seq<nat>, b: seq<nat>, x: nat)
    ensures Count(a + b, x) == Count(a, x) + Count(b, x)
  {
    if a == [] {
      assert a + b == b;
    } else {
      assert (a + b)[1..] == a[1..] + b;
      CountConcat(a[1..], b, x);
    }
  }

  lemma CountCons(h: nat, s: seq<nat>, x: nat)
    ensures Count([h] + s, x) == (if h == x then 1 else 0) + Count(s, x)
  {
    assert ([h] + s)[1..] == s;
  }

  lemma {:induction false} AscendingOnce(m: ModelSpec, ws: seq<WorkerSnapshot>, lo: nat, hi: nat, x: nat)
    requires lo <= hi <= |ws|
    ensures Count(Ascending(m, ws, lo, hi), x) == if lo <= x < hi && Feasible(m, ws[x]) then 1 else 0
    decreases hi - lo
  {
    if lo < hi {
      AscendingOnce(m, ws, lo + 1, hi, x);
      var rest := Ascending(m, ws, lo + 1, hi);
      if Feasible(m, ws[lo]) {
        assert Ascending(m, ws, lo, hi) == [lo] + rest;
        CountCons(lo, rest, x);
      } else {
        assert Ascending(m, ws, lo, hi) == rest;
      }
    }
  }

  /** Every feasible worker is on the rota exactly once. */
  lemma RotaOnce(m: ModelSpec, ws: seq<WorkerSnapshot>, next: nat, x: nat)
    ensures Count(Rota(m, ws, next), x) == if x < |ws| && Feasible(m, ws[x]) then 1 else 0
  {
    var c := Cursor(next, |ws|);
    AscendingOnce(m, ws, c, |ws|, x);
    AscendingOnce(m, ws, 0, c, x);
    CountConcat(Ascending(m, ws, c, |ws|), Ascending(m, ws, 0, c), x);
  }

  lemma Wraps(a: nat, n: nat)
    requires a < 2 * n
    ensures a % n == if a < n then a else a - n
  {
    if a >= n {
      assert a == (a - n) + 1 * n;
    }
  }

  /** The first feasible index from the cursor on, going round once. */
  ghost predicate IsPick(m: ModelSpec, ws: seq<WorkerSnapshot>, next: nat, x: nat) {
    var c := Cursor(next, |ws|);
    && x < |ws| && Feasible(m, ws[x])
    && if x >= c then forall i | c <= i < x :: !Feasible(m, ws[i])
       else (forall i | c <= i < |ws| :: !Feasible(m, ws[i])) && (forall i | 0 <= i < x :: !Feasible(m, ws[i]))
  }

  lemma TurnedRota(m: ModelSpec, ws: seq<WorkerSnapshot>, x: nat)
    requires x < |ws| && Feasible(m, ws[x])
    ensures Ascending(m, ws, x, |ws|) == [x] + Ascending(m, ws, x + 1, |ws|)
    ensures Rota(m, ws, if x + 1 == |ws| then 0 else x + 1) == Ascending(m, ws, x + 1, |ws|) + Ascending(m, ws, 0, x)
        + [x]
  {
    var n := |ws|;
    AscendingSplits(m, ws, 0, x, x + 1);
    assert Ascending(m, ws, x, x + 1) == [x] + Ascending(m, ws, x + 1, x + 1);
    AscendingSplits(m, ws, 0, x + 1, n);
  }

  /** The rota starts at the pick: what lies ahead of it, then what lies behind. */
  lemma RotaFromPick(m: ModelSpec, ws: seq<WorkerSnapshot>, next: nat, x: nat)
    requires IsPick(m, ws, next, x)
    ensures Rota(m, ws, next) == Ascending(m, ws, x, |ws|) + Ascending(m, ws, 0, x)
  {
    var c, n := Cursor(next, |ws|), |ws|;
    if x >= c {
      AscendingSkips(m, ws, c, x);
      AscendingSplits(m, ws, c, x, n);
      AscendingSplits(m, ws, 0, c, x);
    } else {
      AscendingSkips(m, ws, c, n);
      AscendingSkips(m, ws, 0, x);
      AscendingSplits(m, ws, x, c, n);
      AscendingSplits(m, ws, 0, x, c);
    }
  }

  /** Taking the pick and moving the cursor behind it turns the rota by one. */
  lemma PickTurnsRota(m: ModelSpec, ws: seq<WorkerSnapshot>, next: nat, x: nat)
    requires IsPick(m, ws, next, x)
    ensures var rota := Rota(m, ws, next);
            rota != [] && rota[0] == x && Rota(m, ws, (x + 1) % |ws|) == rota[1..] + [x]
  {
    var rota, a, b := Rota(m, ws, next), Ascending(m, ws, x + 1, |ws|), Ascending(m, ws, 0, x);
    RotaFromPick(m, ws, next, x);
    TurnedRota(m, ws, x);
    Wraps(x + 1, |ws|);
    assert rota == [x] + (a + b);
    assert rota[1..] == a + b;
  }

  /** A history of selections: each is the pick at its cursor, which then moves behind it. */
  ghost predicate Selections(m: ModelSpec, ws: seq<WorkerSnapshot>, next: nat, picks: seq<nat>)
    decreases picks
  {
    picks == [] || (IsPick(m, ws, next, picks[0]) && Selections(m, ws, (picks[0] + 1) % |ws|, picks[1..]))
  }

  lemma {:induction false} SelectionsFollowRota(m: ModelSpec, ws: seq<WorkerSnapshot>, next: nat, picks: seq<nat>)
    requires Selections(m, ws, next, picks) && |picks| <= |Rota(m, ws, next)|
    ensures picks == Rota(m, ws, next)[..|picks|]
    decreases picks
  {
    if picks != [] {
      var rota, x := Rota(m, ws, next), picks[0];
      PickTurnsRota(m, ws, next, x);
      var turned := rota[1..] + [x];
      SelectionsFollowRota(m, ws, (x + 1) % |ws|, picks[1..]);
      assert turned[..|picks| - 1] == rota[1..|picks|];
      assert picks == [x] + picks[1..] == [rota[0]] + rota[1..|picks|];
    }
  }

  /** The length of the rota is the number of feasible workers, wherever the cursor stands. */
  lemma RotaLength(m: ModelSpec, ws: seq<WorkerSnapshot>, next: nat)
    ensures |Rota(m, ws, next)| == |Ascending(m, ws, 0, |ws|)|
  {
    AscendingSplits(m, ws, 0, Cursor(next, |ws|), |ws|);
  }

  /** Fairness: for a fixed list of workers, as many consecutive selections as there are feasible
      workers return each of them exactly once, wherever the cursor stood. */
  lemma RoundRobinFair(m: ModelSpec, ws: seq<WorkerSnapshot>, next: nat, picks: seq<nat>, x: nat)
    requires Selections(m, ws, next, picks) && |picks| == |Ascending(m, ws, 0, |ws|)|
    ensures Count(picks, x) == if x < |ws| && Feasible(m, ws[x]) then 1 else 0
  {
    RotaLength(m, ws, next);
    SelectionsFollowRota(m, ws, next, picks);
    assert Rota(m, ws, next)[..|picks|] == Rota(m, ws, next);
    RotaOnce(m, ws, next, x);
  }

  class RoundRobinRouter {
    var nextIndex: nat

    constructor ()
      ensures nextIndex == 0
    {
      nextIndex := 0;
    }

    /** `NoFeasibleWorker` exactly when nobody is feasible; otherwise the pick. */
    method Select(m: ModelSpec, ws: seq<WorkerSnapshot>) returns (status: ErrorCode, workerId: nat, ghost index: nat)
      modifies this
      ensures status == NoError <==> exists i :: 0 <= i < |ws| && ws[i].accepting && m.bytes <= ws[i].budget
      ensures status == NoError ==> index < |ws| && ws[index].accepting && m.bytes <= ws[index].budget
      ensures status == NoError ==> IsPick(m, ws, old(nextIndex), index) && workerId == ws[index].workerId
      ensures status == NoError ==> nextIndex == (index + 1) % |ws|
      ensures status != NoError ==> status == NoFeasibleWorker
      ensures status != NoError ==> nextIndex == if ws == [] then old(nextIndex) else Cursor(old(nextIndex), |ws|)
    {
      if ws == [] {
        return NoFeasibleWorker, 0, 0;
      }
      var n := |ws|;
      if nextIndex >= n {
        nextIndex := 0;
      }
      for offset := 0 to n
        invariant nextIndex == Cursor(old(nextIndex), n) < n
        invariant forall i | nextIndex <= i < n && i < nextIndex + offset :: !Feasible(m, ws[i])
        invariant forall i | 0 <= i < nextIndex + offset - n :: !Feasible(m, ws[i])
      {
        var at := (nextIndex + offset) % n;
        Wraps(nextIndex + offset, n);
        if Feasible(m, ws[at]) {
          nextIndex := (at + 1) % n;
          return NoError, ws[at].workerId, at;
        }
      }
      return NoFeasibleWorker, 0, 0;
    }
  }
}
