/**
 The workload-aware scheduler as it works in place: one deque per model, sequence numbers and
 bypass counts, a selection that scans the deques in hash-map order and calls itself again when
 its choice dies under it. Every request may die at any probe, and probes are the only points at
 which a death can be seen. The class is proved to take only the steps of `SchedulerSpec`.
 */
module WorkloadAwareScheduler {
  import opened Types
  import opened SchedulerSpec

  type Deques = map<string, seq<Entry>>

  /** The deque of model `m`: entries of that model, oldest first, all among `queued`. */
  ghost predicate QueueOk(q: seq<Entry>, m: string, queued: map<nat, Entry>) {
    && (forall i | 0 <= i < |q| :: q[i].sequence in queued && queued[q[i].sequence] == q[i] && q[i].request.model == m)
    && (forall i, j | 0 <= i < j < |q| :: q[i].sequence < q[j].sequence)
  }

  ghost predicate Holds(byModel: Deques, e: Entry) {
    e.request.model in byModel && e in byModel[e.request.model]
  }

  /** The deques hold exactly the entries `queued`. */
  ghost predicate Represents(byModel: Deques, queued: map<nat, Entry>) {
    && (forall m | m in byModel :: QueueOk(byModel[m], m, queued))
    && (forall k | k in queued :: queued[k].sequence == k)
    && (forall k {:trigger Holds(byModel, queued[k])} | k in queued :: Holds(byModel, queued[k]))
  }

  function Without<T>(q: seq<T>, i: nat): (r: seq<T>)
    requires i < |q|
    ensures |r| == |q| - 1 && forall x | 0 <= x < |r| :: r[x] == q[if x < i then x else x + 1]
  {
    q[..i] + q[i + 1..]
  }

  lemma WithoutKeeps<T>(q: seq<T>, i: nat, e: T)
    requires i < |q| && e in q && e != q[i]
    ensures e in Without(q, i)
  {
    var x :| 0 <= x < |q| && q[x] == e;
    assert Without(q, i)[if x < i then x else x - 1] == e;
  }

  lemma QueueErased(q: seq<Entry>, m: string, queued: map<nat, Entry>, i: nat)
    requires QueueOk(q, m, queued) && i < |q|
    ensures QueueOk(Without(q, i), m, queued - {q[i].sequence})
  {
  }

  lemma QueueOther(q: seq<Entry>, m: string, queued: map<nat, Entry>, k: nat)
    requires QueueOk(q, m, queued) && k in queued && queued[k].request.model != m
    ensures QueueOk(q, m, queued - {k})
  {
  }

  lemma ErasedRepresents(byModel: Deques, queued: map<nat, Entry>, m: string, i: nat)
    requires Represents(byModel, queued) && m in byModel && i < |byModel[m]|
    ensures Represents(byModel[m := Without(byModel[m], i)], queued - {byModel[m][i].sequence})
  {
    var e := byModel[m][i];
    var byModel' := byModel[m := Without(byModel[m], i)];
    var queued' := queued - {e.sequence};
    forall n | n in byModel' ensures QueueOk(byModel'[n], n, queued') {
      if n == m {
        QueueErased(byModel[m], m, queued, i);
      } else {
        QueueOther(byModel[n], n, queued, e.sequence);
      }
    }
    forall k | k in queued' ensures Holds(byModel', queued'[k]) {
      assert Holds(byModel, queued[k]);
      if queued[k].request.model == m {
        WithoutKeeps(byModel[m], i, queued[k]);
      }
    }
  }

  // ----- probes -----

  function Trues(b: seq<bool>): nat {
    if b == [] then 0 else Trues(b[..|b| - 1]) + (if b[|b| - 1] then 1 else 0)
  }

  function FirstTrue(b: seq<bool>): (i: nat)
    requires Trues(b) > 0
    ensures i < |b| && b[i] && forall j | 0 <= j < i :: !b[j]
  {
    var n := |b| - 1;
    if Trues(b[..n]) > 0 then FirstTrue(b[..n])
    else NoneTrue(b[..n]); n
  }

  lemma {:induction false} NoneTrue(b: seq<bool>)
    requires Trues(b) == 0
    ensures forall j | 0 <= j < |b| :: !b[j]
  {
    if b != [] {
      NoneTrue(b[..|b| - 1]);
    }
  }

  lemma TruesSnoc(b: seq<bool>, x: bool)
    ensures Trues(b + [x]) == Trues(b) + (if x then 1 else 0)
    ensures Trues(b) > 0 ==> FirstTrue(b + [x]) == FirstTrue(b)
    ensures Trues(b) == 0 && x ==> FirstTrue(b + [x]) == |b|
  {
    assert (b + [x])[..|b|] == b;
  }

  /** Probed one after the other: who was dead before is found dead, and who is found dead is dead after. */
  ghost predicate Probed(q: seq<Entry>, probes: seq<bool>, before: set<nat>, after: set<nat>) {
    && |probes| == |q|
    && forall i | 0 <= i < |q| :: if probes[i] then q[i].request.id !in before else q[i].request.id in after
  }

  lemma ProbedNext(q: seq<Entry>, probes: seq<bool>, alive: bool, before: set<nat>, dead: set<nat>, dead': set<nat>)
    requires |probes| < |q| && Probed(q[..|probes|], probes, before, dead) && before <= dead <= dead'
    requires alive <==> q[|probes|].request.id !in dead'
    ensures Probed(q[..|probes| + 1], probes + [alive], before, dead')
  {
    var q' := q[..|probes| + 1];
    forall i | 0 <= i < |q'| ensures
        if (probes + [alive])[i] then q'[i].request.id !in before else q'[i].request.id in dead' {
      assert i < |probes| ==> q'[i] == q[..|probes|][i];
    }
  }

  /** All found dead are dead; and all alive in the end were found alive. */
  lemma FoundAll(q: seq<Entry>, probes: seq<bool>, before: set<nat>, dead: set<nat>)
    requires Probed(q, probes, before, dead)
    ensures Trues(probes) == 0 ==> forall x | 0 <= x < |q| :: q[x].request.id in dead
    ensures AliveFirst(q, |q|, dead) ==> Trues(probes) == |q| && (q != [] ==> FirstTrue(probes) == 0)
  {
    if Trues(probes) == 0 {
      NoneTrue(probes);
    }
    if AliveFirst(q, |q|, dead) {
      AllTrue(probes);
    }
  }

  /** Fewer were found alive in the one deque than in the other, or as many and none older. */
  ghost predicate Outdone(q: seq<Entry>, probes: seq<bool>, q': seq<Entry>, probes': seq<bool>) {
    && |probes| == |q| && |probes'| == |q'|
    && (|| Trues(probes) < Trues(probes')
        || Trues(probes) == 0
        || (Trues(probes) == Trues(probes') && q'[FirstTrue(probes')].sequence <= q[FirstTrue(probes)].sequence))
  }

  lemma OutdoneTwice(q: seq<Entry>, probes: seq<bool>, q': seq<Entry>, probes': seq<bool>,
                     q'': seq<Entry>, probes'': seq<bool>)
    requires Outdone(q, probes, q', probes') && Outdone(q', probes', q'', probes'') && Trues(probes') > 0
    ensures Outdone(q, probes, q'', probes'')
  {
  }

  /** The best group so far, none at size zero. */
  datatype Best = Best(model: string, size: nat, oldest: nat) {
    predicate BeatenBy(m: string, n: nat, first: nat) {
      size == 0 || n > size || (n == size && (first < oldest || (first == oldest && StringLess(m, model))))
    }
  }

  ghost predicate IsBest(byModel: Deques, best: Best, probes: map<string, seq<bool>>)
    requires probes.Keys <= byModel.Keys
  {
    if best.size == 0 then forall m | m in probes :: Trues(probes[m]) == 0
    else
      && best.model in probes && |probes[best.model]| == |byModel[best.model]|
      && best.size == Trues(probes[best.model])
      && best.oldest == byModel[best.model][FirstTrue(probes[best.model])].sequence
      && forall m | m in probes :: Outdone(byModel[m], probes[m], byModel[best.model], probes[best.model])
  }

  /** What the probes of the visited deques have found, and the best of them. */
  ghost predicate Found(byModel: Deques, best: Best, probes: map<string, seq<bool>>, before: set<nat>, dead: set<nat>) {
    && probes.Keys <= byModel.Keys && IsBest(byModel, best, probes)
    && forall m | m in probes :: Probed(byModel[m], probes[m], before, dead)
  }

  lemma BestKept(byModel: Deques, best: Best, probes: map<string, seq<bool>>, m: string, probe: seq<bool>)
    requires probes.Keys <= byModel.Keys && IsBest(byModel, best, probes) && m in byModel && m !in probes
    requires |probe| == |byModel[m]|
    requires Trues(probe) == 0 || !best.BeatenBy(m, Trues(probe), byModel[m][FirstTrue(probe)].sequence)
    ensures IsBest(byModel, best, probes[m := probe])
  {
  }

  lemma BestBeaten(byModel: Deques, best: Best, probes: map<string, seq<bool>>, m: string, probe: seq<bool>)
    requires probes.Keys <= byModel.Keys && IsBest(byModel, best, probes) && m in byModel && m !in probes
    requires forall x | x in probes :: |probes[x]| == |byModel[x]|
    requires |probe| == |byModel[m]| && Trues(probe) > 0
    requires best.BeatenBy(m, Trues(probe), byModel[m][FirstTrue(probe)].sequence)
    ensures IsBest(byModel, Best(m, Trues(probe), byModel[m][FirstTrue(probe)].sequence), probes[m := probe])
  {
    forall x | x in probes ensures Outdone(byModel[x], probes[x], byModel[m], probe) {
      if best.size > 0 {
        OutdoneTwice(byModel[x], probes[x], byModel[best.model], probes[best.model], byModel[m], probe);
      }
    }
  }

  lemma {:induction false} AllTrue(b: seq<bool>)
    requires forall i | 0 <= i < |b| :: b[i]
    ensures Trues(b) == |b| && (b != [] ==> FirstTrue(b) == 0)
  {
    if b != [] {
      AllTrue(b[..|b| - 1]);
    }
  }

  class WorkloadAwareScheduler {
    const capacity: nat
    const maxBypass: nat
    var byModel: Deques
    var size: nat
    var nextSequence: nat
    var closed: bool
    var reordered: nat
    var promotions: nat
    /** The requests that are terminal by now; the rest of the system adds to it at will. */
    var dead: set<nat>
    ghost var queued: map<nat, Entry>
    ghost var dispatched: nat
    ghost var stamps: map<nat, nat>

    ghost function L(): Limits { Limits(capacity, maxBypass) }

    ghost function Abs(): State reads this {
      State(queued, dead, nextSequence, dispatched, stamps, reordered, promotions)
    }

    ghost predicate Valid() reads this`byModel, this`queued, this`size, this`nextSequence {
      Represents(byModel, queued) && size == |queued| && capacity >= 1 && maxBypass >= 1 && forall k | k in queued ::
          k < nextSequence
    }

    constructor (capacity: nat, maxBypass: nat)
      requires capacity != 0 && maxBypass >= 1
      ensures Valid() && Abs() == INITIAL && Inv(L(), Abs()) && L() == Limits(capacity, maxBypass) && !closed
    {
      this.capacity, this.maxBypass := capacity, maxBypass;
      byModel, size, nextSequence, closed, reordered, promotions := map[], 0, 0, false, 0, 0;
      dead, queued, dispatched, stamps := {}, map[], 0, map[];
    }

    /** Probing a request: anything may have died since the last probe. */
    method IsDead(r: Request) returns (b: bool)
      modifies this`dead
      ensures old(dead) <= dead && (b <==> r.id in dead)
    {
      var died: set<nat> := *;
      dead := dead + died;
      b := r.id in dead;
    }

    method Close()
      modifies this`closed
      ensures closed
    {
      closed := true;
    }

    method PushBack(r: Request)
      requires Valid() && size < capacity
      modifies this
      ensures Valid() && closed == old(closed) && EnqueueStep(L(), old(Abs()), Abs(), r)
    {
      var e := Entry(r, nextSequence, 0);
      AppendedRepresents(byModel, queued, e);
      var q := if r.model in byModel then byModel[r.model] else [];
      byModel := byModel[r.model := q + [e]];
      queued := queued[nextSequence := e];
      stamps := stamps[nextSequence := dispatched];
      nextSequence := nextSequence + 1;
      size := size + 1;
    }

    method Enqueue(r: Request) returns (status: ErrorCode)
      requires Valid() && Inv(L(), Abs())
      modifies this
      ensures Valid() && Inv(L(), Abs()) && closed == old(closed)
      ensures status == if old(closed) then QueueClosed else if old(size) >= capacity then QueueFull else NoError
      ensures if status == NoError then EnqueueStep(L(), old(Abs()), Abs(), r)
              else Abs() == old(Abs()) && byModel == old(byModel)
    {
      if closed {
        return QueueClosed;
      }
      if size >= capacity {
        return QueueFull;
      }
      ghost var before := Abs();
      PushBack(r);
      EnqueueInv(L(), before, Abs(), r);
      return NoError;
    }

    /** Erase one entry, with the source's guard on the counter. */
    method EraseAt(m: string, i: nat)
      requires Valid() && m in byModel && i < |byModel[m]|
      modifies this`byModel, this`size, this`queued
      ensures Valid() && size == old(size) - 1
      ensures byModel == old(byModel)[m := Without(old(byModel[m]), i)]
      ensures queued == old(queued) - {old(byModel[m][i].sequence)}
    {
      var q := byModel[m];
      ErasedRepresents(byModel, queued, m, i);
      assert queued.Keys == (queued - {q[i].sequence}).Keys + {q[i].sequence};
      byModel := byModel[m := Without(q, i)];
      queued := queued - {q[i].sequence};
      if size > 0 {
        size := size - 1;
      }
    }

    /** Probe one entry and erase it if it is dead. */
    method ProbeAndErase(m: string, i: nat) returns (erased: bool)
      requires Valid() && m in byModel && i < |byModel[m]|
      modifies this`byModel, this`size, this`queued, this`dead
      ensures Valid() && Pruned(old(Abs()), Abs())
      ensures m in byModel && ChangedOnly(old(byModel), byModel, m)
      ensures byModel[m] == if erased then Without(old(byModel[m]), i) else old(byModel[m])
      ensures size == old(size) - (if erased then 1 else 0)
      ensures erased <==> old(byModel[m][i].request.id) in dead
    {
      erased := IsDead(byModel[m][i].request);
      if erased {
        EraseAt(m, i);
      }
    }

    /** Remove the deque of a model once it is empty. */
    method DropIfEmpty(m: string)
      requires Valid() && m in byModel
      modifies this`byModel
      ensures Valid() && byModel == if old(byModel[m]) == [] then old(byModel) - {m} else old(byModel)
    {
      if byModel[m] == [] {
        DroppedRepresents(byModel, queued, m);
        byModel := byModel - {m};
      }
    }

    /** Inside the deque of `m`: the first `i` entries were alive when the pruning began at `s`. */
    ghost predicate Pruning(s: State, deques: Deques, m: string, i: nat) reads this {
      && Valid() && Pruned(s, Abs()) && m in byModel && ChangedOnly(deques, byModel, m)
      && AliveFirst(byModel[m], i, s.dead)
    }

    method PruneAt(ghost s: State, ghost deques: Deques, m: string, i: nat) returns (next: nat)
      requires Pruning(s, deques, m, i) && i < |byModel[m]|
      modifies this`byModel, this`size, this`queued, this`dead
      ensures Pruning(s, deques, m, next) && |byModel[m]| - next < |old(byModel[m])| - i
    {
      ghost var s1, q := Abs(), byModel[m];
      var erased := ProbeAndErase(m, i);
      PrunedTwice(s, s1, Abs());
      AliveNext(q, i, erased, s.dead);
      next := if erased then i else i + 1;
    }

    method PruneQueue(m: string)
      requires Valid() && m in byModel
      modifies this`byModel, this`size, this`queued, this`dead
      ensures m in byModel && Pruning(old(Abs()), old(byModel), m, |byModel[m]|)
    {
      ghost var s, deques := Abs(), byModel;
      var i: nat := 0;
      while i < |byModel[m]|
        invariant Pruning(s, deques, m, i)
        decreases |byModel[m]| - i
      {
        i := PruneAt(s, deques, m, i);
      }
    }

    /** Every deque but those of `todo` has been pruned. */
    ghost predicate PrunedBut(s: State, todo: set<string>) reads this {
      && Valid() && Pruned(s, Abs()) && todo <= byModel.Keys
      && forall n | n in byModel && n !in todo :: AliveFirst(byModel[n], |byModel[n]|, s.dead)
    }

    method PruneModel(ghost s: State, m: string, ghost todo: set<string>)
      requires PrunedBut(s, todo) && m in todo
      modifies this`byModel, this`size, this`queued, this`dead
      ensures PrunedBut(s, todo - {m})
    {
      ghost var s1 := Abs();
      PruneQueue(m);
      PrunedTwice(s, s1, Abs());
      DropIfEmpty(m);
    }

    /** Erase every entry found dead; what is kept was alive when the pruning began. */
    method Prune()
      requires Valid()
      modifies this`byModel, this`size, this`queued, this`dead
      ensures Valid() && Pruned(old(Abs()), Abs()) && AllAlive(queued, old(dead))
    {
      ghost var s := Abs();
      var models := byModel.Keys;
      while models != {}
        invariant PrunedBut(s, models)
        decreases models
      {
        var m :| m in models;
        PruneModel(s, m, models);
        models := models - {m};
      }
      forall k | k in queued ensures queued[k].request.id !in s.dead {
        assert Holds(byModel, queued[k]);
      }
    }

    // ----- the three scans of a select; they only probe -----

    /** The smallest sequence number among the deque fronts found alive. */
    method OldestFront() returns (oldest: Option<nat>)
      requires Valid()
      modifies this`dead
      ensures old(dead) <= dead
      ensures AllAlive(queued, dead) ==> forall k | k in queued :: oldest.Some? && oldest.value <= k
      ensures oldest.Some? ==> oldest.value in queued
    {
      oldest := None;
      var models := byModel.Keys;
      while models != {}
        invariant old(dead) <= dead && models <= byModel.Keys
        invariant oldest.Some? ==> oldest.value in queued
        invariant AllAlive(queued, dead) ==>
                    forall m | m in byModel && m !in models && byModel[m] != [] ::
                        oldest.Some? && oldest.value <= byModel[m][0].sequence
        decreases models
      {
        var m :| m in models;
        var q := byModel[m];
        assert QueueOk(q, m, queued);
        if q != [] {
          var d := IsDead(q[0].request);
          if !d && (oldest.None? || q[0].sequence < oldest.value) {
            oldest := Some(q[0].sequence);
          }
        }
        models := models - {m};
      }
      if AllAlive(queued, dead) {
        forall k | k in queued ensures oldest.Some? && oldest.value <= k {
          assert Holds(byModel, queued[k]);
          var m := queued[k].request.model;
          assert QueueOk(byModel[m], m, queued);
        }
      }
    }

    /** The best starved entry so far beats the first `n` entries of `q` that are still alive. */
    ghost predicate Beats(best: Option<nat>, q: seq<Entry>, n: nat) reads this {
      n <= |q| && forall x | 0 <= x < n && q[x].bypass >= maxBypass && q[x].request.id !in dead ::
          best.Some? && best.value <= q[x].sequence
    }

    ghost predicate Points(best: Option<nat>, m: string, i: nat, deadBefore: set<nat>) reads this {
      best.Some? ==>
        && m in byModel && i < |byModel[m]| && byModel[m][i].sequence == best.value
        && byModel[m][i].bypass >= maxBypass && byModel[m][i].request.id !in deadBefore
    }

    method StarvedInQueue(m: string, best0: Option<nat>, model0: string, index0: nat, ghost deadBefore: set<nat>)
      returns (best: Option<nat>, model: string, index: nat)
      requires Valid() && m in byModel && deadBefore <= dead && Points(best0, model0, index0, deadBefore)
      modifies this`dead
      ensures old(dead) <= dead && Points(best, model, index, deadBefore) && Beats(best, byModel[m], |byModel[m]|)
      ensures best0.Some? ==> best.Some? && best.value <= best0.value
    {
      best, model, index := best0, model0, index0;
      var q := byModel[m];
      for i := 0 to |q|
        invariant old(dead) <= dead && Points(best, model, index, deadBefore) && Beats(best, q, i)
        invariant best0.Some? ==> best.Some? && best.value <= best0.value
      {
        var d := IsDead(q[i].request);
        if !d && q[i].bypass >= maxBypass && (best.None? || q[i].sequence < best.value) {
          best, model, index := Some(q[i].sequence), m, i;
        }
      }
    }

    /** The oldest entry found alive with its bypass count at the limit. */
    method OldestStarved() returns (best: Option<nat>, model: string, index: nat)
      requires Valid()
      modifies this`dead
      ensures old(dead) <= dead && Points(best, model, index, old(dead))
      ensures forall k | k in queued && queued[k].bypass >= maxBypass && queued[k].request.id !in dead ::
          best.Some? && best.value <= k
    {
      best, model, index := None, "", 0;
      var models := byModel.Keys;
      while models != {}
        invariant old(dead) <= dead && models <= byModel.Keys && Points(best, model, index, old(dead))
        invariant forall m | m in byModel && m !in models :: Beats(best, byModel[m], |byModel[m]|)
        decreases models
      {
        var m :| m in models;
        best, model, index := StarvedInQueue(m, best, model, index, old(dead));
        models := models - {m};
      }
      forall k | k in queued && queued[k].bypass >= maxBypass && queued[k].request.id !in dead
          ensures best.Some? && best.value <= k {
        assert Holds(byModel, queued[k]);
        assert Beats(best, byModel[queued[k].request.model], |byModel[queued[k].request.model]|);
      }
    }

    /** How many entries of a deque are found alive, each at its own probe, and the oldest of them. */
    method CountLive(q: seq<Entry>) returns (n: nat, oldest: Option<nat>, ghost probes: seq<bool>)
      requires forall i, j | 0 <= i < j < |q| :: q[i].sequence < q[j].sequence
      modifies this`dead
      ensures old(dead) <= dead && Probed(q, probes, old(dead), dead) && n == Trues(probes)
      ensures oldest == if n > 0 then Some(q[FirstTrue(probes)].sequence) else None
      ensures n > 0 ==> q != []
      ensures n == 0 ==> forall x | 0 <= x < |q| :: q[x].request.id in dead
      ensures AliveFirst(q, |q|, dead) && q != [] ==> n == |q| && oldest == Some(q[0].sequence)
    {
      n, oldest, probes := 0, None, [];
      for i := 0 to |q|
        invariant old(dead) <= dead && Probed(q[..i], probes, old(dead), dead) && n == Trues(probes)
        invariant oldest == if n > 0 then Some(q[FirstTrue(probes)].sequence) else None
      {
        ghost var was := dead;
        var d := IsDead(q[i].request);
        ProbedNext(q, probes, !d, old(dead), was, dead);
        TruesSnoc(probes, !d);
        if !d {
          n := n + 1;
          oldest := if oldest.Some? && oldest.value <= q[i].sequence then oldest else Some(q[i].sequence);
        }
        probes := probes + [!d];
      }
      assert q[..|q|] == q;
      FoundAll(q, probes, old(dead), dead);
    }

    /** With everything alive, the deque of `model` is at least as good as that of `m`. */
    ghost predicate NoWorse(model: string, m: string) reads this {
      && model in byModel && m in byModel && byModel[model] != []
      && (byModel[m] != [] ==>
            |byModel[m]| < |byModel[model]| || (|byModel[m]| == |byModel[model]|
                && byModel[model][0].sequence <= byModel[m][0].sequence))
    }

    lemma AllFoundDead(probes: map<string, seq<bool>>, before: set<nat>)
      requires Valid() && probes.Keys == byModel.Keys
      requires forall m | m in byModel :: Probed(byModel[m], probes[m], before, dead) && Trues(probes[m]) == 0
      ensures forall k | k in queued :: queued[k].request.id in dead
    {
      forall k | k in queued ensures queued[k].request.id in dead {
        assert Holds(byModel, queued[k]);
        NoneTrue(probes[queued[k].request.model]);
      }
    }

    lemma AllFoundAlive(model: string, m: string, probes: map<string, seq<bool>>, before: set<nat>)
      requires Valid() && AllAlive(queued, dead) && model in byModel && m in byModel && probes.Keys == byModel.Keys
      requires Probed(byModel[model], probes[model], before, dead) && Probed(byModel[m], probes[m], before, dead)
      requires byModel[model] != [] && Outdone(byModel[m], probes[m], byModel[model], probes[model])
      ensures NoWorse(model, m)
    {
      assert QueueOk(byModel[m], m, queued) && QueueOk(byModel[model], model, queued);
      AllTrue(probes[m]);
      AllTrue(probes[model]);
    }

    /** Visits one deque, and takes it if it beats the best so far. */
    method VisitGroup(m: string, best: Best, ghost probes: map<string, seq<bool>>, ghost before: set<nat>)
      returns (best': Best, ghost probe: seq<bool>)
      requires Valid() && m in byModel && before <= dead && m !in probes && Found(byModel, best, probes, before, dead)
      modifies this`dead
      ensures old(dead) <= dead && Found(byModel, best', probes[m := probe], before, dead)
    {
      assert QueueOk(byModel[m], m, queued);
      var n, first;
      n, first, probe := CountLive(byModel[m]);
      if n > 0 && best.BeatenBy(m, n, first.value) {
        BestBeaten(byModel, best, probes, m, probe);
        best' := Best(m, n, first.value);
      } else {
        BestKept(byModel, best, probes, m, probe);
        best' := best;
      }
    }

    /** The model with the most entries found alive; a tie goes to the older front, then to the smaller id. */
    method LargestGroup() returns (found: bool, model: string, ghost probes: map<string, seq<bool>>)
      requires Valid()
      modifies this`dead
      ensures old(dead) <= dead
      ensures found ==> model in byModel && byModel[model] != []
      ensures !found ==> forall k | k in queued :: queued[k].request.id in dead
      ensures AllAlive(queued, dead) && found ==> forall m | m in byModel :: NoWorse(model, m)
      ensures probes.Keys == byModel.Keys && forall m | m in byModel :: Probed(byModel[m], probes[m], old(dead), dead)
      ensures found <==> exists m :: m in byModel && Trues(probes[m]) > 0
      ensures found ==> forall m | m in byModel :: Outdone(byModel[m], probes[m], byModel[model], probes[model])
    {
      var best := Best("", 0, 0);
      probes := map[];
      var models := byModel.Keys;
      while models != {}
        invariant old(dead) <= dead && models <= byModel.Keys && probes.Keys == byModel.Keys - models
        invariant Found(byModel, best, probes, old(dead), dead)
        decreases models
      {
        var m :| m in models;
        ghost var probe;
        best, probe := VisitGroup(m, best, probes, old(dead));
        probes := probes[m := probe];
        models := models - {m};
      }
      found, model := best.size > 0, best.model;
      if !found {
        AllFoundDead(probes, old(dead));
      } else if AllAlive(queued, dead) {
        forall m | m in byModel ensures NoWorse(model, m) {
          AllFoundAlive(model, m, probes, old(dead));
        }
      }
    }

    // ----- taking the choice out -----

    /** From `index` on, the deque of `m` starts at the first survivor of entry `c`. */
    ghost predicate Skipping(s: State, c: nat, m: string, index: nat) reads this {
      && Valid() && Pruned(s, Abs()) && m in byModel && index <= |byModel[m]|
      && (forall x | 0 <= x < index :: byModel[m][x].sequence < c)
      && (forall x | index <= x < |byModel[m]| :: byModel[m][x].sequence >= c)
      && (AllAlive(s.queued, dead) ==> queued == s.queued)
    }

    method SkipAt(ghost s: State, ghost c: nat, m: string, index: nat) returns (erased: bool)
      requires Skipping(s, c, m, index) && index < |byModel[m]|
      modifies this`byModel, this`size, this`queued, this`dead
      ensures Skipping(s, c, m, index) && size == old(size) - (if erased then 1 else 0)
      ensures |byModel[m]| == old(|byModel[m]|) - (if erased then 1 else 0)
      ensures !erased ==> byModel[m][index].request.id !in old(dead)
    {
      ghost var s1 := Abs();
      assert QueueOk(byModel[m], m, queued);
      erased := ProbeAndErase(m, index);
      PrunedTwice(s, s1, Abs());
    }

    /** Drop dead entries at the chosen index. */
    method SkipDead(ghost s: State, ghost c: nat, m: string, index: nat)
      requires Skipping(s, c, m, index) && index < |byModel[m]|
      modifies this`byModel, this`size, this`queued, this`dead
      ensures Skipping(s, c, m, index) && size <= old(size)
      ensures index < |byModel[m]| ==> byModel[m][index].request.id !in s.dead
      ensures index >= |byModel[m]| ==> size < old(size)
    {
      while index < |byModel[m]|
        invariant Skipping(s, c, m, index) && size <= old(size) && (index >= |byModel[m]| ==> size < old(size))
        decreases |byModel[m]|
      {
        var erased := SkipAt(s, c, m, index);
        if !erased {
          break;
        }
      }
    }

    // ----- counting the dispatch against everyone left -----

    /** Count one deque; `u` is the same entries by sequence number. */
    method BumpDeque(q: seq<Entry>) returns (r: seq<Entry>, ghost u: map<nat, Entry>)
      requires forall i, j | 0 <= i < j < |q| :: q[i].sequence < q[j].sequence
      modifies this`dead
      ensures old(dead) <= dead && Listed(r, u) && |r| == |q|
      ensures forall x | 0 <= x < |q| :: PassedOver(q[x], r[x], dead)
    {
      r, u := [], map[];
      for i := 0 to |q|
        invariant old(dead) <= dead && Listed(r, u) && |r| == i
        invariant forall x | 0 <= x < i :: PassedOver(q[x], r[x], dead)
        invariant forall x | i <= x < |q| :: q[x].sequence !in u
      {
        var d := IsDead(q[i].request);
        var e := if d then q[i] else q[i].(bypass := q[i].bypass + 1);
        ListedSnoc(r, u, e);
        r := r + [e];
        u := u[e.sequence := e];
      }
    }

    /** Every entry left, except those of the models `todo`, has been counted against. */
    ghost predicate BumpedBut(s: State, todo: set<string>) reads this {
      && Valid() && s.dead <= dead && Abs() == s.(queued := queued, dead := dead)
      && todo <= byModel.Keys && Counted(s.queued, queued, todo, dead)
    }

    method BumpModel(ghost s: State, ghost todo: set<string>, m: string)
      requires BumpedBut(s, todo) && m in todo
      modifies this`byModel, this`queued, this`dead
      ensures BumpedBut(s, todo - {m})
    {
      assert QueueOk(byModel[m], m, queued);
      ghost var q := byModel[m];
      ghost var u;
      var r;
      r, u := BumpDeque(byModel[m]);
      ReplacedRepresents(byModel, queued, m, r, u, dead);
      CountedNext(s.queued, queued, todo, m, u, dead);
      byModel := byModel[m := r];
      queued := queued + u;
    }

    /** Every entry left and found alive has been passed over once more. */
    method BumpAll()
      requires Valid()
      modifies this`byModel, this`queued, this`dead
      ensures Valid() && old(dead) <= dead && queued.Keys == old(queued.Keys)
      ensures Abs() == old(Abs()).(queued := queued, dead := dead) && Bumped(old(queued), queued, dead)
    {
      ghost var s := Abs();
      var models := byModel.Keys;
      forall k | k in queued ensures queued[k].request.model in models {
        assert Holds(byModel, queued[k]);
      }
      while models != {}
        invariant BumpedBut(s, models)
        decreases models
      {
        var m :| m in models;
        BumpModel(s, models, m);
        models := models - {m};
      }
    }

    // ----- the selection -----

    /** Starvation first, then the largest group; only probes. */
    method Choose() returns (found: bool, starved: bool, model: string, index: nat)
      requires Valid()
      modifies this`dead
      ensures old(dead) <= dead
      ensures !found ==> forall k | k in queued :: queued[k].request.id in dead
      ensures found ==> model in byModel && index < |byModel[model]| && (index > 0 ==> starved)
                        && Chosen(L(), old(Abs()), dead, starved, byModel[model][index].sequence)
    {
      ghost var s := Abs();
      var best;
      best, model, index := OldestStarved();
      starved, found := best.Some?, best.Some?;
      if starved {
        forall k | k in s.queued && s.queued[k].bypass >= maxBypass && s.queued[k].request.id !in dead
            ensures best.value <= k {
          assert k in queued;
        }
        ChosenStarved(L(), s, dead, best.value);
      } else {
        index := 0;
        ghost var probes;
        found, model, probes := LargestGroup();
        if found {
          assert QueueOk(byModel[model], model, queued);
          ChosenGroup(L(), s, dead, byModel, model);
        }
      }
    }

    /** Take the entry at the chosen index out of its deque. */
    method TakeOut(m: string, i: nat) returns (e: Entry)
      requires Valid() && m in byModel && i < |byModel[m]|
      modifies this`byModel, this`size, this`queued
      ensures Valid() && size == old(size) - 1 && e == old(byModel[m][i]) && e.sequence in old(queued)
      ensures old(queued)[e.sequence] == e && queued == old(queued) - {e.sequence}
    {
      assert QueueOk(byModel[m], m, queued);
      e := byModel[m][i];
      EraseAt(m, i);
      DropIfEmpty(m);
    }

    /** Count a dispatch: the metrics, and everyone who was passed over. */
    method Dispatch(k: nat, oldest: Option<nat>, starved: bool)
      requires Valid()
      modifies this`byModel, this`queued, this`dead, this`reordered, this`promotions, this`dispatched
      ensures Valid() && Dispatched(old(Abs()), Abs(), k, oldest, starved)
    {
      dispatched := dispatched + 1;
      if oldest != Some(k) {
        reordered := reordered + 1;
      }
      if starved {
        promotions := promotions + 1;
      }
      BumpAll();
    }

    /** The scans of one select, in the order of the source. */
    method Scan() returns (oldest: Option<nat>, found: bool, starved: bool, model: string, index: nat)
      requires Valid()
      modifies this`dead
      ensures old(dead) <= dead
      ensures !found ==> forall k | k in queued :: queued[k].request.id in dead
      ensures found ==> model in byModel && index < |byModel[model]| && (index > 0 ==> starved)
                        && Picked(L(), old(Abs()), dead, oldest, starved, byModel[model][index].sequence)
    {
      ghost var s1 := Abs();
      oldest := OldestFront();
      ghost var so := Abs();
      found, starved, model, index := Choose();
      if found {
        ChosenEarlier(L(), s1, so, dead, starved, byModel[model][index].sequence);
      }
    }

    /** Take out the entry at the index, and dispatch it unless it has died meanwhile. */
    method TakeReached(oldest: Option<nat>, starved: bool, model: string, index: nat)
        returns (outcome: Outcome, ghost s3: State)
      requires Valid() && model in byModel && index < |byModel[model]|
      modifies this`byModel, this`size, this`queued, this`dead, this`reordered, this`promotions, this`dispatched
      ensures Valid() && outcome != Empty
      ensures outcome == Retry ==> Pruned(old(Abs()), Abs()) && size < old(size)
      ensures outcome.Done? ==>
                && outcome.entry == old(byModel[model][index])
                && Counts(old(Abs()), s3, Abs(), oldest, starved, outcome.entry.sequence)
    {
      ghost var s2 := Abs();
      assert QueueOk(byModel[model], model, queued);
      var e := TakeOut(model, index);
      var d := IsDead(e.request);
      s3 := Abs();
      if d {
        PrunedOnce(s2, Abs(), e.sequence);
        return Retry, s3;
      }
      Dispatch(e.sequence, oldest, starved);
      return Done(e), s3;
    }

    /** From the choice on: skip the dead at its index and take what stands there. Where the source
        calls itself again, the outcome is `Retry`. */
    method TakeChoice(oldest: Option<nat>, starved: bool, ghost c: nat, model: string, index: nat)
      returns (outcome: Outcome, ghost s2: State, ghost s3: State)
      requires Valid() && model in byModel && index < |byModel[model]| && byModel[model][index].sequence == c
      modifies this`byModel, this`size, this`queued, this`dead, this`reordered, this`promotions, this`dispatched
      ensures Valid() && outcome != Empty
      ensures outcome == Retry ==> Pruned(old(Abs()), Abs()) && size < old(size)
      ensures outcome.Done? ==>
                && Survivor(old(Abs()), s2, model, index, c, outcome.entry.sequence)
                && Counts(s2, s3, Abs(), oldest, starved, outcome.entry.sequence)
                && s2.queued[outcome.entry.sequence] == outcome.entry
    {
      ghost var s := Abs();
      assert QueueOk(byModel[model], model, queued);
      SkipDead(s, c, model, index);
      s2, s3 := Abs(), Abs();
      if index >= |byModel[model]| {
        DropIfEmpty(model);
        return Retry, s2, s3;
      }
      SkippedTo(byModel, queued, model, index, c);
      assert QueueOk(byModel[model], model, queued);
      outcome, s3 := TakeReached(oldest, starved, model, index);
      if outcome.Retry? {
        PrunedTwice(s, s2, Abs());
      }
    }

    /** One pass of the selection. */
    method Attempt() returns (outcome: Outcome, ghost t: Trail)
      requires Valid()
      modifies this`byModel, this`size, this`queued, this`dead, this`reordered, this`promotions, this`dispatched
      ensures Valid()
      ensures outcome == Empty ==> EmptyStep(old(Abs()), Abs())
      ensures outcome == Retry ==> Pruned(old(Abs()), Abs()) && size < old(size)
      ensures outcome.Done? ==>
                && Pruned(old(Abs()), t.s1) && AllAlive(t.s1.queued, old(dead))
                && Reached(L(), t, outcome.entry.sequence)
                && Counts(t.s2, t.s3, Abs(), t.oldest, t.starved, outcome.entry.sequence)
                && t.s2.queued[outcome.entry.sequence] == outcome.entry
    {
      ghost var s0 := Abs();
      Prune();
      ghost var s1 := Abs();
      t := Trail(s1, s1, s1, {}, None, false, 0);
      SubsetSize(s1.queued.Keys, s0.queued.Keys);
      if size == 0 {
        return Empty, t;
      }
      var oldest, found, starved, model, index := Scan();
      ghost var s2 := Abs();
      if !found {
        Prune();
        PrunedTwice(s0, s2, Abs());
        assert queued == map[];
        return Empty, t;
      }
      ghost var c, scanned, s3 := byModel[model][index].sequence, s2, s2;
      assert QueueOk(byModel[model], model, queued);
      outcome, s2, s3 := TakeChoice(oldest, starved, c, model, index);
      t := Trail(s1, s2, s3, scanned.dead, oldest, starved, c);
      if outcome.Retry? {
        PrunedTwice(s0, s1, Abs());
      } else {
        ReachedFrom(L(), scanned, t, model, index, outcome.entry.sequence);
      }
    }

    method Select() returns (r: Option<Request>, ghost k: nat)
      requires Valid() && Inv(L(), Abs())
      modifies this`byModel, this`size, this`queued, this`dead, this`reordered, this`promotions, this`dispatched
      ensures Valid()
      ensures Answer(L(), old(Abs()), Abs(), r, k)
      decreases size
    {
      ghost var s0 := Abs();
      var outcome;
      ghost var t;
      outcome, t := Attempt();
      ghost var s := Abs();
      match outcome
      case Empty =>
        r, k := None, 0;
      case Retry =>
        PrunedInv(L(), s0, s);
        r, k := Select();
        Resumed(L(), s0, s, Abs(), r, k);
      case Done(e) =>
        PrunedInv(L(), s0, t.s1);
        DispatchMade(L(), s0, t, Abs(), e.sequence);
        r, k := Some(e.request), e.sequence;
    }

    /** The wait condition holds when the call gets past its wait. An empty answer does not mean
        that the scheduler is closed. */
    method Next() returns (r: Option<Request>, ghost k: nat)
      requires Valid() && Inv(L(), Abs()) && (size > 0 || closed)
      modifies this`byModel, this`size, this`queued, this`dead, this`reordered, this`promotions, this`dispatched
      ensures Valid() && Inv(L(), Abs())
      ensures Answer(L(), old(Abs()), Abs(), r, k)
    {
      ghost var s0 := Abs();
      Prune();
      ghost var s := Abs();
      PrunedInv(L(), s0, s);
      if size == 0 {
        return None, 0;
      }
      r, k := Select();
      Resumed(L(), s0, s, Abs(), r, k);
      Kept(L(), s0, Abs(), r, k);
    }
  }

  datatype Outcome = Empty | Retry | Done(entry: Entry)

  /** The states a pass went through: after its pruning, before and after the choice was taken
      out; and what its scans found, with `scan` the deaths by their end. */
  datatype Trail = Trail(s1: State, s2: State, s3: State, scan: set<nat>, oldest: Option<nat>, starved: bool, c: nat)

  /** The steps a call may amount to. */
  ghost predicate Answer(l: Limits, s: State, s': State, r: Option<Request>, k: nat) {
    if r.None? then EmptyStep(s, s') else DispatchStep(l, s, s', k) && r.value == s.queued[k].request
  }

  lemma Resumed(l: Limits, s0: State, s: State, s': State, r: Option<Request>, k: nat)
    requires Pruned(s0, s) && Answer(l, s, s', r, k)
    ensures Answer(l, s0, s', r, k)
  {
    if r.None? {
      PrunedTwice(s0, s, s');
    } else {
      PrunedThenDispatch(l, s0, s, s', k);
    }
  }

  lemma Kept(l: Limits, s: State, s': State, r: Option<Request>, k: nat)
    requires Inv(l, s) && Answer(l, s, s', r, k)
    ensures Inv(l, s')
  {
    if r.None? {
      PrunedInv(l, s, s');
    } else {
      DispatchInv(l, s, s', k);
    }
  }

  lemma PrunedOnce(s: State, s': State, k: nat)
    requires k in s.queued && s.dead <= s'.dead && s.queued[k].request.id in s'.dead
    requires s' == s.(queued := s.queued - {k}, dead := s'.dead)
    ensures Pruned(s, s')
  {
  }

  /** A choice together with the oldest front, relative to the state in which the scans began. */
  ghost predicate Picked(l: Limits, s: State, dead: set<nat>, oldest: Option<nat>, starved: bool, c: nat) {
    && Chosen(l, s, dead, starved, c)
    && (AllAlive(s.queued, dead) ==> oldest.Some? && oldest.value in s.queued && forall k | k in s.queued ::
        oldest.value <= k)
  }

  lemma ChosenEarlier(l: Limits, s: State, so: State, dead: set<nat>, starved: bool, c: nat)
    requires so == s.(dead := so.dead) && s.dead <= so.dead <= dead && Chosen(l, so, dead, starved, c)
    ensures Chosen(l, s, dead, starved, c)
  {
    if AllAlive(s.queued, dead) {
      assert forall j: nat :: Live(s, j) <==> Live(so, j);
      assert forall j: nat :: Starved(l, s, j) <==> Starved(l, so, j);
      forall m: string ensures Group(s, m) == Group(so, m) {
      }
    }
  }

  /** What stands at `index` after the dead were skipped, and what can still be older. */
  lemma SkippedTo(byModel: Deques, queued: map<nat, Entry>, m: string, index: nat, c: nat)
    requires Represents(byModel, queued) && m in byModel && index < |byModel[m]|
    requires forall x | 0 <= x < index :: byModel[m][x].sequence < c
    requires forall x | index <= x < |byModel[m]| :: byModel[m][x].sequence >= c
    ensures var k := byModel[m][index].sequence;
            && k in queued && queued[k].request.model == m
            && (forall j | j in queued && queued[j].request.model == m && j < k :: index > 0 && j < c)
            && (c in queued && queued[c].request.model == m ==> c == k)
  {
    var k := byModel[m][index].sequence;
    assert QueueOk(byModel[m], m, queued);
    forall j | j in queued && queued[j].request.model == m && j < k ensures index > 0 && j < c {
      assert Holds(byModel, queued[j]);
      var x :| 0 <= x < |byModel[m]| && byModel[m][x] == queued[j];
      assert x < index;
    }
    if c in queued && queued[c].request.model == m {
      assert Holds(byModel, queued[c]);
    }
  }

  /** Between `s` and `s2` only the dead in the way of entry `c` were erased; `k` stands there now. */
  ghost predicate Survivor(s: State, s2: State, m: string, index: nat, c: nat, k: nat) {
    && Pruned(s, s2) && (AllAlive(s.queued, s2.dead) ==> s2.queued == s.queued)
    && k in s2.queued && s2.queued[k].request.model == m
    && (forall j | j in s2.queued && s2.queued[j].request.model == m && j < k :: index > 0 && j < c)
    && (c in s2.queued && s2.queued[c].request.model == m ==> c == k)
  }

  /** The scans that began at `s1` chose `c`; at `s2` the entry `k` stands in its place. */
  ghost predicate Reached(l: Limits, t: Trail, k: nat) {
    && Picked(l, t.s1, t.scan, t.oldest, t.starved, t.c) && t.s1.dead <= t.scan <= t.s2.dead
    && Pruned(t.s1, t.s2) && (AllAlive(t.s1.queued, t.s2.dead) ==> t.s2.queued == t.s1.queued)
    && k in t.s2.queued && t.s2.queued[k].request.model == t.s1.queued[t.c].request.model
    && (forall j | j in t.s2.queued && t.s2.queued[j].request.model == t.s2.queued[k].request.model && j < k ::
        t.starved && j < t.c)
    && (t.c in t.s2.queued ==> t.c == k)
  }

  lemma ReachedFrom(l: Limits, s: State, t: Trail, m: string, index: nat, k: nat)
    requires s == t.s1.(dead := t.scan) && t.s1.dead <= t.scan && (index > 0 ==> t.starved)
    requires Picked(l, t.s1, t.scan, t.oldest, t.starved, t.c) && t.s1.queued[t.c].request.model == m
    requires Survivor(s, t.s2, m, index, t.c, k)
    ensures Reached(l, t, k)
  {
  }

  /** Entry `k` was taken out, found alive, and counted. */
  ghost predicate Counts(s2: State, s3: State, s4: State, oldest: Option<nat>, starved: bool, k: nat) {
    && k in s2.queued && s2.queued[k].request.id !in s3.dead && s2.dead <= s3.dead
    && s3 == s2.(queued := s2.queued - {k}, dead := s3.dead) && Dispatched(s3, s4, k, oldest, starved)
  }

  lemma DispatchMade(l: Limits, s0: State, t: Trail, s4: State, k: nat)
    requires Inv(l, t.s1) && Pruned(s0, t.s1) && AllAlive(t.s1.queued, s0.dead)
    requires Reached(l, t, k) && Counts(t.s2, t.s3, s4, t.oldest, t.starved, k)
    ensures DispatchStep(l, s0, s4, k)
  {
    TakenFrom(l, t, s4, k);
    PrunedThenTaken(l, s0, t.s1, s4, k);
    if s4.dead == s0.dead {
      ExactFrom(l, t, s4, k);
      PrunedThenExact(l, s0, t.s1, s4, k);
    }
  }

  /** A live entry older than a starved choice cannot exist: it would be starved itself. */
  lemma NoOlderLive(l: Limits, s: State, dead: set<nat>, c: nat, j: nat)
    requires Inv(l, s) && Chosen(l, s, dead, true, c) && j in s.queued && j < c && s.dead <= dead
    ensures s.queued[j].request.id in dead
  {
    assert s.stamps[j] <= s.stamps[c];
  }

  lemma StarvedWentFirst(l: Limits, t: Trail, s4: State, k: nat)
    requires Reached(l, t, k) && Counts(t.s2, t.s3, s4, t.oldest, t.starved, k)
    ensures StarvedGoFirst(l, t.s1, s4)
  {
    var w := if t.starved then t.c else k;
    assert w in t.s1.queued && w !in s4.queued;
    forall j: nat | Live(s4, j) && Starved(l, t.s1, j) ensures w < j {
      assert s4.queued[j].request == t.s1.queued[j].request;
      assert t.s1.queued[j].request.id !in t.scan;
    }
  }

  lemma TakenFrom(l: Limits, t: Trail, s4: State, k: nat)
    requires Inv(l, t.s1) && Reached(l, t, k) && Counts(t.s2, t.s3, s4, t.oldest, t.starved, k)
    ensures Taken(l, t.s1, s4, k)
  {
    StarvedWentFirst(l, t, s4, k);
    OlderAreDead(l, t, s4, k);
    OthersPassedOver(l, t, s4, k);
  }

  lemma OthersPassedOver(l: Limits, t: Trail, s4: State, k: nat)
    requires Reached(l, t, k) && Counts(t.s2, t.s3, s4, t.oldest, t.starved, k)
    ensures s4.queued.Keys <= t.s1.queued.Keys - {k} && Bumped(t.s1.queued, s4.queued, s4.dead)
    ensures forall j | j in t.s1.queued && j != k && j !in s4.queued :: t.s1.queued[j].request.id in s4.dead
  {
    forall j | j in s4.queued
      ensures j in t.s1.queued && (s4.queued[j] == t.s1.queued[j].(bypass := t.s1.queued[j].bypass + 1)
                                   || (s4.queued[j] == t.s1.queued[j] && s4.queued[j].request.id in s4.dead))
    {
      assert j in t.s3.queued && t.s3.queued[j] == t.s2.queued[j] == t.s1.queued[j];
    }
  }

  lemma OlderAreDead(l: Limits, t: Trail, s4: State, k: nat)
    requires Inv(l, t.s1) && Reached(l, t, k) && Counts(t.s2, t.s3, s4, t.oldest, t.starved, k)
    ensures forall j | j in t.s1.queued && j < k && t.s1.queued[j].request.model == t.s1.queued[k].request.model ::
              t.s1.queued[j].request.id in s4.dead
  {
    forall j | j in t.s1.queued && j < k && t.s1.queued[j].request.model == t.s1.queued[k].request.model
      ensures t.s1.queued[j].request.id in s4.dead
    {
      if j in t.s2.queued {
        NoOlderLive(l, t.s1, t.scan, t.c, j);
      }
    }
  }

  lemma ExactFrom(l: Limits, t: Trail, s4: State, k: nat)
    requires Reached(l, t, k) && Counts(t.s2, t.s3, s4, t.oldest, t.starved, k)
    requires AllAlive(t.s1.queued, s4.dead)
    ensures Exact(l, t.s1, s4, k)
  {
    assert AllAlive(t.s1.queued, t.scan);
    assert Live(t.s1, t.oldest.value);
  }

  /** Entry `c` was the choice of a scan that began at `s`, with `dead` the deaths by its end. */
  ghost predicate Chosen(l: Limits, s: State, dead: set<nat>, starved: bool, c: nat) {
    && c in s.queued
    && (starved ==> Live(s, c) && Starved(l, s, c))
    && (starved ==> forall k | k in s.queued && Starved(l, s, k) && s.queued[k].request.id !in dead :: c <= k)
    && (!starved ==> forall k | k in s.queued && Starved(l, s, k) :: s.queued[k].request.id in dead)
    && (!starved ==> forall k | k in s.queued && s.queued[k].request.model == s.queued[c].request.model :: c <= k)
    && (AllAlive(s.queued, dead) ==> IsChoice(l, s, c))
  }

  lemma ChosenStarved(l: Limits, s: State, dead: set<nat>, c: nat)
    requires s.dead <= dead && Live(s, c) && Starved(l, s, c)
    requires forall k | k in s.queued && s.queued[k].bypass >= l.maxBypass && s.queued[k].request.id !in dead :: c <= k
    ensures Chosen(l, s, dead, true, c)
  {
  }

  ghost predicate Dispatched(s: State, s': State, k: nat, oldest: Option<nat>, starved: bool) {
    && s.dead <= s'.dead && s'.queued.Keys == s.queued.Keys && Bumped(s.queued, s'.queued, s'.dead)
    && s' == s.(queued := s'.queued, dead := s'.dead, dispatched := s.dispatched + 1,
                reordered := s.reordered + (if oldest != Some(k) then 1 else 0),
                promotions := s.promotions + (if starved then 1 else 0))
  }

  /** With everything alive, a deque is the group of its model. */
  lemma GroupIsDeque(s: State, byModel: Deques, m: string)
    requires Represents(byModel, s.queued) && AllAlive(s.queued, s.dead) && m in byModel
    ensures |Group(s, m)| == |byModel[m]|
  {
    var q := byModel[m];
    assert QueueOk(q, m, s.queued);
    SequencesCount(q);
    forall k | k in Group(s, m) ensures k in Sequences(q) {
      assert Holds(byModel, s.queued[k]);
    }
    assert Group(s, m) == Sequences(q);
  }

  ghost function Sequences(q: seq<Entry>): set<nat> {
    set x | 0 <= x < |q| :: q[x].sequence
  }

  lemma {:induction false} SequencesCount(q: seq<Entry>)
    requires forall i, j | 0 <= i < j < |q| :: q[i].sequence < q[j].sequence
    ensures |Sequences(q)| == |q|
  {
    if q != [] {
      var n := |q| - 1;
      SequencesCount(q[..n]);
      assert Sequences(q) == Sequences(q[..n]) + {q[n].sequence};
      assert q[n].sequence !in Sequences(q[..n]);
    }
  }

  lemma ChosenGroup(l: Limits, s: State, dead: set<nat>, byModel: Deques, m: string)
    requires Represents(byModel, s.queued) && s.dead <= dead && m in byModel && byModel[m] != []
    requires forall k | k in s.queued && s.queued[k].bypass >= l.maxBypass :: s.queued[k].request.id in dead
    requires AllAlive(s.queued, dead) ==> forall n | n in byModel :: byModel[n] != [] ==>
               |byModel[n]| < |byModel[m]| || (|byModel[n]| == |byModel[m]|
                   && byModel[m][0].sequence <= byModel[n][0].sequence)
    ensures Chosen(l, s, dead, false, byModel[m][0].sequence)
  {
    var c := byModel[m][0].sequence;
    assert QueueOk(byModel[m], m, s.queued);
    forall k | k in s.queued && s.queued[k].request.model == m ensures c <= k {
      assert Holds(byModel, s.queued[k]);
    }
    if AllAlive(s.queued, dead) {
      GroupIsDeque(s, byModel, m);
      forall j: nat | Live(s, j) ensures
        var mine, theirs := |Group(s, s.queued[c].request.model)|, |Group(s, s.queued[j].request.model)|;
        theirs <= mine && (theirs == mine ==> c <= j)
      {
        assert Holds(byModel, s.queued[j]);
        var n := s.queued[j].request.model;
        GroupIsDeque(s, byModel, n);
        assert QueueOk(byModel[n], n, s.queued);
      }
    }
  }

  ghost predicate PassedOver(e: Entry, e': Entry, dead: set<nat>) {
    e' == e.(bypass := e.bypass + 1) || (e' == e && e.request.id in dead)
  }

  ghost predicate Listed(r: seq<Entry>, u: map<nat, Entry>) {
    && (forall x | 0 <= x < |r| :: r[x].sequence in u && u[r[x].sequence] == r[x])
    && (forall k {:trigger Among(r, u[k])} | k in u :: u[k].sequence == k && Among(r, u[k]))
  }

  ghost predicate Among(r: seq<Entry>, e: Entry) {
    exists x :: 0 <= x < |r| && r[x] == e
  }

  lemma ListedSnoc(r: seq<Entry>, u: map<nat, Entry>, e: Entry)
    requires Listed(r, u) && e.sequence !in u
    ensures Listed(r + [e], u[e.sequence := e])
  {
    var u' := u[e.sequence := e];
    forall k | k in u' ensures Among(r + [e], u'[k]) && u'[k].sequence == k {
      if k == e.sequence {
        assert (r + [e])[|r|] == e;
      } else {
        assert Among(r, u[k]);
        var x :| 0 <= x < |r| && r[x] == u[k];
        assert (r + [e])[x] == u[k];
      }
    }
  }

  /** `u` covers exactly the entries of model `m`. */
  ghost predicate Covers(queued: map<nat, Entry>, m: string, u: map<nat, Entry>, dead: set<nat>) {
    && (forall k | k in u :: k in queued && queued[k].request.model == m && u[k].sequence == k)
    && (forall k | k in queued && queued[k].request.model == m :: k in u && PassedOver(queued[k], u[k], dead))
  }

  lemma UpdateCovers(byModel: Deques, queued: map<nat, Entry>, m: string, r: seq<Entry>, u: map<nat, Entry>,
                     dead: set<nat>)
    requires Represents(byModel, queued) && m in byModel && |r| == |byModel[m]| && Listed(r, u)
    requires forall x | 0 <= x < |r| :: PassedOver(byModel[m][x], r[x], dead)
    ensures Covers(queued, m, u, dead)
  {
    var q := byModel[m];
    assert QueueOk(q, m, queued);
    forall k | k in u ensures k in queued && queued[k].request.model == m && u[k].sequence == k {
      assert Among(r, u[k]);
      var x :| 0 <= x < |r| && r[x] == u[k];
      assert q[x].sequence == k;
    }
    forall k | k in queued && queued[k].request.model == m ensures k in u && PassedOver(queued[k], u[k], dead) {
      assert Holds(byModel, queued[k]);
      var x :| 0 <= x < |q| && q[x] == queued[k];
      assert r[x].sequence == k;
    }
  }

  lemma QueueReplaced(q: seq<Entry>, m: string, queued: map<nat, Entry>, r: seq<Entry>, u: map<nat, Entry>,
                      dead: set<nat>)
    requires QueueOk(q, m, queued) && |r| == |q| && Listed(r, u)
    requires forall x | 0 <= x < |r| :: PassedOver(q[x], r[x], dead)
    ensures QueueOk(r, m, queued + u)
  {
  }

  lemma QueueUntouched(q: seq<Entry>, n: string, queued: map<nat, Entry>, m: string, u: map<nat, Entry>, dead: set<nat>)
    requires QueueOk(q, n, queued) && Covers(queued, m, u, dead) && n != m
    ensures QueueOk(q, n, queued + u)
  {
  }

  ghost predicate Counted(before: map<nat, Entry>, after: map<nat, Entry>, todo: set<string>, dead: set<nat>) {
    && after.Keys == before.Keys
    && forall k | k in after ::
         if before[k].request.model in todo then after[k] == before[k] else PassedOver(before[k], after[k], dead)
  }

  lemma CountedNext(before: map<nat, Entry>, after: map<nat, Entry>, todo: set<string>, m: string, u: map<nat, Entry>,
                    dead: set<nat>)
    requires Counted(before, after, todo, dead) && m in todo && Covers(after, m, u, dead)
    ensures Counted(before, after + u, todo - {m}, dead)
  {
  }

  lemma HoldsReplaced(byModel: Deques, queued: map<nat, Entry>, m: string, r: seq<Entry>, u: map<nat, Entry>,
                      dead: set<nat>, k: nat)
    requires Represents(byModel, queued) && Covers(queued, m, u, dead) && Listed(r, u) && k in queued
    ensures Holds(byModel[m := r], (queued + u)[k])
  {
    assert Holds(byModel, queued[k]);
    if queued[k].request.model == m {
      assert Among(r, u[k]);
    }
  }

  lemma ReplacedRepresents(byModel: Deques, queued: map<nat, Entry>, m: string, r: seq<Entry>, u: map<nat, Entry>,
                           dead: set<nat>)
    requires Represents(byModel, queued) && m in byModel && |r| == |byModel[m]| && Listed(r, u)
    requires forall x | 0 <= x < |r| :: PassedOver(byModel[m][x], r[x], dead)
    ensures Represents(byModel[m := r], queued + u) && Covers(queued, m, u, dead)
  {
    var byModel', queued' := byModel[m := r], queued + u;
    UpdateCovers(byModel, queued, m, r, u, dead);
    forall n | n in byModel' ensures QueueOk(byModel'[n], n, queued') {
      if n == m {
        QueueReplaced(byModel[m], m, queued, r, u, dead);
      } else {
        QueueUntouched(byModel[n], n, queued, m, u, dead);
      }
    }
    forall k | k in queued' ensures Holds(byModel', queued'[k]) && queued'[k].sequence == k {
      HoldsReplaced(byModel, queued, m, r, u, dead, k);
    }
  }

  ghost predicate AliveFirst(q: seq<Entry>, n: nat, dead: set<nat>) {
    n <= |q| && forall x | 0 <= x < n :: q[x].request.id !in dead
  }

  ghost predicate ChangedOnly(a: Deques, b: Deques, m: string) {
    a.Keys == b.Keys && forall n | n in a && n != m :: a[n] == b[n]
  }

  lemma AliveNext(q: seq<Entry>, i: nat, erased: bool, dead: set<nat>)
    requires AliveFirst(q, i, dead) && i < |q| && (erased || q[i].request.id !in dead)
    ensures if erased then AliveFirst(Without(q, i), i, dead) else AliveFirst(q, i + 1, dead)
  {
  }

  ghost predicate AllAlive(queued: map<nat, Entry>, dead: set<nat>) {
    forall k | k in queued :: queued[k].request.id !in dead
  }

  lemma DroppedRepresents(byModel: Deques, queued: map<nat, Entry>, m: string)
    requires Represents(byModel, queued) && m in byModel && byModel[m] == []
    ensures Represents(byModel - {m}, queued)
  {
    forall k | k in queued ensures Holds(byModel - {m}, queued[k]) {
      assert Holds(byModel, queued[k]);
    }
  }

  lemma AppendedRepresents(byModel: Deques, queued: map<nat, Entry>, e: Entry)
    requires Represents(byModel, queued) && forall k | k in queued :: k < e.sequence
    ensures var q := if e.request.model in byModel then byModel[e.request.model] else [];
            Represents(byModel[e.request.model := q + [e]], queued[e.sequence := e])
  {
    var q := if e.request.model in byModel then byModel[e.request.model] else [];
    var byModel' := byModel[e.request.model := q + [e]];
    var queued' := queued[e.sequence := e];
    forall m | m in byModel' ensures QueueOk(byModel'[m], m, queued') {
    }
    forall k | k in queued' ensures Holds(byModel', queued'[k]) {
      if k == e.sequence {
        assert (q + [e])[|q|] == e;
      } else {
        assert Holds(byModel, queued[k]);
      }
    }
  }
}
