/**
 An LRU store is a recency list: a hit moves the model to the end, a miss drops models from the
 front until the new one fits and appends it. Stamps, candidates and sorting do not show.
 */
module LruRefinement {
  import opened Types
  import opened EvictionPolicy
  import opened ResidencySpec

  // ----- the recency list on its own -----

  function Size(reg: Registry, c: seq<string>): nat {
    if c == [] then 0 else (if c[0] in reg then reg[c[0]].bytes else 0) + Size(reg, c[1..])
  }

  ghost predicate Fits(reg: Registry, budget: nat, c: seq<string>, n: nat, bytes: nat) {
    n <= |c| && Size(reg, c[n..]) + bytes <= budget
  }

  /** Dropping `n` from the front is the first time the new model fits. */
  ghost predicate FirstFit(reg: Registry, budget: nat, c: seq<string>, n: nat, bytes: nat) {
    Fits(reg, budget, c, n, bytes) && forall m | 0 <= m < n :: !Fits(reg, budget, c, m, bytes)
  }

  function Drop(c: seq<string>, id: string): seq<string> {
    if c == [] then [] else if c[0] == id then c[1..] else [c[0]] + Drop(c[1..], id)
  }

  ghost predicate CacheStep(reg: Registry, budget: nat, c: seq<string>, c': seq<string>, id: string,
                            status: ErrorCode) {
    if id in c then status == NoError && c' == Drop(c, id) + [id]
    else if id !in reg then status == ModelNotFound && c' == c
    else if reg[id].bytes > budget then status == InsufficientMemory && c' == c
    else exists n :: Dropped(reg, budget, c, c', id, status, n)
  }

  /** A miss: on success and on a failed load the model just fits; on a failed unload it does not yet. */
  ghost predicate Dropped(reg: Registry, budget: nat, c: seq<string>, c': seq<string>, id: string, status: ErrorCode,
                          n: nat)
    requires id in reg
  {
    && n <= |c|
    && if status == NoError then FirstFit(reg, budget, c, n, reg[id].bytes) && c' == c[n..] + [id]
       else c' == c[n..] && (FirstFit(reg, budget, c, n, reg[id].bytes) || forall m | 0 <= m <= n ::
           !Fits(reg, budget, c, m, reg[id].bytes))
  }

  // ----- how a store stands for a list -----

  ghost predicate In(c: seq<string>, id: string) {
    exists i :: 0 <= i < |c| && c[i] == id
  }

  /** The resident models, least recently used first. */
  ghost predicate IsRecency(es: Entries, c: seq<string>) {
    && (forall i | 0 <= i < |c| :: IsResident(es, c[i]))
    && (forall i, j | 0 <= i < j < |c| ::
        IsResident(es, c[i]) && IsResident(es, c[j]) ==> es[c[i]].lastUsed < es[c[j]].lastUsed)
    && (forall id {:trigger In(c, id)} | IsResident(es, id) :: In(c, id))
  }

  ghost predicate StoreInv(reg: Registry, s: Store) {
    && Quiet(s.entries)
    && (forall id | id in s.entries :: s.entries[id].lastUsed <= s.counter)
    && (forall id | IsResident(s.entries, id) :: id in reg && s.entries[id].bytes == reg[id].bytes)
  }

  function Candidates(reg: Registry, es: Entries, c: seq<string>): (cs: seq<Candidate>)
    requires forall i | 0 <= i < |c| :: c[i] in es
    ensures |cs| == |c| && forall i | 0 <= i < |c| :: cs[i] == CandidateOf(reg, es, c[i])
  {
    seq(|c|, i requires 0 <= i < |c| && c[i] in es => CandidateOf(reg, es, c[i]))
  }

  lemma RecencyIsVictimOrder(reg: Registry, es: Entries, c: seq<string>)
    requires IsRecency(es, c)
    ensures VictimOrder(Lru, reg, es, Candidates(reg, es, c))
  {
    var cs := Candidates(reg, es, c);
    forall id | IsResident(es, id) ensures Names(cs, id) {
      assert In(c, id);
      var i :| 0 <= i < |c| && c[i] == id;
      assert cs[i].modelId == id;
    }
  }

  lemma {:induction false} BytesIsSize(reg: Registry, s: Store, c: seq<string>)
    requires StoreInv(reg, s) && forall i | 0 <= i < |c| :: IsResident(s.entries, c[i])
    ensures Bytes(Candidates(reg, s.entries, c)) == Size(reg, c)
  {
    if c != [] {
      BytesIsSize(reg, s, c[1..]);
      assert Candidates(reg, s.entries, c)[1..] == Candidates(reg, s.entries, c[1..]);
    }
  }

  lemma RoomIsFit(reg: Registry, budget: nat, s: Store, c: seq<string>, n: nat, bytes: nat)
    requires StoreInv(reg, s) && IsRecency(s.entries, c) && n <= |c|
    ensures Room(budget, Candidates(reg, s.entries, c), n, bytes) <==> Fits(reg, budget, c, n, bytes)
  {
    BytesIsSize(reg, s, c[n..]);
    assert Candidates(reg, s.entries, c)[n..] == Candidates(reg, s.entries, c[n..]);
  }

  // ----- the effect of a call on the list -----

  lemma {:induction false} EvictKeepsRest(es: Entries, order: seq<Candidate>, id: string)
    ensures var es' := Evict(es, order);
            EntryOf(es', id) == if Names(order, id) then EntryOf(es, id).(state := Unloaded) else EntryOf(es, id)
    ensures es.Keys <= Evict(es, order).Keys
    ensures id in Evict(es, order) ==> id in es || Names(order, id)
    decreases order
  {
    if order != [] {
      var x := order[0].modelId;
      EvictKeepsRest(es[x := EntryOf(es, x).(state := Unloaded)], order[1..], id);
      if Names(order, id) && id != x {
        var i :| 0 <= i < |order| && order[i].modelId == id;
        assert order[1..][i - 1].modelId == id;
      }
      if Names(order[1..], id) {
        var i :| 0 <= i < |order[1..]| && order[1..][i].modelId == id;
        assert order[i + 1].modelId == id;
      }
      assert order[0].modelId == x;
    }
  }

  /** After the first `n` were evicted the list has lost its first `n`. */
  lemma EvictDropsFront(reg: Registry, es: Entries, c: seq<string>, n: nat)
    requires IsRecency(es, c) && n <= |c|
    ensures var left := Evict(es, Candidates(reg, es, c)[..n]);
            IsRecency(left, c[n..]) && forall id ::
                EntryOf(left, id) == EntryOf(es, id) || EntryOf(left, id) == EntryOf(es, id).(state := Unloaded)
  {
    var order := Candidates(reg, es, c)[..n];
    var left := Evict(es, order);
    forall id ensures EntryOf(left, id) == EntryOf(es, id) || EntryOf(left, id) == EntryOf(es, id).(state := Unloaded) {
      EvictKeepsRest(es, order, id);
    }
    forall i | 0 <= i < |c[n..]| ensures IsResident(left, c[n..][i]) && left[c[n..][i]] == es[c[n..][i]] {
      EvictKeepsRest(es, order, c[n + i]);
      assert IsResident(es, c[n + i]);
      assert !Names(order, c[n + i]);
    }
    forall i | 0 <= i < n ensures Names(order, c[i]) {
      assert order[i].modelId == c[i];
    }
    forall id | IsResident(left, id) ensures In(c[n..], id) {
      EvictKeepsRest(es, order, id);
      assert IsResident(es, id) && In(c, id);
      var i :| 0 <= i < |c| && c[i] == id;
      assert c[n..][i - n] == id;
    }
  }

  /** A model that is not resident can get any entry that is not resident either. */
  lemma RecencyOther(es: Entries, c: seq<string>, id: string, e: Entry)
    requires IsRecency(es, c) && !IsResident(es, id) && e.state != Resident
    ensures IsRecency(es[id := e], c)
  {
    forall x | IsResident(es[id := e], x) ensures In(c, x) {
      assert IsResident(es, x);
    }
  }

  /** A model that becomes resident with the newest stamp goes to the end. */
  lemma RecencyAppend(es: Entries, c: seq<string>, id: string, e: Entry)
    requires IsRecency(es, c) && !IsResident(es, id) && e.state == Resident
    requires forall i | 0 <= i < |c| :: es[c[i]].lastUsed < e.lastUsed
    ensures IsRecency(es[id := e], c + [id])
  {
    var c' := c + [id];
    forall x | IsResident(es[id := e], x) ensures In(c', x) {
      if x == id {
        assert c'[|c|] == id;
      } else {
        assert IsResident(es, x) && In(c, x);
        var i :| 0 <= i < |c| && c[i] == x;
        assert c'[i] == x;
      }
    }
  }

  function Cut(c: seq<string>, i: nat): (r: seq<string>)
    requires i < |c|
    ensures |r| == |c| - 1 && forall a | 0 <= a < |r| :: r[a] == c[if a < i then a else a + 1]
  {
    c[..i] + c[i + 1..]
  }

  lemma {:induction false} DropSplits(c: seq<string>, i: nat)
    requires i < |c| && forall j | 0 <= j < i :: c[j] != c[i]
    ensures Drop(c, c[i]) == Cut(c, i)
  {
    if i > 0 {
      DropSplits(c[1..], i - 1);
      assert Cut(c, i) == [c[0]] + Cut(c[1..], i - 1);
    }
  }

  lemma InCut(c: seq<string>, i: nat, x: string)
    requires i < |c| && In(c, x) && x != c[i]
    ensures In(Cut(c, i), x)
  {
    var j :| 0 <= j < |c| && c[j] == x;
    assert Cut(c, i)[if j < i then j else j - 1] == x;
  }

  lemma RecencyCut(es: Entries, c: seq<string>, i: nat, e: Entry)
    requires IsRecency(es, c) && i < |c| && e.state != Resident
    ensures IsRecency(es[c[i] := e], Cut(c, i))
  {
    forall x | IsResident(es[c[i] := e], x) ensures In(Cut(c, i), x) {
      assert IsResident(es, x);
      InCut(c, i, x);
    }
  }

  /** Taking a resident model out of the residents takes it out of the list. */
  lemma RecencyDrop(es: Entries, c: seq<string>, id: string, e: Entry)
    requires IsRecency(es, c) && IsResident(es, id) && e.state != Resident
    ensures IsRecency(es[id := e], Drop(c, id)) && id in c
  {
    assert In(c, id);
    var i :| 0 <= i < |c| && c[i] == id;
    DropSplits(c, i);
    RecencyCut(es, c, i, e);
  }

  lemma HitStep(reg: Registry, s: Store, c: seq<string>, id: string, e: Entry)
    requires StoreInv(reg, s) && IsRecency(s.entries, c) && IsResident(s.entries, id)
    requires e == s.entries[id].(lastUsed := s.counter + 1, useCount := e.useCount)
    ensures id in c && IsRecency(s.entries[id := e], Drop(c, id) + [id])
  {
    var away := e.(state := Unloaded);
    RecencyDrop(s.entries, c, id, away);
    var es := s.entries[id := away];
    forall i | 0 <= i < |Drop(c, id)| ensures es[Drop(c, id)[i]].lastUsed < e.lastUsed {
      assert IsResident(es, Drop(c, id)[i]);
    }
    RecencyAppend(es, Drop(c, id), id, e);
    assert es[id := e] == s.entries[id := e];
  }

  /** One call, seen on the list. */
  lemma LruStep(reg: Registry, budget: nat, s: Store, s': Store, id: string, status: ErrorCode, order: seq<Candidate>,
                n: nat, c: seq<string>)
    returns (c': seq<string>)
    requires StoreInv(reg, s) && IsRecency(s.entries, c) && EnsureStep(Lru, reg, budget, s, s', id, status, order, n)
    ensures IsRecency(s'.entries, c') && CacheStep(reg, budget, c, c', id, status)
  {
    if IsResident(s.entries, id) {
      HitStep(reg, s, c, id, s'.entries[id]);
      c' := Drop(c, id) + [id];
    } else if id !in reg || reg[id].bytes > budget {
      c' := c;
    } else {
      c' := MissStep(reg, budget, s, s', id, status, order, n, c);
    }
  }

  lemma MissStep(reg: Registry, budget: nat, s: Store, s': Store, id: string, status: ErrorCode, order: seq<Candidate>,
                 n: nat, c: seq<string>)
    returns (c': seq<string>)
    requires StoreInv(reg, s) && IsRecency(s.entries, c) && EnsureStep(Lru, reg, budget, s, s', id, status, order, n)
    requires !IsResident(s.entries, id) && id in reg && reg[id].bytes <= budget
    ensures IsRecency(s'.entries, c') && Dropped(reg, budget, c, c', id, status, n)
  {
    RecencyIsVictimOrder(reg, s.entries, c);
    VictimOrderIsUnique(Lru, reg, s.entries, order, Candidates(reg, s.entries, c));
    forall m | 0 <= m <= |c| ensures Room(budget, order, m, reg[id].bytes) <==> Fits(reg, budget, c, m, reg[id].bytes) {
      RoomIsFit(reg, budget, s, c, m, reg[id].bytes);
    }
    EvictDropsFront(reg, s.entries, c, n);
    var left := Evict(s.entries, order[..n]);
    assert EntryOf(left, id) == EntryOf(s.entries, id) || EntryOf(left, id)
        == EntryOf(s.entries, id).(state := Unloaded);
    if status == NoError {
      forall i | 0 <= i < |c[n..]| ensures left[c[n..][i]].lastUsed <= s.counter {
        assert EntryOf(left, c[n..][i]).lastUsed == EntryOf(s.entries, c[n..][i]).lastUsed;
        assert IsResident(s.entries, c[n + i]);
      }
      RecencyAppend(left, c[n..], id, s'.entries[id]);
      c' := c[n..] + [id];
    } else {
      c' := c[n..];
      if s'.entries != left {
        RecencyOther(left, c[n..], id, s'.entries[id]);
      }
    }
  }

  // ----- what every call keeps, for either policy -----

  /** Evicting along the order keeps the rest of the order the victim order. */
  lemma {:induction false} EvictPrefix(p: Policy, reg: Registry, es: Entries, order: seq<Candidate>, n: nat)
    requires VictimOrder(p, reg, es, order) && n <= |order|
    ensures VictimOrder(p, reg, Evict(es, order[..n]), order[n..])
    ensures Quiet(es) ==> Quiet(Evict(es, order[..n]))
    decreases n
  {
    if n == 0 {
      assert order[..n] == [];
    } else {
      UnloadFront(p, reg, es, order);
      var id := order[0].modelId;
      EvictPrefix(p, reg, es[id := es[id].(state := Unloaded)], order[1..], n - 1);
      assert order[..n][1..] == order[1..][..n - 1];
      assert order[1..][n - 1..] == order[n..];
    }
  }

  ghost predicate Conserved(reg: Registry, budget: nat, s: Store) {
    StoreInv(reg, s) && Held(s.entries) <= budget
  }

  lemma EvictConserves(p: Policy, reg: Registry, budget: nat, s: Store, order: seq<Candidate>, n: nat)
    requires Conserved(reg, budget, s) && VictimOrder(p, reg, s.entries, order) && n <= |order|
    ensures var left := Evict(s.entries, order[..n]);
            Conserved(reg, budget, Store(left, s.counter)) && Held(left) == Bytes(order[n..])
  {
    var left := Evict(s.entries, order[..n]);
    EvictPrefix(p, reg, s.entries, order, n);
    HeldIsResident(p, reg, s.entries, order);
    HeldIsResident(p, reg, left, order[n..]);
    BytesSuffix(order, n);
    forall x ensures EntryOf(left, x) == EntryOf(s.entries, x)
        || EntryOf(left, x) == EntryOf(s.entries, x).(state := Unloaded) {
      EvictKeepsRest(s.entries, order[..n], x);
    }
    KeptInv(reg, s, left);
  }

  lemma TouchConserves(reg: Registry, budget: nat, s: Store, id: string)
    requires Conserved(reg, budget, s) && IsResident(s.entries, id)
    ensures var e := s.entries[id].(lastUsed := s.counter + 1, useCount := s.entries[id].useCount + 1);
            Conserved(reg, budget, Store(s.entries[id := e], s.counter + 1))
  {
    HeldUpdate(s.entries, id, s.entries[id].(lastUsed := s.counter + 1, useCount := s.entries[id].useCount + 1));
  }

  lemma LoadConserves(reg: Registry, budget: nat, s: Store, id: string, ok: bool)
    requires Conserved(reg, budget, s) && id in reg && Held(s.entries) + reg[id].bytes <= budget
    requires Weight(EntryOf(s.entries, id)) == 0
    ensures Conserved(reg, budget, AfterLoad(s, id, reg[id].bytes, ok))
  {
    var s' := AfterLoad(s, id, reg[id].bytes, ok);
    HeldUpdate(s.entries, id, s'.entries[id]);
  }

  /** Memory stays within the budget, and the store in order, through every call whatever the backend does. */
  lemma StepConserves(p: Policy, reg: Registry, budget: nat, s: Store, s': Store, id: string, status: ErrorCode,
                      order: seq<Candidate>, n: nat)
    requires Conserved(reg, budget, s) && EnsureStep(p, reg, budget, s, s', id, status, order, n)
    ensures Conserved(reg, budget, s')
  {
    if IsResident(s.entries, id) {
      TouchConserves(reg, budget, s, id);
    } else if id in reg && reg[id].bytes <= budget {
      var left := Store(Evict(s.entries, order[..n]), s.counter);
      EvictConserves(p, reg, budget, s, order, n);
      if s' != left {
        EvictKeepsRest(s.entries, order[..n], id);
        LoadConserves(reg, budget, left, id, status == NoError);
      }
    }
  }

  lemma {:induction false} BytesSuffix(cs: seq<Candidate>, n: nat)
    requires n <= |cs|
    ensures Bytes(cs[n..]) <= Bytes(cs)
  {
    if n > 0 {
      BytesSuffix(cs[1..], n - 1);
      assert cs[1..][n - 1..] == cs[n..];
    }
  }

  lemma KeptInv(reg: Registry, s: Store, left: Entries)
    requires StoreInv(reg, s) && Quiet(left)
    requires forall x ::
        EntryOf(left, x) == EntryOf(s.entries, x) || EntryOf(left, x) == EntryOf(s.entries, x).(state := Unloaded)
    ensures StoreInv(reg, Store(left, s.counter))
  {
    forall x | x in left ensures left[x].lastUsed <= s.counter {
      assert EntryOf(left, x) == left[x];
    }
    forall x | IsResident(left, x) ensures x in reg && left[x].bytes == reg[x].bytes {
      assert EntryOf(left, x) == left[x];
      assert IsResident(s.entries, x);
    }
  }

  // ----- whole runs -----

  datatype Call = Call(id: string, status: ErrorCode, order: seq<Candidate>, n: nat)

  ghost predicate Run(p: Policy, reg: Registry, budget: nat, run: seq<Store>, calls: seq<Call>) {
    && |run| == |calls| + 1 && run[0] == Store(map[], 0)
    && forall i | 0 <= i < |calls| :: EnsureStep(p, reg, budget, run[i], run[i + 1], calls[i].id, calls[i].status,
        calls[i].order, calls[i].n)
  }

  lemma {:induction false} RunConserves(p: Policy, reg: Registry, budget: nat, run: seq<Store>, calls: seq<Call>,
                                        i: nat)
    requires Run(p, reg, budget, run, calls) && i < |run|
    ensures Conserved(reg, budget, run[i])
  {
    if i > 0 {
      RunConserves(p, reg, budget, run, calls, i - 1);
      var k := calls[i - 1];
      StepConserves(p, reg, budget, run[i - 1], run[i], k.id, k.status, k.order, k.n);
    }
  }

  /** Every run of an LRU store is, state by state, a run of the recency list. */
  lemma {:induction false} LruRun(reg: Registry, budget: nat, run: seq<Store>, calls: seq<Call>)
      returns (lists: seq<seq<string>>)
    requires Run(Lru, reg, budget, run, calls)
    ensures |lists| == |run| && lists[0] == []
    ensures forall i | 0 <= i < |run| :: IsRecency(run[i].entries, lists[i])
    ensures forall i | 0 <= i < |calls| :: CacheStep(reg, budget, lists[i], lists[i + 1], calls[i].id, calls[i].status)
    decreases |calls|
  {
    if calls == [] {
      lists := [[]];
    } else {
      var n := |calls| - 1;
      var k := calls[n];
      lists := LruRun(reg, budget, run[..n + 1], calls[..n]);
      RunConserves(Lru, reg, budget, run, calls, n);
      var next := LruStep(reg, budget, run[n], run[n + 1], k.id, k.status, k.order, k.n, lists[n]);
      lists := lists + [next];
    }
  }
}
