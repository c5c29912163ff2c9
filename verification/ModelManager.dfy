/**
 The model manager of a worker with its resource manager and the backend it drives. The backend
 may fail any load or unload. Between the two lock-held sections of a load or an unload other
 threads can look; `Accounted` holds there too.
 */
module ModelManager {
  import opened Types
  import opened EvictionPolicy
  import opened ResidencySpec
  import opened LruRefinement
  import opened EvictionOrder

  /** Unsigned bytes: `used <= budget` is what keeps the subtractions of the source from wrapping. */
  class ResourceManager {
    const budget: nat
    var used: nat

    ghost predicate Valid() reads this { used <= budget }

    constructor (budget: nat)
      ensures Valid() && this.budget == budget && used == 0
    {
      this.budget, used := budget, 0;
    }

    predicate CanReserve(bytes: nat) reads this requires Valid() {
      bytes <= budget - used
    }

    method Reserve(bytes: nat) returns (status: ErrorCode)
      requires Valid()
      modifies this
      ensures Valid() && status == (if old(CanReserve(bytes)) then NoError else InsufficientMemory)
      ensures used == old(used) + (if status == NoError then bytes else 0)
    {
      if bytes > budget - used {
        return InsufficientMemory;
      }
      used := used + bytes;
      return NoError;
    }

    method Release(bytes: nat) returns (status: ErrorCode)
      requires Valid()
      modifies this
      ensures Valid() && status == (if bytes <= old(used) then NoError else InternalError)
      ensures used == old(used) - (if status == NoError then bytes else 0)
    {
      if bytes > used {
        return InternalError;
      }
      used := used - bytes;
      return NoError;
    }
  }

  /** Any backend: a call that succeeds does what it says, a call that fails changes nothing. */
  class Backend {
    var loaded: set<string>
    ghost var failures: nat

    constructor ()
      ensures loaded == {}
    {
      loaded := {};
      failures := 0;
    }

    method Load(id: string) returns (status: ErrorCode)
      modifies this
      ensures loaded == if status == NoError then old(loaded) + {id} else old(loaded)
      ensures failures == old(failures) + (if status == NoError then 0 else 1)
    {
      status := *;
      if status == NoError {
        loaded := loaded + {id};
      } else {
        failures := failures + 1;
      }
    }

    method Unload(id: string) returns (status: ErrorCode)
      modifies this
      ensures loaded == if status == NoError then old(loaded) - {id} else old(loaded)
      ensures failures == old(failures) + (if status == NoError then 0 else 1)
    {
      status := *;
      if status == NoError {
        loaded := loaded - {id};
      } else {
        failures := failures + 1;
      }
    }
  }

  datatype Metrics = Metrics(hits: nat, misses: nat, loads: nat, unloads: nat, evictions: nat, reloads: nat)

  /** Looking a model up is counted once, as a hit or as a miss. */
  ghost predicate SameLookups(a: Metrics, b: Metrics) {
    a.hits == b.hits && a.misses == b.misses
  }

  ghost function Residents(es: Entries): set<string> {
    set id | id in es && es[id].state == Resident
  }

  ghost function EverLoaded(es: Entries): set<string> {
    set id | id in es && es[id].previouslyLoaded
  }

  // ----- listing the resident models -----

  function Next(reg: Registry, es: Entries, k: string): seq<Candidate>
    requires k in es
  {
    if es[k].state == Resident then [CandidateOf(reg, es, k)] else []
  }

  lemma ListStep(reg: Registry, es: Entries, todo: set<string>, k: string, cs: seq<Candidate>)
    requires todo <= es.Keys && k in todo && Lists(reg, es - todo, cs)
    ensures Lists(reg, es - (todo - {k}), cs + Next(reg, es, k))
  {
    var cs' := cs + Next(reg, es, k);
    var part := es - (todo - {k});
    forall id | IsResident(part, id) ensures Names(cs', id) {
      if id == k {
        assert cs'[|cs|].modelId == k;
      } else {
        assert IsResident(es - todo, id) && Names(cs, id);
        var i :| 0 <= i < |cs| && cs[i].modelId == id;
        assert cs'[i].modelId == id;
      }
    }
  }

  lemma OrderExists(p: Policy, reg: Registry, es: Entries) returns (order: seq<Candidate>)
    ensures VictimOrder(p, reg, es, order)
  {
    var cs, todo := [], es.Keys;
    assert es - todo == map[];
    while todo != {}
      invariant todo <= es.Keys && Lists(reg, es - todo, cs)
    {
      var k :| k in todo;
      ListStep(reg, es, todo, k, cs);
      cs, todo := cs + Next(reg, es, k), todo - {k};
    }
    assert es - todo == es;
    order := OrderVictims(p, cs);
    ListsPermuted(p, reg, es, cs, order);
  }

  lemma ListsPermuted(p: Policy, reg: Registry, es: Entries, cs: seq<Candidate>, order: seq<Candidate>)
    requires Sorted(p, order) && Lists(reg, es, cs) && multiset(order) == multiset(cs)
    ensures Lists(reg, es, order)
  {
    forall i | 0 <= i < |order| ensures IsResident(es, order[i].modelId)
        && order[i] == CandidateOf(reg, es, order[i].modelId) {
      assert order[i] in multiset(cs);
    }
    forall id | IsResident(es, id) ensures Names(order, id) {
      assert Names(cs, id);
      var i :| 0 <= i < |cs| && cs[i].modelId == id;
      assert cs[i] in multiset(order);
    }
    forall i, j | 0 <= i < j < |order| ensures order[i].modelId != order[j].modelId {
      BeforeTotal(p, order[i], order[i]);
    }
  }

  lemma UnloadCounts(es: Entries, id: string)
    requires IsResident(es, id)
    ensures var es' := es[id := es[id].(state := Unloaded)];
            && Residents(es') == Residents(es) - {id} && |Residents(es')| == |Residents(es)| - 1
            && EverLoaded(es') == EverLoaded(es)
  {
    var es' := es[id := es[id].(state := Unloaded)];
    assert Residents(es') == Residents(es) - {id};
    assert id in Residents(es);
  }

  lemma UnloadConserves(reg: Registry, budget: nat, s: Store, id: string)
    requires Conserved(reg, budget, s) && id in s.entries
    ensures Conserved(reg, budget, Store(s.entries[id := s.entries[id].(state := Unloaded)], s.counter))
  {
    HeldUpdate(s.entries, id, s.entries[id].(state := Unloaded));
    forall x | IsResident(s.entries[id := s.entries[id].(state := Unloaded)], x) ensures IsResident(s.entries, x) {
    }
  }

  lemma {:induction false} EvictSnoc(es: Entries, order: seq<Candidate>, c: Candidate)
    ensures var left := Evict(es, order);
            Evict(es, order + [c]) == left[c.modelId := EntryOf(left, c.modelId).(state := Unloaded)]
    decreases order
  {
    if order == [] {
      assert order + [c] == [c];
    } else {
      var id := order[0].modelId;
      assert (order + [c])[1..] == order[1..] + [c];
      EvictSnoc(es[id := EntryOf(es, id).(state := Unloaded)], order[1..], c);
    }
  }

  class ModelManager {
    const registry: Registry
    const policy: Policy
    const resources: ResourceManager
    const backend: Backend
    var entries: Entries
    var touchCounter: nat
    var metrics: Metrics

    ghost function Contents(): Store reads this { Store(entries, touchCounter) }

    /** What anyone may see at any moment, also while a load or an unload is under way. */
    ghost predicate Accounted() reads this, resources {
      resources.Valid() && resources.used == Held(entries)
    }

    ghost predicate Valid() reads this, resources, backend {
      && Accounted() && Conserved(registry, resources.budget, Contents())
      && backend.loaded == Residents(entries)
      && MetricsOk()
    }

    constructor (registry: Registry, policy: Policy, budget: nat)
      ensures Valid() && fresh(resources) && fresh(backend) && resources.budget == budget
      ensures this.registry == registry && this.policy == policy && Contents() == Store(map[], 0)
    {
      this.registry, this.policy := registry, policy;
      resources := new ResourceManager(budget);
      backend := new Backend();
      entries, touchCounter, metrics := map[], 0, Metrics(0, 0, 0, 0, 0, 0);
    }

    // ----- eviction -----

    method BeginEviction(id: string) returns (status: ErrorCode)
      requires Accounted()
      modifies this`entries
      ensures Accounted()
      ensures if IsResident(old(entries), id)
              then status == NoError && entries == old(entries)[id := old(entries)[id].(state := Evicting)]
              else status == InternalError && entries == old(entries)
    {
      if id !in entries || entries[id].state != Resident {
        return InternalError;
      }
      HeldUpdate(entries, id, entries[id].(state := Evicting));
      entries := entries[id := entries[id].(state := Evicting)];
      return NoError;
    }

    method FinishEviction(victim: Candidate, unloaded: ErrorCode)
      requires Accounted() && victim.modelId in entries
      requires entries[victim.modelId].state == Evicting && entries[victim.modelId].bytes == victim.bytes
      modifies this`entries, this`metrics, resources
      ensures Accounted()
      ensures var e := old(entries)[victim.modelId];
              entries == old(entries)[victim.modelId := e.(state := if unloaded == NoError then Unloaded else Resident)]
      ensures var m := old(metrics);
              metrics == if unloaded == NoError then m.(unloads := m.unloads + 1, evictions := m.evictions + 1) else m
    {
      var id := victim.modelId;
      if unloaded != NoError {
        HeldUpdate(entries, id, entries[id].(state := Resident));
        entries := entries[id := entries[id].(state := Resident)];
        return;
      }
      HeldSplit(entries, id);
      HeldUpdate(entries, id, entries[id].(state := Unloaded));
      entries := entries[id := entries[id].(state := Unloaded)];
      var released := resources.Release(victim.bytes);
      assert released == NoError;  // never an over-release
      metrics := metrics.(unloads := metrics.unloads + 1, evictions := metrics.evictions + 1);
    }

    /** Unload one model; a failed unload leaves everything as it was. */
    method EvictOne(victim: Candidate) returns (status: ErrorCode)
      requires Valid() && IsResident(entries, victim.modelId) && entries[victim.modelId].bytes == victim.bytes
      modifies this`entries, this`metrics, resources, backend
      ensures Valid() && SameLookups(metrics, old(metrics))
      ensures entries == if status == NoError
          then old(entries)[victim.modelId := old(entries)[victim.modelId].(state := Unloaded)] else old(entries)
      ensures backend.failures == old(backend.failures) + (if status == NoError then 0 else 1)
    {
      var id := victim.modelId;
      ghost var before := entries;
      status := BeginEviction(id);
      status := backend.Unload(id);
      FinishEviction(victim, status);
      if status == NoError {
        assert entries == before[id := before[id].(state := Unloaded)];
        UnloadCounts(before, id);
        UnloadConserves(registry, resources.budget, Store(before, touchCounter), id);
      } else {
        assert entries == before;
      }
    }

    ghost predicate MetricsOk() reads this {
      && metrics.evictions == metrics.unloads
      && metrics.loads == metrics.unloads + |Residents(entries)|
      && metrics.loads == metrics.reloads + |EverLoaded(entries)|
    }

    /** The resident models in hash-map order. */
    method CollectCandidates() returns (cs: seq<Candidate>)
      ensures Lists(registry, entries, cs)
    {
      cs := [];
      var todo := entries.Keys;
      assert entries - todo == map[];
      while todo != {}
        invariant todo <= entries.Keys && Lists(registry, entries - todo, cs)
        decreases todo
      {
        var k :| k in todo;
        ListStep(registry, entries, todo, k, cs);
        cs, todo := cs + Next(registry, entries, k), todo - {k};
      }
      assert entries - todo == entries;
    }

    /** The first `n` of the order have been evicted and that was not enough at any earlier point. */
    ghost predicate Freeing(start: Entries, order: seq<Candidate>, n: nat, needed: nat) reads this, resources, backend {
      && Valid() && n <= |order| && entries == Evict(start, order[..n])
      && VictimOrder(policy, registry, entries, order[n..])
      && resources.used == Bytes(order[n..])
      && forall m | 0 <= m < n :: !Room(resources.budget, order, m, needed)
    }

    /** Sort the models resident now and evict the first. */
    method EvictNext(ghost start: Entries, ghost order: seq<Candidate>, ghost n: nat, needed: nat)
        returns (status: ErrorCode)
      requires Freeing(start, order, n, needed) && needed <= resources.budget && !resources.CanReserve(needed)
      modifies this`entries, this`metrics, resources, backend
      ensures SameLookups(metrics, old(metrics))
      ensures status == NoError ==> Freeing(start, order, n + 1, needed)
      ensures status != NoError ==> Freeing(start, order, n, needed) && entries == old(entries)
      ensures backend.failures == old(backend.failures) + (if status == NoError then 0 else 1)
    {
      ghost var rest := order[n..];
      var candidates := CollectCandidates();
      SameListing(registry, entries, candidates, rest);
      assert |candidates| == |multiset(candidates)| == |multiset(rest)| == |rest|;
      if candidates == [] {
        assert false;
        return InsufficientMemory;
      }
      var ordered := OrderVictims(policy, candidates);
      SortedIsUnique(policy, ordered, rest);
      status := EvictOne(ordered[0]);
      if status == NoError {
        EvictedOneMore(policy, registry, start, order, n);
        HeldIsResident(policy, registry, entries, order[n + 1..]);
      }
    }

    /** Evict in the policy's order, sorting again before each victim, until there is room. The
        victims are the shortest prefix of the order at the start that makes room. */
    method FreeMemoryFor(needed: nat) returns (status: ErrorCode, ghost order: seq<Candidate>, ghost n: nat)
      requires Valid() && needed <= resources.budget
      modifies this`entries, this`metrics, resources, backend
      ensures SameLookups(metrics, old(metrics))
      ensures Valid() && VictimOrder(policy, registry, old(entries), order) && n <= |order|
      ensures entries == Evict(old(entries), order[..n])
      ensures status == NoError ==> Minimal(resources.budget, order, n, needed) && resources.CanReserve(needed)
      ensures status != NoError ==> forall m | 0 <= m <= n :: !Room(resources.budget, order, m, needed)
      ensures backend.failures == old(backend.failures) + (if status == NoError then 0 else 1)
    {
      ghost var start := entries;
      order := OrderExists(policy, registry, entries);
      n := 0;
      assert order[..n] == [] && order[n..] == order;
      HeldIsResident(policy, registry, entries, order);
      while !resources.CanReserve(needed)
        invariant Freeing(start, order, n, needed) && SameLookups(metrics, old(metrics))
        invariant backend.failures == old(backend.failures)
        decreases |order| - n
      {
        status := EvictNext(start, order, n, needed);
        if status != NoError {
          return;
        }
        n := n + 1;
      }
      status := NoError;
    }

    // ----- loading -----

    /** Reserve the memory and mark the entry, before the backend is asked. */
    method BeginLoad(id: string, bytes: nat) returns (wasLoaded: bool)
      requires Accounted() && resources.CanReserve(bytes) && Weight(EntryOf(entries, id)) == 0
      modifies this`entries, resources
      ensures Accounted() && wasLoaded == EntryOf(old(entries), id).previouslyLoaded
      ensures entries == old(entries)[id := EntryOf(old(entries), id).(state := Loading, bytes := bytes)]
    {
      var e := EntryOf(entries, id);
      wasLoaded := e.previouslyLoaded;
      var reserved := resources.Reserve(bytes);
      assert reserved == NoError;
      HeldUpdate(entries, id, e.(state := Loading, bytes := bytes));
      entries := entries[id := e.(state := Loading, bytes := bytes)];
    }

    method FinishLoad(id: string, bytes: nat, loaded: ErrorCode, wasLoaded: bool)
      requires Accounted() && id in entries && entries[id].state == Loading && entries[id].bytes == bytes
      modifies this`entries, this`touchCounter, this`metrics, resources
      ensures Accounted()
      ensures Contents() == AfterLoad(old(Contents()), id, bytes, loaded == NoError)
      ensures metrics == if loaded == NoError
                         then old(metrics).(loads := old(metrics).loads + 1,
                             reloads := old(metrics).reloads + (if wasLoaded then 1 else 0))
                         else old(metrics)
    {
      var e := entries[id];
      if loaded != NoError {
        HeldSplit(entries, id);
        HeldUpdate(entries, id, e.(state := Failed));
        var released := resources.Release(bytes);
        assert released == NoError;  // never an over-release
        entries := entries[id := e.(state := Failed)];
        return;
      }
      touchCounter := touchCounter + 1;
      var e' := e.(state := Resident, lastUsed := touchCounter, previouslyLoaded := true, useCount := e.useCount + 1);
      HeldUpdate(entries, id, e');
      entries := entries[id := e'];
      metrics := metrics.(loads := metrics.loads + 1);
      if wasLoaded {
        metrics := metrics.(reloads := metrics.reloads + 1);
      }
    }

    /** Load a model for which there is room. */
    method LoadInto(id: string, bytes: nat) returns (status: ErrorCode)
      requires Accounted() && backend.loaded == Residents(entries) && MetricsOk()
      requires resources.CanReserve(bytes) && Weight(EntryOf(entries, id)) == 0 && !IsResident(entries, id)
      modifies this`entries, this`touchCounter, this`metrics, resources, backend
      ensures Accounted() && backend.loaded == Residents(entries) && MetricsOk()
      ensures SameLookups(metrics, old(metrics))
      ensures Contents() == AfterLoad(old(Contents()), id, bytes, status == NoError)
      ensures backend.failures == old(backend.failures) + (if status == NoError then 0 else 1)
    {
      ghost var before := entries;
      var wasLoaded := BeginLoad(id, bytes);
      status := backend.Load(id);
      FinishLoad(id, bytes, status, wasLoaded);
      LoadedOver(Store(before, old(touchCounter)), id, bytes, status == NoError);
      LoadCounts(before, id, entries[id]);
    }

    /** A hit: the entry gets the newest stamp. */
    method Touch(id: string)
      requires Valid() && IsResident(entries, id)
      modifies this`entries, this`touchCounter, this`metrics
      ensures Accounted() && backend.loaded == Residents(entries) && MetricsOk()
      ensures metrics == old(metrics).(hits := old(metrics).hits + 1)
      ensures var e := old(entries)[id];
              Contents() == Store(old(entries)[id := e.(lastUsed := old(touchCounter) + 1, useCount := e.useCount + 1)],
                  old(touchCounter) + 1)
    {
      ghost var before := entries;
      metrics := metrics.(hits := metrics.hits + 1);
      touchCounter := touchCounter + 1;
      var e := entries[id].(lastUsed := touchCounter, useCount := entries[id].useCount + 1);
      HeldUpdate(entries, id, e);
      entries := entries[id := e];
      assert Residents(entries) == Residents(before) && EverLoaded(entries) == EverLoaded(before);
    }

    method Hit(id: string)
      requires Valid() && IsResident(entries, id)
      modifies this`entries, this`touchCounter, this`metrics
      ensures Valid() && IsResident(entries, id) && EnsureStep(policy, registry, resources.budget, old(Contents()),
          Contents(), id, NoError, [], 0)
      ensures metrics == old(metrics).(hits := old(metrics).hits + 1)
    {
      ghost var before := Contents();
      Touch(id);
      StepConserves(policy, registry, resources.budget, before, Contents(), id, NoError, [], 0);
    }

    method EnsureResident(id: string) returns (status: ErrorCode, ghost order: seq<Candidate>, ghost n: nat)
      requires Valid()
      modifies this`entries, this`touchCounter, this`metrics, resources, backend
      ensures Valid()
      ensures EnsureStep(policy, registry, resources.budget, old(Contents()), Contents(), id, status, order, n)
      ensures status == NoError ==> id in backend.loaded
      // who goes goes by its figures, and only this model is used once more
      ensures InOrder(policy, registry, old(entries), entries, id, status)
      // a registered model that could fit is refused only when a call of the backend fails
      ensures id in registry && registry[id].bytes <= resources.budget
          ==> (status == NoError <==> backend.failures == old(backend.failures))
      ensures var hit := IsResident(old(entries), id);
              metrics.hits == old(metrics).hits + (if hit then 1 else 0)
                  && metrics.misses == old(metrics).misses + (if hit then 0 else 1)
    {
      ghost var before := Contents();
      status, order, n := HitOrMiss(id);
      CallInOrder(policy, registry, resources.budget, before, Contents(), id, status, order, n);
    }

    method HitOrMiss(id: string) returns (status: ErrorCode, ghost order: seq<Candidate>, ghost n: nat)
      requires Valid()
      modifies this`entries, this`touchCounter, this`metrics, resources, backend
      ensures Valid()
      ensures EnsureStep(policy, registry, resources.budget, old(Contents()), Contents(), id, status, order, n)
      ensures status == NoError ==> id in backend.loaded
      // a registered model that could fit is refused only when a call of the backend fails
      ensures id in registry && registry[id].bytes <= resources.budget
          ==> (status == NoError <==> backend.failures == old(backend.failures))
      ensures var hit := IsResident(old(entries), id);
              metrics.hits == old(metrics).hits + (if hit then 1 else 0)
                  && metrics.misses == old(metrics).misses + (if hit then 0 else 1)
    {
      order, n := [], 0;
      if id in entries && entries[id].state == Resident {
        Hit(id);
        return NoError, order, n;
      }
      metrics := metrics.(misses := metrics.misses + 1);
      if id !in registry {
        return ModelNotFound, order, n;
      }
      if registry[id].bytes > resources.budget {
        return InsufficientMemory, order, n;
      }
      status, order, n := Miss(id);
    }

    /** A miss on a registered model that could fit. */
    method Miss(id: string) returns (status: ErrorCode, ghost order: seq<Candidate>, ghost n: nat)
      requires Valid() && id in registry && registry[id].bytes <= resources.budget && !IsResident(entries, id)
      modifies this`entries, this`touchCounter, this`metrics, resources, backend
      ensures Valid()
      ensures EnsureStep(policy, registry, resources.budget, old(Contents()), Contents(), id, status, order, n)
      ensures status == NoError ==> IsResident(entries, id)
      ensures SameLookups(metrics, old(metrics))
      ensures backend.failures == old(backend.failures) + (if status == NoError then 0 else 1)
    {
      ghost var before := Contents();
      var bytes := registry[id].bytes;
      status, order, n := FreeMemoryFor(bytes);
      if status != NoError {
        return;
      }
      EvictKeepsRest(before.entries, order[..n], id);
      status := LoadInto(id, bytes);
      MissMade(policy, registry, resources.budget, before, Contents(), id, status, order, n);
    }
  }

  lemma LoadedOver(s: Store, id: string, bytes: nat, ok: bool)
    ensures AfterLoad(s.(entries := s.entries[id := EntryOf(s.entries, id).(state := Loading, bytes := bytes)]), id,
        bytes, ok)
         == AfterLoad(s, id, bytes, ok)
    ensures AfterLoad(s, id, bytes, ok).entries == s.entries[id := AfterLoad(s, id, bytes, ok).entries[id]]
  {
  }

  lemma LoadCounts(es: Entries, id: string, e: Entry)
    requires !IsResident(es, id) && (e.state == Resident ==> e.previouslyLoaded)
    requires e.state != Resident ==> e.previouslyLoaded == EntryOf(es, id).previouslyLoaded
    ensures var es' := es[id := e]; var loaded := e.state == Resident;
            && Residents(es') == (if loaded then Residents(es) + {id} else Residents(es))
            && |Residents(es')| == |Residents(es)| + (if loaded then 1 else 0)
            && |EverLoaded(es')| == |EverLoaded(es)| + (if loaded && !EntryOf(es, id).previouslyLoaded then 1 else 0)
  {
    var es' := es[id := e];
    if e.state == Resident {
      assert Residents(es') == Residents(es) + {id} && id !in Residents(es);
      assert EverLoaded(es') == EverLoaded(es) + {id};
      assert id in EverLoaded(es) <==> EntryOf(es, id).previouslyLoaded;
    } else {
      assert Residents(es') == Residents(es);
      assert EverLoaded(es') == EverLoaded(es);
    }
  }

  lemma MissMade(p: Policy, reg: Registry, budget: nat, s: Store, s': Store, id: string, status: ErrorCode,
                 order: seq<Candidate>, n: nat)
    requires Conserved(reg, budget, s) && id in reg && reg[id].bytes <= budget && !IsResident(s.entries, id)
    requires VictimOrder(p, reg, s.entries, order) && Minimal(budget, order, n, reg[id].bytes)
    requires s' == AfterLoad(Store(Evict(s.entries, order[..n]), s.counter), id, reg[id].bytes, status == NoError)
    ensures EnsureStep(p, reg, budget, s, s', id, status, order, n) && Conserved(reg, budget, s')
  {
    StepConserves(p, reg, budget, s, s', id, status, order, n);
  }

  lemma EvictedOneMore(p: Policy, reg: Registry, start: Entries, order: seq<Candidate>, n: nat)
    requires n < |order| && VictimOrder(p, reg, Evict(start, order[..n]), order[n..])
    ensures var left := Evict(start, order[..n]); var id := order[n].modelId;
            && id in left && Evict(start, order[..n + 1]) == left[id := left[id].(state := Unloaded)]
            && VictimOrder(p, reg, Evict(start, order[..n + 1]), order[n + 1..])
  {
    UnloadFront(p, reg, Evict(start, order[..n]), order[n..]);
    EvictSnoc(start, order[..n], order[n]);
    assert order[..n] + [order[n]] == order[..n + 1] && order[n..][1..] == order[n + 1..];
  }
}
