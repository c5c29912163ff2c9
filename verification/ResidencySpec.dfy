/**
 What the residency cache of a worker promises, on values: the memory a store of entries holds,
 the victims a miss evicts, and the recency list that an LRU store amounts to.
 */
module ResidencySpec {
  import opened Types
  import opened EvictionPolicy

  datatype ModelState = Unloaded | Loading | Resident | Evicting | Failed

  datatype Entry = Entry(state: ModelState, bytes: nat, lastUsed: nat, useCount: nat, previouslyLoaded: bool)

  datatype Spec = Spec(bytes: nat, loadCost: nat)

  type Registry = map<string, Spec>
  type Entries = map<string, Entry>

  const FRESH := Entry(Unloaded, 0, 0, 0, false)

  function EntryOf(es: Entries, id: string): Entry {
    if id in es then es[id] else FRESH
  }

  // ----- memory held -----

  /** A model holds its memory from the reservation before its load to the release after its unload. */
  function Weight(e: Entry): nat {
    if e.state in {Resident, Loading, Evicting} then e.bytes else 0
  }

  ghost function Held(es: Entries): nat {
    if es == map[] then 0
    else
      var k :| k in es;
      Weight(es[k]) + Held(es - {k})
  }

  lemma {:induction false} HeldSplit(es: Entries, k: string)
    requires k in es
    ensures Held(es) == Weight(es[k]) + Held(es - {k})
  {
    var j :| j in es && Held(es) == Weight(es[j]) + Held(es - {j});
    if j != k {
      HeldSplit(es - {j}, k);
      HeldSplit(es - {k}, j);
      assert es - {j} - {k} == es - {k} - {j};
    }
  }

  lemma HeldUpdate(es: Entries, k: string, e: Entry)
    ensures Held(es[k := e]) == Held(es) - Weight(EntryOf(es, k)) + Weight(e)
  {
    HeldSplit(es[k := e], k);
    if k in es {
      HeldSplit(es, k);
      assert es[k := e] - {k} == es - {k};
    } else {
      assert es[k := e] - {k} == es;
    }
  }

  lemma {:induction false} HeldNothing(es: Entries)
    requires forall k | k in es :: Weight(es[k]) == 0
    ensures Held(es) == 0
  {
    if es != map[] {
      var k :| k in es && Held(es) == Weight(es[k]) + Held(es - {k});
      HeldNothing(es - {k});
    }
  }

  // ----- victims -----

  function CandidateOf(reg: Registry, es: Entries, id: string): Candidate
    requires id in es
  {
    Candidate(id, es[id].bytes, es[id].lastUsed, es[id].useCount, if id in reg then reg[id].loadCost else 1)
  }

  ghost predicate Names(cs: seq<Candidate>, id: string) {
    exists i :: 0 <= i < |cs| && cs[i].modelId == id
  }

  predicate IsResident(es: Entries, id: string) {
    id in es && es[id].state == Resident
  }

  /** The resident models, each once, with their current figures. */
  ghost predicate Lists(reg: Registry, es: Entries, cs: seq<Candidate>) {
    && Distinct(cs)
    && (forall i | 0 <= i < |cs| :: IsResident(es, cs[i].modelId) && cs[i] == CandidateOf(reg, es, cs[i].modelId))
    && (forall id {:trigger Names(cs, id)} | IsResident(es, id) :: Names(cs, id))
  }

  ghost predicate VictimOrder(p: Policy, reg: Registry, es: Entries, order: seq<Candidate>) {
    Sorted(p, order) && Lists(reg, es, order)
  }

  lemma {:induction false} SameListing(reg: Registry, es: Entries, a: seq<Candidate>, b: seq<Candidate>)
    requires Lists(reg, es, a) && Lists(reg, es, b)
    ensures multiset(a) == multiset(b)
  {
    forall c: Candidate ensures multiset(a)[c] == multiset(b)[c] {
      Listed(reg, es, a, c);
      Listed(reg, es, b, c);
    }
  }

  lemma CountOnce(cs: seq<Candidate>, i: nat)
    requires i < |cs| && forall j | 0 <= j < |cs| && j != i :: cs[j] != cs[i]
    ensures multiset(cs)[cs[i]] == 1
  {
    assert cs == cs[..i] + [cs[i]] + cs[i + 1..];
    assert cs[i] !in cs[..i] && cs[i] !in cs[i + 1..];
  }

  lemma Listed(reg: Registry, es: Entries, cs: seq<Candidate>, c: Candidate)
    requires Lists(reg, es, cs)
    ensures multiset(cs)[c] == if IsResident(es, c.modelId) && c == CandidateOf(reg, es, c.modelId) then 1 else 0
  {
    if IsResident(es, c.modelId) && c == CandidateOf(reg, es, c.modelId) {
      assert Names(cs, c.modelId);
      var i :| 0 <= i < |cs| && cs[i].modelId == c.modelId;
      CountOnce(cs, i);
    } else {
      assert c !in cs;
    }
  }

  lemma VictimOrderIsUnique(p: Policy, reg: Registry, es: Entries, a: seq<Candidate>, b: seq<Candidate>)
    requires VictimOrder(p, reg, es, a) && VictimOrder(p, reg, es, b)
    ensures a == b
  {
    SameListing(reg, es, a, b);
    SortedIsUnique(p, a, b);
  }

  function Bytes(cs: seq<Candidate>): nat {
    if cs == [] then 0 else cs[0].bytes + Bytes(cs[1..])
  }

  ghost predicate Quiet(es: Entries) {
    forall id | id in es :: es[id].state != Loading && es[id].state != Evicting
  }

  /** Unloading the first victim leaves the rest of the order. */
  lemma UnloadFront(p: Policy, reg: Registry, es: Entries, order: seq<Candidate>)
    requires VictimOrder(p, reg, es, order) && order != []
    ensures var id := order[0].modelId;
            VictimOrder(p, reg, es[id := es[id].(state := Unloaded)], order[1..])
  {
    var id := order[0].modelId;
    var es' := es[id := es[id].(state := Unloaded)];
    forall x | IsResident(es', x) ensures Names(order[1..], x) {
      assert IsResident(es, x);
      assert Names(order, x);
      var i :| 0 <= i < |order| && order[i].modelId == x;
      assert order[1..][i - 1].modelId == x;
    }
  }

  /** Between calls, the memory held is that of the resident models. */
  lemma {:induction false} HeldIsResident(p: Policy, reg: Registry, es: Entries, order: seq<Candidate>)
    requires VictimOrder(p, reg, es, order) && Quiet(es)
    ensures Held(es) == Bytes(order)
    decreases |order|
  {
    if order == [] {
      forall k | k in es ensures Weight(es[k]) == 0 {
        assert IsResident(es, k) ==> Names(order, k);
      }
      HeldNothing(es);
    } else {
      var id := order[0].modelId;
      var es' := es[id := es[id].(state := Unloaded)];
      UnloadFront(p, reg, es, order);
      HeldUpdate(es, id, es'[id]);
      HeldIsResident(p, reg, es', order[1..]);
    }
  }

  // ----- one call -----

  ghost predicate Room(budget: nat, order: seq<Candidate>, n: nat, bytes: nat)
    requires n <= |order|
  {
    Bytes(order[n..]) + bytes <= budget
  }

  /** `n` is the least number of victims whose release makes room. */
  ghost predicate Minimal(budget: nat, order: seq<Candidate>, n: nat, bytes: nat) {
    n <= |order| && Room(budget, order, n, bytes) && forall m | 0 <= m < n :: !Room(budget, order, m, bytes)
  }

  /** Exactly the first `n` of the order have been unloaded. */
  function Evict(es: Entries, order: seq<Candidate>): Entries
    decreases order
  {
    if order == [] then es
    else
      var id := order[0].modelId;
      Evict(es[id := EntryOf(es, id).(state := Unloaded)], order[1..])
  }

  datatype Store = Store(entries: Entries, counter: nat)

  /** The store after a load was tried: the entry becomes resident with the newest stamp, or failed. */
  function AfterLoad(s: Store, id: string, bytes: nat, ok: bool): Store {
    var e := EntryOf(s.entries, id);
    if ok then Store(s.entries[id := Entry(Resident, bytes, s.counter + 1, e.useCount + 1, true)], s.counter + 1)
    else Store(s.entries[id := e.(state := Failed, bytes := bytes)], s.counter)
  }

  /** One `ensure_resident`: `order` is the victim order at its start, `n` the victims it unloaded. */
  ghost predicate EnsureStep(p: Policy, reg: Registry, budget: nat, s: Store, s': Store, id: string, status: ErrorCode,
                             order: seq<Candidate>, n: nat) {
    var e := EntryOf(s.entries, id);
    if IsResident(s.entries, id) then
      status == NoError && s' == Store(s.entries[id := e.(lastUsed := s.counter + 1, useCount := e.useCount + 1)],
          s.counter + 1)
    else if id !in reg then
      status == ModelNotFound && s' == s
    else if reg[id].bytes > budget then
      status == InsufficientMemory && s' == s
    else
      && VictimOrder(p, reg, s.entries, order) && n <= |order|
      && var left := Store(Evict(s.entries, order[..n]), s.counter);
      || (Minimal(budget, order, n, reg[id].bytes) && s' == AfterLoad(left, id, reg[id].bytes, status == NoError))
      // an unload failed while there was not yet room
      || (status != NoError && s' == left && forall m | 0 <= m <= n :: !Room(budget, order, m, reg[id].bytes))
  }
}
