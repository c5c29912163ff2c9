/**
 The two eviction policies: each returns the candidates sorted by a strict total order, so the
 answer does not depend on the order in which the candidates were listed.
 */
module EvictionPolicy {
  import opened Types

  datatype Candidate = Candidate(modelId: string, bytes: nat, lastUsed: nat, useCount: nat, loadCost: nat)

  datatype Policy = Lru | CostAware

  /** `a` is evicted before `b`. */
  predicate Before(p: Policy, a: Candidate, b: Candidate) {
    match p
    case Lru =>
      if a.lastUsed != b.lastUsed then a.lastUsed < b.lastUsed
      else StringLess(a.modelId, b.modelId)
    case CostAware =>
      if a.loadCost != b.loadCost then a.loadCost < b.loadCost
      else if a.useCount != b.useCount then a.useCount < b.useCount
      else if a.bytes != b.bytes then a.bytes > b.bytes
      else if a.lastUsed != b.lastUsed then a.lastUsed < b.lastUsed
      else StringLess(a.modelId, b.modelId)
  }

  lemma {:induction false} StringLessTotal(a: string, b: string)
    ensures a == b || StringLess(a, b) || StringLess(b, a)
    ensures !(StringLess(a, b) && StringLess(b, a)) && !StringLess(a, a)
  {
    if a != "" {
      StringLessTotal(a[1..], a[1..]);
    }
    if a != "" && b != "" {
      StringLessTotal(a[1..], b[1..]);
      if a[0] == b[0] && a[1..] == b[1..] {
        assert a == [a[0]] + a[1..] == b;
      }
    }
  }

  lemma {:induction false} StringLessTransitive(a: string, b: string, c: string)
    requires StringLess(a, b) && StringLess(b, c)
    ensures StringLess(a, c)
  {
    if a != "" && a[0] == b[0] && b[0] == c[0] {
      StringLessTransitive(a[1..], b[1..], c[1..]);
    }
  }

  lemma BeforeTotal(p: Policy, a: Candidate, b: Candidate)
    ensures a.modelId != b.modelId ==> Before(p, a, b) || Before(p, b, a)
    ensures !(Before(p, a, b) && Before(p, b, a)) && !Before(p, a, a)
  {
    StringLessTotal(a.modelId, b.modelId);
    StringLessTotal(a.modelId, a.modelId);
  }

  lemma BeforeTransitive(p: Policy, a: Candidate, b: Candidate, c: Candidate)
    requires Before(p, a, b) && Before(p, b, c)
    ensures Before(p, a, c)
  {
    if StringLess(a.modelId, b.modelId) && StringLess(b.modelId, c.modelId) {
      StringLessTransitive(a.modelId, b.modelId, c.modelId);
    }
  }

  ghost predicate Sorted(p: Policy, cs: seq<Candidate>) {
    forall i, j | 0 <= i < j < |cs| :: Before(p, cs[i], cs[j])
  }

  /** A listing of candidates names every model once. */
  predicate Distinct(cs: seq<Candidate>) {
    forall i, j | 0 <= i < j < |cs| :: cs[i].modelId != cs[j].modelId
  }

  function Insert(p: Policy, c: Candidate, cs: seq<Candidate>): (r: seq<Candidate>)
    requires Sorted(p, cs) && forall i | 0 <= i < |cs| :: cs[i].modelId != c.modelId
    ensures Sorted(p, r) && multiset(r) == multiset(cs) + multiset{c}
  {
    if cs == [] then [c]
    else if Before(p, c, cs[0]) then
      assert Sorted(p, [c] + cs) by { InsertFront(p, c, cs); }
      [c] + cs
    else
      var rest := Insert(p, c, cs[1..]);
      assert Sorted(p, [cs[0]] + rest) by { InsertRest(p, c, cs, rest); }
      assert cs == [cs[0]] + cs[1..];
      [cs[0]] + rest
  }

  lemma InsertFront(p: Policy, c: Candidate, cs: seq<Candidate>)
    requires Sorted(p, cs) && cs != [] && Before(p, c, cs[0])
    ensures Sorted(p, [c] + cs)
  {
    forall j | 0 < j < |cs| ensures Before(p, c, cs[j]) {
      BeforeTransitive(p, c, cs[0], cs[j]);
    }
  }

  lemma InsertRest(p: Policy, c: Candidate, cs: seq<Candidate>, rest: seq<Candidate>)
    requires Sorted(p, cs) && cs != [] && !Before(p, c, cs[0]) && cs[0].modelId != c.modelId
    requires Sorted(p, rest) && multiset(rest) == multiset(cs[1..]) + multiset{c}
    ensures Sorted(p, [cs[0]] + rest)
  {
    forall j | 0 <= j < |rest| ensures Before(p, cs[0], rest[j]) {
      assert rest[j] in multiset(rest);
      if rest[j] == c {
        BeforeTotal(p, cs[0], c);
      } else {
        assert rest[j] in cs[1..];
      }
    }
  }

  lemma HeadIsOther(candidates: seq<Candidate>, rest: seq<Candidate>)
    requires Distinct(candidates) && candidates != [] && multiset(rest) == multiset(candidates[1..])
    ensures forall i | 0 <= i < |rest| :: rest[i].modelId != candidates[0].modelId
  {
    forall i | 0 <= i < |rest| ensures rest[i].modelId != candidates[0].modelId {
      assert rest[i] in multiset(rest);
      assert rest[i] in candidates[1..];
    }
  }

  /** The victims in the order in which they are to go. */
  function OrderVictims(p: Policy, candidates: seq<Candidate>): (r: seq<Candidate>)
    requires Distinct(candidates)
    ensures Sorted(p, r) && multiset(r) == multiset(candidates)
  {
    if candidates == [] then []
    else
      var rest := OrderVictims(p, candidates[1..]);
      assert candidates == [candidates[0]] + candidates[1..];
      HeadIsOther(candidates, rest);
      Insert(p, candidates[0], rest)
  }

  lemma SortedHead(p: Policy, a: seq<Candidate>, b: seq<Candidate>)
    requires Sorted(p, a) && Sorted(p, b) && multiset(a) == multiset(b) && a != []
    ensures b != [] && a[0] == b[0] && multiset(a[1..]) == multiset(b[1..])
  {
    assert a[0] in multiset(b);
    var i :| 0 <= i < |b| && b[i] == a[0];
    assert b[0] in multiset(a);
    var j :| 0 <= j < |a| && a[j] == b[0];
    BeforeTotal(p, a[0], b[0]);
    TailMultiset(a);
    TailMultiset(b);
  }

  lemma TailMultiset(cs: seq<Candidate>)
    requires cs != []
    ensures multiset(cs[1..]) == multiset(cs) - multiset{cs[0]}
  {
    assert cs == [cs[0]] + cs[1..];
  }

  /** Any two sorted listings of the same candidates are equal: neither the order of a hash map
      nor the stability of the sort can show. */
  lemma {:induction false} SortedIsUnique(p: Policy, a: seq<Candidate>, b: seq<Candidate>)
    requires Sorted(p, a) && Sorted(p, b) && multiset(a) == multiset(b)
    ensures a == b
  {
    if a == [] {
      assert |b| == |multiset(b)|;
    } else {
      SortedHead(p, a, b);
      SortedIsUnique(p, a[1..], b[1..]);
      assert a == [a[0]] + a[1..] && b == [b[0]] + b[1..];
    }
  }

  /** What the cost-aware order means for the figures of two victims: the cheaper to load again goes first, then the
      less used, then the larger, then the longer unused, then the smaller id. */
  lemma CostAwareOrder(candidates: seq<Candidate>, i: nat, j: nat)
    requires Distinct(candidates) && i < j < |OrderVictims(CostAware, candidates)|
    ensures var a, b := OrderVictims(CostAware, candidates)[i], OrderVictims(CostAware, candidates)[j];
            && a.loadCost <= b.loadCost
            && (a.loadCost == b.loadCost ==> a.useCount <= b.useCount)
            && (a.loadCost == b.loadCost && a.useCount == b.useCount ==> a.bytes >= b.bytes)
            && (a.loadCost == b.loadCost && a.useCount == b.useCount && a.bytes == b.bytes ==> a.lastUsed <= b.lastUsed)
            && ((a.loadCost, a.useCount, a.bytes, a.lastUsed) == (b.loadCost, b.useCount, b.bytes, b.lastUsed) ==>
                  StringLess(a.modelId, b.modelId))
  {
    assert Before(CostAware, OrderVictims(CostAware, candidates)[i], OrderVictims(CostAware, candidates)[j]);
  }

  /** And the other: the longer unused goes first, then the smaller id. */
  lemma LruOrder(candidates: seq<Candidate>, i: nat, j: nat)
    requires Distinct(candidates) && i < j < |OrderVictims(Lru, candidates)|
    ensures var a, b := OrderVictims(Lru, candidates)[i], OrderVictims(Lru, candidates)[j];
            a.lastUsed <= b.lastUsed && (a.lastUsed == b.lastUsed ==> StringLess(a.modelId, b.modelId))
  {
    assert Before(Lru, OrderVictims(Lru, candidates)[i], OrderVictims(Lru, candidates)[j]);
  }
}
