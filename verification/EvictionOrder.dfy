/**
 Who goes and who stays, by the figures of the models themselves; and what a call does to those
 figures.
 */
module EvictionOrder {
  import opened Types
  import opened EvictionPolicy
  import opened ResidencySpec
  import opened LruRefinement

  /** The call took model `x` out of the residents and left model `y` among them. */
  predicate Spares(es: Entries, es': Entries, x: string, y: string) {
    IsResident(es, x) && !IsResident(es', x) && IsResident(es, y) && IsResident(es', y)
  }

  /** By their figures, `x` is to go no later than `y`. */
  predicate GoesFirst(p: Policy, reg: Registry, es: Entries, x: string, y: string)
    requires x in es && y in es && x in reg && y in reg
  {
    var cx, cy, ux, uy := reg[x].loadCost, reg[y].loadCost, es[x].useCount, es[y].useCount;
    match p
    case Lru => es[x].lastUsed <= es[y].lastUsed && (es[x].lastUsed == es[y].lastUsed ==> StringLess(x, y))
    case CostAware =>
      && cx <= cy && (cx == cy ==> ux <= uy)
      && (cx == cy && ux == uy ==> es[x].bytes >= es[y].bytes)
      && (cx == cy && ux == uy && es[x].bytes == es[y].bytes ==> es[x].lastUsed <= es[y].lastUsed)
      && (cx == cy && ux == uy && es[x].bytes == es[y].bytes && es[x].lastUsed == es[y].lastUsed ==> StringLess(x, y))
  }

  /** Whoever is named before the cut goes before whoever is not. */
  lemma CutOrder(p: Policy, reg: Registry, es: Entries, order: seq<Candidate>, n: nat, x: string, y: string)
    requires VictimOrder(p, reg, es, order) && n <= |order| && Names(order[..n], x) && !Names(order[..n], y)
    requires IsResident(es, x) && IsResident(es, y) && x in reg && y in reg
    ensures GoesFirst(p, reg, es, x, y)
  {
    var i :| 0 <= i < n && order[..n][i].modelId == x;
    assert Names(order, y);
    var j :| 0 <= j < |order| && order[j].modelId == y;
    forall q | 0 <= q < n ensures order[q].modelId != y {
      assert order[..n][q] == order[q];
    }
    assert Before(p, order[i], order[j]);
  }

  /** No model left resident would have had to go before one that went. */
  lemma EvictedGoFirst(p: Policy, reg: Registry, budget: nat, s: Store, s': Store, id: string, status: ErrorCode,
                       order: seq<Candidate>, n: nat, x: string, y: string)
    requires Conserved(reg, budget, s) && EnsureStep(p, reg, budget, s, s', id, status, order, n)
    requires Spares(s.entries, s'.entries, x, y)
    ensures x in reg && y in reg && GoesFirst(p, reg, s.entries, x, y)
  {
    EvictKeepsRest(s.entries, order[..n], x);
    EvictKeepsRest(s.entries, order[..n], y);
    CutOrder(p, reg, s.entries, order, n, x, y);
  }

  /** A successful call uses its model once more and stamps it as the latest; nothing else is used or stamped. */
  lemma UsesOnlyIt(p: Policy, reg: Registry, budget: nat, s: Store, s': Store, id: string, status: ErrorCode,
                   order: seq<Candidate>, n: nat, x: string)
    requires Conserved(reg, budget, s) && EnsureStep(p, reg, budget, s, s', id, status, order, n)
    ensures var e, e' := EntryOf(s.entries, x), EntryOf(s'.entries, x);
            && e'.useCount == e.useCount + (if x == id && status == NoError then 1 else 0)
            && (x == id && status == NoError ==> e'.lastUsed == s'.counter == s.counter + 1)
            && (x != id || status != NoError ==> e'.lastUsed == e.lastUsed)
  {
    if n <= |order| {
      EvictKeepsRest(s.entries, order[..n], x);
      EvictKeepsRest(s.entries, order[..n], id);
    }
  }

  /** Both, for every model. */
  ghost predicate InOrder(p: Policy, reg: Registry, es: Entries, es': Entries, id: string, status: ErrorCode) {
    && (forall x, y | Spares(es, es', x, y) :: x in reg && y in reg && GoesFirst(p, reg, es, x, y))
    && (forall x ::
          EntryOf(es', x).useCount == EntryOf(es, x).useCount + (if x == id && status == NoError then 1 else 0))
  }

  lemma CallInOrder(p: Policy, reg: Registry, budget: nat, s: Store, s': Store, id: string, status: ErrorCode,
                    order: seq<Candidate>, n: nat)
    requires Conserved(reg, budget, s) && EnsureStep(p, reg, budget, s, s', id, status, order, n)
    ensures InOrder(p, reg, s.entries, s'.entries, id, status)
  {
    forall x, y | Spares(s.entries, s'.entries, x, y)
      ensures x in reg && y in reg && GoesFirst(p, reg, s.entries, x, y)
    {
      EvictedGoFirst(p, reg, budget, s, s', id, status, order, n, x, y);
    }
    forall x
      ensures EntryOf(s'.entries, x).useCount
           == EntryOf(s.entries, x).useCount + (if x == id && status == NoError then 1 else 0)
    {
      UsesOnlyIt(p, reg, budget, s, s', id, status, order, n, x);
    }
  }
}
