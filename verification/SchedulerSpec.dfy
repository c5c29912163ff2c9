/**
 What the workload-aware scheduler promises, on values: which steps it may take while requests
 die at any moment, and what holds in every run of such steps.
 */
module SchedulerSpec {

  datatype Request = Request(id: nat, model: string)

  datatype Entry = Entry(request: Request, sequence: nat, bypass: nat)

  datatype Limits = Limits(capacity: nat, maxBypass: nat)

  /** `queued` is keyed by sequence number; `dead` are the requests that are terminal by now.
      `stamps` remembers, for every sequence number, how many dispatches preceded its enqueue. */
  datatype State = State(
    queued: map<nat, Entry>, dead: set<nat>, nextSequence: nat,
    dispatched: nat, stamps: map<nat, nat>, reordered: nat, promotions: nat)

  const INITIAL := State(map[], {}, 0, 0, map[], 0, 0)

  predicate Live(s: State, k: nat) {
    k in s.queued && s.queued[k].request.id !in s.dead
  }

  predicate Starved(l: Limits, s: State, k: nat) {
    k in s.queued && s.queued[k].bypass >= l.maxBypass
  }

  ghost function Older(s: State, k: nat): set<nat> {
    set j | j in s.queued && j < k
  }

  /** The live entries of one model. */
  ghost function Group(s: State, model: string): set<nat> {
    set k | k in s.queued && Live(s, k) && s.queued[k].request.model == model
  }

  // ----- the entry that should be dispatched -----

  /** The oldest starved entry if there is one, otherwise the oldest entry of the largest group,
      where a tie goes to the group with the older entry. */
  ghost predicate IsChoice(l: Limits, s: State, k: nat) {
    && Live(s, k)
    && if exists j: nat :: Live(s, j) && Starved(l, s, j)
       then Starved(l, s, k) && forall j: nat | Live(s, j) && Starved(l, s, j) :: k <= j
       else forall j: nat | Live(s, j) ::
              var mine, theirs := |Group(s, s.queued[k].request.model)|, |Group(s, s.queued[j].request.model)|;
              theirs <= mine && (theirs == mine ==> k <= j)
  }

  /** Hence the order in which a hash map lists the models cannot matter. */
  lemma ChoiceIsUnique(l: Limits, s: State, k1: nat, k2: nat)
    requires IsChoice(l, s, k1) && IsChoice(l, s, k2)
    ensures k1 == k2
  {
    assert Live(s, k1) && Live(s, k2);
  }

  // ----- steps -----

  /** Entries that were removed are dead, everything else is as before. */
  ghost predicate Pruned(s: State, s': State) {
    && s' == s.(queued := s'.queued, dead := s'.dead)
    && s.dead <= s'.dead && s'.queued.Keys <= s.queued.Keys
    && (forall k | k in s'.queued :: s'.queued[k] == s.queued[k])
    && (forall k | k in s.queued && k !in s'.queued :: s.queued[k].request.id in s'.dead)
  }

  ghost predicate EnqueueStep(l: Limits, s: State, s': State, r: Request) {
    && |s.queued| < l.capacity && s.dead <= s'.dead
    && s' == s.(queued := s.queued[s.nextSequence := Entry(r, s.nextSequence, 0)], dead := s'.dead,
                nextSequence := s.nextSequence + 1, stamps := s.stamps[s.nextSequence := s.dispatched])
  }

  /** Every entry that stays and is still alive has been passed over once more. */
  ghost predicate Bumped(before: map<nat, Entry>, after: map<nat, Entry>, dead: set<nat>) {
    forall j | j in after :: j in before &&
      (after[j] == before[j].(bypass := before[j].bypass + 1) || (after[j] == before[j] && after[j].request.id in dead))
  }

  /** Some entry, dispatched or found dead on the way, left the queue and was older than every
      starved entry that is still alive. */
  ghost predicate StarvedGoFirst(l: Limits, s: State, s': State) {
    exists c :: c in s.queued && c !in s'.queued && forall j: nat | Live(s', j) && Starved(l, s, j) :: c < j
  }

  /** What every dispatch does, whatever dies during the select. */
  ghost predicate Taken(l: Limits, s: State, s': State, k: nat) {
    && Live(s, k) && s.dead <= s'.dead
    && s' == s.(queued := s'.queued, dead := s'.dead, dispatched := s.dispatched + 1, reordered := s'.reordered,
        promotions := s'.promotions)
    && s'.queued.Keys <= s.queued.Keys - {k}
    && (forall j | j in s.queued && j != k && j !in s'.queued :: s.queued[j].request.id in s'.dead)
    && Bumped(s.queued, s'.queued, s'.dead) && StarvedGoFirst(l, s, s')
    && (forall j | j in s.queued && j < k && s.queued[j].request.model == s.queued[k].request.model ::
        s.queued[j].request.id in s'.dead)
    && s.reordered <= s'.reordered <= s.reordered + 1 && s.promotions <= s'.promotions <= s.promotions + 1
  }

  /** What a dispatch does when nothing dies during the select. */
  ghost predicate Exact(l: Limits, s: State, s': State, k: nat) {
    && IsChoice(l, s, k)
    && s'.reordered == s.reordered + (if exists j: nat :: Live(s, j) && j < k then 1 else 0)
    && s'.promotions == s.promotions + (if Starved(l, s, k) then 1 else 0)
  }

  ghost predicate DispatchStep(l: Limits, s: State, s': State, k: nat) {
    Taken(l, s, s', k) && (s'.dead == s.dead ==> Exact(l, s, s', k))
  }

  /** `next` came back empty-handed: everything that was queued had died. */
  ghost predicate EmptyStep(s: State, s': State) {
    Pruned(s, s') && s'.queued == map[]
  }

  ghost predicate DeathStep(s: State, s': State) {
    s.dead <= s'.dead && s' == s.(dead := s'.dead)
  }

  ghost predicate Next(l: Limits, s: State, s': State) {
    || DeathStep(s, s') || EmptyStep(s, s')
    || (exists r :: EnqueueStep(l, s, s', r))
    || (exists k :: DispatchStep(l, s, s', k))
  }

  /** A pruning before a dispatch is part of the dispatch. */
  lemma PrunedThenTaken(l: Limits, s: State, s1: State, s2: State, k: nat)
    requires Pruned(s, s1) && Taken(l, s1, s2, k)
    ensures Taken(l, s, s2, k)
  {
    assert StarvedGoFirst(l, s, s2) by {
      var c :| c in s1.queued && c !in s2.queued && forall j: nat | Live(s2, j) && Starved(l, s1, j) :: c < j;
      assert forall j: nat | Live(s2, j) && Starved(l, s, j) :: c < j;
    }
  }

  lemma PrunedThenExact(l: Limits, s: State, s1: State, s2: State, k: nat)
    requires Pruned(s, s1) && Exact(l, s1, s2, k) && s1.dead == s.dead
    ensures Exact(l, s, s2, k)
  {
    assert forall j: nat :: Live(s, j) <==> Live(s1, j);
    forall m: string ensures Group(s, m) == Group(s1, m) {
    }
    assert forall j: nat | Live(s, j) :: Starved(l, s, j) <==> Starved(l, s1, j);
  }

  lemma PrunedThenDispatch(l: Limits, s: State, s1: State, s2: State, k: nat)
    requires Pruned(s, s1) && DispatchStep(l, s1, s2, k)
    ensures DispatchStep(l, s, s2, k)
  {
    PrunedThenTaken(l, s, s1, s2, k);
    if s2.dead == s.dead {
      PrunedThenExact(l, s, s1, s2, k);
    }
  }

  lemma PrunedTwice(s: State, s1: State, s2: State)
    requires Pruned(s, s1) && Pruned(s1, s2)
    ensures Pruned(s, s2)
  {
  }

  // ----- the invariant of every run -----

  /** A live entry has been passed over exactly once for every dispatch since its enqueue; once
      starved, each further dispatch costs it one of the entries older than itself. */
  ghost predicate Inv(l: Limits, s: State) {
    && |s.queued| <= l.capacity
    && (forall k | k in s.queued ::
        s.queued[k].sequence == k < s.nextSequence && k in s.stamps && s.stamps[k] <= s.dispatched)
    && (forall j, k | j in s.queued && k in s.queued && j < k :: s.stamps[j] <= s.stamps[k])
    && (forall k: nat | Live(s, k) :: s.queued[k].bypass == s.dispatched - s.stamps[k])
    && (forall k: nat | Live(s, k) && Starved(l, s, k) ::
        s.queued[k].bypass - l.maxBypass + |Older(s, k)| <= l.capacity - 1)
  }

  lemma OlderIsFewer(s: State, k: nat)
    requires k in s.queued
    ensures |Older(s, k)| <= |s.queued| - 1
  {
    assert Older(s, k) <= s.queued.Keys - {k};
    SubsetSize(Older(s, k), s.queued.Keys - {k});
  }

  lemma {:induction false} SubsetSize<T>(a: set<T>, b: set<T>)
    requires a <= b
    ensures |a| <= |b|
    ensures a < b ==> |a| < |b|
  {
    assert b == a + (b - a);
    assert a !! (b - a);
  }

  lemma PrunedInv(l: Limits, s: State, s': State)
    requires Inv(l, s) && Pruned(s, s')
    ensures Inv(l, s')
  {
    SubsetSize(s'.queued.Keys, s.queued.Keys);
    forall k: nat | Live(s', k) && Starved(l, s', k) ensures s'.queued[k].bypass - l.maxBypass
        + |Older(s', k)| <= l.capacity - 1 {
      assert Live(s, k) && Starved(l, s, k);
      SubsetSize(Older(s', k), Older(s, k));
    }
  }

  lemma EnqueueKeepsOlder(l: Limits, s: State, s': State, r: Request, k: nat)
    requires Inv(l, s) && EnqueueStep(l, s, s', r) && Live(s', k) && Starved(l, s', k)
    ensures s'.queued[k].bypass - l.maxBypass + |Older(s', k)| <= l.capacity - 1
  {
    if k == s.nextSequence {
      assert s'.queued.Keys == s.queued.Keys + {k};
      OlderIsFewer(s', k);
    } else {
      assert Live(s, k) && Starved(l, s, k);
      assert Older(s', k) == Older(s, k);
    }
  }

  lemma EnqueueStamps(l: Limits, s: State, s': State, r: Request)
    requires Inv(l, s) && EnqueueStep(l, s, s', r)
    ensures forall k | k in s'.queued ::
              s'.queued[k].sequence == k < s'.nextSequence && k in s'.stamps && s'.stamps[k] <= s'.dispatched
    ensures forall j, k | j in s'.queued && k in s'.queued && j < k :: s'.stamps[j] <= s'.stamps[k]
  {
  }

  lemma EnqueueInv(l: Limits, s: State, s': State, r: Request)
    requires Inv(l, s) && EnqueueStep(l, s, s', r)
    ensures Inv(l, s')
  {
    EnqueueStamps(l, s, s', r);
    assert s'.queued.Keys == s.queued.Keys + {s.nextSequence};
    forall k: nat | Live(s', k) && Starved(l, s', k)
      ensures s'.queued[k].bypass - l.maxBypass + |Older(s', k)| <= l.capacity - 1
    {
      EnqueueKeepsOlder(l, s, s', r, k);
    }
    forall k: nat | Live(s', k) ensures s'.queued[k].bypass == s'.dispatched - s'.stamps[k] {
      EnqueueBypass(l, s, s', r, k);
    }
  }

  lemma EnqueueBypass(l: Limits, s: State, s': State, r: Request, k: nat)
    requires Inv(l, s) && EnqueueStep(l, s, s', r) && Live(s', k)
    ensures k in s'.stamps && s'.queued[k].bypass == s'.dispatched - s'.stamps[k]
  {
    assert k == s.nextSequence || Live(s, k);
  }

  /** Starvation accounting of one dispatch. */
  lemma DispatchPaysOlder(l: Limits, s: State, s': State, k: nat, j: nat)
    requires Inv(l, s) && DispatchStep(l, s, s', k) && Live(s', j) && Starved(l, s', j)
    ensures s'.queued[j].bypass - l.maxBypass + |Older(s', j)| <= l.capacity - 1
  {
    assert Live(s, j);
    if Starved(l, s, j) {
      var c :| c in s.queued && c !in s'.queued && forall i: nat | Live(s', i) && Starved(l, s, i) :: c < i;
      assert c in Older(s, j) && c !in Older(s', j);
      SubsetSize(Older(s', j), Older(s, j));
    } else {
      assert s'.queued.Keys < s.queued.Keys;
      SubsetSize(s'.queued.Keys, s.queued.Keys);
      OlderIsFewer(s', j);
    }
  }

  lemma DispatchInv(l: Limits, s: State, s': State, k: nat)
    requires Inv(l, s) && DispatchStep(l, s, s', k)
    ensures Inv(l, s')
  {
    SubsetSize(s'.queued.Keys, s.queued.Keys);
    forall j: nat | Live(s', j) ensures s'.queued[j].bypass == s'.dispatched - s'.stamps[j] {
      assert Live(s, j);
    }
    forall j: nat | Live(s', j) && Starved(l, s', j) ensures s'.queued[j].bypass - l.maxBypass
        + |Older(s', j)| <= l.capacity - 1 {
      DispatchPaysOlder(l, s, s', k, j);
    }
  }

  lemma NextInv(l: Limits, s: State, s': State)
    requires Inv(l, s) && Next(l, s, s')
    ensures Inv(l, s')
  {
    if DeathStep(s, s') {
      assert Pruned(s, s');
      PrunedInv(l, s, s');
    } else if EmptyStep(s, s') {
      PrunedInv(l, s, s');
    } else if r :| EnqueueStep(l, s, s', r) {
      EnqueueInv(l, s, s', r);
    } else {
      var k :| DispatchStep(l, s, s', k);
      DispatchInv(l, s, s', k);
    }
  }

  // ----- runs -----

  ghost predicate Run(l: Limits, run: seq<State>) {
    && run != [] && run[0] == INITIAL
    && forall i | 0 <= i < |run| - 1 :: Next(l, run[i], run[i + 1])
  }

  lemma {:induction false} RunInv(l: Limits, run: seq<State>, i: nat)
    requires Run(l, run) && i < |run|
    ensures Inv(l, run[i])
  {
    if i > 0 {
      RunInv(l, run, i - 1);
      assert Next(l, run[i - 1], run[i - 1 + 1]);
      NextInv(l, run[i - 1], run[i]);
    }
  }

  /** What a run never undoes: deaths, the dispatch count, sequence numbers and their stamps; and
      an old sequence number is not queued again. */
  ghost predicate Later(s: State, s': State) {
    && s.dead <= s'.dead && s.dispatched <= s'.dispatched && s.nextSequence <= s'.nextSequence
    && (forall k | k in s.stamps && k < s.nextSequence :: k in s'.stamps && s'.stamps[k] == s.stamps[k])
    && (forall k | k in s'.queued && k < s.nextSequence :: k in s.queued && s'.queued[k].request == s.queued[k].request)
  }

  lemma LaterStep(l: Limits, s: State, s': State)
    requires Next(l, s, s')
    ensures Later(s, s')
  {
    if r :| EnqueueStep(l, s, s', r) {
    } else if k :| DispatchStep(l, s, s', k) {
    }
  }

  lemma {:induction false} RunLater(l: Limits, run: seq<State>, i: nat, j: nat)
    requires Run(l, run) && i <= j < |run|
    ensures Later(run[i], run[j])
    decreases j - i
  {
    if i < j {
      RunLater(l, run, i, j - 1);
      assert Next(l, run[j - 1], run[j - 1 + 1]);
      LaterStep(l, run[j - 1], run[j]);
    }
  }

  /** A queued entry whose request stays alive can leave the queue only by being dispatched. */
  lemma {:induction false} LeavesByDispatch(l: Limits, run: seq<State>, i: nat, j: nat, k: nat)
    requires Run(l, run) && i <= j < |run| && k in run[i].queued
    requires run[i].queued[k].request.id !in run[j].dead && k !in run[j].queued
    ensures exists t :: i <= t < j && DispatchStep(l, run[t], run[t + 1], k)
    decreases j - i
  {
    assert Next(l, run[i], run[i + 1]);
    RunLater(l, run, i + 1, j);
    if k in run[i + 1].queued {
      RunInv(l, run, i);
      LaterStep(l, run[i], run[i + 1]);
      LeavesByDispatch(l, run, i + 1, j, k);
    } else {
      LeavesInStep(l, run[i], run[i + 1], k);
    }
  }

  lemma LeavesInStep(l: Limits, s: State, s': State, k: nat)
    requires Next(l, s, s') && k in s.queued && k !in s'.queued && s.queued[k].request.id !in s'.dead
    ensures DispatchStep(l, s, s', k)
  {
    if r :| EnqueueStep(l, s, s', r) {
    } else if t :| DispatchStep(l, s, s', t) {
      assert t == k;
    }
  }

  /** Starvation bound: as long as an entry is queued and alive it has been passed over once for
      every dispatch since its enqueue, and at most max_bypass + capacity - 1 times. */
  lemma BypassBound(l: Limits, run: seq<State>, i: nat, j: nat, r: Request)
    requires Run(l, run) && i < j < |run| && EnqueueStep(l, run[i], run[i + 1], r)
    requires Live(run[j], run[i].nextSequence)
    ensures run[j].queued[run[i].nextSequence].bypass == run[j].dispatched - run[i].dispatched <= l.maxBypass
        + l.capacity - 1
  {
    RunInv(l, run, j);
    RunLater(l, run, i + 1, j);
    assert run[j].stamps[run[i].nextSequence] == run[i].dispatched;
    OlderIsFewer(run[j], run[i].nextSequence);
  }

  /** Hence a request that stays alive is among the first max_bypass + capacity dispatches after
      its enqueue. */
  lemma DispatchedInTime(l: Limits, run: seq<State>, i: nat, j: nat, r: Request)
    requires Run(l, run) && i < j < |run| && EnqueueStep(l, run[i], run[i + 1], r) && r.id !in run[j].dead
    requires run[j].dispatched - run[i].dispatched >= l.maxBypass + l.capacity
    ensures exists t :: i < t < j && DispatchStep(l, run[t], run[t + 1], run[i].nextSequence)
  {
    var k := run[i].nextSequence;
    RunLater(l, run, i + 1, j);
    if k in run[j].queued {
      BypassBound(l, run, i, j, r);
    } else {
      LeavesByDispatch(l, run, i + 1, j, k);
    }
  }

  lemma FifoAcross(l: Limits, s: State, s1: State, s2: State, k: nat, k': nat)
    requires Inv(l, s) && Taken(l, s, s1, k) && Later(s1, s2) && Live(s2, k')
    requires s.queued[k].request.model == s2.queued[k'].request.model
    ensures k < k'
  {
    if k' < s1.nextSequence {
      assert k' in s1.queued;
    }
  }

  /** Requests of one model are dispatched in the order in which they were enqueued. */
  lemma PerModelFifo(l: Limits, run: seq<State>, i: nat, j: nat, k: nat, k': nat)
    requires Run(l, run) && i < j < |run| - 1
    requires DispatchStep(l, run[i], run[i + 1], k) && DispatchStep(l, run[j], run[j + 1], k')
    requires run[i].queued[k].request.model == run[j].queued[k'].request.model
    ensures k < k'
  {
    RunInv(l, run, i);
    RunLater(l, run, i + 1, j);
    FifoAcross(l, run[i], run[i + 1], run[j], k, k');
  }

  /** With liveness fixed during the select, a promotion takes the oldest live entry of all... */
  lemma PromotionIsOldest(l: Limits, s: State, k: nat)
    requires Inv(l, s) && IsChoice(l, s, k) && Starved(l, s, k)
    ensures forall j: nat | Live(s, j) :: k <= j
  {
    forall j: nat | Live(s, j) ensures k <= j {
      if j < k {
        assert s.stamps[j] <= s.stamps[k];
        assert Starved(l, s, j);
      }
    }
  }

  /** ... and so is never also counted as a reordering. */
  lemma PromotionIsNotReordering(l: Limits, s: State, s': State, k: nat)
    requires Inv(l, s) && DispatchStep(l, s, s', k) && s'.dead == s.dead
    ensures s'.promotions == s.promotions || s'.reordered == s.reordered
  {
    if Starved(l, s, k) {
      PromotionIsOldest(l, s, k);
    }
  }
}
