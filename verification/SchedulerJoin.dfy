/**
 The workload-aware scheduler inside the step system. Its queue, read in the order of sequence
 numbers, is the sequence `scheduled`; and each of its steps, with the deaths during it, is a few
 steps of a run: requests dying, entries pruned, one taken, or all given up. So what holds in
 every run holds with this scheduler, and the runs it makes keep its starvation bound.
 */
module SchedulerJoin {
  import opened Types
  import opened RequestLifecycle
  import opened Protocol
  import opened Ownership
  import opened Places
  import Spec = SchedulerSpec

  type Queue = map<nat, Spec.Entry>

  predicate Ascending(keys: seq<nat>) {
    forall i, j | 0 <= i < j < |keys| :: keys[i] < keys[j]
  }

  predicate Among(queued: Queue, keys: seq<nat>) {
    forall i | 0 <= i < |keys| :: keys[i] in queued
  }

  /** All entries, oldest first. */
  ghost predicate Lists(queued: Queue, keys: seq<nat>) {
    Ascending(keys) && Among(queued, keys) && forall k | k in queued :: k in keys
  }

  function Ids(queued: Queue, keys: seq<nat>): seq<Id>
    requires Among(queued, keys)
  {
    seq(|keys|, i requires 0 <= i < |keys| => queued[keys[i]].request.id)
  }

  /** One scheduler, seen twice. */
  ghost predicate Joined(l: Spec.Limits, c: Config, q: Spec.State, s: State, keys: seq<nat>) {
    && !c.fifo && c.capacity == l.capacity && Lists(q.queued, keys) && s.scheduled == Ids(q.queued, keys)
    && (forall k | k in q.queued :: q.queued[k].request.model == c.modelOf(q.queued[k].request.id))
    && (forall k | k in q.queued && q.queued[k].request.id in q.dead :: Dead(s, q.queued[k].request.id))
  }

  function Last(run: seq<State>): State
    requires run != []
  {
    run[|run| - 1]
  }

  /** A death, or a step of the scheduler. */
  predicate Schedules(t: Step) {
    t.Die? || t.Accept? || t.Prune? || t.Take? || t.GiveUp? || t.EndRouting?
  }

  /** The run goes on, by such steps only. */
  ghost predicate GoesOn(c: Config, run: seq<State>, steps: seq<Step>, run': seq<State>, steps': seq<Step>) {
    && Protocol.Run(c, run', steps') && run <= run' && steps <= steps'
    && forall n | |steps| <= n < |steps'| :: Schedules(steps'[n])
  }

  // ----- deaths -----

  /** Some more requests have ended, and nothing has moved. */
  ghost predicate OnlyDeaths(s: State, s': State) {
    s' == s.(lives := s'.lives) && forall r: Id | Dead(s, r) :: Dead(s', r)
  }

  lemma DieEnds(c: Config, s: State, r: Id)
    requires SystemInv(s) && r in s.scheduled
    ensures var s' := After(c, s, Die(r, RequestState.Cancelled, ErrorCode.Cancelled)); OnlyDeaths(s, s') && Dead(s', r)
  {
    var i :| 0 <= i < |s.scheduled| && s.scheduled[i] == r;
    CountAt(s.scheduled, i);
    assert OwnedOk(s, r) && NotRunning(s, r);
  }

  lemma OneDies(c: Config, run: seq<State>, steps: seq<Step>, r: Id) returns (run': seq<State>, steps': seq<Step>)
    requires Protocol.Run(c, run, steps) && r in Last(run).scheduled
    ensures GoesOn(c, run, steps, run', steps') && OnlyDeaths(Last(run), Last(run')) && Dead(Last(run'), r)
  {
    SingleOwnership(c, run, steps, |run| - 1);
    DieEnds(c, Last(run), r);
    run', steps' := ExtendedBy(c, run, steps, Die(r, RequestState.Cancelled, ErrorCode.Cancelled));
  }

  /** Any of the scheduled requests may have died. */
  lemma {:induction false} TheseDie(c: Config, run: seq<State>, steps: seq<Step>, ids: seq<Id>)
    returns (run': seq<State>, steps': seq<Step>)
    requires Protocol.Run(c, run, steps) && forall i | 0 <= i < |ids| :: ids[i] in Last(run).scheduled
    ensures GoesOn(c, run, steps, run', steps') && OnlyDeaths(Last(run), Last(run'))
    ensures forall i | 0 <= i < |ids| :: Dead(Last(run'), ids[i])
  {
    run', steps' := run, steps;
    if ids != [] {
      run', steps' := TheseDie(c, run, steps, ids[1..]);
      ghost var s := Last(run');
      run', steps' := OneDies(c, run', steps', ids[0]);
      forall i | 0 <= i < |ids| ensures Dead(Last(run'), ids[i]) {
        if i > 0 {
          assert Dead(s, ids[1..][i - 1]);
        }
      }
    }
  }

  /** The ids of the listed entries that are in `dead`. */
  function DeadIds(queued: Queue, keys: seq<nat>, dead: set<nat>): (ids: seq<Id>)
    requires Among(queued, keys)
    ensures forall i | 0 <= i < |ids| :: ids[i] in Ids(queued, keys)
    ensures forall i | 0 <= i < |keys| && queued[keys[i]].request.id in dead :: queued[keys[i]].request.id in ids
  {
    if keys == [] then []
    else
      var n := |keys| - 1;
      var id := queued[keys[n]].request.id;
      assert forall i | 0 <= i < n :: Ids(queued, keys)[i] == Ids(queued, keys[..n])[i];
      assert Ids(queued, keys)[n] == id;
      DeadIds(queued, keys[..n], dead) + (if id in dead then [id] else [])
  }

  /** A death step of the scheduler is deaths in the run. */
  lemma DeathsJoin(l: Spec.Limits, c: Config, q: Spec.State, q': Spec.State, run: seq<State>, steps: seq<Step>,
                   keys: seq<nat>)
    returns (run': seq<State>, steps': seq<Step>)
    requires Protocol.Run(c, run, steps) && Joined(l, c, q, Last(run), keys) && Spec.DeathStep(q, q')
    ensures GoesOn(c, run, steps, run', steps') && OnlyDeaths(Last(run), Last(run'))
    ensures Joined(l, c, q', Last(run'), keys)
  {
    var ids := DeadIds(q.queued, keys, q'.dead);
    run', steps' := TheseDie(c, run, steps, ids);
    forall k | k in q'.queued && q'.queued[k].request.id in q'.dead ensures Dead(Last(run'), q'.queued[k].request.id) {
      var i :| 0 <= i < |keys| && keys[i] == k;
      assert q.queued[keys[i]].request.id in ids;
    }
  }

  // ----- pruning -----

  function Without(keys: seq<nat>, i: nat): seq<nat>
    requires i < |keys|
  {
    keys[..i] + keys[i + 1..]
  }

  lemma WithoutOne(queued: Queue, keys: seq<nat>, i: nat)
    requires Ascending(keys) && Among(queued, keys) && i < |keys|
    ensures Ascending(Without(keys, i)) && Among(queued, Without(keys, i))
    ensures Ids(queued, Without(keys, i)) == Removed(Ids(queued, keys), i)
    ensures forall k :: k in Without(keys, i) <==> k in keys && k != keys[i]
  {
    var rest := Without(keys, i);
    forall j | 0 <= j < |rest| ensures rest[j] == keys[if j < i then j else j + 1] {
    }
    forall k | k in keys && k != keys[i] ensures k in rest {
      var j :| 0 <= j < |keys| && keys[j] == k;
      assert rest[if j < i then j else j - 1] == k;
    }
  }

  /** The routing thread waits for its scheduler. */
  predicate AtNext(s: State) {
    s.hand.None? && !s.routingEnded
  }

  /** Dead entries go, one by one, until only those in `keep` are left. */
  lemma {:induction false} PruneTo(c: Config, run: seq<State>, steps: seq<Step>, queued: Queue, keys: seq<nat>,
                                   keep: set<nat>)
    returns (run': seq<State>, steps': seq<Step>, keys': seq<nat>)
    requires Protocol.Run(c, run, steps) && !c.fifo && AtNext(Last(run))
    requires Ascending(keys) && Among(queued, keys) && Last(run).scheduled == Ids(queued, keys)
    requires forall i | 0 <= i < |keys| && keys[i] !in keep :: Dead(Last(run), queued[keys[i]].request.id)
    ensures GoesOn(c, run, steps, run', steps') && Ascending(keys') && Among(queued, keys')
    ensures Last(run') == Last(run).(scheduled := Ids(queued, keys'))
    ensures forall k :: k in keys' <==> k in keys && k in keep
    decreases |keys|
  {
    run', steps', keys' := run, steps, keys;
    if i :| 0 <= i < |keys| && keys[i] !in keep {
      WithoutOne(queued, keys, i);
      assert Dead(Last(run), Last(run).scheduled[i]);
      run', steps' := ExtendedBy(c, run, steps, Prune(i));
      run', steps', keys' := PruneTo(c, run', steps', queued, Without(keys, i), keep);
    }
  }

  // ----- the steps of the scheduler -----

  /** The entries left are the old ones, passed over once more or not. */
  lemma RelistsAfter(l: Spec.Limits, c: Config, q: Spec.State, q': Spec.State, k: nat, s: State, keys: seq<nat>)
    requires Spec.Taken(l, q, q', k) && Ascending(keys) && Among(q.queued, keys) && s.scheduled == Ids(q.queued, keys)
    requires forall x :: x in keys <==> x in q'.queued
    requires !c.fifo && c.capacity == l.capacity
    requires forall x | x in q.queued :: q.queued[x].request.model == c.modelOf(q.queued[x].request.id)
    requires forall x | x in q.queued && q.queued[x].request.id in q'.dead :: Dead(s, q.queued[x].request.id)
    ensures Joined(l, c, q', s, keys)
  {
    forall x | x in q'.queued ensures x in q.queued && q'.queued[x].request == q.queued[x].request {
    }
    assert Among(q'.queued, keys) by {
      forall i | 0 <= i < |keys| ensures keys[i] in q'.queued {
        assert keys[i] in keys;
      }
    }
    assert Ids(q'.queued, keys) == Ids(q.queued, keys);
  }

  /** With the deaths behind it, a dispatch is prunings and one take. */
  lemma PruneAndTake(l: Spec.Limits, c: Config, q: Spec.State, q': Spec.State, k: nat,
                     run: seq<State>, steps: seq<Step>, keys: seq<nat>)
    returns (run': seq<State>, steps': seq<Step>, keys': seq<nat>)
    requires Protocol.Run(c, run, steps) && Joined(l, c, q.(dead := q'.dead), Last(run), keys) && AtNext(Last(run))
    requires Spec.Taken(l, q, q', k)
    ensures GoesOn(c, run, steps, run', steps') && Joined(l, c, q', Last(run'), keys')
    ensures Last(run').hand == Some(q.queued[k].request.id)
  {
    var keep := q'.queued.Keys + {k};
    forall i | 0 <= i < |keys| && keys[i] !in keep ensures Dead(Last(run), q.queued[keys[i]].request.id) {
      assert keys[i] in q.queued;
    }
    run', steps', keys' := PruneTo(c, run, steps, q.queued, keys, keep);
    assert k in keys';
    run', steps', keys' := TakeChosen(c, run', steps', q.queued, keys', k);
    RelistsAfter(l, c, q, q', k, Last(run'), keys');
  }

  lemma TakeChosen(c: Config, run: seq<State>, steps: seq<Step>, queued: Queue, keys: seq<nat>, k: nat)
    returns (run': seq<State>, steps': seq<Step>, keys': seq<nat>)
    requires Protocol.Run(c, run, steps) && !c.fifo && AtNext(Last(run))
    requires Ascending(keys) && Among(queued, keys) && Last(run).scheduled == Ids(queued, keys) && k in keys
    ensures GoesOn(c, run, steps, run', steps') && Ascending(keys') && Among(queued, keys')
    ensures Last(run') == Last(run).(scheduled := Ids(queued, keys'), hand := Some(queued[k].request.id))
    ensures forall x :: x in keys' <==> x in keys && x != k
  {
    var j :| 0 <= j < |keys| && keys[j] == k;
    WithoutOne(queued, keys, j);
    run', steps' := ExtendedBy(c, run, steps, Take(j));
    keys' := Without(keys, j);
  }

  /** A dispatch is deaths, prunings and one take: of the entry that the scheduler chose. */
  lemma DispatchJoins(l: Spec.Limits, c: Config, q: Spec.State, q': Spec.State, k: nat,
                      run: seq<State>, steps: seq<Step>, keys: seq<nat>)
    returns (run': seq<State>, steps': seq<Step>, keys': seq<nat>)
    requires Protocol.Run(c, run, steps) && Joined(l, c, q, Last(run), keys) && AtNext(Last(run))
    requires Spec.DispatchStep(l, q, q', k)
    ensures GoesOn(c, run, steps, run', steps') && Joined(l, c, q', Last(run'), keys')
    ensures Last(run').hand == Some(q.queued[k].request.id)
  {
    run', steps' := DeathsJoin(l, c, q, q.(dead := q'.dead), run, steps, keys);
    run', steps', keys' := PruneAndTake(l, c, q, q', k, run', steps', keys);
  }

  /** An empty answer is deaths and giving up; on an empty and closed scheduler, an ordinary end. */
  lemma EmptyJoins(l: Spec.Limits, c: Config, q: Spec.State, q': Spec.State, run: seq<State>, steps: seq<Step>,
                   keys: seq<nat>)
    returns (run': seq<State>, steps': seq<Step>)
    requires Protocol.Run(c, run, steps) && Joined(l, c, q, Last(run), keys) && AtNext(Last(run))
    requires Spec.EmptyStep(q, q') && (q.queued != map[] || Last(run).closed)
    ensures GoesOn(c, run, steps, run', steps') && Joined(l, c, q', Last(run'), []) && Last(run').routingEnded
  {
    run', steps' := DeathsJoin(l, c, q, q.(dead := q'.dead), run, steps, keys);
    if keys == [] {
      assert q.queued == map[];
      run', steps' := ExtendedBy(c, run', steps', EndRouting);
    } else {
      AllGone(q.queued, keys, q'.dead, Last(run'));
      run', steps' := ExtendedBy(c, run', steps', GiveUp);
    }
  }

  lemma AllGone(queued: Queue, keys: seq<nat>, dead: set<nat>, s: State)
    requires Among(queued, keys) && s.scheduled == Ids(queued, keys)
    requires forall k | k in queued :: queued[k].request.id in dead && Dead(s, queued[k].request.id)
    ensures forall i | 0 <= i < |s.scheduled| :: Dead(s, s.scheduled[i])
  {
    forall i | 0 <= i < |s.scheduled| ensures Dead(s, s.scheduled[i]) {
      assert keys[i] in queued;
    }
  }

  /** An enqueue is an acceptance. */
  lemma EnqueueJoins(l: Spec.Limits, c: Config, q: Spec.State, q': Spec.State, r: Spec.Request,
                     run: seq<State>, steps: seq<Step>, keys: seq<nat>)
    returns (run': seq<State>, steps': seq<Step>, keys': seq<nat>)
    requires Protocol.Run(c, run, steps) && Joined(l, c, q, Last(run), keys) && Spec.Inv(l, q)
    requires Spec.EnqueueStep(l, q, q', r) && r.model == c.modelOf(r.id) && r.id in Last(run).admitting
    requires !Last(run).closed
    ensures GoesOn(c, run, steps, run', steps') && Joined(l, c, q', Last(run'), keys') && r.id in Last(run').accepted
  {
    CountsAgree(q.queued, keys);
    run', steps' := ExtendedBy(c, run, steps, Accept(r.id));
    var q1 := q'.(dead := q.dead - {r.id});
    keys' := keys + [q.nextSequence];
    Appended(l, c, q, q1, r, Last(run), Last(run'), keys);
    run', steps' := DeathsJoin(l, c, q1, q', run', steps', keys');
  }

  /** As many scheduled as queued. */
  lemma {:induction false} CountsAgree(queued: Queue, keys: seq<nat>)
    requires Lists(queued, keys)
    ensures |keys| == |queued|
  {
    KeysCount(keys);
    assert (set i | 0 <= i < |keys| :: keys[i]) == queued.Keys;
  }

  lemma {:induction false} KeysCount(keys: seq<nat>)
    requires Ascending(keys)
    ensures |set i | 0 <= i < |keys| :: keys[i]| == |keys|
  {
    var all := set i | 0 <= i < |keys| :: keys[i];
    if keys == [] {
      assert all == {};
    } else {
      var n := |keys| - 1;
      var rest := keys[..n];
      KeysCount(rest);
      var some := set i | 0 <= i < |rest| :: rest[i];
      assert all == some + {keys[n]} && keys[n] !in some by {
        forall i | 0 <= i < n ensures keys[i] in some {
          assert rest[i] == keys[i];
        }
      }
    }
  }

  lemma ListsAppended(queued: Queue, keys: seq<nat>, n: nat, e: Spec.Entry)
    requires Lists(queued, keys) && forall k | k in queued :: k < n
    ensures Lists(queued[n := e], keys + [n]) && Ids(queued[n := e], keys + [n]) == Ids(queued, keys) + [e.request.id]
  {
    var keys' := keys + [n];
    forall i | 0 <= i < |keys| ensures keys'[i] in queued && keys'[i] < n {
      assert keys[i] in queued;
    }
    forall k | k in queued[n := e] ensures k in keys' {
      if k != n {
        assert k in keys;
      }
    }
  }

  lemma Appended(l: Spec.Limits, c: Config, q: Spec.State, q': Spec.State, r: Spec.Request, s: State, s': State,
                 keys: seq<nat>)
    requires Joined(l, c, q, s, keys) && Spec.Inv(l, q) && r.model == c.modelOf(r.id)
    requires q'.queued == q.queued[q.nextSequence := Spec.Entry(r, q.nextSequence, 0)] && q'.dead == q.dead - {r.id}
    requires s'.lives == s.lives && s'.scheduled == s.scheduled + [r.id]
    ensures Joined(l, c, q', s', keys + [q.nextSequence])
  {
    ListsAppended(q.queued, keys, q.nextSequence, Spec.Entry(r, q.nextSequence, 0));
  }
}
