/** What clients, storms and mode switches get done on their own, step by step. */
module SessionRuns {
  import opened Headroom
  import opened Sessions
  import opened Wrappers

  // ----- What a client gets done -----

  lemma {:induction false} OneMore(s: State, steps: seq<Step>, step: Step)
    ensures Exec(s, steps + [step]) == Next(Exec(s, steps), step)
    decreases |steps|
  {
    if steps == [] {
      assert Exec(Next(s, step), []) == Next(s, step);
      assert [] + [step] == [step];
    } else {
      assert (steps + [step])[1..] == steps[1..] + [step];
      OneMore(Next(s, steps[0]), steps[1..], step);
    }
  }

  /** `s` with client `t` at `pc`. */
  function Put(s: State, t: nat, pc: Pc): State {
    s.(threads := s.threads[t := Thread(Client, pc)])
  }

  lemma InsertRuns(s0: State, steps: seq<Step>, s: State, t: nat, id: nat)
    requires Exec(s0, steps) == Put(s, t, Using(id, true, Begun))
    ensures Exec(s0, steps + [Insert(t)]) == Put(s, t, Using(id, true, Inserted)).(dirty := s.dirty + {id})
  {
    OneMore(s0, steps, Insert(t));
  }

  lemma UpdateRuns(s0: State, steps: seq<Step>, s: State, t: nat, id: nat, sold: bool)
    requires Exec(s0, steps) == Put(s, t, Using(id, true, Inserted))
    ensures Exec(s0, steps + [Update(t, sold)]) == Put(s, t, Using(id, true, if sold then Updated else Rejected))
  {
    OneMore(s0, steps, Update(t, sold));
  }

  lemma EndRuns(s0: State, steps: seq<Step>, s: State, t: nat, id: nat, sold: bool)
    requires Exec(s0, steps) == Put(s, t, Using(id, true, if sold then Updated else Rejected))
    ensures Exec(s0, steps + [if sold then Commit(t) else Rollback(t)])
         == Put(s, t, Using(id, true, Settled)).(dirty := s.dirty - {id})
  {
    if sold {
      OneMore(s0, steps, Commit(t));
    } else {
      OneMore(s0, steps, Rollback(t));
    }
  }

  lemma ReturnRuns(s0: State, steps: seq<Step>, s: State, t: nat, id: nat)
    requires Exec(s0, steps) == Put(s, t, Using(id, true, Settled)) && s.shared.enabled
    ensures Exec(s0, steps + [Return(t)])
         == Put(s, t, Leaving).(shared := s.shared.(pool := Some(id)), place := s.place[id := InPool])
  {
    OneMore(s0, steps, Return(t));
  }

  lemma ReleaseRuns(s0: State, steps: seq<Step>, s: State, t: nat)
    requires Exec(s0, steps) == Put(s, t, Leaving) && s.admitted == Some(t)
    ensures Exec(s0, steps + [Release(t)]) == Put(s, t, Finished).(admitted := None)
  {
    OneMore(s0, steps, Release(t));
  }

  /** From a session in hand to its return: the transaction, sold or not, and the end of the request. */
  lemma TransactionRuns(s0: State, steps: seq<Step>, s: State, t: nat, id: nat, sold: bool)
    requires Exec(s0, steps) == Put(s, t, Using(id, true, Begun)) && s.shared.enabled && s.admitted == Some(t)
    ensures Exec(s0, steps + [Insert(t)] + [Update(t, sold)] + [if sold then Commit(t) else Rollback(t)]
                + [Return(t)] + [Release(t)])
         == Put(s, t, Finished).(shared := s.shared.(pool := Some(id)), place := s.place[id := InPool],
                                 admitted := None, dirty := s.dirty - {id})
  {
    var inserted := s.(dirty := s.dirty + {id});
    InsertRuns(s0, steps, s, t, id);
    UpdateRuns(s0, steps + [Insert(t)], inserted, t, id, sold);
    var updated := steps + [Insert(t)] + [Update(t, sold)];
    EndRuns(s0, updated, inserted, t, id, sold);
    var settled := inserted.(dirty := s.dirty - {id});
    assert s.dirty + {id} - {id} == s.dirty - {id};
    var ended := updated + [if sold then Commit(t) else Rollback(t)];
    ReturnRuns(s0, ended, settled, t, id);
    ReleaseRuns(s0, ended + [Return(t)],
                settled.(shared := s.shared.(pool := Some(id)), place := s.place[id := InPool]), t);
  }

  lemma StartRuns(s: State, t: nat)
    requires t !in s.threads
    ensures Exec(s, [Start(t)]) == Put(s, t, Idle)
  {
    OneMore(s, [], Start(t));
  }

  lemma AdmitRuns(s0: State, steps: seq<Step>, s: State, t: nat)
    requires Exec(s0, steps) == Put(s, t, Idle) && s.admitted.None?
    ensures Exec(s0, steps + [Admit(t)]) == Put(s, t, Admitted).(admitted := Some(t))
  {
    OneMore(s0, steps, Admit(t));
  }

  lemma TakeRuns(s0: State, steps: seq<Step>, s: State, t: nat)
    requires Exec(s0, steps) == Put(s, t, Admitted) && s.shared.enabled
    ensures Exec(s0, steps + [Take(t, true)])
         == match s.shared.pool
            case Some(id) => Put(s, t, Checking(id)).(shared := s.shared.(pool := None),
                                                      place := s.place[id := AtThread(t)])
            case None => Put(s, t, Fresh(true))
  {
    OneMore(s0, steps, Take(t, true));
  }

  lemma PingRuns(s0: State, steps: seq<Step>, s: State, t: nat, id: nat)
    requires Exec(s0, steps) == Put(s, t, Checking(id))
    ensures Exec(s0, steps + [Ping(t, true)]) == Put(s, t, Using(id, true, Begun))
  {
    OneMore(s0, steps, Ping(t, true));
  }

  lemma OpenRuns(s0: State, steps: seq<Step>, s: State, t: nat, id: nat)
    requires Exec(s0, steps) == Put(s, t, Fresh(true)) && id !in s.place
    ensures Exec(s0, steps + [Open(t, id)]) == Put(s, t, Opened(id, true)).(place := s.place[id := AtThread(t)])
  {
    OneMore(s0, steps, Open(t, id));
  }

  lemma CountRuns(s0: State, steps: seq<Step>, s: State, t: nat, id: nat)
    requires Exec(s0, steps) == Put(s, t, Opened(id, true))
    ensures Exec(s0, steps + [Count(t)])
         == Put(s, t, Using(id, true, Begun)).(shared := s.shared.(active := s.shared.active + 1))
  {
    OneMore(s0, steps, Count(t));
  }

  /** With the pool in use and a session in it, a new request that finds the slot free takes that session and puts it
      back: no session is opened, counted or closed. */
  lemma PooledSessionIsReused(s: State, t: nat, sold: bool)
    requires t !in s.threads && s.admitted.None? && s.shared.enabled && s.shared.pool.Some?
    ensures var s' := Exec(s, [Start(t)] + [Admit(t)] + [Take(t, true)] + [Ping(t, true)] + [Insert(t)]
                + [Update(t, sold)] + [if sold then Commit(t) else Rollback(t)] + [Return(t)] + [Release(t)]);
            && s'.shared == s.shared && s'.closes == s.closes && s'.admitted == None
            && s'.place == s.place[s.shared.pool.value := InPool] && s'.dirty == s.dirty - {s.shared.pool.value}
            && s'.threads == s.threads[t := Thread(Client, Finished)]
  {
    var id := s.shared.pool.value;
    StartRuns(s, t);
    AdmitRuns(s, [Start(t)], s, t);
    TakeRuns(s, [Start(t)] + [Admit(t)], s.(admitted := Some(t)), t);
    var taken := s.(admitted := Some(t), shared := s.shared.(pool := None), place := s.place[id := AtThread(t)]);
    PingRuns(s, [Start(t)] + [Admit(t)] + [Take(t, true)], taken, t, id);
    TransactionRuns(s, [Start(t)] + [Admit(t)] + [Take(t, true)] + [Ping(t, true)], taken, t, id, sold);
  }

  /** With the pool in use and empty, such a request opens a session, counts it once and leaves it in the pool. */
  lemma NewSessionIsPooled(s: State, t: nat, id: nat, sold: bool)
    requires t !in s.threads && s.admitted.None? && s.shared.enabled && s.shared.pool.None? && id !in s.place
    ensures var s' := Exec(s, [Start(t)] + [Admit(t)] + [Take(t, true)] + [Open(t, id)] + [Count(t)] + [Insert(t)]
                + [Update(t, sold)] + [if sold then Commit(t) else Rollback(t)] + [Return(t)] + [Release(t)]);
            && s'.shared == s.shared.(pool := Some(id), active := s.shared.active + 1)
            && s'.closes == s.closes && s'.admitted == None
            && s'.place == s.place[id := InPool] && s'.dirty == s.dirty - {id}
            && s'.threads == s.threads[t := Thread(Client, Finished)]
  {
    var admitted := s.(admitted := Some(t));
    StartRuns(s, t);
    AdmitRuns(s, [Start(t)], s, t);
    var steps := [Start(t)] + [Admit(t)] + [Take(t, true)];
    TakeRuns(s, [Start(t)] + [Admit(t)], admitted, t);
    OpenRuns(s, steps, admitted, t, id);
    var open := admitted.(place := s.place[id := AtThread(t)]);
    CountRuns(s, steps + [Open(t, id)], open, t, id);
    TransactionRuns(s, steps + [Open(t, id)] + [Count(t)],
                    open.(shared := s.shared.(active := s.shared.active + 1)), t, id, sold);
  }

  // ----- What a storm gets done -----

  function PutStorm(s: State, t: nat, capacity: int, pc: Pc): State {
    s.(threads := s.threads[t := Thread(Storm(s.event, capacity), pc)])
  }

  lemma ChecksRun(s: State, t: nat, capacity: int)
    requires IsAt(s, t, Storm(s.event, capacity), Idle) && s.event !in s.stopped
    requires Target(capacity).Some? && |s.shared.held| < Target(capacity).value
    ensures Exec(s, [StopCheck(t)] + [TargetCheck(t)]) == PutStorm(s, t, capacity, Fresh(false))
  {
    StopCheckRuns(s, t, capacity);
    OneMore(s, [StopCheck(t)], TargetCheck(t));
  }

  lemma StopCheckRuns(s: State, t: nat, capacity: int)
    requires IsAt(s, t, Storm(s.event, capacity), Idle) && s.event !in s.stopped
    ensures Exec(s, [StopCheck(t)]) == PutStorm(s, t, capacity, Looping)
  {
    OneMore(s, [], StopCheck(t));
  }

  lemma StormOpens(s0: State, steps: seq<Step>, s: State, t: nat, capacity: int, id: nat)
    requires Exec(s0, steps) == PutStorm(s, t, capacity, Fresh(false)) && id !in s.place
    ensures Exec(s0, steps + [Open(t, id)])
         == PutStorm(s, t, capacity, Opened(id, false)).(place := s.place[id := AtThread(t)])
  {
    OneMore(s0, steps, Open(t, id));
  }

  lemma StormCounts(s0: State, steps: seq<Step>, s: State, t: nat, capacity: int, id: nat)
    requires Exec(s0, steps) == PutStorm(s, t, capacity, Opened(id, false))
    ensures Exec(s0, steps + [Count(t)])
         == PutStorm(s, t, capacity, Using(id, false, Begun)).(shared := s.shared.(active := s.shared.active + 1))
  {
    OneMore(s0, steps, Count(t));
  }

  lemma StormHolds(s0: State, steps: seq<Step>, s: State, t: nat, capacity: int, id: nat)
    requires Exec(s0, steps) == PutStorm(s, t, capacity, Using(id, false, Begun)) && s.event !in s.stopped
    ensures Exec(s0, steps + [Append(t, true)])
         == PutStorm(s, t, capacity, Idle).(shared := s.shared.(held := s.shared.held + [Held(id, s.event)]),
                                            place := s.place[id := InHeld])
  {
    OneMore(s0, steps, Append(t, true));
  }

  /** A storm below its target and not told to stop adds a session of its own with every turn, and counts it. */
  lemma TurnAddsOne(s: State, t: nat, capacity: int, id: nat)
    requires IsAt(s, t, Storm(s.event, capacity), Idle) && s.event !in s.stopped && id !in s.place
    requires Target(capacity).Some? && |s.shared.held| < Target(capacity).value
    ensures var s' := Exec(s, [StopCheck(t)] + [TargetCheck(t)] + [Open(t, id)] + [Count(t)] + [Append(t, true)]);
            && s'.shared == s.shared.(held := s.shared.held + [Held(id, s.event)], active := s.shared.active + 1)
            && s'.place == s.place[id := InHeld] && s'.threads == s.threads && s'.closes == s.closes
  {
    ChecksRun(s, t, capacity);
    var steps := [StopCheck(t)] + [TargetCheck(t)];
    StormOpens(s, steps, s, t, capacity, id);
    var open := s.(place := s.place[id := AtThread(t)]);
    StormCounts(s, steps + [Open(t, id)], open, t, capacity, id);
    StormHolds(s, steps + [Open(t, id)] + [Count(t)], open.(shared := s.shared.(active := s.shared.active + 1)), t,
               capacity, id);
    assert s.threads[t := Thread(Storm(s.event, capacity), Idle)] == s.threads;
  }

  // ----- What a mode switch gets done -----

  /** From `s` the switch alone has moved, and told the storm of `s` to stop. */
  ghost predicate Switched(s: State, t: State, switch: Switch, shared: Shared, closes: seq<nat>) {
    && t.switch == switch && t.shared == shared && t.closes == closes && t.event == s.event
    && t.threads == s.threads && t.admitted == s.admitted && t.stopped == s.stopped + {s.event}
  }

  lemma SwitchStops(s: State)
    requires s.switch.Ready?
    ensures Switched(s, Exec(s, [SwitchStop]), Stopping, s.shared, s.closes)
  {
    OneMore(s, [], SwitchStop);
  }

  lemma SwitchTakesPool(s: State, steps: seq<Step>)
    requires Switched(s, Exec(s, steps), Stopping, s.shared, s.closes)
    ensures Switched(s, Exec(s, steps + [SwitchPool]), PoolTaken(s.shared.pool),
                     s.shared.(enabled := false, pool := None), s.closes)
  {
    OneMore(s, steps, SwitchPool);
  }

  lemma SwitchTakesHeld(s: State, steps: seq<Step>)
    requires Switched(s, Exec(s, steps), PoolTaken(s.shared.pool), s.shared.(enabled := false, pool := None), s.closes)
    ensures Switched(s, Exec(s, steps + [SwitchHeld]), Draining(Listed(s.shared.pool) + Ids(s.shared.held)),
                     Shared(s.shared.active, [], None, false), s.closes)
  {
    OneMore(s, steps, SwitchHeld);
  }

  /** Closing this many sessions. */
  function Drains(n: nat): seq<Step> {
    if n == 0 then [] else [SwitchClose] + [SwitchUncount] + Drains(n - 1)
  }

  lemma SwitchCloses(s: State, steps: seq<Step>, queue: seq<nat>, shared: Shared, closes: seq<nat>)
    requires Switched(s, Exec(s, steps), Draining(queue), shared, closes) && queue != []
    ensures Switched(s, Exec(s, steps + [SwitchClose]), Lowering(queue[1..]), shared, closes + [queue[0]])
  {
    OneMore(s, steps, SwitchClose);
  }

  lemma SwitchUncounts(s: State, steps: seq<Step>, queue: seq<nat>, shared: Shared, closes: seq<nat>)
    requires Switched(s, Exec(s, steps), Lowering(queue), shared, closes)
    ensures Switched(s, Exec(s, steps + [SwitchUncount]), Draining(queue),
                     shared.(active := if shared.active > 0 then shared.active - 1 else 0), closes)
  {
    OneMore(s, steps, SwitchUncount);
  }

  lemma {:induction false} SwitchDrains(s: State, steps: seq<Step>, queue: seq<nat>, shared: Shared, closes: seq<nat>)
    requires Switched(s, Exec(s, steps), Draining(queue), shared, closes)
    ensures Switched(s, Exec(s, steps + Drains(|queue|)), Draining([]),
                     shared.(active := Lowered(shared.active, |queue|)), closes + queue)
    decreases |queue|
  {
    if queue == [] {
      assert steps + Drains(0) == steps && closes + queue == closes;
    } else {
      SwitchCloses(s, steps, queue, shared, closes);
      SwitchUncounts(s, steps + [SwitchClose], queue[1..], shared, closes + [queue[0]]);
      var lowered := shared.(active := if shared.active > 0 then shared.active - 1 else 0);
      SwitchDrains(s, steps + [SwitchClose] + [SwitchUncount], queue[1..], lowered, closes + [queue[0]]);
      assert steps + [SwitchClose] + [SwitchUncount] + Drains(|queue| - 1) == steps + Drains(|queue|);
      assert closes + [queue[0]] + queue[1..] == closes + queue;
    }
  }

  lemma SwitchEnds(s: State, steps: seq<Step>, shared: Shared, closes: seq<nat>, normal: bool)
    requires Switched(s, Exec(s, steps), Draining([]), shared, closes)
    ensures var t := Exec(s, steps + [SwitchRenew] + [SwitchEnable(normal)] + [SwitchSpawn(None)]);
            && t.switch == Ready && t.shared == shared.(enabled := normal) && t.closes == closes
            && t.event == s.event + 1 && t.threads == s.threads && t.stopped == s.stopped + {s.event}
  {
    var at := Exec(s, steps);
    OneMore(s, steps, SwitchRenew);
    assert Next(at, SwitchRenew) == at.(switch := Renewed, event := at.event + 1);
    SwitchOpens(s, steps + [SwitchRenew], at.(switch := Renewed, event := at.event + 1), normal);
  }

  lemma SwitchOpens(s: State, steps: seq<Step>, at: State, normal: bool)
    requires Exec(s, steps) == at && at.switch == Renewed
    ensures Exec(s, steps + [SwitchEnable(normal)] + [SwitchSpawn(None)])
         == at.(switch := Ready, shared := at.shared.(enabled := normal))
  {
    OneMore(s, steps, SwitchEnable(normal));
    OneMore(s, steps + [SwitchEnable(normal)], SwitchSpawn(None));
  }

  /** A mode switch on its own tells the storm to stop, closes the pooled session and every held one, in that order and
      each once, counts them all down, and opens a new stop event. */
  lemma SwitchReleasesAll(s: State, normal: bool)
    requires s.switch.Ready?
    ensures var all := Listed(s.shared.pool) + Ids(s.shared.held);
            var t := Exec(s, [SwitchStop] + [SwitchPool] + [SwitchHeld] + Drains(|all|)
                + [SwitchRenew] + [SwitchEnable(normal)] + [SwitchSpawn(None)]);
            && t.shared == Shared(Lowered(s.shared.active, |all|), [], None, normal) && t.closes == s.closes + all
            && t.switch == Ready && t.event == s.event + 1 && s.event in t.stopped && t.threads == s.threads
  {
    var all := Listed(s.shared.pool) + Ids(s.shared.held);
    SwitchStops(s);
    SwitchTakesPool(s, [SwitchStop]);
    SwitchTakesHeld(s, [SwitchStop] + [SwitchPool]);
    var shared := Shared(s.shared.active, [], None, false);
    SwitchDrains(s, [SwitchStop] + [SwitchPool] + [SwitchHeld], all, shared, s.closes);
    SwitchEnds(s, [SwitchStop] + [SwitchPool] + [SwitchHeld] + Drains(|all|),
               shared.(active := Lowered(s.shared.active, |all|)), s.closes + all, normal);
  }
}
