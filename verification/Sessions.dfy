/** The MySQL sessions of Inventory: who holds each one, the admission slot, the one-slot pool, the storm's held
    list and mode switching, with every thread interleaving at its locks. */
module Sessions {
  import opened Headroom
  import opened Wrappers

  // ----- What the locks guard -----

  /** `event` is the stop event of the storm that opened the session; it is history. */
  datatype Held = Held(id: nat, event: nat)

  /** `active` counts client sessions; `pool` is the one reusable session, usable while `enabled`. */
  datatype Shared = Shared(active: nat, held: seq<Held>, pool: Option<nat>, enabled: bool)

  function CountUp(sh: Shared): Shared {
    sh.(active := sh.active + 1)
  }

  function CountDown(sh: Shared): Shared {
    sh.(active := if sh.active > 0 then sh.active - 1 else 0)
  }

  /** Take the pooled session, if the pool is in use at all. */
  function TakePooled(sh: Shared): (Shared, bool, Option<nat>) {
    if sh.enabled then (sh.(pool := None), true, sh.pool) else (sh, false, None)
  }

  /** Put a session back, or refuse it. */
  function ReturnPooled(sh: Shared, id: nat): (Shared, bool) {
    if sh.enabled then (sh.(pool := Some(id)), true) else (sh, false)
  }

  function ClosePool(sh: Shared): (Shared, Option<nat>) {
    (sh.(enabled := false, pool := None), sh.pool)
  }

  function HoldOne(sh: Shared, held: Held, cancelled: bool): (Shared, bool) {
    if cancelled then (sh, false) else (sh.(held := sh.held + [held]), true)
  }

  function Ids(held: seq<Held>): (ids: seq<nat>)
    ensures |ids| == |held| && forall i | 0 <= i < |held| :: ids[i] == held[i].id
  {
    if held == [] then [] else [held[0].id] + Ids(held[1..])
  }

  function Listed(pooled: Option<nat>): seq<nat> {
    if pooled.Some? then [pooled.value] else []
  }

  /** The counter after `n` closes, clamped at zero each time. */
  function Lowered(active: nat, n: nat): nat {
    if n <= active then active - n else 0
  }

  /** One turn of the storm: no connection, one that breaks at its first query, or one to hold unless the storm has
      been cancelled by then. */
  datatype Try = Unreachable | Fails(id: nat) | Connects(id: nat, cancelled: bool)

  /** The held list after the storm's loop, and the sessions it closed. */
  function Stormed(held: seq<Held>, event: nat, target: nat, tries: seq<Try>): (seq<Held>, seq<nat>)
    decreases |tries|
  {
    if tries == [] || |held| >= target then (held, [])
    else
      match tries[0]
      case Unreachable => Stormed(held, event, target, tries[1..])
      case Fails(id) =>
        var (rest, closed) := Stormed(held, event, target, tries[1..]);
        (rest, [id] + closed)
      case Connects(id, cancelled) =>
        if cancelled then (held, [id]) else Stormed(held + [Held(id, event)], event, target, tries[1..])
  }

  /** A storm only adds to the held list, its own sessions and never past its target. */
  lemma {:induction false} StormStopsAtTarget(held: seq<Held>, event: nat, target: nat, tries: seq<Try>)
    ensures var (after, closed) := Stormed(held, event, target, tries);
            && held <= after && (|after| <= target || after == held)
            && (forall i | |held| <= i < |after| :: after[i].event == event)
            && |after| - |held| + |closed| <= |tries|
    decreases |tries|
  {
    if tries != [] && |held| < target {
      var kept := if tries[0].Connects? && !tries[0].cancelled then held + [Held(tries[0].id, event)] else held;
      StormStopsAtTarget(kept, event, target, tries[1..]);
    }
  }

  /** The outcome when some sessions were closed before. */
  function Following(closed: seq<nat>, outcome: (seq<Held>, seq<nat>)): (seq<Held>, seq<nat>) {
    (outcome.0, closed + outcome.1)
  }

  lemma FollowingNone(closed: seq<nat>, held: seq<Held>, outcome: (seq<Held>, seq<nat>))
    ensures Following([], outcome) == outcome && Following(closed, (held, [])) == (held, closed)
  {
    assert [] + outcome.1 == outcome.1 && closed + [] == closed;
  }

  lemma FollowingOne(closed: seq<nat>, held: seq<Held>, event: nat, target: nat, tries: seq<Try>)
    requires tries != [] && |held| < target
    ensures var next, rest := tries[0], tries[1..];
            Following(closed, Stormed(held, event, target, tries))
            == if next.Unreachable? then Following(closed, Stormed(held, event, target, rest))
               else if next.Fails? then Following(closed + [next.id], Stormed(held, event, target, rest))
               else if next.cancelled then (held, closed + [next.id])
               else Following(closed, Stormed(held + [Held(next.id, event)], event, target, rest))
  {
    if tries[0].Fails? {
      var more := Stormed(held, event, target, tries[1..]).1;
      assert closed + ([tries[0].id] + more) == closed + [tries[0].id] + more;
    }
  }

  /** The sessions that these turns give the storm to hold, in order. */
  function Kept(tries: seq<Try>, event: nat): seq<Held> {
    if tries == [] then []
    else
      (if tries[0].Connects? && !tries[0].cancelled then [Held(tries[0].id, event)] else [])
      + Kept(tries[1..], event)
  }

  /** The sessions that they make it close. */
  function Dropped(tries: seq<Try>): seq<nat> {
    if tries == [] then []
    else
      (if tries[0].Fails? || (tries[0].Connects? && tries[0].cancelled) then [tries[0].id] else [])
      + Dropped(tries[1..])
  }

  predicate Cancelled(tries: seq<Try>, n: nat) {
    0 < n <= |tries| && tries[n - 1].Connects? && tries[n - 1].cancelled
  }

  /** After `i` turns the storm is below its target and not cancelled. */
  predicate GoesOn(held: seq<Held>, event: nat, target: nat, tries: seq<Try>, i: nat)
    requires i <= |tries|
  {
    |held| + |Kept(tries[..i], event)| < target && !Cancelled(tries, i)
  }

  lemma GoesOnAfter(held: seq<Held>, event: nat, target: nat, tries: seq<Try>, own: seq<Held>, i: nat)
    requires i < |tries| && GoesOn(held + own, event, target, tries[1..], i)
    requires own == if tries[0].Connects? then [Held(tries[0].id, event)] else []
    requires !(tries[0].Connects? && tries[0].cancelled)
    ensures GoesOn(held, event, target, tries, i + 1)
  {
    assert tries[..i + 1][1..] == tries[1..][..i];
    assert Kept(tries[..i + 1], event) == own + Kept(tries[1..][..i], event);
  }

  lemma CancelledTurn(turn: Try, event: nat)
    requires turn.Connects? && turn.cancelled
    ensures Kept([turn], event) == [] && Dropped([turn]) == [turn.id]
  {
    assert [turn][1..] == [];
    assert Kept([turn][1..], event) == [] && Dropped([turn][1..]) == [];
  }

  /** A storm takes its turns one after the other, as long as it is below its target and not cancelled: it holds every
      session that connects and closes every other one that it opened. */
  lemma {:induction false} StormMeans(held: seq<Held>, event: nat, target: nat, tries: seq<Try>) returns (n: nat)
    ensures n <= |tries|
    ensures Stormed(held, event, target, tries) == (held + Kept(tries[..n], event), Dropped(tries[..n]))
    ensures n == |tries| || |held| + |Kept(tries[..n], event)| >= target || Cancelled(tries, n)
    ensures forall i | 0 <= i < n :: GoesOn(held, event, target, tries, i)
    decreases |tries|
  {
    n := 0;
    assert tries[..0] == [] && held + [] == held;
    if tries != [] && |held| < target {
      var first := tries[0];
      var own := if first.Connects? && !first.cancelled then [Held(first.id, event)] else [];
      if first.Connects? && first.cancelled {
        n := 1;
        assert tries[..1] == [first];
        CancelledTurn(first, event);
      } else {
        var m := StormMeans(held + own, event, target, tries[1..]);
        n := m + 1;
        TurnMeans(held, event, target, tries, own, m);
        assert forall j | 0 <= j < m :: GoesOn(held + own, event, target, tries[1..], j);
        forall i | 0 <= i < n ensures GoesOn(held, event, target, tries, i) {
          if i > 0 {
            assert GoesOn(held + own, event, target, tries[1..], i - 1);
            GoesOnAfter(held, event, target, tries, own, i - 1);
          }
        }
      }
    }
  }

  /** A turn that is not cancelled, and the `m` turns after it. */
  lemma TurnMeans(held: seq<Held>, event: nat, target: nat, tries: seq<Try>, own: seq<Held>, m: nat)
    requires tries != [] && |held| < target && m < |tries| && !(tries[0].Connects? && tries[0].cancelled)
    requires own == if tries[0].Connects? then [Held(tries[0].id, event)] else []
    requires Stormed(held + own, event, target, tries[1..])
          == (held + own + Kept(tries[1..][..m], event), Dropped(tries[1..][..m]))
    ensures Kept(tries[..m + 1], event) == own + Kept(tries[1..][..m], event)
    ensures Stormed(held, event, target, tries) == (held + Kept(tries[..m + 1], event), Dropped(tries[..m + 1]))
  {
    assert tries[..m + 1][1..] == tries[1..][..m];
    assert held + [] == held;
    assert held + own + Kept(tries[1..][..m], event) == held + (own + Kept(tries[1..][..m], event));
    assert [] + Dropped(tries[1..][..m]) == Dropped(tries[1..][..m]);
  }

  class SessionLocks {
    var active: nat
    var held: seq<Held>
    var pool: Option<nat>
    var enabled: bool

    constructor ()
      ensures Now() == Shared(0, [], None, true)
    {
      active, held, pool, enabled := 0, [], None, true;
    }

    function Now(): Shared
      reads this
    {
      Shared(active, held, pool, enabled)
    }

    method Connected()
      modifies this
      ensures Now() == CountUp(old(Now()))
    {
      active := active + 1;
    }

    method Closed()
      modifies this`active
      ensures Now() == CountDown(old(Now()))
    {
      active := if active > 0 then active - 1 else 0;
    }

    method Borrow() returns (reusable: bool, session: Option<nat>)
      modifies this
      ensures (Now(), reusable, session) == TakePooled(old(Now()))
    {
      reusable := enabled;
      session := if reusable then pool else None;
      if reusable {
        pool := None;
      }
    }

    method GiveBack(id: nat) returns (kept: bool)
      modifies this
      ensures (Now(), kept) == ReturnPooled(old(Now()), id)
    {
      if enabled {
        pool := Some(id);
        return true;
      }
      kept := false;
    }

    method Hold(session: Held, cancelled: bool) returns (kept: bool)
      modifies this
      ensures (Now(), kept) == HoldOne(old(Now()), session, cancelled)
    {
      kept := !cancelled;
      if kept {
        held := held + [session];
      }
    }

    /** Every client session is pooled or held: nobody has one in hand. */
    ghost predicate AllAtRest()
      reads this
    {
      active == |held| + |Listed(pool)|
    }

    /** One reservation's session with nobody else at the locks but a mode switch that may disable the pool meanwhile:
        borrowed and checked, or newly opened (`next`, None when the server refuses), used, and put back or closed.
        The counter follows every session. */
    method UseSession(reuse: bool, alive: bool, next: Option<nat>, switched: bool, endsWell: bool)
      returns (used: Option<nat>, closed: seq<nat>)
      requires AllAtRest()
      modifies this
      ensures AllAtRest() && held == old(held)
      ensures var borrowed := if reuse && old(enabled) then old(pool) else None;
              var back := reuse && old(enabled) && !switched && endsWell;
              && used == (if borrowed.Some? && alive then borrowed else next)
              && pool == (if reuse && old(enabled) then if back then used else None else old(pool))
              && closed == (if alive then [] else Listed(borrowed)) + (if back then [] else Listed(used))
              && enabled == (old(enabled) && !(switched && used.Some?))
    {
      var reusable, session := false, None;
      if reuse {
        reusable, session := Borrow();
      }
      closed := [];
      if session.Some? && !alive {
        closed := [session.value];
        Closed();
        session := None;
      }
      if session.None? {
        if next.None? {
          return None, closed;
        }
        session := next;
        Connected();
      }
      used := session;
      if switched {
        enabled := false;
      }
      var kept := false;
      if reusable && endsWell {
        kept := GiveBack(used.value);
      }
      if !kept {
        closed := closed + [used.value];
        Closed();
      }
    }

    /** The storm's loop with nobody else at the lock. */
    method ConnectionStorm(event: nat, target: nat, tries: seq<Try>) returns (closed: seq<nat>)
      requires AllAtRest()
      modifies this
      ensures AllAtRest() && pool == old(pool) && enabled == old(enabled)
      ensures (held, closed) == Stormed(old(held), event, target, tries)
    {
      closed := [];
      var i := 0;
      assert tries[0..] == tries;
      FollowingNone(closed, held, Stormed(held, event, target, tries));
      while i < |tries| && |held| < target
        invariant 0 <= i <= |tries| && AllAtRest() && pool == old(pool) && enabled == old(enabled)
        invariant Stormed(old(held), event, target, tries)
               == Following(closed, Stormed(held, event, target, tries[i..]))
      {
        var next := tries[i];
        FollowingOne(closed, held, event, target, tries[i..]);
        assert tries[i..][1..] == tries[i + 1..];
        i := i + 1;
        if !next.Unreachable? {
          Connected();
          var kept := false;
          if next.Connects? {
            kept := Hold(Held(next.id, event), next.cancelled);
          }
          if !kept {
            closed := closed + [next.id];
            Closed();
          }
          if next.Connects? && next.cancelled {
            return;
          }
        }
      }
      FollowingNone(closed, held, (held, []));
    }

    method CloseEach(connections: seq<Held>) returns (closed: seq<nat>)
      modifies this`active
      ensures closed == Ids(connections) && active == Lowered(old(active), |closed|)
    {
      closed := [];
      var i := 0;
      while i < |connections|
        invariant 0 <= i <= |connections| && closed == Ids(connections)[..i]
        invariant active == Lowered(old(active), i)
      {
        assert Ids(connections)[..i + 1] == Ids(connections)[..i] + [connections[i].id];
        closed := closed + [connections[i].id];
        Closed();
        i := i + 1;
      }
    }

    /** `_release_connections` with nobody else at the locks: the pooled session first, then the held ones. */
    method ReleaseConnections() returns (closed: seq<nat>)
      modifies this
      ensures closed == Listed(old(pool)) + Ids(old(held))
      ensures Now() == Shared(Lowered(old(active), |closed|), [], None, false)
    {
      enabled := false;
      var pooled := pool;
      pool := None;
      var connections := held;
      held := [];
      if pooled.Some? {
        Closed();
      }
      var drained := CloseEach(connections);
      closed := Listed(pooled) + drained;
    }
  }

  // ----- Threads -----

  /** A client of the database, or the storm thread started with a stop event and a server capacity. */
  datatype Role = Client | Storm(event: nat, capacity: int)

  /** What to do once a broken session is closed: connect again, or give up. */
  datatype Resume = Reconnect | Stop

  /** How far a client's transaction is: the INSERT, the UPDATE with or without a row, and the end by commit or, when
      no row was updated, by rollback. */
  datatype Stage = Begun | Inserted | Rejected | Updated | Settled

  /** `reuse`: the session goes back to the pool when its transaction ends well. */
  datatype Pc =
    | Idle | Admitted | Looping | Fresh(reuse: bool) | Checking(id: nat) | Opened(id: nat, reuse: bool)
    | Using(id: nat, reuse: bool, stage: Stage)
    | Closing(id: nat, resume: Resume) | Uncounting(resume: Resume) | Leaving | Finished

  datatype Thread = Thread(role: Role, pc: Pc)

  /** The mode switch, which holds the operation lock from end to end. */
  datatype Switch =
    | Ready | Stopping | PoolTaken(pooled: Option<nat>) | Draining(queue: seq<nat>) | Lowering(rest: seq<nat>)
    | Renewed | Enabling

  datatype Place = AtThread(t: nat) | InPool | InHeld | InSwitch | Closed

  /** `place` (where each session is), `dirty` (sessions with uncommitted work) and `closes` (sessions closed,
      in order) are history. */
  datatype State = State(shared: Shared, admitted: Option<nat>, event: nat, stopped: set<nat>,
      threads: map<nat, Thread>,
                         switch: Switch, place: map<nat, Place>, dirty: set<nat>, closes: seq<nat>)

  datatype Step =
    | Start(t: nat) | Admit(t: nat) | Direct(t: nat) | Take(t: nat, reuse: bool) | Ping(t: nat, alive: bool)
    | Open(t: nat, id: nat) | OpenFails(t: nat) | Count(t: nat)
    | Insert(t: nat) | Update(t: nat, sold: bool) | Rollback(t: nat) | Commit(t: nat)
    | Return(t: nat) | Raise(t: nat) | Close(t: nat) | Uncount(t: nat) | Again(t: nat) | Release(t: nat)
    | StopCheck(t: nat) | TargetCheck(t: nat) | Append(t: nat, selected: bool)
    | SwitchStop | SwitchPool | SwitchHeld | SwitchClose | SwitchUncount | SwitchRenew | SwitchEnable(normal: bool)
    | SwitchSpawn(storm: Option<(nat, int)>)

  predicate IsAt(s: State, t: nat, role: Role, pc: Pc) {
    t in s.threads && s.threads[t] == Thread(role, pc)
  }

  predicate IsClient(s: State, t: nat) {
    t in s.threads && s.threads[t].role.Client?
  }

  predicate IsStorm(s: State, t: nat) {
    t in s.threads && s.threads[t].role.Storm?
  }

  function GoTo(s: State, t: nat, pc: Pc): State
    requires t in s.threads
  {
    s.(threads := s.threads[t := s.threads[t].(pc := pc)])
  }

  /** Where a thread goes after closing a session. */
  function After(role: Role, resume: Resume): Pc {
    if role.Client? then if resume.Reconnect? then Fresh(true) else Leaving
    else if resume.Reconnect? then Idle else Finished
  }

  function TakeStep(s: State, t: nat, reuse: bool): State
    requires t in s.threads
  {
    if !reuse then GoTo(s, t, Fresh(false))
    else
      var (shared', reusable, session) := TakePooled(s.shared);
      if !reusable then GoTo(s, t, Fresh(false))
      else if session.None? then GoTo(s, t, Fresh(true)).(shared := shared')
      else GoTo(s, t, Checking(session.value)).(shared := shared', place := s.place[session.value := AtThread(t)])
  }

  predicate InStage(s: State, t: nat, stage: Stage) {
    IsClient(s, t) && s.threads[t].pc.Using? && s.threads[t].pc.stage == stage
  }

  /** A statement of the transaction, and the sessions with uncommitted work after it. */
  function Statement(s: State, t: nat, stage: Stage, dirty: set<nat>): State
    requires t in s.threads && s.threads[t].pc.Using?
  {
    GoTo(s, t, s.threads[t].pc.(stage := stage)).(dirty := dirty)
  }

  /** The `with` block ends without an exception, by `return` after the rollback or after the commit. */
  function ReturnStep(s: State, t: nat): State
    requires t in s.threads && s.threads[t].pc.Using?
  {
    var pc := s.threads[t].pc;
    if !pc.reuse then GoTo(s, t, Closing(pc.id, Stop))
    else
      var (shared', kept) := ReturnPooled(s.shared, pc.id);
      if kept then GoTo(s, t, Leaving).(shared := shared', place := s.place[pc.id := InPool])
      else GoTo(s, t, Closing(pc.id, Stop))
  }

  function AppendStep(s: State, t: nat, selected: bool): State
    requires IsStorm(s, t) && s.threads[t].pc.Using?
  {
    var role, pc := s.threads[t].role, s.threads[t].pc;
    if !selected then GoTo(s, t, Closing(pc.id, Reconnect))
    else
      var (shared', kept) := HoldOne(s.shared, Held(pc.id, role.event), role.event in s.stopped);
      if kept then GoTo(s, t, Idle).(shared := shared', place := s.place[pc.id := InHeld])
      else GoTo(s, t, Closing(pc.id, Stop))
  }

  /** Closing rolls back. */
  function CloseSession(s: State, id: nat): State {
    s.(place := s.place[id := Closed], dirty := s.dirty - {id}, closes := s.closes + [id])
  }

  function Relabel(place: map<nat, Place>, ids: seq<nat>): map<nat, Place> {
    map id | id in place :: if id in ids then InSwitch else place[id]
  }

  function ClientNext(s: State, step: Step): State {
    match step
    case Start(t) => if t in s.threads then s else s.(threads := s.threads[t := Thread(Client, Idle)])
    case Admit(t) =>
      if IsAt(s, t, Client, Idle) && s.admitted.None? then GoTo(s, t, Admitted).(admitted := Some(t)) else s
    case Direct(t) => if IsAt(s, t, Client, Idle) then GoTo(s, t, Fresh(false)) else s
    case Take(t, reuse) => if IsAt(s, t, Client, Admitted) then TakeStep(s, t, reuse) else s
    case Ping(t, alive) =>
      if IsClient(s, t) && s.threads[t].pc.Checking? then
        var id := s.threads[t].pc.id;
        GoTo(s, t, if alive then Using(id, true, Begun) else Closing(id, Reconnect))
      else s
    case Insert(t) =>
      if InStage(s, t, Begun) then Statement(s, t, Inserted, s.dirty + {s.threads[t].pc.id}) else s
    case Update(t, sold) =>
      if InStage(s, t, Inserted) then Statement(s, t, if sold then Updated else Rejected, s.dirty) else s
    case Rollback(t) =>
      if InStage(s, t, Rejected) then Statement(s, t, Settled, s.dirty - {s.threads[t].pc.id}) else s
    case Commit(t) =>
      if InStage(s, t, Updated) then Statement(s, t, Settled, s.dirty - {s.threads[t].pc.id}) else s
    case Return(t) => if InStage(s, t, Settled) then ReturnStep(s, t) else s
    case Raise(t) =>
      if IsClient(s, t) && s.threads[t].pc.Using? then GoTo(s, t, Closing(s.threads[t].pc.id, Stop)) else s
    case Again(t) => if IsAt(s, t, Client, Leaving) then GoTo(s, t, Fresh(false)) else s
    case Release(t) =>
      if IsAt(s, t, Client, Leaving) then
        GoTo(s, t, Finished).(admitted := if s.admitted == Some(t) then None else s.admitted)
      else s
    case _ => s
  }

  /** Steps that clients and storms share. */
  function SessionNext(s: State, step: Step): State {
    match step
    case Open(t, id) =>
      if t in s.threads && s.threads[t].pc.Fresh? && id !in s.place then
        GoTo(s, t, Opened(id, s.threads[t].pc.reuse)).(place := s.place[id := AtThread(t)])
      else s
    case OpenFails(t) =>
      if t in s.threads && s.threads[t].pc.Fresh? then GoTo(s, t, if s.threads[t].role.Client? then Leaving else Idle)
          else s
    case Count(t) =>
      if t in s.threads && s.threads[t].pc.Opened? then
        GoTo(s, t, Using(s.threads[t].pc.id, s.threads[t].pc.reuse, Begun)).(shared := CountUp(s.shared))
      else s
    case Close(t) =>
      if t in s.threads && s.threads[t].pc.Closing? then
        CloseSession(GoTo(s, t, Uncounting(s.threads[t].pc.resume)), s.threads[t].pc.id)
      else s
    case Uncount(t) =>
      if t in s.threads && s.threads[t].pc.Uncounting? then
        GoTo(s, t, After(s.threads[t].role, s.threads[t].pc.resume)).(shared := CountDown(s.shared))
      else s
    case _ => s
  }

  function StormNext(s: State, step: Step): State {
    match step
    case StopCheck(t) =>
      if IsStorm(s, t) && s.threads[t].pc.Idle?
          then GoTo(s, t, if s.threads[t].role.event in s.stopped then Finished else Looping) else s
    case TargetCheck(t) =>
      if IsStorm(s, t) && s.threads[t].pc.Looping? && Target(s.threads[t].role.capacity).Some? then
        GoTo(s, t, if |s.shared.held| >= Target(s.threads[t].role.capacity).value then Finished else Fresh(false))
      else s
    case Append(t, selected) => if IsStorm(s, t) && s.threads[t].pc.Using? then AppendStep(s, t, selected) else s
    case _ => s
  }

  function SwitchNext(s: State, step: Step): State {
    match step
    case SwitchStop => if s.switch.Ready? then s.(switch := Stopping, stopped := s.stopped + {s.event}) else s
    case SwitchPool =>
      if s.switch.Stopping? then
        var (shared', pooled) := ClosePool(s.shared);
        s.(switch := PoolTaken(pooled), shared := shared', place := Relabel(s.place, Listed(pooled)))
      else s
    case SwitchHeld =>
      if s.switch.PoolTaken? then
        s.(switch := Draining(Listed(s.switch.pooled) + Ids(s.shared.held)), shared := s.shared.(held := []),
           place := Relabel(s.place, Ids(s.shared.held)))
      else s
    case SwitchClose =>
      if s.switch.Draining? && s.switch.queue != [] then
        CloseSession(s, s.switch.queue[0]).(switch := Lowering(s.switch.queue[1..]))
      else s
    case SwitchUncount =>
      if s.switch.Lowering? then s.(switch := Draining(s.switch.rest), shared := CountDown(s.shared)) else s
    case SwitchRenew => if s.switch == Draining([]) then s.(switch := Renewed, event := s.event + 1) else s
    case SwitchEnable(normal) =>
      if s.switch.Renewed? then s.(switch := Enabling, shared := s.shared.(enabled := normal)) else s
    case SwitchSpawn(storm) =>
      if !s.switch.Enabling? then s
      else if storm.Some? && storm.value.0 !in s.threads && Target(storm.value.1).Some? then
        s.(switch := Ready, threads := s.threads[storm.value.0 := Thread(Storm(s.event, storm.value.1), Idle)])
      else s.(switch := Ready)
    case _ => s
  }

  /** A step that is not enabled does nothing. */
  function Next(s: State, step: Step): State {
    if step.Open? || step.OpenFails? || step.Count? || step.Close? || step.Uncount? then SessionNext(s, step)
    else if step.StopCheck? || step.TargetCheck? || step.Append? then StormNext(s, step)
    else if step.SwitchStop? || step.SwitchPool? || step.SwitchHeld? || step.SwitchClose? || step.SwitchUncount?
            || step.SwitchRenew? || step.SwitchEnable? || step.SwitchSpawn? then SwitchNext(s, step)
    else ClientNext(s, step)
  }

  function Exec(s: State, steps: seq<Step>): State
    decreases |steps|
  {
    if steps == [] then s else Exec(Next(s, steps[0]), steps[1..])
  }

  predicate Init(s: State) {
    s == State(Shared(0, [], None, true), None, 0, {}, map[], Ready, map[], {}, [])
  }
}
