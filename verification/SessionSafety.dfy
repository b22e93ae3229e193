/** Session accounting, ownership and mode-switch safety, over every interleaving. */
module SessionSafety {
  import opened Headroom
  import opened Sessions
  import opened Wrappers

  // ----- Who holds which session -----

  predicate Owns(pc: Pc) {
    pc.Checking? || pc.Opened? || pc.Using? || pc.Closing?
  }

  ghost predicate ThreadPlaces(threads: map<nat, Thread>, place: map<nat, Place>) {
    && (forall t | t in threads && Owns(threads[t].pc) ::
        threads[t].pc.id in place && place[threads[t].pc.id] == AtThread(t))
    && (forall id | id in place && place[id].AtThread? ::
          place[id].t in threads && Owns(threads[place[id].t].pc) && threads[place[id].t].pc.id == id)
  }

  ghost predicate PoolPlaces(pool: Option<nat>, place: map<nat, Place>) {
    && (pool.Some? ==> pool.value in place && place[pool.value] == InPool)
    && (forall id | id in place && place[id].InPool? :: pool == Some(id))
  }

  /** The listed sessions are exactly those at a place, each once. */
  ghost predicate ListPlaces(ids: seq<nat>, at: Place, place: map<nat, Place>) {
    && (forall i | 0 <= i < |ids| :: ids[i] in place && place[ids[i]] == at)
    && (forall i, j | 0 <= i < j < |ids| :: ids[i] != ids[j])
    && (forall id | id in place && place[id] == at :: id in ids)
  }

  function Queue(switch: Switch): seq<nat> {
    match switch
    case PoolTaken(pooled) => Listed(pooled)
    case Draining(queue) => queue
    case Lowering(rest) => rest
    case _ => []
  }

  /** Between the INSERT and the end of the transaction, or about to be closed after an exception. */
  predicate MayBeDirty(pc: Pc) {
    pc.Closing? || (pc.Using? && (pc.stage.Inserted? || pc.stage.Rejected? || pc.stage.Updated?))
  }

  /** Only a session inside a transaction, or about to be closed, can carry uncommitted work. */
  ghost predicate DirtyPlaces(dirty: set<nat>, threads: map<nat, Thread>, place: map<nat, Place>) {
    forall id | id in dirty ::
      && id in place && place[id].AtThread? && place[id].t in threads
      && MayBeDirty(threads[place[id].t].pc) && threads[place[id].t].pc.id == id
      && threads[place[id].t].role.Client?
  }

  ghost predicate PlaceInv(s: State) {
    && ThreadPlaces(s.threads, s.place)
    && PoolPlaces(s.shared.pool, s.place)
    && ListPlaces(Ids(s.shared.held), InHeld, s.place)
    && ListPlaces(Queue(s.switch), InSwitch, s.place)
    && ListPlaces(s.closes, Closed, s.place)
    && DirtyPlaces(s.dirty, s.threads, s.place)
  }

  // ----- One admitted transaction at a time -----

  /** The thread is between taking from the pool and deciding whether to give back. */
  predicate Reusing(thread: Thread) {
    && thread.role.Client?
    && match thread.pc
       case Fresh(reuse) => reuse
       case Checking(_) => true
       case Opened(_, reuse) => reuse
       case Using(_, reuse, _) => reuse
       case Closing(_, resume) => resume.Reconnect?
       case Uncounting(resume) => resume.Reconnect?
       case _ => false
  }

  ghost predicate AdmitInv(s: State) {
    && (forall t | t in s.threads && (Reusing(s.threads[t]) || s.threads[t].pc.Admitted?) :: s.admitted == Some(t))
    && (forall t | t in s.threads && Reusing(s.threads[t]) :: s.shared.pool.None?)
    && (forall t | t in s.threads && s.threads[t].pc.Idle? && s.threads[t].role.Client? :: s.admitted != Some(t))
    && (s.admitted.Some? ==> s.admitted.value in s.threads)
    && (!s.shared.enabled ==> s.shared.pool.None?)
    && (s.switch.PoolTaken? || Released(s.switch) || s.switch.Renewed? ==> !s.shared.enabled)
  }

  // ----- Storms and the switch -----

  /** The switch has emptied the held list and not yet made the next stop event. */
  predicate Released(switch: Switch) {
    switch.Draining? || switch.Lowering?
  }

  predicate Switching(switch: Switch) {
    switch.Stopping? || switch.PoolTaken? || Released(switch)
  }

  predicate PastCheck(pc: Pc) {
    pc.Fresh? || pc.Opened? || pc.Using?
  }

  /** What a storm thread may be doing; `held` is the length of the held list. */
  ghost predicate StormOk(thread: Thread, event: nat, held: nat)
    requires thread.role.Storm?
  {
    var role := thread.role;
    && Target(role.capacity).Some? && role.event <= event
    && match thread.pc
       case Fresh(reuse) => !reuse
       case Opened(_, reuse) => !reuse
       case Using(_, reuse, stage) => !reuse && stage.Begun?
       case Checking(_) => false
       case Admitted => false
       case Leaving => false
       case _ => true
  }

  /** Room for what the current storm may still add. */
  ghost predicate RoomOk(thread: Thread, event: nat, held: nat)
    requires thread.role.Storm? && Target(thread.role.capacity).Some?
  {
    thread.role.event == event ==>
      held <= Target(thread.role.capacity).value && (PastCheck(thread.pc) ==> held < Target(thread.role.capacity).value)
  }

  ghost predicate StormsOk(threads: map<nat, Thread>, event: nat, held: nat, renewed: bool) {
    && (forall t | t in threads && threads[t].role.Storm? ::
          StormOk(threads[t], event, held) && RoomOk(threads[t], event, held)
              && (renewed ==> threads[t].role.event < event))
    && (forall t, u | t in threads && u in threads && threads[t].role.Storm? && threads[u].role.Storm?
                      && threads[t].role.event == threads[u].role.event :: t == u)
  }

  predicate Renewing(switch: Switch) {
    switch.Renewed? || switch.Enabling?
  }

  ghost predicate EventsOk(held: seq<Held>, event: nat, stopped: set<nat>, switch: Switch) {
    && (forall h | h in held :: h.event == event)
    && (Released(switch) || Renewing(switch) ==> held == [])
    && (forall e: nat | e < event :: e in stopped)
    && (forall e | e in stopped :: e <= event)
    && (event in stopped <==> Switching(switch))
  }

  /** The storm of the current stop event was started. */
  ghost predicate StormPresent(threads: map<nat, Thread>, event: nat) {
    exists t :: t in threads && threads[t].role.Storm? && threads[t].role.event == event
  }

  ghost predicate StormInv(s: State) {
    && EventsOk(s.shared.held, s.event, s.stopped, s.switch)
    && StormsOk(s.threads, s.event, |s.shared.held|, Renewing(s.switch))
    && (s.shared.held != [] ==> StormPresent(s.threads, s.event))
  }

  // ----- Counting -----

  /** The thread's session is counted in `active`. */
  predicate Counted(pc: Pc) {
    pc.Checking? || pc.Using? || pc.Closing? || pc.Uncounting?
  }

  ghost function Borrowers(threads: map<nat, Thread>): set<nat> {
    set t | t in threads && Counted(threads[t].pc)
  }

  /** Sessions that the mode switch took out and has not finished closing. */
  function InDrain(switch: Switch): nat {
    |Queue(switch)| + if switch.Lowering? then 1 else 0
  }

  ghost predicate CountInv(s: State) {
    s.shared.active == |s.shared.held| + |Listed(s.shared.pool)| + |Borrowers(s.threads)| + InDrain(s.switch)
  }

  ghost predicate Inv(s: State) {
    PlaceInv(s) && AdmitInv(s) && StormInv(s) && CountInv(s)
  }

  // ----- Places, one session at a time -----

  /** A session changes hands: lists that it neither leaves nor enters stay as they are. */
  lemma OtherList(ids: seq<nat>, at: Place, place: map<nat, Place>, id: nat, to: Place)
    requires ListPlaces(ids, at, place) && to != at && (id in place ==> place[id] != at)
    ensures ListPlaces(ids, at, place[id := to])
  {
  }

  lemma ListGrows(ids: seq<nat>, at: Place, place: map<nat, Place>, id: nat)
    requires ListPlaces(ids, at, place) && (id in place ==> place[id] != at)
    ensures ListPlaces(ids + [id], at, place[id := at])
  {
  }

  lemma ListPops(ids: seq<nat>, at: Place, place: map<nat, Place>, to: Place)
    requires ListPlaces(ids, at, place) && ids != [] && to != at
    ensures ListPlaces(ids[1..], at, place[ids[0] := to])
  {
    forall id | id in place[ids[0] := to] && place[ids[0] := to][id] == at ensures id in ids[1..] {
      var i :| 0 <= i < |ids| && ids[i] == id;
      assert ids[1..][i - 1] == id;
    }
  }

  /** A whole list moves to the switch. */
  lemma OtherRelabel(ids: seq<nat>, at: Place, place: map<nat, Place>, moved: seq<nat>, from: Place)
    requires ListPlaces(ids, at, place) && ListPlaces(moved, from, place) && from != at && at != InSwitch
    ensures ListPlaces(ids, at, Relabel(place, moved))
  {
    assert forall id | id in moved :: place[id] == from;
  }

  lemma ListEmptied(place: map<nat, Place>, moved: seq<nat>, from: Place)
    requires ListPlaces(moved, from, place) && from != InSwitch
    ensures ListPlaces([], from, Relabel(place, moved))
  {
  }

  lemma QueueGrows(queue: seq<nat>, place: map<nat, Place>, moved: seq<nat>, from: Place)
    requires ListPlaces(queue, InSwitch, place) && ListPlaces(moved, from, place) && from != InSwitch
    ensures ListPlaces(queue + moved, InSwitch, Relabel(place, moved))
  {
    var all, place' := queue + moved, Relabel(place, moved);
    forall i | 0 <= i < |all| ensures all[i] in place' && place'[all[i]] == InSwitch {
      if i >= |queue| {
        assert all[i] == moved[i - |queue|];
      }
    }
    forall i, j | 0 <= i < j < |all| ensures all[i] != all[j] {
      if i < |queue| {
        assert place[all[i]] == InSwitch;
      }
      if j >= |queue| {
        assert place[moved[j - |queue|]] == from;
      }
    }
  }

  lemma OtherThreads(threads: map<nat, Thread>, place: map<nat, Place>, moved: seq<nat>, from: Place)
    requires ThreadPlaces(threads, place) && ListPlaces(moved, from, place) && !from.AtThread?
    ensures ThreadPlaces(threads, Relabel(place, moved))
  {
    forall id | id in place && id in moved ensures !place[id].AtThread? {
      var j :| 0 <= j < |moved| && moved[j] == id;
    }
  }

  lemma PoolAsList(pool: Option<nat>, place: map<nat, Place>)
    ensures PoolPlaces(pool, place) <==> ListPlaces(Listed(pool), InPool, place)
  {
    if PoolPlaces(pool, place) {
      forall id | id in place && place[id] == InPool ensures id in Listed(pool) {
        assert Listed(pool)[0] == id;
      }
    }
    if ListPlaces(Listed(pool), InPool, place) && pool.Some? {
      assert Listed(pool)[0] == pool.value;
    }
  }

  // ----- Places, step by step -----

  /** A thread keeps its session, or its lack of one. */
  lemma SameHands(s: State, t: nat, pc: Pc, dirty: set<nat>)
    requires PlaceInv(s) && t in s.threads && Owns(pc) == Owns(s.threads[t].pc)
    requires Owns(pc) ==> pc.id == s.threads[t].pc.id
    requires dirty <= s.dirty && (Owns(pc) && pc.id in dirty ==> MayBeDirty(pc))
    ensures PlaceInv(GoTo(s, t, pc).(dirty := dirty))
  {
  }

  /** A thread lets go of its session, which was clean or is being closed. */
  lemma LetsGo(s: State, t: nat, pc: Pc, to: Place)
    requires PlaceInv(s) && t in s.threads && Owns(s.threads[t].pc) && !Owns(pc) && !to.AtThread?
    ensures var id, s' := s.threads[t].pc.id, GoTo(s, t, pc).(place := s.place[s.threads[t].pc.id := to]);
            && ThreadPlaces(s'.threads, s'.place) && DirtyPlaces(s.dirty - {id}, s'.threads, s'.place)
            && (!to.InPool? ==> PoolPlaces(s.shared.pool, s'.place))
            && (!to.InHeld? ==> ListPlaces(Ids(s.shared.held), InHeld, s'.place))
            && (!to.InSwitch? ==> ListPlaces(Queue(s.switch), InSwitch, s'.place))
            && (!to.Closed? ==> ListPlaces(s.closes, Closed, s'.place))
  {
    var id := s.threads[t].pc.id;
    if !to.InHeld? { OtherList(Ids(s.shared.held), InHeld, s.place, id, to); }
    if !to.InSwitch? { OtherList(Queue(s.switch), InSwitch, s.place, id, to); }
    if !to.Closed? { OtherList(s.closes, Closed, s.place, id, to); }
  }

  /** A thread that holds nothing gets a session that no thread holds. */
  lemma Gets(s: State, t: nat, pc: Pc)
    requires PlaceInv(s) && t in s.threads && !Owns(s.threads[t].pc) && Owns(pc)
    requires pc.id in s.place ==> s.place[pc.id].InPool?
    ensures var s' := GoTo(s, t, pc).(place := s.place[pc.id := AtThread(t)]);
            && ThreadPlaces(s'.threads, s'.place) && DirtyPlaces(s.dirty, s'.threads, s'.place)
            && PoolPlaces(if pc.id in s.place then None else s.shared.pool, s'.place)
            && ListPlaces(Ids(s.shared.held), InHeld, s'.place)
            && ListPlaces(Queue(s.switch), InSwitch, s'.place) && ListPlaces(s.closes, Closed, s'.place)
  {
    OtherList(Ids(s.shared.held), InHeld, s.place, pc.id, AtThread(t));
    OtherList(Queue(s.switch), InSwitch, s.place, pc.id, AtThread(t));
    OtherList(s.closes, Closed, s.place, pc.id, AtThread(t));
  }

  lemma ClientPlaces(s: State, step: Step)
    requires PlaceInv(s) && AdmitInv(s)
    ensures PlaceInv(ClientNext(s, step))
  {
    match step
    case Take(t, reuse) => if IsAt(s, t, Client, Admitted) { TakePlaces(s, t, reuse); }
    case Return(t) => if InStage(s, t, Settled) { ReturnPlaces(s, t); }
    case _ => PlainPlaces(s, step);
  }

  lemma PlainPlaces(s: State, step: Step)
    requires PlaceInv(s) && !step.Take? && !step.Return?
    ensures PlaceInv(ClientNext(s, step))
  {
    match step
    case Start(t) => StartPlaces(s, t);
    case Ping(t, alive) => PingPlaces(s, t, alive);
    case Raise(t) => RaisePlaces(s, t);
    case Admit(_) => AdmissionPlaces(s, step);
    case Direct(_) => AdmissionPlaces(s, step);
    case Again(_) => AdmissionPlaces(s, step);
    case Release(_) => AdmissionPlaces(s, step);
    case _ => StatementPlaces(s, step);
  }

  lemma RaisePlaces(s: State, t: nat)
    requires PlaceInv(s)
    ensures PlaceInv(ClientNext(s, Raise(t)))
  {
    if IsClient(s, t) && s.threads[t].pc.Using? {
      SameHands(s, t, Closing(s.threads[t].pc.id, Stop), s.dirty);
    }
  }

  /** Steps of threads that hold no session. */
  lemma AdmissionPlaces(s: State, step: Step)
    requires PlaceInv(s) && (step.Admit? || step.Direct? || step.Again? || step.Release?)
    ensures PlaceInv(ClientNext(s, step))
  {
    match step
    case Admit(t) => if IsAt(s, t, Client, Idle) { SameHands(s, t, Admitted, s.dirty); }
    case Direct(t) => if IsAt(s, t, Client, Idle) { SameHands(s, t, Fresh(false), s.dirty); }
    case Again(t) => if IsAt(s, t, Client, Leaving) { SameHands(s, t, Fresh(false), s.dirty); }
    case Release(t) => if IsAt(s, t, Client, Leaving) { SameHands(s, t, Finished, s.dirty); }
  }

  lemma StatementPlaces(s: State, step: Step)
    requires PlaceInv(s) && (step.Insert? || step.Update? || step.Rollback? || step.Commit? || ClientNext(s, step) == s)
    ensures PlaceInv(ClientNext(s, step))
  {
    match step
    case Insert(t) => InsertPlaces(s, t);
    case Update(t, sold) =>
      if InStage(s, t, Inserted) {
        SameHands(s, t, s.threads[t].pc.(stage := if sold then Updated else Rejected), s.dirty);
      }
    case Rollback(t) => if InStage(s, t, Rejected) { SettlePlaces(s, t); }
    case Commit(t) => if InStage(s, t, Updated) { SettlePlaces(s, t); }
    case _ =>
  }

  lemma StartPlaces(s: State, t: nat)
    requires PlaceInv(s)
    ensures PlaceInv(ClientNext(s, Start(t)))
  {
    if t !in s.threads {
      NewThread(s.threads, s.place, s.dirty, t, Thread(Client, Idle));
    }
  }

  lemma InsertPlaces(s: State, t: nat)
    requires PlaceInv(s)
    ensures PlaceInv(ClientNext(s, Insert(t)))
  {
  }

  lemma SettlePlaces(s: State, t: nat)
    requires PlaceInv(s) && t in s.threads && s.threads[t].pc.Using?
    ensures PlaceInv(Statement(s, t, Settled, s.dirty - {s.threads[t].pc.id}))
  {
    SameHands(s, t, s.threads[t].pc.(stage := Settled), s.dirty - {s.threads[t].pc.id});
  }

  lemma PingPlaces(s: State, t: nat, alive: bool)
    requires PlaceInv(s)
    ensures PlaceInv(ClientNext(s, Ping(t, alive)))
  {
    if IsClient(s, t) && s.threads[t].pc.Checking? {
      var id := s.threads[t].pc.id;
      SameHands(s, t, if alive then Using(id, true, Begun) else Closing(id, Reconnect), s.dirty);
    }
  }

  lemma TakePlaces(s: State, t: nat, reuse: bool)
    requires PlaceInv(s) && IsAt(s, t, Client, Admitted)
    ensures PlaceInv(TakeStep(s, t, reuse))
  {
    SameHands(s, t, Fresh(false), s.dirty);
    SameHands(s, t, Fresh(true), s.dirty);
    if reuse && s.shared.enabled && s.shared.pool.Some? {
      Gets(s, t, Checking(s.shared.pool.value));
    }
  }

  lemma ReturnPlaces(s: State, t: nat)
    requires PlaceInv(s) && AdmitInv(s) && InStage(s, t, Settled)
    ensures PlaceInv(ReturnStep(s, t))
  {
    var pc := s.threads[t].pc;
    assert pc.id !in s.dirty;
    if pc.reuse && s.shared.enabled {
      LetsGo(s, t, Leaving, InPool);
      assert s.dirty - {pc.id} == s.dirty;
    } else {
      SameHands(s, t, Closing(pc.id, Stop), s.dirty);
    }
  }

  lemma SessionPlaces(s: State, step: Step)
    requires PlaceInv(s)
    ensures PlaceInv(SessionNext(s, step))
  {
    match step
    case Open(_, _) => OpenPlaces(s, step);
    case OpenFails(_) => OpenPlaces(s, step);
    case Count(t) => if t in s.threads && s.threads[t].pc.Opened? { CountPlaces(s, t); }
    case Close(t) => if t in s.threads && s.threads[t].pc.Closing? { ClosePlaces(s, t); }
    case Uncount(t) => if t in s.threads && s.threads[t].pc.Uncounting? { UncountPlaces(s, t); }
    case _ =>
  }

  lemma OpenPlaces(s: State, step: Step)
    requires PlaceInv(s) && (step.Open? || step.OpenFails?)
    ensures PlaceInv(SessionNext(s, step))
  {
    match step
    case Open(t, id) =>
      if t in s.threads && s.threads[t].pc.Fresh? && id !in s.place { Gets(s, t, Opened(id, s.threads[t].pc.reuse)); }
    case OpenFails(t) =>
      if t in s.threads && s.threads[t].pc.Fresh? {
        SameHands(s, t, if s.threads[t].role.Client? then Leaving else Idle, s.dirty);
      }
  }

  lemma CountPlaces(s: State, t: nat)
    requires PlaceInv(s) && t in s.threads && s.threads[t].pc.Opened?
    ensures PlaceInv(SessionNext(s, Count(t)))
  {
    SameHands(s, t, Using(s.threads[t].pc.id, s.threads[t].pc.reuse, Begun), s.dirty);
  }

  lemma UncountPlaces(s: State, t: nat)
    requires PlaceInv(s) && t in s.threads && s.threads[t].pc.Uncounting?
    ensures PlaceInv(SessionNext(s, Uncount(t)))
  {
    SameHands(s, t, After(s.threads[t].role, s.threads[t].pc.resume), s.dirty);
  }

  lemma ClosePlaces(s: State, t: nat)
    requires PlaceInv(s) && t in s.threads && s.threads[t].pc.Closing?
    ensures PlaceInv(SessionNext(s, Close(t)))
  {
    var id := s.threads[t].pc.id;
    LetsGo(s, t, Uncounting(s.threads[t].pc.resume), Closed);
    ListGrows(s.closes, Closed, s.place, id);
    CloseShape(s, t);
  }

  lemma CloseShape(s: State, t: nat)
    requires t in s.threads && s.threads[t].pc.Closing?
    ensures var id, s' := s.threads[t].pc.id, SessionNext(s, Close(t));
            && s'.place == s.place[id := Closed] && s'.closes == s.closes + [id] && s'.dirty == s.dirty - {id}
            && s'.threads == GoTo(s, t, Uncounting(s.threads[t].pc.resume)).threads
            && s'.shared == s.shared && s'.switch == s.switch
  {
  }

  lemma StormPlaces(s: State, step: Step)
    requires PlaceInv(s)
    ensures PlaceInv(StormNext(s, step))
  {
    match step
    case StopCheck(t) => StopCheckPlaces(s, t);
    case TargetCheck(t) => TargetCheckPlaces(s, t);
    case Append(t, selected) => if IsStorm(s, t) && s.threads[t].pc.Using? { AppendPlaces(s, t, selected); }
    case _ =>
  }

  lemma StopCheckPlaces(s: State, t: nat)
    requires PlaceInv(s)
    ensures PlaceInv(StormNext(s, StopCheck(t)))
  {
    if IsStorm(s, t) && s.threads[t].pc.Idle? {
      SameHands(s, t, if s.threads[t].role.event in s.stopped then Finished else Looping, s.dirty);
    }
  }

  lemma TargetCheckPlaces(s: State, t: nat)
    requires PlaceInv(s)
    ensures PlaceInv(StormNext(s, TargetCheck(t)))
  {
    if IsStorm(s, t) && s.threads[t].pc.Looping? && Target(s.threads[t].role.capacity).Some? {
      SameHands(s, t, StormNext(s, TargetCheck(t)).threads[t].pc, s.dirty);
    }
  }

  lemma AppendPlaces(s: State, t: nat, selected: bool)
    requires PlaceInv(s) && IsStorm(s, t) && s.threads[t].pc.Using?
    ensures PlaceInv(AppendStep(s, t, selected))
  {
    var role, id := s.threads[t].role, s.threads[t].pc.id;
    if !selected {
      SameHands(s, t, Closing(id, Reconnect), s.dirty);
    } else if role.event in s.stopped {
      SameHands(s, t, Closing(id, Stop), s.dirty);
    } else {
      HeldPlaces(s, t);
    }
  }

  lemma HeldPlaces(s: State, t: nat)
    requires PlaceInv(s) && IsStorm(s, t) && s.threads[t].pc.Using? && s.threads[t].role.event !in s.stopped
    requires s.threads[t].pc.id !in s.dirty
    ensures PlaceInv(AppendStep(s, t, true))
  {
    var id := s.threads[t].pc.id;
    LetsGo(s, t, Idle, InHeld);
    ListGrows(Ids(s.shared.held), InHeld, s.place, id);
    assert Ids(s.shared.held + [Held(id, s.threads[t].role.event)]) == Ids(s.shared.held) + [id];
    assert s.dirty - {id} == s.dirty;
  }

  lemma SwitchPlacesKept(s: State, step: Step)
    requires PlaceInv(s)
    ensures PlaceInv(SwitchNext(s, step))
  {
    match step
    case SwitchPool => if s.switch.Stopping? { ClosePoolPlaces(s); }
    case SwitchHeld => if s.switch.PoolTaken? { TakeHeldPlaces(s); }
    case SwitchClose => if s.switch.Draining? && s.switch.queue != [] { DrainPlaces(s); }
    case SwitchSpawn(storm) => SpawnPlaces(s, storm);
    case _ => QuietSwitchPlaces(s, step);
  }

  /** The switch moves on without touching a session. */
  lemma QuietSwitchPlaces(s: State, step: Step)
    requires PlaceInv(s) && !step.SwitchPool? && !step.SwitchHeld? && !step.SwitchClose? && !step.SwitchSpawn?
    ensures PlaceInv(SwitchNext(s, step))
  {
  }

  lemma SpawnPlaces(s: State, storm: Option<(nat, int)>)
    requires PlaceInv(s)
    ensures PlaceInv(SwitchNext(s, SwitchSpawn(storm)))
  {
    if s.switch.Enabling? && storm.Some? && storm.value.0 !in s.threads && Target(storm.value.1).Some? {
      NewThread(s.threads, s.place, s.dirty, storm.value.0, Thread(Storm(s.event, storm.value.1), Idle));
    }
  }

  lemma NewThread(threads: map<nat, Thread>, place: map<nat, Place>, dirty: set<nat>, t: nat, thread: Thread)
    requires ThreadPlaces(threads, place) && DirtyPlaces(dirty, threads, place) && t !in threads && !Owns(thread.pc)
    ensures ThreadPlaces(threads[t := thread], place) && DirtyPlaces(dirty, threads[t := thread], place)
  {
  }

  lemma ClosePoolPlaces(s: State)
    requires PlaceInv(s) && s.switch.Stopping?
    ensures PlaceInv(SwitchNext(s, SwitchPool))
  {
    var pooled := Listed(s.shared.pool);
    PoolAsList(s.shared.pool, s.place);
    PoolAsList(None, Relabel(s.place, pooled));
    OtherThreads(s.threads, s.place, pooled, InPool);
    ListEmptied(s.place, pooled, InPool);
    OtherRelabel(Ids(s.shared.held), InHeld, s.place, pooled, InPool);
    OtherRelabel(s.closes, Closed, s.place, pooled, InPool);
    QueueGrows([], s.place, pooled, InPool);
    assert [] + pooled == pooled;
  }

  lemma TakeHeldPlaces(s: State)
    requires PlaceInv(s) && s.switch.PoolTaken?
    ensures PlaceInv(SwitchNext(s, SwitchHeld))
  {
    var ids := Ids(s.shared.held);
    PoolAsList(s.shared.pool, s.place);
    PoolAsList(s.shared.pool, Relabel(s.place, ids));
    OtherThreads(s.threads, s.place, ids, InHeld);
    ListEmptied(s.place, ids, InHeld);
    OtherRelabel(Listed(s.shared.pool), InPool, s.place, ids, InHeld);
    OtherRelabel(s.closes, Closed, s.place, ids, InHeld);
    QueueGrows(Queue(s.switch), s.place, ids, InHeld);
    RelabelKeepsDirty(s.dirty, s.threads, s.place, ids);
    TakenState(s);
  }

  lemma TakenState(s: State)
    requires s.switch.PoolTaken?
    ensures var ids, s' := Ids(s.shared.held), SwitchNext(s, SwitchHeld);
            && s'.place == Relabel(s.place, ids) && Queue(s'.switch) == Queue(s.switch) + ids
            && Ids(s'.shared.held) == [] && s'.shared.pool == s.shared.pool
            && s'.threads == s.threads && s'.closes == s.closes && s'.dirty == s.dirty
  {
  }

  lemma RelabelKeepsDirty(dirty: set<nat>, threads: map<nat, Thread>, place: map<nat, Place>, ids: seq<nat>)
    requires DirtyPlaces(dirty, threads, place) && ListPlaces(ids, InHeld, place)
    ensures DirtyPlaces(dirty, threads, Relabel(place, ids))
  {
    assert forall id | id in dirty :: place[id] != InHeld;
  }

  lemma DrainPlaces(s: State)
    requires PlaceInv(s) && s.switch.Draining? && s.switch.queue != []
    ensures PlaceInv(SwitchNext(s, SwitchClose))
  {
    var id := s.switch.queue[0];
    ListPops(s.switch.queue, InSwitch, s.place, Closed);
    ListGrows(s.closes, Closed, s.place, id);
    OtherList(Ids(s.shared.held), InHeld, s.place, id, Closed);
    DrainThreads(s.threads, s.place, s.shared.pool, s.dirty, id);
    DrainedState(s);
  }

  lemma DrainedState(s: State)
    requires s.switch.Draining? && s.switch.queue != []
    ensures var id, s' := s.switch.queue[0], SwitchNext(s, SwitchClose);
            && s'.place == s.place[id := Closed] && Queue(s'.switch) == s.switch.queue[1..]
            && s'.closes == s.closes + [id]
            && s'.threads == s.threads && s'.shared == s.shared && s'.dirty == s.dirty - {id}
  {
  }

  lemma DrainThreads(threads: map<nat, Thread>, place: map<nat, Place>, pool: Option<nat>, dirty: set<nat>, id: nat)
    requires ThreadPlaces(threads, place) && PoolPlaces(pool, place) && DirtyPlaces(dirty, threads, place)
    requires id in place && place[id].InSwitch?
    ensures ThreadPlaces(threads, place[id := Closed]) && PoolPlaces(pool, place[id := Closed])
    ensures DirtyPlaces(dirty - {id}, threads, place[id := Closed])
  {
  }

  lemma NextPlaces(s: State, step: Step)
    requires PlaceInv(s) && AdmitInv(s)
    ensures PlaceInv(Next(s, step))
  {
    ClientPlaces(s, step);
    SessionPlaces(s, step);
    StormPlaces(s, step);
    SwitchPlacesKept(s, step);
  }

  // ----- Admission, step by step -----

  lemma ClientAdmits(s: State, step: Step)
    requires AdmitInv(s)
    ensures AdmitInv(ClientNext(s, step))
  {
    match step
    case Return(t) => ReturnAdmits(s, t);
    case Raise(t) => RaiseAdmits(s, t);
    case Take(t, reuse) => TakeAdmits(s, t, reuse);
    case Release(t) => ReleaseAdmits(s, t);
    case Insert(t) => StatementAdmits(s, step, t);
    case Update(t, _) => StatementAdmits(s, step, t);
    case Rollback(t) => StatementAdmits(s, step, t);
    case Commit(t) => StatementAdmits(s, step, t);
    case _ => PlainAdmits(s, step);
  }

  lemma PlainAdmits(s: State, step: Step)
    requires AdmitInv(s) && (step.Start? || step.Admit? || step.Direct? || step.Ping? || step.Again?
            || ClientNext(s, step) == s)
    ensures AdmitInv(ClientNext(s, step))
  {
  }

  /** A statement leaves the thread between taking and giving back. */
  lemma StatementAdmits(s: State, step: Step, t: nat)
    requires AdmitInv(s) && (step == Insert(t) || step == Rollback(t) || step == Commit(t)
            || (step.Update? && step.t == t))
    ensures AdmitInv(ClientNext(s, step))
  {
    var s' := ClientNext(s, step);
    assert s'.shared == s.shared && s'.admitted == s.admitted && s'.switch == s.switch;
    assert s' == s || (s.threads[t].pc.Using? && s'.threads == s.threads[t := s'.threads[t]]
        && Reusing(s'.threads[t]) == Reusing(s.threads[t]));
  }

  lemma ReleaseAdmits(s: State, t: nat)
    requires AdmitInv(s)
    ensures AdmitInv(ClientNext(s, Release(t)))
  {
  }

  lemma ReturnAdmits(s: State, t: nat)
    requires AdmitInv(s)
    ensures AdmitInv(ClientNext(s, Return(t)))
  {
  }

  lemma RaiseAdmits(s: State, t: nat)
    requires AdmitInv(s)
    ensures AdmitInv(ClientNext(s, Raise(t)))
  {
  }

  lemma TakeAdmits(s: State, t: nat, reuse: bool)
    requires AdmitInv(s)
    ensures AdmitInv(ClientNext(s, Take(t, reuse)))
  {
  }

  lemma SessionAdmits(s: State, step: Step)
    requires AdmitInv(s)
    ensures AdmitInv(SessionNext(s, step))
  {
    match step
    case Open(_, _) => OpenAdmits(s, step);
    case OpenFails(_) => OpenAdmits(s, step);
    case Count(t) => CountAdmits(s, t);
    case Close(t) => CloseAdmits(s, t);
    case Uncount(t) => UncountAdmits(s, t);
    case _ =>
  }

  lemma OpenAdmits(s: State, step: Step)
    requires AdmitInv(s) && (step.Open? || step.OpenFails?)
    ensures AdmitInv(SessionNext(s, step))
  {
  }

  lemma CountAdmits(s: State, t: nat)
    requires AdmitInv(s)
    ensures AdmitInv(SessionNext(s, Count(t)))
  {
  }

  lemma CloseAdmits(s: State, t: nat)
    requires AdmitInv(s)
    ensures AdmitInv(SessionNext(s, Close(t)))
  {
  }

  lemma UncountAdmits(s: State, t: nat)
    requires AdmitInv(s)
    ensures AdmitInv(SessionNext(s, Uncount(t)))
  {
  }

  lemma StormAdmits(s: State, step: Step)
    requires AdmitInv(s)
    ensures AdmitInv(StormNext(s, step))
  {
  }

  lemma SwitchAdmits(s: State, step: Step)
    requires AdmitInv(s)
    ensures AdmitInv(SwitchNext(s, step))
  {
    if step.SwitchSpawn? {
      SpawnAdmits(s, step.storm);
    }
  }

  lemma SpawnAdmits(s: State, storm: Option<(nat, int)>)
    requires AdmitInv(s)
    ensures AdmitInv(SwitchNext(s, SwitchSpawn(storm)))
  {
  }

  // ----- Storms, step by step -----

  lemma PresentStays(threads: map<nat, Thread>, t: nat, thread: Thread, event: nat)
    requires t in threads ==> thread.role == threads[t].role
    ensures StormPresent(threads, event) ==> StormPresent(threads[t := thread], event)
  {
    if StormPresent(threads, event) {
      var u :| u in threads && threads[u].role.Storm? && threads[u].role.event == event;
      assert u in threads[t := thread];
    }
  }

  /** A step of one thread that leaves the held list alone. */
  lemma OneStorm(s: State, t: nat, pc: Pc)
    requires StormInv(s) && t in s.threads
    requires s.threads[t].role.Storm? ==>
               var thread := s.threads[t].(pc := pc);
               StormOk(thread, s.event, |s.shared.held|) && RoomOk(thread, s.event, |s.shared.held|)
    ensures StormInv(GoTo(s, t, pc))
  {
    PresentStays(s.threads, t, s.threads[t].(pc := pc), s.event);
  }

  lemma ClientStorms(s: State, step: Step)
    requires StormInv(s)
    ensures StormInv(ClientNext(s, step))
  {
    match step
    case Start(t) => if t !in s.threads { PresentStays(s.threads, t, Thread(Client, Idle), s.event); }
    case Take(t, reuse) => if IsAt(s, t, Client, Admitted) { OneStorm(s, t, TakeStep(s, t, reuse).threads[t].pc); }
    case Return(t) => if InStage(s, t, Settled) { OneStorm(s, t, ReturnStep(s, t).threads[t].pc); }
    case _ => PlainStorms(s, step);
  }

  /** A client's step that neither takes nor returns a session moves that client alone. */
  ghost predicate OneClient(s: State, s': State, t: nat) {
    && t in s.threads && s.threads[t].role.Client? && t in s'.threads
    && s'.threads == s.threads[t := s'.threads[t]] && s'.threads[t].role.Client?
    && Counted(s'.threads[t].pc) == Counted(s.threads[t].pc)
    && s'.shared == s.shared && s'.switch == s.switch && s'.event == s.event && s'.stopped == s.stopped
  }

  lemma AdmissionShape(s: State, step: Step)
    requires step.Admit? || step.Direct? || step.Again? || step.Release?
    ensures ClientNext(s, step) == s || OneClient(s, ClientNext(s, step), step.t)
  {
  }

  lemma UseShape(s: State, step: Step)
    requires step.Ping? || step.Raise?
    ensures ClientNext(s, step) == s || OneClient(s, ClientNext(s, step), step.t)
  {
  }

  lemma StatementShape(s: State, step: Step)
    requires step.Insert? || step.Update? || step.Rollback? || step.Commit?
    ensures ClientNext(s, step) == s || OneClient(s, ClientNext(s, step), step.t)
  {
  }

  lemma PlainShape(s: State, step: Step)
    requires !step.Start? && !step.Take? && !step.Return?
    ensures ClientNext(s, step) == s || exists t :: OneClient(s, ClientNext(s, step), t)
  {
    if step.Admit? || step.Direct? || step.Again? || step.Release? {
      AdmissionShape(s, step);
    } else if step.Ping? || step.Raise? {
      UseShape(s, step);
    } else if step.Insert? || step.Update? || step.Rollback? || step.Commit? {
      StatementShape(s, step);
    }
  }

  lemma OneClientStorms(s: State, s': State, t: nat)
    requires StormInv(s) && OneClient(s, s', t)
    ensures StormInv(s')
  {
    PresentStays(s.threads, t, s'.threads[t], s.event);
  }

  lemma PlainStorms(s: State, step: Step)
    requires StormInv(s) && !step.Start? && !step.Take? && !step.Return?
    ensures StormInv(ClientNext(s, step))
  {
    PlainShape(s, step);
    if ClientNext(s, step) != s {
      var t :| OneClient(s, ClientNext(s, step), t);
      OneClientStorms(s, ClientNext(s, step), t);
    }
  }

  lemma SessionStorms(s: State, step: Step)
    requires StormInv(s)
    ensures StormInv(SessionNext(s, step))
  {
    match step
    case Open(_, _) => OpenStorms(s, step);
    case OpenFails(_) => OpenStorms(s, step);
    case Count(t) => if t in s.threads && s.threads[t].pc.Opened? { CountStorms(s, t); }
    case Close(t) => if t in s.threads && s.threads[t].pc.Closing? { CloseStorms(s, t); }
    case Uncount(t) => if t in s.threads && s.threads[t].pc.Uncounting? { UncountStorms(s, t); }
    case _ =>
  }

  lemma OpenStorms(s: State, step: Step)
    requires StormInv(s) && (step.Open? || step.OpenFails?)
    ensures StormInv(SessionNext(s, step))
  {
    match step
    case Open(t, id) =>
      if t in s.threads && s.threads[t].pc.Fresh? { OneStorm(s, t, Opened(id, s.threads[t].pc.reuse)); }
    case OpenFails(t) =>
      if t in s.threads && s.threads[t].pc.Fresh? {
        OneStorm(s, t, if s.threads[t].role.Client? then Leaving else Idle);
      }
  }

  lemma CountStorms(s: State, t: nat)
    requires StormInv(s) && t in s.threads && s.threads[t].pc.Opened?
    ensures StormInv(SessionNext(s, Count(t)))
  {
    OneStorm(s, t, Using(s.threads[t].pc.id, s.threads[t].pc.reuse, Begun));
  }

  lemma CloseStorms(s: State, t: nat)
    requires StormInv(s) && t in s.threads && s.threads[t].pc.Closing?
    ensures StormInv(SessionNext(s, Close(t)))
  {
    OneStorm(s, t, Uncounting(s.threads[t].pc.resume));
  }

  lemma UncountStorms(s: State, t: nat)
    requires StormInv(s) && t in s.threads && s.threads[t].pc.Uncounting?
    ensures StormInv(SessionNext(s, Uncount(t)))
  {
    OneStorm(s, t, After(s.threads[t].role, s.threads[t].pc.resume));
  }

  lemma StormStorms(s: State, step: Step)
    requires StormInv(s)
    ensures StormInv(StormNext(s, step))
  {
    match step
    case StopCheck(t) => if IsStorm(s, t) && s.threads[t].pc.Idle? { OneStorm(s, t, StormNext(s, step).threads[t].pc); }
    case TargetCheck(t) =>
      if IsStorm(s, t) && s.threads[t].pc.Looping? { OneStorm(s, t, StormNext(s, step).threads[t].pc); }
    case Append(t, selected) => if IsStorm(s, t) && s.threads[t].pc.Using? { AppendStorms(s, t, selected); }
    case _ =>
  }

  /** Only the storm of the current stop event gets past the locked check, and it had room. */
  lemma AppendStorms(s: State, t: nat, selected: bool)
    requires StormInv(s) && IsStorm(s, t) && s.threads[t].pc.Using?
    ensures StormInv(AppendStep(s, t, selected))
  {
    if selected && s.threads[t].role.event !in s.stopped {
      HoldStorms(s, t);
    } else {
      OneStorm(s, t, Closing(s.threads[t].pc.id, if selected then Stop else Reconnect));
    }
  }

  lemma HoldStorms(s: State, t: nat)
    requires StormInv(s) && IsStorm(s, t) && s.threads[t].pc.Using? && s.threads[t].role.event !in s.stopped
    ensures StormInv(AppendStep(s, t, true))
  {
    assert s.threads[t].role.event == s.event;
    assert StormPresent(s.threads, s.event);
    PresentStays(s.threads, t, Thread(s.threads[t].role, Idle), s.event);
  }

  lemma SwitchStorms(s: State, step: Step)
    requires StormInv(s)
    ensures StormInv(SwitchNext(s, step))
  {
    match step
    case SwitchSpawn(storm) => SpawnStorms(s, storm);
    case SwitchHeld => ReleaseStorms(s);
    case SwitchRenew => RenewStorms(s);
    case _ => QuietSwitchStorms(s, step);
  }

  lemma QuietSwitchStorms(s: State, step: Step)
    requires StormInv(s) && !step.SwitchSpawn? && !step.SwitchHeld? && !step.SwitchRenew?
    ensures StormInv(SwitchNext(s, step))
  {
  }

  lemma ReleaseStorms(s: State)
    requires StormInv(s)
    ensures StormInv(SwitchNext(s, SwitchHeld))
  {
    if s.switch.PoolTaken? {
      EmptiedStorms(s.threads, s.event, |s.shared.held|);
    }
  }

  lemma RenewStorms(s: State)
    requires StormInv(s)
    ensures StormInv(SwitchNext(s, SwitchRenew))
  {
    if s.switch == Draining([]) {
      RenewedStorms(s.threads, s.event);
    }
  }

  lemma EmptiedStorms(threads: map<nat, Thread>, event: nat, held: nat)
    requires StormsOk(threads, event, held, false)
    ensures StormsOk(threads, event, 0, false)
  {
  }

  lemma RenewedStorms(threads: map<nat, Thread>, event: nat)
    requires StormsOk(threads, event, 0, false)
    ensures StormsOk(threads, event + 1, 0, true)
  {
  }

  lemma SpawnStorms(s: State, storm: Option<(nat, int)>)
    requires StormInv(s)
    ensures StormInv(SwitchNext(s, SwitchSpawn(storm)))
  {
    if s.switch.Enabling? && storm.Some? && storm.value.0 !in s.threads && Target(storm.value.1).Some? {
      var thread := Thread(Storm(s.event, storm.value.1), Idle);
      PresentStays(s.threads, storm.value.0, thread, s.event);
      assert StormsOk(s.threads[storm.value.0 := thread], s.event, 0, false);
    } else {
      assert StormsOk(s.threads, s.event, |s.shared.held|, false);
    }
  }

  // ----- Counting, step by step -----

  lemma OneThread(threads: map<nat, Thread>, t: nat, thread: Thread)
    ensures var n := |Borrowers(threads)| - if t in threads && Counted(threads[t].pc) then 1 else 0;
            |Borrowers(threads[t := thread])| == n + if Counted(thread.pc) then 1 else 0
  {
    var rest := Borrowers(threads) - {t};
    assert Borrowers(threads[t := thread]) == if Counted(thread.pc) then rest + {t} else rest;
    assert Borrowers(threads) == if t in threads && Counted(threads[t].pc) then rest + {t} else rest;
  }

  lemma ClientCounts(s: State, step: Step)
    requires CountInv(s) && AdmitInv(s)
    ensures CountInv(ClientNext(s, step))
  {
    match step
    case Start(t) => OneThread(s.threads, t, Thread(Client, Idle));
    case Return(t) => if InStage(s, t, Settled) { ReturnCounts(s, t); }
    case Take(t, reuse) => if IsAt(s, t, Client, Admitted) { TakeCounts(s, t, reuse); }
    case _ => PlainCounts(s, step);
  }

  lemma ReturnCounts(s: State, t: nat)
    requires CountInv(s) && AdmitInv(s) && InStage(s, t, Settled)
    ensures CountInv(ReturnStep(s, t))
  {
    OneThread(s.threads, t, ReturnStep(s, t).threads[t]);
  }

  lemma TakeCounts(s: State, t: nat, reuse: bool)
    requires CountInv(s) && IsAt(s, t, Client, Admitted)
    ensures CountInv(TakeStep(s, t, reuse))
  {
    OneThread(s.threads, t, TakeStep(s, t, reuse).threads[t]);
  }

  lemma PlainCounts(s: State, step: Step)
    requires CountInv(s) && !step.Start? && !step.Return? && !step.Take?
    ensures CountInv(ClientNext(s, step))
  {
    PlainShape(s, step);
    if ClientNext(s, step) != s {
      var t :| OneClient(s, ClientNext(s, step), t);
      OneThread(s.threads, t, ClientNext(s, step).threads[t]);
    }
  }

  lemma SessionCounts(s: State, step: Step)
    requires CountInv(s)
    ensures CountInv(SessionNext(s, step))
  {
    match step
    case Open(t, _) => OpenCounts(s, step, t);
    case OpenFails(t) => OpenCounts(s, step, t);
    case Count(t) => CountCounts(s, t);
    case Close(t) => OpenCounts(s, step, t);
    case Uncount(t) => UncountCounts(s, t);
    case _ =>
  }

  /** Opening and closing do not count. */
  lemma OpenCounts(s: State, step: Step, t: nat)
    requires CountInv(s) && (step.Open? || step.OpenFails? || step.Close?) && step.t == t
    ensures CountInv(SessionNext(s, step))
  {
    if t in s.threads {
      OneThread(s.threads, t, SessionNext(s, step).threads[t]);
    }
  }

  lemma CountCounts(s: State, t: nat)
    requires CountInv(s)
    ensures CountInv(SessionNext(s, Count(t)))
  {
    if t in s.threads {
      OneThread(s.threads, t, SessionNext(s, Count(t)).threads[t]);
    }
  }

  lemma UncountCounts(s: State, t: nat)
    requires CountInv(s)
    ensures CountInv(SessionNext(s, Uncount(t)))
  {
    if t in s.threads {
      OneThread(s.threads, t, SessionNext(s, Uncount(t)).threads[t]);
    }
  }

  lemma StormCounts(s: State, step: Step)
    requires CountInv(s)
    ensures CountInv(StormNext(s, step))
  {
    match step
    case StopCheck(t) => if t in s.threads { OneThread(s.threads, t, StormNext(s, step).threads[t]); }
    case TargetCheck(t) => if t in s.threads { OneThread(s.threads, t, StormNext(s, step).threads[t]); }
    case Append(t, _) => if t in s.threads { OneThread(s.threads, t, StormNext(s, step).threads[t]); }
    case _ =>
  }

  lemma SwitchCounts(s: State, step: Step)
    requires CountInv(s)
    ensures CountInv(SwitchNext(s, step))
  {
    if step.SwitchSpawn? && step.storm.Some? {
      OneThread(s.threads, step.storm.value.0, Thread(Storm(s.event, step.storm.value.1), Idle));
    }
  }

  // ----- Runs -----

  lemma NextAdmits(s: State, step: Step)
    requires AdmitInv(s)
    ensures AdmitInv(Next(s, step))
  {
    ClientAdmits(s, step);
    SessionAdmits(s, step);
    StormAdmits(s, step);
    SwitchAdmits(s, step);
  }

  lemma NextStorms(s: State, step: Step)
    requires StormInv(s)
    ensures StormInv(Next(s, step))
  {
    ClientStorms(s, step);
    SessionStorms(s, step);
    StormStorms(s, step);
    SwitchStorms(s, step);
  }

  lemma NextCounts(s: State, step: Step)
    requires CountInv(s) && AdmitInv(s)
    ensures CountInv(Next(s, step))
  {
    ClientCounts(s, step);
    SessionCounts(s, step);
    StormCounts(s, step);
    SwitchCounts(s, step);
  }

  lemma NextInv(s: State, step: Step)
    requires Inv(s)
    ensures Inv(Next(s, step))
  {
    NextPlaces(s, step);
    NextAdmits(s, step);
    NextStorms(s, step);
    NextCounts(s, step);
  }

  lemma {:induction false} ExecInv(s: State, steps: seq<Step>)
    requires Inv(s)
    ensures Inv(Exec(s, steps))
    decreases |steps|
  {
    if steps != [] {
      NextInv(s, steps[0]);
      ExecInv(Next(s, steps[0]), steps[1..]);
    }
  }

  lemma Reached(s: State, steps: seq<Step>)
    requires Init(s)
    ensures Inv(Exec(s, steps))
  {
    assert Borrowers(s.threads) == {};
    ExecInv(s, steps);
  }

  /** In every run the session counter is the held, pooled, borrowed and draining sessions, and no session is
      closed twice or lost: each is closed, or in exactly one hand. */
  lemma SessionsAreAccountedFor(s0: State, steps: seq<Step>)
    requires Init(s0)
    ensures var s := Exec(s0, steps);
            && s.shared.active == |s.shared.held| + |Listed(s.shared.pool)| + |Borrowers(s.threads)| + InDrain(s.switch)
            && (forall i, j | 0 <= i < j < |s.closes| :: s.closes[i] != s.closes[j])
            && (forall id | id in s.place ::
                  id in s.closes || s.shared.pool == Some(id) || id in Ids(s.shared.held) || id in Queue(s.switch)
                  || exists t :: t in s.threads && Owns(s.threads[t].pc) && s.threads[t].pc.id == id)
            && (forall t, u | t in s.threads && u in s.threads && t != u && Owns(s.threads[t].pc)
                && Owns(s.threads[u].pc) ::
                  s.threads[t].pc.id != s.threads[u].pc.id)
  {
    Reached(s0, steps);
    var s := Exec(s0, steps);
    forall id | id in s.place
      ensures id in s.closes || s.shared.pool == Some(id) || id in Ids(s.shared.held) || id in Queue(s.switch)
              || exists t :: t in s.threads && Owns(s.threads[t].pc) && s.threads[t].pc.id == id
    {
      if s.place[id].AtThread? {
        assert s.place[id].t in s.threads;
      }
    }
  }

  /** The clamp at zero never bites: a step that counts a session down finds it counted. */
  lemma ClampNeverBites(s: State, step: Step)
    requires Inv(s)
    requires (step.Uncount? && step.t in s.threads && s.threads[step.t].pc.Uncounting?)
            || (step.SwitchUncount? && s.switch.Lowering?)
    ensures Next(s, step).shared.active == s.shared.active - 1
  {
    if step.Uncount? {
      assert step.t in Borrowers(s.threads);
    }
  }

  lemma PooledIsClean(s: State)
    requires PlaceInv(s) && s.shared.pool.Some?
    ensures s.shared.pool.value !in s.dirty && s.shared.pool.value !in s.closes
  {
  }

  lemma OnlyReturnsFillThePool(s: State, step: Step)
    requires AdmitInv(s)
    ensures Next(s, step).shared.pool.Some? && Next(s, step).shared.pool != s.shared.pool ==> s.shared.pool.None?
  {
    if step.Return? && InStage(s, step.t, Settled) && s.threads[step.t].pc.reuse {
      assert Reusing(s.threads[step.t]);
    }
  }

  /** A session goes back only into an empty pool, and without uncommitted work. */
  lemma ReturnsAreClean(s: State, step: Step)
    requires Inv(s)
    ensures var s' := Next(s, step);
            && (s'.shared.pool.Some? && s'.shared.pool != s.shared.pool ==> s.shared.pool.None?)
            && (s'.shared.pool.Some? ==> s'.shared.pool.value !in s'.dirty && s'.shared.pool.value !in s'.closes)
  {
    NextPlaces(s, step);
    OnlyReturnsFillThePool(s, step);
    if Next(s, step).shared.pool.Some? {
      PooledIsClean(Next(s, step));
    }
  }

  // ----- Mode switches -----

  /** The stop event is over and its sessions were taken. */
  predicate Over(s: State, event: nat) {
    event < s.event || (event == s.event && Released(s.switch))
  }

  lemma OverStays(s: State, step: Step, event: nat)
    requires Over(s, event)
    ensures Over(Next(s, step), event)
  {
  }

  lemma {:induction false} OverForever(s: State, steps: seq<Step>, event: nat)
    requires Inv(s) && Over(s, event)
    ensures Inv(Exec(s, steps)) && Over(Exec(s, steps), event)
    decreases |steps|
  {
    if steps != [] {
      NextInv(s, steps[0]);
      OverStays(s, steps[0], event);
      OverForever(Next(s, steps[0]), steps[1..], event);
    }
  }

  /** Once a mode switch has released the sessions of a storm, none of that storm's sessions is in the held
      list, now or after any further steps of any thread. */
  lemma SwitchIsFinal(s: State, steps: seq<Step>, event: nat)
    requires Inv(s) && Over(s, event)
    ensures forall h | h in Exec(s, steps).shared.held :: h.event != event
  {
    OverForever(s, steps, event);
  }

  /** In every run held sessions belong to the storm of the current stop event and stay within its target, which
      leaves the server at least three sessions and at least fifteen percent of its capacity. */
  lemma HeadroomThroughTheStorm(s0: State, steps: seq<Step>)
    requires Init(s0)
    ensures var s := Exec(s0, steps);
            s.shared.held != [] ==>
              exists t ::
                && IsStorm(s, t) && s.threads[t].role.event == s.event
                && (forall h | h in s.shared.held :: h.event == s.event)
                && var capacity := s.threads[t].role.capacity;
                   capacity >= 16 && capacity - |s.shared.held| >= 3
                       && 100 * (capacity - |s.shared.held|) >= 15 * capacity
  {
    Reached(s0, steps);
    var s := Exec(s0, steps);
    if s.shared.held != [] {
      var t :| t in s.threads && s.threads[t].role.Storm? && s.threads[t].role.event == s.event;
      AcceptedFromSixteen(s.threads[t].role.capacity);
      assert IsStorm(s, t);
    }
  }
}
