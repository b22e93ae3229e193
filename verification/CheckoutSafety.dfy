/** Single flight, replay, capacity and accounting of concurrent checkouts. */
module CheckoutSafety {
  import opened Idempotency
  import opened Checkout

  // ----- Invariant -----

  /** The checkout's entry is in the table and still in progress. */
  predicate Owning(c: Local) {
    c.pc.Ready? || c.pc.InCall? || c.pc.Succeeded? || c.pc == Leaving(true)
  }

  ghost predicate TableInv(slots: Table, locals: map<nat, Local>, now: int, capacity: nat) {
    && Unique(slots) && |slots| <= capacity
    && (forall x | x in slots && !x.entry.completed ::
          x.entry.owner in locals && Owning(locals[x.entry.owner])
              && x == OwnSlot(x.entry.owner, locals[x.entry.owner]))
    && (forall t | t in locals && Owning(locals[t]) :: OwnSlot(t, locals[t]) in slots)
    && (forall x | x in slots && x.entry.completed :: x.entry.status == 200 && x.entry.createdAt <= now)
  }

  predicate LocalInv(c: Local) {
    && c.attempts <= c.limit && c.limit > 0
    && match c.pc
       case Entered => c.attempts == 0 && c.status == 503
       case Blocked => c.attempts == 0 && c.status == 503
       case Ready => c.attempts < c.limit && c.status == 503
       case InCall => c.attempts > 0 && c.status == 503
       case Succeeded => c.attempts > 0 && c.status == 200
       case Stored => c.attempts > 0 && c.status == 200
       case Leaving(owns) => if owns then c.attempts > 0 && (c.status == 502 || c.status == 503)
                             else c.attempts == 0 && c.status in {200, 400, 409, 503}
       case Done => c.status in {200, 400, 409, 502, 503}
  }

  ghost predicate StampInv(slots: Table, stamps: map<string, nat>, clock: nat) {
    && (forall x | x in slots :: x.key in stamps && stamps[x.key] < clock)
    && (forall i, j | 0 <= i < j < |slots| ::
          slots[i].key in stamps && slots[j].key in stamps && stamps[slots[i].key] < stamps[slots[j].key])
  }

  ghost predicate Inv(s: State) {
    && s.capacity > 0
    && TableInv(s.book.slots, s.locals, s.now, s.capacity)
    && (forall t | t in s.locals :: LocalInv(s.locals[t]))
    && StampInv(s.book.slots, s.stamps, s.clock)
  }

  // ----- What the critical sections do to the table -----

  /** In progress stays; nothing new appears. */
  ghost predicate Keeps(slots: Table, slots': Table) {
    && Unique(slots') && |slots'| <= |slots|
    && (forall x | x in slots' :: x in slots)
    && (forall x | x in slots && !x.entry.completed :: x in slots')
  }

  lemma PruneKeeps(slots: Table, now: int)
    requires Unique(slots)
    ensures Keeps(slots, Pruned(slots, now))
  {
    WithoutUnique(slots, ExpiredKeys(slots, now));
    forall x ensures x in Pruned(slots, now) <==> x in slots && !Expired(x.entry, now) {
      PrunedMembers(slots, now, x);
    }
  }

  lemma EvictKeeps(slots: Table, i: nat)
    requires Unique(slots) && i < |slots| && slots[i].entry.completed
    ensures Keeps(slots, RemoveAt(slots, i))
  {
    forall x ensures x in RemoveAt(slots, i) <==> x in slots && x != slots[i] {
      RemoveMembers(slots, i, x);
    }
    RemoveMembers(slots, i, slots[i]);
  }

  lemma MoveKeeps(slots: Table, i: nat)
    requires Unique(slots) && i < |slots|
    ensures Keeps(slots, MoveToEnd(slots, i))
  {
    forall x ensures x in MoveToEnd(slots, i) <==> x in slots {
      MoveToEndMembers(slots, i, x);
    }
    MoveToEndMembers(slots, i, slots[i]);
  }

  ghost predicate Effect(slots: Table, t: nat, c': Local, slots': Table) {
    if c'.pc.Ready? then
      slots' != [] && slots'[|slots'| - 1] == OwnSlot(t, c') && Keeps(slots, slots'[..|slots'| - 1])
      && (forall x | x in slots'[..|slots'| - 1] :: x.key != c'.key)
    else Keeps(slots, slots')
  }

  lemma CreateEffect(book: Book, t: nat, c: Local, now: int, capacity: nat)
    requires Unique(book.slots) && |book.slots| <= capacity && capacity > 0 && Index(book.slots, c.key) == |book.slots|
    ensures var (book', c') := Create(book, t, c, now, capacity);
            && Effect(book.slots, t, c', book'.slots) && |book'.slots| <= capacity
            && (c' == Leave(c, 503) || c' == c.(pc := Ready, created := now))
  {
    RoomMeans(book.slots, capacity);
    var (slots, ok) := WithRoom(book.slots, capacity);
    if ok {
      if slots != book.slots {
        EvictKeeps(book.slots, FirstCompleted(book.slots));
      }
      var c' := c.(pc := Ready, created := now);
      assert (slots + [OwnSlot(t, c')])[..|slots|] == slots;
      forall x | x in slots ensures x.key != c.key {
        assert x in book.slots;
        var j :| 0 <= j < |book.slots| && book.slots[j] == x;
      }
    }
  }

  lemma TurnEffect(book: Book, t: nat, c: Local, now: int, capacity: nat)
    requires Unique(book.slots) && |book.slots| <= capacity && capacity > 0
    ensures var (book', c') := Turn(book, t, c, now, capacity);
            && Effect(book.slots, t, c', book'.slots) && |book'.slots| <= capacity
            && (c' == c.(pc := Ready, created := now) || c' == c.(pc := Blocked)
                || c' == c.(pc := Leaving(false), status := c'.status))
  {
    var i := Index(book.slots, c.key);
    if i == |book.slots| {
      CreateEffect(book, t, c, now, capacity);
    } else {
      MoveKeeps(book.slots, i);
    }
  }

  lemma LookEffect(book: Book, t: nat, c: Local, now: int, capacity: nat)
    requires Unique(book.slots) && |book.slots| <= capacity && capacity > 0
    ensures var (book', c') := Look(book, t, c, now, capacity);
            && Effect(book.slots, t, c', book'.slots) && |book'.slots| <= capacity
            && (c' == c.(pc := Ready, created := now) || c' == c.(pc := Blocked)
                || c' == c.(pc := Leaving(false), status := c'.status))
  {
    var looked := if c.pc.Entered? then book.(slots := Pruned(book.slots, now)) else book;
    if c.pc.Entered? {
      PruneKeeps(book.slots, now);
    }
    TurnEffect(looked, t, c, now, capacity);
  }

  lemma LookTable(slots: Table, locals: map<nat, Local>, now: int, capacity: nat, t: nat, c': Local, slots': Table)
    requires TableInv(slots, locals, now, capacity) && t in locals && !Owning(locals[t])
    requires Effect(slots, t, c', slots') && |slots'| <= capacity && (c'.pc.Ready? || !Owning(c'))
    ensures TableInv(slots', locals[t := c'], now, capacity)
  {
    if c'.pc.Ready? {
      var kept := slots'[..|slots'| - 1];
      assert slots' == kept + [OwnSlot(t, c')];
      forall i, j | 0 <= i < j < |slots'| ensures slots'[i].key != slots'[j].key {
        assert slots'[i] in kept;
      }
    }
  }

  // ----- Statuses a look can give -----

  lemma TurnLocal(book: Book, t: nat, c: Local, now: int, capacity: nat)
    requires LocalInv(c) && (c.pc.Entered? || c.pc.Blocked?)
    requires forall x | x in book.slots && x.entry.completed :: x.entry.status == 200
    ensures LocalInv(Turn(book, t, c, now, capacity).1)
  {
    var i := Index(book.slots, c.key);
    if i < |book.slots| {
      assert book.slots[i] in book.slots;
    }
  }

  lemma LookLocal(s: State, t: nat)
    requires Inv(s) && (AtPc(s, t, Entered) || AtPc(s, t, Blocked))
    ensures LocalInv(Look(s.book, t, s.locals[t], s.now, s.capacity).1)
  {
    var c := s.locals[t];
    var looked := if c.pc.Entered? then s.book.(slots := Pruned(s.book.slots, s.now)) else s.book;
    PruneKeeps(s.book.slots, s.now);
    TurnLocal(looked, t, c, s.now, s.capacity);
  }

  // ----- The order of the table -----

  lemma {:induction false} WithoutSorted(slots: Table, keys: set<string>, stamps: map<string, nat>, clock: nat)
    requires StampInv(slots, stamps, clock)
    ensures StampInv(Without(slots, keys), stamps, clock)
  {
    if slots != [] {
      var rest := Without(slots[1..], keys);
      forall i, j | 0 <= i < j < |slots[1..]|
        ensures slots[1..][i].key in stamps && slots[1..][j].key in stamps
                && stamps[slots[1..][i].key] < stamps[slots[1..][j].key]
      {
        assert slots[1..][i] == slots[i + 1] && slots[1..][j] == slots[j + 1];
      }
      WithoutSorted(slots[1..], keys, stamps, clock);
      forall j | 0 <= j < |rest| ensures rest[j].key in stamps && stamps[slots[0].key] < stamps[rest[j].key] {
        WithoutMembers(slots[1..], keys, rest[j]);
        assert rest[j] in slots[1..];
        var k :| 0 <= k < |slots[1..]| && slots[1..][k] == rest[j];
        assert slots[k + 1] == rest[j];
      }
    }
  }

  lemma RemoveSorted(slots: Table, i: nat, stamps: map<string, nat>, clock: nat)
    requires StampInv(slots, stamps, clock) && i < |slots|
    ensures StampInv(RemoveAt(slots, i), stamps, clock)
  {
    var r := RemoveAt(slots, i);
    assert forall j | 0 <= j < |r| :: r[j] == slots[if j < i then j else j + 1];
  }

  /** A key stamped last may stand last. */
  lemma AppendSorted(slots: Table, x: Slot, stamps: map<string, nat>, clock: nat)
    requires StampInv(slots, stamps, clock) && forall y | y in slots :: y.key != x.key
    ensures StampInv(slots + [x], stamps[x.key := clock], clock + 1)
  {
    var longer, stamps' := slots + [x], stamps[x.key := clock];
    forall i, j | 0 <= i < j < |longer|
      ensures longer[i].key in stamps' && longer[j].key in stamps' && stamps'[longer[i].key] < stamps'[longer[j].key]
    {
      assert longer[i] in slots;
      if j < |slots| {
        assert longer[j] in slots;
      }
    }
  }

  lemma CreateSorted(book: Book, t: nat, c: Local, now: int, capacity: nat, stamps: map<string, nat>, clock: nat)
    requires StampInv(book.slots, stamps, clock) && Unique(book.slots) && |book.slots| <= capacity && capacity > 0
    requires Index(book.slots, c.key) == |book.slots|
    ensures var (book', c') := Create(book, t, c, now, capacity);
            if c'.pc.Ready? then StampInv(book'.slots, stamps[c.key := clock], clock + 1)
                else StampInv(book'.slots, stamps, clock)
  {
    RoomMeans(book.slots, capacity);
    CreateEffect(book, t, c, now, capacity);
    var (slots, ok) := WithRoom(book.slots, capacity);
    if ok {
      if slots != book.slots {
        RemoveSorted(book.slots, FirstCompleted(book.slots), stamps, clock);
      }
      var own := OwnSlot(t, c.(pc := Ready, created := now));
      assert (slots + [own])[..|slots|] == slots;
      AppendSorted(slots, own, stamps, clock);
    }
  }

  lemma ReplaySorted(slots: Table, i: nat, stamps: map<string, nat>, clock: nat)
    requires StampInv(slots, stamps, clock) && Unique(slots) && i < |slots|
    ensures StampInv(MoveToEnd(slots, i), stamps[slots[i].key := clock], clock + 1)
  {
    RemoveSorted(slots, i, stamps, clock);
    forall y | y in RemoveAt(slots, i) ensures y.key != slots[i].key {
      RemoveMembers(slots, i, y);
      if y.key == slots[i].key {
        UniqueSlot(slots, y, slots[i]);
      }
    }
    AppendSorted(RemoveAt(slots, i), slots[i], stamps, clock);
  }

  lemma TurnSorted(s: State, book: Book, t: nat, c: Local)
    requires StampInv(book.slots, s.stamps, s.clock) && Unique(book.slots) && |book.slots| <= s.capacity
            && s.capacity > 0
    requires !c.pc.Ready? && forall x | x in book.slots && x.entry.completed :: x.entry.status == 200
    ensures var (book', c') := Turn(book, t, c, s.now, s.capacity);
            StampInv(book'.slots, Stamp(s, c').stamps, Stamp(s, c').clock)
  {
    var i := Index(book.slots, c.key);
    if i == |book.slots| {
      CreateSorted(book, t, c, s.now, s.capacity, s.stamps, s.clock);
      CreateEffect(book, t, c, s.now, s.capacity);
    } else if book.slots[i].entry.order == c.order && book.slots[i].entry.completed {
      ReplayTurn(book, t, c, s.now, s.capacity, i);
      ReplaySorted(book.slots, i, s.stamps, s.clock);
    }
  }

  lemma ReplayTurn(book: Book, t: nat, c: Local, now: int, capacity: nat, i: nat)
    requires i == Index(book.slots, c.key) < |book.slots|
    requires book.slots[i].entry.order == c.order && book.slots[i].entry.completed
    requires forall x | x in book.slots && x.entry.completed :: x.entry.status == 200
    ensures var (book', c') := Turn(book, t, c, now, capacity);
            book'.slots == MoveToEnd(book.slots, i) && c' == Leave(c, 200) && c'.key == book.slots[i].key
  {
    assert book.slots[i] in book.slots;
  }

  // ----- Steps -----

  lemma LookShape(s: State, t: nat)
    requires AtPc(s, t, Entered) || AtPc(s, t, Blocked)
    ensures var s' := Next(s, LookStep(t));
            var (book', c') := Look(s.book, t, s.locals[t], s.now, s.capacity);
            s'.now == s.now && s'.capacity == s.capacity && s'.book == book' && s'.locals == s.locals[t := c']
  {
  }

  lemma LookKeepsTable(s: State, t: nat)
    requires Inv(s) && (AtPc(s, t, Entered) || AtPc(s, t, Blocked))
    ensures var (book', c') := Look(s.book, t, s.locals[t], s.now, s.capacity);
            TableInv(book'.slots, s.locals[t := c'], s.now, s.capacity)
  {
    var (book', c') := Look(s.book, t, s.locals[t], s.now, s.capacity);
    LookEffect(s.book, t, s.locals[t], s.now, s.capacity);
    LookTable(s.book.slots, s.locals, s.now, s.capacity, t, c', book'.slots);
  }

  lemma LookInv(s: State, t: nat)
    requires Inv(s) && (AtPc(s, t, Entered) || AtPc(s, t, Blocked))
    ensures Inv(Next(s, LookStep(t)))
  {
    LookShape(s, t);
    LookKeepsTable(s, t);
    LookLocal(s, t);
    LookSorted(s, t);
  }

  /** The table that a look works on. */
  function Looked(s: State, c: Local): Book {
    if c.pc.Entered? then s.book.(slots := Pruned(s.book.slots, s.now)) else s.book
  }

  lemma LookedSound(s: State, c: Local)
    requires Inv(s)
    ensures var slots := Looked(s, c).slots;
            && Unique(slots) && |slots| <= s.capacity && StampInv(slots, s.stamps, s.clock)
            && forall x | x in slots && x.entry.completed :: x.entry.status == 200
  {
    PruneKeeps(s.book.slots, s.now);
    WithoutSorted(s.book.slots, ExpiredKeys(s.book.slots, s.now), s.stamps, s.clock);
  }

  lemma LookStamps(s: State, t: nat)
    requires AtPc(s, t, Entered) || AtPc(s, t, Blocked)
    ensures var s', c := Next(s, LookStep(t)), s.locals[t];
            var (book', c') := Turn(Looked(s, c), t, c, s.now, s.capacity);
            s'.book == book' && s'.stamps == Stamp(s, c').stamps && s'.clock == Stamp(s, c').clock
  {
  }

  lemma LookSorted(s: State, t: nat)
    requires Inv(s) && (AtPc(s, t, Entered) || AtPc(s, t, Blocked))
    ensures var s' := Next(s, LookStep(t)); StampInv(s'.book.slots, s'.stamps, s'.clock)
  {
    var c := s.locals[t];
    LookedSound(s, c);
    LookStamps(s, t);
    TurnSorted(s, Looked(s, c), t, c);
  }

  /** A checkout that keeps its entry, or its lack of one, does not disturb the table. */
  lemma LocalStep(s: State, t: nat, c': Local)
    requires Inv(s) && t in s.locals && LocalInv(c')
    requires Owning(c') == Owning(s.locals[t]) && OwnSlot(t, c') == OwnSlot(t, s.locals[t])
    ensures Inv(s.(locals := s.locals[t := c']))
  {
  }

  lemma ReplaceMembers(slots: Table, i: nat, x: Slot, y: Slot)
    requires Unique(slots) && i < |slots| && x.key == slots[i].key
    ensures y in slots[i := x] <==> y == x || (y in slots && y != slots[i])
  {
    assert slots[i := x][i] == x;
    if y in slots && y != slots[i] {
      var j :| 0 <= j < |slots| && slots[j] == y;
      assert slots[i := x][j] == y;
    }
  }

  lemma StoreMembers(s: State, t: nat)
    requires Inv(s) && AtPc(s, t, Succeeded)
    ensures var c := s.locals[t];
            var stored := Slot(c.key, Entry(c.order, s.now, true, 200, t));
            var i := Index(s.book.slots, c.key);
            && i < |s.book.slots| && s.book.slots[i] == OwnSlot(t, c)
            && Store(s.book, t, c, s.now).0.slots == s.book.slots[i := stored]
            && forall x :: x in s.book.slots[i := stored] <==> x == stored || (x in s.book.slots && x != OwnSlot(t, c))
  {
    var c, slots := s.locals[t], s.book.slots;
    IndexFinds(slots, OwnSlot(t, c));
    forall x {
      ReplaceMembers(slots, Index(slots, c.key), Slot(c.key, Entry(c.order, s.now, true, 200, t)), x);
    }
  }

  lemma StoreSorted(slots: Table, i: nat, x: Slot, stamps: map<string, nat>, clock: nat)
    requires StampInv(slots, stamps, clock) && i < |slots| && x.key == slots[i].key
    ensures StampInv(slots[i := x], stamps, clock)
  {
    var slots' := slots[i := x];
    assert forall j | 0 <= j < |slots| :: slots'[j].key == slots[j].key && slots[j] in slots;
  }

  lemma StoreTable(slots: Table, locals: map<nat, Local>, now: int, capacity: nat, t: nat, i: nat, stored: Slot)
    requires TableInv(slots, locals, now, capacity) && t in locals && locals[t].pc.Succeeded?
    requires i < |slots| && slots[i] == OwnSlot(t, locals[t])
    requires stored == Slot(locals[t].key, Entry(locals[t].order, now, true, 200, t))
    requires forall x :: x in slots[i := stored] <==> x == stored || (x in slots && x != OwnSlot(t, locals[t]))
    ensures TableInv(slots[i := stored], locals[t := locals[t].(pc := Stored)], now, capacity)
  {
    var slots', locals' := slots[i := stored], locals[t := locals[t].(pc := Stored)];
    assert forall j | 0 <= j < |slots| :: slots'[j].key == slots[j].key;
    forall u | u in locals' && Owning(locals'[u]) ensures OwnSlot(u, locals'[u]) in slots' {
      assert u != t && OwnSlot(u, locals[u]) in slots;
    }
  }

  lemma StoreKeeps(s: State, t: nat)
    requires Inv(s) && AtPc(s, t, Succeeded)
    ensures var slots' := Store(s.book, t, s.locals[t], s.now).0.slots;
            && TableInv(slots', s.locals[t := s.locals[t].(pc := Stored)], s.now, s.capacity)
            && StampInv(slots', s.stamps, s.clock)
  {
    StoreMembers(s, t);
    var c, slots := s.locals[t], s.book.slots;
    var i, stored := Index(slots, c.key), Slot(c.key, Entry(c.order, s.now, true, 200, t));
    StoreTable(slots, s.locals, s.now, s.capacity, t, i, stored);
    StoreSorted(slots, i, stored, s.stamps, s.clock);
  }

  lemma StoreShape(s: State, t: nat)
    requires AtPc(s, t, Succeeded)
    ensures var s' := Next(s, StoreStep(t));
            && s'.now == s.now && s'.capacity == s.capacity && s'.stamps == s.stamps && s'.clock == s.clock
            && s'.locals == s.locals[t := s.locals[t].(pc := Stored)]
            && s'.book == Store(s.book, t, s.locals[t], s.now).0
  {
  }

  lemma StoreInv(s: State, t: nat)
    requires Inv(s) && AtPc(s, t, Succeeded)
    ensures Inv(Next(s, StoreStep(t)))
  {
    StoreShape(s, t);
    StoreKeeps(s, t);
  }

  lemma FinishShape(s: State, t: nat)
    requires AtPc(s, t, Stored) || AtPc(s, t, Leaving(true)) || AtPc(s, t, Leaving(false))
    ensures var s', c := Next(s, FinishStep(t)), s.locals[t];
            && s'.now == s.now && s'.capacity == s.capacity && s'.stamps == s.stamps && s'.clock == s.clock
            && s'.locals == s.locals[t := c.(pc := Done)]
            && s'.book.slots == if c.pc == Leaving(true) then Pop(s.book.slots, c.key) else s.book.slots
  {
  }

  /** A failed owner takes its own entry out of the table. */
  lemma PopTable(slots: Table, locals: map<nat, Local>, now: int, capacity: nat, t: nat)
    requires TableInv(slots, locals, now, capacity) && t in locals && locals[t].pc == Leaving(true)
    ensures TableInv(Pop(slots, locals[t].key), locals[t := locals[t].(pc := Done)], now, capacity)
  {
    var c := locals[t];
    var slots' := Pop(slots, c.key);
    PopMembers(slots, c.key, OwnSlot(t, c));
    forall x ensures x in slots' <==> x in slots && x.key != c.key {
      PopMembers(slots, c.key, x);
    }
    forall u | u in locals && u != t && Owning(locals[u]) ensures OwnSlot(u, locals[u]) in slots' {
      assert OwnSlot(u, locals[u]) in slots;
      if locals[u].key == c.key {
        UniqueSlot(slots, OwnSlot(u, locals[u]), OwnSlot(t, c));
      }
    }
  }

  lemma PopSorted(slots: Table, key: string, stamps: map<string, nat>, clock: nat)
    requires StampInv(slots, stamps, clock)
    ensures StampInv(Pop(slots, key), stamps, clock)
  {
    if Index(slots, key) < |slots| {
      RemoveSorted(slots, Index(slots, key), stamps, clock);
    }
  }

  lemma FinishInv(s: State, t: nat)
    requires Inv(s) && (AtPc(s, t, Stored) || AtPc(s, t, Leaving(true)) || AtPc(s, t, Leaving(false)))
    ensures Inv(Next(s, FinishStep(t)))
  {
    FinishShape(s, t);
    if s.locals[t].pc == Leaving(true) {
      PopTable(s.book.slots, s.locals, s.now, s.capacity, t);
      PopSorted(s.book.slots, s.locals[t].key, s.stamps, s.clock);
    }
  }

  /** Steps that leave the table alone. */
  lemma LocalStepInv(s: State, step: Step)
    requires Inv(s) && (step.AttemptStep? || step.ReturnStep? || step.RaiseStep? || step.Reject?)
    ensures Inv(Next(s, step))
  {
    match step
    case AttemptStep(t) => if AtPc(s, t, Ready) { LocalStep(s, t, StartAttempt(s.book, s.locals[t]).1); }
    case ReturnStep(t, outcome) => if AtPc(s, t, InCall) { LocalStep(s, t, Returned(s.locals[t], outcome)); }
    case RaiseStep(t) => if AtPc(s, t, InCall) { LocalStep(s, t, s.locals[t].(pc := Leaving(true))); }
    case Reject(t) => if AtPc(s, t, Entered) { LocalStep(s, t, Leave(s.locals[t], 400)); }
  }

  lemma ArriveInv(s: State, step: Step)
    requires Inv(s) && step.Arrive?
    ensures Inv(Next(s, step))
  {
  }

  lemma TickInv(s: State, seconds: nat)
    requires Inv(s)
    ensures Inv(Next(s, Tick(seconds)))
  {
  }

  lemma NextInv(s: State, step: Step)
    requires Inv(s)
    ensures Inv(Next(s, step))
  {
    match step
    case LookStep(t) => if AtPc(s, t, Entered) || AtPc(s, t, Blocked) { LookInv(s, t); }
    case StoreStep(t) => if AtPc(s, t, Succeeded) { StoreInv(s, t); }
    case FinishStep(t) =>
      if AtPc(s, t, Stored) || AtPc(s, t, Leaving(true)) || AtPc(s, t, Leaving(false)) { FinishInv(s, t); }
    case Arrive(_, _, _, _, _) => ArriveInv(s, step);
    case Tick(seconds) => TickInv(s, seconds);
    case _ => LocalStepInv(s, step);
  }

  lemma {:induction false} ExecInv(s: State, steps: seq<Step>)
    requires Inv(s)
    ensures Inv(Exec(s, steps))
    decreases |steps|
  {
    if steps != [] {
      NextInv(s, steps[0]);
      ExecInv(Next(s, steps[0]), steps[1..]);
    }
  }

  lemma Reached(s: State, steps: seq<Step>)
    requires Init(s)
    ensures Inv(Exec(s, steps))
  {
    ExecInv(s, steps);
  }

  // ----- Single flight -----

  /** In every run each entry in progress belongs to one running checkout of the same key and order, and no two
      checkouts of one key are calling the dependency. */
  lemma SingleFlight(s0: State, steps: seq<Step>)
    requires Init(s0)
    ensures var s := Exec(s0, steps);
            && (forall x | x in s.book.slots && !x.entry.completed ::
                  x.entry.owner in s.locals && Owning(s.locals[x.entry.owner])
                  && s.locals[x.entry.owner].key == x.key && s.locals[x.entry.owner].order == x.entry.order)
            && (forall t, u | t in s.locals && u in s.locals && Owning(s.locals[t]) && Owning(s.locals[u])
                              && s.locals[t].key == s.locals[u].key :: t == u)
            && (forall t | t in s.locals && s.locals[t].pc.InCall? :: s.locals[t].attempts <= s.locals[t].limit)
  {
    Reached(s0, steps);
    var s := Exec(s0, steps);
    forall t, u | t in s.locals && u in s.locals && Owning(s.locals[t]) && Owning(s.locals[u])
        && s.locals[t].key == s.locals[u].key
      ensures t == u
    {
      UniqueSlot(s.book.slots, OwnSlot(t, s.locals[t]), OwnSlot(u, s.locals[u]));
    }
  }

  /** A checkout goes on to another attempt only after a retryable failure and below the limit it started with,
      and no other step changes its attempts or its limit. */
  lemma RetriesAreJustified(s: State, step: Step, t: nat)
    requires Inv(s) && t in s.locals
    ensures var c, c' := s.locals[t], Next(s, step).locals[t];
            && c'.limit == c.limit
            && (c.pc.InCall? && c'.pc.Ready? ==> step == ReturnStep(t, Again) && c.attempts < c.limit)
            && (c'.attempts != c.attempts ==>
                  step == AttemptStep(t) && c.pc.Ready? && c'.attempts == c.attempts + 1 && c'.attempts <= c.limit)
  {
    if step == LookStep(t) && (AtPc(s, t, Entered) || AtPc(s, t, Blocked)) {
      LookEffect(s.book, t, s.locals[t], s.now, s.capacity);
    }
  }

  /** An entry in progress is neither pruned nor evicted: only its own checkout completes or removes it. */
  lemma InProgressIsKept(s: State, step: Step, x: Slot)
    requires Inv(s) && x in s.book.slots && !x.entry.completed
    requires step != StoreStep(x.entry.owner) && step != FinishStep(x.entry.owner)
    ensures x in Next(s, step).book.slots
  {
    NextInv(s, step);
    OwnerGoesOn(s, step, x.entry.owner);
  }

  lemma OwnerGoesOn(s: State, step: Step, t: nat)
    requires t in s.locals && Owning(s.locals[t]) && step != StoreStep(t) && step != FinishStep(t)
    ensures var s' := Next(s, step);
            t in s'.locals && Owning(s'.locals[t]) && OwnSlot(t, s'.locals[t]) == OwnSlot(t, s.locals[t])
  {
  }

  /** A failed owner removes its own entry and no other. */
  lemma FailedOwnerRemovesItsOwn(s: State, t: nat, x: Slot)
    requires Inv(s) && AtPc(s, t, Leaving(true))
    ensures OwnSlot(t, s.locals[t]) in s.book.slots
    ensures x in Next(s, FinishStep(t)).book.slots <==> x in s.book.slots && x != OwnSlot(t, s.locals[t])
  {
    var c := s.locals[t];
    PopMembers(s.book.slots, c.key, x);
    if x in s.book.slots && x.key == c.key {
      UniqueSlot(s.book.slots, x, OwnSlot(t, c));
    }
  }

  // ----- What a look answers -----

  /** The slot of the checkout's key, as its look finds it: an arriving checkout prunes first. */
  ghost predicate Found(s: State, t: nat, y: Slot)
    requires t in s.locals
  {
    Shown(s.book.slots, AtPc(s, t, Entered), s.now, y) && y.key == s.locals[t].key
  }

  ghost predicate LeavesWith(s: State, t: nat, status: nat) {
    AtPc(s, t, Leaving(false)) && s.locals[t].status == status
  }

  lemma FoundAnswers(s: State, t: nat, y: Slot)
    requires Inv(s) && (AtPc(s, t, Entered) || AtPc(s, t, Blocked)) && Found(s, t, y)
    ensures var s', c := Next(s, LookStep(t)), s.locals[t];
            && !AtPc(s', t, Ready) && !LeavesWith(s', t, 503)
            && (LeavesWith(s', t, 200) <==> y.entry.order == c.order && y.entry.completed)
            && (AtPc(s', t, Blocked) <==> y.entry.order == c.order && !y.entry.completed && s.now < c.deadline)
            && (LeavesWith(s', t, 409) <==>
                  y.entry.order != c.order || (!y.entry.completed && c.deadline <= s.now))
  {
    LookMeans(s.book, t, s.locals[t], s.now, s.capacity);
    LookShape(s, t);
    assert AnsweredBy(y, s.locals[t], s.now, Next(s, LookStep(t)).locals[t]);
  }

  lemma AbsentAnswers(s: State, t: nat)
    requires Inv(s) && (AtPc(s, t, Entered) || AtPc(s, t, Blocked)) && forall y :: !Found(s, t, y)
    ensures var s', c := Next(s, LookStep(t)), s.locals[t];
            var room := Room(s.book.slots, AtPc(s, t, Entered), s.now, s.capacity);
            && (AtPc(s', t, Ready) <==> room) && (LeavesWith(s', t, 503) <==> !room)
            && !LeavesWith(s', t, 200) && !AtPc(s', t, Blocked) && !LeavesWith(s', t, 409)
            && (AtPc(s', t, Ready) ==> OwnLast(s'.book.slots, t, c, s.now))
  {
    var c := s.locals[t];
    forall y | Shown(s.book.slots, c.pc.Entered?, s.now, y) ensures y.key != c.key {
      assert !Found(s, t, y);
    }
    LookMeans(s.book, t, c, s.now, s.capacity);
    LookShape(s, t);
  }

  lemma FoundIsUnique(s: State, t: nat, y: Slot, z: Slot)
    requires Inv(s) && t in s.locals && Found(s, t, y) && Found(s, t, z)
    ensures y == z
  {
    UniqueSlot(s.book.slots, y, z);
  }

  /** Exactly when a look admits a checkout, makes it wait, replays a result, refuses the key and rejects for
      capacity. */
  lemma LookAnswersExactly(s: State, t: nat)
    requires Inv(s) && (AtPc(s, t, Entered) || AtPc(s, t, Blocked))
    ensures var s', c := Next(s, LookStep(t)), s.locals[t];
            var absent := forall y :: !Found(s, t, y);
            var room := Room(s.book.slots, AtPc(s, t, Entered), s.now, s.capacity);
            && (AtPc(s', t, Ready) <==> absent && room)
            && (LeavesWith(s', t, 503) <==> absent && !room)
            && (LeavesWith(s', t, 200) <==> exists y :: Found(s, t, y) && y.entry.order == c.order && y.entry.completed)
            && (AtPc(s', t, Blocked) <==>
                  exists y :: Found(s, t, y) && y.entry.order == c.order && !y.entry.completed && s.now < c.deadline)
            && (LeavesWith(s', t, 409) <==>
                  exists y ::
                    Found(s, t, y) && (y.entry.order != c.order || (!y.entry.completed && c.deadline <= s.now)))
            && (AtPc(s', t, Ready) ==> OwnLast(s'.book.slots, t, c, s.now))
  {
    if y :| Found(s, t, y) {
      FoundAnswers(s, t, y);
      forall z | Found(s, t, z) ensures z == y {
        FoundIsUnique(s, t, y, z);
      }
    } else {
      AbsentAnswers(s, t);
    }
  }

  // ----- Replay and capacity -----

  /** While a stored success is in the table and, for a checkout just arriving, not yet expired, the same order
      gets the stored status and another order is refused; neither goes on to call the dependency. */
  lemma StoredResultAnswers(s: State, t: nat, x: Slot)
    requires Inv(s) && (AtPc(s, t, Entered) || AtPc(s, t, Blocked)) && x in s.book.slots && x.entry.completed
    requires s.locals[t].key == x.key && (AtPc(s, t, Entered) ==> !Expired(x.entry, s.now))
    ensures var s' := Next(s, LookStep(t));
            && s'.locals[t] == Leave(s.locals[t], if s.locals[t].order == x.entry.order then 200 else 409)
            && s'.book.counters.attempts == s.book.counters.attempts && x in s'.book.slots
  {
    var c := s.locals[t];
    var looked := if c.pc.Entered? then s.book.(slots := Pruned(s.book.slots, s.now)) else s.book;
    PruneKeeps(s.book.slots, s.now);
    PrunedMembers(s.book.slots, s.now, x);
    TurnAnswers(looked, t, c, s.now, s.capacity, x);
  }

  lemma TurnAnswers(book: Book, t: nat, c: Local, now: int, capacity: nat, x: Slot)
    requires Unique(book.slots) && x in book.slots && x.entry.completed && x.entry.status == 200 && c.key == x.key
    ensures var (book', c') := Turn(book, t, c, now, capacity);
            && c' == Leave(c, if c.order == x.entry.order then 200 else 409)
            && book'.counters.attempts == book.counters.attempts && x in book'.slots
  {
    IndexFinds(book.slots, x);
    MoveToEndMembers(book.slots, Index(book.slots, x.key), x);
  }

  /** A stored success leaves the table in two ways only: an arriving checkout finds it expired, or a checkout
      with a new key evicts it from a full table, and then nothing completed was created or replayed less
      recently. */
  lemma StoredResultStays(s: State, step: Step, x: Slot)
    requires Inv(s) && x in s.book.slots && x.entry.completed && x !in Next(s, step).book.slots
    ensures step.LookStep? && step.t in s.locals
    ensures || (AtPc(s, step.t, Entered) && Expired(x.entry, s.now))
            || (&& AtPc(Next(s, step), step.t, Ready) && s.locals[step.t].key != x.key
                && |s.book.slots| == s.capacity
                && forall y | y in s.book.slots && y.entry.completed
                && !(AtPc(s, step.t, Entered) && Expired(y.entry, s.now)) ::
                     s.stamps[x.key] <= s.stamps[y.key])
  {
    match step
    case LookStep(t) => LookRemoves(s, t, x);
    case StoreStep(t) => if AtPc(s, t, Succeeded) { StoreMembers(s, t); }
    case FinishStep(t) => if AtPc(s, t, Leaving(true)) { FailedOwnerRemovesItsOwn(s, t, x); }
    case _ =>
  }

  lemma LookRemoves(s: State, t: nat, x: Slot)
    requires Inv(s) && x in s.book.slots && x.entry.completed && x !in Next(s, LookStep(t)).book.slots
    ensures t in s.locals
    ensures || (AtPc(s, t, Entered) && Expired(x.entry, s.now))
            || (&& AtPc(Next(s, LookStep(t)), t, Ready) && s.locals[t].key != x.key
                && |s.book.slots| == s.capacity
                && forall y | y in s.book.slots && y.entry.completed
                && !(AtPc(s, t, Entered) && Expired(y.entry, s.now)) ::
                     s.stamps[x.key] <= s.stamps[y.key])
  {
    assert AtPc(s, t, Entered) || AtPc(s, t, Blocked);
    if AtPc(s, t, Entered) {
      if !Expired(x.entry, s.now) {
        PruneKeeps(s.book.slots, s.now);
        PrunedMembers(s.book.slots, s.now, x);
        WithoutSorted(s.book.slots, ExpiredKeys(s.book.slots, s.now), s.stamps, s.clock);
        EvictsOldest(s, s.book.(slots := Pruned(s.book.slots, s.now)), t, x);
        forall y | y in s.book.slots && y.entry.completed
            && !Expired(y.entry, s.now) ensures s.stamps[x.key] <= s.stamps[y.key] {
          PrunedMembers(s.book.slots, s.now, y);
        }
      }
    } else {
      EvictsOldest(s, s.book, t, x);
    }
  }

  lemma EvictsOldest(s: State, book: Book, t: nat, x: Slot)
    requires Unique(book.slots) && |book.slots| <= s.capacity && s.capacity > 0
            && StampInv(book.slots, s.stamps, s.clock) && t in s.locals
    requires x in book.slots && x.entry.completed && x !in Turn(book, t, s.locals[t], s.now, s.capacity).0.slots
    ensures Turn(book, t, s.locals[t], s.now, s.capacity).1.pc.Ready? && s.locals[t].key != x.key
            && |book.slots| == s.capacity
    ensures forall y | y in book.slots && y.entry.completed :: s.stamps[x.key] <= s.stamps[y.key]
  {
    TurnRemoves(book, t, s.locals[t], s.now, s.capacity, x);
    forall y | y in book.slots && y.entry.completed ensures s.stamps[x.key] <= s.stamps[y.key] {
      OldestCompleted(book.slots, s.stamps, s.clock, y);
    }
  }

  /** Only an eviction can take a completed entry out of the table during a turn. */
  lemma TurnRemoves(book: Book, t: nat, c: Local, now: int, capacity: nat, x: Slot)
    requires Unique(book.slots) && |book.slots| <= capacity && capacity > 0
    requires x in book.slots && x.entry.completed && x !in Turn(book, t, c, now, capacity).0.slots
    ensures Turn(book, t, c, now, capacity).1.pc.Ready? && c.key != x.key && |book.slots| == capacity
    ensures FirstCompleted(book.slots) < |book.slots| && book.slots[FirstCompleted(book.slots)] == x
  {
    var i := Index(book.slots, c.key);
    if i < |book.slots| {
      MoveToEndMembers(book.slots, i, x);
    } else {
      RoomMeans(book.slots, capacity);
      var (slots, ok) := WithRoom(book.slots, capacity);
      if ok {
        var own := OwnSlot(t, c.(pc := Ready, created := now));
        assert x in slots ==> x in slots + [own];
        if slots != book.slots {
          RemoveMembers(book.slots, FirstCompleted(book.slots), x);
        }
      }
      var j :| 0 <= j < |book.slots| && book.slots[j] == x;
    }
  }

  lemma OldestCompleted(slots: Table, stamps: map<string, nat>, clock: nat, y: Slot)
    requires StampInv(slots, stamps, clock) && y in slots && y.entry.completed
    ensures FirstCompleted(slots) < |slots|
    ensures stamps[slots[FirstCompleted(slots)].key] <= stamps[y.key]
  {
    var f := FirstCompleted(slots);
    var k :| 0 <= k < |slots| && slots[k] == y;
    assert f <= k;
    if f < k {
      assert stamps[slots[f].key] < stamps[slots[k].key];
    }
  }

  /** A checkout is rejected for capacity exactly when its key is absent and the table is full of entries that
      are all in progress. */
  lemma CapacityRejectsOnlyWhenBusy(s: State, t: nat)
    requires Inv(s) && (AtPc(s, t, Entered) || AtPc(s, t, Blocked))
    ensures var slots := if AtPc(s, t, Entered) then Pruned(s.book.slots, s.now) else s.book.slots;
            Next(s, LookStep(t)).book.counters.full == s.book.counters.full + 1
            <==> (forall x | x in slots :: x.key != s.locals[t].key && !x.entry.completed) && |slots| == s.capacity
  {
    var c := s.locals[t];
    LookedSound(s, c);
    LookStamps(s, t);
    TurnFull(Looked(s, c), t, c, s.now, s.capacity);
    NoRoom(Looked(s, c).slots, c.key, s.capacity);
  }

  lemma TurnFull(book: Book, t: nat, c: Local, now: int, capacity: nat)
    ensures Turn(book, t, c, now, capacity).0.counters.full == book.counters.full + 1
            <==> Index(book.slots, c.key) == |book.slots| && !WithRoom(book.slots, capacity).1
  {
  }

  lemma NoRoom(slots: Table, key: string, capacity: nat)
    requires Unique(slots) && |slots| <= capacity && capacity > 0
    ensures Index(slots, key) == |slots| && !WithRoom(slots, capacity).1
            <==> (forall x | x in slots :: x.key != key && !x.entry.completed) && |slots| == capacity
  {
    RoomMeans(slots, capacity);
    var i, f := Index(slots, key), FirstCompleted(slots);
    assert i < |slots| ==> slots[i] in slots;
    assert f < |slots| ==> slots[f] in slots;
  }

  // ----- Accounting -----

  ghost function Running(locals: map<nat, Local>): set<nat> {
    set t | t in locals && !locals[t].pc.Done?
  }

  ghost function Started(locals: map<nat, Local>): set<nat> {
    set t | t in locals && locals[t].attempts > 0
  }

  ghost predicate Balanced(locals: map<nat, Local>, k: Counters, done: seq<nat>, reached: nat) {
    && k.inflight == |Running(locals)| && |locals| == |Running(locals)| + |done|
    && (forall status :: (if status in k.requests then k.requests[status] else 0) == multiset(done)[status])
    && k.errors == multiset(done)[502] + multiset(done)[503]
    && k.attempts - k.retries == reached == |Started(locals)|
    && (forall i | 0 <= i < |done| :: done[i] in {200, 400, 409, 502, 503})
  }

  ghost predicate CountInv(s: State) {
    Balanced(s.locals, s.book.counters, s.done, s.reached)
  }

  /** Sets that differ in one member at most. */
  lemma OneMember(before: set<nat>, after: set<nat>, t: nat)
    requires before - {t} == after - {t}
    ensures |after| == |before| - (if t in before then 1 else 0) + if t in after then 1 else 0
  {
    var rest := before - {t};
    assert t in before ==> before == rest + {t};
    assert t !in before ==> before == rest;
    assert t in after ==> after == rest + {t};
    assert t !in after ==> after == rest;
  }

  lemma Recount(locals: map<nat, Local>, t: nat, c': Local)
    ensures |Running(locals[t := c'])|
         == |Running(locals)| - (if t in locals && !locals[t].pc.Done? then 1 else 0) + if c'.pc.Done? then 0 else 1
    ensures |Started(locals[t := c'])|
         == |Started(locals)| - (if t in locals && locals[t].attempts > 0 then 1 else 0)
            + if c'.attempts > 0 then 1 else 0
    ensures |locals[t := c']| == |locals| + if t in locals then 0 else 1
  {
    OneMember(Running(locals), Running(locals[t := c']), t);
    OneMember(Started(locals), Started(locals[t := c']), t);
    OneMember(locals.Keys, locals[t := c'].Keys, t);
  }

  /** A step of one checkout that neither starts nor ends it nor makes a first attempt. */
  lemma SameCounts(s: State, t: nat, c': Local, k': Counters)
    requires CountInv(s) && t in s.locals && !s.locals[t].pc.Done? && !c'.pc.Done?
    requires (c'.attempts > 0) == (s.locals[t].attempts > 0)
    requires var k := s.book.counters;
             && k'.inflight == k.inflight && k'.requests == k.requests && k'.errors == k.errors
             && k'.attempts - k'.retries == k.attempts - k.retries
    ensures Balanced(s.locals[t := c'], k', s.done, s.reached)
  {
    Recount(s.locals, t, c');
  }

  lemma LookCounters(book: Book, t: nat, c: Local, now: int, capacity: nat)
    ensures var k, k' := book.counters, Look(book, t, c, now, capacity).0.counters;
            && k'.inflight == k.inflight && k'.requests == k.requests && k'.errors == k.errors
            && k'.attempts == k.attempts && k'.retries == k.retries
  {
  }

  /** What the accounting needs of the invariant. */
  ghost predicate Sound(s: State) {
    && Unique(s.book.slots) && |s.book.slots| <= s.capacity && s.capacity > 0
    && forall t | t in s.locals :: LocalInv(s.locals[t])
  }

  lemma LookCounts(s: State, t: nat)
    requires Sound(s) && CountInv(s) && (AtPc(s, t, Entered) || AtPc(s, t, Blocked))
    ensures CountInv(Next(s, LookStep(t)))
  {
    LookEffect(s.book, t, s.locals[t], s.now, s.capacity);
    LookCounters(s.book, t, s.locals[t], s.now, s.capacity);
    var (book', c') := Look(s.book, t, s.locals[t], s.now, s.capacity);
    SameCounts(s, t, c', book'.counters);
  }

  lemma AttemptCounts(s: State, t: nat)
    requires CountInv(s) && AtPc(s, t, Ready)
    ensures CountInv(Next(s, AttemptStep(t)))
  {
    Recount(s.locals, t, StartAttempt(s.book, s.locals[t]).1);
  }

  lemma BumpCounts(requests: map<nat, nat>, done: seq<nat>, last: nat)
    requires forall status :: (if status in requests then requests[status] else 0) == multiset(done)[status]
    ensures forall status ::
              (if status in Bump(requests, last) then Bump(requests, last)[status] else 0)
                  == multiset(done + [last])[status]
  {
    assert multiset(done + [last]) == multiset(done) + multiset{last};
    forall status
      ensures (if status in Bump(requests, last) then Bump(requests, last)[status] else 0)
              == multiset(done + [last])[status]
    {
      assert (if status in requests then requests[status] else 0) == multiset(done)[status];
    }
  }

  lemma FinishCounts(s: State, t: nat)
    requires CountInv(s) && t in s.locals && !s.locals[t].pc.Done? && s.locals[t].status in {200, 400, 409, 502, 503}
    ensures var (book', c') := Finish(s.book, s.locals[t]);
            Balanced(s.locals[t := c'], book'.counters, s.done + [c'.status], s.reached)
  {
    var c := s.locals[t];
    assert t in Running(s.locals);
    Recount(s.locals, t, Finish(s.book, c).1);
    BumpCounts(s.book.counters.requests, s.done, c.status);
    assert multiset(s.done + [c.status]) == multiset(s.done) + multiset{c.status};
  }

  lemma ArriveCounts(s: State, step: Step)
    requires CountInv(s) && step.Arrive?
    ensures CountInv(Next(s, step))
  {
    if step.t !in s.locals && step.limit > 0 {
      Recount(s.locals, step.t, Next(s, step).locals[step.t]);
    }
  }

  lemma NextCounts(s: State, step: Step)
    requires Sound(s) && CountInv(s)
    ensures CountInv(Next(s, step))
  {
    match step
    case Arrive(_, _, _, _, _) => ArriveCounts(s, step);
    case LookStep(t) => if AtPc(s, t, Entered) || AtPc(s, t, Blocked) { LookCounts(s, t); }
    case AttemptStep(t) => if AtPc(s, t, Ready) { AttemptCounts(s, t); }
    case FinishStep(t) =>
      if AtPc(s, t, Stored) || AtPc(s, t, Leaving(true)) || AtPc(s, t, Leaving(false)) { FinishCounts(s, t); }
    case _ => PlainCounts(s, step);
  }

  lemma PlainCounts(s: State, step: Step)
    requires CountInv(s) && (step.Tick? || step.Reject? || step.ReturnStep? || step.RaiseStep? || step.StoreStep?)
    ensures CountInv(Next(s, step))
  {
    var k := s.book.counters;
    match step
    case Reject(t) => if AtPc(s, t, Entered) { SameCounts(s, t, Leave(s.locals[t], 400), k); }
    case ReturnStep(t, outcome) => if AtPc(s, t, InCall) { SameCounts(s, t, Returned(s.locals[t], outcome), k); }
    case RaiseStep(t) => if AtPc(s, t, InCall) { SameCounts(s, t, s.locals[t].(pc := Leaving(true)), k); }
    case StoreStep(t) => if AtPc(s, t, Succeeded) { SameCounts(s, t, s.locals[t].(pc := Stored), k); }
    case _ =>
  }

  lemma {:induction false} ExecCounts(s: State, steps: seq<Step>)
    requires Inv(s) && CountInv(s)
    ensures Inv(Exec(s, steps)) && CountInv(Exec(s, steps))
    decreases |steps|
  {
    if steps != [] {
      NextInv(s, steps[0]);
      NextCounts(s, steps[0]);
      ExecCounts(Next(s, steps[0]), steps[1..]);
    }
  }

  lemma {:induction false} CountsPartition(done: seq<nat>)
    requires forall i | 0 <= i < |done| :: done[i] in {200, 400, 409, 502, 503}
    ensures |done| == multiset(done)[200] + multiset(done)[400] + multiset(done)[409] + multiset(done)[502]
            + multiset(done)[503]
  {
    if done != [] {
      assert done == [done[0]] + done[1..];
      CountsPartition(done[1..]);
    }
  }

  function Count(k: Counters, status: nat): nat {
    if status in k.requests then k.requests[status] else 0
  }

  /** What balanced books add up to. */
  lemma Totals(locals: map<nat, Local>, k: Counters, done: seq<nat>, reached: nat)
    requires Balanced(locals, k, done, reached)
    ensures k.inflight == |locals| - |done|
    ensures Count(k, 200) + Count(k, 400) + Count(k, 409) + Count(k, 502) + Count(k, 503) == |done|
    ensures k.errors == Count(k, 502) + Count(k, 503)
    ensures forall t | t in locals && !locals[t].pc.Done? :: k.inflight > 0
  {
    CountsPartition(done);
    assert forall status :: Count(k, status) == multiset(done)[status];
    forall t | t in locals && !locals[t].pc.Done? ensures k.inflight > 0 {
      assert t in Running(locals);
    }
  }

  lemma InitCounts(s: State)
    requires Init(s)
    ensures Inv(s) && CountInv(s)
  {
    assert Running(s.locals) == {} && Started(s.locals) == {};
  }

  /** In every run: in flight is started minus finished and the clamp at zero never bites; the per-status counts
      add up to the finished checkouts; failures are the 502s and 503s; and attempts minus retries are the
      checkouts that reached the dependency. */
  lemma AccountsBalance(s0: State, steps: seq<Step>)
    requires Init(s0)
    ensures var s := Exec(s0, steps);
            var k := s.book.counters;
            && k.inflight == |s.locals| - |s.done|
            && Count(k, 200) + Count(k, 400) + Count(k, 409) + Count(k, 502) + Count(k, 503) == |s.done|
            && k.errors == Count(k, 502) + Count(k, 503)
            && k.attempts - k.retries == |Started(s.locals)|
            && (forall t | t in s.locals && !s.locals[t].pc.Done? :: k.inflight > 0)
  {
    InitCounts(s0);
    ExecCounts(s0, steps);
    var s := Exec(s0, steps);
    Totals(s.locals, s.book.counters, s.done, s.reached);
  }
}
