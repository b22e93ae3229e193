/** `checkout` of Orders: its critical sections, and any number of checkouts interleaving at them. */
module Checkout {
  import opened Idempotency

  // ----- One checkout -----

  /** `Leaving(owns)` is about to run the `finally` block; `Stored` too, with its result already in the table. */
  datatype Pc = Entered | Blocked | Ready | InCall | Succeeded | Stored | Leaving(owns: bool) | Done

  /** `created` is when this checkout put its entry into the table. */
  datatype Local = Local(pc: Pc, key: string, order: string, limit: nat, attempts: nat, status: nat, deadline: int,
      created: int)

  /** What a dependency attempt came to: 200, a retryable failure, or a final one. */
  datatype Outcome = Success | Again | Fatal(status: nat)

  // ----- The shared state and its critical sections -----

  datatype Counters = Counters(inflight: int, requests: map<nat, nat>, errors: nat, attempts: nat, retries: nat,
                               replays: nat, conflicts: nat, full: nat)

  datatype Book = Book(slots: Table, counters: Counters)

  function Enter(book: Book): Book {
    book.(counters := book.counters.(inflight := book.counters.inflight + 1))
  }

  function Leave(c: Local, status: nat): Local {
    c.(pc := Leaving(false), status := status)
  }

  function OwnSlot(t: nat, c: Local): Slot {
    Slot(c.key, Entry(c.order, c.created, false, 0, t))
  }

  /** The key is absent: make room and create the entry, or reject for capacity. */
  function Create(book: Book, t: nat, c: Local, now: int, capacity: nat): (Book, Local) {
    var (slots, ok) := WithRoom(book.slots, capacity);
    if !ok then (Book(slots, book.counters.(full := book.counters.full + 1)), Leave(c, 503))
    else
      var c' := c.(pc := Ready, created := now);
      (book.(slots := slots + [OwnSlot(t, c')]), c')
  }

  /** One turn of the wait loop. */
  function Turn(book: Book, t: nat, c: Local, now: int, capacity: nat): (Book, Local) {
    var i := Index(book.slots, c.key);
    if i == |book.slots| then Create(book, t, c, now, capacity)
    else
      var entry := book.slots[i].entry;
      if entry.order != c.order then
        (book.(counters := book.counters.(conflicts := book.counters.conflicts + 1)), Leave(c, 409))
      else if entry.completed then
        (Book(MoveToEnd(book.slots, i), book.counters.(replays := book.counters.replays + 1)), Leave(c, entry.status))
      else if c.deadline - now <= 0 then (book, Leave(c, 409))
      else (book, c.(pc := Blocked))
  }

  /** The whole locked block: only its first turn prunes. */
  function Look(book: Book, t: nat, c: Local, now: int, capacity: nat): (Book, Local) {
    Turn(if c.pc.Entered? then book.(slots := Pruned(book.slots, now)) else book, t, c, now, capacity)
  }

  function StartAttempt(book: Book, c: Local): (Book, Local) {
    var k := book.counters;
    (book.(counters := k.(attempts := k.attempts + 1, retries := k.retries + if c.attempts > 0 then 1 else 0)),
     c.(pc := InCall, attempts := c.attempts + 1))
  }

  /** After an attempt: success, another attempt after a retryable failure while the limit allows, or failure. */
  function Returned(c: Local, outcome: Outcome): Local {
    match outcome
    case Success => c.(pc := Succeeded, status := 200)
    case Again =>
      if c.attempts < c.limit then c.(pc := Ready, status := 503) else c.(pc := Leaving(true), status := 503)
    case Fatal(status) => c.(pc := Leaving(true), status := if status == 502 then 502 else 503)
  }

  /** The owner's entry is completed in place, wherever it stands in the order. */
  function Store(book: Book, t: nat, c: Local, now: int): (Book, Local) {
    var i := Index(book.slots, c.key);
    (if i < |book.slots| && book.slots[i].entry.owner == t
     then book.(slots := book.slots[i := Slot(c.key, Entry(c.order, now, true, 200, t))]) else book,
     c.(pc := Stored))
  }

  function Bump(requests: map<nat, nat>, status: nat): map<nat, nat> {
    requests[status := (if status in requests then requests[status] else 0) + 1]
  }

  /** The `finally` block. */
  function Finish(book: Book, c: Local): (Book, Local) {
    var k := book.counters;
    (Book(if c.pc == Leaving(true) then Pop(book.slots, c.key) else book.slots,
          k.(inflight := if k.inflight > 0 then k.inflight - 1 else 0, requests := Bump(k.requests, c.status),
             errors := k.errors + if c.status == 502 || c.status == 503 then 1 else 0)),
     c.(pc := Done))
  }

  // ----- What a look comes to -----

  /** The slot is there for a look that prunes first, or does not. */
  ghost predicate Shown(slots: Table, prune: bool, now: int, y: Slot) {
    y in slots && !(prune && y.entry.completed && now - y.entry.createdAt > 900)
  }

  /** How many slots a look leaves before it makes room. */
  function Left(slots: Table, prune: bool, now: int): nat {
    |if prune then Pruned(slots, now) else slots|
  }

  /** A slot is free, or can be made free. */
  ghost predicate Room(slots: Table, prune: bool, now: int, capacity: nat) {
    Left(slots, prune, now) < capacity || exists y :: Shown(slots, prune, now, y) && y.entry.completed
  }

  lemma IndexFinds(slots: Table, y: Slot)
    requires Unique(slots) && y in slots
    ensures Index(slots, y.key) < |slots| && slots[Index(slots, y.key)] == y
  {
    var k :| 0 <= k < |slots| && slots[k] == y;
  }

  lemma IndexAbsent(slots: Table, key: string)
    requires forall y | y in slots :: y.key != key
    ensures Index(slots, key) == |slots|
  {
  }

  /** The answer to a key that is there. */
  ghost predicate AnsweredBy(y: Slot, c: Local, now: int, c': Local) {
    if y.entry.order != c.order then c' == c.(pc := Leaving(false), status := 409)
    else if y.entry.completed then c' == c.(pc := Leaving(false), status := y.entry.status)
    else if c.deadline <= now then c' == c.(pc := Leaving(false), status := 409)
    else c' == c.(pc := Blocked)
  }

  lemma TurnFinds(book: Book, t: nat, c: Local, now: int, capacity: nat, y: Slot)
    requires Unique(book.slots) && y in book.slots && y.key == c.key
    ensures AnsweredBy(y, c, now, Turn(book, t, c, now, capacity).1)
    ensures var k, k' := book.counters, Turn(book, t, c, now, capacity).0.counters;
            && k'.conflicts == k.conflicts + (if y.entry.order != c.order then 1 else 0)
            && k'.replays == k.replays + (if y.entry.order == c.order && y.entry.completed then 1 else 0)
            && k'.full == k.full
  {
    IndexFinds(book.slots, y);
  }

  lemma TurnCreates(book: Book, t: nat, c: Local, now: int, capacity: nat)
    requires Unique(book.slots) && |book.slots| <= capacity && capacity > 0
    requires forall y | y in book.slots :: y.key != c.key
    ensures var (book', c') := Turn(book, t, c, now, capacity);
            var room := |book.slots| < capacity || exists y :: y in book.slots && y.entry.completed;
            && (room ==> c' == c.(pc := Ready, created := now) && OwnLast(book'.slots, t, c, now)
                         && book'.counters == book.counters)
            && (!room ==> c' == c.(pc := Leaving(false), status := 503) && book'.slots == book.slots
                          && book'.counters == book.counters.(full := book.counters.full + 1))
  {
    IndexAbsent(book.slots, c.key);
    RoomMeans(book.slots, capacity);
    var f := FirstCompleted(book.slots);
    if f < |book.slots| {
      assert book.slots[f] in book.slots;
      forall y ensures y in RemoveAt(book.slots, f) ==> y in book.slots {
        RemoveMembers(book.slots, f, y);
      }
    } else {
      forall y | y in book.slots ensures !y.entry.completed {
        var j :| 0 <= j < |book.slots| && book.slots[j] == y;
      }
    }
  }

  /** The checkout's new entry stands last, and alone under its key. */
  ghost predicate OwnLast(slots: Table, t: nat, c: Local, now: int) {
    && slots != [] && slots[|slots| - 1] == Slot(c.key, Entry(c.order, now, false, 0, t))
    && forall y | y in slots[..|slots| - 1] :: y.key != c.key
  }

  /** A look, from the table and the clock alone. A key that is there is answered from its slot; an absent one is
      admitted if and only if there is room, and is rejected for capacity otherwise. */
  ghost predicate Looked(slots: Table, t: nat, c: Local, now: int, capacity: nat, slots': Table, c': Local) {
    && (forall y | Shown(slots, c.pc.Entered?, now, y) && y.key == c.key :: AnsweredBy(y, c, now, c'))
    && ((forall y | Shown(slots, c.pc.Entered?, now, y) :: y.key != c.key) ==>
          if Room(slots, c.pc.Entered?, now, capacity)
          then c' == c.(pc := Ready, created := now) && OwnLast(slots', t, c, now)
          else c' == c.(pc := Leaving(false), status := 503))
  }

  lemma LookMeans(book: Book, t: nat, c: Local, now: int, capacity: nat)
    requires Unique(book.slots) && |book.slots| <= capacity && capacity > 0
    ensures var (book', c') := Look(book, t, c, now, capacity);
            Looked(book.slots, t, c, now, capacity, book'.slots, c')
  {
    var prune := c.pc.Entered?;
    var looked := if prune then book.(slots := Pruned(book.slots, now)) else book;
    WithoutUnique(book.slots, ExpiredKeys(book.slots, now));
    forall y ensures y in looked.slots <==> Shown(book.slots, prune, now, y) {
      PrunedMembers(book.slots, now, y);
    }
    forall y | y in looked.slots && y.key == c.key
      ensures AnsweredBy(y, c, now, Turn(looked, t, c, now, capacity).1)
    {
      TurnFinds(looked, t, c, now, capacity, y);
    }
    if forall y | y in looked.slots :: y.key != c.key {
      TurnCreates(looked, t, c, now, capacity);
    }
  }

  // ----- What a whole checkout comes to -----

  function Arrived(key: string, order: string, limit: nat, deadline: int, now: int): Local {
    Local(Entered, key, order, limit, 0, 503, deadline, now)
  }

  /** The first `n - 1` attempts are to be repeated, and the last is not or is the last allowed. */
  ghost predicate EndsAfter(outcomes: seq<Outcome>, limit: nat, n: nat) {
    && 1 <= n <= limit && n <= |outcomes| && (forall i | 0 <= i < n - 1 :: outcomes[i] == Again)
    && (n == limit || outcomes[n - 1] != Again)
  }

  /** 200 for a success, 502 for a broken contract, 503 for anything else. */
  function FinalStatus(last: Outcome): nat {
    if last == Success then 200 else if last == Fatal(502) then 502 else 503
  }

  /** An owner whose last attempt this was. */
  ghost predicate Ended(c: Local, last: Outcome) {
    && c.status == FinalStatus(last) && c.pc == (if last == Success then Succeeded else Leaving(true))
    && (last == Again ==> c.attempts == c.limit)
  }

  /** How a checkout gets past a table with nobody else at the lock: it is `admitted` or leaves with `status`. */
  ghost predicate Met(slots: Table, capacity: nat, c: Local, now: int, admitted: bool, status: nat) {
    && (forall y | Shown(slots, true, now, y) && y.key == c.key ::
          !admitted && status == if y.entry.order == c.order && y.entry.completed then y.entry.status else 409)
    && ((forall y | Shown(slots, true, now, y) :: y.key != c.key) ==>
          (admitted <==> Room(slots, true, now, capacity)) && (!admitted ==> status == 503))
  }

  lemma LookComes(book: Book, t: nat, c: Local, now: int, capacity: nat)
    requires Unique(book.slots) && |book.slots| <= capacity && capacity > 0 && c.pc.Entered?
    ensures var (book', c') := Look(book, t, c, now, capacity);
            && Met(book.slots, capacity, c, now, c'.pc.Ready?, if c'.pc.Blocked? then 409 else c'.status)
            && (c'.pc.Ready? ==> OwnLast(book'.slots, t, c, now))
            && book'.counters.attempts == book.counters.attempts && book'.counters.retries == book.counters.retries
  {
    LookMeans(book, t, c, now, capacity);
    LookKeepsAttempts(book, t, c, now, capacity);
    var c' := Look(book, t, c, now, capacity).1;
    if exists y :: Shown(book.slots, true, now, y) && y.key == c.key {
      var y :| Shown(book.slots, true, now, y) && y.key == c.key;
      assert AnsweredBy(y, c, now, c');
    }
  }

  lemma TurnKeepsAttempts(book: Book, t: nat, c: Local, now: int, capacity: nat)
    ensures var k, k' := book.counters, Turn(book, t, c, now, capacity).0.counters;
            k'.attempts == k.attempts && k'.retries == k.retries
  {
  }

  lemma LookKeepsAttempts(book: Book, t: nat, c: Local, now: int, capacity: nat)
    ensures var k, k' := book.counters, Look(book, t, c, now, capacity).0.counters;
            k'.attempts == k.attempts && k'.retries == k.retries
  {
    TurnKeepsAttempts(if c.pc.Entered? then book.(slots := Pruned(book.slots, now)) else book, t, c, now, capacity);
  }

  /** Status and attempts of a checkout that meets this table: an invalid one gets 400, a key that is there is answered
      from its slot, an absent one is rejected with 503 when there is no room, and otherwise makes its attempts. */
  ghost predicate Comes(slots: Table, capacity: nat, c: Local, valid: bool, now: int, outcomes: seq<Outcome>,
          tries: nat, status: nat) {
    if !valid then status == 400 && tries == 0
    else
      && (forall y | Shown(slots, true, now, y) && y.key == c.key ::
            && tries == 0
            && status == if y.entry.order == c.order && y.entry.completed then y.entry.status else 409)
      && ((forall y | Shown(slots, true, now, y) :: y.key != c.key) ==>
            if Room(slots, true, now, capacity)
            then EndsAfter(outcomes, c.limit, tries) && status == FinalStatus(outcomes[tries - 1])
            else tries == 0 && status == 503)
  }

  /** A result is stored in place of the checkout's own last slot. */
  lemma StoreLast(book: Book, t: nat, c: Local, now: int)
    requires OwnLast(book.slots, t, c, now)
    ensures var slots := Store(book, t, c, now).0.slots;
            slots != [] && slots[|slots| - 1] == Slot(c.key, Entry(c.order, now, true, 200, t))
  {
    var slots, last := book.slots, |book.slots| - 1;
    assert forall j | 0 <= j < last :: slots[j] == slots[..last][j] && slots[j].key != c.key;
  }

  // ----- The object whose lock guards all of it -----

  class OrdersState {
    const table: IdempotencyTable
    var counters: Counters

    constructor (capacity: nat)
      ensures fresh(table) && table.capacity == capacity && table.slots == []
      ensures counters == Counters(0, map[], 0, 0, 0, 0, 0, 0)
    {
      table := new IdempotencyTable(capacity);
      counters := Counters(0, map[], 0, 0, 0, 0, 0, 0);
    }

    ghost function Shared(): Book
      reads this, table
    {
      Book(table.slots, counters)
    }

    method Accept()
      modifies this
      ensures Shared() == Enter(old(Shared()))
    {
      counters := counters.(inflight := counters.inflight + 1);
    }

    /** One turn of the wait loop, holding the lock. */
    method TakeTurn(t: nat, c: Local, now: int) returns (c': Local)
      modifies this, table
      ensures (Shared(), c') == Turn(old(Shared()), t, c, now, table.capacity)
    {
      var i := Index(table.slots, c.key);
      if i == |table.slots| {
        c' := CreateEntry(t, c, now);
        return;
      }
      var entry := table.slots[i].entry;
      if entry.order != c.order {
        counters := counters.(conflicts := counters.conflicts + 1);
        return Leave(c, 409);
      }
      if entry.completed {
        counters := counters.(replays := counters.replays + 1);
        table.slots := MoveToEnd(table.slots, i);
        return Leave(c, entry.status);
      }
      if c.deadline - now <= 0 {
        return Leave(c, 409);
      }
      c' := c.(pc := Blocked);
    }

    method CreateEntry(t: nat, c: Local, now: int) returns (c': Local)
      modifies this, table
      ensures (Shared(), c') == Create(old(Shared()), t, c, now, table.capacity)
    {
      var ok := table.MakeRoom();
      if !ok {
        counters := counters.(full := counters.full + 1);
        return Leave(c, 503);
      }
      c' := c.(pc := Ready, created := now);
      table.slots := table.slots + [OwnSlot(t, c')];
    }

    /** The locked block up to the next wait: pruning happens once, on entry. */
    method LookUp(t: nat, c: Local, now: int) returns (c': Local)
      requires Unique(table.slots)
      modifies this, table
      ensures (Shared(), c') == Look(old(Shared()), t, c, now, table.capacity)
      ensures |old(table.slots)| <= table.capacity && table.capacity > 0 ==>
                Looked(old(table.slots), t, c, now, table.capacity, table.slots, c')
    {
      if |table.slots| <= table.capacity && table.capacity > 0 {
        LookMeans(Shared(), t, c, now, table.capacity);
      }
      if c.pc.Entered? {
        table.Prune(now);
      }
      c' := TakeTurn(t, c, now);
    }

    method CountAttempt(c: Local) returns (c': Local)
      modifies this`counters
      ensures (Shared(), c') == StartAttempt(old(Shared()), c)
    {
      counters := counters.(attempts := counters.attempts + 1);
      if c.attempts > 0 {
        counters := counters.(retries := counters.retries + 1);
      }
      c' := c.(pc := InCall, attempts := c.attempts + 1);
    }

    method StoreResult(t: nat, c: Local, now: int) returns (c': Local)
      modifies this, table
      ensures (Shared(), c') == Store(old(Shared()), t, c, now)
    {
      var i := Index(table.slots, c.key);
      if i < |table.slots| && table.slots[i].entry.owner == t {
        table.slots := table.slots[i := Slot(c.key, Entry(c.order, now, true, 200, t))];
      }
      c' := c.(pc := Stored);
    }

    method Conclude(c: Local) returns (c': Local)
      modifies this, table
      ensures (Shared(), c') == Finish(old(Shared()), c)
    {
      if c.pc == Leaving(true) {
        table.slots := Pop(table.slots, c.key);
      }
      counters := counters.(inflight := if counters.inflight > 0 then counters.inflight - 1 else 0,
                            requests := Bump(counters.requests, c.status));
      if c.status == 502 || c.status == 503 {
        counters := counters.(errors := counters.errors + 1);
      }
      c' := c.(pc := Done);
    }

    /** The step system and this object agree, and checkout `t` stands at `c`. */
    ghost predicate Synced(s: State, at: State, t: nat, c: Local)
      reads this, table
    {
      && at.book == Shared() && at.capacity == table.capacity && at.done == s.done
      && at.locals == s.locals[t := c]
    }

    ghost predicate Valid()
      reads this, table
    {
      Unique(table.slots) && |table.slots| <= table.capacity && table.capacity > 0
    }

    /** The locked block with nobody else at the lock: a waiter is woken by its deadline. */
    method LookAlone(ghost s: State, ghost at: State, t: nat, c: Local, now: int)
      returns (c': Local, time: int, ghost steps: seq<Step>)
      requires Synced(s, at, t, c) && at.now == now && c.pc.Entered? && Valid()
      modifies this, table
      ensures Synced(s, Exec(at, steps), t, c') && Exec(at, steps).now == time
      ensures c' == c.(pc := c'.pc, status := c'.status, created := c'.created)
      ensures c'.pc.Ready? || c'.pc == Leaving(false)
      ensures Met(old(table.slots), table.capacity, c, now, c'.pc.Ready?, c'.status)
      ensures c'.pc.Ready? ==> OwnLast(table.slots, t, c, now) && time == now
      ensures counters.attempts == old(counters.attempts) && counters.retries == old(counters.retries)
    {
      time := now;
      LookComes(Shared(), t, c, now, table.capacity);
      c' := LookUp(t, c, now);
      FirstLook(s, at, t, c, c');
      if c'.pc.Blocked? {
        time := c.deadline;
        c', steps := WaitAlone(s, at, t, c, now);
      } else {
        steps := [LookStep(t)];
        OneStep(at, [], LookStep(t));
      }
    }

    /** A checkout that was told to wait, up to its deadline. */
    method WaitAlone(ghost s: State, ghost at: State, t: nat, c: Local, ghost now: int)
      returns (c': Local, ghost steps: seq<Step>)
      requires at.locals == s.locals[t := c] && at.now == now && c.pc.Entered?
      requires at.capacity == table.capacity && at.done == s.done
      requires (Shared(), c.(pc := Blocked)) == Look(at.book, t, c, now, table.capacity)
      modifies this, table
      ensures Synced(s, Exec(at, steps), t, c') && Exec(at, steps).now == c.deadline
      ensures c' == c.(pc := Leaving(false), status := 409)
      ensures counters.attempts == old(counters.attempts) && counters.retries == old(counters.retries)
    {
      LateLook(at, t, c.(pc := Blocked));
      TurnKeepsAttempts(Shared(), t, c.(pc := Blocked), c.deadline, table.capacity);
      assert s.locals[t := c][t := Leave(c, 409)] == s.locals[t := Leave(c, 409)];
      steps := [LookStep(t), Tick(c.deadline - now), LookStep(t)];
      c' := TakeTurn(t, c.(pc := Blocked), c.deadline);
    }

    /** One attempt, from its count to its outcome. */
    method AttemptAlone(ghost s: State, ghost at: State, t: nat, c: Local, outcome: Outcome)
      returns (c': Local, ghost after: State)
      requires Synced(s, at, t, c) && c.pc.Ready? && c.attempts < c.limit
      modifies this`counters
      ensures after == Next(Next(at, AttemptStep(t)), ReturnStep(t, outcome))
      ensures Synced(s, after, t, c') && after.now == at.now
      ensures c' == c.(pc := c'.pc, attempts := c.attempts + 1, status := c'.status)
      ensures if outcome == Again && c'.attempts < c.limit then c'.pc == Ready else Ended(c', outcome)
      ensures counters.attempts == old(counters.attempts) + 1
      ensures counters.retries == old(counters.retries) + if c.attempts > 0 then 1 else 0
    {
      AttemptShape(s, at, t, c, outcome);
      after := Next(Next(at, AttemptStep(t)), ReturnStep(t, outcome));
      c' := CountAttempt(c);
      c' := Returned(c', outcome);
    }

    /** The attempts of an owner, until one ends them: `tries` of them are made. */
    method AttemptsAlone(ghost s: State, ghost at: State, t: nat, c: Local, outcomes: seq<Outcome>)
      returns (c': Local, tries: nat, ghost steps: seq<Step>)
      requires Synced(s, at, t, c) && c.pc.Ready? && c.attempts == 0 && 1 <= c.limit <= |outcomes|
      modifies this`counters
      ensures Synced(s, Exec(at, steps), t, c') && Exec(at, steps).now == at.now
      ensures EndsAfter(outcomes, c.limit, tries)
      ensures c'.key == c.key && c'.order == c.order && Ended(c', outcomes[tries - 1])
      ensures counters.attempts == old(counters.attempts) + tries
      ensures counters.retries == old(counters.retries) + tries - 1
    {
      c', steps, tries := c, [], 0;
      ghost var here := at;
      while c'.pc.Ready?
        invariant Exec(at, steps) == here && Synced(s, here, t, c') && here.now == at.now
        invariant c' == c.(pc := c'.pc, attempts := tries, status := c'.status) && tries <= c.limit
        invariant forall i | 0 <= i < tries - 1 :: outcomes[i] == Again
        invariant c'.pc.Ready? ==> tries < c.limit && (tries > 0 ==> outcomes[tries - 1] == Again)
        invariant !c'.pc.Ready? ==> tries > 0 && Ended(c', outcomes[tries - 1])
        invariant counters.attempts == old(counters.attempts) + tries
        invariant counters.retries == old(counters.retries) + if tries > 0 then tries - 1 else 0
        decreases c.limit - tries
      {
        TwoMore(at, steps, AttemptStep(t), ReturnStep(t, outcomes[tries]));
        steps := steps + [AttemptStep(t), ReturnStep(t, outcomes[tries])];
        c', here := AttemptAlone(s, here, t, c', outcomes[tries]);
        tries := tries + 1;
      }
    }

    /** An owner's attempts, and its result put into its own slot. */
    method OwnAlone(ghost s: State, ghost at: State, t: nat, c: Local, now: int, outcomes: seq<Outcome>)
      returns (c': Local, tries: nat, ghost steps: seq<Step>)
      requires Synced(s, at, t, c) && at.now == now && c.pc.Ready? && c.attempts == 0 && 1 <= c.limit <= |outcomes|
      requires OwnLast(table.slots, t, c, now)
      modifies this, table
      ensures Synced(s, Exec(at, steps), t, c') && c'.key == c.key
      ensures EndsAfter(outcomes, c.limit, tries) && c'.status == FinalStatus(outcomes[tries - 1])
      ensures c'.pc == if c'.status == 200 then Stored else Leaving(true)
      ensures counters.attempts == old(counters.attempts) + tries
      ensures counters.retries == old(counters.retries) + tries - 1
      ensures c'.status == 200 ==>
                table.slots != [] && table.slots[|table.slots| - 1] == Slot(c.key, Entry(c.order, now, true, 200, t))
    {
      c', tries, steps := AttemptsAlone(s, at, t, c, outcomes);
      if !c'.pc.Succeeded? { return; }
      StoreLast(Shared(), t, c', now);
      ghost var here;
      steps, here := Follow(at, steps, Exec(at, steps), StoreStep(t));
      c' := StoreResult(t, c', now);
    }

    /** Between acceptance and the `finally` block. */
    method ProcessAlone(ghost s: State, ghost at: State, t: nat, c: Local, valid: bool, now: int,
        outcomes: seq<Outcome>)
      returns (c': Local, tries: nat, ghost steps: seq<Step>)
      requires Synced(s, at, t, c) && at.now == now && c.pc.Entered? && c.attempts == 0
      requires Valid() && 1 <= c.limit <= |outcomes|
      modifies this, table
      ensures Synced(s, Exec(at, steps), t, c') && (c'.pc.Stored? || c'.pc.Leaving?) && c'.key == c.key
      ensures Comes(old(table.slots), table.capacity, c, valid, now, outcomes, tries, c'.status)
      ensures counters.attempts == old(counters.attempts) + tries
      ensures counters.retries == old(counters.retries) + if tries > 0 then tries - 1 else 0
      ensures c'.pc == Leaving(true) ==> tries > 0 && c'.status != 200
      ensures tries > 0 && c'.status == 200 ==>
                table.slots != [] && table.slots[|table.slots| - 1] == Slot(c.key, Entry(c.order, now, true, 200, t))
    {
      tries := 0;
      if !valid {
        OneStep(at, [], Reject(t));
        return Leave(c, 400), 0, [Reject(t)];
      }
      var time;
      c', time, steps := LookAlone(s, at, t, c, now);
      if c'.pc.Ready? {
        ghost var here, more := Exec(at, steps), [];
        c', tries, more := OwnAlone(s, here, t, c', now, outcomes);
        steps, here := FollowAll(at, steps, here, more);
      }
    }

    /** A whole checkout with nobody else at the lock: attempt `i` comes to `outcomes[i]`, and a request that is not
        `valid` is rejected before the table. It is a run of the step system, from any state it begins in; the status
        and the number of attempts are as `Comes` says, and a success of its own is in the table, completed. */
    method CheckoutAlone(ghost s: State, t: nat, order: string, key: string, limit: nat, deadline: int, valid: bool,
        now: int, outcomes: seq<Outcome>)
      returns (status: nat, tries: nat, ghost steps: seq<Step>)
      requires s.book == Shared() && s.capacity == table.capacity && s.now == now && t !in s.locals
      requires Valid() && 1 <= limit <= |outcomes|
      modifies this, table
      ensures var after := Exec(s, steps);
              && after.book == Shared() && after.done == s.done + [status]
              && t in after.locals && after.locals == s.locals[t := after.locals[t]] && AtPc(after, t, Done)
      ensures Comes(old(table.slots), table.capacity, Arrived(key, order, limit, deadline, now), valid, now, outcomes,
                    tries, status)
      ensures counters.attempts == old(counters.attempts) + tries
      ensures counters.retries == old(counters.retries) + if tries > 0 then tries - 1 else 0
      ensures tries > 0 && status == 200 ==>
                table.slots != [] && table.slots[|table.slots| - 1] == Slot(key, Entry(order, now, true, 200, t))
    {
      var c := Arrived(key, order, limit, deadline, now);
      Accept();
      ghost var arrive := Arrive(t, key, order, limit, deadline);
      OneStep(s, [], arrive);
      ghost var more;
      c, tries, more := ProcessAlone(s, Next(s, arrive), t, c, valid, now, outcomes);
      status := c.status;
      ghost var at;
      steps, at := FollowAll(s, [arrive], Next(s, arrive), more);
      EndsAlone(s, at, t, c);
      c := Conclude(c);
      steps, at := Follow(s, steps, at, FinishStep(t));
    }
  }

  // ----- Any number of checkouts -----

  /** `stamps` and `clock` (when each key was last created or replayed), `done` (the statuses of finished
      checkouts) and `reached` (how many checkouts made a first attempt) are history. */
  datatype State = State(now: int, book: Book, capacity: nat, locals: map<nat, Local>,
                         stamps: map<string, nat>, clock: nat, done: seq<nat>, reached: nat)

  datatype Step =
    | Tick(seconds: nat)
    | Arrive(t: nat, key: string, order: string, limit: nat, deadline: int)
    | Reject(t: nat)
    | LookStep(t: nat)
    | AttemptStep(t: nat)
    | ReturnStep(t: nat, outcome: Outcome)
    | RaiseStep(t: nat)
    | StoreStep(t: nat)
    | FinishStep(t: nat)

  predicate AtPc(s: State, t: nat, pc: Pc) {
    t in s.locals && s.locals[t].pc == pc
  }

  /** Creating and replaying an entry both make its key the most recent. */
  function Stamp(s: State, c': Local): State {
    if c'.pc.Ready? || (c'.pc == Leaving(false) && c'.status == 200)
    then s.(stamps := s.stamps[c'.key := s.clock], clock := s.clock + 1) else s
  }

  function Next(s: State, step: Step): State {
    match step
    case Tick(seconds) => s.(now := s.now + seconds)
    case Arrive(t, key, order, limit, deadline) =>
      if t in s.locals || limit < 1 then s
      else s.(book := Enter(s.book),
          locals := s.locals[t := Local(Entered, key, order, limit, 0, 503, deadline, s.now)])
    case Reject(t) => if AtPc(s, t, Entered) then s.(locals := s.locals[t := Leave(s.locals[t], 400)]) else s
    case LookStep(t) =>
      if AtPc(s, t, Entered) || AtPc(s, t, Blocked) then
        var (book', c') := Look(s.book, t, s.locals[t], s.now, s.capacity);
        Stamp(s, c').(book := book', locals := s.locals[t := c'])
      else s
    case AttemptStep(t) =>
      if AtPc(s, t, Ready) then
        var (book', c') := StartAttempt(s.book, s.locals[t]);
        s.(book := book', locals := s.locals[t := c'],
           reached := s.reached + if s.locals[t].attempts == 0 then 1 else 0)
      else s
    case ReturnStep(t, outcome) =>
      if AtPc(s, t, InCall) then s.(locals := s.locals[t := Returned(s.locals[t], outcome)]) else s
    case RaiseStep(t) =>
      if AtPc(s, t, InCall) then s.(locals := s.locals[t := s.locals[t].(pc := Leaving(true))]) else s
    case StoreStep(t) =>
      if AtPc(s, t, Succeeded) then
        var (book', c') := Store(s.book, t, s.locals[t], s.now);
        s.(book := book', locals := s.locals[t := c'])
      else s
    case FinishStep(t) =>
      if AtPc(s, t, Stored) || AtPc(s, t, Leaving(true)) || AtPc(s, t, Leaving(false)) then
        var (book', c') := Finish(s.book, s.locals[t]);
        s.(book := book', locals := s.locals[t := c'], done := s.done + [c'.status])
      else s
  }

  function Exec(s: State, steps: seq<Step>): State
    decreases |steps|
  {
    if steps == [] then s else Exec(Next(s, steps[0]), steps[1..])
  }

  predicate Init(s: State) {
    && s.book == Book([], Counters(0, map[], 0, 0, 0, 0, 0, 0)) && s.capacity > 0
    && s.locals == map[] && s.stamps == map[] && s.done == [] && s.reached == 0
  }

  lemma {:induction false} OneStep(s: State, steps: seq<Step>, step: Step)
    ensures Exec(s, steps + [step]) == Next(Exec(s, steps), step)
    decreases |steps|
  {
    if steps == [] {
      assert Exec(Next(s, step), []) == Next(s, step);
      assert [] + [step] == [step];
    } else {
      assert (steps + [step])[1..] == steps[1..] + [step];
      OneStep(Next(s, steps[0]), steps[1..], step);
    }
  }

  lemma TwoMore(s: State, steps: seq<Step>, a: Step, b: Step)
    ensures Exec(s, steps + [a, b]) == Next(Next(Exec(s, steps), a), b)
  {
    OneStep(s, steps, a);
    OneStep(s, steps + [a], b);
    assert steps + [a] + [b] == steps + [a, b];
  }

  /** One more step of a run. */
  ghost method Follow(s: State, steps: seq<Step>, at: State, step: Step) returns (steps': seq<Step>, at': State)
    requires Exec(s, steps) == at
    ensures steps' == steps + [step] && at' == Next(at, step) && Exec(s, steps') == at'
  {
    OneStep(s, steps, step);
    steps', at' := steps + [step], Next(at, step);
  }

  lemma {:induction false} Onward(s: State, first: seq<Step>, rest: seq<Step>)
    ensures Exec(s, first + rest) == Exec(Exec(s, first), rest)
    decreases |first|
  {
    if first == [] {
      assert first + rest == rest;
    } else {
      assert (first + rest)[1..] == first[1..] + rest;
      Onward(Next(s, first[0]), first[1..], rest);
    }
  }

  ghost method FollowAll(s: State, steps: seq<Step>, at: State, more: seq<Step>)
    returns (steps': seq<Step>, at': State)
    requires Exec(s, steps) == at
    ensures steps' == steps + more && at' == Exec(at, more) && Exec(s, steps') == at'
  {
    Onward(s, steps, more);
    steps', at' := steps + more, Exec(at, more);
  }

  /** Any look leaves the rest of the system alone. */
  lemma FirstLook(s: State, at: State, t: nat, c: Local, c': Local)
    requires at.locals == s.locals[t := c] && c.pc.Entered? && Look(at.book, t, c, at.now, at.capacity).1 == c'
    ensures var after := Next(at, LookStep(t));
            && after.book == Look(at.book, t, c, at.now, at.capacity).0 && after.locals == s.locals[t := c']
            && after.now == at.now && after.capacity == at.capacity && after.done == at.done
    ensures c' == c.(pc := c'.pc, status := c'.status, created := c'.created)
    ensures c'.pc.Ready? || c'.pc.Blocked? || c'.pc == Leaving(false)
  {
    assert s.locals[t := c][t := c'] == s.locals[t := c'];
  }

  lemma BlockedLook(at: State, t: nat, c: Local)
    requires AtPc(at, t, Entered) || AtPc(at, t, Blocked)
    requires Look(at.book, t, at.locals[t], at.now, at.capacity).1 == c && c.pc.Blocked?
    ensures c.deadline > at.now && c == at.locals[t].(pc := Blocked)
    ensures Next(at, LookStep(t))
         == at.(book := Look(at.book, t, at.locals[t], at.now, at.capacity).0, locals := at.locals[t := c])
    ensures Turn(Next(at, LookStep(t)).book, t, c, c.deadline, at.capacity).1 == Leave(c, 409)
  {
  }

  lemma LastLook(at: State, t: nat, c: Local)
    requires AtPc(at, t, Blocked) && at.locals[t] == c
    requires Turn(at.book, t, c, at.now, at.capacity).1 == Leave(c, 409)
    ensures var after := Next(at, LookStep(t));
            after == at.(book := Turn(at.book, t, c, at.now, at.capacity).0, locals := at.locals[t := Leave(c, 409)])
  {
  }

  /** A look that blocks, the wait up to the deadline, and the look after it. */
  lemma LateLook(at: State, t: nat, c: Local)
    requires AtPc(at, t, Entered) || AtPc(at, t, Blocked)
    requires Look(at.book, t, at.locals[t], at.now, at.capacity).1 == c && c.pc.Blocked?
    ensures c.deadline > at.now && c == at.locals[t].(pc := Blocked)
    ensures var book := Look(at.book, t, at.locals[t], at.now, at.capacity).0;
            var (book', c') := Turn(book, t, c, c.deadline, at.capacity);
            && c' == Leave(c, 409)
            && Exec(at, [LookStep(t), Tick(c.deadline - at.now), LookStep(t)])
               == at.(book := book', locals := at.locals[t := c'], now := c.deadline)
  {
    BlockedLook(at, t, c);
    var blocked := at.(book := Look(at.book, t, at.locals[t], at.now, at.capacity).0, locals := at.locals[t := c]);
    var late := blocked.(now := c.deadline);
    assert Next(blocked, Tick(c.deadline - at.now)) == late;
    LastLook(late, t, c);
    ThreeSteps(at, LookStep(t), Tick(c.deadline - at.now), LookStep(t));
    assert at.locals[t := c][t := Leave(c, 409)] == at.locals[t := Leave(c, 409)];
  }

  lemma ThreeSteps(s: State, a: Step, b: Step, c: Step)
    ensures Exec(s, [a, b, c]) == Next(Next(Next(s, a), b), c)
  {
    OneStep(s, [], a);
    OneStep(s, [a], b);
    OneStep(s, [a, b], c);
  }

  /** One attempt of an owner, from its start to its return. */
  lemma AttemptShape(s: State, at: State, t: nat, c: Local, outcome: Outcome)
    requires at.locals == s.locals[t := c] && c.pc.Ready? && c.attempts < c.limit
    ensures var (book', c') := StartAttempt(at.book, c);
            var after := Next(Next(at, AttemptStep(t)), ReturnStep(t, outcome));
            && after.book == book' && after.locals == s.locals[t := Returned(c', outcome)]
            && after.now == at.now && after.capacity == at.capacity && after.done == at.done
            && (var last := Returned(c', outcome);
                && last.limit == c.limit && last.attempts == c.attempts + 1
                && (last.pc.Ready? ==> last.attempts < last.limit)
                && (last.pc.Ready? || last.pc.Succeeded? || last.pc == Leaving(true)))
  {
    var c' := StartAttempt(at.book, c).1;
    assert s.locals[t := c][t := c'] == s.locals[t := c'];
    assert s.locals[t := c'][t := Returned(c', outcome)] == s.locals[t := Returned(c', outcome)];
  }

  lemma EndsAlone(s: State, at: State, t: nat, c: Local)
    requires at.locals == s.locals[t := c] && (c.pc.Stored? || c.pc.Leaving?) && at.done == s.done
    ensures var (book', c') := Finish(at.book, c);
            && c'.status == c.status && c'.pc.Done?
            && Next(at, FinishStep(t)) == at.(book := book', locals := s.locals[t := c'], done := s.done + [c.status])
  {
    assert s.locals[t := c][t := c.(pc := Done)] == s.locals[t := c.(pc := Done)];
  }
}
