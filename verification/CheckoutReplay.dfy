/** Stored results over whole runs: who is answered from the table, and for how long. */
module CheckoutReplay {
  import opened Idempotency
  import opened Checkout
  import opened CheckoutSafety

  /** The stored result is in the table all along. */
  ghost predicate Kept(s: State, steps: seq<Step>, x: Slot)
    decreases |steps|
  {
    x in s.book.slots && (steps == [] || Kept(Next(s, steps[0]), steps[1..], x))
  }

  /** The status that a stored success gives to a checkout of its key. */
  function Answer(c: Local, x: Slot): nat {
    if c.order == x.entry.order then 200 else 409
  }

  /** Waiting for an answer, or answered from the table or by the check of the request before it; never a caller
      of the dependency. */
  predicate Answered(c: Local, x: Slot) {
    && c.attempts == 0
    && match c.pc
       case Entered => true
       case Blocked => true
       case Leaving(owns) => !owns && c.status in {Answer(c, x), 400}
       case Done => c.status in {Answer(c, x), 400}
       case _ => false
  }

  /** A checkout that is not there yet, is of another key, or is answered. */
  predicate Served(s: State, u: nat, x: Slot) {
    u in s.locals && s.locals[u].key == x.key ==> Answered(s.locals[u], x)
  }

  /** An arriving checkout that finds the result expired takes it out of the table. */
  lemma ExpiredGoes(s: State, t: nat, x: Slot)
    requires Inv(s) && AtPc(s, t, Entered) && x in s.book.slots && x.entry.completed && Expired(x.entry, s.now)
    ensures x !in Next(s, LookStep(t)).book.slots
  {
    PruneKeeps(s.book.slots, s.now);
    PrunedMembers(s.book.slots, s.now, x);
    var looked := s.book.(slots := Pruned(s.book.slots, s.now));
    TurnEffect(looked, t, s.locals[t], s.now, s.capacity);
    NothingReappears(looked.slots, t, Turn(looked, t, s.locals[t], s.now, s.capacity).1,
        Turn(looked, t, s.locals[t], s.now, s.capacity).0.slots, x);
  }

  lemma NothingReappears(slots: Table, t: nat, c': Local, slots': Table, x: Slot)
    requires Effect(slots, t, c', slots') && x !in slots && x.entry.completed
    ensures x !in slots'
  {
    if c'.pc.Ready? {
      assert slots' == slots'[..|slots'| - 1] + [OwnSlot(t, c')];
    }
  }

  lemma LookServes(s: State, t: nat, x: Slot)
    requires Inv(s) && x in s.book.slots && x.entry.completed && x in Next(s, LookStep(t)).book.slots
    requires Served(s, t, x)
    ensures Served(Next(s, LookStep(t)), t, x)
  {
    if (AtPc(s, t, Entered) || AtPc(s, t, Blocked)) && s.locals[t].key == x.key {
      if AtPc(s, t, Entered) && Expired(x.entry, s.now) {
        ExpiredGoes(s, t, x);
      }
      StoredResultAnswers(s, t, x);
    } else if AtPc(s, t, Entered) || AtPc(s, t, Blocked) {
      LookEffect(s.book, t, s.locals[t], s.now, s.capacity);
    }
  }

  /** The steps of a checkout other than its look at the table. */
  lemma OwnStepServes(s: State, step: Step, u: nat, x: Slot)
    requires Served(s, u, x) && !step.LookStep?
    ensures Served(Next(s, step), u, x)
  {
  }

  lemma StepServes(s: State, step: Step, u: nat, x: Slot)
    requires Inv(s) && x in s.book.slots && x.entry.completed && x in Next(s, step).book.slots && Served(s, u, x)
    ensures Served(Next(s, step), u, x)
  {
    if step == LookStep(u) {
      LookServes(s, u, x);
    } else if step.LookStep? {
      assert u in Next(s, step).locals ==> u in s.locals && Next(s, step).locals[u] == s.locals[u];
    } else {
      OwnStepServes(s, step, u, x);
    }
  }

  /** While a stored success stays in the table, every checkout of its key that arrives meanwhile, or was waiting, is
      answered from it: the same order gets the stored status and another order 409, unless the request is rejected
      before the table is looked at, and none of them ever calls the dependency. */
  lemma StoredResultServesAll(s: State, steps: seq<Step>, u: nat, x: Slot)
    requires Inv(s) && x.entry.completed && Kept(s, steps, x)
    requires u !in s.locals || AtPc(s, u, Entered) || AtPc(s, u, Blocked)
    ensures var t := Exec(s, steps); u in t.locals && t.locals[u].key == x.key ==> Answered(t.locals[u], x)
  {
    assert Served(s, u, x);
    ServedAlong(s, steps, u, x);
  }

  lemma {:induction false} ServedAlong(s: State, steps: seq<Step>, u: nat, x: Slot)
    requires Inv(s) && x.entry.completed && Kept(s, steps, x) && Served(s, u, x)
    ensures Served(Exec(s, steps), u, x)
    decreases |steps|
  {
    if steps != [] {
      NextInv(s, steps[0]);
      assert x in Next(s, steps[0]).book.slots;
      StepServes(s, steps[0], u, x);
      ServedAlong(Next(s, steps[0]), steps[1..], u, x);
    }
  }

  // ----- How long it stays -----

  /** The table has a free slot all along. */
  ghost predicate Roomy(s: State, steps: seq<Step>)
    decreases |steps|
  {
    |s.book.slots| < s.capacity && (steps == [] || Roomy(Next(s, steps[0]), steps[1..]))
  }

  lemma {:induction false} ClockRuns(s: State, steps: seq<Step>)
    ensures s.now <= Exec(s, steps).now
    decreases |steps|
  {
    if steps != [] {
      TimeStep(s, steps[0]);
      ClockRuns(Next(s, steps[0]), steps[1..]);
    }
  }

  lemma TimeStep(s: State, step: Step)
    ensures s.now <= Next(s, step).now
  {
  }

  /** A stored success stays for its whole lifetime in a table that does not fill up. */
  lemma {:induction false} StoredResultLasts(s: State, steps: seq<Step>, x: Slot)
    requires Inv(s) && x in s.book.slots && x.entry.completed
    requires Roomy(s, steps) && Exec(s, steps).now - x.entry.createdAt <= TTL_SECONDS
    ensures Kept(s, steps, x)
    decreases |steps|
  {
    if steps != [] {
      ClockRuns(s, steps);
      if x !in Next(s, steps[0]).book.slots {
        StoredResultStays(s, steps[0], x);
      }
      NextInv(s, steps[0]);
      StoredResultLasts(Next(s, steps[0]), steps[1..], x);
    }
  }
}
