/** Inventory reservations: committed rows, one pending transaction per attempt, and every failure in between.
    Token-collision mode is not part of this model. */
module Reservations {
  import opened Wrappers

  /** Committed state: red-widget stock and `reservation_events` (token to order). */
  datatype Db = Db(stock: int, rows: map<string, string>)

  datatype Reply = Reserved | OutOfStock | Conflict | Unavailable | Unauthorized | Busy

  /** Where one execution of `reserve` stands. `Inserted` and `Decremented` hold an open transaction with the
      token row lock and, for the latter, the stock row lock. */
  datatype Stage = Waiting | Admitted | Inserted | Decremented | Duplicate | Replied(reply: Reply)

  datatype Attempt = Attempt(order: string, stage: Stage)

  /** `sold` is history: the orders of the committed decrements, in commit order. */
  datatype Shop = Shop(db: Db, attempts: map<nat, Attempt>, initial: nat, ref: string -> string, sold: seq<string>)

  /** The token of an order outside token-collision mode; `ref` stands for the truncated hash. */
  function Token(ref: string -> string, order: string): string {
    "order-" + ref(order)
  }

  predicate Pending(stage: Stage) {
    stage.Inserted? || stage.Decremented?
  }

  datatype Step =
    | Arrive(a: nat, order: string)
    | TurnAway(a: nat, reply: Reply)
    | Admit(a: nat)
    | Insert(a: nat)
    | Decrement(a: nat)
    | Abort(a: nat)
    | Commit(a: nat, applied: bool, acknowledged: bool)
    | Lookup(a: nat, readable: bool)

  predicate At(s: Shop, a: nat, stage: Stage) {
    a in s.attempts && s.attempts[a].stage == stage
  }

  function Move(s: Shop, a: nat, stage: Stage): Shop
    requires a in s.attempts
  {
    s.(attempts := s.attempts[a := s.attempts[a].(stage := stage)])
  }

  /** Another open transaction holds this token's row lock. */
  predicate TokenLocked(s: Shop, a: nat)
    requires a in s.attempts
  {
    exists b | b in s.attempts ::
      b != a && Pending(s.attempts[b].stage) && Token(s.ref, s.attempts[b].order) == Token(s.ref, s.attempts[a].order)
  }

  predicate StockLocked(s: Shop, a: nat) {
    exists b | b in s.attempts :: b != a && s.attempts[b].stage.Decremented?
  }

  function InsertStep(s: Shop, a: nat): Shop
    requires a in s.attempts
  {
    if Token(s.ref, s.attempts[a].order) in s.db.rows then Move(s, a, Duplicate)
    else if TokenLocked(s, a) then Move(s, a, Replied(Unavailable))
    else Move(s, a, Inserted)
  }

  function DecrementStep(s: Shop, a: nat): Shop
    requires a in s.attempts
  {
    if StockLocked(s, a) then Move(s, a, Replied(Unavailable))
    else if s.db.stock > 0 then Move(s, a, Decremented)
    else Move(s, a, Replied(OutOfStock))
  }

  function CommitStep(s: Shop, a: nat, applied: bool, acknowledged: bool): Shop
    requires a in s.attempts
  {
    var order := s.attempts[a].order;
    if !applied then Move(s, a, Replied(Unavailable))
    else
      Move(s, a, Replied(if acknowledged then Reserved else Unavailable))
      .(db := Db(s.db.stock - 1, s.db.rows[Token(s.ref, order) := order]), sold := s.sold + [order])
  }

  function LookupStep(s: Shop, a: nat, readable: bool): Shop
    requires a in s.attempts
  {
    var order := s.attempts[a].order;
    var token := Token(s.ref, order);
    Move(s, a, Replied(if readable && token in s.db.rows && s.db.rows[token] == order then Reserved else Conflict))
  }

  /** A step that is not enabled does nothing. Any error, and any end of a session, rolls back. */
  function Next(s: Shop, step: Step): Shop {
    match step
    case Arrive(a, order) => if a in s.attempts then s else s.(attempts := s.attempts[a := Attempt(order, Waiting)])
    case TurnAway(a, reply) =>
      if At(s, a, Waiting) && (reply == Unauthorized || reply == Busy) then Move(s, a, Replied(reply)) else s
    case Admit(a) => if At(s, a, Waiting) then Move(s, a, Admitted) else s
    case Insert(a) => if At(s, a, Admitted) then InsertStep(s, a) else s
    case Decrement(a) => if At(s, a, Inserted) then DecrementStep(s, a) else s
    case Abort(a) =>
      if At(s, a, Admitted) || At(s, a, Inserted) || At(s, a, Decremented) then Move(s, a, Replied(Unavailable)) else s
    case Commit(a, applied, acknowledged) =>
      if At(s, a, Decremented) then CommitStep(s, a, applied, acknowledged) else s
    case Lookup(a, readable) => if At(s, a, Duplicate) then LookupStep(s, a, readable) else s
  }

  function Exec(s: Shop, steps: seq<Step>): Shop
    decreases |steps|
  {
    if steps == [] then s else Exec(Next(s, steps[0]), steps[1..])
  }

  // ----- Invariant -----

  /** The order has its row. */
  predicate Held(s: Shop, order: string) {
    var token := Token(s.ref, order);
    token in s.db.rows && s.db.rows[token] == order
  }

  ghost predicate DbInv(s: Shop) {
    && s.db.stock >= 0 && s.db.stock + |s.db.rows| == s.initial
    && (forall token | token in s.db.rows :: token == Token(s.ref, s.db.rows[token]))
  }

  ghost predicate SoldInv(s: Shop) {
    && |s.sold| == |s.db.rows|
    && (forall i | 0 <= i < |s.sold| :: Held(s, s.sold[i]))
    && (forall i, j | 0 <= i < j < |s.sold| :: s.sold[i] != s.sold[j])
    && (forall token | token in s.db.rows :: s.db.rows[token] in s.sold)
  }

  ghost predicate AttemptOk(s: Shop, a: nat)
    requires a in s.attempts
  {
    var attempt := s.attempts[a];
    && (Pending(attempt.stage) ==> Token(s.ref, attempt.order) !in s.db.rows && !TokenLocked(s, a))
    && (attempt.stage.Decremented? ==> s.db.stock > 0 && !StockLocked(s, a))
    && (attempt.stage == Replied(Reserved) ==> Held(s, attempt.order))
  }

  ghost predicate Inv(s: Shop) {
    DbInv(s) && SoldInv(s) && forall a | a in s.attempts :: AttemptOk(s, a)
  }

  ghost predicate Init(s: Shop) {
    s.db.rows == map[] && s.db.stock == s.initial && s.attempts == map[] && s.sold == []
  }

  /** Locks that were there before: no new holder, no new conflict. */
  lemma NoNewLocks(s: Shop, s': Shop, b: nat)
    requires b in s.attempts && b in s'.attempts && s'.attempts[b].order == s.attempts[b].order && s'.ref == s.ref
    requires forall c | c in s'.attempts && c != b && Pending(s'.attempts[c].stage) ::
               c in s.attempts && Pending(s.attempts[c].stage) && s'.attempts[c].order == s.attempts[c].order
               && (s'.attempts[c].stage.Decremented? ==> s.attempts[c].stage.Decremented?)
    ensures TokenLocked(s', b) ==> TokenLocked(s, b)
    ensures StockLocked(s', b) ==> StockLocked(s, b)
  {
  }

  /** An attempt that gives up its locks, or never had any, disturbs no other. */
  lemma QuietMove(s: Shop, a: nat, stage: Stage)
    requires Inv(s) && a in s.attempts && !Pending(stage)
    requires stage == Replied(Reserved) ==> Held(s, s.attempts[a].order)
    ensures Inv(Move(s, a, stage))
  {
    var s' := Move(s, a, stage);
    forall b | b in s'.attempts ensures AttemptOk(s', b) {
      assert AttemptOk(s, b);
      forall c | c in s'.attempts && Pending(s'.attempts[c].stage) ensures c in s.attempts
          && s.attempts[c] == s'.attempts[c] {}
    }
  }

  lemma InsertInv(s: Shop, a: nat)
    requires Inv(s) && At(s, a, Admitted)
    ensures Inv(InsertStep(s, a))
  {
    if Token(s.ref, s.attempts[a].order) in s.db.rows {
      QuietMove(s, a, Duplicate);
    } else if TokenLocked(s, a) {
      QuietMove(s, a, Replied(Unavailable));
    } else {
      var s' := Move(s, a, Inserted);
      forall b | b in s'.attempts ensures AttemptOk(s', b) {
        assert AttemptOk(s, b);
        if b == a {
          assert TokenLocked(s', a) ==> TokenLocked(s, a);
        } else if Pending(s.attempts[b].stage) {
          assert Token(s.ref, s.attempts[b].order) != Token(s.ref, s.attempts[a].order);
          assert TokenLocked(s', b) ==> TokenLocked(s, b);
        }
      }
    }
  }

  lemma DecrementInv(s: Shop, a: nat)
    requires Inv(s) && At(s, a, Inserted)
    ensures Inv(DecrementStep(s, a))
  {
    if StockLocked(s, a) {
      QuietMove(s, a, Replied(Unavailable));
    } else if s.db.stock > 0 {
      var s' := Move(s, a, Decremented);
      forall b | b in s'.attempts ensures AttemptOk(s', b) {
        assert AttemptOk(s, b) && AttemptOk(s, a);
        assert TokenLocked(s', b) ==> TokenLocked(s, b);
      }
    } else {
      QuietMove(s, a, Replied(OutOfStock));
    }
  }

  /** The commit adds one row and takes one widget, together. */
  lemma CommitInv(s: Shop, a: nat, acknowledged: bool)
    requires Inv(s) && At(s, a, Decremented)
    ensures Inv(CommitStep(s, a, true, acknowledged))
  {
    var order := s.attempts[a].order;
    var token := Token(s.ref, order);
    assert AttemptOk(s, a);
    var s' := CommitStep(s, a, true, acknowledged);
    assert |s'.db.rows| == |s.db.rows| + 1;
    CommitKeepsSold(s, a, acknowledged);
    forall b | b in s'.attempts ensures AttemptOk(s', b) {
      assert AttemptOk(s, b);
      NoNewLocks(s, s', b);
      if Pending(s'.attempts[b].stage) {
        CommitSparesOthers(s, a, b);
      }
    }
  }

  /** Another open transaction has another token and no decrement. */
  lemma CommitSparesOthers(s: Shop, a: nat, b: nat)
    requires a in s.attempts && b in s.attempts && a != b && s.attempts[a].stage.Decremented?
            && Pending(s.attempts[b].stage)
    requires !TokenLocked(s, a) && !StockLocked(s, a)
    ensures Token(s.ref, s.attempts[b].order) != Token(s.ref, s.attempts[a].order) && s.attempts[b].stage.Inserted?
  {
  }

  lemma CommitKeepsSold(s: Shop, a: nat, acknowledged: bool)
    requires Inv(s) && At(s, a, Decremented)
    ensures SoldInv(CommitStep(s, a, true, acknowledged))
  {
    var order := s.attempts[a].order;
    var s' := CommitStep(s, a, true, acknowledged);
    assert AttemptOk(s, a);
    assert |s'.db.rows| == |s.db.rows| + 1;
    forall i | 0 <= i < |s.sold| ensures s.sold[i] != order && Held(s', s.sold[i]) {
      assert Held(s, s.sold[i]);
    }
  }

  lemma ArriveInv(s: Shop, a: nat, order: string)
    requires Inv(s) && a !in s.attempts
    ensures Inv(Next(s, Arrive(a, order)))
  {
    var s' := Next(s, Arrive(a, order));
    forall b | b in s'.attempts ensures AttemptOk(s', b) {
      if b != a {
        assert AttemptOk(s, b);
        NoNewLocks(s, s', b);
      }
    }
  }

  lemma LookupInv(s: Shop, a: nat, readable: bool)
    requires Inv(s) && At(s, a, Duplicate)
    ensures Inv(LookupStep(s, a, readable))
  {
    var stage := LookupStep(s, a, readable).attempts[a].stage;
    assert LookupStep(s, a, readable) == Move(s, a, stage);
    QuietMove(s, a, stage);
  }

  lemma EndInv(s: Shop, a: nat, applied: bool, acknowledged: bool)
    requires Inv(s)
    ensures Inv(Next(s, Commit(a, applied, acknowledged)))
  {
    if At(s, a, Decremented) {
      if applied {
        CommitInv(s, a, acknowledged);
      } else {
        QuietMove(s, a, Replied(Unavailable));
      }
    }
  }

  /** Steps that take no lock and write nothing. */
  lemma QuietInv(s: Shop, step: Step)
    requires Inv(s) && (step.TurnAway? || step.Admit? || step.Abort?)
    ensures Inv(Next(s, step))
  {
    match step
    case TurnAway(a, reply) => if At(s, a, Waiting) && reply != Reserved { QuietMove(s, a, Replied(reply)); }
    case Admit(a) => if At(s, a, Waiting) { QuietMove(s, a, Admitted); }
    case Abort(a) => if a in s.attempts { QuietMove(s, a, Replied(Unavailable)); }
  }

  lemma InitialStays(s: Shop, step: Step)
    ensures Next(s, step).initial == s.initial
  {
  }

  lemma NextInv(s: Shop, step: Step)
    requires Inv(s)
    ensures Inv(Next(s, step)) && Next(s, step).initial == s.initial
  {
    InitialStays(s, step);
    match step
    case Arrive(a, order) => if a !in s.attempts { ArriveInv(s, a, order); }
    case Insert(a) => if At(s, a, Admitted) { InsertInv(s, a); }
    case Decrement(a) => if At(s, a, Inserted) { DecrementInv(s, a); }
    case Commit(a, applied, acknowledged) => EndInv(s, a, applied, acknowledged);
    case Lookup(a, readable) => if At(s, a, Duplicate) { LookupInv(s, a, readable); }
    case _ => QuietInv(s, step);
  }

  lemma {:induction false} ExecInv(s: Shop, steps: seq<Step>)
    requires Inv(s)
    ensures Inv(Exec(s, steps)) && Exec(s, steps).initial == s.initial
    decreases |steps|
  {
    if steps != [] {
      NextInv(s, steps[0]);
      ExecInv(Next(s, steps[0]), steps[1..]);
    }
  }

  /** For every schedule of attempts, timeouts, late completions, duplicates and rollbacks: stock and rows add
      up to the initial stock, stock is never negative, no order is sold twice, every sale has its row, and an
      attempt answered `reserved` has its order's row committed. */
  lemma ExactlyOneDecrement(s: Shop, steps: seq<Step>)
    requires Init(s)
    ensures var t := Exec(s, steps);
            && t.db.stock >= 0 && t.db.stock + |t.db.rows| == s.db.stock && |t.sold| == s.db.stock - t.db.stock
            && (forall i, j | 0 <= i < j < |t.sold| :: t.sold[i] != t.sold[j])
            && (forall i | 0 <= i < |t.sold| :: Held(t, t.sold[i]))
            && (forall a | At(t, a, Replied(Reserved)) :: Held(t, t.attempts[a].order))
  {
    ExecInv(s, steps);
    var t := Exec(s, steps);
    forall a | At(t, a, Replied(Reserved)) ensures Held(t, t.attempts[a].order) {
      assert AttemptOk(t, a);
    }
  }

  lemma {:induction false} DistinctOnce(orders: seq<string>, order: string)
    requires order in orders && forall i, j | 0 <= i < j < |orders| :: orders[i] != orders[j]
    ensures multiset(orders)[order] == 1
  {
    assert orders == [orders[0]] + orders[1..];
    if order in orders[1..] {
      var i :| 0 <= i < |orders[1..]| && orders[1..][i] == order;
      assert orders[i + 1] == order && orders[0] != orders[i + 1];
      DistinctOnce(orders[1..], order);
    }
  }

  /** An order that has its row was sold once. */
  lemma HeldIsSoldOnce(s: Shop, order: string)
    requires SoldInv(s) && Held(s, order)
    ensures multiset(s.sold)[order] == 1
  {
    DistinctOnce(s.sold, order);
  }

  /** A row, once committed, stays. */
  lemma HeldIsStable(s: Shop, step: Step, order: string)
    requires Inv(s) && Held(s, order)
    ensures Held(Next(s, step), order) && Next(s, step).ref == s.ref
  {
    match step
    case Commit(a, applied, _) => if At(s, a, Decremented) && applied { assert AttemptOk(s, a); }
    case _ =>
  }

  /** In any schedule: which step gives an attempt which answer, and which step changes the database. */
  lemma AnswersMean(s: Shop, step: Step, a: nat)
    requires Inv(s) && a in s.attempts && !s.attempts[a].stage.Replied?
    ensures var s', order := Next(s, step), s.attempts[a].order;
            && (At(s', a, Replied(Reserved)) <==>
                  || (At(s, a, Decremented) && step == Commit(a, true, true))
                  || (At(s, a, Duplicate) && step == Lookup(a, true) && Held(s, order)))
            && (At(s', a, Replied(OutOfStock)) <==>
                  && At(s, a, Inserted) && step == Decrement(a) && s.db.stock == 0
                  && forall b | b in s.attempts && b != a :: !s.attempts[b].stage.Decremented?)
            && (At(s', a, Replied(Conflict)) <==>
                  At(s, a, Duplicate) && step.Lookup? && step.a == a && !(step.readable && Held(s, order)))
            && (s'.db != s.db && step.a == a ==>
                  At(s, a, Decremented) && step.Commit? && step.applied
                  && s'.db == Db(s.db.stock - 1, s.db.rows[Token(s.ref, order) := order]))
            && (At(s, a, Decremented) && step.Commit? && step.a == a && step.applied ==> s'.db != s.db)
  {
    if step.a == a {
      OwnAnswer(s, step);
    } else {
      OthersAnswer(s, step, a);
    }
  }

  lemma OthersAnswer(s: Shop, step: Step, a: nat)
    requires a in s.attempts && step.a != a
    ensures a in Next(s, step).attempts && Next(s, step).attempts[a] == s.attempts[a]
  {
  }

  lemma OwnAnswer(s: Shop, step: Step)
    requires step.a in s.attempts && !s.attempts[step.a].stage.Replied?
    ensures var s', a := Next(s, step), step.a;
            var order := s.attempts[a].order;
            && (At(s', a, Replied(Reserved)) <==>
                  || (At(s, a, Decremented) && step == Commit(a, true, true))
                  || (At(s, a, Duplicate) && step == Lookup(a, true) && Held(s, order)))
            && (At(s', a, Replied(OutOfStock)) <==>
                  At(s, a, Inserted) && step == Decrement(a) && s.db.stock <= 0 && !StockLocked(s, a))
            && (At(s', a, Replied(Conflict)) <==>
                  At(s, a, Duplicate) && step.Lookup? && !(step.readable && Held(s, order)))
            && (s'.db != s.db ==>
                  At(s, a, Decremented) && step.Commit? && step.applied
                  && s'.db == Db(s.db.stock - 1, s.db.rows[Token(s.ref, order) := order]))
            && (At(s, a, Decremented) && step.Commit? && step.applied ==> s'.db != s.db)
  {
  }

  // ----- `reserve` as one program, nobody else at the database -----

  datatype Fault = NoFault | InsertFails | UpdateFails | CommitFails(applied: bool) | LookupFails

  /** What a duplicate token, an empty stock and each fault come to. */
  function ReserveOutcome(db: Db, token: string, order: string, fault: Fault): (Db, Reply) {
    if fault == InsertFails then (db, Unavailable)
    else if token in db.rows then (db, if fault != LookupFails && db.rows[token] == order then Reserved else Conflict)
    else if fault == UpdateFails then (db, Unavailable)
    else if db.stock <= 0 then (db, OutOfStock)
    else if fault.CommitFails? && !fault.applied then (db, Unavailable)
    else (Db(db.stock - 1, db.rows[token := order]), if fault.CommitFails? then Unavailable else Reserved)
  }

  class InventoryDatabase {
    var stock: int
    var rows: map<string, string>

    constructor (stock: nat)
      ensures this.stock == stock && rows == map[]
    {
      this.stock, rows := stock, map[];
    }

    /** `reserve` once admitted: INSERT, UPDATE with its row count, COMMIT, or the duplicate's lookup. */
    method Reserve(token: string, order: string, fault: Fault) returns (reply: Reply)
      modifies this
      ensures (Db(stock, rows), reply) == ReserveOutcome(Db(old(stock), old(rows)), token, order, fault)
      ensures reply == Reserved <==>
                || (token in old(rows) && old(rows)[token] == order && !fault.InsertFails? && !fault.LookupFails?)
                || (token !in old(rows) && old(stock) > 0 && (fault.NoFault? || fault.LookupFails?))
      ensures reply == OutOfStock <==>
                token !in old(rows) && old(stock) <= 0 && !fault.InsertFails? && !fault.UpdateFails?
      ensures reply == Conflict <==>
                token in old(rows) && !fault.InsertFails? && (fault.LookupFails? || old(rows)[token] != order)
      ensures reply in {Reserved, OutOfStock, Conflict, Unavailable}
      ensures if token !in old(rows) && old(stock) > 0
                 && (fault.NoFault? || fault.LookupFails? || fault == CommitFails(true))
              then stock == old(stock) - 1 && rows == old(rows)[token := order]
              else stock == old(stock) && rows == old(rows)
      ensures stock + |rows| == old(stock) + |old(rows)|
      ensures reply == Reserved ==> token in rows && rows[token] == order
    {
      if fault == InsertFails { return Unavailable; }
      if token in rows {
        var existing := if fault == LookupFails then None else Some(rows[token]);
        return if existing == Some(order) then Reserved else Conflict;
      }
      var pendingRows := rows[token := order];
      if fault == UpdateFails { return Unavailable; }
      var rowcount := if stock > 0 then 1 else 0;
      if rowcount == 0 { return OutOfStock; }
      var pendingStock := stock - 1;
      if fault.CommitFails? && !fault.applied { return Unavailable; }
      stock, rows := pendingStock, pendingRows;
      reply := if fault.CommitFails? then Unavailable else Reserved;
    }
  }

  /** No transaction is open. */
  ghost predicate Alone(s: Shop) {
    forall b | b in s.attempts :: !Pending(s.attempts[b].stage)
  }

  /** The steps of one execution of `reserve` on its own, given the database it finds and what fails. */
  function ReserveSteps(db: Db, a: nat, token: string, order: string, fault: Fault): seq<Step> {
    [Arrive(a, order), Admit(a)]
    + if fault.InsertFails? then [Abort(a)] else [Insert(a)] + AfterInsert(db, a, token, fault)
  }

  function AfterInsert(db: Db, a: nat, token: string, fault: Fault): seq<Step> {
    if token in db.rows then [Lookup(a, !fault.LookupFails?)]
    else if fault.UpdateFails? then [Abort(a)]
    else if db.stock <= 0 then [Decrement(a)]
    else [Decrement(a), Commit(a, !fault.CommitFails? || fault.applied, !fault.CommitFails?)]
  }

  lemma {:induction false} OneMore(s: Shop, steps: seq<Step>, step: Step)
    ensures Exec(s, steps + [step]) == Next(Exec(s, steps), step)
    decreases |steps|
  {
    if steps == [] {
      assert Exec(Next(s, step), []) == Next(s, step);
      assert [] + [step] == [step];
    } else {
      assert (steps + [step])[1..] == steps[1..] + [step];
      OneMore(Next(s, steps[0]), steps[1..], step);
    }
  }

  /** Attempt `a` stands at `stage`, and nobody else has moved. */
  ghost predicate Stands(s: Shop, t: Shop, a: nat, order: string, stage: Stage) {
    t.attempts == s.attempts[a := Attempt(order, stage)] && t.db == s.db && t.ref == s.ref
  }

  lemma Begins(s: Shop, a: nat, order: string)
    requires a !in s.attempts
    ensures Stands(s, Exec(s, [Arrive(a, order), Admit(a)]), a, order, Admitted)
  {
    var s1 := Next(s, Arrive(a, order));
    assert [Arrive(a, order), Admit(a)][1..] == [Admit(a)];
    assert Exec(s1, [Admit(a)]) == Exec(Next(s1, Admit(a)), []);
  }

  lemma InsertsAlone(s: Shop, t: Shop, a: nat, order: string)
    requires Alone(s) && a !in s.attempts && Stands(s, t, a, order, Admitted)
    ensures Stands(s, Next(t, Insert(a)), a, order, if Token(s.ref, order) in s.db.rows then Duplicate else Inserted)
  {
    assert !TokenLocked(t, a);
  }

  lemma DecrementsAlone(s: Shop, t: Shop, a: nat, order: string)
    requires Alone(s) && a !in s.attempts && Stands(s, t, a, order, Inserted)
    ensures Stands(s, Next(t, Decrement(a)), a, order, if s.db.stock > 0 then Decremented else Replied(OutOfStock))
  {
    assert !StockLocked(t, a);
  }

  /** What the run ends with: this database, this answer to `a`, and no other attempt moved. */
  ghost predicate Answers(s: Shop, t: Shop, a: nat, order: string, db: Db, reply: Reply) {
    t.db == db && t.attempts == s.attempts[a := Attempt(order, Replied(reply))]
  }

  lemma LastStep(s: Shop, t: Shop, a: nat, order: string, fault: Fault)
    requires a !in s.attempts
    ensures Stands(s, t, a, order, Admitted) ==> Answers(s, Next(t, Abort(a)), a, order, s.db, Unavailable)
    ensures Stands(s, t, a, order, Inserted) ==> Answers(s, Next(t, Abort(a)), a, order, s.db, Unavailable)
    ensures Stands(s, t, a, order, Duplicate) ==>
              var answer := if !fault.LookupFails? && Held(s, order) then Reserved else Conflict;
              Answers(s, Next(t, Lookup(a, !fault.LookupFails?)), a, order, s.db, answer)
    ensures Stands(s, t, a, order, Decremented) ==>
              var applied := !fault.CommitFails? || fault.applied;
              Answers(s, Next(t, Commit(a, applied, !fault.CommitFails?)), a, order,
                  if applied then Db(s.db.stock - 1, s.db.rows[Token(s.ref, order) := order]) else s.db,
                  if fault.CommitFails? then Unavailable else Reserved)
  {
  }

  /** `reserve` on its own is a run of the step system, with the same database and the same answer. */
  lemma ReserveIsARun(s: Shop, a: nat, order: string, fault: Fault)
    requires Alone(s) && a !in s.attempts
    ensures var token := Token(s.ref, order);
            var (db, reply) := ReserveOutcome(s.db, token, order, fault);
            Answers(s, Exec(s, ReserveSteps(s.db, a, token, order, fault)), a, order, db, reply)
  {
    var token := Token(s.ref, order);
    var steps := [Arrive(a, order), Admit(a)];
    var t := Exec(s, steps);
    Begins(s, a, order);
    LastStep(s, t, a, order, fault);
    if fault.InsertFails? {
      OneMore(s, steps, Abort(a));
    } else {
      var inserted := Next(t, Insert(a));
      OneMore(s, steps, Insert(a));
      InsertsAlone(s, t, a, order);
      LastStep(s, inserted, a, order, fault);
      InsertedIsARun(s, steps + [Insert(a)], inserted, a, order, fault);
      assert ReserveSteps(s.db, a, token, order, fault)
          == steps + [Insert(a)] + AfterInsert(s.db, a, token, fault);
    }
  }

  /** The steps of a sale on its own, one by one. */
  lemma SaleUnfolds(s: Shop, a: nat, order: string)
    requires Token(s.ref, order) !in s.db.rows && s.db.stock > 0
    ensures Exec(s, ReserveSteps(s.db, a, Token(s.ref, order), order, NoFault))
         == Next(Next(Next(Next(Next(s, Arrive(a, order)), Admit(a)), Insert(a)), Decrement(a)), Commit(a, true, true))
  {
    var steps := [Arrive(a, order), Admit(a)];
    OneMore(s, [], Arrive(a, order));
    OneMore(s, [Arrive(a, order)], Admit(a));
    OneMore(s, steps, Insert(a));
    OneMore(s, steps + [Insert(a)], Decrement(a));
    OneMore(s, steps + [Insert(a)] + [Decrement(a)], Commit(a, true, true));
    assert ReserveSteps(s.db, a, Token(s.ref, order), order, NoFault)
        == steps + [Insert(a)] + [Decrement(a)] + [Commit(a, true, true)];
  }

  /** The steps of a retry of a sold order on its own, one by one. */
  lemma ReplayUnfolds(s: Shop, a: nat, order: string)
    requires Token(s.ref, order) in s.db.rows
    ensures Exec(s, ReserveSteps(s.db, a, Token(s.ref, order), order, NoFault))
         == Next(Next(Next(Next(s, Arrive(a, order)), Admit(a)), Insert(a)), Lookup(a, true))
  {
    var steps := [Arrive(a, order), Admit(a)];
    OneMore(s, [], Arrive(a, order));
    OneMore(s, [Arrive(a, order)], Admit(a));
    OneMore(s, steps, Insert(a));
    OneMore(s, steps + [Insert(a)], Lookup(a, true));
    assert ReserveSteps(s.db, a, Token(s.ref, order), order, NoFault) == steps + [Insert(a)] + [Lookup(a, true)];
  }

  /** An attempt that is turned away is answered and touches nothing. */
  lemma TurnedAway(s: Shop, a: nat, order: string, reply: Reply)
    requires a !in s.attempts && (reply == Unauthorized || reply == Busy)
    ensures Answers(s, Exec(s, [Arrive(a, order)] + [TurnAway(a, reply)]), a, order, s.db, reply)
  {
    OneMore(s, [], Arrive(a, order));
    OneMore(s, [Arrive(a, order)], TurnAway(a, reply));
  }

  lemma InsertedIsARun(s: Shop, steps: seq<Step>, t: Shop, a: nat, order: string, fault: Fault)
    requires Alone(s) && a !in s.attempts && !fault.InsertFails? && t == Exec(s, steps)
    requires Stands(s, t, a, order, if Token(s.ref, order) in s.db.rows then Duplicate else Inserted)
    ensures var token := Token(s.ref, order);
            var (db, reply) := ReserveOutcome(s.db, token, order, fault);
            Answers(s, Exec(s, steps + AfterInsert(s.db, a, token, fault)), a, order, db, reply)
  {
    LastStep(s, t, a, order, fault);
    if Token(s.ref, order) in s.db.rows {
      OneMore(s, steps, Lookup(a, !fault.LookupFails?));
    } else if fault.UpdateFails? {
      OneMore(s, steps, Abort(a));
    } else {
      var commit := Commit(a, !fault.CommitFails? || fault.applied, !fault.CommitFails?);
      OneMore(s, steps, Decrement(a));
      DecrementsAlone(s, t, a, order);
      LastStep(s, Next(t, Decrement(a)), a, order, fault);
      OneMore(s, steps + [Decrement(a)], commit);
      assert steps + [Decrement(a)] + [commit] == steps + [Decrement(a), commit];
    }
  }

  /** Any retry of a decrement whose reply was lost takes nothing more, and it is answered as a replay unless its
      own insert fails otherwise or its lookup does. */
  lemma RetryAfterLostCommit(db: Db, token: string, order: string, retry: Fault)
    requires token !in db.rows && db.stock > 0
    ensures var (after, reply) := ReserveOutcome(db, token, order, CommitFails(true));
            var (later, answer) := ReserveOutcome(after, token, order, retry);
            && reply == Unavailable && after.stock == db.stock - 1
            && later == after && (answer == Reserved <==> !retry.InsertFails? && !retry.LookupFails?)
  {
  }
}
