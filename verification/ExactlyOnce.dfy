/** Orders calling Inventory: what an attempt's outcome means, and what a 200 to the customer guarantees. */
module ExactlyOnce {
  import Idempotency
  import Checkout
  import CheckoutSafety
  import Reservations

  // ----- Classifying one attempt -----

  /** A field of the reply document; `Other` is a value of another type or null. */
  datatype Field = Missing | Other | Text(text: string)

  datatype Body = Oversized | NotJson | NotObject | Document(schema: Field, status: Field, nestedStatus: Field)

  datatype Upstream = BadUrl | Timeout | Transport | HttpError(code: nat) | Response(code: nat, body: Body)

  datatype Verdict = Verdict(status: nat, retryable: bool)

  predicate RetryableCode(code: nat) {
    code in {408, 425, 429} || code >= 500
  }

  /** `nullSchema`: whether an `Other` schema is JSON null, which counts as absent. */
  function ClassifyDocument(doc: Body, nullSchema: bool, expected: string): Verdict
    requires doc.Document?
  {
    if expected != "v1" && expected != "v2" then Verdict(502, false)
    else
      var valid := (if expected == "v1" then doc.status else doc.nestedStatus) == Text("reserved");
      var present := doc.schema.Text? || (doc.schema.Other? && !nullSchema);
      var mismatch := present && doc.schema != Text(expected);
      if mismatch || !valid then Verdict(502, false) else Verdict(200, false)
  }

  /** `_attempt_inventory_result`. */
  function Classify(upstream: Upstream, nullSchema: bool, expected: string): Verdict {
    match upstream
    case BadUrl => Verdict(503, false)
    case Timeout => Verdict(503, true)
    case Transport => Verdict(503, false)
    case HttpError(code) => Verdict(503, RetryableCode(code))
    case Response(code, body) =>
      if code != 200 then if 200 <= code < 300 then Verdict(502, false) else Verdict(503, RetryableCode(code))
      else if !body.Document? then Verdict(502, false)
      else ClassifyDocument(body, nullSchema, expected)
  }

  /** What the retry loop makes of a verdict. */
  function OutcomeOf(v: Verdict): Checkout.Outcome {
    if v.status == 200 then Checkout.Success else if v.retryable then Checkout.Again else Checkout.Fatal(v.status)
  }

  /** The reply of Inventory to a reservation. */
  function Rendered(reply: Reservations.Reply, contractFault: bool, responseSchema: string): Upstream {
    match reply
    case Reserved =>
      Response(200, if contractFault then Document(Missing, Missing, Missing)
                    else if responseSchema == "v2" then Document(Text("v2"), Missing, Text("reserved"))
                    else Document(Text("v1"), Text("reserved"), Missing))
    case Unauthorized => HttpError(401)
    case OutOfStock => HttpError(409)
    case Conflict => HttpError(409)
    case Unavailable => HttpError(503)
    case Busy => HttpError(503)
  }

  /** Only a timeout and the statuses 408, 425, 429 and 500 upwards are tried again, and they count as 503;
      success is exactly a 200 whose document says `reserved` where the expected schema puts it, under that
      schema's label or none. */
  lemma ClassifyMeans(upstream: Upstream, nullSchema: bool, expected: string)
    ensures var v := Classify(upstream, nullSchema, expected);
            && v.status in {200, 502, 503} && (v.retryable ==> v.status == 503)
            && (v.status == 503 <==> !upstream.Response? || !(200 <= upstream.code < 300))
            && (v.retryable <==> upstream.Timeout?
                                 || ((upstream.HttpError? || (upstream.Response? && !(200 <= upstream.code < 300)))
                                     && RetryableCode(upstream.code)))
            && (v.status == 200 <==>
                && upstream.Response? && upstream.code == 200 && upstream.body.Document?
                && (upstream.body.schema == Text(expected) || upstream.body.schema.Missing?
                    || (upstream.body.schema.Other? && nullSchema))
                && ((expected == "v1" && upstream.body.status == Text("reserved"))
                    || (expected == "v2" && upstream.body.nestedStatus == Text("reserved"))))
  {
  }

  /** Orders takes a reply of Inventory for a success exactly when the reservation was made, under the schema
      Orders expects and without the contract fault; it tries again exactly after an unavailable or busy Inventory. */
  lemma SuccessIffReserved(reply: Reservations.Reply, contractFault: bool, responseSchema: string, nullSchema: bool,
          expected: string)
    ensures var verdict := Classify(Rendered(reply, contractFault, responseSchema), nullSchema, expected);
            OutcomeOf(verdict) == Checkout.Success
            <==> && reply == Reservations.Reserved && !contractFault
                 && expected == if responseSchema == "v2" then "v2" else "v1"
    ensures var verdict := Classify(Rendered(reply, contractFault, responseSchema), nullSchema, expected);
            && (OutcomeOf(verdict) == Checkout.Again <==> reply in {Reservations.Unavailable, Reservations.Busy})
            && (verdict.status == 503 <==> reply != Reservations.Reserved)
  {
    assert Text("v1") != Text("v2") by {
      assert "v1"[1] != "v2"[1];
    }
  }

  /** The last verdict decides what the customer gets, and only a retryable one below the limit is not the last. */
  lemma LastVerdictDecides(c: Checkout.Local, upstream: Upstream, nullSchema: bool, expected: string)
    requires c.pc.InCall?
    ensures var v := Classify(upstream, nullSchema, expected);
            var c' := Checkout.Returned(c, OutcomeOf(v));
            && c'.status == v.status
            && (c'.pc.Ready? <==> v.retryable && c.attempts < c.limit)
            && (c'.pc.Succeeded? <==> v.status == 200)
            && (c'.pc == Checkout.Leaving(true) <==> v.status != 200 && !(v.retryable && c.attempts < c.limit))
  {
    ClassifyMeans(upstream, nullSchema, expected);
  }

  // ----- Both services -----

  /** `calls` is the Inventory attempt that each checkout is waiting for, or last waited for. */
  datatype World = World(orders: Checkout.State, shop: Reservations.Shop, calls: map<nat, nat>)

  datatype Step =
    | InOrders(step: Checkout.Step)
    | InShop(work: Reservations.Step)
    | Call(t: nat, a: nat)
    | Answered(t: nat, contractFault: bool, responseSchema: string, nullSchema: bool, expected: string)
    | NoAnswer(t: nat, upstream: Upstream, nullSchema: bool, expected: string)
    | Crash(t: nat)

  predicate InCall(w: World, t: nat) {
    Checkout.AtPc(w.orders, t, Checkout.InCall)
  }

  /** A timed-out attempt is only forgotten: its attempt in Inventory goes on, and may still commit. */
  function Next(w: World, step: Step): World {
    match step
    case InOrders(own) =>
      if own.AttemptStep? || own.ReturnStep? || own.RaiseStep? then w else w.(orders := Checkout.Next(w.orders, own))
    case InShop(work) => if work.Arrive? then w else w.(shop := Reservations.Next(w.shop, work))
    case Call(t, a) =>
      if Checkout.AtPc(w.orders, t, Checkout.Ready) && a !in w.shop.attempts then
        World(Checkout.Next(w.orders, Checkout.AttemptStep(t)),
              Reservations.Next(w.shop, Reservations.Arrive(a, w.orders.locals[t].order)), w.calls[t := a])
      else w
    case Answered(t, contractFault, responseSchema, nullSchema, expected) =>
      if InCall(w, t) && t in w.calls && w.calls[t] in w.shop.attempts
          && w.shop.attempts[w.calls[t]].stage.Replied? then
        var reply := w.shop.attempts[w.calls[t]].stage.reply;
        var outcome := OutcomeOf(Classify(Rendered(reply, contractFault, responseSchema), nullSchema, expected));
        w.(orders := Checkout.Next(w.orders, Checkout.ReturnStep(t, outcome)))
      else w
    case NoAnswer(t, upstream, nullSchema, expected) =>
      var outcome := OutcomeOf(Classify(upstream, nullSchema, expected));
      if InCall(w, t) && outcome != Checkout.Success
          then w.(orders := Checkout.Next(w.orders, Checkout.ReturnStep(t, outcome))) else w
    case Crash(t) => w.(orders := Checkout.Next(w.orders, Checkout.RaiseStep(t)))
  }

  function Exec(w: World, steps: seq<Step>): World
    decreases |steps|
  {
    if steps == [] then w else Exec(Next(w, steps[0]), steps[1..])
  }

  ghost predicate Init(w: World) {
    Checkout.Init(w.orders) && Reservations.Init(w.shop) && w.calls == map[]
  }

  // ----- Invariant -----

  /** Every success that Orders knows of has its row. */
  ghost predicate Backed(orders: Checkout.State, shop: Reservations.Shop) {
    && (forall t | t in orders.locals && orders.locals[t].status == 200 ::
        Reservations.Held(shop, orders.locals[t].order))
    && (forall x | x in orders.book.slots && x.entry.completed :: Reservations.Held(shop, x.entry.order))
  }

  ghost predicate Linked(w: World) {
    forall t | t in w.calls ::
      && t in w.orders.locals && w.calls[t] in w.shop.attempts
      && w.shop.attempts[w.calls[t]].order == w.orders.locals[t].order
  }

  ghost predicate Inv(w: World) {
    CheckoutSafety.Inv(w.orders) && Reservations.Inv(w.shop) && Backed(w.orders, w.shop) && Linked(w)
  }

  /** A replayed 200 is some stored success of the same order. */
  lemma ReplayIsStored(orders: Checkout.State, t: nat)
    requires CheckoutSafety.Inv(orders)
            && (Checkout.AtPc(orders, t, Checkout.Entered) || Checkout.AtPc(orders, t, Checkout.Blocked))
    ensures var (book', c') := Checkout.Look(orders.book, t, orders.locals[t], orders.now, orders.capacity);
            && c'.order == orders.locals[t].order
            && (c'.status == 200 ==> exists x | x in orders.book.slots ::
                x.entry.completed && x.entry.order == c'.order)
            && (forall x | x in book'.slots && x.entry.completed :: x in orders.book.slots)
  {
    var c := orders.locals[t];
    var looked := if c.pc.Entered? then orders.book.(slots := Idempotency.Pruned(orders.book.slots, orders.now))
        else orders.book;
    CheckoutSafety.PruneKeeps(orders.book.slots, orders.now);
    CheckoutSafety.LookEffect(orders.book, t, c, orders.now, orders.capacity);
    TurnReplays(looked, t, c, orders.now, orders.capacity);
    KeptCompleted(orders.book.slots, t, Checkout.Look(orders.book, t, c, orders.now, orders.capacity).1,
                  Checkout.Look(orders.book, t, c, orders.now, orders.capacity).0.slots);
  }

  lemma TurnReplays(book: Checkout.Book, t: nat, c: Checkout.Local, now: int, capacity: nat)
    requires c.status != 200
    ensures var c' := Checkout.Turn(book, t, c, now, capacity).1;
            c'.status == 200 ==> exists x | x in book.slots :: x.entry.completed && x.entry.order == c'.order
  {
    var i := Idempotency.Index(book.slots, c.key);
    if i < |book.slots| {
      assert book.slots[i] in book.slots;
    }
  }

  lemma KeptCompleted(slots: Idempotency.Table, t: nat, c': Checkout.Local, slots': Idempotency.Table)
    requires CheckoutSafety.Effect(slots, t, c', slots')
    ensures forall x | x in slots' && x.entry.completed :: x in slots
  {
    if c'.pc.Ready? {
      assert slots' == slots'[..|slots'| - 1] + [Checkout.OwnSlot(t, c')];
    }
  }

  /** A step of Orders creates no success of its own. */
  lemma OrdersStepBacked(orders: Checkout.State, shop: Reservations.Shop, step: Checkout.Step)
    requires CheckoutSafety.Inv(orders) && Backed(orders, shop)
    requires step.ReturnStep? ==> step.outcome != Checkout.Success
                                  || (step.t in orders.locals ==> Reservations.Held(shop, orders.locals[step.t].order))
    ensures Backed(Checkout.Next(orders, step), shop)
  {
    match step
    case LookStep(t) => LookBacked(orders, shop, t);
    case StoreStep(t) => StoreBacked(orders, shop, t);
    case FinishStep(t) => FinishBacked(orders, shop, t);
    case _ => PlainBacked(orders, shop, step);
  }

  /** Steps that leave the table alone. */
  lemma PlainBacked(orders: Checkout.State, shop: Reservations.Shop, step: Checkout.Step)
    requires Backed(orders, shop) && !step.LookStep? && !step.StoreStep? && !step.FinishStep?
    requires step.ReturnStep? ==> step.outcome != Checkout.Success
                                  || (step.t in orders.locals ==> Reservations.Held(shop, orders.locals[step.t].order))
    ensures Backed(Checkout.Next(orders, step), shop)
  {
    var orders' := Checkout.Next(orders, step);
    assert orders'.book.slots == orders.book.slots;
    assert orders'.locals == orders.locals || orders'.locals == orders.locals[step.t := orders'.locals[step.t]];
  }

  lemma LookBacked(orders: Checkout.State, shop: Reservations.Shop, t: nat)
    requires CheckoutSafety.Inv(orders) && Backed(orders, shop)
    ensures Backed(Checkout.Next(orders, Checkout.LookStep(t)), shop)
  {
    if Checkout.AtPc(orders, t, Checkout.Entered) || Checkout.AtPc(orders, t, Checkout.Blocked) {
      ReplayIsStored(orders, t);
      CheckoutSafety.LookShape(orders, t);
    }
  }

  lemma StoreBacked(orders: Checkout.State, shop: Reservations.Shop, t: nat)
    requires CheckoutSafety.Inv(orders) && Backed(orders, shop)
    ensures Backed(Checkout.Next(orders, Checkout.StoreStep(t)), shop)
  {
    if Checkout.AtPc(orders, t, Checkout.Succeeded) {
      CheckoutSafety.StoreMembers(orders, t);
      CheckoutSafety.StoreShape(orders, t);
    }
  }

  lemma FinishBacked(orders: Checkout.State, shop: Reservations.Shop, t: nat)
    requires CheckoutSafety.Inv(orders) && Backed(orders, shop)
    ensures Backed(Checkout.Next(orders, Checkout.FinishStep(t)), shop)
  {
    if Checkout.AtPc(orders, t, Checkout.Leaving(true)) {
      forall x ensures x in Checkout.Next(orders, Checkout.FinishStep(t)).book.slots ==> x in orders.book.slots {
        CheckoutSafety.FailedOwnerRemovesItsOwn(orders, t, x);
      }
    }
  }

  /** Orders keep their customers. */
  lemma OrderStays(orders: Checkout.State, step: Checkout.Step, t: nat)
    requires CheckoutSafety.Inv(orders) && t in orders.locals
    ensures t in Checkout.Next(orders, step).locals
            && Checkout.Next(orders, step).locals[t].order == orders.locals[t].order
  {
    if step == Checkout.LookStep(t)
        && (Checkout.AtPc(orders, t, Checkout.Entered) || Checkout.AtPc(orders, t, Checkout.Blocked)) {
      ReplayIsStored(orders, t);
    }
  }

  lemma AttemptStays(shop: Reservations.Shop, step: Reservations.Step, a: nat)
    requires a in shop.attempts
    ensures var shop' := Reservations.Next(shop, step);
            a in shop'.attempts && shop'.attempts[a].order == shop.attempts[a].order
  {
  }

  lemma ShopStepInv(w: World, work: Reservations.Step)
    requires Inv(w)
    ensures Inv(w.(shop := Reservations.Next(w.shop, work)))
  {
    var shop' := Reservations.Next(w.shop, work);
    Reservations.NextInv(w.shop, work);
    forall order | Reservations.Held(w.shop, order) ensures Reservations.Held(shop', order) {
      Reservations.HeldIsStable(w.shop, work, order);
    }
    forall t | t in w.calls ensures w.calls[t] in shop'.attempts
        && shop'.attempts[w.calls[t]].order == w.orders.locals[t].order {
      AttemptStays(w.shop, work, w.calls[t]);
    }
  }

  lemma OrdersStepInv(w: World, step: Checkout.Step)
    requires Inv(w)
    requires step.ReturnStep? ==> step.outcome != Checkout.Success
                                  || (step.t in w.orders.locals ==> Reservations.Held(w.shop,
                                      w.orders.locals[step.t].order))
    ensures Inv(w.(orders := Checkout.Next(w.orders, step)))
  {
    CheckoutSafety.NextInv(w.orders, step);
    OrdersStepBacked(w.orders, w.shop, step);
    forall t | t in w.calls ensures var orders' := Checkout.Next(w.orders, step);
                                    t in orders'.locals && orders'.locals[t].order == w.orders.locals[t].order {
      OrderStays(w.orders, step, t);
    }
  }

  lemma CallInv(w: World, t: nat, a: nat)
    requires Inv(w)
    ensures Inv(Next(w, Call(t, a)))
  {
    if Checkout.AtPc(w.orders, t, Checkout.Ready) && a !in w.shop.attempts {
      var arrived := w.(shop := Reservations.Next(w.shop, Reservations.Arrive(a, w.orders.locals[t].order)));
      ShopStepInv(w, Reservations.Arrive(a, w.orders.locals[t].order));
      var linked := arrived.(calls := w.calls[t := a]);
      assert Inv(linked);
      OrdersStepInv(linked, Checkout.AttemptStep(t));
    }
  }

  lemma AnsweredInv(w: World, step: Step)
    requires Inv(w) && step.Answered?
    ensures Inv(Next(w, step))
  {
    var t := step.t;
    if InCall(w, t) && t in w.calls && w.calls[t] in w.shop.attempts && w.shop.attempts[w.calls[t]].stage.Replied? {
      var reply := w.shop.attempts[w.calls[t]].stage.reply;
      SuccessIffReserved(reply, step.contractFault, step.responseSchema, step.nullSchema, step.expected);
      assert Reservations.AttemptOk(w.shop, w.calls[t]);
      var outcome := OutcomeOf(Classify(Rendered(reply, step.contractFault, step.responseSchema), step.nullSchema,
          step.expected));
      OrdersStepInv(w, Checkout.ReturnStep(t, outcome));
    }
  }

  lemma NoAnswerInv(w: World, step: Step)
    requires Inv(w) && step.NoAnswer?
    ensures Inv(Next(w, step))
  {
    var outcome := OutcomeOf(Classify(step.upstream, step.nullSchema, step.expected));
    if outcome != Checkout.Success {
      OrdersStepInv(w, Checkout.ReturnStep(step.t, outcome));
    }
  }

  lemma OwnStepInv(w: World, own: Checkout.Step)
    requires Inv(w)
    ensures Inv(Next(w, InOrders(own)))
  {
    if !own.ReturnStep? {
      OrdersStepInv(w, own);
    }
  }

  lemma CrashInv(w: World, t: nat)
    requires Inv(w)
    ensures Inv(Next(w, Crash(t)))
  {
    OrdersStepInv(w, Checkout.RaiseStep(t));
  }

  lemma InitialStays(w: World, step: Step)
    ensures Next(w, step).shop.initial == w.shop.initial
  {
    match step
    case InShop(work) => Reservations.InitialStays(w.shop, work);
    case Call(t, a) =>
      if t in w.orders.locals { Reservations.InitialStays(w.shop, Reservations.Arrive(a, w.orders.locals[t].order)); }
    case _ =>
  }

  lemma NextInv(w: World, step: Step)
    requires Inv(w)
    ensures Inv(Next(w, step)) && Next(w, step).shop.initial == w.shop.initial
  {
    InitialStays(w, step);
    match step
    case InOrders(own) => OwnStepInv(w, own);
    case InShop(work) => ShopStepInv(w, work);
    case Call(t, a) => CallInv(w, t, a);
    case Answered(_, _, _, _, _) => AnsweredInv(w, step);
    case NoAnswer(_, _, _, _) => NoAnswerInv(w, step);
    case Crash(t) => CrashInv(w, t);
  }

  lemma {:induction false} ExecInv(w: World, steps: seq<Step>)
    requires Inv(w)
    ensures Inv(Exec(w, steps)) && Exec(w, steps).shop.initial == w.shop.initial
    decreases |steps|
  {
    if steps != [] {
      NextInv(w, steps[0]);
      ExecInv(Next(w, steps[0]), steps[1..]);
    }
  }

  /** For every schedule of both services, with lost and late replies, retries, concurrent duplicates, replays
      and crashes: a checkout answered 200 has its order's row committed and cost one widget, no order costs two,
      and the stock that is left plus the rows make up the initial stock. */
  lemma PaidOnce(w0: World, steps: seq<Step>)
    requires Init(w0)
    ensures var w := Exec(w0, steps);
            && (forall t | t in w.orders.locals && w.orders.locals[t].status == 200 ::
                  var order := w.orders.locals[t].order;
                  Reservations.Held(w.shop, order) && multiset(w.shop.sold)[order] == 1)
            && (forall order :: multiset(w.shop.sold)[order] <= 1)
            && w.shop.db.stock >= 0 && w.shop.db.stock + |w.shop.db.rows| == w0.shop.db.stock
            && |w.shop.sold| == w0.shop.db.stock - w.shop.db.stock
  {
    ExecInv(w0, steps);
    var w := Exec(w0, steps);
    forall order ensures multiset(w.shop.sold)[order] <= 1 {
      if order in w.shop.sold {
        Reservations.DistinctOnce(w.shop.sold, order);
      }
    }
    forall t | t in w.orders.locals && w.orders.locals[t].status == 200
      ensures multiset(w.shop.sold)[w.orders.locals[t].order] == 1
    {
      Reservations.HeldIsSoldOnce(w.shop, w.orders.locals[t].order);
    }
  }
}
