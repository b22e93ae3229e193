/** What the two services get done together when messages arrive, and when the first reply does not. */
module Sales {
  import opened ExactlyOnce
  import Checkout
  import CheckoutSafety
  import Reservations

  // ----- A sale that goes through -----

  lemma {:induction false} OneMore(w: World, steps: seq<Step>, step: Step)
    ensures Exec(w, steps + [step]) == Next(Exec(w, steps), step)
    decreases |steps|
  {
    if steps == [] {
      assert Exec(Next(w, step), []) == Next(w, step);
      assert [] + [step] == [step];
    } else {
      assert (steps + [step])[1..] == steps[1..] + [step];
      OneMore(Next(w, steps[0]), steps[1..], step);
    }
  }

  /** Steps of Orders alone. */
  lemma OrdersGoOn(w0: World, steps: seq<Step>, orders: Checkout.State, shop: Reservations.Shop, calls: map<nat, nat>,
                   own: Checkout.Step)
    requires Exec(w0, steps) == World(orders, shop, calls)
    requires !own.AttemptStep? && !own.ReturnStep? && !own.RaiseStep?
    ensures Exec(w0, steps + [InOrders(own)]) == World(Checkout.Next(orders, own), shop, calls)
  {
    OneMore(w0, steps, InOrders(own));
  }

  lemma ShopGoesOn(w0: World, steps: seq<Step>, orders: Checkout.State, shop: Reservations.Shop, calls: map<nat, nat>,
                   work: Reservations.Step)
    requires Exec(w0, steps) == World(orders, shop, calls) && !work.Arrive?
    ensures Exec(w0, steps + [InShop(work)]) == World(orders, Reservations.Next(shop, work), calls)
  {
    OneMore(w0, steps, InShop(work));
  }

  lemma CallGoesOut(w0: World, steps: seq<Step>, orders: Checkout.State, shop: Reservations.Shop, calls: map<nat, nat>,
                    t: nat, a: nat)
    requires Exec(w0, steps) == World(orders, shop, calls)
    requires Checkout.AtPc(orders, t, Checkout.Ready) && a !in shop.attempts
    ensures Exec(w0, steps + [Call(t, a)])
         == World(Checkout.Next(orders, Checkout.AttemptStep(t)),
                  Reservations.Next(shop, Reservations.Arrive(a, orders.locals[t].order)), calls[t := a])
  {
    OneMore(w0, steps, Call(t, a));
  }

  lemma ReplyComesBack(w0: World, steps: seq<Step>, orders: Checkout.State, shop: Reservations.Shop,
                       calls: map<nat, nat>, t: nat, a: nat)
    requires Exec(w0, steps) == World(orders, shop, calls) && t in calls && calls[t] == a
    requires Checkout.AtPc(orders, t, Checkout.InCall)
    requires a in shop.attempts && shop.attempts[a].stage == Reservations.Replied(Reservations.Reserved)
    ensures Exec(w0, steps + [Answered(t, false, "v1", false, "v1")])
         == World(Checkout.Next(orders, Checkout.ReturnStep(t, Checkout.Success)), shop, calls)
  {
    OneMore(w0, steps, Answered(t, false, "v1", false, "v1"));
    SuccessIffReserved(Reservations.Reserved, false, "v1", false, "v1");
  }

  /** The checkout finds no entry under its key, and room for its own. */
  ghost predicate MayEnter(orders: Checkout.State, key: string) {
    && (forall y | Checkout.Shown(orders.book.slots, true, orders.now, y) :: y.key != key)
    && Checkout.Room(orders.book.slots, true, orders.now, orders.capacity)
  }

  lemma Enters(orders: Checkout.State, t: nat, key: string, order: string, limit: nat, deadline: int)
    requires CheckoutSafety.Inv(orders) && t !in orders.locals && limit >= 1 && MayEnter(orders, key)
    ensures var arrived := Checkout.Next(orders, Checkout.Arrive(t, key, order, limit, deadline));
            var looked := Checkout.Next(arrived, Checkout.LookStep(t));
            && Checkout.AtPc(looked, t, Checkout.Ready) && looked.locals[t].order == order && looked.done == orders.done
            && looked.locals[t].attempts == 0 && looked.locals[t].limit == limit
  {
    var arrived := Checkout.Next(orders, Checkout.Arrive(t, key, order, limit, deadline));
    var c := arrived.locals[t];
    CheckoutSafety.NextInv(orders, Checkout.Arrive(t, key, order, limit, deadline));
    CheckoutSafety.LookAnswersExactly(arrived, t);
    Checkout.FirstLook(orders, arrived, t, c,
                       Checkout.Look(arrived.book, t, c, arrived.now, arrived.capacity).1);
  }

  lemma Concludes(orders: Checkout.State, t: nat)
    requires Checkout.AtPc(orders, t, Checkout.InCall)
    ensures var stored := Checkout.Next(Checkout.Next(orders, Checkout.ReturnStep(t, Checkout.Success)),
                Checkout.StoreStep(t));
            var finished := Checkout.Next(stored, Checkout.FinishStep(t));
            && Checkout.AtPc(finished, t, Checkout.Done) && finished.locals[t].status == 200
            && finished.done == orders.done + [200]
  {
  }

  /** Inventory's part of the sale, and the reply. */
  lemma Reserves(shop: Reservations.Shop, a: nat, order: string)
    requires Reservations.Alone(shop) && a !in shop.attempts && shop.db.stock > 0
    requires Reservations.Token(shop.ref, order) !in shop.db.rows
    ensures var arrived := Reservations.Next(shop, Reservations.Arrive(a, order));
            var inserted := Reservations.Next(Reservations.Next(arrived, Reservations.Admit(a)),
                Reservations.Insert(a));
            var committed := Reservations.Next(Reservations.Next(inserted, Reservations.Decrement(a)),
                Reservations.Commit(a, true, true));
            && committed.db == Reservations.Db(shop.db.stock - 1,
                                               shop.db.rows[Reservations.Token(shop.ref, order) := order])
            && a in committed.attempts
            && committed.attempts[a].stage == Reservations.Replied(Reservations.Reserved)
  {
    Reservations.ReserveIsARun(shop, a, order, Reservations.NoFault);
    Reservations.SaleUnfolds(shop, a, order);
  }

  function SaleSteps(t: nat, a: nat, key: string, order: string, limit: nat, deadline: int): seq<Step> {
    [InOrders(Checkout.Arrive(t, key, order, limit, deadline))] + [InOrders(Checkout.LookStep(t))] + [Call(t, a)]
    + [InShop(Reservations.Admit(a))] + [InShop(Reservations.Insert(a))] + [InShop(Reservations.Decrement(a))]
    + [InShop(Reservations.Commit(a, true, true))] + [Answered(t, false, "v1", false, "v1")]
    + [InOrders(Checkout.StoreStep(t))] + [InOrders(Checkout.FinishStep(t))]
  }

  /** From any reachable state with no transaction open: a checkout of an order not yet sold, whose key is unknown and
      finds room, is answered 200 when every message is delivered, and Inventory is one widget and one row on. */
  lemma SaleGoesThrough(w: World, t: nat, a: nat, key: string, order: string, limit: nat, deadline: int)
    requires Inv(w) && t !in w.orders.locals && limit >= 1 && MayEnter(w.orders, key)
    requires Reservations.Alone(w.shop) && a !in w.shop.attempts && w.shop.db.stock > 0
    requires Reservations.Token(w.shop.ref, order) !in w.shop.db.rows
    ensures var w' := Exec(w, SaleSteps(t, a, key, order, limit, deadline));
            && Checkout.AtPc(w'.orders, t, Checkout.Done) && w'.orders.locals[t].status == 200
            && w'.orders.done == w.orders.done + [200]
            && w'.shop.db == Reservations.Db(w.shop.db.stock - 1,
                                             w.shop.db.rows[Reservations.Token(w.shop.ref, order) := order])
  {
    Enters(w.orders, t, key, order, limit, deadline);
    Reserves(w.shop, a, order);
    var arrive := Checkout.Arrive(t, key, order, limit, deadline);
    var ready := Checkout.Next(Checkout.Next(w.orders, arrive), Checkout.LookStep(t));
    OrdersGoOn(w, [], w.orders, w.shop, w.calls, arrive);
    OrdersGoOn(w, [InOrders(arrive)], Checkout.Next(w.orders, arrive), w.shop, w.calls, Checkout.LookStep(t));
    var begun := [InOrders(arrive)] + [InOrders(Checkout.LookStep(t))];
    assert [] + [InOrders(arrive)] == [InOrders(arrive)];
    SoldFrom(w, begun, ready, w.shop, w.calls, t, a, order);
  }

  /** The transaction of an attempt that has arrived. */
  lemma ShopSells(w0: World, steps: seq<Step>, orders: Checkout.State, arrived: Reservations.Shop, calls: map<nat, nat>,
                  a: nat)
    requires Exec(w0, steps) == World(orders, arrived, calls)
    ensures var inserted := Reservations.Next(Reservations.Next(arrived, Reservations.Admit(a)),
                Reservations.Insert(a));
            var committed := Reservations.Next(Reservations.Next(inserted, Reservations.Decrement(a)),
                Reservations.Commit(a, true, true));
            Exec(w0, steps + [InShop(Reservations.Admit(a))] + [InShop(Reservations.Insert(a))]
                    + [InShop(Reservations.Decrement(a))] + [InShop(Reservations.Commit(a, true, true))])
            == World(orders, committed, calls)
  {
    var admitted := Reservations.Next(arrived, Reservations.Admit(a));
    var inserted := Reservations.Next(admitted, Reservations.Insert(a));
    ShopGoesOn(w0, steps, orders, arrived, calls, Reservations.Admit(a));
    var s2 := steps + [InShop(Reservations.Admit(a))];
    ShopGoesOn(w0, s2, orders, admitted, calls, Reservations.Insert(a));
    var s3 := s2 + [InShop(Reservations.Insert(a))];
    ShopGoesOn(w0, s3, orders, inserted, calls, Reservations.Decrement(a));
    ShopGoesOn(w0, s3 + [InShop(Reservations.Decrement(a))], orders,
               Reservations.Next(inserted, Reservations.Decrement(a)), calls, Reservations.Commit(a, true, true));
  }

  /** The same once the checkout owns its key. */
  lemma SoldFrom(w0: World, begun: seq<Step>, ready: Checkout.State, shop: Reservations.Shop, calls: map<nat, nat>,
                 t: nat, a: nat, order: string)
    requires Exec(w0, begun) == World(ready, shop, calls)
    requires Checkout.AtPc(ready, t, Checkout.Ready) && ready.locals[t].order == order
    requires Reservations.Alone(shop) && a !in shop.attempts && shop.db.stock > 0
    requires Reservations.Token(shop.ref, order) !in shop.db.rows
    ensures var w' := Exec(w0, begun + [Call(t, a)]
                + [InShop(Reservations.Admit(a))] + [InShop(Reservations.Insert(a))]
                + [InShop(Reservations.Decrement(a))] + [InShop(Reservations.Commit(a, true, true))]
                + [Answered(t, false, "v1", false, "v1")]
                + [InOrders(Checkout.StoreStep(t))] + [InOrders(Checkout.FinishStep(t))]);
            && Checkout.AtPc(w'.orders, t, Checkout.Done) && w'.orders.locals[t].status == 200
            && w'.orders.done == ready.done + [200]
            && w'.shop.db == Reservations.Db(shop.db.stock - 1,
                                             shop.db.rows[Reservations.Token(shop.ref, order) := order])
  {
    var called := Checkout.Next(ready, Checkout.AttemptStep(t));
    var arrived := Reservations.Next(shop, Reservations.Arrive(a, order));
    Reserves(shop, a, order);
    CallGoesOut(w0, begun, ready, shop, calls, t, a);
    ShopSells(w0, begun + [Call(t, a)], called, arrived, calls[t := a], a);
    var inserted := Reservations.Next(Reservations.Next(arrived, Reservations.Admit(a)), Reservations.Insert(a));
    AnsweredFrom(w0, begun + [Call(t, a)] + [InShop(Reservations.Admit(a))] + [InShop(Reservations.Insert(a))]
                     + [InShop(Reservations.Decrement(a))] + [InShop(Reservations.Commit(a, true, true))], called,
                 Reservations.Next(Reservations.Next(inserted, Reservations.Decrement(a)),
                                   Reservations.Commit(a, true, true)), calls[t := a], t, a);
  }

  /** And once Inventory has replied. */
  lemma AnsweredFrom(w0: World, steps: seq<Step>, called: Checkout.State, shop: Reservations.Shop,
                     calls: map<nat, nat>, t: nat, a: nat)
    requires Exec(w0, steps) == World(called, shop, calls) && t in calls && calls[t] == a
    requires Checkout.AtPc(called, t, Checkout.InCall)
    requires a in shop.attempts && shop.attempts[a].stage == Reservations.Replied(Reservations.Reserved)
    ensures var w' := Exec(w0, steps + [Answered(t, false, "v1", false, "v1")]
                + [InOrders(Checkout.StoreStep(t))] + [InOrders(Checkout.FinishStep(t))]);
            && Checkout.AtPc(w'.orders, t, Checkout.Done) && w'.orders.locals[t].status == 200
            && w'.orders.done == called.done + [200] && w'.shop == shop
  {
    var returned := Checkout.Next(called, Checkout.ReturnStep(t, Checkout.Success));
    ReplyComesBack(w0, steps, called, shop, calls, t, a);
    var answered := steps + [Answered(t, false, "v1", false, "v1")];
    OrdersGoOn(w0, answered, returned, shop, calls, Checkout.StoreStep(t));
    OrdersGoOn(w0, answered + [InOrders(Checkout.StoreStep(t))], Checkout.Next(returned, Checkout.StoreStep(t)),
               shop, calls, Checkout.FinishStep(t));
    Concludes(called, t);
  }

  // ----- A sale whose reply is lost -----

  lemma TimesOut(w0: World, steps: seq<Step>, orders: Checkout.State, shop: Reservations.Shop, calls: map<nat, nat>,
                 t: nat)
    requires Exec(w0, steps) == World(orders, shop, calls) && Checkout.AtPc(orders, t, Checkout.InCall)
    ensures Exec(w0, steps + [NoAnswer(t, Timeout, false, "v1")])
         == World(Checkout.Next(orders, Checkout.ReturnStep(t, Checkout.Again)), shop, calls)
  {
    OneMore(w0, steps, NoAnswer(t, Timeout, false, "v1"));
  }

  lemma TriesAgain(orders: Checkout.State, t: nat)
    requires Checkout.AtPc(orders, t, Checkout.Ready)
    requires orders.locals[t].attempts == 0 && orders.locals[t].limit >= 2
    ensures var called := Checkout.Next(orders, Checkout.AttemptStep(t));
            var again := Checkout.Next(called, Checkout.ReturnStep(t, Checkout.Again));
            && Checkout.AtPc(called, t, Checkout.InCall) && Checkout.AtPc(again, t, Checkout.Ready)
            && again.locals[t].order == orders.locals[t].order && again.done == orders.done
  {
  }

  /** The second attempt finds the row of the first. */
  lemma Replays(shop: Reservations.Shop, b: nat, order: string)
    requires Reservations.Alone(shop) && b !in shop.attempts && Reservations.Held(shop, order)
    ensures var arrived := Reservations.Next(shop, Reservations.Arrive(b, order));
            var inserted := Reservations.Next(Reservations.Next(arrived, Reservations.Admit(b)),
                Reservations.Insert(b));
            var replied := Reservations.Next(inserted, Reservations.Lookup(b, true));
            && replied.db == shop.db && b in replied.attempts
            && replied.attempts[b].stage == Reservations.Replied(Reservations.Reserved)
  {
    Reservations.ReserveIsARun(shop, b, order, Reservations.NoFault);
    Reservations.ReplayUnfolds(shop, b, order);
  }

  /** From a checkout that owns its key and an order that has its row: the next attempt is answered, at no cost. */
  lemma ReplayedFrom(w0: World, steps: seq<Step>, ready: Checkout.State, shop: Reservations.Shop, calls: map<nat, nat>,
                     t: nat, b: nat, order: string)
    requires Exec(w0, steps) == World(ready, shop, calls)
    requires Checkout.AtPc(ready, t, Checkout.Ready) && ready.locals[t].order == order
    requires Reservations.Alone(shop) && b !in shop.attempts && Reservations.Held(shop, order)
    ensures var w' := Exec(w0, steps + [Call(t, b)]
                + [InShop(Reservations.Admit(b))] + [InShop(Reservations.Insert(b))]
                + [InShop(Reservations.Lookup(b, true))] + [Answered(t, false, "v1", false, "v1")]
                + [InOrders(Checkout.StoreStep(t))] + [InOrders(Checkout.FinishStep(t))]);
            && Checkout.AtPc(w'.orders, t, Checkout.Done) && w'.orders.locals[t].status == 200
            && w'.orders.done == ready.done + [200] && w'.shop.db == shop.db
  {
    var called := Checkout.Next(ready, Checkout.AttemptStep(t));
    var arrived := Reservations.Next(shop, Reservations.Arrive(b, order));
    var admitted := Reservations.Next(arrived, Reservations.Admit(b));
    var inserted := Reservations.Next(admitted, Reservations.Insert(b));
    Replays(shop, b, order);
    CallGoesOut(w0, steps, ready, shop, calls, t, b);
    var s1 := steps + [Call(t, b)];
    ShopGoesOn(w0, s1, called, arrived, calls[t := b], Reservations.Admit(b));
    var s2 := s1 + [InShop(Reservations.Admit(b))];
    ShopGoesOn(w0, s2, called, admitted, calls[t := b], Reservations.Insert(b));
    var s3 := s2 + [InShop(Reservations.Insert(b))];
    ShopGoesOn(w0, s3, called, inserted, calls[t := b], Reservations.Lookup(b, true));
    AnsweredFrom(w0, s3 + [InShop(Reservations.Lookup(b, true))], called,
                 Reservations.Next(inserted, Reservations.Lookup(b, true)), calls[t := b], t, b);
  }

  /** A committed sale stands in the rows and holds no lock. */
  lemma SoldShop(shop: Reservations.Shop, a: nat, order: string)
    requires Reservations.Alone(shop) && a !in shop.attempts && shop.db.stock > 0
    requires Reservations.Token(shop.ref, order) !in shop.db.rows
    ensures var arrived := Reservations.Next(shop, Reservations.Arrive(a, order));
            var inserted := Reservations.Next(Reservations.Next(arrived, Reservations.Admit(a)),
                Reservations.Insert(a));
            var committed := Reservations.Next(Reservations.Next(inserted, Reservations.Decrement(a)),
                Reservations.Commit(a, true, true));
            && Reservations.Alone(committed) && Reservations.Held(committed, order)
            && committed.attempts.Keys == shop.attempts.Keys + {a}
            && committed.db == Reservations.Db(shop.db.stock - 1,
                                               shop.db.rows[Reservations.Token(shop.ref, order) := order])
  {
    Reservations.ReserveIsARun(shop, a, order, Reservations.NoFault);
    Reservations.SaleUnfolds(shop, a, order);
  }

  /** When the reply to a committed sale is lost and the limit allows another attempt, that attempt finds the row and
      the customer is answered 200, for one widget. */
  lemma LostReplyIsMadeUp(w: World, t: nat, a: nat, b: nat, key: string, order: string, limit: nat, deadline: int)
    requires Inv(w) && t !in w.orders.locals && limit >= 2 && MayEnter(w.orders, key)
    requires Reservations.Alone(w.shop) && a !in w.shop.attempts && b !in w.shop.attempts && a != b
    requires w.shop.db.stock > 0 && Reservations.Token(w.shop.ref, order) !in w.shop.db.rows
    ensures var w' := Exec(w, [InOrders(Checkout.Arrive(t, key, order, limit, deadline))]
                + [InOrders(Checkout.LookStep(t))] + [Call(t, a)]
                + [InShop(Reservations.Admit(a))] + [InShop(Reservations.Insert(a))]
                + [InShop(Reservations.Decrement(a))] + [InShop(Reservations.Commit(a, true, true))]
                + [NoAnswer(t, Timeout, false, "v1")] + [Call(t, b)]
                + [InShop(Reservations.Admit(b))] + [InShop(Reservations.Insert(b))]
                + [InShop(Reservations.Lookup(b, true))] + [Answered(t, false, "v1", false, "v1")]
                + [InOrders(Checkout.StoreStep(t))] + [InOrders(Checkout.FinishStep(t))]);
            && Checkout.AtPc(w'.orders, t, Checkout.Done) && w'.orders.locals[t].status == 200
            && w'.orders.done == w.orders.done + [200]
            && w'.shop.db == Reservations.Db(w.shop.db.stock - 1,
                                             w.shop.db.rows[Reservations.Token(w.shop.ref, order) := order])
  {
    Enters(w.orders, t, key, order, limit, deadline);
    var arrive := Checkout.Arrive(t, key, order, limit, deadline);
    var ready := Checkout.Next(Checkout.Next(w.orders, arrive), Checkout.LookStep(t));
    OrdersGoOn(w, [], w.orders, w.shop, w.calls, arrive);
    OrdersGoOn(w, [InOrders(arrive)], Checkout.Next(w.orders, arrive), w.shop, w.calls, Checkout.LookStep(t));
    assert [] + [InOrders(arrive)] == [InOrders(arrive)];
    MadeUpFrom(w, [InOrders(arrive)] + [InOrders(Checkout.LookStep(t))], ready, w.shop, w.calls, t, a, b, order);
  }

  lemma MadeUpFrom(w0: World, begun: seq<Step>, ready: Checkout.State, shop: Reservations.Shop, calls: map<nat, nat>,
                   t: nat, a: nat, b: nat, order: string)
    requires Exec(w0, begun) == World(ready, shop, calls)
    requires Checkout.AtPc(ready, t, Checkout.Ready) && ready.locals[t].order == order
    requires ready.locals[t].attempts == 0 && ready.locals[t].limit >= 2
    requires Reservations.Alone(shop) && a !in shop.attempts && b !in shop.attempts && a != b && shop.db.stock > 0
    requires Reservations.Token(shop.ref, order) !in shop.db.rows
    ensures var w' := Exec(w0, begun + [Call(t, a)]
                + [InShop(Reservations.Admit(a))] + [InShop(Reservations.Insert(a))]
                + [InShop(Reservations.Decrement(a))] + [InShop(Reservations.Commit(a, true, true))]
                + [NoAnswer(t, Timeout, false, "v1")] + [Call(t, b)]
                + [InShop(Reservations.Admit(b))] + [InShop(Reservations.Insert(b))]
                + [InShop(Reservations.Lookup(b, true))] + [Answered(t, false, "v1", false, "v1")]
                + [InOrders(Checkout.StoreStep(t))] + [InOrders(Checkout.FinishStep(t))]);
            && Checkout.AtPc(w'.orders, t, Checkout.Done) && w'.orders.locals[t].status == 200
            && w'.orders.done == ready.done + [200]
            && w'.shop.db == Reservations.Db(shop.db.stock - 1,
                                             shop.db.rows[Reservations.Token(shop.ref, order) := order])
  {
    var called := Checkout.Next(ready, Checkout.AttemptStep(t));
    var arrived := Reservations.Next(shop, Reservations.Arrive(a, order));
    var inserted := Reservations.Next(Reservations.Next(arrived, Reservations.Admit(a)), Reservations.Insert(a));
    var sold := Reservations.Next(Reservations.Next(inserted, Reservations.Decrement(a)),
        Reservations.Commit(a, true, true));
    SoldShop(shop, a, order);
    TriesAgain(ready, t);
    CallGoesOut(w0, begun, ready, shop, calls, t, a);
    ShopSells(w0, begun + [Call(t, a)], called, arrived, calls[t := a], a);
    var lost := begun + [Call(t, a)] + [InShop(Reservations.Admit(a))] + [InShop(Reservations.Insert(a))]
        + [InShop(Reservations.Decrement(a))] + [InShop(Reservations.Commit(a, true, true))];
    TimesOut(w0, lost, called, sold, calls[t := a], t);
    ReplayedFrom(w0, lost + [NoAnswer(t, Timeout, false, "v1")],
                 Checkout.Next(called, Checkout.ReturnStep(t, Checkout.Again)), sold, calls[t := a], t, b, order);
  }
}
