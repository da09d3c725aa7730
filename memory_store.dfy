/** The in-memory store of server.js: three module-level arrays (`users`,
    `orders`, `notifications`) and three id counters, changed in place by the
    HTTP handlers. Every handler runs to completion without awaiting, so each
    one is a single atomic method of `Store`. */
module MemoryStore {

  import opened Basics
  import opened Seqs
  import opened OrderCode
  import opened Stats

  const DefaultUsername: string := "Пользователь"

  datatype User = User(
    id: nat,
    username: string,
    telegramId: string,
    isAdmin: bool,
    requisites: Requisites,
    stats: Stats)

  /** An order record; `sellerId` is the id of the seller's account when the
      seller was known at creation time, `undefined` otherwise. */
  datatype Order = Order(
    id: nat,
    code: string,
    sellerId: Option<nat>,
    sellerTelegramId: string,
    buyerId: Option<nat>,
    buyerTelegramId: Option<string>,
    itemType: string,
    paymentMethod: string,
    amount: real,
    currency: string,
    description: string,
    sellerRequisites: Option<string>,
    status: string,
    createdAt: int,
    updatedAt: int)

  datatype Notification = Notification(
    id: nat,
    userTelegramId: string,
    category: string,
    message: string,
    read: bool,
    createdAt: int,
    readAt: Option<int>)

  /** The body of a successful mark-read. */
  datatype Ack = Ack(success: bool)

  /** `username || 'Пользователь'`. */
  function DisplayName(username: Option<string>): (r: string)
    ensures Truthy(username) ==> r == username.value
    ensures !Truthy(username) ==> r == DefaultUsername
  {
    if Truthy(username) then username.value else DefaultUsername
  }

  function CreatedMessage(code: string): string { "Ордер #" + code + " создан" }
  function JoinedMessage(code: string): string { "Покупатель присоединился к ордеру #" + code }
  function PaidMessage(code: string): string { "Оплата ордера #" + code + " подтверждена" }
  function CompletedMessage(code: string): string { "Сделка #" + code + " успешно завершена" }

  /** `users.find(u => u.telegram_id === tid)`, as an index. */
  function FindUser(users: seq<User>, tid: string): (r: Option<nat>)
    ensures r.Some? ==> r.value < |users| && users[r.value].telegramId == tid
    ensures r.Some? ==> forall k :: 0 <= k < r.value ==> users[k].telegramId != tid
    ensures r.None? ==> forall k :: 0 <= k < |users| ==> users[k].telegramId != tid
  {
    FirstIndex(users, (u: User) => u.telegramId == tid)
  }

  /** `orders.find(o => o.id === id)`, as an index. */
  function FindOrder(orders: seq<Order>, id: int): (r: Option<nat>)
    ensures r.Some? ==> r.value < |orders| && orders[r.value].id == id
    ensures r.Some? ==> forall k :: 0 <= k < r.value ==> orders[k].id != id
    ensures r.None? ==> forall k :: 0 <= k < |orders| ==> orders[k].id != id
  {
    FirstIndex(orders, (o: Order) => o.id == id)
  }

  /** `orders.find(o => o.code === code)`, as an index. */
  function FindOrderByCode(orders: seq<Order>, code: string): (r: Option<nat>)
    ensures r.Some? ==> r.value < |orders| && orders[r.value].code == code
    ensures r.Some? ==> forall k :: 0 <= k < r.value ==> orders[k].code != code
    ensures r.None? ==> forall k :: 0 <= k < |orders| ==> orders[k].code != code
  {
    FirstIndex(orders, (o: Order) => o.code == code)
  }

  /** `notifications.find(n => n.id === id)`, as an index. */
  function FindNotification(notifications: seq<Notification>, id: int): (r: Option<nat>)
    ensures r.Some? ==> r.value < |notifications| && notifications[r.value].id == id
    ensures r.Some? ==> forall k :: 0 <= k < r.value ==> notifications[k].id != id
    ensures r.None? ==> forall k :: 0 <= k < |notifications| ==> notifications[k].id != id
  {
    FirstIndex(notifications, (n: Notification) => n.id == id)
  }

  /** `users.find(...)?.id`. */
  function UserIdOf(users: seq<User>, tid: string): Option<nat>
  {
    match FindUser(users, tid)
    case None => None
    case Some(i) => Some(users[i].id)
  }

  /** The seller or the buyer of `o` is the account with this telegram id. */
  predicate Involves(o: Order, tid: string)
  {
    o.sellerTelegramId == tid || o.buyerTelegramId == Some(tid)
  }

  /** The status guard: the actor is the seller, the buyer, or an admin. */
  predicate MayChangeStatus(actor: User, o: Order)
    ensures actor.isAdmin || Some(actor.id) == o.sellerId || Some(actor.id) == o.buyerId ==> MayChangeStatus(actor, o)
    ensures o.sellerId.None? && o.buyerId.None? ==> (MayChangeStatus(actor, o) <==> actor.isAdmin)
  {
    Some(actor.id) == o.sellerId || Some(actor.id) == o.buyerId || actor.isAdmin
  }

  /** The statistics update of a completion: the seller (looked up by the
      order's seller telegram id) settles the order, then the buyer (looked up
      by the buyer telegram id, if any) counts one more deal. Nothing else
      about any account changes. */
  function SettleUsers(users: seq<User>, o: Order): (r: seq<User>)
    ensures |r| == |users|
    ensures forall i :: 0 <= i < |users| ==>
              r[i] == users[i].(stats := r[i].stats)
    ensures forall i :: 0 <= i < |users| && !Involves(o, users[i].telegramId) ==> r[i] == users[i]
    ensures o.buyerTelegramId != Some(o.sellerTelegramId) ==>
              var s := FindUser(users, o.sellerTelegramId);
              s.Some? ==> r[s.value].stats == SettleSeller(users[s.value].stats, o.currency, o.amount)
    ensures o.buyerTelegramId.Some? && o.buyerTelegramId != Some(o.sellerTelegramId) ==>
              var b := FindUser(users, o.buyerTelegramId.value);
              b.Some? ==> r[b.value].stats == CountBuyerDeal(users[b.value].stats)
  {
    var s := FindUser(users, o.sellerTelegramId);
    var b := if o.buyerTelegramId.Some? then FindUser(users, o.buyerTelegramId.value) else None;
    var afterSeller :=
      if s.Some?
      then users[s.value := users[s.value].(stats := SettleSeller(users[s.value].stats, o.currency, o.amount))]
      else users;
    if b.Some?
    then afterSeller[b.value := afterSeller[b.value].(stats := CountBuyerDeal(afterSeller[b.value].stats))]
    else afterSeller
  }

  class Store {
    var users: seq<User>
    var orders: seq<Order>
    var notifications: seq<Notification>
    var userCounter: nat
    var orderCounter: nat
    var notificationCounter: nat

    /** Ids are handed out in increasing order from their counters, a
        telegram id names at most one account, and no order has its seller
        as its buyer. */
    ghost predicate Valid()
      reads this
    {
      && (forall i, j :: 0 <= i < j < |users| ==>
            users[i].id < users[j].id && users[i].telegramId != users[j].telegramId)
      && (forall i :: 0 <= i < |users| ==> users[i].id < userCounter)
      && (forall i, j :: 0 <= i < j < |orders| ==> orders[i].id < orders[j].id)
      && (forall i :: 0 <= i < |orders| ==> orders[i].id < orderCounter)
      && (forall i :: 0 <= i < |orders| ==>
            orders[i].buyerTelegramId != Some(orders[i].sellerTelegramId)
            && orders[i].buyerId.Some? == orders[i].buyerTelegramId.Some?)
      && (forall i, j :: 0 <= i < j < |notifications| ==> notifications[i].id < notifications[j].id)
      && (forall i :: 0 <= i < |notifications| ==> notifications[i].id < notificationCounter)
    }

    /** The empty store with all three counters at 1. */
    constructor ()
      ensures Valid()
      ensures users == [] && orders == [] && notifications == []
      ensures userCounter == 1 && orderCounter == 1 && notificationCounter == 1
    {
      users, orders, notifications := [], [], [];
      userCounter, orderCounter, notificationCounter := 1, 1, 1;
    }

    /** `createNotification`: appends an unread record with the next id. */
    method Notify(tid: string, category: string, message: string, now: int) returns (n: Notification)
      requires Valid()
      modifies this
      ensures Valid()
      ensures n == Notification(old(notificationCounter), tid, category, message, false, now, None)
      ensures notifications == old(notifications) + [n]
      ensures notificationCounter == old(notificationCounter) + 1
      ensures users == old(users) && orders == old(orders)
      ensures userCounter == old(userCounter) && orderCounter == old(orderCounter)
    {
      n := Notification(notificationCounter, tid, category, message, false, now, None);
      notificationCounter := notificationCounter + 1;
      notifications := notifications + [n];
    }

    /** POST /api/users: returns the account with this telegram id unchanged
        if there is one; otherwise appends a new account with the next id.
        The initial statistics are random in the source; here they are
        inputs in the same ranges. */
    method UpsertUser(username: Option<string>, telegramId: string,
                      seedDeals: nat, seedUsd: real, seedRub: real, seedTon: real)
      returns (u: User)
      requires Valid()
      requires seedDeals < 50
      requires 0.0 <= seedUsd < 10000.0 && 0.0 <= seedRub < 500000.0 && 0.0 <= seedTon < 50.0
      modifies this
      ensures Valid()
      ensures match FindUser(old(users), telegramId)
        case Some(i) => u == old(users)[i] && unchanged(this)
        case None =>
          && u == User(old(userCounter), DisplayName(username), telegramId, false, NoRequisites,
                       Stats(seedDeals, map["USD" := seedUsd, "RUB" := seedRub, "TON" := seedTon]))
          && users == old(users) + [u]
          && userCounter == old(userCounter) + 1
      ensures orders == old(orders) && notifications == old(notifications)
      ensures orderCounter == old(orderCounter) && notificationCounter == old(notificationCounter)
    {
      var found := FindUser(users, telegramId);
      if found.Some? {
        u := users[found.value];
      } else {
        u := User(userCounter, DisplayName(username), telegramId, false, NoRequisites,
                  Stats(seedDeals, map["USD" := seedUsd, "RUB" := seedRub, "TON" := seedTon]));
        userCounter := userCounter + 1;
        users := users + [u];
      }
    }

    /** PUT /api/users/:telegram_id/requisites: writes the fields present in
        the body; 404 for an unknown account. */
    method UpdateRequisites(telegramId: string, patch: RequisitesPatch) returns (r: Response<User>)
      requires Valid()
      modifies this
      ensures Valid()
      ensures match FindUser(old(users), telegramId)
        case None => r == Fail(404, "User not found") && unchanged(this)
        case Some(i) =>
          var u := old(users)[i].(requisites := ApplyPatch(old(users)[i].requisites, patch));
          r == Ok(u) && users == old(users)[i := u]
      ensures orders == old(orders) && notifications == old(notifications)
      ensures userCounter == old(userCounter) && orderCounter == old(orderCounter)
      ensures notificationCounter == old(notificationCounter)
    {
      var found := FindUser(users, telegramId);
      if found.None? {
        return Fail(404, "User not found");
      }
      var i := found.value;
      var u := users[i].(requisites := ApplyPatch(users[i].requisites, patch));
      users := users[i := u];
      r := Ok(u);
    }

    /** GET /api/users/:telegram_id/orders: the orders the account sells or
        buys, in store order; `[]` for an unknown account even if orders name
        its telegram id. */
    method UserOrders(telegramId: string) returns (r: seq<Order>)
      ensures FindUser(users, telegramId).None? ==> r == []
      ensures FindUser(users, telegramId).Some? ==>
                forall o :: o in r <==> o in orders && Involves(o, telegramId)
      ensures FindUser(users, telegramId).Some? ==>
                r == Filter(orders, (o: Order) => Involves(o, telegramId))
    {
      if FindUser(users, telegramId).None? {
        return [];
      }
      r := Filter(orders, (o: Order) => Involves(o, telegramId));
    }

    /** POST /api/orders: no validation at all; appends an active order with
        no buyer, the next order id and a fresh random code (never checked
        against existing codes), and notifies the seller's telegram id. */
    method CreateOrder(sellerTid: string, itemType: string, paymentMethod: string, amount: real,
                       currency: string, description: string, sellerRequisites: Option<string>,
                       now: int)
      returns (o: Order)
      requires Valid()
      modifies this
      ensures Valid()
      ensures IsOrderCode(o.code)
      ensures o == Order(old(orderCounter), o.code, UserIdOf(old(users), sellerTid), sellerTid,
                         None, None, itemType, paymentMethod, amount, currency, description,
                         sellerRequisites, Active, now, now)
      ensures orders == old(orders) + [o] && orderCounter == old(orderCounter) + 1
      ensures notifications == old(notifications) +
                [Notification(old(notificationCounter), sellerTid, "order_created",
                              CreatedMessage(o.code), false, now, None)]
      ensures notificationCounter == old(notificationCounter) + 1
      ensures users == old(users) && userCounter == old(userCounter)
    {
      var code := GenerateOrderCode();
      o := Order(orderCounter, code, UserIdOf(users, sellerTid), sellerTid, None, None,
                 itemType, paymentMethod, amount, currency, description, sellerRequisites,
                 Active, now, now);
      orderCounter := orderCounter + 1;
      orders := orders + [o];
      var _ := Notify(sellerTid, "order_created", CreatedMessage(code), now);
    }

    /** GET /api/orders/:code: the first order with this code, or 404. */
    method OrderByCode(code: string) returns (r: Response<Order>)
      ensures r.Fail? <==> forall k :: 0 <= k < |orders| ==> orders[k].code != code
      ensures r.Fail? ==> r == Fail(404, "Order not found")
      ensures r.Ok? ==> r.body.code == code && r.body == orders[FindOrderByCode(orders, code).value]
    {
      var found := FindOrderByCode(orders, code);
      if found.None? {
        return Fail(404, "Order not found");
      }
      r := Ok(orders[found.value]);
    }

    /** POST /api/orders/:id/join. Rejects, changing nothing, a missing order
        (404), the seller joining their own order (400) and an unknown buyer
        (400). Otherwise attaches the buyer, whatever the order's status and
        even if a buyer is already attached, and notifies the seller. */
    method JoinOrder(orderId: int, buyerTid: string, now: int) returns (r: Response<Order>)
      requires Valid()
      modifies this
      ensures Valid()
      ensures match FindOrder(old(orders), orderId)
        case None => r == Fail(404, "Order not found")
        case Some(k) =>
          if old(orders)[k].sellerTelegramId == buyerTid then r == Fail(400, "Cannot join your own order")
          else match FindUser(old(users), buyerTid)
            case None => r == Fail(400, "Buyer not found")
            case Some(b) =>
              var o := old(orders)[k].(buyerId := Some(old(users)[b].id),
                                       buyerTelegramId := Some(buyerTid), updatedAt := now);
              && r == Ok(o)
              && orders == old(orders)[k := o]
              && notifications == old(notifications) +
                   [Notification(old(notificationCounter), o.sellerTelegramId, "buyer_joined",
                                 JoinedMessage(o.code), false, now, None)]
              && notificationCounter == old(notificationCounter) + 1
      ensures r.Fail? ==> unchanged(this)
      ensures users == old(users) && userCounter == old(userCounter) && orderCounter == old(orderCounter)
    {
      var found := FindOrder(orders, orderId);
      if found.None? {
        return Fail(404, "Order not found");
      }
      var k := found.value;
      if orders[k].sellerTelegramId == buyerTid {
        return Fail(400, "Cannot join your own order");
      }
      var buyer := FindUser(users, buyerTid);
      if buyer.None? {
        return Fail(400, "Buyer not found");
      }
      var o := orders[k].(buyerId := Some(users[buyer.value].id),
                          buyerTelegramId := Some(buyerTid), updatedAt := now);
      orders := orders[k := o];
      var _ := Notify(o.sellerTelegramId, "buyer_joined", JoinedMessage(o.code), now);
      r := Ok(o);
    }

    /** PUT /api/orders/:id/status. Rejects, changing nothing, a missing order
        (404), an unknown actor (400) and an actor who is neither seller, buyer
        nor admin (403). Otherwise writes any status string: `paid` notifies
        the seller; `completed` notifies the seller and settles the statistics
        again on every call. */
    method SetStatus(orderId: int, status: string, actorTid: string, now: int)
      returns (r: Response<Order>)
      requires Valid()
      modifies this
      ensures Valid()
      ensures match FindOrder(old(orders), orderId)
        case None => r == Fail(404, "Order not found")
        case Some(k) =>
          match FindUser(old(users), actorTid)
          case None => r == Fail(400, "User not found")
          case Some(a) =>
            if !MayChangeStatus(old(users)[a], old(orders)[k]) then r == Fail(403, "Access denied")
            else
              var o := old(orders)[k].(status := status, updatedAt := now);
              && r == Ok(o)
              && orders == old(orders)[k := o]
              && (status == Paid ==>
                    && notifications == old(notifications) +
                         [Notification(old(notificationCounter), o.sellerTelegramId, "payment_confirmed",
                                       PaidMessage(o.code), false, now, None)]
                    && notificationCounter == old(notificationCounter) + 1
                    && users == old(users))
              && (status == Completed ==>
                    && notifications == old(notifications) +
                         [Notification(old(notificationCounter), o.sellerTelegramId, "order_completed",
                                       CompletedMessage(o.code), false, now, None)]
                    && notificationCounter == old(notificationCounter) + 1
                    && users == SettleUsers(old(users), o))
              && (status != Paid && status != Completed ==>
                    && notifications == old(notifications)
                    && notificationCounter == old(notificationCounter)
                    && users == old(users))
      ensures r.Fail? ==> unchanged(this)
      ensures userCounter == old(userCounter) && orderCounter == old(orderCounter)
    {
      var found := FindOrder(orders, orderId);
      if found.None? {
        return Fail(404, "Order not found");
      }
      var k := found.value;
      var actor := FindUser(users, actorTid);
      if actor.None? {
        return Fail(400, "User not found");
      }
      if !MayChangeStatus(users[actor.value], orders[k]) {
        return Fail(403, "Access denied");
      }
      var o := WriteStatus(k, status, now);
      r := Ok(o);
    }

    /** The writes of a status change once the guard has passed. */
    method WriteStatus(k: nat, status: string, now: int) returns (o: Order)
      requires Valid() && k < |orders|
      modifies this
      ensures Valid()
      ensures o == old(orders)[k].(status := status, updatedAt := now)
      ensures orders == old(orders)[k := o]
      ensures status == Paid ==>
                && notifications == old(notifications) +
                     [Notification(old(notificationCounter), o.sellerTelegramId, "payment_confirmed",
                                   PaidMessage(o.code), false, now, None)]
                && notificationCounter == old(notificationCounter) + 1
                && users == old(users)
      ensures status == Completed ==>
                && notifications == old(notifications) +
                     [Notification(old(notificationCounter), o.sellerTelegramId, "order_completed",
                                   CompletedMessage(o.code), false, now, None)]
                && notificationCounter == old(notificationCounter) + 1
                && users == SettleUsers(old(users), o)
      ensures status != Paid && status != Completed ==>
                && notifications == old(notifications)
                && notificationCounter == old(notificationCounter)
                && users == old(users)
      ensures userCounter == old(userCounter) && orderCounter == old(orderCounter)
    {
      o := orders[k].(status := status, updatedAt := now);
      orders := orders[k := o];
      if status == Paid {
        var _ := Notify(o.sellerTelegramId, "payment_confirmed", PaidMessage(o.code), now);
      } else if status == Completed {
        var _ := Notify(o.sellerTelegramId, "order_completed", CompletedMessage(o.code), now);
        Settle(o);
      }
    }

    /** The statistics writes of a completion (server.js lines 234-245). */
    method Settle(o: Order)
      requires Valid()
      modifies this
      ensures Valid()
      ensures users == SettleUsers(old(users), o)
      ensures orders == old(orders) && notifications == old(notifications)
      ensures userCounter == old(userCounter) && orderCounter == old(orderCounter)
      ensures notificationCounter == old(notificationCounter)
    {
      var before := users;
      users := SettleUsers(users, o);
      assert forall i :: 0 <= i < |users| ==>
        users[i].id == before[i].id && users[i].telegramId == before[i].telegramId;
    }

    /** GET /api/users/:telegram_id/notifications: exactly the recipient's
        notifications, sorted by id, largest first. */
    method UserNotifications(telegramId: string) returns (r: seq<Notification>)
      ensures forall n :: n in r <==> n in notifications && n.userTelegramId == telegramId
      ensures forall i, j :: 0 <= i < j < |r| ==> r[i].id >= r[j].id
      ensures multiset(r) == multiset(Filter(notifications, (n: Notification) => n.userTelegramId == telegramId))
    {
      var mine := Filter(notifications, (n: Notification) => n.userTelegramId == telegramId);
      r := SortDesc(mine, (n: Notification) => n.id);
      assert forall n :: n in r <==> n in multiset(mine);
    }

    /** PUT /api/notifications/:id/read: sets the read flag and time and
        nothing else; 404 for an unknown id. */
    method MarkRead(id: int, now: int) returns (r: Response<Ack>)
      requires Valid()
      modifies this
      ensures Valid()
      ensures match FindNotification(old(notifications), id)
        case None => r == Fail(404, "Notification not found") && unchanged(this)
        case Some(k) =>
          && r == Ok(Ack(true))
          && notifications == old(notifications)[k := old(notifications)[k].(read := true, readAt := Some(now))]
      ensures users == old(users) && orders == old(orders)
      ensures userCounter == old(userCounter) && orderCounter == old(orderCounter)
      ensures notificationCounter == old(notificationCounter)
    {
      var found := FindNotification(notifications, id);
      if found.None? {
        return Fail(404, "Notification not found");
      }
      var k := found.value;
      notifications := notifications[k := notifications[k].(read := true, readAt := Some(now))];
      r := Ok(Ack(true));
    }
  }
}
