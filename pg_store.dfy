/** The PostgreSQL-backed store of backend/server.js: the tables `users`,
    `orders` and `notifications` with their SERIAL id sequences. Each handler
    is one atomic method of `Database`; the statements it issues are applied
    in order. */
module PgStore {

  import opened Basics
  import opened Seqs
  import opened OrderCode
  import opened Stats

  datatype User = User(
    id: nat,
    telegramId: string,
    username: Option<string>,
    requisites: Requisites,
    stats: Stats,
    createdAt: int,
    updatedAt: int)

  datatype Order = Order(
    id: nat,
    code: string,
    sellerId: nat,
    buyerId: Option<nat>,
    itemType: string,
    paymentMethod: string,
    amount: real,
    currency: string,
    description: string,
    sellerRequisites: Option<string>,
    status: string,
    createdAt: int,
    updatedAt: int)

  datatype Notification = Notification(
    id: nat,
    userId: Option<nat>,
    orderId: int,
    category: string,
    message: string,
    read: bool,
    createdAt: int)

  /** An order row with the seller's and buyer's telegram id and username
      from `LEFT JOIN users`. */
  datatype OrderView = OrderView(
    order: Order,
    sellerTelegramId: Option<string>,
    sellerUsername: Option<string>,
    buyerTelegramId: Option<string>,
    buyerUsername: Option<string>)

  // ---- DECIMAL(15,2) ----

  /** Values of a DECIMAL(15,2) column stay strictly below 10^13 in magnitude. */
  const NumericLimit: real := 10000000000000.0

  /** A whole number of hundredths. */
  predicate IsCents(x: real)
  {
    (x * 100.0).Floor as real == x * 100.0
  }

  /** Rounds to hundredths, halves away from zero, as PostgreSQL does. */
  function RoundCents(x: real): (k: int)
    ensures x >= 0.0 ==> -0.5 < k as real - x * 100.0 <= 0.5
    ensures x < 0.0 ==> -0.5 <= k as real - x * 100.0 < 0.5
  {
    if x >= 0.0 then (x * 100.0 + 0.5).Floor else -((-x * 100.0 + 0.5).Floor)
  }

  /** Storing `x` into DECIMAL(15,2): the rounded value, or `None` for
      "numeric field overflow". */
  function ToNumeric(x: real): (r: Option<real>)
    ensures r.Some? ==> IsCents(r.value)
    ensures r.Some? ==> -0.005 <= r.value - x <= 0.005
    ensures r.Some? ==> -NumericLimit < r.value < NumericLimit
    ensures r.Some? <==> -NumericLimit < RoundCents(x) as real / 100.0 < NumericLimit
    ensures r.Some? ==> r.value == RoundCents(x) as real / 100.0
  {
    var k := RoundCents(x);
    var v := k as real / 100.0;
    assert v * 100.0 == k as real;
    if -NumericLimit < v < NumericLimit then Some(v) else None
  }

  /** A value already in hundredths is stored exactly, so storing twice is
      storing once. */
  lemma ToNumericExact(x: real)
    requires IsCents(x) && -NumericLimit < x < NumericLimit
    ensures ToNumeric(x) == Some(x)
  {
    var k := (x * 100.0).Floor;
    assert x * 100.0 == k as real;
    if x >= 0.0 {
      assert (x * 100.0 + 0.5).Floor == k;
    } else {
      assert (-x * 100.0 + 0.5).Floor == -k;
    }
  }

  lemma ToNumericIdempotent(x: real)
    requires ToNumeric(x).Some?
    ensures ToNumeric(ToNumeric(x).value) == ToNumeric(x)
  {
    ToNumericExact(ToNumeric(x).value);
  }

  // ---- notification texts ----

  function JoinedMessage(code: string): string { "Buyer joined order #" + code }
  function PaidMessage(code: string): string { "Payment confirmed for order #" + code }
  function CompletedMessage(code: string): string { "Order #" + code + " completed successfully" }

  // ---- lookups ----

  /** `SELECT ... FROM users WHERE telegram_id = $1`. */
  function FindUser(users: seq<User>, tid: string): (r: Option<nat>)
    ensures r.Some? ==> r.value < |users| && users[r.value].telegramId == tid
    ensures r.None? ==> forall k :: 0 <= k < |users| ==> users[k].telegramId != tid
  {
    FirstIndex(users, (u: User) => u.telegramId == tid)
  }

  /** The row joined on `users.id`. */
  function FindUserById(users: seq<User>, id: nat): (r: Option<nat>)
    ensures r.Some? ==> r.value < |users| && users[r.value].id == id
    ensures r.None? ==> forall k :: 0 <= k < |users| ==> users[k].id != id
  {
    FirstIndex(users, (u: User) => u.id == id)
  }

  /** `SELECT * FROM orders WHERE id = $1`. */
  function FindOrder(orders: seq<Order>, id: int): (r: Option<nat>)
    ensures r.Some? ==> r.value < |orders| && orders[r.value].id == id
    ensures r.None? ==> forall k :: 0 <= k < |orders| ==> orders[k].id != id
  {
    FirstIndex(orders, (o: Order) => o.id == id)
  }

  /** `SELECT * FROM orders WHERE id = $1 AND status = 'active'`. */
  function FindActiveOrder(orders: seq<Order>, id: int): (r: Option<nat>)
    ensures r.Some? ==> r.value < |orders| && orders[r.value].id == id && orders[r.value].status == Active
    ensures r.None? ==> forall k :: 0 <= k < |orders| ==> orders[k].id != id || orders[k].status != Active
  {
    FirstIndex(orders, (o: Order) => o.id == id && o.status == Active)
  }

  /** `SELECT ... FROM orders WHERE code = $1`. */
  function FindOrderByCode(orders: seq<Order>, code: string): (r: Option<nat>)
    ensures r.Some? ==> r.value < |orders| && orders[r.value].code == code
    ensures r.None? ==> forall k :: 0 <= k < |orders| ==> orders[k].code != code
  {
    FirstIndex(orders, (o: Order) => o.code == code)
  }

  /** `FindNotification`: `... FROM notifications WHERE id = $1`. */
  function FindNotification(notifications: seq<Notification>, id: int): (r: Option<nat>)
    ensures r.Some? ==> r.value < |notifications| && notifications[r.value].id == id
    ensures r.None? ==> forall k :: 0 <= k < |notifications| ==> notifications[k].id != id
  {
    FirstIndex(notifications, (n: Notification) => n.id == id)
  }

  /** The order row with its `LEFT JOIN users` columns. */
  function ViewOf(users: seq<User>, o: Order): (v: OrderView)
    ensures v.order == o
    ensures FindUserById(users, o.sellerId).None? ==> v.sellerTelegramId.None? && v.sellerUsername.None?
    ensures o.buyerId.None? ==> v.buyerTelegramId.None? && v.buyerUsername.None?
    ensures v.sellerTelegramId.Some? ==>
              exists k :: 0 <= k < |users| && users[k].id == o.sellerId && users[k].telegramId == v.sellerTelegramId.value
    ensures v.buyerTelegramId.Some? ==>
              exists k :: 0 <= k < |users| && Some(users[k].id) == o.buyerId && users[k].telegramId == v.buyerTelegramId.value
    ensures var s := FindUserById(users, o.sellerId);
            s.Some? ==> v.sellerTelegramId == Some(users[s.value].telegramId) && v.sellerUsername == users[s.value].username
    ensures o.buyerId.Some? ==>
              var b := FindUserById(users, o.buyerId.value);
              && (b.Some? ==> v.buyerTelegramId == Some(users[b.value].telegramId) && v.buyerUsername == users[b.value].username)
              && (b.None? ==> v.buyerTelegramId.None? && v.buyerUsername.None?)
  {
    var s := FindUserById(users, o.sellerId);
    var b := if o.buyerId.Some? then FindUserById(users, o.buyerId.value) else None;
    OrderView(
      o,
      if s.Some? then Some(users[s.value].telegramId) else None,
      if s.Some? then users[s.value].username else None,
      if b.Some? then Some(users[b.value].telegramId) else None,
      if b.Some? then users[b.value].username else None)
  }

  function OrdersOf(vs: seq<OrderView>): (r: seq<Order>)
    ensures |r| == |vs| && forall i :: 0 <= i < |vs| ==> r[i] == vs[i].order
  {
    seq(|vs|, i requires 0 <= i < |vs| => vs[i].order)
  }

  /** Each order with its joined party columns, in the same order. */
  function ViewsOf(users: seq<User>, os: seq<Order>): (r: seq<OrderView>)
    ensures OrdersOf(r) == os
    ensures forall i :: 0 <= i < |r| ==> r[i] == ViewOf(users, r[i].order)
  {
    var r := seq(|os|, i requires 0 <= i < |os| => ViewOf(users, os[i]));
    assert OrdersOf(r) == os;
    r
  }

  /** Some stored order holds this code (`SELECT id FROM orders WHERE code = $1`
      returns a row). */
  predicate HoldsCode(orders: seq<Order>, code: string)
  {
    exists k :: 0 <= k < |orders| && orders[k].code == code
  }

  /** Every code in the list is held by some stored order. */
  predicate AllHeld(orders: seq<Order>, codes: seq<string>)
  {
    forall i :: 0 <= i < |codes| ==> HoldsCode(orders, codes[i])
  }

  lemma AllHeldAppend(orders: seq<Order>, codes: seq<string>, code: string)
    requires AllHeld(orders, codes) && HoldsCode(orders, code)
    ensures AllHeld(orders, codes + [code])
  {
    assert forall i :: 0 <= i < |codes| ==> (codes + [code])[i] == codes[i];
  }

  lemma AllHeldButLast(orders: seq<Order>, codes: seq<string>)
    requires codes != [] && AllHeld(orders, codes[..|codes| - 1])
    ensures forall i :: 0 <= i < |codes| - 1 ==> HoldsCode(orders, codes[i])
  {
    assert forall i :: 0 <= i < |codes| - 1 ==> codes[i] == codes[..|codes| - 1][i];
  }

  /** The `while (codeExists)` loop of POST /orders: draws codes until one
      is held by no stored order, at most `maxDraws` times. `drawn` lists
      the codes tried; all but the last were taken, and `free` says whether
      the last one is free. */
  method DrawFreeCode(orders: seq<Order>, maxDraws: nat) returns (code: string, free: bool, drawn: seq<string>)
    ensures |drawn| <= maxDraws && AllOrderCodes(drawn)
    ensures free ==> && drawn != [] && code == drawn[|drawn| - 1] && IsOrderCode(code)
                     && !HoldsCode(orders, code)
                     && (forall k :: 0 <= k < |orders| ==> orders[k].code != code)
                     && (forall i :: 0 <= i < |drawn| - 1 ==> HoldsCode(orders, drawn[i]))
    ensures !free ==> |drawn| == maxDraws && forall i :: 0 <= i < |drawn| ==> HoldsCode(orders, drawn[i])
  {
    code, free, drawn := "", false, [];
    while !free && |drawn| < maxDraws
      invariant |drawn| <= maxDraws && AllOrderCodes(drawn)
      invariant !free ==> AllHeld(orders, drawn)
      invariant free ==> && drawn != [] && code == drawn[|drawn| - 1] && !HoldsCode(orders, code)
                         && AllHeld(orders, drawn[..|drawn| - 1])
      decreases maxDraws - |drawn|
    {
      code := GenerateOrderCode();
      free := !HoldsCode(orders, code);
      AllOrderCodesAppend(drawn, code);
      if !free {
        AllHeldAppend(orders, drawn, code);
      }
      ghost var tried := drawn;
      drawn := drawn + [code];
      assert drawn[..|drawn| - 1] == tried;
    }
    if free {
      AllOrderCodesLast(drawn);
      AllHeldButLast(orders, drawn);
    }
  }

  /** The account with this id is the seller or the buyer of `o`. */
  predicate InvolvesId(o: Order, uid: nat)
  {
    o.sellerId == uid || o.buyerId == Some(uid)
  }

  /** `WHERE o.seller_id = $1 OR o.buyer_id = $1 ORDER BY o.created_at DESC`:
      each order the account sells or buys, as often as it is stored, newest
      first. */
  function OrdersInvolving(orders: seq<Order>, uid: nat): (r: seq<Order>)
    ensures forall o :: o in r <==> o in orders && InvolvesId(o, uid)
    ensures multiset(r) == multiset(Filter(orders, (o: Order) => InvolvesId(o, uid)))
    ensures forall i, j :: 0 <= i < j < |r| ==> r[i].createdAt >= r[j].createdAt
  {
    FilterSortDesc(orders, (o: Order) => InvolvesId(o, uid), (o: Order) => o.createdAt)
  }

  /** `WHERE user_id = $1 ORDER BY created_at DESC`: the account's
      notifications, as often as they are stored, newest first. */
  function NotificationsNewestFirst(notifications: seq<Notification>, uid: nat): (r: seq<Notification>)
    ensures forall n :: n in r <==> n in notifications && n.userId == Some(uid)
    ensures multiset(r) == multiset(Filter(notifications, (n: Notification) => n.userId == Some(uid)))
    ensures forall i, j :: 0 <= i < j < |r| ==> r[i].createdAt >= r[j].createdAt
  {
    FilterSortDesc(notifications, (n: Notification) => n.userId == Some(uid), (n: Notification) => n.createdAt)
  }

  /** `... LIMIT 50`: the first 50 of them; nothing left out is newer than
      anything kept. */
  function RecentNotifications(notifications: seq<Notification>, uid: nat): (r: seq<Notification>)
    ensures |r| <= NotificationLimit
    ensures forall n :: n in r ==> n in notifications && n.userId == Some(uid)
    ensures var mine := NotificationsNewestFirst(notifications, uid);
            && |r| == (if |mine| < NotificationLimit then |mine| else NotificationLimit)
            && r == mine[..|r|]
            && (forall n, m :: n in mine && n !in r && m in r ==> n.createdAt <= m.createdAt)
    ensures multiset(r) <= multiset(Filter(notifications, (n: Notification) => n.userId == Some(uid)))
    ensures forall i, j :: 0 <= i < j < |r| ==> r[i].createdAt >= r[j].createdAt
  {
    var sorted := NotificationsNewestFirst(notifications, uid);
    TakeSorted(sorted, (n: Notification) => n.createdAt, NotificationLimit);
    Take(sorted, NotificationLimit)
  }

  /** `UPDATE users SET completed_deals = completed_deals + 1, volumes =
      jsonb_set(..., amount added), updated_at = now WHERE id = sellerId`. */
  function SettleSellerRow(users: seq<User>, sellerId: nat, currency: string, amount: real, now: int)
    : (r: seq<User>)
    ensures |r| == |users|
    ensures forall i :: 0 <= i < |users| && users[i].id != sellerId ==> r[i] == users[i]
    ensures forall i :: 0 <= i < |users| && users[i].id == sellerId ==>
              r[i] == users[i].(stats := SettleSeller(users[i].stats, currency, amount), updatedAt := now)
  {
    seq(|users|, i requires 0 <= i < |users| =>
      if users[i].id == sellerId
      then users[i].(stats := SettleSeller(users[i].stats, currency, amount), updatedAt := now)
      else users[i])
  }

  /** What the as-written completion loses: whenever the seller's row exists,
      the intended settlement changes it (one more deal), while
      `CompleteAsWritten` leaves every row as it was. */
  lemma SettlementLostAsWritten(users: seq<User>, sellerId: nat, currency: string, amount: real, now: int)
    requires exists k :: 0 <= k < |users| && users[k].id == sellerId
    ensures SettleSellerRow(users, sellerId, currency, amount, now) != users
  {
    var k :| 0 <= k < |users| && users[k].id == sellerId;
    assert SettleSellerRow(users, sellerId, currency, amount, now)[k].stats.completedDeals
           == users[k].stats.completedDeals + 1;
  }

  /** The most notifications one listing returns. */
  const NotificationLimit: nat := 50

  class Database {
    var users: seq<User>
    var orders: seq<Order>
    var notifications: seq<Notification>
    // the next values of the three SERIAL sequences
    var userSeq: nat
    var orderSeq: nat
    var notificationSeq: nat

    /** Ids come from their sequences in increasing order; `telegram_id` and
        `code` are unique; every code is a generated one; no order has its
        seller as its buyer. */
    ghost predicate Valid()
      reads this
    {
      && (forall i, j :: 0 <= i < j < |users| ==>
            users[i].id < users[j].id && users[i].telegramId != users[j].telegramId)
      && (forall i :: 0 <= i < |users| ==> users[i].id < userSeq)
      && (forall i, j :: 0 <= i < j < |orders| ==>
            orders[i].id < orders[j].id && orders[i].code != orders[j].code)
      && (forall i :: 0 <= i < |orders| ==>
            orders[i].id < orderSeq && IsOrderCode(orders[i].code) && orders[i].buyerId != Some(orders[i].sellerId))
      && (forall i, j :: 0 <= i < j < |notifications| ==> notifications[i].id < notifications[j].id)
      && (forall i :: 0 <= i < |notifications| ==> notifications[i].id < notificationSeq)
    }

    /** Empty tables, every sequence at 1. */
    constructor ()
      ensures Valid()
      ensures users == [] && orders == [] && notifications == []
      ensures userSeq == 1 && orderSeq == 1 && notificationSeq == 1
    {
      users, orders, notifications := [], [], [];
      userSeq, orderSeq, notificationSeq := 1, 1, 1;
    }

    /** `INSERT INTO notifications (user_id, order_id, type, message)`. */
    method InsertNotification(userId: Option<nat>, orderId: int, category: string, message: string, now: int)
      requires Valid()
      modifies this
      ensures Valid()
      ensures notifications == old(notifications) +
                [Notification(old(notificationSeq), userId, orderId, category, message, false, now)]
      ensures notificationSeq == old(notificationSeq) + 1
      ensures users == old(users) && orders == old(orders)
      ensures userSeq == old(userSeq) && orderSeq == old(orderSeq)
    {
      notifications := notifications + [Notification(notificationSeq, userId, orderId, category, message, false, now)];
      notificationSeq := notificationSeq + 1;
    }

    /** POST /users: an upsert on the unique telegram id. A new id inserts a
        row with no requisites and zero statistics; a known id only gets its
        username and `updated_at` rewritten. Either way the INSERT draws a
        value from the id sequence. */
    method UpsertUser(username: Option<string>, telegramId: string, now: int) returns (u: User)
      requires Valid()
      modifies this
      ensures Valid()
      ensures match FindUser(old(users), telegramId)
        case Some(i) =>
          u == old(users)[i].(username := username, updatedAt := now) && users == old(users)[i := u]
        case None =>
          u == User(old(userSeq), telegramId, username, NoRequisites, Stats(0, map[]), now, now)
          && users == old(users) + [u]
      ensures userSeq == old(userSeq) + 1
      ensures orders == old(orders) && notifications == old(notifications)
      ensures orderSeq == old(orderSeq) && notificationSeq == old(notificationSeq)
    {
      var found := FindUser(users, telegramId);
      if found.Some? {
        u := users[found.value].(username := username, updatedAt := now);
        users := users[found.value := u];
      } else {
        u := User(userSeq, telegramId, username, NoRequisites, Stats(0, map[]), now, now);
        users := users + [u];
      }
      userSeq := userSeq + 1;
    }

    /** GET /users/:telegram_id. */
    method GetUser(telegramId: string) returns (r: Response<User>)
      ensures r.Fail? <==> forall k :: 0 <= k < |users| ==> users[k].telegramId != telegramId
      ensures r.Fail? ==> r == Fail(404, "User not found")
      ensures r.Ok? ==> r.body in users && r.body.telegramId == telegramId
    {
      var found := FindUser(users, telegramId);
      if found.None? {
        return Fail(404, "User not found");
      }
      r := Ok(users[found.value]);
    }

    /** PUT /users/:telegram_id/requisites: writes exactly the columns named
        in the body and `updated_at`. An empty body makes the statement
        `SET , updated_at = ...`, a syntax error (500). An unknown account
        updates no row and the answer has no body: there is no 404. */
    method UpdateRequisites(telegramId: string, patch: RequisitesPatch, now: int)
      returns (r: Response<Option<User>>)
      requires Valid()
      modifies this
      ensures Valid()
      ensures IsEmptyPatch(patch) ==> r == Fail(500, "Failed to update requisites") && unchanged(this)
      ensures !IsEmptyPatch(patch) ==>
        match FindUser(old(users), telegramId)
        case None => r == Ok(None) && unchanged(this)
        case Some(i) =>
          var u := old(users)[i].(requisites := ApplyPatch(old(users)[i].requisites, patch), updatedAt := now);
          r == Ok(Some(u)) && users == old(users)[i := u]
      ensures orders == old(orders) && notifications == old(notifications)
      ensures userSeq == old(userSeq) && orderSeq == old(orderSeq) && notificationSeq == old(notificationSeq)
    {
      if IsEmptyPatch(patch) {
        return Fail(500, "Failed to update requisites");
      }
      var found := FindUser(users, telegramId);
      if found.None? {
        return Ok(None);
      }
      var i := found.value;
      var u := users[i].(requisites := ApplyPatch(users[i].requisites, patch), updatedAt := now);
      users := users[i := u];
      r := Ok(Some(u));
    }

    /** POST /orders: 404 for an unknown seller; otherwise draws codes until
        one is not held by any stored order and inserts an active order
        without buyer. The amount is stored as DECIMAL(15,2); an amount that
        does not fit fails the INSERT (500). `maxDraws` bounds the redraws,
        which the source does not bound. No notification is written. */
    method CreateOrder(sellerTid: string, itemType: string, paymentMethod: string, amount: real,
                       currency: string, description: string, sellerRequisites: Option<string>,
                       now: int, maxDraws: nat)
      returns (r: Response<Order>, drawn: seq<string>)
      requires Valid()
      modifies this
      ensures Valid()
      ensures FindUser(old(users), sellerTid).None? ==> r == Fail(404, "Seller not found") && drawn == []
      ensures |drawn| <= maxDraws && AllOrderCodes(drawn)
      ensures forall i :: 0 <= i < |drawn| - 1 ==> HoldsCode(old(orders), drawn[i])
      ensures FindUser(old(users), sellerTid).Some? && r.Fail? ==>
                || ToNumeric(amount).None?
                || (|drawn| == maxDraws && forall i :: 0 <= i < |drawn| ==> HoldsCode(old(orders), drawn[i]))
      ensures r.Ok? ==> drawn != [] && r.body.code == drawn[|drawn| - 1]
      ensures FindUser(old(users), sellerTid).Some? && ToNumeric(amount).None? ==> r.Fail?
      ensures FindUser(old(users), sellerTid).Some? && r.Fail? ==> r == Fail(500, "Failed to create order")
      ensures r.Fail? ==> unchanged(this)
      ensures r.Ok? ==>
        var o := r.body;
        && FindUser(old(users), sellerTid).Some?
        && ToNumeric(amount).Some?
        && IsOrderCode(o.code)
        && (forall k :: 0 <= k < |old(orders)| ==> old(orders)[k].code != o.code)
        && o == Order(old(orderSeq), o.code, old(users)[FindUser(old(users), sellerTid).value].id, None,
                      itemType, paymentMethod, ToNumeric(amount).value, currency, description,
                      sellerRequisites, Active, now, now)
        && orders == old(orders) + [o]
        && orderSeq == old(orderSeq) + 1
      ensures users == old(users) && notifications == old(notifications)
      ensures userSeq == old(userSeq) && notificationSeq == old(notificationSeq)
    {
      var seller := FindUser(users, sellerTid);
      if seller.None? {
        return Fail(404, "Seller not found"), [];
      }
      var code, free;
      code, free, drawn := DrawFreeCode(orders, maxDraws);
      var stored := ToNumeric(amount);
      if !free || stored.None? {
        return Fail(500, "Failed to create order"), drawn;
      }
      var o := Order(orderSeq, code, users[seller.value].id, None, itemType, paymentMethod,
                     stored.value, currency, description, sellerRequisites, Active, now, now);
      InsertOrder(o);
      r := Ok(o);
    }

    /** The `INSERT INTO orders ... RETURNING *` of POST /orders, for an
        order that takes the next id and a code no stored order holds. */
    method InsertOrder(o: Order)
      requires Valid()
      requires o.id == orderSeq && IsOrderCode(o.code) && o.buyerId.None?
      requires forall k :: 0 <= k < |orders| ==> orders[k].code != o.code
      modifies this
      ensures Valid()
      ensures orders == old(orders) + [o] && orderSeq == old(orderSeq) + 1
      ensures users == old(users) && notifications == old(notifications)
      ensures userSeq == old(userSeq) && notificationSeq == old(notificationSeq)
    {
      orders := orders + [o];
      orderSeq := orderSeq + 1;
    }

    /** GET /orders/:code: the order holding this code with its joined
        party columns, or 404. */
    method OrderByCode(code: string) returns (r: Response<OrderView>)
      requires Valid()
      ensures r.Fail? <==> forall k :: 0 <= k < |orders| ==> orders[k].code != code
      ensures r.Fail? ==> r == Fail(404, "Order not found")
      ensures r.Ok? ==> r.body.order in orders && r.body.order.code == code
      ensures r.Ok? ==> forall k :: 0 <= k < |orders| && orders[k].code == code ==> r.body.order == orders[k]
      ensures r.Ok? ==> r.body == ViewOf(users, r.body.order)
    {
      var found := FindOrderByCode(orders, code);
      if found.None? {
        return Fail(404, "Order not found");
      }
      r := Ok(ViewOf(users, orders[found.value]));
    }

    /** GET /users/:telegram_id/orders: `[]` for an unknown account; otherwise
        each order the account sells or buys, exactly once, newest first. */
    method UserOrders(telegramId: string) returns (r: seq<OrderView>)
      ensures FindUser(users, telegramId).None? ==> r == []
      ensures FindUser(users, telegramId).Some? ==>
        var uid := users[FindUser(users, telegramId).value].id;
        && (forall o :: o in OrdersOf(r) <==> o in orders && InvolvesId(o, uid))
        && multiset(OrdersOf(r)) == multiset(Filter(orders, (o: Order) => InvolvesId(o, uid)))
      ensures forall i, j :: 0 <= i < j < |r| ==> r[i].order.createdAt >= r[j].order.createdAt
      ensures forall i :: 0 <= i < |r| ==> r[i] == ViewOf(users, r[i].order)
    {
      var found := FindUser(users, telegramId);
      if found.None? {
        return [];
      }
      var uid := users[found.value].id;
      var mine := OrdersInvolving(orders, uid);
      r := ViewsOf(users, mine);
      assert forall i :: 0 <= i < |r| ==> r[i].order == mine[i];
    }

    /** POST /orders/:id/join. Rejects, changing nothing, an unknown buyer
        (404), an order that is missing or not `active` (404) and the seller
        buying their own order (400). Otherwise sets the buyer, replacing any
        earlier one, and notifies the seller. */
    method JoinOrder(orderId: int, buyerTid: string, now: int) returns (r: Response<Order>)
      requires Valid()
      modifies this
      ensures Valid()
      ensures match FindUser(old(users), buyerTid)
        case None => r == Fail(404, "Buyer not found")
        case Some(b) =>
          match FindActiveOrder(old(orders), orderId)
          case None => r == Fail(404, "Order not available")
          case Some(k) =>
            if old(orders)[k].sellerId == old(users)[b].id then r == Fail(400, "Cannot buy your own order")
            else
              var o := old(orders)[k].(buyerId := Some(old(users)[b].id), updatedAt := now);
              && r == Ok(o)
              && orders == old(orders)[k := o]
              && notifications == old(notifications) +
                   [Notification(old(notificationSeq), Some(o.sellerId), orderId, "buyer_joined",
                                 JoinedMessage(o.code), false, now)]
              && notificationSeq == old(notificationSeq) + 1
      ensures r.Fail? ==> unchanged(this)
      ensures users == old(users) && userSeq == old(userSeq) && orderSeq == old(orderSeq)
    {
      var buyer := FindUser(users, buyerTid);
      if buyer.None? {
        return Fail(404, "Buyer not found");
      }
      var buyerId := users[buyer.value].id;
      var found := FindActiveOrder(orders, orderId);
      if found.None? {
        return Fail(404, "Order not available");
      }
      var k := found.value;
      if orders[k].sellerId == buyerId {
        return Fail(400, "Cannot buy your own order");
      }
      var o := orders[k].(buyerId := Some(buyerId), updatedAt := now);
      ReplaceOrder(k, o);
      InsertNotification(Some(o.sellerId), orderId, "buyer_joined", JoinedMessage(o.code), now);
      r := Ok(o);
    }

    /** `UPDATE orders ... WHERE id = $2` on a row whose id, code and seller
        stay the same. */
    method ReplaceOrder(k: nat, o: Order)
      requires Valid()
      requires k < |orders| && o.id == orders[k].id && o.code == orders[k].code
      requires o.sellerId == orders[k].sellerId && o.buyerId != Some(o.sellerId)
      modifies this
      ensures Valid()
      ensures orders == old(orders)[k := o]
      ensures users == old(users) && notifications == old(notifications)
      ensures userSeq == old(userSeq) && orderSeq == old(orderSeq) && notificationSeq == old(notificationSeq)
    {
      orders := orders[k := o];
    }

    /** The writes of a completion: two notifications (seller, then buyer,
        whose id may be NULL) and the seller's statistics row. */
    method Complete(o: Order, orderId: int, now: int)
      requires Valid()
      modifies this
      ensures Valid()
      ensures notifications == old(notifications) +
                [Notification(old(notificationSeq), Some(o.sellerId), orderId, "order_completed",
                              CompletedMessage(o.code), false, now),
                 Notification(old(notificationSeq) + 1, o.buyerId, orderId, "order_completed",
                              CompletedMessage(o.code), false, now)]
      ensures notificationSeq == old(notificationSeq) + 2
      ensures users == SettleSellerRow(old(users), o.sellerId, o.currency, o.amount, now)
      ensures orders == old(orders) && userSeq == old(userSeq) && orderSeq == old(orderSeq)
    {
      InsertNotification(Some(o.sellerId), orderId, "order_completed", CompletedMessage(o.code), now);
      InsertNotification(o.buyerId, orderId, "order_completed", CompletedMessage(o.code), now);
      var before := users;
      users := SettleSellerRow(users, o.sellerId, o.currency, o.amount, now);
      assert forall i :: 0 <= i < |users| ==>
        users[i].id == before[i].id && users[i].telegramId == before[i].telegramId;
    }

    /** The completion as the statement is written: both notifications are
        inserted, then the `UPDATE users` fails because `jsonb_set` is given
        a `numeric` where it takes a `jsonb`, and the handler answers 500.
        The status written before stays written; no statistics change. */
    method CompleteAsWritten(o: Order, orderId: int, now: int) returns (r: Response<Order>)
      requires Valid()
      modifies this
      ensures Valid()
      ensures r == Fail(500, "Failed to update order status")
      ensures notifications == old(notifications) +
                [Notification(old(notificationSeq), Some(o.sellerId), orderId, "order_completed",
                              CompletedMessage(o.code), false, now),
                 Notification(old(notificationSeq) + 1, o.buyerId, orderId, "order_completed",
                              CompletedMessage(o.code), false, now)]
      ensures notificationSeq == old(notificationSeq) + 2
      ensures users == old(users)
      ensures orders == old(orders) && userSeq == old(userSeq) && orderSeq == old(orderSeq)
    {
      InsertNotification(Some(o.sellerId), orderId, "order_completed", CompletedMessage(o.code), now);
      InsertNotification(o.buyerId, orderId, "order_completed", CompletedMessage(o.code), now);
      r := Fail(500, "Failed to update order status");
    }

    /** PUT /orders/:id/status. Fails, changing nothing, only for an unknown
        actor or a missing order (404): there is no role or ownership check.
        Writes any status string; `paid` notifies the seller; `completed`
        notifies seller and buyer and settles the seller's statistics (not
        the buyer's), again on every call. */
    method SetStatus(orderId: int, status: string, actorTid: string, now: int)
      returns (r: Response<Order>)
      requires Valid()
      modifies this
      ensures Valid()
      ensures match FindUser(old(users), actorTid)
        case None => r == Fail(404, "User not found")
        case Some(_) =>
          match FindOrder(old(orders), orderId)
          case None => r == Fail(404, "Order not found")
          case Some(k) =>
            var o := old(orders)[k].(status := status, updatedAt := now);
            && r == Ok(o)
            && orders == old(orders)[k := o]
            && (status == Paid ==>
                  && notifications == old(notifications) +
                       [Notification(old(notificationSeq), Some(o.sellerId), orderId, "payment_confirmed",
                                     PaidMessage(o.code), false, now)]
                  && notificationSeq == old(notificationSeq) + 1
                  && users == old(users))
            && (status == Completed ==>
                  && notifications == old(notifications) +
                       [Notification(old(notificationSeq), Some(o.sellerId), orderId, "order_completed",
                                     CompletedMessage(o.code), false, now),
                        Notification(old(notificationSeq) + 1, o.buyerId, orderId, "order_completed",
                                     CompletedMessage(o.code), false, now)]
                  && notificationSeq == old(notificationSeq) + 2
                  && users == SettleSellerRow(old(users), o.sellerId, o.currency, o.amount, now))
            && (status != Paid && status != Completed ==>
                  && notifications == old(notifications)
                  && notificationSeq == old(notificationSeq)
                  && users == old(users))
      ensures r.Fail? ==> unchanged(this)
      ensures userSeq == old(userSeq) && orderSeq == old(orderSeq)
    {
      var actor := FindUser(users, actorTid);
      if actor.None? {
        return Fail(404, "User not found");
      }
      var found := FindOrder(orders, orderId);
      if found.None? {
        return Fail(404, "Order not found");
      }
      var o := WriteStatus(found.value, orderId, status, now);
      r := Ok(o);
    }

    /** The writes of a status change once both lookups succeeded. */
    method WriteStatus(k: nat, orderId: int, status: string, now: int) returns (o: Order)
      requires Valid() && k < |orders|
      modifies this
      ensures Valid()
      ensures o == old(orders)[k].(status := status, updatedAt := now)
      ensures orders == old(orders)[k := o]
      ensures status == Paid ==>
                && notifications == old(notifications) +
                     [Notification(old(notificationSeq), Some(o.sellerId), orderId, "payment_confirmed",
                                   PaidMessage(o.code), false, now)]
                && notificationSeq == old(notificationSeq) + 1
                && users == old(users)
      ensures status == Completed ==>
                && notifications == old(notifications) +
                     [Notification(old(notificationSeq), Some(o.sellerId), orderId, "order_completed",
                                   CompletedMessage(o.code), false, now),
                      Notification(old(notificationSeq) + 1, o.buyerId, orderId, "order_completed",
                                   CompletedMessage(o.code), false, now)]
                && notificationSeq == old(notificationSeq) + 2
                && users == SettleSellerRow(old(users), o.sellerId, o.currency, o.amount, now)
      ensures status != Paid && status != Completed ==>
                && notifications == old(notifications)
                && notificationSeq == old(notificationSeq)
                && users == old(users)
      ensures userSeq == old(userSeq) && orderSeq == old(orderSeq)
    {
      o := orders[k].(status := status, updatedAt := now);
      ReplaceOrder(k, o);
      if status == Paid {
        InsertNotification(Some(o.sellerId), orderId, "payment_confirmed", PaidMessage(o.code), now);
      } else if status == Completed {
        Complete(o, orderId, now);
      }
    }

    /** GET /users/:telegram_id/notifications: `[]` for an unknown account;
        otherwise at most 50 of its notifications, newest first, and none
        left out is newer than one returned. */
    method UserNotifications(telegramId: string) returns (r: seq<Notification>)
      ensures |r| <= NotificationLimit
      ensures FindUser(users, telegramId).None? ==> r == []
      ensures FindUser(users, telegramId).Some? ==>
        var uid := users[FindUser(users, telegramId).value].id;
        var mine := NotificationsNewestFirst(notifications, uid);
        && (forall n :: n in r ==> n in notifications && n.userId == Some(uid))
        && |r| == (if |mine| < NotificationLimit then |mine| else NotificationLimit)
        && r == mine[..|r|]
        && (forall n, m :: n in mine && n !in r && m in r ==> n.createdAt <= m.createdAt)
        && multiset(r) <= multiset(Filter(notifications, (n: Notification) => n.userId == Some(uid)))
      ensures forall i, j :: 0 <= i < j < |r| ==> r[i].createdAt >= r[j].createdAt
    {
      var found := FindUser(users, telegramId);
      if found.None? {
        return [];
      }
      var uid := users[found.value].id;
      r := RecentNotifications(notifications, uid);
    }

    /** PUT /notifications/:id/read: sets the read flag of that row; an
        unknown id updates nothing and the answer has no body. */
    method MarkRead(id: int) returns (r: Response<Option<Notification>>)
      requires Valid()
      modifies this
      ensures Valid()
      ensures match FindNotification(old(notifications), id)
        case None => r == Ok(None) && unchanged(this)
        case Some(k) =>
          var n := old(notifications)[k].(read := true);
          r == Ok(Some(n)) && notifications == old(notifications)[k := n]
      ensures users == old(users) && orders == old(orders)
      ensures userSeq == old(userSeq) && orderSeq == old(orderSeq) && notificationSeq == old(notificationSeq)
    {
      var found := FindNotification(notifications, id);
      if found.None? {
        return Ok(None);
      }
      var k := found.value;
      var n := notifications[k].(read := true);
      notifications := notifications[k := n];
      r := Ok(Some(n));
    }
  }
}
