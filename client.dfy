/** The decision logic of the web client (script.js): the checks the
    order form makes before sending a request, the channel-to-currency
    mapping, the display labels, which buttons an order card offers, the
    order of the order list, and what opening an order link offers. */
module Client {

  import opened Basics
  import opened Seqs

  // ---- labels ----

  /** `getTypeText`: the label of a known item type, otherwise the key. */
  function TypeText(itemType: string): (r: string)
    ensures r == itemType <==> itemType !in {"nft_gift", "nft_username", "nft_number"}
  {
    if itemType == "nft_gift" then "Продажа NFT подарка"
    else if itemType == "nft_username" then "Продажа NFT username"
    else if itemType == "nft_number" then "Продажа NFT number"
    else itemType
  }

  /** `getPaymentText`: the label of a known payment channel, otherwise the key. */
  function PaymentText(channel: string): (r: string)
    ensures r == channel <==> channel !in {"ton", "card", "stars"}
  {
    if channel == "ton" then "TON кошелёк"
    else if channel == "card" then "Банковская карта"
    else if channel == "stars" then "Telegram Stars"
    else channel
  }

  /** The currency of a payment channel. */
  function CurrencyFor(channel: string): (c: string)
    ensures c in {"TON", "STARS", "RUB"}
    ensures c == "TON" <==> channel == "ton"
    ensures c == "STARS" <==> channel == "stars"
  {
    if channel == "ton" then "TON" else if channel == "stars" then "STARS" else "RUB"
  }

  /** `updateCurrencyDisplay`: the currency shown for the channel picked so
      far; before any pick it is RUB. */
  function DisplayedCurrency(channel: Option<string>): (c: string)
    ensures channel.Some? ==> c == CurrencyFor(channel.value)
    ensures channel.None? ==> c == "RUB"
  {
    match channel
    case None => "RUB"
    case Some(ch) => CurrencyFor(ch)
  }

  // ---- order status on a card ----

  datatype StatusLabel = ActiveLabel | PaidLabel | CompletedLabel | CancelledLabel

  /** The `switch (order.status)` of `createOrderCard`, default active. */
  function LabelOf(status: string): (l: StatusLabel)
    ensures StatusOf(l) == status || (l == ActiveLabel && status !in {Paid, Completed, Cancelled})
  {
    if status == Paid then PaidLabel
    else if status == Completed then CompletedLabel
    else if status == Cancelled then CancelledLabel
    else ActiveLabel
  }

  /** The Russian text of a label. */
  function LabelText(l: StatusLabel): (t: string)
    ensures LabelOfText(t) == Some(l)
  {
    match l
    case ActiveLabel => "Активен"
    case PaidLabel => "Оплачен"
    case CompletedLabel => "Завершен"
    case CancelledLabel => "Отменен"
  }

  /** Reads a label back from its text. */
  function LabelOfText(t: string): Option<StatusLabel>
  {
    if t == "Активен" then Some(ActiveLabel)
    else if t == "Оплачен" then Some(PaidLabel)
    else if t == "Завершен" then Some(CompletedLabel)
    else if t == "Отменен" then Some(CancelledLabel)
    else None
  }

  function LabelClass(l: StatusLabel): (c: string)
    ensures c == "status-" + StatusOf(l)
  {
    match l
    case ActiveLabel => "status-active"
    case PaidLabel => "status-paid"
    case CompletedLabel => "status-completed"
    case CancelledLabel => "status-cancelled"
  }

  /** Distinct statuses get distinct labels and distinct style classes. */
  lemma LabelsDistinct(l: StatusLabel, m: StatusLabel)
    requires l != m
    ensures LabelText(l) != LabelText(m)
    ensures LabelClass(l) != LabelClass(m)
  {
    assert StatusOf(l) != StatusOf(m);
    assert ("status-" + StatusOf(l))[7..] == StatusOf(l);
    assert ("status-" + StatusOf(m))[7..] == StatusOf(m);
  }

  /** The status a label stands for. */
  function StatusOf(l: StatusLabel): string
  {
    match l
    case ActiveLabel => Active
    case PaidLabel => Paid
    case CompletedLabel => Completed
    case CancelledLabel => Cancelled
  }

  /** Each label is the label of its own status, and a status gets a label of
      its own exactly when it is one of the four known ones; every other
      string is shown as active. */
  lemma LabelRoundTrip(l: StatusLabel, status: string)
    ensures LabelOf(StatusOf(l)) == l
    ensures StatusOf(LabelOf(status)) == status <==> status in {Active, Paid, Completed, Cancelled}
    ensures status !in {Paid, Completed, Cancelled} <==> LabelOf(status) == ActiveLabel
  {
  }

  // ---- order cards ----

  /** The fields of an order the client reads. */
  datatype CardOrder = CardOrder(
    id: nat,
    code: string,
    status: string,
    sellerTelegramId: Option<string>,
    buyerTelegramId: Option<string>,
    createdAt: int)

  /** The buttons of a card, in the order they are rendered. */
  datatype Action = Pay | ConfirmPayment | ConfirmTransfer | ConfirmReceipt | Details

  /** The viewer's telegram id is the card's seller (`===`, so two nulls match). */
  predicate IsSeller(o: CardOrder, viewer: Option<string>) { o.sellerTelegramId == viewer }
  predicate IsBuyer(o: CardOrder, viewer: Option<string>) { o.buyerTelegramId == viewer }

  /** The action buttons of `createOrderCard` for this viewer. */
  function CardActions(o: CardOrder, viewer: Option<string>): (r: seq<Action>)
    ensures Pay in r <==> o.status == Active && !IsSeller(o, viewer)
    ensures ConfirmPayment in r <==> o.status == Active && IsBuyer(o, viewer)
    ensures ConfirmTransfer in r <==> o.status == Active && IsSeller(o, viewer) && Truthy(o.buyerTelegramId)
    ensures ConfirmReceipt in r <==> o.status == Paid && IsBuyer(o, viewer)
    ensures r != [] && r[|r| - 1] == Details && Details !in r[..|r| - 1]
  {
    var active :=
      if o.status != Active then []
      else (if !IsSeller(o, viewer) then [Pay] else [])
           + (if IsBuyer(o, viewer) then [ConfirmPayment] else [])
           + (if IsSeller(o, viewer) && Truthy(o.buyerTelegramId) then [ConfirmTransfer] else []);
    var paid := if o.status == Paid && IsBuyer(o, viewer) then [ConfirmReceipt] else [];
    active + paid + [Details]
  }

  /** "Pay" and "Asset transferred" never share a card; a card
      offering "Received" offers nothing for an active order. */
  lemma CardActionsExclusive(o: CardOrder, viewer: Option<string>)
    ensures !(Pay in CardActions(o, viewer) && ConfirmTransfer in CardActions(o, viewer))
    ensures ConfirmReceipt in CardActions(o, viewer) ==>
              CardActions(o, viewer) == [ConfirmReceipt, Details]
  {
  }

  // ---- the order list ----

  /** `updateOrdersList`: the orders newest first. */
  function ListedOrders(orders: seq<CardOrder>): (r: seq<CardOrder>)
    ensures multiset(r) == multiset(orders)
    ensures forall i, j :: 0 <= i < j < |r| ==> r[i].createdAt >= r[j].createdAt
  {
    SortDesc(orders, (o: CardOrder) => o.createdAt)
  }

  // ---- opening an order link ----

  datatype LinkPrompt = OwnOrderNotice | JoinOffer | PaymentDetails

  /** `checkOrderFromUrl`: an active order without buyer offers joining to
      anyone but its seller (who is told it is their own order); any other
      order opens its payment details. */
  function LinkPromptFor(o: CardOrder, viewer: Option<string>): (r: LinkPrompt)
    ensures r == JoinOffer <==> o.status == Active && !Truthy(o.buyerTelegramId) && !IsSeller(o, viewer)
    ensures r == OwnOrderNotice <==> o.status == Active && !Truthy(o.buyerTelegramId) && IsSeller(o, viewer)
  {
    if o.status == Active && !Truthy(o.buyerTelegramId) then
      (if IsSeller(o, viewer) then OwnOrderNotice else JoinOffer)
    else PaymentDetails
  }

  /** A viewer offered to join an order sees "Pay" on its card and not
      "Asset transferred". */
  lemma JoinOfferMatchesCard(o: CardOrder, viewer: Option<string>)
    requires LinkPromptFor(o, viewer) == JoinOffer
    ensures Pay in CardActions(o, viewer) && ConfirmTransfer !in CardActions(o, viewer)
  {
  }

  // ---- the order form ----

  /** JavaScript's `trim` whitespace: white space and line terminators. */
  predicate IsJsSpace(c: char)
  {
    || ('\t' <= c <= '\r') || c == ' ' || c == '\U{00A0}' || c == '\U{1680}'
    || ('\U{2000}' <= c <= '\U{200A}') || c == '\U{2028}' || c == '\U{2029}'
    || c == '\U{202F}' || c == '\U{205F}' || c == '\U{3000}' || c == '\U{FEFF}'
  }

  /** Where `trim` starts: the first index from `i` on that is not white
      space, or `|s|`. */
  function TrimStartIndex(s: string, i: nat): (n: nat)
    requires i <= |s|
    ensures i <= n <= |s|
    ensures forall k :: i <= k < n ==> IsJsSpace(s[k])
    ensures n < |s| ==> !IsJsSpace(s[n])
    decreases |s| - i
  {
    if i < |s| && IsJsSpace(s[i]) then TrimStartIndex(s, i + 1) else i
  }

  /** Where `trim` ends: going down from `j`, the end of the last character
      above `lo` that is not white space, or `lo`. */
  function TrimEndIndex(s: string, lo: nat, j: nat): (m: nat)
    requires lo <= j <= |s|
    ensures lo <= m <= j
    ensures forall k :: m <= k < j ==> IsJsSpace(s[k])
    ensures m > lo ==> !IsJsSpace(s[m - 1])
    decreases j
  {
    if j > lo && IsJsSpace(s[j - 1]) then TrimEndIndex(s, lo, j - 1) else j
  }

  /** `String.prototype.trim`: the slice between the leading and the
      trailing white space. */
  function Trim(s: string): (r: string)
    ensures var i := TrimStartIndex(s, 0);
            && i + |r| <= |s| && r == s[i..i + |r|]
            && (forall k :: 0 <= k < i ==> IsJsSpace(s[k]))
            && (forall k :: i + |r| <= k < |s| ==> IsJsSpace(s[k]))
    ensures r != [] ==> !IsJsSpace(r[0]) && !IsJsSpace(r[|r| - 1])
    ensures r == [] <==> forall k :: 0 <= k < |s| ==> IsJsSpace(s[k])
  {
    var i := TrimStartIndex(s, 0);
    var j := TrimEndIndex(s, i, |s|);
    TrimSliceBounds(s, i, j);
    s[i..j]
  }

  /** A slice with white space, and only white space, on both sides. */
  lemma TrimSliceBounds(s: string, i: nat, j: nat)
    requires i <= j <= |s|
    requires forall k :: 0 <= k < i ==> IsJsSpace(s[k])
    requires forall k :: j <= k < |s| ==> IsJsSpace(s[k])
    requires i < |s| ==> !IsJsSpace(s[i])
    requires j > i ==> !IsJsSpace(s[j - 1])
    ensures var r := s[i..j];
            && (r != [] ==> !IsJsSpace(r[0]) && !IsJsSpace(r[|r| - 1]))
            && (r == [] <==> forall k :: 0 <= k < |s| ==> IsJsSpace(s[k]))
  {
    var r := s[i..j];
    assert |r| == j - i;
    if r != [] {
      assert r[0] == s[i] && r[|r| - 1] == s[j - 1];
    }
  }

  /** `state.currentOrderData`: the item type and channel picked so far. */
  datatype Draft = Draft(itemType: Option<string>, paymentMethod: Option<string>)

  /** `state.user.requisites` as far as the form looks at them. */
  datatype ClientRequisites = ClientRequisites(
    tonWallet: Option<string>,
    card: Option<string>,
    telegram: Option<string>)

  /** The body of POST /orders sent by the form. */
  datatype OrderRequest = OrderRequest(
    sellerTelegramId: Option<string>,
    itemType: string,
    paymentMethod: string,
    amount: real,
    currency: string,
    description: string)

  datatype FormError = IncompleteForm | NonPositiveAmount | MissingTonWallet | MissingCard | MissingTelegram

  datatype Submission = Send(request: OrderRequest) | Reject(error: FormError)

  /** `t` ends with `suffix`. */
  predicate EndsWith(t: string, suffix: string)
  {
    |suffix| <= |t| && t[|t| - |suffix|..] == suffix
  }

  /** The common tail of the three requisite toasts. */
  const InRequisites := " в реквизитах"

  lemma EndsWithAppended(t: string, suffix: string)
    ensures EndsWith(t + suffix, suffix)
  {
    assert (t + suffix)[|t|..] == suffix;
  }

  /** The toast shown for each rejection: exactly the three that switch to
      the requisites page point the user to the requisites. */
  function ErrorMessage(e: FormError): (m: string)
    ensures OpensRequisites(e) <==> EndsWith(m, InRequisites)
  {
    match e
    case IncompleteForm =>
      var m := "Заполните все поля";
      assert m[|m| - 1] != InRequisites[|InRequisites| - 1];
      m
    case NonPositiveAmount =>
      var m := "Сумма должна быть больше нуля";
      assert m[|m| - 1] != InRequisites[|InRequisites| - 1];
      m
    case MissingTonWallet =>
      EndsWithAppended("Добавьте TON кошелёк", InRequisites);
      "Добавьте TON кошелёк" + InRequisites
    case MissingCard =>
      EndsWithAppended("Добавьте банковскую карту", InRequisites);
      "Добавьте банковскую карту" + InRequisites
    case MissingTelegram =>
      EndsWithAppended("Добавьте Telegram", InRequisites);
      "Добавьте Telegram" + InRequisites
  }

  /** Each rejection has its own toast. */
  lemma ErrorMessagesDistinct(e: FormError, f: FormError)
    requires e != f
    ensures ErrorMessage(e) != ErrorMessage(f)
  {
  }

  /** A missing requisite also switches to the requisites page. */
  predicate OpensRequisites(e: FormError)
  {
    e.MissingTonWallet? || e.MissingCard? || e.MissingTelegram?
  }

  /** The requisite a channel needs is on file (a channel other than these
      three needs none). */
  predicate HasRequisiteFor(channel: string, req: ClientRequisites)
    ensures channel !in {"ton", "card", "stars"} ==> HasRequisiteFor(channel, req)
  {
    && (channel == "ton" ==> Truthy(req.tonWallet))
    && (channel == "card" ==> Truthy(req.card))
    && (channel == "stars" ==> Truthy(req.telegram))
  }

  /** The form is filled in: type and channel picked, amount and description
      not blank. */
  predicate FormComplete(draft: Draft, amountInput: string, descriptionInput: string)
    ensures FormComplete(draft, amountInput, descriptionInput) <==>
              && Truthy(draft.itemType) && Truthy(draft.paymentMethod)
              && (exists k :: 0 <= k < |amountInput| && !IsJsSpace(amountInput[k]))
              && (exists k :: 0 <= k < |descriptionInput| && !IsJsSpace(descriptionInput[k]))
  {
    Truthy(draft.itemType) && Truthy(draft.paymentMethod)
    && Trim(amountInput) != "" && Trim(descriptionInput) != ""
  }

  /** The checks of `createOrder`, in order, before it sends its request.
      `parsedAmount` is what `parseFloat` makes of the trimmed amount text
      (`None` for NaN). */
  function PrepareOrder(draft: Draft, req: ClientRequisites, viewer: Option<string>,
                        amountInput: string, descriptionInput: string, parsedAmount: Option<real>)
    : (r: Submission)
    ensures r == Reject(IncompleteForm) <==> !FormComplete(draft, amountInput, descriptionInput)
    ensures r == Reject(NonPositiveAmount) <==>
              FormComplete(draft, amountInput, descriptionInput)
              && (parsedAmount.None? || parsedAmount.value <= 0.0)
    ensures r.Send? <==>
              && FormComplete(draft, amountInput, descriptionInput)
              && parsedAmount.Some? && parsedAmount.value > 0.0
              && HasRequisiteFor(draft.paymentMethod.value, req)
    ensures r.Reject? && OpensRequisites(r.error) ==>
              !HasRequisiteFor(draft.paymentMethod.value, req)
    ensures FormComplete(draft, amountInput, descriptionInput) && parsedAmount.Some? && parsedAmount.value > 0.0 ==>
              && (draft.paymentMethod.value == "ton" && !Truthy(req.tonWallet) ==> r == Reject(MissingTonWallet))
              && (draft.paymentMethod.value == "card" && !Truthy(req.card) ==> r == Reject(MissingCard))
              && (draft.paymentMethod.value == "stars" && !Truthy(req.telegram) ==> r == Reject(MissingTelegram))
    ensures r.Send? ==>
              && r.request.sellerTelegramId == viewer
              && r.request.itemType == draft.itemType.value
              && r.request.paymentMethod == draft.paymentMethod.value
              && r.request.amount == parsedAmount.value
              && r.request.currency == CurrencyFor(draft.paymentMethod.value)
              && r.request.description == Trim(descriptionInput)
  {
    if !FormComplete(draft, amountInput, descriptionInput) then Reject(IncompleteForm)
    else if parsedAmount.None? || parsedAmount.value <= 0.0 then Reject(NonPositiveAmount)
    else
      var channel := draft.paymentMethod.value;
      if channel == "ton" && !Truthy(req.tonWallet) then Reject(MissingTonWallet)
      else if channel == "card" && !Truthy(req.card) then Reject(MissingCard)
      else if channel == "stars" && !Truthy(req.telegram) then Reject(MissingTelegram)
      else Send(OrderRequest(viewer, draft.itemType.value, channel, parsedAmount.value,
                             CurrencyFor(channel), Trim(descriptionInput)))
  }

  /** The currency the form showed is the currency it sends. */
  lemma SentCurrencyIsDisplayed(draft: Draft, req: ClientRequisites, viewer: Option<string>,
                                amountInput: string, descriptionInput: string, parsedAmount: Option<real>)
    requires PrepareOrder(draft, req, viewer, amountInput, descriptionInput, parsedAmount).Send?
    ensures DisplayedCurrency(draft.paymentMethod)
            == PrepareOrder(draft, req, viewer, amountInput, descriptionInput, parsedAmount).request.currency
  {
  }
}
