/**
 * The webhook endpoint: the decision `handle` takes on a request (reject,
 * acknowledge, or reconcile an order), the order lookup cascade, and the six
 * reconciliations, each stated as a function on the order's value and
 * carried out in place by a method that calls the order's own operations.
 */
module Webhook {
  import opened Wrappers
  import opened PhpArray
  import opened PhpValues
  import opened CregisApi
  import opened Orders

  /** `sanitize_text_field($data[$k])` */
  function Field(d: Value, k: string): string {
    SanitizeText(Get(d, k))
  }

  /** `$data[$k]` as `sprintf('%s', …)` prints it. */
  function Shown(d: Value, k: string): string {
    ToPhpString(Get(d, k))
  }

  /** The transaction hash, amount and currency every payment event records. */
  function PaymentRecorded(s: OrderState, d: Value): OrderState {
    WithMeta(WithMeta(WithMeta(s,
      "_cregis_transaction_hash", Field(d, "tx_id")),
      "_cregis_pay_amount", Field(d, "pay_amount")),
      "_cregis_pay_currency", Field(d, "pay_currency"))
  }

  /** `handle_paid` on the order found. */
  function OnPaid(s: OrderState, needsProcessing: bool, d: Value): OrderState {
    if IsPaid(s.status) then s
    else
      var recorded := WithMeta(WithMeta(PaymentRecorded(s, d),
        "_cregis_payment_address", Field(d, "payment_address")),
        "_cregis_transact_time", Field(d, "transact_time"));
      WithNote(PaymentCompleted(recorded, needsProcessing, Get(d, "tx_id")),
        "Cryptocurrency payment received. Transaction hash: " + Shown(d, "tx_id"))
  }

  /** `handle_partial_paid` on the order found. */
  function OnPartialPaid(s: OrderState, d: Value): OrderState {
    var recorded := PaymentRecorded(WithMeta(s, "_cregis_status", "partial_paid"), d);
    WithNote(StatusUpdated(recorded, OnHold, "Partial cryptocurrency payment received"),
      "Partial payment received: " + Shown(d, "pay_amount") + " " + Shown(d, "pay_currency") +
      ". Transaction hash: " + Shown(d, "tx_id"))
  }

  /** `handle_overpaid` on the order found. */
  function OnOverpaid(s: OrderState, needsProcessing: bool, d: Value): OrderState {
    var recorded := PaymentRecorded(WithMeta(s, "_cregis_status", "overpaid"), d);
    WithNote(PaymentCompleted(recorded, needsProcessing, Get(d, "tx_id")),
      "Overpayment received: " + Shown(d, "pay_amount") + " " + Shown(d, "pay_currency") +
      ". Transaction hash: " + Shown(d, "tx_id"))
  }

  /** `handle_expired` on the order found. */
  function OnExpired(s: OrderState): OrderState {
    if IsPaid(s.status) then s
    else WithNote(StatusUpdated(s, Cancelled, "Cryptocurrency payment expired"), "Payment order expired without payment")
  }

  /** `handle_refunded` on the order found. */
  function OnRefunded(s: OrderState, d: Value): OrderState {
    var recorded := WithMeta(WithMeta(WithMeta(s,
      "_cregis_refund_id", Field(d, "refund_id")),
      "_cregis_refund_amount", Field(d, "refund_amount")),
      "_cregis_refund_tx_id", Field(d, "refund_tx_id"));
    WithNote(recorded,
      "Refund processed: " + Shown(d, "actual_refund_amount") + " " + Shown(d, "refund_currency") +
      ". Transaction hash: " + Shown(d, "refund_tx_id"))
  }

  /** `handle_additional_payment` on the order found. */
  function OnAdditionalPayment(s: OrderState, needsProcessing: bool, d: Value): OrderState {
    var recorded := WithMeta(WithMeta(s,
      "_cregis_additional_payment", Field(d, "additional_pay_amount")),
      "_cregis_additional_tx_id", Field(d, "additional_payment_tx_id"));
    var settled := if IsPaid(recorded.status) then recorded
                   else PaymentCompleted(recorded, needsProcessing, Get(d, "additional_payment_tx_id"));
    WithNote(settled,
      "Additional payment received: " + Shown(d, "additional_pay_amount") + " " +
      Shown(d, "additional_pay_currency") + ". Transaction hash: " + Shown(d, "additional_payment_tx_id"))
  }

  /** The `event_type` values `handle` dispatches on. */
  datatype Event = PaidEvent | PartialPaidEvent | OverpaidEvent | ExpiredEvent | RefundedEvent | AdditionalPaymentEvent

  function EventOf(eventType: string): (r: Option<Event>)
    ensures r.Some? ==> eventType in ["paid", "paid_partial", "paid_over", "expired", "refunded", "paid_remain"]
    ensures r == None <==> eventType !in ["paid", "paid_partial", "paid_over", "expired", "refunded", "paid_remain"]
  {
    match eventType
    case "paid" => Some(PaidEvent)
    case "paid_partial" => Some(PartialPaidEvent)
    case "paid_over" => Some(OverpaidEvent)
    case "expired" => Some(ExpiredEvent)
    case "refunded" => Some(RefundedEvent)
    case "paid_remain" => Some(AdditionalPaymentEvent)
    case _ => None
  }

  /** What the handler for `e` does to the order it found. */
  function Reconciled(e: Event, s: OrderState, needsProcessing: bool, d: Value): OrderState {
    match e
    case PaidEvent => OnPaid(s, needsProcessing, d)
    case PartialPaidEvent => OnPartialPaid(s, d)
    case OverpaidEvent => OnOverpaid(s, needsProcessing, d)
    case ExpiredEvent => OnExpired(s)
    case RefundedEvent => OnRefunded(s, d)
    case AdditionalPaymentEvent => OnAdditionalPayment(s, needsProcessing, d)
  }

  /**
   * A paid event pays an order awaiting payment (on-hold, pending, failed or
   * cancelled), and a repeated paid event then changes nothing at all.
   */
  lemma DuplicatePaidIgnored(s: OrderState, needsProcessing: bool, d: Value, d2: Value)
    ensures IsPaid(s.status) ==> OnPaid(s, needsProcessing, d) == s
    ensures PaymentCompletable(s.status) ==> IsPaid(OnPaid(s, needsProcessing, d).status)
    ensures PaymentCompletable(s.status) ==>
              OnPaid(OnPaid(s, needsProcessing, d), needsProcessing, d2) == OnPaid(s, needsProcessing, d)
  {
  }

  /**
   * On an unpaid order a paid event records the five payment fields, takes
   * the transaction id, and ends with the note naming the transaction hash.
   */
  lemma PaidRecordsPayment(s: OrderState, needsProcessing: bool, d: Value)
    requires !IsPaid(s.status)
    ensures var r := OnPaid(s, needsProcessing, d);
            && r.meta == s.meta["_cregis_transaction_hash" := Field(d, "tx_id")]
                                ["_cregis_pay_amount" := Field(d, "pay_amount")]
                                ["_cregis_pay_currency" := Field(d, "pay_currency")]
                                ["_cregis_payment_address" := Field(d, "payment_address")]
                                ["_cregis_transact_time" := Field(d, "transact_time")]
            && r.notes[|r.notes| - 1] == Text("Cryptocurrency payment received. Transaction hash: " + Shown(d, "tx_id"))
            && (PaymentCompletable(s.status) && !IsEmpty(Get(d, "tx_id")) ==> r.transactionId == Shown(d, "tx_id"))
  {
    var recorded := WithMeta(WithMeta(PaymentRecorded(s, d),
      "_cregis_payment_address", Field(d, "payment_address")),
      "_cregis_transact_time", Field(d, "transact_time"));
    PaymentCompletedEffect(recorded, needsProcessing, Get(d, "tx_id"));
  }

  /**
   * A paid event on a refunded order records the payment fields and a note
   * but leaves the order refunded: `payment_complete` does not act on it.
   */
  lemma PaidLeavesRefundedOrder(s: OrderState, needsProcessing: bool, d: Value)
    requires s.status == Refunded
    ensures OnPaid(s, needsProcessing, d).status == Refunded
    ensures OnPaid(s, needsProcessing, d).transactionId == s.transactionId
    ensures OnPaid(s, needsProcessing, d).meta["_cregis_transaction_hash"] == Field(d, "tx_id")
  {
  }

  /**
   * Expiry cancels an unpaid order and leaves a paid one untouched; a
   * payment that arrives after expiry still completes the order, because a
   * cancelled order is one `payment_complete` acts on.
   */
  lemma ExpiryRules(s: OrderState, needsProcessing: bool, d: Value)
    ensures IsPaid(s.status) ==> OnExpired(s) == s
    ensures !IsPaid(s.status) ==> OnExpired(s).status == Cancelled && OnExpired(s).meta == s.meta
    ensures !IsPaid(s.status) ==> IsPaid(OnPaid(OnExpired(s), needsProcessing, d).status)
  {
  }

  /**
   * A partial payment always puts the order on hold, even an order that is
   * already paid: the handler has no paid guard.
   */
  lemma PartialPaymentHolds(s: OrderState, d: Value)
    ensures OnPartialPaid(s, d).status == OnHold
    ensures OnPartialPaid(s, d).meta == s.meta["_cregis_status" := "partial_paid"]
                                             ["_cregis_transaction_hash" := Field(d, "tx_id")]
                                             ["_cregis_pay_amount" := Field(d, "pay_amount")]
                                             ["_cregis_pay_currency" := Field(d, "pay_currency")]
    ensures IsPaid(s.status) ==> !IsPaid(OnPartialPaid(s, d).status)
    ensures OnPartialPaid(s, d).transactionId == s.transactionId
  {
  }

  /**
   * An overpayment pays an order awaiting payment and takes its transaction
   * id; on an order already paid it records the fields and a note but
   * `payment_complete` changes nothing.
   */
  lemma OverpaymentRules(s: OrderState, needsProcessing: bool, d: Value)
    ensures OnOverpaid(s, needsProcessing, d).meta == s.meta["_cregis_status" := "overpaid"]
                                                            ["_cregis_transaction_hash" := Field(d, "tx_id")]
                                                            ["_cregis_pay_amount" := Field(d, "pay_amount")]
                                                            ["_cregis_pay_currency" := Field(d, "pay_currency")]
    ensures PaymentCompletable(s.status) ==> IsPaid(OnOverpaid(s, needsProcessing, d).status)
    ensures PaymentCompletable(s.status) && !IsEmpty(Get(d, "tx_id")) ==>
              OnOverpaid(s, needsProcessing, d).transactionId == Shown(d, "tx_id")
    ensures IsPaid(s.status) ==>
              OnOverpaid(s, needsProcessing, d).status == s.status &&
              OnOverpaid(s, needsProcessing, d).transactionId == s.transactionId
  {
    var recorded := PaymentRecorded(WithMeta(s, "_cregis_status", "overpaid"), d);
    PaymentCompletedEffect(recorded, needsProcessing, Get(d, "tx_id"));
  }

  /** A refund event records the refund and never changes the status or the transaction id. */
  lemma RefundKeepsStatus(s: OrderState, d: Value)
    ensures OnRefunded(s, d).status == s.status
    ensures OnRefunded(s, d).transactionId == s.transactionId
    ensures OnRefunded(s, d).meta == s.meta["_cregis_refund_id" := Field(d, "refund_id")]
                                         ["_cregis_refund_amount" := Field(d, "refund_amount")]
                                         ["_cregis_refund_tx_id" := Field(d, "refund_tx_id")]
  {
  }

  /**
   * An additional payment is always recorded, but completes the payment
   * only of an order not already paid.
   */
  lemma AdditionalPaymentGuard(s: OrderState, needsProcessing: bool, d: Value)
    ensures OnAdditionalPayment(s, needsProcessing, d).meta["_cregis_additional_payment"] == Field(d, "additional_pay_amount")
    ensures OnAdditionalPayment(s, needsProcessing, d).meta["_cregis_additional_tx_id"] == Field(d, "additional_payment_tx_id")
    ensures IsPaid(s.status) ==>
              OnAdditionalPayment(s, needsProcessing, d).status == s.status &&
              OnAdditionalPayment(s, needsProcessing, d).transactionId == s.transactionId
    ensures PaymentCompletable(s.status) ==> IsPaid(OnAdditionalPayment(s, needsProcessing, d).status)
    ensures OnAdditionalPayment(s, needsProcessing, d).meta ==
              s.meta["_cregis_additional_payment" := Field(d, "additional_pay_amount")]
                    ["_cregis_additional_tx_id" := Field(d, "additional_payment_tx_id")]
    ensures PaymentCompletable(s.status) && !IsEmpty(Get(d, "additional_payment_tx_id")) ==>
              OnAdditionalPayment(s, needsProcessing, d).transactionId == Shown(d, "additional_payment_tx_id")
  {
    var recorded := WithMeta(WithMeta(s,
      "_cregis_additional_payment", Field(d, "additional_pay_amount")),
      "_cregis_additional_tx_id", Field(d, "additional_payment_tx_id"));
    PaymentCompletedEffect(recorded, needsProcessing, Get(d, "additional_payment_tx_id"));
  }

  /** `r` keeps every note of `s` as a prefix and every metadata key of `s`. */
  predicate Extends(s: OrderState, r: OrderState) {
    s.notes <= r.notes && forall k :: k in s.meta ==> k in r.meta
  }

  lemma PaymentCompletedExtends(s: OrderState, needsProcessing: bool, tx: Value)
    ensures Extends(s, PaymentCompleted(s, needsProcessing, tx))
  {
    PaymentCompletedEffect(s, needsProcessing, tx);
  }

  lemma PaidExtends(s: OrderState, needsProcessing: bool, d: Value)
    ensures Extends(s, OnPaid(s, needsProcessing, d))
  {
    if !IsPaid(s.status) {
      var recorded := WithMeta(WithMeta(PaymentRecorded(s, d),
        "_cregis_payment_address", Field(d, "payment_address")),
        "_cregis_transact_time", Field(d, "transact_time"));
      PaymentCompletedExtends(recorded, needsProcessing, Get(d, "tx_id"));
    }
  }

  lemma OverpaidExtends(s: OrderState, needsProcessing: bool, d: Value)
    ensures Extends(s, OnOverpaid(s, needsProcessing, d))
  {
    var recorded := PaymentRecorded(WithMeta(s, "_cregis_status", "overpaid"), d);
    PaymentCompletedExtends(recorded, needsProcessing, Get(d, "tx_id"));
  }

  lemma AdditionalPaymentExtends(s: OrderState, needsProcessing: bool, d: Value)
    ensures Extends(s, OnAdditionalPayment(s, needsProcessing, d))
  {
    var recorded := WithMeta(WithMeta(s,
      "_cregis_additional_payment", Field(d, "additional_pay_amount")),
      "_cregis_additional_tx_id", Field(d, "additional_payment_tx_id"));
    PaymentCompletedExtends(recorded, needsProcessing, Get(d, "additional_payment_tx_id"));
  }

  /** Every reconciliation keeps the order's notes as a prefix and removes no metadata key. */
  lemma ReconcileOnlyAdds(e: Event, s: OrderState, needsProcessing: bool, d: Value)
    ensures s.notes <= Reconciled(e, s, needsProcessing, d).notes
    ensures forall k :: k in s.meta ==> k in Reconciled(e, s, needsProcessing, d).meta
  {
    match e
    case PaidEvent => PaidExtends(s, needsProcessing, d);
    case PartialPaidEvent => PartialPaidExtends(s, d);
    case OverpaidEvent => OverpaidExtends(s, needsProcessing, d);
    case ExpiredEvent => ExpiredExtends(s);
    case RefundedEvent => RefundedExtends(s, d);
    case AdditionalPaymentEvent => AdditionalPaymentExtends(s, needsProcessing, d);
  }

  lemma PartialPaidExtends(s: OrderState, d: Value)
    ensures Extends(s, OnPartialPaid(s, d))
  {
  }

  lemma ExpiredExtends(s: OrderState)
    ensures Extends(s, OnExpired(s))
  {
  }

  lemma RefundedExtends(s: OrderState, d: Value)
    ensures Extends(s, OnRefunded(s, d))
  {
  }

  /** Only a partial payment can take a paid order out of the paid statuses. */
  lemma OnlyPartialPaymentUnpays(e: Event, s: OrderState, needsProcessing: bool, d: Value)
    requires IsPaid(s.status) && e != PartialPaidEvent
    ensures Reconciled(e, s, needsProcessing, d).status == s.status
  {
    match e
    case PaidEvent =>
    case OverpaidEvent => OverpaidKeepsPaidStatus(s, needsProcessing, d);
    case ExpiredEvent =>
    case RefundedEvent => assert OnRefunded(s, d).status == s.status;
    case AdditionalPaymentEvent => AdditionalKeepsPaidStatus(s, needsProcessing, d);
  }

  lemma OverpaidKeepsPaidStatus(s: OrderState, needsProcessing: bool, d: Value)
    requires IsPaid(s.status)
    ensures OnOverpaid(s, needsProcessing, d).status == s.status
  {
    var recorded := PaymentRecorded(WithMeta(s, "_cregis_status", "overpaid"), d);
    PaymentCompletedEffect(recorded, needsProcessing, Get(d, "tx_id"));
  }

  lemma AdditionalKeepsPaidStatus(s: OrderState, needsProcessing: bool, d: Value)
    requires IsPaid(s.status)
    ensures OnAdditionalPayment(s, needsProcessing, d).status == s.status
  {
  }

  /**
   * `get_order_by_order_id($v)`: the newest order whose `_order_number` is
   * `$v`; else the order whose key is `$v`; else, when `$v` is numeric, the
   * order with that id. The order found matches `$v` through one of the three.
   */
  function OrderByOrderId(orders: seq<Order>, v: Value): (r: Option<Order>)
    reads set o | o in orders
    ensures r.Some? ==> r.value in orders
    ensures r.Some? ==>
              || HasOrderNumber(r.value, ToPhpString(v))
              || (exists o :: o in orders && o.orderKey == ToPhpString(v) && o.id == r.value.id)
              || (IsNumericValue(v) && r.value.id == IntVal(v))
  {
    var number := ToPhpString(v);
    var byNumber := NewestByNumber(orders, number);
    if byNumber.Some? then byNumber
    else
      var id := IdByOrderKey(orders, number);
      if id != 0 then FindById(orders, id)
      else if IsNumericValue(v) && IntVal(v) > 0 then FindById(orders, IntVal(v))
      else None
  }

  /**
   * The lookup fails only when all three sources fail; in particular the
   * second step never fails once a key has given an id.
   */
  lemma OrderLookupFails(orders: seq<Order>, v: Value)
    ensures OrderByOrderId(orders, v).None? <==>
              && (forall o :: o in orders ==> !HasOrderNumber(o, ToPhpString(v)))
              && (forall o :: o in orders ==> o.orderKey != ToPhpString(v))
              && !(IsNumericValue(v) && exists o :: o in orders && o.id == IntVal(v))
  {
    var id := IdByOrderKey(orders, ToPhpString(v));
    if id != 0 {
      var o :| o in orders && o.orderKey == ToPhpString(v) && o.id == id;
    }
  }

  /** An order carrying the `_order_number` asked for wins over the other two sources. */
  lemma OrderNumberFirst(orders: seq<Order>, v: Value, o: Order)
    requires o in orders && HasOrderNumber(o, ToPhpString(v))
    ensures OrderByOrderId(orders, v).Some?
    ensures HasOrderNumber(OrderByOrderId(orders, v).value, ToPhpString(v))
    ensures o.created <= OrderByOrderId(orders, v).value.created
  {
  }

  /**
   * When no order carries the number, the order holding the key is the one
   * found, in a store whose ids and keys are distinct.
   */
  lemma OrderFoundByKey(orders: seq<Order>, v: Value, o: Order)
    requires UniqueIds(orders) && UniqueKeys(orders)
    requires o in orders && o.orderKey == ToPhpString(v)
    requires forall o' :: o' in orders ==> !HasOrderNumber(o', ToPhpString(v))
    ensures OrderByOrderId(orders, v) == Some(o)
  {
    KeyGivesId(orders, o);
    FindByIdUnique(orders, o);
  }

  /**
   * When no order carries the number or the key, a numeric `$v` finds the
   * order with that id, in a store whose ids are distinct.
   */
  lemma OrderFoundById(orders: seq<Order>, v: Value, o: Order)
    requires UniqueIds(orders)
    requires o in orders && IsNumericValue(v) && o.id == IntVal(v)
    requires forall o' :: o' in orders ==> !HasOrderNumber(o', ToPhpString(v)) && o'.orderKey != ToPhpString(v)
    ensures OrderByOrderId(orders, v) == Some(o)
  {
    FindByIdUnique(orders, o);
  }

  /** The HTTP status and body `handle` ends with. */
  datatype Response = Response(code: int, body: string)

  /** What `handle` decides to do with a request, before any order is looked up. */
  datatype Decision = Reject(code: int, body: string) | Acknowledge | Reconcile(event: Event, data: Value)

  /** `$data[$k] ?? $default` */
  function GetOr(d: Value, k: string, default: Value): Value {
    if Get(d, k) != Null then Get(d, k) else default
  }

  /**
   * The decision `handle` takes on a raw body and its JSON decoding (None
   * when `json_decode` reports an error). Only an authentic payload is
   * acknowledged or reconciled; everything else is rejected with 400 or 401.
   */
  function Decide(api: ApiClient, raw: string, decoded: Option<Value>): (r: Decision)
    ensures r.Reject? ==> r.code == 400 || r.code == 401
    ensures !r.Reject? ==> !IsEmpty(Str(raw)) && decoded.Some? && VerifyWebhookSignature(api, decoded.value)
  {
    if IsEmpty(Str(raw)) then Reject(400, "Invalid payload")
    else if decoded.None? then Reject(400, "Invalid JSON")
    else
      var data := decoded.value;
      if !VerifyWebhookSignature(api, data) then Reject(401, "Invalid signature")
      else
        var eventName := SanitizeText(GetOr(data, "event_name", Str("")));
        var eventType := SanitizeText(GetOr(data, "event_type", Str("")));
        var orderData := GetOr(data, "data", Dict([]));
        if eventName != "order" then Acknowledge
        else match EventOf(eventType)
          case None => Acknowledge
          case Some(e) => Reconcile(e, orderData)
  }

  /**
   * `handle` answers 400 to an empty body and to JSON it cannot decode, 401
   * to a payload whose signature fails, and runs a handler only for an
   * authentic `order` event of a known type, on the payload's `data`.
   */
  lemma DecisionRules(api: ApiClient, raw: string, decoded: Option<Value>)
    ensures IsEmpty(Str(raw)) ==> Decide(api, raw, decoded) == Reject(400, "Invalid payload")
    ensures !IsEmpty(Str(raw)) && decoded.None? ==> Decide(api, raw, decoded) == Reject(400, "Invalid JSON")
    ensures !IsEmpty(Str(raw)) && decoded.Some? && !VerifyWebhookSignature(api, decoded.value) ==>
              Decide(api, raw, decoded) == Reject(401, "Invalid signature")
    ensures Decide(api, raw, decoded).Reject? ==> Decide(api, raw, decoded).code in {400, 401}
    ensures Decide(api, raw, decoded).Reconcile? ==>
              && decoded.Some? && VerifyWebhookSignature(api, decoded.value)
              && SanitizeText(Get(decoded.value, "event_name")) == "order"
              && EventOf(SanitizeText(Get(decoded.value, "event_type"))) == Some(Decide(api, raw, decoded).event)
              && Decide(api, raw, decoded).data == GetOr(decoded.value, "data", Dict([]))
  {
    RejectRules(api, raw, decoded);
    ReconcileRule(api, raw, decoded);
  }

  /** The three rejections, and that they are the only ones. */
  lemma RejectRules(api: ApiClient, raw: string, decoded: Option<Value>)
    ensures IsEmpty(Str(raw)) ==> Decide(api, raw, decoded) == Reject(400, "Invalid payload")
    ensures !IsEmpty(Str(raw)) && decoded.None? ==> Decide(api, raw, decoded) == Reject(400, "Invalid JSON")
    ensures !IsEmpty(Str(raw)) && decoded.Some? && !VerifyWebhookSignature(api, decoded.value) ==>
              Decide(api, raw, decoded) == Reject(401, "Invalid signature")
    ensures Decide(api, raw, decoded).Reject? ==> Decide(api, raw, decoded).code in {400, 401}
  {
  }

  /** A reconciliation needs an authentic `order` event of a known type, and carries its `data`. */
  lemma ReconcileRule(api: ApiClient, raw: string, decoded: Option<Value>)
    ensures Decide(api, raw, decoded).Reconcile? ==>
              && decoded.Some? && VerifyWebhookSignature(api, decoded.value)
              && SanitizeText(Get(decoded.value, "event_name")) == "order"
              && EventOf(SanitizeText(Get(decoded.value, "event_type"))) == Some(Decide(api, raw, decoded).event)
              && Decide(api, raw, decoded).data == GetOr(decoded.value, "data", Dict([]))
  {
    if decoded.Some? {
      SanitizedField(decoded.value, "event_name");
      SanitizedField(decoded.value, "event_type");
    }
  }

  /** `sanitize_text_field($data[$k] ?? '')` reads a missing field as "", as the field itself sanitizes. */
  lemma SanitizedField(d: Value, k: string)
    ensures SanitizeText(GetOr(d, k, Str(""))) == SanitizeText(Get(d, k))
  {
  }

  /** An authentic payload naming a known order event is reconciled with its `data`. */
  lemma AuthenticEventReconciled(api: ApiClient, raw: string, data: Value, eventType: string)
    requires !IsEmpty(Str(raw)) && VerifyWebhookSignature(api, data)
    requires Get(data, "event_name") == Str("order") && Get(data, "event_type") == Str(eventType)
    requires EventOf(eventType).Some?
    ensures Decide(api, raw, Some(data)) == Reconcile(EventOf(eventType).value, GetOr(data, "data", Dict([])))
  {
    SanitizedField(data, "event_name");
    SanitizedField(data, "event_type");
  }

  /** A payload signed with the merchant's key and naming a known order event is reconciled. */
  lemma SignedEventReconciled(api: ApiClient, raw: string, params: Entries<Value>, eventType: string)
    requires !IsEmpty(Str(raw))
    requires Lookup(params, "event_name") == Some(Str("order"))
    requires Lookup(params, "event_type") == Some(Str(eventType))
    requires EventOf(eventType).Some?
    ensures Decide(api, raw, Some(Dict(Signed(api, params)))).Reconcile?
    ensures Decide(api, raw, Some(Dict(Signed(api, params)))).event == EventOf(eventType).value
  {
    SignedVerifies(api, params);
    var data := Dict(Signed(api, params));
    assert Get(data, "event_name") == Str("order");
    assert Get(data, "event_type") == Str(eventType);
    AuthenticEventReconciled(api, raw, data, eventType);
  }

  /** Every event whose name is not `order`, or whose type is unknown, is acknowledged and nothing else. */
  lemma OtherEventsAcknowledged(api: ApiClient, raw: string, data: Value)
    requires !IsEmpty(Str(raw)) && VerifyWebhookSignature(api, data)
    requires SanitizeText(Get(data, "event_name")) != "order" || EventOf(SanitizeText(Get(data, "event_type"))).None?
    ensures Decide(api, raw, Some(data)) == Acknowledge
  {
  }

  method HandlePaid(order: Order, d: Value)
    modifies order
    ensures order.State() == OnPaid(old(order.State()), order.needsProcessing, d)
  {
    if IsPaid(order.status) {
      return;
    }
    order.UpdateMetaData("_cregis_transaction_hash", Field(d, "tx_id"));
    order.UpdateMetaData("_cregis_pay_amount", Field(d, "pay_amount"));
    order.UpdateMetaData("_cregis_pay_currency", Field(d, "pay_currency"));
    order.UpdateMetaData("_cregis_payment_address", Field(d, "payment_address"));
    order.UpdateMetaData("_cregis_transact_time", Field(d, "transact_time"));
    order.PaymentComplete(Get(d, "tx_id"));
    order.AddOrderNote("Cryptocurrency payment received. Transaction hash: " + Shown(d, "tx_id"));
  }

  method HandlePartialPaid(order: Order, d: Value)
    modifies order
    ensures order.State() == OnPartialPaid(old(order.State()), d)
  {
    order.UpdateMetaData("_cregis_status", "partial_paid");
    order.UpdateMetaData("_cregis_transaction_hash", Field(d, "tx_id"));
    order.UpdateMetaData("_cregis_pay_amount", Field(d, "pay_amount"));
    order.UpdateMetaData("_cregis_pay_currency", Field(d, "pay_currency"));
    order.UpdateStatus(OnHold, "Partial cryptocurrency payment received");
    order.AddOrderNote("Partial payment received: " + Shown(d, "pay_amount") + " " + Shown(d, "pay_currency") +
      ". Transaction hash: " + Shown(d, "tx_id"));
  }

  method HandleOverpaid(order: Order, d: Value)
    modifies order
    ensures order.State() == OnOverpaid(old(order.State()), order.needsProcessing, d)
  {
    order.UpdateMetaData("_cregis_status", "overpaid");
    order.UpdateMetaData("_cregis_transaction_hash", Field(d, "tx_id"));
    order.UpdateMetaData("_cregis_pay_amount", Field(d, "pay_amount"));
    order.UpdateMetaData("_cregis_pay_currency", Field(d, "pay_currency"));
    order.PaymentComplete(Get(d, "tx_id"));
    order.AddOrderNote("Overpayment received: " + Shown(d, "pay_amount") + " " + Shown(d, "pay_currency") +
      ". Transaction hash: " + Shown(d, "tx_id"));
  }

  method HandleExpired(order: Order)
    modifies order
    ensures order.State() == OnExpired(old(order.State()))
  {
    if IsPaid(order.status) {
      return;
    }
    order.UpdateStatus(Cancelled, "Cryptocurrency payment expired");
    order.AddOrderNote("Payment order expired without payment");
  }

  method HandleRefunded(order: Order, d: Value)
    modifies order
    ensures order.State() == OnRefunded(old(order.State()), d)
  {
    order.UpdateMetaData("_cregis_refund_id", Field(d, "refund_id"));
    order.UpdateMetaData("_cregis_refund_amount", Field(d, "refund_amount"));
    order.UpdateMetaData("_cregis_refund_tx_id", Field(d, "refund_tx_id"));
    order.AddOrderNote("Refund processed: " + Shown(d, "actual_refund_amount") + " " + Shown(d, "refund_currency") +
      ". Transaction hash: " + Shown(d, "refund_tx_id"));
  }

  method HandleAdditionalPayment(order: Order, d: Value)
    modifies order
    ensures order.State() == OnAdditionalPayment(old(order.State()), order.needsProcessing, d)
  {
    order.UpdateMetaData("_cregis_additional_payment", Field(d, "additional_pay_amount"));
    order.UpdateMetaData("_cregis_additional_tx_id", Field(d, "additional_payment_tx_id"));
    if !IsPaid(order.status) {
      order.PaymentComplete(Get(d, "additional_payment_tx_id"));
    }
    order.AddOrderNote("Additional payment received: " + Shown(d, "additional_pay_amount") + " " +
      Shown(d, "additional_pay_currency") + ". Transaction hash: " + Shown(d, "additional_payment_tx_id"));
  }

  /** The handler for `e`, once its order has been found. */
  method ReconcileOrder(order: Order, e: Event, d: Value)
    modifies order
    ensures order.State() == Reconciled(e, old(order.State()), order.needsProcessing, d)
  {
    match e
    case PaidEvent => HandlePaid(order, d);
    case PartialPaidEvent => HandlePartialPaid(order, d);
    case OverpaidEvent => HandleOverpaid(order, d);
    case ExpiredEvent => HandleExpired(order);
    case RefundedEvent => HandleRefunded(order, d);
    case AdditionalPaymentEvent => HandleAdditionalPayment(order, d);
  }

  /**
   * The order lookup each handler starts with, then the handler: a failed
   * lookup throws, which `handle` answers with 500, and no order changes.
   */
  method Dispatch(orders: seq<Order>, e: Event, d: Value) returns (resp: Response)
    modifies set o | o in orders
    ensures var target := old(OrderByOrderId(orders, Get(d, "order_id")));
            && (target.None? ==>
                  resp == Response(500, "Processing error") && forall o :: o in orders ==> o.State() == old(o.State()))
            && (target.Some? ==>
                  && resp == Response(200, "success")
                  && target.value.State() == Reconciled(e, old(target.value.State()), target.value.needsProcessing, d)
                  && forall o :: o in orders && o != target.value ==> o.State() == old(o.State()))
  {
    var target := OrderByOrderId(orders, Get(d, "order_id"));
    if target.None? {
      return Response(500, "Processing error");
    }
    ReconcileOrder(target.value, e, d);
    return Response(200, "success");
  }

  /** `$data['data']['order_id']` of a decoded payload, the id every handler looks up. */
  function PayloadOrderId(decoded: Option<Value>): Value {
    if decoded.Some? then Get(GetOr(decoded.value, "data", Dict([])), "order_id") else Null
  }

  /**
   * `handle()`: rejections and acknowledgements change no order; a
   * dispatched event whose order cannot be found ends in 500 and changes no
   * order; otherwise exactly the order found is reconciled.
   */
  method Handle(api: ApiClient, orders: seq<Order>, raw: string, decoded: Option<Value>) returns (resp: Response)
    modifies set o | o in orders
    ensures Decide(api, raw, decoded).Reject? ==>
              && resp == Response(Decide(api, raw, decoded).code, Decide(api, raw, decoded).body)
              && forall o :: o in orders ==> o.State() == old(o.State())
    ensures Decide(api, raw, decoded).Acknowledge? ==>
              resp == Response(200, "success") && forall o :: o in orders ==> o.State() == old(o.State())
    ensures Decide(api, raw, decoded).Reconcile? ==>
              var dec := Decide(api, raw, decoded);
              var target := old(OrderByOrderId(orders, PayloadOrderId(decoded)));
              && (target.None? ==>
                    resp == Response(500, "Processing error") && forall o :: o in orders ==> o.State() == old(o.State()))
              && (target.Some? ==>
                    && resp == Response(200, "success")
                    && target.value.State() ==
                         Reconciled(dec.event, old(target.value.State()), target.value.needsProcessing, dec.data)
                    && forall o :: o in orders && o != target.value ==> o.State() == old(o.State()))
  {
    DecisionRules(api, raw, decoded);
    var decision := Decide(api, raw, decoded);
    match decision
    case Reject(code, body) =>
      resp := Response(code, body);
    case Acknowledge =>
      resp := Response(200, "success");
    case Reconcile(event, orderData) =>
      resp := Dispatch(orders, event, orderData);
  }
}
