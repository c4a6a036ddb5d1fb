/**
 * The WooCommerce order as the plugin drives it: a status, a metadata map,
 * order notes and a transaction id, changed in place through
 * `update_meta_data`, `update_status`, `payment_complete` and
 * `add_order_note`. Each of these is specified by a function on the order's
 * value (`OrderState`), and the webhook's reconciliation is stated on those
 * functions. The store is the set of orders `wc_get_orders`,
 * `wc_get_order_id_by_order_key` and `wc_get_order` search.
 */
module Orders {
  import opened Wrappers
  import opened PhpValues

  /** The WooCommerce order statuses. */
  datatype Status = Pending | Processing | OnHold | Completed | Cancelled | Refunded | Failed

  /** `$order->is_paid()`: the paid statuses are processing and completed. */
  predicate IsPaid(s: Status) {
    s == Processing || s == Completed
  }

  /** The statuses from which `payment_complete` moves an order to a paid status. */
  predicate PaymentCompletable(s: Status) {
    s == OnHold || s == Pending || s == Failed || s == Cancelled
  }

  /** An order note: the one a status transition writes, or free text. */
  datatype Note = StatusChanged(from: Status, to: Status, reason: string) | Text(text: string)

  /** The part of an order that the plugin changes. */
  datatype OrderState = OrderState(status: Status, meta: map<string, string>, notes: seq<Note>, transactionId: string)

  /** `update_meta_data($k, $v)` */
  function WithMeta(s: OrderState, k: string, v: string): (r: OrderState)
    ensures k in r.meta && r.meta[k] == v
    ensures forall k' :: k' != k ==> (k' in r.meta <==> k' in s.meta)
    ensures forall k' :: k' != k && k' in s.meta ==> r.meta[k'] == s.meta[k']
    ensures r.status == s.status && r.notes == s.notes && r.transactionId == s.transactionId
  {
    s.(meta := s.meta[k := v])
  }

  /**
   * `update_status($to, $reason)`: a change of status records a transition
   * note carrying the reason; setting the status the order already has
   * changes nothing and writes no note.
   */
  function StatusUpdated(s: OrderState, to: Status, reason: string): (r: OrderState)
    ensures r.status == to
    ensures r.meta == s.meta && r.transactionId == s.transactionId
    ensures r.notes == if s.status == to then s.notes else s.notes + [StatusChanged(s.status, to, reason)]
  {
    if s.status == to then s else s.(status := to, notes := s.notes + [StatusChanged(s.status, to, reason)])
  }

  /** `add_order_note($text)` */
  function WithNote(s: OrderState, text: string): (r: OrderState)
    ensures r.notes == s.notes + [Text(text)]
    ensures r.status == s.status && r.meta == s.meta && r.transactionId == s.transactionId
  {
    s.(notes := s.notes + [Text(text)])
  }

  /**
   * `payment_complete($tx)`: from on-hold, pending, failed or cancelled the
   * order records a non-empty transaction id and moves to processing (when
   * it needs processing) or completed; from any other status nothing changes.
   */
  function PaymentCompleted(s: OrderState, needsProcessing: bool, tx: Value): OrderState {
    if PaymentCompletable(s.status) then
      var withTx := if IsEmpty(tx) then s else s.(transactionId := ToPhpString(tx));
      StatusUpdated(withTx, if needsProcessing then Processing else Completed, "")
    else s
  }

  /** A paid order is never in a status `payment_complete` acts on. */
  lemma PaidNotCompletable(s: Status)
    ensures IsPaid(s) ==> !PaymentCompletable(s)
    ensures PaymentCompletable(s) ==> !IsPaid(s)
  {
  }

  /**
   * `payment_complete` pays every order it acts on, keeps the metadata,
   * writes one transition note and takes the transaction id when one is
   * given; on any other order it is the identity.
   */
  lemma PaymentCompletedEffect(s: OrderState, needsProcessing: bool, tx: Value)
    ensures var r := PaymentCompleted(s, needsProcessing, tx);
            && r.meta == s.meta
            && (PaymentCompletable(s.status) ==>
                  && IsPaid(r.status)
                  && r.status == (if needsProcessing then Processing else Completed)
                  && r.notes == s.notes + [StatusChanged(s.status, r.status, "")]
                  && r.transactionId == (if IsEmpty(tx) then s.transactionId else ToPhpString(tx)))
            && (!PaymentCompletable(s.status) ==> r == s)
  {
  }

  /** Calling `payment_complete` a second time changes nothing. */
  lemma PaymentCompletedIdempotent(s: OrderState, needsProcessing: bool, tx: Value, tx2: Value)
    ensures PaymentCompleted(PaymentCompleted(s, needsProcessing, tx), needsProcessing, tx2) ==
              PaymentCompleted(s, needsProcessing, tx)
  {
  }

  /** A line item; its price, and the order's shipping and tax, are floats and not modelled. */
  datatype Item = Item(productId: Option<nat>, name: string, quantity: int)

  /**
   * A WooCommerce order. The fields the plugin only reads are constants; the
   * status, the metadata, the notes and the transaction id are changed in
   * place by the methods below.
   */
  /** WooCommerce gives every stored order a positive id. */
  type OrderId = x: int | x > 0 witness 1

  class Order {
    const id: OrderId
    const orderKey: string
    const orderNumber: string
    const created: int
    const needsProcessing: bool
    const paymentMethod: string
    const customerId: nat
    const billingEmail: string
    const billingFirstName: string
    const billingLastName: string
    const currency: string
    const total: string
    const items: seq<Item>

    var status: Status
    var meta: map<string, string>
    var notes: seq<Note>
    var transactionId: string

    function State(): OrderState
      reads this
    {
      OrderState(status, meta, notes, transactionId)
    }

    method UpdateMetaData(k: string, v: string)
      modifies this
      ensures State() == WithMeta(old(State()), k, v)
    {
      meta := meta[k := v];
    }

    method UpdateStatus(to: Status, reason: string)
      modifies this
      ensures State() == StatusUpdated(old(State()), to, reason)
    {
      if status != to {
        notes := notes + [StatusChanged(status, to, reason)];
        status := to;
      }
    }

    method AddOrderNote(text: string)
      modifies this
      ensures State() == WithNote(old(State()), text)
    {
      notes := notes + [Text(text)];
    }

    method PaymentComplete(tx: Value)
      modifies this
      ensures State() == PaymentCompleted(old(State()), needsProcessing, tx)
    {
      if PaymentCompletable(status) {
        if !IsEmpty(tx) {
          transactionId := ToPhpString(tx);
        }
        UpdateStatus(if needsProcessing then Processing else Completed, "");
      }
    }
  }

  /** The `_order_number` metadata of an order equals `number`. */
  predicate HasOrderNumber(o: Order, number: string)
    reads o
  {
    "_order_number" in o.meta && o.meta["_order_number"] == number
  }

  /**
   * `wc_get_orders` with a `_order_number` meta query, newest first, limit 1:
   * the most recently created order whose `_order_number` is `number`; among
   * equally recent ones the earliest in the store.
   */
  function NewestByNumber(orders: seq<Order>, number: string): (r: Option<Order>)
    reads set o | o in orders
    ensures r.Some? ==> r.value in orders && HasOrderNumber(r.value, number)
    ensures r.Some? ==> forall o :: o in orders && HasOrderNumber(o, number) ==> o.created <= r.value.created
    ensures r.None? <==> forall o :: o in orders ==> !HasOrderNumber(o, number)
  {
    if orders == [] then None
    else
      var last := orders[|orders| - 1];
      var rest := NewestByNumber(orders[..|orders| - 1], number);
      assert forall o :: o in orders ==> o in orders[..|orders| - 1] || o == last;
      if HasOrderNumber(last, number) && (rest.None? || rest.value.created < last.created) then Some(last)
      else rest
  }

  /**
   * `wc_get_order_id_by_order_key($key)`: the id of the first order with that
   * key, 0 when none has it.
   */
  function IdByOrderKey(orders: seq<Order>, key: string): (id: nat)
    ensures id != 0 ==> exists o :: o in orders && o.orderKey == key && o.id == id
    ensures id == 0 <==> forall o :: o in orders ==> o.orderKey != key
    ensures forall i | 0 <= i < |orders| && orders[i].orderKey == key && (forall j | 0 <= j < i :: orders[j].orderKey != key) ::
              id == orders[i].id
  {
    if orders == [] then 0
    else if orders[0].orderKey == key then orders[0].id
    else
      var id := IdByOrderKey(orders[1..], key);
      assert forall i | 1 <= i < |orders| :: orders[i] == orders[1..][i - 1];
      assert forall o :: o in orders ==> o == orders[0] || o in orders[1..];
      id
  }

  /** `wc_get_order($id)`: the first order with that id. */
  function FindById(orders: seq<Order>, id: int): (r: Option<Order>)
    ensures r.Some? ==> r.value in orders && r.value.id == id
    ensures r.None? <==> forall o :: o in orders ==> o.id != id
  {
    if orders == [] then None
    else if orders[0].id == id then Some(orders[0])
    else FindById(orders[1..], id)
  }

  /** No two orders of the store share an id. */
  predicate UniqueIds(orders: seq<Order>) {
    forall i, j | 0 <= i < j < |orders| :: orders[i].id != orders[j].id
  }

  /** No two orders of the store share an order key. */
  predicate UniqueKeys(orders: seq<Order>) {
    forall i, j | 0 <= i < j < |orders| :: orders[i].orderKey != orders[j].orderKey
  }

  /** In a store with distinct ids, `wc_get_order` of an order's id gives that order. */
  lemma {:induction false} FindByIdUnique(orders: seq<Order>, o: Order)
    requires UniqueIds(orders) && o in orders
    ensures FindById(orders, o.id) == Some(o)
  {
    if orders[0] != o {
      var i :| 0 <= i < |orders| && orders[i] == o;
      assert orders[0].id != o.id;
      assert orders[1..][i - 1] == o;
      FindByIdUnique(orders[1..], o);
    }
  }

  /** In a store with distinct keys, the key lookup gives the id of the order holding the key. */
  lemma KeyGivesId(orders: seq<Order>, o: Order)
    requires UniqueKeys(orders) && o in orders
    ensures IdByOrderKey(orders, o.orderKey) == o.id
  {
    var i :| 0 <= i < |orders| && orders[i] == o;
    assert forall j | 0 <= j < i :: orders[j].orderKey != o.orderKey;
  }
}
