/**
 * The order service: creating an order with its item rows (deleting the order
 * again when the items cannot be inserted) and updating an order's status.
 * Money amounts are carried as reals and only copied, never computed.
 */
module OrderService {
  import opened Stock

  /** A line item as the caller passes it to `createOrder`. */
  datatype OrderItem = OrderItem(
    id: Option<string>,
    orderId: Option<string>,
    productId: string,
    quantity: int,
    price: real,
    warehouseId: Option<string>,
    subtotal: Option<real>,
    productName: Option<string>)

  /** A row of the order_items table. */
  datatype ItemRow = ItemRow(orderId: string, productId: string, quantity: int, price: real)

  /** A row of the orders table (timestamps are not modelled). */
  datatype Order = Order(
    id: string,
    customerId: string,
    status: string,
    shippingAddress: string,
    totalAmount: real,
    deliveryPersonId: Option<int>,
    deliveryPersonName: Option<string>)

  /** What a successful `createOrder` returns: the inserted order with the caller's items attached. */
  datatype CreatedOrder = CreatedOrder(order: Order, items: seq<OrderItem>)

  /** Which remote calls of `createOrder` report an error. */
  datatype OrderFaults = OrderFaults(insertOrder: bool, insertItems: bool, deleteOrder: bool)

  /** The order row `createOrder` inserts: status 'pendiente' and the caller's total, as given. */
  function NewOrder(id: string, customerId: string, shippingAddress: string, totalAmount: real): Order {
    Order(id, customerId, "pendiente", shippingAddress, totalAmount, None, None)
  }

  /** `items.map(...)`: one row per item, in order, each tied to the order and copying product, quantity and price. */
  function ItemRows(orderId: string, items: seq<OrderItem>): (r: seq<ItemRow>)
    ensures |r| == |items|
    ensures forall i :: 0 <= i < |items| ==>
              && r[i].orderId == orderId
              && r[i].productId == items[i].productId
              && r[i].quantity == items[i].quantity
              && r[i].price == items[i].price
  {
    if items == [] then []
    else [ItemRow(orderId, items[0].productId, items[0].quantity, items[0].price)] + ItemRows(orderId, items[1..])
  }

  /** `.delete().eq('id', id)`: the orders whose id is not `id`, in order. */
  function DeleteOrders(orders: seq<Order>, id: string): (r: seq<Order>)
    ensures forall o :: o in r <==> o in orders && o.id != id
    ensures |r| <= |orders|
  {
    if orders == [] then []
    else (if orders[0].id == id then [] else [orders[0]]) + DeleteOrders(orders[1..], id)
  }

  /** Each order without the id is kept exactly as often as the table holds it; no order with it is. */
  lemma {:induction false} DeleteOrdersCounts(orders: seq<Order>, id: string, o: Order)
    ensures multiset(DeleteOrders(orders, id))[o] == if o.id != id then multiset(orders)[o] else 0
  {
    if orders != [] {
      assert orders == [orders[0]] + orders[1..];
      DeleteOrdersCounts(orders[1..], id, o);
    }
  }

  /** The delete keeps table order: deleting from two runs of orders is deleting from each in turn. */
  lemma {:induction false} DeleteOrdersKeepsOrder(a: seq<Order>, b: seq<Order>, id: string)
    ensures DeleteOrders(a + b, id) == DeleteOrders(a, id) + DeleteOrders(b, id)
  {
    if a != [] {
      assert (a + b)[0] == a[0];
      assert (a + b)[1..] == a[1..] + b;
      DeleteOrdersKeepsOrder(a[1..], b, id);
    } else {
      assert a + b == b;
    }
  }

  /** Deleting by an id no order had before an insert undoes the insert. */
  lemma {:induction false} DeleteUndoesInsert(orders: seq<Order>, row: Order)
    requires forall o :: o in orders ==> o.id != row.id
    ensures DeleteOrders(orders + [row], row.id) == orders
  {
    if orders == [] {
      assert orders + [row] == [row];
    } else {
      assert (orders + [row])[1..] == orders[1..] + [row];
      assert forall o :: o in orders[1..] ==> o in orders;
      DeleteUndoesInsert(orders[1..], row);
    }
  }

  /**
   * The update record `updateOrderStatus` sends. A field left None is absent from the
   * record, so the row keeps its value; an undefined name is dropped when the record is sent.
   */
  datatype OrderUpdate = OrderUpdate(status: string, deliveryPersonId: Option<int>, deliveryPersonName: Option<string>)

  /** Whether an optional numeric id is truthy: present and not 0. */
  predicate IsTruthy(id: Option<int>) {
    id.Some? && id.value != 0
  }

  /** The row after an update: status always written, delivery fields only when the record carries them. */
  function ApplyOrderUpdate(o: Order, u: OrderUpdate): (r: Order)
    ensures r.id == o.id && r.customerId == o.customerId && r.shippingAddress == o.shippingAddress
    ensures r.totalAmount == o.totalAmount && r.status == u.status
    ensures r.deliveryPersonId == if u.deliveryPersonId.Some? then u.deliveryPersonId else o.deliveryPersonId
    ensures r.deliveryPersonName == if u.deliveryPersonName.Some? then u.deliveryPersonName else o.deliveryPersonName
  {
    o.(status := u.status,
       deliveryPersonId := if u.deliveryPersonId.Some? then u.deliveryPersonId else o.deliveryPersonId,
       deliveryPersonName := if u.deliveryPersonName.Some? then u.deliveryPersonName else o.deliveryPersonName)
  }

  /** `.update(u).eq('id', id)` on the orders table. */
  function UpdateOrders(orders: seq<Order>, id: string, u: OrderUpdate): (r: seq<Order>)
    ensures |r| == |orders|
    ensures forall i :: 0 <= i < |orders| && orders[i].id != id ==> r[i] == orders[i]
    ensures forall i :: 0 <= i < |orders| && orders[i].id == id ==> r[i] == ApplyOrderUpdate(orders[i], u)
  {
    if orders == [] then []
    else [if orders[0].id == id then ApplyOrderUpdate(orders[0], u) else orders[0]] + UpdateOrders(orders[1..], id, u)
  }

  /**
   * The record `updateOrderStatus` builds: the status always; the delivery person's id, and the
   * name when it is defined, only when the id is truthy.
   */
  function StatusUpdate(status: string, deliveryPersonId: Option<int>, deliveryPersonName: Option<string>): (u: OrderUpdate)
    ensures u.status == status
    ensures u.deliveryPersonId.Some? <==> IsTruthy(deliveryPersonId)
    ensures IsTruthy(deliveryPersonId) ==> u.deliveryPersonId == deliveryPersonId && u.deliveryPersonName == deliveryPersonName
    ensures !IsTruthy(deliveryPersonId) ==> u.deliveryPersonName == None
  {
    if IsTruthy(deliveryPersonId) then OrderUpdate(status, deliveryPersonId, deliveryPersonName)
    else OrderUpdate(status, None, None)
  }

  /**
   * After `updateOrderStatus`, every order with that id has the new status, whatever the old
   * one was; its delivery fields change only for a truthy delivery person id; other orders
   * and the other fields are untouched.
   */
  lemma StatusUpdateEffect(orders: seq<Order>, id: string, status: string,
                           deliveryPersonId: Option<int>, deliveryPersonName: Option<string>, i: int)
    requires 0 <= i < |orders|
    ensures var after := UpdateOrders(orders, id, StatusUpdate(status, deliveryPersonId, deliveryPersonName));
            && |after| == |orders|
            && (orders[i].id != id ==> after[i] == orders[i])
            && (orders[i].id == id ==>
                  && after[i].status == status
                  && after[i].id == orders[i].id
                  && after[i].customerId == orders[i].customerId
                  && after[i].totalAmount == orders[i].totalAmount
                  && after[i].shippingAddress == orders[i].shippingAddress
                  && (!IsTruthy(deliveryPersonId) ==>
                        after[i].deliveryPersonId == orders[i].deliveryPersonId
                        && after[i].deliveryPersonName == orders[i].deliveryPersonName)
                  && (IsTruthy(deliveryPersonId) ==> after[i].deliveryPersonId == deliveryPersonId))
  {
  }

  class OrderStore {
    /** The orders table, in insertion order. */
    var orders: seq<Order>
    /** The order_items table, in insertion order. */
    var orderItems: seq<ItemRow>

    constructor (orders: seq<Order>, orderItems: seq<ItemRow>)
      ensures this.orders == orders && this.orderItems == orderItems
    {
      this.orders := orders;
      this.orderItems := orderItems;
    }

    /**
     * `createOrder`: insert the order (its id `newId` is assigned by the database), then its
     * item rows; when the items fail, delete the order again and return None.
     */
    method CreateOrder(customerId: string, items: seq<OrderItem>, shippingAddress: string, totalAmount: real,
                       newId: string, faults: OrderFaults) returns (r: Option<CreatedOrder>)
      modifies this
      ensures r.Some? <==> !faults.insertOrder && !faults.insertItems
      ensures faults.insertOrder ==> orders == old(orders) && orderItems == old(orderItems)
      ensures !faults.insertOrder && faults.insertItems ==>
                && orderItems == old(orderItems)
                && orders == (if faults.deleteOrder then old(orders) + [NewOrder(newId, customerId, shippingAddress, totalAmount)]
                              else DeleteOrders(old(orders) + [NewOrder(newId, customerId, shippingAddress, totalAmount)], newId))
                && ((forall o :: o in old(orders) ==> o.id != newId) && !faults.deleteOrder ==> orders == old(orders))
      ensures r.Some? ==>
                && r.value == CreatedOrder(NewOrder(newId, customerId, shippingAddress, totalAmount), items)
                && orders == old(orders) + [r.value.order]
                && orderItems == old(orderItems) + ItemRows(newId, items)
    {
      if faults.insertOrder {
        return None;
      }
      var order := NewOrder(newId, customerId, shippingAddress, totalAmount);
      orders := orders + [order];
      var rows := ItemRows(order.id, items);
      if faults.insertItems {
        if !faults.deleteOrder {
          orders := DeleteOrders(orders, order.id);
          if forall o :: o in old(orders) ==> o.id != newId {
            DeleteUndoesInsert(old(orders), order);
          }
        }
        return None;
      }
      orderItems := orderItems + rows;
      r := Some(CreatedOrder(order, items));
    }

    /** `updateOrderStatus`: write the status record to the order; false exactly when the update reports an error. */
    method UpdateOrderStatus(orderId: string, status: string, deliveryPersonId: Option<int>,
                             deliveryPersonName: Option<string>, fails: bool) returns (ok: bool)
      modifies this
      ensures ok == !fails
      ensures orders == if ok then UpdateOrders(old(orders), orderId, StatusUpdate(status, deliveryPersonId, deliveryPersonName))
                        else old(orders)
      ensures orderItems == old(orderItems)
    {
      var updateData := OrderUpdate(status, None, None);
      if deliveryPersonId.Some? && deliveryPersonId.value != 0 {
        updateData := updateData.(deliveryPersonId := deliveryPersonId, deliveryPersonName := deliveryPersonName);
      }
      if fails {
        return false;
      }
      orders := UpdateOrders(orders, orderId, updateData);
      ok := true;
    }
  }
}
