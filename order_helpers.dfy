/** Order arithmetic and workflow: line and order totals, the free-shipping
    threshold, the final-total breakdown, item validation, the status labels,
    the status successor, the editable and cancellable statuses, and the
    order search. Quantities, prices and totals are whole numbers here; the
    tax share is a real. */
module OrderHelpers {
  import opened Seqs
  import opened Text
  import opened Records
  import opened Validation

  /** calculateItemSubtotal: quantity * price. */
  function ItemSubtotal(quantity: int, price: int): int
  {
    quantity * price
  }

  function LineAmount(item: OrderItem): int
  {
    ItemSubtotal(item.quantity, item.price)
  }

  /** calculateOrderTotal: the sum of quantity * price over the items, left to right. */
  function CalculateOrderTotal(items: seq<OrderItem>): (total: int)
    ensures items == [] ==> total == 0
  {
    SumOf(items, LineAmount)
  }

  /** The order total is additive over concatenation of item lists. */
  lemma OrderTotalAppend(a: seq<OrderItem>, b: seq<OrderItem>)
    ensures CalculateOrderTotal(a + b) == CalculateOrderTotal(a) + CalculateOrderTotal(b)
  {
    SumOfAppend(a, b, LineAmount);
  }

  /** A one-item order totals that item's subtotal. */
  lemma OrderTotalSingle(item: OrderItem)
    ensures CalculateOrderTotal([item]) == ItemSubtotal(item.quantity, item.price)
  {
    assert [item][..0] == [];
    assert SumOf([item], LineAmount) == SumOf([item][..0], LineAmount) + LineAmount(item);
  }

  const FreeShippingThreshold := 100
  const ShippingFee := 10
  const DefaultTaxRate := 0.1

  /** calculateShipping: free at or above the threshold (100 unless given), a
      flat fee below it. */
  function CalculateShipping(orderTotal: int, freeShippingThreshold: int := FreeShippingThreshold)
    : (r: int)
    ensures r == 0 || r == ShippingFee
    ensures r == 0 <==> orderTotal >= freeShippingThreshold
  {
    if orderTotal >= freeShippingThreshold then 0 else ShippingFee
  }

  /** A larger order never pays more shipping. */
  lemma ShippingMonotone(a: int, b: int, freeShippingThreshold: int)
    requires a <= b
    ensures CalculateShipping(b, freeShippingThreshold) <= CalculateShipping(a, freeShippingThreshold)
  {
  }

  datatype FinalTotal = FinalTotal(subtotal: int, tax: real, shipping: int, total: real)

  /** calculateFinalTotal: the subtotal, its tax (calculateTax, a plain
      product), the shipping decided on the pre-tax subtotal, and their sum; the
      rate is 0.1 and the threshold 100 unless given. */
  function CalculateFinalTotal(items: seq<OrderItem>, taxRate: real := DefaultTaxRate,
                               freeShippingThreshold: int := FreeShippingThreshold)
    : (r: FinalTotal)
    ensures r.subtotal == CalculateOrderTotal(items)
    ensures r.tax == r.subtotal as real * taxRate
    ensures r.shipping == CalculateShipping(r.subtotal, freeShippingThreshold)
    ensures r.total == r.subtotal as real + r.tax + r.shipping as real
  {
    var subtotal := CalculateOrderTotal(items);
    var tax := subtotal as real * taxRate;
    var shipping := CalculateShipping(subtotal, freeShippingThreshold);
    FinalTotal(subtotal, tax, shipping, subtotal as real + tax + shipping as real)
  }

  /** With a non-negative subtotal and tax rate, the final total lies between the
      subtotal and the subtotal plus its tax plus one shipping fee, and tax never
      changes whether shipping is charged. */
  lemma FinalTotalBounds(items: seq<OrderItem>, taxRate: real, otherRate: real,
                         freeShippingThreshold: int)
    requires taxRate >= 0.0 && CalculateOrderTotal(items) >= 0
    ensures var r := CalculateFinalTotal(items, taxRate, freeShippingThreshold);
            r.subtotal as real <= r.total <= r.subtotal as real * (1.0 + taxRate) + 10.0
    ensures CalculateFinalTotal(items, taxRate, freeShippingThreshold).shipping
            == CalculateFinalTotal(items, otherRate, freeShippingThreshold).shipping
  {
    var r := CalculateFinalTotal(items, taxRate, freeShippingThreshold);
    assert r.tax >= 0.0 by {
      assert r.subtotal as real >= 0.0;
    }
  }

  /** The message for the first offending item: quantity is checked before price. */
  function ItemError(item: OrderItem): string
  {
    if item.quantity <= 0 then "Invalid quantity for " + item.productName
    else "Invalid price for " + item.productName
  }

  predicate BadItem(item: OrderItem)
  {
    item.quantity <= 0 || item.price <= 0
  }

  /** The for-of loop of validateOrderItems: stop at the first bad item. */
  function ScanItems(items: seq<OrderItem>): (r: Validation)
    ensures r.valid <==> forall i :: 0 <= i < |items| ==> !BadItem(items[i])
    ensures r.valid ==> r == Ok
    ensures !r.valid ==> exists k :: 0 <= k < |items| && BadItem(items[k])
                                     && (forall j :: 0 <= j < k ==> !BadItem(items[j]))
                                     && r == Validation(false, ItemError(items[k]))
  {
    if items == [] then Ok
    else if items[0].quantity <= 0 then
      Validation(false, "Invalid quantity for " + items[0].productName)
    else if items[0].price <= 0 then
      Validation(false, "Invalid price for " + items[0].productName)
    else
      var t := ScanItems(items[1..]);
      assert forall i :: 1 <= i < |items| ==> items[i] == items[1..][i - 1];
      assert !t.valid ==> exists k :: 0 <= k < |items| && BadItem(items[k])
                                     && (forall j :: 0 <= j < k ==> !BadItem(items[j]))
                                     && t == Validation(false, ItemError(items[k])) by {
        if !t.valid {
          var k :| 0 <= k < |items| - 1 && BadItem(items[1..][k])
                   && (forall j :: 0 <= j < k ==> !BadItem(items[1..][j]))
                   && t == Validation(false, ItemError(items[1..][k]));
          assert items[k + 1] == items[1..][k];
        }
      }
      t
  }

  /** validateOrderItems: an empty list is rejected first; otherwise the first item
      with a non-positive quantity or price is reported, quantity before price. */
  function ValidateOrderItems(items: seq<OrderItem>): (r: Validation)
    ensures r.valid <==> |items| > 0 && forall i :: 0 <= i < |items| ==>
                                          items[i].quantity > 0 && items[i].price > 0
    ensures r.valid ==> r == Ok
    ensures items == [] ==> r == Validation(false, "Please add at least one item to the order")
    ensures items != [] && !r.valid ==>
              exists k :: 0 <= k < |items| && (items[k].quantity <= 0 || items[k].price <= 0)
                          && (forall j :: 0 <= j < k ==> items[j].quantity > 0 && items[j].price > 0)
                          && r.error == if items[k].quantity <= 0
                                        then "Invalid quantity for " + items[k].productName
                                        else "Invalid price for " + items[k].productName
  {
    if |items| == 0 then Validation(false, "Please add at least one item to the order")
    else ScanItems(items)
  }

  /** Items that pass validation always add up to a positive total. */
  lemma {:induction false} ValidItemsHavePositiveTotal(items: seq<OrderItem>)
    requires ValidateOrderItems(items).valid
    ensures CalculateOrderTotal(items) > 0
    decreases |items|
  {
    var n := |items|;
    var last := items[n - 1];
    assert LineAmount(last) > 0 by {
      assert last.quantity > 0 && last.price > 0;
    }
    var front := items[..n - 1];
    assert SumOf(items, LineAmount) == SumOf(front, LineAmount) + LineAmount(last);
    if n > 1 {
      assert forall i :: 0 <= i < |front| ==> front[i] == items[i];
      ValidItemsHavePositiveTotal(front);
    }
  }

  /** The five order statuses, lower case, in workflow order with cancelled last. */
  const OrderStatuses: seq<string> := ["pending", "processing", "shipped", "delivered", "cancelled"]

  /** The statuses an order moves through, in order. */
  const Workflow: seq<string> := ["pending", "processing", "shipped", "delivered"]

  /** getOrderStatusLabel: a known status (in any case) becomes its capitalised
      label; any other input comes back unchanged. */
  function GetOrderStatusLabel(status: string): (r: string)
    ensures Lower(status) == "pending" ==> r == "Pending"
    ensures Lower(status) == "processing" ==> r == "Processing"
    ensures Lower(status) == "shipped" ==> r == "Shipped"
    ensures Lower(status) == "delivered" ==> r == "Delivered"
    ensures Lower(status) == "cancelled" ==> r == "Cancelled"
    ensures Lower(status) !in OrderStatuses ==> r == status
  {
    var s := Lower(status);
    if s == "pending" then "Pending"
    else if s == "processing" then "Processing"
    else if s == "shipped" then "Shipped"
    else if s == "delivered" then "Delivered"
    else if s == "cancelled" then "Cancelled"
    else status
  }

  /** getNextOrderStatus: the successor in pending, processing, shipped,
      delivered; nothing after delivered, for cancelled or for an unknown status. */
  function GetNextOrderStatus(currentStatus: string): (r: Option<string>)
    ensures r.Some? ==> r.value in Workflow && r.value != "pending"
  {
    var s := Lower(currentStatus);
    if s == "pending" then Some("processing")
    else if s == "processing" then Some("shipped")
    else if s == "shipped" then Some("delivered")
    else None
  }

  /** The position of a lower-case status in the workflow, -1 when it has none. */
  function WorkflowIndex(s: string): (k: int)
    ensures -1 <= k < |Workflow|
    ensures k >= 0 ==> Workflow[k] == s
    ensures k == -1 ==> s !in Workflow
  {
    if s == "pending" then 0
    else if s == "processing" then 1
    else if s == "shipped" then 2
    else if s == "delivered" then 3
    else -1
  }

  /** The successor is exactly the next step of the workflow: it exists for every
      status before delivered and for no other, and it always moves one step on. */
  lemma NextStatusFollowsWorkflow(status: string)
    ensures GetNextOrderStatus(status).Some? <==> 0 <= WorkflowIndex(Lower(status)) < |Workflow| - 1
    ensures GetNextOrderStatus(status).Some? ==>
              GetNextOrderStatus(status).value == Workflow[WorkflowIndex(Lower(status)) + 1]
              && WorkflowIndex(GetNextOrderStatus(status).value) == WorkflowIndex(Lower(status)) + 1
  {
  }

  /** canEditOrder: only pending and processing orders, in any case. */
  function CanEditOrder(status: string): (r: bool)
  {
    Lower(status) in ["pending", "processing"]
  }

  /** canCancelOrder: only pending and processing orders, in any case. */
  function CanCancelOrder(status: string): (r: bool)
  {
    Lower(status) in ["pending", "processing"]
  }

  /** The editable statuses are exactly the first two workflow steps, the same
      statuses that can be cancelled, and each of them has a next status that is
      not delivered. */
  lemma EditableStatuses(status: string)
    ensures CanEditOrder(status) <==> 0 <= WorkflowIndex(Lower(status)) < 2
    ensures CanCancelOrder(status) == CanEditOrder(status)
    ensures CanEditOrder(status) ==> GetNextOrderStatus(status).Some?
                                     && GetNextOrderStatus(status).value != "delivered"
  {
  }

  /** An order matches a lower-cased term when its number, customer name or
      customer email, lower-cased, contains it. */
  predicate OrderMatches(o: Order, term: string)
  {
    Contains(Lower(o.orderNumber), term) || Contains(Lower(o.customerName), term)
    || Contains(Lower(o.customerEmail), term)
  }

  /** searchOrders: a blank term returns the orders as they are; otherwise the
      orders matching the lower-cased (untrimmed) term, in their original order. */
  function SearchOrders(orders: seq<Order>, searchTerm: string): (r: seq<Order>)
    ensures IsSubsequence(r, orders)
    ensures AllWhitespace(searchTerm) ==> r == orders
    ensures !AllWhitespace(searchTerm) ==>
              (forall i :: 0 <= i < |r| ==> OrderMatches(r[i], Lower(searchTerm)))
              && (forall i :: 0 <= i < |orders| && OrderMatches(orders[i], Lower(searchTerm)) ==>
                    orders[i] in r)
    ensures !AllWhitespace(searchTerm) ==>
              forall x | x in orders ::
                multiset(r)[x] == if OrderMatches(x, Lower(searchTerm)) then multiset(orders)[x] else 0
  {
    TrimEmptyIff(searchTerm);
    if Trim(searchTerm) == [] then
      SubsequenceReflexive(orders);
      orders
    else
      OrdersMatching(orders, Lower(searchTerm))
  }

  /** orders.filter(o => o matches term). */
  function OrdersMatching(orders: seq<Order>, term: string): (r: seq<Order>)
    ensures forall x | x in orders ::
              multiset(r)[x] == if OrderMatches(x, term) then multiset(orders)[x] else 0
  {
    var p := o => OrderMatches(o, term);
    FilterMultiplicity(orders, p);
    Filter(orders, p)
  }
}
