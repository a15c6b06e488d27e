/**
 * The order collection and the customer-to-order links. A customer holds
 * references to ledger positions; an order does not name its customer.
 */
module Ledger {
  import opened Models
  import opened Reconciliation

  /** An order fit to be stored: at least one line, and a total equal to the sum of its line subtotals. */
  ghost predicate WellFormed(o: Order) {
    |o.items| > 0 && o.totalAmount == Total(o.items)
  }

  class OrderLedger {
    var orders: seq<Order>

    /** Every stored order is well formed. */
    ghost predicate Valid() reads this {
      forall k :: 0 <= k < |orders| ==> WellFormed(orders[k])
    }

    constructor ()
      ensures Valid() && orders == []
    {
      orders := [];
    }

    /** `Order.create`: appends the order and returns its reference. */
    method Create(o: Order) returns (ref: OrderRef)
      modifies this
      ensures orders == old(orders) + [o] && ref == |old(orders)|
      ensures Valid() <==> old(Valid()) && WellFormed(o)
    {
      ref := |orders|;
      orders := orders + [o];
      assert forall k :: 0 <= k < |old(orders)| ==> orders[k] == old(orders)[k];
      assert orders[|orders| - 1] == o;
      if Valid() {
        assert WellFormed(orders[|orders| - 1]);
      }
    }
  }

  /** Every order reference the customer holds points into the ledger. */
  ghost predicate LinkedIn(c: Customer, ledger: OrderLedger)
    reads c, ledger
  {
    forall k :: 0 <= k < |c.orders| ==> c.orders[k] < |ledger.orders|
  }
}
