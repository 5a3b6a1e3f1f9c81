/** A model of the order ledger of the café management system: the fixed
    menu, the order-taking step, the grand total, and the row data behind the
    printed bill, the saved bill and the sales chart. */
module CafeManagement {

  datatype Option<T> = None | Some(value: T)

  /** A menu entry: its display name and its unit price in whole rupees. */
  datatype Item = Item(name: string, price: int)

  /** One order line: the menu entry that was ordered and how many of it. */
  datatype OrderLine = OrderLine(item: Item, quantity: int)

  /** One row of the bill: name, quantity, unit price and line total. */
  datatype BillRow = BillRow(name: string, quantity: int, price: int, itemTotal: int)

  /** One line of the saved bill file: name, quantity and line total. */
  datatype ReceiptLine = ReceiptLine(name: string, quantity: int, itemTotal: int)

  /** What the bill shows: its rows in order and the grand total. */
  datatype Bill = Bill(rows: seq<BillRow>, total: int)

  /** The two aligned lists the sales chart is drawn from. */
  datatype SalesChart = SalesChart(itemNames: seq<string>, quantities: seq<int>)

  /** The hard-coded menu, keyed by item number. */
  const Menu: map<int, Item> :=
    map[1 := Item("Coffee", 50),
        2 := Item("Tea", 30),
        3 := Item("Sandwich", 100),
        4 := Item("Cake", 80)]

  lemma MenuPricesNonNegative()
    ensures 0 !in Menu
    ensures forall it :: it in Menu.Values ==> it.price >= 0
  {
  }

  /** A line the order-taking step can have produced. */
  predicate ValidLine(l: OrderLine) {
    l.quantity > 0 && l.item in Menu.Values
  }

  predicate ValidLedger(s: seq<OrderLine>) {
    forall i :: 0 <= i < |s| ==> ValidLine(s[i])
  }

  function LineTotal(l: OrderLine): int {
    l.item.price * l.quantity
  }

  /** The sum of price * quantity over the lines, added up from the left. */
  function Total(s: seq<OrderLine>): int {
    if s == [] then 0 else Total(s[..|s| - 1]) + LineTotal(s[|s| - 1])
  }

  lemma {:induction false} TotalAppend(a: seq<OrderLine>, b: seq<OrderLine>)
    ensures Total(a + b) == Total(a) + Total(b)
  {
    if b == [] {
      assert a + b == a;
    } else {
      assert (a + b)[..|a + b| - 1] == a + b[..|b| - 1];
      TotalAppend(a, b[..|b| - 1]);
    }
  }

  /** The total does not depend on the order of the lines. */
  lemma {:induction false} TotalPermutation(s: seq<OrderLine>, t: seq<OrderLine>)
    requires multiset(s) == multiset(t)
    ensures Total(s) == Total(t)
    decreases |s|
  {
    if s == [] {
      assert |t| == |multiset(t)|;
    } else {
      var x, init := s[|s| - 1], s[..|s| - 1];
      assert s == init + [x];
      assert x in multiset(t);
      var j :| 0 <= j < |t| && t[j] == x;
      var rest := t[..j] + t[j + 1..];
      assert t == t[..j] + [x] + t[j + 1..];
      assert multiset(t) == multiset(t[..j]) + multiset{x} + multiset(t[j + 1..]);
      assert multiset(s) == multiset(init) + multiset{x};
      assert multiset(rest) == multiset(t[..j]) + multiset(t[j + 1..]);
      assert multiset(init) == multiset(s) - multiset{x};
      assert multiset(rest) == multiset(t) - multiset{x};
      TotalPermutation(init, rest);
      TotalAppend(t[..j] + [x], t[j + 1..]);
      TotalAppend(t[..j], [x]);
      TotalAppend(t[..j], t[j + 1..]);
      assert [x][..0] == [];
    }
  }

  /** Lines from the menu with positive quantities never give a negative total. */
  lemma {:induction false} TotalNonNegative(s: seq<OrderLine>)
    requires ValidLedger(s)
    ensures Total(s) >= 0
  {
    if s != [] {
      MenuPricesNonNegative();
      assert ValidLine(s[|s| - 1]);
      TotalNonNegative(s[..|s| - 1]);
    }
  }

  function RowOf(l: OrderLine): BillRow {
    BillRow(l.item.name, l.quantity, l.item.price, LineTotal(l))
  }

  /** The bill rows: one per order line, in insertion order. */
  function BillRows(s: seq<OrderLine>): (r: seq<BillRow>)
    ensures |r| == |s|
    ensures forall i :: 0 <= i < |s| ==>
      r[i].name == s[i].item.name && r[i].quantity == s[i].quantity &&
      r[i].price == s[i].item.price && r[i].itemTotal == s[i].item.price * s[i].quantity
  {
    if s == [] then [] else BillRows(s[..|s| - 1]) + [RowOf(s[|s| - 1])]
  }

  function RowsTotal(rows: seq<BillRow>): int {
    if rows == [] then 0 else RowsTotal(rows[..|rows| - 1]) + rows[|rows| - 1].itemTotal
  }

  /** The line totals shown on the bill add up to the grand total. */
  lemma {:induction false} BillRowsAddUp(s: seq<OrderLine>)
    ensures RowsTotal(BillRows(s)) == Total(s)
  {
    if s != [] {
      var init := s[..|s| - 1];
      assert BillRows(s)[..|s| - 1] == BillRows(init);
      BillRowsAddUp(init);
    }
  }

  class CafeManagementSystem {
    var orders: seq<OrderLine>

    /** Every stored line came from a successful order-taking step. */
    predicate Valid()
      reads this
    {
      ValidLedger(orders)
    }

    constructor ()
      ensures Valid() && orders == [] && Total(orders) == 0
    {
      orders := [];
    }

    /** One round of order taking; orderId and quantity are the two console
        entries, None when the entry is not an integer. The result says
        whether to ask for another item. */
    method TakeOrder(orderId: Option<int>, quantity: Option<int>) returns (more: bool)
      requires Valid()
      modifies this
      ensures Valid()
      ensures more <==> orderId != Some(0)
      ensures orderId.None? || orderId.value !in Menu ==> orders == old(orders)
      ensures orderId.Some? && orderId.value in Menu && (quantity.None? || quantity.value <= 0) ==>
        orders == old(orders)
      ensures orderId.Some? && orderId.value in Menu && quantity.Some? && quantity.value > 0 ==>
        orders == old(orders) + [OrderLine(Menu[orderId.value], quantity.value)]
      ensures old(Total(orders)) <= Total(orders)
    {
      MenuPricesNonNegative();
      if orderId.None? {
        return true;
      }
      var id := orderId.value;
      if id == 0 {
        return false;
      }
      if id !in Menu {
        return true;
      }
      if quantity.None? {
        return true;
      }
      var q := quantity.value;
      if q <= 0 {
        return true;
      }
      var line := OrderLine(Menu[id], q);
      TotalAppend(orders, [line]);
      assert [line][..0] == [];
      orders := orders + [line];
      return true;
    }

    function CalculateTotal(): (r: int)
      reads this
      ensures r == Total(orders)
      ensures Valid() ==> r >= 0
    {
      assert Valid() ==> Total(orders) >= 0 by {
        if Valid() {
          TotalNonNegative(orders);
        }
      }
      Total(orders)
    }

    /** The bill, computed with a running total; None when nothing was ordered. */
    method GenerateBill() returns (bill: Option<Bill>)
      ensures orders == [] <==> bill.None?
      ensures bill.Some? ==> bill.value.rows == BillRows(orders) && bill.value.total == Total(orders)
    {
      if orders == [] {
        return None;
      }
      var rows: seq<BillRow> := [];
      var total := 0;
      for i := 0 to |orders|
        invariant rows == BillRows(orders[..i])
        invariant total == Total(orders[..i])
      {
        var order := orders[i];
        var itemTotal := order.item.price * order.quantity;
        total := total + itemTotal;
        rows := rows + [BillRow(order.item.name, order.quantity, order.item.price, itemTotal)];
        assert orders[..i + 1][..i] == orders[..i];
      }
      assert orders[..|orders|] == orders;
      return Some(Bill(rows, total));
    }

    /** The data written to the bill file: one line per order (name,
        quantity, line total; the unit price is not written) and the grand
        total taken from CalculateTotal. Unlike GenerateBill it runs on an
        empty ledger too. */
    method SaveToFile() returns (lines: seq<ReceiptLine>, total: int)
      ensures |lines| == |orders|
      ensures forall k :: 0 <= k < |orders| ==>
        lines[k].name == orders[k].item.name && lines[k].quantity == orders[k].quantity &&
        lines[k].itemTotal == orders[k].item.price * orders[k].quantity
      ensures forall k :: 0 <= k < |orders| ==>
        var row := BillRows(orders)[k];
        lines[k] == ReceiptLine(row.name, row.quantity, row.itemTotal)
      ensures total == Total(orders)
    {
      lines := [];
      for i := 0 to |orders|
        invariant |lines| == i
        invariant forall k :: 0 <= k < i ==>
          lines[k] == ReceiptLine(orders[k].item.name, orders[k].quantity, LineTotal(orders[k]))
      {
        var order := orders[i];
        var itemTotal := order.item.price * order.quantity;
        lines := lines + [ReceiptLine(order.item.name, order.quantity, itemTotal)];
      }
      total := CalculateTotal();
    }

    /** The chart data: one bar per order line, no merging by name. */
    function VisualizeSales(): (r: Option<SalesChart>)
      reads this
      ensures r.None? <==> orders == []
      ensures r.Some? ==>
        |r.value.itemNames| == |orders| && |r.value.quantities| == |orders| &&
        forall i :: 0 <= i < |orders| ==>
          r.value.itemNames[i] == orders[i].item.name && r.value.quantities[i] == orders[i].quantity
    {
      var o := orders;
      if o == [] then None
      else Some(SalesChart(seq(|o|, i requires 0 <= i < |o| => o[i].item.name),
                           seq(|o|, i requires 0 <= i < |o| => o[i].quantity)))
    }
  }

  /** On a ledger kept valid, every bar of the sales chart is positive and
      labelled with a menu item's name. */
  lemma ChartBarsPositive(c: CafeManagementSystem)
    requires c.Valid() && c.orders != []
    ensures c.VisualizeSales().Some?
    ensures forall q :: q in c.VisualizeSales().value.quantities ==> q > 0
    ensures forall n :: n in c.VisualizeSales().value.itemNames ==> exists id :: id in Menu && Menu[id].name == n
  {
  }
}
