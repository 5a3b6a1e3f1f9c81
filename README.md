# Café management system: order ledger model

This project models the order ledger of a small console café tool. The tool has a
hard-coded menu of four items keyed by item number (Coffee 50, Tea 30, Sandwich 100,
Cake 80). A `CafeManagementSystem` object keeps the session's list of order lines.
Its order-taking step reads an item number and a quantity. Item number 0 ends the
ordering. An unknown item number, a quantity of zero or less, or an entry that is not
an integer is reported and changes nothing. A valid entry appends one line.

The ledger computes a grand total, the rows of the printed bill (name, quantity, unit
price, line total), the lines (name, quantity, line total) and total written to the bill file, and the two aligned
lists the sales chart is drawn from.

Everything is in `cafe_management_system.dfy`, module `CafeManagement`:

- `Menu` is the constant menu.
- `Total` is the declarative sum of price × quantity, folded from the left as Python's `sum` does.
- `BillRows` gives the bill rows.
- `ValidLine`/`ValidLedger` state the ledger invariant: every quantity is positive and every item is a menu entry.
- The class `CafeManagementSystem` holds `orders: seq<OrderLine>`. Its methods follow the source's loops.

The two `input()` calls of the order-taking step are parameters of type
`Option<int>`. `None` stands for an entry that `int(...)` could not parse, which the
source turns into a caught `ValueError`.

Facts of the code that shape the model:

- The menu is fixed in the program. Nothing adds, changes, removes, loads or saves menu entries.
- The chart data has one bar per order line. Quantities are not summed per item name.
- An order line stores a reference to its menu entry. The menu is never changed, so the model stores the entry's value.

## Model

| member | source | states |
|---|---|---|
| CafeManagement.MenuPricesNonNegative | cafe_management_system.py:4-9 | item number 0 is not on the menu and every menu price is non-negative |
| CafeManagement.CafeManagementSystem.constructor | cafe_management_system.py:13-14 | a new system has no order lines, satisfies the ledger invariant and has total 0 |
| CafeManagement.CafeManagementSystem.TakeOrder | cafe_management_system.py:26-42 | item 0 returns false and changes nothing. Every other input returns true. An unparsable or unknown item number leaves the orders unchanged. So does an unparsable or non-positive quantity. A valid pair appends exactly one line with that menu item and quantity after the unchanged earlier lines. The invariant is kept and the total never decreases |
| CafeManagement.TotalAppend | cafe_management_system.py:45 | the total of two concatenated ledgers is the sum of their totals |
| CafeManagement.TotalPermutation | cafe_management_system.py:45 | the total is the same for any reordering of the lines |
| CafeManagement.TotalNonNegative | cafe_management_system.py:32-45 | a ledger whose lines all have positive quantity and a menu item has a non-negative total |
| CafeManagement.CafeManagementSystem.CalculateTotal | cafe_management_system.py:44-45 | the result is the sum of price × quantity over the order lines, and on a valid ledger it is non-negative |
| CafeManagement.BillRows | cafe_management_system.py:55-59 | one row per order line, in insertion order. Row i has line i's name, quantity and unit price, and line total price × quantity |
| CafeManagement.BillRowsAddUp | cafe_management_system.py:55-63 | the line totals on the bill add up to the grand total |
| CafeManagement.CafeManagementSystem.GenerateBill | cafe_management_system.py:47-63 | an empty ledger gives no bill. Otherwise the loop's rows are exactly the bill rows, and its running total ends equal to the declarative total |
| CafeManagement.CafeManagementSystem.SaveToFile | cafe_management_system.py:65-77 | also on an empty ledger: one written line per order line, in order. Line k is the name, quantity and line total of order k, which are those of bill row k; the unit price is not written. The total written is the declarative total |
| CafeManagement.CafeManagementSystem.VisualizeSales | cafe_management_system.py:79-86 | an empty ledger gives no chart. Otherwise both lists have one entry per order line, and entry i holds line i's item name and quantity |
| CafeManagement.ChartBarsPositive | cafe_management_system.py:85-86 | on a valid non-empty ledger every chart quantity is positive and every chart label is the name of a menu item |

## Left out

- Console input and output is not modelled. This covers the menu table shown before each prompt (`display_menu`, PrettyTable rendering), the printed messages, and the `choice()` loop that dispatches between actions.
- Table rendering of the bill, and the exact text and `₹` formatting of the bill file, are not modelled. The model gives the row data and the total they are built from.
- Opening and writing `cafe_bill.txt`, and the caught write error, are not modelled. `SaveToFile` returns the values each written line holds (name, quantity, line total) and the total.
- Drawing the chart with matplotlib is not modelled. `VisualizeSales` returns the two lists passed to the plotting call.
- Python objects and references are not modelled. Order lines hold menu entries by value, which is faithful because the menu is never changed.
