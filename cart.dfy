/**
  The chat cart and the documents built from it: cart lines (a dish with a
  size and a quantity, or a bundled deal), the order document written on
  confirmation, and the totals of the ticket sent to the printers.
 */
module Cart {
  import opened Wrappers

  /**
    A cart line. The stored dict tells a deal from a dish only by carrying a
    `deal_items` key; here the two are separate constructors. A deal line is
    stored with size "Deal", quantity 1 and unit price = line total = deal price.
   */
  datatype CartLine =
    | Regular(itemName: Option<string>, size: string, qty: int, unitPrice: int, totalPrice: int)
    | Deal(code: string, dealItems: seq<string>, price: int)
  {
    function Qty(): int {
      if Regular? then qty else 1
    }

    function UnitPrice(): int {
      if Regular? then unitPrice else price
    }

    function LineTotal(): int {
      if Regular? then totalPrice else price
    }

    /** A dish line holds 1..100 units and its total is unit price times quantity. */
    predicate WellFormed() {
      Regular? ==> 1 <= qty <= 100 && totalPrice == unitPrice * qty
    }
  }

  predicate CartWellFormed(cart: seq<CartLine>) {
    forall i :: 0 <= i < |cart| ==> cart[i].WellFormed()
  }

  /** The sum of the lines' `total_price`. */
  function Subtotal(cart: seq<CartLine>): int {
    if cart == [] then 0 else Subtotal(cart[..|cart| - 1]) + cart[|cart| - 1].LineTotal()
  }

  /** The sum of the lines' quantities. */
  function TotalItems(cart: seq<CartLine>): int {
    if cart == [] then 0 else TotalItems(cart[..|cart| - 1]) + cart[|cart| - 1].Qty()
  }

  /** Appending one line adds exactly its total to the subtotal. */
  lemma SubtotalAppend(cart: seq<CartLine>, line: CartLine)
    ensures Subtotal(cart + [line]) == Subtotal(cart) + line.LineTotal()
  {
    assert (cart + [line])[..|cart|] == cart;
  }

  /** The subtotal of two carts joined is the sum of their subtotals. */
  lemma {:induction false} SubtotalConcat(a: seq<CartLine>, b: seq<CartLine>)
    ensures Subtotal(a + b) == Subtotal(a) + Subtotal(b)
  {
    if b == [] {
      assert a + b == a;
    } else {
      var c, x := b[..|b| - 1], b[|b| - 1];
      assert b == c + [x] && a + b == (a + c) + [x];
      SubtotalConcat(a, c);
      SubtotalAppend(a + c, x);
      SubtotalAppend(c, x);
    }
  }

  /** Every line of a well-formed cart holds at least one unit. */
  lemma {:induction false} TotalItemsAtLeastLines(cart: seq<CartLine>)
    requires CartWellFormed(cart)
    ensures TotalItems(cart) >= |cart|
  {
    if cart != [] {
      TotalItemsAtLeastLines(cart[..|cart| - 1]);
    }
  }

  /** The order document written when the customer confirms. */
  datatype ChatOrder = ChatOrder(
    customerPhone: string,
    customerName: Option<string>,
    customerAddress: Option<string>,
    items: seq<CartLine>,
    totalPrice: int,
    status: string,
    createdAt: string,
    updatedAt: string,
    source: string)

  /** One ticket row: the dish name with its size in brackets, or the deal code. */
  datatype TicketItem = TicketItem(name: string, qty: int, rate: int, amount: int)

  datatype TicketTotals = TicketTotals(totalItems: int, totalAmount: int, netAmount: int)

  datatype TicketCustomer = TicketCustomer(name: string, address: string, mobile: string)

  /** The printer payload, less the fixed restaurant header block. */
  datatype Ticket = Ticket(
    srNo: int,
    date: string,
    time: string,
    customer: TicketCustomer,
    items: seq<TicketItem>,
    totals: TicketTotals)

  /** How a missing name reads in an f-string. */
  function Shown(name: Option<string>): string {
    name.GetOr("None")
  }

  function TicketRow(line: CartLine): TicketItem {
    match line
    case Deal(code, _, price) => TicketItem(code, 1, price, price)
    case Regular(name, size, qty, unit, total) => TicketItem(Shown(name) + " (" + size + ")", qty, unit, total)
  }

  /**
    `build_printer_payload`: one ticket row per order line, and totals that
    count every unit and add up every line total; the net amount is the
    total amount (no discount on chat orders). `date` and `time` are the
    clock readings the source takes itself.
   */
  method BuildPrinterPayload(order: ChatOrder, date: string, time: string) returns (ticket: Ticket)
    ensures |ticket.items| == |order.items|
    ensures forall i :: 0 <= i < |order.items| ==>
      ticket.items[i].qty == order.items[i].Qty() && ticket.items[i].amount == order.items[i].LineTotal()
      && ticket.items[i].rate == order.items[i].UnitPrice()
    ensures forall i :: 0 <= i < |order.items| && order.items[i].Deal? ==> ticket.items[i].name == order.items[i].code
    ensures forall i :: 0 <= i < |order.items| && order.items[i].Regular? ==>
      ticket.items[i].name == Shown(order.items[i].itemName) + " (" + order.items[i].size + ")"
    ensures ticket.totals.totalItems == TotalItems(order.items)
    ensures ticket.totals.totalAmount == Subtotal(order.items) == ticket.totals.netAmount
    ensures ticket.customer == TicketCustomer(order.customerName.GetOr(""), order.customerAddress.GetOr(""), order.customerPhone)
    ensures ticket.srNo == 0 && ticket.date == date && ticket.time == time
  {
    var rows: seq<TicketItem> := [];
    var totalItems := 0;
    var totalAmount := 0;
    var i := 0;
    while i < |order.items|
      invariant 0 <= i <= |order.items|
      invariant |rows| == i
      invariant forall k :: 0 <= k < i ==> rows[k] == TicketRow(order.items[k])
      invariant totalItems == TotalItems(order.items[..i])
      invariant totalAmount == Subtotal(order.items[..i])
    {
      var line := order.items[i];
      var row := TicketRow(line);
      assert order.items[..i + 1][..i] == order.items[..i];
      totalItems := totalItems + row.qty;
      totalAmount := totalAmount + row.amount;
      rows := rows + [row];
      i := i + 1;
    }
    assert order.items[..|order.items|] == order.items;
    var customer := TicketCustomer(order.customerName.GetOr(""), order.customerAddress.GetOr(""), order.customerPhone);
    ticket := Ticket(0, date, time, customer, rows, TicketTotals(totalItems, totalAmount, totalAmount));
  }
}
