/**
 * The Firestore variant of the sale logic (Index.js): the invoice cart is a
 * React state array rebuilt by `map`, spread and `filter`; `stats` is a set of
 * `filter`/`reduce` aggregates; and creating an invoice writes the invoice,
 * an income transaction and then each product's stock, one document at a time.
 *
 * Unlike the other two copies there is no tax, and the stock written back is
 * the stock remembered in the cart line minus the quantity, with no clamp.
 */
module Firestore {
  import opened Common

  const INCOME := "income"
  const EXPENSE := "expense"
  const LOW_STOCK_LEVEL := 5
  const PAID := "paid"
  const SALES_CATEGORY := "Ventas"
  const INVOICE_PREFIX := "Venta Factura - "

  /** A document of the `inventory` collection. */
  datatype Product = Product(id: string, name: string, price: real, stock: int)

  /**
   * A cart line: the product document spread into a new object with a `qty`,
   * so it keeps the product's `stock` as it was when the line was created.
   */
  datatype CartLine = CartLine(id: string, name: string, price: real, stock: int, qty: int)
  // The cart algebra below parallels the one in LocalStore, but over this
  // line shape: ids are document ids (strings), the line keeps the whole
  // product snapshot, increments rebuild the array with `map`, and removal
  // filters by id instead of splicing by position.

  /** A document of the `transactions` collection; `kind` is the `type` field. */
  datatype Transaction = Transaction(kind: string, description: string, amount: real, date: string, category: string)

  /** A document of the `invoices` collection. */
  datatype Invoice = Invoice(clientName: string, items: seq<CartLine>, total: real, date: string, status: string)

  function LineId(l: CartLine): string { l.id }

  /** The line `{...product, qty: 1}` that a product enters the cart as. */
  function NewLine(p: Product): CartLine
  {
    CartLine(p.id, p.name, p.price, p.stock, 1)
  }

  /** No two lines of the cart carry the same product id. */
  ghost predicate UniqueIds(cart: seq<CartLine>)
  {
    forall i, j :: 0 <= i < j < |cart| ==> cart[i].id != cart[j].id
  }

  // ---------------------------------------------------------------------------
  // The cart
  // ---------------------------------------------------------------------------

  /** `cart.map(c => c.id === id ? {...c, qty: c.qty + 1} : c)`. */
  function IncrementLines(cart: seq<CartLine>, id: string): (r: seq<CartLine>)
    ensures |r| == |cart|
    ensures forall i :: 0 <= i < |cart| ==> r[i] == cart[i].(qty := r[i].qty)
    ensures forall i :: 0 <= i < |cart| ==> r[i].qty == cart[i].qty + (if cart[i].id == id then 1 else 0)
  {
    seq(|cart|, i requires 0 <= i < |cart| =>
      if cart[i].id == id then cart[i].(qty := cart[i].qty + 1) else cart[i])
  }

  /**
   * `addToCart(product)`: an existing line below the product's current stock
   * gains one unit, an existing line at or above it leaves the cart as it is
   * (the "not enough stock" alert), and a new product is appended with qty 1.
   */
  function AddToCart(cart: seq<CartLine>, product: Product): (r: seq<CartLine>)
    ensures FirstIndex(cart, LineId, product.id).None? ==> r == cart + [NewLine(product)]
    ensures FirstIndex(cart, LineId, product.id).Some? ==> |r| == |cart|
    ensures forall i :: 0 <= i < |cart| && cart[i].id != product.id ==> r[i] == cart[i]
  {
    match FirstIndex(cart, LineId, product.id)
    case None => cart + [NewLine(product)]
    case Some(k) => if cart[k].qty >= product.stock then cart else IncrementLines(cart, product.id)
  }

  /** The line removal button: `cart.filter(c => c.id !== id)`. */
  function RemoveLine(cart: seq<CartLine>, id: string): (r: seq<CartLine>)
    ensures |r| <= |cart|
    ensures forall j :: 0 <= j < |r| ==> r[j] in cart && r[j].id != id
    ensures forall j :: 0 <= j < |cart| && cart[j].id != id ==> cart[j] in r
  {
    Without(cart, LineId, id)
  }

  /** An existing line already at the product's stock blocks the addition: the cart does not change. */
  lemma AddToCartAtStock(cart: seq<CartLine>, product: Product, k: nat)
    requires k < |cart| && cart[k].id == product.id && UniqueIds(cart)
    requires cart[k].qty >= product.stock
    ensures AddToCart(cart, product) == cart
  {
    FirstIsOnly(cart, product.id, k);
  }

  /** With ids unique, an existing line below the stock is the only line that changes, and by one unit. */
  lemma AddToCartBelowStock(cart: seq<CartLine>, product: Product, k: nat)
    requires k < |cart| && cart[k].id == product.id && UniqueIds(cart)
    requires cart[k].qty < product.stock
    ensures AddToCart(cart, product) == cart[k := cart[k].(qty := cart[k].qty + 1)]
  {
    FirstIsOnly(cart, product.id, k);
    var r := AddToCart(cart, product);
    var s := cart[k := cart[k].(qty := cart[k].qty + 1)];
    assert forall i :: 0 <= i < |cart| ==> r[i] == s[i];
  }

  /** In a cart with unique ids, the line carrying `id` is the one `find` returns. */
  lemma FirstIsOnly(cart: seq<CartLine>, id: string, k: nat)
    requires k < |cart| && cart[k].id == id && UniqueIds(cart)
    ensures FirstIndex(cart, LineId, id) == Some(k)
  {
    var f := FirstIndex(cart, LineId, id);
    assert LineId(cart[k]) == id;
  }

  /** `addToCart` never creates a second line for the same product. */
  lemma AddToCartKeepsIdsUnique(cart: seq<CartLine>, product: Product)
    requires UniqueIds(cart)
    ensures UniqueIds(AddToCart(cart, product))
  {
    var r := AddToCart(cart, product);
    match FirstIndex(cart, LineId, product.id)
    case None =>
      forall i, j | 0 <= i < j < |r| ensures r[i].id != r[j].id {
        assert LineId(cart[i]) != product.id;
      }
    case Some(k) =>
      forall i, j | 0 <= i < j < |r| ensures r[i].id != r[j].id {
        assert r[i].id == cart[i].id && r[j].id == cart[j].id;
      }
  }

  /**
   * The bound `addToCart` keeps: every line for `product` holds at most its
   * current stock, except that a product with no stock left may still enter
   * the cart once (the new-line branch does not look at the stock).
   */
  ghost predicate WithinStock(cart: seq<CartLine>, product: Product)
  {
    forall i :: 0 <= i < |cart| && cart[i].id == product.id ==>
      cart[i].qty <= (if product.stock < 1 then 1 else product.stock)
  }

  lemma AddToCartWithinStock(cart: seq<CartLine>, product: Product)
    requires UniqueIds(cart) && WithinStock(cart, product)
    ensures WithinStock(AddToCart(cart, product), product)
  {
    var r := AddToCart(cart, product);
    match FirstIndex(cart, LineId, product.id)
    case None =>
      forall i | 0 <= i < |r| && r[i].id == product.id
        ensures r[i].qty <= (if product.stock < 1 then 1 else product.stock)
      {
      }
    case Some(k) =>
      if cart[k].qty < product.stock {
        AddToCartBelowStock(cart, product, k);
        forall i | 0 <= i < |r| && r[i].id == product.id
          ensures r[i].qty <= (if product.stock < 1 then 1 else product.stock)
        {
        }
      }
  }

  /** Removing the line of a product that `addToCart` just added gives back the cart as it was. */
  lemma RemoveUndoesAdd(cart: seq<CartLine>, product: Product)
    requires FirstIndex(cart, LineId, product.id).None?
    ensures RemoveLine(AddToCart(cart, product), product.id) == cart
  {
    WithoutAppend(cart, [NewLine(product)], LineId, product.id);
    WithoutAbsent(cart, LineId, product.id);
    assert Without([NewLine(product)], LineId, product.id) == [];
  }

  /** Line removal keeps the other lines in order: removing from a concatenation removes from each part. */
  lemma RemoveLineAppend(a: seq<CartLine>, b: seq<CartLine>, id: string)
    ensures RemoveLine(a + b, id) == RemoveLine(a, id) + RemoveLine(b, id)
  {
    WithoutAppend(a, b, LineId, id);
  }

  // ---------------------------------------------------------------------------
  // Cart total
  // ---------------------------------------------------------------------------

  function LineAmount(l: CartLine): real
  {
    l.price * (l.qty as real)
  }

  /** `cart.reduce((acc, item) => acc + (item.price * item.qty), 0)`: no tax. */
  function CartTotal(cart: seq<CartLine>): (r: real)
    ensures (forall k :: 0 <= k < |cart| ==> cart[k].price >= 0.0 && cart[k].qty >= 0) ==> r >= 0.0
  {
    if |cart| == 0 then 0.0
    else CartTotal(cart[..|cart| - 1]) + LineAmount(cart[|cart| - 1])
  }

  lemma {:induction false} CartTotalConcat(a: seq<CartLine>, b: seq<CartLine>)
    ensures CartTotal(a + b) == CartTotal(a) + CartTotal(b)
  {
    if |b| != 0 {
      var n := |b| - 1;
      assert (a + b)[..|a + b| - 1] == a + b[..n];
      CartTotalConcat(a, b[..n]);
    } else {
      assert a + b == a;
    }
  }

  lemma {:induction false} CartTotalPointUpdate(cart: seq<CartLine>, k: nat, line: CartLine)
    requires k < |cart|
    ensures CartTotal(cart[k := line]) == CartTotal(cart) - LineAmount(cart[k]) + LineAmount(line)
  {
    var n := |cart| - 1;
    if k < n {
      assert cart[k := line][..n] == cart[..n][k := line];
      CartTotalPointUpdate(cart[..n], k, line);
    } else {
      assert cart[k := line][..n] == cart[..n];
    }
  }

  lemma LineAmountIncrement(l: CartLine)
    ensures LineAmount(l.(qty := l.qty + 1)) == LineAmount(l) + l.price
  {
  }

  lemma CartTotalAppend(cart: seq<CartLine>, line: CartLine)
    ensures CartTotal(cart + [line]) == CartTotal(cart) + LineAmount(line)
  {
    assert (cart + [line])[..|cart|] == cart;
  }

  lemma AddNewTotal(cart: seq<CartLine>, product: Product)
    requires FirstIndex(cart, LineId, product.id).None?
    ensures CartTotal(AddToCart(cart, product)) == CartTotal(cart) + product.price
  {
    assert AddToCart(cart, product) == cart + [NewLine(product)];
    CartTotalAppend(cart, NewLine(product));
  }

  lemma IncrementTotal(cart: seq<CartLine>, k: nat)
    requires k < |cart|
    ensures CartTotal(cart[k := cart[k].(qty := cart[k].qty + 1)]) == CartTotal(cart) + cart[k].price
  {
    CartTotalPointUpdate(cart, k, cart[k].(qty := cart[k].qty + 1));
    LineAmountIncrement(cart[k]);
  }

  /**
   * Each unit `addToCart` adds raises the invoice total by one unit price: the
   * product's price for a new line, the price remembered in the line otherwise.
   */
  lemma AddToCartTotal(cart: seq<CartLine>, product: Product)
    requires UniqueIds(cart)
    ensures var r := AddToCart(cart, product);
            var f := FirstIndex(cart, LineId, product.id);
      && (f.None? ==> CartTotal(r) == CartTotal(cart) + product.price)
      && (f.Some? ==> r == cart || CartTotal(r) == CartTotal(cart) + cart[f.value].price)
  {
    match FirstIndex(cart, LineId, product.id)
    case None =>
      AddNewTotal(cart, product);
    case Some(k) =>
      if cart[k].qty < product.stock {
        AddToCartBelowStock(cart, product, k);
        IncrementTotal(cart, k);
      }
  }

  // ---------------------------------------------------------------------------
  // Stock written back by an invoice
  // ---------------------------------------------------------------------------

  /** `updateDoc(productRef, { stock: item.stock - item.qty })`; a missing document is not written. */
  function WriteStock(inventory: map<string, Product>, line: CartLine): (r: map<string, Product>)
    ensures r.Keys == inventory.Keys
  {
    if line.id in inventory then inventory[line.id := inventory[line.id].(stock := line.stock - line.qty)]
    else inventory
  }

  /** The writes of the stock loop, in cart order. */
  function WriteStocks(inventory: map<string, Product>, lines: seq<CartLine>): (r: map<string, Product>)
    ensures r.Keys == inventory.Keys
  {
    if |lines| == 0 then inventory
    else WriteStock(WriteStocks(inventory, lines[..|lines| - 1]), lines[|lines| - 1])
  }

  lemma WriteStocksExtend(inventory: map<string, Product>, lines: seq<CartLine>, i: nat)
    requires i < |lines|
    ensures WriteStocks(inventory, lines[..i + 1]) == WriteStock(WriteStocks(inventory, lines[..i]), lines[i])
  {
    assert lines[..i + 1][..i] == lines[..i];
  }

  /** A product no cart line names keeps its document as it was. */
  lemma {:induction false} WriteStocksUntouched(inventory: map<string, Product>, lines: seq<CartLine>, id: string)
    requires id in inventory
    requires forall j :: 0 <= j < |lines| ==> lines[j].id != id
    ensures WriteStocks(inventory, lines)[id] == inventory[id]
  {
    if |lines| != 0 {
      WriteStocksUntouched(inventory, lines[..|lines| - 1], id);
    }
  }

  /**
   * With ids unique, the product of each line ends with the stock remembered
   * in that line minus its quantity, whatever its stock was before: the write
   * ignores the current stock and may leave it negative.
   */
  lemma {:induction false} WriteStocksLine(inventory: map<string, Product>, lines: seq<CartLine>, k: nat)
    requires k < |lines| && lines[k].id in inventory && UniqueIds(lines)
    ensures WriteStocks(inventory, lines)[lines[k].id]
         == inventory[lines[k].id].(stock := lines[k].stock - lines[k].qty)
  {
    var n := |lines| - 1;
    var prefix := lines[..n];
    if k == n {
      assert forall j :: 0 <= j < |prefix| ==> prefix[j].id != lines[k].id by {
        forall j | 0 <= j < |prefix| ensures prefix[j].id != lines[k].id {
          assert prefix[j] == lines[j];
        }
      }
      WriteStocksUntouched(inventory, prefix, lines[k].id);
    } else {
      assert prefix[k] == lines[k];
      assert UniqueIds(prefix) by {
        forall i, j | 0 <= i < j < |prefix| ensures prefix[i].id != prefix[j].id {
          assert prefix[i] == lines[i] && prefix[j] == lines[j];
        }
      }
      WriteStocksLine(inventory, prefix, k);
      assert lines[n].id != lines[k].id;
    }
  }

  /** A product whose stock ran out can still be invoiced once, and its stock is then written as -1. */
  lemma EmptyShelfGoesNegative()
    ensures var p := Product("p1", "Mouse", 10.0, 0);
            var cart := AddToCart([], p);
            cart == [CartLine("p1", "Mouse", 10.0, 0, 1)] &&
            WriteStocks(map["p1" := p], cart)["p1"].stock == -1
  {
    var p := Product("p1", "Mouse", 10.0, 0);
    var cart := AddToCart([], p);
    assert cart == [NewLine(p)];
    WriteStocksLine(map["p1" := p], cart, 0);
  }

  /**
   * The stock written back comes from the cart's snapshot, so a restock that
   * happened after the product entered the cart is lost: 10 units on the
   * shelf, a line remembering 3 and selling 2, and the product ends with 1.
   */
  lemma StaleSnapshotOverwrites()
    ensures WriteStocks(map["p1" := Product("p1", "Mouse", 10.0, 10)],
                        [CartLine("p1", "Mouse", 10.0, 3, 2)])["p1"].stock == 1
  {
    var lines := [CartLine("p1", "Mouse", 10.0, 3, 2)];
    WriteStocksLine(map["p1" := Product("p1", "Mouse", 10.0, 10)], lines, 0);
  }

  // ---------------------------------------------------------------------------
  // Aggregates
  // ---------------------------------------------------------------------------

  /** `transactions.filter(t => t.type === kind).reduce((acc, curr) => acc + curr.amount, 0)`. */
  function TotalOfKind(transactions: seq<Transaction>, kind: string): (r: real)
    ensures (forall i :: 0 <= i < |transactions| ==> transactions[i].kind != kind) ==> r == 0.0
    ensures (forall i :: 0 <= i < |transactions| ==> transactions[i].amount >= 0.0) ==> r >= 0.0
  {
    if |transactions| == 0 then 0.0
    else
      var last := transactions[|transactions| - 1];
      TotalOfKind(transactions[..|transactions| - 1], kind) + (if last.kind == kind then last.amount else 0.0)
  }

  /** `inventory.reduce((acc, curr) => acc + curr.price * curr.stock, 0)`. */
  function InventoryValue(inventory: seq<Product>): (r: real)
    ensures (forall i :: 0 <= i < |inventory| ==> inventory[i].price >= 0.0 && inventory[i].stock >= 0) ==> r >= 0.0
  {
    if |inventory| == 0 then 0.0
    else
      var last := inventory[|inventory| - 1];
      InventoryValue(inventory[..|inventory| - 1]) + last.price * (last.stock as real)
  }

  /** `inventory.filter(i => i.stock < 5).length`. */
  function LowStockItems(inventory: seq<Product>): (n: nat)
    ensures n <= |inventory|
    ensures n == 0 <==> forall i :: 0 <= i < |inventory| ==> inventory[i].stock >= LOW_STOCK_LEVEL
  {
    if |inventory| == 0 then 0
    else
      var rest := LowStockItems(inventory[..|inventory| - 1]);
      assert forall i :: 0 <= i < |inventory| - 1 ==> inventory[..|inventory| - 1][i] == inventory[i];
      rest + (if inventory[|inventory| - 1].stock < LOW_STOCK_LEVEL then 1 else 0)
  }

  datatype Stats = Stats(totalIncome: real, totalExpense: real, netProfit: real, inventoryValue: real, lowStockItems: nat)

  /** The dashboard figures of `stats`. */
  function StatsOf(inventory: seq<Product>, transactions: seq<Transaction>): (s: Stats)
    ensures s.netProfit == s.totalIncome - s.totalExpense
    ensures s.lowStockItems <= |inventory|
  {
    var income := TotalOfKind(transactions, INCOME);
    var expense := TotalOfKind(transactions, EXPENSE);
    Stats(income, expense, income - expense, InventoryValue(inventory), LowStockItems(inventory))
  }

  /** A product document adds its price times its stock to the inventory value. */
  lemma InventoryValueAppend(inventory: seq<Product>, p: Product)
    ensures InventoryValue(inventory + [p]) == InventoryValue(inventory) + p.price * (p.stock as real)
  {
    assert (inventory + [p])[..|inventory|] == inventory;
  }

  /** A product document is counted as low exactly when its stock is below 5. */
  lemma LowStockItemsAppend(inventory: seq<Product>, p: Product)
    ensures LowStockItems(inventory + [p]) == LowStockItems(inventory) + (if p.stock < LOW_STOCK_LEVEL then 1 else 0)
  {
    assert (inventory + [p])[..|inventory|] == inventory;
  }

  /** A new product document moves only the two inventory figures; income, expense and net profit stay. */
  lemma StatsAddProduct(inventory: seq<Product>, transactions: seq<Transaction>, p: Product)
    ensures var before := StatsOf(inventory, transactions);
      StatsOf(inventory + [p], transactions) ==
      before.(inventoryValue := before.inventoryValue + p.price * (p.stock as real),
              lowStockItems := before.lowStockItems + (if p.stock < LOW_STOCK_LEVEL then 1 else 0))
  {
    InventoryValueAppend(inventory, p);
    LowStockItemsAppend(inventory, p);
  }

  /** A recorded transaction moves the total of its own kind by its amount and leaves every other kind alone. */
  lemma TotalOfKindAppend(transactions: seq<Transaction>, t: Transaction, kind: string)
    ensures TotalOfKind(transactions + [t], kind)
         == TotalOfKind(transactions, kind) + (if t.kind == kind then t.amount else 0.0)
  {
    assert (transactions + [t])[..|transactions|] == transactions;
  }

  // ---------------------------------------------------------------------------
  // The workspace and handleCreateInvoice
  // ---------------------------------------------------------------------------

  /** The income transaction recorded for an invoice. */
  function IncomeFor(clientName: string, total: real, date: string): (t: Transaction)
    ensures TotalOfKind([t], INCOME) == total && TotalOfKind([t], EXPENSE) == 0.0
    ensures INVOICE_PREFIX <= t.description && t.description[|INVOICE_PREFIX|..] == clientName
    ensures t.date == date && t.category == SALES_CATEGORY
  {
    Transaction(INCOME, INVOICE_PREFIX + clientName, total, date, SALES_CATEGORY)
  }

  /** The invoice document written for a cart. */
  function InvoiceFor(clientName: string, cart: seq<CartLine>, date: string): (inv: Invoice)
    ensures inv.items == cart && inv.total == CartTotal(inv.items)
    ensures inv.clientName == clientName && inv.date == date && inv.status == PAID
  {
    Invoice(clientName, cart, CartTotal(cart), date, PAID)
  }

  /** An invoice's income figure is its total: recording it raises income by that amount and leaves expenses alone. */
  lemma InvoiceRaisesIncome(inventory: seq<Product>, transactions: seq<Transaction>, clientName: string,
                            cart: seq<CartLine>, invoiceDate: string, incomeDate: string)
    ensures var before := StatsOf(inventory, transactions);
            var after := StatsOf(inventory, transactions + [IncomeFor(clientName, CartTotal(cart), incomeDate)]);
      && after.totalIncome == before.totalIncome + InvoiceFor(clientName, cart, invoiceDate).total
      && after.totalExpense == before.totalExpense
      && after.netProfit == before.netProfit + CartTotal(cart)
  {
    var t := IncomeFor(clientName, CartTotal(cart), incomeDate);
    TotalOfKindAppend(transactions, t, INCOME);
    TotalOfKindAppend(transactions, t, EXPENSE);
  }

  datatype InvoiceResult = Ignored | Created | MissingProduct(index: nat)

  /**
   * The state of the invoice screen: the three collections as stored, the
   * cart, and the client name typed into the form.
   */
  class Workspace {
    var inventory: map<string, Product>
    var transactions: seq<Transaction>
    var invoices: seq<Invoice>
    var cart: seq<CartLine>
    var clientName: string

    constructor(inventory: map<string, Product>)
      ensures this.inventory == inventory
      ensures transactions == [] && invoices == [] && cart == [] && clientName == ""
    {
      this.inventory := inventory;
      transactions := [];
      invoices := [];
      cart := [];
      clientName := "";
    }

    /** One `updateDoc` of the stock loop; `ok` is false when the document does not exist. */
    method UpdateStock(line: CartLine) returns (ok: bool)
      modifies this
      ensures ok == (line.id in old(inventory))
      ensures inventory == WriteStock(old(inventory), line)
      ensures transactions == old(transactions) && invoices == old(invoices)
      ensures cart == old(cart) && clientName == old(clientName)
    {
      ok := line.id in inventory;
      if ok {
        inventory := inventory[line.id := inventory[line.id].(stock := line.stock - line.qty)];
      }
    }

    /**
     * The stock loop of `handleCreateInvoice`: one write per line, in order,
     * stopping at the first line whose product document does not exist.
     */
    method WriteCartStocks(items: seq<CartLine>) returns (missing: Option<nat>)
      modifies this
      ensures missing.None? ==>
        (forall j :: 0 <= j < |items| ==> items[j].id in old(inventory)) &&
        inventory == WriteStocks(old(inventory), items)
      ensures missing.Some? ==>
        missing.value < |items| && items[missing.value].id !in old(inventory) &&
        (forall j :: 0 <= j < missing.value ==> items[j].id in old(inventory)) &&
        inventory == WriteStocks(old(inventory), items[..missing.value])
      ensures transactions == old(transactions) && invoices == old(invoices)
      ensures cart == old(cart) && clientName == old(clientName)
    {
      var i := 0;
      while i < |items|
        invariant 0 <= i <= |items|
        invariant inventory == WriteStocks(old(inventory), items[..i])
        invariant forall j :: 0 <= j < i ==> items[j].id in old(inventory)
        invariant transactions == old(transactions) && invoices == old(invoices)
        invariant cart == old(cart) && clientName == old(clientName)
      {
        var ok := UpdateStock(items[i]);
        if !ok {
          return Some(i);
        }
        WriteStocksExtend(old(inventory), items, i);
        i := i + 1;
      }
      assert items[..i] == items;
      missing := None;
    }

    /**
     * `handleCreateInvoice`: with an empty cart or no client name nothing
     * happens. Otherwise the invoice and the income transaction are written,
     * then each line's stock. The writes are not atomic: when a product
     * document is missing, the writes before it stay, and the cart and the
     * client name are kept for another attempt; on success both are cleared.
     * The invoice and the income transaction each read the clock once, so
     * their dates are two parameters that need not agree.
     */
    method CreateInvoice(invoiceDate: string, incomeDate: string) returns (r: InvoiceResult)
      modifies this
      ensures r == Ignored <==> old(|cart| == 0 || clientName == "")
      ensures r == Ignored ==>
        inventory == old(inventory) && transactions == old(transactions) && invoices == old(invoices) &&
        cart == old(cart) && clientName == old(clientName)
      ensures r != Ignored ==>
        invoices == old(invoices) + [InvoiceFor(old(clientName), old(cart), invoiceDate)] &&
        transactions == old(transactions) + [IncomeFor(old(clientName), CartTotal(old(cart)), incomeDate)]
      ensures r == Created ==>
        (forall j :: 0 <= j < |old(cart)| ==> old(cart)[j].id in old(inventory)) &&
        inventory == WriteStocks(old(inventory), old(cart)) &&
        cart == [] && clientName == ""
      ensures r.MissingProduct? ==>
        r.index < |old(cart)| && old(cart)[r.index].id !in old(inventory) &&
        (forall j :: 0 <= j < r.index ==> old(cart)[j].id in old(inventory)) &&
        inventory == WriteStocks(old(inventory), old(cart)[..r.index]) &&
        cart == old(cart) && clientName == old(clientName)
    {
      if |cart| == 0 || clientName == "" {
        return Ignored;
      }
      var total := CartTotal(cart);
      invoices := invoices + [Invoice(clientName, cart, total, invoiceDate, PAID)];
      transactions := transactions + [IncomeFor(clientName, total, incomeDate)];
      var missing := WriteCartStocks(cart);
      if missing.Some? {
        return MissingProduct(missing.value);
      }
      cart := [];
      clientName := "";
      r := Created;
    }
  }
}
