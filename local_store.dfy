/**
 * The browser-only copy of the sale logic (app.js): a `data` store of four
 * arrays and a `cart`, all mutated in place by the point-of-sale handlers.
 * Arrays are sequences; `find` picks the first element with a matching id;
 * `filter` keeps the elements whose id differs. Money is exact.
 */
module LocalStore {
  import opened Common

  /** The flat sales tax applied to every sale. */
  const TAX_RATE: real := 19.0 / 100.0
  /** The dashboard counts a product as low on stock below this level. */
  const LOW_STOCK_LEVEL: int := 10
  /** The dashboard assumes this share of the price as the cost of an item whose product is gone. */
  const FALLBACK_COST_SHARE: real := 0.5

  datatype Product = Product(id: int, name: string, category: string, stock: int, price: real, cost: real)
  /** `totalSpent` may be missing from a stored client; it then counts as 0. */
  datatype Client = Client(id: int, name: string, email: string, phone: string, totalSpent: Option<real>)
  /** A cart line: the product's id, name and price when it was added, the quantity, and the stock then. */
  datatype CartLine = CartLine(id: int, name: string, price: real, qty: int, maxStock: int)
  datatype Sale = Sale(id: string, date: string, clientId: int, clientName: string,
                       items: seq<CartLine>, subtotal: real, tax: real, total: real)
  datatype Expense = Expense(id: int, description: string, amount: real, category: string, date: string)

  datatype SaleError = EmptyCart
  datatype ClientError = CannotDeleteDefaultClient
  /** What `addToCart` did: nothing for an unknown product, a new line, one more unit, or a refusal for lack of stock. */
  datatype CartChange = UnknownProduct | Appended | Incremented | NotEnoughStock

  function ProductKey(p: Product): int { p.id }
  function ClientKey(c: Client): int { c.id }
  function LineKey(l: CartLine): int { l.id }
  function SaleKey(s: Sale): string { s.id }
  function ExpenseKey(e: Expense): int { e.id }

  // ---------------------------------------------------------------------------
  // Totals of a cart
  // ---------------------------------------------------------------------------

  function LineAmount(l: CartLine): real
  {
    l.price * (l.qty as real)
  }

  /** `cart.reduce((acc, item) => acc + item.price * item.qty, 0)`. */
  function Subtotal(cart: seq<CartLine>): (r: real)
    ensures (forall k :: 0 <= k < |cart| ==> cart[k].price >= 0.0 && cart[k].qty >= 0) ==> r >= 0.0
  {
    if |cart| == 0 then 0.0
    else Subtotal(cart[..|cart| - 1]) + LineAmount(cart[|cart| - 1])
  }

  /** The subtotal of two carts put together is the sum of their subtotals. */
  lemma {:induction false} SubtotalConcat(a: seq<CartLine>, b: seq<CartLine>)
    ensures Subtotal(a + b) == Subtotal(a) + Subtotal(b)
  {
    if |b| != 0 {
      var n := |b| - 1;
      assert (a + b)[..|a + b| - 1] == a + b[..n];
      SubtotalConcat(a, b[..n]);
    } else {
      assert a + b == a;
    }
  }

  datatype Totals = Totals(subtotal: real, tax: real, total: real)

  /** The three amounts `processSale` records: subtotal, 19% tax on it, and their sum. */
  function SaleTotals(cart: seq<CartLine>): (t: Totals)
    ensures t.subtotal == Subtotal(cart)
    ensures t.total == t.subtotal + t.tax
    ensures t.total == Subtotal(cart) * (1.0 + TAX_RATE)
  {
    var subtotal := Subtotal(cart);
    var tax := subtotal * TAX_RATE;
    Totals(subtotal, tax, subtotal + tax)
  }

  /** Two units at 100000: subtotal 200000, tax 38000, total 238000. */
  lemma TotalsOfTwoUnits()
    ensures SaleTotals([CartLine(5, "P", 100000.0, 2, 5)]) == Totals(200000.0, 38000.0, 238000.0)
  {
    var cart := [CartLine(5, "P", 100000.0, 2, 5)];
    assert cart[..0] == [];
    assert Subtotal(cart) == 200000.0;
  }

  // ---------------------------------------------------------------------------
  // The effects of processSale
  // ---------------------------------------------------------------------------

  /** One iteration of the stock loop: the first product with the line's id loses `qty`, floored at zero. */
  function SubtractLine(products: seq<Product>, line: CartLine): (r: seq<Product>)
    ensures |r| == |products|
    ensures forall j :: 0 <= j < |products| ==> r[j] == products[j].(stock := r[j].stock)
    ensures forall j :: 0 <= j < |products| && products[j].stock >= 0 ==> r[j].stock >= 0
  {
    match FirstIndex(products, ProductKey, line.id)
    case None => products
    case Some(k) => products[k := products[k].(stock := Clamp(products[k].stock - line.qty))]
  }

  /** The products after the stock loop of `processSale` over `cart`. */
  function ApplyCart(products: seq<Product>, cart: seq<CartLine>): (r: seq<Product>)
    ensures |r| == |products|
    ensures forall j :: 0 <= j < |products| ==> r[j] == products[j].(stock := r[j].stock)
  {
    if |cart| == 0 then products
    else SubtractLine(ApplyCart(products, cart[..|cart| - 1]), cart[|cart| - 1])
  }

  /** A product the loop never finds (its id is in no line, or an earlier product has the same id) keeps its stock. */
  lemma ApplyCartExtend(products: seq<Product>, cart: seq<CartLine>, i: nat)
    requires i < |cart|
    ensures ApplyCart(products, cart[..i + 1]) == SubtractLine(ApplyCart(products, cart[..i]), cart[i])
  {
    assert cart[..i + 1][..i] == cart[..i];
  }

  lemma {:induction false} ApplyCartUntouched(products: seq<Product>, cart: seq<CartLine>, j: nat)
    requires j < |products|
    requires FirstIndex(products, ProductKey, products[j].id) != Some(j) ||
             forall k :: 0 <= k < |cart| ==> cart[k].id != products[j].id
    ensures ApplyCart(products, cart)[j] == products[j]
  {
    if |cart| != 0 {
      var before := ApplyCart(products, cart[..|cart| - 1]);
      ApplyCartUntouched(products, cart[..|cart| - 1], j);
      SameIdsSameFirst(products, before, cart[|cart| - 1].id);
    }
  }

  /** The stock loop never changes ids, so every `find` answers the same before and after it. */
  lemma {:induction false} SameIdsSameFirst(a: seq<Product>, b: seq<Product>, id: int)
    requires |a| == |b| && forall j :: 0 <= j < |a| ==> a[j].id == b[j].id
    ensures FirstIndex(a, ProductKey, id) == FirstIndex(b, ProductKey, id)
  {
    if |a| != 0 {
      SameIdsSameFirst(a[1..], b[1..], id);
    }
  }

  /** One iteration of the loop changes at most the stock of the product it finds. */
  lemma SubtractLineAt(products: seq<Product>, line: CartLine, j: nat)
    requires j < |products|
    ensures |SubtractLine(products, line)| == |products|
    ensures SubtractLine(products, line)[j] ==
      if FirstIndex(products, ProductKey, line.id) == Some(j)
      then products[j].(stock := Clamp(products[j].stock - line.qty))
      else products[j]
  {
  }

  /**
   * A product found by the loop and named by a single cart line ends at
   * max(0, stock - qty).
   */
  lemma {:induction false} ApplyCartStock(products: seq<Product>, cart: seq<CartLine>, j: nat, k: nat)
    requires j < |products| && k < |cart| && cart[k].id == products[j].id
    requires FirstIndex(products, ProductKey, products[j].id) == Some(j)
    requires forall i :: 0 <= i < |cart| && i != k ==> cart[i].id != cart[k].id
    ensures ApplyCart(products, cart)[j].stock == Clamp(products[j].stock - cart[k].qty)
  {
    var n := |cart| - 1;
    var before := ApplyCart(products, cart[..n]);
    SameIdsSameFirst(products, before, products[j].id);
    if k == n {
      ApplyCartUntouched(products, cart[..n], j);
    } else {
      ApplyCartStock(products, cart[..n], j, k);
    }
  }

  /** Every product the loop touches ends with a non-negative stock. */
  lemma {:induction false} ApplyCartNonNegative(products: seq<Product>, cart: seq<CartLine>, j: nat, k: nat)
    requires j < |products| && k < |cart| && cart[k].id == products[j].id
    requires FirstIndex(products, ProductKey, products[j].id) == Some(j)
    ensures ApplyCart(products, cart)[j].stock >= 0
  {
    var n := |cart| - 1;
    var before := ApplyCart(products, cart[..n]);
    SameIdsSameFirst(products, before, products[j].id);
    SubtractLineAt(before, cart[n], j);
    if k != n {
      ApplyCartNonNegative(products, cart[..n], j, k);
    }
  }

  /** `client.totalSpent = (client.totalSpent || 0) + total` on the first client whose id matches. */
  function CreditFirst(clients: seq<Client>, clientId: int, amount: real): (r: seq<Client>)
    ensures |r| == |clients|
  {
    match FirstIndex(clients, ClientKey, clientId)
    case None => clients
    case Some(k) => clients[k := clients[k].(totalSpent := Some(clients[k].totalSpent.GetOr(0.0) + amount))]
  }

  /** The matching client's balance rises by exactly `amount` (a missing balance counting as 0); no other client changes. */
  lemma CreditFirstExact(clients: seq<Client>, clientId: int, amount: real, j: nat)
    requires j < |clients|
    ensures FirstIndex(clients, ClientKey, clientId) == Some(j) ==>
      CreditFirst(clients, clientId, amount)[j] ==
      clients[j].(totalSpent := Some(clients[j].totalSpent.GetOr(0.0) + amount))
    ensures FirstIndex(clients, ClientKey, clientId) != Some(j) ==>
      CreditFirst(clients, clientId, amount)[j] == clients[j]
  {
  }

  // ---------------------------------------------------------------------------
  // Cart maintenance
  // ---------------------------------------------------------------------------

  /** `addToCart(productId)` as a function of the products and the cart. */
  function AddToCartSpec(products: seq<Product>, cart: seq<CartLine>, productId: int): (r: (CartChange, seq<CartLine>))
    ensures r.0 == UnknownProduct <==> FirstIndex(products, ProductKey, productId).None?
    ensures r.0 == Appended <==>
      FirstIndex(products, ProductKey, productId).Some? && FirstIndex(cart, LineKey, productId).None?
    ensures FirstIndex(products, ProductKey, productId).Some? && FirstIndex(cart, LineKey, productId).Some? ==>
      (r.0 == Incremented <==>
       cart[FirstIndex(cart, LineKey, productId).value].qty < products[FirstIndex(products, ProductKey, productId).value].stock)
    ensures r.0 in {UnknownProduct, NotEnoughStock} ==> r.1 == cart
    ensures r.0 == Incremented ==>
      var k := FirstIndex(cart, LineKey, productId).value;
      r.1 == cart[k := cart[k].(qty := cart[k].qty + 1)]
    ensures r.0 == Appended ==>
      var product := products[FirstIndex(products, ProductKey, productId).value];
      r.1 == cart + [CartLine(product.id, product.name, product.price, 1, product.stock)]
  {
    match FirstIndex(products, ProductKey, productId)
    case None => (UnknownProduct, cart)
    case Some(p) =>
      var product := products[p];
      match FirstIndex(cart, LineKey, productId)
      case Some(k) =>
        if cart[k].qty < product.stock then (Incremented, cart[k := cart[k].(qty := cart[k].qty + 1)])
        else (NotEnoughStock, cart)
      case None =>
        (Appended, cart + [CartLine(product.id, product.name, product.price, 1, product.stock)])
  }

  predicate UniqueLines(cart: seq<CartLine>)
  {
    forall i, j :: 0 <= i < j < |cart| ==> cart[i].id != cart[j].id
  }

  /** `addToCart` never puts two lines for the same product in the cart. */
  lemma AddToCartKeepsLinesUnique(products: seq<Product>, cart: seq<CartLine>, productId: int)
    requires UniqueLines(cart)
    ensures UniqueLines(AddToCartSpec(products, cart, productId).1)
  {
    var r := AddToCartSpec(products, cart, productId);
    if r.0 == Appended {
      assert forall i :: 0 <= i < |cart| ==> LineKey(cart[i]) != productId;
      assert r.1[|cart|].id == productId;
    }
  }

  /**
   * `addToCart` grows the cart's subtotal by exactly one unit price: the
   * product's current price for a new line, the line's recorded price for an
   * incremented one; an incremented line never exceeds the product's stock.
   */
  lemma AddToCartSubtotal(products: seq<Product>, cart: seq<CartLine>, productId: int)
    ensures var r := AddToCartSpec(products, cart, productId);
            var p := FirstIndex(products, ProductKey, productId);
            var k := FirstIndex(cart, LineKey, productId);
      && (r.0 == Appended ==> Subtotal(r.1) == Subtotal(cart) + products[p.value].price)
      && (r.0 == Incremented ==>
            k.Some? && Subtotal(r.1) == Subtotal(cart) + cart[k.value].price &&
            r.1[k.value].qty <= products[p.value].stock)
  {
    var r := AddToCartSpec(products, cart, productId);
    if r.0 == Incremented {
      var k := FirstIndex(cart, LineKey, productId).value;
      assert r.1 == cart[k := cart[k].(qty := cart[k].qty + 1)];
      SubtotalIncrement(cart, k);
    } else if r.0 == Appended {
      var product := products[FirstIndex(products, ProductKey, productId).value];
      var line := CartLine(product.id, product.name, product.price, 1, product.stock);
      assert r.1 == cart + [line];
      SubtotalAppend(cart, line);
    }
  }

  lemma SubtotalIncrement(cart: seq<CartLine>, k: nat)
    requires k < |cart|
    ensures Subtotal(cart[k := cart[k].(qty := cart[k].qty + 1)]) == Subtotal(cart) + cart[k].price
  {
    SubtotalPointUpdate(cart, k, cart[k].(qty := cart[k].qty + 1));
    LineAmountIncrement(cart[k]);
  }

  lemma SubtotalAppend(cart: seq<CartLine>, line: CartLine)
    ensures Subtotal(cart + [line]) == Subtotal(cart) + LineAmount(line)
  {
    assert (cart + [line])[..|cart|] == cart;
  }

  lemma LineAmountIncrement(l: CartLine)
    ensures LineAmount(l.(qty := l.qty + 1)) == LineAmount(l) + l.price
  {
  }

  /** Replacing one line changes the subtotal by the difference of the two lines' amounts. */
  lemma {:induction false} SubtotalPointUpdate(cart: seq<CartLine>, k: nat, line: CartLine)
    requires k < |cart|
    ensures Subtotal(cart[k := line]) == Subtotal(cart) - LineAmount(cart[k]) + LineAmount(line)
  {
    var n := |cart| - 1;
    if k == n {
      assert cart[k := line][..n] == cart[..n];
    } else {
      assert cart[k := line][..n] == cart[..n][k := line];
      SubtotalPointUpdate(cart[..n], k, line);
    }
  }

  /** `cart.splice(index, 1)`: a negative index counts from the end, one reaching past the start removes the first line, and an index past the end removes nothing. */
  function SpliceOne(cart: seq<CartLine>, index: int): (r: seq<CartLine>)
    ensures 0 <= index < |cart| ==> r == cart[..index] + cart[index + 1..]
    ensures -|cart| <= index < 0 ==> r == cart[..|cart| + index] + cart[|cart| + index + 1..]
    ensures index < -|cart| && |cart| > 0 ==> r == cart[1..]
    ensures -|cart| <= index < |cart| ==> |r| == |cart| - 1
    ensures index >= |cart| || |cart| == 0 ==> r == cart
  {
    var start := if index < 0 then (if |cart| + index < 0 then 0 else |cart| + index)
                 else (if index > |cart| then |cart| else index);
    if start < |cart| then cart[..start] + cart[start + 1..] else cart
  }

  /** Removing a line lowers the subtotal by exactly that line's amount. */
  lemma SpliceOneSubtotal(cart: seq<CartLine>, index: int)
    requires 0 <= index < |cart|
    ensures Subtotal(SpliceOne(cart, index)) == Subtotal(cart) - LineAmount(cart[index])
  {
    SplitAt(cart, index);
    SubtotalMiddle(cart[..index], cart[index], cart[index + 1..]);
  }

  lemma SplitAt(cart: seq<CartLine>, index: nat)
    requires index < |cart|
    ensures cart == (cart[..index] + [cart[index]]) + cart[index + 1..]
  {
  }

  lemma SubtotalMiddle(a: seq<CartLine>, x: CartLine, b: seq<CartLine>)
    ensures Subtotal((a + [x]) + b) == Subtotal(a + b) + LineAmount(x)
  {
    SubtotalConcat(a, b);
    SubtotalConcat(a + [x], b);
    SubtotalConcat(a, [x]);
    SubtotalSingleton(x);
  }

  lemma SubtotalSingleton(x: CartLine)
    ensures Subtotal([x]) == LineAmount(x)
  {
    assert [x][..0] == [];
  }

  /** Removing the line `addToCart` just appended gives back the cart as it was. */
  lemma RemoveUndoesAppend(products: seq<Product>, cart: seq<CartLine>, productId: int)
    requires AddToCartSpec(products, cart, productId).0 == Appended
    ensures SpliceOne(AddToCartSpec(products, cart, productId).1, |cart|) == cart
  {
    var r := AddToCartSpec(products, cart, productId).1;
    assert r[..|cart|] == cart;
  }

  // ---------------------------------------------------------------------------
  // Dashboard
  // ---------------------------------------------------------------------------

  /** `data.sales.reduce((acc, curr) => acc + curr.total, 0)`. */
  function TotalSales(sales: seq<Sale>): (r: real)
    ensures (forall i :: 0 <= i < |sales| ==> sales[i].total >= 0.0) ==> r >= 0.0
  {
    if |sales| == 0 then 0.0 else sales[0].total + TotalSales(sales[1..])
  }

  /** `data.expenses.reduce((acc, curr) => acc + curr.amount, 0)`. */
  function TotalExpenses(expenses: seq<Expense>): (r: real)
    ensures (forall i :: 0 <= i < |expenses| ==> expenses[i].amount >= 0.0) ==> r >= 0.0
  {
    if |expenses| == 0 then 0.0 else expenses[0].amount + TotalExpenses(expenses[1..])
  }

  /** The profit of one sold line: price minus the product's current cost, or half the price if the product is gone. */
  function LineProfit(products: seq<Product>, item: CartLine): (r: real)
    ensures FirstIndex(products, ProductKey, item.id).Some? ==>
      r == LineAmount(item) - products[FirstIndex(products, ProductKey, item.id).value].cost * (item.qty as real)
    ensures FirstIndex(products, ProductKey, item.id).None? ==> r == LineAmount(item) * (1.0 - FALLBACK_COST_SHARE)
  {
    var cost := match FirstIndex(products, ProductKey, item.id)
                case Some(p) => products[p].cost
                case None => item.price * FALLBACK_COST_SHARE;
    (item.price - cost) * (item.qty as real)
  }

  /** The profit of one sale's items, summed front to back. */
  function ItemsProfit(products: seq<Product>, items: seq<CartLine>): real
  {
    if |items| == 0 then 0.0 else LineProfit(products, items[0]) + ItemsProfit(products, items[1..])
  }

  /** The gross profit of all sales. */
  function GrossProfit(products: seq<Product>, sales: seq<Sale>): real
  {
    if |sales| == 0 then 0.0 else ItemsProfit(products, sales[0].items) + GrossProfit(products, sales[1..])
  }

  function CountLowStock(products: seq<Product>): (n: nat)
    ensures n <= |products|
  {
    if |products| == 0 then 0
    else (if products[0].stock < LOW_STOCK_LEVEL then 1 else 0) + CountLowStock(products[1..])
  }

  datatype Dashboard = Dashboard(totalSales: real, totalExpenses: real, netProfit: real, lowStockCount: nat)

  /** The four figures `updateDashboard` shows. */
  function DashboardOf(products: seq<Product>, sales: seq<Sale>, expenses: seq<Expense>): (d: Dashboard)
    ensures d.netProfit == GrossProfit(products, sales) - d.totalExpenses
    ensures d.lowStockCount <= |products|
  {
    Dashboard(TotalSales(sales), TotalExpenses(expenses),
              GrossProfit(products, sales) - TotalExpenses(expenses), CountLowStock(products))
  }

  /** Appending a sale raises the dashboard's sales total by exactly that sale's total. */
  lemma {:induction false} TotalSalesAppend(sales: seq<Sale>, s: Sale)
    ensures TotalSales(sales + [s]) == TotalSales(sales) + s.total
  {
    if |sales| != 0 {
      assert (sales + [s])[1..] == sales[1..] + [s];
      TotalSalesAppend(sales[1..], s);
    }
  }

  /** Deleting the sales with an id lowers the sales total by exactly their totals. */
  lemma {:induction false} TotalSalesSplit(sales: seq<Sale>, id: string)
    ensures TotalSales(Without(sales, SaleKey, id)) + TotalSales(Only(sales, SaleKey, id)) == TotalSales(sales)
  {
    if |sales| != 0 {
      TotalSalesSplit(sales[1..], id);
    }
  }

  /** Appending an expense raises the expense total by exactly its amount. */
  lemma {:induction false} TotalExpensesAppend(expenses: seq<Expense>, e: Expense)
    ensures TotalExpenses(expenses + [e]) == TotalExpenses(expenses) + e.amount
  {
    if |expenses| != 0 {
      assert (expenses + [e])[1..] == expenses[1..] + [e];
      TotalExpensesAppend(expenses[1..], e);
    }
  }

  /** One more sold line adds exactly its own profit. */
  lemma {:induction false} ItemsProfitAppend(products: seq<Product>, items: seq<CartLine>, item: CartLine)
    ensures ItemsProfit(products, items + [item]) == ItemsProfit(products, items) + LineProfit(products, item)
  {
    if |items| != 0 {
      assert (items + [item])[1..] == items[1..] + [item];
      ItemsProfitAppend(products, items[1..], item);
    } else {
      assert [item][1..] == [];
    }
  }

  /** One more sale adds exactly the profit of its items, priced against the current products. */
  lemma {:induction false} GrossProfitAppend(products: seq<Product>, sales: seq<Sale>, s: Sale)
    ensures GrossProfit(products, sales + [s]) == GrossProfit(products, sales) + ItemsProfit(products, s.items)
  {
    if |sales| != 0 {
      assert (sales + [s])[1..] == sales[1..] + [s];
      GrossProfitAppend(products, sales[1..], s);
    } else {
      assert [s][1..] == [];
    }
  }

  /** A product whose stock is at or above the threshold is not counted; one below it is. */
  lemma {:induction false} CountLowStockAppend(products: seq<Product>, p: Product)
    ensures CountLowStock(products + [p]) == CountLowStock(products) + (if p.stock < LOW_STOCK_LEVEL then 1 else 0)
  {
    if |products| != 0 {
      assert (products + [p])[1..] == products[1..] + [p];
      CountLowStockAppend(products[1..], p);
    }
  }

  // ---------------------------------------------------------------------------
  // The store
  // ---------------------------------------------------------------------------

  class Store {
    var products: seq<Product>
    var clients: seq<Client>
    var sales: seq<Sale>
    var expenses: seq<Expense>
    var cart: seq<CartLine>

    /** The initial `data`: only the walk-in client, and an empty cart. */
    constructor ()
      ensures products == [] && sales == [] && expenses == [] && cart == []
      ensures clients == [Client(DEFAULT_CLIENT_ID, DEFAULT_CLIENT_NAME, "", "", Some(0.0))]
    {
      products, sales, expenses, cart := [], [], [], [];
      clients := [Client(DEFAULT_CLIENT_ID, DEFAULT_CLIENT_NAME, "", "", Some(0.0))];
    }

    /**
     * `processSale`: refuses an empty cart; otherwise records the sale with a
     * copy of the cart and its totals, lowers stock (floored at zero), credits
     * the chosen client and empties the cart.
     */
    method ProcessSale(clientId: int, clientName: string, saleId: string, now: string)
      returns (r: Outcome<SaleError>)
      modifies this
      ensures old(cart) == [] ==>
        r == Fail(EmptyCart) && products == old(products) && clients == old(clients) &&
        sales == old(sales) && expenses == old(expenses) && cart == old(cart)
      ensures old(cart) != [] ==>
        && r == Pass
        && products == ApplyCart(old(products), old(cart))
        && clients == CreditFirst(old(clients), clientId, SaleTotals(old(cart)).total)
        && sales == old(sales) + [Sale(saleId, now, clientId, clientName, old(cart),
                                       SaleTotals(old(cart)).subtotal, SaleTotals(old(cart)).tax,
                                       SaleTotals(old(cart)).total)]
        && expenses == old(expenses) && cart == []
    {
      if |cart| == 0 {
        return Fail(EmptyCart);
      }
      var totals := SaleTotals(cart);
      var sale := Sale(saleId, now, clientId, clientName, cart, totals.subtotal, totals.tax, totals.total);
      SubtractCart();
      var c := FirstIndex(clients, ClientKey, clientId);
      if c.Some? {
        var k := c.value;
        clients := clients[k := clients[k].(totalSpent := Some(clients[k].totalSpent.GetOr(0.0) + totals.total))];
      }
      sales := sales + [sale];
      cart := [];
      r := Pass;
    }

    /** The `cart.forEach` stock loop of `processSale`. */
    method SubtractCart()
      modifies this
      ensures products == ApplyCart(old(products), cart)
      ensures clients == old(clients) && sales == old(sales) && expenses == old(expenses) && cart == old(cart)
    {
      var i := 0;
      while i < |cart|
        invariant 0 <= i <= |cart|
        invariant products == ApplyCart(old(products), cart[..i])
        invariant clients == old(clients) && sales == old(sales) && expenses == old(expenses) && cart == old(cart)
      {
        SubtractLineInPlace(cart[i]);
        ApplyCartExtend(old(products), cart, i);
        i := i + 1;
      }
      assert cart[..|cart|] == cart;
    }

    /** One pass of the stock loop: `product.stock -= qty`, then `if (product.stock < 0) product.stock = 0`. */
    method SubtractLineInPlace(line: CartLine)
      modifies this
      ensures products == SubtractLine(old(products), line)
      ensures clients == old(clients) && sales == old(sales) && expenses == old(expenses) && cart == old(cart)
    {
      var p := FirstIndex(products, ProductKey, line.id);
      if p.Some? {
        var k := p.value;
        products := products[k := products[k].(stock := products[k].stock - line.qty)];
        if products[k].stock < 0 {
          products := products[k := products[k].(stock := 0)];
        }
      }
    }

    /** `addToCart(productId)`: see `AddToCartSpec`. */
    method AddToCart(productId: int) returns (change: CartChange)
      modifies this
      ensures (change, cart) == AddToCartSpec(old(products), old(cart), productId)
      ensures products == old(products) && clients == old(clients) && sales == old(sales) && expenses == old(expenses)
    {
      var p := FirstIndex(products, ProductKey, productId);
      if p.None? {
        return UnknownProduct;
      }
      var product := products[p.value];
      var existing := FirstIndex(cart, LineKey, productId);
      if existing.Some? {
        var k := existing.value;
        if cart[k].qty < product.stock {
          cart := cart[k := cart[k].(qty := cart[k].qty + 1)];
          change := Incremented;
        } else {
          change := NotEnoughStock;
        }
      } else {
        cart := cart + [CartLine(product.id, product.name, product.price, 1, product.stock)];
        change := Appended;
      }
    }

    /** `removeFromCart(index)`. */
    method RemoveFromCart(index: int)
      modifies this
      ensures cart == SpliceOne(old(cart), index)
      ensures products == old(products) && clients == old(clients) && sales == old(sales) && expenses == old(expenses)
    {
      cart := SpliceOne(cart, index);
    }

    /** The confirmed `deleteSale`: drops the sale record only; stock and balances stay as they are. */
    method DeleteSale(saleId: string)
      modifies this
      ensures sales == Without(old(sales), SaleKey, saleId)
      ensures products == old(products) && clients == old(clients) && expenses == old(expenses) && cart == old(cart)
    {
      sales := Without(sales, SaleKey, saleId);
    }

    /** The confirmed `deleteProduct`. */
    method DeleteProduct(id: int)
      modifies this
      ensures products == Without(old(products), ProductKey, id)
      ensures clients == old(clients) && sales == old(sales) && expenses == old(expenses) && cart == old(cart)
    {
      products := Without(products, ProductKey, id);
    }

    /** The confirmed `deleteExpense`. */
    method DeleteExpense(id: int)
      modifies this
      ensures expenses == Without(old(expenses), ExpenseKey, id)
      ensures products == old(products) && clients == old(clients) && sales == old(sales) && cart == old(cart)
    {
      expenses := Without(expenses, ExpenseKey, id);
    }

    /** `deleteClient(id)`: refused for the walk-in client; otherwise, once confirmed, drops the clients with that id. */
    method DeleteClient(id: int) returns (r: Outcome<ClientError>)
      modifies this
      ensures id == DEFAULT_CLIENT_ID ==> r == Fail(CannotDeleteDefaultClient) && clients == old(clients)
      ensures id != DEFAULT_CLIENT_ID ==> r == Pass && clients == Without(old(clients), ClientKey, id)
      ensures products == old(products) && sales == old(sales) && expenses == old(expenses) && cart == old(cart)
    {
      if id == DEFAULT_CLIENT_ID {
        return Fail(CannotDeleteDefaultClient);
      }
      clients := Without(clients, ClientKey, id);
      r := Pass;
    }
  }
}
