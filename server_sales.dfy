/**
 * The REST server's sale engine (server/index.js) over its SQLite tables.
 *
 * `products`, `clients` and `sales` are tables keyed by their integer primary
 * key; `sale_items` is kept as the sequence of its rows in rowid order,
 * because the reversal reads a sale's items back in that order and applies
 * them one after the other. Each `db.transaction` body is one method that
 * either applies completely or reports an error and changes nothing.
 */
module ServerSales {
  import opened Common

  datatype Product = Product(name: string, category: string, stock: int, price: real, cost: real)
  datatype Client = Client(name: string, email: string, phone: string, totalSpent: real)
  /** A row of `sales`; client name and totals are stored as the request sent them. */
  datatype Sale = Sale(date: string, clientId: Option<int>, clientName: string,
                       subtotal: real, tax: real, total: real)
  /** A row of `sale_items`: a line of a sale with its own name/price snapshot. */
  datatype SaleItem = SaleItem(id: int, saleId: int, productId: int, name: string, price: real, qty: int)

  /** One element of the `items` array of a `POST /sales` body. */
  datatype PayloadItem = PayloadItem(id: int, name: string, price: real, qty: int)
  /** The body of `POST /sales`; `None` stands for a field the body leaves out. */
  datatype SalePayload = SalePayload(clientId: Option<int>, clientName: Option<string>,
                                     items: Option<seq<PayloadItem>>,
                                     subtotal: Option<real>, tax: Option<real>, total: Option<real>)

  datatype Error = SaleNotFound | CannotDeleteDefaultClient

  // ---------------------------------------------------------------------------
  // Row ids: an `INTEGER PRIMARY KEY` column without AUTOINCREMENT gets one
  // more than the largest id in the table, or 1 in an empty table.
  // ---------------------------------------------------------------------------

  lemma NonEmptyHasMember(keys: set<int>)
    requires keys != {}
    ensures exists k :: k in keys
  {
    if forall k :: k !in keys {
      assert false;
    }
  }

  ghost function MaxKey(keys: set<int>): (m: int)
    requires keys != {}
    ensures m in keys
    ensures forall k :: k in keys ==> k <= m
  {
    NonEmptyHasMember(keys);
    var x :| x in keys;
    var rest := keys - {x};
    if rest == {} then
      assert forall k :: k in keys ==> k == x by {
        forall k | k in keys ensures k == x { assert k !in rest; }
      }
      x
    else
      var r := MaxKey(rest);
      assert forall k :: k in keys ==> k == x || k in rest;
      if x > r then x else r
  }

  ghost function NextRowId(keys: set<int>): int
  {
    if keys == {} then 1 else MaxKey(keys) + 1
  }

  /** The next rowid is not in use. */
  lemma NextRowIdFresh(keys: set<int>)
    ensures NextRowId(keys) !in keys
  {
    if keys != {} {
      assert MaxKey(keys) in keys;
    }
  }

  /** The id SQLite assigns to the next row inserted into a table whose ids are `keys`. */
  method NewRowId(keys: set<int>) returns (id: int)
    ensures id == NextRowId(keys)
    ensures id !in keys && forall k :: k in keys ==> k < id
  {
    if keys == {} {
      return 1;
    }
    NonEmptyHasMember(keys);
    var m :| m in keys;
    var rest := keys - {m};
    while rest != {}
      invariant rest <= keys && m in keys
      invariant forall k :: k in keys && k !in rest ==> k <= m
      decreases rest
    {
      NonEmptyHasMember(rest);
      var k :| k in rest;
      if k > m {
        m := k;
      }
      rest := rest - {k};
    }
    assert MaxKey(keys) <= m;
    id := m + 1;
  }

  /** Inserting the row that gets `NextRowId` makes the following id one larger. */
  lemma NextRowIdAfterInsert(keys: set<int>)
    ensures NextRowId(keys + {NextRowId(keys)}) == NextRowId(keys) + 1
  {
    var n := NextRowId(keys);
    var m := MaxKey(keys + {n});
    assert n in keys + {n};
    assert m == n by {
      if keys != {} {
        assert MaxKey(keys) in keys;
      }
    }
  }

  function ItemIds(rows: seq<SaleItem>): set<int>
  {
    set r | r in rows :: r.id
  }

  lemma ItemIdsAppend(rows: seq<SaleItem>, row: SaleItem)
    ensures ItemIds(rows + [row]) == ItemIds(rows) + {row.id}
  {
    assert forall r :: r in rows + [row] <==> r in rows || r == row;
  }

  // ---------------------------------------------------------------------------
  // Commit: `POST /sales`
  // ---------------------------------------------------------------------------

  /** JavaScript truthiness of a client id: `null` and `0` are both false. */
  predicate Truthy(clientId: Option<int>)
    ensures Truthy(clientId) <==> clientId !in {None, Some(0)}
  {
    clientId.Some? && clientId.value != 0
  }

  /** The `sales` row inserted for a request: every field is the request's own value or its default. */
  function SaleRowOf(p: SalePayload, now: string): (s: Sale)
    ensures s.clientId == p.clientId && s.date == now
    ensures s.clientName == (if p.clientName.Some? then p.clientName.value else DEFAULT_CLIENT_NAME)
    ensures s.subtotal == (if p.subtotal.Some? then p.subtotal.value else 0.0)
    ensures s.tax == (if p.tax.Some? then p.tax.value else 0.0)
    ensures s.total == (if p.total.Some? then p.total.value else 0.0)
  {
    Sale(now, p.clientId, p.clientName.GetOr(DEFAULT_CLIENT_NAME),
         p.subtotal.GetOr(0.0), p.tax.GetOr(0.0), p.total.GetOr(0.0))
  }

  /** The `sale_items` rows inserted for `items`, one per item, with consecutive row ids from `firstId`. */
  function ItemRows(saleId: int, items: seq<PayloadItem>, firstId: int): (r: seq<SaleItem>)
    ensures |r| == |items|
    ensures forall k :: 0 <= k < |items| ==>
      r[k] == SaleItem(firstId + k, saleId, items[k].id, items[k].name, items[k].price, items[k].qty)
  {
    seq(|items|, k requires 0 <= k < |items| =>
      SaleItem(firstId + k, saleId, items[k].id, items[k].name, items[k].price, items[k].qty))
  }

  lemma ItemRowsExtend(saleId: int, items: seq<PayloadItem>, firstId: int, i: nat)
    requires i < |items|
    ensures ItemRows(saleId, items[..i + 1], firstId) ==
            ItemRows(saleId, items[..i], firstId) +
            [SaleItem(firstId + i, saleId, items[i].id, items[i].name, items[i].price, items[i].qty)]
  {
  }

  /** One more turn of the item loop appends exactly the next item's row after the rows so far. */
  lemma ItemRowsAppendStep(earlier: seq<SaleItem>, saleId: int, items: seq<PayloadItem>, firstId: int, i: nat)
    requires i < |items|
    ensures earlier + ItemRows(saleId, items[..i + 1], firstId) ==
            (earlier + ItemRows(saleId, items[..i], firstId)) +
            [SaleItem(firstId + i, saleId, items[i].id, items[i].name, items[i].price, items[i].qty)]
  {
    ItemRowsExtend(saleId, items, firstId, i);
  }

  /** The two UPDATE statements run for one item: subtract its quantity, then floor at zero. */
  function DecrementStock(products: map<int, Product>, id: int, qty: int): (r: map<int, Product>)
    ensures r.Keys == products.Keys
    ensures forall k :: k in products && k != id ==> r[k] == products[k]
    ensures id in products ==> r[id] == products[id].(stock := r[id].stock)
    ensures id in products ==> r[id].stock >= 0 && r[id].stock >= products[id].stock - qty
    ensures id in products && products[id].stock >= qty ==> r[id].stock == products[id].stock - qty
  {
    if id in products then products[id := products[id].(stock := Clamp(products[id].stock - qty))]
    else products
  }

  function ProductIds(items: seq<PayloadItem>): set<int>
  {
    set it | it in items :: it.id
  }

  /** The products table after the stock updates of `items`, applied in order. */
  function ApplySale(products: map<int, Product>, items: seq<PayloadItem>): (r: map<int, Product>)
    ensures r.Keys == products.Keys
    ensures forall id :: id in products ==> r[id] == products[id].(stock := r[id].stock)
    ensures forall id :: id in products && id !in ProductIds(items) ==> r[id] == products[id]
    ensures forall id :: id in products && id in ProductIds(items) ==> r[id].stock >= 0
  {
    if |items| == 0 then products
    else
      var last := items[|items| - 1];
      assert items == items[..|items| - 1] + [last];
      assert ProductIds(items) == ProductIds(items[..|items| - 1]) + {last.id};
      DecrementStock(ApplySale(products, items[..|items| - 1]), last.id, last.qty)
  }

  lemma ApplySaleExtend(products: map<int, Product>, items: seq<PayloadItem>, i: nat)
    requires i < |items|
    ensures ApplySale(products, items[..i + 1]) == DecrementStock(ApplySale(products, items[..i]), items[i].id, items[i].qty)
  {
    assert items[..i + 1][..i] == items[..i];
  }

  /**
   * The stock one product ends with after `items`: every item naming it is
   * subtracted and the result floored at zero, one item at a time.
   */
  function ClampedRun(stock: int, items: seq<PayloadItem>, id: int): int
  {
    if |items| == 0 then stock
    else
      var last := items[|items| - 1];
      var before := ClampedRun(stock, items[..|items| - 1], id);
      if last.id == id then Clamp(before - last.qty) else before
  }

  /** The total quantity `items` order of product `id`. */
  function QtyOf(items: seq<PayloadItem>, id: int): int
  {
    if |items| == 0 then 0
    else
      var last := items[|items| - 1];
      QtyOf(items[..|items| - 1], id) + (if last.id == id then last.qty else 0)
  }

  /** No step of the run for product `id` had to be floored at zero. */
  predicate NeverClamps(stock: int, items: seq<PayloadItem>, id: int)
  {
    if |items| == 0 then true
    else
      var last := items[|items| - 1];
      NeverClamps(stock, items[..|items| - 1], id) &&
      (last.id == id ==> ClampedRun(stock, items[..|items| - 1], id) - last.qty >= 0)
  }

  /** Each product's stock after a sale is its clamped run over the sale's items. */
  lemma {:induction false} ApplySaleStock(products: map<int, Product>, items: seq<PayloadItem>, id: int)
    requires id in products
    ensures ApplySale(products, items)[id].stock == ClampedRun(products[id].stock, items, id)
  {
    if |items| != 0 {
      ApplySaleStock(products, items[..|items| - 1], id);
    }
  }

  /** A product ordered by a single item ends at max(0, stock - qty). */
  lemma {:induction false} ApplySaleSingleItem(products: map<int, Product>, items: seq<PayloadItem>, k: nat)
    requires k < |items| && items[k].id in products
    requires forall j :: 0 <= j < |items| && j != k ==> items[j].id != items[k].id
    ensures ApplySale(products, items)[items[k].id].stock ==
            if products[items[k].id].stock - items[k].qty < 0 then 0 else products[items[k].id].stock - items[k].qty
  {
    var id := items[k].id;
    ApplySaleStock(products, items, id);
    SingleItemRun(products[id].stock, items, k);
  }

  lemma {:induction false} SingleItemRun(stock: int, items: seq<PayloadItem>, k: nat)
    requires k < |items|
    requires forall j :: 0 <= j < |items| && j != k ==> items[j].id != items[k].id
    ensures ClampedRun(stock, items, items[k].id) == Clamp(stock - items[k].qty)
  {
    var n := |items| - 1;
    if k == n {
      UntouchedRun(stock, items[..n], items[k].id);
    } else {
      SingleItemRun(stock, items[..n], k);
    }
  }

  lemma {:induction false} UntouchedRun(stock: int, items: seq<PayloadItem>, id: int)
    requires forall j :: 0 <= j < |items| ==> items[j].id != id
    ensures ClampedRun(stock, items, id) == stock && QtyOf(items, id) == 0 && NeverClamps(stock, items, id)
  {
    if |items| != 0 {
      UntouchedRun(stock, items[..|items| - 1], id);
    }
  }

  /** Clamping only ever raises the stock above the plain difference, and leaves a touched product non-negative. */
  lemma {:induction false} ClampedRunBounds(stock: int, items: seq<PayloadItem>, id: int)
    ensures ClampedRun(stock, items, id) >= stock - QtyOf(items, id)
    ensures NeverClamps(stock, items, id) ==> ClampedRun(stock, items, id) == stock - QtyOf(items, id)
  {
    if |items| != 0 {
      ClampedRunBounds(stock, items[..|items| - 1], id);
    }
  }

  /** When every quantity is non-negative and the stock covers the order, no step is clamped. */
  lemma {:induction false} CoveredNeverClamps(stock: int, items: seq<PayloadItem>, id: int)
    requires forall j :: 0 <= j < |items| ==> items[j].qty >= 0
    requires stock >= QtyOf(items, id)
    ensures NeverClamps(stock, items, id)
  {
    if |items| != 0 {
      var n := |items| - 1;
      assert QtyOf(items[..n], id) <= QtyOf(items, id);
      CoveredNeverClamps(stock, items[..n], id);
      ClampedRunBounds(stock, items[..n], id);
    }
  }

  /** `UPDATE clients SET total_spent = total_spent + total` for a truthy client id; otherwise nothing. */
  function CreditClient(clients: map<int, Client>, clientId: Option<int>, amount: real): (r: map<int, Client>)
    ensures r.Keys == clients.Keys
  {
    if Truthy(clientId) && clientId.value in clients then
      clients[clientId.value := clients[clientId.value].(totalSpent := clients[clientId.value].totalSpent + amount)]
    else clients
  }

  /** The commit moves client balances exactly by the sale total: only the sale's client changes, by `amount`. */
  lemma CreditMovesOneClient(clients: map<int, Client>, clientId: Option<int>, amount: real, c: int)
    requires c in clients
    ensures CreditClient(clients, clientId, amount)[c].totalSpent ==
            clients[c].totalSpent + (if Truthy(clientId) && c == clientId.value then amount else 0.0)
    ensures CreditClient(clients, clientId, amount)[c] == clients[c].(totalSpent := CreditClient(clients, clientId, amount)[c].totalSpent)
  {
  }

  // ---------------------------------------------------------------------------
  // Reversal: `DELETE /sales/:id`
  // ---------------------------------------------------------------------------

  /** `UPDATE products SET stock = stock + qty WHERE id = ?`: no floor, no cap. */
  function RestoreStock(products: map<int, Product>, id: int, qty: int): (r: map<int, Product>)
    ensures r.Keys == products.Keys
    ensures forall k :: k in products && k != id ==> r[k] == products[k]
    ensures id in products ==> r[id] == products[id].(stock := r[id].stock) && r[id].stock == products[id].stock + qty
  {
    if id in products then products[id := products[id].(stock := products[id].stock + qty)]
    else products
  }

  lemma ApplyReversalExtend(products: map<int, Product>, rows: seq<SaleItem>, i: nat)
    requires i < |rows|
    ensures ApplyReversal(products, rows[..i + 1]) == RestoreStock(ApplyReversal(products, rows[..i]), rows[i].productId, rows[i].qty)
  {
    assert rows[..i + 1][..i] == rows[..i];
  }

  /** The products table after the reversal's stock updates for `rows`, applied in order. */
  function ApplyReversal(products: map<int, Product>, rows: seq<SaleItem>): (r: map<int, Product>)
    ensures r.Keys == products.Keys
    ensures forall id :: id in products ==> r[id] == products[id].(stock := r[id].stock)
  {
    if |rows| == 0 then products
    else
      var last := rows[|rows| - 1];
      RestoreStock(ApplyReversal(products, rows[..|rows| - 1]), last.productId, last.qty)
  }

  /** The total quantity the rows record for product `id`. */
  function RowsQtyOf(rows: seq<SaleItem>, id: int): int
  {
    if |rows| == 0 then 0
    else
      var last := rows[|rows| - 1];
      RowsQtyOf(rows[..|rows| - 1], id) + (if last.productId == id then last.qty else 0)
  }

  /** The reversal adds back each row's full quantity to its product. */
  lemma {:induction false} ApplyReversalStock(products: map<int, Product>, rows: seq<SaleItem>, id: int)
    requires id in products
    ensures ApplyReversal(products, rows)[id].stock == products[id].stock + RowsQtyOf(rows, id)
  {
    if |rows| != 0 {
      ApplyReversalStock(products, rows[..|rows| - 1], id);
    }
  }

  lemma {:induction false} RowsQtyOfItemRows(saleId: int, items: seq<PayloadItem>, firstId: int, id: int)
    ensures RowsQtyOf(ItemRows(saleId, items, firstId), id) == QtyOf(items, id)
  {
    if |items| != 0 {
      var n := |items| - 1;
      assert ItemRows(saleId, items, firstId)[..n] == ItemRows(saleId, items[..n], firstId);
      RowsQtyOfItemRows(saleId, items[..n], firstId, id);
    }
  }

  /** `UPDATE clients SET total_spent = total_spent - total` for a truthy client id; otherwise nothing. */
  function DebitClient(clients: map<int, Client>, clientId: Option<int>, amount: real): (r: map<int, Client>)
    ensures r.Keys == clients.Keys
  {
    if Truthy(clientId) && clientId.value in clients then
      clients[clientId.value := clients[clientId.value].(totalSpent := clients[clientId.value].totalSpent - amount)]
    else clients
  }

  /** The reversal's debit undoes the commit's credit exactly. */
  lemma DebitUndoesCredit(clients: map<int, Client>, clientId: Option<int>, amount: real)
    ensures DebitClient(CreditClient(clients, clientId, amount), clientId, amount) == clients
  {
    if Truthy(clientId) && clientId.value in clients {
      var c := clientId.value;
      var credited := CreditClient(clients, clientId, amount);
      assert credited[c].totalSpent - amount == clients[c].totalSpent;
      assert DebitClient(credited, clientId, amount)[c] == clients[c];
    }
  }

  function SaleIdOf(r: SaleItem): int { r.saleId }

  /** `SELECT * FROM sale_items WHERE sale_id = ?`, in rowid order. */
  function ItemsOf(rows: seq<SaleItem>, saleId: int): (r: seq<SaleItem>)
    ensures forall j :: 0 <= j < |r| ==> r[j] in rows && r[j].saleId == saleId
    ensures forall j :: 0 <= j < |rows| && rows[j].saleId == saleId ==> rows[j] in r
  {
    Only(rows, SaleIdOf, saleId)
  }

  /** `DELETE FROM sale_items WHERE sale_id = ?`. */
  function WithoutSale(rows: seq<SaleItem>, saleId: int): (r: seq<SaleItem>)
    ensures forall j :: 0 <= j < |r| ==> r[j] in rows && r[j].saleId != saleId
    ensures forall j :: 0 <= j < |rows| && rows[j].saleId != saleId ==> rows[j] in r
  {
    Without(rows, SaleIdOf, saleId)
  }

  /** The rows the reversal reads and the rows its delete keeps split `sale_items` between them: none is lost or counted twice. */
  lemma {:induction false} ItemsOfWithoutSalePartition(rows: seq<SaleItem>, saleId: int)
    ensures |ItemsOf(rows, saleId)| + |WithoutSale(rows, saleId)| == |rows|
  {
    if |rows| != 0 {
      ItemsOfWithoutSalePartition(rows[1..], saleId);
    }
  }

  /** The reversal removes exactly the sale's own items: no other sale's item, and none of its own, remain. */
  lemma WithoutSaleExact(rows: seq<SaleItem>, saleId: int, r: SaleItem)
    ensures r in WithoutSale(rows, saleId) <==> r in rows && r.saleId != saleId
  {
    var w := WithoutSale(rows, saleId);
    if r in rows && r.saleId != saleId {
      var j :| 0 <= j < |rows| && rows[j] == r;
      assert SaleIdOf(rows[j]) != saleId;
    }
    if r in w {
      var j :| 0 <= j < |w| && w[j] == r;
      assert SaleIdOf(w[j]) != saleId;
    }
  }

  /** Deleting a sale together with its items leaves no orphaned item. */
  lemma WithoutSaleBelongs(rows: seq<SaleItem>, sales: map<int, Sale>, saleId: int)
    requires forall j :: 0 <= j < |rows| ==> rows[j].saleId in sales
    ensures forall j :: 0 <= j < |WithoutSale(rows, saleId)| ==> WithoutSale(rows, saleId)[j].saleId in sales - {saleId}
  {
    var w := WithoutSale(rows, saleId);
    forall j | 0 <= j < |w|
      ensures w[j].saleId in sales - {saleId}
    {
      assert w[j] in rows && SaleIdOf(w[j]) != saleId;
    }
  }

  /** Reading back the items of a freshly committed sale yields exactly the rows the commit inserted. */
  lemma ItemsOfNewSale(rows: seq<SaleItem>, saleId: int, items: seq<PayloadItem>, firstId: int)
    requires forall j :: 0 <= j < |rows| ==> rows[j].saleId != saleId
    ensures ItemsOf(rows + ItemRows(saleId, items, firstId), saleId) == ItemRows(saleId, items, firstId)
    ensures WithoutSale(rows + ItemRows(saleId, items, firstId), saleId) == rows
  {
    var inserted := ItemRows(saleId, items, firstId);
    OnlyAppend(rows, inserted, SaleIdOf, saleId);
    WithoutAppend(rows, inserted, SaleIdOf, saleId);
    OnlyAbsent(rows, SaleIdOf, saleId);
    OnlyAll(inserted, SaleIdOf, saleId);
    WithoutAbsent(rows, SaleIdOf, saleId);
    WithoutAll(inserted, SaleIdOf, saleId);
  }

  /**
   * Commit followed by reversal puts every product's stock back when no step
   * of the commit was clamped, and never leaves less stock than before:
   * a clamped commit is over-restored.
   */
  lemma {:induction false} CommitThenReverseStock(products: map<int, Product>, saleId: int,
                                                   items: seq<PayloadItem>, firstId: int, id: int)
    requires id in products
    ensures ApplyReversal(ApplySale(products, items), ItemRows(saleId, items, firstId))[id].stock >= products[id].stock
    ensures NeverClamps(products[id].stock, items, id) ==>
            ApplyReversal(ApplySale(products, items), ItemRows(saleId, items, firstId))[id] == products[id]
  {
    var committed := ApplySale(products, items);
    ApplySaleStock(products, items, id);
    ClampedRunBounds(products[id].stock, items, id);
    ApplyReversalStock(committed, ItemRows(saleId, items, firstId), id);
    RowsQtyOfItemRows(saleId, items, firstId, id);
  }

  /** The over-restoration: stock 1, one item of quantity 3; commit floors it at 0, reversal leaves 3. */
  lemma ReversalOverRestoresClampedStock()
    ensures var products := map[7 := Product("Q", "", 1, 10.0, 5.0)];
            var items := [PayloadItem(7, "Q", 10.0, 3)];
            ApplySale(products, items)[7].stock == 0 &&
            ApplyReversal(ApplySale(products, items), ItemRows(1, items, 1))[7].stock == 3
  {
    var products := map[7 := Product("Q", "", 1, 10.0, 5.0)];
    var items := [PayloadItem(7, "Q", 10.0, 3)];
    assert items[..0] == [];
    var rows := ItemRows(1, items, 1);
    assert rows[..0] == [];
    assert ApplySale(products, items)[7].stock == 0;
  }

  /** Commit then reversal gives back the whole products table when no step of the commit clamped. */
  lemma CommitThenReverseProducts(products: map<int, Product>, saleId: int, items: seq<PayloadItem>, firstId: int)
    requires forall id :: id in products ==> NeverClamps(products[id].stock, items, id)
    ensures ApplyReversal(ApplySale(products, items), ItemRows(saleId, items, firstId)) == products
  {
    var restored := ApplyReversal(ApplySale(products, items), ItemRows(saleId, items, firstId));
    forall id | id in products
      ensures restored[id] == products[id]
    {
      CommitThenReverseStock(products, saleId, items, firstId, id);
    }
  }

  /**
   * The whole state after commit then reversal: every table is back to what
   * it was, provided no stock update of the commit was clamped.
   */
  lemma CommitThenReverseRestores(products: map<int, Product>, clients: map<int, Client>,
                                   sales: map<int, Sale>, rows: seq<SaleItem>,
                                   p: SalePayload, now: string)
    requires forall j :: 0 <= j < |rows| ==> rows[j].saleId in sales
    requires forall id :: id in products ==> NeverClamps(products[id].stock, p.items.GetOr([]), id)
    ensures var saleId := NextRowId(sales.Keys);
            var items := p.items.GetOr([]);
            var inserted := ItemRows(saleId, items, NextRowId(ItemIds(rows)));
            var sale := SaleRowOf(p, now);
            && ApplyReversal(ApplySale(products, items), ItemsOf(rows + inserted, saleId)) == products
            && DebitClient(CreditClient(clients, p.clientId, sale.total), sale.clientId, sale.total) == clients
            && sales[saleId := sale] - {saleId} == sales
            && WithoutSale(rows + inserted, saleId) == rows
  {
    var saleId := NextRowId(sales.Keys);
    var items := p.items.GetOr([]);
    var inserted := ItemRows(saleId, items, NextRowId(ItemIds(rows)));
    var sale := SaleRowOf(p, now);
    NextRowIdFresh(sales.Keys);
    assert sales[saleId := sale] - {saleId} == sales;
    ItemsOfNewSale(rows, saleId, items, NextRowId(ItemIds(rows)));
    CommitThenReverseProducts(products, saleId, items, NextRowId(ItemIds(rows)));
    DebitUndoesCredit(clients, p.clientId, sale.total);
  }

  // ---------------------------------------------------------------------------
  // The database
  // ---------------------------------------------------------------------------

  class SalesDb {
    var products: map<int, Product>
    var clients: map<int, Client>
    var sales: map<int, Sale>
    var saleItems: seq<SaleItem>

    /** Every sale item belongs to a sale that exists: items are created and deleted with their sale. */
    ghost predicate Valid()
      reads this
    {
      forall j :: 0 <= j < |saleItems| ==> saleItems[j].saleId in sales
    }

    /** Freshly created, empty tables. */
    constructor ()
      ensures Valid()
      ensures products == map[] && clients == map[] && sales == map[] && saleItems == []
    {
      products, clients, sales, saleItems := map[], map[], map[], [];
    }

    /** `POST /products`: inserts the product under the next row id; a missing stock, price or cost is 0. */
    method CreateProduct(name: string, category: string, stock: Option<int>, price: Option<real>, cost: Option<real>)
      returns (id: int)
      requires Valid()
      modifies this
      ensures Valid()
      ensures id == NextRowId(old(products).Keys) && id !in old(products)
      ensures products.Keys == old(products).Keys + {id} && forall k :: k in old(products) ==> products[k] == old(products)[k]
      ensures products[id].name == name && products[id].category == category
      ensures products[id].stock == (if stock.Some? then stock.value else 0)
      ensures products[id].price == (if price.Some? then price.value else 0.0)
      ensures products[id].cost == (if cost.Some? then cost.value else 0.0)
      ensures clients == old(clients) && sales == old(sales) && saleItems == old(saleItems)
    {
      id := NewRowId(products.Keys);
      products := products[id := Product(name, category, stock.GetOr(0), price.GetOr(0.0), cost.GetOr(0.0))];
    }

    /** `PUT /products/:id`: overwrites every column of an existing product; a missing id changes nothing. */
    method UpdateProduct(id: int, name: string, category: string, stock: int, price: real, cost: real)
      requires Valid()
      modifies this
      ensures Valid()
      ensures products == if id in old(products) then old(products)[id := Product(name, category, stock, price, cost)]
                          else old(products)
      ensures clients == old(clients) && sales == old(sales) && saleItems == old(saleItems)
    {
      if id in products {
        products := products[id := Product(name, category, stock, price, cost)];
      }
    }

    /** `DELETE /products/:id`: sale items keep their product id as a weak reference. */
    method DeleteProduct(id: int)
      requires Valid()
      modifies this
      ensures Valid()
      ensures products == old(products) - {id}
      ensures clients == old(clients) && sales == old(sales) && saleItems == old(saleItems)
    {
      products := products - {id};
    }

    /** `POST /clients`: a new client starts with nothing spent; a missing email or phone is empty. */
    method CreateClient(name: string, email: Option<string>, phone: Option<string>) returns (id: int)
      requires Valid()
      modifies this
      ensures Valid()
      ensures id == NextRowId(old(clients).Keys) && id !in old(clients)
      ensures clients.Keys == old(clients).Keys + {id} && forall k :: k in old(clients) ==> clients[k] == old(clients)[k]
      ensures clients[id] == Client(name, if email.Some? then email.value else "", if phone.Some? then phone.value else "", 0.0)
      ensures products == old(products) && sales == old(sales) && saleItems == old(saleItems)
    {
      id := NewRowId(clients.Keys);
      clients := clients[id := Client(name, email.GetOr(""), phone.GetOr(""), 0.0)];
    }

    /** `DELETE /clients/:id`: refused for the default client, otherwise removes that client. */
    method DeleteClient(id: int) returns (r: Outcome<Error>)
      requires Valid()
      modifies this
      ensures Valid()
      ensures id == DEFAULT_CLIENT_ID ==> r == Fail(CannotDeleteDefaultClient) && clients == old(clients)
      ensures id != DEFAULT_CLIENT_ID ==> r == Pass && clients == old(clients) - {id}
      ensures products == old(products) && sales == old(sales) && saleItems == old(saleItems)
    {
      if id == DEFAULT_CLIENT_ID {
        return Fail(CannotDeleteDefaultClient);
      }
      clients := clients - {id};
      r := Pass;
    }

    /** `INSERT INTO sale_items`: appends one line of sale `saleId` under the next row id. */
    method InsertItem(saleId: int, it: PayloadItem)
      requires Valid() && saleId in sales
      modifies this
      ensures Valid()
      ensures saleItems == old(saleItems) + [SaleItem(NextRowId(ItemIds(old(saleItems))), saleId, it.id, it.name, it.price, it.qty)]
      ensures NextRowId(ItemIds(saleItems)) == NextRowId(ItemIds(old(saleItems))) + 1
      ensures products == old(products) && clients == old(clients) && sales == old(sales)
    {
      var itemId := NewRowId(ItemIds(saleItems));
      var row := SaleItem(itemId, saleId, it.id, it.name, it.price, it.qty);
      ItemIdsAppend(saleItems, row);
      NextRowIdAfterInsert(ItemIds(saleItems));
      saleItems := saleItems + [row];
    }

    /** The two UPDATE statements of one item: `stock = stock - qty`, then `stock < 0 -> 0`. */
    method SubtractStock(id: int, qty: int)
      modifies this
      ensures products == DecrementStock(old(products), id, qty)
      ensures clients == old(clients) && sales == old(sales) && saleItems == old(saleItems)
    {
      if id in products {
        products := products[id := products[id].(stock := products[id].stock - qty)];
      }
      if id in products {
        products := products[id := products[id].(stock := Clamp(products[id].stock))];
      }
    }

    /**
     * `POST /sales`: inserts the sale row as sent, one item row per payload
     * item, lowers each item's product stock (floored at zero after every
     * item) and credits a truthy client with the sent total.
     */
    method CommitSale(p: SalePayload, now: string) returns (saleId: int)
      requires Valid()
      modifies this
      ensures Valid()
      ensures saleId == NextRowId(old(sales).Keys) && saleId !in old(sales)
      ensures sales == old(sales)[saleId := SaleRowOf(p, now)]
      ensures saleItems == old(saleItems) + ItemRows(saleId, p.items.GetOr([]), NextRowId(ItemIds(old(saleItems))))
      ensures products == ApplySale(old(products), p.items.GetOr([]))
      ensures clients == CreditClient(old(clients), p.clientId, p.total.GetOr(0.0))
    {
      saleId := NewRowId(sales.Keys);
      sales := sales[saleId := SaleRowOf(p, now)];
      InsertItems(saleId, p.items.GetOr([]));
      var total := p.total.GetOr(0.0);
      if Truthy(p.clientId) && p.clientId.value in clients {
        var c := p.clientId.value;
        clients := clients[c := clients[c].(totalSpent := clients[c].totalSpent + total)];
      }
    }

    /** One turn of the commit loop: insert item `i`'s line, then lower its product's stock. */
    method CommitItem(saleId: int, items: seq<PayloadItem>, i: nat, ghost firstId: int,
                      ghost earlierItems: seq<SaleItem>, ghost earlierProducts: map<int, Product>)
      requires Valid() && saleId in sales && i < |items|
      requires saleItems == earlierItems + ItemRows(saleId, items[..i], firstId)
      requires NextRowId(ItemIds(saleItems)) == firstId + i
      requires products == ApplySale(earlierProducts, items[..i])
      modifies this
      ensures Valid()
      ensures saleItems == earlierItems + ItemRows(saleId, items[..i + 1], firstId)
      ensures NextRowId(ItemIds(saleItems)) == firstId + i + 1
      ensures products == ApplySale(earlierProducts, items[..i + 1])
      ensures clients == old(clients) && sales == old(sales)
    {
      InsertItem(saleId, items[i]);
      SubtractStock(items[i].id, items[i].qty);
      ItemRowsAppendStep(earlierItems, saleId, items, firstId, i);
      ApplySaleExtend(earlierProducts, items, i);
    }

    /** The `for` loop of the commit: for each item, insert its line, then lower its product's stock. */
    method InsertItems(saleId: int, items: seq<PayloadItem>)
      requires Valid() && saleId in sales
      modifies this
      ensures Valid()
      ensures saleItems == old(saleItems) + ItemRows(saleId, items, NextRowId(ItemIds(old(saleItems))))
      ensures products == ApplySale(old(products), items)
      ensures clients == old(clients) && sales == old(sales)
    {
      ghost var firstId := NextRowId(ItemIds(saleItems));
      var i := 0;
      while i < |items|
        invariant 0 <= i <= |items|
        invariant Valid() && saleId in sales
        invariant saleItems == old(saleItems) + ItemRows(saleId, items[..i], firstId)
        invariant NextRowId(ItemIds(saleItems)) == firstId + i
        invariant products == ApplySale(old(products), items[..i])
        invariant clients == old(clients) && sales == old(sales)
      {
        CommitItem(saleId, items, i, firstId, old(saleItems), old(products));
        i := i + 1;
      }
      assert items[..|items|] == items;
    }

    /**
     * `DELETE /sales/:id`: a missing sale is reported and nothing changes;
     * otherwise every item's quantity goes back to its product, the client
     * is debited the sale total, and the sale and its items are deleted.
     */
    method ReverseSale(saleId: int) returns (r: Outcome<Error>)
      requires Valid()
      modifies this
      ensures Valid()
      ensures saleId !in old(sales) ==>
        r == Fail(SaleNotFound) && products == old(products) && clients == old(clients) &&
        sales == old(sales) && saleItems == old(saleItems)
      ensures saleId in old(sales) ==>
        && r == Pass
        && products == ApplyReversal(old(products), ItemsOf(old(saleItems), saleId))
        && clients == DebitClient(old(clients), old(sales)[saleId].clientId, old(sales)[saleId].total)
        && sales == old(sales) - {saleId}
        && saleItems == WithoutSale(old(saleItems), saleId)
    {
      if saleId !in sales {
        return Fail(SaleNotFound);
      }
      var sale := sales[saleId];
      RestoreStocks(ItemsOf(saleItems, saleId));
      if Truthy(sale.clientId) && sale.clientId.value in clients {
        var c := sale.clientId.value;
        clients := clients[c := clients[c].(totalSpent := clients[c].totalSpent - sale.total)];
      }
      WithoutSaleBelongs(saleItems, sales, saleId);
      saleItems := WithoutSale(saleItems, saleId);
      sales := sales - {saleId};
      r := Pass;
    }

    /** One UPDATE of the reversal loop: `stock = stock + qty` for the row's product. */
    method RestoreOne(row: SaleItem)
      modifies this
      ensures products == RestoreStock(old(products), row.productId, row.qty)
      ensures clients == old(clients) && sales == old(sales) && saleItems == old(saleItems)
    {
      if row.productId in products {
        products := products[row.productId := products[row.productId].(stock := products[row.productId].stock + row.qty)];
      }
    }

    /** The `for` loop of the reversal: each row's quantity goes back to its product. */
    method RestoreStocks(rows: seq<SaleItem>)
      modifies this
      ensures products == ApplyReversal(old(products), rows)
      ensures clients == old(clients) && sales == old(sales) && saleItems == old(saleItems)
    {
      var i := 0;
      while i < |rows|
        invariant 0 <= i <= |rows|
        invariant products == ApplyReversal(old(products), rows[..i])
        invariant clients == old(clients) && sales == old(sales) && saleItems == old(saleItems)
      {
        RestoreOne(rows[i]);
        ApplyReversalExtend(old(products), rows, i);
        i := i + 1;
      }
      assert rows[..|rows|] == rows;
    }
  }
}
