/** The data provider wired into the application (src/contexts/DataContext.tsx):
    three in-memory lists of products, sales and requests, replaced by each
    store operation. Each operation's effect on a list is given by a function
    of the old lists; the lemmas below state the stock rules about those
    functions. Ids and the current date are parameters. */
module Inventory {
  import opened Lists
  import opened Text
  import opened Domain

  /** `products.find(p => p.id === id)`, as an index. */
  function FindProduct(ps: seq<Product>, id: string): Option<nat>
  {
    FindIndex(ps, (p: Product) => p.id == id)
  }

  /** `requests.find(r => r.id === id)`, as an index. */
  function FindRequest(rs: seq<ProductRequest>, id: string): Option<nat>
  {
    FindIndex(rs, (r: ProductRequest) => r.id == id)
  }

  /** `prev.map(p => p.id === id ? { ...p, ...u } : p)`. */
  function UpdateById(ps: seq<Product>, id: string, u: ProductPatch): (r: seq<Product>)
    ensures |r| == |ps|
    ensures forall i :: 0 <= i < |ps| ==> r[i] == if ps[i].id == id then Merge(ps[i], u) else ps[i]
  {
    if ps == [] then []
    else [if ps[0].id == id then Merge(ps[0], u) else ps[0]] + UpdateById(ps[1..], id, u)
  }

  /** `prev.filter(p => p.id !== id)`. */
  function RemoveById(ps: seq<Product>, id: string): (r: seq<Product>)
    ensures forall p :: p in r <==> p in ps && p.id != id
  {
    Filter(ps, (p: Product) => p.id != id)
  }

  /** `prev.map(r => r.id === id ? { ...r, status } : r)`. */
  function SetStatus(rs: seq<ProductRequest>, id: string, status: Status): (r: seq<ProductRequest>)
    ensures |r| == |rs|
    ensures forall i :: 0 <= i < |rs| ==> r[i] == if rs[i].id == id then rs[i].(status := status) else rs[i]
  {
    if rs == [] then []
    else [if rs[0].id == id then rs[0].(status := status) else rs[0]] + SetStatus(rs[1..], id, status)
  }

  /** The stock update chained after a sale: the first product with the sale's
      product id gives the old quantity; every product with that id gets
      `Math.max(0, old - quantiteVendue)`. */
  function SaleStock(ps: seq<Product>, productId: string, sold: int): seq<Product>
  {
    match FindProduct(ps, productId)
    case None => ps
    case Some(i) => UpdateById(ps, productId, StockPatch(Max0(ps[i].quantiteBoites - sold)))
  }

  /** The stock update chained after a status change: only 'VALIDE' on a
      request that has a product id naming an existing product adds the
      requested quantity; the request's previous status is not looked at. */
  function ApprovalStock(ps: seq<Product>, rs: seq<ProductRequest>, id: string, status: Status): seq<Product>
  {
    if status != Valide then ps
    else
      match FindRequest(rs, id)
      case None => ps
      case Some(k) =>
        if !Truthy(rs[k].productId) then ps
        else
          match FindProduct(ps, rs[k].productId.value)
          case None => ps
          case Some(i) =>
            UpdateById(ps, rs[k].productId.value, StockPatch(ps[i].quantiteBoites + rs[k].quantiteDemandee))
  }

  /** A sale of an existing product sets the stock of every product with that
      id to `max(0, old - sold)`, where `old` is the first such product's stock,
      and leaves every other product as it was; a sale of an unknown product
      changes nothing. The list keeps its length and its ids. */
  lemma SaleStockEffect(ps: seq<Product>, productId: string, sold: int)
    ensures |SaleStock(ps, productId, sold)| == |ps|
    ensures forall i :: 0 <= i < |ps| ==> SaleStock(ps, productId, sold)[i].id == ps[i].id
    ensures (forall i :: 0 <= i < |ps| ==> ps[i].id != productId) ==> SaleStock(ps, productId, sold) == ps
    ensures forall i, j :: 0 <= i < |ps| && 0 <= j < |ps| && ps[i].id == productId && FindProduct(ps, productId) == Some(j) ==>
      SaleStock(ps, productId, sold)[i] == ps[i].(quantiteBoites := Max0(ps[j].quantiteBoites - sold))
    ensures forall i :: 0 <= i < |ps| && ps[i].id != productId ==> SaleStock(ps, productId, sold)[i] == ps[i]
  {
    match FindProduct(ps, productId)
    case None =>
    case Some(j) =>
      forall i | 0 <= i < |ps| && ps[i].id == productId
        ensures SaleStock(ps, productId, sold)[i] == ps[i].(quantiteBoites := Max0(ps[j].quantiteBoites - sold))
      {
        StockPatchOnlyStock(ps[i], Max0(ps[j].quantiteBoites - sold));
      }
  }

  /** A sale never makes any box quantity negative, and it keeps a stock that
      was non-negative everywhere non-negative everywhere. */
  lemma SaleKeepsStockNonNegative(ps: seq<Product>, productId: string, sold: int)
    requires StockNonNegative(ps)
    ensures StockNonNegative(SaleStock(ps, productId, sold))
  {
    SaleStockEffect(ps, productId, sold);
    var r := SaleStock(ps, productId, sold);
    forall i | 0 <= i < |r| ensures r[i].quantiteBoites >= 0 {
      if ps[i].id == productId {
        var j := FindProduct(ps, productId).value;
        assert r[i].quantiteBoites == Max0(ps[j].quantiteBoites - sold);
      }
    }
  }

  /** A sale of `q <= stock` boxes of a product whose id is unique lowers its
      stock by exactly `q`. */
  lemma SaleWithinStockDecrements(ps: seq<Product>, i: nat, sold: int)
    requires i < |ps| && 0 <= sold <= ps[i].quantiteBoites
    requires forall j :: 0 <= j < |ps| && j != i ==> ps[j].id != ps[i].id
    ensures SaleStock(ps, ps[i].id, sold)[i].quantiteBoites == ps[i].quantiteBoites - sold
  {
    SaleStockEffect(ps, ps[i].id, sold);
    assert FindProduct(ps, ps[i].id) == Some(i);
  }

  /** Approval of a request naming an existing product adds exactly the
      requested quantity to (every product with) that id; any other status
      change, or a request without product id or with an unknown one, leaves
      the stock untouched. */
  lemma ApprovalStockEffect(ps: seq<Product>, rs: seq<ProductRequest>, id: string, status: Status, k: nat, j: nat)
    requires FindRequest(rs, id) == Some(k)
    requires Truthy(rs[k].productId) && FindProduct(ps, rs[k].productId.value) == Some(j)
    ensures status == Valide ==> forall i :: 0 <= i < |ps| ==>
      ApprovalStock(ps, rs, id, status)[i] ==
        if ps[i].id == rs[k].productId.value
        then ps[i].(quantiteBoites := ps[j].quantiteBoites + rs[k].quantiteDemandee)
        else ps[i]
    ensures status != Valide ==> ApprovalStock(ps, rs, id, status) == ps
  {
    if status == Valide {
      var q := ps[j].quantiteBoites + rs[k].quantiteDemandee;
      forall i | 0 <= i < |ps| && ps[i].id == rs[k].productId.value {
        StockPatchOnlyStock(ps[i], q);
      }
    }
  }

  /** Every other case leaves the stock as it was: a status other than
      'VALIDE', an unknown request, a request without a (truthy) product id,
      or a product id that names no product. */
  lemma ApprovalStockNoOp(ps: seq<Product>, rs: seq<ProductRequest>, id: string, status: Status)
    ensures (status != Valide || FindRequest(rs, id).None?
             || !Truthy(rs[FindRequest(rs, id).value].productId)
             || FindProduct(ps, rs[FindRequest(rs, id).value].productId.value).None?)
            ==> ApprovalStock(ps, rs, id, status) == ps
  {
  }

  /** Looking a product up by id only depends on the ids of the list. */
  lemma FindProductSameIds(a: seq<Product>, b: seq<Product>, pid: string)
    requires |a| == |b| && forall i :: 0 <= i < |a| ==> a[i].id == b[i].id
    ensures FindProduct(a, pid) == FindProduct(b, pid)
  {
    FindIndexPointwise(a, (p: Product) => p.id == pid, b, (p: Product) => p.id == pid);
  }

  /** Setting a status keeps every request where it was. */
  lemma FindRequestAfterSetStatus(rs: seq<ProductRequest>, id: string, status: Status, k: nat)
    requires FindRequest(rs, id) == Some(k)
    ensures FindRequest(SetStatus(rs, id, status), id) == Some(k)
    ensures SetStatus(rs, id, status)[k] == rs[k].(status := status)
  {
    var rs1 := SetStatus(rs, id, status);
    FindIndexPointwise(rs, (r: ProductRequest) => r.id == id, rs1, (r: ProductRequest) => r.id == id);
  }

  /** Approving the same request twice adds its quantity twice: neither the
      status update nor the stock update checks the request's current status. */
  lemma SecondApprovalAddsAgain(ps: seq<Product>, rs: seq<ProductRequest>, id: string, k: nat, j: nat)
    requires FindRequest(rs, id) == Some(k)
    requires Truthy(rs[k].productId) && FindProduct(ps, rs[k].productId.value) == Some(j)
    ensures ApprovalStock(ApprovalStock(ps, rs, id, Valide), SetStatus(rs, id, Valide), id, Valide)[j].quantiteBoites
      == ps[j].quantiteBoites + 2 * rs[k].quantiteDemandee
  {
    var pid := rs[k].productId.value;
    ApprovalStockEffect(ps, rs, id, Valide, k, j);
    var ps1 := ApprovalStock(ps, rs, id, Valide);
    var rs1 := SetStatus(rs, id, Valide);
    FindRequestAfterSetStatus(rs, id, Valide, k);
    FindProductSameIds(ps1, ps, pid);
    ApprovalStockEffect(ps1, rs1, id, Valide, k, j);
  }

  /** The provider's state. Each method performs one store operation as a
      single step: the list update and the stock update chained after it. */
  class DataStore {
    var products: seq<Product>
    var sales: seq<Sale>
    var requests: seq<ProductRequest>

    /** `useState(mockProducts)` etc.: the mock data the provider starts from. */
    constructor (initialProducts: seq<Product>, initialSales: seq<Sale>, initialRequests: seq<ProductRequest>)
      ensures products == initialProducts && sales == initialSales && requests == initialRequests
    {
      products := initialProducts;
      sales := initialSales;
      requests := initialRequests;
    }

    /** `addProduct`: appends the product under the fresh id `newId`. */
    method AddProduct(product: Product, newId: string)
      modifies this
      ensures |products| == |old(products)| + 1
      ensures products[..|old(products)|] == old(products)
      ensures products[|old(products)|] == product.(id := newId)
      ensures sales == old(sales) && requests == old(requests)
    {
      products := products + [product.(id := newId)];
    }

    /** `updateProduct(id, updates)`: merges the updates into every product with that id. */
    method UpdateProduct(id: string, updates: ProductPatch)
      modifies this
      ensures products == UpdateById(old(products), id, updates)
      ensures sales == old(sales) && requests == old(requests)
    {
      products := UpdateById(products, id, updates);
    }

    /** `deleteProduct(id)`: keeps the products with another id, in order. */
    method DeleteProduct(id: string)
      modifies this
      ensures products == RemoveById(old(products), id)
      ensures sales == old(sales) && requests == old(requests)
    {
      products := RemoveById(products, id);
    }

    /** `addSale`: appends the sale under `newId`, then clamps the sold
        product's stock at zero (see SaleStock). */
    method AddSale(sale: Sale, newId: string)
      modifies this
      ensures sales == old(sales) + [sale.(id := newId)]
      ensures TotalSold(sales) == TotalSold(old(sales)) + sale.quantiteVendue
      ensures products == SaleStock(old(products), sale.productId, sale.quantiteVendue)
      ensures requests == old(requests)
    {
      SumBySnoc(sales, sale.(id := newId), QuantitySold);
      sales := sales + [sale.(id := newId)];
      ApplySaleStock(sale.productId, sale.quantiteVendue);
    }

    /** The stock half of `addSale`: when a product has the sold id, every
        product with that id is patched with the clamped stock of the first. */
    method ApplySaleStock(productId: string, sold: int)
      modifies this
      ensures products == SaleStock(old(products), productId, sold)
      ensures sales == old(sales) && requests == old(requests)
    {
      var found := FindProduct(products, productId);
      if found.Some? {
        var product := products[found.value];
        UpdateProduct(productId, StockPatch(Max0(product.quantiteBoites - sold)));
      }
    }

    /** `addRequest`: appends the request under `newId`, pending, dated with
        the date part of the current ISO time `nowIso`. */
    method AddRequest(request: ProductRequest, newId: string, nowIso: string)
      modifies this
      ensures requests == old(requests) + [request.(id := newId, status := EnAttente, dateCreation := DatePart(nowIso))]
      ensures products == old(products) && sales == old(sales)
    {
      requests := requests + [request.(id := newId, status := EnAttente, dateCreation := DatePart(nowIso))];
    }

    /** `updateRequestStatus(id, status)` with status 'VALIDE' or 'REFUSE'. */
    method UpdateRequestStatus(id: string, status: Status)
      requires status != EnAttente
      modifies this
      ensures requests == SetStatus(old(requests), id, status)
      ensures products == ApprovalStock(old(products), old(requests), id, status)
      ensures sales == old(sales)
    {
      var before := requests;
      requests := SetStatus(requests, id, status);
      products := ApprovalStock(products, before, id, status);
    }
  }
}
