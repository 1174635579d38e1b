/** The older data provider (src/context/DataContext.tsx), backed by the
    browser's local storage. Its records use their own field names
    (`quantiteBoite`, `numLot`, `quantitySold`, `productName`, `quantity`),
    so they get their own record types here. Storage is a map from keys to
    JSON text; JSON encoding and parsing are parameters. */
module LegacyInventory {
  import opened Lists
  import opened Text
  import opened Domain

  datatype LegacyProduct = LegacyProduct(
    id: string,
    nom: string,
    categorie: string,
    numLot: string,
    datePeremption: string,
    quantiteBoite: int,
    quantiteUnite: int,
    prix: int,
    fournisseur: string,
    description: string)

  /** The fields of a sale this provider reads. */
  datatype LegacySale = LegacySale(id: string, productId: string, quantitySold: int)

  /** The fields of a request this provider reads. */
  datatype LegacyRequest = LegacyRequest(id: string, productName: string, quantity: int)

  /** The three lists the provider holds, as one value (the mock data, say). */
  datatype Snapshot = Snapshot(products: seq<LegacyProduct>, sales: seq<LegacySale>, requests: seq<LegacyRequest>)

  /** `JSON.stringify` for each list. */
  datatype Encoder = Encoder(
    products: seq<LegacyProduct> -> string,
    sales: seq<LegacySale> -> string,
    requests: seq<LegacyRequest> -> string)

  /** `JSON.parse` for each list. */
  datatype Decoder = Decoder(
    products: string -> seq<LegacyProduct>,
    sales: string -> seq<LegacySale>,
    requests: string -> seq<LegacyRequest>)

  const ProductsKey := "pharmacy_products"
  const SalesKey := "pharmacy_sales"
  const RequestsKey := "pharmacy_requests"

  /** `products.find(p => p.id === id)`, as an index. */
  function FindById(ps: seq<LegacyProduct>, id: string): Option<nat>
  {
    FindIndex(ps, (p: LegacyProduct) => p.id == id)
  }

  /** `products.find(p => p.nom.toLowerCase() === name.toLowerCase())`, as an index. */
  function FindByName(ps: seq<LegacyProduct>, name: string): Option<nat>
  {
    FindIndex(ps, (p: LegacyProduct) => Lower(p.nom) == Lower(name))
  }

  /** `products.map(p => p.id === q.id ? q : p)`: the whole record is replaced. */
  function ReplaceById(ps: seq<LegacyProduct>, q: LegacyProduct): (r: seq<LegacyProduct>)
    ensures |r| == |ps|
    ensures forall i :: 0 <= i < |ps| ==> r[i] == if ps[i].id == q.id then q else ps[i]
  {
    if ps == [] then [] else [if ps[0].id == q.id then q else ps[0]] + ReplaceById(ps[1..], q)
  }

  /** `requests.filter(r => r.id !== id)`. */
  function RemoveRequest(rs: seq<LegacyRequest>, id: string): (r: seq<LegacyRequest>)
    ensures forall x :: x in r <==> x in rs && x.id != id
    ensures |r| <= |rs|
  {
    Filter(rs, (x: LegacyRequest) => x.id != id)
  }

  /** The product with its box count lowered by `sold`, clamped at zero. */
  function SoldDown(p: LegacyProduct, sold: int): LegacyProduct
  {
    p.(quantiteBoite := Max0(p.quantiteBoite - sold))
  }

  /** The product with `q` more boxes. */
  function Restocked(p: LegacyProduct, q: int): LegacyProduct
  {
    p.(quantiteBoite := p.quantiteBoite + q)
  }

  /** The stock update of `addSale`: the first product with the sale's product
      id, its box count lowered by the quantity sold and clamped at zero,
      replaces every product with that id. */
  function LegacySaleStock(ps: seq<LegacyProduct>, productId: string, sold: int): seq<LegacyProduct>
  {
    match FindById(ps, productId)
    case None => ps
    case Some(j) => ReplaceById(ps, SoldDown(ps[j], sold))
  }

  /** The product created when a validated request names no known product. */
  function Stub(request: LegacyRequest, newId: string): LegacyProduct
  {
    LegacyProduct(newId, request.productName, "Non classé", "PENDING", "2099-12-31",
      request.quantity, 0, 0, "Inconnu", "Généré depuis une demande validée")
  }

  /** The stock update of `validateRequest`: the first product whose name
      equals the request's, ignoring case, gets the requested quantity added
      (and replaces every product with its id); without one, a stub is
      appended. */
  function ValidationStock(ps: seq<LegacyProduct>, request: LegacyRequest, newId: string): seq<LegacyProduct>
  {
    match FindByName(ps, request.productName)
    case Some(j) => ReplaceById(ps, Restocked(ps[j], request.quantity))
    case None => ps + [Stub(request, newId)]
  }

  /** A sale of a known product sets every product with that id to the first
      one with its box count `max(0, old - sold)`; the list keeps its length
      and its ids; a sale of an unknown product changes nothing. */
  lemma LegacySaleStockEffect(ps: seq<LegacyProduct>, productId: string, sold: int)
    ensures |LegacySaleStock(ps, productId, sold)| == |ps|
    ensures forall i :: 0 <= i < |ps| ==> LegacySaleStock(ps, productId, sold)[i].id == ps[i].id
    ensures FindById(ps, productId).None? ==> LegacySaleStock(ps, productId, sold) == ps
    ensures forall i, j :: 0 <= i < |ps| && ps[i].id == productId && FindById(ps, productId) == Some(j) ==>
      LegacySaleStock(ps, productId, sold)[i] == ps[j].(quantiteBoite := Max0(ps[j].quantiteBoite - sold))
    ensures forall i :: 0 <= i < |ps| && ps[i].id != productId ==> LegacySaleStock(ps, productId, sold)[i] == ps[i]
  {
  }

  /** A sale never leaves a negative box count behind. */
  lemma LegacySaleKeepsStockNonNegative(ps: seq<LegacyProduct>, productId: string, sold: int)
    requires forall i :: 0 <= i < |ps| ==> ps[i].quantiteBoite >= 0
    ensures forall i :: 0 <= i < |ps| ==> LegacySaleStock(ps, productId, sold)[i].quantiteBoite >= 0
  {
    LegacySaleStockEffect(ps, productId, sold);
  }

  /** Validation of a request whose name matches a product (ignoring case)
      adds the requested quantity to that product, keeps the list's length,
      and leaves products with another id alone; without a match it appends
      exactly one stub carrying the requested quantity, at zero price. */
  lemma ValidationStockEffect(ps: seq<LegacyProduct>, request: LegacyRequest, newId: string)
    ensures FindByName(ps, request.productName).Some? ==>
      var j := FindByName(ps, request.productName).value;
      |ValidationStock(ps, request, newId)| == |ps| &&
      Lower(ps[j].nom) == Lower(request.productName) &&
      (forall i :: 0 <= i < |ps| ==>
         ValidationStock(ps, request, newId)[i] ==
         (if ps[i].id == ps[j].id then ps[j].(quantiteBoite := ps[j].quantiteBoite + request.quantity) else ps[i]))
    ensures FindByName(ps, request.productName).None? ==>
      (forall i :: 0 <= i < |ps| ==> Lower(ps[i].nom) != Lower(request.productName)) &&
      ValidationStock(ps, request, newId) == ps + [Stub(request, newId)]
  {
  }

  /** Removing a request keeps the others in their order and drops every copy
      of that id; a list without that id is left as it was. */
  lemma RemoveRequestEffect(rs: seq<LegacyRequest>, id: string)
    ensures forall x :: x in RemoveRequest(rs, id) ==> x.id != id
    ensures (forall i :: 0 <= i < |rs| ==> rs[i].id != id) ==> RemoveRequest(rs, id) == rs
  {
    if forall i :: 0 <= i < |rs| ==> rs[i].id != id {
      FilterKeepsAll(rs, (x: LegacyRequest) => x.id != id);
    }
  }

  /** Every list equals, once encoded, the text stored under its key. */
  ghost predicate Persisted(storage: map<string, string>, enc: Encoder, s: Snapshot)
  {
    GetItem(storage, ProductsKey) == Some(enc.products(s.products)) &&
    GetItem(storage, SalesKey) == Some(enc.sales(s.sales)) &&
    GetItem(storage, RequestsKey) == Some(enc.requests(s.requests))
  }

  /** Each save helper writes only its own key, so a store whose lists all
      matched their stored copies still does after any one save. */
  lemma SavesKeepPersisted(storage: map<string, string>, enc: Encoder, s: Snapshot,
                           ps: seq<LegacyProduct>, ss: seq<LegacySale>, rs: seq<LegacyRequest>)
    requires Persisted(storage, enc, s)
    ensures Persisted(storage[ProductsKey := enc.products(ps)], enc, s.(products := ps))
    ensures Persisted(storage[SalesKey := enc.sales(ss)], enc, s.(sales := ss))
    ensures Persisted(storage[RequestsKey := enc.requests(rs)], enc, s.(requests := rs))
  {
  }

  class LegacyDataStore {
    var products: seq<LegacyProduct>
    var sales: seq<LegacySale>
    var requests: seq<LegacyRequest>
    var storage: map<string, string>
    const encode: Encoder
    const mock: Snapshot

    /** The mount effect: each list is parsed from its key when the stored
        text is truthy; otherwise it is the mock list, which is also written
        under the key. */
    constructor (stored: map<string, string>, mockData: Snapshot, enc: Encoder, dec: Decoder)
      ensures encode == enc && mock == mockData
      ensures products == if Truthy(GetItem(stored, ProductsKey)) then dec.products(stored[ProductsKey]) else mockData.products
      ensures sales == if Truthy(GetItem(stored, SalesKey)) then dec.sales(stored[SalesKey]) else mockData.sales
      ensures requests == if Truthy(GetItem(stored, RequestsKey)) then dec.requests(stored[RequestsKey]) else mockData.requests
      ensures storage ==
        stored
        + (if Truthy(GetItem(stored, ProductsKey)) then map[] else map[ProductsKey := enc.products(mockData.products)])
        + (if Truthy(GetItem(stored, SalesKey)) then map[] else map[SalesKey := enc.sales(mockData.sales)])
        + (if Truthy(GetItem(stored, RequestsKey)) then map[] else map[RequestsKey := enc.requests(mockData.requests)])
    {
      encode := enc;
      mock := mockData;
      var s := stored;
      var ps, ss, rs;
      if Truthy(GetItem(stored, ProductsKey)) {
        ps := dec.products(stored[ProductsKey]);
      } else {
        ps := mockData.products;
        s := s[ProductsKey := enc.products(ps)];
      }
      assert s == stored
        + (if Truthy(GetItem(stored, ProductsKey)) then map[] else map[ProductsKey := enc.products(mockData.products)]);
      if Truthy(GetItem(stored, SalesKey)) {
        ss := dec.sales(stored[SalesKey]);
      } else {
        ss := mockData.sales;
        s := s[SalesKey := enc.sales(ss)];
      }
      assert s == stored
        + (if Truthy(GetItem(stored, ProductsKey)) then map[] else map[ProductsKey := enc.products(mockData.products)])
        + (if Truthy(GetItem(stored, SalesKey)) then map[] else map[SalesKey := enc.sales(mockData.sales)]);
      if Truthy(GetItem(stored, RequestsKey)) {
        rs := dec.requests(stored[RequestsKey]);
      } else {
        rs := mockData.requests;
        s := s[RequestsKey := enc.requests(rs)];
      }
      products, sales, requests, storage := ps, ss, rs, s;
    }

    /** `saveProducts`: the new list in memory and, encoded, under its key. */
    method SaveProducts(newProducts: seq<LegacyProduct>)
      modifies this
      ensures products == newProducts && storage == old(storage)[ProductsKey := encode.products(newProducts)]
      ensures GetItem(storage, ProductsKey) == Some(encode.products(products))
      ensures sales == old(sales) && requests == old(requests)
    {
      products := newProducts;
      storage := storage[ProductsKey := encode.products(newProducts)];
    }

    /** `saveSales`. */
    method SaveSales(newSales: seq<LegacySale>)
      modifies this
      ensures sales == newSales && storage == old(storage)[SalesKey := encode.sales(newSales)]
      ensures GetItem(storage, SalesKey) == Some(encode.sales(sales))
      ensures products == old(products) && requests == old(requests)
    {
      sales := newSales;
      storage := storage[SalesKey := encode.sales(newSales)];
    }

    /** `saveRequests`. */
    method SaveRequests(newRequests: seq<LegacyRequest>)
      modifies this
      ensures requests == newRequests && storage == old(storage)[RequestsKey := encode.requests(newRequests)]
      ensures GetItem(storage, RequestsKey) == Some(encode.requests(requests))
      ensures products == old(products) && sales == old(sales)
    {
      requests := newRequests;
      storage := storage[RequestsKey := encode.requests(newRequests)];
    }

    /** `addProduct`: appends the product as given, id included. */
    method AddProduct(product: LegacyProduct)
      modifies this
      ensures products == old(products) + [product]
      ensures storage == old(storage)[ProductsKey := encode.products(products)]
      ensures sales == old(sales) && requests == old(requests)
    {
      SaveProducts(products + [product]);
    }

    /** `updateProduct`: the given record replaces every product with its id. */
    method UpdateProduct(updated: LegacyProduct)
      modifies this
      ensures products == ReplaceById(old(products), updated)
      ensures storage == old(storage)[ProductsKey := encode.products(products)]
      ensures sales == old(sales) && requests == old(requests)
    {
      SaveProducts(ReplaceById(products, updated));
    }

    /** `deleteProduct`. */
    method DeleteProduct(productId: string)
      modifies this
      ensures products == Filter(old(products), (p: LegacyProduct) => p.id != productId)
      ensures storage == old(storage)[ProductsKey := encode.products(products)]
      ensures sales == old(sales) && requests == old(requests)
    {
      SaveProducts(Filter(products, (p: LegacyProduct) => p.id != productId));
    }

    /** The stock step of `addSale`: `updateProduct` on the first product
        with the sold product's id, when there is one. */
    method SaleStockStep(productId: string, sold: int)
      modifies this
      ensures products == LegacySaleStock(old(products), productId, sold)
      ensures storage == if FindById(old(products), productId).Some?
        then old(storage)[ProductsKey := encode.products(products)] else old(storage)
      ensures sales == old(sales) && requests == old(requests)
    {
      var found := FindById(products, productId);
      if found.Some? {
        var product := products[found.value];
        UpdateProduct(SoldDown(product, sold));
      }
    }

    /** `addSale`: the sale goes to the head of the list, then the stock step. */
    method AddSale(sale: LegacySale)
      modifies this
      ensures sales == [sale] + old(sales)
      ensures products == LegacySaleStock(old(products), sale.productId, sale.quantitySold)
      ensures requests == old(requests)
      ensures GetItem(storage, SalesKey) == Some(encode.sales(sales))
      ensures FindById(old(products), sale.productId).Some? ==>
        GetItem(storage, ProductsKey) == Some(encode.products(products))
      ensures storage == if FindById(old(products), sale.productId).Some?
        then old(storage)[SalesKey := encode.sales(sales)][ProductsKey := encode.products(products)]
        else old(storage)[SalesKey := encode.sales(sales)]
    {
      SaveSales([sale] + sales);
      SaleStockStep(sale.productId, sale.quantitySold);
    }

    /** `addRequest`: the request goes to the head of the list. */
    method AddRequest(request: LegacyRequest)
      modifies this
      ensures requests == [request] + old(requests)
      ensures storage == old(storage)[RequestsKey := encode.requests(requests)]
      ensures products == old(products) && sales == old(sales)
    {
      SaveRequests([request] + requests);
    }

    /** The stock step of `validateRequest`: replenish the product the
        request names, or add a stub under `newId`. */
    method ValidationStockStep(request: LegacyRequest, newId: string)
      modifies this
      ensures products == ValidationStock(old(products), request, newId)
      ensures storage == old(storage)[ProductsKey := encode.products(products)]
      ensures sales == old(sales) && requests == old(requests)
    {
      var existing := FindByName(products, request.productName);
      if existing.Some? {
        var product := products[existing.value];
        UpdateProduct(Restocked(product, request.quantity));
      } else {
        AddProduct(Stub(request, newId));
      }
    }

    /** `validateRequest`: removes the request from the list, then the stock step. */
    method ValidateRequest(request: LegacyRequest, newId: string)
      modifies this
      ensures requests == RemoveRequest(old(requests), request.id)
      ensures products == ValidationStock(old(products), request, newId)
      ensures sales == old(sales)
      ensures GetItem(storage, RequestsKey) == Some(encode.requests(requests))
      ensures GetItem(storage, ProductsKey) == Some(encode.products(products))
      ensures storage == old(storage)[RequestsKey := encode.requests(requests)][ProductsKey := encode.products(products)]
    {
      SaveRequests(RemoveRequest(requests, request.id));
      ValidationStockStep(request, newId);
    }

    /** `rejectRequest`: removes the request; products are untouched. */
    method RejectRequest(requestId: string)
      modifies this
      ensures requests == RemoveRequest(old(requests), requestId)
      ensures storage == old(storage)[RequestsKey := encode.requests(requests)]
      ensures products == old(products) && sales == old(sales)
    {
      SaveRequests(RemoveRequest(requests, requestId));
    }

    /** `refreshData`, up to the page reload: the three keys are removed and
        the lists go back to the mock data. */
    method RefreshData()
      modifies this
      ensures storage == old(storage) - {ProductsKey, SalesKey, RequestsKey}
      ensures products == mock.products && sales == mock.sales && requests == mock.requests
    {
      storage := storage - {ProductsKey, SalesKey, RequestsKey};
      products, sales, requests := mock.products, mock.sales, mock.requests;
    }
  }
}
