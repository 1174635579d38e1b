/** The client's record types (src/types/index.ts). Dates are kept as the
    strings the records hold; numbers that the stores do arithmetic on are
    integers, and the price is an integer number of cents. */
module Domain {
  import opened Lists

  datatype Role = Admin | Vendeur

  /** A request's status: 'EN_ATTENTE' | 'VALIDE' | 'REFUSE'. */
  datatype Status = EnAttente | Valide | Refuse

  datatype User = User(
    id: string,
    nom: string,
    prenom: string,
    email: string,
    password: string,
    role: Role,
    badgeId: string)

  datatype Product = Product(
    id: string,
    nom: string,
    categorie: string,
    numeroLot: string,
    datePeremption: string,
    quantiteBoites: int,
    quantiteUnites: int,
    prix: int,
    fournisseur: string,
    description: string)

  datatype Sale = Sale(
    id: string,
    productId: string,
    productNom: string,
    quantiteVendue: int,
    date: string,
    userId: string,
    userName: string)

  datatype ProductRequest = ProductRequest(
    id: string,
    productId: Option<string>,
    productNom: string,
    quantiteDemandee: int,
    commentaire: string,
    status: Status,
    userId: string,
    userName: string,
    dateCreation: string)

  /** `Partial<Product>`: the fields an update spreads over a product. */
  datatype ProductPatch = ProductPatch(
    id: Option<string>,
    nom: Option<string>,
    categorie: Option<string>,
    numeroLot: Option<string>,
    datePeremption: Option<string>,
    quantiteBoites: Option<int>,
    quantiteUnites: Option<int>,
    prix: Option<int>,
    fournisseur: Option<string>,
    description: Option<string>)

  /** `{ quantiteBoites: q }`, the patch the stores apply for a stock change. */
  function StockPatch(q: int): ProductPatch
  {
    ProductPatch(None, None, None, None, None, Some(q), None, None, None, None)
  }

  /** `{ ...p, ...u }`: every field present in `u` overrides `p`'s. */
  function Merge(p: Product, u: ProductPatch): Product
  {
    Product(
      u.id.GetOr(p.id),
      u.nom.GetOr(p.nom),
      u.categorie.GetOr(p.categorie),
      u.numeroLot.GetOr(p.numeroLot),
      u.datePeremption.GetOr(p.datePeremption),
      u.quantiteBoites.GetOr(p.quantiteBoites),
      u.quantiteUnites.GetOr(p.quantiteUnites),
      u.prix.GetOr(p.prix),
      u.fournisseur.GetOr(p.fournisseur),
      u.description.GetOr(p.description))
  }

  /** A stock patch changes the box quantity of a product and nothing else. */
  lemma StockPatchOnlyStock(p: Product, q: int)
    ensures Merge(p, StockPatch(q)) == p.(quantiteBoites := q)
  {
  }

  /** `Math.max(0, x)`. */
  function Max0(x: int): (r: int)
    ensures r >= 0 && r >= x
    ensures r == x || r == 0
  {
    if x > 0 then x else 0
  }

  function QuantitySold(s: Sale): int
  {
    s.quantiteVendue
  }

  /** `sales.reduce((acc, s) => acc + s.quantiteVendue, 0)`. */
  function TotalSold(sales: seq<Sale>): int
  {
    SumBy(sales, QuantitySold)
  }

  /** `requests.filter(r => r.status === status)`. */
  function WithStatus(rs: seq<ProductRequest>, status: Status): (r: seq<ProductRequest>)
    ensures forall x :: x in r <==> x in rs && x.status == status
  {
    Filter(rs, (x: ProductRequest) => x.status == status)
  }

  /** Every request has one of the three statuses, so the three status
      filters together have as many requests as the list. */
  lemma {:induction false} StatusCountsAddUp(rs: seq<ProductRequest>)
    ensures |WithStatus(rs, EnAttente)| + |WithStatus(rs, Valide)| + |WithStatus(rs, Refuse)| == |rs|
    decreases |rs|
  {
    if rs != [] {
      StatusCountsAddUp(rs[..|rs| - 1]);
    }
  }

  /** Every box quantity in the list is non-negative. */
  ghost predicate StockNonNegative(ps: seq<Product>)
  {
    forall i :: 0 <= i < |ps| ==> ps[i].quantiteBoites >= 0
  }

  /** `localStorage.getItem(key)`, `None` standing for `null`; the
      browser storage is a map from keys to strings. */
  function GetItem(storage: map<string, string>, key: string): (r: Option<string>)
    ensures r.Some? <==> key in storage
    ensures r.Some? ==> r.value == storage[key]
  {
    if key in storage then Some(storage[key]) else None
  }

  /** JavaScript truthiness of an optional string: present and non-empty. */
  predicate Truthy(s: Option<string>)
  {
    s.Some? && s.value != ""
  }
}
