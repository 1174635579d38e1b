/** The sales page (src/pages/Sales.tsx): the products offered for sale,
    the checks run before a sale is sent, the ten most recent sales, the
    statistics cards and the ten-minute cancel window. */
module SalesPage {
  import opened Lists
  import opened Text
  import opened Domain
  import opened Inventory
  import opened Dashboard

  /** `availableProducts`: the products with at least one box, in order. */
  function AvailableProducts(ps: seq<Product>): (r: seq<Product>)
    ensures forall p :: p in r <==> p in ps && p.quantiteBoites > 0
  {
    Filter(ps, (p: Product) => p.quantiteBoites > 0)
  }

  /** With no negative stock, every product is either offered for sale or
      counted out of stock on the dashboard, never both. */
  lemma {:induction false} AvailableOrOutOfStock(ps: seq<Product>)
    requires StockNonNegative(ps)
    ensures |AvailableProducts(ps)| + |OutOfStock(ps)| == |ps|
    decreases |ps|
  {
    if ps != [] {
      AvailableOrOutOfStock(ps[..|ps| - 1]);
    }
  }

  const MsgSelect := "Veuillez sélectionner un produit et une quantité valide"
  const MsgNotFound := "Produit non trouvé"
  const MsgStock := "Stock insuffisant"
  const MsgNoUser := "Utilisateur non connecté"
  const MsgBadUserId := "ID utilisateur invalide"

  /** The body sent for a sale (the embedded user and fetched product aside). */
  datatype SalePayload = SalePayload(
    productId: string,
    productNom: string,
    quantiteVendue: int,
    dateVente: string,
    userId: real)

  datatype SaleDecision = Reject(message: string) | Send(payload: SalePayload)

  /** The guard chain of `handleSubmit`, in the order written. `userId` is the
      stored user's id (`None` when there is none) and `toNumber` stands for
      `Number(..)`, `None` meaning `NaN`. */
  function CheckSale(selected: string, quantity: int, products: seq<Product>,
                     userId: Option<string>, toNumber: string -> Option<real>, nowIso: string): SaleDecision
  {
    if selected == "" || quantity <= 0 then Reject(MsgSelect)
    else
      match FindProduct(products, selected)
      case None => Reject(MsgNotFound)
      case Some(i) =>
        if quantity > products[i].quantiteBoites then Reject(MsgStock)
        else if !Truthy(userId) then Reject(MsgNoUser)
        else
          match toNumber(userId.value)
          case None => Reject(MsgBadUserId)
          case Some(n) =>
            if n <= 0.0 then Reject(MsgBadUserId)
            else Send(SalePayload(selected, products[i].nom, quantity, DatePart(nowIso), n))
  }

  /** Each message is given exactly when its check is the first to fail, and
      a sale is sent only when every check passes: a selected product that
      exists, a positive quantity within its stock and a positive numeric
      user id; the payload names that product and that quantity. */
  lemma CheckSaleOutcomes(selected: string, quantity: int, products: seq<Product>,
                          userId: Option<string>, toNumber: string -> Option<real>, nowIso: string)
    ensures var r := CheckSale(selected, quantity, products, userId, toNumber, nowIso);
      var found := FindProduct(products, selected);
      (r == Reject(MsgSelect) <==> selected == "" || quantity <= 0) &&
      (r == Reject(MsgNotFound) <==> selected != "" && quantity > 0 && found.None?) &&
      (r == Reject(MsgStock) <==>
        selected != "" && quantity > 0 && found.Some? && quantity > products[found.value].quantiteBoites) &&
      (r == Reject(MsgNoUser) <==>
        selected != "" && quantity > 0 && found.Some? && quantity <= products[found.value].quantiteBoites &&
        !Truthy(userId)) &&
      (r == Reject(MsgBadUserId) <==>
        selected != "" && quantity > 0 && found.Some? && quantity <= products[found.value].quantiteBoites &&
        Truthy(userId) && (toNumber(userId.value).None? || toNumber(userId.value).value <= 0.0)) &&
      (r.Send? <==>
        selected != "" && quantity > 0 && found.Some? && quantity <= products[found.value].quantiteBoites &&
        Truthy(userId) && toNumber(userId.value).Some? && toNumber(userId.value).value > 0.0) &&
      (r.Send? ==>
        products[found.value].id == selected &&
        r.payload == SalePayload(selected, products[found.value].nom, quantity, DatePart(nowIso), toNumber(userId.value).value))
  {
  }

  /** `new Date(s.date).getTime()` for the sort; the dates are taken to be valid. */
  function SaleTime(timeOf: string -> int): Sale -> int
  {
    (s: Sale) => timeOf(s.date)
  }

  /** `[...sales].sort(newest first).slice(0, 10)`: at most ten sales, newest
      first, taken from `sales`, and no sale left out is newer than one shown. */
  method RecentSales(sales: seq<Sale>, timeOf: string -> int) returns (r: seq<Sale>)
    ensures |r| == if |sales| < 10 then |sales| else 10
    ensures SortedDesc(r, SaleTime(timeOf))
    ensures multiset(r) <= multiset(sales)
    ensures forall x :: x in multiset(sales) - multiset(r) ==>
      forall i :: 0 <= i < |r| ==> SaleTime(timeOf)(x) <= SaleTime(timeOf)(r[i])
  {
    var sorted := SortDesc(sales, SaleTime(timeOf));
    assert |sorted| == |multiset(sorted)| == |sales|;
    var n := if |sorted| < 10 then |sorted| else 10;
    r := sorted[..n];
    SortedPrefixIsTop(sorted, n, SaleTime(timeOf));
  }

  /** The "today" card: the sales dated with the date part of the current
      ISO time. */
  function SalesToday(sales: seq<Sale>, nowIso: string): (r: seq<Sale>)
    ensures forall s :: s in r <==> s in sales && s.date == DatePart(nowIso)
  {
    Filter(sales, (s: Sale) => s.date == DatePart(nowIso))
  }

  /** The "products sold" card sums the quantities of all sales, so it does
      not depend on their order (the recent-sales sort, say). */
  lemma ProductsSoldOrderFree(a: seq<Sale>, b: seq<Sale>)
    requires multiset(a) == multiset(b)
    ensures TotalSold(a) == TotalSold(b)
  {
    SumByPermutation(a, b, QuantitySold);
  }

  /** The cancel button: `createdAt` is truthy and at most ten minutes
      (600000 ms) have passed since it; an unparsable date (`NaN`) hides it. */
  predicate CancelOffered(createdAt: Option<string>, dateOf: string -> Option<int>, nowMs: int)
  {
    Truthy(createdAt) && dateOf(createdAt.value).Some? && nowMs - dateOf(createdAt.value).value <= 10 * 60 * 1000
  }

  /** Once the window has closed it stays closed, and while it is open at
      most 600000 ms have passed. */
  lemma CancelWindowCloses(createdAt: Option<string>, dateOf: string -> Option<int>, now1: int, now2: int)
    requires now1 <= now2
    ensures CancelOffered(createdAt, dateOf, now2) ==> CancelOffered(createdAt, dateOf, now1)
    ensures CancelOffered(createdAt, dateOf, now1) ==> now1 - dateOf(createdAt.value).value <= 600000
  {
  }

  /** The sale dialog's form state. */
  class SaleForm {
    var selectedProduct: string
    var quantity: int
    var isDialogOpen: bool

    constructor ()
      ensures selectedProduct == "" && quantity == 1 && !isDialogOpen
    {
      selectedProduct, quantity, isDialogOpen := "", 1, false;
    }

    method SelectProduct(id: string)
      modifies this
      ensures selectedProduct == id && quantity == old(quantity) && isDialogOpen == old(isDialogOpen)
    {
      selectedProduct := id;
    }

    method TypeQuantity(text: string)
      modifies this
      ensures quantity == QuantityFromInput(text) && quantity != 0
      ensures selectedProduct == old(selectedProduct) && isDialogOpen == old(isDialogOpen)
    {
      quantity := QuantityFromInput(text);
    }

    /** `handleSubmit`: runs the checks; when they pass and the store accepts
        the sale (`stored`), the dialog closes and the form is reset;
        otherwise the form is left as it was. */
    method Submit(products: seq<Product>, userId: Option<string>, toNumber: string -> Option<real>,
                  nowIso: string, stored: bool) returns (d: SaleDecision)
      modifies this
      ensures d == CheckSale(old(selectedProduct), old(quantity), products, userId, toNumber, nowIso)
      ensures if d.Send? && stored then selectedProduct == "" && quantity == 1 && !isDialogOpen
        else selectedProduct == old(selectedProduct) && quantity == old(quantity) && isDialogOpen == old(isDialogOpen)
    {
      d := CheckSale(selectedProduct, quantity, products, userId, toNumber, nowIso);
      if d.Send? && stored {
        isDialogOpen := false;
        selectedProduct := "";
        quantity := 1;
      }
    }
  }
}
