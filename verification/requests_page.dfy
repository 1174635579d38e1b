/** The requests page (src/pages/Requests.tsx): the list a user sees, the
    status counters, and the request form, whose submission resolves the
    product name and hands the request to the store. */
module RequestsPage {
  import opened Lists
  import opened Text
  import opened Domain
  import opened Inventory

  /** `filteredRequests`: an administrator sees every request, anyone else
      only their own. (The page fixes `isAdmin` to true and the user to
      'admin'; both are parameters here.) */
  function FilteredRequests(rs: seq<ProductRequest>, isAdmin: bool, userId: string): (r: seq<ProductRequest>)
    ensures isAdmin ==> r == rs
    ensures !isAdmin ==> forall x :: x in r <==> x in rs && x.userId == userId
  {
    if isAdmin then rs else Filter(rs, (x: ProductRequest) => x.userId == userId)
  }

  /** The three counters add up to the number of requests listed. */
  lemma CountersAddUp(rs: seq<ProductRequest>, isAdmin: bool, userId: string)
    ensures var shown := FilteredRequests(rs, isAdmin, userId);
      |WithStatus(shown, EnAttente)| + |WithStatus(shown, Valide)| + |WithStatus(shown, Refuse)| == |shown|
  {
    StatusCountsAddUp(FilteredRequests(rs, isAdmin, userId));
  }

  /** The name sent with a request: with a product id, the name of the first
      product with that id, or the typed name when there is no such product
      or its name is empty; without one, the typed name. */
  function ResolveName(products: seq<Product>, productId: string, productNom: string): (name: string)
    ensures productId == "" ==> name == productNom
    ensures (productId != "" && FindProduct(products, productId).Some? &&
             products[FindProduct(products, productId).value].nom != "") ==>
      name == products[FindProduct(products, productId).value].nom
    ensures (productId != "" && FindProduct(products, productId).Some? &&
             products[FindProduct(products, productId).value].nom == "") ==> name == productNom
    ensures productId != "" && FindProduct(products, productId).None? ==> name == productNom
  {
    if productId != "" then
      match FindProduct(products, productId)
      case Some(i) => if products[i].nom != "" then products[i].nom else productNom
      case None => productNom
    else productNom
  }

  /** The request handed to `addRequest`. The store replaces its id, status
      and date, so those three are placeholders here. */
  function Draft(productId: string, name: string, quantite: int, commentaire: string,
                 userId: string, prenom: string, nom: string): ProductRequest
  {
    ProductRequest("", if productId == "" then None else Some(productId), name, quantite, commentaire,
      EnAttente, userId, prenom + " " + nom, "")
  }

  /** The request form. */
  class RequestForm {
    var productId: string
    var productNom: string
    var quantiteDemandee: int
    var commentaire: string
    var isDialogOpen: bool

    /** A product is either chosen from the list or typed, never both. */
    predicate Valid()
      reads this
    {
      productId == "" || productNom == ""
    }

    constructor ()
      ensures Valid()
      ensures productId == "" && productNom == "" && quantiteDemandee == 1 && commentaire == "" && !isDialogOpen
    {
      productId, productNom, quantiteDemandee, commentaire, isDialogOpen := "", "", 1, "", false;
    }

    /** Choosing an existing product clears the typed name. */
    method SelectProduct(id: string)
      modifies this
      ensures Valid()
      ensures productId == id && productNom == ""
      ensures quantiteDemandee == old(quantiteDemandee) && commentaire == old(commentaire) && isDialogOpen == old(isDialogOpen)
    {
      productId, productNom := id, "";
    }

    /** Typing a name clears the chosen product. */
    method TypeName(name: string)
      modifies this
      ensures Valid()
      ensures productNom == name && productId == ""
      ensures quantiteDemandee == old(quantiteDemandee) && commentaire == old(commentaire) && isDialogOpen == old(isDialogOpen)
    {
      productNom, productId := name, "";
    }

    /** The quantity field: `parseInt(value) || 1`. */
    method TypeQuantity(text: string)
      modifies this
      requires Valid()
      ensures Valid()
      ensures quantiteDemandee == QuantityFromInput(text)
      ensures productId == old(productId) && productNom == old(productNom)
      ensures commentaire == old(commentaire) && isDialogOpen == old(isDialogOpen)
    {
      quantiteDemandee := QuantityFromInput(text);
    }

    /** `handleSubmit`: without a name or with a quantity of 0 or less nothing
        happens; otherwise the request goes to the store (an empty product id
        as `undefined`), the dialog closes and the form is reset. */
    method Submit(store: DataStore, userId: string, prenom: string, nom: string, newId: string, nowIso: string)
      returns (sent: bool)
      requires Valid()
      modifies this, store
      ensures Valid()
      ensures var name := ResolveName(old(store.products), old(productId), old(productNom));
        sent <==> name != "" && old(quantiteDemandee) > 0
      ensures sent ==>
        var name := ResolveName(old(store.products), old(productId), old(productNom));
        store.requests == old(store.requests) +
          [Draft(old(productId), name, old(quantiteDemandee), old(commentaire), userId, prenom, nom)
             .(id := newId, status := EnAttente, dateCreation := DatePart(nowIso))]
      ensures sent ==> productId == "" && productNom == "" && quantiteDemandee == 1 && commentaire == "" && !isDialogOpen
      ensures !sent ==> store.requests == old(store.requests)
      ensures !sent ==>
        (productId == old(productId) && productNom == old(productNom) &&
         quantiteDemandee == old(quantiteDemandee) && commentaire == old(commentaire) && isDialogOpen == old(isDialogOpen))
      ensures store.products == old(store.products) && store.sales == old(store.sales)
    {
      var name := ResolveName(store.products, productId, productNom);
      if name == "" || quantiteDemandee <= 0 {
        return false;
      }
      store.AddRequest(Draft(productId, name, quantiteDemandee, commentaire, userId, prenom, nom), newId, nowIso);
      isDialogOpen := false;
      productId, productNom, quantiteDemandee, commentaire := "", "", 1, "";
      sent := true;
    }
  }
}
