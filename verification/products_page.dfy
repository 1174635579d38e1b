/** The products page (src/pages/Products.tsx): the search and category
    filter, the product dialog's form with its required-field check and its
    add/update dispatch, and the stock badge. */
module ProductsPage {
  import opened Lists
  import opened Text
  import opened Domain
  import opened Dashboard

  /** The row test of `filteredProducts`. */
  predicate MatchesFilter(p: Product, search: string, categoryFilter: string)
  {
    (IncludesIgnoreCase(p.nom, search) || IncludesIgnoreCase(p.numeroLot, search)) &&
    (categoryFilter == "all" || p.categorie == categoryFilter)
  }

  /** `filteredProducts`: a product is listed iff its name or lot number
      contains the search text, ignoring case, and the category filter is
      'all' or its category. */
  function FilteredProducts(ps: seq<Product>, search: string, categoryFilter: string): (r: seq<Product>)
    ensures forall p :: p in r <==>
      (p in ps &&
       (IncludesIgnoreCase(p.nom, search) || IncludesIgnoreCase(p.numeroLot, search)) &&
       (categoryFilter == "all" || p.categorie == categoryFilter))
  {
    Filter(ps, (p: Product) => MatchesFilter(p, search, categoryFilter))
  }

  /** With an empty search and the 'all' filter, every product is listed, in order. */
  lemma EmptyFilterListsAll(ps: seq<Product>)
    ensures FilteredProducts(ps, "", "all") == ps
  {
    forall i | 0 <= i < |ps| ensures MatchesFilter(ps[i], "", "all") {
      EmptyQueryMatches(ps[i].nom);
    }
    FilterKeepsAll(ps, (p: Product) => MatchesFilter(p, "", "all"));
  }

  /** The dialog's form. The ids are `None` when undefined or `NaN`. */
  datatype ProductFormData = ProductFormData(
    nom: string,
    categorieId: Option<int>,
    fournisseurId: Option<int>,
    numeroLot: string,
    datePeremption: string,
    quantiteBoites: int,
    quantiteUnites: int,
    prix: int,
    description: string,
    createdAt: string,
    updatedAt: string)

  /** The form's initial value, which `resetForm` restores. */
  function EmptyForm(): ProductFormData
  {
    ProductFormData("", Some(0), Some(0), "", "", 0, 0, 0, "", "", "")
  }

  /** The snake_case body handed to the store: the form without its dates of
      creation and update. */
  datatype ApiProductData = ApiProductData(
    nom: string,
    categorieId: Option<int>,
    fournisseurId: Option<int>,
    numeroLot: string,
    datePeremption: string,
    quantiteBoites: int,
    quantiteUnites: int,
    prix: int,
    description: string)

  function ApiData(f: ProductFormData): ApiProductData
  {
    ApiProductData(f.nom, f.categorieId, f.fournisseurId, f.numeroLot, f.datePeremption,
      f.quantiteBoites, f.quantiteUnites, f.prix, f.description)
  }

  datatype StoreCall = UpdateCall(id: string, data: ApiProductData) | AddCall(data: ApiProductData)

  datatype SubmitDecision = Invalid(message: string) | Dispatch(call: StoreCall)

  const MsgRequired := "Veuillez remplir tous les champs obligatoires"

  /** JavaScript truthiness of a number: defined, not `NaN` and not 0. */
  predicate TruthyNumber(x: Option<int>)
  {
    x.Some? && x.value != 0
  }

  /** The first half of `handleSubmit`: the required-field check, then
      `updateProduct` when a product is being edited, `addProduct` otherwise. */
  function DecideSubmit(form: ProductFormData, editingProduct: Option<string>): SubmitDecision
  {
    if form.nom == "" || !TruthyNumber(form.categorieId) || form.numeroLot == "" then Invalid(MsgRequired)
    else if Truthy(editingProduct) then Dispatch(UpdateCall(editingProduct.value, ApiData(form)))
    else Dispatch(AddCall(ApiData(form)))
  }

  /** Nothing reaches the store without a name, a category id and a lot
      number; what does is an update of the edited id or else an addition,
      carrying the form's fields. */
  lemma DecideSubmitOutcomes(form: ProductFormData, editingProduct: Option<string>)
    ensures DecideSubmit(form, editingProduct).Invalid? <==>
      form.nom == "" || !TruthyNumber(form.categorieId) || form.numeroLot == ""
    ensures DecideSubmit(form, editingProduct).Dispatch? ==>
      var call := DecideSubmit(form, editingProduct).call;
      call.data.nom == form.nom && call.data.numeroLot == form.numeroLot &&
      call.data.categorieId == form.categorieId && call.data.fournisseurId == form.fournisseurId &&
      call.data.datePeremption == form.datePeremption &&
      call.data.quantiteBoites == form.quantiteBoites && call.data.quantiteUnites == form.quantiteUnites &&
      call.data.prix == form.prix && call.data.description == form.description &&
      (call.UpdateCall? <==> Truthy(editingProduct)) &&
      (call.UpdateCall? ==> call.id == editingProduct.value)
  {
  }

  /** The form `handleEdit` loads from a product. The page also reads
      `categorie_id`, `fournisseur_id`, `createdAt` and `updatedAt`, which the
      product record does not declare; they are parameters here. */
  function EditForm(p: Product, categorieId: Option<int>, fournisseurId: Option<int>,
                    createdAt: Option<string>, updatedAt: Option<string>): ProductFormData
  {
    ProductFormData(p.nom, categorieId, fournisseurId, p.numeroLot, p.datePeremption,
      p.quantiteBoites, p.quantiteUnites, p.prix, p.description, createdAt.GetOr(""), updatedAt.GetOr(""))
  }

  /** A product record without a category id (the shape the client's types
      declare) cannot be saved from the edit dialog until a category is
      chosen: the required-field check rejects it. */
  lemma EditWithoutCategoryRejected(p: Product, fournisseurId: Option<int>, createdAt: Option<string>,
                                    updatedAt: Option<string>, editing: Option<string>)
    ensures DecideSubmit(EditForm(p, None, fournisseurId, createdAt, updatedAt), editing) == Invalid(MsgRequired)
  {
  }

  /** `Object.values(errors).flat()`. */
  function Flatten(errors: seq<seq<string>>): (r: seq<string>)
    ensures |r| == 0 <==> forall i :: 0 <= i < |errors| ==> errors[i] == []
  {
    if errors == [] then [] else errors[0] + Flatten(errors[1..])
  }

  /** The first message of the flattened list is the first message of the
      first field that has one. */
  lemma {:induction false} FlattenFirst(errors: seq<seq<string>>, k: nat)
    requires k < |errors| && errors[k] != []
    requires forall i :: 0 <= i < k ==> errors[i] == []
    ensures Flatten(errors) != [] && Flatten(errors)[0] == errors[k][0]
    decreases k
  {
    if k > 0 {
      FlattenFirst(errors[1..], k - 1);
    }
  }

  /** The error toast after a failed store call: for HTTP 422 the first
      validation message (`undefined` when there is none), otherwise a
      generic message. `status` is `None` when there is no response. */
  function ErrorToast(status: Option<int>, errors: seq<seq<string>>): (msg: string)
    ensures status == Some(422) && Flatten(errors) != [] ==> msg == "Erreur de validation: " + Flatten(errors)[0]
    ensures status == Some(422) && Flatten(errors) == [] ==> msg == "Erreur de validation: undefined"
    ensures status != Some(422) ==> msg == "Une erreur est survenue lors de l'enregistrement"
  {
    if status == Some(422) then
      var messages := Flatten(errors);
      "Erreur de validation: " + (if messages == [] then "undefined" else messages[0])
    else "Une erreur est survenue lors de l'enregistrement"
  }

  /** `getStockStatus`. */
  function StockBadge(quantity: int): string
  {
    if quantity == 0 then "badge-expired"
    else if quantity < 10 then "badge-warning"
    else "badge-success"
  }

  /** The badge is red exactly for the dashboard's out-of-stock products,
      amber below ten boxes, and green from ten boxes up. */
  lemma StockBadgeMeaning(ps: seq<Product>, p: Product)
    requires p in ps
    ensures StockBadge(p.quantiteBoites) == "badge-expired" <==> p in OutOfStock(ps)
    ensures StockBadge(p.quantiteBoites) == "badge-warning" <==> p.quantiteBoites != 0 && p.quantiteBoites < 10
    ensures StockBadge(p.quantiteBoites) == "badge-success" <==> p.quantiteBoites >= 10
  {
  }

  /** A failed store call as the page sees it. */
  datatype Failure = Failure(status: Option<int>, errors: seq<seq<string>>)

  /** The dialog's state. */
  class ProductDialog {
    var formData: ProductFormData
    var editingProduct: Option<string>
    var isDialogOpen: bool

    constructor ()
      ensures formData == EmptyForm() && editingProduct == None && !isDialogOpen
    {
      formData, editingProduct, isDialogOpen := EmptyForm(), None, false;
    }

    /** `resetForm`: every field back to its default, no product edited. */
    method ResetForm()
      modifies this
      ensures formData == EmptyForm() && editingProduct == None
      ensures isDialogOpen == old(isDialogOpen)
    {
      formData := EmptyForm();
      editingProduct := None;
    }

    /** The category select: `parseInt(value)`. */
    method SelectCategory(value: string)
      modifies this
      ensures formData == old(formData).(categorieId := ParseInt(value))
      ensures editingProduct == old(editingProduct) && isDialogOpen == old(isDialogOpen)
    {
      formData := formData.(categorieId := ParseInt(value));
    }

    /** `handleEdit`: loads the product into the form and opens the dialog on it. */
    method HandleEdit(p: Product, categorieId: Option<int>, fournisseurId: Option<int>,
                      createdAt: Option<string>, updatedAt: Option<string>)
      modifies this
      ensures formData == EditForm(p, categorieId, fournisseurId, createdAt, updatedAt)
      ensures editingProduct == Some(p.id) && isDialogOpen
    {
      formData := EditForm(p, categorieId, fournisseurId, createdAt, updatedAt);
      editingProduct := Some(p.id);
      isDialogOpen := true;
    }

    /** `handleSubmit`: the decision, then, when a call was made, the store's
        answer (`failure` is `None` on success). On success the dialog closes
        and the form is reset; otherwise the form is kept. */
    method Submit(failure: Option<Failure>) returns (d: SubmitDecision, toast: string)
      modifies this
      ensures d == DecideSubmit(old(formData), old(editingProduct))
      ensures d.Invalid? ==> toast == MsgRequired
      ensures d.Dispatch? && failure.None? ==>
        toast == (if d.call.UpdateCall? then "Produit mis à jour" else "Produit ajouté") &&
        formData == EmptyForm() && editingProduct == None && !isDialogOpen
      ensures d.Dispatch? && failure.Some? ==> toast == ErrorToast(failure.value.status, failure.value.errors)
      ensures (d.Invalid? || failure.Some?) ==>
        formData == old(formData) && editingProduct == old(editingProduct) && isDialogOpen == old(isDialogOpen)
    {
      d := DecideSubmit(formData, editingProduct);
      if d.Invalid? {
        toast := MsgRequired;
        return;
      }
      if failure.Some? {
        toast := ErrorToast(failure.value.status, failure.value.errors);
        return;
      }
      toast := if d.call.UpdateCall? then "Produit mis à jour" else "Produit ajouté";
      isDialogOpen := false;
      ResetForm();
    }
  }
}
