/** The mapping layer between the server's snake_case records and the
    client's records (src/api/services.ts, src/api/types.ts): the
    `transform*` functions, the payloads the client posts, and the user
    lookup behind `authApi.login`. The HTTP calls are left out; where a
    property needs the server's answer, the server is modelled as a function
    that stores the posted fields (`ServerCreate`, `ServerUpdate`). */
module ApiServices {
  import opened Lists
  import opened Text
  import opened Domain

  /** An embedded `{ id, nom, ... }` record (category, supplier, product,
      user); only its `nom` is ever read. */
  datatype Named = Named(id: int, nom: string)

  datatype ApiProduit = ApiProduit(
    id: int,
    nom: string,
    categorieId: int,
    fournisseurId: int,
    numeroLot: string,
    datePeremption: string,
    quantiteBoites: int,
    quantiteUnites: int,
    prix: string,
    description: Option<string>,
    category: Option<Named>,
    fournisseur: Option<Named>)

  datatype ApiVente = ApiVente(
    id: int,
    produitId: int,
    utilisateurId: int,
    quantiteVendue: int,
    dateVente: string,
    produit: Option<Named>,
    utilisateur: Option<Named>)

  datatype ApiDemandeProduit = ApiDemandeProduit(
    id: int,
    produitId: Option<int>,
    utilisateurId: int,
    quantiteDemandee: int,
    commentaire: Option<string>,
    status: Status,
    dateCreation: string,
    produit: Option<Named>,
    utilisateur: Option<Named>)

  /** A `/users` record: `ApiUtilisateur` plus `prenom`, `role`, `badge_id`. */
  datatype ApiUser = ApiUser(
    id: int,
    nom: string,
    prenom: string,
    email: Option<string>,
    role: Role,
    badgeId: string)

  /** `x?.nom || ''`. */
  function NomOr(x: Option<Named>): (r: string)
    ensures x.None? ==> r == ""
  {
    if x.Some? then x.value.nom else ""
  }

  /** `s || ''` on a nullable string. */
  function TextOr(s: Option<string>): string
  {
    s.GetOr("")
  }

  /** `transformProduct`; `parseFloat` on the price text is a parameter. */
  function TransformProduct(a: ApiProduit, parsePrice: string -> int): (p: Product)
    ensures ParseInt(p.id) == Some(a.id)
    ensures p.datePeremption == DatePart(a.datePeremption)
    ensures p.datePeremption <= a.datePeremption && 'T' !in p.datePeremption
    ensures p.nom == a.nom && p.numeroLot == a.numeroLot
    ensures p.quantiteBoites == a.quantiteBoites && p.quantiteUnites == a.quantiteUnites
    ensures a.category.None? ==> p.categorie == ""
    ensures a.fournisseur.None? ==> p.fournisseur == ""
    ensures a.description.None? ==> p.description == ""
    ensures a.category.Some? ==> p.categorie == a.category.value.nom
    ensures a.fournisseur.Some? ==> p.fournisseur == a.fournisseur.value.nom
    ensures a.description.Some? ==> p.description == a.description.value
  {
    ParseIntOfIntToString(a.id);
    Product(
      IntToString(a.id),
      a.nom,
      NomOr(a.category),
      a.numeroLot,
      DatePart(a.datePeremption),
      a.quantiteBoites,
      a.quantiteUnites,
      parsePrice(a.prix),
      NomOr(a.fournisseur),
      TextOr(a.description))
  }

  /** `transformSale`. */
  function TransformSale(v: ApiVente): (s: Sale)
    ensures ParseInt(s.id) == Some(v.id)
    ensures ParseInt(s.productId) == Some(v.produitId)
    ensures ParseInt(s.userId) == Some(v.utilisateurId)
    ensures s.date == DatePart(v.dateVente)
    ensures s.date <= v.dateVente && 'T' !in s.date
    ensures s.quantiteVendue == v.quantiteVendue
    ensures v.produit.None? ==> s.productNom == ""
    ensures v.utilisateur.None? ==> s.userName == ""
    ensures v.produit.Some? ==> s.productNom == v.produit.value.nom
    ensures v.utilisateur.Some? ==> s.userName == v.utilisateur.value.nom
  {
    ParseIntOfIntToString(v.id);
    ParseIntOfIntToString(v.produitId);
    ParseIntOfIntToString(v.utilisateurId);
    Sale(
      IntToString(v.id),
      IntToString(v.produitId),
      NomOr(v.produit),
      v.quantiteVendue,
      DatePart(v.dateVente),
      IntToString(v.utilisateurId),
      NomOr(v.utilisateur))
  }

  /** `transformRequest`: a null `produit_id` gives no product id. */
  function TransformRequest(d: ApiDemandeProduit): (r: ProductRequest)
    ensures ParseInt(r.id) == Some(d.id)
    ensures r.productId.None? <==> d.produitId.None?
    ensures r.productId.Some? ==> ParseInt(r.productId.value) == d.produitId
    ensures ParseInt(r.userId) == Some(d.utilisateurId)
    ensures r.dateCreation == DatePart(d.dateCreation)
    ensures r.dateCreation <= d.dateCreation && 'T' !in r.dateCreation
    ensures r.quantiteDemandee == d.quantiteDemandee
    ensures d.commentaire.None? ==> r.commentaire == ""
    ensures d.commentaire.Some? ==> r.commentaire == d.commentaire.value
    ensures r.productNom == (if d.produit.Some? then d.produit.value.nom else "")
    ensures r.userName == (if d.utilisateur.Some? then d.utilisateur.value.nom else "")
    ensures r.status == d.status
  {
    ParseIntOfIntToString(d.id);
    ParseIntOfIntToString(d.utilisateurId);
    ParseIntOfIntToString(d.produitId.GetOr(0));
    ProductRequest(
      IntToString(d.id),
      if d.produitId.Some? then Some(IntToString(d.produitId.value)) else None,
      NomOr(d.produit),
      d.quantiteDemandee,
      TextOr(d.commentaire),
      d.status,
      IntToString(d.utilisateurId),
      NomOr(d.utilisateur),
      DatePart(d.dateCreation))
  }

  /** `transformUser`: the password never comes from the server. */
  function TransformUser(u: ApiUser): (r: User)
    ensures r.password == ""
    ensures ParseInt(r.id) == Some(u.id)
    ensures r.email == (if u.email.Some? then u.email.value else "")
    ensures r.role == u.role && r.badgeId == u.badgeId
    ensures r.nom == u.nom && r.prenom == u.prenom
  {
    ParseIntOfIntToString(u.id);
    User(IntToString(u.id), u.nom, u.prenom, TextOr(u.email), "", u.role, u.badgeId)
  }

  /** The body posted by `productsApi.create`. */
  datatype ProductCreatePayload = ProductCreatePayload(
    nom: string,
    categorieId: int,
    fournisseurId: int,
    numeroLot: string,
    datePeremption: string,
    quantiteBoites: int,
    quantiteUnites: int,
    prix: int,
    description: string)

  function CreatePayload(p: Product, categorieId: int, fournisseurId: int): ProductCreatePayload
  {
    ProductCreatePayload(p.nom, categorieId, fournisseurId, p.numeroLot, p.datePeremption,
      p.quantiteBoites, p.quantiteUnites, p.prix, p.description)
  }

  /** The record a server answers after storing a create payload under a new
      id; it prints the price in its own format and may embed the category
      and supplier. */
  function ServerCreate(b: ProductCreatePayload, id: int, prixText: string,
                        category: Option<Named>, fournisseur: Option<Named>): ApiProduit
  {
    ApiProduit(id, b.nom, b.categorieId, b.fournisseurId, b.numeroLot, b.datePeremption,
      b.quantiteBoites, b.quantiteUnites, prixText, Some(b.description), category, fournisseur)
  }

  /** Creating a product and reading back the server's echo gives the same
      name, lot, quantities and description, and the same date when it has
      no time part; the new id reads back as the server's number. */
  lemma CreateRoundTrip(p: Product, categorieId: int, fournisseurId: int, id: int, prixText: string,
                        category: Option<Named>, fournisseur: Option<Named>, parsePrice: string -> int)
    ensures var q := TransformProduct(ServerCreate(CreatePayload(p, categorieId, fournisseurId),
                                                   id, prixText, category, fournisseur), parsePrice);
      && q.nom == p.nom && q.numeroLot == p.numeroLot
      && q.quantiteBoites == p.quantiteBoites && q.quantiteUnites == p.quantiteUnites
      && q.description == p.description
      && ParseInt(q.id) == Some(id)
      && ('T' !in p.datePeremption ==> q.datePeremption == p.datePeremption)
  {
    if 'T' !in p.datePeremption {
      DatePartOfDate(p.datePeremption);
    }
  }

  /** The body `productsApi.update` builds field by field; `None` is a key
      that is not sent. */
  datatype ProductUpdatePayload = ProductUpdatePayload(
    nom: Option<string>,
    categorieId: Option<int>,
    fournisseurId: Option<int>,
    numeroLot: Option<string>,
    datePeremption: Option<string>,
    quantiteBoites: Option<int>,
    quantiteUnites: Option<int>,
    prix: Option<int>,
    description: Option<string>)

  /** JavaScript truthiness of an optional number: present and non-zero
      (`NaN` is modelled as absent). */
  predicate TruthyInt(x: Option<int>)
  {
    x.Some? && x.value != 0
  }

  /** `x` when it is truthy, otherwise not sent. */
  function IfTruthy(x: Option<string>): (r: Option<string>)
    ensures r.Some? <==> Truthy(x)
    ensures r.Some? ==> r == x
  {
    if Truthy(x) then x else None
  }

  function IfTruthyInt(x: Option<int>): (r: Option<int>)
    ensures r.Some? <==> TruthyInt(x)
    ensures r.Some? ==> r == x
  {
    if TruthyInt(x) then x else None
  }

  /** The update payload as a value: names, lot, date, price and the two
      ids only when truthy, quantities and description whenever defined. */
  function UpdatePayload(u: ProductPatch, categorieId: Option<int>, fournisseurId: Option<int>): ProductUpdatePayload
  {
    ProductUpdatePayload(IfTruthy(u.nom), IfTruthyInt(categorieId), IfTruthyInt(fournisseurId),
      IfTruthy(u.numeroLot), IfTruthy(u.datePeremption), u.quantiteBoites, u.quantiteUnites,
      IfTruthyInt(u.prix), u.description)
  }

  /** `productsApi.update`'s payload construction: start from `{}` and
      assign one key per test (each key a local that starts out unsent). */
  method BuildUpdatePayload(u: ProductPatch, categorieId: Option<int>, fournisseurId: Option<int>)
    returns (payload: ProductUpdatePayload)
    ensures payload == UpdatePayload(u, categorieId, fournisseurId)
  {
    var nom: Option<string> := None;
    var categorie: Option<int> := None;
    var fournisseur: Option<int> := None;
    var numeroLot: Option<string> := None;
    var datePeremption: Option<string> := None;
    var quantiteBoites: Option<int> := None;
    var quantiteUnites: Option<int> := None;
    var prix: Option<int> := None;
    var description: Option<string> := None;
    if Truthy(u.nom) { nom := u.nom; }
    assert nom == IfTruthy(u.nom);
    if TruthyInt(categorieId) { categorie := categorieId; }
    assert categorie == IfTruthyInt(categorieId);
    if TruthyInt(fournisseurId) { fournisseur := fournisseurId; }
    assert fournisseur == IfTruthyInt(fournisseurId);
    if Truthy(u.numeroLot) { numeroLot := u.numeroLot; }
    assert numeroLot == IfTruthy(u.numeroLot);
    if Truthy(u.datePeremption) { datePeremption := u.datePeremption; }
    assert datePeremption == IfTruthy(u.datePeremption);
    if u.quantiteBoites.Some? { quantiteBoites := u.quantiteBoites; }
    assert quantiteBoites == u.quantiteBoites;
    if u.quantiteUnites.Some? { quantiteUnites := u.quantiteUnites; }
    assert quantiteUnites == u.quantiteUnites;
    if TruthyInt(u.prix) { prix := u.prix; }
    assert prix == IfTruthyInt(u.prix);
    if u.description.Some? { description := u.description; }
    assert description == u.description;
    payload := ProductUpdatePayload(nom, categorie, fournisseur, numeroLot, datePeremption,
      quantiteBoites, quantiteUnites, prix, description);
  }

  /** The record a server answers after applying an update payload: every
      key sent overrides the stored field; a price sent is printed by
      `showPrice`. */
  function ServerUpdate(a: ApiProduit, b: ProductUpdatePayload, showPrice: int -> string): ApiProduit
  {
    ApiProduit(a.id, b.nom.GetOr(a.nom), b.categorieId.GetOr(a.categorieId),
      b.fournisseurId.GetOr(a.fournisseurId), b.numeroLot.GetOr(a.numeroLot),
      b.datePeremption.GetOr(a.datePeremption), b.quantiteBoites.GetOr(a.quantiteBoites),
      b.quantiteUnites.GetOr(a.quantiteUnites),
      if b.prix.Some? then showPrice(b.prix.value) else a.prix,
      if b.description.Some? then b.description else a.description,
      a.category, a.fournisseur)
  }

  /** When every field a patch carries is truthy (a date without time part,
      a non-zero price), the product read back after the update is the
      client-side merge `{ ...product, ...updates }` of the product read
      before it: nothing the patch sets is lost. The patch's id, category
      name and supplier name are not sent and must be absent. */
  lemma UpdateRoundTrip(a: ApiProduit, u: ProductPatch, showPrice: int -> string, parsePrice: string -> int)
    requires u.id.None? && u.categorie.None? && u.fournisseur.None?
    requires u.nom.Some? ==> u.nom.value != ""
    requires u.numeroLot.Some? ==> u.numeroLot.value != ""
    requires u.datePeremption.Some? ==> u.datePeremption.value != "" && 'T' !in u.datePeremption.value
    requires u.prix.Some? ==> u.prix.value != 0 && parsePrice(showPrice(u.prix.value)) == u.prix.value
    ensures TransformProduct(ServerUpdate(a, UpdatePayload(u, None, None), showPrice), parsePrice)
         == Merge(TransformProduct(a, parsePrice), u)
  {
    if u.datePeremption.Some? {
      DatePartOfDate(u.datePeremption.value);
    }
  }

  /** A price or a name set to a falsy value is not sent, so the server keeps
      the old one, while a quantity of 0 is sent and stored. */
  lemma UpdateDropsFalsy(a: ApiProduit, u: ProductPatch, showPrice: int -> string, parsePrice: string -> int)
    ensures var q := TransformProduct(ServerUpdate(a, UpdatePayload(u, None, None), showPrice), parsePrice);
      && (u.prix == Some(0) ==> q.prix == parsePrice(a.prix))
      && (u.nom == Some("") ==> q.nom == a.nom)
      && (u.quantiteBoites == Some(0) ==> q.quantiteBoites == 0)
      && (u.quantiteUnites == Some(0) ==> q.quantiteUnites == 0)
  {
  }

  /** The body posted by `salesApi.create`; `None` is `NaN`, which is sent
      as `null`. */
  datatype SaleCreatePayload = SaleCreatePayload(
    produitId: Option<int>,
    utilisateurId: Option<int>,
    quantiteVendue: int,
    dateVente: string)

  /** `salesApi.create`'s payload: the sale's date, or the current time
      when the date is empty. */
  function SalePayload(s: Sale, nowIso: string): (b: SaleCreatePayload)
    ensures b.dateVente == (if s.date != "" then s.date else nowIso)
    ensures b.quantiteVendue == s.quantiteVendue
    ensures b.produitId == ParseInt(s.productId) && b.utilisateurId == ParseInt(s.userId)
  {
    SaleCreatePayload(ParseInt(s.productId), ParseInt(s.userId), s.quantiteVendue,
      if s.date != "" then s.date else nowIso)
  }

  /** A sale read from the server and posted again refers to the same
      product and user numbers. */
  lemma SalePayloadOfTransformed(v: ApiVente, nowIso: string)
    ensures SalePayload(TransformSale(v), nowIso).produitId == Some(v.produitId)
    ensures SalePayload(TransformSale(v), nowIso).utilisateurId == Some(v.utilisateurId)
  {
  }

  /** The body posted by `requestsApi.create`. */
  datatype RequestCreatePayload = RequestCreatePayload(
    produitId: Option<int>,
    utilisateurId: Option<int>,
    quantiteDemandee: int,
    commentaire: string)

  /** `requestsApi.create`'s payload: `produit_id` is `null` when the request
      has no product id (or an empty one). */
  function RequestPayload(r: ProductRequest): (b: RequestCreatePayload)
    ensures !Truthy(r.productId) ==> b.produitId.None?
    ensures Truthy(r.productId) ==> b.produitId == ParseInt(r.productId.value)
    ensures b.utilisateurId == ParseInt(r.userId)
    ensures b.commentaire == r.commentaire && b.quantiteDemandee == r.quantiteDemandee
  {
    RequestCreatePayload(
      if Truthy(r.productId) then ParseInt(r.productId.value) else None,
      ParseInt(r.userId), r.quantiteDemandee, r.commentaire)
  }

  /** A request read from the server and posted again keeps its product
      number, or its `null` product. */
  lemma RequestPayloadOfTransformed(d: ApiDemandeProduit)
    ensures RequestPayload(TransformRequest(d)).produitId == d.produitId
    ensures RequestPayload(TransformRequest(d)).utilisateurId == Some(d.utilisateurId)
  {
  }

  datatype LoginLookup = Found(user: ApiUser) | LoginFailed(message: string)

  /** `authApi.login`: the first listed user whose email equals the given one
      (a `null` email never does); the password is not looked at. */
  function AuthApiLogin(users: seq<ApiUser>, email: string, password: string): (r: LoginLookup)
    ensures r.LoginFailed? <==> forall i :: 0 <= i < |users| ==> users[i].email != Some(email)
    ensures r.LoginFailed? ==> r.message == "Identifiants incorrects"
    ensures r.Found? ==> exists i :: 0 <= i < |users| && users[i] == r.user && r.user.email == Some(email)
                                   && forall j :: 0 <= j < i ==> users[j].email != Some(email)
  {
    match FindIndex(users, (u: ApiUser) => u.email == Some(email))
    case Some(i) => Found(users[i])
    case None => LoginFailed("Identifiants incorrects")
  }

  /** The lookup gives the same answer whatever password is typed. */
  lemma LoginIgnoresPassword(users: seq<ApiUser>, email: string, p1: string, p2: string)
    ensures AuthApiLogin(users, email, p1) == AuthApiLogin(users, email, p2)
  {
  }
}
