/** The validation page (src/pages/Validation.tsx): administrators see the
    pending requests and approve or refuse them through the store. */
module ValidationPage {
  import opened Lists
  import opened Domain
  import opened Inventory

  datatype View = Redirect(to: string) | PendingList(requests: seq<ProductRequest>)

  /** A non-administrator is sent to the dashboard before anything is
      computed; an administrator sees the pending requests. */
  function ValidationView(isAdmin: bool, requests: seq<ProductRequest>): View
  {
    if !isAdmin then Redirect("/dashboard") else PendingList(WithStatus(requests, EnAttente))
  }

  /** The page lists exactly the pending requests, and its counter is their number. */
  lemma ValidationViewMeaning(isAdmin: bool, requests: seq<ProductRequest>)
    ensures !isAdmin <==> ValidationView(isAdmin, requests) == Redirect("/dashboard")
    ensures isAdmin ==> forall x :: x in ValidationView(isAdmin, requests).requests <==>
      x in requests && x.status == EnAttente
  {
  }

  /** After a request is approved or refused, no request with its id is
      pending any more. */
  lemma HandledLeavesPending(rs: seq<ProductRequest>, id: string, status: Status)
    requires status != EnAttente
    ensures forall x :: x in WithStatus(SetStatus(rs, id, status), EnAttente) ==> x.id != id
  {
    var rs1 := SetStatus(rs, id, status);
    forall x | x in WithStatus(rs1, EnAttente) ensures x.id != id {
      var i :| 0 <= i < |rs1| && rs1[i] == x;
    }
  }

  /** `handleValidate`: `updateRequestStatus(id, 'VALIDE')`. */
  method HandleValidate(store: DataStore, id: string)
    modifies store
    ensures store.requests == SetStatus(old(store.requests), id, Valide)
    ensures store.products == ApprovalStock(old(store.products), old(store.requests), id, Valide)
    ensures store.sales == old(store.sales)
  {
    store.UpdateRequestStatus(id, Valide);
  }

  /** `handleReject`: `updateRequestStatus(id, 'REFUSE')`; the stock is untouched. */
  method HandleReject(store: DataStore, id: string)
    modifies store
    ensures store.requests == SetStatus(old(store.requests), id, Refuse)
    ensures store.products == old(store.products) && store.sales == old(store.sales)
  {
    store.UpdateRequestStatus(id, Refuse);
  }
}
