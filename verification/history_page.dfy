/** The history page (src/pages/History.tsx): the sales a user may see,
    narrowed by a search, sorted newest first, with their count, their
    quantity total and the seller's initials. */
module HistoryPage {
  import opened Lists
  import opened Text
  import opened Domain
  import opened Inventory
  import opened SalesPage

  /** The role filter: an administrator sees every sale, anyone else their own. */
  function VisibleSales(sales: seq<Sale>, isAdmin: bool, userId: string): (r: seq<Sale>)
    ensures isAdmin ==> r == sales
    ensures !isAdmin ==> forall s :: s in r <==> s in sales && s.userId == userId
  {
    if isAdmin then sales else Filter(sales, (s: Sale) => s.userId == userId)
  }

  predicate MatchesSearch(s: Sale, search: string)
  {
    IncludesIgnoreCase(s.productNom, search) || IncludesIgnoreCase(s.userName, search)
  }

  /** The search filter, applied only when the search text is non-empty. */
  function Searched(sales: seq<Sale>, search: string): (r: seq<Sale>)
    ensures search == "" ==> r == sales
    ensures search != "" ==> forall s :: s in r <==> s in sales && MatchesSearch(s, search)
  {
    if search != "" then Filter(sales, (s: Sale) => MatchesSearch(s, search)) else sales
  }

  /** The sales listed, before sorting. */
  function HistoryFilter(sales: seq<Sale>, isAdmin: bool, userId: string, search: string): seq<Sale>
  {
    Searched(VisibleSales(sales, isAdmin, userId), search)
  }

  /** A sale is listed exactly when it is one of the sales, belongs to the
      user unless the user is an administrator, and mentions the search text
      in its product or seller name unless the search is empty. */
  lemma HistoryFilterSound(sales: seq<Sale>, isAdmin: bool, userId: string, search: string, s: Sale)
    ensures s in HistoryFilter(sales, isAdmin, userId, search) <==>
      s in sales && (isAdmin || s.userId == userId) && (search == "" || MatchesSearch(s, search))
  {
  }

  /** `filteredSales`: the filtered sales sorted newest first. The sort works
      in place: when the administrator has no search, the array sorted is the
      store's own sales list, which is then left in that order too. */
  method FilteredSales(store: DataStore, isAdmin: bool, userId: string, search: string, timeOf: string -> int)
    returns (r: seq<Sale>)
    modifies store
    ensures SortedDesc(r, SaleTime(timeOf))
    ensures multiset(r) == multiset(HistoryFilter(old(store.sales), isAdmin, userId, search))
    ensures |r| == |HistoryFilter(old(store.sales), isAdmin, userId, search)|
    ensures TotalSold(r) == TotalSold(HistoryFilter(old(store.sales), isAdmin, userId, search))
    ensures store.sales == if isAdmin && search == "" then r else old(store.sales)
    ensures store.products == old(store.products) && store.requests == old(store.requests)
  {
    var filtered := HistoryFilter(store.sales, isAdmin, userId, search);
    r := SortDesc(filtered, SaleTime(timeOf));
    assert |r| == |multiset(r)| == |filtered|;
    SumByPermutation(r, filtered, QuantitySold);
    if isAdmin && search == "" {
      store.sales := r;
    }
  }
}
