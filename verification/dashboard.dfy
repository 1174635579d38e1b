/** The dashboard (src/pages/Dashboard.tsx): three filtered product lists,
    two group-by aggregates for the charts and the alert condition. */
module Dashboard {
  import opened Lists
  import opened Domain
  import opened Expirations

  /** `new Date(p.datePeremption) < today`: a comparison with `NaN` is false. */
  predicate IsPastDate(dateOf: string -> Option<int>, todayMs: int, p: Product)
  {
    dateOf(p.datePeremption).Some? && dateOf(p.datePeremption).value < todayMs
  }

  /** `expiredProducts`: the expiry instant is strictly before now. */
  function ExpiredProducts(ps: seq<Product>, dateOf: string -> Option<int>, todayMs: int): (r: seq<Product>)
    ensures forall p :: p in r <==> p in ps && IsPastDate(dateOf, todayMs, p)
  {
    Filter(ps, (p: Product) => IsPastDate(dateOf, todayMs, p))
  }

  /** The test of `soonToExpire`: `diffDays >= 0 && diffDays <= 30`. */
  predicate IsSoon(dateOf: string -> Option<int>, todayMs: int, p: Product)
  {
    match DaysUntil(dateOf, p.datePeremption, todayMs)
    case None => false
    case Some(d) => d >= 0 && d <= 30
  }

  function SoonToExpire(ps: seq<Product>, dateOf: string -> Option<int>, todayMs: int): (r: seq<Product>)
    ensures forall p :: p in r <==> p in ps && IsSoon(dateOf, todayMs, p)
  {
    Filter(ps, (p: Product) => IsSoon(dateOf, todayMs, p))
  }

  /** `outOfStock`: exactly zero boxes. */
  function OutOfStock(ps: seq<Product>): (r: seq<Product>)
    ensures forall p :: p in r <==> p in ps && p.quantiteBoites == 0
  {
    Filter(ps, (p: Product) => p.quantiteBoites == 0)
  }

  /** The dashboard's "soon to expire" list is the middle list of the
      expirations page, element for element. */
  lemma SoonAgreesWithExpirations(ps: seq<Product>, dateOf: string -> Option<int>, todayMs: int)
    ensures SoonToExpire(ps, dateOf, todayMs) == InBucket(ps, dateOf, todayMs, Soon)
  {
    FilterPointwise(ps, (p: Product) => IsSoon(dateOf, todayMs, p),
      (p: Product) => ProductBucket(dateOf, todayMs, p) == Soon);
  }

  /** Whatever the expirations page calls expired, the dashboard does too. */
  lemma ExpiredPageImpliesDashboard(ps: seq<Product>, dateOf: string -> Option<int>, todayMs: int, p: Product)
    requires p in InBucket(ps, dateOf, todayMs, Expired)
    ensures p in ExpiredProducts(ps, dateOf, todayMs)
  {
  }

  /** The two dashboard lists can overlap: a product that expired one
      millisecond ago is past its date, yet its rounded-up day count is 0. */
  lemma ExpiredAndSoonOverlap(p: Product, dateOf: string -> Option<int>, todayMs: int)
    requires dateOf(p.datePeremption) == Some(todayMs - 1)
    ensures p in ExpiredProducts([p], dateOf, todayMs)
    ensures p in SoonToExpire([p], dateOf, todayMs)
  {
    assert CeilDays(-1) == 0;
  }

  function Categorie(p: Product): string
  {
    p.categorie
  }

  function One(p: Product): int
  {
    1
  }

  /** Every weight 1: the sum is the number of elements. */
  lemma {:induction false} SumOfOnes(ps: seq<Product>)
    ensures SumBy(ps, One) == |ps|
    decreases |ps|
  {
    if ps != [] {
      SumOfOnes(ps[..|ps| - 1]);
    }
  }

  /** `categoryData`: one `{ name, value }` entry per distinct category, in
      order of first occurrence, counting the products of that category;
      the counts add up to the number of products. */
  method CategoryData(products: seq<Product>) returns (data: seq<Group>)
    ensures Names(data) == KeysInOrder(products, Categorie)
    ensures forall k :: 0 <= k < |data| ==> data[k].total == KeyTotal(products, Categorie, One, data[k].name)
    ensures Totals(data) == |products|
  {
    data := GroupSum(products, Categorie, One);
    SumOfOnes(products);
  }

  /** The day key of a sale: `toLocaleDateString('fr-FR', { weekday: 'short' })`
      on its date, given as `dayLabel`. */
  function DayOf(dayLabel: string -> string): Sale -> string
  {
    (s: Sale) => dayLabel(s.date)
  }

  /** `salesByDay`: one `{ name, ventes }` entry per distinct day key, in order
      of first occurrence, with the quantity sold that day; the entries add
      up to the total quantity sold. */
  method SalesByDay(sales: seq<Sale>, dayLabel: string -> string) returns (data: seq<Group>)
    ensures Names(data) == KeysInOrder(sales, DayOf(dayLabel))
    ensures forall k :: 0 <= k < |data| ==> data[k].total == KeyTotal(sales, DayOf(dayLabel), QuantitySold, data[k].name)
    ensures Totals(data) == TotalSold(sales)
  {
    data := GroupSum(sales, DayOf(dayLabel), QuantitySold);
  }

  /** The alert card: `expiredProducts.length > 0 || outOfStock.length > 0`. */
  predicate ShowAlert(ps: seq<Product>, dateOf: string -> Option<int>, todayMs: int)
  {
    |ExpiredProducts(ps, dateOf, todayMs)| > 0 || |OutOfStock(ps)| > 0
  }

  /** The alert shows iff some product is past its date or has no boxes left. */
  lemma ShowAlertMeaning(ps: seq<Product>, dateOf: string -> Option<int>, todayMs: int)
    ensures ShowAlert(ps, dateOf, todayMs) <==>
      exists i :: 0 <= i < |ps| && (IsPastDate(dateOf, todayMs, ps[i]) || ps[i].quantiteBoites == 0)
  {
    var e := ExpiredProducts(ps, dateOf, todayMs);
    var o := OutOfStock(ps);
    if |e| > 0 {
      assert e[0] in e;
    } else if |o| > 0 {
      assert o[0] in o;
    }
    if exists i :: 0 <= i < |ps| && (IsPastDate(dateOf, todayMs, ps[i]) || ps[i].quantiteBoites == 0) {
      var i :| 0 <= i < |ps| && (IsPastDate(dateOf, todayMs, ps[i]) || ps[i].quantiteBoites == 0);
      assert ps[i] in ps;
      if IsPastDate(dateOf, todayMs, ps[i]) {
        assert ps[i] in e;
      } else {
        assert ps[i] in o;
      }
    }
  }
}
