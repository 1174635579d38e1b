/** The expirations page (src/pages/Expirations.tsx): every product goes
    into one of three lists according to the whole number of days, rounded
    up, between today and its expiry date. Dates are milliseconds since the
    epoch; `dateOf` stands for `new Date(s).getTime()` and returns `None` for
    an invalid date (`NaN`). */
module Expirations {
  import opened Lists
  import opened Domain

  /** `1000 * 60 * 60 * 24`. */
  const DayMs: int := 86400000

  /** `Math.ceil(deltaMs / DayMs)` on whole milliseconds: the least number
      of days covering `deltaMs`. */
  function CeilDays(deltaMs: int): (r: int)
    ensures DayMs * (r - 1) < deltaMs <= DayMs * r
  {
    -((-deltaMs) / DayMs)
  }

  /** `getDaysUntilExpiration(dateStr)`, `None` for `NaN`. */
  function DaysUntil(dateOf: string -> Option<int>, dateStr: string, todayMs: int): Option<int>
  {
    match dateOf(dateStr)
    case None => None
    case Some(ms) => Some(CeilDays(ms - todayMs))
  }

  datatype Bucket = Expired | Soon | Safe

  /** The branch chain of the loop body. A `NaN` day count fails both
      comparisons and so lands in the safe list. */
  function BucketOf(days: Option<int>): Bucket
  {
    if days.Some? && days.value < 0 then Expired
    else if days.Some? && days.value <= 30 then Soon
    else Safe
  }

  function ProductBucket(dateOf: string -> Option<int>, todayMs: int, p: Product): Bucket
  {
    BucketOf(DaysUntil(dateOf, p.datePeremption, todayMs))
  }

  /** The products of list `b`, in the order of `ps`. */
  function InBucket(ps: seq<Product>, dateOf: string -> Option<int>, todayMs: int, b: Bucket): (r: seq<Product>)
    ensures forall p :: p in r <==> p in ps && ProductBucket(dateOf, todayMs, p) == b
  {
    Filter(ps, (p: Product) => ProductBucket(dateOf, todayMs, p) == b)
  }

  /** The `forEach` loop: each product is pushed onto exactly one list. */
  method Classify(products: seq<Product>, dateOf: string -> Option<int>, todayMs: int)
    returns (expired: seq<Product>, soonToExpire: seq<Product>, safe: seq<Product>)
    ensures expired == InBucket(products, dateOf, todayMs, Expired)
    ensures soonToExpire == InBucket(products, dateOf, todayMs, Soon)
    ensures safe == InBucket(products, dateOf, todayMs, Safe)
  {
    expired, soonToExpire, safe := [], [], [];
    var i := 0;
    while i < |products|
      invariant 0 <= i <= |products|
      invariant expired == InBucket(products[..i], dateOf, todayMs, Expired)
      invariant soonToExpire == InBucket(products[..i], dateOf, todayMs, Soon)
      invariant safe == InBucket(products[..i], dateOf, todayMs, Safe)
    {
      var product := products[i];
      assert products[..i + 1][..i] == products[..i];
      var diffDays := DaysUntil(dateOf, product.datePeremption, todayMs);
      if diffDays.Some? && diffDays.value < 0 {
        expired := expired + [product];
      } else if diffDays.Some? && diffDays.value <= 30 {
        soonToExpire := soonToExpire + [product];
      } else {
        safe := safe + [product];
      }
      i := i + 1;
    }
    assert products[..i] == products;
  }

  /** A product is expired iff its day count is negative, soon to expire iff
      it is between 0 and 30, and safe iff it is above 30 or not a number. */
  lemma BucketMeaning(dateOf: string -> Option<int>, todayMs: int, p: Product)
    ensures var d := DaysUntil(dateOf, p.datePeremption, todayMs);
      (ProductBucket(dateOf, todayMs, p) == Expired <==> d.Some? && d.value < 0) &&
      (ProductBucket(dateOf, todayMs, p) == Soon <==> d.Some? && 0 <= d.value <= 30) &&
      (ProductBucket(dateOf, todayMs, p) == Safe <==> d.None? || d.value > 30)
  {
  }

  /** The three lists have sizes adding up to the number of products, so
      every product is in exactly one of them. */
  lemma {:induction false} BucketSizes(ps: seq<Product>, dateOf: string -> Option<int>, todayMs: int)
    ensures |InBucket(ps, dateOf, todayMs, Expired)| + |InBucket(ps, dateOf, todayMs, Soon)|
      + |InBucket(ps, dateOf, todayMs, Safe)| == |ps|
    decreases |ps|
  {
    if ps != [] {
      BucketSizes(ps[..|ps| - 1], dateOf, todayMs);
    }
  }

  /** The days shown next to a product agree with the list it is in. */
  lemma DaysShownAgree(ps: seq<Product>, dateOf: string -> Option<int>, todayMs: int, p: Product)
    ensures p in InBucket(ps, dateOf, todayMs, Expired) ==>
      DaysUntil(dateOf, p.datePeremption, todayMs).Some? && DaysUntil(dateOf, p.datePeremption, todayMs).value < 0
    ensures p in InBucket(ps, dateOf, todayMs, Soon) ==>
      DaysUntil(dateOf, p.datePeremption, todayMs).Some? && 0 <= DaysUntil(dateOf, p.datePeremption, todayMs).value <= 30
    ensures p in InBucket(ps, dateOf, todayMs, Safe) ==>
      DaysUntil(dateOf, p.datePeremption, todayMs).None? || DaysUntil(dateOf, p.datePeremption, todayMs).value > 30
  {
  }

  /** The lists are memoised on the products alone, so they keep the `today`
      of the render that computed them, while the days shown next to each
      product use the current render's `today`. Two days after the lists were
      computed, a product listed as expiring soon is shown one day past its
      date. */
  lemma StaleMemoDisagrees(p: Product, dateOf: string -> Option<int>, memoMs: int)
    requires dateOf(p.datePeremption) == Some(memoMs + 1)
    ensures ProductBucket(dateOf, memoMs, p) == Soon
    ensures DaysUntil(dateOf, p.datePeremption, memoMs + 2 * DayMs) == Some(-1)
  {
    assert CeilDays(1) == 1;
    assert CeilDays(1 - 2 * DayMs) == -1;
  }

  /** A product counts as expired only once a whole day has passed since its
      expiry instant: the rounded-up day count is negative exactly when the
      expiry is at least `DayMs` milliseconds in the past. */
  lemma ExpiredMeansADayPast(expMs: int, todayMs: int)
    ensures CeilDays(expMs - todayMs) < 0 <==> expMs - todayMs <= -DayMs
  {
  }
}
