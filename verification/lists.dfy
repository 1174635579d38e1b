/** Generic list operations shared by the stores and the pages: the JavaScript
    array methods `filter`, `find`/`findIndex`, `reduce` (as a sum), `sort` and
    the accumulate-into-array `reduce` used to group items by key. */
module Lists {

  datatype Option<T> = None | Some(value: T) {
    function GetOr(default: T): T {
      match this
      case Some(v) => v
      case None => default
    }
  }

  /** `s.filter(f)`: the elements satisfying `f`, in their original order.
      Defined from the end so that growing a prefix by one element unfolds it. */
  function Filter<T(!new)>(s: seq<T>, f: T -> bool): (r: seq<T>)
    ensures |r| <= |s|
    ensures forall x {:trigger x in r} :: x in r <==> x in s && f(x)
  {
    if s == [] then []
    else Filter(s[..|s| - 1], f) + (if f(s[|s| - 1]) then [s[|s| - 1]] else [])
  }

  /** Filtering a concatenation filters each part: the order of the input is kept. */
  lemma {:induction false} FilterAppend<T(!new)>(a: seq<T>, b: seq<T>, f: T -> bool)
    ensures Filter(a + b, f) == Filter(a, f) + Filter(b, f)
    decreases |b|
  {
    if b == [] {
      assert a + b == a;
    } else {
      var b' := b[..|b| - 1];
      assert (a + b)[..|a + b| - 1] == a + b';
      assert (a + b)[|a + b| - 1] == b[|b| - 1];
      FilterAppend(a, b', f);
    }
  }

  /** A filter that keeps every element returns its input unchanged. */
  lemma {:induction false} FilterKeepsAll<T(!new)>(s: seq<T>, f: T -> bool)
    requires forall i :: 0 <= i < |s| ==> f(s[i])
    ensures Filter(s, f) == s
    decreases |s|
  {
    if s != [] {
      FilterKeepsAll(s[..|s| - 1], f);
      assert s[..|s| - 1] + [s[|s| - 1]] == s;
    }
  }

  /** Filters that agree on every element of `s` keep the same elements. */
  lemma {:induction false} FilterPointwise<T(!new)>(s: seq<T>, f: T -> bool, g: T -> bool)
    requires forall i :: 0 <= i < |s| ==> f(s[i]) == g(s[i])
    ensures Filter(s, f) == Filter(s, g)
    decreases |s|
  {
    if s != [] {
      FilterPointwise(s[..|s| - 1], f, g);
    }
  }

  /** `s.findIndex(f)`, with -1 as None: the first index whose element satisfies `f`. */
  function FindIndex<T>(s: seq<T>, f: T -> bool): (r: Option<nat>)
    ensures r.None? <==> forall j :: 0 <= j < |s| ==> !f(s[j])
    ensures r.Some? ==> r.value < |s| && f(s[r.value])
    ensures r.Some? ==> forall j :: 0 <= j < r.value ==> !f(s[j])
    decreases |s|
  {
    if s == [] then None
    else if f(s[0]) then Some(0)
    else
      match FindIndex(s[1..], f)
      case None => None
      case Some(k) => Some(k + 1)
  }

  /** `findIndex` only looks at the truth values of its predicate, position by position. */
  lemma {:induction false} FindIndexPointwise<T, U>(a: seq<T>, f: T -> bool, b: seq<U>, g: U -> bool)
    requires |a| == |b| && forall i :: 0 <= i < |a| ==> f(a[i]) == g(b[i])
    ensures FindIndex(a, f) == FindIndex(b, g)
    decreases |a|
  {
    if a != [] && !f(a[0]) {
      FindIndexPointwise(a[1..], f, b[1..], g);
    }
  }

  /** `s.reduce((acc, x) => acc + w(x), 0)`. */
  function SumBy<T>(s: seq<T>, w: T -> int): int
  {
    if s == [] then 0 else SumBy(s[..|s| - 1], w) + w(s[|s| - 1])
  }

  lemma {:induction false} SumByAppend<T>(a: seq<T>, b: seq<T>, w: T -> int)
    ensures SumBy(a + b, w) == SumBy(a, w) + SumBy(b, w)
    decreases |b|
  {
    if b == [] {
      assert a + b == a;
    } else {
      var b' := b[..|b| - 1];
      assert (a + b)[..|a + b| - 1] == a + b';
      assert (a + b)[|a + b| - 1] == b[|b| - 1];
      SumByAppend(a, b', w);
    }
  }

  /** Taking out the element at `k` takes its weight out of the sum. */
  lemma SumByRemove<T>(b: seq<T>, k: nat, w: T -> int)
    requires k < |b|
    ensures SumBy(b, w) == SumBy(b[..k] + b[k + 1..], w) + w(b[k])
  {
    assert b[..k + 1] + b[k + 1..] == b;
    SumByAppend(b[..k + 1], b[k + 1..], w);
    assert b[..k + 1][..k] == b[..k];
    SumByAppend(b[..k], b[k + 1..], w);
  }

  /** Taking out the element at `k` takes one copy of it out of the multiset. */
  lemma MultisetRemove<T>(b: seq<T>, k: nat)
    requires k < |b|
    ensures multiset(b[..k] + b[k + 1..]) == multiset(b) - multiset{b[k]}
  {
    assert b == b[..k] + [b[k]] + b[k + 1..];
    assert multiset(b) == multiset(b[..k]) + multiset{b[k]} + multiset(b[k + 1..]);
  }

  /** A sum does not depend on the order of its terms. */
  lemma {:induction false} SumByPermutation<T>(a: seq<T>, b: seq<T>, w: T -> int)
    requires multiset(a) == multiset(b)
    ensures SumBy(a, w) == SumBy(b, w)
    decreases |a|
  {
    if a != [] {
      var x := a[|a| - 1];
      var a' := a[..|a| - 1];
      assert a == a' + [x];
      assert multiset(a') == multiset(a) - multiset{x};
      assert x in multiset(b);
      var k :| 0 <= k < |b| && b[k] == x;
      MultisetRemove(b, k);
      SumByPermutation(a', b[..k] + b[k + 1..], w);
      SumByRemove(b, k, w);
    }
  }

  /** Descending order of `key`, as produced by
      `sort((a, b) => key(b) - key(a))`. */
  ghost predicate SortedDesc<T>(s: seq<T>, key: T -> int)
  {
    forall i, j :: 0 <= i < j < |s| ==> key(s[i]) >= key(s[j])
  }

  lemma InsertKeepsSorted<T>(s: seq<T>, x: T, key: T -> int, p: nat)
    requires SortedDesc(s, key) && p <= |s|
    requires forall j :: 0 <= j < p ==> key(s[j]) >= key(x)
    requires p < |s| ==> key(s[p]) < key(x)
    ensures SortedDesc(s[..p] + [x] + s[p..], key)
  {
    var r := s[..p] + [x] + s[p..];
    forall i, j | 0 <= i < j < |r| ensures key(r[i]) >= key(r[j]) {
      var ki := if i < p then key(s[i]) else if i == p then key(x) else key(s[i - 1]);
      var kj := if j < p then key(s[j]) else if j == p then key(x) else key(s[j - 1]);
      assert key(r[i]) == ki;
      assert key(r[j]) == kj;
      if j > p {
        assert key(s[p]) >= key(s[j - 1]);
      }
    }
  }

  /** Inserts `x` into a list sorted by descending `key`, after every element
      whose key is at least `key(x)` (so equal keys keep their arrival order). */
  method InsertDesc<T>(s: seq<T>, x: T, key: T -> int) returns (r: seq<T>)
    requires SortedDesc(s, key)
    ensures SortedDesc(r, key)
    ensures multiset(r) == multiset(s) + multiset{x}
  {
    var p := 0;
    while p < |s| && key(s[p]) >= key(x)
      invariant 0 <= p <= |s|
      invariant forall j :: 0 <= j < p ==> key(s[j]) >= key(x)
    {
      p := p + 1;
    }
    InsertKeepsSorted(s, x, key, p);
    r := s[..p] + [x] + s[p..];
    assert s == s[..p] + s[p..];
  }

  /** `[...s].sort((a, b) => key(b) - key(a))`: a permutation of `s` in
      descending order of `key`. */
  method SortDesc<T>(s: seq<T>, key: T -> int) returns (r: seq<T>)
    ensures SortedDesc(r, key)
    ensures multiset(r) == multiset(s)
  {
    r := [];
    var i := 0;
    while i < |s|
      invariant 0 <= i <= |s|
      invariant SortedDesc(r, key)
      invariant multiset(r) == multiset(s[..i])
    {
      r := InsertDesc(r, s[i], key);
      assert s[..i + 1] == s[..i] + [s[i]];
      i := i + 1;
    }
    assert s[..i] == s;
  }

  /** The first `n` elements of a list sorted by descending `key` are its
      `n` largest: nothing after them has a larger key. */
  lemma SortedPrefixIsTop<T>(t: seq<T>, n: nat, key: T -> int)
    requires SortedDesc(t, key) && n <= |t|
    ensures multiset(t[..n]) <= multiset(t)
    ensures forall x :: x in multiset(t) - multiset(t[..n]) ==>
      forall i :: 0 <= i < n ==> key(x) <= key(t[i])
  {
    assert t == t[..n] + t[n..];
    assert multiset(t) - multiset(t[..n]) == multiset(t[n..]);
    forall x | x in multiset(t) - multiset(t[..n])
      ensures forall i :: 0 <= i < n ==> key(x) <= key(t[i])
    {
      assert x in t[n..];
      var k :| n <= k < |t| && t[k] == x;
    }
  }

  /** One accumulator entry of a group-by `reduce`: `{ name, total }`. */
  datatype Group = Group(name: string, total: int)

  function Names(gs: seq<Group>): (r: seq<string>)
    ensures |r| == |gs|
    ensures forall k :: 0 <= k < |gs| ==> r[k] == gs[k].name
  {
    if gs == [] then [] else Names(gs[..|gs| - 1]) + [gs[|gs| - 1].name]
  }

  function Totals(gs: seq<Group>): int
  {
    if gs == [] then 0 else Totals(gs[..|gs| - 1]) + gs[|gs| - 1].total
  }

  /** The distinct keys of `s`, in order of first occurrence. */
  function KeysInOrder<T>(s: seq<T>, key: T -> string): seq<string>
  {
    if s == [] then []
    else
      var ks := KeysInOrder(s[..|s| - 1], key);
      if key(s[|s| - 1]) in ks then ks else ks + [key(s[|s| - 1])]
  }

  /** Sum of `w` over the elements of `s` whose key is `k`. */
  function KeyTotal<T>(s: seq<T>, key: T -> string, w: T -> int, k: string): int
  {
    if s == [] then 0
    else KeyTotal(s[..|s| - 1], key, w, k) + (if key(s[|s| - 1]) == k then w(s[|s| - 1]) else 0)
  }

  lemma {:induction false} KeysInOrderMembers<T>(s: seq<T>, key: T -> string)
    ensures forall k :: k in KeysInOrder(s, key) <==> exists i :: 0 <= i < |s| && key(s[i]) == k
    decreases |s|
  {
    if s != [] {
      var s' := s[..|s| - 1];
      KeysInOrderMembers(s', key);
      forall k ensures (exists i :: 0 <= i < |s| && key(s[i]) == k) ==> k in KeysInOrder(s, key) {
        if i :| 0 <= i < |s| && key(s[i]) == k {
          if i < |s| - 1 {
            assert s'[i] == s[i];
          }
        }
      }
      forall k | k in KeysInOrder(s, key) ensures exists i :: 0 <= i < |s| && key(s[i]) == k {
        if k in KeysInOrder(s', key) {
          var i :| 0 <= i < |s'| && key(s'[i]) == k;
          assert s[i] == s'[i];
        } else {
          assert key(s[|s| - 1]) == k;
        }
      }
    }
  }

  lemma {:induction false} KeysInOrderDistinct<T>(s: seq<T>, key: T -> string)
    ensures forall i, j :: 0 <= i < j < |KeysInOrder(s, key)| ==> KeysInOrder(s, key)[i] != KeysInOrder(s, key)[j]
    decreases |s|
  {
    if s != [] {
      KeysInOrderDistinct(s[..|s| - 1], key);
    }
  }

  lemma {:induction false} KeyTotalAbsent<T>(s: seq<T>, key: T -> string, w: T -> int, k: string)
    requires forall i :: 0 <= i < |s| ==> key(s[i]) != k
    ensures KeyTotal(s, key, w, k) == 0
    decreases |s|
  {
    if s != [] {
      KeyTotalAbsent(s[..|s| - 1], key, w, k);
    }
  }

  lemma {:induction false} TotalsUpdate(gs: seq<Group>, j: nat, d: int)
    requires j < |gs|
    ensures Totals(gs[j := gs[j].(total := gs[j].total + d)]) == Totals(gs) + d
    decreases |gs|
  {
    var gs2 := gs[j := gs[j].(total := gs[j].total + d)];
    if j < |gs| - 1 {
      assert gs2[..|gs2| - 1] == gs[..|gs| - 1][j := gs[j].(total := gs[j].total + d)];
      TotalsUpdate(gs[..|gs| - 1], j, d);
    } else {
      assert gs2[..|gs2| - 1] == gs[..|gs| - 1];
    }
  }

  lemma SnocPrefix<T>(s: seq<T>, x: T)
    ensures (s + [x])[..|s|] == s && (s + [x])[|s|] == x
  {
  }

  lemma KeysInOrderSnoc<T>(s: seq<T>, x: T, key: T -> string)
    ensures KeysInOrder(s + [x], key)
         == if key(x) in KeysInOrder(s, key) then KeysInOrder(s, key) else KeysInOrder(s, key) + [key(x)]
  {
    SnocPrefix(s, x);
  }

  lemma KeyTotalSnoc<T>(s: seq<T>, x: T, key: T -> string, w: T -> int, k: string)
    ensures KeyTotal(s + [x], key, w, k) == KeyTotal(s, key, w, k) + (if key(x) == k then w(x) else 0)
  {
    SnocPrefix(s, x);
  }

  lemma SumBySnoc<T>(s: seq<T>, x: T, w: T -> int)
    ensures SumBy(s + [x], w) == SumBy(s, w) + w(x)
  {
    SnocPrefix(s, x);
  }

  /** Changing a total keeps the names. */
  lemma NamesUpdateTotal(gs: seq<Group>, j: nat, t: int)
    requires j < |gs|
    ensures Names(gs[j := gs[j].(total := t)]) == Names(gs)
  {
    var g2 := gs[j := gs[j].(total := t)];
    assert forall k :: 0 <= k < |g2| ==> Names(g2)[k] == Names(gs)[k];
  }

  /** What the group-by accumulator holds after the items `s`: one entry per
      distinct key, in first-occurrence order, each with its key's total. */
  ghost predicate GroupsOf<T>(groups: seq<Group>, s: seq<T>, key: T -> string, w: T -> int)
  {
    && Names(groups) == KeysInOrder(s, key)
    && (forall k :: 0 <= k < |groups| ==> groups[k].total == KeyTotal(s, key, w, groups[k].name))
    && Totals(groups) == SumBy(s, w)
  }

  lemma GroupStepExisting<T>(groups: seq<Group>, s: seq<T>, x: T, key: T -> string, w: T -> int, j: nat)
    requires GroupsOf(groups, s, key, w)
    requires j < |groups| && groups[j].name == key(x)
    ensures GroupsOf(groups[j := groups[j].(total := groups[j].total + w(x))], s + [x], key, w)
  {
    var g2 := groups[j := groups[j].(total := groups[j].total + w(x))];
    assert key(x) in KeysInOrder(s, key) by {
      assert Names(groups)[j] == key(x);
    }
    KeysInOrderSnoc(s, x, key);
    NamesUpdateTotal(groups, j, groups[j].total + w(x));
    SumBySnoc(s, x, w);
    TotalsUpdate(groups, j, w(x));
    KeysInOrderDistinct(s, key);
    forall k | 0 <= k < |g2| ensures g2[k].total == KeyTotal(s + [x], key, w, g2[k].name) {
      KeyTotalSnoc(s, x, key, w, g2[k].name);
      if k != j {
        assert Names(groups)[k] != Names(groups)[j];
      }
    }
  }

  lemma GroupStepNew<T>(groups: seq<Group>, s: seq<T>, x: T, key: T -> string, w: T -> int)
    requires GroupsOf(groups, s, key, w)
    requires forall k :: 0 <= k < |groups| ==> groups[k].name != key(x)
    ensures GroupsOf(groups + [Group(key(x), w(x))], s + [x], key, w)
  {
    var g2 := groups + [Group(key(x), w(x))];
    assert key(x) !in KeysInOrder(s, key) by {
      assert forall k :: 0 <= k < |groups| ==> Names(groups)[k] != key(x);
    }
    KeysInOrderSnoc(s, x, key);
    SumBySnoc(s, x, w);
    assert g2[..|g2| - 1] == groups;
    KeysInOrderMembers(s, key);
    KeyTotalAbsent(s, key, w, key(x));
    KeyTotalSnoc(s, x, key, w, key(x));
    forall k | 0 <= k < |groups| ensures g2[k].total == KeyTotal(s + [x], key, w, g2[k].name) {
      assert g2[k] == groups[k];
      KeyTotalSnoc(s, x, key, w, groups[k].name);
    }
  }

  /** One step of the group-by `reduce`: add the item's weight to the entry
      named by its key, or push a new entry when there is none. */
  method AddToGroups<T>(groups: seq<Group>, ghost s: seq<T>, x: T, key: T -> string, w: T -> int)
    returns (next: seq<Group>)
    requires GroupsOf(groups, s, key, w)
    ensures GroupsOf(next, s + [x], key, w)
  {
    var found := FindIndex(groups, (g: Group) => g.name == key(x));
    if found.Some? {
      var j := found.value;
      GroupStepExisting(groups, s, x, key, w, j);
      next := groups[j := groups[j].(total := groups[j].total + w(x))];
    } else {
      GroupStepNew(groups, s, x, key, w);
      next := groups + [Group(key(x), w(x))];
    }
  }

  /** The group-by `reduce` of the dashboard: for each item, look up the entry
      whose name is the item's key; add the item's weight to it, or push a new
      entry `{ name: key, total: weight }` when there is none. */
  method GroupSum<T>(items: seq<T>, key: T -> string, w: T -> int) returns (groups: seq<Group>)
    ensures Names(groups) == KeysInOrder(items, key)
    ensures forall k :: 0 <= k < |groups| ==> groups[k].total == KeyTotal(items, key, w, groups[k].name)
    ensures Totals(groups) == SumBy(items, w)
  {
    groups := [];
    var i := 0;
    while i < |items|
      invariant 0 <= i <= |items|
      invariant GroupsOf(groups, items[..i], key, w)
    {
      assert items[..i + 1] == items[..i] + [items[i]];
      groups := AddToGroups(groups, items[..i], items[i], key, w);
      i := i + 1;
    }
    assert items[..i] == items;
  }
}
