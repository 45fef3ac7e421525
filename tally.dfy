/** Python's `Counter` / `defaultdict(int)` used only through `c[k] += 1`:
    a map from keys to counts that remembers the order in which keys were
    first added (dictionary insertion order). */
module Tally {

  datatype Tally<K> = Tally(keys: seq<K>, counts: map<K, nat>)

  function Empty<K>(): Tally<K>
  {
    Tally([], map[])
  }

  /** `c[k]`: absent keys read as 0. */
  function Count<K>(t: Tally<K>, k: K): nat
  {
    if k in t.counts then t.counts[k] else 0
  }

  /** `c[k] += 1`. */
  function Add<K>(t: Tally<K>, k: K): Tally<K>
  {
    if k in t.counts then Tally(t.keys, t.counts[k := t.counts[k] + 1])
    else Tally(t.keys + [k], t.counts[k := 1])
  }

  /** The counter after `c[x] += 1` for every `x` of `xs`, in order. */
  function Of<K>(xs: seq<K>): Tally<K>
  {
    if xs == [] then Empty() else Add(Of(xs[..|xs| - 1]), xs[|xs| - 1])
  }

  /** Number of times `k` occurs in `xs`. */
  function Occurrences<K(==)>(xs: seq<K>, k: K): nat
  {
    if xs == [] then 0
    else Occurrences(xs[..|xs| - 1], k) + (if xs[|xs| - 1] == k then 1 else 0)
  }

  /** The distinct elements of `xs` in order of first occurrence. */
  function Dedup<K(==)>(xs: seq<K>): seq<K>
  {
    if xs == [] then []
    else
      var d := Dedup(xs[..|xs| - 1]);
      if xs[|xs| - 1] in d then d else d + [xs[|xs| - 1]]
  }

  /** Sum of the counts of `keys`. */
  function SumCounts<K>(keys: seq<K>, t: Tally<K>): nat
  {
    if keys == [] then 0 else SumCounts(keys[..|keys| - 1], t) + Count(t, keys[|keys| - 1])
  }

  /** Sum of all counts: what `sum(c.values())` gives. */
  function Total<K>(t: Tally<K>): nat
  {
    SumCounts(t.keys, t)
  }

  predicate Distinct<K(==)>(xs: seq<K>)
  {
    forall i, j :: 0 <= i < j < |xs| ==> xs[i] != xs[j]
  }

  /** Keys are held once each, exactly the keys with a count, and every
      count is positive. */
  ghost predicate Valid<K(!new)>(t: Tally<K>)
  {
    && Distinct(t.keys)
    && (forall k :: k in t.keys <==> k in t.counts)
    && (forall k :: k in t.counts ==> t.counts[k] >= 1)
  }

  lemma {:induction false} SumCountsOther<K>(keys: seq<K>, t: Tally<K>, u: Tally<K>, k: K)
    requires k !in keys
    requires forall x :: x != k ==> Count(t, x) == Count(u, x)
    ensures SumCounts(keys, t) == SumCounts(keys, u)
  {
    if keys != [] { SumCountsOther(keys[..|keys| - 1], t, u, k); }
  }

  lemma {:induction false} SumCountsBump<K>(keys: seq<K>, t: Tally<K>, u: Tally<K>, k: K)
    requires Distinct(keys) && k in keys
    requires Count(u, k) == Count(t, k) + 1
    requires forall x :: x != k ==> Count(t, x) == Count(u, x)
    ensures SumCounts(keys, u) == SumCounts(keys, t) + 1
  {
    var init := keys[..|keys| - 1];
    if keys[|keys| - 1] == k {
      assert k !in init;
      SumCountsOther(init, t, u, k);
    } else {
      assert k in init;
      SumCountsBump(init, t, u, k);
    }
  }

  lemma {:induction false} AddExisting<K(!new)>(t: Tally<K>, k: K)
    requires Valid(t) && k in t.counts
    ensures Valid(Add(t, k)) && Add(t, k).keys == t.keys
    ensures Total(Add(t, k)) == Total(t) + 1
  {
    var u := Add(t, k);
    assert u == Tally(t.keys, t.counts[k := t.counts[k] + 1]);
    SumCountsBump(t.keys, t, u, k);
  }

  lemma {:induction false} DistinctSnoc<K>(xs: seq<K>, x: K)
    requires Distinct(xs) && x !in xs
    ensures Distinct(xs + [x])
  {
    var ys := xs + [x];
    forall i, j | 0 <= i < j < |ys| ensures ys[i] != ys[j] {
      assert ys[i] == xs[i];
      if j < |xs| { assert ys[j] == xs[j]; }
    }
  }

  lemma {:induction false} AddNew<K(!new)>(t: Tally<K>, k: K)
    requires Valid(t) && k !in t.counts
    ensures Valid(Add(t, k)) && Add(t, k).keys == t.keys + [k]
    ensures Total(Add(t, k)) == Total(t) + 1
  {
    var u := Add(t, k);
    assert u.keys == t.keys + [k] && u.counts == t.counts[k := 1];
    DistinctSnoc(t.keys, k);
    SumCountsOther(t.keys, t, u, k);
    assert u.keys[..|u.keys| - 1] == t.keys;
  }

  /** One `c[k] += 1` keeps the counter well formed, bumps `k` alone and
      raises the total by one. */
  lemma {:induction false} AddProperties<K(!new)>(t: Tally<K>, k: K)
    requires Valid(t)
    ensures Valid(Add(t, k))
    ensures Count(Add(t, k), k) == Count(t, k) + 1
    ensures forall x :: x != k ==> Count(Add(t, k), x) == Count(t, x)
    ensures Add(t, k).keys == if k in t.keys then t.keys else t.keys + [k]
    ensures Total(Add(t, k)) == Total(t) + 1
  {
    if k in t.counts { AddExisting(t, k); } else { AddNew(t, k); }
  }

  /** Counting a list: the counter built from `xs` is well formed, its keys
      are the distinct elements of `xs` in first-seen order, each count is
      the number of occurrences, and the total is the length of `xs`. */
  lemma {:induction false} OfProperties<K(!new)>(xs: seq<K>)
    ensures Valid(Of(xs))
    ensures Of(xs).keys == Dedup(xs)
    ensures forall k :: Count(Of(xs), k) == Occurrences(xs, k)
    ensures Total(Of(xs)) == |xs|
  {
    if xs != [] {
      var init := xs[..|xs| - 1];
      OfProperties(init);
      AddProperties(Of(init), xs[|xs| - 1]);
    }
  }

  /** `Of` over a list extended by one element is one more `Add`. */
  lemma {:induction false} OfSnoc<K>(xs: seq<K>, x: K)
    ensures Of(xs + [x]) == Add(Of(xs), x)
  {
    assert (xs + [x])[..|xs|] == xs;
  }

  /** Every distinct element occurs at least once, and the elements of `xs`
      are exactly those of `Dedup(xs)`. */
  lemma {:induction false} DedupProperties<K>(xs: seq<K>)
    ensures Distinct(Dedup(xs))
    ensures forall k :: k in Dedup(xs) <==> k in xs
    ensures forall k :: k in Dedup(xs) ==> Occurrences(xs, k) >= 1
  {
    if xs != [] {
      var init := xs[..|xs| - 1];
      DedupProperties(init);
      assert xs == init + [xs[|xs| - 1]];
    }
  }
}
