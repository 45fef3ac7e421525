/** ASCII text helpers: case mapping, substring search, and the lexicographic
    order on strings that Python's `sorted` uses for lists of `str`. */
module Text {

  /** ASCII `str.lower()` on one character. */
  function LowerChar(c: char): char
  {
    if 'A' <= c <= 'Z' then (c as int + 32) as char else c
  }

  /** ASCII `str.upper()` on one character. */
  function UpperChar(c: char): char
  {
    if 'a' <= c <= 'z' then (c as int - 32) as char else c
  }

  /** `s.lower()`, restricted to ASCII letters. */
  function Lower(s: string): (r: string)
    ensures |r| == |s|
  {
    seq(|s|, i requires 0 <= i < |s| => LowerChar(s[i]))
  }

  /** `s.upper()`, restricted to ASCII letters. */
  function Upper(s: string): (r: string)
    ensures |r| == |s|
  {
    seq(|s|, i requires 0 <= i < |s| => UpperChar(s[i]))
  }

  /** `sub` occurs in `s` starting at position `i`. */
  predicate OccursAt(s: string, sub: string, i: nat)
  {
    i + |sub| <= |s| && s[i..i + |sub|] == sub
  }

  /** Python's `sub in s` for strings. */
  predicate Contains(s: string, sub: string)
  {
    exists i :: 0 <= i <= |s| && OccursAt(s, sub, i)
  }

  /** Python's `any(term in s for term in terms)`. */
  predicate AnyIn(s: string, terms: seq<string>)
  {
    exists k :: 0 <= k < |terms| && Contains(s, terms[k])
  }

  /** A witness position shows containment. */
  lemma {:induction false} ContainsAt(s: string, sub: string, i: nat)
    requires i + |sub| <= |s| && s[i..i + |sub|] == sub
    ensures Contains(s, sub)
  {
    assert OccursAt(s, sub, i);
  }

  /** A term that has a character `s` lacks is not contained in `s`. */
  lemma {:induction false} NotContainsMissing(s: string, sub: string, c: char)
    requires c in sub && c !in s
    ensures !Contains(s, sub)
  {
  }

  /** No term of a list occurs in `s` when each term has its own character
      that `s` lacks: `missing[k]` is such a character for `terms[k]`. */
  lemma {:induction false} NoneInMissing(s: string, terms: seq<string>, missing: seq<char>)
    requires |missing| == |terms|
    requires forall k :: 0 <= k < |terms| ==> missing[k] in terms[k] && missing[k] !in s
    ensures !AnyIn(s, terms)
  {
    forall k | 0 <= k < |terms| ensures !Contains(s, terms[k]) {
      NotContainsMissing(s, terms[k], missing[k]);
    }
  }

  /** Upper-casing both sides keeps an occurrence: a case-sensitive match is
      also a match of the upper-cased texts. */
  lemma {:induction false} ContainsUpper(s: string, sub: string)
    requires Contains(s, sub)
    ensures Contains(Upper(s), Upper(sub))
  {
    var i :| 0 <= i <= |s| && OccursAt(s, sub, i);
    assert forall k :: 0 <= k < |sub| ==> Upper(s)[i..i + |sub|][k] == Upper(sub)[k] by {
      forall k | 0 <= k < |sub| ensures Upper(s)[i..i + |sub|][k] == Upper(sub)[k] {
        assert s[i + k] == s[i..i + |sub|][k];
      }
    }
    assert OccursAt(Upper(s), Upper(sub), i);
  }

  /** Strict lexicographic order by code point, as Python compares `str`: a
      proper prefix is smaller. */
  predicate Less(a: string, b: string)
  {
    if a == [] then b != []
    else b != [] && (a[0] < b[0] || (a[0] == b[0] && Less(a[1..], b[1..])))
  }

  lemma {:induction false} LessIrreflexive(a: string)
    ensures !Less(a, a)
  {
    if a != [] { LessIrreflexive(a[1..]); }
  }

  lemma {:induction false} LessTransitive(a: string, b: string, c: string)
    requires Less(a, b) && Less(b, c)
    ensures Less(a, c)
  {
    if a != [] && a[0] == b[0] && b[0] == c[0] {
      LessTransitive(a[1..], b[1..], c[1..]);
    }
  }

  lemma {:induction false} LessTotal(a: string, b: string)
    requires a != b
    ensures Less(a, b) || Less(b, a)
  {
    if a != [] && b != [] && a[0] == b[0] {
      assert a == [a[0]] + a[1..] && b == [b[0]] + b[1..];
      LessTotal(a[1..], b[1..]);
    }
  }

  /** Sorted in increasing order with no repeats. */
  predicate StrictlySorted(s: seq<string>)
  {
    forall i, j :: 0 <= i < j < |s| ==> Less(s[i], s[j])
  }

  /** Insert `x` at its place in a strictly sorted list that lacks it. */
  function {:induction false} InsertSorted(s: seq<string>, x: string): (r: seq<string>)
    requires StrictlySorted(s) && x !in s
    ensures StrictlySorted(r)
    ensures |r| == |s| + 1
    ensures forall y :: y in r <==> y in s || y == x
  {
    if s == [] then [x]
    else if Less(x, s[0]) then
      assert forall j :: 0 <= j < |s| ==> Less(x, s[j]) by {
        forall j | 0 < j < |s| ensures Less(x, s[j]) { LessTransitive(x, s[0], s[j]); }
      }
      [x] + s
    else
      LessTotal(x, s[0]);
      var rest := InsertSorted(s[1..], x);
      assert forall y :: y in rest ==> Less(s[0], y);
      [s[0]] + rest
  }

  /** Position of `x` in a list that holds it once: Python's
      `{node: idx for idx, node in enumerate(node_list)}[x]`. */
  function {:induction false} IndexOf(s: seq<string>, x: string): (r: nat)
    requires x in s
    ensures r < |s| && s[r] == x
    ensures forall j :: 0 <= j < r ==> s[j] != x
  {
    if s[0] == x then 0 else 1 + IndexOf(s[1..], x)
  }

  /** Python's `sorted(list(node_set))` for a set of strings: the elements
      in increasing order. The order in which the set is walked is not
      fixed, and the result does not depend on it. */
  method SortedList(nodes: set<string>) returns (r: seq<string>)
    ensures StrictlySorted(r)
    ensures forall x :: x in r <==> x in nodes
  {
    r := [];
    var rest := nodes;
    while rest != {}
      invariant StrictlySorted(r)
      invariant forall x :: x in r <==> x in nodes && x !in rest
      invariant rest <= nodes
      decreases rest
    {
      var x :| x in rest;
      r := InsertSorted(r, x);
      rest := rest - {x};
    }
  }
}
