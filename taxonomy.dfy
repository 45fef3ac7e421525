/** Ordered keyword classification: a table of labelled keyword groups is
    tried from the top, and the first group with a keyword contained in the
    text gives the label. Every classifier in the repository is an instance
    of this scheme with its own table and fallback. */
module Taxonomy {
  import opened Text

  /** One `if any(term in text for term in [...]): return label` line. */
  datatype Group = Group(name: string, terms: seq<string>)

  /** Group `i` is the first group of the table whose terms match `s`. */
  predicate FirstMatchAt(s: string, groups: seq<Group>, i: nat)
  {
    i < |groups| && AnyIn(s, groups[i].terms)
    && forall j :: 0 <= j < i ==> !AnyIn(s, groups[j].terms)
  }

  /** The label of the first matching group, or `fallback` when none matches. */
  function {:induction false} Classify(s: string, groups: seq<Group>, fallback: string): (r: string)
    ensures forall i: nat :: FirstMatchAt(s, groups, i) ==> r == groups[i].name
    ensures (forall j :: 0 <= j < |groups| ==> !AnyIn(s, groups[j].terms)) ==> r == fallback
    ensures r == fallback || exists i :: 0 <= i < |groups| && r == groups[i].name
  {
    if groups == [] then fallback
    else if AnyIn(s, groups[0].terms) then groups[0].name
    else
      var r := Classify(s, groups[1..], fallback);
      assert forall i: nat :: FirstMatchAt(s, groups, i) ==> i > 0 && FirstMatchAt(s, groups[1..], i - 1) by {
        forall i: nat | FirstMatchAt(s, groups, i) ensures i > 0 && FirstMatchAt(s, groups[1..], i - 1) {
          assert i != 0;
          forall j | 0 <= j < i - 1 ensures !AnyIn(s, groups[1..][j].terms) {
            assert groups[1..][j] == groups[j + 1];
          }
        }
      }
      assert r != fallback ==> exists i :: 0 <= i < |groups| && r == groups[i].name by {
        if r != fallback {
          var i :| 0 <= i < |groups| - 1 && r == groups[1..][i].name;
          assert r == groups[i + 1].name;
        }
      }
      r
  }
}
