/** The parts of `extract_paths` that app.py, app_plotly.py and
    visualize_flow_plotly.py share line for line: classifying the records of
    one person, remembering the CDTM record, choosing where the synthetic
    CDTM node goes, and the filter test. The three files differ only in the
    field they give the CDTM node, in whether they filter, and in the person
    attributes they copy; those parts live in the module of each file. */
module FlowPaths {
  import opened Text
  import opened Alumni
  import opened FlowTaxonomy

  /** A record whose `school` is a CDTM school. */
  predicate CdtmRecord(r: Record)
  {
    IsCdtm(Field(r, "school"))
  }

  /** The node of one non-CDTM record: the two classifiers and the schools
      table with 'University' as the fallback institution type. */
  function RecordNode(schools: Schools, r: Record): Node
  {
    var degree := Field(r, "degree");
    var field := Field(r, "field");
    Node(CategorizeDegree(degree, field), CategorizeField(field, degree),
         InstitutionType(schools, Field(r, "school"), "University"), false, Untagged)
  }

  /** `all_entries` after the first pass: one node per non-CDTM record, in
      record order. */
  function Entries(schools: Schools, records: seq<Record>): seq<Node>
  {
    if records == [] then []
    else
      var rest := Entries(schools, records[..|records| - 1]);
      var r := records[|records| - 1];
      if CdtmRecord(r) then rest else rest + [RecordNode(schools, r)]
  }

  /** The index of the last CDTM record, if any. */
  function {:induction false} LastCdtmIndex(records: seq<Record>): (c: Option<nat>)
    ensures c.Some? ==> c.value < |records| && CdtmRecord(records[c.value])
                        && forall j :: c.value < j < |records| ==> !CdtmRecord(records[j])
    ensures c.None? <==> forall j :: 0 <= j < |records| ==> !CdtmRecord(records[j])
  {
    if records == [] then None
    else if CdtmRecord(records[|records| - 1]) then Some(|records| - 1)
    else
      var init := records[..|records| - 1];
      var c := LastCdtmIndex(init);
      assert forall j :: 0 <= j < |init| ==> records[j] == init[j];
      c
  }

  /** `cdtm_entry` after the first pass: the last CDTM record, if any. */
  function LastCdtm(records: seq<Record>): (c: Option<Record>)
    ensures c.Some? <==> LastCdtmIndex(records).Some?
    ensures c.Some? ==> c.value == records[LastCdtmIndex(records).value]
  {
    var k := LastCdtmIndex(records);
    if k.Some? then Some(records[k.value]) else None
  }

  /** One more record: a CDTM record adds nothing, any other record its
      node. */
  lemma {:induction false} EntriesStep(schools: Schools, records: seq<Record>, i: nat)
    requires i < |records|
    ensures Entries(schools, records[..i + 1]) ==
      if CdtmRecord(records[i]) then Entries(schools, records[..i])
      else Entries(schools, records[..i]) + [RecordNode(schools, records[i])]
  {
    assert records[..i + 1][..i] == records[..i];
  }

  /** One more record: a CDTM record becomes the last one seen. */
  lemma {:induction false} LastCdtmStep(records: seq<Record>, i: nat)
    requires i < |records|
    ensures LastCdtm(records[..i + 1]) ==
      if CdtmRecord(records[i]) then Some(records[i]) else LastCdtm(records[..i])
  {
    var s := records[..i + 1];
    assert s[..i] == records[..i] && s[i] == records[i];
    assert forall j :: 0 <= j < i ==> s[j] == records[..i][j];
  }

  /** The first pass over the records: CDTM records overwrite `cdtm_entry`,
      every other record is classified and appended. */
  method CollectEntries(schools: Schools, records: seq<Record>) returns (entries: seq<Node>, cdtmEntry: Option<Record>)
    ensures entries == Entries(schools, records)
    ensures cdtmEntry == LastCdtm(records)
  {
    entries := [];
    cdtmEntry := None;
    for i := 0 to |records|
      invariant entries == Entries(schools, records[..i])
      invariant cdtmEntry == LastCdtm(records[..i])
    {
      var edu := records[i];
      var school := Field(edu, "school");
      var degree := Field(edu, "degree");
      var field := Field(edu, "field");
      EntriesStep(schools, records, i);
      LastCdtmStep(records, i);
      if IsCdtm(school) {
        cdtmEntry := Some(edu);
      } else {
        var degreeLevel := CategorizeDegree(degree, field);
        var fieldCategory := CategorizeField(field, degree);
        var institutionType := InstitutionType(schools, school, "University");
        entries := entries + [Node(degreeLevel, fieldCategory, institutionType, false, Untagged)];
      }
    }
    assert records[..|records|] == records;
  }

  /** The first pass keeps the order of the records: the entries of a
      concatenation are the entries of the parts, one after the other. */
  lemma {:induction false} EntriesAppend(schools: Schools, a: seq<Record>, b: seq<Record>)
    ensures Entries(schools, a + b) == Entries(schools, a) + Entries(schools, b)
  {
    if b == [] {
      assert a + b == a;
    } else {
      assert (a + b)[..|a + b| - 1] == a + b[..|b| - 1];
      EntriesAppend(schools, a, b[..|b| - 1]);
    }
  }

  /** One record alone: a CDTM record gives no entry, any other record the
      node of its classification. */
  lemma {:induction false} EntriesOfRecord(schools: Schools, r: Record)
    ensures Entries(schools, [r]) == if CdtmRecord(r) then [] else [RecordNode(schools, r)]
  {
    assert [r][..0] == [];
  }

  /** Every entry is an ordinary node with one of the five degree levels. */
  lemma {:induction false} EntriesOrdinary(schools: Schools, records: seq<Record>)
    ensures forall i :: 0 <= i < |Entries(schools, records)| ==> !Entries(schools, records)[i].isCdtm
    ensures forall i :: 0 <= i < |Entries(schools, records)| ==>
      Entries(schools, records)[i].degree in {"Bachelor's", "Master's", "Doctorate", "Diploma", "Other"}
  {
    if records != [] {
      var init := records[..|records| - 1];
      EntriesOrdinary(schools, init);
      var r := records[|records| - 1];
      var n := RecordNode(schools, r);
      assert !n.isCdtm && n.degree in {"Bachelor's", "Master's", "Doctorate", "Diploma", "Other"};
      var e, es := Entries(schools, records), Entries(schools, init);
      assert e == if CdtmRecord(r) then es else es + [n];
      forall i | 0 <= i < |e|
        ensures !e[i].isCdtm && e[i].degree in {"Bachelor's", "Master's", "Doctorate", "Diploma", "Other"}
      {
        if i < |es| { assert e[i] == es[i]; } else { assert e[i] == n; }
      }
    }
  }

  /** Every entry is an ordinary node with one of the five degree levels,
      there are no more entries than records, and there are none exactly
      when every record is a CDTM record. */
  lemma {:induction false} EntriesProperties(schools: Schools, records: seq<Record>)
    ensures forall i :: 0 <= i < |Entries(schools, records)| ==> !Entries(schools, records)[i].isCdtm
    ensures forall i :: 0 <= i < |Entries(schools, records)| ==>
      Entries(schools, records)[i].degree in {"Bachelor's", "Master's", "Doctorate", "Diploma", "Other"}
    ensures |Entries(schools, records)| <= |records|
    ensures Entries(schools, records) == [] <==> forall j :: 0 <= j < |records| ==> CdtmRecord(records[j])
  {
    EntriesOrdinary(schools, records);
    EntriesCount(schools, records);
    NonCdtmCountBound(records);
    NonCdtmCountZero(records);
  }

  /** Number of records that are not CDTM records. */
  function NonCdtmCount(records: seq<Record>): nat
  {
    if records == [] then 0
    else NonCdtmCount(records[..|records| - 1]) + (if CdtmRecord(records[|records| - 1]) then 0 else 1)
  }

  /** No record counts exactly when every record is a CDTM record. */
  lemma {:induction false} NonCdtmCountZero(records: seq<Record>)
    ensures NonCdtmCount(records) == 0 <==> forall j :: 0 <= j < |records| ==> CdtmRecord(records[j])
  {
    if records != [] {
      var init := records[..|records| - 1];
      NonCdtmCountZero(init);
      assert forall j :: 0 <= j < |init| ==> records[j] == init[j];
    }
  }

  /** No more records count than there are records. */
  lemma {:induction false} NonCdtmCountBound(records: seq<Record>)
    ensures NonCdtmCount(records) <= |records|
  {
    if records != [] { NonCdtmCountBound(records[..|records| - 1]); }
  }

  /** There is one entry per non-CDTM record. */
  lemma {:induction false} EntriesCount(schools: Schools, records: seq<Record>)
    ensures |Entries(schools, records)| == NonCdtmCount(records)
  {
    if records != [] { EntriesCount(schools, records[..|records| - 1]); }
  }

  /** The loop of app_flow_style.py and visualize_flow_style.py: CDTM records
      are skipped, every other record is classified and appended, and the
      primary field is set once, by the first field other than "Other". */
  method CollectPathNodes(schools: Schools, records: seq<Record>) returns (pathNodes: seq<Node>, primaryField: Option<string>)
    ensures pathNodes == Entries(schools, records)
    ensures primaryField == PrimaryField(pathNodes)
  {
    pathNodes := [];
    primaryField := None;
    for i := 0 to |records|
      invariant pathNodes == Entries(schools, records[..i])
      invariant primaryField == PrimaryField(pathNodes)
    {
      var edu := records[i];
      var school := Field(edu, "school");
      var degree := Field(edu, "degree");
      var field := Field(edu, "field");
      EntriesStep(schools, records, i);
      if IsCdtm(school) {
        continue;
      }
      var degreeLevel := CategorizeDegree(degree, field);
      var fieldCategory := CategorizeField(field, degree);
      var institutionType := InstitutionType(schools, school, "University");
      var node := Node(degreeLevel, fieldCategory, institutionType, false, Untagged);
      PrimaryFieldSnoc(pathNodes, node);
      if primaryField.None? && fieldCategory != "Other" {
        primaryField := Some(fieldCategory);
      }
      pathNodes := pathNodes + [node];
    }
    assert records[..|records|] == records;
  }

  /** Where the CDTM node goes and its `cdtm_level`. */
  datatype Placement = Placement(position: nat, level: string)

  const BachelorOrDiploma: set<string> := {"Bachelor's", "Diploma"}

  /** The placement rule: after the first Bachelor's or Diploma entry, else
      after the first Master's entry, else at 1 when there are several
      entries and at 0 when there is one; none for an empty list. */
  function InsertPlacement(entries: seq<Node>): (p: Option<Placement>)
    ensures p.None? <==> entries == []
    ensures p.Some? ==> p.value.position <= |entries|
    ensures (exists i :: 0 <= i < |entries| && entries[i].degree in BachelorOrDiploma) ==>
      (&& p.Some? && p.value.level == "Bachelor's Level" && 1 <= p.value.position
       && entries[p.value.position - 1].degree in BachelorOrDiploma
       && forall j :: 0 <= j < p.value.position - 1 ==> entries[j].degree !in BachelorOrDiploma)
    ensures (&& (forall j :: 0 <= j < |entries| ==> entries[j].degree !in BachelorOrDiploma)
             && exists i :: 0 <= i < |entries| && entries[i].degree == "Master's") ==>
      (&& p.Some? && p.value.level == "Master's Level" && 1 <= p.value.position
       && entries[p.value.position - 1].degree == "Master's"
       && forall j :: 0 <= j < p.value.position - 1 ==> entries[j].degree != "Master's")
    ensures (&& entries != []
             && forall j :: 0 <= j < |entries| ==> entries[j].degree !in BachelorOrDiploma && entries[j].degree != "Master's") ==>
      p == Some(Placement(if |entries| > 1 then 1 else 0, "Bachelor's Level"))
  {
    match FirstIndexIn(entries, BachelorOrDiploma)
    case Some(i) => Some(Placement(i + 1, "Bachelor's Level"))
    case None =>
      match FirstIndexIn(entries, {"Master's"})
      case Some(i) => Some(Placement(i + 1, "Master's Level"))
      case None => if entries == [] then None else Some(Placement(if |entries| > 1 then 1 else 0, "Bachelor's Level"))
  }

  /** The two `for i, entry in enumerate(all_entries): ... break` searches
      and the fallback that set `insert_position` and `cdtm_level`. */
  method FindInsertPlacement(entries: seq<Node>) returns (p: Option<Placement>)
    ensures p == InsertPlacement(entries)
  {
    p := None;
    for i := 0 to |entries|
      invariant p.None? && forall j :: 0 <= j < i ==> entries[j].degree !in BachelorOrDiploma
    {
      if entries[i].degree in BachelorOrDiploma {
        p := Some(Placement(i + 1, "Bachelor's Level"));
        assert FirstIndexIn(entries, BachelorOrDiploma) == Some(i);
        break;
      }
    }
    if p.None? {
      for i := 0 to |entries|
        invariant p.None? && forall j :: 0 <= j < i ==> entries[j].degree != "Master's"
      {
        if entries[i].degree == "Master's" {
          p := Some(Placement(i + 1, "Master's Level"));
          assert FirstIndexIn(entries, {"Master's"}) == Some(i);
          break;
        }
      }
    }
    if p.None? && |entries| > 0 {
      p := Some(Placement(if |entries| > 1 then 1 else 0, "Bachelor's Level"));
    }
  }

  /** The synthetic node `{'degree': 'CDTM', 'field': field, 'institution':
      'CDTM', 'is_cdtm': True, 'cdtm_level': level}`. */
  function CdtmNode(field: string, level: string): Node
  {
    Node("CDTM", field, "CDTM", true, LevelName(level))
  }

  /** `all_entries` after the CDTM node, with the given field, is inserted
      when a CDTM record was seen and a placement exists. */
  function WithCdtm(entries: seq<Node>, present: bool, field: string): seq<Node>
  {
    match InsertPlacement(entries)
    case Some(p) => if present then InsertAt(entries, p.position, CdtmNode(field, p.level)) else entries
    case None => entries
  }

  /** Inserting the CDTM node into the ordinary entries: removing it gives
      the entries back in order, there is one CDTM node exactly when a CDTM
      record was seen and an entry exists, it sits at the placement, and the
      primary field is unchanged. */
  lemma {:induction false} WithCdtmProperties(entries: seq<Node>, present: bool, field: string)
    requires forall i :: 0 <= i < |entries| ==> !entries[i].isCdtm
    ensures RealNodes(WithCdtm(entries, present, field)) == entries
    ensures CdtmCount(WithCdtm(entries, present, field)) == if present && entries != [] then 1 else 0
    ensures |WithCdtm(entries, present, field)| == |entries| + CdtmCount(WithCdtm(entries, present, field))
    ensures present && entries != [] ==>
      var p := InsertPlacement(entries).value;
      WithCdtm(entries, present, field)[p.position] == CdtmNode(field, p.level)
    ensures forall i :: 0 <= i < |WithCdtm(entries, present, field)| && WithCdtm(entries, present, field)[i].isCdtm ==>
      && present && entries != []
      && i == InsertPlacement(entries).value.position
      && WithCdtm(entries, present, field)[i] == CdtmNode(field, InsertPlacement(entries).value.level)
    ensures PrimaryField(WithCdtm(entries, present, field)) == PrimaryField(entries)
  {
    var nodes := WithCdtm(entries, present, field);
    if present && entries != [] {
      var p := InsertPlacement(entries).value;
      var x := CdtmNode(field, p.level);
      InsertCdtm(entries, p.position, x);
      InsertCdtmAt(entries, p.position, x);
      PrimaryFieldIgnoresCdtm(entries, p.position, x);
    } else {
      RealNodesOfReal(entries);
    }
  }

  /** With a single entry the CDTM node goes after it when it is a
      Bachelor's, Diploma or Master's entry, and before it otherwise. */
  lemma {:induction false} WithCdtmSingle(e: Node, field: string)
    ensures e.degree in BachelorOrDiploma ==> WithCdtm([e], true, field) == [e, CdtmNode(field, "Bachelor's Level")]
    ensures e.degree == "Master's" ==> WithCdtm([e], true, field) == [e, CdtmNode(field, "Master's Level")]
    ensures e.degree !in BachelorOrDiploma && e.degree != "Master's" ==>
      WithCdtm([e], true, field) == [CdtmNode(field, "Bachelor's Level"), e]
  {
    var p := InsertPlacement([e]).value;
    assert InsertAt([e], p.position, CdtmNode(field, p.level)) == [e][..p.position] + [CdtmNode(field, p.level)] + [e][p.position..];
  }

  /** The filter test: an active field filter needs the primary field, as
      found and before any default, to equal it; an active degree filter
      needs some node, the CDTM node included, to have that degree. */
  predicate PassesFilters(nodes: seq<Node>, primary: Option<string>, filters: Filters)
  {
    && (Selects(filters.field) ==> primary == Some(filters.field.value))
    && (Selects(filters.degree) ==> HasDegree(nodes, filters.degree.value))
  }
}
