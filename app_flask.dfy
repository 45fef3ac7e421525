/** app_flask.py: the Flask front end's path builder. Its records use the
    keys `institution`, `degree_name` and `field_of_study`; it detects CDTM
    case-insensitively, remembers the index of the last CDTM record, filters
    individual entries rather than people, and clamps the insertion index. */
module AppFlask {
  import opened Text
  import opened Taxonomy
  import opened Alumni
  import FlowTaxonomy
  import FlowPaths

  const EngineeringTerms: seq<string> :=
    ["engineering", "computer science", "informatics", "technology", "cs", "electrical", "mechanical"]
  const BusinessTerms: seq<string> := ["business", "management", "economics", "mba", "finance", "marketing"]
  const ScienceTerms: seq<string> := ["science", "physics", "chemistry", "biology", "mathematics", "math"]

  const FieldGroups: seq<Group> := [
    Group("Engineering/Tech", EngineeringTerms), Group("Business", BusinessTerms),
    Group("Sciences", ScienceTerms)]

  /** `categorize_field(field)`: a single argument, so no 'mba' rule for an
      empty field. */
  function CategorizeField(field: string): (r: string)
    ensures r in {"Engineering/Tech", "Business", "Sciences", "Other"}
    ensures field == "" ==> r == "Other"
    ensures field != "" ==> (r ==
      var f := Lower(field);
      if AnyIn(f, EngineeringTerms) then "Engineering/Tech"
      else if AnyIn(f, BusinessTerms) then "Business"
      else if AnyIn(f, ScienceTerms) then "Sciences"
      else "Other")
  {
    if field == "" then "Other"
    else
      var f := Lower(field);
      var r := Classify(f, FieldGroups, "Other");
      assert FirstMatchAt(f, FieldGroups, 0) <==> AnyIn(f, EngineeringTerms);
      assert FirstMatchAt(f, FieldGroups, 1) <==> !AnyIn(f, EngineeringTerms) && AnyIn(f, BusinessTerms);
      assert FirstMatchAt(f, FieldGroups, 2) <==>
        (!AnyIn(f, EngineeringTerms) && !AnyIn(f, BusinessTerms) && AnyIn(f, ScienceTerms));
      r
  }

  /** The Engineering keyword 'cs' is checked first and occurs inside
      "physics", "economics" and "mathematics". */
  lemma {:induction false} CsQuirk()
    ensures CategorizeField("Physics") == "Engineering/Tech"
    ensures CategorizeField("Economics") == "Engineering/Tech"
    ensures CategorizeField("Mathematics") == "Engineering/Tech"
  {
    assert EngineeringTerms[4] == "cs";
    assert Lower("Physics")[5..7] == "cs";
    ContainsAt(Lower("Physics"), "cs", 5);
    assert Lower("Economics")[7..9] == "cs";
    ContainsAt(Lower("Economics"), "cs", 7);
    assert Lower("Mathematics")[9..11] == "cs";
    ContainsAt(Lower("Mathematics"), "cs", 9);
  }

  /** `'CDTM' in institution.upper() or 'CENTER FOR DIGITAL TECHNOLOGY' in
      institution.upper()`. */
  predicate IsCdtmInstitution(institution: string)
  {
    Contains(Upper(institution), "CDTM") || Contains(Upper(institution), "CENTER FOR DIGITAL TECHNOLOGY")
  }

  /** A record whose `institution` is a CDTM school. */
  predicate CdtmRecord(r: Record)
  {
    IsCdtmInstitution(Field(r, "institution"))
  }

  /** The upper-case form of the long case-sensitive mark. */
  lemma {:induction false} UpperCenter()
    ensures Upper("Center for Digital Technology") == "CENTER FOR DIGITAL TECHNOLOGY"
  {
  }

  /** The case-insensitive test finds every school the case-sensitive test
      of the other front ends finds. */
  lemma {:induction false} DetectsCaseSensitiveMatches(school: string)
    requires IsCdtm(school)
    ensures IsCdtmInstitution(school)
  {
    if Contains(school, "CDTM") {
      ContainsUpper(school, "CDTM");
      assert Upper("CDTM") == "CDTM";
    } else {
      ContainsUpper(school, "Center for Digital Technology");
      UpperCenter();
    }
  }

  /** ... and more: a lower-case spelling is found here only. */
  lemma {:induction false} DetectsLowerCase()
    ensures IsCdtmInstitution("cdtm munich") && !IsCdtm("cdtm munich")
  {
    assert Upper("cdtm munich")[0..4] == "CDTM";
    ContainsAt(Upper("cdtm munich"), "CDTM", 0);
    NotContainsMissing("cdtm munich", "CDTM", 'C');
    NotContainsMissing("cdtm munich", "Center for Digital Technology", 'C');
  }

  /** `filters.get(key)`: the criterion is given (the route turns 'All'
      into None before calling). */
  predicate Given(choice: Option<string>)
  {
    choice.Some? && choice.value != ""
  }

  /** An entry survives the per-entry filters. */
  predicate Keeps(n: Node, filters: Filters)
  {
    && (Given(filters.field) ==> n.field == filters.field.value)
    && (Given(filters.degree) ==> n.degree == filters.degree.value)
  }

  /** The node of one non-CDTM record; the institution is kept verbatim. */
  function RecordNode(r: Record): Node
  {
    var degree := Field(r, "degree_name");
    var field := Field(r, "field_of_study");
    Node(FlowTaxonomy.CategorizeDegree(degree, field), CategorizeField(field), Field(r, "institution"), false, Untagged)
  }

  /** `all_entries` after the first pass: the nodes of the non-CDTM records
      that survive the filters, in record order. */
  function Entries(records: seq<Record>, filters: Filters): seq<Node>
  {
    if records == [] then []
    else
      var rest := Entries(records[..|records| - 1], filters);
      var r := records[|records| - 1];
      if CdtmRecord(r) || !Keeps(RecordNode(r), filters) then rest else rest + [RecordNode(r)]
  }

  /** `cdtm_level` after the first pass: the index of the last CDTM record. */
  function {:induction false} LastCdtmIndex(records: seq<Record>): (c: Option<nat>)
    ensures c.Some? ==> c.value < |records| && CdtmRecord(records[c.value])
                        && forall j :: c.value < j < |records| ==> !CdtmRecord(records[j])
    ensures c.None? <==> forall j :: 0 <= j < |records| ==> !CdtmRecord(records[j])
  {
    if records == [] then None
    else if CdtmRecord(records[|records| - 1]) then Some(|records| - 1)
    else
      var init := records[..|records| - 1];
      var c := LastCdtmIndex(init);
      assert forall j :: 0 <= j < |init| ==> records[j] == init[j];
      c
  }

  /** The `for idx, entry in enumerate(education_path)` pass: CDTM records
      set `cdtm_level` and are skipped, filtered entries are skipped, the
      rest are appended. */
  method CollectEntries(records: seq<Record>, filters: Filters) returns (entries: seq<Node>, cdtmLevel: Option<nat>)
    ensures entries == Entries(records, filters)
    ensures cdtmLevel == LastCdtmIndex(records)
  {
    entries := [];
    cdtmLevel := None;
    for idx := 0 to |records|
      invariant entries == Entries(records[..idx], filters)
      invariant cdtmLevel == LastCdtmIndex(records[..idx])
    {
      var entry := records[idx];
      var institution := Field(entry, "institution");
      var degree := Field(entry, "degree_name");
      var field := Field(entry, "field_of_study");
      assert records[..idx + 1][..idx] == records[..idx];
      assert records[..idx + 1][idx] == entry;
      if IsCdtmInstitution(institution) {
        cdtmLevel := Some(idx);
        continue;
      }
      var categorizedDegree := FlowTaxonomy.CategorizeDegree(degree, field);
      var categorizedField := CategorizeField(field);
      if Given(filters.field) && categorizedField != filters.field.value {
        continue;
      }
      if Given(filters.degree) && categorizedDegree != filters.degree.value {
        continue;
      }
      entries := entries + [Node(categorizedDegree, categorizedField, institution, false, Untagged)];
    }
    assert records[..|records|] == records;
  }

  /** The unfiltered entries with the filter applied afterwards: the
      reference for the per-entry filters. */
  function KeepOnly(nodes: seq<Node>, filters: Filters): seq<Node>
  {
    if nodes == [] then []
    else
      var rest := KeepOnly(nodes[..|nodes| - 1], filters);
      if Keeps(nodes[|nodes| - 1], filters) then rest + [nodes[|nodes| - 1]] else rest
  }

  /** Filtering each entry as it is read is filtering the unfiltered
      entries: the filters drop entries, never people or order. */
  lemma {:induction false} EntriesFilter(records: seq<Record>, filters: Filters)
    ensures Entries(records, filters) == KeepOnly(Entries(records, Filters(None, None)), filters)
  {
    if records != [] {
      var init := records[..|records| - 1];
      EntriesFilter(init, filters);
      var e := Entries(init, Filters(None, None));
      var r := records[|records| - 1];
      if !CdtmRecord(r) {
        assert (e + [RecordNode(r)])[..|e|] == e;
      }
    }
  }

  /** Every entry is an ordinary node that survives the filters. */
  lemma {:induction false} EntriesProperties(records: seq<Record>, filters: Filters)
    ensures forall i :: 0 <= i < |Entries(records, filters)| ==>
      !Entries(records, filters)[i].isCdtm && Keeps(Entries(records, filters)[i], filters)
  {
    if records != [] {
      EntriesProperties(records[..|records| - 1], filters);
    }
  }

  /** The insertion index: after the first Bachelor's or Diploma entry, else
      after the first Master's entry, else 1, and never past the end. */
  function InsertIndex(entries: seq<Node>): (r: nat)
    ensures r <= |entries|
    ensures (exists i :: 0 <= i < |entries| && entries[i].degree in FlowPaths.BachelorOrDiploma) ==>
      (&& 1 <= r && entries[r - 1].degree in FlowPaths.BachelorOrDiploma
       && forall j :: 0 <= j < r - 1 ==> entries[j].degree !in FlowPaths.BachelorOrDiploma)
    ensures (&& (forall j :: 0 <= j < |entries| ==> entries[j].degree !in FlowPaths.BachelorOrDiploma)
             && exists i :: 0 <= i < |entries| && entries[i].degree == "Master's") ==>
      (&& 1 <= r && entries[r - 1].degree == "Master's"
       && forall j :: 0 <= j < r - 1 ==> entries[j].degree != "Master's")
    ensures (forall j :: 0 <= j < |entries| ==> entries[j].degree !in FlowPaths.BachelorOrDiploma && entries[j].degree != "Master's") ==>
      r == (if entries == [] then 0 else 1)
  {
    var insertIdx :=
      match FirstIndexIn(entries, FlowPaths.BachelorOrDiploma)
      case Some(i) => i + 1
      case None =>
        match FirstIndexIn(entries, {"Master's"})
        case Some(i) => i + 1
        case None => 1;
    if insertIdx < |entries| then insertIdx else |entries|
  }

  /** The synthetic node; `cdtm_level` is the index of the CDTM record. */
  function CdtmNode(index: nat): Node
  {
    Node("CDTM", "CDTM", "CDTM", true, RecordIndex(index))
  }

  /** The nodes of one person's path. */
  function PathNodes(records: seq<Record>, filters: Filters): seq<Node>
  {
    var entries := Entries(records, filters);
    match LastCdtmIndex(records)
    case Some(idx) => InsertAt(entries, InsertIndex(entries), CdtmNode(idx))
    case None => entries
  }

  /** What `extract_paths` appends for one person, if anything. */
  function PathOf(person: Person, filters: Filters): Option<Path>
  {
    var records := person.educationPath;
    var nodes := PathNodes(records, filters);
    if records == [] || Entries(records, filters) == [] || |nodes| < 2 then None
    else Some(Path(nodes, PrimaryField(nodes).GetOr("Other"),
                   map["name" := person.Attribute("full_name", "Unknown"),
                       "headline" := person.Attribute("headline", ""),
                       "linkedin_url" := person.Attribute("linkedin_url", "")]))
  }

  /** The paths of `alumni`, in order. */
  function ExtractPathsSpec(alumni: seq<Person>, filters: Filters): seq<Path>
  {
    if alumni == [] then []
    else
      var rest := ExtractPathsSpec(alumni[..|alumni| - 1], filters);
      match PathOf(alumni[|alumni| - 1], filters)
      case Some(p) => rest + [p]
      case None => rest
  }

  /** The body of the `for person in alumni_data` loop. */
  method BuildPath(person: Person, filters: Filters) returns (path: Option<Path>)
    ensures path == PathOf(person, filters)
  {
    var educationPath := person.educationPath;
    if educationPath == [] {
      return None;
    }
    var allEntries, cdtmLevel := CollectEntries(educationPath, filters);
    if allEntries == [] {
      return None;
    }
    if cdtmLevel.Some? {
      var insertIdx := InsertIndex(allEntries);
      allEntries := InsertAt(allEntries, insertIdx, CdtmNode(cdtmLevel.value));
    }
    var primaryField := FindPrimaryField(allEntries);
    if |allEntries| >= 2 {
      path := Some(Path(allEntries, primaryField.GetOr("Other"),
                        map["name" := person.Attribute("full_name", "Unknown"),
                            "headline" := person.Attribute("headline", ""),
                            "linkedin_url" := person.Attribute("linkedin_url", "")]));
    } else {
      path := None;
    }
  }

  /** `extract_paths(alumni_data, filters)`. */
  method ExtractPaths(alumni: seq<Person>, filters: Filters) returns (paths: seq<Path>)
    ensures paths == ExtractPathsSpec(alumni, filters)
  {
    paths := [];
    for i := 0 to |alumni|
      invariant paths == ExtractPathsSpec(alumni[..i], filters)
    {
      assert alumni[..i + 1][..i] == alumni[..i];
      var path := BuildPath(alumni[i], filters);
      if path.Some? {
        paths := paths + [path.value];
      }
    }
    assert alumni[..|alumni|] == alumni;
  }

  /** The nodes of one person: without the CDTM node they are the filtered
      entries in record order, each of which has the filtered field and
      degree; there is one CDTM node exactly when a CDTM record exists, at
      the insertion index and tagged with the last CDTM record's index; the
      primary field ignores it. */
  lemma {:induction false} PathNodesShape(records: seq<Record>, filters: Filters)
    ensures var nodes := PathNodes(records, filters);
      var entries := Entries(records, filters);
      && RealNodes(nodes) == entries
      && CdtmCount(nodes) == (if LastCdtmIndex(records).Some? then 1 else 0)
      && PrimaryField(nodes) == PrimaryField(entries)
      && (forall i :: 0 <= i < |nodes| && !nodes[i].isCdtm ==> Keeps(nodes[i], filters))
      && (forall i :: 0 <= i < |nodes| && nodes[i].isCdtm ==>
            LastCdtmIndex(records).Some? && i == InsertIndex(entries) && nodes[i] == CdtmNode(LastCdtmIndex(records).value))
  {
    var entries := Entries(records, filters);
    var nodes := PathNodes(records, filters);
    EntriesProperties(records, filters);
    match LastCdtmIndex(records)
    case None =>
      RealNodesOfReal(entries);
    case Some(idx) =>
      var k := InsertIndex(entries);
      InsertCdtm(entries, k, CdtmNode(idx));
      InsertCdtmAt(entries, k, CdtmNode(idx));
      PrimaryFieldIgnoresCdtm(entries, k, CdtmNode(idx));
      assert nodes == InsertAt(entries, k, CdtmNode(idx));
      forall i | 0 <= i < |nodes| && !nodes[i].isCdtm ensures Keeps(nodes[i], filters) {
        assert nodes[i] == entries[if i < k then i else i - 1];
      }
  }

  /** A person whose records are all CDTM records or all filtered out gives
      no path, even with a CDTM record. */
  lemma {:induction false} NoPathWithoutEntries(person: Person, filters: Filters)
    requires Entries(person.educationPath, filters) == []
    ensures PathOf(person, filters) == None
  {
  }

  /** With one surviving entry and a CDTM record, the clamped index puts the
      CDTM node last whatever the entry's degree. */
  lemma {:induction false} OneEntryPutsCdtmLast(records: seq<Record>, filters: Filters)
    requires |Entries(records, filters)| == 1 && LastCdtmIndex(records).Some?
    ensures PathNodes(records, filters) == Entries(records, filters) + [CdtmNode(LastCdtmIndex(records).value)]
  {
    var entries := Entries(records, filters);
    assert InsertIndex(entries) == 1;
  }

  /** What every kept path satisfies. */
  predicate Kept(path: Path, filters: Filters)
  {
    && |path.nodes| >= 2 && CdtmCount(path.nodes) <= 1
    && forall i :: 0 <= i < |path.nodes| && !path.nodes[i].isCdtm ==> Keeps(path.nodes[i], filters)
  }

  lemma {:induction false} KeptPath(person: Person, filters: Filters)
    ensures PathOf(person, filters).Some? ==> Kept(PathOf(person, filters).value, filters)
  {
    PathNodesShape(person.educationPath, filters);
  }

  /** Every path in the result has at least two nodes, at most one CDTM
      node, and ordinary nodes that all survive the filters. */
  lemma {:induction false} ExtractPathsProperties(alumni: seq<Person>, filters: Filters)
    ensures |ExtractPathsSpec(alumni, filters)| <= |alumni|
    ensures forall k :: 0 <= k < |ExtractPathsSpec(alumni, filters)| ==> Kept(ExtractPathsSpec(alumni, filters)[k], filters)
  {
    if alumni != [] {
      var init := alumni[..|alumni| - 1];
      ExtractPathsProperties(init, filters);
      KeptPath(alumni[|alumni| - 1], filters);
    }
  }
}
