/** app_plotly.py: the Plotly front end's path builder. It is app.py's
    builder except that the synthetic CDTM node has the constant field
    'CDTM' and the path also copies the person's headline. */
module AppPlotly {
  import opened Alumni
  import opened FlowPaths

  /** The nodes of one person's path: the entries, with the all-'CDTM' node
      inserted when a CDTM record was seen. */
  function PathNodes(schools: Schools, records: seq<Record>): seq<Node>
  {
    WithCdtm(Entries(schools, records), LastCdtm(records).Some?, "CDTM")
  }

  /** What `extract_paths` appends for one person, if anything. */
  function PathOf(schools: Schools, person: Person, filters: Filters): Option<Path>
  {
    var records := person.educationPath;
    var nodes := PathNodes(schools, records);
    var primary := PrimaryField(nodes);
    if records == [] || Entries(schools, records) == [] then None
    else if !PassesFilters(nodes, primary, filters) then None
    else if |nodes| < 2 then None
    else Some(Path(nodes, primary.GetOr("Other"),
                   map["name" := person.Attribute("full_name", "Unknown"),
                       "headline" := person.Attribute("headline", "")]))
  }

  /** The paths of `alumni`, in order. */
  function ExtractPathsSpec(schools: Schools, alumni: seq<Person>, filters: Filters): seq<Path>
  {
    if alumni == [] then []
    else
      var rest := ExtractPathsSpec(schools, alumni[..|alumni| - 1], filters);
      match PathOf(schools, alumni[|alumni| - 1], filters)
      case Some(p) => rest + [p]
      case None => rest
  }

  /** The body of the `for person in alumni_data` loop. */
  method BuildPath(schools: Schools, person: Person, filters: Filters) returns (path: Option<Path>)
    ensures path == PathOf(schools, person, filters)
  {
    var educationPath := person.educationPath;
    if educationPath == [] {
      return None;
    }
    var allEntries, cdtmEntry := CollectEntries(schools, educationPath);
    if allEntries == [] {
      return None;
    }
    var placement := FindInsertPlacement(allEntries);
    if cdtmEntry.Some? && placement.Some? {
      allEntries := InsertAt(allEntries, placement.value.position, CdtmNode("CDTM", placement.value.level));
    }
    var primaryField := FindPrimaryField(allEntries);
    if Selects(filters.field) && primaryField != Some(filters.field.value) {
      return None;
    }
    if Selects(filters.degree) && !HasDegree(allEntries, filters.degree.value) {
      return None;
    }
    if |allEntries| >= 2 {
      path := Some(Path(allEntries, primaryField.GetOr("Other"),
                        map["name" := person.Attribute("full_name", "Unknown"),
                            "headline" := person.Attribute("headline", "")]));
    } else {
      path := None;
    }
  }

  /** `extract_paths(alumni_data, filters)` with the schools table passed in. */
  method ExtractPaths(schools: Schools, alumni: seq<Person>, filters: Filters) returns (paths: seq<Path>)
    ensures paths == ExtractPathsSpec(schools, alumni, filters)
  {
    paths := [];
    for i := 0 to |alumni|
      invariant paths == ExtractPathsSpec(schools, alumni[..i], filters)
    {
      assert alumni[..i + 1][..i] == alumni[..i];
      var path := BuildPath(schools, alumni[i], filters);
      if path.Some? {
        paths := paths + [path.value];
      }
    }
    assert alumni[..|alumni|] == alumni;
  }

  /** The nodes of one person: without the CDTM node they are the
      classified non-CDTM records in record order; there is one CDTM node
      exactly when the person has both a CDTM record and another record; it
      sits at the placement position with degree, field and institution
      'CDTM'; and it does not change the primary field. */
  lemma {:induction false} PathNodesShape(schools: Schools, records: seq<Record>)
    ensures var nodes := PathNodes(schools, records);
      var entries := Entries(schools, records);
      && RealNodes(nodes) == entries
      && CdtmCount(nodes) == (if LastCdtm(records).Some? && entries != [] then 1 else 0)
      && |nodes| == |entries| + CdtmCount(nodes)
      && PrimaryField(nodes) == PrimaryField(entries)
      && (forall i :: 0 <= i < |nodes| && nodes[i].isCdtm ==>
            && i == InsertPlacement(entries).value.position
            && nodes[i] == Node("CDTM", "CDTM", "CDTM", true, LevelName(InsertPlacement(entries).value.level)))
  {
    var entries := Entries(schools, records);
    EntriesProperties(schools, records);
    WithCdtmProperties(entries, LastCdtm(records).Some?, "CDTM");
  }

  /** A kept path has at least two nodes, and its primary field is the
      first non-"Other" field of an ordinary node, else "Other": the CDTM
      node's field 'CDTM' is never the primary field. */
  lemma {:induction false} PathShape(schools: Schools, person: Person, filters: Filters)
    requires PathOf(schools, person, filters).Some?
    ensures var path := PathOf(schools, person, filters).value;
      && path.nodes == PathNodes(schools, person.educationPath)
      && |path.nodes| >= 2
      && path.primaryField == PrimaryField(Entries(schools, person.educationPath)).GetOr("Other")
      && PassesFilters(path.nodes, PrimaryField(path.nodes), filters)
  {
    PathNodesShape(schools, person.educationPath);
  }

  /** The field filter compares the primary field before it defaults to
      "Other", so filtering by "Other" keeps nobody. */
  lemma {:induction false} FilterByOtherIsEmpty(schools: Schools, alumni: seq<Person>, degree: Option<string>)
    ensures ExtractPathsSpec(schools, alumni, Filters(Some("Other"), degree)) == []
  {
    if alumni != [] {
      FilterByOtherIsEmpty(schools, alumni[..|alumni| - 1], degree);
      var person := alumni[|alumni| - 1];
      assert PrimaryField(PathNodes(schools, person.educationPath)) != Some("Other");
    }
  }

  /** A node with degree 'CDTM' exists exactly when the CDTM node was
      inserted: ordinary nodes have a degree level as their degree. */
  lemma {:induction false} CdtmDegreeMeansCdtmNode(schools: Schools, records: seq<Record>)
    ensures HasDegree(PathNodes(schools, records), "CDTM") <==>
      LastCdtm(records).Some? && Entries(schools, records) != []
  {
    var entries := Entries(schools, records);
    EntriesProperties(schools, records);
    var present := LastCdtm(records).Some?;
    if present && entries != [] {
      var p := InsertPlacement(entries).value;
      assert PathNodes(schools, records)[p.position] == CdtmNode("CDTM", p.level);
    } else {
      assert PathNodes(schools, records) == entries;
    }
  }

  /** Filtering by degree 'CDTM' keeps exactly the people whose path gained
      a CDTM node. */
  lemma {:induction false} CdtmDegreeFilter(schools: Schools, person: Person)
    ensures PathOf(schools, person, Filters(None, Some("CDTM"))).Some? <==>
      PathOf(schools, person, Filters(None, None)).Some? && LastCdtm(person.educationPath).Some?
  {
    CdtmDegreeMeansCdtmNode(schools, person.educationPath);
  }

  /** What every kept path satisfies. */
  predicate Kept(path: Path, filters: Filters)
  {
    |path.nodes| >= 2 && CdtmCount(path.nodes) <= 1 && PassesFilters(path.nodes, PrimaryField(path.nodes), filters)
  }

  lemma {:induction false} KeptPath(schools: Schools, person: Person, filters: Filters)
    ensures PathOf(schools, person, filters).Some? ==> Kept(PathOf(schools, person, filters).value, filters)
  {
    if PathOf(schools, person, filters).Some? {
      PathShape(schools, person, filters);
      PathNodesShape(schools, person.educationPath);
    }
  }

  /** Every path in the result has at least two nodes and at most one CDTM
      node, passes the filters, and there are no more paths than people. */
  lemma {:induction false} ExtractPathsProperties(schools: Schools, alumni: seq<Person>, filters: Filters)
    ensures |ExtractPathsSpec(schools, alumni, filters)| <= |alumni|
    ensures forall k :: 0 <= k < |ExtractPathsSpec(schools, alumni, filters)| ==>
      Kept(ExtractPathsSpec(schools, alumni, filters)[k], filters)
  {
    if alumni != [] {
      var init := alumni[..|alumni| - 1];
      ExtractPathsProperties(schools, init, filters);
      KeptPath(schools, alumni[|alumni| - 1], filters);
    }
  }
}
