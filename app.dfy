/** app.py: the Dash front end's path builder. The synthetic CDTM node takes
    the path's primary field, so that it is coloured like the rest of the
    path, and paths are filtered per person. */
module App {
  import opened Alumni
  import opened FlowPaths

  /** The nodes of one person's path: the entries, with the CDTM node
      inserted when a CDTM record was seen; its field is the first field
      other than "Other" among the entries, else "Other". */
  function PathNodes(schools: Schools, records: seq<Record>): seq<Node>
  {
    var entries := Entries(schools, records);
    WithCdtm(entries, LastCdtm(records).Some?, PrimaryField(entries).GetOr("Other"))
  }

  /** What `extract_paths` appends for one person, if anything. */
  function PathOf(schools: Schools, person: Person, filters: Filters): Option<Path>
  {
    var records := person.educationPath;
    var nodes := PathNodes(schools, records);
    var primary := PrimaryField(nodes);
    if records == [] || Entries(schools, records) == [] then None
    else if !PassesFilters(nodes, primary, filters) then None
    else if |nodes| < 2 then None
    else Some(Path(nodes, primary.GetOr("Other"), map["name" := person.Attribute("full_name", "Unknown")]))
  }

  /** The paths of `alumni`, in order. */
  function ExtractPathsSpec(schools: Schools, alumni: seq<Person>, filters: Filters): seq<Path>
  {
    if alumni == [] then []
    else
      var rest := ExtractPathsSpec(schools, alumni[..|alumni| - 1], filters);
      match PathOf(schools, alumni[|alumni| - 1], filters)
      case Some(p) => rest + [p]
      case None => rest
  }

  /** The body of the `for person in alumni_data` loop. */
  method BuildPath(schools: Schools, person: Person, filters: Filters) returns (path: Option<Path>)
    ensures path == PathOf(schools, person, filters)
  {
    var educationPath := person.educationPath;
    if educationPath == [] {
      return None;
    }
    var allEntries, cdtmEntry := CollectEntries(schools, educationPath);
    if allEntries == [] {
      return None;
    }
    var placement := FindInsertPlacement(allEntries);
    if cdtmEntry.Some? && placement.Some? {
      // The entries hold no CDTM node yet, so this is the plain
      // first-non-"Other" search of the source.
      var cdtmField := FindPrimaryField(allEntries);
      allEntries := InsertAt(allEntries, placement.value.position,
                             CdtmNode(cdtmField.GetOr("Other"), placement.value.level));
    }
    assert allEntries == PathNodes(schools, educationPath);
    var primaryField := FindPrimaryField(allEntries);
    if Selects(filters.field) && primaryField != Some(filters.field.value) {
      return None;
    }
    if Selects(filters.degree) && !HasDegree(allEntries, filters.degree.value) {
      return None;
    }
    if |allEntries| >= 2 {
      path := Some(Path(allEntries, primaryField.GetOr("Other"),
                        map["name" := person.Attribute("full_name", "Unknown")]));
    } else {
      path := None;
    }
  }

  /** `extract_paths(alumni_data, filters)` with the schools table passed in. */
  method ExtractPaths(schools: Schools, alumni: seq<Person>, filters: Filters) returns (paths: seq<Path>)
    ensures paths == ExtractPathsSpec(schools, alumni, filters)
  {
    paths := [];
    for i := 0 to |alumni|
      invariant paths == ExtractPathsSpec(schools, alumni[..i], filters)
    {
      assert alumni[..i + 1][..i] == alumni[..i];
      var path := BuildPath(schools, alumni[i], filters);
      if path.Some? {
        paths := paths + [path.value];
      }
    }
    assert alumni[..|alumni|] == alumni;
  }

  /** The nodes of one person: without the CDTM node they are the
      classified non-CDTM records in record order; there is one CDTM node
      exactly when the person has both a CDTM record and another record; it
      sits at the placement position and carries the entries' primary field,
      which the CDTM node does not change. */
  lemma {:induction false} PathNodesShape(schools: Schools, records: seq<Record>)
    ensures var nodes := PathNodes(schools, records);
      var entries := Entries(schools, records);
      && RealNodes(nodes) == entries
      && CdtmCount(nodes) == (if LastCdtm(records).Some? && entries != [] then 1 else 0)
      && |nodes| == |entries| + CdtmCount(nodes)
      && PrimaryField(nodes) == PrimaryField(entries)
      && (forall i :: 0 <= i < |nodes| && nodes[i].isCdtm ==>
            && i == InsertPlacement(entries).value.position
            && nodes[i] == CdtmNode(PrimaryField(entries).GetOr("Other"), InsertPlacement(entries).value.level))
  {
    var entries := Entries(schools, records);
    EntriesProperties(schools, records);
    WithCdtmProperties(entries, LastCdtm(records).Some?, PrimaryField(entries).GetOr("Other"));
  }

  /** A kept path has at least two nodes, its CDTM node (if any) has the
      path's primary field, and that primary field is the first non-"Other"
      field of an ordinary node, else "Other". */
  lemma {:induction false} PathShape(schools: Schools, person: Person, filters: Filters)
    requires PathOf(schools, person, filters).Some?
    ensures var path := PathOf(schools, person, filters).value;
      && path.nodes == PathNodes(schools, person.educationPath)
      && |path.nodes| >= 2
      && path.primaryField == PrimaryField(Entries(schools, person.educationPath)).GetOr("Other")
      && (forall i :: 0 <= i < |path.nodes| && path.nodes[i].isCdtm ==> path.nodes[i].field == path.primaryField)
      && PassesFilters(path.nodes, PrimaryField(path.nodes), filters)
  {
    var records := person.educationPath;
    var nodes := PathNodes(schools, records);
    var entries := Entries(schools, records);
    PathNodesShape(schools, records);
    assert PathOf(schools, person, filters).value == Path(nodes, PrimaryField(nodes).GetOr("Other"),
      map["name" := person.Attribute("full_name", "Unknown")]);
    forall i | 0 <= i < |nodes| && nodes[i].isCdtm ensures nodes[i].field == PrimaryField(nodes).GetOr("Other") {
      assert nodes[i] == CdtmNode(PrimaryField(entries).GetOr("Other"), InsertPlacement(entries).value.level);
    }
  }

  /** A person with no non-CDTM record gives no path, even with a CDTM
      record. */
  lemma {:induction false} NoPathWithoutEntries(schools: Schools, person: Person, filters: Filters)
    requires forall j :: 0 <= j < |person.educationPath| ==> CdtmRecord(person.educationPath[j])
    ensures PathOf(schools, person, filters) == None
  {
    EntriesProperties(schools, person.educationPath);
  }

  /** The filters act together: a person passes both criteria exactly when
      the person passes each one alone, and the path is the same. */
  lemma {:induction false} FiltersConjoin(schools: Schools, person: Person, field: Option<string>, degree: Option<string>)
    ensures PathOf(schools, person, Filters(field, degree)).Some? <==>
      PathOf(schools, person, Filters(field, None)).Some? && PathOf(schools, person, Filters(None, degree)).Some?
    ensures PathOf(schools, person, Filters(field, degree)).Some? ==>
      PathOf(schools, person, Filters(field, degree)) == PathOf(schools, person, Filters(None, None))
  {
  }

  /** The field filter compares the primary field before it defaults to
      "Other", so filtering by "Other" keeps nobody. */
  lemma {:induction false} FilterByOtherIsEmpty(schools: Schools, alumni: seq<Person>, degree: Option<string>)
    ensures ExtractPathsSpec(schools, alumni, Filters(Some("Other"), degree)) == []
  {
    if alumni != [] {
      FilterByOtherIsEmpty(schools, alumni[..|alumni| - 1], degree);
      var person := alumni[|alumni| - 1];
      var nodes := PathNodes(schools, person.educationPath);
      assert PrimaryField(nodes) != Some("Other");
    }
  }

  /** What every kept path satisfies. */
  predicate Kept(path: Path, filters: Filters)
  {
    |path.nodes| >= 2 && CdtmCount(path.nodes) <= 1 && PassesFilters(path.nodes, PrimaryField(path.nodes), filters)
  }

  lemma {:induction false} KeptPath(schools: Schools, person: Person, filters: Filters)
    ensures PathOf(schools, person, filters).Some? ==> Kept(PathOf(schools, person, filters).value, filters)
  {
    if PathOf(schools, person, filters).Some? {
      PathShape(schools, person, filters);
      PathNodesShape(schools, person.educationPath);
    }
  }

  /** Every path in the result has at least two nodes and at most one CDTM
      node, passes the filters, and there are no more paths than people. */
  lemma {:induction false} ExtractPathsProperties(schools: Schools, alumni: seq<Person>, filters: Filters)
    ensures |ExtractPathsSpec(schools, alumni, filters)| <= |alumni|
    ensures forall k :: 0 <= k < |ExtractPathsSpec(schools, alumni, filters)| ==>
      Kept(ExtractPathsSpec(schools, alumni, filters)[k], filters)
  {
    if alumni != [] {
      ExtractPathsProperties(schools, alumni[..|alumni| - 1], filters);
      KeptPath(schools, alumni[|alumni| - 1], filters);
    }
  }
}
