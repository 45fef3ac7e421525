/** app_flow_style.py: the transit-map front end's path builder. CDTM
    records are dropped, no synthetic node is added, and paths are filtered
    per person. */
module AppFlowStyle {
  import opened Alumni
  import opened FlowPaths

  /** What `extract_paths` appends for one person, if anything. */
  function PathOf(schools: Schools, person: Person, filters: Filters): Option<Path>
  {
    var records := person.educationPath;
    var nodes := Entries(schools, records);
    var primary := PrimaryField(nodes);
    if records == [] then None
    else if !PassesFilters(nodes, primary, filters) then None
    else if |nodes| < 2 then None
    else Some(Path(nodes, primary.GetOr("Other"), map["name" := person.Attribute("full_name", "Unknown")]))
  }

  /** The paths of `alumni`, in order. */
  function ExtractPathsSpec(schools: Schools, alumni: seq<Person>, filters: Filters): seq<Path>
  {
    if alumni == [] then []
    else
      var rest := ExtractPathsSpec(schools, alumni[..|alumni| - 1], filters);
      match PathOf(schools, alumni[|alumni| - 1], filters)
      case Some(p) => rest + [p]
      case None => rest
  }

  /** The body of the `for person in alumni_data` loop. */
  method BuildPath(schools: Schools, person: Person, filters: Filters) returns (path: Option<Path>)
    ensures path == PathOf(schools, person, filters)
  {
    var educationPath := person.educationPath;
    if educationPath == [] {
      return None;
    }
    var pathNodes, primaryField := CollectPathNodes(schools, educationPath);
    if Selects(filters.field) && primaryField != Some(filters.field.value) {
      return None;
    }
    if Selects(filters.degree) && !HasDegree(pathNodes, filters.degree.value) {
      return None;
    }
    if |pathNodes| >= 2 {
      path := Some(Path(pathNodes, primaryField.GetOr("Other"),
                        map["name" := person.Attribute("full_name", "Unknown")]));
    } else {
      path := None;
    }
  }

  /** `extract_paths(alumni_data, filters)` with the schools table passed in. */
  method ExtractPaths(schools: Schools, alumni: seq<Person>, filters: Filters) returns (paths: seq<Path>)
    ensures paths == ExtractPathsSpec(schools, alumni, filters)
  {
    paths := [];
    for i := 0 to |alumni|
      invariant paths == ExtractPathsSpec(schools, alumni[..i], filters)
    {
      assert alumni[..i + 1][..i] == alumni[..i];
      var path := BuildPath(schools, alumni[i], filters);
      if path.Some? {
        paths := paths + [path.value];
      }
    }
    assert alumni[..|alumni|] == alumni;
  }

  /** A kept path is the classified non-CDTM records in record order, at
      least two of them, with no CDTM node; its primary field is the first
      field other than "Other" (`PrimaryField`), else "Other". */
  lemma {:induction false} PathShape(schools: Schools, person: Person, filters: Filters)
    requires PathOf(schools, person, filters).Some?
    ensures var path := PathOf(schools, person, filters).value;
      && path.nodes == Entries(schools, person.educationPath)
      && 2 <= |path.nodes| == NonCdtmCount(person.educationPath)
      && CdtmCount(path.nodes) == 0
      && (path.primaryField == "Other" <==> forall i :: 0 <= i < |path.nodes| ==> path.nodes[i].field == "Other")
      && (path.primaryField != "Other" ==> exists i :: 0 <= i < |path.nodes| && path.nodes[i].field == path.primaryField)
      && path.primaryField == PrimaryField(path.nodes).GetOr("Other")
  {
    EntriesProperties(schools, person.educationPath);
    EntriesCount(schools, person.educationPath);
    RealNodesOfReal(Entries(schools, person.educationPath));
  }

  /** The field filter compares the primary field before it defaults to
      "Other", so filtering by "Other" keeps nobody. */
  lemma {:induction false} FilterByOtherIsEmpty(schools: Schools, alumni: seq<Person>, degree: Option<string>)
    ensures ExtractPathsSpec(schools, alumni, Filters(Some("Other"), degree)) == []
  {
    if alumni != [] {
      FilterByOtherIsEmpty(schools, alumni[..|alumni| - 1], degree);
      var person := alumni[|alumni| - 1];
      assert PrimaryField(Entries(schools, person.educationPath)) != Some("Other");
    }
  }

  /** What every kept path satisfies. */
  predicate Kept(path: Path, filters: Filters)
  {
    |path.nodes| >= 2 && CdtmCount(path.nodes) == 0 && PassesFilters(path.nodes, PrimaryField(path.nodes), filters)
  }

  lemma {:induction false} KeptPath(schools: Schools, person: Person, filters: Filters)
    ensures PathOf(schools, person, filters).Some? ==> Kept(PathOf(schools, person, filters).value, filters)
  {
    if PathOf(schools, person, filters).Some? {
      PathShape(schools, person, filters);
    }
  }

  /** Every path in the result has at least two nodes, none of them a CDTM
      node, and passes the filters; there are no more paths than people. */
  lemma {:induction false} ExtractPathsProperties(schools: Schools, alumni: seq<Person>, filters: Filters)
    ensures |ExtractPathsSpec(schools, alumni, filters)| <= |alumni|
    ensures forall k :: 0 <= k < |ExtractPathsSpec(schools, alumni, filters)| ==>
      Kept(ExtractPathsSpec(schools, alumni, filters)[k], filters)
  {
    if alumni != [] {
      ExtractPathsProperties(schools, alumni[..|alumni| - 1], filters);
      KeptPath(schools, alumni[|alumni| - 1], filters);
    }
  }
}
