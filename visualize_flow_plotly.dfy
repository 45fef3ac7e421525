/** visualize_flow_plotly.py: the stand-alone Plotly script's path builder.
    It builds the same nodes as app_plotly.py (constant 'CDTM' field), takes
    the schools table as a parameter and applies no filters. */
module VisualizeFlowPlotly {
  import opened Alumni
  import opened FlowPaths

  /** The nodes of one person's path. */
  function PathNodes(schools: Schools, records: seq<Record>): seq<Node>
  {
    WithCdtm(Entries(schools, records), LastCdtm(records).Some?, "CDTM")
  }

  /** What `extract_paths` appends for one person, if anything. */
  function PathOf(schools: Schools, person: Person): Option<Path>
  {
    var records := person.educationPath;
    var nodes := PathNodes(schools, records);
    if records == [] || Entries(schools, records) == [] || |nodes| < 2 then None
    else Some(Path(nodes, PrimaryField(nodes).GetOr("Other"),
                   map["name" := person.Attribute("full_name", "Unknown"),
                       "headline" := person.Attribute("headline", "")]))
  }

  /** The paths of `alumni`, in order. */
  function ExtractPathsSpec(schools: Schools, alumni: seq<Person>): seq<Path>
  {
    if alumni == [] then []
    else
      var rest := ExtractPathsSpec(schools, alumni[..|alumni| - 1]);
      match PathOf(schools, alumni[|alumni| - 1])
      case Some(p) => rest + [p]
      case None => rest
  }

  /** The body of the `for person in alumni_data` loop. */
  method BuildPath(schools: Schools, person: Person) returns (path: Option<Path>)
    ensures path == PathOf(schools, person)
  {
    var educationPath := person.educationPath;
    if educationPath == [] {
      return None;
    }
    var allEntries, cdtmEntry := CollectEntries(schools, educationPath);
    if allEntries == [] {
      return None;
    }
    var placement := FindInsertPlacement(allEntries);
    if cdtmEntry.Some? && placement.Some? {
      allEntries := InsertAt(allEntries, placement.value.position, CdtmNode("CDTM", placement.value.level));
    }
    var primaryField := FindPrimaryField(allEntries);
    if |allEntries| >= 2 {
      path := Some(Path(allEntries, primaryField.GetOr("Other"),
                        map["name" := person.Attribute("full_name", "Unknown"),
                            "headline" := person.Attribute("headline", "")]));
    } else {
      path := None;
    }
  }

  /** `extract_paths(alumni_data, schools_data)`. */
  method ExtractPaths(schools: Schools, alumni: seq<Person>) returns (paths: seq<Path>)
    ensures paths == ExtractPathsSpec(schools, alumni)
  {
    paths := [];
    for i := 0 to |alumni|
      invariant paths == ExtractPathsSpec(schools, alumni[..i])
    {
      assert alumni[..i + 1][..i] == alumni[..i];
      var path := BuildPath(schools, alumni[i]);
      if path.Some? {
        paths := paths + [path.value];
      }
    }
    assert alumni[..|alumni|] == alumni;
  }

  /** The node count is the number of non-CDTM records plus one when the
      person also has a CDTM record; without its CDTM node the path is the
      classified non-CDTM records in order; the primary field ignores the
      CDTM node. */
  lemma {:induction false} PathNodesShape(schools: Schools, records: seq<Record>)
    ensures var nodes := PathNodes(schools, records);
      var entries := Entries(schools, records);
      && |nodes| == |entries| + (if LastCdtm(records).Some? && entries != [] then 1 else 0)
      && RealNodes(nodes) == entries
      && PrimaryField(nodes) == PrimaryField(entries)
      && (forall i :: 0 <= i < |nodes| && nodes[i].isCdtm ==>
            && i == InsertPlacement(entries).value.position
            && nodes[i] == Node("CDTM", "CDTM", "CDTM", true, LevelName(InsertPlacement(entries).value.level)))
  {
    EntriesProperties(schools, records);
    WithCdtmProperties(Entries(schools, records), LastCdtm(records).Some?, "CDTM");
  }

  /** A person with only CDTM records gives no path. */
  lemma {:induction false} NoPathFromCdtmOnly(schools: Schools, person: Person)
    requires forall j :: 0 <= j < |person.educationPath| ==> CdtmRecord(person.educationPath[j])
    ensures PathOf(schools, person) == None
  {
    EntriesProperties(schools, person.educationPath);
  }

  /** One ordinary record and a CDTM record make a kept two-node path. The
      CDTM node goes second after a Bachelor's, Diploma or Master's entry,
      and first otherwise, since the fallback position for a single entry is
      0. */
  lemma {:induction false} OneRecordWithCdtm(schools: Schools, person: Person)
    requires |Entries(schools, person.educationPath)| == 1 && LastCdtm(person.educationPath).Some?
    ensures PathOf(schools, person).Some?
    ensures var nodes := PathOf(schools, person).value.nodes;
      var entry := Entries(schools, person.educationPath)[0];
      && |nodes| == 2
      && (entry.degree in {"Bachelor's", "Diploma", "Master's"} ==> nodes[0] == entry && nodes[1].isCdtm)
      && (entry.degree !in {"Bachelor's", "Diploma", "Master's"} ==> nodes[0].isCdtm && nodes[1] == entry)
  {
    var records := person.educationPath;
    assert records != [];
    OneEntryNodes(schools, records);
  }

  /** The nodes of a single entry with a CDTM record. */
  lemma {:induction false} OneEntryNodes(schools: Schools, records: seq<Record>)
    requires |Entries(schools, records)| == 1 && LastCdtm(records).Some?
    ensures var nodes := PathNodes(schools, records);
      var entry := Entries(schools, records)[0];
      && |nodes| == 2
      && (entry.degree in {"Bachelor's", "Diploma", "Master's"} ==> nodes[0] == entry && nodes[1].isCdtm)
      && (entry.degree !in {"Bachelor's", "Diploma", "Master's"} ==> nodes[0].isCdtm && nodes[1] == entry)
  {
    var e := Entries(schools, records)[0];
    assert Entries(schools, records) == [e];
    WithCdtmSingle(e, "CDTM");
  }

  /** What every kept path satisfies. */
  predicate Kept(path: Path)
  {
    |path.nodes| >= 2 && CdtmCount(path.nodes) <= 1
  }

  lemma {:induction false} KeptPath(schools: Schools, person: Person)
    ensures PathOf(schools, person).Some? ==> Kept(PathOf(schools, person).value)
  {
    EntriesProperties(schools, person.educationPath);
    WithCdtmProperties(Entries(schools, person.educationPath), LastCdtm(person.educationPath).Some?, "CDTM");
  }

  /** Every path in the result has at least two nodes and at most one CDTM
      node, and there are no more paths than people. */
  lemma {:induction false} ExtractPathsProperties(schools: Schools, alumni: seq<Person>)
    ensures |ExtractPathsSpec(schools, alumni)| <= |alumni|
    ensures forall k :: 0 <= k < |ExtractPathsSpec(schools, alumni)| ==> Kept(ExtractPathsSpec(schools, alumni)[k])
  {
    if alumni != [] {
      ExtractPathsProperties(schools, alumni[..|alumni| - 1]);
      KeptPath(schools, alumni[|alumni| - 1]);
    }
  }
}
