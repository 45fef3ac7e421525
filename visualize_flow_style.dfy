/** visualize_flow_style.py: the stand-alone transit-map script's path
    builder: app_flow_style.py's builder with the schools table as a
    parameter and no filters. */
module VisualizeFlowStyle {
  import opened Alumni
  import opened FlowPaths

  /** What `extract_paths` appends for one person, if anything. */
  function PathOf(schools: Schools, person: Person): Option<Path>
  {
    var records := person.educationPath;
    var nodes := Entries(schools, records);
    if records == [] || |nodes| < 2 then None
    else Some(Path(nodes, PrimaryField(nodes).GetOr("Other"), map["name" := person.Attribute("full_name", "Unknown")]))
  }

  /** The paths of `alumni`, in order. */
  function ExtractPathsSpec(schools: Schools, alumni: seq<Person>): seq<Path>
  {
    if alumni == [] then []
    else
      var rest := ExtractPathsSpec(schools, alumni[..|alumni| - 1]);
      match PathOf(schools, alumni[|alumni| - 1])
      case Some(p) => rest + [p]
      case None => rest
  }

  /** The body of the `for person in alumni_data` loop. */
  method BuildPath(schools: Schools, person: Person) returns (path: Option<Path>)
    ensures path == PathOf(schools, person)
  {
    var educationPath := person.educationPath;
    if educationPath == [] {
      return None;
    }
    var pathNodes, primaryField := CollectPathNodes(schools, educationPath);
    if |pathNodes| >= 2 {
      path := Some(Path(pathNodes, primaryField.GetOr("Other"),
                        map["name" := person.Attribute("full_name", "Unknown")]));
    } else {
      path := None;
    }
  }

  /** `extract_paths(alumni_data, schools_data)`. */
  method ExtractPaths(schools: Schools, alumni: seq<Person>) returns (paths: seq<Path>)
    ensures paths == ExtractPathsSpec(schools, alumni)
  {
    paths := [];
    for i := 0 to |alumni|
      invariant paths == ExtractPathsSpec(schools, alumni[..i])
    {
      assert alumni[..i + 1][..i] == alumni[..i];
      var path := BuildPath(schools, alumni[i]);
      if path.Some? {
        paths := paths + [path.value];
      }
    }
    assert alumni[..|alumni|] == alumni;
  }

  /** Exactly the people with at least two non-CDTM records produce a path,
      and its nodes are those records classified, in record order. */
  lemma {:induction false} PathExactly(schools: Schools, person: Person)
    ensures PathOf(schools, person).Some? <==> NonCdtmCount(person.educationPath) >= 2
    ensures PathOf(schools, person).Some? ==>
      && PathOf(schools, person).value.nodes == Entries(schools, person.educationPath)
      && CdtmCount(PathOf(schools, person).value.nodes) == 0
  {
    EntriesCount(schools, person.educationPath);
    EntriesProperties(schools, person.educationPath);
    RealNodesOfReal(Entries(schools, person.educationPath));
  }

  /** The result holds one path per person with at least two non-CDTM
      records: the others are exactly the people left out. */
  lemma {:induction false} ExtractPathsCount(schools: Schools, alumni: seq<Person>)
    ensures |ExtractPathsSpec(schools, alumni)| + CountShort(schools, alumni) == |alumni|
  {
    if alumni != [] {
      ExtractPathsCount(schools, alumni[..|alumni| - 1]);
      PathExactly(schools, alumni[|alumni| - 1]);
    }
  }

  /** Number of people with fewer than two non-CDTM records. */
  function CountShort(schools: Schools, alumni: seq<Person>): nat
  {
    if alumni == [] then 0
    else CountShort(schools, alumni[..|alumni| - 1]) + (if NonCdtmCount(alumni[|alumni| - 1].educationPath) >= 2 then 0 else 1)
  }
}
