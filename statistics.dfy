/** The integer counters of the statistics panels: `get_statistics` of
    app.py and app_plotly.py (the same code in both), and `get_statistics`
    of app_flow_style.py. The averages, medians and `most_common` orderings
    are not modelled. */
module Statistics {
  import opened Alumni
  import opened Tally

  /** `{'total_alumni', 'paths_with_cdtm', 'field_counter', 'degree_counter'}`. */
  datatype Stats = Stats(totalAlumni: nat, pathsWithCdtm: nat, fieldCounter: Tally<string>, degreeCounter: Tally<string>)

  /** The same dictionary of app_flow_style.py, which has no `paths_with_cdtm`. */
  datatype FlowStats = FlowStats(totalAlumni: nat, fieldCounter: Tally<string>, degreeCounter: Tally<string>)

  /** `any(n.get('is_cdtm') for n in p['nodes'])` */
  predicate AnyCdtm(nodes: seq<Node>)
  {
    exists i :: 0 <= i < |nodes| && nodes[i].isCdtm
  }

  /** `sum(1 for p in paths if any(n.get('is_cdtm') for n in p['nodes']))` */
  function PathsWithCdtm(paths: seq<Path>): nat
  {
    if paths == [] then 0
    else PathsWithCdtm(paths[..|paths| - 1]) + (if AnyCdtm(paths[|paths| - 1].nodes) then 1 else 0)
  }

  /** `[p['primary_field'] for p in paths]` */
  function PrimaryFields(paths: seq<Path>): (r: seq<string>)
    ensures |r| == |paths| && forall i :: 0 <= i < |paths| ==> r[i] == paths[i].primaryField
  {
    seq(|paths|, i requires 0 <= i < |paths| => paths[i].primaryField)
  }

  /** The degrees of `nodes` in order, of the non-CDTM nodes only when
      `realOnly` holds. */
  function Degrees(nodes: seq<Node>, realOnly: bool): seq<string>
  {
    if nodes == [] then []
    else
      var rest := Degrees(nodes[..|nodes| - 1], realOnly);
      var n := nodes[|nodes| - 1];
      if realOnly && n.isCdtm then rest else rest + [n.degree]
  }

  /** The degrees the nested loop counts, path after path. */
  function PathDegrees(paths: seq<Path>, realOnly: bool): seq<string>
  {
    if paths == [] then []
    else PathDegrees(paths[..|paths| - 1], realOnly) + Degrees(paths[|paths| - 1].nodes, realOnly)
  }

  /** Number of nodes of all paths, of non-CDTM nodes only when `realOnly`
      holds. */
  function NodeTotal(paths: seq<Path>, realOnly: bool): nat
  {
    if paths == [] then 0
    else
      var nodes := paths[|paths| - 1].nodes;
      NodeTotal(paths[..|paths| - 1], realOnly) + (if realOnly then |RealNodes(nodes)| else |nodes|)
  }

  /** One more node: its degree is counted unless it is a skipped CDTM node. */
  lemma {:induction false} DegreesStep(nodes: seq<Node>, realOnly: bool, j: nat)
    requires j < |nodes|
    ensures Degrees(nodes[..j + 1], realOnly) ==
      if realOnly && nodes[j].isCdtm then Degrees(nodes[..j], realOnly) else Degrees(nodes[..j], realOnly) + [nodes[j].degree]
  {
    assert nodes[..j + 1][..j] == nodes[..j];
  }

  /** One more path: its degrees follow those counted so far. */
  lemma {:induction false} PathDegreesStep(paths: seq<Path>, realOnly: bool, i: nat)
    requires i < |paths|
    ensures PathDegrees(paths[..i + 1], realOnly) == PathDegrees(paths[..i], realOnly) + Degrees(paths[i].nodes, realOnly)
  {
    assert paths[..i + 1][..i] == paths[..i];
  }

  /** The inner `for node in path['nodes']` loop, on top of the counter of
      the degrees `before`. */
  method AddDegrees(nodes: seq<Node>, realOnly: bool, degreeCounter0: Tally<string>, ghost before: seq<string>)
    returns (degreeCounter: Tally<string>)
    requires degreeCounter0 == Of(before)
    ensures degreeCounter == Of(before + Degrees(nodes, realOnly))
  {
    degreeCounter := degreeCounter0;
    assert before + Degrees(nodes[..0], realOnly) == before;
    for j := 0 to |nodes|
      invariant degreeCounter == Of(before + Degrees(nodes[..j], realOnly))
    {
      var node := nodes[j];
      DegreesStep(nodes, realOnly, j);
      if !(realOnly && node.isCdtm) {
        ghost var done := before + Degrees(nodes[..j], realOnly);
        assert before + Degrees(nodes[..j + 1], realOnly) == done + [node.degree];
        OfSnoc(done, node.degree);
        degreeCounter := Add(degreeCounter, node.degree);
      }
    }
    assert nodes[..|nodes|] == nodes;
  }

  /** The nested `for path in paths: for node in path['nodes']` loop that
      does `degree_counter[node['degree']] += 1`, skipping CDTM nodes when
      `realOnly` holds. */
  method CountDegrees(paths: seq<Path>, realOnly: bool) returns (degreeCounter: Tally<string>)
    ensures degreeCounter == Of(PathDegrees(paths, realOnly))
  {
    degreeCounter := Empty();
    for i := 0 to |paths|
      invariant degreeCounter == Of(PathDegrees(paths[..i], realOnly))
    {
      PathDegreesStep(paths, realOnly, i);
      degreeCounter := AddDegrees(paths[i].nodes, realOnly, degreeCounter, PathDegrees(paths[..i], realOnly));
    }
    assert paths[..|paths|] == paths;
  }

  /** `get_statistics(paths)` of app.py and app_plotly.py: nothing for no
      paths, else the number of paths, the number with a CDTM node, the
      primary fields counted, and the degrees of the non-CDTM nodes counted. */
  method GetStatistics(paths: seq<Path>) returns (stats: Option<Stats>)
    ensures paths == [] ==> stats == None
    ensures paths != [] ==>
      stats == Some(Stats(|paths|, PathsWithCdtm(paths), Of(PrimaryFields(paths)), Of(PathDegrees(paths, true))))
  {
    if paths == [] {
      return None;
    }
    var totalAlumni := |paths|;
    var pathsWithCdtm := PathsWithCdtm(paths);
    var fieldCounter := Of(PrimaryFields(paths));
    var degreeCounter := CountDegrees(paths, true);
    stats := Some(Stats(totalAlumni, pathsWithCdtm, fieldCounter, degreeCounter));
  }

  /** `get_statistics(paths)` of app_flow_style.py: every node's degree is
      counted. */
  method GetFlowStatistics(paths: seq<Path>) returns (stats: Option<FlowStats>)
    ensures paths == [] ==> stats == None
    ensures paths != [] ==>
      stats == Some(FlowStats(|paths|, Of(PrimaryFields(paths)), Of(PathDegrees(paths, false))))
  {
    if paths == [] {
      return None;
    }
    var totalAlumni := |paths|;
    var fieldCounter := Of(PrimaryFields(paths));
    var degreeCounter := CountDegrees(paths, false);
    stats := Some(FlowStats(totalAlumni, fieldCounter, degreeCounter));
  }

  /** Each path with a CDTM node is counted once, so never more than the
      paths. */
  lemma {:induction false} PathsWithCdtmBound(paths: seq<Path>)
    ensures PathsWithCdtm(paths) <= |paths|
    ensures PathsWithCdtm(paths) == |paths| <==> forall i :: 0 <= i < |paths| ==> AnyCdtm(paths[i].nodes)
  {
    if paths != [] {
      var init := paths[..|paths| - 1];
      PathsWithCdtmBound(init);
      assert forall i :: 0 <= i < |init| ==> init[i] == paths[i];
    }
  }

  /** The counted degrees are as many as the nodes counted. */
  lemma {:induction false} DegreesCount(nodes: seq<Node>, realOnly: bool)
    ensures |Degrees(nodes, realOnly)| == if realOnly then |RealNodes(nodes)| else |nodes|
  {
    if nodes != [] {
      var init := nodes[..|nodes| - 1];
      var n := nodes[|nodes| - 1];
      DegreesCount(init, realOnly);
      assert nodes == init + [n];
      RealNodesAppend(init, [n]);
      assert [n][1..] == [];
    }
  }

  lemma {:induction false} PathDegreesCount(paths: seq<Path>, realOnly: bool)
    ensures |PathDegrees(paths, realOnly)| == NodeTotal(paths, realOnly)
  {
    if paths != [] {
      PathDegreesCount(paths[..|paths| - 1], realOnly);
      DegreesCount(paths[|paths| - 1].nodes, realOnly);
    }
  }

  /** The counters of `get_statistics`: the field counts sum to the number
      of paths, each being the number of paths with that primary field; the
      degree counts sum to the number of nodes counted (all of them, or the
      non-CDTM ones); and `paths_with_cdtm` is at most `total_alumni`. */
  lemma {:induction false} StatisticsTotals(paths: seq<Path>, realOnly: bool)
    ensures Total(Of(PrimaryFields(paths))) == |paths|
    ensures forall f :: Count(Of(PrimaryFields(paths)), f) == Occurrences(PrimaryFields(paths), f)
    ensures Total(Of(PathDegrees(paths, realOnly))) == NodeTotal(paths, realOnly)
    ensures forall d :: Count(Of(PathDegrees(paths, realOnly)), d) == Occurrences(PathDegrees(paths, realOnly), d)
    ensures PathsWithCdtm(paths) <= |paths|
  {
    OfProperties(PrimaryFields(paths));
    OfProperties(PathDegrees(paths, realOnly));
    PathDegreesCount(paths, realOnly);
    PathsWithCdtmBound(paths);
  }
}
