/** The Sankey builders of visualize_education_paths.py and
    visualize_education_paths_enhanced.py. Each picks, for every sequence,
    at most one stage per degree level in a fixed level order, links
    consecutive stages, counts the links, and turns them into the sorted
    node list and the parallel `sources`/`targets`/`values` arrays. The
    builders differ only in the level list and in the node label, which are
    parameters here. */
module Sankey {
  import opened Text
  import opened Tally

  /** A `(source_label, target_label)` flow key. */
  type Flow = (string, string)

  /** `sequence[j]` is the first entry of level `level`. */
  predicate FirstOfLevel<E>(sequence: seq<E>, level: string, levelOf: E -> string, j: nat)
  {
    j < |sequence| && levelOf(sequence[j]) == level && forall i :: 0 <= i < j ==> levelOf(sequence[i]) != level
  }

  /** `[e for e in sequence if e['degree_level'] == level]` */
  function {:induction false} WithLevel<E>(sequence: seq<E>, level: string, levelOf: E -> string): (r: seq<E>)
    ensures forall k :: 0 <= k < |r| ==> r[k] in sequence && levelOf(r[k]) == level
    ensures r == [] <==> forall j :: 0 <= j < |sequence| ==> levelOf(sequence[j]) != level
    ensures r != [] ==> exists j: nat :: FirstOfLevel(sequence, level, levelOf, j) && r[0] == sequence[j]
  {
    if sequence == [] then []
    else
      var rest := WithLevel(sequence[1..], level, levelOf);
      assert forall k :: 0 <= k < |rest| ==> rest[k] in sequence;
      assert forall j :: 0 < j < |sequence| ==> sequence[j] == sequence[1..][j - 1];
      if levelOf(sequence[0]) == level then
        assert FirstOfLevel(sequence, level, levelOf, 0);
        [sequence[0]] + rest
      else
        assert rest != [] ==> exists j: nat :: FirstOfLevel(sequence, level, levelOf, j) && rest[0] == sequence[j] by {
          if rest != [] {
            var j: nat :| FirstOfLevel(sequence[1..], level, levelOf, j) && rest[0] == sequence[1..][j];
            assert FirstOfLevel(sequence, level, levelOf, j + 1);
          }
        }
        rest
  }

  /** The `stages` of one sequence: for each level in order, the first entry
      of that level, if any. */
  function Stages<E>(sequence: seq<E>, levels: seq<string>, levelOf: E -> string): seq<E>
  {
    if levels == [] then []
    else
      var rest := Stages(sequence, levels[..|levels| - 1], levelOf);
      var entries := WithLevel(sequence, levels[|levels| - 1], levelOf);
      if entries == [] then rest else rest + [entries[0]]
  }

  /** The `stages.append(entries[0])` loop over the level list. */
  method SelectStages<E>(sequence: seq<E>, levels: seq<string>, levelOf: E -> string) returns (stages: seq<E>)
    ensures stages == Stages(sequence, levels, levelOf)
  {
    stages := [];
    for l := 0 to |levels|
      invariant stages == Stages(sequence, levels[..l], levelOf)
    {
      assert levels[..l + 1][..l] == levels[..l];
      var entries := WithLevel(sequence, levels[l], levelOf);
      if entries != [] {
        stages := stages + [entries[0]];
      }
    }
    assert levels[..|levels|] == levels;
  }

  /** An element of a list is found at the same index in a longer list. */
  lemma {:induction false} IndexOfSnoc(s: seq<string>, y: string, x: string)
    requires x in s
    ensures IndexOf(s + [y], x) == IndexOf(s, x)
  {
    assert forall j :: 0 <= j < |s| ==> (s + [y])[j] == s[j];
  }

  /** The new last element of a list is found at the end. */
  lemma {:induction false} IndexOfLast(s: seq<string>, y: string)
    requires y !in s
    ensures IndexOf(s + [y], y) == |s|
  {
    assert forall j :: 0 <= j < |s| ==> (s + [y])[j] == s[j];
  }

  /** At most one stage per level, only for listed levels, each the first
      entry of its level. */
  lemma {:induction false} StagesFirstOfLevel<E>(sequence: seq<E>, levels: seq<string>, levelOf: E -> string)
    ensures |Stages(sequence, levels, levelOf)| <= |levels|
    ensures forall k :: 0 <= k < |Stages(sequence, levels, levelOf)| ==>
      var stage := Stages(sequence, levels, levelOf)[k];
      && levelOf(stage) in levels
      && WithLevel(sequence, levelOf(stage), levelOf) != []
      && stage == WithLevel(sequence, levelOf(stage), levelOf)[0]
  {
    if levels != [] {
      var init := levels[..|levels| - 1];
      StagesFirstOfLevel(sequence, init, levelOf);
      assert forall x :: x in init ==> x in levels;
    }
  }

  /** Stages come in the order of the level list. */
  lemma {:induction false} StagesOrdered<E>(sequence: seq<E>, levels: seq<string>, levelOf: E -> string)
    requires Distinct(levels)
    ensures forall k, k' :: 0 <= k < k' < |Stages(sequence, levels, levelOf)| ==>
      && levelOf(Stages(sequence, levels, levelOf)[k]) in levels
      && levelOf(Stages(sequence, levels, levelOf)[k']) in levels
      && IndexOf(levels, levelOf(Stages(sequence, levels, levelOf)[k])) < IndexOf(levels, levelOf(Stages(sequence, levels, levelOf)[k']))
  {
    if levels != [] {
      var init := levels[..|levels| - 1];
      var last := levels[|levels| - 1];
      assert levels == init + [last];
      assert Distinct(init);
      assert last !in init;
      StagesOrdered(sequence, init, levelOf);
      StagesFirstOfLevel(sequence, init, levelOf);
      var rest := Stages(sequence, init, levelOf);
      var st := Stages(sequence, levels, levelOf);
      forall x | x in init ensures IndexOf(levels, x) == IndexOf(init, x) < |init| {
        IndexOfSnoc(init, last, x);
      }
      IndexOfLast(init, last);
      assert forall k :: 0 <= k < |rest| ==> st[k] == rest[k] && levelOf(st[k]) in init;
      forall k, k' | 0 <= k < k' < |st|
        ensures levelOf(st[k]) in levels && levelOf(st[k']) in levels
        ensures IndexOf(levels, levelOf(st[k])) < IndexOf(levels, levelOf(st[k']))
      {
        if k' < |rest| {
          assert st[k] == rest[k] && st[k'] == rest[k'];
        } else {
          assert st[k'] == WithLevel(sequence, last, levelOf)[0];
          assert levelOf(st[k']) == last;
        }
      }
      assert forall k, k' :: 0 <= k < k' < |st| ==> IndexOf(levels, levelOf(st[k])) < IndexOf(levels, levelOf(st[k']));
    } else {
      assert Stages(sequence, levels, levelOf) == [];
    }
  }

  /** Some stage has level `l`. */
  predicate HasStage<E>(stages: seq<E>, l: string, levelOf: E -> string)
  {
    exists k :: 0 <= k < |stages| && levelOf(stages[k]) == l
  }

  /** Every listed level that occurs in the sequence has its stage, and no
      other level has one. */
  lemma {:induction false} StagesComplete<E>(sequence: seq<E>, levels: seq<string>, levelOf: E -> string)
    ensures forall l :: l in levels ==>
      (HasStage(Stages(sequence, levels, levelOf), l, levelOf) <==> WithLevel(sequence, l, levelOf) != [])
  {
    if levels != [] {
      var init := levels[..|levels| - 1];
      var last := levels[|levels| - 1];
      assert levels == init + [last];
      StagesComplete(sequence, init, levelOf);
      var rest := Stages(sequence, init, levelOf);
      var st := Stages(sequence, levels, levelOf);
      assert forall k :: 0 <= k < |rest| ==> st[k] == rest[k];
      forall l | l in levels && WithLevel(sequence, l, levelOf) != []
        ensures HasStage(st, l, levelOf)
      {
        if l == last {
          assert levelOf(st[|st| - 1]) == l;
        } else {
          var k :| 0 <= k < |rest| && levelOf(rest[k]) == l;
          assert levelOf(st[k]) == l;
        }
      }
      forall l | l in levels && HasStage(st, l, levelOf)
        ensures WithLevel(sequence, l, levelOf) != []
      {
        var k :| 0 <= k < |st| && levelOf(st[k]) == l;
        StagesFirstOfLevel(sequence, levels, levelOf);
      }
    }
  }

  /** The flows `(label(stages[i]), label(stages[i + 1]))` of one sequence:
      `len(stages) - 1` of them, none for a single stage. */
  function Transitions<E>(stages: seq<E>, labelOf: E -> string): (r: seq<Flow>)
    ensures |r| == if |stages| == 0 then 0 else |stages| - 1
  {
    seq(if |stages| == 0 then 0 else |stages| - 1, i requires 0 <= i < |stages| - 1 => (labelOf(stages[i]), labelOf(stages[i + 1])))
  }

  /** Every flow of every sequence, sequence after sequence. */
  function AllTransitions<E>(sequences: seq<seq<E>>, levels: seq<string>, levelOf: E -> string, labelOf: E -> string): seq<Flow>
  {
    if sequences == [] then []
    else
      AllTransitions(sequences[..|sequences| - 1], levels, levelOf, labelOf)
      + Transitions(Stages(sequences[|sequences| - 1], levels, levelOf), labelOf)
  }

  /** The labels `node_set` collects: both ends of every flow. */
  function Endpoints(flows: seq<Flow>): set<string>
  {
    if flows == [] then {}
    else Endpoints(flows[..|flows| - 1]) + {flows[|flows| - 1].0, flows[|flows| - 1].1}
  }

  lemma {:induction false} EndpointsHold(flows: seq<Flow>)
    ensures forall t :: t in flows ==> t.0 in Endpoints(flows) && t.1 in Endpoints(flows)
    ensures forall x :: x in Endpoints(flows) ==> exists t :: t in flows && (x == t.0 || x == t.1)
  {
    if flows != [] {
      var init := flows[..|flows| - 1];
      EndpointsHold(init);
      assert flows == init + [flows[|flows| - 1]];
    }
  }

  /** One more flow adds its two labels and bumps its count. */
  lemma {:induction false} CountStep(done: seq<Flow>, t: Flow)
    ensures Endpoints(done + [t]) == Endpoints(done) + {t.0, t.1}
    ensures Of(done + [t]) == Add(Of(done), t)
  {
    assert (done + [t])[..|done|] == done;
    OfSnoc(done, t);
  }

  /** One more flow of a sequence: the pair of stages `i` and `i + 1`. */
  lemma {:induction false} TransitionsStep<E>(before: seq<Flow>, stages: seq<E>, labelOf: E -> string, i: nat)
    requires i + 1 < |stages|
    ensures before + Transitions(stages, labelOf)[..i + 1]
      == (before + Transitions(stages, labelOf)[..i]) + [(labelOf(stages[i]), labelOf(stages[i + 1]))]
  {
    var flows := Transitions(stages, labelOf);
    assert flows[..i + 1] == flows[..i] + [flows[i]];
  }

  /** One more sequence appends its flows. */
  lemma {:induction false} AllTransitionsPrefix<E>(sequences: seq<seq<E>>, s: nat, levels: seq<string>, levelOf: E -> string, labelOf: E -> string)
    requires s < |sequences|
    ensures AllTransitions(sequences[..s + 1], levels, levelOf, labelOf)
      == AllTransitions(sequences[..s], levels, levelOf, labelOf) + Transitions(Stages(sequences[s], levels, levelOf), labelOf)
  {
    assert sequences[..s + 1][..s] == sequences[..s];
  }

  /** The inner loop of the builder over the stages of one sequence, on
      top of the labels and counts gathered so far for the flows `before`. */
  method AddFlows<E>(stages: seq<E>, labelOf: E -> string, nodeSet0: set<string>, flowCounter0: Tally<Flow>, ghost before: seq<Flow>)
    returns (nodeSet: set<string>, flowCounter: Tally<Flow>)
    requires nodeSet0 == Endpoints(before) && flowCounter0 == Of(before)
    ensures nodeSet == Endpoints(before + Transitions(stages, labelOf))
    ensures flowCounter == Of(before + Transitions(stages, labelOf))
  {
    nodeSet, flowCounter := nodeSet0, flowCounter0;
    ghost var flows := Transitions(stages, labelOf);
    assert before + flows[..0] == before;
    var transitions := if |stages| == 0 then 0 else |stages| - 1;
    for i := 0 to transitions
      invariant nodeSet == Endpoints(before + flows[..i])
      invariant flowCounter == Of(before + flows[..i])
    {
      var currentNode := labelOf(stages[i]);
      var nextNode := labelOf(stages[i + 1]);
      ghost var done := before + flows[..i];
      TransitionsStep(before, stages, labelOf, i);
      CountStep(done, (currentNode, nextNode));
      nodeSet := nodeSet + {currentNode, nextNode};
      flowCounter := Add(flowCounter, (currentNode, nextNode));
    }
    assert flows[..|flows|] == flows;
  }

  /** The first loop of the builder: `node_set.add` of both labels and
      `flow_counter[(current, next)] += 1` for each consecutive pair of
      stages. */
  method CountFlows<E>(sequences: seq<seq<E>>, levels: seq<string>, levelOf: E -> string, labelOf: E -> string)
    returns (nodeSet: set<string>, flowCounter: Tally<Flow>)
    ensures nodeSet == Endpoints(AllTransitions(sequences, levels, levelOf, labelOf))
    ensures flowCounter == Of(AllTransitions(sequences, levels, levelOf, labelOf))
  {
    nodeSet := {};
    flowCounter := Empty();
    for s := 0 to |sequences|
      invariant nodeSet == Endpoints(AllTransitions(sequences[..s], levels, levelOf, labelOf))
      invariant flowCounter == Of(AllTransitions(sequences[..s], levels, levelOf, labelOf))
    {
      AllTransitionsPrefix(sequences, s, levels, levelOf, labelOf);
      var stages := SelectStages(sequences[s], levels, levelOf);
      nodeSet, flowCounter := AddFlows(stages, labelOf, nodeSet, flowCounter, AllTransitions(sequences[..s], levels, levelOf, labelOf));
    }
    assert sequences[..|sequences|] == sequences;
  }

  function Sum(xs: seq<nat>): nat
  {
    if xs == [] then 0 else Sum(xs[..|xs| - 1]) + xs[|xs| - 1]
  }

  lemma {:induction false} SumSnoc(xs: seq<nat>, x: nat)
    ensures Sum(xs + [x]) == Sum(xs) + x
  {
    assert (xs + [x])[..|xs|] == xs;
  }

  lemma {:induction false} SumCountsPrefix<K>(keys: seq<K>, t: Tally<K>, k: nat)
    requires k < |keys|
    ensures SumCounts(keys[..k + 1], t) == SumCounts(keys[..k], t) + Count(t, keys[k])
  {
    assert keys[..k + 1][..k] == keys[..k];
  }

  /** One row of the flow arrays: the indices of both labels of `key` and
      its count. */
  predicate Row(nodeList: seq<string>, flowCounter: Tally<Flow>, key: Flow, source: nat, target: nat, value: nat)
  {
    && source < |nodeList| && nodeList[source] == key.0
    && target < |nodeList| && nodeList[target] == key.1
    && value == Count(flowCounter, key)
  }

  /** The last loop of the builder: for each flow in first-seen order, the
      `node_dict` index of both labels and the count. */
  method FlowArrays(nodeList: seq<string>, flowCounter: Tally<Flow>) returns (sources: seq<nat>, targets: seq<nat>, values: seq<nat>)
    requires forall k :: k in flowCounter.keys ==> k.0 in nodeList && k.1 in nodeList
    ensures |sources| == |targets| == |values| == |flowCounter.keys|
    ensures forall i :: 0 <= i < |sources| ==> sources[i] < |nodeList| && nodeList[sources[i]] == flowCounter.keys[i].0
    ensures forall i :: 0 <= i < |targets| ==> targets[i] < |nodeList| && nodeList[targets[i]] == flowCounter.keys[i].1
    ensures forall i :: 0 <= i < |values| ==> values[i] == Count(flowCounter, flowCounter.keys[i])
    ensures Sum(values) == Total(flowCounter)
  {
    var keys := flowCounter.keys;
    sources, targets, values := [], [], [];
    for k := 0 to |keys|
      invariant |sources| == |targets| == |values| == k
      invariant forall i :: 0 <= i < k ==> Row(nodeList, flowCounter, keys[i], sources[i], targets[i], values[i])
      invariant Sum(values) == SumCounts(keys[..k], flowCounter)
    {
      var key := keys[k];
      assert key in keys;
      var source := IndexOf(nodeList, key.0);
      var target := IndexOf(nodeList, key.1);
      var value := Count(flowCounter, key);
      SumCountsPrefix(keys, flowCounter, k);
      SumSnoc(values, value);
      assert Row(nodeList, flowCounter, key, source, target, value);
      sources := sources + [source];
      targets := targets + [target];
      values := values + [value];
    }
    assert keys[..|keys|] == keys;
  }

  /** Arithmetic step of `AllTransitionsBound`. */
  lemma {:induction false} MulSucc(n: nat, m: nat)
    ensures n * m + m == (n + 1) * m
  {
  }

  /** No more stages than levels. */
  lemma {:induction false} StagesBound<E>(sequence: seq<E>, levels: seq<string>, levelOf: E -> string)
    ensures |Stages(sequence, levels, levelOf)| <= |levels|
  {
    if levels != [] {
      StagesBound(sequence, levels[..|levels| - 1], levelOf);
    }
  }

  /** With `n` levels a sequence has at most `n` stages and so at most
      `n - 1` flows. */
  lemma {:induction false} AllTransitionsBound<E>(sequences: seq<seq<E>>, levels: seq<string>, levelOf: E -> string, labelOf: E -> string)
    requires |levels| >= 1
    ensures |AllTransitions(sequences, levels, levelOf, labelOf)| <= |sequences| * (|levels| - 1)
  {
    if sequences != [] {
      var init := sequences[..|sequences| - 1];
      AllTransitionsBound(init, levels, levelOf, labelOf);
      StagesBound(sequences[|sequences| - 1], levels, levelOf);
      MulSucc(|init|, |levels| - 1);
    }
  }

  /** The stages of one sequence have pairwise different levels, so when
      the node label tells the levels apart no flow links a node to
      itself. */
  lemma {:induction false} NoSelfLoop<E>(sequences: seq<seq<E>>, levels: seq<string>, levelOf: E -> string, labelOf: E -> string)
    requires Distinct(levels)
    requires forall e1, e2 :: levelOf(e1) in levels && levelOf(e2) in levels && levelOf(e1) != levelOf(e2) ==> labelOf(e1) != labelOf(e2)
    ensures forall t :: t in AllTransitions(sequences, levels, levelOf, labelOf) ==> t.0 != t.1
  {
    if sequences != [] {
      var init := sequences[..|sequences| - 1];
      var last := sequences[|sequences| - 1];
      NoSelfLoop(init, levels, levelOf, labelOf);
      var stages := Stages(last, levels, levelOf);
      StagesOrdered(last, levels, levelOf);
      var flows := Transitions(stages, labelOf);
      forall t | t in flows ensures t.0 != t.1 {
        var i :| 0 <= i < |flows| && flows[i] == t;
        assert IndexOf(levels, levelOf(stages[i])) < IndexOf(levels, levelOf(stages[i + 1]));
      }
    }
  }

  /** `build_sankey_data`: the sorted node labels and, for every distinct
      flow in first-seen order, the index of its source and target label
      among the nodes and the number of times it occurs. The values add up
      to the number of flows, and no node is linked to itself. */
  method BuildSankey<E>(sequences: seq<seq<E>>, levels: seq<string>, levelOf: E -> string, labelOf: E -> string)
    returns (nodeList: seq<string>, sources: seq<nat>, targets: seq<nat>, values: seq<nat>)
    requires Distinct(levels)
    requires forall e1, e2 :: levelOf(e1) in levels && levelOf(e2) in levels && levelOf(e1) != levelOf(e2) ==> labelOf(e1) != labelOf(e2)
    ensures var flows := AllTransitions(sequences, levels, levelOf, labelOf);
      && StrictlySorted(nodeList)
      && (forall x :: x in nodeList <==> exists t :: t in flows && (x == t.0 || x == t.1))
      && |sources| == |targets| == |values| == |Dedup(flows)|
      && (forall i :: 0 <= i < |sources| ==>
            && sources[i] < |nodeList| && nodeList[sources[i]] == Dedup(flows)[i].0
            && targets[i] < |nodeList| && nodeList[targets[i]] == Dedup(flows)[i].1
            && sources[i] != targets[i]
            && values[i] == Occurrences(flows, Dedup(flows)[i]) && values[i] >= 1)
      && Sum(values) == |flows|
  {
    NoSelfLoop(sequences, levels, levelOf, labelOf);
    ghost var flows := AllTransitions(sequences, levels, levelOf, labelOf);
    var nodeSet, flowCounter := CountFlows(sequences, levels, levelOf, labelOf);
    EndpointsHold(flows);
    OfProperties(flows);
    DedupProperties(flows);
    nodeList := SortedList(nodeSet);
    sources, targets, values := FlowArrays(nodeList, flowCounter);
    forall i | 0 <= i < |sources| ensures sources[i] != targets[i] {
      assert Dedup(flows)[i] in flows;
      LessIrreflexive(nodeList[sources[i]]);
    }
  }
}
