/** The data the pipeline reads and builds: raw education records as loaded
    from the alumni dataset, the schools reference table, and the nodes and
    paths handed to the charts. */
module Alumni {
  import opened Text

  datatype Option<+T> = None | Some(value: T) {
    /** Python's `x or default` for a value that is None or a non-empty string. */
    function GetOr(default: T): T
    {
      match this
      case Some(v) => v
      case None => default
    }
  }

  /** One raw education entry: a JSON object with string values. */
  type Record = map<string, string>

  /** `record.get(key, '')` */
  function Field(r: Record, key: string): (s: string)
    ensures key in r ==> s == r[key]
    ensures key !in r ==> s == ""
  {
    if key in r then r[key] else ""
  }

  /** One alumnus: the string-valued attributes (`full_name`, `headline`,
      `linkedin_url`, ...) and the ordered education history. A missing
      `education_path` key reads as the empty history. */
  datatype Person = Person(attributes: map<string, string>, educationPath: seq<Record>)
  {
    /** `person.get(key, default)` */
    function Attribute(key: string, default: string): (s: string)
      ensures key in attributes ==> s == attributes[key]
      ensures key !in attributes ==> s == default
    {
      if key in attributes then attributes[key] else default
    }
  }

  /** An entry of the schools table; a key missing from the JSON object is None. */
  datatype SchoolInfo = SchoolInfo(institutionType: Option<string>, country: Option<string>, isTopTier: Option<bool>)

  /** The schools reference table, keyed by exact school name. */
  type Schools = map<string, SchoolInfo>

  /** `schools[name].get('institution_type', fallback)` if `name in schools`,
      else `fallback`: a lookup that never fails. */
  function InstitutionType(schools: Schools, name: string, fallback: string): (r: string)
    ensures name !in schools ==> r == fallback
    ensures name in schools && schools[name].institutionType.Some? ==> r == schools[name].institutionType.value
    ensures name in schools && schools[name].institutionType.None? ==> r == fallback
  {
    if name in schools then schools[name].institutionType.GetOr(fallback) else fallback
  }

  /** `'CDTM' in school_name or 'Center for Digital Technology' in school_name`
      (case-sensitive). */
  predicate IsCdtm(school: string)
  {
    Contains(school, "CDTM") || Contains(school, "Center for Digital Technology")
  }

  /** The `cdtm_level` entry of a node: absent on ordinary nodes, a level
      name in most variants, the raw record index in the Flask variant. */
  datatype CdtmTag = Untagged | LevelName(level: string) | RecordIndex(index: nat)

  /** A path node `{'degree', 'field', 'institution', 'is_cdtm', 'cdtm_level'}`.
      Nodes of the variants that never add a CDTM node have no `is_cdtm`
      key, which `node.get('is_cdtm')` reads as false. */
  datatype Node = Node(degree: string, field: string, institution: string, isCdtm: bool, cdtmLevel: CdtmTag)

  /** A path `{'nodes', 'primary_field', ...}`; `details` holds the copied
      person attributes (`name`, and `headline`/`linkedin_url` where the
      variant copies them). */
  datatype Path = Path(nodes: seq<Node>, primaryField: string, details: map<string, string>)

  /** The optional `field` and `degree` criteria of a filter dictionary; a
      missing key is None. */
  datatype Filters = Filters(field: Option<string>, degree: Option<string>)

  /** `filters.get(key) and filters[key] != 'All'`: the criterion is active. */
  predicate Selects(choice: Option<string>)
  {
    choice.Some? && choice.value != "" && choice.value != "All"
  }

  /** `list.insert(i, x)` for an index within the list. */
  function InsertAt<T>(s: seq<T>, i: nat, x: T): (r: seq<T>)
    requires i <= |s|
    ensures |r| == |s| + 1 && r[i] == x
    ensures r[..i] == s[..i] && r[i + 1..] == s[i..]
  {
    s[..i] + [x] + s[i..]
  }

  /** After `list.insert(i, x)` the elements before `i` keep their index
      and the ones from `i` on move up by one. */
  lemma {:induction false} InsertAtElements<T>(s: seq<T>, i: nat, x: T)
    requires i <= |s|
    ensures forall j :: 0 <= j < |s| + 1 && j != i ==> InsertAt(s, i, x)[j] == s[if j < i then j else j - 1]
  {
    var r := InsertAt(s, i, x);
    forall j | 0 <= j < |s| + 1 && j != i ensures r[j] == s[if j < i then j else j - 1] {
      if j < i { assert r[j] == r[..i][j]; }
      else { assert r[j] == r[i + 1..][j - i - 1]; }
    }
  }

  /** The nodes that are not CDTM nodes, in order. */
  function RealNodes(nodes: seq<Node>): seq<Node>
  {
    if nodes == [] then []
    else (if nodes[0].isCdtm then [] else [nodes[0]]) + RealNodes(nodes[1..])
  }

  /** Number of CDTM nodes. */
  function CdtmCount(nodes: seq<Node>): nat
  {
    if nodes == [] then 0 else (if nodes[0].isCdtm then 1 else 0) + CdtmCount(nodes[1..])
  }

  /** `any(node['degree'] == d for node in nodes)` */
  predicate HasDegree(nodes: seq<Node>, d: string)
  {
    exists i :: 0 <= i < |nodes| && nodes[i].degree == d
  }

  lemma {:induction false} RealNodesAppend(a: seq<Node>, b: seq<Node>)
    ensures RealNodes(a + b) == RealNodes(a) + RealNodes(b)
    ensures CdtmCount(a + b) == CdtmCount(a) + CdtmCount(b)
  {
    if a == [] {
      assert a + b == b;
    } else {
      assert (a + b)[1..] == a[1..] + b;
      RealNodesAppend(a[1..], b);
    }
  }

  /** The CDTM nodes are counted: there is one exactly when the count is
      positive. */
  lemma {:induction false} CdtmCountPositive(nodes: seq<Node>)
    ensures CdtmCount(nodes) > 0 <==> exists i :: 0 <= i < |nodes| && nodes[i].isCdtm
  {
    if nodes != [] {
      CdtmCountPositive(nodes[1..]);
      if CdtmCount(nodes[1..]) > 0 {
        var i :| 0 <= i < |nodes[1..]| && nodes[1..][i].isCdtm;
        assert nodes[i + 1].isCdtm;
      }
      if exists i :: 0 <= i < |nodes| && nodes[i].isCdtm {
        var i :| 0 <= i < |nodes| && nodes[i].isCdtm;
        if i > 0 { assert nodes[1..][i - 1].isCdtm; }
      }
    }
  }

  /** Every node that is not a CDTM node is among the real nodes. */
  lemma {:induction false} RealNodesMember(nodes: seq<Node>, i: nat)
    requires i < |nodes| && !nodes[i].isCdtm
    ensures nodes[i] in RealNodes(nodes)
  {
    if i > 0 {
      RealNodesMember(nodes[1..], i - 1);
    }
  }

  /** Nodes none of which is a CDTM node are their own real nodes. */
  lemma {:induction false} RealNodesOfReal(nodes: seq<Node>)
    requires forall i :: 0 <= i < |nodes| ==> !nodes[i].isCdtm
    ensures RealNodes(nodes) == nodes && CdtmCount(nodes) == 0
  {
    if nodes != [] { RealNodesOfReal(nodes[1..]); }
  }

  /** Inserting one CDTM node into CDTM-free nodes: removing CDTM nodes gives
      back the original list in its order, and exactly one CDTM node exists. */
  lemma {:induction false} InsertCdtm(nodes: seq<Node>, i: nat, x: Node)
    requires i <= |nodes| && x.isCdtm
    requires forall j :: 0 <= j < |nodes| ==> !nodes[j].isCdtm
    ensures RealNodes(InsertAt(nodes, i, x)) == nodes
    ensures CdtmCount(InsertAt(nodes, i, x)) == 1
  {
    var s := InsertAt(nodes, i, x);
    if i == 0 {
      assert s[1..] == nodes;
      RealNodesOfReal(nodes);
    } else {
      assert s[0] == nodes[0];
      assert s[1..] == InsertAt(nodes[1..], i - 1, x);
      InsertCdtm(nodes[1..], i - 1, x);
      assert nodes == [nodes[0]] + nodes[1..];
    }
  }

  /** ... and that CDTM node sits at the insertion index, every other node
      being an original one. */
  lemma {:induction false} InsertCdtmAt(nodes: seq<Node>, i: nat, x: Node)
    requires i <= |nodes|
    requires forall j :: 0 <= j < |nodes| ==> !nodes[j].isCdtm
    ensures forall j :: 0 <= j < |nodes| + 1 && j != i ==>
      InsertAt(nodes, i, x)[j] == nodes[if j < i then j else j - 1]
    ensures forall j :: 0 <= j < |nodes| + 1 && InsertAt(nodes, i, x)[j].isCdtm ==> j == i
  {
    var r := InsertAt(nodes, i, x);
    InsertAtElements(nodes, i, x);
    forall j | 0 <= j < |nodes| + 1 && j != i ensures !r[j].isCdtm {
      assert r[j] == nodes[if j < i then j else j - 1];
    }
  }

  /** Index of the first node whose degree is one of `degrees`: the
      `for i, entry in enumerate(nodes): if ...: break` search. */
  function {:induction false} FirstIndexIn(nodes: seq<Node>, degrees: set<string>): (r: Option<nat>)
    ensures r.Some? ==> r.value < |nodes| && nodes[r.value].degree in degrees
    ensures r.Some? ==> forall j :: 0 <= j < r.value ==> nodes[j].degree !in degrees
    ensures r.None? <==> forall j :: 0 <= j < |nodes| ==> nodes[j].degree !in degrees
  {
    if nodes == [] then None
    else if nodes[0].degree in degrees then Some(0)
    else match FirstIndexIn(nodes[1..], degrees)
      case None => None
      case Some(i) => Some(i + 1)
  }

  /** A node that can decide the primary field: an ordinary node whose
      field is not "Other". */
  predicate Decides(n: Node)
  {
    !n.isCdtm && n.field != "Other"
  }

  /** The first field other than "Other" among the non-CDTM nodes, if any. */
  function {:induction false} PrimaryField(nodes: seq<Node>): (r: Option<string>)
    ensures r.Some? ==> r.value != "Other"
    ensures r.Some? ==> exists i :: 0 <= i < |nodes| && Decides(nodes[i]) && nodes[i].field == r.value
                                    && forall j :: 0 <= j < i ==> !Decides(nodes[j])
    ensures r.None? <==> forall j :: 0 <= j < |nodes| ==> !Decides(nodes[j])
  {
    if nodes == [] then None
    else if Decides(nodes[0]) then Some(nodes[0].field)
    else
      var r := PrimaryField(nodes[1..]);
      assert forall j :: 0 < j < |nodes| ==> nodes[j] == nodes[1..][j - 1];
      assert r.Some? ==> exists i :: 0 <= i < |nodes| && Decides(nodes[i]) && nodes[i].field == r.value
                                     && forall j :: 0 <= j < i ==> !Decides(nodes[j]) by {
        if r.Some? {
          var i :| 0 <= i < |nodes| - 1 && Decides(nodes[1..][i]) && nodes[1..][i].field == r.value
                   && forall j :: 0 <= j < i ==> !Decides(nodes[1..][j]);
          assert nodes[i + 1] == nodes[1..][i];
        }
      }
      r
  }

  /** The primary-field loop: `for entry in nodes: if entry['field'] != "Other"
      and not entry.get('is_cdtm'): primary_field = entry['field']; break`. */
  method FindPrimaryField(nodes: seq<Node>) returns (primary: Option<string>)
    ensures primary == PrimaryField(nodes)
  {
    primary := None;
    var i := 0;
    while i < |nodes|
      invariant 0 <= i <= |nodes|
      invariant forall j :: 0 <= j < i ==> nodes[j].isCdtm || nodes[j].field == "Other"
    {
      if nodes[i].field != "Other" && !nodes[i].isCdtm {
        primary := Some(nodes[i].field);
        return;
      }
      i := i + 1;
    }
  }

  /** The primary field of a list extended by one node: it stays once set,
      and the new node sets it when it is the first ordinary node with a
      field other than "Other". */
  lemma {:induction false} PrimaryFieldSnoc(nodes: seq<Node>, x: Node)
    ensures PrimaryField(nodes + [x]) ==
      if PrimaryField(nodes).Some? then PrimaryField(nodes)
      else if !x.isCdtm && x.field != "Other" then Some(x.field)
      else None
  {
    if nodes == [] {
      assert [] + [x] == [x];
      assert [x][1..] == [];
    } else {
      assert (nodes + [x])[1..] == nodes[1..] + [x];
      PrimaryFieldSnoc(nodes[1..], x);
    }
  }

  /** A CDTM node never decides the primary field. */
  lemma {:induction false} PrimaryFieldIgnoresCdtm(nodes: seq<Node>, i: nat, x: Node)
    requires i <= |nodes| && x.isCdtm
    ensures PrimaryField(InsertAt(nodes, i, x)) == PrimaryField(nodes)
  {
    var s := InsertAt(nodes, i, x);
    if i == 0 {
      assert s[1..] == nodes;
    } else {
      assert s[0] == nodes[0];
      assert s[1..] == InsertAt(nodes[1..], i - 1, x);
      PrimaryFieldIgnoresCdtm(nodes[1..], i - 1, x);
    }
  }
}
