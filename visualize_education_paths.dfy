/** visualize_education_paths.py: the education histories of the alumni,
    without their CDTM records, become per-person sequences of classified
    entries, and the sequences become one Sankey diagram whose nodes are
    "level - field" labels. */
module VisualizeEducationPaths {
  import opened Text
  import opened Taxonomy
  import opened Tally
  import opened Alumni
  import opened EducationTaxonomy
  import opened Sankey
  import FlowPaths

  const EngineeringTerms: seq<string> := [
    "engineering", "computer science", "informatics", "information systems",
    "software", "electrical", "mechanical", "industrial", "technology"]

  const FieldGroups: seq<Group> := [
    Group("Engineering/Tech", EngineeringTerms), Group("Business/Management", BusinessTerms),
    Group("Natural Sciences", ScienceTerms), Group("Social Sciences/Humanities", SocialTerms)]

  /** `categorize_field(field, degree)`: an empty field is
      "Business/Management" when the degree mentions 'mba' and "Unknown"
      otherwise; a non-empty field is the first category with a keyword in
      its lower-cased text, else "Other". */
  function CategorizeField(field: string, degree: string): (r: string)
    ensures r in {"Engineering/Tech", "Business/Management", "Natural Sciences", "Social Sciences/Humanities", "Other", "Unknown"}
    ensures field == "" ==> (r == "Business/Management" <==> Contains(Lower(degree), "mba"))
    ensures field == "" && r != "Business/Management" ==> r == "Unknown"
    ensures field != "" ==> (r ==
      var f := Lower(field);
      if AnyIn(f, EngineeringTerms) then "Engineering/Tech"
      else if AnyIn(f, BusinessTerms) then "Business/Management"
      else if AnyIn(f, ScienceTerms) then "Natural Sciences"
      else if AnyIn(f, SocialTerms) then "Social Sciences/Humanities"
      else "Other")
  {
    if field == "" then
      if degree != "" && Contains(Lower(degree), "mba") then "Business/Management" else "Unknown"
    else
      var f := Lower(field);
      var r := Classify(f, FieldGroups, "Other");
      assert FirstMatchAt(f, FieldGroups, 0) <==> AnyIn(f, EngineeringTerms);
      assert FirstMatchAt(f, FieldGroups, 1) <==> !AnyIn(f, EngineeringTerms) && AnyIn(f, BusinessTerms);
      assert FirstMatchAt(f, FieldGroups, 2) <==>
        (!AnyIn(f, EngineeringTerms) && !AnyIn(f, BusinessTerms) && AnyIn(f, ScienceTerms));
      assert FirstMatchAt(f, FieldGroups, 3) <==>
        (!AnyIn(f, EngineeringTerms) && !AnyIn(f, BusinessTerms) && !AnyIn(f, ScienceTerms) && AnyIn(f, SocialTerms));
      r
  }

  /** No engineering keyword occurs in "political science". */
  lemma {:induction false} NoEngineeringInPoliticalScience()
    ensures !AnyIn("political science", EngineeringTerms)
  {
    NoneInMissing("political science", EngineeringTerms, "gmfffrmdh");
  }

  /** No business keyword occurs in "political science". */
  lemma {:induction false} NoBusinessInPoliticalScience()
    ensures !AnyIn("political science", BusinessTerms)
  {
    NoneInMissing("political science", BusinessTerms, "bmmmfumrb");
  }

  /** 'science' is a Natural Sciences keyword and that category is tried
      before the Social Sciences one, so "Political Science" is a natural
      science. */
  lemma {:induction false} PoliticalScience()
    ensures CategorizeField("Political Science", "") == "Natural Sciences"
  {
    var f := Lower("Political Science");
    assert f == "political science";
    NoEngineeringInPoliticalScience();
    NoBusinessInPoliticalScience();
    assert f[10..17] == "science";
    ContainsAt(f, "science", 10);
    assert ScienceTerms[4] == "science";
  }

  /** One element of a sequence: the school and the classification of one
      non-CDTM education record, with the raw degree and field texts. */
  datatype Entry = Entry(school: string, degreeLevel: string, fieldCategory: string,
                         institutionType: string, originalDegree: string, originalField: string)

  /** The entry built from one record; missing keys read as "". */
  function EntryOf(schools: Schools, edu: Record): Entry
  {
    var school := Field(edu, "school");
    var degree := Field(edu, "degree");
    var field := Field(edu, "field");
    Entry(school, CategorizeDegree(degree, field), CategorizeField(field, degree),
          InstitutionType(schools, school, "Unknown"), degree, field)
  }

  /** An entry agrees with its own raw texts: its level and category are
      the classifications of its degree and field, its institution type the
      table's, and its school is not CDTM. */
  predicate Classified(schools: Schools, e: Entry)
  {
    && !IsCdtm(e.school)
    && e.degreeLevel == CategorizeDegree(e.originalDegree, e.originalField)
    && e.fieldCategory == CategorizeField(e.originalField, e.originalDegree)
    && e.institutionType == InstitutionType(schools, e.school, "Unknown")
  }

  /** The `sequence` of one person: the entries of the non-CDTM records in
      record order. */
  function SequenceOf(schools: Schools, records: seq<Record>): seq<Entry>
  {
    if records == [] then []
    else
      var rest := SequenceOf(schools, records[..|records| - 1]);
      var edu := records[|records| - 1];
      if FlowPaths.CdtmRecord(edu) then rest else rest + [EntryOf(schools, edu)]
  }

  /** The sequences of `alumni` in order: people with no record, or with
      CDTM records only, give none. */
  function Sequences(schools: Schools, alumni: seq<Person>): seq<seq<Entry>>
  {
    if alumni == [] then []
    else
      var rest := Sequences(schools, alumni[..|alumni| - 1]);
      var records := alumni[|alumni| - 1].educationPath;
      var sequence := SequenceOf(schools, records);
      if records == [] || sequence == [] then rest else rest + [sequence]
  }

  /** The inner `for edu in education_path` loop. */
  method BuildSequence(schools: Schools, records: seq<Record>) returns (sequence: seq<Entry>)
    ensures sequence == SequenceOf(schools, records)
  {
    sequence := [];
    for i := 0 to |records|
      invariant sequence == SequenceOf(schools, records[..i])
    {
      assert records[..i + 1][..i] == records[..i];
      var edu := records[i];
      var school := Field(edu, "school");
      var degree := Field(edu, "degree");
      var field := Field(edu, "field");
      if IsCdtm(school) {
        continue;
      }
      var degreeLevel := CategorizeDegree(degree, field);
      var fieldCategory := CategorizeField(field, degree);
      var institutionType := InstitutionType(schools, school, "Unknown");
      sequence := sequence + [Entry(school, degreeLevel, fieldCategory, institutionType, degree, field)];
    }
    assert records[..|records|] == records;
  }

  /** `extract_education_sequences(alumni_data, schools_data)`. */
  method ExtractEducationSequences(schools: Schools, alumni: seq<Person>) returns (sequences: seq<seq<Entry>>)
    ensures sequences == Sequences(schools, alumni)
  {
    sequences := [];
    for p := 0 to |alumni|
      invariant sequences == Sequences(schools, alumni[..p])
    {
      assert alumni[..p + 1][..p] == alumni[..p];
      var educationPath := alumni[p].educationPath;
      if educationPath == [] {
        continue;
      }
      var sequence := BuildSequence(schools, educationPath);
      if sequence != [] {
        sequences := sequences + [sequence];
      }
    }
    assert alumni[..|alumni|] == alumni;
  }

  /** One person's sequence: one classified entry per non-CDTM record, and
      empty exactly when every record is a CDTM record. */
  lemma {:induction false} SequenceOfProperties(schools: Schools, records: seq<Record>)
    ensures |SequenceOf(schools, records)| == FlowPaths.NonCdtmCount(records)
    ensures forall k :: 0 <= k < |SequenceOf(schools, records)| ==> Classified(schools, SequenceOf(schools, records)[k])
    ensures SequenceOf(schools, records) == [] <==> forall j :: 0 <= j < |records| ==> FlowPaths.CdtmRecord(records[j])
  {
    if records != [] {
      var init := records[..|records| - 1];
      var edu := records[|records| - 1];
      SequenceOfProperties(schools, init);
      var sq, rest := SequenceOf(schools, records), SequenceOf(schools, init);
      if !FlowPaths.CdtmRecord(edu) {
        var e := EntryOf(schools, edu);
        assert Classified(schools, e);
        assert sq == rest + [e];
        forall k | 0 <= k < |sq| ensures Classified(schools, sq[k]) {
          if k < |rest| { assert sq[k] == rest[k]; }
        }
      }
    }
    FlowPaths.NonCdtmCountZero(records);
  }

  /** Every sequence is non-empty and made of classified entries, and there
      is at most one sequence per person. */
  lemma {:induction false} SequencesProperties(schools: Schools, alumni: seq<Person>)
    ensures |Sequences(schools, alumni)| <= |alumni|
    ensures forall k :: 0 <= k < |Sequences(schools, alumni)| ==>
      && Sequences(schools, alumni)[k] != []
      && forall i :: 0 <= i < |Sequences(schools, alumni)[k]| ==> Classified(schools, Sequences(schools, alumni)[k][i])
  {
    if alumni != [] {
      SequencesProperties(schools, alumni[..|alumni| - 1]);
      SequenceOfProperties(schools, alumni[|alumni| - 1].educationPath);
    }
  }

  /** The `degree_levels` of the builder. */
  const Levels: seq<string> := ["Bachelor's", "Diploma", "Master's", "Doctorate", "Certificate/Other"]

  /** `e['degree_level']` */
  function LevelOf(e: Entry): string
  {
    e.degreeLevel
  }

  /** `f"{e['degree_level']} - {e['field_category']}"` */
  function LabelOf(e: Entry): string
  {
    e.degreeLevel + " - " + e.fieldCategory
  }

  /** The five levels differ in their first two characters. */
  lemma {:induction false} LevelPrefixes()
    ensures forall l :: l in Levels ==> |l| >= 2
    ensures forall l1, l2 :: l1 in Levels && l2 in Levels && l1 != l2 ==> l1[..2] != l2[..2]
  {
    assert "Bachelor's"[..2] == "Ba" && "Diploma"[..2] == "Di" && "Master's"[..2] == "Ma";
    assert "Doctorate"[..2] == "Do" && "Certificate/Other"[..2] == "Ce";
  }

  /** The labels of entries with different levels differ. */
  lemma {:induction false} LabelsSeparateLevels()
    ensures Distinct(Levels)
    ensures forall e1, e2 :: LevelOf(e1) in Levels && LevelOf(e2) in Levels && LevelOf(e1) != LevelOf(e2) ==> LabelOf(e1) != LabelOf(e2)
  {
    LevelPrefixes();
    forall e1, e2 | LevelOf(e1) in Levels && LevelOf(e2) in Levels && LevelOf(e1) != LevelOf(e2)
      ensures LabelOf(e1) != LabelOf(e2)
    {
      LabelPrefix(e1);
      LabelPrefix(e2);
    }
  }

  lemma {:induction false} LabelPrefix(e: Entry)
    requires |e.degreeLevel| >= 2
    ensures LabelOf(e)[..2] == e.degreeLevel[..2]
  {
  }

  /** A staged level is not "Unknown", so its entry has a degree or a
      field text. */
  lemma {:induction false} StagedLevelHasText(e: Entry)
    requires e.degreeLevel == CategorizeDegree(e.originalDegree, e.originalField)
    requires e.degreeLevel in Levels
    ensures e.originalDegree != "" || e.originalField != ""
  {
    assert "Unknown" !in Levels;
  }

  /** An entry with neither degree nor field has level "Unknown", which is
      not among the builder's levels, so it never becomes a stage. */
  lemma {:induction false} UnknownNeverStaged(sequence: seq<Entry>)
    requires forall i :: 0 <= i < |sequence| ==> sequence[i].degreeLevel == CategorizeDegree(sequence[i].originalDegree, sequence[i].originalField)
    ensures forall k :: 0 <= k < |Stages(sequence, Levels, LevelOf)| ==>
      Stages(sequence, Levels, LevelOf)[k].originalDegree != "" || Stages(sequence, Levels, LevelOf)[k].originalField != ""
  {
    var st := Stages(sequence, Levels, LevelOf);
    StagesFirstOfLevel(sequence, Levels, LevelOf);
    forall k | 0 <= k < |st|
      ensures st[k].originalDegree != "" || st[k].originalField != ""
    {
      var first := WithLevel(sequence, LevelOf(st[k]), LevelOf);
      assert st[k] in sequence;
      StagedLevelHasText(st[k]);
    }
  }

  /** `build_sankey_data(sequences, max_stages)`: `max_stages` is not used.
      The nodes are the sorted distinct labels at either end of a flow; the
      parallel lists hold one link per distinct flow, in first-seen order,
      pointing at the positions of its two labels, with its number of
      occurrences; the values add up to the number of flows, and no link
      goes from a node to itself. */
  method BuildSankeyData(sequences: seq<seq<Entry>>, maxStages: int)
    returns (nodeList: seq<string>, sources: seq<nat>, targets: seq<nat>, values: seq<nat>)
    ensures var flows := AllTransitions(sequences, Levels, LevelOf, LabelOf);
      && StrictlySorted(nodeList)
      && (forall x :: x in nodeList <==> exists t :: t in flows && (x == t.0 || x == t.1))
      && |sources| == |targets| == |values| == |Dedup(flows)|
      && (forall i :: 0 <= i < |sources| ==>
            && sources[i] < |nodeList| && nodeList[sources[i]] == Dedup(flows)[i].0
            && targets[i] < |nodeList| && nodeList[targets[i]] == Dedup(flows)[i].1
            && sources[i] != targets[i]
            && values[i] == Occurrences(flows, Dedup(flows)[i]) && values[i] >= 1)
      && Sum(values) == |flows|
  {
    LabelsSeparateLevels();
    nodeList, sources, targets, values := BuildSankey(sequences, Levels, LevelOf, LabelOf);
  }
}
