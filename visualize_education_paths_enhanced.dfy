/** visualize_education_paths_enhanced.py: the sequences carry the country
    and top-tier flag of each school as well, two Sankey diagrams are built
    over four degree levels (one labelled by field, one by institution type),
    and the statistics report counts entries by level, field and institution
    type and counts the transitions between stages. */
module VisualizeEducationPathsEnhanced {
  import opened Text
  import opened Taxonomy
  import opened Tally
  import opened Alumni
  import opened EducationTaxonomy
  import opened Sankey
  import FlowPaths
  import VisualizeEducationPaths

  /** The engineering keywords of the basic script plus 'computer'. */
  const EngineeringTerms: seq<string> := [
    "engineering", "computer science", "informatics", "information systems",
    "software", "electrical", "mechanical", "industrial", "technology", "computer"]

  const FieldGroups: seq<Group> := [
    Group("Engineering/Tech", EngineeringTerms), Group("Business", BusinessTerms),
    Group("Sciences", ScienceTerms), Group("Humanities", SocialTerms)]

  /** `categorize_field(field, degree)`: the basic script's cascade with
      shorter labels and the extra engineering keyword. */
  function CategorizeField(field: string, degree: string): (r: string)
    ensures r in {"Engineering/Tech", "Business", "Sciences", "Humanities", "Other", "Unknown"}
    ensures field == "" ==> (r == "Business" <==> Contains(Lower(degree), "mba"))
    ensures field == "" && r != "Business" ==> r == "Unknown"
    ensures field != "" ==> (r ==
      var f := Lower(field);
      if AnyIn(f, EngineeringTerms) then "Engineering/Tech"
      else if AnyIn(f, BusinessTerms) then "Business"
      else if AnyIn(f, ScienceTerms) then "Sciences"
      else if AnyIn(f, SocialTerms) then "Humanities"
      else "Other")
  {
    if field == "" then
      if degree != "" && Contains(Lower(degree), "mba") then "Business" else "Unknown"
    else
      var f := Lower(field);
      var r := Classify(f, FieldGroups, "Other");
      assert FirstMatchAt(f, FieldGroups, 0) <==> AnyIn(f, EngineeringTerms);
      assert FirstMatchAt(f, FieldGroups, 1) <==> !AnyIn(f, EngineeringTerms) && AnyIn(f, BusinessTerms);
      assert FirstMatchAt(f, FieldGroups, 2) <==>
        (!AnyIn(f, EngineeringTerms) && !AnyIn(f, BusinessTerms) && AnyIn(f, ScienceTerms));
      assert FirstMatchAt(f, FieldGroups, 3) <==>
        (!AnyIn(f, EngineeringTerms) && !AnyIn(f, BusinessTerms) && !AnyIn(f, ScienceTerms) && AnyIn(f, SocialTerms));
      r
  }

  /** No keyword of the basic script's engineering and business lists
      occurs in "computer". */
  lemma {:induction false} NoEngineeringOrBusinessInComputer()
    ensures !AnyIn("computer", VisualizeEducationPaths.EngineeringTerms)
    ensures !AnyIn("computer", BusinessTerms)
  {
    NoneInMissing("computer", VisualizeEducationPaths.EngineeringTerms, "nsffflhdh");
    NoneInMissing("computer", BusinessTerms, "babnfaanb");
  }

  /** ... nor of its science and social-science lists. */
  lemma {:induction false} NoScienceOrSocialInComputer()
    ensures !AnyIn("computer", ScienceTerms)
    ensures !AnyIn("computer", SocialTerms)
  {
    NoneInMissing("computer", ScienceTerms, "hhbaibb");
    NoneInMissing("computer", SocialTerms, "yillhndd");
  }

  /** The two scripts disagree on a field of plain "Computer": the extra
      keyword makes it Engineering/Tech here, while the basic script finds
      no keyword and calls it Other. */
  lemma {:induction false} ComputerField()
    ensures CategorizeField("Computer", "") == "Engineering/Tech"
    ensures VisualizeEducationPaths.CategorizeField("Computer", "") == "Other"
  {
    var f := Lower("Computer");
    assert f == "computer";
    assert EngineeringTerms[9] == "computer";
    ContainsAt(f, "computer", 0);
    NoEngineeringOrBusinessInComputer();
    NoScienceOrSocialInComputer();
  }

  /** `get_institution_info(school_name, schools_data)`: the type, country
      and top-tier flag of a known school, each defaulting to 'Unknown',
      'Unknown' and false when its key is missing; the same three defaults
      for an unknown school. */
  function GetInstitutionInfo(schools: Schools, name: string): (r: (string, string, bool))
    ensures name !in schools ==> r == ("Unknown", "Unknown", false)
    ensures name in schools ==>
      && r.0 == (if schools[name].institutionType.Some? then schools[name].institutionType.value else "Unknown")
      && r.1 == (if schools[name].country.Some? then schools[name].country.value else "Unknown")
      && r.2 == (schools[name].isTopTier.Some? && schools[name].isTopTier.value)
    ensures r.0 == InstitutionType(schools, name, "Unknown")
  {
    if name in schools then
      var info := schools[name];
      (info.institutionType.GetOr("Unknown"), info.country.GetOr("Unknown"), info.isTopTier.GetOr(false))
    else ("Unknown", "Unknown", false)
  }

  /** One element of a sequence, with the school's country and top-tier
      flag. */
  datatype Entry = Entry(school: string, degreeLevel: string, fieldCategory: string,
                         institutionType: string, country: string, isTopTier: bool,
                         originalDegree: string, originalField: string)

  /** The entry built from one record; missing keys read as "". */
  function EntryOf(schools: Schools, edu: Record): Entry
  {
    var school := Field(edu, "school");
    var degree := Field(edu, "degree");
    var field := Field(edu, "field");
    var info := GetInstitutionInfo(schools, school);
    Entry(school, CategorizeDegree(degree, field), CategorizeField(field, degree),
          info.0, info.1, info.2, degree, field)
  }

  /** An entry agrees with its own raw texts and with the schools table,
      and its school is not CDTM. */
  predicate Classified(schools: Schools, e: Entry)
  {
    && !IsCdtm(e.school)
    && e.degreeLevel == CategorizeDegree(e.originalDegree, e.originalField)
    && e.fieldCategory == CategorizeField(e.originalField, e.originalDegree)
    && (e.institutionType, e.country, e.isTopTier) == GetInstitutionInfo(schools, e.school)
  }

  /** The `sequence` of one person: the entries of the non-CDTM records in
      record order. */
  function SequenceOf(schools: Schools, records: seq<Record>): seq<Entry>
  {
    if records == [] then []
    else
      var rest := SequenceOf(schools, records[..|records| - 1]);
      var edu := records[|records| - 1];
      if FlowPaths.CdtmRecord(edu) then rest else rest + [EntryOf(schools, edu)]
  }

  /** The sequences of `alumni` in order: people with no record, or with
      CDTM records only, give none. */
  function Sequences(schools: Schools, alumni: seq<Person>): seq<seq<Entry>>
  {
    if alumni == [] then []
    else
      var rest := Sequences(schools, alumni[..|alumni| - 1]);
      var records := alumni[|alumni| - 1].educationPath;
      var sequence := SequenceOf(schools, records);
      if records == [] || sequence == [] then rest else rest + [sequence]
  }

  /** The inner `for edu in education_path` loop. */
  method BuildSequence(schools: Schools, records: seq<Record>) returns (sequence: seq<Entry>)
    ensures sequence == SequenceOf(schools, records)
  {
    sequence := [];
    for i := 0 to |records|
      invariant sequence == SequenceOf(schools, records[..i])
    {
      assert records[..i + 1][..i] == records[..i];
      var edu := records[i];
      var school := Field(edu, "school");
      var degree := Field(edu, "degree");
      var field := Field(edu, "field");
      if IsCdtm(school) {
        continue;
      }
      var degreeLevel := CategorizeDegree(degree, field);
      var fieldCategory := CategorizeField(field, degree);
      var info := GetInstitutionInfo(schools, school);
      sequence := sequence + [Entry(school, degreeLevel, fieldCategory, info.0, info.1, info.2, degree, field)];
    }
    assert records[..|records|] == records;
  }

  /** `extract_education_sequences(alumni_data, schools_data)`. */
  method ExtractEducationSequences(schools: Schools, alumni: seq<Person>) returns (sequences: seq<seq<Entry>>)
    ensures sequences == Sequences(schools, alumni)
  {
    sequences := [];
    for p := 0 to |alumni|
      invariant sequences == Sequences(schools, alumni[..p])
    {
      assert alumni[..p + 1][..p] == alumni[..p];
      var educationPath := alumni[p].educationPath;
      if educationPath == [] {
        continue;
      }
      var sequence := BuildSequence(schools, educationPath);
      if sequence != [] {
        sequences := sequences + [sequence];
      }
    }
    assert alumni[..|alumni|] == alumni;
  }

  /** One person's sequence: one classified entry per non-CDTM record, and
      empty exactly when every record is a CDTM record. */
  lemma {:induction false} SequenceOfProperties(schools: Schools, records: seq<Record>)
    ensures |SequenceOf(schools, records)| == FlowPaths.NonCdtmCount(records)
    ensures forall k :: 0 <= k < |SequenceOf(schools, records)| ==> Classified(schools, SequenceOf(schools, records)[k])
    ensures SequenceOf(schools, records) == [] <==> forall j :: 0 <= j < |records| ==> FlowPaths.CdtmRecord(records[j])
  {
    if records != [] {
      var init := records[..|records| - 1];
      var edu := records[|records| - 1];
      SequenceOfProperties(schools, init);
      var sq, rest := SequenceOf(schools, records), SequenceOf(schools, init);
      if !FlowPaths.CdtmRecord(edu) {
        var e := EntryOf(schools, edu);
        assert Classified(schools, e);
        assert sq == rest + [e];
        forall k | 0 <= k < |sq| ensures Classified(schools, sq[k]) {
          if k < |rest| { assert sq[k] == rest[k]; }
        }
      }
    }
    FlowPaths.NonCdtmCountZero(records);
  }

  /** Every sequence is non-empty and made of classified entries, and there
      is at most one sequence per person. */
  lemma {:induction false} SequencesProperties(schools: Schools, alumni: seq<Person>)
    ensures |Sequences(schools, alumni)| <= |alumni|
    ensures forall k :: 0 <= k < |Sequences(schools, alumni)| ==>
      && Sequences(schools, alumni)[k] != []
      && forall i :: 0 <= i < |Sequences(schools, alumni)[k]| ==> Classified(schools, Sequences(schools, alumni)[k][i])
  {
    if alumni != [] {
      SequencesProperties(schools, alumni[..|alumni| - 1]);
      SequenceOfProperties(schools, alumni[|alumni| - 1].educationPath);
    }
  }

  /** The `degree_levels` of both builders and of the transition count:
      "Certificate/Other" is left out. */
  const Levels: seq<string> := ["Bachelor's", "Diploma", "Master's", "Doctorate"]

  /** `e['degree_level']` */
  function LevelOf(e: Entry): string
  {
    e.degreeLevel
  }

  /** A level among the four is neither "Certificate/Other" nor "Unknown",
      so the entry had a degree text. */
  lemma {:induction false} StagedLevelHasDegree(e: Entry)
    requires e.degreeLevel == CategorizeDegree(e.originalDegree, e.originalField)
    requires e.degreeLevel in Levels
    ensures e.degreeLevel != "Certificate/Other" && e.degreeLevel != "Unknown"
    ensures e.originalDegree != ""
  {
    assert "Certificate/Other" !in Levels && "Unknown" !in Levels;
  }

  /** An entry whose level is "Certificate/Other" or "Unknown" never
      becomes a stage: every stage has one of the four levels, and so came
      from a record with a degree text. */
  lemma {:induction false} OnlyDegreesStaged(sequence: seq<Entry>)
    requires forall i :: 0 <= i < |sequence| ==> sequence[i].degreeLevel == CategorizeDegree(sequence[i].originalDegree, sequence[i].originalField)
    ensures forall k :: 0 <= k < |Stages(sequence, Levels, LevelOf)| ==>
      var stage := Stages(sequence, Levels, LevelOf)[k];
      && stage.degreeLevel != "Certificate/Other"
      && stage.degreeLevel != "Unknown"
      && stage.originalDegree != ""
  {
    var st := Stages(sequence, Levels, LevelOf);
    StagesFirstOfLevel(sequence, Levels, LevelOf);
    forall k | 0 <= k < |st|
      ensures st[k].degreeLevel != "Certificate/Other" && st[k].degreeLevel != "Unknown" && st[k].originalDegree != ""
    {
      var first := WithLevel(sequence, LevelOf(st[k]), LevelOf);
      assert st[k] in sequence;
      StagedLevelHasDegree(st[k]);
    }
  }

  /** `f"{e['degree_level']}\n{e['field_category']}"` */
  function FieldLabel(e: Entry): string
  {
    e.degreeLevel + "\n" + e.fieldCategory
  }

  /** `f"{e['degree_level']}\n{e['institution_type']}"` */
  function InstitutionLabel(e: Entry): string
  {
    e.degreeLevel + "\n" + e.institutionType
  }

  /** `f"{e['degree_level']} ({e['field_category']})"` */
  function TransitionLabel(e: Entry): string
  {
    e.degreeLevel + " (" + e.fieldCategory + ")"
  }

  /** The four levels differ in their first two characters. */
  lemma {:induction false} LevelPrefixes()
    ensures forall l :: l in Levels ==> |l| >= 2
    ensures forall l1, l2 :: l1 in Levels && l2 in Levels && l1 != l2 ==> l1[..2] != l2[..2]
  {
    assert "Bachelor's"[..2] == "Ba" && "Diploma"[..2] == "Di" && "Master's"[..2] == "Ma" && "Doctorate"[..2] == "Do";
  }

  /** Each of the three labels starts with the level. */
  lemma {:induction false} LabelPrefixes(e: Entry)
    requires |e.degreeLevel| >= 2
    ensures FieldLabel(e)[..2] == e.degreeLevel[..2]
    ensures InstitutionLabel(e)[..2] == e.degreeLevel[..2]
    ensures TransitionLabel(e)[..2] == e.degreeLevel[..2]
  {
  }

  /** Entries with different levels get different labels. */
  lemma {:induction false} LabelsSeparateLevels()
    ensures Distinct(Levels)
    ensures forall e1, e2 :: LevelOf(e1) in Levels && LevelOf(e2) in Levels && LevelOf(e1) != LevelOf(e2) ==>
      FieldLabel(e1) != FieldLabel(e2) && InstitutionLabel(e1) != InstitutionLabel(e2) && TransitionLabel(e1) != TransitionLabel(e2)
  {
    LevelPrefixes();
    forall e1, e2 | LevelOf(e1) in Levels && LevelOf(e2) in Levels && LevelOf(e1) != LevelOf(e2)
      ensures FieldLabel(e1) != FieldLabel(e2) && InstitutionLabel(e1) != InstitutionLabel(e2) && TransitionLabel(e1) != TransitionLabel(e2)
    {
      LabelPrefixes(e1);
      LabelPrefixes(e2);
    }
  }

  /** `build_sankey_data_by_field(sequences)` without the colour list: the
      sorted "level\nfield" node labels and one link per distinct flow in
      first-seen order, with the positions of its labels and its count. */
  method BuildSankeyDataByField(sequences: seq<seq<Entry>>)
    returns (nodeList: seq<string>, sources: seq<nat>, targets: seq<nat>, values: seq<nat>)
    ensures var flows := AllTransitions(sequences, Levels, LevelOf, FieldLabel);
      && StrictlySorted(nodeList)
      && (forall x :: x in nodeList <==> exists t :: t in flows && (x == t.0 || x == t.1))
      && |sources| == |targets| == |values| == |Dedup(flows)|
      && (forall i :: 0 <= i < |sources| ==>
            && sources[i] < |nodeList| && nodeList[sources[i]] == Dedup(flows)[i].0
            && targets[i] < |nodeList| && nodeList[targets[i]] == Dedup(flows)[i].1
            && sources[i] != targets[i]
            && values[i] == Occurrences(flows, Dedup(flows)[i]) && values[i] >= 1)
      && Sum(values) == |flows|
  {
    LabelsSeparateLevels();
    nodeList, sources, targets, values := BuildSankey(sequences, Levels, LevelOf, FieldLabel);
  }

  /** `build_sankey_data_by_institution(sequences)` without the colour
      list: as the field diagram, with "level\ninstitution type" labels. */
  method BuildSankeyDataByInstitution(sequences: seq<seq<Entry>>)
    returns (nodeList: seq<string>, sources: seq<nat>, targets: seq<nat>, values: seq<nat>)
    ensures var flows := AllTransitions(sequences, Levels, LevelOf, InstitutionLabel);
      && StrictlySorted(nodeList)
      && (forall x :: x in nodeList <==> exists t :: t in flows && (x == t.0 || x == t.1))
      && |sources| == |targets| == |values| == |Dedup(flows)|
      && (forall i :: 0 <= i < |sources| ==>
            && sources[i] < |nodeList| && nodeList[sources[i]] == Dedup(flows)[i].0
            && targets[i] < |nodeList| && nodeList[targets[i]] == Dedup(flows)[i].1
            && sources[i] != targets[i]
            && values[i] == Occurrences(flows, Dedup(flows)[i]) && values[i] >= 1)
      && Sum(values) == |flows|
  {
    LabelsSeparateLevels();
    nodeList, sources, targets, values := BuildSankey(sequences, Levels, LevelOf, InstitutionLabel);
  }

  /** The counters `print_statistics` reports. */
  datatype EducationStats = EducationStats(
    totalAlumni: nat,
    degreeCounter: Tally<string>,
    fieldCounter: Tally<string>,
    institutionCounter: Tally<string>,
    transitionCounter: Tally<Flow>)

  /** All entries of all sequences, in order. */
  function Flatten(sequences: seq<seq<Entry>>): seq<Entry>
  {
    if sequences == [] then [] else Flatten(sequences[..|sequences| - 1]) + sequences[|sequences| - 1]
  }

  function DegreeOf(e: Entry): string { e.degreeLevel }
  function FieldOf(e: Entry): string { e.fieldCategory }
  function InstitutionOf(e: Entry): string { e.institutionType }

  /** `[f(e) for e in entries]` */
  function Project(entries: seq<Entry>, f: Entry -> string): (r: seq<string>)
    ensures |r| == |entries|
  {
    seq(|entries|, i requires 0 <= i < |entries| => f(entries[i]))
  }

  lemma {:induction false} ProjectSnoc(entries: seq<Entry>, e: Entry, f: Entry -> string)
    ensures Project(entries + [e], f) == Project(entries, f) + [f(e)]
  {
  }

  /** The inner `for edu in sequence` loop of the statistics, on top of the
      counts for the entries `before`. */
  method CountEntries(sequence: seq<Entry>, degrees0: Tally<string>, fields0: Tally<string>, institutions0: Tally<string>,
                      ghost before: seq<Entry>)
    returns (degrees: Tally<string>, fields: Tally<string>, institutions: Tally<string>)
    requires degrees0 == Of(Project(before, DegreeOf))
    requires fields0 == Of(Project(before, FieldOf))
    requires institutions0 == Of(Project(before, InstitutionOf))
    ensures degrees == Of(Project(before + sequence, DegreeOf))
    ensures fields == Of(Project(before + sequence, FieldOf))
    ensures institutions == Of(Project(before + sequence, InstitutionOf))
  {
    degrees, fields, institutions := degrees0, fields0, institutions0;
    assert before + sequence[..0] == before;
    for i := 0 to |sequence|
      invariant degrees == Of(Project(before + sequence[..i], DegreeOf))
      invariant fields == Of(Project(before + sequence[..i], FieldOf))
      invariant institutions == Of(Project(before + sequence[..i], InstitutionOf))
    {
      var edu := sequence[i];
      ghost var done := before + sequence[..i];
      assert before + sequence[..i + 1] == done + [edu];
      ProjectSnoc(done, edu, DegreeOf);
      ProjectSnoc(done, edu, FieldOf);
      ProjectSnoc(done, edu, InstitutionOf);
      OfSnoc(Project(done, DegreeOf), edu.degreeLevel);
      OfSnoc(Project(done, FieldOf), edu.fieldCategory);
      OfSnoc(Project(done, InstitutionOf), edu.institutionType);
      degrees := Add(degrees, edu.degreeLevel);
      fields := Add(fields, edu.fieldCategory);
      institutions := Add(institutions, edu.institutionType);
    }
    assert sequence[..|sequence|] == sequence;
  }

  /** `print_statistics(sequences)` without the printing: the number of
      sequences, the three per-entry counters, and the counter of
      "level (field)" transitions between consecutive stages. */
  method PrintStatistics(sequences: seq<seq<Entry>>) returns (stats: EducationStats)
    ensures stats.totalAlumni == |sequences|
    ensures stats.degreeCounter == Of(Project(Flatten(sequences), DegreeOf))
    ensures stats.fieldCounter == Of(Project(Flatten(sequences), FieldOf))
    ensures stats.institutionCounter == Of(Project(Flatten(sequences), InstitutionOf))
    ensures stats.transitionCounter == Of(AllTransitions(sequences, Levels, LevelOf, TransitionLabel))
  {
    var degreeCounter, fieldCounter, institutionCounter := Empty(), Empty(), Empty();
    for s := 0 to |sequences|
      invariant degreeCounter == Of(Project(Flatten(sequences[..s]), DegreeOf))
      invariant fieldCounter == Of(Project(Flatten(sequences[..s]), FieldOf))
      invariant institutionCounter == Of(Project(Flatten(sequences[..s]), InstitutionOf))
    {
      assert sequences[..s + 1][..s] == sequences[..s];
      degreeCounter, fieldCounter, institutionCounter :=
        CountEntries(sequences[s], degreeCounter, fieldCounter, institutionCounter, Flatten(sequences[..s]));
    }
    assert sequences[..|sequences|] == sequences;
    // The transition loop gathers no node set; CountFlows also computes one.
    var _, transitionCounter := CountFlows(sequences, Levels, LevelOf, TransitionLabel);
    stats := EducationStats(|sequences|, degreeCounter, fieldCounter, institutionCounter, transitionCounter);
  }

  /** All entries number at least one per sequence when no sequence is
      empty. */
  lemma {:induction false} FlattenLength(sequences: seq<seq<Entry>>)
    requires forall k :: 0 <= k < |sequences| ==> sequences[k] != []
    ensures |Flatten(sequences)| >= |sequences|
  {
    if sequences != [] {
      FlattenLength(sequences[..|sequences| - 1]);
    }
  }

  /** Each per-entry counter counts every entry once, by its level, field
      or institution type. */
  lemma {:induction false} EntryCountersTotals(sequences: seq<seq<Entry>>)
    ensures var entries := Flatten(sequences);
      && Total(Of(Project(entries, DegreeOf))) == |entries|
      && Total(Of(Project(entries, FieldOf))) == |entries|
      && Total(Of(Project(entries, InstitutionOf))) == |entries|
      && (forall l :: Count(Of(Project(entries, DegreeOf)), l) == Occurrences(Project(entries, DegreeOf), l))
  {
    var entries := Flatten(sequences);
    OfProperties(Project(entries, DegreeOf));
    OfProperties(Project(entries, FieldOf));
    OfProperties(Project(entries, InstitutionOf));
  }

  /** Over the extracted sequences there are at least as many entries as
      alumni with a sequence, so the percentages the report prints (count
      over the number of alumni) can add up to more than 100, and there are
      at most three transitions per alumnus. */
  lemma {:induction false} StatisticsTotals(schools: Schools, alumni: seq<Person>)
    ensures var sequences := Sequences(schools, alumni);
      && |Flatten(sequences)| >= |sequences|
      && Total(Of(AllTransitions(sequences, Levels, LevelOf, TransitionLabel))) <= 3 * |sequences|
  {
    var sequences := Sequences(schools, alumni);
    SequencesProperties(schools, alumni);
    FlattenLength(sequences);
    OfProperties(AllTransitions(sequences, Levels, LevelOf, TransitionLabel));
    AllTransitionsBound(sequences, Levels, LevelOf, TransitionLabel);
  }
}
