/** The classifiers of the two Sankey scripts, visualize_education_paths.py
    and visualize_education_paths_enhanced.py. Their degree classifiers are
    the same function, with longer keyword lists than the flow-chart front
    ends ('ba ', 'bs ', 'ma ', 'ms ') and a different fallback; their field
    classifiers share every keyword list except the engineering one and
    differ in the labels, so the shared lists live here and each script's
    module holds its own field classifier. */
module EducationTaxonomy {
  import opened Text
  import opened Taxonomy

  const BachelorTerms: seq<string> := ["bachelor", "b.sc", "b.a", "b.eng", "bsc", "ba ", "bs "]
  const MasterTerms: seq<string> := ["master", "m.sc", "m.a", "m.eng", "msc", "ma ", "ms ", "mba"]
  const DoctorateTerms: seq<string> := ["phd", "ph.d", "doctor", "doctorate"]
  const DiplomaTerms: seq<string> := ["dipl", "diploma"]

  const DegreeGroups: seq<Group> := [
    Group("Bachelor's", BachelorTerms), Group("Master's", MasterTerms),
    Group("Doctorate", DoctorateTerms), Group("Diploma", DiplomaTerms)]

  const BusinessTerms: seq<string> :=
    ["business", "management", "mba", "economics", "finance", "accounting", "marketing", "entrepreneurship", "bwl"]
  const ScienceTerms: seq<string> :=
    ["physics", "chemistry", "biology", "mathematics", "science", "biotechnology", "biotech"]
  const SocialTerms: seq<string> :=
    ["psychology", "sociology", "political", "law", "humanities", "communication", "media", "design"]

  /** `categorize_degree(degree, field)`: an empty degree is
      "Certificate/Other" when a field is given and "Unknown" otherwise; a
      non-empty degree is the first level with a keyword in its lower-cased
      text, else "Certificate/Other". */
  function CategorizeDegree(degree: string, field: string): (r: string)
    ensures r in {"Bachelor's", "Master's", "Doctorate", "Diploma", "Certificate/Other", "Unknown"}
    ensures r == "Unknown" <==> degree == "" && field == ""
    ensures degree == "" && field != "" ==> r == "Certificate/Other"
    ensures degree != "" ==> (r ==
      var d := Lower(degree);
      if AnyIn(d, BachelorTerms) then "Bachelor's"
      else if AnyIn(d, MasterTerms) then "Master's"
      else if AnyIn(d, DoctorateTerms) then "Doctorate"
      else if AnyIn(d, DiplomaTerms) then "Diploma"
      else "Certificate/Other")
  {
    if degree == "" then
      if field != "" then "Certificate/Other" else "Unknown"
    else
      var d := Lower(degree);
      var r := Classify(d, DegreeGroups, "Certificate/Other");
      assert FirstMatchAt(d, DegreeGroups, 0) <==> AnyIn(d, BachelorTerms);
      assert FirstMatchAt(d, DegreeGroups, 1) <==> !AnyIn(d, BachelorTerms) && AnyIn(d, MasterTerms);
      assert FirstMatchAt(d, DegreeGroups, 2) <==>
        (!AnyIn(d, BachelorTerms) && !AnyIn(d, MasterTerms) && AnyIn(d, DoctorateTerms));
      assert FirstMatchAt(d, DegreeGroups, 3) <==>
        (!AnyIn(d, BachelorTerms) && !AnyIn(d, MasterTerms) && !AnyIn(d, DoctorateTerms) && AnyIn(d, DiplomaTerms));
      r
  }

  /** The Bachelor keyword 'ba ' is tried before the Master keyword 'mba',
      so "MBA Program" is a Bachelor's degree ... */
  lemma {:induction false} MbaProgram()
    ensures CategorizeDegree("MBA Program", "") == "Bachelor's"
  {
    assert Lower("MBA Program")[1..4] == "ba ";
    ContainsAt(Lower("MBA Program"), "ba ", 1);
    assert BachelorTerms[5] == "ba ";
  }

  /** ... while without the trailing space "BA" matches no keyword at all. */
  lemma {:induction false} BareBa()
    ensures CategorizeDegree("BA", "Economics") == "Certificate/Other"
  {
    var d := Lower("BA");
    assert d == "ba";
    NoneInMissing(d, BachelorTerms, "c...s s");
    NoneInMissing(d, MasterTerms, "mmmmmmmm");
    NoneInMissing(d, DoctorateTerms, "ppdd");
    NoneInMissing(d, DiplomaTerms, "dd");
  }
}
