/** The degree and field classifiers of the flow-chart front ends. app.py,
    app_plotly.py, visualize_flow_plotly.py, app_flow_style.py and
    visualize_flow_style.py carry the same two functions with the same
    keyword lists, defaults and order; app_flask.py carries the same degree
    classifier. They are modelled once here. */
module FlowTaxonomy {
  import opened Text
  import opened Taxonomy

  const BachelorTerms: seq<string> := ["bachelor", "b.sc", "b.a", "b.eng", "bsc"]
  const MasterTerms: seq<string> := ["master", "m.sc", "m.a", "m.eng", "msc", "mba"]
  const DoctorateTerms: seq<string> := ["phd", "ph.d", "doctor", "doctorate"]
  const DiplomaTerms: seq<string> := ["dipl", "diploma"]

  const DegreeGroups: seq<Group> := [
    Group("Bachelor's", BachelorTerms), Group("Master's", MasterTerms),
    Group("Doctorate", DoctorateTerms), Group("Diploma", DiplomaTerms)]

  const EngineeringTerms: seq<string> :=
    ["engineering", "computer", "informatics", "software", "electrical", "mechanical", "technology"]
  const BusinessTerms: seq<string> := ["business", "management", "mba", "economics", "finance", "bwl"]
  const ScienceTerms: seq<string> := ["physics", "chemistry", "biology", "mathematics", "science", "biotech"]

  const FieldGroups: seq<Group> := [
    Group("Engineering/Tech", EngineeringTerms), Group("Business", BusinessTerms),
    Group("Sciences", ScienceTerms)]

  /** `categorize_degree(degree, field)`: `field` is not used. */
  function CategorizeDegree(degree: string, field: string): (r: string)
    ensures r in {"Bachelor's", "Master's", "Doctorate", "Diploma", "Other"}
    ensures degree == "" ==> r == "Other"
    ensures degree != "" ==> (r ==
      var d := Lower(degree);
      if AnyIn(d, BachelorTerms) then "Bachelor's"
      else if AnyIn(d, MasterTerms) then "Master's"
      else if AnyIn(d, DoctorateTerms) then "Doctorate"
      else if AnyIn(d, DiplomaTerms) then "Diploma"
      else "Other")
  {
    if degree == "" then "Other"
    else
      var d := Lower(degree);
      var r := Classify(d, DegreeGroups, "Other");
      assert FirstMatchAt(d, DegreeGroups, 0) <==> AnyIn(d, BachelorTerms);
      assert FirstMatchAt(d, DegreeGroups, 1) <==> !AnyIn(d, BachelorTerms) && AnyIn(d, MasterTerms);
      assert FirstMatchAt(d, DegreeGroups, 2) <==>
        (!AnyIn(d, BachelorTerms) && !AnyIn(d, MasterTerms) && AnyIn(d, DoctorateTerms));
      assert FirstMatchAt(d, DegreeGroups, 3) <==>
        (!AnyIn(d, BachelorTerms) && !AnyIn(d, MasterTerms) && !AnyIn(d, DoctorateTerms) && AnyIn(d, DiplomaTerms));
      r
  }

  /** `categorize_field(field, degree)`: an empty field falls back on the
      degree text only for 'mba'. */
  function CategorizeField(field: string, degree: string): (r: string)
    ensures r in {"Engineering/Tech", "Business", "Sciences", "Other"}
    ensures field == "" ==> (r == "Business" <==> Contains(Lower(degree), "mba"))
    ensures field == "" && r != "Business" ==> r == "Other"
    ensures field != "" ==> (r ==
      var f := Lower(field);
      if AnyIn(f, EngineeringTerms) then "Engineering/Tech"
      else if AnyIn(f, BusinessTerms) then "Business"
      else if AnyIn(f, ScienceTerms) then "Sciences"
      else "Other")
  {
    if field == "" then
      if degree != "" && Contains(Lower(degree), "mba") then "Business" else "Other"
    else
      var f := Lower(field);
      var r := Classify(f, FieldGroups, "Other");
      assert FirstMatchAt(f, FieldGroups, 0) <==> AnyIn(f, EngineeringTerms);
      assert FirstMatchAt(f, FieldGroups, 1) <==> !AnyIn(f, EngineeringTerms) && AnyIn(f, BusinessTerms);
      assert FirstMatchAt(f, FieldGroups, 2) <==>
        (!AnyIn(f, EngineeringTerms) && !AnyIn(f, BusinessTerms) && AnyIn(f, ScienceTerms));
      r
  }

  /** First match wins: "M.B.A." contains the Bachelor keyword 'b.a' and is a
      Bachelor's degree ... */
  lemma {:induction false} DottedMba()
    ensures CategorizeDegree("M.B.A.", "") == "Bachelor's"
  {
    assert Lower("M.B.A.")[2..5] == "b.a";
    ContainsAt(Lower("M.B.A."), "b.a", 2);
    assert BachelorTerms[2] == "b.a";
  }

  /** ... while "MBA" matches no Bachelor keyword and is a Master's degree. */
  lemma {:induction false} PlainMba()
    ensures CategorizeDegree("MBA", "") == "Master's"
  {
    assert Lower("MBA") == "mba";
    NotContainsMissing("mba", "b.sc", 's');
    NotContainsMissing("mba", "b.a", '.');
    NotContainsMissing("mba", "bsc", 's');
    assert !AnyIn("mba", BachelorTerms);
    ContainsAt("mba", "mba", 0);
    assert MasterTerms[5] == "mba";
  }

  /** An empty field with an MBA degree is a Business field. */
  lemma {:induction false} EmptyFieldOfMba()
    ensures CategorizeField("", "Executive MBA") == "Business"
    ensures CategorizeField("", "Bachelor") == "Other"
  {
    assert Lower("Executive MBA")[10..13] == "mba";
    ContainsAt(Lower("Executive MBA"), "mba", 10);
    assert Lower("Bachelor") == "bachelor";
    NotContainsMissing("bachelor", "mba", 'm');
  }
}
