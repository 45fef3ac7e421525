# CDTM alumni education paths — a Dafny model of the data pipeline

The repository turns the education histories of CDTM (Center for Digital
Technology and Management) alumni into charts. Each alumnus has an ordered
list of education records (school, degree, field). Eight entry-point scripts
draw them as transit-map flow charts (Dash, Plotly and Flask front ends and
two stand-alone scripts) or as Sankey diagrams. Each script carries its own
copy of one pipeline, with small differences between the copies:

1. keyword classifiers (`categorize_degree`, `categorize_field`): the text is
   lower-cased, keyword groups are tried in a fixed order, and the first
   group with a match wins;
2. lookups: `get_institution_type` / `get_institution_info` read the schools
   table with defaults, and `is_cdtm` finds the CDTM programme by substring;
3. the path builder `extract_paths`: it classifies one person's records and
   remembers the CDTM record. It inserts one synthetic CDTM node after the
   first Bachelor's/Diploma entry, else after the first Master's entry, else
   at a fallback index. It derives the primary field, applies the filters and
   drops paths with fewer than two nodes;
4. the Sankey builders (`extract_education_sequences`, `build_sankey_data*`)
   and the integer counters of the statistics panels.

Module layout:

- shared modules:
  - `Text`: ASCII case mapping, substring search and Python's string order.
  - `Taxonomy`: first-match classification.
  - `Tally`: Python's `Counter` and `defaultdict(int)`, with insertion order.
  - `Alumni`: records, schools table, nodes, paths, `list.insert`, the
    primary-field search.
  - `FlowTaxonomy`: the classifiers that five flow-chart scripts share
    verbatim.
  - `FlowPaths`: the shared parts of `extract_paths`.
  - `EducationTaxonomy`: the Sankey scripts' degree classifier and shared
    keyword lists.
  - `Sankey`: the shared stage/flow builder.
  - `Statistics`: the shared counters.
- one module per script: `App`, `AppPlotly`, `VisualizeFlowPlotly`,
  `AppFlask`, `AppFlowStyle`, `VisualizeFlowStyle`, `VisualizeEducationPaths`,
  `VisualizeEducationPathsEnhanced`. Each one states what makes that script
  different. For example:
  - the CDTM node takes the primary field in app.py and the constant
    `'CDTM'` in app_plotly.py;
  - app_flask.py detects CDTM case-insensitively, filters per entry and
    clamps the insertion index;
  - the flow-style scripts drop CDTM records.

Each loop of the source is a `method` with loop invariants. The method is
proved equal to a recursive specification function (`Entries`, `LastCdtm`,
`PathOf`, `ExtractPathsSpec`, `Stages`, `AllTransitions`, `Of`, ...). The
lemmas state what the source promises about those functions.

Modelling choices:

- A raw record is a `map<string, string>`. `Field(r, k)` is
  `r.get(k, '')`, so a missing key reads as the empty string, which the
  source treats as false.
- The schools table is a map from school name to `SchoolInfo`, whose keys
  are optional.
- The module-level `SCHOOLS_DATA` of the front ends is passed in as a
  parameter.
- A filter dictionary is a pair of optional strings. An empty dictionary is
  both keys absent.

## Model

| member | source | states |
|---|---|---|
| Text.Lower | app.py:47 | ASCII `str.lower()`: same length; defined per character by `LowerChar`, which maps A–Z to a–z and keeps every other character |
| Text.Upper | app_flask.py:106-108 | ASCII `str.upper()`: same length; defined per character by `UpperChar`, which maps a–z to A–Z and keeps every other character |
| Text.ContainsAt | app.py:48 | a witness position shows `sub in s` |
| Text.NotContainsMissing | app.py:48 | a term with a character the text lacks is not contained in it |
| Text.NoneInMissing | app.py:48 | `any(term in s ...)` is false when each term has a character `s` lacks |
| Text.ContainsUpper | app_flask.py:106-108 | a case-sensitive occurrence is still an occurrence after upper-casing both sides |
| Text.LessIrreflexive | visualize_education_paths.py:176 | the string order used by `sorted` is irreflexive |
| Text.LessTransitive | visualize_education_paths.py:176 | ... transitive |
| Text.LessTotal | visualize_education_paths.py:176 | ... and total on distinct strings |
| Text.InsertSorted | visualize_education_paths.py:176 | inserting a new string into a strictly sorted list keeps it strictly sorted, with exactly one more element |
| Text.IndexOf | visualize_education_paths.py:177 | `node_dict[x]`: the first (so the only) position of `x` in the list |
| Text.SortedList | visualize_education_paths.py:176 | `sorted(list(node_set))`: strictly increasing, holding exactly the set's elements |
| Taxonomy.Classify | app.py:47-57 | the label of the first keyword group with a term in the text; the fallback when no group matches; always a table label or the fallback |
| Alumni.Field | app.py:114-116 | `record.get(key, '')` |
| Alumni.Person.Attribute | app.py:200 | `person.get(key, default)` |
| Alumni.InstitutionType | app.py:88-92 | the lookup never fails: the table's `institution_type` of a known school, the fallback for a missing key or an unknown school |
| Alumni.InsertAt | app.py:177 | `list.insert(i, x)`: `x` at `i`, the prefix unchanged, the suffix shifted by one |
| Alumni.InsertAtElements | app.py:177 | after the insert, every other element is an original one at its old or shifted index |
| Alumni.RealNodesAppend | app.py:177 | removing CDTM nodes and counting them distribute over concatenation |
| Alumni.CdtmCountPositive | app.py:428 | the CDTM count is positive exactly when some node is a CDTM node |
| Alumni.RealNodesMember | app.py:435-438 | every non-CDTM node survives the removal of CDTM nodes |
| Alumni.RealNodesOfReal | app.py:113-130 | a list without CDTM nodes is its own list of real nodes, with CDTM count 0 |
| Alumni.InsertCdtm | app.py:160-177 | inserting one CDTM node into CDTM-free entries: removing it gives back the entries in order, and exactly one CDTM node exists |
| Alumni.InsertCdtmAt | app.py:160-177 | the only CDTM node is at the insertion index, and every other node is an original one |
| Alumni.FirstIndexIn | app.py:140-152 | `for i, entry in enumerate(...): if degree in ...: break`: the first matching index, or none when nothing matches |
| Alumni.PrimaryField | app.py:179-184 | the first field other than "Other" of a non-CDTM node, and that such a node exists; none exactly when no such node exists |
| Alumni.FindPrimaryField | app.py:179-184 | the primary-field loop with its `break` computes `PrimaryField` |
| Alumni.PrimaryFieldSnoc | app_flow_style.py:120-122 | once set, the primary field stays; a later node sets it only when it is the first deciding one |
| Alumni.PrimaryFieldIgnoresCdtm | app_plotly.py:135-139 | inserting a CDTM node never changes the primary field |
| FlowTaxonomy.CategorizeDegree | app.py:41-57 | empty degree gives "Other"; otherwise the Bachelor's, Master's, Doctorate, Diploma groups in that order on the lower-cased text, else "Other"; always one of the five labels |
| FlowTaxonomy.CategorizeField | app.py:60-85 | an empty field is "Business" exactly when the degree contains 'mba' case-insensitively, else "Other"; otherwise Engineering/Tech, Business, Sciences in order, else "Other" |
| FlowTaxonomy.DottedMba | app.py:48-51 | "M.B.A." is a Bachelor's degree, because 'b.a' is tried first |
| FlowTaxonomy.PlainMba | app.py:48-51 | "MBA" is a Master's degree |
| FlowTaxonomy.EmptyFieldOfMba | app.py:62-65 | an empty field is Business with an MBA degree and Other with a Bachelor degree |
| FlowPaths.LastCdtmIndex | app.py:113-119 | the index of the last CDTM record, with no CDTM record after it; none exactly when no record is CDTM |
| FlowPaths.LastCdtm | app.py:111-119 | `cdtm_entry` is the record at the last CDTM index, and set exactly when such an index exists |
| FlowPaths.EntriesStep | app.py:113-130 | one more record: a CDTM record adds no entry, any other record adds its node |
| FlowPaths.LastCdtmStep | app.py:118-119 | one more record: a CDTM record becomes `cdtm_entry` |
| FlowPaths.CollectEntries | app.py:113-130 | the first pass computes `Entries` and `LastCdtm` |
| FlowPaths.EntriesAppend | app.py:113-130 | the first pass keeps record order: the entries of a concatenation are the concatenated entries |
| FlowPaths.EntriesOfRecord | app.py:118-130 | a single record gives no entry if it is CDTM, else the node of its classification |
| FlowPaths.EntriesOrdinary | app.py:120-130 | every entry is a non-CDTM node with one of the five degree levels |
| FlowPaths.EntriesProperties | app.py:113-133 | entries are ordinary, no more numerous than the records, and absent exactly when every record is CDTM |
| FlowPaths.NonCdtmCountZero | app.py:132-133 | no non-CDTM record exactly when every record is CDTM |
| FlowPaths.NonCdtmCountBound | app.py:113-130 | there are no more non-CDTM records than records |
| FlowPaths.EntriesCount | app.py:113-130 | one entry per non-CDTM record |
| FlowPaths.CollectPathNodes | app_flow_style.py:107-128 | the flow-style loop yields the entries and sets the primary field once, to the first non-"Other" field |
| FlowPaths.InsertPlacement | app.py:139-157 | after the first Bachelor's/Diploma entry ("Bachelor's Level"), else after the first Master's entry ("Master's Level"), else 1 with several entries and 0 with one ("Bachelor's Level"); never past the end; none only for no entries |
| FlowPaths.FindInsertPlacement | app.py:139-157 | the two search loops and the fallback compute `InsertPlacement` |
| FlowPaths.WithCdtmProperties | app.py:159-177 | with the CDTM node inserted: the entries come back in order without it; there is one CDTM node exactly when a CDTM record and an entry exist; it sits at the placement with its level; the primary field is unchanged |
| FlowPaths.WithCdtmSingle | visualize_flow_plotly.py:111-136 | a single Bachelor's/Diploma/Master's entry puts the CDTM node second; any other single entry puts it first |
| App.BuildPath | app.py:104-201 | one iteration of the person loop computes `PathOf` |
| App.ExtractPaths | app.py:100-203 | `extract_paths` computes `ExtractPathsSpec`: the paths of the kept people, in order |
| App.PathNodesShape | app.py:113-177 | without the CDTM node, the nodes are the classified non-CDTM records in order; one CDTM node exactly when a CDTM and a non-CDTM record exist, at the placement, with the entries' first non-"Other" field (else "Other"); the primary field ignores it |
| App.PathShape | app.py:160-201 | a kept path has at least two nodes; its primary field is the first non-"Other" field of a non-CDTM node, else "Other"; its CDTM node has that field; it passes the filters |
| App.NoPathWithoutEntries | app.py:132-133 | a person whose records are all CDTM gives no path |
| App.FiltersConjoin | app.py:187-194 | a person passes both filters exactly when the person passes each alone, with the unfiltered path |
| App.FilterByOtherIsEmpty | app.py:188-190 | filtering by field "Other" returns no path, since the un-defaulted primary field is never "Other" |
| App.KeptPath | app.py:186-201 | a kept path has two or more nodes, at most one CDTM node, and passes the filters |
| App.ExtractPathsProperties | app.py:100-203 | every returned path is kept as above, and there are no more paths than people |
| AppPlotly.BuildPath | app_plotly.py:74-156 | one iteration of the person loop computes `PathOf` |
| AppPlotly.ExtractPaths | app_plotly.py:70-158 | `extract_paths` computes `ExtractPathsSpec` |
| AppPlotly.PathNodesShape | app_plotly.py:82-139 | entries in order without the CDTM node; one CDTM node exactly when a CDTM and another record exist, at the placement, with degree, field and institution 'CDTM'; the primary field ignores it |
| AppPlotly.PathShape | app_plotly.py:135-156 | a kept path has at least two nodes, passes the filters, and its primary field is the first non-"Other" ordinary field, else "Other" |
| AppPlotly.FilterByOtherIsEmpty | app_plotly.py:143-145 | filtering by field "Other" returns no path |
| AppPlotly.CdtmDegreeMeansCdtmNode | app_plotly.py:125-133 | some node has degree 'CDTM' exactly when the CDTM node was inserted |
| AppPlotly.CdtmDegreeFilter | app_plotly.py:146-148 | the degree filter 'CDTM' keeps exactly the kept people with a CDTM record |
| AppPlotly.KeptPath | app_plotly.py:141-156 | a kept path has two or more nodes, at most one CDTM node, and passes the filters |
| AppPlotly.ExtractPathsProperties | app_plotly.py:70-158 | every returned path is kept as above, and there are no more paths than people |
| VisualizeFlowPlotly.BuildPath | visualize_flow_plotly.py:77-150 | one iteration of the person loop computes `PathOf` |
| VisualizeFlowPlotly.ExtractPaths | visualize_flow_plotly.py:73-152 | `extract_paths` computes `ExtractPathsSpec` |
| VisualizeFlowPlotly.PathNodesShape | visualize_flow_plotly.py:85-142 | node count is the non-CDTM count plus one when a CDTM record also exists; entries in order without the CDTM node; the CDTM node is all 'CDTM' at the placement; the primary field ignores it |
| VisualizeFlowPlotly.NoPathFromCdtmOnly | visualize_flow_plotly.py:85-105 | a person with only CDTM records gives no path |
| VisualizeFlowPlotly.OneRecordWithCdtm | visualize_flow_plotly.py:128-150 | one non-CDTM record plus a CDTM record gives a kept two-node path: the CDTM node is second after a Bachelor's, Diploma or Master's entry, first otherwise |
| VisualizeFlowPlotly.OneEntryNodes | visualize_flow_plotly.py:111-136 | the two nodes built from a single entry and a CDTM record, in that order |
| VisualizeFlowPlotly.KeptPath | visualize_flow_plotly.py:144-150 | a returned path has two or more nodes and at most one CDTM node |
| VisualizeFlowPlotly.ExtractPathsProperties | visualize_flow_plotly.py:73-152 | every returned path is kept as above, and there are no more paths than people |
| AppFlask.CategorizeField | app_flask.py:43-59 | an empty field gives "Other" (no 'mba' rule); otherwise Engineering/Tech, Business, Sciences in order, else "Other" |
| AppFlask.CsQuirk | app_flask.py:48-53 | 'cs' is an engineering keyword tried first, so Physics, Economics and Mathematics are Engineering/Tech |
| AppFlask.UpperCenter | app_flask.py:106 | the upper-cased long CDTM name is the literal the route tests |
| AppFlask.DetectsCaseSensitiveMatches | app_flask.py:106-108 | every school the case-sensitive `is_cdtm` finds is found here too |
| AppFlask.DetectsLowerCase | app_flask.py:106-108 | "cdtm munich" is found here and not by the case-sensitive test |
| AppFlask.LastCdtmIndex | app_flask.py:99-108 | `cdtm_level` is the index of the last CDTM record, none exactly when there is none |
| AppFlask.CollectEntries | app_flask.py:101-124 | the `enumerate` pass computes the filtered entries and the last CDTM index |
| AppFlask.EntriesFilter | app_flask.py:113-117 | filtering entries as they are read is filtering the unfiltered entries afterwards, in order |
| AppFlask.EntriesProperties | app_flask.py:101-124 | every entry is a non-CDTM node with the filtered field and degree |
| AppFlask.InsertIndex | app_flask.py:129-150 | after the first Bachelor's/Diploma entry, else after the first Master's entry, else 1, clamped to the list length |
| AppFlask.BuildPath | app_flask.py:93-165 | one iteration of the person loop computes `PathOf` |
| AppFlask.ExtractPaths | app_flask.py:89-167 | `extract_paths` computes `ExtractPathsSpec` |
| AppFlask.PathNodesShape | app_flask.py:101-156 | filtered entries in order without the CDTM node; every ordinary node has the filtered field and degree; one CDTM node exactly when a CDTM record exists, at the clamped index, tagged with the last CDTM record's index; the primary field ignores it |
| AppFlask.NoPathWithoutEntries | app_flask.py:126-127 | entries all CDTM or all filtered out give no path, even with a CDTM record |
| AppFlask.OneEntryPutsCdtmLast | app_flask.py:150 | with one entry the clamped index puts the CDTM node last, whatever the degree |
| AppFlask.KeptPath | app_flask.py:158-165 | a returned path has two or more nodes, at most one CDTM node, and ordinary nodes that pass the filters |
| AppFlask.ExtractPathsProperties | app_flask.py:89-167 | every returned path is kept as above, and there are no more paths than people |
| AppFlowStyle.BuildPath | app_flow_style.py:98-145 | one iteration of the person loop computes `PathOf` |
| AppFlowStyle.ExtractPaths | app_flow_style.py:94-147 | `extract_paths` computes `ExtractPathsSpec` |
| AppFlowStyle.PathShape | app_flow_style.py:107-145 | a kept path is exactly the classified non-CDTM records in order, at least two, with no CDTM node; its primary field is "Other" exactly when every field is "Other", else one of its fields, and in both cases the first field other than "Other" (`PrimaryField`) defaulted to "Other" |
| AppFlowStyle.FilterByOtherIsEmpty | app_flow_style.py:132-134 | filtering by field "Other" returns no path |
| AppFlowStyle.KeptPath | app_flow_style.py:130-145 | a returned path has two or more nodes, none CDTM, and passes the filters |
| AppFlowStyle.ExtractPathsProperties | app_flow_style.py:94-147 | every returned path is kept as above, and there are no more paths than people |
| VisualizeFlowStyle.BuildPath | visualize_flow_style.py:84-121 | one iteration of the person loop computes `PathOf` |
| VisualizeFlowStyle.ExtractPaths | visualize_flow_style.py:80-123 | `extract_paths` computes `ExtractPathsSpec` |
| VisualizeFlowStyle.PathExactly | visualize_flow_style.py:93-121 | a person gives a path exactly when the person has at least two non-CDTM records, and the path is those records classified, in order, without a CDTM node |
| VisualizeFlowStyle.ExtractPathsCount | visualize_flow_style.py:80-123 | paths plus people with fewer than two non-CDTM records equals people |
| Statistics.PrimaryFields | app.py:431 | `[p['primary_field'] for p in paths]`, element by element |
| Statistics.DegreesStep | app.py:434-438 | one more node: its degree is counted unless it is a skipped CDTM node |
| Statistics.PathDegreesStep | app.py:434-438 | one more path: its degrees follow the ones counted so far |
| Statistics.AddDegrees | app.py:435-438 | the inner node loop adds the counted degrees of one path to the counter |
| Statistics.CountDegrees | app.py:434-438 | the nested loop counts the degrees of the non-CDTM nodes (all nodes for the flow-style variant) |
| Statistics.GetStatistics | app.py:420-450 | no paths give the empty result; otherwise the path count, the paths with a CDTM node, the primary fields counted, the non-CDTM degrees counted |
| Statistics.GetFlowStatistics | app_flow_style.py:328-350 | as above, without `paths_with_cdtm`, counting the degree of every node |
| Statistics.PathsWithCdtmBound | app.py:428 | `paths_with_cdtm` is at most `total_alumni`, equal exactly when every path has a CDTM node |
| Statistics.DegreesCount | app.py:434-438 | a path contributes one degree per counted node |
| Statistics.PathDegreesCount | app.py:434-438 | the counted degrees are as many as the counted nodes of all paths |
| Statistics.StatisticsTotals | app_flow_style.py:336-342 | field counts sum to the number of paths and are the occurrence counts; degree counts sum to the number of counted nodes; `paths_with_cdtm` ≤ `total_alumni` |
| Tally.SumCountsOther | app.py:437 | changing one key's count leaves the sum over keys without it unchanged |
| Tally.SumCountsBump | app.py:437 | bumping one key of a duplicate-free key list raises the sum by one |
| Tally.AddExisting | app.py:437 | `c[k] += 1` for a present key keeps the counter well formed and raises the total by one |
| Tally.DistinctSnoc | app.py:437 | appending a new key keeps the keys distinct |
| Tally.AddNew | app.py:437 | `c[k] += 1` for a new key appends it and raises the total by one |
| Tally.AddProperties | app.py:437 | `c[k] += 1` bumps `k` alone, appends it when new, raises the total by one, and keeps the counter well formed |
| Tally.OfProperties | app.py:431 | counting a list: keys are its distinct elements in first-seen order, each count the number of occurrences, total its length |
| Tally.OfSnoc | app.py:437 | counting one more element is one more `c[x] += 1` |
| Tally.DedupProperties | visualize_education_paths.py:183-186 | the distinct elements are duplicate-free, are exactly the list's elements, and each occurs at least once |
| EducationTaxonomy.CategorizeDegree | visualize_education_paths.py:23-48 | "Unknown" exactly when degree and field are both empty; an empty degree with a field is "Certificate/Other"; otherwise the level groups (with 'ba ', 'bs ', 'ma ', 'ms ') in order, else "Certificate/Other" |
| EducationTaxonomy.MbaProgram | visualize_education_paths.py:33-38 | "MBA Program" is a Bachelor's degree, because 'ba ' is tried before 'mba' |
| EducationTaxonomy.BareBa | visualize_education_paths.py:33-48 | a bare "BA" matches no keyword and is "Certificate/Other" |
| VisualizeEducationPaths.CategorizeField | visualize_education_paths.py:51-88 | an empty field is "Business/Management" exactly when the degree contains 'mba', else "Unknown"; otherwise Engineering/Tech, Business/Management, Natural Sciences, Social Sciences/Humanities in order, else "Other" |
| VisualizeEducationPaths.NoEngineeringInPoliticalScience | visualize_education_paths.py:61-64 | no engineering keyword occurs in "political science" |
| VisualizeEducationPaths.NoBusinessInPoliticalScience | visualize_education_paths.py:68-71 | no business keyword occurs in "political science" |
| VisualizeEducationPaths.PoliticalScience | visualize_education_paths.py:74-88 | "Political Science" is Natural Sciences, since 'science' is tried before 'political' |
| VisualizeEducationPaths.BuildSequence | visualize_education_paths.py:111-131 | the record loop computes `SequenceOf` |
| VisualizeEducationPaths.ExtractEducationSequences | visualize_education_paths.py:98-136 | `extract_education_sequences` computes `Sequences` |
| VisualizeEducationPaths.SequenceOfProperties | visualize_education_paths.py:111-131 | one classified entry per non-CDTM record; empty exactly when every record is CDTM |
| VisualizeEducationPaths.SequencesProperties | visualize_education_paths.py:133-134 | every sequence is non-empty and classified; at most one per person |
| VisualizeEducationPaths.LevelPrefixes | visualize_education_paths.py:149 | the five levels differ in their first two characters |
| VisualizeEducationPaths.LabelsSeparateLevels | visualize_education_paths.py:165-166 | the levels are distinct, and entries of different levels get different node labels |
| VisualizeEducationPaths.LabelPrefix | visualize_education_paths.py:165-166 | a node label starts with its level |
| VisualizeEducationPaths.StagedLevelHasText | visualize_education_paths.py:149-157 | a staged level is never "Unknown", so its entry has a degree or a field |
| VisualizeEducationPaths.UnknownNeverStaged | visualize_education_paths.py:149-157 | no stage comes from an entry with neither degree nor field |
| VisualizeEducationPaths.BuildSankeyData | visualize_education_paths.py:139-188 | sorted duplicate-free nodes, exactly the flow endpoints; one link per distinct flow with valid source and target indices, source ≠ target, value = occurrences ≥ 1; values sum to the number of flows |
| Sankey.WithLevel | visualize_education_paths.py:154 | the entries of one level, all from the sequence; empty exactly when no entry has that level; the head is the first such entry |
| Sankey.SelectStages | visualize_education_paths.py:151-157 | the level loop computes `Stages` |
| Sankey.IndexOfSnoc | visualize_education_paths.py:177 | a present element keeps its index in a longer list |
| Sankey.IndexOfLast | visualize_education_paths.py:177 | a new last element is found at the end |
| Sankey.StagesFirstOfLevel | visualize_education_paths.py:151-157 | at most one stage per level, each of a listed level and the first entry of that level |
| Sankey.StagesOrdered | visualize_education_paths.py:151-157 | stages follow the order of the level list |
| Sankey.StagesComplete | visualize_education_paths.py:151-157 | a listed level has a stage exactly when the sequence has an entry of that level |
| Sankey.Transitions | visualize_education_paths.py:160-166 | a sequence with stages adds `len(stages) - 1` flows |
| Sankey.EndpointsHold | visualize_education_paths.py:168-169 | `node_set` holds both ends of every flow and nothing else |
| Sankey.CountStep | visualize_education_paths.py:168-173 | one more flow adds its two labels and one count |
| Sankey.TransitionsStep | visualize_education_paths.py:160-173 | one more pair of stages appends its flow |
| Sankey.AllTransitionsPrefix | visualize_education_paths.py:151-173 | one more sequence appends its flows |
| Sankey.AddFlows | visualize_education_paths.py:160-173 | the inner loop adds one sequence's labels and flow counts |
| Sankey.CountFlows | visualize_education_paths.py:151-173 | the sequence loop computes `node_set` as the endpoints of all flows and `flow_counter` as their counts |
| Sankey.SumSnoc | visualize_education_paths.py:186 | the sum of one more value |
| Sankey.SumCountsPrefix | visualize_education_paths.py:183-186 | the count sum over one more key |
| Sankey.FlowArrays | visualize_education_paths.py:183-186 | parallel arrays, one row per counted flow in first-seen order: valid label indices and its count; values sum to the counter's total |
| Sankey.StagesBound | visualize_education_paths.py:151-157 | no more stages than levels |
| Sankey.AllTransitionsBound | visualize_education_paths.py:160-168 | at most `levels - 1` flows per sequence |
| Sankey.NoSelfLoop | visualize_education_paths.py:160-173 | when labels tell levels apart, no flow links a node to itself |
| Sankey.BuildSankey | visualize_education_paths.py:139-188 | the whole builder: sorted nodes equal to the flow endpoints; valid, distinct, parallel link arrays, with counts ≥ 1 summing to the number of flows |
| VisualizeEducationPathsEnhanced.CategorizeField | visualize_education_paths_enhanced.py:53-90 | an empty field is "Business" exactly when the degree contains 'mba', else "Unknown"; otherwise Engineering/Tech (with 'computer'), Business, Sciences, Humanities in order, else "Other" |
| VisualizeEducationPathsEnhanced.NoEngineeringOrBusinessInComputer | visualize_education_paths.py:61-71 | no keyword of the basic engineering or business list occurs in "computer" |
| VisualizeEducationPathsEnhanced.NoScienceOrSocialInComputer | visualize_education_paths_enhanced.py:77-87 | no science or social-science keyword occurs in "computer" |
| VisualizeEducationPathsEnhanced.ComputerField | visualize_education_paths_enhanced.py:63-66 | "Computer" is Engineering/Tech here and Other in the basic script |
| VisualizeEducationPathsEnhanced.GetInstitutionInfo | visualize_education_paths_enhanced.py:93-102 | an unknown school gives ('Unknown', 'Unknown', False); a known one gives its values, with those defaults key by key |
| VisualizeEducationPathsEnhanced.BuildSequence | visualize_education_paths_enhanced.py:117-139 | the record loop computes `SequenceOf` |
| VisualizeEducationPathsEnhanced.ExtractEducationSequences | visualize_education_paths_enhanced.py:105-144 | `extract_education_sequences` computes `Sequences` |
| VisualizeEducationPathsEnhanced.SequenceOfProperties | visualize_education_paths_enhanced.py:117-139 | one classified entry per non-CDTM record; empty exactly when every record is CDTM |
| VisualizeEducationPathsEnhanced.SequencesProperties | visualize_education_paths_enhanced.py:141-142 | every sequence is non-empty and classified; at most one per person |
| VisualizeEducationPathsEnhanced.LevelPrefixes | visualize_education_paths_enhanced.py:166 | the four levels differ in their first two characters |
| VisualizeEducationPathsEnhanced.LabelPrefixes | visualize_education_paths_enhanced.py:181-182 | the field, institution and transition labels start with the level |
| VisualizeEducationPathsEnhanced.LabelsSeparateLevels | visualize_education_paths_enhanced.py:181-182 | the levels are distinct, and entries of different levels get different labels of each kind |
| VisualizeEducationPathsEnhanced.StagedLevelHasDegree | visualize_education_paths_enhanced.py:166 | an entry with one of the four levels is neither "Certificate/Other" nor "Unknown", so it had a degree text |
| VisualizeEducationPathsEnhanced.OnlyDegreesStaged | visualize_education_paths_enhanced.py:166-173 | no stage has level "Certificate/Other" or "Unknown", so every stage came from a record with a degree text |
| VisualizeEducationPathsEnhanced.BuildSankeyDataByField | visualize_education_paths_enhanced.py:157-206 | over four levels with "level\nfield" labels: sorted nodes equal to the flow endpoints; valid, distinct, parallel link arrays with counts ≥ 1 summing to the number of flows |
| VisualizeEducationPathsEnhanced.BuildSankeyDataByInstitution | visualize_education_paths_enhanced.py:209-253 | the same, with "level\ninstitution type" labels |
| VisualizeEducationPathsEnhanced.Project | visualize_education_paths_enhanced.py:359-363 | one projected value per entry |
| VisualizeEducationPathsEnhanced.ProjectSnoc | visualize_education_paths_enhanced.py:359-363 | projecting one more entry appends its value |
| VisualizeEducationPathsEnhanced.CountEntries | visualize_education_paths_enhanced.py:360-363 | the inner loop adds one sequence's levels, fields and institution types to the three counters |
| VisualizeEducationPathsEnhanced.PrintStatistics | visualize_education_paths_enhanced.py:345-403 | the number of sequences; the three per-entry counters over all entries; the counter of "level (field)" transitions between consecutive stages |
| VisualizeEducationPathsEnhanced.FlattenLength | visualize_education_paths_enhanced.py:351-363 | non-empty sequences hold at least one entry each |
| VisualizeEducationPathsEnhanced.EntryCountersTotals | visualize_education_paths_enhanced.py:355-363 | each of the three per-entry counters sums to the number of entries; the level counts are the occurrence counts |
| VisualizeEducationPathsEnhanced.StatisticsTotals | visualize_education_paths_enhanced.py:351-400 | over extracted sequences there are at least as many entries as alumni, and at most three transitions per alumnus |

## Left out

- `load_data` and the JSON file reads are not modelled: they are I/O. The alumni list and the schools table are parameters. The module-level `ALUMNI_DATA`/`SCHOOLS_DATA` of the front ends are parameters too.
- The Dash layouts and callbacks (`update_visualization`, `reset_filters`), the Flask routes (`index`, `get_graph`), `HTML_TEMPLATE` and its JavaScript are not modelled: they are UI and HTTP wiring. The route's turning 'All' into None is not modelled; `AppFlask.Given` states what the filter then sees.
- `define_stations`, the station keys, `sigmoid_curve` and its random jitter, node sizes, and all matplotlib/Plotly drawing and file writing are not modelled: they are rendering, floating point and randomness.
- `generate_colors` is not modelled: it uses floating-point HSV conversion. The Sankey builders return the four other lists.
- Averages, medians, maxima of path lengths and all percentages are not modelled: they are floating point. `Counter.most_common` ordering and all printing are not modelled either. The model returns whole counters where `get_statistics` returns `most_common()` lists and only the top five degrees (`most_common(5)`). `visualize_flow_style.print_statistics` has only one integer counter, the primary-field counter. It is the `Of(PrimaryFields(paths))` of `Statistics`.
- Full Unicode `lower()`/`upper()` is not modelled: `Text.Lower` and `Text.Upper` map only the ASCII letters.
- JSON values other than strings are not modelled: a record's values are strings. A key whose value is `null` is outside the model; the source would pass `None` to the classifiers.
- A CDTM record that is an empty dictionary is not modelled. The source's `if cdtm_entry` would read it as false. In the model a CDTM record always has a CDTM `school`, so it is never empty.
- `build_sankey_data`'s `max_stages` argument is accepted and not used, as in the source.
- `print_statistics` of the enhanced script builds display strings for its transition counter. The model counts the same label pairs with `Sankey.CountFlows`, which also returns a node set that the source does not build.
- The source's identical code is modelled once:
  - the flow-chart classifiers of app.py, app_plotly.py, visualize_flow_plotly.py, app_flow_style.py and visualize_flow_style.py, and app_flask.py's degree classifier, live in `FlowTaxonomy`;
  - the shared steps of `extract_paths` live in `FlowPaths`;
  - the `get_statistics` of app.py and app_plotly.py live in `Statistics`;
  - the Sankey scripts' degree classifier lives in `EducationTaxonomy`.
  - Rows cite one copy of each.
- `is_cdtm` and `get_institution_type` are modelled once (`Alumni.IsCdtm`, `Alumni.InstitutionType`). Each script's fallback label is passed as an argument: 'University' in the flow charts, 'Unknown' in the Sankey scripts.
- FlowPaths.LastCdtm: its contract speaks of the record at `LastCdtmIndex`. The properties of the last CDTM record are stated on that index function.
