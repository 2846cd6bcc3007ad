# Career path predictor — a verified model of its matching and planning core

This project models, in Dafny, the two rule-based engines of the career path
predictor and its synonym expansion helper, and proves what they promise.

* **Career matcher and gap analyser** (`career_predictor.py`). The user's
  skill tokens are lower-cased and trimmed. Every career of the fifteen-entry
  catalog is scored, in catalog order, by blending three signals:
  * a Jaccard overlap;
  * a text cosine;
  * a match percentage,

  with the weights 0.3 / 0.4 / 0.3. The confidence is rounded to three
  decimals and the match percentage to one. The records are then sorted by
  descending confidence (a stable sort) and the first `top_k` are kept. The
  gap analyser is set algebra (matched = user ∩ required, missing =
  required − user) plus a gap percentage.
* **Roadmap planner** (`roadmap_generator.py`). A single pass sorts the
  lower-cased missing skills into Foundation, Intermediate and Advanced
  buckets using a fixed prerequisite map. The Foundation test consults the
  Foundation bucket *as built so far*, so input order matters. Each
  non-empty bucket becomes a phase with the fixed number 1, 2 or 3. A
  portfolio phase numbered one past the number of phases so far is always
  appended. The roadmap also gathers, in input order:
  * up to two courses and two projects per skill, cut to eight courses and
    five projects;
  * a tool set;
  * the career's certifications;
  * a timeline estimate that depends only on the number of skills.
* **Synonym expansion** (`skill_extractor.py`, `enhance_skills_with_synonyms`).
  Each input skill that has related skills adds the first two of them. The
  lookup is exact, only the original skills are looked up, and the result
  holds no element twice.

## Modules

| file | module | what it holds |
|---|---|---|
| `text.dfy` | `SkillText` | ASCII `lower` and `strip`, skill normalisation, `set(...)`, `join`, Python slices, generic sequence facts |
| `rounding.dfy` | `Rounding` | `round(x, 3)` and `round(x, 1)` as round-half-even on exact reals |
| `ranking.dfy` | `Ranking` | the stable descending sort, specified by the order it produces, implemented by insertion |
| `career_catalog.dfy` | `CareerCatalog` | the catalog as an ordered list of (title, profile) pairs, dictionary lookup, the fifteen careers |
| `career_predictor.dfy` | `CareerPredictor` | scoring, ranking, gap analysis, the catalog queries |
| `career_examples.dfy` | `CareerExamples` | the gap analysis of the Python API test |
| `roadmap_tables.dfy` | `RoadmapTables` | learning resources, certifications, tools, prerequisite map |
| `roadmap_generator.dfy` | `RoadmapGenerator` | bucket classifier, phase list, timeline, resource gathering, the roadmap |
| `roadmap_examples.dfy` | `RoadmapExamples` | the planner on concrete inputs, including the Python roadmap test |
| `skill_extractor.dfy` | `SkillExtractor` | synonym expansion |

Each Python loop that builds a list or a set step by step is a `method`
with a `while` loop, proved against a specification function; the list
comprehensions are functions, and `list.sort` is specified by the order
it must produce and implemented by an insertion sort:
* `CareerPredictor.ScoreCareers` is proved against `Scores`;
* `Ranking.StableSortDesc` is proved against `IsStableDescOrder`;
* `RoadmapGenerator.ClassifySkills` is proved against `Bucket`;
* `RoadmapGenerator.GatherForSkills` is proved against `Gather` and `GatherSet`;
* `SkillExtractor.ExpandedSet` is proved against `Expand`.

The lemmas are stated about those functions.

Behaviours of the code that the model keeps and proves:
* The phase numbering can skip numbers and can repeat one. For
  `["css", "html"]` the phases are Foundation = 1, Advanced = 3 and
  Portfolio = 3 (`RoadmapExamples.CssBeforeHtml`). For the Python roadmap
  test they are Advanced = 3 and Portfolio = 2
  (`RoadmapExamples.WebAndDockerAllAdvanced`).
* A skill listed twice is classified once per occurrence, so it can land in
  two phases (`RoadmapExamples.RepeatedSkillInTwoPhases`).
* `predict_career_paths` logs `top_predictions[0]`, so an empty slice
  raises `IndexError`. With fifteen careers the slice is empty exactly for
  `top_k == 0` and for `top_k <= -15` (`SkillText.SliceEmptyExactly`); a
  negative `top_k` such as -1 keeps every record but the last. The model
  returns `Err(IndexError)` exactly in the empty case.
* The roadmap generator does not validate the career. An unknown career
  gets an empty certification list and no error.

## Model

| member | source | states |
|---|---|---|
| `SkillText.Lower` | career_predictor.py:153 | the result has the input's length and no upper-case letter; every upper-case letter becomes its lower-case counterpart (code point + 32) and every other character is kept |
| `SkillText.LowerAllFixesLower` | roadmap_generator.py:165-166 | lower-casing a list of lower-case skills changes nothing |
| `SkillText.Strip` | career_predictor.py:153 | the result is trimmed, is a slice of the input, and only white space is dropped, at both ends |
| `SkillText.Normalize` | career_predictor.py:153 | a normalised token is lower-case and trimmed |
| `SkillText.NormalizeFixesNormalized` | career_predictor.py:153 | a token that is already lower-case and trimmed is its own normal form |
| `SkillText.NormalizeIdempotent` | career_predictor.py:153 | normalising twice is the same as normalising once |
| `SkillText.NormalizeIgnoresCase` | career_predictor.py:153-165 | two tokens of the same length that agree letter by letter up to case normalise to the same skill |
| `SkillText.NormalizeAllFixesNormalized` | career_predictor.py:153 | normalising a list of normalised tokens changes nothing |
| `SkillText.SetOfSize` | career_predictor.py:165-166 | `set(xs)` has at most as many elements as `xs`, and exactly as many when no entry repeats |
| `SkillText.Join` | career_predictor.py:154-162 | `" ".join(xs)` is as long as the elements together plus one separator per neighbouring pair, and opens with the first element |
| `SkillText.JoinSnoc` | career_predictor.py:154-162 | joining one more element appends one separator and that element, so the elements appear in list order, one separator between neighbours |
| `SkillText.Take` | roadmap_generator.py:116-117 | `xs[:n]` has length min(n, len) and is a prefix of `xs` |
| `SkillText.Slice` | career_predictor.py:197 | `xs[:k]` is a prefix of `xs` of the length Python's slice rule gives: `xs[:k]` for k >= 0; for -len <= k < 0 it is what remains after dropping the last -k elements; empty for k < -len |
| `SkillText.SliceEmptyExactly` | career_predictor.py:197-199 | the slice of a non-empty list is empty exactly for k == 0 and for k <= -len, the cases in which `top_predictions[0]` raises |
| `Rounding.RoundHalfEven` | career_predictor.py:185 | the result is within 1/2 of the input, strictly so off the half-way points, and even at them |
| `Rounding.RoundHalfEvenOfInteger` | career_predictor.py:185 | rounding an integer gives it back |
| `Rounding.RoundHalfEvenWithin` | career_predictor.py:185 | rounding never crosses an integer bound |
| `Rounding.RoundHalfEvenMonotone` | career_predictor.py:185 | rounding is monotone |
| `Rounding.Round3` | career_predictor.py:185 | `round(x, 3)` is a multiple of 0.001 within 0.0005 of x |
| `Rounding.Round1` | career_predictor.py:190 | `round(x, 1)` is a multiple of 0.1 within 0.05 of x |
| `Rounding.Round3InUnit` | career_predictor.py:185 | a confidence in [0, 1] stays in [0, 1] after rounding |
| `Rounding.Round1InPercent` | career_predictor.py:190 | a percentage in [0, 100] stays in [0, 100] after rounding |
| `Rounding.Round3Monotone` | career_predictor.py:185 | rounding preserves the order of confidences |
| `Ranking.StableSortDesc` | career_predictor.py:196 | the order lists every position exactly once, by descending key, equal keys in ascending position |
| `Ranking.PrecedesAsymmetric` | career_predictor.py:196 | of two distinct positions, at most one precedes the other |
| `Ranking.SortedSameElementsEqual` | career_predictor.py:196 | two orders sorted by the same key over the same positions are equal |
| `Ranking.StableDescOrderUnique` | career_predictor.py:196 | a stable descending sort has exactly one possible result |
| `Ranking.StableDescOrderKeepsLargest` | career_predictor.py:196-197 | a position left out of the first n has a key no larger than any kept one |
| `CareerCatalog.Lookup` | career_predictor.py:216-220 | lookup fails exactly for a title that is not a key, and otherwise finds an entry with that title |
| `CareerCatalog.LookupFindsEntry` | career_predictor.py:243-247 | with unique titles, lookup returns the profile stored under the title |
| `CareerCatalog.CareerDatabaseIsWellFormed` | career_predictor.py:15-136 | the catalog has fifteen entries and no title twice |
| `CareerPredictor.Jaccard` | career_predictor.py:165-169 | the overlap lies in [0, 1]; it is 0 for an empty union; it is 0 exactly when nothing is shared; it is 1 exactly when the two sets are equal and non-empty |
| `CareerPredictor.JaccardOfSelf` | career_predictor.py:169 | a non-empty set overlaps itself fully |
| `CareerPredictor.MatchPercentage` | career_predictor.py:177-178 | the percentage lies in [0, 100]; it is 0 for no required skills; otherwise it is 100 exactly when every required skill is held |
| `CareerPredictor.GapPercentage` | career_predictor.py:225 | the percentage lies in [0, 100] and is 0 for no required skills |
| `CareerPredictor.GapComplementsMatch` | career_predictor.py:225 | for a non-empty required set, gap and match percentages add up to 100 |
| `CareerPredictor.SplitCardinality` | career_predictor.py:222-223 | matched plus missing counts equal the required count |
| `CareerPredictor.RequiredSet` | career_predictor.py:161-166 | the required set is the set of the same lower-cased list the cosine joins; it has no upper-case letter and no more elements than the profile lists |
| `CareerPredictor.Confidence` | career_predictor.py:181 | three signals in range blend to a value in [0, 1]; three equal signals blend to that value |
| `CareerPredictor.ScoreCareer` | career_predictor.py:161-193 | one record copies the catalog fields; matched = user ∩ required and missing = required − user, disjoint, together the required set; the match percentage is in [0, 100]; the confidence is in [0, 1] when the cosine is |
| `CareerPredictor.ScoreIgnoresRequiredCase` | career_predictor.py:161-174 | profiles whose required skills lower-case to the same list get the same cosine term, required set, confidence, match percentage and skill sets |
| `CareerPredictor.ScoreCareers` | career_predictor.py:156-193 | the loop builds exactly those records |
| `CareerPredictor.PredictCareerPaths` | career_predictor.py:139-202 | the result is the first `top_k` of the stable descending ranking of the normalised user's records, with length min(top_k, 15) for `top_k >= 0`; an empty slice is `IndexError` |
| `CareerPredictor.TopRankingDeterministic` | career_predictor.py:196-197 | the ranking is determined by its inputs |
| `CareerPredictor.TopRankingFacts` | career_predictor.py:196-197 | the reported records have the slice's length, non-increasing confidence, each is a computed record, and none left out beats one kept |
| `CareerPredictor.TopRankingTiesKeepOrder` | career_predictor.py:196 | of two reported records with equal confidence, the first comes from an earlier catalog position |
| `CareerPredictor.TopRankingConfidenceInUnit` | career_predictor.py:181-185 | with a cosine in [0, 1], every reported confidence is in [0, 1] |
| `CareerPredictor.AnalyzeSkillGaps` | career_predictor.py:205-235 | unknown title: error. Otherwise: matched = user ∩ required, matched ∪ missing = required, disjoint; the counts; an empty partial list; the rounded gap percentage in [0, 100] |
| `CareerPredictor.GetAllCareers` | career_predictor.py:238-240 | the titles in catalog order, exactly those whose lookup succeeds |
| `CareerPredictor.GetCareerInfo` | career_predictor.py:243-247 | unknown title: error; otherwise the stored profile |
| `CareerPredictor.GapAnalysisFailsIffInfoFails` | career_predictor.py:216-217 | both fail on exactly the same titles |
| `CareerExamples.FullStackGap` | test_api.py:77-78 | {python, sql, html} against Full Stack Developer: 3 matched, 7 missing out of 10, gap 70.0 |
| `RoadmapGenerator.Foundations` | roadmap_generator.py:173-178 | the Foundation bucket after i positions holds exactly the prerequisite-free skills among them, at most i of them |
| `RoadmapGenerator.LevelOf` | roadmap_generator.py:173-184 | Foundation exactly when a skill has no prerequisites; Intermediate exactly when it has some and each is a current skill or an earlier prerequisite-free missing skill; Advanced otherwise |
| `RoadmapGenerator.Bucket` | roadmap_generator.py:173-184 | a bucket built from the first n positions holds at most n skills, all of them among those positions |
| `RoadmapGenerator.FoundationsIsBucket` | roadmap_generator.py:173-179 | the Foundation bucket built so far is exactly the prerequisite-free skills seen so far |
| `RoadmapGenerator.BucketMembership` | roadmap_generator.py:173-184 | a skill is in a bucket exactly when some occurrence of it was classified there |
| `RoadmapGenerator.BucketsStep` | roadmap_generator.py:173-184 | each step of the pass adds its skill to exactly one bucket |
| `RoadmapGenerator.BucketsPartition` | roadmap_generator.py:173-184 | the three buckets together are a permutation of the lower-cased missing skills |
| `RoadmapGenerator.ExactlyOneBucket` | roadmap_generator.py:173-184 | without repeats, each skill is in exactly the bucket its rule chooses |
| `RoadmapGenerator.SkillPhase` | roadmap_generator.py:186-213 | a bucket phase carries the bucket's skills, and its number 1, 2 or 3 identifies its level |
| `RoadmapGenerator.ClassifySkills` | roadmap_generator.py:168-184 | the loop builds exactly the three buckets of the classification rule |
| `RoadmapGenerator.SkillPhasesShape` | roadmap_generator.py:186-213 | at most three skill phases, each non-empty and numbered 1..3, in rising number order, one per non-empty bucket |
| `RoadmapGenerator.AssembleShape` | roadmap_generator.py:186-222 | one to four phases, the skill phases first, the portfolio phase last with the list's length as its number |
| `RoadmapGenerator.SkillPhasesSkills` | roadmap_generator.py:186-213 | the skill phases hold the three buckets in order |
| `RoadmapGenerator.SkillsOfAppend` | roadmap_generator.py:186-222 | the skills of concatenated phase lists are the concatenated skills |
| `RoadmapGenerator.LearningPhasesPermutation` | roadmap_generator.py:142-224 | the skill phases of the output hold the lower-cased missing skills, each as often as listed |
| `RoadmapGenerator.BuildPhaseList` | roadmap_generator.py:186-224 | the conditional appends build exactly the assembled phase list |
| `RoadmapGenerator.CreateLearningPhases` | roadmap_generator.py:142-224 | `_create_learning_phases` returns the phases of the classification |
| `RoadmapGenerator.EstimateTimeline` | roadmap_generator.py:227-249 | at most 5 skills: "2-3 months"; 6-9: "4-6 months"; 10-13: "6-9 months"; 14 or more: "9-12 months" |
| `RoadmapGenerator.TimelineIgnoresPhases` | roadmap_generator.py:227-249 | the phase count does not affect the estimate |
| `RoadmapGenerator.TimelineMonotone` | roadmap_generator.py:239-249 | more skills never give a shorter estimate |
| `RoadmapGenerator.GetSkillResources` | roadmap_generator.py:252-266 | the entry for the lower-cased skill, or no courses and no projects exactly when there is none |
| `RoadmapGenerator.LearningResourcesComplete` | roadmap_generator.py:12-53 | every skill of the resource table lists two courses and two projects |
| `RoadmapGenerator.CoursesOf` | roadmap_generator.py:114-116 | a skill of the resource table contributes both its courses, any other skill none |
| `RoadmapGenerator.ProjectsOf` | roadmap_generator.py:114-117 | a skill of the resource table contributes both its projects, any other skill none |
| `RoadmapGenerator.ToolsOf` | roadmap_generator.py:120-122 | a tool is contributed exactly when the tool table lists it for the skill; a known skill contributes four |
| `RoadmapGenerator.CoursesOfIsResourceLookup` | roadmap_generator.py:112-118 | the roadmap takes the first two courses and projects of the resource lookup |
| `RoadmapGenerator.GatherAppend` | roadmap_generator.py:112-118 | gathering distributes over concatenation |
| `RoadmapGenerator.GatherMembership` | roadmap_generator.py:112-118 | an item is gathered exactly when it is picked for some skill |
| `RoadmapGenerator.GatherSetMembership` | roadmap_generator.py:120-122 | a tool is gathered exactly when it is listed for some skill |
| `RoadmapGenerator.GatherLength` | roadmap_generator.py:116-117 | at most k items per skill are gathered when each pick has at most k |
| `RoadmapGenerator.GatherForSkills` | roadmap_generator.py:108-122 | the loop gathers courses, projects and tools in input order |
| `RoadmapGenerator.GenerateLearningRoadmap` | roadmap_generator.py:86-139 | `generate_learning_roadmap` returns `LearningRoadmap`, the roadmap whose fields the four lemmas below describe |
| `RoadmapGenerator.RoadmapEchoesInput` | roadmap_generator.py:125-137 | the career and missing skills are echoed; at least one phase; the career's certifications, or none for an unknown career |
| `RoadmapGenerator.RoadmapResources` | roadmap_generator.py:112-138 | the courses are the first 8 of the in-order gathering, or all of it when shorter; never more than twice the number of missing skills; each listed for a missing skill |
| `RoadmapGenerator.RoadmapProjects` | roadmap_generator.py:112-136 | the projects are the first 5 of the in-order gathering, or all of it when shorter; never more than twice the number of missing skills; each listed for a missing skill |
| `RoadmapGenerator.RoadmapTools` | roadmap_generator.py:120-122 | the tools are exactly those listed for the lower-cased missing skills |
| `RoadmapTables.CertificationsFacts` | roadmap_generator.py:56-73 | the certification table covers four careers with two certifications each |
| `RoadmapTables.ToolsBySkillFacts` | roadmap_generator.py:76-83 | each skill of the tool table lists four different tools |
| `RoadmapTables.SkillDependenciesFacts` | roadmap_generator.py:150-163 | no skill is its own prerequisite, and every prerequisite but "linux" is itself a key of the map |
| `RoadmapExamples.CssBeforeHtml` | roadmap_generator.py:173-217 | ["css", "html"]: css is Advanced because html is not yet a Foundation; portfolio phase number 3 |
| `RoadmapExamples.HtmlBeforeCss` | roadmap_generator.py:173-182 | ["html", "css"]: css is Intermediate |
| `RoadmapExamples.WebAndDockerAllAdvanced` | roadmap_generator.py:173-217 | react, node.js, docker with current python, sql: all Advanced, phases numbered 3 and 2 |
| `RoadmapExamples.RepeatedSkillInTwoPhases` | roadmap_generator.py:173-184 | ["css", "html", "css"]: css appears both as Advanced and as Intermediate; four phases |
| `RoadmapExamples.WebAndDockerRoadmap` | test_api.py:89-101 | the test's roadmap: timeline "2-3 months", the two phases, react's courses and projects (the other two skills have none), the tools of react and docker, the Full Stack certifications, which are not empty |
| `SkillExtractor.Related` | skill_extractor.py:188-199 | a skill with relations adds exactly its first two, any other skill none |
| `SkillExtractor.Expand` | skill_extractor.py:185-199 | the expansion contains the input, and what it adds has no relations of its own |
| `SkillExtractor.AddedByMembership` | skill_extractor.py:196-199 | a skill is added by a prefix exactly when it is related to one of its skills |
| `SkillExtractor.AddedByIsExpand` | skill_extractor.py:185-199 | the input set plus what the loop adds is the expansion |
| `SkillExtractor.ExpandedSet` | skill_extractor.py:185-199 | the loop computes the expansion of the input set |
| `SkillExtractor.ListOf` | skill_extractor.py:201 | the list holds each element of the set exactly once |
| `SkillExtractor.EnhanceSkillsWithSynonyms` | skill_extractor.py:175-201 | the output, as a set, is the expansion, and it has no duplicates |
| `SkillExtractor.ExpandMembership` | skill_extractor.py:185-199 | a skill is in the output exactly when it is an input or among the first two relations of an input key |
| `SkillExtractor.RelatedAreNotKeys` | skill_extractor.py:188-194 | no related skill has relations of its own |
| `SkillExtractor.ExpandIdempotent` | skill_extractor.py:196-199 | expanding twice adds nothing, since what an expansion adds has no relations |
| `SkillExtractor.ExpandMonotone` | skill_extractor.py:185-199 | more input skills never give fewer output skills |
| `SkillExtractor.ExpandIsCaseSensitive` | skill_extractor.py:197 | "Python" has no relations; "python" adds django and flask |

## Left out

- TF-IDF cosine (career_predictor.py:172-174): this is scikit-learn floating-point code. It is a function parameter `cosine`. Its range [0, 1] is a hypothesis only where a lemma needs it.
- Floating point: all scores are exact reals. Python's `round` is modelled as round-half-even on the exact value, not on the binary double.
- `CareerPredictor.PredictCareerPaths`, `CareerPredictor.AnalyzeSkillGaps`, `CareerPredictor.GetAllCareers`, `CareerPredictor.GetCareerInfo`: the catalog is passed in as `catalog` (the shipped one is `CareerCatalog.CareerDatabase`). A Python dictionary cannot repeat a key, so the results match the program only for catalogs with unique titles (`UniqueTitles`), which the shipped catalog has (`CareerDatabaseIsWellFormed`). The operations do not require it.
- Unicode: `lower()` and `strip()` are modelled on ASCII letters and ASCII white space only.
- Ordering of `list(set)` results: matched and missing skills, tools and the synonym list come out in hash order. The first three are modelled as sets, the synonym list as a duplicate-free list in unspecified order.
- `CareerPredictor.ScoreCareer`, `CareerPredictor.TopRankingConfidenceInUnit`: the Python API test expects confidences in [0, 1]. This is proved only under the hypothesis that the cosine lies in [0, 1].
- Timsort: `list.sort` is specified by its unique result, which is the stable descending order. It is implemented by insertion sort.
- `RoadmapGenerator.ClassifySkills`: the prerequisite map is a parameter of the classifier. `CreateLearningPhases` passes the shipped map, so that the partition lemmas hold for any map.
- Logging calls: they have no effect on results. The one that indexes `top_predictions[0]` is modelled as the `IndexError` case.
- `extract_skills_from_text` and `load_nlp_model`: spaCy, regular expressions, a model download. They are not part of this model.
- HTTP routes, Firebase, authentication, configuration and Pydantic schemas: they are not part of this model.
