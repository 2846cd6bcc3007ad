/** The career matcher and gap analyser: per-career scores blended from a
    Jaccard overlap, a text-vector cosine and a match percentage; a stable
    descending ranking cut to the requested number of careers; the set
    algebra of a skill gap; and the catalog lookups. */
module CareerPredictor {
  import opened SkillText
  import opened Rounding
  import opened Ranking
  import opened CareerCatalog

  /** The two ways the Python implementation fails: `ValueError` for a
      title that is not in the catalog, `IndexError` when the ranked list
      it reports on is empty. */
  datatype Error = UnknownCareer(title: string) | IndexError

  datatype Result<T> = Ok(value: T) | Err(error: Error)

  /** One ranked career. The two percentage-like fields hold the rounded
      values the Python implementation stores; the skill lists are sets. */
  datatype CareerScore = CareerScore(
    careerTitle: string,
    confidence: real,
    description: string,
    averageSalary: string,
    growthRate: string,
    requiredSkills: seq<string>,
    skillMatchPercentage: real,
    matchedSkills: set<string>,
    missingSkills: set<string>)

  /** Outcome of a gap analysis. */
  datatype SkillGap = SkillGap(
    missingSkills: set<string>,
    matchedSkills: set<string>,
    partialSkills: seq<string>,
    gapPercentage: real,
    totalRequired: nat,
    totalMatched: nat)

  // ---------------------------------------------------------------------
  // Set facts
  // ---------------------------------------------------------------------

  lemma SubsetCardinality(a: set<string>, b: set<string>)
    requires a <= b
    ensures |a| <= |b|
    ensures |a| == |b| ==> a == b
  {
    assert b == a + (b - a);
    assert |b| == |a| + |b - a|;
    if |a| == |b| {
      assert |b - a| == 0;
    }
  }

  /** A set splits into the part inside `u` and the part outside it. */
  lemma SplitCardinality(u: set<string>, req: set<string>)
    ensures |req * u| + |req - u| == |req|
  {
    assert req == (req * u) + (req - u);
    assert (req * u) !! (req - u);
  }

  // ---------------------------------------------------------------------
  // The three similarity signals and their blend
  // ---------------------------------------------------------------------

  /** The required skills of a profile, lower-cased, as a set: the set of
      the same lower-cased list whose joined text the cosine sees, so no
      larger than the profile's list and with no upper-case letter. */
  function RequiredSet(profile: CareerProfile): (r: set<string>)
    ensures r == SetOf(LowerAll(profile.requiredSkills))
    ensures |r| <= |profile.requiredSkills|
    ensures forall x :: x in r ==> IsLower(x)
  {
    var lowered := LowerAll(profile.requiredSkills);
    SetOfSize(lowered);
    var r := set s | s in profile.requiredSkills :: Lower(s);
    assert r == SetOf(lowered) by {
      forall x | x in r ensures x in lowered {
        var s :| s in profile.requiredSkills && x == Lower(s);
        var i :| 0 <= i < |profile.requiredSkills| && profile.requiredSkills[i] == s;
        assert lowered[i] == x;
      }
      forall x | x in lowered ensures x in r {
        var i :| 0 <= i < |lowered| && lowered[i] == x;
        assert profile.requiredSkills[i] in profile.requiredSkills;
      }
    }
    r
  }

  /** The ratio of a count to a larger positive count lies in [0, 1], is 0
      exactly for a zero count and 1 exactly for equal counts. */
  lemma RatioFacts(a: nat, b: nat)
    requires a <= b && 0 < b
    ensures 0.0 <= a as real / b as real <= 1.0
    ensures a as real / b as real == 0.0 <==> a == 0
    ensures a as real / b as real == 1.0 <==> a == b
  {
    var q := a as real / b as real;
    assert q * b as real == a as real;
  }

  /** Two sets whose intersection is their union are equal. */
  lemma InterIsUnion(u: set<string>, v: set<string>)
    requires u * v == u + v
    ensures u == v
  {
    forall x | x in u ensures x in v {
      assert x in u + v;
    }
    forall x | x in v ensures x in u {
      assert x in u + v;
    }
  }

  /** Jaccard overlap |user ∩ required| / |user ∪ required|, 0 for an empty
      union. */
  function Jaccard(user: set<string>, required: set<string>): (r: real)
    ensures 0.0 <= r <= 1.0
    ensures user + required == {} ==> r == 0.0
    ensures r == 0.0 <==> user * required == {}
    ensures r == 1.0 <==> user == required && user != {}
  {
    var union := user + required;
    var inter := user * required;
    if union == {} then 0.0
    else
      SubsetCardinality(inter, union);
      RatioFacts(|inter|, |union|);
      assert inter == union ==> user == required by {
        if inter == union {
          InterIsUnion(user, required);
        }
      }
      |inter| as real / |union| as real
  }

  /** Jaccard overlap of a non-empty set with itself is 1. */
  lemma JaccardOfSelf(s: set<string>)
    requires s != {}
    ensures Jaccard(s, s) == 1.0
  {
  }

  /** Match percentage 100 · |user ∩ required| / |required|, 0 for an empty
      required set. */
  function MatchPercentage(user: set<string>, required: set<string>): (r: real)
    ensures 0.0 <= r <= 100.0
    ensures required == {} ==> r == 0.0
    ensures required != {} ==> (r == 100.0 <==> required <= user)
  {
    if required == {} then 0.0
    else
      var inter := user * required;
      SubsetCardinality(inter, required);
      RatioFacts(|inter|, |required|);
      assert inter == required <==> required <= user;
      (|inter| as real / |required| as real) * 100.0
  }

  /** Gap percentage 100 · |required − user| / |required|, 0 for an empty
      required set. */
  function GapPercentage(user: set<string>, required: set<string>): (r: real)
    ensures 0.0 <= r <= 100.0
    ensures required == {} ==> r == 0.0
  {
    if required == {} then 0.0
    else
      var missing := required - user;
      SubsetCardinality(missing, required);
      RatioFacts(|missing|, |required|);
      (|missing| as real / |required| as real) * 100.0
  }

  /** The gap and the match percentage of a non-empty required set add up to
      100. */
  lemma GapComplementsMatch(user: set<string>, required: set<string>)
    requires required != {}
    ensures GapPercentage(user, required) + MatchPercentage(user, required) == 100.0
  {
    SplitCardinality(user, required);
    var a := |required - user| as real;
    var m := |user * required| as real;
    var b := |required| as real;
    assert user * required == required * user;
    assert a + m == b;
    assert a / b + m / b == (a + m) / b;
  }

  /** The blend 0.3 · jaccard + 0.4 · cosine + 0.3 · match / 100. The weights
      sum to 1, so three signals in [0, 1] blend to a value in [0, 1], and
      three equal signals blend to that value. */
  function Confidence(jaccard: real, cosine: real, matchPercentage: real): (r: real)
    ensures 0.0 <= jaccard <= 1.0 && 0.0 <= cosine <= 1.0 && 0.0 <= matchPercentage <= 100.0
            ==> 0.0 <= r <= 1.0
    ensures jaccard == cosine == matchPercentage / 100.0 ==> r == jaccard
  {
    jaccard * 0.3 + cosine * 0.4 + (matchPercentage / 100.0) * 0.3
  }

  // ---------------------------------------------------------------------
  // Scoring one career
  // ---------------------------------------------------------------------

  /** The cosine the Python implementation computes for one career: of
      the joined user skills and the joined lower-cased required skills. */
  function CosineTerm(userLower: seq<string>, profile: CareerProfile,
                      cosine: (string, string) -> real): real
  {
    cosine(Join(" ", userLower), Join(" ", LowerAll(profile.requiredSkills)))
  }

  /** The record the matcher builds for one career, given the normalised
      user skills and the cosine of the two joined skill texts: the catalog
      fields copied, matched = user ∩ required and missing = required −
      user (disjoint, together the required set), a match percentage in
      [0, 100], and a confidence in [0, 1] whenever the cosine term is. */
  function ScoreCareer(userLower: seq<string>, title: string, profile: CareerProfile,
                       cosine: (string, string) -> real): (r: CareerScore)
    ensures && r.careerTitle == title && r.description == profile.description
            && r.averageSalary == profile.averageSalary && r.growthRate == profile.growthRate
            && r.requiredSkills == profile.requiredSkills
    ensures r.matchedSkills == SetOf(userLower) * RequiredSet(profile)
    ensures r.missingSkills == RequiredSet(profile) - SetOf(userLower)
    ensures r.matchedSkills !! r.missingSkills
    ensures r.matchedSkills + r.missingSkills == RequiredSet(profile)
    ensures 0.0 <= r.skillMatchPercentage <= 100.0
    ensures 0.0 <= CosineTerm(userLower, profile, cosine) <= 1.0 ==> 0.0 <= r.confidence <= 1.0
  {
    var user := SetOf(userLower);
    var required := RequiredSet(profile);
    var conf := Confidence(Jaccard(user, required), CosineTerm(userLower, profile, cosine),
                           MatchPercentage(user, required));
    Round3InUnit(conf);
    Round1InPercent(MatchPercentage(user, required));
    CareerScore(title, Round3(conf), profile.description, profile.averageSalary,
                profile.growthRate, profile.requiredSkills, Round1(MatchPercentage(user, required)),
                user * required, required - user)
  }

  /** Letter case in the required skills does not matter: two profiles
      whose required skills lower-case to the same list get the same
      cosine term, the same required set and so the same scores. */
  lemma ScoreIgnoresRequiredCase(userLower: seq<string>, title: string, p: CareerProfile,
                                 q: CareerProfile, cosine: (string, string) -> real)
    requires LowerAll(p.requiredSkills) == LowerAll(q.requiredSkills)
    ensures CosineTerm(userLower, p, cosine) == CosineTerm(userLower, q, cosine)
    ensures RequiredSet(p) == RequiredSet(q)
    ensures var a, b := ScoreCareer(userLower, title, p, cosine), ScoreCareer(userLower, title, q, cosine);
            && a.confidence == b.confidence && a.skillMatchPercentage == b.skillMatchPercentage
            && a.matchedSkills == b.matchedSkills && a.missingSkills == b.missingSkills
  {
  }

  /** The records for every career, in catalog order. */
  function Scores(catalog: Catalog, userLower: seq<string>,
                  cosine: (string, string) -> real): (r: seq<CareerScore>)
    ensures |r| == |catalog|
    ensures forall i :: 0 <= i < |catalog| ==>
              r[i] == ScoreCareer(userLower, catalog[i].0, catalog[i].1, cosine)
  {
    seq(|catalog|, i requires 0 <= i < |catalog| =>
          ScoreCareer(userLower, catalog[i].0, catalog[i].1, cosine))
  }

  /** The sort keys: the stored (rounded) confidences. */
  function Keys(scores: seq<CareerScore>): (r: seq<real>)
    ensures |r| == |scores|
    ensures forall i :: 0 <= i < |scores| ==> r[i] == scores[i].confidence
  {
    seq(|scores|, i requires 0 <= i < |scores| => scores[i].confidence)
  }

  /** `out` is the first `topK` (Python slice semantics) records of a stable
      descending sort of `scores` by confidence. */
  ghost predicate IsTopRanking(scores: seq<CareerScore>, topK: int, out: seq<CareerScore>) {
    exists order :: IsStableDescOrder(Keys(scores), order)
                    && out == Slice(Permute(scores, order), topK)
  }

  /** The ranking is a function of its inputs: two top rankings of the same
      scores are the same list. */
  lemma TopRankingDeterministic(scores: seq<CareerScore>, topK: int,
                                out1: seq<CareerScore>, out2: seq<CareerScore>)
    requires IsTopRanking(scores, topK, out1) && IsTopRanking(scores, topK, out2)
    ensures out1 == out2
  {
    var o1 :| IsStableDescOrder(Keys(scores), o1) && out1 == Slice(Permute(scores, o1), topK);
    var o2 :| IsStableDescOrder(Keys(scores), o2) && out2 == Slice(Permute(scores, o2), topK);
    StableDescOrderUnique(Keys(scores), o1, o2);
  }

  /** What a top ranking of any list of records holds: as many records as
      the slice keeps, by non-increasing confidence, each one of the input
      records, and no record left out that beats one kept. */
  lemma TopRankingFacts(scores: seq<CareerScore>, topK: int, out: seq<CareerScore>)
    requires IsTopRanking(scores, topK, out)
    ensures |out| == SliceLength(|scores|, topK)
    ensures forall i, j :: 0 <= i < j < |out| ==> out[i].confidence >= out[j].confidence
    ensures forall i :: 0 <= i < |out| ==> out[i] in scores
    ensures forall c :: 0 <= c < |scores| && scores[c] !in out ==>
              forall i :: 0 <= i < |out| ==> scores[c].confidence <= out[i].confidence
  {
    var keys := Keys(scores);
    var order :| IsStableDescOrder(keys, order) && out == Slice(Permute(scores, order), topK);
    forall i, j | 0 <= i < j < |out| ensures out[i].confidence >= out[j].confidence {
      assert Precedes(keys, order[i], order[j]);
    }
    forall i | 0 <= i < |out| ensures out[i] in scores {
      assert out[i] == scores[order[i]];
    }
    forall c | 0 <= c < |scores| && scores[c] !in out
      ensures forall i :: 0 <= i < |out| ==> scores[c].confidence <= out[i].confidence
    {
      if |out| > 0 {
        forall i | 0 <= i < |out| ensures order[i] != c {
          assert out[i] == scores[order[i]];
        }
        StableDescOrderKeepsLargest(keys, order, |out|, c);
      }
    }
  }

  /** Ties keep catalog order: of two reported records with equal
      confidence, the first comes from an earlier catalog position. */
  lemma TopRankingTiesKeepOrder(scores: seq<CareerScore>, topK: int, out: seq<CareerScore>)
    requires IsTopRanking(scores, topK, out)
    ensures forall i, j :: 0 <= i < j < |out| && out[i].confidence == out[j].confidence ==>
              exists a, b :: 0 <= a < b < |scores| && scores[a] == out[i] && scores[b] == out[j]
  {
    var keys := Keys(scores);
    var order :| IsStableDescOrder(keys, order) && out == Slice(Permute(scores, order), topK);
    forall i, j | 0 <= i < j < |out| && out[i].confidence == out[j].confidence
      ensures exists a, b :: 0 <= a < b < |scores| && scores[a] == out[i] && scores[b] == out[j]
    {
      assert out[i] == scores[order[i]] && out[j] == scores[order[j]];
      assert Precedes(keys, order[i], order[j]);
    }
  }

  /** With a cosine in [0, 1], every career the matcher reports has a
      confidence in [0, 1]. */
  lemma TopRankingConfidenceInUnit(catalog: Catalog, userLower: seq<string>,
                                   cosine: (string, string) -> real, topK: int,
                                   out: seq<CareerScore>)
    requires IsTopRanking(Scores(catalog, userLower, cosine), topK, out)
    requires forall a, b :: 0.0 <= cosine(a, b) <= 1.0
    ensures forall i :: 0 <= i < |out| ==> 0.0 <= out[i].confidence <= 1.0
  {
    var scores := Scores(catalog, userLower, cosine);
    TopRankingFacts(scores, topK, out);
    forall i | 0 <= i < |out| ensures 0.0 <= out[i].confidence <= 1.0 {
      var c :| 0 <= c < |scores| && scores[c] == out[i];
    }
  }

  // ---------------------------------------------------------------------
  // predict_career_paths
  // ---------------------------------------------------------------------

  /** The loop of the matcher: one record per career, appended in catalog
      order. */
  method ScoreCareers(catalog: Catalog, userLower: seq<string>,
                      cosine: (string, string) -> real)
    returns (scores: seq<CareerScore>)
    ensures scores == Scores(catalog, userLower, cosine)
  {
    ghost var want := Scores(catalog, userLower, cosine);
    scores := [];
    var i := 0;
    while i < |catalog|
      invariant 0 <= i <= |catalog|
      invariant scores == want[..i]
    {
      PrefixSnoc(want, i + 1);
      scores := scores + [ScoreCareer(userLower, catalog[i].0, catalog[i].1, cosine)];
      i := i + 1;
    }
    PrefixFull(want);
  }

  /** Scores every career of `catalog` against the normalised user skills,
      sorts the records by descending confidence (stable, so equal
      confidences keep catalog order) and keeps the first `topK`. An empty
      result is the Python implementation's `IndexError`. */
  method PredictCareerPaths(catalog: Catalog, userSkills: seq<string>, topK: int,
                            cosine: (string, string) -> real)
    returns (r: Result<seq<CareerScore>>)
    ensures r.Ok? <==> SliceLength(|catalog|, topK) > 0
    ensures r.Err? ==> r.error == IndexError
    ensures r.Ok? ==> IsTopRanking(Scores(catalog, NormalizeAll(userSkills), cosine), topK, r.value)
    ensures r.Ok? ==> |r.value| == SliceLength(|catalog|, topK)
  {
    var userLower := NormalizeAll(userSkills);
    var scores := ScoreCareers(catalog, userLower, cosine);
    var order := StableSortDesc(Keys(scores));
    var top := Slice(Permute(scores, order), topK);
    if |top| == 0 {
      r := Err(IndexError);
    } else {
      r := Ok(top);
    }
  }

  // ---------------------------------------------------------------------
  // analyze_skill_gaps, get_all_careers, get_career_info
  // ---------------------------------------------------------------------

  /** Matched and missing skills of the user against one career, with the
      gap percentage; an unknown title is an error. */
  function AnalyzeSkillGaps(catalog: Catalog, userSkills: seq<string>, targetCareer: string)
    : (r: Result<SkillGap>)
    ensures r.Err? <==> targetCareer !in Titles(catalog)
    ensures r.Err? ==> r.error == UnknownCareer(targetCareer)
    ensures r.Ok? ==>
              var required := RequiredSet(Lookup(catalog, targetCareer).value);
              var user := SetOf(NormalizeAll(userSkills));
              var g := r.value;
              && g.matchedSkills == user * required
              && g.matchedSkills + g.missingSkills == required
              && g.matchedSkills !! g.missingSkills
              && g.totalRequired == |required|
              && g.totalMatched + |g.missingSkills| == g.totalRequired
              && g.partialSkills == []
              && g.gapPercentage == Round1(GapPercentage(user, required))
              && 0.0 <= g.gapPercentage <= 100.0
  {
    match Lookup(catalog, targetCareer)
    case None => Err(UnknownCareer(targetCareer))
    case Some(profile) =>
      var user := SetOf(NormalizeAll(userSkills));
      var required := RequiredSet(profile);
      var matched := user * required;
      var missing := required - user;
      SplitCardinality(user, required);
      assert matched == required * user;
      Round1InPercent(GapPercentage(user, required));
      Ok(SkillGap(missing, matched, [], Round1(GapPercentage(user, required)),
                  |required|, |matched|))
  }

  /** All career titles, in catalog order: exactly the titles whose lookup
      succeeds. */
  function GetAllCareers(catalog: Catalog): (r: seq<string>)
    ensures |r| == |catalog|
    ensures forall i :: 0 <= i < |catalog| ==> r[i] == catalog[i].0
    ensures forall t :: t in r <==> Lookup(catalog, t).Some?
  {
    Titles(catalog)
  }

  /** The profile stored under a title; an unknown title is an error. */
  function GetCareerInfo(catalog: Catalog, careerTitle: string): (r: Result<CareerProfile>)
    ensures r.Err? <==> careerTitle !in Titles(catalog)
    ensures r.Err? ==> r.error == UnknownCareer(careerTitle)
    ensures r.Ok? ==> exists i :: 0 <= i < |catalog| && catalog[i] == (careerTitle, r.value)
  {
    match Lookup(catalog, careerTitle)
    case None => Err(UnknownCareer(careerTitle))
    case Some(profile) => Ok(profile)
  }

  /** The gap analyser and the info lookup reject exactly the same titles. */
  lemma GapAnalysisFailsIffInfoFails(catalog: Catalog, userSkills: seq<string>, title: string)
    ensures AnalyzeSkillGaps(catalog, userSkills, title).Err?
            <==> GetCareerInfo(catalog, title).Err?
  {
  }
}
