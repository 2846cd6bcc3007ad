/** The roadmap planner: a single pass that sorts the lower-cased missing
    skills into three buckets by their prerequisites, the phase list built
    from the non-empty buckets plus a closing portfolio phase, the timeline
    estimate, and the in-order gathering of courses, projects and tools. */
module RoadmapGenerator {
  import opened SkillText
  import opened RoadmapTables

  // ---------------------------------------------------------------------
  // Classification of the missing skills
  // ---------------------------------------------------------------------

  datatype Level = Foundation | Intermediate | Advanced

  /** The Foundation bucket as it stands after the first `i` positions: the
      skills among them that have no prerequisites, in input order. */
  function Foundations(deps: DependencyMap, ms: seq<string>, i: nat): (r: seq<string>)
    requires i <= |ms|
    ensures |r| <= i
    ensures forall x :: x in r ==> x in ms[..i] && Deps(deps, x) == []
    ensures forall j :: 0 <= j < i && Deps(deps, ms[j]) == [] ==> ms[j] in r
  {
    if i == 0 then []
    else if Deps(deps, ms[i - 1]) == [] then Foundations(deps, ms, i - 1) + [ms[i - 1]]
    else Foundations(deps, ms, i - 1)
  }

  /** The bucket the classifier chooses for position `i` of the lower-cased
      missing skills `ms`, given the lower-cased current skills `cur`: no
      prerequisites gives Foundation; prerequisites that are all current
      skills or already in the Foundation bucket give Intermediate; anything
      else gives Advanced. */
  function LevelOf(deps: DependencyMap, ms: seq<string>, cur: seq<string>, i: nat): (r: Level)
    requires i < |ms|
    ensures r == Foundation <==> Deps(deps, ms[i]) == []
    ensures r == Intermediate <==>
              && Deps(deps, ms[i]) != []
              && forall d :: d in Deps(deps, ms[i]) ==>
                   d in cur || (d in ms[..i] && Deps(deps, d) == [])
  {
    var pre := Deps(deps, ms[i]);
    assert forall d :: d in Foundations(deps, ms, i) <==> d in ms[..i] && Deps(deps, d) == [] by {
      forall d | d in ms[..i] && Deps(deps, d) == [] ensures d in Foundations(deps, ms, i) {
        var j :| 0 <= j < i && ms[..i][j] == d;
        assert ms[j] == d;
      }
    }
    if pre == [] then Foundation
    else if forall d :: d in pre ==> d in cur || d in Foundations(deps, ms, i) then Intermediate
    else Advanced
  }

  /** The skills among the first `n` positions that go to `level`, in input
      order. */
  function Bucket(deps: DependencyMap, ms: seq<string>, cur: seq<string>, level: Level, n: nat): (r: seq<string>)
    requires n <= |ms|
    ensures |r| <= n
    ensures forall x :: x in r ==> x in ms[..n]
  {
    if n == 0 then []
    else if LevelOf(deps, ms, cur, n - 1) == level then Bucket(deps, ms, cur, level, n - 1) + [ms[n - 1]]
    else Bucket(deps, ms, cur, level, n - 1)
  }

  /** The Foundation bucket built so far is exactly the skills without
      prerequisites seen so far, so the rule "already in the Foundation
      bucket" can be read off the bucket itself. */
  lemma {:induction false} FoundationsIsBucket(deps: DependencyMap, ms: seq<string>, cur: seq<string>, n: nat)
    requires n <= |ms|
    ensures Foundations(deps, ms, n) == Bucket(deps, ms, cur, Foundation, n)
  {
    if n > 0 {
      FoundationsIsBucket(deps, ms, cur, n - 1);
    }
  }

  /** A skill is in a bucket exactly when some position holding it was
      classified into that bucket. */
  lemma {:induction false} BucketMembership(deps: DependencyMap, ms: seq<string>, cur: seq<string>, level: Level,
                                            n: nat, x: string)
    requires n <= |ms|
    ensures x in Bucket(deps, ms, cur, level, n) <==>
            exists i :: 0 <= i < n && ms[i] == x && LevelOf(deps, ms, cur, i) == level
  {
    if n > 0 {
      BucketMembership(deps, ms, cur, level, n - 1, x);
      if x in Bucket(deps, ms, cur, level, n) && x !in Bucket(deps, ms, cur, level, n - 1) {
        assert ms[n - 1] == x && LevelOf(deps, ms, cur, n - 1) == level;
      }
    }
  }

  /** Classifying one more position adds it to exactly one bucket. */
  lemma BucketsStep(deps: DependencyMap, ms: seq<string>, cur: seq<string>, n: nat)
    requires 0 < n <= |ms|
    ensures multiset(Bucket(deps, ms, cur, Foundation, n) + Bucket(deps, ms, cur, Intermediate, n)
                     + Bucket(deps, ms, cur, Advanced, n))
            == multiset(Bucket(deps, ms, cur, Foundation, n - 1)
                        + Bucket(deps, ms, cur, Intermediate, n - 1)
                        + Bucket(deps, ms, cur, Advanced, n - 1)) + multiset{ms[n - 1]}
  {
    var f := Bucket(deps, ms, cur, Foundation, n - 1);
    var m := Bucket(deps, ms, cur, Intermediate, n - 1);
    var a := Bucket(deps, ms, cur, Advanced, n - 1);
    MultisetAppendOne(f, m, a, ms[n - 1]);
    match LevelOf(deps, ms, cur, n - 1)
    case Foundation =>
      assert Bucket(deps, ms, cur, Foundation, n) == f + [ms[n - 1]];
      assert Bucket(deps, ms, cur, Intermediate, n) == m && Bucket(deps, ms, cur, Advanced, n) == a;
    case Intermediate =>
      assert Bucket(deps, ms, cur, Intermediate, n) == m + [ms[n - 1]];
      assert Bucket(deps, ms, cur, Foundation, n) == f && Bucket(deps, ms, cur, Advanced, n) == a;
    case Advanced =>
      assert Bucket(deps, ms, cur, Advanced, n) == a + [ms[n - 1]];
      assert Bucket(deps, ms, cur, Foundation, n) == f && Bucket(deps, ms, cur, Intermediate, n) == m;
  }

  /** The three buckets together hold every position exactly once: their
      concatenation is a permutation of the input. */
  lemma {:induction false} BucketsPartition(deps: DependencyMap, ms: seq<string>, cur: seq<string>, n: nat)
    requires n <= |ms|
    ensures multiset(Bucket(deps, ms, cur, Foundation, n) + Bucket(deps, ms, cur, Intermediate, n)
                     + Bucket(deps, ms, cur, Advanced, n)) == multiset(ms[..n])
  {
    if n > 0 {
      BucketsPartition(deps, ms, cur, n - 1);
      BucketsStep(deps, ms, cur, n);
      PrefixSnoc(ms, n);
    }
  }

  /** With no repeated skill, each skill lands in exactly one bucket: the
      one its position was classified into. */
  lemma ExactlyOneBucket(deps: DependencyMap, ms: seq<string>, cur: seq<string>, i: nat, level: Level)
    requires i < |ms|
    requires NoDuplicates(ms)
    ensures ms[i] in Bucket(deps, ms, cur, level, |ms|) <==> level == LevelOf(deps, ms, cur, i)
  {
    BucketMembership(deps, ms, cur, level, |ms|, ms[i]);
  }

  // ---------------------------------------------------------------------
  // Phases
  // ---------------------------------------------------------------------

  datatype Phase = Phase(number: nat, title: string, duration: string,
                         skills: seq<string>, focus: string)

  /** The phase a non-empty bucket becomes; its number is fixed by the
      level. */
  function SkillPhase(level: Level, skills: seq<string>): (r: Phase)
    ensures r.skills == skills && 1 <= r.number <= 3
    ensures r.number == 1 <==> level == Foundation
    ensures r.number == 2 <==> level == Intermediate
  {
    match level
    case Foundation => Phase(1, "Foundation", "1-2 months", skills, "Build core competencies")
    case Intermediate => Phase(2, "Intermediate", "2-3 months", skills, "Develop practical skills")
    case Advanced => Phase(3, "Advanced", "2-4 months", skills, "Master specialized technologies")
  }

  /** The closing phase, always present. */
  function PortfolioPhase(number: nat): Phase {
    Phase(number, "Portfolio Projects", "1-2 months",
          ["portfolio building", "real-world projects"],
          "Build impressive projects to showcase skills")
  }

  function PhaseIf(level: Level, skills: seq<string>): seq<Phase> {
    if skills == [] then [] else [SkillPhase(level, skills)]
  }

  /** The phases of the non-empty buckets, in level order. */
  function SkillPhases(p1: seq<string>, p2: seq<string>, p3: seq<string>): seq<Phase> {
    PhaseIf(Foundation, p1) + PhaseIf(Intermediate, p2) + PhaseIf(Advanced, p3)
  }

  /** The phase list built from the three buckets: the non-empty ones in
      level order, then the portfolio phase numbered one past their count. */
  function AssemblePhases(p1: seq<string>, p2: seq<string>, p3: seq<string>): seq<Phase> {
    var skillPhases := SkillPhases(p1, p2, p3);
    skillPhases + [PortfolioPhase(|skillPhases| + 1)]
  }

  /** The phases for the given missing and current skills, both lower-cased
      first. */
  function LearningPhases(deps: DependencyMap, missing: seq<string>, current: seq<string>): seq<Phase> {
    PhasesOf(deps, LowerAll(missing), LowerAll(current))
  }

  /** The phases for already lower-cased skill lists. */
  function PhasesOf(deps: DependencyMap, ms: seq<string>, cur: seq<string>): seq<Phase> {
    AssemblePhases(Bucket(deps, ms, cur, Foundation, |ms|), Bucket(deps, ms, cur, Intermediate, |ms|),
                   Bucket(deps, ms, cur, Advanced, |ms|))
  }

  /** All the skills of a phase list, phase by phase. */
  function SkillsOf(phases: seq<Phase>): seq<string> {
    if phases == [] then [] else phases[0].skills + SkillsOf(phases[1..])
  }

  /** The skill phases: each non-empty and one of the three bucket phases,
      with strictly rising numbers between 1 and 3, and a phase for a bucket
      exactly when the bucket is non-empty. */
  lemma SkillPhasesShape(p1: seq<string>, p2: seq<string>, p3: seq<string>)
    ensures var sp := SkillPhases(p1, p2, p3);
            && |sp| <= 3
            && (forall k :: 0 <= k < |sp| ==>
                  && sp[k].skills != []
                  && 1 <= sp[k].number <= 3
                  && sp[k] in {SkillPhase(Foundation, p1), SkillPhase(Intermediate, p2),
                               SkillPhase(Advanced, p3)})
            && (forall k, l :: 0 <= k < l < |sp| ==> sp[k].number < sp[l].number)
            && (p1 != [] <==> SkillPhase(Foundation, p1) in sp)
            && (p2 != [] <==> SkillPhase(Intermediate, p2) in sp)
            && (p3 != [] <==> SkillPhase(Advanced, p3) in sp)
  {
    var a, b, c := PhaseIf(Foundation, p1), PhaseIf(Intermediate, p2), PhaseIf(Advanced, p3);
    var sp := SkillPhases(p1, p2, p3);
    assert forall k :: 0 <= k < |sp| ==>
             sp[k] == (if k < |a| then a[k] else if k < |a| + |b| then b[k - |a|] else c[k - |a| - |b|]);
    assert forall k :: 0 <= k < |sp| ==>
             sp[k].number == (if k < |a| then 1 else if k < |a| + |b| then 2 else 3);
  }

  /** The shape of every phase list: one to four phases, the skill phases
      first and last the portfolio phase numbered with the list's length. */
  lemma AssembleShape(p1: seq<string>, p2: seq<string>, p3: seq<string>)
    ensures var ph := AssemblePhases(p1, p2, p3);
            && 1 <= |ph| <= 4
            && |ph| == 1 + |PhaseIf(Foundation, p1)| + |PhaseIf(Intermediate, p2)|
                         + |PhaseIf(Advanced, p3)|
            && ph[..|ph| - 1] == SkillPhases(p1, p2, p3)
            && ph[|ph| - 1] == PortfolioPhase(|ph|)
  {
    var sp := SkillPhases(p1, p2, p3);
    DropLastOfSnoc(sp, PortfolioPhase(|sp| + 1));
  }

  /** The skill phases hold the three buckets one after the other. */
  lemma SkillPhasesSkills(p1: seq<string>, p2: seq<string>, p3: seq<string>)
    ensures SkillsOf(SkillPhases(p1, p2, p3)) == p1 + p2 + p3
  {
    var a, b, c := PhaseIf(Foundation, p1), PhaseIf(Intermediate, p2), PhaseIf(Advanced, p3);
    SkillsOfAppend(a + b, c);
    SkillsOfAppend(a, b);
    SkillsOfPhaseIf(Foundation, p1);
    SkillsOfPhaseIf(Intermediate, p2);
    SkillsOfPhaseIf(Advanced, p3);
  }

  lemma SkillsOfPhaseIf(level: Level, p: seq<string>)
    ensures SkillsOf(PhaseIf(level, p)) == p
  {
    if p != [] {
      SingletonTail(SkillPhase(level, p));
      AppendEmpty(p);
    }
  }

  lemma {:induction false} SkillsOfAppend(a: seq<Phase>, b: seq<Phase>)
    ensures SkillsOf(a + b) == SkillsOf(a) + SkillsOf(b)
  {
    if a == [] {
      AppendEmpty(b);
      AppendEmpty(SkillsOf(b));
    } else {
      TailOfAppend(a, b);
      SkillsOfAppend(a[1..], b);
    }
  }

  /** The skill phases of the planner's output hold the lower-cased missing
      skills, each as often as the input lists it. */
  lemma LearningPhasesPermutation(deps: DependencyMap, missing: seq<string>, current: seq<string>)
    ensures var ph := LearningPhases(deps, missing, current);
            |ph| >= 1 && multiset(SkillsOf(ph[..|ph| - 1])) == multiset(LowerAll(missing))
  {
    var ms := LowerAll(missing);
    var cur := LowerAll(current);
    var p1 := Bucket(deps, ms, cur, Foundation, |ms|);
    var p2 := Bucket(deps, ms, cur, Intermediate, |ms|);
    var p3 := Bucket(deps, ms, cur, Advanced, |ms|);
    AssembleShape(p1, p2, p3);
    SkillPhasesSkills(p1, p2, p3);
    BucketsPartition(deps, ms, cur, |ms|);
    PrefixFull(ms);
  }

  /** The classifying pass of `_create_learning_phases`: each lower-cased
      missing skill is appended to the bucket its prerequisites call for,
      the Foundation test looking at the Foundation bucket as built so
      far. */
  method ClassifySkills(deps: DependencyMap, ms: seq<string>, cur: seq<string>)
    returns (phase1: seq<string>, phase2: seq<string>, phase3: seq<string>)
    ensures phase1 == Bucket(deps, ms, cur, Foundation, |ms|)
    ensures phase2 == Bucket(deps, ms, cur, Intermediate, |ms|)
    ensures phase3 == Bucket(deps, ms, cur, Advanced, |ms|)
  {
    phase1, phase2, phase3 := [], [], [];
    var i := 0;
    while i < |ms|
      invariant 0 <= i <= |ms|
      invariant phase1 == Bucket(deps, ms, cur, Foundation, i)
      invariant phase2 == Bucket(deps, ms, cur, Intermediate, i)
      invariant phase3 == Bucket(deps, ms, cur, Advanced, i)
    {
      var skill := ms[i];
      var pre := Deps(deps, skill);
      FoundationsIsBucket(deps, ms, cur, i);
      if pre == [] {
        phase1 := phase1 + [skill];
      } else if forall d :: d in pre ==> d in cur || d in phase1 {
        phase2 := phase2 + [skill];
      } else {
        phase3 := phase3 + [skill];
      }
      i := i + 1;
    }
  }

  /** The second half of `_create_learning_phases`: a phase for each
      non-empty bucket in level order, then the portfolio phase numbered one
      past the phases so far. */
  method BuildPhaseList(phase1: seq<string>, phase2: seq<string>, phase3: seq<string>)
    returns (phases: seq<Phase>)
    ensures phases == AssemblePhases(phase1, phase2, phase3)
  {
    ghost var f, i, a := PhaseIf(Foundation, phase1), PhaseIf(Intermediate, phase2),
                         PhaseIf(Advanced, phase3);
    phases := [];
    AppendEmpty(f);
    if phase1 != [] {
      phases := phases + [SkillPhase(Foundation, phase1)];
    }
    assert phases == f;
    AppendEmpty(f + i);
    if phase2 != [] {
      phases := phases + [SkillPhase(Intermediate, phase2)];
    }
    assert phases == f + i;
    if phase3 != [] {
      phases := phases + [SkillPhase(Advanced, phase3)];
    }
    assert phases == SkillPhases(phase1, phase2, phase3);
    phases := phases + [PortfolioPhase(|phases| + 1)];
  }

  /** `_create_learning_phases`: the two skill lists lower-cased, the
      classifying pass over the fixed prerequisite map, then the phase
      list. */
  method CreateLearningPhases(missing: seq<string>, current: seq<string>)
    returns (phases: seq<Phase>)
    ensures phases == LearningPhases(SkillDependencies, missing, current)
  {
    var cur := LowerAll(current);
    var ms := LowerAll(missing);
    var phase1, phase2, phase3 := ClassifySkills(SkillDependencies, ms, cur);
    phases := BuildPhaseList(phase1, phase2, phase3);
  }

  // ---------------------------------------------------------------------
  // Timeline
  // ---------------------------------------------------------------------

  /** `_estimate_timeline`: three weeks per skill, whole months, bucketed.
      The phase count is accepted and not used. */
  function EstimateTimeline(numSkills: nat, numPhases: nat): (r: string)
    ensures numSkills <= 5 ==> r == "2-3 months"
    ensures 6 <= numSkills <= 9 ==> r == "4-6 months"
    ensures 10 <= numSkills <= 13 ==> r == "6-9 months"
    ensures 14 <= numSkills ==> r == "9-12 months"
  {
    var weeks := numSkills * 3;
    var months := weeks / 4;
    if months <= 3 then "2-3 months"
    else if months <= 6 then "4-6 months"
    else if months <= 9 then "6-9 months"
    else "9-12 months"
  }

  /** The position of an estimate on the scale from shortest to longest. */
  function TimelineRank(t: string): nat {
    if t == "2-3 months" then 0
    else if t == "4-6 months" then 1
    else if t == "6-9 months" then 2
    else 3
  }

  /** The phase count plays no part in the estimate. */
  lemma TimelineIgnoresPhases(n: nat, p: nat, q: nat)
    ensures EstimateTimeline(n, p) == EstimateTimeline(n, q)
  {
  }

  /** More skills never give a shorter estimate, whatever the phase
      counts. */
  lemma TimelineMonotone(n: nat, m: nat, p: nat, q: nat)
    requires n <= m
    ensures TimelineRank(EstimateTimeline(n, p)) <= TimelineRank(EstimateTimeline(m, q))
  {
  }

  // ---------------------------------------------------------------------
  // Resources, projects and tools
  // ---------------------------------------------------------------------

  /** `LEARNING_RESOURCES.get(skill, {courses: [], projects: []})` for the
      lower-cased skill. */
  function GetSkillResources(skill: string): (r: SkillResources)
    ensures Lower(skill) in LearningResources ==> r == LearningResources[Lower(skill)]
    ensures r.courses == [] <==> Lower(skill) !in LearningResources
    ensures r.projects == [] <==> Lower(skill) !in LearningResources
  {
    LearningResourcesComplete();
    var key := Lower(skill);
    if key in LearningResources then LearningResources[key] else SkillResources([], [])
  }

  /** Every skill of the resource table lists two courses and two
      projects. */
  lemma LearningResourcesComplete()
    ensures forall k :: k in LearningResources ==>
              |LearningResources[k].courses| == 2 && |LearningResources[k].projects| == 2
  {
  }

  /** The first two courses listed for a lower-cased skill, none for a
      skill the table does not know. Every skill of the table lists exactly
      two, so the cut keeps all of them. */
  function CoursesOf(skill: string): (r: seq<Course>)
    ensures skill in LearningResources ==> r == LearningResources[skill].courses && |r| == 2
    ensures skill !in LearningResources ==> r == []
  {
    LearningResourcesComplete();
    if skill in LearningResources then Take(LearningResources[skill].courses, 2) else []
  }

  /** The first two projects listed for a lower-cased skill; as for the
      courses, the cut keeps all of a known skill's projects. */
  function ProjectsOf(skill: string): (r: seq<Project>)
    ensures skill in LearningResources ==> r == LearningResources[skill].projects && |r| == 2
    ensures skill !in LearningResources ==> r == []
  {
    LearningResourcesComplete();
    if skill in LearningResources then Take(LearningResources[skill].projects, 2) else []
  }

  /** The tools listed for a lower-cased skill: four for each skill of the
      tool table, none for any other. */
  function ToolsOf(skill: string): (r: set<string>)
    ensures forall t :: t in r <==> skill in ToolsBySkill && t in ToolsBySkill[skill]
    ensures skill in ToolsBySkill ==> |r| == 4
  {
    ToolsBySkillFacts();
    if skill in ToolsBySkill then
      SetOfSize(ToolsBySkill[skill]);
      SetOf(ToolsBySkill[skill])
    else {}
  }

  /** The roadmap takes for each skill what the resource lookup returns for
      it, at most two of each. */
  lemma CoursesOfIsResourceLookup(skill: string)
    ensures CoursesOf(Lower(skill)) == Take(GetSkillResources(skill).courses, 2)
    ensures ProjectsOf(Lower(skill)) == Take(GetSkillResources(skill).projects, 2)
  {
  }

  /** The in-order concatenation of `pick` over the lower-cased skills. */
  function Gather<T>(skills: seq<string>, pick: string -> seq<T>): seq<T> {
    if skills == [] then []
    else Gather(skills[..|skills| - 1], pick) + pick(Lower(skills[|skills| - 1]))
  }

  /** The union of `pick` over the lower-cased skills. */
  function GatherSet(skills: seq<string>, pick: string -> set<string>): set<string> {
    if skills == [] then {}
    else GatherSet(skills[..|skills| - 1], pick) + pick(Lower(skills[|skills| - 1]))
  }

  /** Gathering over two lists one after the other is gathering over their
      concatenation. */
  lemma {:induction false} GatherAppend<T>(a: seq<string>, b: seq<string>, pick: string -> seq<T>)
    ensures Gather(a + b, pick) == Gather(a, pick) + Gather(b, pick)
    decreases |b|
  {
    if b == [] {
      assert a + b == a;
    } else {
      var b' := b[..|b| - 1];
      assert (a + b)[..|a + b| - 1] == a + b';
      assert (a + b)[|a + b| - 1] == b[|b| - 1];
      GatherAppend(a, b', pick);
    }
  }

  /** An element is gathered exactly when it is picked for some skill. */
  lemma {:induction false} GatherMembership<T>(skills: seq<string>, pick: string -> seq<T>, x: T)
    ensures x in Gather(skills, pick) <==>
            exists i :: 0 <= i < |skills| && x in pick(Lower(skills[i]))
  {
    if skills != [] {
      var init := skills[..|skills| - 1];
      GatherMembership(init, pick, x);
      if exists i :: 0 <= i < |skills| && x in pick(Lower(skills[i])) {
        var i :| 0 <= i < |skills| && x in pick(Lower(skills[i]));
        if i < |init| {
          assert skills[i] == init[i];
        }
      }
    }
  }

  /** A tool is gathered exactly when it is listed for some skill. */
  lemma {:induction false} GatherSetMembership(skills: seq<string>, pick: string -> set<string>,
                                               x: string)
    ensures x in GatherSet(skills, pick) <==>
            exists i :: 0 <= i < |skills| && x in pick(Lower(skills[i]))
  {
    if skills != [] {
      var init := skills[..|skills| - 1];
      GatherSetMembership(init, pick, x);
      if exists i :: 0 <= i < |skills| && x in pick(Lower(skills[i])) {
        var i :| 0 <= i < |skills| && x in pick(Lower(skills[i]));
        if i < |init| {
          assert skills[i] == init[i];
        }
      }
    }
  }

  /** At most `k` elements are gathered for each skill when `pick` never
      returns more than `k`. */
  lemma {:induction false} GatherLength<T>(skills: seq<string>, pick: string -> seq<T>, k: nat)
    requires forall s :: |pick(s)| <= k
    ensures |Gather(skills, pick)| <= k * |skills|
  {
    if skills != [] {
      GatherLength(skills[..|skills| - 1], pick, k);
    }
  }

  // ---------------------------------------------------------------------
  // The roadmap
  // ---------------------------------------------------------------------

  datatype Roadmap = Roadmap(
    careerPath: string,
    timeline: string,
    phases: seq<Phase>,
    skillsToLearn: seq<string>,
    tools: set<string>,
    projects: seq<Project>,
    certifications: seq<Certification>,
    resources: seq<Course>)

  /** `CERTIFICATIONS.get(career_path, [])`. */
  function CertificationsFor(careerPath: string): seq<Certification> {
    if careerPath in Certifications then Certifications[careerPath] else []
  }

  /** The roadmap for a career and the two skill lists. */
  function LearningRoadmap(careerPath: string, missing: seq<string>, current: seq<string>): Roadmap {
    var phases := LearningPhases(SkillDependencies, missing, current);
    Roadmap(careerPath, EstimateTimeline(|missing|, |phases|), phases, missing,
            GatherSet(missing, ToolsOf), Take(Gather(missing, ProjectsOf), 5),
            CertificationsFor(careerPath), Take(Gather(missing, CoursesOf), 8))
  }

  /** The loop of `generate_learning_roadmap`: for each missing skill, in
      order, its first two courses and projects are appended and its tools
      added, looked up under the lower-cased name. */
  method GatherForSkills(missing: seq<string>)
    returns (resources: seq<Course>, projects: seq<Project>, tools: set<string>)
    ensures resources == Gather(missing, CoursesOf)
    ensures projects == Gather(missing, ProjectsOf)
    ensures tools == GatherSet(missing, ToolsOf)
  {
    resources, projects, tools := [], [], {};
    var i := 0;
    while i < |missing|
      invariant 0 <= i <= |missing|
      invariant resources == Gather(missing[..i], CoursesOf)
      invariant projects == Gather(missing[..i], ProjectsOf)
      invariant tools == GatherSet(missing[..i], ToolsOf)
    {
      var skillLower := Lower(missing[i]);
      DropLastOfSnoc(missing[..i], missing[i]);
      PrefixSnoc(missing, i + 1);
      if skillLower in LearningResources {
        resources := resources + Take(LearningResources[skillLower].courses, 2);
        projects := projects + Take(LearningResources[skillLower].projects, 2);
      } else {
        AppendEmpty(resources);
        AppendEmpty(projects);
      }
      if skillLower in ToolsBySkill {
        tools := tools + SetOf(ToolsBySkill[skillLower]);
      }
      i := i + 1;
    }
    PrefixFull(missing);
  }

  /** `generate_learning_roadmap`: the phases, the gathered courses,
      projects and tools, the certifications, the timeline and the two
      caps. */
  method GenerateLearningRoadmap(careerPath: string, missing: seq<string>, current: seq<string>)
    returns (r: Roadmap)
    ensures r == LearningRoadmap(careerPath, missing, current)
  {
    var phases := CreateLearningPhases(missing, current);
    var resources, projects, tools := GatherForSkills(missing);
    var certifications := CertificationsFor(careerPath);
    var timeline := EstimateTimeline(|missing|, |phases|);
    r := Roadmap(careerPath, timeline, phases, missing, tools, Take(projects, 5),
                 certifications, Take(resources, 8));
  }

  /** A roadmap echoes the career and the missing skills, has at least one
      phase, and lists the career's certifications, none for a career the
      table does not know (no error is raised for it). */
  lemma RoadmapEchoesInput(careerPath: string, missing: seq<string>, current: seq<string>)
    ensures var r := LearningRoadmap(careerPath, missing, current);
            && r.careerPath == careerPath
            && r.skillsToLearn == missing
            && |r.phases| >= 1
            && (careerPath in Certifications ==> r.certifications == Certifications[careerPath])
            && (careerPath !in Certifications ==> r.certifications == [])
  {
  }

  /** The first `cap` items of a gathering whose picks hold at most two
      items each: no more than twice the number of skills, each picked for
      one of them. */
  lemma CappedGather<T>(skills: seq<string>, pick: string -> seq<T>, cap: nat)
    requires forall s :: |pick(s)| <= 2
    ensures var r := Take(Gather(skills, pick), cap);
            && |r| <= 2 * |skills|
            && forall x :: x in r ==> exists i :: 0 <= i < |skills| && x in pick(Lower(skills[i]))
  {
    var r := Take(Gather(skills, pick), cap);
    GatherLength(skills, pick, 2);
    forall x | x in r
      ensures exists i :: 0 <= i < |skills| && x in pick(Lower(skills[i]))
    {
      GatherMembership(skills, pick, x);
    }
  }

  /** The roadmap's courses: the first eight of the in-order gathering (all
      of them when there are fewer), so never more than two per missing
      skill in total, each listed for some missing skill. */
  lemma RoadmapResources(careerPath: string, missing: seq<string>, current: seq<string>)
    ensures var r := LearningRoadmap(careerPath, missing, current);
            && |r.resources| == (if |Gather(missing, CoursesOf)| <= 8 then |Gather(missing, CoursesOf)| else 8)
            && |r.resources| <= 2 * |missing|
            && r.resources == Gather(missing, CoursesOf)[..|r.resources|]
            && (forall c :: c in r.resources ==>
                  exists i :: 0 <= i < |missing| && c in CoursesOf(Lower(missing[i])))
  {
    assert LearningRoadmap(careerPath, missing, current).resources == Take(Gather(missing, CoursesOf), 8);
    CappedGather(missing, CoursesOf, 8);
  }

  /** The roadmap's projects: the first five of the in-order gathering (all
      of them when there are fewer), so never more than two per missing
      skill in total, each listed for some missing skill. */
  lemma RoadmapProjects(careerPath: string, missing: seq<string>, current: seq<string>)
    ensures var r := LearningRoadmap(careerPath, missing, current);
            && |r.projects| == (if |Gather(missing, ProjectsOf)| <= 5 then |Gather(missing, ProjectsOf)| else 5)
            && |r.projects| <= 2 * |missing|
            && r.projects == Gather(missing, ProjectsOf)[..|r.projects|]
            && (forall p :: p in r.projects ==>
                  exists i :: 0 <= i < |missing| && p in ProjectsOf(Lower(missing[i])))
  {
    assert LearningRoadmap(careerPath, missing, current).projects == Take(Gather(missing, ProjectsOf), 5);
    CappedGather(missing, ProjectsOf, 5);
  }

  /** The roadmap's tools are exactly those listed for the lower-cased
      missing skills. */
  lemma RoadmapTools(careerPath: string, missing: seq<string>, current: seq<string>)
    ensures var r := LearningRoadmap(careerPath, missing, current);
            forall t :: t in r.tools <==>
              exists i :: 0 <= i < |missing| && Lower(missing[i]) in ToolsBySkill
                          && t in ToolsBySkill[Lower(missing[i])]
  {
    assert LearningRoadmap(careerPath, missing, current).tools == GatherSet(missing, ToolsOf);
    forall t
      ensures t in GatherSet(missing, ToolsOf) <==>
              exists i :: 0 <= i < |missing| && Lower(missing[i]) in ToolsBySkill
                          && t in ToolsBySkill[Lower(missing[i])]
    {
      GatherSetMembership(missing, ToolsOf, t);
      assert forall k :: t in ToolsOf(k) <==> k in ToolsBySkill && t in ToolsBySkill[k];
    }
  }
}
