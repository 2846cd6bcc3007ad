/** Synonym expansion of an extracted skill list: every skill that has
    related skills contributes the first two of them. Lookup is exact (no
    lower-casing) and only the original skills are looked up. */
module SkillExtractor {
  import opened SkillText

  /** The related skills of five skills, most closely related first. */
  const SkillRelations: map<string, seq<string>> := map[
    "python" := ["django", "flask", "fastapi", "pandas", "numpy"],
    "javascript" := ["node.js", "react", "vue", "angular", "typescript"],
    "java" := ["spring boot", "maven", "gradle"],
    "aws" := ["ec2", "s3", "lambda", "rds"],
    "machine learning" := ["scikit-learn", "tensorflow", "pytorch"]
  ]

  /** The skills a single skill adds: the first two of its relations, none
      when it has no entry. Every entry lists at least three relations, so
      a skill with an entry adds exactly two. */
  function Related(skill: string): (r: seq<string>)
    ensures skill in SkillRelations ==> |r| == 2 && r == SkillRelations[skill][..2]
    ensures skill !in SkillRelations ==> r == []
  {
    if skill in SkillRelations then Take(SkillRelations[skill], 2) else []
  }

  /** The expanded skill set: the given skills together with what each of
      them adds. It contains its input, and whatever it adds has no
      relations of its own. */
  function Expand(skills: set<string>): (r: set<string>)
    ensures skills <= r
    ensures forall t :: t in r && t !in skills ==> t !in SkillRelations
  {
    assert forall s :: s in SkillRelations ==> forall t :: t in Related(s) ==> t !in SkillRelations;
    skills + set s, t | s in skills && t in Related(s) :: t
  }

  /** What the prefix `skills[..n]` adds, in the loop's order. */
  function AddedBy(skills: seq<string>, n: nat): set<string>
    requires n <= |skills|
  {
    if n == 0 then {} else AddedBy(skills, n - 1) + SetOf(Related(skills[n - 1]))
  }

  /** An element is added by a prefix exactly when it is related to one of
      the prefix's skills. */
  lemma {:induction false} AddedByMembership(skills: seq<string>, n: nat, t: string)
    requires n <= |skills|
    ensures t in AddedBy(skills, n) <==> exists i :: 0 <= i < n && t in Related(skills[i])
  {
    if n > 0 {
      AddedByMembership(skills, n - 1, t);
      if t in SetOf(Related(skills[n - 1])) {
        assert t in Related(skills[n - 1]);
      }
    }
  }

  /** Adding over the whole list is the expansion of its set. */
  lemma AddedByIsExpand(skills: seq<string>)
    ensures SetOf(skills) + AddedBy(skills, |skills|) == Expand(SetOf(skills))
  {
    forall t | t in Expand(SetOf(skills))
      ensures t in SetOf(skills) + AddedBy(skills, |skills|)
    {
      AddedByMembership(skills, |skills|, t);
      if t !in SetOf(skills) {
        var s :| s in SetOf(skills) && t in Related(s);
        var i :| 0 <= i < |skills| && skills[i] == s;
      }
    }
    forall t | t in AddedBy(skills, |skills|)
      ensures t in Expand(SetOf(skills))
    {
      AddedByMembership(skills, |skills|, t);
      var i :| 0 <= i < |skills| && t in Related(skills[i]);
      assert skills[i] in SetOf(skills);
    }
  }

  /** The loop over the skills: starting from the set of the skills, each
      skill's first two relations are added. */
  method ExpandedSet(skills: seq<string>) returns (enhanced: set<string>)
    ensures enhanced == Expand(SetOf(skills))
  {
    enhanced := SetOf(skills);
    var i := 0;
    while i < |skills|
      invariant 0 <= i <= |skills|
      invariant enhanced == SetOf(skills) + AddedBy(skills, i)
    {
      var skill := skills[i];
      if skill in SkillRelations {
        enhanced := enhanced + SetOf(Take(SkillRelations[skill], 2));
      }
      i := i + 1;
    }
    AddedByIsExpand(skills);
  }

  /** The elements of a set as a list, each once, in an unspecified
      order. */
  method ListOf(s: set<string>) returns (xs: seq<string>)
    ensures SetOf(xs) == s
    ensures NoDuplicates(xs)
    ensures |xs| == |s|
  {
    xs := [];
    var rest := s;
    while rest != {}
      invariant rest !! SetOf(xs)
      invariant rest + SetOf(xs) == s
      invariant NoDuplicates(xs)
      invariant |xs| + |rest| == |s|
      decreases |rest|
    {
      var x :| x in rest;
      xs := xs + [x];
      rest := rest - {x};
    }
  }

  /** `enhance_skills_with_synonyms`: the expanded skill set, as a list
      without duplicates. */
  method EnhanceSkillsWithSynonyms(skills: seq<string>) returns (enhanced: seq<string>)
    ensures SetOf(enhanced) == Expand(SetOf(skills))
    ensures NoDuplicates(enhanced)
  {
    var s := ExpandedSet(skills);
    enhanced := ListOf(s);
  }

  /** Every input skill is kept, and a skill is added only when it is among
      the first two relations of an input skill. */
  lemma ExpandMembership(skills: set<string>, t: string)
    ensures t in Expand(skills) <==>
            t in skills || exists s :: s in skills && s in SkillRelations && t in SkillRelations[s][..2]
  {
    assert forall s :: s in SkillRelations ==> |SkillRelations[s]| >= 2;
    if t in Expand(skills) && t !in skills {
      var s :| s in skills && t in Related(s);
      assert s in SkillRelations && t in SkillRelations[s][..2];
    }
    if exists s :: s in skills && s in SkillRelations && t in SkillRelations[s][..2] {
      var s :| s in skills && s in SkillRelations && t in SkillRelations[s][..2];
      assert t in Related(s);
    }
  }

  /** No related skill has relations of its own. */
  lemma RelatedAreNotKeys(s: string)
    ensures forall t :: t in Related(s) ==> t !in SkillRelations
  {
  }

  /** Expanding twice adds nothing: what an expansion adds has no
      relations to contribute in turn (the second clause of `Expand`). */
  lemma ExpandIdempotent(skills: set<string>)
    ensures Expand(Expand(skills)) == Expand(skills)
  {
  }

  /** Expansion is monotone. */
  lemma ExpandMonotone(a: set<string>, b: set<string>)
    requires a <= b
    ensures Expand(a) <= Expand(b)
  {
  }

  /** Lookup is case-sensitive: "Python" has no relations. */
  lemma ExpandIsCaseSensitive()
    ensures Expand({"Python"}) == {"Python"}
    ensures Expand({"python"}) == {"python", "django", "flask"}
  {
    assert Related("Python") == [];
    assert Related("python") == ["django", "flask"];
    forall t | t in Expand({"python"})
      ensures t in {"python", "django", "flask"}
    {
      if t != "python" {
        assert t in Related("python");
      }
    }
    assert "django" in Related("python") && "flask" in Related("python");
  }
}
