/** The gap analyser on the catalog: a user who knows Python, SQL and HTML,
    measured against the Full Stack Developer profile. */
module CareerExamples {
  import opened SkillText
  import opened Rounding
  import opened CareerCatalog
  import opened CareerPredictor

  /** The required skills of the Full Stack Developer are lower-case. */
  lemma FullStackSkillsLower()
    ensures Lower("javascript") == "javascript" && Lower("html") == "html" && Lower("css") == "css"
    ensures Lower("python") == "python" && Lower("node.js") == "node.js" && Lower("react") == "react"
    ensures Lower("sql") == "sql" && Lower("git") == "git" && Lower("rest api") == "rest api"
    ensures Lower("mongodb") == "mongodb"
  {
    LowerFixesLower("javascript");
    LowerFixesLower("html");
    LowerFixesLower("css");
    LowerFixesLower("python");
    LowerFixesLower("node.js");
    LowerFixesLower("react");
    LowerFixesLower("sql");
    LowerFixesLower("git");
    LowerFixesLower("rest api");
    LowerFixesLower("mongodb");
  }

  /** The required skills of the Full Stack Developer, as a set. */
  lemma FullStackRequired()
    ensures Lookup(CareerDatabase, "Full Stack Developer") == Some(CareerDatabase[0].1)
    ensures RequiredSet(CareerDatabase[0].1)
            == {"javascript", "html", "css", "python", "node.js", "react", "sql", "git",
                "rest api", "mongodb"}
  {
    FullStackSkillsLower();
  }

  /** Three of the ten required skills are matched, seven are missing. */
  lemma FullStackSets()
    ensures var user := {"python", "sql", "html"};
            var required := {"javascript", "html", "css", "python", "node.js", "react", "sql",
                             "git", "rest api", "mongodb"};
            && user * required == user
            && required - user == {"javascript", "css", "node.js", "react", "git", "rest api", "mongodb"}
            && |required| == 10
            && |required - user| == 7
  {
  }

  /** The user's skills are already in normal form. */
  lemma FullStackUserNormalized()
    ensures NormalizeAll(["python", "sql", "html"]) == ["python", "sql", "html"]
  {
    var xs := ["python", "sql", "html"];
    assert IsNormalized(xs[0]) && IsNormalized(xs[1]) && IsNormalized(xs[2]);
    NormalizeAllFixesNormalized(xs);
  }

  lemma SetOfThree(a: string, b: string, c: string)
    ensures SetOf([a, b, c]) == {a, b, c}
  {
    assert forall x :: x in SetOf([a, b, c]) <==> x == a || x == b || x == c;
  }

  /** The user's skills normalise to themselves. */
  lemma FullStackUser()
    ensures SetOf(NormalizeAll(["python", "sql", "html"])) == {"python", "sql", "html"}
  {
    FullStackUserNormalized();
    SetOfThree("python", "sql", "html");
  }

  /** Seven missing skills out of ten are a gap of 70 percent. */
  lemma SevenOfTenIsSeventy(user: set<string>, required: set<string>)
    requires |required| == 10 && |required - user| == 7
    ensures GapPercentage(user, required) == 70.0
  {
  }

  /** The gap analysis of the Python API test: three matched skills, seven
      missing ones, a gap of 70 percent. */
  lemma FullStackGap()
    ensures var r := AnalyzeSkillGaps(CareerDatabase, ["python", "sql", "html"], "Full Stack Developer");
            && r.Ok?
            && r.value.matchedSkills == {"python", "sql", "html"}
            && r.value.missingSkills
               == {"javascript", "css", "node.js", "react", "git", "rest api", "mongodb"}
            && r.value.totalRequired == 10
            && r.value.totalMatched == 3
            && r.value.gapPercentage == 70.0
  {
    FullStackRequired();
    FullStackSets();
    FullStackUser();
    var user := {"python", "sql", "html"};
    var required := RequiredSet(CareerDatabase[0].1);
    assert "Full Stack Developer" in Titles(CareerDatabase);
    SevenOfTenIsSeventy(user, required);
    assert Round1(70.0) == 70.0 by {
      RoundHalfEvenOfInteger(700);
    }
  }
}
