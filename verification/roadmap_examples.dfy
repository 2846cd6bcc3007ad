/** The planner on concrete inputs: the order sensitivity of the
    Foundation test, the non-contiguous phase numbering, a repeated skill
    landing in two phases, and a full roadmap. */
module RoadmapExamples {
  import opened SkillText
  import opened RoadmapTables
  import opened RoadmapGenerator

  /** "css" before "html": when "css" is classified, "html" is not yet in
      the Foundation bucket, so "css" is Advanced. */
  lemma CssBeforeHtmlBuckets()
    ensures var ms, none := ["css", "html"], [];
            && Bucket(SkillDependencies, ms, none, Foundation, 2) == ["html"]
            && Bucket(SkillDependencies, ms, none, Intermediate, 2) == []
            && Bucket(SkillDependencies, ms, none, Advanced, 2) == ["css"]
  {
    var ms, none := ["css", "html"], [];
    var d := SkillDependencies;
    assert LevelOf(d, ms, none, 0) == Advanced by {
      assert Deps(d, ms[0]) == ["html"];
      assert "html" !in none && Foundations(d, ms, 0) == [];
    }
    assert LevelOf(d, ms, none, 1) == Foundation by {
      assert Deps(d, ms[1]) == [];
    }
  }

  /** Hence "css" gets the Advanced phase, numbered 3, and the portfolio
      phase is also numbered 3. */
  lemma CssBeforeHtml()
    ensures LearningPhases(SkillDependencies, ["css", "html"], [])
            == [SkillPhase(Foundation, ["html"]), SkillPhase(Advanced, ["css"]), PortfolioPhase(3)]
  {
    var ms, none := ["css", "html"], [];
    assert LowerAll(ms) == ms by {
      LowerAllFixesLower(ms);
    }
    assert LowerAll(none) == none;
    assert PhasesOf(SkillDependencies, ms, none) == AssemblePhases(["html"], [], ["css"]) by {
      CssBeforeHtmlBuckets();
    }
  }

  /** "html" before "css": "css" finds "html" in the Foundation bucket and is
      Intermediate. */
  lemma HtmlBeforeCssBuckets()
    ensures var ms, none := ["html", "css"], [];
            && Bucket(SkillDependencies, ms, none, Foundation, 2) == ["html"]
            && Bucket(SkillDependencies, ms, none, Intermediate, 2) == ["css"]
            && Bucket(SkillDependencies, ms, none, Advanced, 2) == []
  {
    var ms, none := ["html", "css"], [];
    var d := SkillDependencies;
    assert LevelOf(d, ms, none, 0) == Foundation by {
      assert Deps(d, ms[0]) == [];
    }
    assert LevelOf(d, ms, none, 1) == Intermediate by {
      assert Deps(d, ms[1]) == ["html"];
      assert Deps(d, ms[0]) == [];
      assert Foundations(d, ms, 1) == ["html"];
    }
  }

  lemma HtmlBeforeCss()
    ensures LearningPhases(SkillDependencies, ["html", "css"], [])
            == [SkillPhase(Foundation, ["html"]), SkillPhase(Intermediate, ["css"]), PortfolioPhase(3)]
  {
    var ms, none := ["html", "css"], [];
    assert LowerAll(ms) == ms by {
      LowerAllFixesLower(ms);
    }
    assert LowerAll(none) == none;
    assert PhasesOf(SkillDependencies, ms, none) == AssemblePhases(["html"], ["css"], []) by {
      HtmlBeforeCssBuckets();
    }
  }

  /** The roadmap test's skills: none of the prerequisites "javascript" and
      "linux" is known, so all three skills are Advanced. */
  lemma WebAndDockerBuckets()
    ensures var ms, cur := ["react", "node.js", "docker"], ["python", "sql"];
            && Bucket(SkillDependencies, ms, cur, Foundation, 3) == []
            && Bucket(SkillDependencies, ms, cur, Intermediate, 3) == []
            && Bucket(SkillDependencies, ms, cur, Advanced, 3) == ms
  {
    var ms, cur := ["react", "node.js", "docker"], ["python", "sql"];
    var d := SkillDependencies;
    assert "javascript" !in cur && "linux" !in cur;
    assert LevelOf(d, ms, cur, 0) == Advanced by {
      assert Deps(d, ms[0]) == ["javascript"];
      assert Foundations(d, ms, 0) == [];
    }
    assert LevelOf(d, ms, cur, 1) == Advanced by {
      assert Deps(d, ms[0]) == ["javascript"];
      assert Deps(d, ms[1]) == ["javascript"];
      assert Foundations(d, ms, 1) == [];
    }
    assert LevelOf(d, ms, cur, 2) == Advanced by {
      assert Deps(d, ms[0]) == ["javascript"];
      assert Deps(d, ms[1]) == ["javascript"];
      assert Deps(d, ms[2]) == ["linux"];
      assert Foundations(d, ms, 2) == [];
    }
  }

  /** So the Advanced phase keeps its number 3 and the portfolio phase is
      number 2. */
  lemma WebAndDockerAllAdvanced()
    ensures LearningPhases(SkillDependencies, ["react", "node.js", "docker"], ["python", "sql"])
            == [SkillPhase(Advanced, ["react", "node.js", "docker"]), PortfolioPhase(2)]
  {
    var ms, cur := ["react", "node.js", "docker"], ["python", "sql"];
    assert LowerAll(ms) == ms by {
      LowerAllFixesLower(ms);
    }
    assert LowerAll(cur) == cur by {
      LowerAllFixesLower(cur);
    }
    assert PhasesOf(SkillDependencies, ms, cur) == AssemblePhases([], [], ms) by {
      WebAndDockerBuckets();
    }
    OnlyAdvancedPhases(ms);
  }

  /** With only the Advanced bucket non-empty, the phases are that bucket's
      phase and the portfolio phase numbered 2. */
  lemma OnlyAdvancedPhases(p3: seq<string>)
    requires p3 != []
    ensures AssemblePhases([], [], p3) == [SkillPhase(Advanced, p3), PortfolioPhase(2)]
  {
    assert SkillPhases([], [], p3) == [SkillPhase(Advanced, p3)];
  }

  /** A repeated skill is classified once per occurrence: "css" is Advanced
      the first time and Intermediate the second. */
  lemma RepeatedSkillBuckets()
    ensures var ms, none := ["css", "html", "css"], [];
            && Bucket(SkillDependencies, ms, none, Foundation, 3) == ["html"]
            && Bucket(SkillDependencies, ms, none, Intermediate, 3) == ["css"]
            && Bucket(SkillDependencies, ms, none, Advanced, 3) == ["css"]
  {
    var ms, none := ["css", "html", "css"], [];
    var d := SkillDependencies;
    assert LevelOf(d, ms, none, 0) == Advanced by {
      assert Deps(d, ms[0]) == ["html"];
      assert "html" !in none && Foundations(d, ms, 0) == [];
    }
    assert LevelOf(d, ms, none, 1) == Foundation by {
      assert Deps(d, ms[1]) == [];
    }
    assert LevelOf(d, ms, none, 2) == Intermediate by {
      assert Deps(d, ms[2]) == ["html"];
      assert Deps(d, ms[0]) == ["html"];
      assert Deps(d, ms[1]) == [];
      assert Foundations(d, ms, 2) == ["html"];
    }
  }

  /** So a repeated skill appears in two phases, and all four phases are
      present. */
  lemma RepeatedSkillInTwoPhases()
    ensures LearningPhases(SkillDependencies, ["css", "html", "css"], [])
            == [SkillPhase(Foundation, ["html"]), SkillPhase(Intermediate, ["css"]),
                SkillPhase(Advanced, ["css"]), PortfolioPhase(4)]
  {
    var ms, none := ["css", "html", "css"], [];
    assert LowerAll(ms) == ms by {
      LowerAllFixesLower(ms);
    }
    assert LowerAll(none) == none;
    assert PhasesOf(SkillDependencies, ms, none) == AssemblePhases(["html"], ["css"], ["css"]) by {
      RepeatedSkillBuckets();
    }
  }

  /** The three skills of the roadmap test are already lower-case. */
  lemma WebAndDockerLowered()
    ensures Lower("react") == "react" && Lower("node.js") == "node.js" && Lower("docker") == "docker"
  {
    LowerFixesLower("react");
    LowerFixesLower("node.js");
    LowerFixesLower("docker");
  }

  /** The courses gathered for the roadmap test's skills: only "react" has
      any. */
  lemma WebAndDockerCourses()
    ensures Gather(["react", "node.js", "docker"], CoursesOf) == CoursesOf("react")
    ensures |CoursesOf("react")| == 2
  {
    var ms := ["react", "node.js", "docker"];
    var c := CoursesOf("react");
    WebAndDockerLowered();
    assert ms[..2] == ["react", "node.js"];
    assert ["react", "node.js"][..1] == ["react"];
    assert ["react"][..0] == [];
    assert Gather(["react"], CoursesOf) == c;
    assert Gather(["react", "node.js"], CoursesOf) == c by {
      assert CoursesOf("node.js") == [];
      AppendEmpty(c);
    }
    assert CoursesOf("docker") == [];
    AppendEmpty(c);
  }

  /** The projects gathered for the roadmap test's skills: only "react"
      has any. */
  lemma WebAndDockerProjects()
    ensures Gather(["react", "node.js", "docker"], ProjectsOf) == ProjectsOf("react")
    ensures |ProjectsOf("react")| == 2
  {
    var ms := ["react", "node.js", "docker"];
    var p := ProjectsOf("react");
    WebAndDockerLowered();
    assert ms[..2] == ["react", "node.js"];
    assert ["react", "node.js"][..1] == ["react"];
    assert ["react"][..0] == [];
    assert Gather(["react"], ProjectsOf) == p;
    assert Gather(["react", "node.js"], ProjectsOf) == p by {
      assert ProjectsOf("node.js") == [];
      AppendEmpty(p);
    }
    assert ProjectsOf("docker") == [];
    AppendEmpty(p);
  }

  /** The tools gathered for the roadmap test's skills: those of "react"
      and of "docker"; "node.js" has none. */
  lemma WebAndDockerTools()
    ensures GatherSet(["react", "node.js", "docker"], ToolsOf)
            == ToolsOf("react") + ToolsOf("docker")
  {
    var ms := ["react", "node.js", "docker"];
    WebAndDockerLowered();
    assert ms[..2] == ["react", "node.js"];
    assert ["react", "node.js"][..1] == ["react"];
    assert ["react"][..0] == [];
    assert ToolsOf("node.js") == {};
  }

  /** The full roadmap for a Full Stack Developer who knows Python and SQL
      and misses React, Node.js and Docker. */
  lemma WebAndDockerRoadmap()
    ensures var r := LearningRoadmap("Full Stack Developer", ["react", "node.js", "docker"],
                                     ["python", "sql"]);
            && r.timeline == "2-3 months"
            && r.phases == [SkillPhase(Advanced, ["react", "node.js", "docker"]), PortfolioPhase(2)]
            && r.resources == CoursesOf("react")
            && r.projects == ProjectsOf("react")
            && r.tools == ToolsOf("react") + ToolsOf("docker")
            && r.certifications == CertificationsFor("Full Stack Developer") != []
  {
    WebAndDockerAllAdvanced();
    WebAndDockerCourses();
    WebAndDockerProjects();
    WebAndDockerTools();
    assert Take(CoursesOf("react"), 8) == CoursesOf("react");
    assert Take(ProjectsOf("react"), 5) == ProjectsOf("react");
    assert CertificationsFor("Full Stack Developer") != [] by {
      CertificationsFacts();
    }
  }
}
