/** The fixed tables of the roadmap planner: learning resources per skill,
    certifications per career, tools per skill and the prerequisite map of
    the phase classifier. Keys are lower-case skill names, except for the
    certification table, which is keyed by career title. */
module RoadmapTables {
  import opened SkillText

  datatype Course = Course(title: string, kind: string, url: string,
                           duration: string, difficulty: string)

  datatype Project = Project(title: string, description: string,
                             skillsPracticed: seq<string>, difficulty: string,
                             estimatedTime: string)

  datatype Certification = Certification(name: string, provider: string, url: string,
                                         cost: string, duration: string)

  /** The courses and projects listed for one skill. */
  datatype SkillResources = SkillResources(courses: seq<Course>, projects: seq<Project>)

  /** Courses and projects for four skills. */
  const LearningResources: map<string, SkillResources> := map[
    "python" := SkillResources(
      [Course("Python for Everybody", "course",
              "https://www.coursera.org/specializations/python", "8 months", "beginner"),
       Course("Complete Python Bootcamp", "course",
              "https://www.udemy.com/course/complete-python-bootcamp/", "22 hours", "beginner")],
      [Project("Build a Web Scraper", "Create a web scraper to extract data from websites",
               ["python", "beautifulsoup", "requests"], "intermediate", "1 week"),
       Project("Personal Portfolio Website Backend", "Build a REST API for your portfolio",
               ["python", "fastapi", "sql"], "intermediate", "2 weeks")]),
    "javascript" := SkillResources(
      [Course("JavaScript - The Complete Guide", "course",
              "https://www.udemy.com/course/javascript-the-complete-guide-2020-beginner-advanced/",
              "52 hours", "beginner"),
       Course("Modern JavaScript From The Beginning", "course",
              "https://www.udemy.com/course/modern-javascript-from-the-beginning/", "21 hours", "beginner")],
      [Project("Todo List App", "Build an interactive todo list with local storage",
               ["javascript", "html", "css"], "beginner", "3 days"),
       Project("Weather Dashboard", "Create a weather app using external APIs",
               ["javascript", "api", "async"], "intermediate", "1 week")]),
    "react" := SkillResources(
      [Course("React - The Complete Guide", "course",
              "https://www.udemy.com/course/react-the-complete-guide-incl-redux/", "48 hours", "intermediate"),
       Course("The Complete React Developer Course", "course",
              "https://www.udemy.com/course/react-2nd-edition/", "39 hours", "intermediate")],
      [Project("E-commerce Product Page", "Build a responsive product showcase with cart",
               ["react", "hooks", "context api"], "intermediate", "2 weeks"),
       Project("Social Media Dashboard", "Create a dashboard with real-time data",
               ["react", "state management", "api integration"], "advanced", "3 weeks")]),
    "machine learning" := SkillResources(
      [Course("Machine Learning Specialization", "course",
              "https://www.coursera.org/specializations/machine-learning-introduction", "3 months",
              "intermediate"),
       Course("Deep Learning Specialization", "course",
              "https://www.coursera.org/specializations/deep-learning", "5 months", "advanced")],
      [Project("House Price Predictor", "Build a regression model to predict house prices",
               ["machine learning", "scikit-learn", "data analysis"], "intermediate", "2 weeks"),
       Project("Image Classifier", "Create a CNN to classify images",
               ["deep learning", "tensorflow", "computer vision"], "advanced", "3 weeks")])
  ]

  /** Two recommended certifications for each of four careers. */
  const Certifications: map<string, seq<Certification>> := map[
    "Full Stack Developer" := [
      Certification("AWS Certified Developer - Associate", "Amazon",
                    "https://aws.amazon.com/certification/", "$150", "3 months prep"),
      Certification("Microsoft Certified: Azure Developer Associate", "Microsoft",
                    "https://learn.microsoft.com/certifications/", "$165", "2-3 months prep")],
    "Data Scientist" := [
      Certification("Google Data Analytics Professional Certificate", "Google",
                    "https://grow.google/certificates/data-analytics/", "$49/month", "6 months"),
      Certification("IBM Data Science Professional Certificate", "IBM",
                    "https://www.coursera.org/professional-certificates/ibm-data-science", "$49/month",
                    "10 months")],
    "DevOps Engineer" := [
      Certification("AWS Certified DevOps Engineer - Professional", "Amazon",
                    "https://aws.amazon.com/certification/", "$300", "4-6 months prep"),
      Certification("Kubernetes Certified Administrator (CKA)", "CNCF",
                    "https://www.cncf.io/certification/cka/", "$395", "3 months prep")],
    "Machine Learning Engineer" := [
      Certification("TensorFlow Developer Certificate", "Google",
                    "https://www.tensorflow.org/certificate", "$100", "2-3 months prep"),
      Certification("AWS Certified Machine Learning - Specialty", "Amazon",
                    "https://aws.amazon.com/certification/", "$300", "4 months prep")]
  ]

  /** Four tools for each of six skills. */
  const ToolsBySkill: map<string, seq<string>> := map[
    "python" := ["PyCharm", "VS Code", "Jupyter Notebook", "Anaconda"],
    "javascript" := ["VS Code", "Node.js", "npm", "Chrome DevTools"],
    "react" := ["VS Code", "React DevTools", "Create React App", "Vite"],
    "machine learning" := ["Jupyter", "Google Colab", "TensorBoard", "MLflow"],
    "docker" := ["Docker Desktop", "Docker Compose", "Kubernetes", "Minikube"],
    "git" := ["Git", "GitHub", "GitLab", "GitHub Desktop"]
  ]

  /** Every career of the certification table lists two certifications. */
  lemma CertificationsFacts()
    ensures Certifications.Keys == {"Full Stack Developer", "Data Scientist", "DevOps Engineer",
                                    "Machine Learning Engineer"}
    ensures forall c :: c in Certifications ==> |Certifications[c]| == 2
  {
  }

  /** Every skill of the tool table lists four different tools. */
  lemma ToolsBySkillFacts()
    ensures forall k :: k in ToolsBySkill ==>
              && |ToolsBySkill[k]| == 4
              && NoDuplicates(ToolsBySkill[k])
  {
  }

  /** Prerequisites by skill. */
  type DependencyMap = map<string, seq<string>>

  /** The prerequisite map of the phase classifier. */
  const SkillDependencies: DependencyMap := map[
    "html" := [],
    "css" := ["html"],
    "javascript" := ["html", "css"],
    "react" := ["javascript"],
    "node.js" := ["javascript"],
    "python" := [],
    "django" := ["python"],
    "flask" := ["python"],
    "sql" := [],
    "mongodb" := [],
    "docker" := ["linux"],
    "kubernetes" := ["docker"]
  ]

  /** No skill is its own prerequisite, and every prerequisite but "linux"
      is itself a skill of the map. */
  lemma SkillDependenciesFacts()
    ensures forall k, d :: k in SkillDependencies && d in SkillDependencies[k] ==>
              d != k && (d in SkillDependencies || d == "linux")
    ensures "linux" !in SkillDependencies
  {
  }

  /** `dependencies.get(skill, [])`: the prerequisites of a skill, none for
      a skill the map does not list. */
  function Deps(deps: DependencyMap, skill: string): seq<string> {
    if skill in deps then deps[skill] else []
  }
}
