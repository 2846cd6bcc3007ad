/** The career catalog: an ordered list of (title, profile) pairs, in the
    insertion order of the Python dictionary literal, which is also the
    order in which the matcher visits careers. */
module CareerCatalog {
  import opened SkillText

  datatype Option<T> = None | Some(value: T)

  /** One career profile. `requiredSkills` keeps the listed order; the
      matcher and the gap analyser use it as a set. */
  datatype CareerProfile = CareerProfile(
    description: string,
    requiredSkills: seq<string>,
    averageSalary: string,
    growthRate: string,
    category: string)

  type Catalog = seq<(string, CareerProfile)>

  /** The titles, in catalog order. */
  function Titles(catalog: Catalog): (r: seq<string>)
    ensures |r| == |catalog|
    ensures forall i :: 0 <= i < |catalog| ==> r[i] == catalog[i].0
  {
    seq(|catalog|, i requires 0 <= i < |catalog| => catalog[i].0)
  }

  /** A dictionary holds each key once. */
  predicate UniqueTitles(catalog: Catalog) {
    NoDuplicates(Titles(catalog))
  }

  /** Dictionary lookup `catalog[title]`: the profile stored under `title`,
      or `None` when no entry has that title. */
  function Lookup(catalog: Catalog, title: string): (r: Option<CareerProfile>)
    ensures r.None? <==> title !in Titles(catalog)
    ensures r.Some? ==> exists i :: 0 <= i < |catalog| && catalog[i] == (title, r.value)
  {
    if catalog == [] then None
    else if catalog[0].0 == title then Some(catalog[0].1)
    else
      var r := Lookup(catalog[1..], title);
      assert Titles(catalog) == [catalog[0].0] + Titles(catalog[1..]);
      if r.Some? then
        var i :| 0 <= i < |catalog[1..]| && catalog[1..][i] == (title, r.value);
        assert catalog[i + 1] == (title, r.value);
        r
      else r
  }

  /** In a catalog without repeated titles, the lookup finds the profile of
      the one entry carrying the title. */
  lemma LookupFindsEntry(catalog: Catalog, i: nat)
    requires UniqueTitles(catalog) && i < |catalog|
    ensures Lookup(catalog, catalog[i].0) == Some(catalog[i].1)
  {
    var r := Lookup(catalog, catalog[i].0);
    assert catalog[i].0 in Titles(catalog);
    var j :| 0 <= j < |catalog| && catalog[j] == (catalog[i].0, r.value);
    assert j == i;
  }

  /** The fifteen careers of the Python catalog, in their listed order. */
  const CareerDatabase: Catalog := [
    ("Full Stack Developer", CareerProfile(
      "Build and maintain both frontend and backend of web applications",
      ["javascript", "html", "css", "python", "node.js", "react", "sql", "git", "rest api", "mongodb"],
      "$95,000 - $140,000",
      "22% (Much faster than average)",
      "Software Development")),
    ("Data Scientist", CareerProfile(
      "Analyze complex data to help organizations make better decisions",
      ["python", "machine learning", "statistics", "sql", "pandas", "numpy", "data visualization", "r", "scikit-learn", "tensorflow"],
      "$100,000 - $150,000",
      "36% (Much faster than average)",
      "Data & Analytics")),
    ("DevOps Engineer", CareerProfile(
      "Bridge development and operations to improve deployment efficiency",
      ["linux", "docker", "kubernetes", "jenkins", "aws", "python", "bash", "ci/cd", "terraform", "monitoring"],
      "$105,000 - $155,000",
      "25% (Much faster than average)",
      "Infrastructure")),
    ("Machine Learning Engineer", CareerProfile(
      "Design and implement machine learning applications and systems",
      ["python", "machine learning", "deep learning", "tensorflow", "pytorch", "algorithms", "statistics", "nlp", "computer vision", "cloud"],
      "$115,000 - $175,000",
      "40% (Much faster than average)",
      "AI & Machine Learning")),
    ("Frontend Developer", CareerProfile(
      "Create engaging user interfaces for web applications",
      ["javascript", "html", "css", "react", "typescript", "webpack", "git", "responsive design", "sass", "rest api"],
      "$85,000 - $130,000",
      "20% (Faster than average)",
      "Software Development")),
    ("Backend Developer", CareerProfile(
      "Build server-side logic and database systems",
      ["python", "java", "sql", "rest api", "microservices", "docker", "mongodb", "redis", "git", "node.js"],
      "$90,000 - $135,000",
      "22% (Much faster than average)",
      "Software Development")),
    ("Mobile App Developer", CareerProfile(
      "Create applications for mobile devices",
      ["swift", "kotlin", "react native", "flutter", "mobile ui", "rest api", "git", "firebase", "ios", "android"],
      "$90,000 - $140,000",
      "24% (Much faster than average)",
      "Software Development")),
    ("Cloud Architect", CareerProfile(
      "Design and manage cloud computing strategies",
      ["aws", "azure", "cloud architecture", "security", "networking", "docker", "kubernetes", "terraform", "microservices", "ci/cd"],
      "$125,000 - $180,000",
      "28% (Much faster than average)",
      "Infrastructure")),
    ("Product Manager", CareerProfile(
      "Guide product development from conception to launch",
      ["product strategy", "agile", "roadmapping", "stakeholder management", "data analysis", "communication", "user research", "jira", "sql", "leadership"],
      "$110,000 - $165,000",
      "18% (Faster than average)",
      "Product & Management")),
    ("UX/UI Designer", CareerProfile(
      "Design user experiences and interfaces for digital products",
      ["figma", "user research", "wireframing", "prototyping", "html", "css", "design systems", "usability testing", "adobe xd", "interaction design"],
      "$80,000 - $125,000",
      "16% (Faster than average)",
      "Design")),
    ("Data Engineer", CareerProfile(
      "Build and maintain data infrastructure and pipelines",
      ["python", "sql", "etl", "spark", "airflow", "aws", "kafka", "data warehousing", "big data", "hadoop"],
      "$105,000 - $160,000",
      "33% (Much faster than average)",
      "Data & Analytics")),
    ("Cybersecurity Analyst", CareerProfile(
      "Protect systems and networks from security threats",
      ["network security", "penetration testing", "security auditing", "firewalls", "encryption", "incident response", "linux", "python", "risk assessment"],
      "$95,000 - $145,000",
      "35% (Much faster than average)",
      "Security")),
    ("Business Analyst", CareerProfile(
      "Analyze business processes and recommend improvements",
      ["data analysis", "sql", "excel", "requirements gathering", "process modeling", "communication", "stakeholder management", "agile", "tableau"],
      "$75,000 - $115,000",
      "14% (Faster than average)",
      "Business & Analytics")),
    ("AI Research Scientist", CareerProfile(
      "Conduct research in artificial intelligence and develop new AI models",
      ["machine learning", "deep learning", "research", "python", "mathematics", "algorithms", "pytorch", "tensorflow", "nlp", "computer vision"],
      "$130,000 - $200,000",
      "45% (Much faster than average)",
      "AI & Machine Learning")),
    ("QA Engineer", CareerProfile(
      "Ensure software quality through testing and automation",
      ["testing", "selenium", "automation", "python", "java", "junit", "jest", "ci/cd", "agile", "bug tracking"],
      "$75,000 - $115,000",
      "15% (Faster than average)",
      "Quality Assurance"))
  ]

  /** The shipped catalog has fifteen entries and no title twice. */
  lemma CareerDatabaseIsWellFormed()
    ensures |CareerDatabase| == 15
    ensures UniqueTitles(CareerDatabase)
  {
  }
}
