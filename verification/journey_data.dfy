/**
 * The journey timeline stops (src/data/journeyData.ts), the table the
 * terminal's `projects`, `journey` and `deploy` commands read.
 */
module JourneyData {
  import opened Strings

  datatype Project = Project(
    title: string,
    description: string,
    technologies: seq<string>,
    challenges: Option<seq<string>>,
    url: Option<string>,
    githubUrl: Option<string>)

  datatype Content = Content(
    description: string,
    technologies: Option<seq<string>>,
    keyTakeaway: Option<string>,
    projects: Option<seq<Project>>,
    topics: Option<seq<string>>)

  datatype Stop = Stop(
    id: string,
    title: string,
    location: string,
    date: Option<string>,
    icon: string,
    position: int,
    content: Content)

  const Appointly := Project(
    "Appointly",
    "Appointment booking platform with UX focus",
    ["React", "Node.js", "Supabase  "],
    Some(["User experience design", "Real-time scheduling"]),
    Some("https://appointly-ks.com/"),
    None)

  const TeamDashboardWeb := Project(
    "TeamDashboardWeb",
    "DevOps-style dashboard with CI/CD integration",
    ["Grafana", "Uptime Kuma", "Terraform", "Docker", "AWS CICD"],
    Some(["CI/CD pipeline setup", "Monitoring integration"]),
    None,
    Some("https://github.com/lerthy/TeamDashboard"))

  const KosovARi := Project(
    "KosovARi",
    "An augmented reality platform that highlights social and civic issues in Kosovo, allowing users to interact with digital content overlaid on real-world locations.",
    ["React", "Node.js", "Supabase", "AR Foundation", "Adobe Aero"],
    Some(["AR object placement and tracking", "Cross-platform performance optimization", "User interaction design"]),
    Some("https://kosovar.netlify.app/"),
    None)

  const JourneyStops: seq<Stop> := [
    Stop("prishtina", "University of Prishtina FSHMN | Computer Science", "Prishtina",
      Some("2021 - Present"), "graduation-cap", 10,
      Content("Foundations",
        Some(["Java", "Database", "SQL", "Object-Oriented Programming", "Programming Fundamentals"]),
        Some("This is where I learned how computers really work"), None, None)),
    Stop("netherlands", "Hanze University | Exchange Program", "Netherlands",
      Some("2023"), "globe", 30,
      Content("Exchange Program", None,
        Some("I learned to think long-term, globally, and beyond code"), None,
        Some(["Technology & society", "Futures Literacy", "Scenario building", "CRISPR",
              "Emerging tech", "Design-based problem solving"]))),
    Stop("projects", "Academic & Personal Projects", "Projects",
      Some("2022 - Present"), "code", 50,
      Content("Projects Phase", None, None, Some([Appointly, TeamDashboardWeb, KosovARi]), None)),
    Stop("devops", "DevOps Apprentice", "DevOps",
      Some("2024 - Present"), "server", 70,
      Content("DevOps Apprenticeship",
        Some(["Linux", "AWS", "Pipelines", "ECS Fargate", "Grafana", "Uptime Kuma"]),
        Some("From writing code \U{2192} to running systems"), None, None)),
    Stop("startup", "Startup & Side Projects | Bytefull & Friends", "DevOps/Dev",
      Some("2024 - Present"), "rocket", 85,
      Content("Startup & Side Projects",
        Some(["Full Stack", "E-commerce", "Team Collaboration"]),
        Some("Small team, fast iteration, ownership of full stack. Skills: decision making, shipping code, problem solving"),
        None, None)),
    Stop("next", "Where I'm Going", "Future",
      Some("2025+"), "compass", 100,
      Content("Next Destination", None,
        Some("Looking for Junior DevOps / Software Engineer roles. Focus on reliability, automation, clean systems"),
        None, None))
  ]

  /** `stops.find((stop) => stop.id === id)`: the first stop with that id. */
  function FindStop(stops: seq<Stop>, id: string): (r: Option<Stop>)
    ensures r.Some? ==> r.value in stops && r.value.id == id
    ensures r.None? <==> forall s :: s in stops ==> s.id != id
  {
    if stops == [] then None
    else if stops[0].id == id then Some(stops[0])
    else FindStop(stops[1..], id)
  }

  /** The projects listed under the `projects` stop, if that stop has a project list. */
  function ProjectList(): (r: Option<seq<Project>>)
    ensures r == Some([Appointly, TeamDashboardWeb, KosovARi])
  {
    var stop := FindStop(JourneyStops, "projects");
    ProjectsStopIsThird();
    if stop.Some? then stop.value.content.projects else None
  }

  lemma ProjectsStopIsThird()
    ensures FindStop(JourneyStops, "projects") == Some(JourneyStops[2])
  {
    var ss := JourneyStops;
    DiffersAt("prishtina", "projects", 2);
    DiffersAt("netherlands", "projects", 0);
    assert ss[1..][1..] == ss[2..];
    assert FindStop(ss[2..], "projects") == Some(ss[2]);
    assert FindStop(ss[1..], "projects") == FindStop(ss[2..], "projects");
  }

  /** The timeline has six stops: the constant the stage cards are numbered against. */
  lemma SixStops()
    ensures |JourneyStops| == 6
  {
  }
}
