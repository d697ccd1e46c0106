/**
 * The terminal's command table (src/data/terminalCommands.ts): one handler
 * per command name, each a function of the positional arguments, the flag
 * dictionary and the current directory, returning the lines to print.
 *
 * Three handlers cannot reach a branch once their input comes from the
 * tokeniser, and the file-name lookup answers for names every JavaScript
 * object inherits. For each of these the as-written handler is kept
 * beside the corrected one (suffix `AsWritten`), and the table `Run` uses
 * the corrected one.
 */
module Commands {
  import opened Strings
  import opened TerminalUtils
  import JourneyData
  import Letters

  // ----- File names of the letters -----

  /** `recommendationMap`: letter file name to letter id. */
  const RecommendationMap: map<string, string> := map[
    "devops-mentor.txt" := "recommendation-1",
    "professor-hanze.txt" := "recommendation-2",
    "senior-lecturer-hanze.txt" := "recommendation-3"]

  /** The property names every plain JavaScript object inherits from `Object.prototype`. */
  const InheritedNames: set<string> := {
    "constructor", "hasOwnProperty", "isPrototypeOf", "propertyIsEnumerable",
    "toString", "toLocaleString", "valueOf", "__proto__",
    "__defineGetter__", "__defineSetter__", "__lookupGetter__", "__lookupSetter__"}

  /** What reading a property of an object literal yields. */
  datatype Property = OwnString(s: string) | InheritedMember(name: string) | Undefined

  /** `recommendationMap[fileName] || null` as written: inherited members are truthy and come back too. */
  function RecommendationIdAsWritten(fileName: string): (r: Property)
    ensures r.Undefined? <==> fileName !in RecommendationMap && fileName !in InheritedNames
    ensures r.OwnString? <==> fileName in RecommendationMap
  {
    if fileName in RecommendationMap then OwnString(RecommendationMap[fileName])
    else if fileName in InheritedNames then InheritedMember(fileName)
    else Undefined
  }

  /** `getRecommendationIdFromFileName`, reading only the map's own entries. */
  function RecommendationId(fileName: string): (r: Option<string>)
    ensures r.Some? <==> fileName in RecommendationMap
    ensures r.Some? ==> Letters.FindLetter(r.value).Some?
  {
    if fileName in RecommendationMap then
      var id := RecommendationMap[fileName];
      assert Letters.Recommendations[0].id == "recommendation-1";
      assert Letters.Recommendations[1].id == "recommendation-2";
      assert Letters.Recommendations[2].id == "recommendation-3";
      Some(id)
    else None
  }

  /** The three letter files map to the three letters; every other name gives nothing. */
  lemma RecommendationIdTable(fileName: string)
    ensures fileName == "devops-mentor.txt" ==> RecommendationId(fileName) == Some("recommendation-1")
    ensures fileName == "professor-hanze.txt" ==> RecommendationId(fileName) == Some("recommendation-2")
    ensures fileName == "senior-lecturer-hanze.txt" ==> RecommendationId(fileName) == Some("recommendation-3")
    ensures (fileName != "devops-mentor.txt" && fileName != "professor-hanze.txt"
             && fileName != "senior-lecturer-hanze.txt") ==> RecommendationId(fileName) == None
  {
  }

  /** As written, `open letter constructor` finds a "letter id": the inherited constructor. */
  lemma InheritedNameFoundAsWritten()
    ensures RecommendationIdAsWritten("constructor") == InheritedMember("constructor")
    ensures RecommendationId("constructor") == None
  {
  }

  // ----- Fixed listings -----

  const WhoamiLines: seq<Output> :=
    [ CreateOutput("Lerdi Salihi", Normal),
      CreateOutput("Computer Science Student | DevOps Apprentice | Builder", Normal),
      CreateOutput("Location: Prishtina / Remote", Normal) ]

  const HelpLines: seq<Output> :=
    [ CreateOutput("Available commands:", Info),
      CreateOutput("", Normal),
      CreateOutput("  whoami          - Display profile information", Normal),
      CreateOutput("  ls [path]       - List directories and files", Normal),
      CreateOutput("  cat [file]      - Display file contents", Normal),
      CreateOutput("  cd [directory]  - Change directory", Normal),
      CreateOutput("  projects        - Show projects", Normal),
      CreateOutput("  journey         - Explore journey timeline", Normal),
      CreateOutput("  aws             - AWS CLI commands", Normal),
      CreateOutput("  recommendations - View recommendations", Normal),
      CreateOutput("  clear           - Clear terminal", Normal),
      CreateOutput("  help            - Show this help message", Normal) ]

  // Long lines are named constants: the verifier then unfolds them only where their text matters.
  const MentorLine := "  devops-mentor.txt          - Wren Priest, Software Engineer II, Amazon"
  const ProfessorLine := "  professor-hanze.txt        - Floris Maathuis, Coordinator, Hanze University"
  const LecturerLine := "  senior-lecturer-hanze.txt  - Nick Lumatalale, Senior Lecturer, Hanze University"

  const LetterIndexLines: seq<Output> :=
    [ CreateOutput("Available recommendation letters:", Info),
      CreateOutput("", Normal),
      CreateOutput(MentorLine, Normal),
      CreateOutput(ProfessorLine, Normal),
      CreateOutput(LecturerLine, Normal),
      CreateOutput("", Normal),
      CreateOutput("Use: cat recommendations/<filename> to preview", Info) ]

  /** `pwd`: the current directory, `~` when it is empty. */
  function Pwd(cwd: string): (r: seq<Output>)
    ensures |r| == 1 && r[0].kind == Normal && r[0].content != ""
    ensures cwd != "" ==> r[0].content == cwd
    ensures cwd == "" ==> r[0].content == "~"
  {
    [CreateOutput(if cwd != "" then cwd else "~", Normal)]
  }

  // ----- ls -----

  const SkillsListing: seq<Output> := [
    CreateOutput("bash   linux   docker   java   git", Normal),
    CreateOutput("ci-cd  grafana  uptimekuma", Normal)]
  const ProjectsDirListing: seq<Output> := [CreateOutput("appointly  teamdashboardweb  kosovari", Normal)]
  const JourneyDirListing: seq<Output> := [CreateOutput("prishtina  netherlands  projects  devops  startup", Normal)]
  const LettersDirListing: seq<Output> := [
    CreateOutput("devops-mentor.txt", Normal),
    CreateOutput("professor-hanze.txt", Normal),
    CreateOutput("senior-lecturer-hanze.txt", Normal)]

  /** `args[0] || state.currentDirectory || ''`. */
  function LsPath(args: seq<string>, cwd: string): string
  {
    if |args| > 0 && args[0] != "" then args[0] else cwd
  }

  function LsError(path: string): seq<Output>
  {
    [CreateOutput("ls: cannot access '" + path + "': No such file or directory", Error)]
  }

  /**
   * `ls` as written: the listing of skills is reached only by an empty
   * current directory, which the terminal never has.
   */
  function LsAsWritten(args: seq<string>, cwd: string): (r: seq<Output>)
    ensures |r| >= 1
  {
    var path := LsPath(args, cwd);
    if path == "skills" || (path == "" && cwd == "") then SkillsListing
    else if path == "projects" || cwd == "projects" then ProjectsDirListing
    else if path == "journey" || cwd == "journey" then JourneyDirListing
    else if path == "recommendations" || cwd == "recommendations" then LettersDirListing
    else LsError(path)
  }

  /** The home directory `~` (or an empty one) with no path given. */
  predicate AtHome(path: string, cwd: string)
  {
    (path == "" || path == "~") && (cwd == "" || cwd == "~")
  }

  /** `ls` with the home directory recognised as the place that lists the skills. */
  function Ls(args: seq<string>, cwd: string): (r: seq<Output>)
    ensures |r| >= 1
    ensures AtHome(LsPath(args, cwd), cwd) ==> r == SkillsListing
  {
    var path := LsPath(args, cwd);
    if path == "skills" || AtHome(path, cwd) then SkillsListing
    else if path == "projects" || cwd == "projects" then ProjectsDirListing
    else if path == "journey" || cwd == "journey" then JourneyDirListing
    else if path == "recommendations" || cwd == "recommendations" then LettersDirListing
    else LsError(path)
  }

  /** The directories `ls` knows, in the order it tests them. */
  const LsOrder: seq<string> := ["projects", "journey", "recommendations"]

  function DirListing(name: string): seq<Output>
  {
    if name == "projects" then ProjectsDirListing
    else if name == "journey" then JourneyDirListing
    else LettersDirListing
  }

  /**
   * Past the skills test, `ls` lists the first directory, in the fixed order
   * projects, journey, recommendations, that either the path or the current
   * directory names; when none is named it prints one error naming the path.
   */
  lemma LsFirstMatchWins(args: seq<string>, cwd: string, k: nat)
    requires var path := LsPath(args, cwd); path != "skills" && !AtHome(path, cwd)
    requires k < |LsOrder| && (LsPath(args, cwd) == LsOrder[k] || cwd == LsOrder[k])
    requires forall j :: 0 <= j < k ==> LsPath(args, cwd) != LsOrder[j] && cwd != LsOrder[j]
    ensures Ls(args, cwd) == DirListing(LsOrder[k])
  {
    assert LsOrder[0] == "projects" && LsOrder[1] == "journey" && LsOrder[2] == "recommendations";
  }

  lemma LsNoMatchIsError(args: seq<string>, cwd: string)
    requires var path := LsPath(args, cwd); path != "skills" && !AtHome(path, cwd)
    requires forall j :: 0 <= j < |LsOrder| ==> LsPath(args, cwd) != LsOrder[j] && cwd != LsOrder[j]
    ensures Ls(args, cwd) == [Output(Error, "ls: cannot access '" + LsPath(args, cwd) + "': No such file or directory")]
  {
    assert LsOrder[0] == "projects" && LsOrder[1] == "journey" && LsOrder[2] == "recommendations";
  }

  /**
   * As written, `ls` takes the same branches as the corrected handler (skills,
   * projects, journey, recommendations, then the error), except at home with
   * no path or the path `~`: there it reports that path missing.
   */
  lemma LsAsWrittenAgrees(args: seq<string>, cwd: string)
    ensures var path := LsPath(args, cwd);
      && (!AtHome(path, cwd) || (path == "" && cwd == "") ==> LsAsWritten(args, cwd) == Ls(args, cwd))
      && (AtHome(path, cwd) && !(path == "" && cwd == "") ==> LsAsWritten(args, cwd) == LsError(path))
  {
  }

  /** In `projects`, `ls journey` lists the projects: the current directory is checked first. */
  lemma LsJourneyFromProjects()
    ensures Ls(["journey"], "projects") == ProjectsDirListing
    ensures LsAsWritten(["journey"], "projects") == ProjectsDirListing
  {
  }

  /** As written, a bare `ls` at `~` prints the error; corrected, it lists the skills. */
  lemma BareLsAtHome()
    ensures LsAsWritten([], "~") == [Output(Error, "ls: cannot access '" + "~" + "': No such file or directory")]
    ensures Ls([], "~") == SkillsListing
  {
  }

  // ----- cat -----

  /** `filePath.split('/')` and its last piece. */
  function Basename(path: string): (r: string)
    ensures forall i :: 0 <= i < |r| ==> r[i] != '/'
    ensures EndsWith(path, r)
  {
    var parts := SplitOn(path, '/');
    LastPieceIsSuffix(path, '/');
    parts[|parts| - 1]
  }

  function DevopsLog(clock: string): seq<Output>
  {
    [ CreateOutput(FormatLogMessage(clock, LogInfo, "Setting up Linux VMs"), Info),
      CreateOutput(FormatLogMessage(clock, LogInfo, "Securing file transfers"), Info),
      CreateOutput(FormatLogMessage(clock, LogInfo, "Configuring system services"), Info),
      CreateOutput(FormatLogMessage(clock, LogSuccess, "Production mindset acquired"), Success) ]
  }

  const SummaryLines: seq<Output> := [
    CreateOutput("I build reliable systems, automate workflows,", Normal),
    CreateOutput("and turn ideas into production-ready solutions.", Normal)]

  /** The preview of a letter: its snippet and the hint to open it. */
  function LetterPreview(snippet: string, fileName: string): seq<Output>
  {
    [ CreateOutput("", Normal),
      CreateOutput("\"" + snippet + "...\"", Info),
      CreateOutput("", Normal),
      CreateOutput("Type `open letter " + fileName + "` to view full recommendation", Info) ]
  }

  /** The `.txt` files under `recommendations/`, or any `.txt` while in `recommendations`. */
  predicate InLetterFolder(filePath: string, fileName: string, cwd: string)
  {
    EndsWith(fileName, ".txt") && (StartsWith(filePath, "recommendations/") || cwd == "recommendations")
  }

  predicate IsDevopsLog(filePath: string, fileName: string, cwd: string)
  {
    filePath == "journey/devops.log" || (cwd == "journey" && fileName == "devops.log")
  }

  /** `cat`; the time of day printed in the log lines is the parameter `clock`. */
  function Cat(args: seq<string>, cwd: string, clock: string): (r: seq<Output>)
    ensures |r| >= 1
    ensures args == [] ==> r == [Output(Error, "cat: missing file operand")]
  {
    if |args| == 0 then [CreateOutput("cat: missing file operand", Error)]
    else
      var filePath := args[0];
      var fileName := Basename(filePath);
      if fileName == "summary.txt" then SummaryLines
      else if IsDevopsLog(filePath, fileName, cwd) then DevopsLog(clock)
      else if InLetterFolder(filePath, fileName, cwd) then
        var recId := RecommendationId(fileName);
        var letter := if recId.Some? then Letters.FindLetter(recId.value) else None;
        if letter.Some? then LetterPreview(letter.value.snippet, fileName)
        else [CreateOutput("cat: " + fileName + ": No such file or directory", Error)]
      else [CreateOutput("cat: " + filePath + ": No such file or directory", Error)]
  }

  /** A last path piece of `summary.txt` gives the two summary lines, whatever the folder. */
  lemma CatSummary(args: seq<string>, cwd: string, clock: string)
    requires |args| > 0 && Basename(args[0]) == "summary.txt"
    ensures Cat(args, cwd, clock) == SummaryLines
  {
  }

  /**
   * A letter file in the letters folder gives four lines ending with the hint
   * to open it; any other `.txt` name there gives one error naming the file.
   */
  lemma CatLetter(args: seq<string>, cwd: string, clock: string)
    requires |args| > 0
    requires var name := Basename(args[0]); name != "summary.txt" && InLetterFolder(args[0], name, cwd)
    ensures var name := Basename(args[0]); var r := Cat(args, cwd, clock);
      && (name in RecommendationMap ==>
            |r| == 4 && r[3] == Output(Info, "Type `open letter " + name + "` to view full recommendation"))
      && (name !in RecommendationMap ==>
            r == [Output(Error, "cat: " + name + ": No such file or directory")])
  {
    TxtIsNotTheLog(args[0], cwd);
  }

  /** A `.txt` name is never the journey log, whatever the path says. */
  lemma TxtIsNotTheLog(filePath: string, cwd: string)
    requires EndsWith(Basename(filePath), ".txt")
    ensures !IsDevopsLog(filePath, Basename(filePath), cwd)
  {
    var name := Basename(filePath);
    assert EndsWith(filePath, ".txt") by {
      assert filePath[|filePath| - 4..] == name[|name| - 4..];
    }
  }

  // ----- cd -----

  const ValidDirs: seq<string> := ["journey", "projects", "recommendations"]

  /** `cd` in the table: nothing to print for `~` or a known folder, else one error. */
  function Cd(args: seq<string>): (r: seq<Output>)
    ensures r == [] <==> |args| == 0 || args[0] in ["", "~"] + ValidDirs
  {
    var dir := if |args| > 0 && args[0] != "" then args[0] else "~";
    if dir == "~" || dir == "" then []
    else if dir in ValidDirs then []
    else [CreateOutput("cd: " + dir + ": No such file or directory", Error)]
  }

  // ----- projects and journey -----

  /** The three lines printed for one project. */
  function ProjectEntry(p: JourneyData.Project): seq<Output>
  {
    // `project.technologies` is an array, which is always truthy: the Tech line is always printed.
    [ CreateOutput("\n" + p.title, Success),
      CreateOutput("  " + p.description, Normal),
      CreateOutput("  Tech: " + Join(p.technologies, ", "), Info) ]
  }

  function ProjectLines(ps: seq<JourneyData.Project>): (r: seq<Output>)
    ensures |r| == 3 * |ps|
  {
    if ps == [] then [] else ProjectLines(ps[..|ps| - 1]) + ProjectEntry(ps[|ps| - 1])
  }

  /** Project `k` starts at line `3k`, with its title. */
  lemma {:induction false} ProjectLinesAt(ps: seq<JourneyData.Project>, k: nat)
    requires k < |ps|
    ensures ProjectLines(ps)[3 * k] == Output(Success, "\n" + ps[k].title)
    ensures ProjectLines(ps)[3 * k + 1] == Output(Normal, "  " + ps[k].description)
    ensures ProjectLines(ps)[3 * k + 2] == Output(Info, "  Tech: " + Join(ps[k].technologies, ", "))
  {
    if k < |ps| - 1 {
      ProjectLinesAt(ps[..|ps| - 1], k);
      assert ps[..|ps| - 1][k] == ps[k];
    }
  }

  /** What the `projects` command prints. */
  function ProjectsListing(): (r: seq<Output>)
    ensures |r| >= 1
  {
    var projects := JourneyData.ProjectList();
    if projects.None? then [CreateOutput("No projects found", Error)]
    else ProjectLines(projects.value)
  }

  /** `projects`: pushes three lines per project while walking the list. */
  method Projects() returns (outputs: seq<Output>)
    ensures outputs == ProjectsListing()
  {
    var found := JourneyData.ProjectList();
    if found.None? {
      return [CreateOutput("No projects found", Error)];
    }
    outputs := PushProjectLines(found.value);
  }

  /** The `forEach` of `projects`: three pushes per project, in list order. */
  method PushProjectLines(projects: seq<JourneyData.Project>) returns (outputs: seq<Output>)
    ensures outputs == ProjectLines(projects)
  {
    outputs := [];
    for i := 0 to |projects|
      invariant outputs == ProjectLines(projects[..i])
    {
      var project := projects[i];
      ghost var before := outputs;
      outputs := outputs + [CreateOutput("\n" + project.title, Success)];
      outputs := outputs + [CreateOutput("  " + project.description, Normal)];
      outputs := outputs + [CreateOutput("  Tech: " + Join(project.technologies, ", "), Info)];
      assert outputs == before + ProjectEntry(project);
      assert projects[..i + 1][..i] == projects[..i];
    }
    assert projects[..|projects|] == projects;
  }

  /** `projects` prints three lines per project of the `projects` stop, in order: title, description, technologies. */
  lemma ProjectsListingShape(k: nat)
    requires k < |JourneyData.ProjectList().value|
    ensures |ProjectsListing()| == 3 * |JourneyData.ProjectList().value| == 9
    ensures var p := JourneyData.ProjectList().value[k];
      && ProjectsListing()[3 * k] == Output(Success, "\n" + p.title)
      && ProjectsListing()[3 * k + 1] == Output(Normal, "  " + p.description)
      && ProjectsListing()[3 * k + 2] == Output(Info, "  Tech: " + Join(p.technologies, ", "))
  {
    ProjectLinesAt(JourneyData.ProjectList().value, k);
  }

  function StopLine(s: JourneyData.Stop): Output
  {
    CreateOutput(PadEnd(s.location, 15) + " - " + s.title, Normal)
  }

  function StopLines(stops: seq<JourneyData.Stop>): (r: seq<Output>)
    ensures |r| == |stops|
    ensures forall k :: 0 <= k < |stops| ==> r[k] == StopLine(stops[k])
  {
    if stops == [] then [] else StopLines(stops[..|stops| - 1]) + [StopLine(stops[|stops| - 1])]
  }

  const JourneyHeader: seq<Output> := [CreateOutput("Navigate my journey timeline:", Info), CreateOutput("", Normal)]

  /** What the `journey` command prints. */
  function JourneyListing(): (r: seq<Output>)
    ensures |r| >= 2
  {
    JourneyHeader + StopLines(JourneyData.JourneyStops)
  }

  /** `journey`: a header, then one pushed line per stop. */
  method Journey() returns (outputs: seq<Output>)
    ensures outputs == JourneyListing()
  {
    outputs := PushStopLines(JourneyData.JourneyStops);
  }

  /** The loop of `journey`, over any list of stops. */
  method PushStopLines(stops: seq<JourneyData.Stop>) returns (outputs: seq<Output>)
    ensures outputs == JourneyHeader + StopLines(stops)
  {
    outputs := JourneyHeader;
    for i := 0 to |stops|
      invariant outputs == JourneyHeader + StopLines(stops[..i])
    {
      outputs := outputs + [CreateOutput(PadEnd(stops[i].location, 15) + " - " + stops[i].title, Normal)];
      assert stops[..i + 1][..i] == stops[..i];
    }
    assert stops[..|stops|] == stops;
  }

  /** Two header lines, then one line per stop: its location padded to 15 columns, a dash and its title. */
  lemma JourneyListingShape(k: nat)
    requires k < |JourneyData.JourneyStops|
    ensures |JourneyListing()| == 2 + |JourneyData.JourneyStops|
    ensures var line := JourneyListing()[k + 2].content; var s := JourneyData.JourneyStops[k];
      |line| >= 15 && StartsWith(line, s.location) && EndsWith(line, " - " + s.title)
  {
    var s := JourneyData.JourneyStops[k];
    var line := JourneyListing()[k + 2].content;
    var pad := PadEnd(s.location, 15);
    assert line == pad + " - " + s.title;
    assert line[..|s.location|] == pad[..|s.location|];
    assert line[|line| - |" - " + s.title|..] == " - " + s.title;
  }

  // ----- deploy -----

  /** `projects.find((p) => p.title.toLowerCase() === name)`. */
  function FindProject(ps: seq<JourneyData.Project>, name: string): (r: Option<JourneyData.Project>)
    ensures r.Some? ==> r.value in ps && Lower(r.value.title) == name
    ensures r.None? <==> forall p :: p in ps ==> Lower(p.title) != name
  {
    if ps == [] then None
    else if Lower(ps[0].title) == name then Some(ps[0])
    else FindProject(ps[1..], name)
  }

  function DeployLines(title: string): seq<Output>
  {
    [ CreateOutput("[INFO] Running pipeline...", Info),
      CreateOutput("[INFO] Tests passed", Info),
      CreateOutput("[INFO] Deploying to production", Info),
      CreateOutput("[SUCCESS] " + title + " deployed", Success) ]
  }

  /** `deploy`: a missing argument prints as `undefined`, as a template string shows it. */
  function Deploy(args: seq<string>): (r: seq<Output>)
    ensures |r| == 1 || |r| == 4
  {
    var projects := JourneyData.ProjectList();
    var project := if |args| > 0 && projects.Some? then FindProject(projects.value, Lower(args[0])) else None;
    if project.None? then
      [CreateOutput("deploy: unknown project '" + (if |args| > 0 then args[0] else "undefined") + "'", Error)]
    else DeployLines(project.value.title)
  }

  /** The three project titles lower-case to three different names. */
  lemma TitlesDistinctIgnoringCase(p: JourneyData.Project, q: JourneyData.Project)
    requires p in JourneyData.ProjectList().value && q in JourneyData.ProjectList().value
    requires Lower(p.title) == Lower(q.title)
    ensures p == q
  {
    TitleInitials();
    var ps := JourneyData.ProjectList().value;
    DistinctByInitial(ps, p, q);
  }

  /** Three titles whose lower-cased forms start with three different letters. */
  predicate InitialsDistinct(ps: seq<JourneyData.Project>)
  {
    && |ps| == 3
    && ps[0].title != [] && ps[1].title != [] && ps[2].title != []
    && Lower(ps[0].title)[0] != Lower(ps[1].title)[0]
    && Lower(ps[0].title)[0] != Lower(ps[2].title)[0]
    && Lower(ps[1].title)[0] != Lower(ps[2].title)[0]
  }

  /** Among three projects with distinct initials, equal lower-cased titles mean the same project. */
  lemma DistinctByInitial(ps: seq<JourneyData.Project>, p: JourneyData.Project, q: JourneyData.Project)
    requires InitialsDistinct(ps) && p in ps && q in ps
    requires Lower(p.title) == Lower(q.title)
    ensures p == q
  {
    assert p == ps[0] || p == ps[1] || p == ps[2];
    assert q == ps[0] || q == ps[1] || q == ps[2];
  }

  /** The project titles start with `A`, `T` and `K`. */
  lemma TitleInitials()
    ensures InitialsDistinct([JourneyData.Appointly, JourneyData.TeamDashboardWeb, JourneyData.KosovARi])
  {
    var ps := [JourneyData.Appointly, JourneyData.TeamDashboardWeb, JourneyData.KosovARi];
    assert Lower(ps[0].title)[0] == 'a';
    assert Lower(ps[1].title)[0] == 't';
    assert Lower(ps[2].title)[0] == 'k';
  }

  /** A project named in any letter case deploys, and the success line names it with its canonical title. */
  lemma DeployKnownProject(args: seq<string>, p: JourneyData.Project)
    requires p in JourneyData.ProjectList().value
    requires |args| > 0 && SameIgnoringCase(args[0], p.title)
    ensures Deploy(args) == DeployLines(p.title)
    ensures Deploy(args)[3] == Output(Success, "[SUCCESS] " + p.title + " deployed")
  {
    SameIgnoringCaseIsLowerEq(args[0], p.title);
    var ps := JourneyData.ProjectList().value;
    var found := FindProject(ps, Lower(args[0]));
    assert found.Some?;
    TitlesDistinctIgnoringCase(found.value, p);
  }

  /** Any other name gives one error quoting the argument as typed, or `undefined`. */
  lemma DeployUnknownProject(args: seq<string>)
    requires |args| == 0 || forall p :: p in JourneyData.ProjectList().value ==> !SameIgnoringCase(args[0], p.title)
    ensures Deploy(args) == [Output(Error, "deploy: unknown project '" + (if |args| > 0 then args[0] else "undefined") + "'")]
  {
    if |args| > 0 {
      forall p | p in JourneyData.ProjectList().value
        ensures Lower(p.title) != Lower(args[0])
      {
        SameIgnoringCaseIsLowerEq(args[0], p.title);
      }
    }
  }

  // ----- aws -----

  /** `args.indexOf(x)`: the first position of `x`, or -1. */
  function IndexOf(args: seq<string>, x: string): (r: int)
    ensures -1 <= r < |args|
    ensures r >= 0 ==> args[r] == x && forall j :: 0 <= j < r ==> args[j] != x
    ensures r == -1 <==> x !in args
  {
    if args == [] then -1
    else if args[0] == x then 0
    else var r := IndexOf(args[1..], x); if r == -1 then -1 else r + 1
  }

  /** `args.find((arg) => arg.startsWith('--name='))`. */
  function FindNameArg(args: seq<string>): (r: Option<string>)
    ensures r.Some? ==> r.value in args && StartsWith(r.value, "--name=")
    ensures r.None? ==> forall a :: a in args ==> !StartsWith(a, "--name=")
  {
    if args == [] then None
    else if StartsWith(args[0], "--name=") then Some(args[0])
    else FindNameArg(args[1..])
  }

  /** The role name `create-role` reads from the arguments alone; `None` is `undefined`. */
  function RoleNameFromArgs(args: seq<string>): (r: Option<string>)
    ensures "--name" !in args && FindNameArg(args).None? ==> r == (if |args| > 0 then Some(args[0]) else None)
  {
    var nameFlag := FindNameArg(args);
    if nameFlag.Some? then
      var pieces := SplitOn(nameFlag.value, '=');
      if |pieces| >= 2 then Some(pieces[1]) else None
    else
      var i := IndexOf(args, "--name") + 1;
      if i < |args| then Some(args[i]) else None
  }

  /** The role name, read first from the `--name` flag the tokeniser produced. */
  function RoleName(args: seq<string>, flags: map<string, FlagValue>): (r: Option<string>)
    ensures "name" in flags && flags["name"].Str? ==> r == Some(flags["name"].value)
  {
    if "name" in flags && flags["name"].Str? then Some(flags["name"].value)
    else RoleNameFromArgs(args)
  }

  const RoleList: seq<Output> := [
    CreateOutput("Lerdi-DevOps", Normal),
    CreateOutput("Lerdi-Automation", Normal),
    CreateOutput("Lerdi-Builder", Normal)]

  const RoleCreated: seq<Output> := [
    CreateOutput("[SUCCESS] Role created", Success),
    CreateOutput("Attached policies:", Info),
    CreateOutput("  - Reliability", Normal),
    CreateOutput("  - Ownership", Normal),
    CreateOutput("  - Continuous Learning", Normal)]

  const AwsUsage: seq<Output> := [CreateOutput("AWS CLI - Use: aws iam list-roles | aws iam create-role --name <name>", Info)]

  predicate IsSubcommand(args: seq<string>, sub: string)
  {
    |args| >= 2 && args[0] == "iam" && args[1] == sub
  }

  /** `aws` as written: the role name is looked up among the positional arguments only. */
  function AwsAsWritten(args: seq<string>): (r: seq<Output>)
    ensures |r| >= 1
    ensures r == RoleList <==> IsSubcommand(args, "list-roles")
    ensures r == RoleCreated <==> IsSubcommand(args, "create-role") && RoleNameFromArgs(args) == Some("hire-lerdi")
  {
    if IsSubcommand(args, "list-roles") then RoleList
    else if IsSubcommand(args, "create-role") && RoleNameFromArgs(args) == Some("hire-lerdi") then RoleCreated
    else AwsUsage
  }

  /** `aws` reading the role name from the `--name` flag as the tokeniser delivers it. */
  function Aws(args: seq<string>, flags: map<string, FlagValue>): (r: seq<Output>)
    ensures |r| >= 1
    ensures r == RoleList <==> IsSubcommand(args, "list-roles")
    ensures r == RoleCreated <==> IsSubcommand(args, "create-role") && RoleName(args, flags) == Some("hire-lerdi")
    ensures r != RoleList && r != RoleCreated ==> r == AwsUsage
  {
    if IsSubcommand(args, "list-roles") then RoleList
    else if IsSubcommand(args, "create-role") && RoleName(args, flags) == Some("hire-lerdi") then RoleCreated
    else AwsUsage
  }

  /**
   * As written, no typed line creates the role: the tokeniser never leaves a
   * `-` piece among the arguments, so the name falls back to `args[0]`, which
   * is `iam` on this branch.
   */
  lemma AwsCreateRoleUnreachableAsWritten(input: string)
    ensures AwsAsWritten(Parse(input).args) != RoleCreated
  {
    var args := Parse(input).args;
    ParsedArgsHaveNoDash(input);
    if IsSubcommand(args, "create-role") {
      NameFallsBackToFirstArg(args);
      DiffersAt("iam", "hire-lerdi", 0);
    }
  }

  /** With no `-` piece among the arguments, the role name is the first argument. */
  lemma NameFallsBackToFirstArg(args: seq<string>)
    requires |args| > 0 && forall a :: a in args ==> !StartsWith(a, "-")
    ensures RoleNameFromArgs(args) == Some(args[0])
  {
    DoubleDashIsDash("--name");
    assert "--name" !in args;
    forall a | a in args ensures !StartsWith(a, "--name=") {
      if StartsWith(a, "--name=") {
        LongerPrefix(a, "-", "-name=");
      }
    }
  }

  // ----- sudo and rm -----

  const Welcome: seq<Output> := [
    CreateOutput("Permission granted.", Success),
    CreateOutput("Welcome aboard \U{1F680}", Success)]

  function Sudo(args: seq<string>): (r: seq<Output>)
    ensures |r| >= 1
    ensures r[0].kind == Success <==> |args| >= 2 && args[0] == "hire" && args[1] == "lerdi"
    ensures r[0].kind != Success ==> |r| == 1 && r[0].kind == Error
    ensures r[0].kind == Success ==>
      r == [Output(Success, "Permission granted."), Output(Success, "Welcome aboard \U{1F680}")]
    ensures r[0].kind != Success ==> r == [Output(Error, "sudo: incorrect password")]
  {
    if |args| >= 2 && args[0] == "hire" && args[1] == "lerdi" then Welcome
    else [CreateOutput("sudo: incorrect password", Error)]
  }

  const ReadOnly: seq<Output> := [
    CreateOutput("Nice try \U{1F604}", Warning),
    CreateOutput("This system is read-only.", Warning)]

  /** `rm` as written: looks for `-rf` among the positional arguments. */
  function RmAsWritten(args: seq<string>): (r: seq<Output>)
    ensures |r| >= 1
    ensures r[0].kind == Warning <==> "-rf" in args && "/" in args
    ensures "-rf" in args && "/" in args ==> r == ReadOnly
    ensures !("-rf" in args && "/" in args) ==> r == [Output(Error, "rm: missing operand")]
  {
    if "-rf" in args && "/" in args then ReadOnly
    else [CreateOutput("rm: missing operand", Error)]
  }

  /** `rm` that also finds `-rf` where the tokeniser puts it: among the flags. */
  function Rm(args: seq<string>, flags: map<string, FlagValue>): (r: seq<Output>)
    ensures |r| >= 1
    ensures r[0].kind == Warning <==> ("-rf" in args || "rf" in flags) && "/" in args
    ensures r[0].kind != Warning ==> |r| == 1 && r[0].kind == Error
    ensures ("-rf" in args || "rf" in flags) && "/" in args ==> r == ReadOnly
    ensures !(("-rf" in args || "rf" in flags) && "/" in args) ==> r == [Output(Error, "rm: missing operand")]
  {
    if ("-rf" in args || "rf" in flags) && "/" in args then ReadOnly
    else [CreateOutput("rm: missing operand", Error)]
  }

  /** As written, no typed line reaches the read-only warning. */
  lemma RmWarningUnreachableAsWritten(input: string)
    ensures RmAsWritten(Parse(input).args) == [Output(Error, "rm: missing operand")]
  {
    ParsedArgsHaveNoDash(input);
    assert StartsWith("-rf", "-");
  }

  // ----- The table -----

  /** The names of `commandHandlers`. */
  datatype Command =
    | WhoamiCmd | HelpCmd | ClearCmd | PwdCmd | LsCmd | CdCmd | RecommendationsCmd
    | SudoCmd | RmCmd | CatCmd | ProjectsCmd | JourneyCmd | DeployCmd | AwsCmd

  const CommandNames: seq<string> := [
    "whoami", "help", "clear", "pwd", "ls", "cat", "cd",
    "projects", "journey", "deploy", "aws", "recommendations", "sudo", "rm"]

  function Name(c: Command): string
  {
    match c
    case WhoamiCmd => "whoami"
    case HelpCmd => "help"
    case ClearCmd => "clear"
    case PwdCmd => "pwd"
    case LsCmd => "ls"
    case CatCmd => "cat"
    case CdCmd => "cd"
    case ProjectsCmd => "projects"
    case JourneyCmd => "journey"
    case DeployCmd => "deploy"
    case AwsCmd => "aws"
    case RecommendationsCmd => "recommendations"
    case SudoCmd => "sudo"
    case RmCmd => "rm"
  }

  /** `commandHandlers[command]`, own entries only. */
  function Lookup(name: string): (r: Option<Command>)
    ensures r.Some? <==> name in CommandNames
    ensures r.Some? ==> Name(r.value) == name
  {
    match name
    case "whoami" => Some(WhoamiCmd)
    case "help" => Some(HelpCmd)
    case "clear" => Some(ClearCmd)
    case "pwd" => Some(PwdCmd)
    case "ls" => Some(LsCmd)
    case "cat" => Some(CatCmd)
    case "cd" => Some(CdCmd)
    case "projects" => Some(ProjectsCmd)
    case "journey" => Some(JourneyCmd)
    case "deploy" => Some(DeployCmd)
    case "aws" => Some(AwsCmd)
    case "recommendations" => Some(RecommendationsCmd)
    case "sudo" => Some(SudoCmd)
    case "rm" => Some(RmCmd)
    case _ => None
  }

  /** Every handler is found under its own name. */
  lemma LookupName(c: Command)
    ensures Lookup(Name(c)) == Some(c)
  {
  }

  /** Calls the handler; `clock` is the time of day the log lines print. */
  function Run(c: Command, args: seq<string>, flags: map<string, FlagValue>, cwd: string, clock: string): (r: seq<Output>)
  {
    match c
    case WhoamiCmd => WhoamiLines
    case HelpCmd => HelpLines
    case ClearCmd => []
    case PwdCmd => Pwd(cwd)
    case LsCmd => Ls(args, cwd)
    case RecommendationsCmd => LetterIndexLines
    case SudoCmd => Sudo(args)
    case RmCmd => Rm(args, flags)
    case AwsCmd => Aws(args, flags)
    case CatCmd => Cat(args, cwd, clock)
    case DeployCmd => Deploy(args)
    case ProjectsCmd => ProjectsListing()
    case JourneyCmd => JourneyListing()
    case CdCmd => Cd(args)
  }

  /** The commands a `cd` or `clear` never reaches: the fixed listings and the path-based handlers. */
  predicate ListingCommand(c: Command)
  {
    c.WhoamiCmd? || c.HelpCmd? || c.PwdCmd? || c.LsCmd? || c.RecommendationsCmd? || c.SudoCmd? || c.RmCmd?
  }

  /** Only `clear` and a successful `cd` print nothing. */
  lemma OnlyClearAndCdAreSilent(c: Command, args: seq<string>, flags: map<string, FlagValue>, cwd: string, clock: string)
    ensures Run(c, args, flags, cwd, clock) == [] <==>
      c == ClearCmd || (c == CdCmd && (|args| == 0 || args[0] in ["", "~"] + ValidDirs))
  {
    if c.ClearCmd? || c.CdCmd? {
      ClearAndCdRun(c, args, flags, cwd, clock);
    } else {
      OthersPrint(c, args, flags, cwd, clock);
    }
  }

  lemma ClearAndCdRun(c: Command, args: seq<string>, flags: map<string, FlagValue>, cwd: string, clock: string)
    requires c.ClearCmd? || c.CdCmd?
    ensures Run(c, args, flags, cwd, clock) == (if c.ClearCmd? then [] else Cd(args))
  {
  }

  lemma OthersPrint(c: Command, args: seq<string>, flags: map<string, FlagValue>, cwd: string, clock: string)
    requires !c.ClearCmd? && !c.CdCmd?
    ensures Run(c, args, flags, cwd, clock) != []
  {
    if ListingCommand(c) {
      ListingsPrint(c, args, flags, cwd, clock);
    } else {
      HandlersPrint(c, args, flags, cwd, clock);
    }
  }

  lemma ListingsPrint(c: Command, args: seq<string>, flags: map<string, FlagValue>, cwd: string, clock: string)
    requires ListingCommand(c)
    ensures |Run(c, args, flags, cwd, clock)| >= 1
  {
    match c
    case WhoamiCmd => assert |WhoamiLines| == 3;
    case HelpCmd => assert |HelpLines| == 12;
    case PwdCmd =>
    case LsCmd =>
    case RecommendationsCmd => assert |LetterIndexLines| == 7;
    case SudoCmd =>
    case RmCmd =>
  }

  lemma HandlersPrint(c: Command, args: seq<string>, flags: map<string, FlagValue>, cwd: string, clock: string)
    requires !ListingCommand(c) && !c.ClearCmd? && !c.CdCmd?
    ensures |Run(c, args, flags, cwd, clock)| >= 1
  {
    match c
    case CatCmd =>
    case ProjectsCmd =>
    case JourneyCmd =>
    case DeployCmd =>
    case AwsCmd =>
  }

  // ----- The two lines the corrected handlers answer -----

  lemma RmLineSplits()
    ensures Pieces("rm -rf /") == ["rm", "-rf", "/"]
  {
    var ws := ["rm", "-rf", "/"];
    assert Join(ws, " ") == "rm -rf /";
    assert forall i :: 0 <= i < 3 ==> ws[i] != [] && NoSpace(ws[i]);
    PiecesOfJoin(ws);
  }

  lemma RmLineParses(parts: seq<string>)
    requires parts == ["rm", "-rf", "/"]
    ensures ArgsUpTo(parts, 3) == ["/"]
    ensures FlagsUpTo(parts, 3) == map["rf" := Set]
  {
    DiffersAt("-rf", "--", 1);
    DiffersAt("/", "-", 0);
    assert StartsWith("-rf", "-");
    assert RoleAt(parts, 1) == ShortFlag;
    assert RoleAt(parts, 2) == Arg;
    assert ArgsUpTo(parts, 2) == [];
    assert "-rf"[1..] == "rf";
    assert FlagsUpTo(parts, 2) == map["rf" := Set];
  }

  /** `rm -rf /` parses with `rf` as a flag, and on that parse the corrected handler warns. */
  lemma RmRfSlash()
    ensures Parse("rm -rf /") == Parsed("rm", ["/"], map["rf" := Set])
    ensures Rm(Parse("rm -rf /").args, Parse("rm -rf /").flags) == ReadOnly
  {
    RmLineParsed("rm -rf /");
  }

  lemma RmLineParsed(line: string)
    requires line == "rm -rf /"
    ensures Parse(line) == Parsed("rm", ["/"], map["rf" := Set])
  {
    RmLineSplits();
    RmLineParses(Pieces(line));
  }

  /** The words of `aws iam create-role --name hire-lerdi`. */
  const AwsWords: seq<string> := ["aws", "iam", "create-role", "--name", "hire-lerdi"]

  lemma AwsLineSplits()
    ensures Pieces(Join(AwsWords, " ")) == AwsWords
  {
    AwsWordsHaveNoSpace(AwsWords);
    PiecesOfJoin(AwsWords);
  }

  lemma AwsWordsHaveNoSpace(ws: seq<string>)
    requires ws == ["aws", "iam", "create-role", "--name", "hire-lerdi"]
    ensures forall i :: 0 <= i < 5 ==> ws[i] != [] && NoSpace(ws[i])
  {
    assert NoSpace("aws") && NoSpace("iam");
    assert NoSpace("create-role");
    assert NoSpace("--name");
    assert NoSpace("hire-lerdi");
  }

  lemma AwsLineParses(parts: seq<string>)
    requires parts == ["aws", "iam", "create-role", "--name", "hire-lerdi"]
    ensures ArgsUpTo(parts, 5) == ["iam", "create-role"]
    ensures FlagsUpTo(parts, 5) == map["name" := Str("hire-lerdi")]
  {
    DiffersAt("iam", "-", 0);
    DiffersAt("create-role", "-", 0);
    DiffersAt("hire-lerdi", "-", 0);
    DiffersAt("iam", "--", 0);
    DiffersAt("create-role", "--", 0);
    assert StartsWith("--name", "--");
    assert RoleAt(parts, 1) == Arg;
    assert RoleAt(parts, 2) == Arg;
    assert RoleAt(parts, 3) == LongFlag;
    assert RoleAt(parts, 4) == Value;
    assert ArgsUpTo(parts, 2) == ["iam"];
    assert ArgsUpTo(parts, 3) == ["iam", "create-role"];
    assert ArgsUpTo(parts, 4) == ["iam", "create-role"];
    assert FlagsUpTo(parts, 2) == map[];
    assert FlagsUpTo(parts, 3) == map[];
    assert "--name"[2..] == "name";
    assert FlagsUpTo(parts, 4) == map["name" := Str("hire-lerdi")];
  }

  /** `aws iam create-role --name hire-lerdi` creates the role through the corrected handler only. */
  lemma AwsCreateRoleHireLerdi()
    ensures Parse(Join(AwsWords, " ")) == Parsed("aws", ["iam", "create-role"], map["name" := Str("hire-lerdi")])
    ensures AwsAsWritten(["iam", "create-role"]) == AwsUsage
    ensures Aws(["iam", "create-role"], map["name" := Str("hire-lerdi")]) == RoleCreated
  {
    AwsLineSplits();
    AwsLineParses(Pieces(Join(AwsWords, " ")));
    AwsAsWrittenOnCreateRole();
    AwsOnCreateRole();
  }

  /** As written, the parsed `aws` line falls back to `iam` as the role name and prints the usage. */
  lemma AwsAsWrittenOnCreateRole()
    ensures AwsAsWritten(["iam", "create-role"]) == AwsUsage
  {
    var args := ["iam", "create-role"];
    DiffersAt("iam", "-", 0);
    DiffersAt("create-role", "-", 0);
    NameFallsBackToFirstArg(args);
    assert RoleNameFromArgs(args) != Some("hire-lerdi");
    assert !IsSubcommand(args, "list-roles");
  }

  /** The corrected handler reads `hire-lerdi` from the flag and creates the role. */
  lemma AwsOnCreateRole()
    ensures Aws(["iam", "create-role"], map["name" := Str("hire-lerdi")]) == RoleCreated
  {
    var args, flags := ["iam", "create-role"], map["name" := Str("hire-lerdi")];
    assert RoleName(args, flags) == Some("hire-lerdi");
    assert IsSubcommand(args, "create-role");
    assert !IsSubcommand(args, "list-roles");
  }

}
