/**
 * The interactive terminal (src/components/MiniTerminal.tsx): its state,
 * what one submitted line does to it, and the arrow keys that walk the
 * command history.
 *
 * `Execute` is the effect of one `handleCommand` call on a `State`; the
 * class `MiniTerminal` holds the same state in fields and its methods are
 * proved to have exactly that effect. The component awaits short delays
 * between steps; here each command runs to completion before the next
 * event, so `isExecuting` is false whenever an event arrives.
 */
module TerminalSession {
  import opened Strings
  import opened TerminalUtils
  import opened Commands

  /** The component's state, without the busy flag. */
  datatype State = State(
    outputHistory: seq<Output>,
    currentInput: string,
    commandHistory: seq<string>,
    historyIndex: int,
    currentDirectory: string,
    selectedRecommendation: Option<string>)

  const WelcomeLines: seq<Output> := [
    CreateOutput("Welcome to Lerdi's Portfolio Terminal!", Info),
    CreateOutput("Type `help` to see available commands.", Info)]

  /** The state when the terminal is mounted. */
  const Initial: State := State(WelcomeLines, "", [], -1, "~", None)

  /** The history index is `-1` (not browsing) or a position in the history. */
  predicate IndexInRange(s: State)
  {
    -1 <= s.historyIndex < |s.commandHistory|
  }

  /** The directories the terminal can be in. */
  const KnownDirectories: seq<string> := ["~"] + ValidDirs

  /** The line echoed before a command's output. */
  function Echo(cwd: string, line: string): Output
  {
    CreateOutput("lerdi@portfolio:" + cwd + "$ " + line, Normal)
  }

  /** `addCommandToHistory`: a non-blank command is stored trimmed and browsing stops. */
  function Remember(s: State, command: string): (r: State)
    ensures Blank(command) ==> r == s
    ensures !Blank(command) ==> r.commandHistory == s.commandHistory + [Trim(command)] && r.historyIndex == -1
    ensures IndexInRange(r) || r == s
    ensures r.outputHistory == s.outputHistory && r.currentInput == s.currentInput
    ensures r.currentDirectory == s.currentDirectory && r.selectedRecommendation == s.selectedRecommendation
  {
    if Blank(command) then s
    else s.(commandHistory := s.commandHistory + [Trim(command)], historyIndex := -1)
  }

  /** `args[0] || '~'`. */
  function CdDirectory(args: seq<string>): string
  {
    if |args| > 0 && args[0] != "" then args[0] else "~"
  }

  /** The `cd` branch of `handleCommand`. */
  function ChangeDirectory(s: State, args: seq<string>): State
  {
    var dir := CdDirectory(args);
    if dir == "~" || dir == "" then s.(currentDirectory := "~")
    else if dir in ValidDirs then s.(currentDirectory := dir)
    else s.(outputHistory := s.outputHistory + [CreateOutput("cd: " + dir + ": No such file or directory", Error)])
  }

  /** `args[1]`, with `undefined` as the empty name. */
  function LetterName(args: seq<string>): string
  {
    if |args| > 1 then args[1] else ""
  }

  /** The `open letter` branch of `handleCommand`. */
  function OpenLetter(s: State, args: seq<string>): (r: State)
    ensures var name := LetterName(args);
      && (name in RecommendationMap ==>
            r.selectedRecommendation == Some(RecommendationMap[name])
            && r.outputHistory == s.outputHistory + [Output(Info, "Opening " + name + "...")])
      && (name !in RecommendationMap ==>
            r.selectedRecommendation == s.selectedRecommendation
            && r.outputHistory == s.outputHistory
                 + [Output(Error, "open letter: " + (if name != "" then name else "missing filename") + ": No such file")])
  {
    var fileName := LetterName(args);
    var recId := if fileName != "" then RecommendationId(fileName) else None;
    if recId.Some? then
      s.(selectedRecommendation := recId,
         outputHistory := s.outputHistory + [CreateOutput("Opening " + fileName + "...", Info)])
    else
      s.(outputHistory := s.outputHistory +
         [CreateOutput("open letter: " + (if fileName != "" then fileName else "missing filename") + ": No such file", Error)])
  }

  predicate IsOpenLetter(p: Parsed)
  {
    p.command == "open" && |p.args| > 0 && p.args[0] == "letter"
  }

  /** What `handleCommand` does once the line is echoed and parsed. */
  function Dispatch(s: State, p: Parsed, cwd: string, clock: string): State
  {
    if p.command == "clear" then s.(outputHistory := [])
    else if p.command == "cd" then ChangeDirectory(s, p.args)
    else if IsOpenLetter(p) then OpenLetter(s, p.args)
    else
      match Lookup(p.command)
      case Some(c) => s.(outputHistory := s.outputHistory + Run(c, p.args, p.flags, cwd, clock))
      case None => s.(outputHistory := s.outputHistory + [CreateOutput("command not found: " + p.command, Error)])
  }

  /** `handleCommand(input)`: the effect of one submitted line. */
  function Execute(s: State, input: string, clock: string): State
  {
    if Blank(input) then s
    else
      var line := Trim(input);
      var s1 := Remember(s, line);
      var s2 := s1.(outputHistory := s1.outputHistory + [Echo(s.currentDirectory, line)]);
      Dispatch(s2, Parse(line), s.currentDirectory, clock)
  }

  /** The state once a non-blank `line` is stored and echoed, before its command runs. */
  function Echoed(s: State, line: string): State
  {
    s.(commandHistory := s.commandHistory + [line], historyIndex := -1,
       outputHistory := s.outputHistory + [Echo(s.currentDirectory, line)])
  }

  /** No branch of `Dispatch` touches the history or the typed input, or leaves the known folders. */
  lemma DispatchKeepsHistory(s: State, p: Parsed, cwd: string, clock: string)
    ensures var r := Dispatch(s, p, cwd, clock);
      && r.commandHistory == s.commandHistory && r.historyIndex == s.historyIndex
      && r.currentInput == s.currentInput
      && (r.currentDirectory == s.currentDirectory || r.currentDirectory in KnownDirectories)
  {
  }

  /** `clear` empties the log; every other branch only appends to it. */
  lemma DispatchKeepsLog(s: State, p: Parsed, cwd: string, clock: string)
    ensures var r := Dispatch(s, p, cwd, clock);
      && (p.command == "clear" ==> r.outputHistory == [])
      && (p.command != "clear" ==>
            |s.outputHistory| <= |r.outputHistory| && r.outputHistory[..|s.outputHistory|] == s.outputHistory)
  {
  }

  /** A command of the table other than `clear`, `cd` and `open letter` appends its handler's lines and moves nothing. */
  lemma DispatchRunsHandler(s: State, p: Parsed, cwd: string, clock: string, c: Command)
    requires p.command != "clear" && p.command != "cd" && !IsOpenLetter(p) && Lookup(p.command) == Some(c)
    ensures var r := Dispatch(s, p, cwd, clock);
      && r.outputHistory == s.outputHistory + Run(c, p.args, p.flags, cwd, clock)
      && r.currentDirectory == s.currentDirectory
      && r.selectedRecommendation == s.selectedRecommendation
  {
  }

  /** A name outside the table (and not `open letter`) appends exactly one error naming it. */
  lemma DispatchUnknown(s: State, p: Parsed, cwd: string, clock: string)
    requires p.command !in CommandNames && !IsOpenLetter(p)
    ensures Dispatch(s, p, cwd, clock).outputHistory
      == s.outputHistory + [Output(Error, "command not found: " + p.command)]
  {
  }

  // ----- What one line does -----

  /** A non-blank line is stored and echoed trimmed, then its command runs in the directory from before. */
  lemma ExecuteSteps(s: State, input: string, clock: string)
    requires !Blank(input)
    ensures Execute(s, input, clock)
      == Dispatch(Echoed(s, Trim(input)), Parse(Trim(input)), s.currentDirectory, clock)
  {
    var line := Trim(input);
    assert Remember(s, line).(outputHistory := s.outputHistory + [Echo(s.currentDirectory, line)]) == Echoed(s, line) by {
      TrimmedLine(input);
    }
  }

  /** A blank line changes nothing. */
  lemma ExecuteBlank(s: State, input: string, clock: string)
    requires Blank(input)
    ensures Execute(s, input, clock) == s
  {
  }

  /** A non-blank line is stored trimmed, stops history browsing, and leaves the typed input alone. */
  lemma ExecuteRemembers(s: State, input: string, clock: string)
    requires !Blank(input)
    ensures var r := Execute(s, input, clock);
      && r.commandHistory == s.commandHistory + [Trim(input)]
      && r.historyIndex == -1
      && r.currentInput == s.currentInput
  {
    ExecuteSteps(s, input, clock);
    DispatchKeepsHistory(Echoed(s, Trim(input)), Parse(Trim(input)), s.currentDirectory, clock);
  }

  /** Every command but `clear` keeps what was shown and shows the prompt line first. */
  lemma ExecuteEchoes(s: State, input: string, clock: string)
    requires !Blank(input) && Parse(Trim(input)).command != "clear"
    ensures var shown := s.outputHistory + [Echo(s.currentDirectory, Trim(input))];
      var out := Execute(s, input, clock).outputHistory;
      |shown| <= |out| && out[..|shown|] == shown
  {
    ExecuteSteps(s, input, clock);
    DispatchKeepsLog(Echoed(s, Trim(input)), Parse(Trim(input)), s.currentDirectory, clock);
  }

  /** `clear` empties the screen, the prompt line included. */
  lemma ExecuteClear(s: State, input: string, clock: string)
    requires !Blank(input) && Parse(Trim(input)).command == "clear"
    ensures Execute(s, input, clock).outputHistory == []
    ensures Execute(s, input, clock).currentDirectory == s.currentDirectory
  {
    ExecuteSteps(s, input, clock);
  }

  /**
   * `cd` prints what the table's `cd` handler prints, and moves to the named
   * folder, to `~` when none is named, or nowhere when the folder is unknown.
   */
  lemma ExecuteCd(s: State, input: string, clock: string)
    requires !Blank(input) && Parse(Trim(input)).command == "cd"
    ensures var args := Parse(Trim(input)).args; var r := Execute(s, input, clock);
      && r.outputHistory == s.outputHistory + [Echo(s.currentDirectory, Trim(input))] + Cd(args)
      && r.currentDirectory == (if CdDirectory(args) == "~" then "~"
                                else if CdDirectory(args) in ValidDirs then CdDirectory(args)
                                else s.currentDirectory)
  {
    var line := Trim(input);
    var e := Echoed(s, line);
    ExecuteSteps(s, input, clock);
    assert Execute(s, input, clock) == ChangeDirectory(e, Parse(line).args);
    CdBranch(e, Parse(line).args);
  }

  /** The `cd` branch prints what the table's `cd` handler prints. */
  lemma CdBranch(e: State, args: seq<string>)
    ensures var r := ChangeDirectory(e, args);
      && r.outputHistory == e.outputHistory + Cd(args)
      && r.currentDirectory == (if CdDirectory(args) == "~" then "~"
                                else if CdDirectory(args) in ValidDirs then CdDirectory(args)
                                else e.currentDirectory)
  {
    if |args| > 0 && args[0] == "" {
      assert CdDirectory(args) == "~";
    }
  }

  /** The terminal is never in a folder other than `~` and the three known ones. */
  lemma ExecuteKeepsDirectoryKnown(s: State, input: string, clock: string)
    requires s.currentDirectory in KnownDirectories
    ensures Execute(s, input, clock).currentDirectory in KnownDirectories
  {
    if !Blank(input) {
      ExecuteSteps(s, input, clock);
      DispatchKeepsHistory(Echoed(s, Trim(input)), Parse(Trim(input)), s.currentDirectory, clock);
    }
  }

  /** `open letter <file>` selects the letter of a known file and says so; any other name is refused. */
  lemma ExecuteOpenLetter(s: State, input: string, clock: string)
    requires !Blank(input) && IsOpenLetter(Parse(Trim(input)))
    ensures var name := LetterName(Parse(Trim(input)).args); var r := Execute(s, input, clock);
      var logged := s.outputHistory + [Echo(s.currentDirectory, Trim(input))];
      && r.currentDirectory == s.currentDirectory
      && (name in RecommendationMap ==>
            r.selectedRecommendation == Some(RecommendationMap[name])
            && r.outputHistory == logged + [Output(Info, "Opening " + name + "...")])
      && (name !in RecommendationMap ==>
            r.selectedRecommendation == s.selectedRecommendation
            && r.outputHistory == logged
                 + [Output(Error, "open letter: " + (if name != "" then name else "missing filename") + ": No such file")])
  {
    var line := Trim(input);
    ExecuteSteps(s, input, clock);
    assert Execute(s, input, clock) == OpenLetter(Echoed(s, line), Parse(line).args);
  }

  /** Any other known command appends its handler's output, in order, after the prompt line. */
  lemma ExecuteRunsHandler(s: State, input: string, clock: string, c: Command)
    requires !Blank(input)
    requires var p := Parse(Trim(input)); p.command != "clear" && p.command != "cd" && !IsOpenLetter(p)
    requires Lookup(Parse(Trim(input)).command) == Some(c)
    ensures var p := Parse(Trim(input)); var r := Execute(s, input, clock);
      && r.outputHistory == s.outputHistory + [Echo(s.currentDirectory, Trim(input))]
                            + Run(c, p.args, p.flags, s.currentDirectory, clock)
      && r.currentDirectory == s.currentDirectory
      && r.selectedRecommendation == s.selectedRecommendation
  {
    ExecuteSteps(s, input, clock);
    DispatchRunsHandler(Echoed(s, Trim(input)), Parse(Trim(input)), s.currentDirectory, clock, c);
  }

  /** A name outside the table (and not `open letter`) prints one error naming it. */
  lemma ExecuteUnknownCommand(s: State, input: string, clock: string)
    requires !Blank(input)
    requires var p := Parse(Trim(input)); p.command !in CommandNames && !IsOpenLetter(p)
    ensures var p := Parse(Trim(input));
      Execute(s, input, clock).outputHistory
        == s.outputHistory + [Echo(s.currentDirectory, Trim(input))] + [Output(Error, "command not found: " + p.command)]
  {
    var line := Trim(input);
    ExecuteSteps(s, input, clock);
    DispatchUnknown(Echoed(s, line), Parse(line), s.currentDirectory, clock);
  }

  /** Every line keeps the history index in range. */
  lemma ExecuteKeepsIndexInRange(s: State, input: string, clock: string)
    requires IndexInRange(s)
    ensures IndexInRange(Execute(s, input, clock))
  {
    if !Blank(input) {
      ExecuteSteps(s, input, clock);
      DispatchKeepsHistory(Echoed(s, Trim(input)), Parse(Trim(input)), s.currentDirectory, clock);
    }
  }

  /** The terminal mounts at `~` with the two welcome lines and an empty history. */
  lemma InitialState()
    ensures Initial.currentDirectory in KnownDirectories && IndexInRange(Initial)
    ensures |Initial.outputHistory| == 2 && Initial.commandHistory == []
  {
  }

  // ----- Arrow keys -----

  datatype Key = ArrowUp | ArrowDown | OtherKey

  /** `handleKeyDown`: Up walks back through the history, Down forward and off its end. */
  function KeyDown(s: State, key: Key): (r: State)
    requires IndexInRange(s)
    ensures IndexInRange(r)
    ensures r.commandHistory == s.commandHistory && r.outputHistory == s.outputHistory
    ensures r != s && r.historyIndex >= 0 ==> r.currentInput == s.commandHistory[r.historyIndex]
    ensures r != s && r.historyIndex == -1 ==> r.currentInput == ""
  {
    match key
    case ArrowUp =>
      if |s.commandHistory| > 0 then
        var newIndex := if s.historyIndex == -1 then |s.commandHistory| - 1
                        else if s.historyIndex - 1 > 0 then s.historyIndex - 1 else 0;
        s.(historyIndex := newIndex, currentInput := s.commandHistory[newIndex])
      else s
    case ArrowDown =>
      if s.historyIndex >= 0 then
        var newIndex := s.historyIndex + 1;
        if newIndex >= |s.commandHistory| then s.(historyIndex := -1, currentInput := "")
        else s.(historyIndex := newIndex, currentInput := s.commandHistory[newIndex])
      else s
    case OtherKey => s
  }

  /**
   * Up does nothing on an empty history; from the prompt it recalls the latest
   * command; otherwise it moves one entry back, stopping at the oldest.
   */
  lemma ArrowUpRecalls(s: State)
    requires IndexInRange(s)
    ensures |s.commandHistory| == 0 ==> KeyDown(s, ArrowUp) == s
    ensures |s.commandHistory| > 0 && s.historyIndex == -1 ==>
      var r := KeyDown(s, ArrowUp);
      r.historyIndex == |s.commandHistory| - 1 && r.currentInput == s.commandHistory[|s.commandHistory| - 1]
    ensures |s.commandHistory| > 0 && s.historyIndex >= 0 ==>
      var r := KeyDown(s, ArrowUp);
      var i := if s.historyIndex == 0 then 0 else s.historyIndex - 1;
      r.historyIndex == i && r.currentInput == s.commandHistory[i]
  {
  }

  /**
   * Down does nothing at the prompt; it moves one entry forward inside the
   * history, and from the latest command it returns to an empty prompt, so Up
   * then Down from the prompt ends at the empty prompt again.
   */
  lemma ArrowDownLeavesHistory(s: State)
    requires IndexInRange(s)
    ensures s.historyIndex == -1 ==> KeyDown(s, ArrowDown) == s
    ensures 0 <= s.historyIndex < |s.commandHistory| - 1 ==>
      var r := KeyDown(s, ArrowDown);
      r.historyIndex == s.historyIndex + 1 && r.currentInput == s.commandHistory[s.historyIndex + 1]
    ensures 0 <= s.historyIndex == |s.commandHistory| - 1 ==>
      KeyDown(s, ArrowDown).historyIndex == -1 && KeyDown(s, ArrowDown).currentInput == ""
    ensures |s.commandHistory| > 0 && s.historyIndex == -1 ==>
      KeyDown(KeyDown(s, ArrowUp), ArrowDown).historyIndex == -1
      && KeyDown(KeyDown(s, ArrowUp), ArrowDown).currentInput == ""
  {
  }

  // ----- The component -----

  class MiniTerminal {
    var outputHistory: seq<Output>
    var currentInput: string
    var commandHistory: seq<string>
    var historyIndex: int
    var currentDirectory: string
    var isExecuting: bool
    var selectedRecommendation: Option<string>

    function Snapshot(): State
      reads this
    {
      State(outputHistory, currentInput, commandHistory, historyIndex, currentDirectory, selectedRecommendation)
    }

    predicate Valid()
      reads this
    {
      IndexInRange(Snapshot()) && currentDirectory in KnownDirectories
    }

    constructor()
      ensures Snapshot() == Initial && !isExecuting && Valid()
    {
      outputHistory := WelcomeLines;
      currentInput := "";
      commandHistory := [];
      historyIndex := -1;
      currentDirectory := "~";
      isExecuting := false;
      selectedRecommendation := None;
    }

    /** `addOutput`: appends the lines. */
    method AddOutput(outputs: seq<Output>)
      modifies this
      ensures Snapshot() == old(Snapshot()).(outputHistory := old(outputHistory) + outputs)
      ensures isExecuting == old(isExecuting)
    {
      outputHistory := outputHistory + outputs;
    }

    /** The delayed loop: appends the lines one at a time. */
    method AddEach(outputs: seq<Output>)
      modifies this
      ensures Snapshot() == old(Snapshot()).(outputHistory := old(outputHistory) + outputs)
      ensures isExecuting == old(isExecuting)
    {
      for i := 0 to |outputs|
        invariant Snapshot() == old(Snapshot()).(outputHistory := old(outputHistory) + outputs[..i])
        invariant isExecuting == old(isExecuting)
      {
        AddOutput([outputs[i]]);
        assert outputs[..i + 1] == outputs[..i] + [outputs[i]];
      }
      assert outputs[..|outputs|] == outputs;
    }

    /** `addCommandToHistory`. */
    method AddCommandToHistory(command: string)
      modifies this
      ensures Snapshot() == Remember(old(Snapshot()), command)
      ensures isExecuting == old(isExecuting)
    {
      if !Blank(command) {
        commandHistory := commandHistory + [Trim(command)];
        historyIndex := -1;
      }
    }

    /** `handleCommand`. */
    method HandleCommand(input: string, clock: string)
      modifies this
      ensures Snapshot() == Execute(old(Snapshot()), input, clock)
      ensures isExecuting == (old(isExecuting) && Blank(input))
      ensures old(Valid()) ==> Valid()
    {
      ghost var s0 := Snapshot();
      ghost var wasValid := Valid();
      if Blank(input) {
        return;
      }
      // The directory the callback closed over: the one current when the line was submitted.
      var cwd := currentDirectory;
      var trimmedInput := Trim(input);
      AddCommandToHistory(trimmedInput);
      assert Snapshot() == s0.(commandHistory := s0.commandHistory + [trimmedInput], historyIndex := -1) by {
        TrimmedLine(input);
      }
      outputHistory := outputHistory + [Echo(cwd, trimmedInput)];
      assert Snapshot() == Echoed(s0, trimmedInput);
      isExecuting := true;
      var command, args, flags := ParseCommand(trimmedInput);
      DispatchParsed(command, args, flags, cwd, clock);
      isExecuting := false;
      ExecuteSteps(s0, input, clock);
      if wasValid {
        ExecuteKeepsIndexInRange(s0, input, clock);
        ExecuteKeepsDirectoryKnown(s0, input, clock);
      }
    }

    /** The branches of `handleCommand` after the line is echoed and parsed. */
    method DispatchParsed(command: string, args: seq<string>, flags: map<string, FlagValue>, cwd: string, clock: string)
      modifies this
      ensures Snapshot() == Dispatch(old(Snapshot()), Parsed(command, args, flags), cwd, clock)
      ensures isExecuting == old(isExecuting)
    {
      if command == "clear" {
        outputHistory := [];
      } else if command == "cd" {
        ChangeDirectoryTo(args);
      } else if command == "open" && |args| > 0 && args[0] == "letter" {
        OpenLetterNamed(args);
      } else {
        RunHandler(command, args, flags, cwd, clock);
      }
    }

    /** The `cd` branch. */
    method ChangeDirectoryTo(args: seq<string>)
      modifies this
      ensures Snapshot() == ChangeDirectory(old(Snapshot()), args)
      ensures isExecuting == old(isExecuting)
    {
      var dir := if |args| > 0 && args[0] != "" then args[0] else "~";
      if dir == "~" || dir == "" {
        currentDirectory := "~";
        return;
      }
      if dir in ValidDirs {
        currentDirectory := dir;
        return;
      }
      AddOutput([CreateOutput("cd: " + dir + ": No such file or directory", Error)]);
    }

    /** The `open letter` branch. */
    method OpenLetterNamed(args: seq<string>)
      modifies this
      ensures Snapshot() == OpenLetter(old(Snapshot()), args)
      ensures isExecuting == old(isExecuting)
    {
      var fileName := if |args| > 1 then args[1] else "";
      if fileName != "" {
        var recId := RecommendationId(fileName);
        if recId.Some? {
          selectedRecommendation := recId;
          AddOutput([CreateOutput("Opening " + fileName + "...", Info)]);
          return;
        }
      }
      AddOutput([CreateOutput("open letter: " + (if fileName != "" then fileName else "missing filename") + ": No such file", Error)]);
    }

    /** `deploy` and the other commands of the table, or the unknown-command error. */
    method RunHandler(command: string, args: seq<string>, flags: map<string, FlagValue>, cwd: string, clock: string)
      requires command != "clear" && command != "cd" && !(command == "open" && |args| > 0 && args[0] == "letter")
      modifies this
      ensures Snapshot() == Dispatch(old(Snapshot()), Parsed(command, args, flags), cwd, clock)
      ensures isExecuting == old(isExecuting)
    {
      ghost var p := Parsed(command, args, flags);
      if command == "deploy" {
        LookupName(DeployCmd);
        RunDeploy(args, flags, cwd, clock);
        DispatchRunsHandler(old(Snapshot()), p, cwd, clock, DeployCmd);
        return;
      }
      var handler := Lookup(command);
      if handler.Some? {
        RunOther(handler.value, args, flags, cwd, clock);
        DispatchRunsHandler(old(Snapshot()), p, cwd, clock, handler.value);
      } else {
        AddOutput([CreateOutput("command not found: " + command, Error)]);
        assert Dispatch(old(Snapshot()), p, cwd, clock)
          == old(Snapshot()).(outputHistory := old(outputHistory) + [CreateOutput("command not found: " + command, Error)]);
      }
    }

    /** The `deploy` branch: each line is added after its own delay. */
    method RunDeploy(args: seq<string>, flags: map<string, FlagValue>, cwd: string, clock: string)
      modifies this
      ensures Snapshot() == old(Snapshot()).(outputHistory := old(outputHistory) + Run(DeployCmd, args, flags, cwd, clock))
      ensures isExecuting == old(isExecuting)
    {
      var outputs := Run(DeployCmd, args, flags, cwd, clock);
      AddEach(outputs);
    }

    /** Any other handler: more than three lines are added one at a time, fewer all at once. */
    method RunOther(c: Command, args: seq<string>, flags: map<string, FlagValue>, cwd: string, clock: string)
      modifies this
      ensures Snapshot() == old(Snapshot()).(outputHistory := old(outputHistory) + Run(c, args, flags, cwd, clock))
      ensures isExecuting == old(isExecuting)
    {
      var outputs := Run(c, args, flags, cwd, clock);
      if |outputs| > 3 {
        AddEach(outputs);
      } else {
        AddOutput(outputs);
      }
    }

    /** `handleSubmit`: runs the typed line unless it is blank or a command is still running. */
    method HandleSubmit(clock: string)
      modifies this
      ensures Blank(old(currentInput)) || old(isExecuting) ==>
        Snapshot() == old(Snapshot()) && isExecuting == old(isExecuting)
      ensures !Blank(old(currentInput)) && !old(isExecuting) ==>
        Snapshot() == Execute(old(Snapshot()).(currentInput := ""), old(currentInput), clock) && !isExecuting
      ensures old(Valid()) ==> Valid()
    {
      if Blank(currentInput) || isExecuting {
        return;
      }
      var input := currentInput;
      currentInput := "";
      assert Snapshot() == old(Snapshot()).(currentInput := "");
      assert old(Valid()) ==> Valid();
      HandleCommand(input, clock);
    }

    /** `handleKeyDown`. */
    method HandleKeyDown(key: Key)
      requires Valid()
      modifies this
      ensures Snapshot() == KeyDown(old(Snapshot()), key) && Valid()
      ensures isExecuting == old(isExecuting)
    {
      if key == ArrowUp {
        if |commandHistory| > 0 {
          var newIndex := if historyIndex == -1 then |commandHistory| - 1
                          else if historyIndex - 1 > 0 then historyIndex - 1 else 0;
          historyIndex := newIndex;
          currentInput := commandHistory[newIndex];
        }
      } else if key == ArrowDown {
        if historyIndex >= 0 {
          var newIndex := historyIndex + 1;
          if newIndex >= |commandHistory| {
            historyIndex := -1;
            currentInput := "";
          } else {
            historyIndex := newIndex;
            currentInput := commandHistory[newIndex];
          }
        }
      }
    }
  }
}
