# Portfolio site core, modelled in Dafny

This project models the parts of a personal portfolio site (Next.js/React)
whose behaviour can be stated and checked:

- **The in-browser terminal.** The line tokeniser `parseCommand`, the command table
  `commandHandlers` with its handlers (`ls`, `cat`, `cd`, `pwd`, `projects`,
  `journey`, `deploy`, `aws`, `sudo`, `rm`, …), and the `MiniTerminal` session.
  The session keeps an output log, a command history with an up/down cursor, the
  current directory and the letter selected by `open letter`.
- **The letter highlighter** `formatTextWithBold`, which cuts a paragraph around
  case-insensitive phrase matches and bolds them. Also the split of a letter body
  into lines.
- **The contact form** (`validateForm`, `handleChange`, `handleSubmit`) and the
  contact endpoint (`POST` and `OPTIONS`). They share one e-mail pattern.
- **The recommendation-letter stop filter.**
- **The journey stage card:** status, icon, label and technology preview.
- **The light/dark theme switch.**

Each source file is one module; data tables are transcribed as constants.

| file | module | source |
|---|---|---|
| strings.dfy | `Strings` | JavaScript string built-ins the core relies on: `trim`, `split`, `toLowerCase`, `padEnd`, `replace`, `parseInt`, number-to-string |
| terminal_utils.dfy | `TerminalUtils` | src/lib/terminalUtils.ts |
| journey_data.dfy | `JourneyData` | src/data/journeyData.ts |
| letters.dfy | `Letters` | src/data/recommendationsData.ts |
| commands.dfy | `Commands` | src/data/terminalCommands.ts |
| mini_terminal.dfy | `TerminalSession` | src/components/MiniTerminal.tsx |
| bold_text.dfy | `BoldText` | src/components/RecommendationModal.tsx |
| email.dfy | `EmailFormat` | the e-mail pattern of src/components/ContactSection.tsx and src/app/api/contact/route.ts |
| contact_api.dfy | `ContactApi` | src/app/api/contact/route.ts |
| contact_form.dfy | `ContactForm` | src/components/ContactSection.tsx |
| journey_stop.dfy | `StageCard` | src/components/JourneyStop.tsx |
| theme_toggle.dfy | `ThemeSwitch` | src/components/ThemeToggle.tsx |

Code that updates state step by step is modelled imperatively, with the state first described as a value:
- **The terminal session.** `TerminalSession.State` is the state as a value; `Execute` and `KeyDown` give its transitions. The class `MiniTerminal` has the same fields, and its methods are proved to perform those transitions. The session runs the corrected handlers from the Findings, as listed under Left out.
- **The contact form and the theme switch** follow the same pattern: `ContactForm.Form` with the class `ContactSection`, and `ThemeSwitch.Page` with the class `ThemeToggle`.
- **The loops.** The tokeniser loop, the pushes of `projects` and `journey`, and the three nested loops of `formatTextWithBold` are methods with loop invariants. Each is proved equal to a function, and that function's properties are proved as lemmas.

## Model

| member | source | states |
|---|---|---|
| TerminalUtils.CreateOutput | src/lib/terminalUtils.ts:9-18 | the content is kept as given and the line has the requested type |
| TerminalUtils.CreateOutputDefaultsToNormal | src/lib/terminalUtils.ts:11 | without a type argument the line is `normal` |
| TerminalUtils.FormatLogMessage | src/lib/terminalUtils.ts:51-54 | the line is `[<timestamp>] [<LEVEL>] ` followed by the message, with the level's upper-case name |
| TerminalUtils.FormatLogMessageInjective | src/lib/terminalUtils.ts:51-54 | for a fixed timestamp, the level and the message can be read back from the line |
| TerminalUtils.Pieces | src/lib/terminalUtils.ts:25-26 | the split of the trimmed line has at least one piece, and its first piece is `''` exactly when the line is blank |
| TerminalUtils.ParseCommand | src/lib/terminalUtils.ts:20-49 | the index loop (with its skip of a flag value) returns exactly the command, arguments and flags of the piece-by-piece definition `Parse`; each flag write is a plain-object assignment, which stores nothing under `__proto__` |
| TerminalUtils.StepOver | src/lib/terminalUtils.ts:41-45 | one loop step over an argument, a lone `--name` or a `-x` adds the piece to `args` or writes the flag (a no-op under `__proto__`), and nothing else |
| TerminalUtils.SkipValue | src/lib/terminalUtils.ts:32-37 | the step over `--name v` performs `flags[name] = v` (a no-op when `name` is `__proto__`) and skips `v` without adding it to `args` |
| TerminalUtils.DoubleDashIsDash | src/lib/terminalUtils.ts:32-41 | a `--` piece also starts with `-`, so the `--` test must come first |
| TerminalUtils.CommandIsFirstWord | src/lib/terminalUtils.ts:25-26 | the command is the first whitespace-separated word of the trimmed line, and `''` for a blank line |
| TerminalUtils.ArgsComeFromArgPieces | src/lib/terminalUtils.ts:43-44 | every argument is a non-empty piece not starting with `-`, taken from an argument position; there are at most n-1 of them |
| TerminalUtils.ArgPiecesInOrder | src/lib/terminalUtils.ts:43-44 | argument pieces land in `args` in their original order, at the position given by the count of earlier argument pieces |
| TerminalUtils.PlainPieceIsArg | src/lib/terminalUtils.ts:43-44 | a piece not starting with `-` that is not a flag's value is an argument |
| TerminalUtils.ValueIsNotArg | src/lib/terminalUtils.ts:35-37 | the value of `--name v` never appears among the arguments |
| TerminalUtils.FlagKeys | src/lib/terminalUtils.ts:33-42 | the flag dictionary holds exactly the names some flag piece writes, other than `__proto__` |
| TerminalUtils.ProtoFlagNeverStored | src/lib/terminalUtils.ts:36-42 | whatever the line, the dictionary has no `__proto__` entry: that assignment reaches the inherited setter, which ignores strings and `true` |
| TerminalUtils.LastWriteWins | src/lib/terminalUtils.ts:36-42 | a repeated flag other than `__proto__` keeps the value of its last occurrence |
| TerminalUtils.LongFlagWithValue | src/lib/terminalUtils.ts:35-37 | `--name v` with `v` not starting with `-` sets `flags[name] = v`, and `v` is taken as the value |
| TerminalUtils.LongFlagAlone | src/lib/terminalUtils.ts:38-40 | `--name` that is last, or is followed by a `-` piece, sets `flags[name] = true` |
| TerminalUtils.ShortFlagStripsOneDash | src/lib/terminalUtils.ts:41-42 | `-x` sets `flags[x] = true` with exactly one dash stripped |
| TerminalUtils.PiecesUsedOnce | src/lib/terminalUtils.ts:30-46 | arguments plus distinct flag names never outnumber the pieces after the command: each piece is used once |
| TerminalUtils.ParsedArgsHaveNoDash | src/lib/terminalUtils.ts:41-45 | no parsed argument starts with `-`, and the arguments and flag names together number at most the pieces after the command |
| TerminalUtils.PiecesOfJoin | src/lib/terminalUtils.ts:25 | words without whitespace, joined by single spaces, split back into the same words |
| Strings.TrimEnds | src/lib/terminalUtils.ts:25 | `trim()` leaves no whitespace at either end |
| Strings.TrimBlank | src/lib/terminalUtils.ts:25 | `trim()` gives `''` exactly for a blank string |
| Strings.TrimStartDrops | src/lib/terminalUtils.ts:25 | what `trim()` drops at the front is whitespace only |
| Strings.TrimEndDrops | src/lib/terminalUtils.ts:25 | what `trim()` drops at the back is whitespace only |
| Strings.TrimIdempotent | src/components/MiniTerminal.tsx:49-52 | trimming an already trimmed line changes nothing, so `parseCommand` sees the line the session stores |
| Strings.Words | src/lib/terminalUtils.ts:25 | `split(/\s+/)`: non-empty words without whitespace, and none exactly for a blank string |
| Strings.WordsOfJoin | src/lib/terminalUtils.ts:25 | words joined by single spaces split back into the same words |
| Strings.SplitOn | src/components/RecommendationModal.tsx:237 | `split(c)` gives at least one piece, and no piece contains `c` |
| Strings.JoinSplitOn | src/components/RecommendationModal.tsx:237 | joining the pieces of `split(c)` with `c` gives back the string |
| Strings.SplitOnLength | src/components/RecommendationModal.tsx:237 | `split(c)` gives one more piece than there are occurrences of `c` |
| Strings.LastPieceIsSuffix | src/data/terminalCommands.ts:82-83 | the last piece of `split('/')` is a suffix of the path |
| Strings.Lower | src/data/terminalCommands.ts:171-174 | `toLowerCase()` keeps the length and lower-cases each character on its own |
| Strings.SameIgnoringCaseIsLowerEq | src/components/RecommendationModal.tsx:57 | case-insensitive equality is equality after lower-casing |
| Strings.PadEnd | src/data/terminalCommands.ts:164 | `padEnd(n)` keeps the string as a prefix, has length max(n, length), and adds only spaces |
| Strings.ReplaceAll | src/app/api/contact/route.ts:49 | `replace(/c/g, s)` grows the string by one less than the replacement's length for each occurrence of `c` |
| Strings.ReplaceAllIsSplitJoin | src/app/api/contact/route.ts:49 | replacing every `c` by `s` is splitting at `c` and joining with `s`: each `c` becomes `s` and everything else is kept in order |
| Strings.NatToString | src/components/JourneyStop.tsx:109 | a number prints as a non-empty string of decimal digits |
| Strings.DigitRun | src/app/api/contact/route.ts:74 | the digits `parseInt` reads: a leading run of digits of the base, ended by a non-digit or the end of the string |
| Strings.ParsePortNumber | src/app/api/contact/route.ts:74 | `parseInt` reads a number written in decimal back as that number |
| JourneyData.FindStop | src/data/terminalCommands.ts:140 | `find` returns a stop with the id when there is one and `undefined` exactly when there is none |
| JourneyData.ProjectList | src/data/terminalCommands.ts:140-141 | the `projects` stop lists the three projects Appointly, TeamDashboardWeb and KosovARi |
| JourneyData.SixStops | src/data/journeyData.ts:29-144 | the timeline has six stops |
| Letters.LettersForStop | src/data/recommendationsData.ts:113-117 | the filter returns exactly the letters linked to the stop by `relatedStopId` or `relatedStopIds`, as a subsequence in table order |
| Letters.RecommendationsForStop | src/data/recommendationsData.ts:112-118 | `getRecommendationsForStop` returns exactly the linked letters, in table order |
| Letters.StopsOfTheLetters | src/data/recommendationsData.ts:48-107 | `netherlands` gives letters 2 and 3, `prishtina` gives letter 1, any other id gives none |
| Letters.LetterIdsDistinct | src/data/recommendationsData.ts:17-81 | the three letter ids are pairwise distinct |
| Letters.FindLetter | src/data/terminalCommands.ts:108 | the lookup by id returns a letter with that id, or nothing exactly when none has it |
| Commands.RecommendationIdAsWritten | src/data/terminalCommands.ts:253-255 | as written, the lookup returns an own entry for the three file names and also answers for inherited property names |
| Commands.RecommendationId | src/data/terminalCommands.ts:253-255 | corrected: a letter id exactly for the three file names, and each id names an existing letter |
| Commands.RecommendationIdTable | src/data/terminalCommands.ts:15-19 | the three `.txt` names map to recommendation-1/2/3, and every other string maps to nothing |
| Commands.InheritedNameFoundAsWritten | src/data/terminalCommands.ts:254 | as written, `constructor` yields the inherited member; corrected, it yields nothing |
| Commands.Pwd | src/data/terminalCommands.ts:45 | one line with the current directory, or `~` when it is empty |
| Commands.LsAsWritten | src/data/terminalCommands.ts:47-74 | as written, `ls` always prints at least one line |
| Commands.LsAsWrittenAgrees | src/data/terminalCommands.ts:47-74 | as written, `ls` takes the corrected handler's branches (skills, then projects, journey, recommendations by path or current directory, then the error) everywhere except at home with no path or `~`, where it prints the `cannot access` error for that path |
| Commands.Ls | src/data/terminalCommands.ts:47-74 | corrected, `ls` at home with no path lists the skills |
| Commands.LsFirstMatchWins | src/data/terminalCommands.ts:57-71 | the branches are checked in the order projects, journey, recommendations; the first whose name equals the path or the current directory wins |
| Commands.LsNoMatchIsError | src/data/terminalCommands.ts:73 | when no branch matches, `ls` prints the single `cannot access` error naming the path |
| Commands.LsJourneyFromProjects | src/data/terminalCommands.ts:57-63 | in `projects`, `ls journey` lists the projects |
| Commands.BareLsAtHome | src/data/terminalCommands.ts:48-73 | as written, a bare `ls` at `~` prints `cannot access '~'`; corrected, it lists the skills |
| Commands.Basename | src/data/terminalCommands.ts:82-83 | the file name is a suffix of the path and contains no `/` |
| Commands.Cat | src/data/terminalCommands.ts:76-122 | `cat` prints at least one line, and exactly `missing file operand` when given no arguments |
| Commands.CatSummary | src/data/terminalCommands.ts:85-92 | a file name of `summary.txt` under any path gives the two fixed lines |
| Commands.CatLetter | src/data/terminalCommands.ts:104-119 | a `.txt` name in the letters folder gives four lines ending in the `open letter <file>` hint when the name is known, otherwise one error naming the file |
| Commands.TxtIsNotTheLog | src/data/terminalCommands.ts:95-105 | a `.txt` file name never reaches the log branch |
| Commands.Cd | src/data/terminalCommands.ts:124-137 | nothing is printed exactly for no argument, `~`, `''` or one of the three folders |
| Commands.ProjectLines | src/data/terminalCommands.ts:146-152 | three lines per project |
| Commands.ProjectLinesAt | src/data/terminalCommands.ts:147-150 | project k's title, description and `  Tech: ` line (technologies joined with `, `) are lines 3k, 3k+1 and 3k+2 |
| Commands.ProjectsListing | src/data/terminalCommands.ts:139-155 | `projects` prints at least one line |
| Commands.Projects | src/data/terminalCommands.ts:139-155 | the `forEach` that pushes into `outputs` returns exactly the listing |
| Commands.PushProjectLines | src/data/terminalCommands.ts:145-152 | the pushes produce exactly three lines per project, in list order |
| Commands.ProjectsListingShape | src/data/terminalCommands.ts:139-155 | nine lines: title, description and technologies of each of the three projects, in order |
| Commands.StopLines | src/data/terminalCommands.ts:163-165 | one line per stop, in table order |
| Commands.JourneyListing | src/data/terminalCommands.ts:157-168 | at least the two header lines |
| Commands.Journey | src/data/terminalCommands.ts:157-168 | the pushing loop returns exactly the listing |
| Commands.PushStopLines | src/data/terminalCommands.ts:157-168 | the loop over any list of stops gives the header and then one padded `location - title` line per stop, in order |
| Commands.JourneyListingShape | src/data/terminalCommands.ts:158-165 | two header lines, then one line per stop: the location padded to 15 columns, ` - `, and the title |
| Commands.FindProject | src/data/terminalCommands.ts:173-175 | the project found has the lower-cased title sought, and none is found exactly when no title matches |
| Commands.Deploy | src/data/terminalCommands.ts:170-188 | `deploy` prints either one line or four |
| Commands.TitlesDistinctIgnoringCase | src/data/terminalCommands.ts:173-175 | no two projects share a lower-cased title, so the lookup is unambiguous |
| Commands.DeployKnownProject | src/data/terminalCommands.ts:171-187 | a project named in any letter case deploys, and the last line names it with its canonical title |
| Commands.DeployUnknownProject | src/data/terminalCommands.ts:177-179 | any other name gives one error quoting the argument as typed, or `undefined` |
| Commands.IndexOf | src/data/terminalCommands.ts:201 | `indexOf` is the first position of the element, or -1 exactly when it is absent |
| Commands.FindNameArg | src/data/terminalCommands.ts:200 | `find` returns an argument starting with `--name=`, or nothing when there is none |
| Commands.RoleNameFromArgs | src/data/terminalCommands.ts:200-201 | with neither `--name` nor a `--name=` argument, the role name is `args[0]` (index `-1 + 1`) |
| Commands.NameFallsBackToFirstArg | src/data/terminalCommands.ts:201 | with no `-` argument, which parsed lines never have, the role name is always the first argument |
| Commands.RoleName | src/data/terminalCommands.ts:200-201 | corrected, the role name comes from the `--name` flag the tokeniser produced |
| Commands.AwsAsWritten | src/data/terminalCommands.ts:190-215 | as written: the role list exactly for `iam list-roles`, and role creation exactly when the name read from the arguments is `hire-lerdi` |
| Commands.Aws | src/data/terminalCommands.ts:190-215 | corrected: the same branches, with the name read from the flags; everything else prints the usage line |
| Commands.AwsCreateRoleUnreachableAsWritten | src/data/terminalCommands.ts:199-211 | as written, no typed line creates the role |
| Commands.AwsCreateRoleHireLerdi | src/lib/terminalUtils.ts:35-37 | `aws iam create-role --name hire-lerdi` parses with `hire-lerdi` as a flag value; the handler as written prints the usage, the corrected one creates the role |
| Commands.AwsLineParses | src/lib/terminalUtils.ts:30-46 | the pieces of the `aws` line yield args `[iam, create-role]` and the flag `name = hire-lerdi` |
| Commands.AwsAsWrittenOnCreateRole | src/data/terminalCommands.ts:199-214 | on the parsed `aws iam create-role` line the handler as written takes `iam` as the role name and prints the usage |
| Commands.AwsOnCreateRole | src/data/terminalCommands.ts:199-214 | on the same line the corrected handler reads `hire-lerdi` from the flag and creates the role |
| Commands.Sudo | src/data/terminalCommands.ts:230-239 | exactly for `hire lerdi` the two success lines `Permission granted.` and `Welcome aboard 🚀`; otherwise the one error `sudo: incorrect password` |
| Commands.RmAsWritten | src/data/terminalCommands.ts:241-250 | as written, the two warning lines `Nice try 😄` and `This system is read-only.` are printed exactly when `args` contains both `-rf` and `/`; otherwise the one error `rm: missing operand` |
| Commands.Rm | src/data/terminalCommands.ts:241-250 | corrected, the two warning lines are printed exactly when `-rf` is found among the arguments or `rf` among the flags, and `/` among the arguments; otherwise exactly the one error `rm: missing operand` |
| Commands.RmWarningUnreachableAsWritten | src/data/terminalCommands.ts:242 | as written, every typed line prints exactly `rm: missing operand`: the warning is never reached |
| Commands.RmLineParses | src/lib/terminalUtils.ts:41-42 | the pieces of `rm -rf /` yield args `[/]` and the flag `rf` |
| Commands.RmRfSlash | src/data/terminalCommands.ts:241-249 | `rm -rf /` parses with `rf` as a flag, and on that parse the corrected handler prints the read-only warning |
| Commands.Lookup | src/data/terminalCommands.ts:21-251 | a handler is found exactly for the fourteen names of the table, under its own name |
| Commands.LookupName | src/data/terminalCommands.ts:21-251 | every handler is found under its own name |
| Commands.OnlyClearAndCdAreSilent | src/data/terminalCommands.ts:124-137 | only `clear`, and a `cd` to `~` or a known folder, print nothing |
| TerminalSession.Remember | src/components/MiniTerminal.tsx:41-46 | a blank command changes nothing; any other is appended trimmed to the history and the index becomes -1; nothing else changes |
| TerminalSession.OpenLetter | src/components/MiniTerminal.tsx:98-112 | the letter is selected only for a known file name; otherwise the selection stays and the one error `open letter: <name>: No such file` is appended, with `missing filename` for an empty name |
| TerminalSession.DispatchKeepsHistory | src/components/MiniTerminal.tsx:68-172 | no branch touches the command history, the history index or the typed input, and the folder stays the old one or a known one |
| TerminalSession.DispatchKeepsLog | src/components/MiniTerminal.tsx:68-172 | `clear` empties the log; every other branch keeps the old log as a prefix |
| TerminalSession.DispatchRunsHandler | src/components/MiniTerminal.tsx:114-169 | a table command other than `clear`, `cd` and `open letter` appends its handler's lines in order and changes neither folder nor selected letter |
| TerminalSession.DispatchUnknown | src/components/MiniTerminal.tsx:157-171 | an unknown name appends exactly one error naming it |
| TerminalSession.ExecuteBlank | src/components/MiniTerminal.tsx:49 | a blank line changes nothing |
| TerminalSession.ExecuteSteps | src/components/MiniTerminal.tsx:48-66 | a non-blank line is stored trimmed, echoed with the folder from before, and then dispatched on its parse in that folder |
| TerminalSession.ExecuteRemembers | src/components/MiniTerminal.tsx:51-52 | a non-blank line is appended trimmed to the history, and the index goes back to -1 |
| TerminalSession.ExecuteEchoes | src/components/MiniTerminal.tsx:55-58 | every command but `clear` keeps the log and appends the prompt line with the directory from before the command |
| TerminalSession.ExecuteClear | src/components/MiniTerminal.tsx:70-74 | after `clear` the log is empty |
| TerminalSession.ExecuteCd | src/components/MiniTerminal.tsx:77-95 | no argument or `~` goes home; a known folder is entered; anything else appends one error and keeps the directory |
| TerminalSession.ExecuteKeepsDirectoryKnown | src/components/MiniTerminal.tsx:77-95 | the directory is always `~` or one of the three folders |
| TerminalSession.ExecuteOpenLetter | src/components/MiniTerminal.tsx:98-112 | `open letter f` keeps the folder; after the prompt line it appends exactly `Opening f...` and selects the letter of a known file, or appends exactly the `open letter: f: No such file` error and keeps the selection |
| TerminalSession.ExecuteRunsHandler | src/components/MiniTerminal.tsx:114-169 | a known command appends its handler's lines, in order, after the prompt line |
| TerminalSession.ExecuteUnknownCommand | src/components/MiniTerminal.tsx:170-172 | an unknown command appends exactly one `command not found: <command>` error |
| TerminalSession.ExecuteKeepsIndexInRange | src/components/MiniTerminal.tsx:41-46 | every command keeps the history index in [-1, len-1] |
| TerminalSession.InitialState | src/components/MiniTerminal.tsx:12-21 | the terminal starts at `~` with two welcome lines and an empty history |
| TerminalSession.KeyDown | src/components/MiniTerminal.tsx:198-222 | the keys keep the index in [-1, len-1] and never touch the histories; the input shows the entry the index points at, or is empty at -1 |
| TerminalSession.ArrowUpRecalls | src/components/MiniTerminal.tsx:200-206 | Up does nothing on an empty history; from -1 it goes to index len-1 and shows the last entry; otherwise it steps back one, but not below 0, and shows that entry |
| TerminalSession.ArrowDownLeavesHistory | src/components/MiniTerminal.tsx:207-218 | Down does nothing at -1; below the last entry it steps from i to i+1 and shows that entry; from the last entry it resets the index to -1 and clears the input, so Up then Down from -1 ends at -1 with an empty input |
| TerminalSession.MiniTerminal.constructor | src/components/MiniTerminal.tsx:12-21 | the fields start in the initial state, not executing |
| TerminalSession.MiniTerminal.AddOutput | src/components/MiniTerminal.tsx:37-39 | appends the lines to the log, nothing else changes |
| TerminalSession.MiniTerminal.AddEach | src/components/MiniTerminal.tsx:163-166 | the one-at-a-time loop appends the same lines as one call |
| TerminalSession.MiniTerminal.AddCommandToHistory | src/components/MiniTerminal.tsx:41-46 | performs `Remember` |
| TerminalSession.MiniTerminal.HandleCommand | src/components/MiniTerminal.tsx:48-178 | performs `Execute` and keeps the invariant; afterwards it is executing only if it was before and the line was blank |
| TerminalSession.MiniTerminal.DispatchParsed | src/components/MiniTerminal.tsx:68-172 | performs `Dispatch` |
| TerminalSession.MiniTerminal.ChangeDirectoryTo | src/components/MiniTerminal.tsx:77-95 | performs the `cd` branch |
| TerminalSession.MiniTerminal.OpenLetterNamed | src/components/MiniTerminal.tsx:98-112 | performs the `open letter` branch |
| TerminalSession.MiniTerminal.RunHandler | src/components/MiniTerminal.tsx:114-172 | performs the handler branch, with the delayed appends |
| TerminalSession.MiniTerminal.RunDeploy | src/components/MiniTerminal.tsx:114-130 | the `deploy` branch appends exactly the handler's lines, one per delay, and changes nothing else |
| TerminalSession.MiniTerminal.RunOther | src/components/MiniTerminal.tsx:157-169 | any other handler's lines are appended in order, whether one at a time or all at once |
| TerminalSession.MiniTerminal.HandleSubmit | src/components/MiniTerminal.tsx:180-196 | nothing happens for a blank input or while executing; otherwise the input is cleared and the line is run |
| TerminalSession.MiniTerminal.HandleKeyDown | src/components/MiniTerminal.tsx:198-222 | performs `KeyDown` and keeps the invariant |
| BoldText.NextMatch | src/components/RecommendationModal.tsx:57-58 | the next match lies inside the text, at or after the scan position |
| BoldText.NextMatchIsLeftmost | src/components/RecommendationModal.tsx:57-58 | the result is a case-insensitive match (with `\b` boundaries where the pattern has them), nothing earlier matches, and there is none exactly when no match is left |
| BoldText.Matches | src/components/RecommendationModal.tsx:58 | the `matchAll` starts are inside the text, in increasing order, each at or after the end of the previous match |
| BoldText.MatchesInOrder | src/components/RecommendationModal.tsx:58-77 | matches are handled left to right and never overlap, with `lastIndex` increasing |
| BoldText.MatchesMatch | src/components/RecommendationModal.tsx:58 | every reported start is a match of the phrase |
| BoldText.FitsInOrder | src/components/RecommendationModal.tsx:64-77 | the starts are pairwise at least a phrase length apart |
| BoldText.Head | src/components/RecommendationModal.tsx:66-76 | the pieces one match contributes spell the text from `lastIndex` to the end of the match |
| BoldText.HeadPieces | src/components/RecommendationModal.tsx:67-75 | those pieces are non-empty, and the bold one holds the matched text in its original casing, with the phrase's class |
| BoldText.CutAdvance | src/components/RecommendationModal.tsx:64-77 | cutting around the matches is the first match's pieces followed by the cut of the rest, which still fit after the first match |
| BoldText.SplitString | src/components/RecommendationModal.tsx:56-83 | a string part is split exactly as specified: one plain piece when nothing matches, otherwise the cut around the matches |
| BoldText.CutAround | src/components/RecommendationModal.tsx:64-82 | the inner loop over `matches`, advancing `lastIndex`, then the trailing text, produces exactly the cut of the string part |
| BoldText.PushMatch | src/components/RecommendationModal.tsx:65-76 | one iteration pushes the leading text when there is any, then the bold match |
| BoldText.SplitParts | src/components/RecommendationModal.tsx:53-89 | the middle loop builds exactly one pass of the phrase over all parts |
| BoldText.FormatTextWithBold | src/components/RecommendationModal.tsx:14-93 | the outer loop over the phrases returns the specified parts, whose text is the input paragraph |
| BoldText.TextAppend | src/components/RecommendationModal.tsx:49-92 | the text of two part lists joined is the two texts joined |
| BoldText.PassAppend | src/components/RecommendationModal.tsx:55-87 | a pass works part by part |
| BoldText.CutText | src/components/RecommendationModal.tsx:64-82 | the cut pieces spell the text from the scan position to the end |
| BoldText.SplitPartText | src/components/RecommendationModal.tsx:56-83 | cutting a string part loses and adds no character |
| BoldText.PassText | src/components/RecommendationModal.tsx:52-90 | a pass keeps the text |
| BoldText.FormatKeepsText | src/components/RecommendationModal.tsx:49-92 | the plain strings and bold texts, concatenated, reproduce the paragraph exactly |
| BoldText.CutPieces | src/components/RecommendationModal.tsx:67-82 | no cut piece is empty, and every bold piece is the phrase up to case, with its class |
| BoldText.SplitPartPieces | src/components/RecommendationModal.tsx:60-83 | splitting a non-empty part yields no empty strings |
| BoldText.PassPieces | src/components/RecommendationModal.tsx:55-87 | a pass keeps part lists free of empty strings, and every bold element it emits is the phrase |
| BoldText.FormatNoEmptyParts | src/components/RecommendationModal.tsx:67-82 | a non-empty paragraph comes back with no empty string parts |
| BoldText.FormatBoldsArePhrases | src/components/RecommendationModal.tsx:71-75 | every bold element spells one of the phrases up to case and has that phrase's class |
| BoldText.NoMatchPassesThrough | src/components/RecommendationModal.tsx:60-61 | a string part with no match passes through unchanged |
| BoldText.BoldStaysPut | src/components/RecommendationModal.tsx:84-86 | a bold element stays whole and in place, so earlier phrases take precedence |
| BoldText.FormatWithoutPhrases | src/components/RecommendationModal.tsx:49-61 | a paragraph with none of the phrases comes back as a one-element list holding it |
| BoldText.RenderBody | src/components/RecommendationModal.tsx:237-247 | one block per line of `split('\n')` |
| BoldText.RenderBodyLines | src/components/RecommendationModal.tsx:237-247 | a line becomes a break exactly when it is whitespace only, and otherwise a paragraph whose parts spell the line, with no empty part |
| BoldText.PhraseListsAreWellFormed | src/components/RecommendationModal.tsx:16-47 | the 30 phrases are non-empty, and the two lists differ only in the game's name |
| BoldText.MojibakeNeedsTilde | src/components/RecommendationModal.tsx:25 | as written, the game's phrase matches only where the text has an A with tilde after `Pok` |
| BoldText.PokemonBolded | src/components/RecommendationModal.tsx:25 | as written, the letter's `Pokémon Go` stays plain; corrected, it is bold |
| EmailFormat.CharIndex | src/components/ContactSection.tsx:30 | the first position of a character, or nothing exactly when it is absent |
| EmailFormat.ValidEmail | src/components/ContactSection.tsx:30 | an accepted address has no whitespace, does not start with `@` and has at least 5 characters |
| EmailFormat.ValidEmailMeansPattern | src/components/ContactSection.tsx:30 | the check accepts exactly the strings `^[^\s@]+@[^\s@]+\.[^\s@]+$` matches: one `@`, no whitespace, a non-empty local part, and a `.` in the domain that is neither its first nor its last character |
| EmailFormat.ValidEmailMatches | src/app/api/contact/route.ts:23 | every accepted address matches the pattern |
| EmailFormat.PatternIsValidEmail | src/app/api/contact/route.ts:23 | every matching address is accepted |
| EmailFormat.PaddedAddressRejected | src/components/ContactSection.tsx:30 | a leading or trailing space makes the address invalid |
| ContactApi.Or | src/app/api/contact/route.ts:32 | `a \|\| b` on an optional string |
| ContactApi.TextBodyCarriesMessage | src/app/api/contact/route.ts:59-70 | after `.trim()` the text body holds the message verbatim between the fixed header and footer |
| ContactApi.LineBreaksReplaced | src/app/api/contact/route.ts:49 | no line break of the message remains in the HTML body |
| ContactApi.SmtpPort | src/app/api/contact/route.ts:74 | an unset or empty `SMTP_PORT` gives 587 |
| ContactApi.Prepare | src/app/api/contact/route.ts:31-102 | secure exactly when the port is 465; the recipient is `CONTACT_EMAIL` or `lerdi890@gmail.com`; the subject is `New Contact Request from <name>` |
| ContactApi.Post | src/app/api/contact/route.ts:10-121 | the status is 200, 400 or 500, and 200 exactly when a delivery was made and the send succeeded |
| ContactApi.Options | src/app/api/contact/route.ts:124-133 | 200 with no body and the three CORS headers: any origin, methods `POST, OPTIONS`, header `Content-Type` |
| ContactApi.MissingFieldFirst | src/app/api/contact/route.ts:15-20 | a missing or empty field gives 400 with the missing-fields error, before the address is checked, and nothing is sent |
| ContactApi.MalformedAddress | src/app/api/contact/route.ts:23-29 | an address that fails the pattern gives 400 `Invalid email format` |
| ContactApi.Unconfigured | src/app/api/contact/route.ts:78-119 | a missing SMTP host, user or password gives 500 with message `Email service not configured`, and nothing is sent |
| ContactApi.MalformedBody | src/app/api/contact/route.ts:11-119 | a body `request.json()` rejects gives 500 `Internal server error` with the parse error's message, and nothing is sent |
| ContactApi.SendFailed | src/app/api/contact/route.ts:95-119 | a valid request on a configured server whose send fails gives 500 `Internal server error` with the send error's message, after the prepared delivery was attempted |
| ContactApi.Delivered | src/app/api/contact/route.ts:31-110 | a valid request on a configured server is sent with the stated recipient, subject and bodies, and answered 200 `Request received successfully` |
| ContactApi.PortChoice | src/app/api/contact/route.ts:74-87 | with `SMTP_PORT` unset the port is 587 and not secure; with `465` the connection is secure |
| ContactApi.BlankNameAccepted | src/app/api/contact/route.ts:15 | the presence check is falsiness: a whitespace-only name passes it |
| ContactForm.FieldErrorsExact | src/components/ContactSection.tsx:21-36 | each field has an error exactly when it fails its check; a blank email gets `User email is required`, any other failing one gets `Invalid email format`, never both |
| ContactForm.NoErrorsIffValid | src/components/ContactSection.tsx:38-39 | validation passes exactly when the name and message are not blank and the email matches the pattern |
| ContactForm.PaddedEmailInvalid | src/components/ContactSection.tsx:30 | the pattern sees the untrimmed email: a leading space gives `Invalid email format` |
| ContactForm.ClearErrors | src/components/ContactSection.tsx:87-93 | the same keys; the field's error and the submit error are no longer shown; all other errors are unchanged |
| ContactForm.Change | src/components/ContactSection.tsx:83-94 | only the named field changes, its error and the submit error are cleared, and the flags are kept |
| ContactForm.FailureText | src/components/ContactSection.tsx:61-64 | the error shown for a response that is not ok is never empty, and is `Failed to submit request` for a body that is not JSON |
| ContactForm.Reset | src/components/ContactSection.tsx:67-71 | the timer empties the fields and lowers both flags, keeping the errors |
| ContactForm.ProvisioningDone | src/components/ContactSection.tsx:274-277 | the animation's end lowers both flags and touches nothing else |
| ContactForm.InvalidFormStaysIdle | src/components/ContactSection.tsx:45-47 | a form that fails validation shows its errors, and neither flag is raised |
| ContactForm.FailedSubmission | src/components/ContactSection.tsx:72-79 | a failed submission lowers both flags and replaces the errors with a single `submit` entry |
| ContactForm.AcceptedSubmission | src/components/ContactSection.tsx:49-71 | an accepted submission is busy with no errors, and the reset returns the form to its initial state |
| ContactForm.ClientValidPassesServer | src/components/ContactSection.tsx:21-40 | a form the client accepts is never rejected by the endpoint as a bad request |
| ContactForm.UnconfiguredServerShown | src/components/ContactSection.tsx:61-79 | a valid form sent to an unconfigured server shows `Email service not configured` |
| ContactForm.SendFailureShown | src/components/ContactSection.tsx:61-79 | a valid form whose send fails puts both flags down and shows the send error's message, or `Internal server error` when that message is empty |
| ContactForm.DeliveredSubmission | src/components/ContactSection.tsx:49-71 | a valid form the server delivers gets an ok reply, leaves the form busy, and is emptied by the reset |
| ContactForm.ContactSection.constructor | src/components/ContactSection.tsx:11-19 | empty fields, no errors, both flags down |
| ContactForm.ContactSection.ValidateForm | src/components/ContactSection.tsx:21-40 | records exactly the field errors and returns whether there are none |
| ContactForm.ContactSection.HandleChange | src/components/ContactSection.tsx:83-94 | performs `Change` |
| ContactForm.ContactSection.HandleSubmit | src/components/ContactSection.tsx:42-81 | performs `Submit` for the given reply |
| ContactForm.ContactSection.ResetAfterDelivery | src/components/ContactSection.tsx:67-71 | performs `Reset` |
| ContactForm.ContactSection.ProvisioningComplete | src/components/ContactSection.tsx:274-277 | performs `ProvisioningDone` |
| StageCard.StageStatus | src/components/JourneyStop.tsx:34-41 | `pending` exactly for the last index, whatever `isCompleted` is; otherwise `succeeded` exactly when completed; otherwise `in-progress` |
| StageCard.StageCountIsTimeline | src/components/JourneyStop.tsx:51 | the fixed total of 6 is the length of the timeline |
| StageCard.TimelineStatuses | src/components/JourneyTimeline.tsx:69 | with `isCompleted` set for every stop but the last, the last stage is pending, the others succeeded, and none is in progress |
| StageCard.IconFor | src/components/JourneyStop.tsx:25-50 | a name in the icon map gets its icon, and any other name gets `Circle` |
| StageCard.EveryStopHasIcon | src/data/journeyData.ts:29-144 | every stop of the timeline names an icon of the map |
| StageCard.StageLabel | src/components/JourneyStop.tsx:109 | the label starts with `Stage ` |
| StageCard.StageLabelsDistinct | src/components/JourneyStop.tsx:109 | two stages get the same label exactly when they have the same index |
| StageCard.FirstStageLabel | src/components/JourneyStop.tsx:109 | index 0 is labelled `Stage 1` |
| StageCard.TechPreview | src/components/JourneyStop.tsx:136-151 | no preview without technologies; otherwise the first min(n, 3) names in order, and a `+(n-3)` badge exactly when n > 3 |
| StageCard.FoundationsPreview | src/components/JourneyStop.tsx:136-151 | the first stop shows Java, Database and SQL with a `+2` badge |
| ThemeSwitch.Mount | src/components/ThemeToggle.tsx:11-20 | mounted, dark as decided, and the class is only ever added |
| ThemeSwitch.MountDecision | src/components/ThemeToggle.tsx:13-16 | dark exactly when `dark` is stored, or nothing is stored and the system prefers dark; a stored `light` wins over the system |
| ThemeSwitch.MountSyncs | src/components/ThemeToggle.tsx:17-19 | mounting a fresh page leaves the class and storage agreeing with the theme |
| ThemeSwitch.Toggle | src/components/ThemeToggle.tsx:22-32 | flips `isDark`; afterwards the class is present exactly when dark, and `dark` or `light` is stored to match |
| ThemeSwitch.ToggleSyncs | src/components/ThemeToggle.tsx:22-32 | toggling leaves the page in sync whatever its state before |
| ThemeSwitch.ToggleTwice | src/components/ThemeToggle.tsx:22-32 | toggling twice restores `isDark` and the class, and the stored theme matches |
| ThemeSwitch.ReloadKeepsChoice | src/components/ThemeToggle.tsx:13-30 | after a toggle, a reload mounts with the chosen theme whatever the system prefers |
| ThemeSwitch.Render | src/components/ThemeToggle.tsx:34-50 | nothing renders before mount; afterwards the sun shows exactly in dark mode |
| ThemeSwitch.ThemeToggle.constructor | src/components/ThemeToggle.tsx:8-9 | not dark and not mounted, with the page's class and storage as found |
| ThemeSwitch.ThemeToggle.OnMount | src/components/ThemeToggle.tsx:11-20 | performs `Mount` |
| ThemeSwitch.ThemeToggle.ToggleTheme | src/components/ThemeToggle.tsx:22-32 | performs `Toggle` |

## Left out

- Output ids (`Date.now()` and `Math.random()`) are dropped. The time of day printed in log lines is the parameter `clock`.
- Commands.DevopsLog: its four lines share the one time of day `clock`, while the site reads the clock once per line, so lines printed across a millisecond boundary can carry different times.
- **Delays and effects.** The 50, 30 and 300 ms delays are not modelled, and neither are the confetti and `window.open` after `deploy` or the focus timer; each command is one atomic step whose lines are appended in order.
- Stale React closures and batched `setState`: each handler reads the state it was called with.
- `isExecuting` is true only while a command runs; since each command is atomic it is false between events, and `HandleSubmit` only guards on it.
- **Error wrapping and content types.** The terminal's `catch` branch (MiniTerminal.tsx:173-174, which prints `Error: <message>`) is not modelled: no table handler throws, and the only lines that reach it are the inherited command names below. Terminal content is always a string; the `React.ReactNode` alternative is not modelled.
- **Inherited command names.** A command named after one of the twelve members every JavaScript object inherits (`Commands.InheritedNames`) is treated as unknown: the model prints `command not found: <name>`. The site finds the inherited member in `commandHandlers` and calls it without a receiver:
  - `__proto__` is `Object.prototype`, which is not a function, so the call throws and the catch prints `Error: handler is not a function`;
  - `valueOf`, `hasOwnProperty`, `isPrototypeOf`, `propertyIsEnumerable`, `toLocaleString`, `__defineGetter__`, `__defineSetter__`, `__lookupGetter__` and `__lookupSetter__` throw a `TypeError` on their undefined receiver, which the catch prints as `Error: <message>`;
  - `toString` returns the string `[object Undefined]`, whose 18 characters are appended one at a time as output lines;
  - `constructor` is `Object`, which returns the argument array, so the arguments themselves are appended as output lines.
  The same lookup answers an icon name such as `constructor` in the stage card's icon map, which the model also treats as absent.
- **Regular expressions** are modelled as string predicates: the highlighter's phrases by case-insensitive literal match (`MatchAt`, `NextMatch`) with a `\b` test over ASCII word characters, and the e-mail pattern by `EmailFormat.ValidEmail`.
- Case folding covers ASCII and Latin-1 letters only.
- Element keys (`keyCounter`, `paragraphIndex`) of the rendered parts are not modelled.
- **The contact endpoint.** `request.json()`, `process.env`, `nodemailer` and the SMTP exchange are outside the model. The parsed body and the environment are parameters; a send is an oracle answer. Non-string JSON fields are not modelled. The thrown value is always an `Error`, so the `'Unknown error'` branch is not modelled.
- **The contact form.** `fetch` is an oracle reply: a response or a network failure. The `'Failed to submit request. Please try again.'` branch for a thrown non-`Error` value is not modelled, because `fetch` and the handler only throw `Error`s. The AWS console easter egg and all rendering are not modelled.
- `Strings.NatToString` and `parseInt` work on unbounded integers; `NaN` is `None`. A port outside the integer range a JavaScript number represents exactly is not considered.
- **ThemeSwitch.** The system colour preference is a parameter of the mount. Storage writes are assumed to succeed.
- **Corrected handlers in the session.** `Commands.Run`, `TerminalSession.Dispatch` and `TerminalSession.Execute` use the corrected `ls`, `rm` and `aws` handlers and the corrected letter lookup from the Findings below, not the handlers as written. Together with the inherited command names above, the session differs from the site on five kinds of input, each a family of lines:
  - an `ls` typed at `~` with no argument or the argument `~`, whatever its flags (`ls`, `ls ~`, `ls -l`). Here the model lists the skills, while the site prints `ls: cannot access '~'`;
  - an `rm` line whose flags include `rf` and whose arguments include `/`, in any order and with any other arguments (`rm -rf /`, `rm / -rf`, `rm -rf / x`). Here the model prints the read-only warning, while the site prints `rm: missing operand`;
  - an `aws iam create-role` line whose `--name` flag carries the value `hire-lerdi`, with any other arguments (`aws iam create-role --name hire-lerdi`, `aws iam create-role x --name hire-lerdi`). Here the model creates the role, while the site prints the usage line;
  - `open letter <n>` for each of the twelve names every JavaScript object inherits (`constructor`, `toString`, `__proto__`, … as listed in `Commands.InheritedNames`). Here the model prints the `No such file` error, while the site selects a non-letter.
  - any line whose command is one of the twelve inherited names, as described above. Here the model prints `command not found`, while the site throws into its catch branch or appends the result of the inherited function.
  The as-written behaviour on each of the first four families is stated by the as-written members in the Findings.
- TerminalSession.DispatchRunsHandler: states the corrected handler's lines, so it differs from the site on the `ls`, `rm` and `aws` families described in the line above.
- TerminalSession.ExecuteRunsHandler: states the corrected handler's lines, so it differs from the site on the `ls`, `rm` and `aws` families described in the line above.
- TerminalSession.ExecuteOpenLetter: uses the corrected letter lookup, so `open letter <n>` for an inherited name `n` is an error here while the site selects a non-letter (see Findings).
- TerminalSession.OpenLetter: uses the corrected letter lookup, so an inherited name such as `constructor` is an error here while the site selects a non-letter (see Findings).
- TerminalSession.MiniTerminal.HandleCommand: performs `Execute`, and so inherits all five of its families of differences from the site.
- TerminalSession.MiniTerminal.DispatchParsed: performs `Dispatch`, and so inherits the same five families of differences.
- TerminalSession.DispatchUnknown: states `command not found` for every name outside the table, including the twelve inherited names, where the site does something else (see Inherited command names).
- TerminalSession.ExecuteUnknownCommand: states `command not found` for every name outside the table, including the twelve inherited names, where the site does something else (see Inherited command names).
- TerminalSession.MiniTerminal.OpenLetterNamed: performs the corrected `open letter` branch, so an inherited name such as `constructor` is an error here (see Findings).
- TerminalSession.MiniTerminal.RunHandler: runs the corrected handlers, so it differs from the site on the `ls`, `rm` and `aws` families described in the line above.
- TerminalSession.MiniTerminal.RunOther: runs the corrected handlers, so it differs from the site on the `ls`, `rm` and `aws` families described in the line above.
- **Not part of this model.** StopCard.tsx, JourneyTimeline.tsx, Hero.tsx, Footer.tsx, CloudNetwork.tsx, AWSConsoleModal.tsx, RecommendationsWall.tsx, ProvisioningAnimation.tsx, layout.tsx and page.tsx are presentation or timing only. `StageCard.TimelineStatuses` takes only the `isCompleted` rule from JourneyTimeline.tsx.

## Findings

| source | as written | input that shows it | evidently intended | confidence | as-written member | corrected member |
|---|---|---|---|---|---|---|
| src/data/terminalCommands.ts:242 | `rm` looks for `-rf` among the arguments, but the tokeniser turns `-rf` into the flag `rf` | `rm -rf /` prints `rm: missing operand` | `rm -rf /` prints the read-only warning | not executed | Commands.RmWarningUnreachableAsWritten | Commands.RmRfSlash |
| src/data/terminalCommands.ts:200-201 | `aws iam create-role` searches the arguments for `--name`, but the tokeniser consumes `--name hire-lerdi` as a flag with its value | `aws iam create-role --name hire-lerdi` prints the usage line | the role is created | not executed | Commands.AwsCreateRoleUnreachableAsWritten | Commands.AwsCreateRoleHireLerdi |
| src/data/terminalCommands.ts:48-50 | a bare `ls` takes the current directory `~` as its path, so the home test `!path && !cwd` never holds | `ls` at `~` prints `ls: cannot access '~': No such file or directory` | `ls` at home lists the skills | not executed | Commands.BareLsAtHome | Commands.Ls |
| src/components/RecommendationModal.tsx:25 | the phrase is spelt `PokÃ©mon Go` (UTF-8 bytes read as Latin-1), while the letter says `Pokémon Go` (src/data/recommendationsData.ts:65) | the letter's `Pokémon Go` is left plain | the game's name is bold like the other phrases | not executed | BoldText.MojibakeNeedsTilde | BoldText.PokemonBolded |
| src/data/terminalCommands.ts:254 | `recommendationMap[fileName] \|\| null` also answers for names every object inherits | `open letter constructor` prints `Opening constructor...` and selects a non-letter | only the three letter files open | not executed | Commands.InheritedNameFoundAsWritten | Commands.RecommendationId |
