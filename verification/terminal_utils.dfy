/**
 * The terminal's output records and its command-line tokeniser
 * (src/lib/terminalUtils.ts).
 *
 * A line is trimmed and split on whitespace runs. The first piece is the
 * command; each later piece is a positional argument, a `--name` flag
 * (taking the next piece as its value unless that piece starts with `-`),
 * a `-x` flag, or the value of the flag just before it.
 */
module TerminalUtils {
  import opened Strings

  datatype OutputType = Normal | Success | Info | Error | Warning

  /** One terminal line. The generated `id` (clock plus random number) is not modelled. */
  datatype Output = Output(kind: OutputType, content: string)

  /** `createOutput`: the content is kept as given and the type defaults to `Normal`. */
  function CreateOutput(content: string, kind: OutputType := Normal): (r: Output)
    ensures r.content == content && r.kind == kind
  {
    Output(kind, content)
  }

  lemma CreateOutputDefaultsToNormal(content: string)
    ensures CreateOutput(content).kind == Normal && CreateOutput(content).content == content
  {
  }

  datatype LogLevel = LogInfo | LogSuccess | LogError

  function LevelName(level: LogLevel): string
  {
    match level
    case LogInfo => "INFO"
    case LogSuccess => "SUCCESS"
    case LogError => "ERROR"
  }

  /**
   * `formatLogMessage`: `[time] [LEVEL] message`. The time of day is a
   * parameter here; the source reads it from the clock.
   */
  function FormatLogMessage(timestamp: string, level: LogLevel, message: string): (r: string)
    ensures StartsWith(r, "[" + timestamp + "] [" + LevelName(level) + "] ")
    ensures EndsWith(r, message)
    ensures |r| == |timestamp| + |LevelName(level)| + |message| + 6
  {
    var head := "[" + timestamp + "] [" + LevelName(level) + "] ";
    var r := head + message;
    assert r[..|head|] == head;
    assert r[|r| - |message|..] == message;
    r
  }

  /** The three level names start with different letters. */
  lemma LevelNamesDiffer(a: LogLevel, b: LogLevel)
    ensures LevelName(a) != [] && (LevelName(a)[0] == LevelName(b)[0] ==> a == b)
  {
  }

  /** Under one timestamp, the formatted line gives back its level and its message. */
  lemma FormatLogMessageInjective(timestamp: string, a: LogLevel, m: string, b: LogLevel, n: string)
    requires FormatLogMessage(timestamp, a, m) == FormatLogMessage(timestamp, b, n)
    ensures a == b && m == n
  {
    var r := FormatLogMessage(timestamp, a, m);
    var k := |timestamp| + 4;
    assert r[k] == LevelName(a)[0] by {
      assert r[..k + |LevelName(a)|] == "[" + timestamp + "] [" + LevelName(a);
    }
    assert r[k] == LevelName(b)[0] by {
      assert r[..k + |LevelName(b)|] == "[" + timestamp + "] [" + LevelName(b);
    }
    LevelNamesDiffer(a, b);
    assert m == r[|r| - |m|..];
  }

  /** A flag is either given a string value or set to `true`. */
  datatype FlagValue = Str(value: string) | Set

  datatype Parsed = Parsed(command: string, args: seq<string>, flags: map<string, FlagValue>)

  /** `input.trim().split(/\s+/)`: the words of the trimmed input, or `[""]` for a blank line. */
  function Pieces(input: string): (parts: seq<string>)
    ensures |parts| >= 1
    ensures parts[0] == "" <==> Blank(input)
  {
    var t := Trim(input);
    TrimBlank(input);
    if t == "" then [""]
    else
      TrimEnds(input);
      assert !Blank(t);
      Words(t)
  }

  /** Piece `j` is the value of the `--name` piece before it. */
  predicate IsValueAt(parts: seq<string>, j: int)
  {
    2 <= j < |parts| && StartsWith(parts[j - 1], "--") && !StartsWith(parts[j], "-")
  }

  datatype Role = Arg | LongFlag | ShortFlag | Value

  /** What piece `j` (after the command) is used for. */
  function RoleAt(parts: seq<string>, j: nat): Role
    requires 1 <= j < |parts|
  {
    if IsValueAt(parts, j) then Value
    else if StartsWith(parts[j], "--") then LongFlag
    else if StartsWith(parts[j], "-") then ShortFlag
    else Arg
  }

  /** The flag that piece `j` writes, with the value it writes, if it is a flag. */
  function FlagWrite(parts: seq<string>, j: nat): Option<(string, FlagValue)>
    requires 1 <= j < |parts|
  {
    match RoleAt(parts, j)
    case LongFlag =>
      var value := if j + 1 < |parts| && !StartsWith(parts[j + 1], "-") then Str(parts[j + 1]) else Set;
      Some((parts[j][2..], value))
    case ShortFlag => Some((parts[j][1..], Set))
    case _ => None
  }

  /** The positional arguments among pieces 1 .. n-1, in order. */
  function ArgsUpTo(parts: seq<string>, n: nat): seq<string>
    requires 1 <= n <= |parts|
  {
    if n == 1 then []
    else ArgsUpTo(parts, n - 1) + (if RoleAt(parts, n - 1) == Arg then [parts[n - 1]] else [])
  }

  /**
   * The one key under which assigning to a plain object stores nothing: it
   * reaches the inherited `__proto__` setter, which ignores strings and `true`.
   */
  const ProtoKey := "__proto__"

  /** `flags[k] = v` on the plain object `{}`: an own entry under any key but `__proto__`. */
  function Assign(m: map<string, FlagValue>, k: string, v: FlagValue): map<string, FlagValue>
  {
    if k == ProtoKey then m else m[k := v]
  }

  /** The flag dictionary after pieces 1 .. n-1 have been read, each write overriding earlier ones. */
  function FlagsUpTo(parts: seq<string>, n: nat): map<string, FlagValue>
    requires 1 <= n <= |parts|
  {
    if n == 1 then map[]
    else
      var m := FlagsUpTo(parts, n - 1);
      match FlagWrite(parts, n - 1)
      case Some(w) => Assign(m, w.0, w.1)
      case None => m
  }

  /** What `parseCommand` returns, defined piece by piece. */
  function Parse(input: string): Parsed
  {
    var parts := Pieces(input);
    Parsed(parts[0], ArgsUpTo(parts, |parts|), FlagsUpTo(parts, |parts|))
  }

  lemma DoubleDashIsDash(s: string)
    requires StartsWith(s, "--")
    ensures StartsWith(s, "-")
  {
    LongerPrefix(s, "-", "-");
  }

  /**
   * `parseCommand`: walks the pieces with an index, skipping a flag's value
   * by advancing the index twice.
   */
  method ParseCommand(input: string) returns (command: string, args: seq<string>, flags: map<string, FlagValue>)
    ensures Parsed(command, args, flags) == Parse(input)
  {
    var parts := Pieces(input);
    command := if parts[0] != "" then parts[0] else "";
    args := [];
    flags := map[];
    var i := 1;
    while i < |parts|
      invariant 1 <= i <= |parts|
      invariant !IsValueAt(parts, i)
      invariant args == ArgsUpTo(parts, i)
      invariant flags == FlagsUpTo(parts, i)
    {
      var part := parts[i];
      if StartsWith(part, "--") {
        var flagName := part[2..];
        DoubleDashIsDash(part);
        if i + 1 < |parts| && !StartsWith(parts[i + 1], "-") {
          flags := Assign(flags, flagName, Str(parts[i + 1]));
          SkipValue(parts, i);
          i := i + 1;
        } else {
          flags := Assign(flags, flagName, Set);
          StepOver(parts, i);
        }
      } else if StartsWith(part, "-") {
        flags := Assign(flags, part[1..], Set);
        StepOver(parts, i);
      } else {
        args := args + [part];
        StepOver(parts, i);
      }
      i := i + 1;
    }
  }

  /** One step of the walk over a piece that is not followed by its value. */
  lemma StepOver(parts: seq<string>, i: nat)
    requires 1 <= i < |parts| && !IsValueAt(parts, i)
    requires StartsWith(parts[i], "--") ==> i + 1 == |parts| || StartsWith(parts[i + 1], "-")
    ensures !IsValueAt(parts, i + 1)
    ensures ArgsUpTo(parts, i + 1) == ArgsUpTo(parts, i) + (if !StartsWith(parts[i], "-") then [parts[i]] else [])
    ensures FlagsUpTo(parts, i + 1) ==
      if StartsWith(parts[i], "--") then Assign(FlagsUpTo(parts, i), parts[i][2..], Set)
      else if StartsWith(parts[i], "-") then Assign(FlagsUpTo(parts, i), parts[i][1..], Set)
      else FlagsUpTo(parts, i)
  {
    if StartsWith(parts[i], "--") { DoubleDashIsDash(parts[i]); }
  }

  /** The step over `--name v`: the flag takes `v`, and `v` is then skipped. */
  lemma SkipValue(parts: seq<string>, i: nat)
    requires 1 <= i && i + 1 < |parts| && !IsValueAt(parts, i)
    requires StartsWith(parts[i], "--") && !StartsWith(parts[i + 1], "-")
    ensures !IsValueAt(parts, i + 2)
    ensures ArgsUpTo(parts, i + 2) == ArgsUpTo(parts, i)
    ensures FlagsUpTo(parts, i + 2) == Assign(FlagsUpTo(parts, i), parts[i][2..], Str(parts[i + 1]))
  {
    DoubleDashIsDash(parts[i]);
    assert RoleAt(parts, i) == LongFlag;
    assert RoleAt(parts, i + 1) == Value;
  }

  // ----- Properties of the tokeniser -----

  /**
   * The command is empty exactly for a blank line; otherwise it is the first
   * word of the trimmed line: non-empty, free of whitespace, a prefix of the
   * trimmed line and followed there by whitespace or the end.
   */
  lemma CommandIsFirstWord(input: string)
    ensures var c := Parse(input).command;
      && (c == "" <==> Blank(input))
      && (!Blank(input) ==>
            NoSpace(c) && StartsWith(Trim(input), c)
            && (|c| == |Trim(input)| || IsSpace(Trim(input)[|c|])))
  {
    TrimBlank(input);
    if !Blank(input) {
      TrimEnds(input);
      FirstWord(Trim(input));
    }
  }

  /** Every argument is a whole non-empty word that does not start with `-`, taken from a piece of role `Arg`. */
  lemma {:induction false} ArgsComeFromArgPieces(parts: seq<string>, n: nat)
    requires 1 <= n <= |parts|
    ensures |ArgsUpTo(parts, n)| <= n - 1
    ensures forall a :: a in ArgsUpTo(parts, n) ==>
              !StartsWith(a, "-") && exists j :: 1 <= j < n && RoleAt(parts, j) == Arg && parts[j] == a
  {
    if n > 1 {
      ArgsComeFromArgPieces(parts, n - 1);
    }
  }

  /**
   * The arguments are exactly the pieces of role `Arg`, in their original
   * order: piece `j` of that role is argument number `ArgCount(parts, j)`.
   */
  function ArgCount(parts: seq<string>, j: nat): nat
    requires 1 <= j <= |parts|
  {
    |ArgsUpTo(parts, j)|
  }

  lemma {:induction false} ArgPiecesInOrder(parts: seq<string>, n: nat, j: nat)
    requires 1 <= j < n <= |parts|
    requires RoleAt(parts, j) == Arg
    ensures ArgCount(parts, j) < |ArgsUpTo(parts, n)|
    ensures ArgsUpTo(parts, n)[ArgCount(parts, j)] == parts[j]
  {
    if n - 1 > j {
      ArgPiecesInOrder(parts, n - 1, j);
    }
  }

  /** A piece that does not start with `-` and is not a flag value lands in the arguments. */
  lemma PlainPieceIsArg(parts: seq<string>, j: nat)
    requires 1 <= j < |parts| && !StartsWith(parts[j], "-") && !IsValueAt(parts, j)
    ensures RoleAt(parts, j) == Arg
    ensures ArgCount(parts, j) < |ArgsUpTo(parts, |parts|)|
    ensures ArgsUpTo(parts, |parts|)[ArgCount(parts, j)] == parts[j]
  {
    if StartsWith(parts[j], "--") { DoubleDashIsDash(parts[j]); }
    ArgPiecesInOrder(parts, |parts|, j);
  }

  /** For `--name v`, `v` is never an argument when it occurs only there. */
  lemma ValueIsNotArg(parts: seq<string>, j: nat)
    requires IsValueAt(parts, j)
    requires forall i :: 1 <= i < |parts| && i != j ==> parts[i] != parts[j]
    ensures parts[j] !in ArgsUpTo(parts, |parts|)
  {
    ArgsComeFromArgPieces(parts, |parts|);
  }

  /** Some piece among 1 .. n-1 writes flag `k`. */
  predicate Written(parts: seq<string>, n: nat, k: string)
    requires 1 <= n <= |parts|
  {
    exists j :: 1 <= j < n && FlagWrite(parts, j).Some? && FlagWrite(parts, j).value.0 == k
  }

  /** The dictionary holds exactly the flags some piece writes, except `__proto__`, which is never stored. */
  lemma {:induction false} FlagKeys(parts: seq<string>, n: nat, k: string)
    requires 1 <= n <= |parts|
    ensures k in FlagsUpTo(parts, n) <==> k != ProtoKey && Written(parts, n, k)
  {
    if n > 1 {
      FlagKeys(parts, n - 1, k);
      if Written(parts, n, k) && !Written(parts, n - 1, k) {
        var j :| 1 <= j < n && FlagWrite(parts, j).Some? && FlagWrite(parts, j).value.0 == k;
        assert j == n - 1;
      }
    }
  }

  /** However a line writes `__proto__` (`-__proto__`, `--__proto__ v`), the dictionary never holds it. */
  lemma ProtoFlagNeverStored(input: string)
    ensures ProtoKey !in Parse(input).flags
  {
    FlagKeys(Pieces(input), |Pieces(input)|, ProtoKey);
  }

  /** A repeated flag keeps the value written by its last occurrence. */
  lemma {:induction false} LastWriteWins(parts: seq<string>, n: nat, j: nat, k: string, v: FlagValue)
    requires 1 <= j < n <= |parts|
    requires FlagWrite(parts, j) == Some((k, v)) && k != ProtoKey
    requires forall i :: j < i < n ==> FlagWrite(parts, i).None? || FlagWrite(parts, i).value.0 != k
    ensures k in FlagsUpTo(parts, n) && FlagsUpTo(parts, n)[k] == v
  {
    if n - 1 > j {
      LastWriteWins(parts, n - 1, j, k, v);
    }
  }

  /** `--name v` where `v` does not start with `-` writes the value `v`. */
  lemma LongFlagWithValue(parts: seq<string>, j: nat)
    requires 1 <= j && j + 1 < |parts| && !IsValueAt(parts, j)
    requires StartsWith(parts[j], "--") && !StartsWith(parts[j + 1], "-")
    ensures FlagWrite(parts, j) == Some((parts[j][2..], Str(parts[j + 1])))
    ensures IsValueAt(parts, j + 1)
  {
  }

  /** `--name` that is last, or followed by a piece starting with `-`, writes `true`. */
  lemma LongFlagAlone(parts: seq<string>, j: nat)
    requires 1 <= j < |parts| && !IsValueAt(parts, j) && StartsWith(parts[j], "--")
    requires j + 1 == |parts| || StartsWith(parts[j + 1], "-")
    ensures FlagWrite(parts, j) == Some((parts[j][2..], Set))
  {
  }

  /** `-x` writes `true` under `x`: exactly one dash is stripped. */
  lemma ShortFlagStripsOneDash(parts: seq<string>, j: nat)
    requires 1 <= j < |parts| && StartsWith(parts[j], "-") && !StartsWith(parts[j], "--")
    ensures FlagWrite(parts, j) == Some((parts[j][1..], Set))
    ensures [parts[j][0]] + parts[j][1..] == parts[j] && parts[j][0] == '-'
  {
    assert parts[j][..1] == "-";
  }

  /** Every piece is used at most once: arguments plus distinct flags never outnumber the pieces after the command. */
  lemma {:induction false} PiecesUsedOnce(parts: seq<string>, n: nat)
    requires 1 <= n <= |parts|
    ensures |ArgsUpTo(parts, n)| + |FlagsUpTo(parts, n).Keys| <= n - 1
  {
    if n > 1 {
      PiecesUsedOnce(parts, n - 1);
      var m := FlagsUpTo(parts, n - 1);
      match FlagWrite(parts, n - 1)
      case Some(w) =>
        assert Assign(m, w.0, w.1).Keys <= m.Keys + {w.0};
        assert |m.Keys + {w.0}| <= |m.Keys| + 1;
      case None =>
    }
  }

  /** What the session relies on: a parsed line's arguments never start with `-`. */
  lemma ParsedArgsHaveNoDash(input: string)
    ensures forall a :: a in Parse(input).args ==> !StartsWith(a, "-")
    ensures |Parse(input).args| + |Parse(input).flags.Keys| <= |Pieces(input)| - 1
  {
    ArgsComeFromArgPieces(Pieces(input), |Pieces(input)|);
    PiecesUsedOnce(Pieces(input), |Pieces(input)|);
  }

  /** Words joined by single spaces split back into those words. */
  lemma PiecesOfJoin(ws: seq<string>)
    requires ws != [] && forall i :: 0 <= i < |ws| ==> ws[i] != [] && NoSpace(ws[i])
    ensures Pieces(Join(ws, " ")) == ws
  {
    WordsOfJoin(ws);
    TrimOfJoin(ws);
  }
}
