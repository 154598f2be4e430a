/** The dispatch loop of `CommandProcessor.execute()` as a function of the
    input lines: what it does with each line and how a session ends. */
module Dispatch {
  import opened Wrappers
  import opened LineParser
  import opened TreeMaps
  import opened Commands
  import opened Seqs

  /** What the loop does with one line: fail in the parser, skip an empty
      command, report an unknown one, or invoke a registered command. */
  datatype LineAction = Crash | Skip | NotFound | Invoke(cmd: Command, args: Args)

  function Classify(reg: Registry, line: string): (a: LineAction)
    ensures a.Crash? <==> |line| > 0 && AllSpaces(line)
    ensures a.Skip? <==> Parse(line).Parsed? && Parse(line).value.command == ""
  {
    match Parse(line)
    case NoTokens => Crash
    case Parsed(pc) =>
      if pc.command == "" then Skip
      else match Resolve(reg, pc.command)
        case None => NotFound
        case Some(cmd) => Invoke(cmd, pc.args)
  }

  /** How a session ends: a command returned `false`, `nextLine()` found no
      more input, or the parser raised on a line of spaces. */
  datatype Outcome = Exited | InputExhausted | ParseCrashed

  /** The end of a session: its outcome, the context's directory, every
      line printed, and how many input lines were read. */
  datatype Session = Session(outcome: Outcome, directory: Path, trace: seq<string>, consumed: nat)

  /** A session `s` preceded by `n` lines that printed `out`. */
  function Then(out: seq<string>, n: nat, s: Session): Session
  {
    Session(s.outcome, s.directory, out + s.trace, n + s.consumed)
  }

  /** The effect of one line, `None` when the parser fails on it. An empty
      command and an unknown name go on without touching the context. */
  function LineStep(reg: Registry, fs: FileSystem, dir: Path, line: string): (r: Option<StepResult>)
    ensures r.None? <==> Classify(reg, line).Crash?
    ensures r.Some? ==> (!r.value.cont <==> Stops(reg, line))
    ensures r.Some? && r.value.directory != dir ==> Classify(reg, line).Invoke?
  {
    match Classify(reg, line)
    case Crash => None
    case Skip => Some(StepResult(true, dir, []))
    case NotFound => Some(StepResult(true, dir, [MSG_COMMAND_NOT_FOUND]))
    case Invoke(cmd, args) => Some(Step(reg, cmd, dir, args, fs))
  }

  /** What one round of the loop does with a line in a given directory. */
  type Stepper = (Path, string) -> Option<StepResult>

  function Shell(reg: Registry, fs: FileSystem): Stepper
  {
    (dir, line) => LineStep(reg, fs, dir, line)
  }

  /** The session that reads `lines` one per round, starting in `dir`. */
  function Run(step: Stepper, dir: Path, lines: seq<string>): Session
    decreases |lines|
  {
    if lines == [] then Session(InputExhausted, dir, [], 0)
    else match step(dir, lines[0])
      case None => Session(ParseCrashed, dir, [], 1)
      case Some(r) =>
        if r.cont then Then(r.out, 1, Run(step, r.directory, lines[1..]))
        else Session(Exited, r.directory, r.out, 1)
  }

  /** The line ends the session whatever the state: it fails to parse or invokes EXIT. */
  predicate Stops(reg: Registry, line: string)
  {
    Classify(reg, line).Crash? || (Classify(reg, line).Invoke? && Classify(reg, line).cmd == Exit)
  }

  /** The index of the first line that ends the session, or the number of lines. */
  function FirstStop(reg: Registry, lines: seq<string>): nat
  {
    FirstWhere(line => Stops(reg, line), lines)
  }

  /** A session reads up to the first line that stops it, and how it ends
      depends on the input lines alone, not on the file system or the
      directory: it exits exactly at an EXIT, crashes exactly at a line of
      spaces, and otherwise reads every line. */
  lemma {:induction false} RunEndsAtFirstStop(reg: Registry, fs: FileSystem, dir: Path, lines: seq<string>)
    ensures var s := Run(Shell(reg, fs), dir, lines); var k := FirstStop(reg, lines);
      && s.consumed == (if k < |lines| then k + 1 else |lines|)
      && (s.outcome == InputExhausted <==> k == |lines|)
      && (s.outcome == Exited <==> k < |lines| && Classify(reg, lines[k]).Invoke?)
      && (s.outcome == ParseCrashed <==> k < |lines| && Classify(reg, lines[k]).Crash?)
    decreases |lines|
  {
    if lines != [] {
      var step := Shell(reg, fs);
      var r := LineStep(reg, fs, dir, lines[0]);
      assert step(dir, lines[0]) == r;
      var stops := line => Stops(reg, line);
      if Stops(reg, lines[0]) {
        assert FirstWhere(stops, lines) == 0;
      } else {
        var rest := lines[1..];
        RunEndsAtFirstStop(reg, fs, r.value.directory, rest);
        var k := FirstWhere(stops, rest);
        assert FirstWhere(stops, lines) == k + 1;
        assert Run(step, dir, lines) == Then(r.value.out, 1, Run(step, r.value.directory, rest));
        if k < |rest| {
          assert rest[k] == lines[k + 1];
        }
      }
    }
  }

  /** Without an EXIT and a line of spaces the loop reads all the input and
      then fails in `nextLine()`. */
  lemma RunWithoutStop(reg: Registry, fs: FileSystem, dir: Path, lines: seq<string>)
    requires forall j :: 0 <= j < |lines| ==> !Stops(reg, lines[j])
    ensures Run(Shell(reg, fs), dir, lines).outcome == InputExhausted
    ensures Run(Shell(reg, fs), dir, lines).consumed == |lines|
  {
    RunEndsAtFirstStop(reg, fs, dir, lines);
  }

  /** Round `i` of a session whose first `i` lines printed `trace`: it
      fails in the parser, stops, or goes on with the output extended. */
  lemma RunRound(step: Stepper, dir: Path, lines: seq<string>, i: nat, trace: seq<string>)
    requires i < |lines|
    ensures Then(trace, i, Run(step, dir, lines[i..])) == match step(dir, lines[i])
      case None => Session(ParseCrashed, dir, trace, i + 1)
      case Some(r) =>
        if r.cont then Then(trace + r.out, i + 1, Run(step, r.directory, lines[i + 1..]))
        else Session(Exited, r.directory, trace + r.out, i + 1)
  {
    var rest := lines[i..];
    assert rest[0] == lines[i] && rest[1..] == lines[i + 1..];
    match step(dir, lines[i])
    case None =>
      assert trace + [] == trace;
    case Some(r) =>
      if r.cont {
        ThenThen(trace, i, r.out, 1, Run(step, r.directory, lines[i + 1..]));
      }
  }

  /** One round that neither fails nor stops: its output, then the rest. */
  lemma RunCons(step: Stepper, dir: Path, line: string, rest: seq<string>)
    requires step(dir, line).Some? && step(dir, line).value.cont
    ensures var r := step(dir, line).value;
      Run(step, dir, [line] + rest) == Then(r.out, 1, Run(step, r.directory, rest))
  {
    assert ([line] + rest)[0] == line && ([line] + rest)[1..] == rest;
  }

  /** An empty command is not looked up, prints nothing, leaves the
      directory alone, and the loop reads on. */
  lemma RunSkipsEmptyCommand(reg: Registry, fs: FileSystem, dir: Path, line: string, rest: seq<string>)
    requires Parse(line).Parsed? && Parse(line).value.command == ""
    ensures Run(Shell(reg, fs), dir, [line] + rest) == Then([], 1, Run(Shell(reg, fs), dir, rest))
  {
    assert Shell(reg, fs)(dir, line) == Some(StepResult(true, dir, []));
    RunCons(Shell(reg, fs), dir, line, rest);
  }

  /** An unknown name prints exactly "Command not found" and the loop reads on. */
  lemma RunUnknownCommand(reg: Registry, fs: FileSystem, dir: Path, line: string, rest: seq<string>)
    requires Parse(line).Parsed? && Parse(line).value.command != ""
    requires Resolve(reg, Parse(line).value.command).None?
    ensures Run(Shell(reg, fs), dir, [line] + rest)
      == Then([MSG_COMMAND_NOT_FOUND], 1, Run(Shell(reg, fs), dir, rest))
  {
    assert Shell(reg, fs)(dir, line) == Some(StepResult(true, dir, [MSG_COMMAND_NOT_FOUND]));
    RunCons(Shell(reg, fs), dir, line, rest);
  }

  /** A line of spaces ends the session in the parser, with nothing printed. */
  lemma RunParseCrash(reg: Registry, fs: FileSystem, dir: Path, line: string, rest: seq<string>)
    requires Parse(line).NoTokens?
    ensures Run(Shell(reg, fs), dir, [line] + rest) == Session(ParseCrashed, dir, [], 1)
  {
    assert Shell(reg, fs)(dir, line).None?;
    assert ([line] + rest)[0] == line;
  }

  /** A registered name runs its command: the loop reads on in the directory
      the command leaves, or ends there when the command returns `false`. */
  lemma RunInvoked(reg: Registry, fs: FileSystem, dir: Path, line: string, rest: seq<string>, cmd: Command)
    requires Parse(line).Parsed? && Parse(line).value.command != ""
    requires Resolve(reg, Parse(line).value.command) == Some(cmd)
    ensures var r := Step(reg, cmd, dir, Parse(line).value.args, fs);
      Run(Shell(reg, fs), dir, [line] + rest)
        == if r.cont then Then(r.out, 1, Run(Shell(reg, fs), r.directory, rest))
           else Session(Exited, r.directory, r.out, 1)
  {
    assert Shell(reg, fs)(dir, line) == Some(Step(reg, cmd, dir, Parse(line).value.args, fs));
    assert ([line] + rest)[0] == line && ([line] + rest)[1..] == rest;
  }

  lemma ThenThen(a: seq<string>, m: nat, b: seq<string>, n: nat, s: Session)
    ensures Then(a, m, Then(b, n, s)) == Then(a + b, m + n, s)
  {
    assert a + (b + s.trace) == (a + b) + s.trace;
  }

  /** A session resumed after some lines is the session of all of them. */
  lemma {:induction false} RunConcat(step: Stepper, dir: Path, xs: seq<string>, ys: seq<string>)
    requires Run(step, dir, xs).outcome == InputExhausted
    ensures var s := Run(step, dir, xs);
      Run(step, dir, xs + ys) == Then(s.trace, |xs|, Run(step, s.directory, ys))
    decreases |xs|
  {
    if xs == [] {
      assert xs + ys == ys;
    } else {
      var line := xs[0];
      var r := step(dir, line).value;
      assert xs == [line] + xs[1..];
      assert xs + ys == [line] + (xs[1..] + ys);
      RunCons(step, dir, line, xs[1..] + ys);
      var tail := Run(step, r.directory, xs[1..]);
      RunConcat(step, r.directory, xs[1..], ys);
      ThenThen(r.out, 1, tail.trace, |xs| - 1, Run(step, tail.directory, ys));
    }
  }

  lemma LineCd(fs: FileSystem, dir: Path, name: string)
    requires name != "" && NoSpace(name) && fs.isDirectory(name)
    ensures LineStep(BUILTINS, fs, dir, "CD " + name) == Some(StepResult(true, fs.absoluteFile(name), []))
  {
    var cd := ParsedCommand("CD", Some([name]));
    assert Tokens(Words(cd));
    ParseJoin(cd);
    assert Join(Words(cd)) == "CD " + name;
    ResolveBuiltins("CD", Cd);
    assert Classify(BUILTINS, "CD " + name) == Invoke(Cd, Some([name]));
  }

  lemma LineBare(fs: FileSystem, dir: Path, word: string, c: Command)
    requires word == c.Name()
    ensures LineStep(BUILTINS, fs, dir, word) == Some(Step(BUILTINS, c, dir, None, fs))
  {
    assert ' ' !in word;
    ResolveBuiltins(word, c);
  }

  /** `CD dir` followed by `PWD` prints the absolute form of `dir`, and the
      session goes on from there. */
  lemma CdThenPwd(fs: FileSystem, dir: Path, name: string, rest: seq<string>)
    requires name != "" && NoSpace(name) && fs.isDirectory(name)
    ensures Run(Shell(BUILTINS, fs), dir, ["CD " + name, "PWD"] + rest)
      == Then([fs.absoluteFile(name)], 2, Run(Shell(BUILTINS, fs), fs.absoluteFile(name), rest))
  {
    var step := Shell(BUILTINS, fs);
    var target := fs.absoluteFile(name);
    LineCd(fs, dir, name);
    assert step(dir, "CD " + name) == Some(StepResult(true, target, []));
    LineBare(fs, target, "PWD", Pwd);
    assert step(target, "PWD") == Some(StepResult(true, target, [target]));
    ConsPair("CD " + name, "PWD", rest);
    RunCons(step, dir, "CD " + name, ["PWD"] + rest);
    RunCons(step, target, "PWD", rest);
    ThenThen([], 1, [target], 1, Run(step, target, rest));
  }

  /** The session `DIR`, `CD name`, `PWD`, `EXIT` from a directory `dir`
      in which `name` is a directory: the listing of `dir`, nothing for CD,
      the absolute form of `name`, the farewell, and the loop stops. */
  lemma DirCdPwdExit(fs: FileSystem, dir: Path, name: string, entries: seq<string>)
    requires name != "" && NoSpace(name) && fs.isDirectory(name)
    requires fs.listFiles(dir) == Some(entries)
    ensures Run(Shell(BUILTINS, fs), dir, ["DIR", "CD " + name, "PWD", "EXIT"])
      == Session(Exited, fs.absoluteFile(name), entries + [fs.absoluteFile(name), MSG_FAREWELL], 4)
  {
    var step := Shell(BUILTINS, fs);
    var target := fs.absoluteFile(name);
    LineBare(fs, dir, "DIR", Dir);
    assert step(dir, "DIR") == Some(StepResult(true, dir, entries));
    LineBare(fs, target, "EXIT", Exit);
    assert step(target, "EXIT") == Some(StepResult(false, target, [MSG_FAREWELL]));
    ConsFour("DIR", "CD " + name, "PWD", "EXIT");
    RunCons(step, dir, "DIR", ["CD " + name, "PWD"] + ["EXIT"]);
    CdThenPwd(fs, dir, name, ["EXIT"]);
    assert Run(step, target, ["EXIT"]) == Session(Exited, target, [MSG_FAREWELL], 1);
    ThenThen(entries, 1, [target], 2, Run(step, target, ["EXIT"]));
  }
}
