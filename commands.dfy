/** The six commands, the session context they share, and the file-system
    operations they call, which are left to the host. */
module Commands {
  import opened Wrappers
  import opened Strings
  import opened LineParser
  import opened TreeMaps
  import opened Seqs

  /** A path as `File.toString()` shows it. */
  type Path = string

  /** What the commands ask of the host's file system. `isDirectory`,
      `fileExists` and `absoluteFile` take the path as typed, so a relative one
      is resolved against the process's working directory; `listFiles`
      gives the entry names in enumeration order, or `None` when
      `File.listFiles` returns `null`; `readAll` gives the decoded file
      text, or `None` when reading raises `IOException`. */
  datatype FileSystem = FileSystem(
    isDirectory: Path -> bool,
    fileExists: Path -> bool,
    absoluteFile: Path -> Path,
    listFiles: Path -> Option<seq<string>>,
    readAll: Path -> Option<string>)

  const MSG_COMMAND_NOT_FOUND := "Command not found"
  const MSG_DELIM := "===================="
  const MSG_AVAILABLE := "Avaliable commands:\n" + MSG_DELIM
  const MSG_FAREWELL := "Finishing command processor... done."
  const MSG_NOT_DIRECTORY := "Is not directory..."
  const MSG_NO_FILE_NAME := "You did not enter a file name!"
  const MSG_FILE_NOT_FOUND := "File not found!"

  datatype Command = Help | Dir | Exit | Cd | Pwd | Cat {

    /** `getName()`: the registry key, written in upper case. */
    function Name(): (n: string)
      ensures |n| > 0 && UpperLetters(n)
    {
      match this
      case Help => "HELP"
      case Dir => "DIR"
      case Exit => "EXIT"
      case Cd => "CD"
      case Pwd => "PWD"
      case Cat => "CAT"
    }

    /** `getDescription()`. */
    function Description(): string
    {
      match this
      case Help => "Print list of available commands"
      case Dir => "Print directory content"
      case Exit => "Exist from command processor"
      case Cd => "Go to directory"
      case Pwd => "Absolute path to current directory"
      case Cat => "displays the contents of a text file"
    }

    /** The line `printHelp()` prints. */
    function HelpText(): string
    {
      Description()
    }
  }

  /** Different commands have different names, so each has its own key. */
  lemma NamesDistinct(c: Command, d: Command)
    requires c != d
    ensures c.Name() != d.Name()
  {
  }

  type Registry = Entries<Command>

  /** The registry the constructor builds, in `TreeMap` order. */
  const BUILTINS: Registry :=
    [("CAT", Cat), ("CD", Cd), ("DIR", Dir), ("EXIT", Exit), ("HELP", Help), ("PWD", Pwd)]

  /** The first three `put`s of the constructor: HELP, then DIR before it,
      then EXIT between them. */
  lemma RegisterHelpDirExit()
    ensures Put(Put(Put([], "HELP", Help), "DIR", Dir), "EXIT", Exit)
      == [("DIR", Dir), ("EXIT", Exit), ("HELP", Help)]
  {
    var m: Registry := [("HELP", Help)];
    PutFront([], "HELP", Help);
    assert Less("DIR", "HELP");
    PutFront(m, "DIR", Dir);
    m := [("DIR", Dir), ("HELP", Help)];
    assert Less("DIR", "EXIT") && Less("EXIT", "HELP");
    PutPast(m, "EXIT", Exit);
    PutFront(m[1..], "EXIT", Exit);
  }

  /** The last three `put`s: CD first, PWD last, CAT before CD. */
  lemma RegisterCdPwdCat()
    ensures Put(Put(Put([("DIR", Dir), ("EXIT", Exit), ("HELP", Help)], "CD", Cd), "PWD", Pwd), "CAT", Cat)
      == BUILTINS
  {
    assert Less("CD", "DIR");
    var m: Registry := [("DIR", Dir), ("EXIT", Exit), ("HELP", Help)];
    PutFront(m, "CD", Cd);
    m := [("CD", Cd)] + m;
    assert Less("CD", "PWD") && Less("DIR", "PWD") && Less("EXIT", "PWD") && Less("HELP", "PWD");
    PutPast(m, "PWD", Pwd);
    PutPast(m[1..], "PWD", Pwd);
    PutPast(m[2..], "PWD", Pwd);
    PutPast(m[3..], "PWD", Pwd);
    PutFront(m[4..], "PWD", Pwd);
    assert Put(m, "PWD", Pwd) == m + [("PWD", Pwd)];
    m := m + [("PWD", Pwd)];
    assert Less("CAT", "CD");
    PutFront(m, "CAT", Cat);
  }

  lemma BuiltinsSorted()
    ensures Sorted(BUILTINS)
  {
    assert Less("CAT", "CD") && Less("CD", "DIR") && Less("DIR", "EXIT")
      && Less("EXIT", "HELP") && Less("HELP", "PWD");
    forall i, j | 0 <= i < j < |BUILTINS| ensures Less(BUILTINS[i].0, BUILTINS[j].0) {
      if j > i + 1 {
        LessChain(BUILTINS, i, j);
      }
    }
  }

  lemma {:induction false} LessChain(es: Registry, i: nat, j: nat)
    requires i < j < |es|
    requires forall k :: 0 <= k < |es| - 1 ==> Less(es[k].0, es[k + 1].0)
    ensures Less(es[i].0, es[j].0)
    decreases j - i
  {
    if j > i + 1 {
      LessChain(es, i, j - 1);
      LessTransitive(es[i].0, es[j - 1].0, es[j].0);
    }
  }

  /** Every command is registered once, under its own name. */
  lemma BuiltinsByName(c: Command)
    ensures (c.Name(), c) in BUILTINS
    ensures forall i :: 0 <= i < |BUILTINS| ==> BUILTINS[i].0 == BUILTINS[i].1.Name()
  {
    match c
    case Cat => assert BUILTINS[0] == (c.Name(), c);
    case Cd => assert BUILTINS[1] == (c.Name(), c);
    case Dir => assert BUILTINS[2] == (c.Name(), c);
    case Exit => assert BUILTINS[3] == (c.Name(), c);
    case Help => assert BUILTINS[4] == (c.Name(), c);
    case Pwd => assert BUILTINS[5] == (c.Name(), c);
  }

  /** `commands.get(token.toUpperCase())`. */
  function Resolve(reg: Registry, token: string): Option<Command>
  {
    Get(reg, ToUpper(token))
  }

  /** Lookup ignores case: a token finds a command exactly when it spells
      that command's name with each letter in either case. */
  lemma ResolveBuiltins(token: string, c: Command)
    ensures Resolve(BUILTINS, token) == Some(c) <==> IsCasingOf(token, c.Name())
  {
    BuiltinsSorted();
    BuiltinsByName(c);
    GetSorted(BUILTINS, ToUpper(token), c);
    assert (ToUpper(token), c) in BUILTINS <==> ToUpper(token) == c.Name();
    ToUpperMatchesCasings(token, c.Name());
  }

  /** A token that is no casing of a name finds nothing. */
  lemma ResolveBuiltinsNone(token: string)
    ensures Resolve(BUILTINS, token).None? <==> forall c: Command :: !IsCasingOf(token, c.Name())
  {
    if Resolve(BUILTINS, token).Some? {
      ResolveBuiltins(token, Resolve(BUILTINS, token).value);
    }
    forall c: Command ensures IsCasingOf(token, c.Name()) ==> Resolve(BUILTINS, token).Some? {
      ResolveBuiltins(token, c);
    }
  }

  /** Any two casings of one name find the same command. */
  lemma ResolveCaseInsensitive(s: string, t: string, c: Command)
    requires IsCasingOf(s, c.Name()) && IsCasingOf(t, c.Name())
    ensures Resolve(BUILTINS, s) == Resolve(BUILTINS, t) == Some(c)
  {
    ResolveBuiltins(s, c);
    ResolveBuiltins(t, c);
  }

  /** The mutable session state: `Context.currentDirectory`. */
  class Context {
    var currentDirectory: Path

    constructor (dir: Path)
      ensures currentDirectory == dir
    {
      currentDirectory := dir;
    }
  }

  /** The line HELP prints for one command of the summary. */
  function SummaryLine(c: Command): string
  {
    c.Name() + ": " + c.Description()
  }

  /** What `HELP name` prints for one name. */
  function HelpFor(reg: Registry, name: string): seq<string>
  {
    ["Help for command " + name + ":\n" + MSG_DELIM]
    + (match Resolve(reg, name)
       case None => [MSG_COMMAND_NOT_FOUND]
       case Some(c) => [c.HelpText()])
    + [MSG_DELIM]
  }

  function HelpForAll(reg: Registry, names: seq<string>): seq<string>
  {
    if names == [] then []
    else HelpForAll(reg, names[..|names| - 1]) + HelpFor(reg, names[|names| - 1])
  }

  /** Everything HELP prints. */
  function HelpOutput(reg: Registry, args: Args): seq<string>
  {
    match args
    case None => [MSG_AVAILABLE] + Map(SummaryLine, Values(reg)) + [MSG_DELIM]
    case Some(names) => HelpForAll(reg, names)
  }

  /** HELP without arguments: the header, one line per command in
      ascending name order, then the delimiter. */
  lemma HelpSummary(reg: Registry)
    requires Sorted(reg)
    ensures var out := HelpOutput(reg, None);
      && |out| == |reg| + 2
      && out[0] == MSG_AVAILABLE && out[|reg| + 1] == MSG_DELIM
      && (forall i :: 0 <= i < |reg| ==> out[i + 1] == SummaryLine(reg[i].1))
      && (forall i, j :: 0 <= i < j < |reg| ==> Less(reg[i].0, reg[j].0))
  {
    var vs := Values(reg);
    var lines := Map(SummaryLine, vs);
    var out := HelpOutput(reg, None);
    assert out == [MSG_AVAILABLE] + lines + [MSG_DELIM];
    Framed(MSG_AVAILABLE, lines, MSG_DELIM);
    forall i | 0 <= i < |reg| ensures out[i + 1] == SummaryLine(reg[i].1) {
      assert out[i + 1] == lines[i] == SummaryLine(vs[i]);
      assert vs[i] == reg[i].1;
    }
  }

  /** The built-in summary lists CAT, CD, DIR, EXIT, HELP, PWD in that order,
      one line each between the header and the delimiter. */
  lemma HelpSummaryBuiltins()
    ensures Values(BUILTINS) == [Cat, Cd, Dir, Exit, Help, Pwd]
    ensures var out := HelpOutput(BUILTINS, None);
      && |out| == 8 && out[0] == MSG_AVAILABLE && out[7] == MSG_DELIM
      && forall i :: 0 <= i < 6 ==> out[i + 1] == SummaryLine([Cat, Cd, Dir, Exit, Help, Pwd][i])
  {
    BuiltinsSorted();
    HelpSummary(BUILTINS);
    assert Values(BUILTINS) == [Cat, Cd, Dir, Exit, Help, Pwd];
  }

  /** HELP with arguments: three lines per name, in the order given: a
      header, the name's help or "Command not found", the delimiter. */
  lemma {:induction false} HelpForAllShape(reg: Registry, names: seq<string>)
    ensures |HelpForAll(reg, names)| == 3 * |names|
    ensures forall i :: 0 <= i < |names| ==>
      HelpForAll(reg, names)[3 * i .. 3 * i + 3] == HelpFor(reg, names[i])
    decreases |names|
  {
    if names != [] {
      var init := names[..|names| - 1];
      HelpForAllShape(reg, init);
      var out := HelpForAll(reg, names);
      assert out == HelpForAll(reg, init) + HelpFor(reg, names[|names| - 1]);
      forall i | 0 <= i < |names| ensures out[3 * i .. 3 * i + 3] == HelpFor(reg, names[i]) {
        if i < |init| {
          assert out[3 * i .. 3 * i + 3] == HelpForAll(reg, init)[3 * i .. 3 * i + 3];
        }
      }
    }
  }

  /** What `printDir(dir)` prints: every entry name, nothing if the
      directory cannot be listed. */
  function Listing(fs: FileSystem, dir: Path): seq<string>
  {
    match fs.listFiles(dir)
    case None => []
    case Some(names) => names
  }

  /** The file CAT opens: `currentDirectory + "\\" + name`. */
  function CatPath(dir: Path, name: string): Path
  {
    dir + "\\" + name
  }

  /** The result of one `execute`: whether to go on, the context's
      directory afterwards, and the lines printed. */
  datatype StepResult = StepResult(cont: bool, directory: Path, out: seq<string>)

  /** `cmd.execute(context, args)` with the context's directory `dir`. */
  function Step(reg: Registry, cmd: Command, dir: Path, args: Args, fs: FileSystem): (r: StepResult)
    ensures r.cont <==> cmd != Exit
    ensures cmd != Cd && cmd != Pwd ==> r.directory == dir
    ensures r.directory != dir ==> args.Some? && r.directory == fs.absoluteFile(args.value[0])
  {
    match cmd
    case Help => StepResult(true, dir, HelpOutput(reg, args))
    case Dir =>
      StepResult(true, dir, Listing(fs, if args.None? then dir else fs.absoluteFile(args.value[0])))
    case Exit => StepResult(false, dir, [MSG_FAREWELL])
    case Cd =>
      if args.None? then StepResult(true, dir, [])
      else if fs.isDirectory(args.value[0]) then StepResult(true, fs.absoluteFile(args.value[0]), [])
      else StepResult(true, dir, [MSG_NOT_DIRECTORY])
    case Pwd =>
      if args.None? then StepResult(true, dir, [dir])
      else StepResult(true, fs.absoluteFile(args.value[0]), [fs.absoluteFile(args.value[0])])
    case Cat =>
      if args.None? then StepResult(true, dir, [MSG_NO_FILE_NAME])
      else if fs.fileExists(CatPath(dir, args.value[0])) then
        StepResult(true, dir, match fs.readAll(CatPath(dir, args.value[0]))
                              case None => []
                              case Some(text) => [text])
      else StepResult(true, dir, [MSG_FILE_NOT_FOUND])
  }

  /** CD tests and resolves the argument as typed: the session directory
      plays no part in where it goes or what it prints. */
  lemma CdIgnoresSessionDirectory(reg: Registry, d1: Path, d2: Path, args: Args, fs: FileSystem)
    requires args.Some? && fs.isDirectory(args.value[0])
    ensures Step(reg, Cd, d1, args, fs) == Step(reg, Cd, d2, args, fs)
  {
  }
}
