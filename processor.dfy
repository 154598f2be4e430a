/** `CommandProcessor`: the registry it builds, the six commands' `execute`
    methods, and the read-parse-dispatch loop. */
module Processor {
  import opened Wrappers
  import opened Strings
  import opened LineParser
  import opened TreeMaps
  import opened Seqs
  import opened Commands
  import opened Dispatch

  class CommandProcessor {
    /** The `TreeMap` from upper-case name to command. */
    var commands: Registry
    /** The charset of the console `Scanner`; input lines arrive decoded. */
    var consoleEncoding: string

    ghost predicate Valid()
      reads this
    {
      Sorted(commands)
    }

    /** Registers the six commands under their names; the map then lists
        them in ascending name order. */
    constructor (consoleEncoding: string)
      ensures Valid()
      ensures commands == BUILTINS
      ensures this.consoleEncoding == consoleEncoding
    {
      commands := [];
      new;
      var cmd: Command := Help;
      commands := Put(commands, cmd.Name(), cmd);
      cmd := Dir;
      commands := Put(commands, cmd.Name(), cmd);
      cmd := Exit;
      commands := Put(commands, cmd.Name(), cmd);
      RegisterHelpDirExit();
      cmd := Cd;
      commands := Put(commands, cmd.Name(), cmd);
      cmd := Pwd;
      commands := Put(commands, cmd.Name(), cmd);
      cmd := Cat;
      commands := Put(commands, cmd.Name(), cmd);
      RegisterCdPwdCat();
      this.consoleEncoding := consoleEncoding;
      BuiltinsSorted();
    }

    /** `HelpCommand.execute`. Without arguments it prints one line per
        registered command, in the map's ascending key order. */
    method ExecuteHelp(args: Args) returns (cont: bool, out: seq<string>)
      requires Valid()
      ensures cont
      ensures out == HelpOutput(commands, args)
      ensures args.None? ==> |out| == |commands| + 2
      ensures args.None? ==> forall i :: 0 <= i < |commands| ==> out[i + 1] == SummaryLine(commands[i].1)
    {
      if args.None? {
        out := PrintSummary();
        HelpSummary(commands);
      } else {
        out := PrintHelpFor(args.value);
      }
      cont := true;
    }

    /** HELP without arguments: every registered command in `values()` order. */
    method PrintSummary() returns (out: seq<string>)
      ensures out == [MSG_AVAILABLE] + Map(SummaryLine, Values(commands)) + [MSG_DELIM]
    {
      out := [MSG_AVAILABLE];
      var values := Values(commands);
      for i := 0 to |values|
        invariant out == [MSG_AVAILABLE] + Map(SummaryLine, values[..i])
      {
        MapStep(SummaryLine, values, i);
        AppendAssoc([MSG_AVAILABLE], Map(SummaryLine, values[..i]), [SummaryLine(values[i])]);
        out := out + [SummaryLine(values[i])];
      }
      assert values[..|values|] == values;
      out := out + [MSG_DELIM];
    }

    /** HELP with arguments: each name's help between a header and the delimiter. */
    method PrintHelpFor(names: seq<string>) returns (out: seq<string>)
      ensures out == HelpForAll(commands, names)
    {
      out := [];
      for i := 0 to |names|
        invariant out == HelpForAll(commands, names[..i])
      {
        var name := names[i];
        out := out + ["Help for command " + name + ":\n" + MSG_DELIM];
        var command := Resolve(commands, name);
        if command.None? {
          out := out + [MSG_COMMAND_NOT_FOUND];
        } else {
          out := out + [command.value.HelpText()];
        }
        out := out + [MSG_DELIM];
        assert names[..i + 1][..i] == names[..i];
      }
      assert names[..|names|] == names;
    }

    /** `DirCommand.printDir`: one line per entry, none when the directory
        cannot be listed. */
    method PrintDir(dir: Path, fs: FileSystem) returns (out: seq<string>)
      ensures out == Listing(fs, dir)
    {
      out := [];
      var files := fs.listFiles(dir);
      if files.Some? {
        for i := 0 to |files.value|
          invariant out == files.value[..i]
        {
          out := out + [files.value[i]];
        }
      }
    }

    /** `DirCommand.execute`: lists the current directory, or the absolute
        form of `args[0]`, restoring the context afterwards. */
    method ExecuteDir(ctx: Context, args: Args, fs: FileSystem) returns (cont: bool, out: seq<string>)
      modifies ctx
      ensures cont
      ensures ctx.currentDirectory == old(ctx.currentDirectory)
      ensures out == Listing(fs, if args.None? then old(ctx.currentDirectory) else fs.absoluteFile(args.value[0]))
    {
      if args.None? {
        out := PrintDir(ctx.currentDirectory, fs);
      } else {
        var gFile := ctx.currentDirectory;
        ctx.currentDirectory := fs.absoluteFile(args.value[0]);
        out := PrintDir(ctx.currentDirectory, fs);
        ctx.currentDirectory := gFile;
      }
      cont := true;
    }

    /** `ExitCommand.execute`: the farewell, and the loop is to stop. */
    method ExecuteExit() returns (cont: bool, out: seq<string>)
      ensures !cont
      ensures out == [MSG_FAREWELL]
    {
      out := [MSG_FAREWELL];
      cont := false;
    }

    /** `CdCommand.execute`. */
    method ExecuteCd(ctx: Context, args: Args, fs: FileSystem) returns (cont: bool, out: seq<string>)
      modifies ctx
      ensures cont
      ensures args.None? ==> ctx.currentDirectory == old(ctx.currentDirectory) && out == []
      ensures args.Some? && fs.isDirectory(args.value[0]) ==>
        ctx.currentDirectory == fs.absoluteFile(args.value[0]) && out == []
      ensures args.Some? && !fs.isDirectory(args.value[0]) ==>
        ctx.currentDirectory == old(ctx.currentDirectory) && out == [MSG_NOT_DIRECTORY]
    {
      out := [];
      if args.Some? {
        if fs.isDirectory(args.value[0]) {
          ctx.currentDirectory := fs.absoluteFile(args.value[0]);
        } else {
          out := [MSG_NOT_DIRECTORY];
        }
      }
      cont := true;
    }

    /** `PwdCommand.execute`. */
    method ExecutePwd(ctx: Context, args: Args, fs: FileSystem) returns (cont: bool, out: seq<string>)
      modifies ctx
      ensures cont
      ensures args.None? ==> ctx.currentDirectory == old(ctx.currentDirectory)
      ensures args.Some? ==> ctx.currentDirectory == fs.absoluteFile(args.value[0])
      ensures out == [ctx.currentDirectory]
    {
      if args.Some? {
        ctx.currentDirectory := fs.absoluteFile(args.value[0]);
      }
      out := [ctx.currentDirectory];
      cont := true;
    }

    /** `CatCommand.execute`: the file is looked up at
        `currentDirectory + "\\" + args[0]`; a failed read prints nothing. */
    method ExecuteCat(ctx: Context, args: Args, fs: FileSystem) returns (cont: bool, out: seq<string>)
      ensures cont
      ensures args.None? ==> out == [MSG_NO_FILE_NAME]
      ensures args.Some? && !fs.fileExists(CatPath(ctx.currentDirectory, args.value[0])) ==>
        out == [MSG_FILE_NOT_FOUND]
      ensures args.Some? && fs.fileExists(CatPath(ctx.currentDirectory, args.value[0])) ==>
        out == match fs.readAll(CatPath(ctx.currentDirectory, args.value[0]))
               case None => []
               case Some(text) => [text]
    {
      if args.None? {
        out := [MSG_NO_FILE_NAME];
      } else {
        var nameFile := ctx.currentDirectory + "\\" + args.value[0];
        if fs.fileExists(nameFile) {
          var contents := fs.readAll(nameFile);
          out := if contents.Some? then [contents.value] else [];
        } else {
          out := [MSG_FILE_NOT_FOUND];
        }
      }
      cont := true;
    }

    /** `cmd.execute(context, args)`, dispatched to the command's class. */
    method Invoke(cmd: Command, ctx: Context, args: Args, fs: FileSystem) returns (cont: bool, out: seq<string>)
      requires Valid()
      modifies ctx
      ensures StepResult(cont, ctx.currentDirectory, out) == Step(commands, cmd, old(ctx.currentDirectory), args, fs)
    {
      match cmd
      case Help => cont, out := ExecuteHelp(args);
      case Dir => cont, out := ExecuteDir(ctx, args, fs);
      case Exit => cont, out := ExecuteExit();
      case Cd => cont, out := ExecuteCd(ctx, args, fs);
      case Pwd => cont, out := ExecutePwd(ctx, args, fs);
      case Cat => cont, out := ExecuteCat(ctx, args, fs);
    }

    /** One round of `execute()` after `nextLine()`: parse the line, skip an
        empty command, report an unknown one, or run the command. `crashed`
        means the parser raised on a line of spaces. */
    method HandleLine(c: Context, fs: FileSystem, fullCommand: string)
      returns (crashed: bool, result: bool, out: seq<string>)
      requires Valid()
      modifies c
      ensures crashed <==> LineStep(commands, fs, old(c.currentDirectory), fullCommand).None?
      ensures crashed ==> c.currentDirectory == old(c.currentDirectory)
      ensures !crashed ==>
        LineStep(commands, fs, old(c.currentDirectory), fullCommand) == Some(StepResult(result, c.currentDirectory, out))
    {
      var pc := Parse(fullCommand);
      if pc.NoTokens? {
        // parts[0] throws on a line of spaces
        return true, true, [];
      }
      if pc.value.command == "" {
        return false, true, [];
      }
      var cmd := Resolve(commands, pc.value.command);
      if cmd.None? {
        return false, true, [MSG_COMMAND_NOT_FOUND];
      }
      crashed := false;
      result, out := Invoke(cmd.value, c, pc.value.args, fs);
    }

    /** `execute()`: starts in the absolute form of ".", then reads, parses
        and dispatches one line per round until a command returns `false`,
        the input runs out, or the parser fails. */
    method Execute(fs: FileSystem, input: seq<string>) returns (s: Session)
      requires Valid()
      ensures s == Run(Shell(commands, fs), fs.absoluteFile("."), input)
    {
      ghost var step := Shell(commands, fs);
      var c := new Context(fs.absoluteFile("."));
      var result := true;
      var trace: seq<string> := [];
      var i := 0;
      while result
        invariant 0 <= i <= |input|
        invariant result ==>
          Run(step, fs.absoluteFile("."), input) == Then(trace, i, Run(step, c.currentDirectory, input[i..]))
        invariant !result ==>
          Run(step, fs.absoluteFile("."), input) == Session(Exited, c.currentDirectory, trace, i)
        decreases |input| - i
      {
        if i == |input| {
          // scanner.nextLine() throws: no line is left
          return Session(InputExhausted, c.currentDirectory, trace, i);
        }
        var fullCommand := input[i];
        ghost var dir := c.currentDirectory;
        RunRound(step, dir, input, i, trace);
        var crashed, out;
        crashed, result, out := HandleLine(c, fs, fullCommand);
        assert step(dir, fullCommand) == LineStep(commands, fs, dir, fullCommand);
        if crashed {
          return Session(ParseCrashed, c.currentDirectory, trace, i + 1);
        }
        trace := trace + out;
        i := i + 1;
      }
      s := Session(Exited, c.currentDirectory, trace, i);
    }
  }
}
