# Command processor model

A Dafny model of `CommandProcessor`, a small interactive shell. It reads
lines from the console. Each line is split on single spaces into a command
word and optional arguments. The word is upper-cased and looked up in a
`TreeMap` of six commands: HELP, DIR, EXIT, CD, PWD and CAT. The command
found runs against a shared `Context` that holds the current directory.
The loop goes on until a command returns `false`, which only EXIT does.

The model has these modules:

- `Wrappers`: `Option`.
- `Seqs`: generic sequence helpers, such as a `Map` over a sequence and the
  first index at which a predicate holds.
- `Strings`: `String.compareTo` as a strict total order, and `toUpperCase`.
- `LineParser`: `String.split(" ")` with Java's rules, and the
  `ParsedCommand` constructor:
  - a line with no space gives itself as the only piece, so `""` gives `[""]`;
  - empty pieces in the middle and at the front are kept;
  - trailing empty pieces are dropped;
  - a non-empty line of spaces gives no pieces at all. `parts[0]` then
    throws, and the model reports that as the `NoTokens` parse result.
  The arguments are `None` (Java `null`) or a non-empty sequence.
- `TreeMaps`: the `TreeMap` as a list of entries kept sorted by key.
  It has `put`, `get` and `values()`.
- `Commands`:
  - the six commands, with their names, descriptions and help text;
  - the registry and the case-insensitive lookup;
  - the `Context` class;
  - the file-system operations the commands use, passed in as functions
    (`isDirectory`, `exists`, `getAbsoluteFile`, `listFiles`, reading a file);
  - `Step`, the value-level meaning of each command's `execute`.
- `Dispatch`: the meaning of one input line (`LineStep`) and of a whole
  session (`Run`):
  - the session's final directory;
  - the lines printed, one element per `println`;
  - how many lines were read;
  - how it ended: `Exited` (EXIT), `ParseCrashed` (the exception thrown
    for a line of spaces) or `InputExhausted` (`nextLine()` throws when
    the input runs out).
- `Processor`: the `CommandProcessor` class. It has the `commands` field
  and the constructor that fills it with `put`s. It has one method per
  command's `execute`, and `Execute`, the `do … while (result)` loop over
  the input lines, which updates a `Context` object in place. Each method
  is proved equal to the functions of `Commands` and `Dispatch`, and the
  properties are proved about those functions.

Behaviour kept on purpose:

- A line made only of spaces is not skipped: the code indexes `parts[0]` of
  an empty array and the processor stops with an exception. The model
  follows the code.
- A leading space gives the empty command word, which is skipped. So
  `" pwd"` does nothing.
- `CD`, `PWD x` and `DIR x` resolve their argument as typed, so a relative
  name is resolved against the process's working directory, not the
  context's current directory.
- `PWD x` moves the context to the absolute form of `x`, without checking
  that it is a directory.
- CAT builds its path as `currentDirectory + "\" + name`.

## Model

| member | source | states |
|---|---|---|
| LineParser.SplitAll | exam/src/main/java/org/belov/CommandProcessor.java:71 | cutting a line at every space yields at least one piece |
| LineParser.JoinSnoc | exam/src/main/java/org/belov/CommandProcessor.java:71 | joining one more piece adds one space and that piece |
| LineParser.SplitAllJoin | exam/src/main/java/org/belov/CommandProcessor.java:71 | the pieces contain no space, and joining them with single spaces gives back the line |
| LineParser.JoinSplitAll | exam/src/main/java/org/belov/CommandProcessor.java:71 | cutting a join of space-free pieces gives back those pieces |
| LineParser.DropTrailingEmptyJoin | exam/src/main/java/org/belov/CommandProcessor.java:71 | dropping trailing empty pieces removes only trailing spaces from the joined line |
| LineParser.DropTrailingEmptyShape | exam/src/main/java/org/belov/CommandProcessor.java:71 | the result is a prefix, everything dropped is empty, and the last piece kept is not empty |
| LineParser.SplitAllSpaces | exam/src/main/java/org/belov/CommandProcessor.java:71 | a line of spaces cuts into empty pieces only |
| LineParser.DropTrailingEmptyAll | exam/src/main/java/org/belov/CommandProcessor.java:71 | a sequence of empty pieces is dropped entirely |
| LineParser.JavaSplit | exam/src/main/java/org/belov/CommandProcessor.java:71 | `line.split(" ")`: the pieces between single spaces, with trailing empty pieces dropped; its meaning is pinned down by JavaSplitCharacterized and JavaSplitJoin |
| LineParser.JavaSplitEmpty | exam/src/main/java/org/belov/CommandProcessor.java:71-73 | `split(" ")` yields no pieces exactly when the line is non-empty and all spaces, which is when `parts[0]` throws |
| LineParser.SplitAllSnocSpace | exam/src/main/java/org/belov/CommandProcessor.java:71 | a trailing space adds one empty piece before trailing pieces are dropped |
| LineParser.TrailingSpaceIgnored | exam/src/main/java/org/belov/CommandProcessor.java:71 | for a non-empty line, a trailing space does not change the split |
| LineParser.JoinHasSpace | exam/src/main/java/org/belov/CommandProcessor.java:71 | two or more joined pieces contain a space |
| LineParser.JavaSplitCharacterized | exam/src/main/java/org/belov/CommandProcessor.java:71 | the split's pieces have no space; the line is their single-space join followed only by spaces; the last piece is non-empty when the line contained a space |
| LineParser.JavaSplitJoin | exam/src/main/java/org/belov/CommandProcessor.java:71 | splitting the join of space-free pieces whose last piece is non-empty (if there are several) gives back the pieces |
| LineParser.Parse | exam/src/main/java/org/belov/CommandProcessor.java:70-79 | parsing fails exactly on a non-empty line of spaces; otherwise the command followed by the arguments is the split, and the arguments are `null` exactly when the split has one piece |
| LineParser.ParseRestoresLine | exam/src/main/java/org/belov/CommandProcessor.java:70-79 | the parsed words hold no space, and joining them and restoring the trailing spaces gives back the line |
| LineParser.ParseJoin | exam/src/main/java/org/belov/CommandProcessor.java:70-79 | a command with space-free words, whose last argument is non-empty, round-trips through join and parse |
| LineParser.ParseEmptyLine | exam/src/main/java/org/belov/CommandProcessor.java:70-79 | the empty line parses to the empty command with `null` arguments |
| LineParser.ParseTrailingSpace | exam/src/main/java/org/belov/CommandProcessor.java:70-79 | `"dir "` parses to `dir` with `null` arguments |
| LineParser.ParseLeadingSpace | exam/src/main/java/org/belov/CommandProcessor.java:70-79 | `" pwd"` parses to the empty command with the argument `pwd` |
| LineParser.ParseDoubleSpace | exam/src/main/java/org/belov/CommandProcessor.java:70-79 | `"cd  x"` parses to `cd` with the arguments `""` and `x` |
| LineParser.ParseOnlySpaces | exam/src/main/java/org/belov/CommandProcessor.java:70-79 | `"  "` does not parse |
| Strings.LessIrreflexive | exam/src/main/java/org/belov/CommandProcessor.java:22 | no key sorts before itself |
| Strings.LessTransitive | exam/src/main/java/org/belov/CommandProcessor.java:22 | key order is transitive |
| Strings.LessTotal | exam/src/main/java/org/belov/CommandProcessor.java:22 | of two different keys one sorts first |
| Strings.LessAsymmetric | exam/src/main/java/org/belov/CommandProcessor.java:22 | two keys never sort before each other |
| Strings.Less | exam/src/main/java/org/belov/CommandProcessor.java:22 | the key order of the `TreeMap`, `compareTo` on strings: first differing character, else the shorter string first; proved a strict total order by the four lemmas above |
| Strings.ToUpperKeepsUpper | exam/src/main/java/org/belov/CommandProcessor.java:51 | an upper-case name is its own upper case |
| Strings.ToUpper | exam/src/main/java/org/belov/CommandProcessor.java:51 | `toUpperCase()`, letter by letter; ToUpperMatchesCasings fixes which tokens map to an upper-case name |
| Strings.ToUpperMatchesCasings | exam/src/main/java/org/belov/CommandProcessor.java:51 | a token upper-cases to an upper-case name exactly when it spells that name with each letter in either case |
| TreeMaps.GetFound | exam/src/main/java/org/belov/CommandProcessor.java:51 | `get` finds a value exactly when the key is present, and the pair found is an entry |
| TreeMaps.GetSorted | exam/src/main/java/org/belov/CommandProcessor.java:51 | in a sorted map, `get` returns v exactly when (k, v) is an entry |
| TreeMaps.Get | exam/src/main/java/org/belov/CommandProcessor.java:51 | `TreeMap.get`: the value under the key, or `null` (None); GetFound and GetSorted give its meaning |
| TreeMaps.PutGetSame | exam/src/main/java/org/belov/CommandProcessor.java:24 | after `put(k, v)`, `get(k)` is v |
| TreeMaps.PutGetOther | exam/src/main/java/org/belov/CommandProcessor.java:24 | `put(k, v)` leaves `get` of every other key unchanged |
| TreeMaps.PutAbove | exam/src/main/java/org/belov/CommandProcessor.java:24 | putting a key above a bound keeps every key above that bound |
| TreeMaps.PutFront | exam/src/main/java/org/belov/CommandProcessor.java:24 | a key below every key goes first |
| TreeMaps.PutPast | exam/src/main/java/org/belov/CommandProcessor.java:24 | a key above the first key leaves the first entry in front |
| TreeMaps.PutInsert | exam/src/main/java/org/belov/CommandProcessor.java:24 | in a sorted map, a new key goes exactly between its neighbours and nothing else moves |
| TreeMaps.PutSorted | exam/src/main/java/org/belov/CommandProcessor.java:24 | `put` keeps the map sorted |
| TreeMaps.Put | exam/src/main/java/org/belov/CommandProcessor.java:24 | `TreeMap.put`: replaces the value under an existing key or inserts the key in order; PutGetSame, PutGetOther, PutInsert and PutSorted give its meaning |
| TreeMaps.Values | exam/src/main/java/org/belov/CommandProcessor.java:102 | `values()`: the values in ascending key order; HelpSummary relies on that order |
| Commands.Command.Name | exam/src/main/java/org/belov/CommandProcessor.java:127-301 | every command's name is non-empty and in upper-case letters |
| Commands.Command.Description | exam/src/main/java/org/belov/CommandProcessor.java:132-305 | the six `getDescription()` texts, word for word |
| Commands.Command.HelpText | exam/src/main/java/org/belov/CommandProcessor.java:122-296 | what each `printHelp()` prints: the command's description |
| Commands.NamesDistinct | exam/src/main/java/org/belov/CommandProcessor.java:22-34 | different commands have different names |
| Commands.RegisterHelpDirExit | exam/src/main/java/org/belov/CommandProcessor.java:22-28 | the first three `put`s give DIR, EXIT, HELP in that order |
| Commands.RegisterCdPwdCat | exam/src/main/java/org/belov/CommandProcessor.java:29-34 | the last three `put`s give CAT, CD, DIR, EXIT, HELP, PWD |
| Commands.BuiltinsSorted | exam/src/main/java/org/belov/CommandProcessor.java:22-34 | the registry's keys strictly ascend |
| Commands.LessChain | exam/src/main/java/org/belov/CommandProcessor.java:22 | keys that ascend pairwise ascend across any distance |
| Commands.BuiltinsByName | exam/src/main/java/org/belov/CommandProcessor.java:22-34 | every command is in the registry under its own name, and every key is its command's name |
| Commands.ResolveBuiltins | exam/src/main/java/org/belov/CommandProcessor.java:51 | a token finds a command exactly when it is a casing of that command's name |
| Commands.ResolveBuiltinsNone | exam/src/main/java/org/belov/CommandProcessor.java:51-54 | a token finds nothing exactly when it is a casing of no name |
| Commands.ResolveCaseInsensitive | exam/src/main/java/org/belov/CommandProcessor.java:51 | two casings of one name find the same command |
| Commands.Resolve | exam/src/main/java/org/belov/CommandProcessor.java:51 | `commands.get(token.toUpperCase())`; ResolveBuiltins and ResolveBuiltinsNone give its meaning for the built-in registry |
| Commands.Context.constructor | exam/src/main/java/org/belov/CommandProcessor.java:92-94 | a context starts at the directory given |
| Commands.SummaryLine | exam/src/main/java/org/belov/CommandProcessor.java:103 | the summary line `name: description` |
| Commands.HelpFor | exam/src/main/java/org/belov/CommandProcessor.java:108-115 | the three lines `HELP name` prints for one name: header, help text or "Command not found", delimiter |
| Commands.HelpForAll | exam/src/main/java/org/belov/CommandProcessor.java:107-116 | the lines for every name in order; HelpForAllShape gives its layout |
| Commands.HelpOutput | exam/src/main/java/org/belov/CommandProcessor.java:100-117 | everything HELP prints, with or without arguments; HelpSummary gives the summary's layout |
| Commands.HelpSummary | exam/src/main/java/org/belov/CommandProcessor.java:100-105 | HELP without arguments prints the header, one "name: description" line per registered command in ascending key order, and the delimiter |
| Commands.HelpSummaryBuiltins | exam/src/main/java/org/belov/CommandProcessor.java:100-105 | for the built-in registry the summary is 8 lines, with CAT, CD, DIR, EXIT, HELP, PWD in that order |
| Commands.HelpForAllShape | exam/src/main/java/org/belov/CommandProcessor.java:106-117 | HELP with names prints three lines per name, in the order given: a header, the help or "Command not found", the delimiter |
| Commands.Listing | exam/src/main/java/org/belov/CommandProcessor.java:165-172 | what `printDir` prints: the entry names in order, nothing when `listFiles` is `null` |
| Commands.CatPath | exam/src/main/java/org/belov/CommandProcessor.java:272 | the path CAT opens, `currentDirectory + "\\" + name` |
| Commands.Step | exam/src/main/java/org/belov/CommandProcessor.java:99-285 | only EXIT returns false; only CD and PWD move the context, and only to the absolute form of their first argument |
| Commands.CdIgnoresSessionDirectory | exam/src/main/java/org/belov/CommandProcessor.java:206-216 | a CD to a directory goes to the same place and prints the same thing whatever the context's directory |
| Dispatch.Classify | exam/src/main/java/org/belov/CommandProcessor.java:46-55 | a line crashes the parser exactly when it is a non-empty line of spaces, and is skipped exactly when its command word is empty |
| Dispatch.LineStep | exam/src/main/java/org/belov/CommandProcessor.java:46-56 | a round fails exactly on a crashing line; it stops the loop exactly on a line that stops; only an invoked command moves the directory |
| Dispatch.Run | exam/src/main/java/org/belov/CommandProcessor.java:44-57 | the `do … while (result)` loop over the input lines: rounds in order until one stops it; RunEndsAtFirstStop, RunRound and RunConcat give its meaning |
| Dispatch.RunEndsAtFirstStop | exam/src/main/java/org/belov/CommandProcessor.java:44-57 | a session reads up to the first line that is EXIT or all spaces; it exits exactly at an EXIT, crashes exactly at a line of spaces, and otherwise reads every line |
| Dispatch.RunWithoutStop | exam/src/main/java/org/belov/CommandProcessor.java:44-57 | input with no stopping line is read to the end |
| Dispatch.RunRound | exam/src/main/java/org/belov/CommandProcessor.java:44-57 | a session from line i is that line's round followed by the session from line i+1, or ends there |
| Dispatch.RunCons | exam/src/main/java/org/belov/CommandProcessor.java:44-57 | a round that continues prints its output and the loop goes on from the directory it leaves |
| Dispatch.RunSkipsEmptyCommand | exam/src/main/java/org/belov/CommandProcessor.java:48-49 | an empty command word prints nothing, keeps the directory, and the loop reads on |
| Dispatch.RunUnknownCommand | exam/src/main/java/org/belov/CommandProcessor.java:51-54 | an unknown name prints only "Command not found" and the loop reads on |
| Dispatch.RunParseCrash | exam/src/main/java/org/belov/CommandProcessor.java:47-73 | a line of spaces ends the session after that line, with nothing printed |
| Dispatch.RunInvoked | exam/src/main/java/org/belov/CommandProcessor.java:56-57 | a known name runs its command; the loop goes on from the directory it leaves, or exits when it returns false |
| Dispatch.ThenThen | exam/src/main/java/org/belov/CommandProcessor.java:44-57 | output and line counts of consecutive rounds add up |
| Dispatch.RunConcat | exam/src/main/java/org/belov/CommandProcessor.java:44-57 | a session over xs + ys, when xs does not stop it, is the session over xs followed by the session over ys from where xs left off |
| Dispatch.LineCd | exam/src/main/java/org/belov/CommandProcessor.java:206-216 | `CD name` with a directory name moves to its absolute form and prints nothing |
| Dispatch.LineBare | exam/src/main/java/org/belov/CommandProcessor.java:47-57 | a bare command name runs that command with `null` arguments |
| Dispatch.CdThenPwd | exam/src/main/java/org/belov/CommandProcessor.java:206-246 | `CD name` then `PWD` prints the absolute form of name, and the session goes on from there |
| Dispatch.DirCdPwdExit | exam/src/main/java/org/belov/CommandProcessor.java:44-57 | the session DIR, CD name, PWD, EXIT prints the listing, the new directory and the farewell, and exits after 4 lines in the new directory |
| Processor.CommandProcessor.constructor | exam/src/main/java/org/belov/CommandProcessor.java:21-36 | the six `put`s leave the registry sorted, holding CAT, CD, DIR, EXIT, HELP, PWD under their names, and the encoding is stored |
| Processor.CommandProcessor.ExecuteHelp | exam/src/main/java/org/belov/CommandProcessor.java:99-119 | HELP continues and prints `HelpOutput`; without arguments that is one summary line per registered command in the map's sorted key order, between the header and the delimiter |
| Processor.CommandProcessor.PrintSummary | exam/src/main/java/org/belov/CommandProcessor.java:100-105 | the loop over `values()` prints the header, one summary line per value in order, and the delimiter |
| Processor.CommandProcessor.PrintHelpFor | exam/src/main/java/org/belov/CommandProcessor.java:106-117 | the loop over the names prints each name's three-line help in order |
| Processor.CommandProcessor.PrintDir | exam/src/main/java/org/belov/CommandProcessor.java:165-172 | prints every entry name in order, or nothing when the directory cannot be listed |
| Processor.CommandProcessor.ExecuteDir | exam/src/main/java/org/belov/CommandProcessor.java:140-153 | lists the current directory or the named one, and restores the context's directory afterwards |
| Processor.CommandProcessor.ExecuteExit | exam/src/main/java/org/belov/CommandProcessor.java:182-185 | prints the farewell and returns false |
| Processor.CommandProcessor.ExecuteCd | exam/src/main/java/org/belov/CommandProcessor.java:206-216 | without arguments nothing happens; a directory becomes the current one; anything else prints "Is not directory..." |
| Processor.CommandProcessor.ExecutePwd | exam/src/main/java/org/belov/CommandProcessor.java:236-246 | prints the current directory after first moving to the argument's absolute form, if there is one |
| Processor.CommandProcessor.ExecuteCat | exam/src/main/java/org/belov/CommandProcessor.java:267-291 | asks for a file name, says "File not found!" for a missing file, or prints the file's text and prints nothing when reading fails |
| Processor.CommandProcessor.Invoke | exam/src/main/java/org/belov/CommandProcessor.java:56 | running a command and its new context match the command's meaning `Step` |
| Processor.CommandProcessor.HandleLine | exam/src/main/java/org/belov/CommandProcessor.java:46-56 | one round crashes exactly when `LineStep` fails and otherwise matches `LineStep`'s result and new directory |
| Processor.CommandProcessor.Execute | exam/src/main/java/org/belov/CommandProcessor.java:38-58 | the loop, started at the absolute form of ".", ends in the session `Run` describes: same outcome, directory, output and lines read |

## Left out

- Console I/O is left out. The `Scanner`, `System.out` and the `"> "` prompt
  are not modelled: input is a sequence of lines, and output is the
  sequence of `println` arguments.
- `main` is not modelled, and `consoleEncoding` is only stored: input lines
  arrive already decoded.
- The real file system is left out. `File.isDirectory`, `exists`,
  `getAbsoluteFile`, `toString`, `listFiles`, `getName` and
  `Files.readAllBytes` are functions supplied by the caller.
- CAT's US-ASCII decoding and the stack trace printed on an `IOException`
  are left out. The file's text is supplied already decoded, and a failed
  read prints nothing on standard output.
- Strings.ToUpper: maps only ASCII letters. Java's `toUpperCase` also maps
  letters such as 'ı' to 'I' and 'ſ' to 'S', so a token like "exıt" finds
  no command here but finds EXIT in Java. The model assumes a default
  locale with plain ASCII case mapping: under a Turkish or Azeri locale
  Java maps 'i' to 'İ', so "exit" or "dir" would find no command there.
- Strings.Less: compares characters by code value. Java compares UTF-16
  code units. The two agree on the six ASCII names in the registry.
- `TreeMaps` models the red-black tree only through its sorted sequence of
  entries. Balance and rotations are not modelled.
- `ParsedCommand` never leaves `command` null: `split` never returns
  `null`, so `pc.command == null` is not modelled.
- Lines made only of spaces are not skipped the way empty lines are. The
  code throws in `ParsedCommand` on such a line, and the model follows the
  code: the session ends as `ParseCrashed`. Recovering from the exception
  is not modelled, since the code does not recover.
