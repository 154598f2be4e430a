/** The line parser: `String.split(" ")` and the `ParsedCommand` constructor. */
module LineParser {
  import opened Wrappers

  /** The tokens between successive single spaces: one more token than
      there are spaces, empty tokens included. */
  function SplitAll(s: string): (r: seq<string>)
    ensures |r| >= 1
  {
    if s == [] then [""]
    else
      var rest := SplitAll(s[1..]);
      if s[0] == ' ' then [""] + rest
      else [[s[0]] + rest[0]] + rest[1..]
  }

  /** The list with its trailing empty tokens removed (a zero `limit`). */
  function DropTrailingEmpty(ts: seq<string>): seq<string>
  {
    if ts == [] then []
    else if ts[|ts| - 1] == "" then DropTrailingEmpty(ts[..|ts| - 1])
    else ts
  }

  /** `s.split(" ")`: a line without a space is returned as its only token;
      otherwise the space-separated tokens, trailing empty ones dropped. */
  function JavaSplit(s: string): seq<string>
  {
    if ' ' !in s then [s] else DropTrailingEmpty(SplitAll(s))
  }

  /** The tokens written back with one space between each two. */
  function Join(ts: seq<string>): string
  {
    if |ts| == 0 then ""
    else if |ts| == 1 then ts[0]
    else ts[0] + " " + Join(ts[1..])
  }

  function Spaces(n: nat): (r: string)
    ensures |r| == n && forall i :: 0 <= i < n ==> r[i] == ' '
  {
    seq(n, _ => ' ')
  }

  predicate AllSpaces(s: string)
  {
    forall i :: 0 <= i < |s| ==> s[i] == ' '
  }

  predicate NoSpace(t: string)
  {
    forall i :: 0 <= i < |t| ==> t[i] != ' '
  }

  predicate Tokens(ts: seq<string>)
  {
    forall i :: 0 <= i < |ts| ==> NoSpace(ts[i])
  }

  lemma {:induction false} JoinSnoc(ts: seq<string>, t: string)
    requires |ts| >= 1
    ensures Join(ts + [t]) == Join(ts) + " " + t
    decreases |ts|
  {
    if |ts| > 1 {
      assert (ts + [t])[1..] == ts[1..] + [t];
      JoinSnoc(ts[1..], t);
    }
  }

  /** Splitting at every space and joining again gives back the line. */
  lemma {:induction false} SplitAllJoin(s: string)
    ensures Join(SplitAll(s)) == s
    ensures Tokens(SplitAll(s))
    decreases |s|
  {
    if s != [] {
      SplitAllJoin(s[1..]);
      var rest := SplitAll(s[1..]);
      if s[0] == ' ' {
        assert s == " " + s[1..];
      } else {
        var head := [s[0]] + rest[0];
        var r := [head] + rest[1..];
        if |rest| == 1 {
          assert s == [s[0]] + s[1..];
        } else {
          assert r[1..] == rest[1..];
          assert Join(rest) == rest[0] + " " + Join(rest[1..]);
          assert s == [s[0]] + s[1..];
        }
        forall i | 0 <= i < |r| ensures NoSpace(r[i]) {
          if i == 0 {
            assert NoSpace(rest[0]);
          } else {
            assert r[i] == rest[i];
          }
        }
      }
    }
  }

  /** Splitting a join of space-free tokens gives the tokens back. */
  lemma {:induction false} JoinSplitAll(ts: seq<string>)
    requires |ts| >= 1 && Tokens(ts)
    ensures SplitAll(Join(ts)) == ts
    decreases |ts|, |ts[0]|
  {
    if ts[0] == [] {
      if |ts| > 1 {
        assert Join(ts) == " " + Join(ts[1..]);
        assert Join(ts)[1..] == Join(ts[1..]);
        JoinSplitAll(ts[1..]);
      }
    } else {
      var t0 := ts[0];
      var ts' := [t0[1..]] + ts[1..];
      assert NoSpace(t0[1..]) by {
        assert NoSpace(ts[0]);
      }
      assert Tokens(ts') by {
        forall i | 0 <= i < |ts'| ensures NoSpace(ts'[i]) {
          if i > 0 { assert ts'[i] == ts[i]; }
        }
      }
      assert ts'[1..] == ts[1..];
      assert Join(ts) == [t0[0]] + Join(ts') by {
        if |ts| == 1 {
          assert t0 == [t0[0]] + t0[1..];
        } else {
          assert t0 == [t0[0]] + t0[1..];
          assert Join(ts') == t0[1..] + " " + Join(ts[1..]);
        }
      }
      assert t0[0] != ' ' by {
        assert NoSpace(ts[0]);
      }
      var j := Join(ts);
      assert j[1..] == Join(ts');
      JoinSplitAll(ts');
      assert j != [] && j[0] == t0[0];
      assert SplitAll(j) == [[j[0]] + SplitAll(j[1..])[0]] + SplitAll(j[1..])[1..];
      assert t0 == [t0[0]] + t0[1..];
      assert ts == [t0] + ts[1..];
    }
  }

  /** Dropping trailing empty tokens removes only trailing spaces of the join. */
  lemma {:induction false} DropTrailingEmptyJoin(ts: seq<string>)
    ensures |Join(DropTrailingEmpty(ts))| <= |Join(ts)|
    ensures Join(ts) == Join(DropTrailingEmpty(ts)) + Spaces(|Join(ts)| - |Join(DropTrailingEmpty(ts))|)
    decreases |ts|
  {
    if ts != [] && ts[|ts| - 1] == "" {
      var init := ts[..|ts| - 1];
      DropTrailingEmptyJoin(init);
      assert ts == init + [""];
      if |init| >= 1 {
        JoinSnoc(init, "");
      }
    }
  }

  lemma {:induction false} DropTrailingEmptyShape(ts: seq<string>)
    ensures |DropTrailingEmpty(ts)| <= |ts|
    ensures DropTrailingEmpty(ts) == ts[..|DropTrailingEmpty(ts)|]
    ensures forall i :: |DropTrailingEmpty(ts)| <= i < |ts| ==> ts[i] == ""
    ensures DropTrailingEmpty(ts) != [] ==> DropTrailingEmpty(ts)[|DropTrailingEmpty(ts)| - 1] != ""
    decreases |ts|
  {
    if ts != [] && ts[|ts| - 1] == "" {
      DropTrailingEmptyShape(ts[..|ts| - 1]);
    }
  }

  /** A line of spaces splits into empty tokens only. */
  lemma {:induction false} SplitAllSpaces(s: string)
    requires AllSpaces(s)
    ensures forall i :: 0 <= i < |SplitAll(s)| ==> SplitAll(s)[i] == ""
    decreases |s|
  {
    if s != [] {
      SplitAllSpaces(s[1..]);
    }
  }

  lemma {:induction false} DropTrailingEmptyAll(ts: seq<string>)
    requires forall i :: 0 <= i < |ts| ==> ts[i] == ""
    ensures DropTrailingEmpty(ts) == []
    decreases |ts|
  {
    if ts != [] {
      DropTrailingEmptyAll(ts[..|ts| - 1]);
    }
  }

  /** `split` yields no token at all exactly for a non-empty line of spaces. */
  lemma JavaSplitEmpty(s: string)
    ensures JavaSplit(s) == [] <==> |s| > 0 && AllSpaces(s)
  {
    if ' ' in s {
      JavaSplitCharacterized(s);
      if JavaSplit(s) == [] {
        assert s == Spaces(|s|);
      }
      if AllSpaces(s) {
        SplitAllSpaces(s);
        DropTrailingEmptyAll(SplitAll(s));
      }
    } else if |s| > 0 {
      assert s[0] in s;
    }
  }

  /** A space appended to a non-empty line does not change its tokens. */
  lemma {:induction false} SplitAllSnocSpace(s: string)
    ensures SplitAll(s + " ") == SplitAll(s) + [""]
    decreases |s|
  {
    if s == [] {
      assert SplitAll(" "[1..]) == SplitAll("");
    } else {
      SplitAllSnocSpace(s[1..]);
      assert (s + " ")[1..] == s[1..] + " ";
    }
  }

  lemma TrailingSpaceIgnored(s: string)
    requires s != ""
    ensures JavaSplit(s + " ") == JavaSplit(s)
  {
    SplitAllSnocSpace(s);
    assert (s + " ")[|s|] == ' ';
    var ts := SplitAll(s) + [""];
    assert ts[..|ts| - 1] == SplitAll(s);
    assert ' ' in s + " ";
    assert DropTrailingEmpty(ts) == DropTrailingEmpty(SplitAll(s));
    if ' ' !in s {
      assert SplitAll(s) == [s] by {
        SplitAllJoin(s);
        assert |SplitAll(s)| == 1 by {
          if |SplitAll(s)| > 1 {
            JoinHasSpace(SplitAll(s));
          }
        }
      }
      assert DropTrailingEmpty([s]) == [s];
    }
  }

  lemma JoinHasSpace(ts: seq<string>)
    requires |ts| > 1
    ensures ' ' in Join(ts)
  {
    assert Join(ts) == ts[0] + " " + Join(ts[1..]);
    assert Join(ts)[|ts[0]|] == ' ';
  }

  /** The three facts that pin `split` down: its tokens hold no space, joining
      them gives the line up to trailing spaces, and when the line holds a
      space the last token is not empty. */
  lemma JavaSplitCharacterized(s: string)
    ensures Tokens(JavaSplit(s))
    ensures |Join(JavaSplit(s))| <= |s|
    ensures s == Join(JavaSplit(s)) + Spaces(|s| - |Join(JavaSplit(s))|)
    ensures ' ' in s && JavaSplit(s) != [] ==> JavaSplit(s)[|JavaSplit(s)| - 1] != ""
  {
    if ' ' !in s {
      assert Tokens([s]) by {
        assert NoSpace(s) by {
          forall i | 0 <= i < |s| ensures s[i] != ' ' {
            assert s[i] in s;
          }
        }
      }
      assert s == s + Spaces(0);
    } else {
      SplitAllJoin(s);
      DropTrailingEmptyJoin(SplitAll(s));
      DropTrailingEmptyShape(SplitAll(s));
      var ts := SplitAll(s);
      var d := DropTrailingEmpty(ts);
      forall i | 0 <= i < |d| ensures NoSpace(d[i]) {
        assert d[i] == ts[i];
      }
    }
  }

  /** Nothing but space-free tokens with a non-empty last one survive the
      round trip through `Join` and `split` unchanged. */
  lemma JavaSplitJoin(ts: seq<string>)
    requires |ts| >= 1 && Tokens(ts)
    requires |ts| > 1 ==> ts[|ts| - 1] != ""
    ensures JavaSplit(Join(ts)) == ts
  {
    JoinSplitAll(ts);
    if |ts| > 1 {
      JoinHasSpace(ts);
    } else {
      assert NoSpace(ts[0]);
      assert ' ' !in ts[0];
    }
  }

  /** The arguments of a parsed line: `null` when the line held one token,
      otherwise a non-empty array. */
  type Args = a: Option<seq<string>> | a.None? || |a.value| > 0 witness None

  datatype ParsedCommand = ParsedCommand(command: string, args: Args)

  /** `new ParsedCommand(line)` either builds the object or raises
      `ArrayIndexOutOfBoundsException` at `parts[0]` when `split` returns
      no token. */
  datatype ParseResult = Parsed(value: ParsedCommand) | NoTokens

  /** The words of a parsed command, command first. */
  function Words(pc: ParsedCommand): seq<string>
  {
    [pc.command] + (if pc.args.Some? then pc.args.value else [])
  }

  function Parse(line: string): (r: ParseResult)
    ensures r.NoTokens? <==> |line| > 0 && AllSpaces(line)
    ensures r.Parsed? ==> Words(r.value) == JavaSplit(line)
    ensures r.Parsed? ==> (r.value.args.None? <==> |JavaSplit(line)| == 1)
  {
    JavaSplitEmpty(line);
    var parts := JavaSplit(line);
    if |parts| == 0 then NoTokens
    else if |parts| > 1 then Parsed(ParsedCommand(parts[0], Some(parts[1..])))
    else Parsed(ParsedCommand(parts[0], None))
  }

  /** The parsed words, joined again, give the line up to trailing spaces,
      and no word holds a space. */
  lemma ParseRestoresLine(line: string)
    requires Parse(line).Parsed?
    ensures Tokens(Words(Parse(line).value))
    ensures |Join(Words(Parse(line).value))| <= |line|
    ensures line == Join(Words(Parse(line).value)) + Spaces(|line| - |Join(Words(Parse(line).value))|)
  {
    JavaSplitCharacterized(line);
  }

  /** A command written back as a line parses to itself. */
  lemma ParseJoin(pc: ParsedCommand)
    requires Tokens(Words(pc))
    requires pc.args.Some? ==> pc.args.value[|pc.args.value| - 1] != ""
    ensures Parse(Join(Words(pc))) == Parsed(pc)
  {
    JavaSplitJoin(Words(pc));
  }

  /** The empty line is an empty command without arguments. */
  lemma ParseEmptyLine()
    ensures Parse("") == Parsed(ParsedCommand("", None))
  {
  }

  /** A trailing space gives no argument. */
  lemma ParseTrailingSpace()
    ensures Parse("dir ") == Parsed(ParsedCommand("dir", None))
  {
    TrailingSpaceIgnored("dir");
    assert "dir" + " " == "dir ";
    assert ' ' !in "dir";
  }

  /** A leading space gives an empty command. */
  lemma ParseLeadingSpace()
    ensures Parse(" pwd") == Parsed(ParsedCommand("", Some(["pwd"])))
  {
    ParseJoin(ParsedCommand("", Some(["pwd"])));
    assert Join(["", "pwd"]) == " pwd";
  }

  /** A double space gives an empty argument. */
  lemma ParseDoubleSpace()
    ensures Parse("cd  x") == Parsed(ParsedCommand("cd", Some(["", "x"])))
  {
    ParseJoin(ParsedCommand("cd", Some(["", "x"])));
    assert Join(["cd", "", "x"]) == "cd  x";
  }

  /** A line made only of spaces makes `parts[0]` fail. */
  lemma ParseOnlySpaces()
    ensures Parse("  ") == NoTokens
  {
    assert AllSpaces("  ");
  }
}
