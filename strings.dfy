/** The two operations on `java.lang.String` that the shell relies on:
    the natural ordering used by `TreeMap` (`compareTo`) and `toUpperCase`. */
module Strings {

  /** `a.compareTo(b) < 0`: lexicographic by character, a proper prefix first. */
  predicate Less(a: string, b: string)
    decreases |a|
  {
    if |a| == 0 then |b| > 0
    else if |b| == 0 then false
    else if a[0] != b[0] then a[0] < b[0]
    else Less(a[1..], b[1..])
  }

  lemma {:induction false} LessIrreflexive(a: string)
    ensures !Less(a, a)
    decreases |a|
  {
    if |a| > 0 {
      LessIrreflexive(a[1..]);
    }
  }

  lemma {:induction false} LessTransitive(a: string, b: string, c: string)
    requires Less(a, b) && Less(b, c)
    ensures Less(a, c)
    decreases |a|
  {
    if |a| > 0 && a[0] == b[0] && b[0] == c[0] {
      LessTransitive(a[1..], b[1..], c[1..]);
    }
  }

  lemma {:induction false} LessTotal(a: string, b: string)
    requires a != b
    ensures Less(a, b) || Less(b, a)
    decreases |a|
  {
    if |a| > 0 && |b| > 0 && a[0] == b[0] {
      assert a == [a[0]] + a[1..] && b == [b[0]] + b[1..];
      LessTotal(a[1..], b[1..]);
    }
  }

  lemma {:induction false} LessAsymmetric(a: string, b: string)
    requires Less(a, b)
    ensures !Less(b, a)
    decreases |a|
  {
    if |a| > 0 && a[0] == b[0] {
      LessAsymmetric(a[1..], b[1..]);
    }
  }

  /** `Character.toUpperCase` restricted to the letters a-z. */
  function UpperChar(c: char): char
  {
    if 'a' <= c <= 'z' then (c as int - 32) as char else c
  }

  function LowerChar(c: char): char
  {
    if 'A' <= c <= 'Z' then (c as int + 32) as char else c
  }

  /** `String.toUpperCase` on the ASCII letters; every other character is kept. */
  function ToUpper(s: string): string
  {
    seq(|s|, i requires 0 <= i < |s| => UpperChar(s[i]))
  }

  /** `s` is written with upper-case ASCII letters only. */
  predicate UpperLetters(s: string)
  {
    forall i :: 0 <= i < |s| ==> 'A' <= s[i] <= 'Z'
  }

  /** `s` spells `n` letter by letter, each letter in either case. */
  predicate IsCasingOf(s: string, n: string)
  {
    |s| == |n| && forall i :: 0 <= i < |s| ==> s[i] == n[i] || s[i] == LowerChar(n[i])
  }

  lemma ToUpperKeepsUpper(s: string)
    requires UpperLetters(s)
    ensures ToUpper(s) == s
  {
  }

  /** Upper-casing identifies exactly the casings of an upper-case word. */
  lemma ToUpperMatchesCasings(s: string, n: string)
    requires UpperLetters(n)
    ensures ToUpper(s) == n <==> IsCasingOf(s, n)
  {
    if ToUpper(s) == n {
      forall i | 0 <= i < |s| ensures s[i] == n[i] || s[i] == LowerChar(n[i]) {
        assert UpperChar(s[i]) == n[i];
      }
    }
    if IsCasingOf(s, n) {
      forall i | 0 <= i < |s| ensures ToUpper(s)[i] == n[i] {
        assert s[i] == n[i] || s[i] == LowerChar(n[i]);
      }
    }
  }
}
