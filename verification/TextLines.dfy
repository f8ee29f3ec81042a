/** The lines of a text and the text of its lines. */
module TextLines {
  import opened Common

  function Lines(s: string): (ls: seq<string>)
    ensures ls != []
  {
    if s == "" then [""]
    else
      var rest := Lines(s[1..]);
      if s[0] == '\n' then [""] + rest else [[s[0]] + rest[0]] + rest[1..]
  }

  function JoinLines(ls: seq<string>): string {
    if ls == [] then "" else if |ls| == 1 then ls[0] else ls[0] + "\n" + JoinLines(ls[1..])
  }

  function Newlines(s: string): nat {
    if s == "" then 0 else (if s[0] == '\n' then 1 else 0) + Newlines(s[1..])
  }

  lemma {:induction false} JoinLinesOfText(s: string)
    ensures JoinLines(Lines(s)) == s
  {
    hide Lines, JoinLines;
    if s == "" {
      LinesOfNothing();
      JoinedAt([""]);
    } else {
      LinesUnfold(s);
      JoinLinesOfText(s[1..]);
      JoinAfterBreak(Lines(s[1..]));
      JoinAfterChar(s[0], Lines(s[1..]));
      assert s == [s[0]] + s[1..];
    }
  }

  lemma {:induction false} JoinedAt(ls: seq<string>)
    requires ls != []
    ensures JoinLines(ls) == if |ls| == 1 then ls[0] else ls[0] + ("\n" + JoinLines(ls[1..]))
  {
  }

  lemma {:induction false} JoinAfterBreak(rest: seq<string>)
    requires rest != []
    ensures JoinLines([""] + rest) == ['\n'] + JoinLines(rest)
  {
    hide JoinLines;
    JoinedAt([""] + rest);
    assert ([""] + rest)[1..] == rest;
  }

  lemma {:induction false} JoinAfterChar(c: char, rest: seq<string>)
    requires rest != []
    ensures JoinLines([[c] + rest[0]] + rest[1..]) == [c] + JoinLines(rest)
  {
    hide JoinLines;
    var ls := [[c] + rest[0]] + rest[1..];
    JoinedAt(ls);
    JoinedAt(rest);
    assert ls[1..] == rest[1..];
  }

  lemma {:induction false} CountLines(s: string)
    ensures |Lines(s)| == Newlines(s) + 1
  {
    if s != "" {
      CountLines(s[1..]);
    }
  }

  /** A line break separates lines. */
  lemma {:induction false} LinesBreak(a: string, b: string)
    ensures Lines(a + "\n" + b) == Lines(a) + Lines(b)
  {
    hide Lines;
    var all := a + "\n" + b;
    LinesUnfold(all);
    if a == "" {
      LinesOfNothing();
      assert all == ['\n'] + b && all[1..] == b;
    } else {
      assert all[0] == a[0] && all[1..] == a[1..] + "\n" + b;
      LinesBreak(a[1..], b);
      LinesUnfold(a);
      TailOfJoin(Lines(a[1..]), Lines(b));
    }
  }

  lemma TailOfJoin(x: seq<string>, y: seq<string>)
    requires x != []
    ensures (x + y)[0] == x[0] && (x + y)[1..] == x[1..] + y
  {
  }

  lemma LinesOfNothing()
    ensures Lines("") == [""]
  {
  }

  lemma {:induction false} LinesUnfold(s: string)
    requires s != ""
    ensures Lines(s) == (if s[0] == '\n' then [""] + Lines(s[1..])
                         else [[s[0]] + Lines(s[1..])[0]] + Lines(s[1..])[1..])
  {
  }

  lemma {:induction false} LinesAfter(md: string, x: string)
    requires md == "" || Last(md) == '\n'
    ensures Lines(md + x) == Lines(md)[..|Lines(md)| - 1] + Lines(x)
  {
    assert Lines("") == [""];
    hide Lines;
    if md == "" {
      assert md + x == x;
    } else {
      var m := md[..|md| - 1];
      assert md == m + "\n" + "" && md + x == m + "\n" + x;
      LinesBreak(m, "");
      LinesBreak(m, x);
    }
  }

  lemma {:induction false} NewlinesSnoc(s: string)
    ensures Newlines(s + "\n") == |Lines(s)|
  {
    CountLines(s + "\n");
    LinesBreak(s, "");
    assert Lines("") == [""] && s + "\n" + "" == s + "\n";
  }

  lemma {:induction false} JoinLinesAppend(x: seq<string>, y: seq<string>)
    requires x != [] && y != []
    ensures JoinLines(x + y) == JoinLines(x) + "\n" + JoinLines(y)
  {
    if |x| == 1 {
      assert (x + y)[1..] == y;
    } else {
      JoinLinesAppend(x[1..], y);
      assert (x + y)[1..] == x[1..] + y;
    }
  }

  predicate OneLine(s: string) {
    '\n' !in s
  }

  lemma {:induction false} LinesAreSingle(s: string)
    ensures forall l <- Lines(s) :: OneLine(l)
  {
    if s != "" {
      LinesAreSingle(s[1..]);
      var rest := Lines(s[1..]);
      assert OneLine(rest[0]);
    }
  }

  lemma {:induction false} LinesOfLine(s: string)
    requires OneLine(s)
    ensures Lines(s) == [s]
  {
    if s != "" {
      assert s[0] in s && forall c <- s[1..] :: c in s;
      LinesOfLine(s[1..]);
      assert s == [s[0]] + s[1..];
    }
  }

  /** The lines of joined lines are those lines. */
  lemma {:induction false} LinesOfJoin(ls: seq<string>)
    requires ls != [] && forall l <- ls :: OneLine(l)
    ensures Lines(JoinLines(ls)) == ls
  {
    hide Lines, OneLine;
    assert ls[0] in ls;
    LinesOfLine(ls[0]);
    if |ls| > 1 {
      assert forall l <- ls[1..] :: l in ls;
      LinesOfJoin(ls[1..]);
      LinesBreak(ls[0], JoinLines(ls[1..]));
      assert ls == [ls[0]] + ls[1..];
    }
  }

  const WHITESPACE: string := "\t\n\r \U{0B}\U{0C}\U{1C}\U{1D}\U{1E}\U{1F}\U{85}\U{A0}\U{1680}\U{2000}\U{2001}\U{2002}\U{2003}\U{2004}\U{2005}\U{2006}\U{2007}\U{2008}\U{2009}\U{200A}\U{2028}\U{2029}\U{202F}\U{205F}\U{3000}"

  /** Python's s.rstrip(). */
  function RStrip(s: string): string {
    if s != "" && Last(s) in WHITESPACE then RStrip(s[..|s| - 1]) else s
  }

  /** White space as Python's str.isspace has it, by code point. */
  predicate IsSpace(c: char) {
    var n := c as int;
    9 <= n <= 13 || 28 <= n <= 32 || 8192 <= n <= 8202 || n in {133, 160, 5760, 8232, 8233, 8239, 8287, 12288}
  }

  lemma WhitespaceIsSpace(c: char)
    ensures c in WHITESPACE <==> IsSpace(c)
  {
    if c in WHITESPACE {
      OnlySpaces(c);
    }
    if IsSpace(c) {
      SpaceIsThere(c);
    }
  }

  lemma OnlySpaces(c: char)
    requires c in WHITESPACE
    ensures IsSpace(c)
  {
  }

  lemma SpaceIsThere(c: char)
    requires IsSpace(c)
    ensures c in WHITESPACE
  {
    hide IsSpace;
    var k := SpaceAt(c);
    assert WHITESPACE[k] == c;
  }

  lemma SpaceAt(c: char) returns (k: nat)
    requires IsSpace(c)
    ensures k < |WHITESPACE| && WHITESPACE[k] == c
  {
    var n := c as int;
    k := if n <= 10 then n - 9 else if n == 13 then 2 else if n == 32 then 3 else if n <= 12 then n - 7
         else if n <= 31 then n - 22 else if n == 133 then 10 else if n == 160 then 11 else if n == 5760 then 12
         else if n <= 8202 then n - 8179 else if n <= 8233 then n - 8208 else if n == 8239 then 26
         else if n == 8287 then 27 else 28;
  }

  predicate Blank(s: string) {
    forall c <- s :: c in WHITESPACE
  }

  /** The text without the white space around it. */
  ghost predicate Trimmed(s: string, t: string) {
    && (exists a, b :: Blank(a) && Blank(b) && s == a + t + b)
    && (t != "" ==> t[0] !in WHITESPACE && Last(t) !in WHITESPACE)
  }

  lemma {:induction false} RStripIsTrimmed(s: string)
    ensures exists b :: Blank(b) && s == RStrip(s) + b
    ensures RStrip(s) != "" ==> Last(RStrip(s)) !in WHITESPACE
  {
    hide WHITESPACE;
    if s != "" && Last(s) in WHITESPACE {
      RStripIsTrimmed(s[..|s| - 1]);
      var b :| Blank(b) && s[..|s| - 1] == RStrip(s) + b;
      assert Blank(b + [Last(s)]) && s == RStrip(s) + (b + [Last(s)]);
    } else {
      assert Blank("") && s == RStrip(s) + "";
    }
  }
}
