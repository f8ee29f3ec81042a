/** The texts that converting writes itself: trimmed code between fences, escaped cells and
    decimal numbers. */
module MdDetailLaws {
  import opened Common
  import opened TextLines
  import opened MdTokens
  import opened MdTextLaws

  lemma {:induction false} StripIsTrimmed(s: string)
    ensures Trimmed(s, Strip(s))
  {
    hide WHITESPACE;
    if s != "" && s[0] in WHITESPACE {
      StripIsTrimmed(s[1..]);
      var a, b :| Blank(a) && Blank(b) && s[1..] == a + Strip(s) + b;
      assert Blank([s[0]] + a) && s == [s[0]] + a + Strip(s) + b;
    } else {
      RStripIsTrimmed(s);
      var b :| Blank(b) && s == RStrip(s) + b;
      assert Blank("") && s == "" + RStrip(s) + b;
      StripStart(s, b);
    }
  }

  lemma {:induction false} StripStart(s: string, b: string)
    requires s == RStrip(s) + b && (s == "" || s[0] !in WHITESPACE)
    ensures RStrip(s) != "" ==> RStrip(s)[0] !in WHITESPACE
  {
  }

  predicate OccursAt(s: string, part: string, i: int) {
    0 <= i && i + |part| <= |s| && s[i..i + |part|] == part
  }

  lemma {:induction false} ContainsMeansOccurs(s: string, part: string)
    ensures Contains(s, part) <==> exists i :: OccursAt(s, part, i)
  {
    if part <= s {
      assert OccursAt(s, part, 0);
    } else if s != "" {
      ContainsMeansOccurs(s[1..], part);
      assert forall i :: OccursAt(s[1..], part, i) ==> OccursAt(s, part, i + 1);
      assert forall i :: OccursAt(s, part, i) ==> i > 0 && OccursAt(s[1..], part, i - 1);
    }
  }

  /** A code block: between two fences, which are the first run of three to thirteen backticks
      that the code does not hold, the language and the trimmed code. */
  lemma {:induction false} CodeIsFenced(code: string, lang: string) returns (n: nat, text: string)
    ensures 3 <= n <= 13 && Trimmed(code, text)
    ensures CodeText(code, lang) == Fill('`', n) + lang + "\n" + text + "\n" + Fill('`', n)
    ensures forall m :: 3 <= m < n ==> Contains(code, Fill('`', m))
    ensures n < 13 ==> !Contains(code, Fill('`', n))
  {
    hide Contains, Strip, Repeat;
    text := Strip(code);
    StripIsTrimmed(code);
    n := FenceLength(code, 3, 10);
  }

  lemma {:induction false} FenceLength(code: string, n: nat, tries: nat) returns (m: nat)
    ensures n <= m <= n + tries && Backticks(code, n, tries) == Fill('`', m)
    ensures forall k :: n <= k < m ==> Contains(code, Fill('`', k))
    ensures m < n + tries ==> !Contains(code, Fill('`', m))
    decreases tries
  {
    hide Contains, Repeat;
    RepeatIsFill('`', n);
    if tries > 0 && Contains(code, Repeat("`", n)) {
      m := FenceLength(code, n + 1, tries - 1);
    } else {
      m := n;
    }
  }

  /** Escaping works character by character. */
  lemma {:induction false} EscapeJoins(a: string, b: string)
    ensures EscapeCell(a + b) == EscapeCell(a) + EscapeCell(b)
    ensures EscapeCell("|") == "\\|" && EscapeCell("\r") == "" && EscapeCell("\n") == "<br>"
    ensures |a| == 1 && a[0] !in "|\r\n" ==> EscapeCell(a) == a
  {
    if a == "" {
      assert a + b == b;
    } else {
      assert (a + b)[1..] == a[1..] + b;
      EscapeJoins(a[1..], b);
    }
  }

  function Digit(c: char): int {
    c as int - '0' as int
  }

  function Value(digits: string): int {
    if digits == "" then 0 else 10 * Value(digits[..|digits| - 1]) + Digit(Last(digits))
  }

  /** A number is written in digits that have its value, without a zero in front. */
  lemma {:induction false} DecimalHasValue(n: nat)
    ensures var d := Decimal(n);
            && d != "" && Value(d) == n && (forall c <- d :: '0' <= c <= '9') && (n > 0 ==> d[0] != '0')
  {
    if n >= 10 {
      DecimalHasValue(n / 10);
      var d := Decimal(n);
      assert d[..|d| - 1] == Decimal(n / 10);
    }
  }

  // ----- Images below inline tokens -----

  /** The images of a forest at every other depth, each after those below it. */
  function Walk(children: seq<Child>, counts: bool): seq<Image> {
    if children == [] then []
    else
      Walk(children[0].children, !counts)
      + (if counts && children[0].image.Some? then [children[0].image.value] else [])
      + Walk(children[1..], counts)
  }

  /** The children of a token are looked at, and below them every other generation. */
  lemma {:induction false} FoundAtEveryOtherDepth(children: seq<Child>)
    ensures Found(children) == Walk(children, true)
    ensures FoundBelow(children) == Walk(children, false)
    decreases children
  {
    if children != [] {
      FoundAtEveryOtherDepth(children[0].children);
      FoundAtEveryOtherDepth(children[1..]);
    }
  }

  // ----- Tokens without a handler -----

  /** A token that no handler knows is a text of its own, if it has a content. */
  lemma {:induction false} UnknownTokenIsText(token: Token, meta: Meta)
    requires token.ttype.Other?
    ensures Passages(ReadAll([token], 0, meta, START))
         == if token.content == "" then [] else [Prose(token.content, None)]
  {
    hide Passages;
    ReadLeaf([token], 0, meta, START);
    var p := Part(Text, Some(token.content), if token.lines.Some? then meta.(lines := token.lines) else meta);
    OnePassage(p);
    PassagesUnfold([]);
    hide PassageOf;
    assert PassageOf(p) == Prose(token.content, None) by { TextPassage(p); }
    var r := LeafParts(token, meta, 0, false);
    assert r == (if token.content == "" then [] else [p]) && r + [] == r;
    assert ReadAll([token], 1, meta, START) == [];
    assert ReadAll([token], 0, meta, START) == LeafParts(token, meta, 0, false) + [];
  }

  lemma TextPassage(p: Part)
    requires p.kind.Text?
    ensures PassageOf(p) == Prose(OrEmpty(p.content), None)
  {
  }
}
