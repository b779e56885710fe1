/**
 What single lines of the exception list mean, and how text is cut into lines: which characters are stripped, which
 lines count for nothing, and what an item line is read as.
 */
module ParserLaws {
  import opened Prelude
  import opened AuditParser

  // ---------- Characters and lines ----------

  /** The characters for which str.isspace holds. */
  const WHITE_SPACE :=
    "\U{9}\U{a}\U{b}\U{c}\U{d}\U{1c}\U{1d}\U{1e}\U{1f} \U{85}\U{a0}\U{1680}\U{2000}\U{2001}\U{2002}" +
    "\U{2003}\U{2004}\U{2005}\U{2006}\U{2007}\U{2008}\U{2009}\U{200a}\U{2028}\U{2029}\U{202f}\U{205f}\U{3000}"

  lemma SpacesListed(c: char)
    ensures IsSpace(c) <==> c in WHITE_SPACE
  {
  }

  lemma CutParts(s: string) returns (before: string, after: string)
    ensures s == before + Strip(s) + after
    ensures forall k :: 0 <= k < |before| ==> IsSpace(before[k])
    ensures forall k :: 0 <= k < |after| ==> IsSpace(after[k])
  {
    hide IsSpace, TrimStart, TrimEnd;
    var t := TrimStart(s);
    before := CutBefore(s);
    after := CutAfter(t);
  }

  lemma CutBefore(s: string) returns (before: string)
    ensures s == before + TrimStart(s) && forall k :: 0 <= k < |before| ==> IsSpace(before[k])
  {
    hide IsSpace, TrimStart;
    TrimStartKeeps(s);
    StartCut(s);
    before := s[..|s| - |TrimStart(s)|];
  }

  lemma CutAfter(s: string) returns (after: string)
    ensures s == TrimEnd(s) + after && forall k :: 0 <= k < |after| ==> IsSpace(after[k])
  {
    hide IsSpace, TrimEnd;
    TrimEndKeeps(s);
    EndCut(s);
    after := s[|TrimEnd(s)|..];
    assert forall k :: 0 <= k < |after| ==> after[k] == s[|TrimEnd(s)| + k];
  }

  lemma StripEnds(s: string)
    requires Strip(s) != ""
    ensures !IsSpace(Strip(s)[0]) && !IsSpace(Strip(s)[|Strip(s)| - 1])
  {
    hide IsSpace;
    TrimStartKeeps(s);
    TrimEndKeeps(TrimStart(s));
    assert Strip(s)[0] == TrimStart(s)[0];
  }

  /** str.strip: what is cut off on either side is spaces, and what is left has none there. */
  lemma StripMiddle(s: string) returns (before: string, after: string)
    ensures s == before + Strip(s) + after
    ensures forall k :: 0 <= k < |before| ==> before[k] in WHITE_SPACE
    ensures forall k :: 0 <= k < |after| ==> after[k] in WHITE_SPACE
    ensures Strip(s) != "" ==> Strip(s)[0] !in WHITE_SPACE && Strip(s)[|Strip(s)| - 1] !in WHITE_SPACE
  {
    hide IsSpace, WHITE_SPACE, Strip;
    before, after := CutParts(s);
    forall c
      ensures IsSpace(c) <==> c in WHITE_SPACE
    {
      SpacesListed(c);
    }
    if Strip(s) != "" {
      StripEnds(s);
    }
  }

  lemma {:induction false} StartCut(s: string)
    ensures |TrimStart(s)| <= |s| && forall k :: 0 <= k < |s| - |TrimStart(s)| ==> IsSpace(s[k])
  {
    hide IsSpace;
    if s != [] && IsSpace(s[0]) {
      StartCut(s[1..]);
      assert forall k :: 1 <= k < |s| ==> s[k] == s[1..][k - 1];
    }
  }

  lemma {:induction false} EndCut(s: string)
    ensures |TrimEnd(s)| <= |s| && forall k :: |TrimEnd(s)| <= k < |s| ==> IsSpace(s[k])
  {
    hide IsSpace;
    if s != [] && IsSpace(s[|s| - 1]) {
      EndCut(s[..|s| - 1]);
    }
  }

  datatype Ending = LineFeed | CarriageReturn | Both

  function Mark(e: Ending): string {
    match e
    case LineFeed => "\n"
    case CarriageReturn => "\r"
    case Both => "\r\n"
  }

  /** Lines, each with an ending of its own, and a last one that has none. */
  function Joined(lines: seq<(string, Ending)>, last: string): string {
    if lines == [] then last else lines[0].0 + Mark(lines[0].1) + Joined(lines[1..], last)
  }

  function Contents(lines: seq<(string, Ending)>): (ls: seq<string>)
    ensures |ls| == |lines| && forall i :: 0 <= i < |ls| ==> ls[i] == lines[i].0
  {
    seq(|lines|, i requires 0 <= i < |lines| => lines[i].0)
  }

  /** No carriage return is followed by the line feed of an empty line: the two would be one ending. */
  predicate Unambiguous(lines: seq<(string, Ending)>) {
    forall i :: 0 <= i < |lines| - 1 && lines[i].1.CarriageReturn? ==> lines[i + 1] != ("", LineFeed)
  }

  lemma {:induction false} OneEnding(line: string, e: Ending, rest: string)
    requires OneLine(line) && (e.CarriageReturn? ==> rest == "" || rest[0] != '\n')
    ensures Lines(line + Mark(e) + rest) == [line] + Lines(rest)
    decreases line
  {
    var text := line + Mark(e) + rest;
    if line == [] {
      assert text == Mark(e) + rest;
      match e
      case LineFeed => assert text[1..] == rest;
      case CarriageReturn => assert text[1..] == rest;
      case Both => assert text[2..] == rest;
    } else {
      assert text[1..] == line[1..] + Mark(e) + rest;
      assert line[0] in line;
      assert forall c :: c in line[1..] ==> c in line;
      OneEnding(line[1..], e, rest);
      hide Mark;
      assert text[0] == line[0] && [line[0]] + line[1..] == line;
      assert Lines(text[1..])[0] == line[1..] && Lines(text[1..])[1..] == Lines(rest);
    }
  }

  lemma {:induction false} LastLine(line: string)
    requires OneLine(line)
    ensures Lines(line) == if line == "" then [] else [line]
  {
    if line != "" {
      assert line[0] in line;
      assert forall c :: c in line[1..] ==> c in line;
      LastLine(line[1..]);
      assert line[1..] == "" ==> [line[0]] == line;
      assert [line[0]] + line[1..] == line;
    }
  }

  /** However the lines end, text mode gives them back; a last line without an ending counts unless it is empty. */
  lemma {:induction false} AnyEndings(lines: seq<(string, Ending)>, last: string)
    requires OneLine(last) && forall i :: 0 <= i < |lines| ==> OneLine(lines[i].0)
    requires Unambiguous(lines)
    ensures Lines(Joined(lines, last)) == Contents(lines) + if last == "" then [] else [last]
  {
    hide Mark, OneLine;
    if lines == [] {
      LastLine(last);
    } else {
      var rest := Joined(lines[1..], last);
      assert lines[1..] != [] ==> lines[1] == lines[1..][0];
      assert Unambiguous(lines[1..]) by {
        assert forall i :: 0 <= i < |lines| - 1 ==> lines[1..][i] == lines[i + 1];
      }
      AnyEndings(lines[1..], last);
      if lines[0].1.CarriageReturn? {
        NoFeedFirst(lines[1..], last);
      }
      OneEnding(lines[0].0, lines[0].1, rest);
      assert Contents(lines) == [lines[0].0] + Contents(lines[1..]);
    }
  }

  lemma NoFeedFirst(lines: seq<(string, Ending)>, last: string)
    requires OneLine(last) && forall i :: 0 <= i < |lines| ==> OneLine(lines[i].0)
    requires lines != [] ==> lines[0] != ("", LineFeed)
    ensures Joined(lines, last) == "" || Joined(lines, last)[0] != '\n'
  {
    if lines == [] {
      NoFeedIn(last);
    } else {
      hide OneLine;
      NoFeedLine(lines[0].0, lines[0].1, Joined(lines[1..], last));
    }
  }

  lemma NoFeedIn(line: string)
    requires OneLine(line)
    ensures line == "" || line[0] != '\n'
  {
    assert line != "" ==> line[0] in line;
  }

  lemma NoFeedLine(line: string, e: Ending, rest: string)
    requires OneLine(line) && (line, e) != ("", LineFeed)
    ensures line + Mark(e) + rest == "" || (line + Mark(e) + rest)[0] != '\n'
  {
    if line == "" {
      assert Mark(e)[0] == '\r';
      assert line + Mark(e) + rest == Mark(e) + rest;
    } else {
      NoFeedIn(line);
      assert (line + Mark(e) + rest)[0] == line[0];
    }
  }

  // ---------- What a line is to the parser ----------

  /** A line that counts for nothing, once its outer spaces are gone. */
  predicate Idle(line: string) {
    || line == "" || line[0] == '#' || "version:" <= line || "exceptions:" <= line
    || !("- " <= line || ':' in line)
  }

  lemma ShapeExactly(raw: string)
    ensures var line := Strip(raw);
            ShapeOf(raw) == if Idle(line) then Skipped else if "- " <= line then Item(Strip(line[2..])) else Pair(line)
  {
    hide Strip;
  }

  lemma {:induction false} StepsConcat(p: Progress, a: seq<string>, b: seq<string>)
    ensures Steps(p, a + b) == Steps(Steps(p, a), b)
  {
    hide Step;
    if b == [] {
      assert a + b == a;
    } else {
      var all := a + b;
      assert all[..|all| - 1] == a + b[..|b| - 1];
      StepsConcat(p, a, b[..|b| - 1]);
    }
  }

  /** Such a line may stand anywhere and changes nothing. */
  lemma IdleLines(a: seq<string>, raw: string, b: seq<string>)
    requires Idle(Strip(raw))
    ensures Parsed(a + [raw] + b) == Parsed(a + b)
  {
    ShapeExactly(raw);
    hide ShapeOf, Strip;
    StepsConcat(NOTHING, a, b);
    StepsConcat(NOTHING, a + [raw], b);
    StepsConcat(NOTHING, a, [raw]);
    var p := Steps(NOTHING, a);
    assert [raw][..0] == [];
    assert Steps(p, [raw]) == Step(p, raw);
  }

  /** An item line without a colon ends the parse, wherever it stands. */
  lemma ColonMissing(a: seq<string>, raw: string, b: seq<string>)
    requires !Idle(Strip(raw)) && "- " <= Strip(raw) && ':' !in Strip(Strip(raw)[2..])
    ensures Parsed(a + [raw] + b) == None
  {
    ShapeExactly(raw);
    var lines := a + [raw] + b;
    assert lines[|a|] == raw;
    hide ShapeOf, Strip;
    ParsedExactly(lines);
  }

  // ---------- Item lines ----------

  /** Spaces on either side of a line do not matter. */
  lemma {:induction false} OuterSpaces(before: string, s: string, after: string)
    requires forall k :: 0 <= k < |before| ==> IsSpace(before[k])
    requires forall k :: 0 <= k < |after| ==> IsSpace(after[k])
    ensures Strip(before + s + after) == Strip(s)
    decreases |before| + |after|
  {
    if before != [] {
      var all := before + s + after;
      assert all[0] == before[0] && all[1..] == before[1..] + s + after;
      OuterSpaces(before[1..], s, after);
    } else if after != [] {
      var more := s + after[..|after| - 1];
      assert before + s + after == more + [after[|after| - 1]];
      assert before + s + after[..|after| - 1] == more;
      OneSpaceBehind(more, after[|after| - 1]);
      OuterSpaces(before, s, after[..|after| - 1]);
    } else {
      assert before + s + after == s;
    }
  }

  lemma {:induction false} OneSpaceBehind(s: string, c: char)
    requires IsSpace(c)
    ensures Strip(s + [c]) == Strip(s)
  {
    var all := s + [c];
    if s == [] {
      assert all[1..] == [];
    } else if IsSpace(s[0]) {
      assert all[1..] == s[1..] + [c];
      OneSpaceBehind(s[1..], c);
    } else {
      assert all[..|s|] == s;
    }
  }

  /** What is between the quotes of a value, or the value if it has none; a lone quote has nothing in it. */
  function Inside(v: string): string {
    if Fenced(v) then if |v| == 1 then "" else v[1..|v| - 1] else v
  }

  lemma SplitExactly(key: string, rest: string)
    requires ':' !in key
    ensures ':' in key + ":" + rest
    ensures SplitKv(key + ":" + rest) == (Strip(key), Inside(Strip(rest)))
  {
    hide Strip, Quoted, Fenced;
    var line := key + ":" + rest;
    ColonAfter(key, rest);
    assert line[..|key|] == key && line[|key| + 1..] == rest;
    QuotedExactly(Strip(rest));
  }

  lemma {:induction false} TrimBehind(front: string, rest: string)
    requires front != [] && !IsSpace(front[|front| - 1])
    ensures TrimEnd(front + rest) == front + TrimEnd(rest)
  {
    hide IsSpace;
    var all := front + rest;
    if rest == [] {
      assert all == front;
    } else {
      assert all[|all| - 1] == rest[|rest| - 1] && all[..|all| - 1] == front + rest[..|rest| - 1];
      TrimBehind(front, rest[..|rest| - 1]);
    }
  }

  lemma {:induction false} TrimBefore(key: string, back: string)
    requires back != [] && !IsSpace(back[0])
    ensures TrimStart(key + back) == TrimStart(key) + back
  {
    hide IsSpace;
    var all := key + back;
    if key == [] {
      assert all == back;
    } else {
      assert all[0] == key[0] && all[1..] == key[1..] + back;
      TrimBefore(key[1..], back);
    }
  }

  lemma StartSame(s: string)
    ensures Strip(TrimStart(s)) == Strip(s)
  {
    hide IsSpace, Strip, TrimStart;
    var before := CutBefore(s);
    OuterSpaces(before, TrimStart(s), []);
    assert before + TrimStart(s) + [] == s;
  }

  lemma EndSame(s: string)
    ensures Strip(TrimEnd(s)) == Strip(s)
  {
    hide IsSpace, Strip, TrimEnd;
    var after := CutAfter(s);
    OuterSpaces([], TrimEnd(s), after);
    assert [] + TrimEnd(s) + after == s;
  }

  /** The body of an item line, up to outer spaces of key and value. */
  lemma ItemBodyExactly(key: string, rest: string)
    ensures ShapeOf("- " + key + ":" + rest) == Item(TrimStart(key) + ":" + TrimEnd(rest))
  {
    hide Strip, ShapeOf, TrimStart, TrimEnd, IsSpace;
    var line := "- " + key + ":" + rest;
    var body := key + ":" + TrimEnd(rest);
    ItemStripped(key, rest);
    BodyStripped(key, rest);
    assert ("- " + body)[2..] == body && ("- " + body)[0] == '-' && ("- " + body)[..2] == "- ";
    ShapeExactly(line);
  }

  lemma NoTrimStart(s: string)
    requires s != [] && s[0] == '-'
    ensures TrimStart(s) == s
  {
  }

  lemma ItemStripped(key: string, rest: string)
    ensures Strip("- " + key + ":" + rest) == "- " + (key + ":" + TrimEnd(rest))
  {
    hide TrimEnd;
    var line, front := "- " + key + ":" + rest, "- " + key + ":";
    NoTrimStart(line);
    hide TrimStart;
    assert front[|front| - 1] == ':';
    TrimBehind(front, rest);
    Regrouped("- ", key, TrimEnd(rest));
  }

  lemma Regrouped(dash: string, key: string, rest: string)
    ensures dash + key + ":" + rest == dash + (key + ":" + rest)
  {
  }

  lemma BodyStripped(key: string, rest: string)
    ensures Strip(key + ":" + TrimEnd(rest)) == TrimStart(key) + ":" + TrimEnd(rest)
  {
    hide TrimStart, TrimEnd;
    var back := ":" + TrimEnd(rest);
    assert key + ":" + TrimEnd(rest) == key + back;
    TrimBefore(key, back);
    EndTwice(rest);
    TrimBehind(TrimStart(key) + ":", TrimEnd(rest));
    assert TrimStart(key) + back == TrimStart(key) + ":" + TrimEnd(rest);
  }

  lemma {:induction false} EndTwice(s: string)
    ensures TrimEnd(TrimEnd(s)) == TrimEnd(s)
  {
    if s != [] && IsSpace(s[|s| - 1]) {
      EndTwice(s[..|s| - 1]);
    }
  }

  lemma Indented(indent: string, key: string, rest: string)
    requires forall k :: 0 <= k < |indent| ==> IsSpace(indent[k])
    ensures ShapeOf(indent + "- " + key + ":" + rest) == Item(TrimStart(key) + ":" + TrimEnd(rest))
  {
    hide Strip, TrimStart, TrimEnd, IsSpace;
    var line := "- " + key + ":" + rest;
    ItemBodyExactly(key, rest);
    OuterSpaces(indent, line, []);
    assert indent + line + [] == indent + "- " + key + ":" + rest;
  }

  /**
   Every item line with a colon, indented or not, parses to one pair: what is before its first colon, and what is
   behind, both without outer spaces and the latter without its quotes.
   */
  lemma ItemLineExactly(indent: string, key: string, rest: string)
    requires ':' !in key && forall k :: 0 <= k < |indent| ==> IsSpace(indent[k])
    ensures Parsed([indent + "- " + key + ":" + rest]) == Some([map[Strip(key) := Inside(Strip(rest))]])
  {
    hide ShapeOf, SplitKv, Strip, Inside, TrimStart, TrimEnd, IsSpace;
    var line := indent + "- " + key + ":" + rest;
    Indented(indent, key, rest);
    TrimStartKeeps(key);
    SplitExactly(TrimStart(key), TrimEnd(rest));
    StartSame(key);
    EndSame(rest);
    assert [line][..0] == [];
    assert Steps(NOTHING, [line]) == Step(NOTHING, line);
    var entry := map[Strip(key) := Inside(Strip(rest))];
    assert Strip(key) in entry;
    assert Step(NOTHING, line) == Progress([], Some(entry));
    assert [] + [entry] == [entry];
  }

  /**
   An item line with one pair parses to just that pair: whatever the value is between quotes of either kind, and without
   quotes if it has neither outer spaces nor quotes around it, with any spaces around the line.
   */
  lemma ItemLineParses(before: string, key: string, value: string, style: Style, after: string)
    requires KeyFits(key) && ValueFits(Written(key, value, style))
    requires forall k :: 0 <= k < |before| ==> IsSpace(before[k])
    requires forall k :: 0 <= k < |after| ==> IsSpace(after[k])
    ensures Parsed([before + ItemLine(Written(key, value, style)) + after]) == Some([map[key := value]])
  {
    hide Strip, SplitKv, KeyFits, ValueFits, Body;
    var w := Written(key, value, style);
    var line := before + ItemLine(w) + after;
    OuterSpaces(before, ItemLine(w), after);
    ItemShape(w);
    assert ShapeOf(line) == Item(Body(w));
    hide ShapeOf, ItemLine;
    BodySplits(w);
    BodyEnds(w);
    assert [line][..0] == [];
    assert Steps(NOTHING, [line]) == Step(NOTHING, line);
    assert key in map[key := value];
    assert Step(NOTHING, line) == Progress([], Some(map[key := value]));
    assert [] + [map[key := value]] == [map[key := value]];
  }
}
