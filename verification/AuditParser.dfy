/**
 The line-oriented parser of the audit exception list, and the rendering it inverts.
 */
module AuditParser {
  import opened Prelude

  // ---------- Strings ----------

  /** What str.strip() removes. */
  predicate IsSpace(c: char) {
    || '\U{9}' <= c <= '\U{d}' || '\U{1c}' <= c <= ' ' || c == '\U{85}' || c == '\U{a0}' || c == '\U{1680}'
    || '\U{2000}' <= c <= '\U{200a}' || c == '\U{2028}' || c == '\U{2029}' || c == '\U{202f}' || c == '\U{205f}' ||
        c == '\U{3000}'
  }

  function TrimStart(s: string): string {
    if s != [] && IsSpace(s[0]) then TrimStart(s[1..]) else s
  }

  function TrimEnd(s: string): string {
    if s != [] && IsSpace(s[|s| - 1]) then TrimEnd(s[..|s| - 1]) else s
  }

  function Strip(s: string): string {
    TrimEnd(TrimStart(s))
  }

  predicate StartsWith(s: string, prefix: string) {
    |prefix| <= |s| && s[..|prefix|] == prefix
  }

  predicate EndsWith(s: string, suffix: string) {
    |suffix| <= |s| && s[|s| - |suffix|..] == suffix
  }

  /** Text mode: a line ends at a line feed, a carriage return, or both. */
  function Lines(text: string): seq<string> {
    if text == [] then []
    else if text[0] == '\n' || text[0] == '\r' then
      [""] + Lines(if |text| > 1 && text[0] == '\r' && text[1] == '\n' then text[2..] else text[1..])
    else
      var rest := Lines(text[1..]);
      if rest == [] then [[text[0]]] else [[text[0]] + rest[0]] + rest[1..]
  }

  // ---------- split_kv ----------

  function Colon(s: string): (i: nat)
    requires ':' in s
    ensures i < |s| && s[i] == ':' && ':' !in s[..i]
  {
    if s[0] == ':' then 0 else 1 + Colon(s[1..])
  }

  predicate Quoted(v: string) {
    (StartsWith(v, "\"") && EndsWith(v, "\"")) || (StartsWith(v, "'") && EndsWith(v, "'"))
  }

  /** A lone quote counts as quoted, and becomes empty. */
  function Unquote(v: string): string {
    if !Quoted(v) then v else if |v| == 1 then "" else v[1..|v| - 1]
  }

  function SplitKv(line: string): (string, string)
    requires ':' in line
  {
    var i := Colon(line);
    (Strip(line[..i]), Unquote(Strip(line[i + 1..])))
  }

  // ---------- parse_exceptions ----------

  type Entry = map<string, string>

  /** What a stripped line is to the parser. */
  datatype Shape = Skipped | Item(body: string) | Pair(text: string)

  function ShapeOf(raw: string): (shape: Shape)
    ensures shape.Pair? ==> ':' in shape.text
  {
    var line := Strip(raw);
    if line == "" || StartsWith(line, "#") || StartsWith(line, "version:") || StartsWith(line, "exceptions:")
        then Skipped
    else if StartsWith(line, "- ") then Item(Strip(line[2..]))
    else if ':' in line then Pair(line)
    else Skipped
  }

  /** The parser's variables between two lines; a failed split ends the parse. */
  datatype Progress = Progress(exceptions: seq<Entry>, current: Option<Entry>) | ValueError

  function Flush(p: Progress): seq<Entry>
    requires p.Progress?
  {
    if p.current.Some? && p.current.value != map[] then p.exceptions + [p.current.value] else p.exceptions
  }

  function Step(p: Progress, raw: string): Progress {
    if p.ValueError? then p
    else
      match ShapeOf(raw)
      case Skipped => p
      case Item(body) =>
        if body == "" then Progress(Flush(p), Some(map[]))
        else if ':' !in body then ValueError
        else Progress(Flush(p), Some(map[SplitKv(body).0 := SplitKv(body).1]))
      case Pair(text) =>
        if p.current.None? then p
        else p.(current := Some(p.current.value[SplitKv(text).0 := SplitKv(text).1]))
  }

  function Steps(p: Progress, lines: seq<string>): Progress {
    if lines == [] then p else Step(Steps(p, lines[..|lines| - 1]), lines[|lines| - 1])
  }

  const NOTHING := Progress([], None)

  /** None stands for the ValueError of a failed split. */
  function Parsed(lines: seq<string>): Option<seq<Entry>> {
    var p := Steps(NOTHING, lines);
    if p.ValueError? then None else Some(Flush(p))
  }

  method ParseExceptions(lines: seq<string>) returns (r: Option<seq<Entry>>)
    ensures r == Parsed(lines)
  {
    hide ShapeOf, SplitKv;
    var exceptions: seq<Entry> := [];
    var current: Option<Entry> := None;
    for i := 0 to |lines|
      invariant Steps(NOTHING, lines[..i]) == Progress(exceptions, current)
    {
      assert lines[..i + 1][..i] == lines[..i];
      match ShapeOf(lines[i]) {
        case Skipped =>
          continue;
        case Item(body) =>
          if current.Some? && current.value != map[] {
            exceptions := exceptions + [current.value];
          }
          current := Some(map[]);
          if body != "" {
            if ':' !in body {
              ErrorStays(NOTHING, lines, i + 1, |lines|);
              assert lines[..|lines|] == lines;
              return None;
            }
            var (key, value) := SplitKv(body);
            current := Some(map[key := value]);
          }
        case Pair(text) =>
          if current.Some? {
            var (key, value) := SplitKv(text);
            current := Some(current.value[key := value]);
          }
      }
    }
    assert lines[..|lines|] == lines;
    if current.Some? && current.value != map[] {
      exceptions := exceptions + [current.value];
    }
    r := Some(exceptions);
  }

  lemma {:induction false} ErrorStays(p: Progress, lines: seq<string>, k: nat, n: nat)
    requires k <= n <= |lines| && Steps(p, lines[..k]).ValueError?
    ensures Steps(p, lines[..n]).ValueError?
  {
    hide Step;
    if k < n {
      ErrorStays(p, lines, k, n - 1);
      StepFails(lines[n - 1]);
      assert lines[..n][..n - 1] == lines[..n - 1];
    }
  }

  lemma StepFails(raw: string)
    ensures Step(ValueError, raw) == ValueError
  {
  }

  // ---------- Lemmas on strings ----------

  lemma {:induction false} TrimEndKeeps(s: string)
    ensures TrimEnd(s) <= s
    ensures TrimEnd(s) != [] ==> !IsSpace(TrimEnd(s)[|TrimEnd(s)| - 1])
    ensures TrimEnd(s) == [] <==> forall k :: 0 <= k < |s| ==> IsSpace(s[k])
  {
    if s != [] && IsSpace(s[|s| - 1]) {
      TrimEndKeeps(s[..|s| - 1]);
    }
  }

  lemma {:induction false} TrimStartKeeps(s: string)
    ensures |TrimStart(s)| <= |s| && TrimStart(s) == s[|s| - |TrimStart(s)|..]
    ensures TrimStart(s) != [] ==> !IsSpace(TrimStart(s)[0])
    ensures TrimStart(s) == [] <==> forall k :: 0 <= k < |s| ==> IsSpace(s[k])
  {
    if s != [] && IsSpace(s[0]) {
      TrimStartKeeps(s[1..]);
      assert forall k :: 1 <= k < |s| ==> s[k] == s[1..][k - 1];
    }
  }

  /** A stripped line that opens an item has something after the dash. */
  lemma ItemBody(raw: string)
    requires ShapeOf(raw).Item?
    ensures ShapeOf(raw).body != ""
  {
    var line := Strip(raw);
    TrimEndKeeps(TrimStart(raw));
    assert line[..2] == "- ";
    assert line[1] == ' ';
    assert !IsSpace(line[|line| - 1]);
    assert |line| > 2;
    var rest := line[2..];
    assert rest[|rest| - 1] == line[|line| - 1];
    TrimStartKeeps(rest);
    TrimEndKeeps(TrimStart(rest));
  }

  // ---------- The parser against its blocks ----------

  function Dict(pairs: seq<(string, string)>): Entry {
    if pairs == [] then map[] else Dict(pairs[..|pairs| - 1])[pairs[|pairs| - 1].0 := pairs[|pairs| - 1].1]
  }

  predicate BadItem(raw: string) {
    ShapeOf(raw).Item? && ':' !in ShapeOf(raw).body
  }

  /** The pairs up to the first item line. */
  function Lead(lines: seq<string>): seq<(string, string)> {
    if lines == [] then []
    else
      match ShapeOf(lines[0])
      case Skipped => Lead(lines[1..])
      case Item(_) => []
      case Pair(text) => [SplitKv(text)] + Lead(lines[1..])
  }

  /** One block an item line: its own pair and the pairs up to the next item line. */
  function Blocks(lines: seq<string>): seq<seq<(string, string)>>
    requires forall k :: 0 <= k < |lines| ==> !BadItem(lines[k])
  {
    if lines == [] then []
    else if ShapeOf(lines[0]).Item? then
      assert !BadItem(lines[0]);
      [[SplitKv(ShapeOf(lines[0]).body)] + Lead(lines[1..])] + Blocks(lines[1..])
    else Blocks(lines[1..])
  }

  function Dicts(blocks: seq<seq<(string, string)>>): (ds: seq<Entry>)
    ensures |ds| == |blocks| && forall i :: 0 <= i < |ds| ==> ds[i] == Dict(blocks[i])
  {
    seq(|blocks|, i requires 0 <= i < |blocks| => Dict(blocks[i]))
  }

  function Items(lines: seq<string>): nat {
    if lines == [] then 0 else (if ShapeOf(lines[0]).Item? then 1 else 0) + Items(lines[1..])
  }

  lemma {:induction false} BlocksCount(lines: seq<string>)
    requires forall k :: 0 <= k < |lines| ==> !BadItem(lines[k])
    ensures |Blocks(lines)| == Items(lines)
    ensures forall b :: 0 <= b < |Blocks(lines)| ==> Blocks(lines)[b] != []
  {
    hide ShapeOf, SplitKv, Lead;
    if lines != [] {
      assert !BadItem(lines[0]);
      BlocksCount(lines[1..]);
    }
  }

  lemma {:induction false} StepsFirst(p: Progress, line: string, lines: seq<string>)
    ensures Steps(p, [line] + lines) == Steps(Step(p, line), lines)
  {
    hide Step;
    var all := [line] + lines;
    if lines == [] {
      assert all[..0] == [] && Steps(p, []) == p;
    } else {
      assert all[..|all| - 1] == [line] + lines[..|lines| - 1];
      StepsFirst(p, line, lines[..|lines| - 1]);
    }
  }

  function Merge(e: Entry, pairs: seq<(string, string)>): Entry
    decreases pairs
  {
    if pairs == [] then e else Merge(e[pairs[0].0 := pairs[0].1], pairs[1..])
  }

  lemma {:induction false} MergeDict(e: Entry, done: seq<(string, string)>, pairs: seq<(string, string)>)
    requires e == Dict(done)
    ensures Merge(e, pairs) == Dict(done + pairs)
    decreases pairs
  {
    if pairs == [] {
      assert done + [] == done;
    } else {
      var more := done + [pairs[0]];
      assert more[..|more| - 1] == done;
      MergeDict(e[pairs[0].0 := pairs[0].1], more, pairs[1..]);
      assert more + pairs[1..] == done + pairs;
    }
  }

  /** The parser never holds an entry that is still empty. */
  predicate Sound(p: Progress) {
    p.Progress? && (p.current.Some? ==> p.current.value != map[])
  }

  predicate Good(lines: seq<string>) {
    forall k :: 0 <= k < |lines| ==> !BadItem(lines[k])
  }

  /**
   What a parse that stands at `p` will give: what is open takes the pairs up to the next item, then every block adds
   its entry.
   */
  function Outlook(p: Progress, lines: seq<string>): seq<Entry>
    requires Sound(p) && Good(lines)
  {
    p.exceptions + (if p.current.Some? then [Merge(p.current.value, Lead(lines))] else []) + Dicts(Blocks(lines))
  }

  lemma ItemOpens(p: Progress, raw: string)
    requires Sound(p) && ShapeOf(raw).Item? && !BadItem(raw)
    ensures var (key, value) := SplitKv(ShapeOf(raw).body);
            Step(p, raw) == Progress(Flush(p), Some(map[key := value])) && Sound(Step(p, raw))
  {
    ItemBody(raw);
    hide ShapeOf, SplitKv;
    var (key, value) := SplitKv(ShapeOf(raw).body);
    assert key in map[key := value];
  }

  lemma DictsFirst(block: seq<(string, string)>, blocks: seq<seq<(string, string)>>)
    ensures Dicts([block] + blocks) == [Dict(block)] + Dicts(blocks)
  {
    hide Dict;
  }

  lemma ItemStep(p: Progress, lines: seq<string>)
    requires Sound(p) && lines != [] && Good(lines) && ShapeOf(lines[0]).Item?
    ensures Sound(Step(p, lines[0])) && Outlook(Step(p, lines[0]), lines[1..]) == Outlook(p, lines)
  {
    hide ShapeOf, SplitKv, Lead, Merge, Dict, Dicts, Step, Flush;
    assert !BadItem(lines[0]);
    ItemOpens(p, lines[0]);
    var rest := lines[1..];
    var (key, value) := SplitKv(ShapeOf(lines[0]).body);
    FirstPair(key, value, Lead(rest));
    LeadOfItem(lines);
    NoMerge(p);
    assert Blocks(lines) == [[(key, value)] + Lead(rest)] + Blocks(rest);
    DictsFirst([(key, value)] + Lead(rest), Blocks(rest));
    hide Blocks;
    assert Outlook(Step(p, lines[0]), rest) ==
           Flush(p) + [Dict([(key, value)] + Lead(rest))] + Dicts(Blocks(rest));
  }

  lemma NoMerge(p: Progress)
    requires Sound(p)
    ensures Flush(p) == p.exceptions + if p.current.Some? then [Merge(p.current.value, [])] else []
  {
  }

  lemma FirstPair(key: string, value: string, lead: seq<(string, string)>)
    ensures Merge(map[key := value], lead) == Dict([(key, value)] + lead)
  {
    var first := [(key, value)];
    assert first[..0] == [] && Dict([]) == map[];
    MergeDict(map[key := value], first, lead);
  }

  lemma LeadOfItem(lines: seq<string>)
    requires lines != [] && ShapeOf(lines[0]).Item?
    ensures Lead(lines) == []
  {
  }

  lemma OtherStep(p: Progress, lines: seq<string>)
    requires Sound(p) && lines != [] && Good(lines) && !ShapeOf(lines[0]).Item?
    ensures Sound(Step(p, lines[0])) && Outlook(Step(p, lines[0]), lines[1..]) == Outlook(p, lines)
  {
    hide SplitKv;
    var shape := ShapeOf(lines[0]);
    hide ShapeOf;
    assert Blocks(lines) == Blocks(lines[1..]);
    if shape.Pair? && p.current.Some? {
      var (key, value) := SplitKv(shape.text);
      assert key in p.current.value[key := value];
      assert Lead(lines) == [(key, value)] + Lead(lines[1..]);
      assert ([(key, value)] + Lead(lines[1..]))[1..] == Lead(lines[1..]);
    }
  }

  lemma {:induction false} StepsBlocks(p: Progress, lines: seq<string>)
    requires Sound(p) && Good(lines)
    ensures var q := Steps(p, lines); q.Progress? && Flush(q) == Outlook(p, lines)
    decreases lines
  {
    hide ShapeOf, Step, BadItem;
    if lines == [] {
      assert Dicts(Blocks([])) == [];
    } else {
      hide Outlook, Flush;
      assert lines == [lines[0]] + lines[1..];
      StepsFirst(p, lines[0], lines[1..]);
      if ShapeOf(lines[0]).Item? {
        ItemStep(p, lines);
      } else {
        OtherStep(p, lines);
      }
      StepsBlocks(Step(p, lines[0]), lines[1..]);
    }
  }

  lemma BadStep(p: Progress, raw: string)
    requires BadItem(raw)
    ensures Step(p, raw).ValueError?
  {
    ItemBody(raw);
  }

  lemma {:induction false} BadItemFails(p: Progress, lines: seq<string>, k: nat)
    requires k < |lines| && BadItem(lines[k])
    ensures Steps(p, lines).ValueError?
  {
    hide Step, BadItem;
    var last := |lines| - 1;
    if k < last {
      assert lines[..last][k] == lines[k];
      BadItemFails(p, lines[..last], k);
      StepFails(lines[last]);
    } else {
      BadStep(Steps(p, lines[..last]), lines[last]);
    }
  }

  /**
   The parse fails exactly on an item line without a colon; otherwise it gives one entry an item line, in order, made of
   the item's pair and the pairs up to the next item. In particular the emptiness test on flushing never drops an entry.
   */
  lemma ParsedExactly(lines: seq<string>)
    ensures Parsed(lines).None? <==> exists k :: 0 <= k < |lines| && BadItem(lines[k])
    ensures Parsed(lines).Some? ==> Parsed(lines).value == Dicts(Blocks(lines)) && |Parsed(lines).value| == Items(lines)
  {
    hide ShapeOf, SplitKv, Steps, BadItem;
    if k :| 0 <= k < |lines| && BadItem(lines[k]) {
      BadItemFails(NOTHING, lines, k);
    } else {
      StepsBlocks(NOTHING, lines);
      BlocksCount(lines);
      assert [] + [] + Dicts(Blocks(lines)) == Dicts(Blocks(lines));
    }
  }

  // ---------- The canonical rendering ----------

  datatype Style = Plain | Single | Double

  /** A pair, and how its value is written. */
  datatype Written = Written(key: string, value: string, style: Style)

  function Quote(value: string, style: Style): string {
    match style
    case Plain => value
    case Single => "'" + value + "'"
    case Double => "\"" + value + "\""
  }

  function Body(w: Written): string {
    var v := Quote(w.value, w.style);
    w.key + ":" + if v == "" then "" else " " + v
  }

  function ItemLine(w: Written): string {
    "- " + Body(w)
  }

  function PairLine(w: Written): string {
    "  " + Body(w)
  }

  function PairLines(ws: seq<Written>): (lines: seq<string>)
    ensures |lines| == |ws| && forall i :: 0 <= i < |ws| ==> lines[i] == PairLine(ws[i])
  {
    seq(|ws|, i requires 0 <= i < |ws| => PairLine(ws[i]))
  }

  function PairsOf(ws: seq<Written>): (pairs: seq<(string, string)>)
    ensures |pairs| == |ws| && forall i :: 0 <= i < |ws| ==> pairs[i] == (ws[i].key, ws[i].value)
  {
    seq(|ws|, i requires 0 <= i < |ws| => (ws[i].key, ws[i].value))
  }

  function AllPairs(entries: seq<seq<Written>>): (blocks: seq<seq<(string, string)>>)
    ensures |blocks| == |entries| && forall i :: 0 <= i < |entries| ==> blocks[i] == PairsOf(entries[i])
  {
    seq(|entries|, i requires 0 <= i < |entries| => PairsOf(entries[i]))
  }

  /** Every value in the style chosen for it. */
  function Render(entries: seq<seq<Written>>): seq<string>
    requires forall i :: 0 <= i < |entries| ==> Renderable(entries[i])
  {
    if entries == [] then []
    else
      assert Renderable(entries[0]);
      [ItemLine(entries[0][0])] + PairLines(entries[0][1..]) + Render(entries[1..])
  }

  predicate KeyFits(key: string) {
    ':' !in key && Strip(key) == key
  }

  /** A quote of one kind stands at either end; a lone quote is both. */
  predicate Fenced(v: string) {
    v != "" && v[0] == v[|v| - 1] && (v[0] == '"' || v[0] == '\'')
  }

  lemma QuotedExactly(v: string)
    ensures Quoted(v) <==> Fenced(v)
  {
    if v != "" {
      assert v[..1] == [v[0]] && v[|v| - 1..] == [v[|v| - 1]];
    }
  }

  /** A value may stand without quotes if it has no outer spaces and no quotes around it already. */
  predicate ValueFits(w: Written) {
    w.style == Plain ==> Strip(w.value) == w.value && !Fenced(w.value)
  }

  /** A key that may stand on a line of its own: the line is not taken for a comment, a header or an item. */
  predicate PlainKey(key: string) {
    KeyFits(key) && !StartsWith(key, "#") && !StartsWith(key, "- ") && key != "version" && key != "exceptions"
  }

  predicate Renderable(entry: seq<Written>) {
    && entry != [] && KeyFits(entry[0].key)
    && (forall i :: 0 <= i < |entry| ==> ValueFits(entry[i]))
    && (forall i :: 1 <= i < |entry| ==> PlainKey(entry[i].key))
  }

  lemma StripNothing(s: string)
    requires s != [] ==> !IsSpace(s[0]) && !IsSpace(s[|s| - 1])
    ensures Strip(s) == s
  {
  }

  lemma StripIndent(s: string)
    requires s != [] && !IsSpace(s[0]) && !IsSpace(s[|s| - 1])
    ensures Strip(" " + s) == s && Strip("  " + s) == s
  {
    var one, two := " " + s, "  " + s;
    assert one[1..] == s && one[0] == ' ' && TrimStart(one) == TrimStart(s) == s;
    assert two[1..] == one && two[0] == ' ' && TrimStart(two) == TrimStart(one);
  }

  lemma StrippedEnds(s: string)
    requires Strip(s) == s && s != []
    ensures !IsSpace(s[0]) && !IsSpace(s[|s| - 1])
  {
    TrimStartKeeps(s);
    TrimEndKeeps(TrimStart(s));
  }

  lemma {:induction false} ColonAfter(key: string, rest: string)
    requires ':' !in key
    ensures ':' in key + ":" + rest && Colon(key + ":" + rest) == |key|
  {
    var s := key + ":" + rest;
    assert s[|key|] == ':';
    if key != [] {
      assert s[1..] == key[1..] + ":" + rest;
      assert key[0] in key;
      assert forall c :: c in key[1..] ==> c in key;
      ColonAfter(key[1..], rest);
    }
  }

  lemma QuoteEnds(w: Written)
    requires ValueFits(w)
    ensures var v := Quote(w.value, w.style); v != "" ==> !IsSpace(v[0]) && !IsSpace(v[|v| - 1])
  {
    hide Strip;
    if w.style == Plain && w.value != "" {
      StrippedEnds(w.value);
    }
  }

  lemma BodyEnds(w: Written)
    requires KeyFits(w.key) && ValueFits(w)
    ensures var body := Body(w); body != [] && !IsSpace(body[0]) && !IsSpace(body[|body| - 1])
  {
    hide Strip, Quote;
    QuoteEnds(w);
    var body, v := Body(w), Quote(w.value, w.style);
    if w.key != [] {
      StrippedEnds(w.key);
      assert body[0] == w.key[0];
    } else {
      assert body[0] == ':';
    }
    if v == "" {
      assert body[|body| - 1] == ':';
    } else {
      assert body[|body| - 1] == v[|v| - 1];
    }
  }

  lemma Unquoted(w: Written)
    requires ValueFits(w)
    ensures Unquote(Quote(w.value, w.style)) == w.value
  {
    hide Strip;
    var v := Quote(w.value, w.style);
    QuotedExactly(v);
    match w.style
    case Plain =>
    case Single =>
      assert v[..1] == "'" && v[|v| - 1..] == "'" && v[1..|v| - 1] == w.value;
    case Double =>
      assert v[..1] == "\"" && v[|v| - 1..] == "\"" && v[1..|v| - 1] == w.value;
  }

  /** What stands after the colon, stripped, is the written value. */
  lemma AfterColon(v: string)
    requires v != "" ==> !IsSpace(v[0]) && !IsSpace(v[|v| - 1])
    ensures Strip(if v == "" then "" else " " + v) == v
  {
    if v != "" {
      StripIndent(v);
    }
  }

  /**
   A rendered pair splits into its key and its value: between quotes of either kind whatever the value is, and without
   quotes a value that has neither outer spaces nor quotes around it.
   */
  lemma BodySplits(w: Written)
    requires KeyFits(w.key) && ValueFits(w)
    ensures ':' in Body(w) && SplitKv(Body(w)) == (w.key, w.value)
  {
    hide Strip, Quote, Unquote, ValueFits;
    var v := Quote(w.value, w.style);
    var rest := if v == "" then "" else " " + v;
    var body := Body(w);
    assert body == w.key + ":" + rest;
    ColonAfter(w.key, rest);
    assert body[..|w.key|] == w.key && body[|w.key| + 1..] == rest;
    QuoteEnds(w);
    AfterColon(v);
    Unquoted(w);
  }

  lemma ItemShape(w: Written)
    requires KeyFits(w.key) && ValueFits(w)
    ensures ShapeOf(ItemLine(w)) == Item(Body(w))
  {
    hide Strip, Body, ValueFits;
    var line := ItemLine(w);
    BodyEnds(w);
    assert line[0] == '-' && line[1] == ' ' && line[2..] == Body(w) && line[|line| - 1] == Body(w)[|Body(w)| - 1];
    StripNothing(line);
    StripNothing(Body(w));
    assert line[..2] == "- ";
  }

  lemma NotHeader(w: Written, header: string)
    requires ':' !in w.key && ':' !in header && w.key != header
    ensures !StartsWith(Body(w), header + ":")
  {
    hide Quote;
    var key, body, h := w.key, Body(w), header + ":";
    assert body[|key|] == ':' && body[..|key|] == key;
    assert h[|header|] == ':' && h[..|header|] == header;
    assert |key| < |header| ==> header[|key|] in header;
    assert |header| < |key| ==> key[|header|] in key;
  }

  lemma NotMark(w: Written)
    requires PlainKey(w.key)
    ensures !StartsWith(Body(w), "#") && !StartsWith(Body(w), "- ")
  {
    hide Strip, Quote;
    var body := Body(w);
    if w.key == [] {
      assert body[0] == ':';
    } else {
      assert body[..1] == w.key[..1];
      if |w.key| == 1 {
        assert body[1] == ':';
      } else {
        assert body[..2] == w.key[..2];
      }
    }
  }

  lemma PairOf(raw: string, line: string)
    requires Strip(raw) == line && line != "" && ':' in line
    requires !StartsWith(line, "#") && !StartsWith(line, "- ")
    requires !StartsWith(line, "version:") && !StartsWith(line, "exceptions:")
    ensures ShapeOf(raw) == Pair(line)
  {
    hide Strip, StartsWith;
  }

  lemma NoHeader(w: Written)
    requires PlainKey(w.key)
    ensures !StartsWith(Body(w), "version:") && !StartsWith(Body(w), "exceptions:")
  {
    hide Body, Strip, StartsWith;
    NotHeader(w, "version");
    NotHeader(w, "exceptions");
    assert "version" + ":" == "version:" && "exceptions" + ":" == "exceptions:";
  }

  lemma PairShape(w: Written)
    requires PlainKey(w.key) && ValueFits(w)
    ensures ShapeOf(PairLine(w)) == Pair(Body(w))
  {
    PlainFits(w.key);
    hide Strip, Body, StartsWith, SplitKv, ValueFits, ShapeOf, PlainKey, KeyFits;
    NotMark(w);
    NoHeader(w);
    BodyEnds(w);
    BodySplits(w);
    StripIndent(Body(w));
    PairOf(PairLine(w), Body(w));
  }

  lemma PairFirst(lines: seq<string>, w: Written)
    requires lines != [] && Good(lines[1..]) && ShapeOf(lines[0]) == Pair(Body(w))
    requires ':' in Body(w) && SplitKv(Body(w)) == (w.key, w.value)
    ensures Good(lines) && Lead(lines) == [(w.key, w.value)] + Lead(lines[1..]) && Blocks(lines) == Blocks(lines[1..])
  {
    hide ShapeOf, SplitKv, Body;
    assert Good(lines) by {
      assert forall k :: 1 <= k < |lines| ==> lines[k] == lines[1..][k - 1];
    }
  }

  lemma {:induction false} PairsLead(ws: seq<Written>, tail: seq<string>)
    requires forall i :: 0 <= i < |ws| ==> PlainKey(ws[i].key) && ValueFits(ws[i])
    requires Good(tail)
    ensures var lines := PairLines(ws) + tail;
            Good(lines) && Lead(lines) == PairsOf(ws) + Lead(tail) && Blocks(lines) == Blocks(tail)
  {
    hide ShapeOf, SplitKv, Body, PlainKey, ValueFits, Strip;
    var lines := PairLines(ws) + tail;
    if ws == [] {
      assert lines == tail;
      assert [] + Lead(tail) == Lead(tail);
    } else {
      var rest := PairLines(ws[1..]) + tail;
      assert lines[0] == PairLine(ws[0]) && lines[1..] == rest;
      PairShape(ws[0]);
      PlainFits(ws[0].key);
      BodySplits(ws[0]);
      PairsLead(ws[1..], tail);
      PairFirst(lines, ws[0]);
      hide Lead, Blocks, Good, PairLines;
      assert PairsOf(ws) == [(ws[0].key, ws[0].value)] + PairsOf(ws[1..]);
    }
  }

  lemma PlainFits(key: string)
    requires PlainKey(key)
    ensures KeyFits(key)
  {
  }

  lemma RenderedBlock(entry: seq<Written>, tail: seq<string>)
    requires Renderable(entry) && Good(tail) && Lead(tail) == []
    ensures var lines := [ItemLine(entry[0])] + PairLines(entry[1..]) + tail;
            Good(lines) && Blocks(lines) == [PairsOf(entry)] + Blocks(tail) && Lead(lines) == []
  {
    hide SplitKv, Body, PlainKey, KeyFits, ValueFits, Strip, StartsWith, ItemLine, PairLines;
    var rest := PairLines(entry[1..]) + tail;
    var lines := [ItemLine(entry[0])] + PairLines(entry[1..]) + tail;
    assert lines[0] == ItemLine(entry[0]) && lines[1..] == rest;
    ItemShape(entry[0]);
    BodySplits(entry[0]);
    hide ShapeOf;
    PairsLead(entry[1..], tail);
    assert PairsOf(entry[1..]) + [] == PairsOf(entry[1..]);
    assert Good(lines) by {
      assert forall k :: 1 <= k < |lines| ==> lines[k] == rest[k - 1];
    }
    assert PairsOf(entry) == [(entry[0].key, entry[0].value)] + PairsOf(entry[1..]);
  }

  lemma AllPairsFirst(entries: seq<seq<Written>>)
    requires entries != []
    ensures AllPairs(entries) == [PairsOf(entries[0])] + AllPairs(entries[1..])
  {
    hide PairsOf;
  }

  lemma {:induction false} RenderedBlocks(entries: seq<seq<Written>>)
    requires forall i :: 0 <= i < |entries| ==> Renderable(entries[i])
    ensures Good(Render(entries)) && Blocks(Render(entries)) == AllPairs(entries) && Lead(Render(entries)) == []
  {
    hide Renderable, BadItem, ItemLine, PairLines, PairsOf;
    if entries != [] {
      hide Blocks, Lead, AllPairs, Good;
      RenderedBlocks(entries[1..]);
      RenderedBlock(entries[0], Render(entries[1..]));
      AllPairsFirst(entries);
    }
  }

  // ---------- Down to the text ----------

  predicate OneLine(s: string) {
    '\n' !in s && '\r' !in s
  }

  function Text(lines: seq<string>): string {
    if lines == [] then [] else lines[0] + "\n" + Text(lines[1..])
  }

  lemma {:induction false} FirstLine(line: string, rest: string)
    requires OneLine(line)
    ensures Lines(line + "\n" + rest) == [line] + Lines(rest)
    decreases line
  {
    var text := line + "\n" + rest;
    if line == [] {
      assert text[1..] == rest;
    } else {
      assert text[1..] == line[1..] + "\n" + rest;
      assert line[0] in line;
      assert forall c :: c in line[1..] ==> c in line;
      FirstLine(line[1..], rest);
      assert text[0] == line[0] && [line[0]] + line[1..] == line;
      assert Lines(text[1..])[0] == line[1..] && Lines(text[1..])[1..] == Lines(rest);
    }
  }

  lemma {:induction false} LinesOfText(lines: seq<string>)
    requires forall i :: 0 <= i < |lines| ==> OneLine(lines[i])
    ensures Lines(Text(lines)) == lines
  {
    if lines != [] {
      FirstLine(lines[0], Text(lines[1..]));
      LinesOfText(lines[1..]);
    }
  }

  predicate OneLinePairs(entry: seq<Written>) {
    forall i :: 0 <= i < |entry| ==> OneLine(entry[i].key) && OneLine(entry[i].value)
  }

  lemma BodyOneLine(w: Written)
    requires OneLine(w.key) && OneLine(w.value)
    ensures OneLine(ItemLine(w)) && OneLine(PairLine(w))
  {
    hide Quote;
    assert OneLine(Quote(w.value, w.style)) by { QuoteOneLine(w.value, w.style); }
  }

  lemma QuoteOneLine(value: string, style: Style)
    requires OneLine(value)
    ensures OneLine(Quote(value, style))
  {
  }

  lemma {:induction false} RenderedLines(entries: seq<seq<Written>>)
    requires forall i :: 0 <= i < |entries| ==> Renderable(entries[i])
    requires forall i :: 0 <= i < |entries| ==> OneLinePairs(entries[i])
    ensures forall i :: 0 <= i < |Render(entries)| ==> OneLine(Render(entries)[i])
  {
    hide ItemLine, PairLine, OneLine;
    if entries != [] {
      var entry := entries[0];
      assert Renderable(entry) && OneLinePairs(entry);
      RenderedLines(entries[1..]);
      forall i | 0 <= i < |entry|
        ensures OneLine(ItemLine(entry[i])) && OneLine(PairLine(entry[i]))
      {
        BodyOneLine(entry[i]);
      }
    }
  }

  /**
   Rendering any list of entries to text, each value in a style of its own, and parsing that text gives the entries
   back.
   */
  lemma RenderThenParse(entries: seq<seq<Written>>)
    requires forall i :: 0 <= i < |entries| ==> Renderable(entries[i])
    requires forall i :: 0 <= i < |entries| ==> OneLinePairs(entries[i])
    ensures Parsed(Lines(Text(Render(entries)))) == Some(Dicts(AllPairs(entries)))
  {
    hide ShapeOf, SplitKv, Renderable, OneLinePairs, BadItem, Render, Text, Lines, Lead, Blocks, Parsed;
    RenderedLines(entries);
    LinesOfText(Render(entries));
    RenderedBlocks(entries);
    ParsedExactly(Render(entries));
  }
}
