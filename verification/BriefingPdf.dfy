/** The briefing document: an audited plan as one page of shown text lines, and a reader for the
    content stream that follows ISO 32000-1. A byte is written as the character with its code. */
module BriefingPdf {
  import opened Wrappers
  import opened Decimal
  import opened PdfFile

  const LINE_LIMIT := 110
  const METRIC_LIMIT := 24

  /** The formatted fields of one audited metric. */
  datatype MetricText = MetricText(path: string, value: string, measure: string, status: string)

  /** The formatted fields of a package. */
  datatype Package = Package(
    planId: string, planKind: string, status: string, coverage: string,
    summary: string, difference: string, metrics: seq<MetricText>)

  function MetricLine(m: MetricText): string {
    m.path + ": " + m.value + " " + m.measure + " [" + m.status + "]"
  }

  function Opening(p: Package): seq<string> {
    [ "Sanjiv - Audited Energy Resilience Briefing",
      "India's Energy Resilience Command Center",
      "Plan: " + p.planId + " (" + p.planKind + ")",
      "Audit: " + p.status + " / " + p.coverage + "% coverage",
      "Summary: " + p.summary,
      "No-action comparison: " + p.difference,
      "Decision boundary: decision support only; no order or reserve execution.",
      "Key audited values:" ]
  }

  function MetricLines(metrics: seq<MetricText>): seq<string> {
    var n := if |metrics| <= METRIC_LIMIT then |metrics| else METRIC_LIMIT;
    seq(n, i requires 0 <= i < n => MetricLine(metrics[i]))
  }

  function Lines(p: Package): seq<string> {
    Opening(p) + MetricLines(p.metrics) + ["All figures above are copied from the audited API payload."]
  }

  /** A briefing has nine fixed lines, and one for each of the first two dozen metrics. */
  lemma LinesTell(p: Package, i: nat)
    ensures |Lines(p)| == 9 + (if |p.metrics| < 24 then |p.metrics| else 24)
    ensures Lines(p)[2] == "Plan: " + p.planId + " (" + p.planKind + ")"
    ensures Lines(p)[3] == "Audit: " + p.status + " / " + p.coverage + "% coverage"
    ensures Lines(p)[4] == "Summary: " + p.summary && Lines(p)[5] == "No-action comparison: " + p.difference
    ensures i < |p.metrics| && i < 24 ==>
              var m := p.metrics[i];
              Lines(p)[8 + i] == m.path + ": " + m.value + " " + m.measure + " [" + m.status + "]"
  {
  }

  // ---------------------------------------------------------------- escaping

  predicate Special(c: char) {
    c == '\\' || c == '(' || c == ')'
  }

  /** Python's `s.replace(c, with)` for a single character. */
  function Replace(s: string, c: char, with: string): string {
    if s == "" then "" else (if s[0] == c then with else [s[0]]) + Replace(s[1..], c, with)
  }

  function Escape(line: string): string {
    Replace(Replace(Replace(line, '\\', "\\\\"), '(', "\\("), ')', "\\)")
  }

  function EscapeChar(c: char): (escape: string)
    ensures escape == [c] || escape == ['\\', c]
  {
    if Special(c) then ['\\', c] else [c]
  }

  /** Escaping as it is meant: every special character gets one backslash. */
  function OnePass(line: string): string {
    if line == "" then "" else EscapeChar(line[0]) + OnePass(line[1..])
  }

  lemma {:induction false} ReplaceDistributes(a: string, b: string, c: char, with: string)
    ensures Replace(a + b, c, with) == Replace(a, c, with) + Replace(b, c, with)
  {
    if a == "" {
      assert a + b == b;
    } else {
      ReplaceDistributes(a[1..], b, c, with);
      assert (a + b)[1..] == a[1..] + b && (a + b)[0] == a[0];
      var first, x, y := if a[0] == c then with else [a[0]], Replace(a[1..], c, with), Replace(b, c, with);
      assert Replace(a + b, c, with) == first + Replace(a[1..] + b, c, with);
      assert first + (x + y) == first + x + y;
    }
  }

  lemma ReplaceOne(c: char, d: char, with: string)
    ensures Replace([c], d, with) == if c == d then with else [c]
  {
    assert [c][1..] == "";
    assert Replace([c], d, with) == (if c == d then with else [c]) + "";
  }

  lemma ReplaceTwo(c: char, e: char, d: char, with: string)
    requires c != d && e != d
    ensures Replace([c, e], d, with) == [c, e]
  {
    ReplaceDistributes([c], [e], d, with);
    ReplaceOne(c, d, with);
    ReplaceOne(e, d, with);
    assert [c] + [e] == [c, e];
  }

  lemma EscapeOneChar(c: char)
    ensures Escape([c]) == EscapeChar(c)
  {
    ReplaceOne(c, '\\', "\\\\");
    ReplaceTwo('\\', '\\', '(', "\\(");
    ReplaceTwo('\\', '\\', ')', "\\)");
    ReplaceOne(c, '(', "\\(");
    ReplaceTwo('\\', '(', ')', "\\)");
    ReplaceOne(c, ')', "\\)");
  }

  /** The three successive replacements do not escape each other's backslashes. */
  lemma {:induction false} EscapeIsOnePass(line: string)
    ensures Escape(line) == OnePass(line)
  {
    if line != "" {
      var a, b := [line[0]], line[1..];
      assert line == a + b;
      EscapeIsOnePass(b);
      EscapeOneChar(line[0]);
      ReplaceDistributes(a, b, '\\', "\\\\");
      var a1, b1 := Replace(a, '\\', "\\\\"), Replace(b, '\\', "\\\\");
      ReplaceDistributes(a1, b1, '(', "\\(");
      ReplaceDistributes(Replace(a1, '(', "\\("), Replace(b1, '(', "\\("), ')', "\\)");
    }
  }

  function CutAt(s: string, room: nat): string {
    if |s| <= room then s else s[..room]
  }

  /** Truncation happens after escaping. */
  function Cut(s: string): string {
    CutAt(s, LINE_LIMIT)
  }

  // ---------------------------------------------------------------- encoding

  function Latin1(c: char): char {
    if c as int < 256 then c else '?'
  }

  /** Characters outside Latin-1 are replaced one by one. */
  function Encode(s: string): string {
    seq(|s|, i requires 0 <= i < |s| => Latin1(s[i]))
  }

  /** Characters of Latin-1 stay, and every other one becomes a question mark. */
  lemma EncodeKeepsLatin1(s: string, i: nat)
    requires i < |s|
    ensures |Encode(s)| == |s|
    ensures Encode(s)[i] == if s[i] as int <= 255 then s[i] else '?'
  {
  }

  lemma EncodeDistributes(a: string, b: string)
    ensures Encode(a + b) == Encode(a) + Encode(b)
  {
  }

  lemma {:induction false} EncodeCommutes(line: string)
    ensures Encode(OnePass(line)) == OnePass(Encode(line))
  {
    if line != "" {
      EncodeCommutes(line[1..]);
      EncodeDistributes(EscapeChar(line[0]), OnePass(line[1..]));
      assert Encode(line)[1..] == Encode(line[1..]);
      assert Encode(EscapeChar(line[0])) == EscapeChar(Encode(line)[0]);
    }
  }

  /** What a line becomes inside its parentheses. */
  function Literal(line: string): string {
    Encode(Cut(Escape(line)))
  }

  lemma LiteralIsCut(line: string)
    ensures Literal(line) == Cut(OnePass(Encode(line)))
  {
    EscapeIsOnePass(line);
    EncodeCommutes(line);
  }

  // ---------------------------------------------------------------- the string reader

  function Prepend(t: string, read: Option<(string, string)>): Option<(string, string)> {
    match read
    case None => None
    case Some(pair) => Some((t + pair.0, pair.1))
  }

  /** Section 7.3.4.2: a literal string up to its closing parenthesis, and what follows. A
      backslash takes the next character literally; balanced parentheses nest. The other escapes of
      the standard are never written here. */
  function ReadString(s: string, depth: nat): (r: Option<(string, string)>)
    ensures r.Some? ==> |r.value.1| < |s|
    decreases |s|
  {
    if s == "" then None
    else if s[0] == '\\' then
      if |s| == 1 || !Special(s[1]) then None else Prepend([s[1]], ReadString(s[2..], depth))
    else if s[0] == '(' then Prepend("(", ReadString(s[1..], depth + 1))
    else if s[0] == ')' then
      if depth == 0 then Some(("", s[1..])) else Prepend(")", ReadString(s[1..], depth - 1))
    else Prepend([s[0]], ReadString(s[1..], depth))
  }

  lemma PrependNothing(read: Option<(string, string)>)
    ensures Prepend("", read) == read
  {
    if read.Some? {
      assert "" + read.value.0 == read.value.0;
    }
  }

  lemma PrependTwice(a: string, b: string, read: Option<(string, string)>)
    ensures Prepend(a, Prepend(b, read)) == Prepend(a + b, read)
  {
    if read.Some? {
      assert a + (b + read.value.0) == a + b + read.value.0;
    }
  }

  lemma EscapeCharReads(c: char, later: string)
    ensures ReadString(EscapeChar(c) + later, 0) == Prepend([c], ReadString(later, 0))
  {
    assert (EscapeChar(c) + later)[|EscapeChar(c)|..] == later;
  }

  lemma {:induction false} EscapedReads(line: string, rest: string)
    ensures ReadString(OnePass(line) + rest, 0) == Prepend(line, ReadString(rest, 0))
  {
    hide ReadString, EscapeChar, Prepend;
    var s := OnePass(line) + rest;
    if line == "" {
      assert s == rest;
      PrependNothing(ReadString(rest, 0));
    } else {
      EscapedReads(line[1..], rest);
      var later := OnePass(line[1..]) + rest;
      assert s == EscapeChar(line[0]) + later;
      EscapeCharReads(line[0], later);
      assert line == [line[0]] + line[1..];
      PrependTwice([line[0]], line[1..], ReadString(rest, 0));
    }
  }

  /** How many characters of the line have their whole escape within `room`. */
  function Fitting(line: string, room: nat): (n: nat)
    ensures n <= |line|
  {
    if line == "" || |EscapeChar(line[0])| > room then 0
    else 1 + Fitting(line[1..], room - |EscapeChar(line[0])|)
  }

  /** The cut falls between a backslash and the character it escapes. */
  predicate SplitsEscape(line: string, room: nat) {
    line != ""
    && if |EscapeChar(line[0])| > room then room == 1 else SplitsEscape(line[1..], room - |EscapeChar(line[0])|)
  }

  lemma CutBehind(c: string, e: string, room: nat, kept: string, tail: string)
    requires |c| <= room && CutAt(e, room - |c|) == kept + tail
    ensures CutAt(c + e, room) == c + kept + tail
  {
    assert |c + e| > room ==> (c + e)[..room] == c + e[..room - |c|];
  }

  lemma CutInside(c: char, e: string, room: nat)
    requires room < |EscapeChar(c)|
    ensures CutAt(EscapeChar(c) + e, room) == if room == 1 then "\\" else ""
  {
  }

  lemma OnePassPrefix(line: string, n: nat)
    requires n < |line|
    ensures OnePass(line[..n + 1]) == EscapeChar(line[0]) + OnePass(line[1..][..n])
  {
    assert line[..n + 1][1..] == line[1..][..n] && line[..n + 1][0] == line[0];
  }

  /** A cut keeps whole escapes, and possibly the backslash of one more. */
  lemma {:induction false} CutShape(line: string, room: nat)
    ensures CutAt(OnePass(line), room)
            == OnePass(line[..Fitting(line, room)]) + if SplitsEscape(line, room) then "\\" else ""
  {
    hide CutAt, EscapeChar;
    if line == "" {
      CutNothing(room);
    } else {
      var c, rest := EscapeChar(line[0]), line[1..];
      if |c| <= room {
        CutShape(rest, room - |c|);
        var n := Fitting(rest, room - |c|);
        CutBehind(c, OnePass(rest), room, OnePass(rest[..n]), if SplitsEscape(rest, room - |c|) then "\\" else "");
        OnePassPrefix(line, n);
      } else {
        CutInside(line[0], OnePass(rest), room);
      }
    }
  }

  lemma CutNothing(room: nat)
    ensures CutAt("", room) == ""
  {
  }

  /** The characters of an encoded line that a reader should see. */
  function Shown(line: string): string {
    Encode(line)[..Fitting(Encode(line), LINE_LIMIT)]
  }

  lemma CloseReads(rest: string)
    ensures ReadString(")" + rest, 0) == Some(("", rest))
  {
    assert (")" + rest)[1..] == rest;
  }

  lemma WholeLiteralReads(shown: string, rest: string)
    ensures ReadString(OnePass(shown) + ")" + rest, 0) == Some((shown, rest))
  {
    hide ReadString, OnePass;
    var left := ")" + rest;
    CloseReads(rest);
    EscapedReads(shown, left);
    assert OnePass(shown) + left == OnePass(shown) + ")" + rest;
    assert shown + "" == shown;
  }

  lemma SplitLiteralReads(shown: string, rest: string)
    ensures var read := ReadString(OnePass(shown) + "\\" + ")" + rest, 0);
            read.Some? ==> read.value.0 != shown
  {
    var left := "\\)" + rest;
    assert left[2..] == rest;
    EscapedReads(shown, left);
    assert OnePass(shown) + left == OnePass(shown) + "\\" + ")" + rest;
    var later := ReadString(rest, 0);
    if later.Some? {
      assert |shown + (")" + later.value.0)| > |shown|;
    }
  }

  /** A written literal reads back as its characters, and the reader stops at its own parenthesis,
      exactly when truncation did not split an escape. */
  lemma LiteralReadsBack(line: string, rest: string)
    ensures var read := ReadString(Literal(line) + ")" + rest, 0);
            if SplitsEscape(Encode(line), LINE_LIMIT)
            then read.Some? ==> read.value.0 != Shown(line)
            else read == Some((Shown(line), rest))
  {
    LiteralIsCut(line);
    CutShape(Encode(line), LINE_LIMIT);
    assert Cut(OnePass(Encode(line))) == CutAt(OnePass(Encode(line)), LINE_LIMIT);
    SplitLiteralReads(Shown(line), rest);
    WholeLiteralReads(Shown(line), rest);
    hide ReadString, Encode, Literal, SplitsEscape, OnePass, Fitting;
    assert OnePass(Shown(line)) + "" == OnePass(Shown(line));
  }

  /** A line whose escaped form fits is shown completely, and nothing is split. */
  lemma {:induction false} ShortLinesFit(line: string, room: nat)
    requires |OnePass(line)| <= room
    ensures Fitting(line, room) == |line| && !SplitsEscape(line, room)
  {
    if line != "" {
      ShortLinesFit(line[1..], room - |EscapeChar(line[0])|);
    }
  }

  function Dots(n: nat): string {
    if n == 0 then "" else "." + Dots(n - 1)
  }

  lemma {:induction false} DotsThenParenthesis(n: nat)
    ensures SplitsEscape(Dots(n) + "(", n + 1)
  {
    var line := Dots(n) + "(";
    if n > 0 {
      DotsThenParenthesis(n - 1);
      assert line[1..] == Dots(n - 1) + "(";
    }
  }

  /** Plain characters in front leave less room for the rest. */
  lemma {:induction false} PlainInFront(plain: string, line: string, room: nat)
    requires |plain| <= room && forall i :: 0 <= i < |plain| ==> !Special(plain[i])
    ensures SplitsEscape(plain + line, room) <==> SplitsEscape(line, room - |plain|)
  {
    if plain == "" {
      assert plain + line == line;
    } else {
      assert (plain + line)[1..] == plain[1..] + line;
      PlainInFront(plain[1..], line, room - 1);
    }
  }

  // ---------------------------------------------------------------- the content stream

  const PREAMBLE := ["BT", "/F1 9 Tf", "44 760 Td", "12 TL"]
  const SHOW := ") Tj"

  /** Python's `"\n".join`. */
  function Join(lines: seq<string>): string {
    if |lines| == 0 then ""
    else if |lines| == 1 then lines[0]
    else Join(lines[..|lines| - 1]) + "\n" + lines[|lines| - 1]
  }

  /** The operators for the first `k` lines. */
  function Operators(escaped: seq<string>, k: nat): seq<string>
    requires k <= |escaped|
  {
    if k == 0 then PREAMBLE
    else Operators(escaped, k - 1) + (if k > 1 then ["T*"] else []) + ["(" + escaped[k - 1] + SHOW]
  }

  function Escaped(lines: seq<string>): seq<string> {
    seq(|lines|, i requires 0 <= i < |lines| => Cut(Escape(lines[i])))
  }

  function Stream(lines: seq<string>): string {
    Encode(Join(Operators(Escaped(lines), |lines|) + ["ET"]))
  }

  /** What the reader still has to read before line `i`. */
  function Remaining(lines: seq<string>, i: nat): string
    requires i <= |lines|
    decreases |lines| - i
  {
    if i == |lines| then "\nET"
    else (if i == 0 then "\n(" else "\nT*\n(") + Literal(lines[i]) + ")" + (" Tj" + Remaining(lines, i + 1))
  }

  /** Reads shown lines up to the end of the text object. */
  function ReadLines(s: string, first: bool): Option<seq<string>>
    decreases |s|
  {
    var lead := if first then "\n(" else "\nT*\n(";
    if s == "\nET" then Some([])
    else if !(lead <= s) then None
    else
      var read := ReadString(s[|lead|..], 0);
      if read.None? || !(" Tj" <= read.value.1) then None
      else
        var rest := ReadLines(read.value.1[3..], false);
        if rest.None? then None else Some([read.value.0] + rest.value)
  }

  function ReadContent(stream: string): Option<seq<string>> {
    var preamble := Join(PREAMBLE);
    if preamble <= stream then ReadLines(stream[|preamble|..], true) else None
  }

  function ShownFrom(lines: seq<string>, i: nat): seq<string>
    requires i <= |lines|
    decreases |lines| - i
  {
    if i == |lines| then [] else [Shown(lines[i])] + ShownFrom(lines, i + 1)
  }

  predicate NoneSplitFrom(lines: seq<string>, i: nat)
    requires i <= |lines|
    decreases |lines| - i
  {
    i == |lines| || (!SplitsEscape(Encode(lines[i]), LINE_LIMIT) && NoneSplitFrom(lines, i + 1))
  }

  /** What a page shows of its lines, and that truncation splits no escape on it. */
  function ShownText(lines: seq<string>): seq<string> {
    ShownFrom(lines, 0)
  }

  predicate NoneSplit(lines: seq<string>) {
    NoneSplitFrom(lines, 0)
  }

  /** The line in front of the reader, taken apart. */
  lemma LineAhead(lines: seq<string>, i: nat)
    requires i < |lines|
    ensures var lead := if i == 0 then "\n(" else "\nT*\n(";
            && lead <= Remaining(lines, i) && Remaining(lines, i) != "\nET"
            && Remaining(lines, i)[|lead|..] == Literal(lines[i]) + ")" + (" Tj" + Remaining(lines, i + 1))
  {
    hide Literal;
    var lead := if i == 0 then "\n(" else "\nT*\n(";
    var body := Literal(lines[i]) + ")" + (" Tj" + Remaining(lines, i + 1));
    assert Remaining(lines, i) == lead + body;
    assert Remaining(lines, i)[1] == lead[1];
  }

  lemma WholeLineReads(lines: seq<string>, i: nat)
    requires i < |lines| && !SplitsEscape(Encode(lines[i]), LINE_LIMIT)
    ensures var rest := ReadLines(Remaining(lines, i + 1), false);
            ReadLines(Remaining(lines, i), i == 0)
            == if rest.None? then None else Some([Shown(lines[i])] + rest.value)
  {
    var after := " Tj" + Remaining(lines, i + 1);
    LineAhead(lines, i);
    LiteralReadsBack(lines[i], after);
    hide ReadString, Encode, Literal, SplitsEscape, Shown, Remaining;
    assert " Tj" <= after && after[3..] == Remaining(lines, i + 1);
  }

  lemma SplitLineFails(lines: seq<string>, i: nat)
    requires i < |lines| && SplitsEscape(Encode(lines[i]), LINE_LIMIT)
    ensures var read := ReadLines(Remaining(lines, i), i == 0);
            read.Some? ==> read.value != [] && read.value[0] != Shown(lines[i])
  {
    LineAhead(lines, i);
    LiteralReadsBack(lines[i], " Tj" + Remaining(lines, i + 1));
    hide ReadString, Encode, Literal, SplitsEscape, Shown, Remaining;
  }

  lemma {:induction false} LinesRead(lines: seq<string>, i: nat)
    requires i <= |lines|
    ensures ReadLines(Remaining(lines, i), i == 0) == Some(ShownFrom(lines, i)) <==> NoneSplitFrom(lines, i)
    decreases |lines| - i
  {
    if i == |lines| {
    } else {
      hide ReadLines, Remaining, Shown, Encode, SplitsEscape;
      LinesRead(lines, i + 1);
      if SplitsEscape(Encode(lines[i]), LINE_LIMIT) {
        SplitLineFails(lines, i);
      } else {
        WholeLineReads(lines, i);
        var rest := ReadLines(Remaining(lines, i + 1), false);
        if rest.Some? {
          assert ([Shown(lines[i])] + rest.value)[1..] == rest.value;
          assert ShownFrom(lines, i)[1..] == ShownFrom(lines, i + 1);
        }
      }
    }
  }

  lemma {:induction false} JoinPush(lines: seq<string>, line: string)
    requires lines != []
    ensures Join(lines + [line]) == Join(lines) + "\n" + line
  {
    assert (lines + [line])[..|lines|] == lines;
  }

  /** The text one line adds to the joined operators. */
  lemma JoinedLine(escaped: seq<string>, k: nat)
    requires 0 < k <= |escaped|
    ensures Operators(escaped, k - 1) != [] && Operators(escaped, k) != []
    ensures Join(Operators(escaped, k))
            == Join(Operators(escaped, k - 1)) + ((if k > 1 then "\nT*\n(" else "\n(") + escaped[k - 1] + SHOW)
  {
    OperatorsNonEmpty(escaped, k - 1);
    var before, shown := Operators(escaped, k - 1), "(" + escaped[k - 1] + SHOW;
    if k > 1 {
      JoinPush(before, "T*");
      JoinPush(before + ["T*"], shown);
    } else {
      JoinPush(before, shown);
      assert before + [] + [shown] == before + [shown];
    }
  }

  lemma OperatorsNonEmpty(escaped: seq<string>, k: nat)
    requires k <= |escaped|
    ensures Operators(escaped, k) != []
  {
  }

  lemma EncodedLine(lead: string, cut: string)
    requires Encode(lead) == lead
    ensures Encode(lead + cut + SHOW) == lead + Encode(cut) + SHOW
  {
    EncodeDistributes(lead + cut, SHOW);
    EncodeDistributes(lead, cut);
    EncodeConstants();
  }

  /** What the writer has joined after `k` lines, and what the reader still expects, make the stream. */
  lemma {:induction false} StreamSoFar(lines: seq<string>, k: nat)
    requires k <= |lines|
    ensures Encode(Join(Operators(Escaped(lines), k))) + Remaining(lines, k)
            == Encode(Join(PREAMBLE)) + Remaining(lines, 0)
  {
    if k > 0 {
      StreamSoFar(lines, k - 1);
      var before, cut := Join(Operators(Escaped(lines), k - 1)), Cut(Escape(lines[k - 1]));
      var lead := if k > 1 then "\nT*\n(" else "\n(";
      EncodeConstants();
      JoinedLine(Escaped(lines), k);
      EncodeDistributes(before, lead + cut + SHOW);
      EncodedLine(lead, cut);
      hide Encode, Operators, Join, Escape, Cut;
      StepBetween(Encode(before), lead, Literal(lines[k - 1]), Remaining(lines, k));
    }
  }

  lemma StepBetween(before: string, lead: string, shown: string, after: string)
    ensures before + (lead + shown + SHOW) + after == before + (lead + shown + ")" + (" Tj" + after))
  {
  }

  lemma EncodeConstants()
    ensures Encode("\nT*\n(") == "\nT*\n(" && Encode("\n(") == "\n(" && Encode(SHOW) == SHOW
    ensures Encode("\nET") == "\nET"
  {
  }

  lemma StreamIs(lines: seq<string>)
    ensures Stream(lines) == Encode(Join(PREAMBLE)) + Remaining(lines, 0)
  {
    var n := |lines|;
    StreamSoFar(lines, n);
    OperatorsNonEmpty(Escaped(lines), n);
    var operators := Operators(Escaped(lines), n);
    JoinPush(operators, "ET");
    assert Join(operators) + "\n" + "ET" == Join(operators) + "\nET";
    EncodeDistributes(Join(operators), "\nET");
    EncodeConstants();
  }

  /** The content stream reads back as the shown text of every line, exactly when truncation
      splits no escape. */
  lemma ContentReadsBack(lines: seq<string>)
    ensures ReadContent(Stream(lines)) == Some(ShownText(lines)) <==> NoneSplit(lines)
  {
    StreamIs(lines);
    LinesRead(lines, 0);
    PreambleIs();
    var stream := Stream(lines);
    assert stream[|Join(PREAMBLE)|..] == Remaining(lines, 0);
  }

  lemma PreambleIs()
    ensures Encode(Join(PREAMBLE)) == Join(PREAMBLE)
  {
    PreambleLines();
  }

  lemma PreambleLines()
    ensures Join(PREAMBLE) == "BT" + "\n" + "/F1 9 Tf" + "\n" + "44 760 Td" + "\n" + "12 TL"
  {
    JoinPush(["BT"], "/F1 9 Tf");
    JoinPush(["BT", "/F1 9 Tf"], "44 760 Td");
    JoinPush(["BT", "/F1 9 Tf", "44 760 Td"], "12 TL");
    assert ["BT", "/F1 9 Tf"] + ["44 760 Td"] == ["BT", "/F1 9 Tf", "44 760 Td"];
    assert ["BT", "/F1 9 Tf", "44 760 Td"] + ["12 TL"] == PREAMBLE;
  }

  // ---------------------------------------------------------------- the document

  const LENGTH := "<< /Length "
  const BEGIN_STREAM := " >>\nstream\n"
  const END_STREAM := "\nendstream"

  function StreamObject(stream: string): string {
    LENGTH + Digits(|stream|) + BEGIN_STREAM + stream + END_STREAM
  }

  function Objects(stream: string): (objects: seq<string>)
    ensures |objects| == 5 && objects[3] == StreamObject(stream)
  {
    [ "<< /Type /Catalog /Pages 2 0 R >>",
      "<< /Type /Pages /Kids [3 0 R] /Count 1 >>",
      PAGE,
      StreamObject(stream),
      "<< /Type /Font /Subtype /Type1 /BaseFont /Helvetica >>" ]
  }

  /** The text names the object: section 7.3.10 writes an indirect reference as `n 0 R`. */
  ghost predicate Refers(body: string, key: string, n: nat) {
    exists i :: RefersAt(body, i, key, n)
  }

  ghost predicate RefersAt(body: string, i: nat, key: string, n: nat) {
    Stands(body, i, key + Digits(n) + " 0 R")
  }

  lemma RefersInside(body: string, a: string, key: string, n: nat, d: string, c: string)
    requires Digits(n) == d && body == a + (key + d + " 0 R") + c
    ensures Refers(body, key, n)
  {
    Middle(a, key + d + " 0 R", c);
    assert RefersAt(body, |a|, key, n);
  }

  lemma OneDigit()
    ensures Digits(1) == "1" && Digits(2) == "2" && Digits(3) == "3" && Digits(4) == "4" && Digits(5) == "5"
  {
  }

  /** From the trailer to the text: catalogue, pages, page, content and font are linked by the
      numbers the writer gives them. */
  lemma ObjectsLink(stream: string, count: nat, xref: nat)
    ensures Refers(Trailer(count, xref), "/Root ", 1)
    ensures Refers(Objects(stream)[0], "/Pages ", 2) && Refers(Objects(stream)[1], "/Kids [", 3)
    ensures Refers(Objects(stream)[2], "/Contents ", 4) && Refers(Objects(stream)[2], "/F1 ", 5)
  {
    hide Refers, Digits, StreamObject;
    RootIsFirst(count, xref);
    TreeLinks(Objects(stream)[0], Objects(stream)[1]);
    FontLink();
    ContentLink();
  }

  lemma RootIsFirst(count: nat, xref: nat)
    ensures Refers(Trailer(count, xref), "/Root ", 1)
  {
    hide Refers, Digits;
    OneDigit();
    var a, c := "trailer\n<< /Size " + Digits(count) + " ", " >>\n" + START + Digits(xref) + END_OF_FILE;
    RefersInside(Trailer(count, xref), a, "/Root ", 1, "1", c);
  }

  lemma TreeLinks(catalogue: string, pages: string)
    requires catalogue == "<< /Type /Catalog /Pages 2 0 R >>"
    requires pages == "<< /Type /Pages /Kids [3 0 R] /Count 1 >>"
    ensures Refers(catalogue, "/Pages ", 2) && Refers(pages, "/Kids [", 3)
  {
    hide Refers, Digits;
    OneDigit();
    RefersInside(catalogue, catalogue[..18], "/Pages ", 2, "2", catalogue[30..]);
    RefersInside(pages, pages[..16], "/Kids [", 3, "3", pages[28..]);
  }

  const PAGE :=
    "<< /Type /Page /Parent 2 0 R /MediaBox [0 0 612 792] "
    + "/Resources << /Font << /F1 5 0 R >> >> /Contents 4 0 R >>"

  lemma FontLink()
    ensures Refers(PAGE, "/F1 ", 5)
  {
    hide Refers, Digits;
    OneDigit();
    RefersInside(PAGE, PAGE[..76], "/F1 ", 5, "5", PAGE[85..]);
  }

  lemma ContentLink()
    ensures Refers(PAGE, "/Contents ", 4)
  {
    hide Refers, Digits;
    OneDigit();
    RefersInside(PAGE, PAGE[..92], "/Contents ", 4, "4", PAGE[107..]);
  }

  /** Section 7.3.8: the data of a stream are the `/Length` bytes after the keyword. */
  function ReadStream(body: string): Option<string> {
    if !Stands(body, 0, LENGTH) then None
    else
      var end := RunEnd(body, |LENGTH|);
      var length, start := Value(body[|LENGTH|..end]), end + |BEGIN_STREAM|;
      if !Stands(body, end, BEGIN_STREAM) || !Stands(body, start + length, END_STREAM) then None
      else if start + length + |END_STREAM| != |body| then None
      else Some(body[start..start + length])
  }

  lemma Regrouped(a: string, d: string, b: string, s: string, e: string)
    ensures a + d + b + s + e == "" + a + (d + b + s + e) == a + d + (b + s + e)
    ensures a + d + b + s + e == (a + d) + b + (s + e) == (a + d + b + s) + e + ""
  {
  }

  /** A number between two marks, and a text between the second and a third. */
  lemma MarkedParts(a: string, d: string, b: string, s: string, e: string)
    requires AllDigits(d) && b != "" && !IsDigit(b[0])
    ensures var body, end := a + d + b + s + e, |a| + |d|;
            var start := end + |b|;
            && Stands(body, 0, a) && RunEnd(body, |a|) == end && body[|a|..end] == d
            && Stands(body, end, b) && body[start..start + |s|] == s
            && Stands(body, start + |s|, e) && start + |s| + |e| == |body|
  {
    hide Stands, RunEnd, AllDigits, IsDigit;
    Regrouped(a, d, b, s, e);
    NumberReads(a, d, b + s + e);
    Middle("", a, d + b + s + e);
    Middle(a + d, b, s + e);
    Middle(a + d + b, s, e);
    Middle(a + d + b + s, e, "");
  }

  lemma StreamReadsBack(stream: string)
    ensures ReadStream(StreamObject(stream)) == Some(stream)
  {
    hide Digits, Value, Stands, RunEnd, AllDigits;
    DigitsReadBack(|stream|);
    MarkedParts(LENGTH, Digits(|stream|), BEGIN_STREAM, stream, END_STREAM);
  }

  function Parts(p: Package): seq<string> {
    Objects(Stream(Lines(p)))
  }

  function Document(p: Package): string {
    File(Parts(p))
  }

  /** The whole writer: lines, escapes, operators, objects, and the file around them. */
  method BriefingDocument(p: Package) returns (output: string)
    ensures output == Document(p)
  {
    hide Objects, Lines, Escape, Encode, File, Cut;
    var lines := PageLines(p);
    var operators := PREAMBLE;
    for i := 0 to |lines|
      invariant operators == Operators(Escaped(lines), i)
    {
      if i > 0 {
        operators := operators + ["T*"];
      }
      operators := operators + ["(" + Cut(Escape(lines[i])) + SHOW];
    }
    output := Write(Objects(Encode(Join(operators + ["ET"]))));
  }

  method PageLines(p: Package) returns (lines: seq<string>)
    ensures lines == Lines(p)
  {
    hide Opening;
    lines := Opening(p);
    for i := 0 to if |p.metrics| <= METRIC_LIMIT then |p.metrics| else METRIC_LIMIT
      invariant lines == Opening(p) + MetricLines(p.metrics)[..i]
    {
      lines := lines + [MetricLine(p.metrics[i])];
    }
    lines := lines + ["All figures above are copied from the audited API payload."];
  }

  // ---------------------------------------------------------------- every briefing reads back

  lemma PreambleIsShort()
    ensures |Join(PREAMBLE)| < 100
  {
    PreambleLines();
  }

  /** A line of the page costs at most 120 bytes. */
  lemma {:induction false} OperatorsAreShort(escaped: seq<string>, k: nat)
    requires k <= |escaped| && forall i :: 0 <= i < k ==> |escaped[i]| <= LINE_LIMIT
    ensures |Join(Operators(escaped, k))| < 100 + 120 * k
  {
    hide Join;
    if k == 0 {
      PreambleIsShort();
    } else {
      OperatorsAreShort(escaped, k - 1);
      OperatorsNonEmpty(escaped, k - 1);
      var before, line := Operators(escaped, k - 1), "(" + escaped[k - 1] + SHOW;
      if k > 1 {
        JoinPush(before, "T*");
        JoinPush(before + ["T*"], line);
      } else {
        assert before + [] == before;
        JoinPush(before, line);
      }
    }
  }

  /** Lines are cut and metrics are limited, so every content stream is short. */
  lemma StreamIsShort(p: Package)
    ensures |Stream(Lines(p))| < 5000
  {
    hide Join, Operators, Escape, MetricLine;
    var escaped := Escaped(Lines(p));
    OperatorsAreShort(escaped, |escaped|);
    OperatorsNonEmpty(escaped, |escaped|);
    JoinPush(Operators(escaped, |escaped|), "ET");
  }

  lemma ShortStreamFits(stream: string)
    requires |stream| < 5000
    ensures OffsetsFit(Objects(stream), 5)
  {
    hide Digits, Decimal.PowerOfTen;
    var objects := Objects(stream);
    PowersOfTen();
    DigitsFit(|stream|, 4);
    DigitsFit(1, 1);
    DigitsFit(2, 1);
    DigitsFit(3, 1);
    DigitsFit(4, 1);
    assert |objects[0]| + |objects[1]| + |objects[2]| < 500;
    assert |objects[3]| < 5100;
    assert |Prefix(objects, 1)| < 30 + |objects[0]|;
    assert |Prefix(objects, 2)| < 60 + |objects[0]| + |objects[1]|;
    assert |Prefix(objects, 3)| < 90 + |objects[0]| + |objects[1]| + |objects[2]|;
    assert |Prefix(objects, 4)| < 120 + 500 + 5100;
  }

  lemma PowersOfTen()
    ensures PowerOfTen(1) == 10 && PowerOfTen(4) == 10000 && PowerOfTen(OFFSET_WIDTH) > 10000
  {
    assert PowerOfTen(2) == 100;
    assert PowerOfTen(6) == 1000000;
  }

  /** Reading a briefing: find the objects from the end of the file, take the stream out of the
      fourth one, and collect the text it shows. */
  function ReadBriefing(file: string): Option<seq<string>> {
    match Read(file)
    case None => None
    case Some(objects) =>
      if |objects| < 4 then None
      else
        match ReadStream(objects[3])
        case None => None
        case Some(stream) => ReadContent(stream)
  }

  /** For whatever lines, as long as the offsets fit their fields. */
  lemma PageReadsBack(lines: seq<string>)
    requires OffsetsFit(Objects(Stream(lines)), 5)
    ensures Read(File(Objects(Stream(lines)))) == Some(Objects(Stream(lines)))
    ensures ReadBriefing(File(Objects(Stream(lines)))) == Some(ShownText(lines)) <==> NoneSplit(lines)
  {
    hide Objects, Read, File, ReadStream, StreamObject, ReadContent, Stream, ShownText, NoneSplit, OffsetsFit;
    ReadsBack(Objects(Stream(lines)));
    StreamReadsBack(Stream(lines));
    ContentReadsBack(lines);
  }

  /** Every briefing reads back through the whole file: its five objects, and every line as it is
      shown exactly when truncation splits no escape. */
  lemma BriefingReadsBack(p: Package)
    ensures Read(Document(p)) == Some(Parts(p))
    ensures ReadBriefing(Document(p)) == Some(ShownText(Lines(p))) <==> NoneSplit(Lines(p))
  {
    hide Objects, Read, File, ReadBriefing, Stream, ShownText, NoneSplit, OffsetsFit, Lines;
    StreamIsShort(p);
    ShortStreamFits(Stream(Lines(p)));
    PageReadsBack(Lines(p));
  }

  lemma {:induction false} SplitLineCounts(lines: seq<string>, i: nat, k: nat)
    requires i <= k < |lines| && SplitsEscape(Encode(lines[k]), LINE_LIMIT)
    ensures !NoneSplitFrom(lines, i)
    decreases k - i
  {
    if i < k {
      SplitLineCounts(lines, i + 1, k);
    }
  }

  /** A summary whose 101st character is a parenthesis makes a briefing that does not read back. */
  lemma BriefingMayNotReadBack() returns (p: Package)
    ensures !NoneSplit(Lines(p)) && ReadBriefing(Document(p)) != Some(ShownText(Lines(p)))
  {
    p := Package("p", "PROCUREMENT", "PASSED", "100.0", Dots(100) + "(", "none", []);
    SplitSummary(p);
    BriefingReadsBack(p);
  }

  lemma SplitSummary(p: Package)
    requires p.summary == Dots(100) + "("
    ensures !NoneSplit(Lines(p))
  {
    hide SplitsEscape, Encode, Dots, NoneSplitFrom, Lines;
    var line := "Summary: " + p.summary;
    LinesTell(p, 0);
    SummarySplits(line);
    SplitLineCounts(Lines(p), 0, 4);
  }

  lemma SummarySplits(line: string)
    requires line == "Summary: " + (Dots(100) + "(")
    ensures SplitsEscape(Encode(line), LINE_LIMIT)
  {
    hide SplitsEscape, Dots;
    var shown := Dots(100) + "(";
    DotsArePlain(100);
    assert forall i :: 0 <= i < |shown| ==> shown[i] as int <= 255;
    assert Encode(line) == line;
    DotsThenParenthesis(100);
    PlainInFront("Summary: ", shown, LINE_LIMIT);
  }

  lemma {:induction false} DotsArePlain(n: nat)
    ensures forall i :: 0 <= i < |Dots(n)| ==> Dots(n)[i] == '.'
  {
    if n > 0 {
      DotsArePlain(n - 1);
    }
  }
}
