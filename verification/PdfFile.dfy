/** The file structure of the briefing: numbered objects, a cross-reference table of fixed
    20-byte entries, and a trailer that says where the table is. A byte is written as the
    character with its code. */
module PdfFile {
  import opened Wrappers
  import opened Decimal

  const HEADER := "%PDF-1.4\n"
  const OBJECT := " 0 obj\n"
  const END_OBJECT := "\nendobj\n"
  const TABLE := "xref\n0 "
  const FREE_ENTRY := "0000000000 65535 f \n"
  const IN_USE := " 00000 n \n"
  const START := "startxref\n"
  const END_OF_FILE := "\n%%EOF\n"
  const OFFSET_WIDTH := 10
  const ENTRY_WIDTH := 20

  // ---------------------------------------------------------------- the layout

  function NumberedObject(number: nat, body: string): string {
    Digits(number) + OBJECT + body + END_OBJECT
  }

  /** The header and the first `k` objects. */
  function Prefix(objects: seq<string>, k: nat): string
    requires k <= |objects|
  {
    if k == 0 then HEADER else Prefix(objects, k - 1) + NumberedObject(k, objects[k - 1])
  }

  function InUseEntry(offset: nat): string {
    Pad(offset, OFFSET_WIDTH) + IN_USE
  }

  function Entries(objects: seq<string>, k: nat): string
    requires k <= |objects|
  {
    if k == 0 then FREE_ENTRY else Entries(objects, k - 1) + InUseEntry(|Prefix(objects, k - 1)|)
  }

  function Trailer(count: nat, xref: nat): string {
    "trailer\n<< /Size " + Digits(count) + " /Root 1 0 R >>\n" + START + Digits(xref) + END_OF_FILE
  }

  function TableHeader(count: nat): string {
    TABLE + Digits(count) + "\n"
  }

  function Assembled(prefix: string, entries: string, count: nat): string {
    prefix + TableHeader(count) + entries + Trailer(count, |prefix|)
  }

  function File(objects: seq<string>): string {
    Assembled(Prefix(objects, |objects|), Entries(objects, |objects|), |objects| + 1)
  }

  /** The writer: one pass over the objects that notes offsets, one over the offsets. */
  method Write(objects: seq<string>) returns (output: string)
    ensures output == File(objects)
  {
    output := HEADER;
    var offsets: seq<nat> := [0];
    for i := 0 to |objects|
      invariant output == Prefix(objects, i)
      invariant |offsets| == i + 1
      invariant forall k :: 0 <= k < i ==> offsets[k + 1] == |Prefix(objects, k)|
    {
      offsets := offsets + [|output|];
      output := output + (Digits(i + 1) + OBJECT + objects[i] + END_OBJECT);
    }
    var xref := |output|;
    var table := FREE_ENTRY;
    for i := 0 to |objects|
      invariant table == Entries(objects, i)
    {
      table := table + (Pad(offsets[i + 1], OFFSET_WIDTH) + IN_USE);
    }
    output := output + (TABLE + Digits(|objects| + 1) + "\n");
    output := output + table;
    output := output + Trailer(|objects| + 1, xref);
  }

  // ---------------------------------------------------------------- the reader

  /** The pattern stands at the position. */
  predicate Stands(file: string, at: nat, pattern: string) {
    at + |pattern| <= |file| && file[at..at + |pattern|] == pattern
  }

  /** Where the digits that start at `at` end. */
  function RunEnd(file: string, at: nat): (end: nat)
    requires at <= |file|
    ensures at <= end <= |file|
    decreases |file| - at
  {
    if at < |file| && IsDigit(file[at]) then RunEnd(file, at + 1) else at
  }

  /** Where the digits that end before `end` start. */
  function RunStart(file: string, end: nat): (start: nat)
    requires end <= |file|
    ensures start <= end
  {
    if end > 0 && IsDigit(file[end - 1]) then RunStart(file, end - 1) else end
  }

  /** ISO 32000-1 section 7.5.5: the last line but one holds the offset of the table. */
  function StartXref(file: string): Option<nat> {
    if |file| < |END_OF_FILE| || file[|file| - |END_OF_FILE|..] != END_OF_FILE then None
    else
      var end := |file| - |END_OF_FILE|;
      var start := RunStart(file, end);
      if start == end || start < |START| || !Stands(file, start - |START|, START) then None
      else Some(Value(file[start..end]))
  }

  predicate IsNumeral(s: string) {
    forall c :: c in s ==> IsDigit(c)
  }

  /** Section 7.5.4: entry `i` is the `i`-th run of exactly 20 bytes. */
  function Entry(file: string, table: nat, i: nat): Option<nat> {
    var at := table + ENTRY_WIDTH * i;
    if at + ENTRY_WIDTH > |file| then None
    else if !IsNumeral(file[at..at + OFFSET_WIDTH]) || file[at + OFFSET_WIDTH..at + ENTRY_WIDTH] != IN_USE then None
    else Some(Value(file[at..at + OFFSET_WIDTH]))
  }

  /** The body of the object that starts at `from` and is followed by something at `to`. */
  function ObjectAt(file: string, number: nat, from: nat, to: nat): Option<string> {
    var start := from + |Digits(number)| + |OBJECT|;
    if !Stands(file, from, Digits(number) + OBJECT) || to > |file| || start + |END_OBJECT| > to then None
    else if !Stands(file, to - |END_OBJECT|, END_OBJECT) then None
    else Some(file[start..to - |END_OBJECT|])
  }

  /** The objects from number `i` on, of a table with `count` entries. */
  function ObjectsFrom(file: string, xref: nat, table: nat, i: nat, count: nat): Option<seq<string>>
    requires i <= count
    decreases count - i
  {
    if i == count then Some([])
    else
      var from := Entry(file, table, i);
      var to := if i + 1 == count then Some(xref) else Entry(file, table, i + 1);
      if from.None? || to.None? then None
      else
        var body, rest := ObjectAt(file, i, from.value, to.value), ObjectsFrom(file, xref, table, i + 1, count);
        if body.None? || rest.None? then None else Some([body.value] + rest.value)
  }

  function Read(file: string): Option<seq<string>> {
    match StartXref(file)
    case None => None
    case Some(xref) =>
      if !Stands(file, xref, TABLE) then None
      else
        var start := xref + |TABLE|;
        var end := RunEnd(file, start);
        if !Stands(file, end, "\n") || Value(file[start..end]) == 0 then None
        else ObjectsFrom(file, xref, end + 1, 1, Value(file[start..end]))
  }

  // ---------------------------------------------------------------- locating parts

  lemma Middle(a: string, b: string, c: string)
    ensures Stands(a + b + c, |a|, b)
    ensures (a + b + c)[|a|..|a| + |b|] == b && (a + b + c)[|a| + |b|..] == c
  {
  }

  lemma StandsAfter(a: string, b: string, c: string)
    ensures Stands(a + (b + c), |a|, b)
    ensures b != "" ==> (b + c)[0] == b[0]
  {
  }

  lemma {:induction false} RunEndAfter(a: string, digits: string, c: string)
    requires AllDigits(digits) && (c == "" || !IsDigit(c[0]))
    ensures RunEnd(a + digits + c, |a|) == |a| + |digits|
    decreases |digits|
  {
    var file := a + digits + c;
    if digits != [] {
      RunEndAfter(a + [digits[0]], digits[1..], c);
      assert a + [digits[0]] + digits[1..] + c == file;
    }
  }

  lemma {:induction false} RunStartBefore(a: string, digits: string, c: string)
    requires AllDigits(digits) && (a == "" || !IsDigit(a[|a| - 1]))
    ensures RunStart(a + digits + c, |a| + |digits|) == |a|
    decreases |digits|
  {
    var file := a + digits + c;
    if digits != [] {
      var k := |digits| - 1;
      RunStartBefore(a, digits[..k], digits[k..] + c);
      assert a + digits[..k] + (digits[k..] + c) == file;
    }
  }

  lemma StartXrefReads(lead: string, xref: nat)
    ensures StartXref(lead + START + Digits(xref) + END_OF_FILE) == Some(xref)
  {
    DigitsReadBack(xref);
    LastNumberReads(lead, Digits(xref));
  }

  /** A number between two markers, the first of which does not end in a digit. */
  lemma NumberBetween(lead: string, mark: string, d: string, tail: string)
    requires AllDigits(d) && mark != "" && !IsDigit(mark[|mark| - 1])
    ensures var file, start := lead + mark + d + tail, |lead| + |mark|;
            && |file| == start + |d| + |tail| && file[|file| - |tail|..] == tail
            && RunStart(file, start + |d|) == start && file[start..start + |d|] == d
            && Stands(file, |lead|, mark)
  {
    hide RunStart, Stands, AllDigits, IsDigit;
    var a := lead + mark;
    RunStartBefore(a, d, tail);
    Middle(a, d, tail);
    Middle(lead, mark, d + tail);
    assert lead + mark + (d + tail) == a + d + tail;
  }

  lemma LastNumberReads(lead: string, d: string)
    requires AllDigits(d) && d != []
    ensures StartXref(lead + START + d + END_OF_FILE) == Some(Value(d))
  {
    hide RunStart, Stands, AllDigits, Value;
    NumberBetween(lead, START, d, END_OF_FILE);
  }

  lemma TrailerReads(before: string, count: nat, xref: nat)
    ensures StartXref(before + Trailer(count, xref)) == Some(xref)
  {
    var dictionary := "trailer\n<< /Size " + Digits(count) + " /Root 1 0 R >>\n";
    StartXrefReads(before + dictionary, xref);
    Regroup(before, dictionary, START, Digits(xref), END_OF_FILE);
  }

  lemma Regroup(a: string, b: string, c: string, d: string, e: string)
    ensures a + (b + c + d + e) == (a + b) + c + d + e
  {
  }

  /** The marker at the end and the table's first line say where the table is and how long. */
  ghost predicate TableFound(file: string, xref: nat, table: nat, count: nat) {
    StartXref(file) == Some(xref) && CountFound(file, xref, table, count)
  }

  /** The first line of the table is where it should be and holds the count. */
  ghost predicate CountFound(file: string, xref: nat, table: nat, count: nat) {
    var start := xref + |TABLE|;
    && Stands(file, xref, TABLE)
    && start < table <= |file| && RunEnd(file, start) == table - 1
    && Value(file[start..table - 1]) == count && Stands(file, table - 1, "\n")
  }

  lemma CountReads(a: string, count: nat, c: string)
    ensures CountFound(a + TableHeader(count) + c, |a|, |a| + |TableHeader(count)|, count)
  {
    var d := Digits(count);
    hide Digits, RunEnd, AllDigits;
    DigitsReadBack(count);
    var rest := "\n" + c;
    Shift(a, TABLE, d, "\n", c);
    Middle(a, TABLE, d + rest);
    NumberReads(a + TABLE, d, rest);
    StandsAfter(a + TABLE + d, "\n", c);
  }

  lemma Shift(a: string, b: string, c: string, d: string, e: string)
    ensures a + (b + c + d) + e == a + b + c + (d + e) == a + b + (c + (d + e))
  {
  }

  lemma NumberReads(lead: string, d: string, rest: string)
    requires AllDigits(d) && rest != "" && !IsDigit(rest[0])
    ensures RunEnd(lead + d + rest, |lead|) == |lead| + |d|
    ensures (lead + d + rest)[|lead|..|lead| + |d|] == d
  {
    hide *;
    Middle(lead, d, rest);
    RunEndAfter(lead, d, rest);
  }

  lemma AllDigitsIsNumeral(s: string)
    ensures AllDigits(s) <==> IsNumeral(s)
  {
    forall i | 0 <= i < |s| ensures s[i] in s {
    }
  }

  /** An entry is found exactly when its offset fits the field. */
  lemma EntryReads(a: string, offset: nat, c: string, table: nat, i: nat)
    requires |a| == table + ENTRY_WIDTH * i
    ensures var entry := Entry(a + InUseEntry(offset) + c, table, i);
            if offset < PowerOfTen(OFFSET_WIDTH) then entry == Some(offset) else entry.None?
  {
    var p := Pad(offset, OFFSET_WIDTH);
    var file := a + InUseEntry(offset) + c;
    PadReadsBack(offset, OFFSET_WIDTH);
    assert file == a + p + (IN_USE + c);
    if offset < PowerOfTen(OFFSET_WIDTH) {
      Middle(a, p, IN_USE + c);
      Middle(a + p, IN_USE, c);
      assert a + p + IN_USE + c == file;
      AllDigitsIsNumeral(p);
    } else {
      assert file[|a| + OFFSET_WIDTH] == p[OFFSET_WIDTH];
      assert file[|a| + OFFSET_WIDTH..|a| + ENTRY_WIDTH][0] == p[OFFSET_WIDTH];
      assert IsDigit(p[OFFSET_WIDTH]) && IN_USE[0] == ' ';
    }
  }

  lemma ObjectReads(a: string, number: nat, body: string, c: string)
    ensures ObjectAt(a + NumberedObject(number, body) + c, number, |a|, |a + NumberedObject(number, body)|)
            == Some(body)
  {
    var h, e := Digits(number) + OBJECT, END_OBJECT;
    assert a + NumberedObject(number, body) + c == a + h + body + e + c by {
      Shift(a, h, body, e, c);
    }
    ObjectParts(a, h, body, e, c);
  }

  lemma ObjectParts(a: string, h: string, body: string, e: string, c: string)
    ensures var file, to := a + h + body + e + c, |a| + |h| + |body| + |e|;
            && Stands(file, |a|, h) && Stands(file, to - |e|, e) && to <= |file|
            && file[|a| + |h|..to - |e|] == body
  {
    var file := a + h + body + e + c;
    assert file == a + h + (body + e + c) && file == a + h + body + (e + c);
    Middle(a, h, body + e + c);
    Middle(a + h, body, e + c);
    Middle(a + h + body, e, c);
  }

  /** While all offsets fit their field, entry `i` stands at its fixed place. */
  lemma {:induction false} EntriesAligned(objects: seq<string>, k: nat)
    requires k <= |objects| && (k == 0 || |Prefix(objects, k - 1)| < PowerOfTen(OFFSET_WIDTH))
    ensures |Entries(objects, k)| == ENTRY_WIDTH * (k + 1)
  {
    if k > 0 {
      if k > 1 {
        assert |Prefix(objects, k - 2)| <= |Prefix(objects, k - 1)|;
      }
      EntriesAligned(objects, k - 1);
      PadReadsBack(|Prefix(objects, k - 1)|, OFFSET_WIDTH);
    }
  }

  lemma {:induction false} PrefixGrows(objects: seq<string>, k: nat, n: nat)
    requires k <= n <= |objects|
    ensures Prefix(objects, k) <= Prefix(objects, n)
    decreases n
  {
    if k < n {
      PrefixGrows(objects, k, n - 1);
    }
  }

  lemma {:induction false} EntriesGrow(objects: seq<string>, k: nat, n: nat)
    requires k <= n <= |objects|
    ensures Entries(objects, k) <= Entries(objects, n)
    decreases n
  {
    if k < n {
      EntriesGrow(objects, k, n - 1);
    }
  }

  // ---------------------------------------------------------------- writer against reader

  /** Where the table's entries start. */
  ghost function TableStart(objects: seq<string>): nat {
    |Prefix(objects, |objects|)| + |TableHeader(|objects| + 1)|
  }

  /** The file, cut around the i-th entry. */
  lemma AroundEntry(objects: seq<string>, i: nat) returns (before: string, after: string)
    requires 1 <= i <= |objects|
    ensures before == Prefix(objects, |objects|) + TableHeader(|objects| + 1) + Entries(objects, i - 1)
    ensures File(objects) == before + InUseEntry(|Prefix(objects, i - 1)|) + after
  {
    var n := |objects|;
    var part, all := Entries(objects, i), Entries(objects, n);
    EntriesGrow(objects, i, n);
    before := Prefix(objects, n) + TableHeader(n + 1) + Entries(objects, i - 1);
    after := all[|part|..] + Trailer(n + 1, |Prefix(objects, n)|);
    Cut(Prefix(objects, n) + TableHeader(n + 1), Entries(objects, i - 1), InUseEntry(|Prefix(objects, i - 1)|),
      all, Trailer(n + 1, |Prefix(objects, n)|));
  }

  lemma Cut(a: string, b: string, c: string, all: string, e: string)
    requires b + c <= all
    ensures a + all + e == a + b + c + (all[|b + c|..] + e)
  {
    assert all == b + c + all[|b + c|..];
  }

  ghost predicate EntryFits(file: string, table: nat, objects: seq<string>, i: nat)
    requires 1 <= i <= |objects|
  {
    var offset := |Prefix(objects, i - 1)|;
    var entry := Entry(file, table, i);
    if offset < PowerOfTen(OFFSET_WIDTH) then entry == Some(offset) else entry.None?
  }

  lemma EntryOfFile(objects: seq<string>, i: nat)
    requires 1 <= i <= |objects| && OffsetsFit(objects, i - 1)
    ensures EntryFits(File(objects), TableStart(objects), objects, i)
  {
    var before, after := AroundEntry(objects, i);
    EntriesAligned(objects, i - 1);
    EntryReads(before, |Prefix(objects, i - 1)|, after, TableStart(objects), i);
  }

  ghost predicate ObjectFits(file: string, objects: seq<string>, i: nat)
    requires 1 <= i <= |objects|
  {
    ObjectAt(file, i, |Prefix(objects, i - 1)|, |Prefix(objects, i)|) == Some(objects[i - 1])
  }

  /** The file, cut behind the i-th object. */
  lemma AroundObject(objects: seq<string>, i: nat) returns (after: string)
    requires 1 <= i <= |objects|
    ensures File(objects) == Prefix(objects, i) + after
  {
    var n := |objects|;
    PrefixGrows(objects, i, n);
    after := Prefix(objects, n)[|Prefix(objects, i)|..]
             + TableHeader(n + 1) + Entries(objects, n) + Trailer(n + 1, |Prefix(objects, n)|);
    Rejoin(Prefix(objects, i), Prefix(objects, n), TableHeader(n + 1), Entries(objects, n),
      Trailer(n + 1, |Prefix(objects, n)|));
  }

  lemma Rejoin(part: string, all: string, b: string, c: string, d: string)
    requires part <= all
    ensures all + b + c + d == part + (all[|part|..] + b + c + d)
  {
    assert all == part + all[|part|..];
  }

  lemma ObjectOfFile(objects: seq<string>, i: nat)
    requires 1 <= i <= |objects|
    ensures ObjectFits(File(objects), objects, i)
  {
    var after := AroundObject(objects, i);
    ObjectReads(Prefix(objects, i - 1), i, objects[i - 1], after);
  }

  ghost predicate OffsetsFit(objects: seq<string>, k: nat)
    requires k <= |objects|
  {
    k == 0 || |Prefix(objects, k - 1)| < PowerOfTen(OFFSET_WIDTH)
  }

  lemma FitEarlier(objects: seq<string>, k: nat, n: nat)
    requires k <= n <= |objects| && OffsetsFit(objects, n)
    ensures OffsetsFit(objects, k)
  {
    if 0 < k {
      PrefixGrows(objects, k - 1, n - 1);
    }
  }

  lemma {:induction false} ObjectsRead(file: string, table: nat, objects: seq<string>, i: nat)
    requires 1 <= i <= |objects| + 1 && OffsetsFit(objects, |objects|)
    requires forall k :: 1 <= k <= |objects| ==> EntryFits(file, table, objects, k)
    requires forall k :: 1 <= k <= |objects| ==> ObjectFits(file, objects, k)
    ensures ObjectsFrom(file, |Prefix(objects, |objects|)|, table, i, |objects| + 1) == Some(objects[i - 1..])
    decreases |objects| - i
  {
    hide Entry, ObjectAt, Prefix, Digits;
    var n := |objects|;
    if i <= n {
      ObjectsRead(file, table, objects, i + 1);
      FitEarlier(objects, i, n);
      assert EntryFits(file, table, objects, i) && ObjectFits(file, objects, i);
      if i < n {
        FitEarlier(objects, i + 1, n);
        assert EntryFits(file, table, objects, i + 1);
      }
      assert objects[i - 1..] == [objects[i - 1]] + objects[i..];
    } else {
      assert objects[i - 1..] == [];
    }
  }

  lemma {:induction false} ObjectsUnread(file: string, table: nat, objects: seq<string>, k: nat, i: nat)
    requires 1 <= i <= k <= |objects| && !OffsetsFit(objects, k) && EntryFits(file, table, objects, k)
    ensures ObjectsFrom(file, |Prefix(objects, |objects|)|, table, i, |objects| + 1).None?
    decreases k - i
  {
    if i < k {
      ObjectsUnread(file, table, objects, k, i + 1);
    }
  }

  lemma {:induction false} FirstTooFar(objects: seq<string>, n: nat) returns (k: nat)
    requires n <= |objects| && !OffsetsFit(objects, n)
    ensures 1 <= k <= n && OffsetsFit(objects, k - 1) && !OffsetsFit(objects, k)
  {
    if OffsetsFit(objects, n - 1) {
      k := n;
    } else {
      k := FirstTooFar(objects, n - 1);
    }
  }

  lemma ReadsTable(file: string, xref: nat, table: nat, count: nat, result: Option<seq<string>>)
    requires StartXref(file) == Some(xref) && CountFound(file, xref, table, count) && count > 0
    requires ObjectsFrom(file, xref, table, 1, count) == result
    ensures Read(file) == result
  {
    hide StartXref, Entry, ObjectAt, Value, RunEnd, Digits;
  }

  lemma Associate(a: string, b: string, c: string, d: string)
    ensures a + b + c + d == a + b + (c + d)
  {
  }

  lemma FindsTable(prefix: string, entries: string, count: nat)
    ensures TableFound(Assembled(prefix, entries, count), |prefix|, |prefix| + |TableHeader(count)|, count)
  {
    TrailerReads(prefix + TableHeader(count) + entries, count, |prefix|);
    assert CountFound(
        prefix + TableHeader(count) + entries + Trailer(count, |prefix|), |prefix|,
        |prefix| + |TableHeader(count)|, count) by {
      Associate(prefix, TableHeader(count), entries, Trailer(count, |prefix|));
      CountReads(prefix, count, entries + Trailer(count, |prefix|));
    }
  }

  lemma FindsOwnTable(objects: seq<string>)
    ensures TableFound(File(objects), |Prefix(objects, |objects|)|, TableStart(objects), |objects| + 1)
  {
    hide StartXref, CountFound;
    FindsTable(Prefix(objects, |objects|), Entries(objects, |objects|), |objects| + 1);
  }

  lemma EverythingFits(objects: seq<string>)
    requires OffsetsFit(objects, |objects|)
    ensures forall k :: 1 <= k <= |objects| ==> EntryFits(File(objects), TableStart(objects), objects, k)
    ensures forall k :: 1 <= k <= |objects| ==> ObjectFits(File(objects), objects, k)
  {
    forall k | 1 <= k <= |objects|
      ensures EntryFits(File(objects), TableStart(objects), objects, k) && ObjectFits(File(objects), objects, k)
    {
      FitEarlier(objects, k - 1, |objects|);
      EntryOfFile(objects, k);
      ObjectOfFile(objects, k);
    }
  }

  /** Following `startxref` and the table leads to every object written, and this works for
      exactly the files whose last object starts below 10^10. */
  lemma ReadsBack(objects: seq<string>)
    ensures Read(File(objects)) == if OffsetsFit(objects, |objects|) then Some(objects) else None
  {
    var n, table := |objects|, TableStart(objects);
    var file := File(objects);
    FindsOwnTable(objects);
    if OffsetsFit(objects, n) {
      EverythingFits(objects);
      ObjectsRead(file, table, objects, 1);
      assert objects[0..] == objects;
      ReadsTable(file, |Prefix(objects, n)|, table, n + 1, Some(objects));
    } else {
      var k := FirstTooFar(objects, n);
      EntryOfFile(objects, k);
      ObjectsUnread(file, table, objects, k, 1);
      ReadsTable(file, |Prefix(objects, n)|, table, n + 1, None);
    }
  }
}
