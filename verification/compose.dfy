/** Merging selected items into one text: four printers, a length predictor that decides the size
    limit without printing, and the CSV printer against a reader of the format. */
module Compose {
  import opened Options

  const MAX_ITEM_BYTES: nat := 1_048_576
  const USIZE_MAX: nat := 0xFFFF_FFFF_FFFF_FFFF

  datatype Template = Bullets | NumberedCitations | CsvRows | MarkdownTable

  datatype Merged = Text(text: string) | TooLarge

  // ----- Text

  /** Bytes a character takes in UTF-8. */
  function Utf8Len(c: char): nat {
    var n := c as int;
    if n < 0x80 then 1 else if n < 0x800 then 2 else if n < 0x1_0000 then 3 else 4
  }

  function ByteLen(s: string): nat {
    if s == "" then 0 else Utf8Len(s[0]) + ByteLen(s[1..])
  }

  /** The Unicode White_Space property. */
  predicate IsWhitespace(c: char) {
    var n := c as int;
    9 <= n <= 13 || n == 0x20 || n == 0x85 || n == 0xA0 || n == 0x1680 || 0x2000 <= n <= 0x200A ||
    n == 0x2028 || n == 0x2029 || n == 0x202F || n == 0x205F || n == 0x3000
  }

  function TrimStart(s: string): string {
    if s != "" && IsWhitespace(s[0]) then TrimStart(s[1..]) else s
  }

  function TrimEnd(s: string): string {
    if s != "" && IsWhitespace(s[|s| - 1]) then TrimEnd(s[..|s| - 1]) else s
  }

  function Trim(s: string): string { TrimEnd(TrimStart(s)) }

  function Replace(s: string, c: char, text: string): string {
    if s == "" then "" else (if s[0] == c then text else [s[0]]) + Replace(s[1..], c, text)
  }

  function Occurrences(s: string, c: char): nat {
    if s == "" then 0 else (if s[0] == c then 1 else 0) + Occurrences(s[1..], c)
  }

  function Digit(d: nat): char
    requires d < 10
  {
    "0123456789"[d]
  }

  function Decimal(n: nat): string {
    if n < 10 then [Digit(n)] else Decimal(n / 10) + [Digit(n % 10)]
  }

  function Join(lines: seq<string>): string {
    if lines == [] then "" else if |lines| == 1 then lines[0] else lines[0] + "\n" + Join(lines[1..])
  }

  // ----- The printers

  predicate NeedsQuotes(value: string) {
    ',' in value || '"' in value || '\n' in value || '\r' in value
  }

  function CsvCell(value: string): string {
    if NeedsQuotes(value) then "\"" + Replace(value, '"', "\"\"") + "\"" else value
  }

  function Line(t: Template, number: nat, item: string): string {
    match t
    case Bullets => "- " + Trim(item)
    case NumberedCitations => "[" + Decimal(number) + "] " + Trim(item)
    case CsvRows => CsvCell(Trim(item))
    case MarkdownTable => "| " + Decimal(number) + " | " + Replace(Replace(Trim(item), '|', "\\|"), '\n', "<br>") + " |"
  }

  /** The lines of items numbered from `first`. */
  function Lines(t: Template, first: nat, items: seq<string>): (r: seq<string>)
    ensures |r| == |items|
    decreases |items|
  {
    if items == [] then [] else [Line(t, first, items[0])] + Lines(t, first + 1, items[1..])
  }

  const TABLE_HEAD: seq<string> := ["| # | Clip |", "|---:|---|"]

  function Rendered(items: seq<string>, t: Template): string {
    Join((if t.MarkdownTable? then TABLE_HEAD else []) + Lines(t, 1, items))
  }

  // ----- The predictor

  /** A result that fits the integer type, or an overflow. */
  function Checked(n: nat): Option<nat> { if n <= USIZE_MAX then Some(n) else None }

  function Plus(a: Option<nat>, b: Option<nat>): Option<nat> {
    if a.Some? && b.Some? then Checked(a.value + b.value) else None
  }

  function DigitCount(n: nat): nat { if n < 10 then 1 else 1 + DigitCount(n / 10) }

  method DecimalDigits(value: nat) returns (digits: nat)
    ensures digits == |Decimal(value)| && digits == DigitCount(value)
  {
    var rest := value;
    digits := 1;
    while rest >= 10
      invariant digits - 1 + DigitCount(rest) == DigitCount(value)
    {
      rest := rest / 10;
      digits := digits + 1;
    }
    DecimalLength(value);
  }

  function CsvCellLen(value: string): Option<nat> {
    if NeedsQuotes(value) then Plus(Plus(Checked(ByteLen(value)), Checked(Occurrences(value, '"'))), Some(2))
    else Checked(ByteLen(value))
  }

  function EscapedLen(value: string): Option<nat> {
    Plus(Plus(Checked(ByteLen(value)), Checked(Occurrences(value, '|'))), Checked(Occurrences(value, '\n') * 3))
  }

  /** The running total after one more item. */
  function AddItem(t: Template, total: Option<nat>, number: nat, item: string): Option<nat> {
    var value := Trim(item);
    match t
    case Bullets => Plus(Plus(total, Some(2)), Checked(ByteLen(value)))
    case NumberedCitations => Plus(Plus(Plus(total, Checked(DigitCount(number))), Some(3)), Checked(ByteLen(value)))
    case CsvRows => Plus(total, CsvCellLen(value))
    case MarkdownTable => Plus(Plus(Plus(total, Some(8)), Checked(DigitCount(number))), EscapedLen(value))
  }

  function FoldLen(t: Template, total: Option<nat>, first: nat, items: seq<string>): Option<nat>
    decreases |items|
  {
    if items == [] then total else FoldLen(t, AddItem(t, total, first, items[0]), first + 1, items[1..])
  }

  const HEADER_BYTES: nat := |"| # | Clip |\n|---:|---|"|

  function MergeOutputLen(items: seq<string>, t: Template): Option<nat> {
    var separators := Max(|items| - 1, 0);
    if t.MarkdownTable? then FoldLen(t, Some(HEADER_BYTES), 1, items)
    else Plus(FoldLen(t, Some(0), 1, items), Checked(separators))
  }

  function MergeText(items: seq<string>, t: Template): Merged {
    var len := MergeOutputLen(items, t);
    if len.None? || len.value > MAX_ITEM_BYTES then TooLarge else Text(Rendered(items, t))
  }

  // ----- Lengths of text

  lemma {:induction false} ByteLenConcat(a: string, b: string)
    ensures ByteLen(a + b) == ByteLen(a) + ByteLen(b)
  {
    if a == "" {
      assert a + b == b;
    } else {
      assert (a + b)[1..] == a[1..] + b;
      ByteLenConcat(a[1..], b);
    }
  }

  predicate Ascii(s: string) { forall i :: 0 <= i < |s| ==> s[i] as int < 0x80 }

  lemma {:induction false} AsciiLen(s: string)
    requires Ascii(s)
    ensures ByteLen(s) == |s|
  {
    if s != "" { AsciiLen(s[1..]); }
  }

  lemma {:induction false} DecimalLength(n: nat)
    ensures |Decimal(n)| == DigitCount(n) && Ascii(Decimal(n))
  {
    if n >= 10 { DecimalLength(n / 10); }
  }

  /** Replacing an ASCII character by an ASCII text grows the text by the difference, per occurrence. */
  lemma {:induction false} ReplaceLen(s: string, c: char, text: string)
    requires c as int < 0x80 && Ascii(text) && |text| >= 1
    ensures ByteLen(Replace(s, c, text)) == ByteLen(s) + Occurrences(s, c) * (|text| - 1)
  {
    if s != "" {
      ReplaceLen(s[1..], c, text);
      var head := if s[0] == c then text else [s[0]];
      ByteLenConcat(head, Replace(s[1..], c, text));
      AsciiLen(text);
      assert ByteLen([s[0]]) == Utf8Len(s[0]);
      if s[0] == c {
        assert (1 + Occurrences(s[1..], c)) * (|text| - 1) == |text| - 1 + Occurrences(s[1..], c) * (|text| - 1);
      }
    }
  }

  lemma {:induction false} OccurrencesConcat(a: string, b: string, c: char)
    ensures Occurrences(a + b, c) == Occurrences(a, c) + Occurrences(b, c)
  {
    if a == "" {
      assert a + b == b;
    } else {
      assert (a + b)[1..] == a[1..] + b;
      OccurrencesConcat(a[1..], b, c);
    }
  }

  /** Escaping pipes first does not change the number of line breaks. */
  lemma {:induction false} PipesKeepBreaks(s: string)
    ensures Occurrences(Replace(s, '|', "\\|"), '\n') == Occurrences(s, '\n')
  {
    if s != "" {
      PipesKeepBreaks(s[1..]);
      var head := if s[0] == '|' then "\\|" else [s[0]];
      OccurrencesConcat(head, Replace(s[1..], '|', "\\|"), '\n');
      assert Occurrences("\\|", '\n') == 0 by {
        assert "\\|"[1..] == "|";
      }
      assert Occurrences([s[0]], '\n') == if s[0] == '\n' then 1 else 0;
    }
  }

  // ----- The predictor is exact

  /** Bytes of one printed line, counted without printing it. */
  function LineLen(t: Template, number: nat, item: string): nat {
    var value := Trim(item);
    match t
    case Bullets => 2 + ByteLen(value)
    case NumberedCitations => 3 + DigitCount(number) + ByteLen(value)
    case CsvRows => ByteLen(value) + (if NeedsQuotes(value) then Occurrences(value, '"') + 2 else 0)
    case MarkdownTable => 7 + DigitCount(number) + ByteLen(value) + Occurrences(value, '|') + 3 * Occurrences(value, '\n')
  }

  lemma WrappedLen(a: string, b: string, c: string)
    ensures ByteLen(a + b + c) == ByteLen(a) + ByteLen(b) + ByteLen(c)
  {
    ByteLenConcat(a + b, c);
    ByteLenConcat(a, b);
  }

  lemma LineLenExact(t: Template, number: nat, item: string)
    ensures ByteLen(Line(t, number, item)) == LineLen(t, number, item)
  {
    var value := Trim(item);
    DecimalLength(number);
    AsciiLen(Decimal(number));
    hide ByteLen, Decimal, Trim, Replace, Occurrences;
    match t
    case Bullets =>
      AsciiLen("- ");
      ByteLenConcat("- ", value);
    case NumberedCitations =>
      AsciiLen("[");
      AsciiLen("] ");
      WrappedLen("[", Decimal(number), "] ");
      ByteLenConcat("[" + Decimal(number) + "] ", value);
    case CsvRows =>
      if NeedsQuotes(value) {
        AsciiLen("\"");
        ReplaceLen(value, '"', "\"\"");
        WrappedLen("\"", Replace(value, '"', "\"\""), "\"");
      }
    case MarkdownTable => TableLineLen(number, value);
  }

  lemma TableLineLen(number: nat, value: string)
    ensures ByteLen("| " + Decimal(number) + " | " + Replace(Replace(value, '|', "\\|"), '\n', "<br>") + " |")
            == 7 + DigitCount(number) + ByteLen(value) + Occurrences(value, '|') + 3 * Occurrences(value, '\n')
  {
    var piped := Replace(value, '|', "\\|");
    var cell := Replace(piped, '\n', "<br>");
    ReplaceLen(value, '|', "\\|");
    PipesKeepBreaks(value);
    ReplaceLen(piped, '\n', "<br>");
    DecimalLength(number);
    AsciiLen(Decimal(number));
    hide ByteLen, Decimal, Replace, Occurrences;
    AsciiLen("| ");
    AsciiLen(" | ");
    AsciiLen(" |");
    WrappedLen("| ", Decimal(number), " | ");
    WrappedLen("| " + Decimal(number) + " | ", cell, " |");
  }

  function LinesLen(t: Template, first: nat, items: seq<string>): nat
    decreases |items|
  {
    if items == [] then 0 else LineLen(t, first, items[0]) + LinesLen(t, first + 1, items[1..])
  }

  lemma {:induction false} JoinLen(t: Template, first: nat, items: seq<string>)
    ensures ByteLen(Join(Lines(t, first, items))) == LinesLen(t, first, items) + Max(|items| - 1, 0)
    decreases |items|
  {
    hide ByteLen, Line, LineLen;
    if items == [] {
      AsciiLen("");
    } else {
      var line, rest := Line(t, first, items[0]), Lines(t, first + 1, items[1..]);
      LineLenExact(t, first, items[0]);
      assert ([line] + rest)[1..] == rest;
      if |items| > 1 {
        JoinLen(t, first + 1, items[1..]);
        AsciiLen("\n");
        WrappedLen(line, "\n", Join(rest));
      } else {
        assert LinesLen(t, first + 1, items[1..]) == 0;
      }
    }
  }

  lemma JoinCons(line: string, rest: seq<string>)
    requires rest != []
    ensures Join([line] + rest) == line + "\n" + Join(rest)
    ensures ByteLen(Join([line] + rest)) == ByteLen(line) + 1 + ByteLen(Join(rest))
  {
    assert ([line] + rest)[1..] == rest;
    AsciiLen("\n");
    WrappedLen(line, "\n", Join(rest));
  }

  lemma HeadLen()
    ensures ByteLen(TABLE_HEAD[0]) + 1 + ByteLen(TABLE_HEAD[1]) == HEADER_BYTES
  {
    hide ByteLen;
    AsciiLen(TABLE_HEAD[0]);
    AsciiLen(TABLE_HEAD[1]);
  }

  /** A line after the table head costs its own separator. */
  lemma HeadedLen(first: string, second: string, lines: seq<string>)
    ensures ByteLen(Join([first, second] + lines))
            == ByteLen(first) + 1 + ByteLen(second) + (if lines == [] then 0 else 1 + ByteLen(Join(lines)))
  {
    hide ByteLen;
    assert [first, second] + lines == [first] + ([second] + lines);
    JoinCons(first, [second] + lines);
    if lines == [] {
      assert [second] + lines == [second];
    } else {
      JoinCons(second, lines);
    }
  }

  lemma TableLen(items: seq<string>)
    ensures ByteLen(Rendered(items, MarkdownTable)) == HEADER_BYTES + LinesLen(MarkdownTable, 1, items) + |items|
  {
    var lines := Lines(MarkdownTable, 1, items);
    hide ByteLen, Join;
    HeadLen();
    HeadedLen(TABLE_HEAD[0], TABLE_HEAD[1], lines);
    JoinLen(MarkdownTable, 1, items);
    assert [TABLE_HEAD[0], TABLE_HEAD[1]] == TABLE_HEAD;
  }

  lemma PlusChecked(a: nat, b: nat)
    ensures Plus(Checked(a), Checked(b)) == Checked(a + b)
  {
  }

  /** One item adds its line, and in a table its separator too, with no overflow missed. */
  lemma AddItemExact(t: Template, total: nat, number: nat, item: string)
    ensures AddItem(t, Checked(total), number, item)
            == Checked(total + LineLen(t, number, item) + (if t.MarkdownTable? then 1 else 0))
  {
    hide ByteLen, Trim, Occurrences, DigitCount;
  }

  lemma {:induction false} FoldLenExact(t: Template, total: nat, first: nat, items: seq<string>)
    ensures FoldLen(t, Checked(total), first, items)
            == Checked(total + LinesLen(t, first, items) + (if t.MarkdownTable? then |items| else 0))
    decreases |items|
  {
    hide LineLen, AddItem, Checked;
    if items != [] {
      AddItemExact(t, total, first, items[0]);
      FoldLenExact(t, total + LineLen(t, first, items[0]) + (if t.MarkdownTable? then 1 else 0), first + 1, items[1..]);
    }
  }

  /** For every item list and template the predictor gives the byte length of the printed text, and
      an overflow exactly when that length does not fit the integer type. */
  lemma PredictorExact(items: seq<string>, t: Template)
    ensures MergeOutputLen(items, t) == Checked(ByteLen(Rendered(items, t)))
  {
    hide ByteLen, Join, FoldLen, LinesLen;
    if t.MarkdownTable? {
      TableLen(items);
      FoldLenExact(t, HEADER_BYTES, 1, items);
    } else {
      FoldLenExact(t, 0, 1, items);
      JoinLen(t, 1, items);
      assert [] + Lines(t, 1, items) == Lines(t, 1, items);
      PlusChecked(LinesLen(t, 1, items), Max(|items| - 1, 0));
    }
  }

  /** The merge is refused exactly when the printed text would exceed one MiB. */
  lemma RefusedIff(items: seq<string>, t: Template)
    ensures MergeText(items, t).TooLarge? <==> ByteLen(Rendered(items, t)) > 1_048_576
    ensures MergeText(items, t).Text? ==> MergeText(items, t).text == Rendered(items, t)
  {
    PredictorExact(items, t);
  }

  // ----- What is printed

  function DigitValue(c: char): int { c as int - '0' as int }

  /** Reading a decimal number, most significant digit first. */
  function ReadDecimal(s: string): int {
    if s == "" then 0 else 10 * ReadDecimal(s[..|s| - 1]) + DigitValue(s[|s| - 1])
  }

  lemma DigitIsDigit(d: nat)
    requires d < 10
    ensures '0' <= Digit(d) <= '9' && DigitValue(Digit(d)) == d
  {
  }

  /** Numbers are printed in digits that read back as the number, without a leading zero. */
  lemma {:induction false} DecimalReadsBack(n: nat)
    ensures Decimal(n) != "" && ReadDecimal(Decimal(n)) == n
    ensures forall i :: 0 <= i < |Decimal(n)| ==> '0' <= Decimal(n)[i] <= '9'
    ensures n > 0 ==> Decimal(n)[0] != '0'
  {
    DigitIsDigit(n % 10);
    hide Digit;
    if n < 10 {
      var s := Decimal(n);
      assert s == [Digit(n)] && s[..0] == "";
      DigitIsDigit(n);
      assert ReadDecimal(s) == 10 * ReadDecimal(s[..0]) + DigitValue(s[0]);
    } else {
      DecimalReadsBack(n / 10);
      var s := Decimal(n);
      assert s[..|s| - 1] == Decimal(n / 10);
    }
  }

  /** Trimming removes white space from both ends and nothing else. */
  lemma TrimIsExact(s: string)
    ensures exists a, b :: s == a + Trim(s) + b && AllWhite(a) && AllWhite(b)
    ensures Trim(s) != "" ==> !IsWhitespace(Trim(s)[0]) && !IsWhitespace(Trim(s)[|Trim(s)| - 1])
  {
    var a := TrimmedStart(s);
    var b := TrimmedEnd(TrimStart(s));
    assert s == a + Trim(s) + b;
    EndKeepsStart(TrimStart(s));
  }

  predicate AllWhite(s: string) { forall i :: 0 <= i < |s| ==> IsWhitespace(s[i]) }

  lemma {:induction false} TrimmedStart(s: string) returns (a: string)
    ensures s == a + TrimStart(s) && AllWhite(a)
    ensures TrimStart(s) != "" ==> !IsWhitespace(TrimStart(s)[0])
  {
    a := "";
    if s != "" && IsWhitespace(s[0]) {
      var rest := TrimmedStart(s[1..]);
      a := [s[0]] + rest;
    }
  }

  lemma {:induction false} TrimmedEnd(s: string) returns (b: string)
    ensures s == TrimEnd(s) + b && AllWhite(b)
    ensures TrimEnd(s) != "" ==> !IsWhitespace(TrimEnd(s)[|TrimEnd(s)| - 1])
  {
    b := "";
    if s != "" && IsWhitespace(s[|s| - 1]) {
      var rest := TrimmedEnd(s[..|s| - 1]);
      b := rest + [s[|s| - 1]];
    }
  }

  lemma EndKeepsStart(s: string)
    requires s != "" ==> !IsWhitespace(s[0])
    ensures TrimEnd(s) != "" ==> !IsWhitespace(TrimEnd(s)[0]) && !IsWhitespace(TrimEnd(s)[|TrimEnd(s)| - 1])
  {
    var b := TrimmedEnd(s);
    assert TrimEnd(s) != "" ==> TrimEnd(s)[0] == s[0];
  }

  /** A cell is quoted exactly if it holds a comma, a quote or a line break. */
  lemma QuotedIff(value: string)
    ensures CsvCell(value) == value <==>
            forall i :: 0 <= i < |value| ==> value[i] != ',' && value[i] != '"' && value[i] != '\n' && value[i] != '\r'
  {
    if NeedsQuotes(value) {
      ReplaceGrows(value, '"', "\"\"");
      assert |CsvCell(value)| > |value|;
    }
  }

  lemma {:induction false} ReplaceGrows(s: string, c: char, text: string)
    requires |text| >= 1
    ensures |Replace(s, c, text)| >= |s|
  {
    if s != "" { ReplaceGrows(s[1..], c, text); }
  }

  // ----- Bytes

  /** The bytes of a character in UTF-8, section 3 of RFC 3629. */
  function Utf8(c: char): seq<int> {
    var n := c as int;
    if n < 0x80 then [n]
    else if n < 0x800 then [0xC0 + n / 64, 0x80 + n % 64]
    else if n < 0x1_0000 then [0xE0 + n / 64 / 64, 0x80 + n / 64 % 64, 0x80 + n % 64]
    else [0xF0 + n / 64 / 64 / 64, 0x80 + n / 64 / 64 % 64, 0x80 + n / 64 % 64, 0x80 + n % 64]
  }

  /** The number a character's bytes stand for. */
  function Utf8Value(b: seq<int>): int {
    if |b| == 1 then b[0]
    else if |b| == 2 then (b[0] - 0xC0) * 64 + (b[1] - 0x80)
    else if |b| == 3 then ((b[0] - 0xE0) * 64 + (b[1] - 0x80)) * 64 + (b[2] - 0x80)
    else if |b| == 4 then (((b[0] - 0xF0) * 64 + (b[1] - 0x80)) * 64 + (b[2] - 0x80)) * 64 + (b[3] - 0x80)
    else -1
  }

  /** The byte length counted for a character is that of its encoding, which determines it. */
  lemma Utf8LenExact(c: char)
    ensures |Utf8(c)| == Utf8Len(c) && Utf8Value(Utf8(c)) == c as int
    ensures forall i :: 0 <= i < |Utf8(c)| ==> 0 <= Utf8(c)[i] < 256
  {
    var n := c as int;
    var q := n / 64;
    var r := q / 64;
    SixBits(n);
    SixBits(q);
    SixBits(r);
  }

  lemma SixBits(n: int)
    requires n >= 0
    ensures n == n / 64 * 64 + n % 64 && 0 <= n % 64 < 64
  {
  }

  /** The bytes of a text. */
  function Utf8Text(s: string): seq<int> { if s == "" then [] else Utf8(s[0]) + Utf8Text(s[1..]) }

  lemma {:induction false} ByteLenExact(s: string)
    ensures |Utf8Text(s)| == ByteLen(s)
  {
    if s != "" {
      Utf8LenExact(s[0]);
      ByteLenExact(s[1..]);
    }
  }

  // ----- The shape of a line

  lemma {:induction false} NoBreakLeft(s: string, text: string)
    requires Occurrences(text, '\n') == 0
    ensures Occurrences(Replace(s, '\n', text), '\n') == 0
  {
    if s != "" {
      NoBreakLeft(s[1..], text);
      var head := if s[0] == '\n' then text else [s[0]];
      OccurrencesConcat(head, Replace(s[1..], '\n', text), '\n');
    }
  }

  lemma {:induction false} NoneIfAbsent(s: string, c: char)
    requires forall i :: 0 <= i < |s| ==> s[i] != c
    ensures Occurrences(s, c) == 0
  {
    if s != "" { NoneIfAbsent(s[1..], c); }
  }

  /** Every pipe has a backslash right before it. */
  predicate PipesEscaped(s: string) { forall i :: 0 <= i < |s| && s[i] == '|' ==> i > 0 && s[i - 1] == '\\' }

  lemma EscapedConcat(a: string, b: string)
    requires PipesEscaped(a) && PipesEscaped(b)
    ensures PipesEscaped(a + b)
  {
  }

  lemma {:induction false} ReplaceConcat(a: string, b: string, c: char, text: string)
    ensures Replace(a + b, c, text) == Replace(a, c, text) + Replace(b, c, text)
  {
    if a == "" {
      assert a + b == b;
    } else {
      assert (a + b)[1..] == a[1..] + b;
      ReplaceConcat(a[1..], b, c, text);
    }
  }

  lemma OnePieceEscaped(c: char)
    ensures PipesEscaped(Replace(if c == '|' then "\\|" else [c], '\n', "<br>"))
  {
    ReplaceCons('|', "", '\n', "<br>");
    ReplaceCons('\\', "|", '\n', "<br>");
    ReplaceCons(c, "", '\n', "<br>");
    assert Replace("", '\n', "<br>") == "";
    assert ['\\'] + "|" == "\\|" && ['|'] + "" == "|" && [c] + "" == [c];
    hide Replace;
    assert Replace("\\|", '\n', "<br>") == "\\|";
  }

  lemma ReplaceCons(x: char, s: string, c: char, text: string)
    ensures Replace([x] + s, c, text) == (if x == c then text else [x]) + Replace(s, c, text)
  {
    assert ([x] + s)[1..] == s;
  }

  /** A cell of the table never ends early: each pipe of the item is escaped. */
  lemma {:induction false} CellIsEscaped(s: string)
    ensures PipesEscaped(Replace(Replace(s, '|', "\\|"), '\n', "<br>"))
  {
    if s != "" {
      var head := if s[0] == '|' then "\\|" else [s[0]];
      var rest := Replace(s[1..], '|', "\\|");
      CellIsEscaped(s[1..]);
      OnePieceEscaped(s[0]);
      ReplaceConcat(head, rest, '\n', "<br>");
      EscapedConcat(Replace(head, '\n', "<br>"), Replace(rest, '\n', "<br>"));
      assert Replace(s, '|', "\\|") == head + rest;
      hide Replace, PipesEscaped;
    }
  }

  /** Every template prints the trimmed item behind its own mark; a table row is one line whatever the item. */
  lemma LineShape(number: nat, item: string)
    ensures Line(Bullets, number, item) == ['-', ' '] + Trim(item)
    ensures exists digits :: Line(NumberedCitations, number, item) == ['['] + digits + [']', ' '] + Trim(item) && ReadDecimal(digits) == number
    ensures exists digits, cell :: Line(MarkdownTable, number, item) == ['|', ' '] + digits + [' ', '|', ' '] + cell + [' ', '|'] &&
              ReadDecimal(digits) == number && Occurrences(cell, '\n') == 0 && PipesEscaped(cell)
  {
    DecimalReadsBack(number);
    var digits := Decimal(number);
    CellIsEscaped(Trim(item));
    hide Decimal, Trim, Replace, Occurrences, ReadDecimal, PipesEscaped;
    assert Line(NumberedCitations, number, item) == ['['] + digits + [']', ' '] + Trim(item);
    var cell := Replace(Replace(Trim(item), '|', "\\|"), '\n', "<br>");
    NoneIfAbsent("<br>", '\n');
    NoBreakLeft(Replace(Trim(item), '|', "\\|"), "<br>");
    assert Line(MarkdownTable, number, item) == ['|', ' '] + digits + [' ', '|', ' '] + cell + [' ', '|'];
  }
}
