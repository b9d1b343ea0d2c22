/** A reader of comma-separated records following section 2 of RFC 4180, rules 5 to 7 (quoting,
    quoted breaks and commas, doubled quotes), with LF between records, and the printer against it. */
module Csv {
  import opened Options
  import opened Compose

  /** Where the reader stands: at the start of a field, in a bare field, in a quoted one, or right
      after a quote inside a quoted one. */
  datatype Place = FieldStart | Bare | Quoted | AfterQuote

  type Records = seq<seq<string>>

  /** The records of `text`, continuing a record that has `fields` and an unfinished `field`;
      nothing when the text breaks the rules. */
  function ReadFrom(text: string, place: Place, field: string, fields: seq<string>, done: Records): Option<Records>
    decreases |text|
  {
    if text == "" then
      if place.Quoted? then None else Some(done + [fields + [field]])
    else
      var c, rest := text[0], text[1..];
      if place.Quoted? then
        if c == '"' then ReadFrom(rest, AfterQuote, field, fields, done)
        else ReadFrom(rest, Quoted, field + [c], fields, done)
      else if place.AfterQuote? && c == '"' then ReadFrom(rest, Quoted, field + [c], fields, done)
      else if c == ',' then ReadFrom(rest, FieldStart, "", fields + [field], done)
      else if c == '\n' then ReadFrom(rest, FieldStart, "", [], done + [fields + [field]])
      else if place.AfterQuote? || c == '\r' then None
      else if c == '"' then if place.FieldStart? then ReadFrom(rest, Quoted, field, fields, done) else None
      else ReadFrom(rest, Bare, field + [c], fields, done)
  }

  function Read(text: string): Option<Records> { ReadFrom(text, FieldStart, "", [], []) }

  // ----- One cell

  /** What may follow a cell: the end, or the break before the next record. */
  predicate EndsCell(rest: string) { rest == "" || rest[0] == '\n' }

  lemma {:induction false} ReadBare(cell: string, rest: string, place: Place, field: string, done: Records)
    requires !NeedsQuotes(cell) && (place.FieldStart? || place.Bare?) && EndsCell(rest)
    ensures ReadFrom(cell + rest, place, field, [], done)
            == ReadFrom(rest, if cell == "" then place else Bare, field + cell, [], done)
    decreases |cell|
  {
    if cell == "" {
      assert cell + rest == rest && field + cell == field;
    } else {
      var c := cell[0];
      assert cell == [c] + cell[1..];
      assert c in cell;
      assert (cell + rest)[0] == c && (cell + rest)[1..] == cell[1..] + rest;
      assert !NeedsQuotes(cell[1..]) by {
        assert forall x :: x in cell[1..] ==> x in cell;
      }
      ReadBare(cell[1..], rest, Bare, field + [c], done);
      assert (field + [c]) + cell[1..] == field + cell;
    }
  }

  lemma {:induction false} ReadQuoted(value: string, rest: string, field: string, done: Records)
    ensures ReadFrom(Replace(value, '"', "\"\"") + "\"" + rest, Quoted, field, [], done)
            == ReadFrom(rest, AfterQuote, field + value, [], done)
    decreases |value|
  {
    var body := Replace(value, '"', "\"\"");
    if value == "" {
      assert body + "\"" + rest == "\"" + rest;
      assert ("\"" + rest)[1..] == rest && field + value == field;
    } else {
      var c := value[0];
      var tail := Replace(value[1..], '"', "\"\"") + "\"" + rest;
      ReadQuoted(value[1..], rest, field + [c], done);
      assert (field + [c]) + value[1..] == field + value;
      hide Replace;
      if c == '"' {
        assert body == "\"\"" + Replace(value[1..], '"', "\"\"") by { ReplaceHead(value, '"', "\"\""); }
        assert body + "\"" + rest == "\"\"" + tail;
        assert ("\"\"" + tail)[1..] == "\"" + tail && ("\"" + tail)[1..] == tail;
      } else {
        assert body == [c] + Replace(value[1..], '"', "\"\"") by { ReplaceHead(value, '"', "\"\""); }
        assert body + "\"" + rest == [c] + tail;
        assert ([c] + tail)[1..] == tail;
      }
    }
  }

  lemma ReplaceHead(s: string, c: char, text: string)
    requires s != ""
    ensures Replace(s, c, text) == (if s[0] == c then text else [s[0]]) + Replace(s[1..], c, text)
  {
  }

  lemma ReadQuotedCell(value: string, rest: string, done: Records)
    requires NeedsQuotes(value)
    ensures ReadFrom(CsvCell(value) + rest, FieldStart, "", [], done) == ReadFrom(rest, AfterQuote, value, [], done)
  {
    var tail := Replace(value, '"', "\"\"") + "\"" + rest;
    assert CsvCell(value) + rest == "\"" + tail;
    assert ("\"" + tail)[1..] == tail;
    hide Replace;
    ReadQuoted(value, rest, "", done);
    assert "" + value == value;
  }

  /** A printed cell is read back as the value, and as one whole record. */
  lemma ReadCell(value: string, more: string, done: Records)
    ensures ReadFrom(CsvCell(value), FieldStart, "", [], done) == Some(done + [[value]])
    ensures ReadFrom(CsvCell(value) + "\n" + more, FieldStart, "", [], done)
            == ReadFrom(more, FieldStart, "", [], done + [[value]])
  {
    var tail := "\n" + more;
    assert tail[1..] == more;
    assert CsvCell(value) + "" == CsvCell(value);
    assert CsvCell(value) + "\n" + more == CsvCell(value) + tail;
    assert [] + [value] == [value];
    if NeedsQuotes(value) {
      ReadQuotedCell(value, "", done);
      ReadQuotedCell(value, tail, done);
    } else {
      assert "" + value == value;
      ReadBare(value, "", FieldStart, "", done);
      ReadBare(value, tail, FieldStart, "", done);
    }
  }

  // ----- Whole texts

  /** Each item as a record of one field. */
  function Single(items: seq<string>): (r: Records)
    ensures |r| == |items|
  {
    if items == [] then [] else [[Trim(items[0])]] + Single(items[1..])
  }

  lemma {:induction false} ReadLines(first: nat, items: seq<string>, done: Records)
    requires items != []
    ensures ReadFrom(Join(Lines(CsvRows, first, items)), FieldStart, "", [], done) == Some(done + Single(items))
    decreases |items|
  {
    hide ReadFrom, CsvCell, Trim;
    var value := Trim(items[0]);
    var rest := Lines(CsvRows, first + 1, items[1..]);
    var lines := Lines(CsvRows, first, items);
    assert lines == [CsvCell(value)] + rest;
    if |items| == 1 {
      ReadCell(value, "", done);
      assert Single(items[1..]) == [];
      assert done + [[value]] == done + Single(items);
    } else {
      JoinCons(CsvCell(value), rest);
      ReadCell(value, Join(rest), done);
      ReadLines(first + 1, items[1..], done + [[value]]);
      assert (done + [[value]]) + Single(items[1..]) == done + Single(items);
    }
  }

  /** Reading back what the printer wrote returns exactly the trimmed items, one record each, for
      every non-empty list that is within the size limit. */
  lemma RoundTrip(items: seq<string>)
    requires items != [] && MergeText(items, CsvRows).Text?
    ensures Read(MergeText(items, CsvRows).text) == Some(Single(items))
  {
    RefusedIff(items, CsvRows);
    assert [] + Lines(CsvRows, 1, items) == Lines(CsvRows, 1, items);
    ReadLines(1, items, []);
    assert [] + Single(items) == Single(items);
  }

  lemma {:induction false} SingleDetermines(a: seq<string>, b: seq<string>)
    requires Single(a) == Single(b)
    ensures |a| == |b| && forall i :: 0 <= i < |a| ==> Trim(a[i]) == Trim(b[i])
  {
    hide Trim;
    if a != [] {
      assert b != [];
      assert Single(a)[1..] == Single(a[1..]) && Single(b)[1..] == Single(b[1..]);
      assert Single(a)[0] == [Trim(a[0])] && Single(b)[0] == [Trim(b[0])];
      assert [Trim(a[0])][0] == [Trim(b[0])][0];
      SingleDetermines(a[1..], b[1..]);
      forall i | 0 <= i < |a| ensures Trim(a[i]) == Trim(b[i]) {
        if i > 0 {
          assert a[1..][i - 1] == a[i] && b[1..][i - 1] == b[i];
        }
      }
    }
  }

  /** Hence the printed text determines the trimmed items. */
  lemma PrinterInjective(a: seq<string>, b: seq<string>)
    requires a != [] && b != [] && MergeText(a, CsvRows).Text? && MergeText(a, CsvRows) == MergeText(b, CsvRows)
    ensures |a| == |b| && forall i :: 0 <= i < |a| ==> Trim(a[i]) == Trim(b[i])
  {
    RoundTrip(a);
    RoundTrip(b);
    SingleDetermines(a, b);
  }

  // ----- A reader that also accepts a final line break (rule 2)

  /** Rule 2: the last record may end with a break, so a text that ends with one has no record after it. */
  function ReadFile(text: string): Option<Records> {
    var r := Read(text);
    if r.Some? && r.value != [] && (text == "" || text[|text| - 1] == '\n') then Some(r.value[..|r.value| - 1]) else r
  }

  lemma {:induction false} LastOfJoin(first: nat, items: seq<string>)
    requires items != []
    ensures var text, last := Join(Lines(CsvRows, first, items)), CsvCell(Trim(items[|items| - 1]));
            && (last != "" ==> text != "" && text[|text| - 1] == last[|last| - 1])
            && (last == "" ==> text == "" || text[|text| - 1] == '\n')
    decreases |items|
  {
    hide CsvCell, Trim;
    var rest := Lines(CsvRows, first + 1, items[1..]);
    assert Lines(CsvRows, first, items) == [CsvCell(Trim(items[0]))] + rest;
    if |items| > 1 {
      JoinCons(CsvCell(Trim(items[0])), rest);
      LastOfJoin(first + 1, items[1..]);
      assert items[1..][|items[1..]| - 1] == items[|items| - 1];
    }
  }

  lemma CellEnding(value: string)
    ensures CsvCell(value) == "" <==> value == ""
    ensures value != "" ==> CsvCell(value)[|CsvCell(value)| - 1] != '\n'
  {
    if !NeedsQuotes(value) && value != "" {
      assert value[|value| - 1] in value;
    }
  }

  /** Such a reader returns the trimmed items if and only if the last of them is not empty: an empty
      last item prints as nothing behind a break, which the reader takes for the end. */
  lemma RoundTripWithFinalBreakIff(items: seq<string>)
    requires items != [] && MergeText(items, CsvRows).Text?
    ensures ReadFile(MergeText(items, CsvRows).text) == Some(Single(items)) <==> Trim(items[|items| - 1]) != ""
  {
    RoundTrip(items);
    RefusedIff(items, CsvRows);
    assert [] + Lines(CsvRows, 1, items) == Lines(CsvRows, 1, items);
    LastOfJoin(1, items);
    CellEnding(Trim(items[|items| - 1]));
    hide Read, CsvCell, Trim, Lines, Join;
    var r := Single(items);
    assert |r[..|r| - 1]| != |r|;
  }
}
