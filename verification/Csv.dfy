/**
  Reading CSV, one character at a time with one of lookahead, against the encodings of section 2 of
  RFC 4180.
 */
module Csv {
  import opened Wrappers
  import opened Sequences

  type Row = seq<string>

  datatype Reader = Reader(records: seq<Row>, row: Row, field: string, quoted: bool)

  function EndField(r: Reader): Reader {
    r.(row := r.row + [r.field], field := "")
  }

  function EndRow(r: Reader): Reader {
    Reader(r.records + [r.row + [r.field]], [], "", false)
  }

  /** What one step does, and how much text it takes. */
  function Take(text: string, r: Reader): (Reader, nat)
    requires text != ""
  {
    var ch, next := text[0], if |text| > 1 then Some(text[1]) else None;
    if r.quoted then
      if ch != '"' then (r.(field := r.field + [ch]), 1)
      else if next == Some('"') then (r.(field := r.field + ['"']), 2)
      else (r.(quoted := false), 1)
    else if ch == '"' && r.field == "" then (r.(quoted := true), 1)
    else if ch == ',' then (EndField(r), 1)
    else if ch == '\n' then (EndRow(r), 1)
    else if ch == '\r' then if next == Some('\n') then (r, 1) else (EndRow(r), 1)
    else (r.(field := r.field + [ch]), 1)
  }

  function Run(text: string, r: Reader): Reader
    decreases |text|
  {
    if text == "" then r
    else
      var (next, used) := Take(text, r);
      Run(text[used..], next)
  }

  const START := Reader([], [], "", false)

  function Finish(r: Reader): Result<seq<Row>> {
    if r.quoted then Err
    else if r.field != "" || r.row != [] then Ok(r.records + [r.row + [r.field]])
    else Ok(r.records)
  }

  function Parsed(raw: string): Result<seq<Row>> {
    Finish(Run(raw, START))
  }

  method CsvRecords(raw: string) returns (r: Result<seq<Row>>)
    ensures r == Parsed(raw)
  {
    var records: seq<Row>, row: Row, field, quoted := [], [], "", false;
    var i := 0;
    assert raw[0..] == raw;
    while i < |raw|
      invariant 0 <= i <= |raw|
      invariant Run(raw[i..], Reader(records, row, field, quoted)) == Run(raw, START)
    {
      ghost var rest := raw[i..];
      assert rest[1..] == raw[i + 1..];
      var ch := raw[i];
      i := i + 1;
      var peek := if i < |raw| then Some(raw[i]) else None;
      if quoted {
        if ch == '"' {
          if peek == Some('"') {
            assert rest[2..] == raw[i + 1..];
            i := i + 1;
            field := field + ['"'];
          } else {
            quoted := false;
          }
        } else {
          field := field + [ch];
        }
      } else if ch == '"' && field == "" {
        quoted := true;
      } else if ch == ',' {
        row, field := row + [field], "";
      } else if ch == '\n' {
        records, row, field := records + [row + [field]], [], "";
      } else if ch == '\r' {
        if peek != Some('\n') {
          records, row, field := records + [row + [field]], [], "";
        }
      } else {
        field := field + [ch];
      }
    }
    if quoted {
      return Err;
    }
    if field != "" || row != [] {
      records := records + [row + [field]];
    }
    return Ok(records);
  }

  // ---- encodings ----

  /** A field with the writer's free choice of quoting. */
  datatype Field = Field(content: string, quote: bool)

  /** A record with the writer's choice of line end. */
  datatype Line = Line(fields: seq<Field>, crlf: bool)

  predicate Plain(s: string) {
    forall i | 0 <= i < |s| :: s[i] != '"' && s[i] != ',' && s[i] != '\n' && s[i] != '\r'
  }

  /** Quoting is optional only where there is nothing to protect; a record has at least one field. */
  predicate Encodable(fields: seq<Field>) {
    fields != [] && forall i | 0 <= i < |fields| :: fields[i].quote || Plain(fields[i].content)
  }

  function Doubled(s: string): string {
    if s == "" then "" else (if s[0] == '"' then "\"\"" else [s[0]]) + Doubled(s[1..])
  }

  function FieldText(f: Field): string {
    if f.quote then "\"" + (Doubled(f.content) + "\"") else f.content
  }

  function RowText(fields: seq<Field>): string
    requires fields != []
  {
    if |fields| == 1 then FieldText(fields[0]) else FieldText(fields[0]) + ("," + RowText(fields[1..]))
  }

  function Contents(fields: seq<Field>): Row {
    seq(|fields|, i requires 0 <= i < |fields| => fields[i].content)
  }

  function LineEnd(crlf: bool): string {
    if crlf then "\r\n" else "\n"
  }

  predicate AllEncodable(lines: seq<Line>) {
    forall i | 0 <= i < |lines| :: Encodable(lines[i].fields)
  }

  function Text(lines: seq<Line>): string
    requires AllEncodable(lines)
  {
    if lines == [] then "" else RowText(lines[0].fields) + (LineEnd(lines[0].crlf) + Text(lines[1..]))
  }

  function Rows(lines: seq<Line>): seq<Row> {
    seq(|lines|, i requires 0 <= i < |lines| => Contents(lines[i].fields))
  }

  // ---- reading an encoding back ----

  lemma {:induction false} PlainReads(s: string, rest: string, r: Reader)
    requires Plain(s) && !r.quoted
    ensures Run(s + rest, r) == Run(rest, r.(field := r.field + s))
  {
    if s == "" {
      EmptyIsNeutral(rest);
      EmptyIsNeutral(r.field);
    } else {
      assert (s + rest)[1..] == s[1..] + rest;
      PlainReads(s[1..], rest, r.(field := r.field + [s[0]]));
      assert r.field + [s[0]] + s[1..] == r.field + s;
    }
  }

  lemma {:induction false} DoubledReads(s: string, rest: string, r: Reader)
    requires r.quoted && (rest == "" || rest[0] != '"')
    ensures Run(Doubled(s) + ("\"" + rest), r) == Run(rest, r.(field := r.field + s, quoted := false))
  {
    var text := Doubled(s) + ("\"" + rest);
    if s == "" {
      assert text == "\"" + rest && text[1..] == rest;
      EmptyIsNeutral(r.field);
    } else {
      var used := if s[0] == '"' then 2 else 1;
      assert text[used..] == Doubled(s[1..]) + ("\"" + rest);
      assert Take(text, r) == (r.(field := r.field + [s[0]]), used);
      DoubledReads(s[1..], rest, r.(field := r.field + [s[0]]));
      assert r.field + [s[0]] + s[1..] == r.field + s;
    }
  }

  predicate Separated(rest: string) {
    rest == "" || rest[0] == ',' || rest[0] == '\n' || rest[0] == '\r'
  }

  /** However a field is written, reading it adds its content. */
  lemma FieldReads(f: Field, rest: string, r: Reader)
    requires (f.quote || Plain(f.content)) && Separated(rest) && !r.quoted && r.field == ""
    ensures Run(FieldText(f) + rest, r) == Run(rest, r.(field := f.content))
  {
    if f.quote {
      var text := FieldText(f) + rest;
      assert text[1..] == Doubled(f.content) + ("\"" + rest);
      DoubledReads(f.content, rest, r.(quoted := true));
    } else {
      PlainReads(f.content, rest, r);
    }
    EmptyIsNeutral(f.content);
  }

  lemma CommaEnds(tail: string, r: Reader)
    requires !r.quoted
    ensures Run("," + tail, r) == Run(tail, EndField(r))
  {
    assert ("," + tail)[1..] == tail;
  }

  lemma ContentsSplit(fields: seq<Field>)
    requires fields != []
    ensures Contents(fields) == [fields[0].content] + Contents(fields[1..])
    ensures |fields| == 1 ==> Contents(fields) == [fields[0].content]
  {
  }

  lemma RowTextSplit(fields: seq<Field>, rest: string)
    requires |fields| > 1
    ensures RowText(fields) + rest == FieldText(fields[0]) + ("," + (RowText(fields[1..]) + rest))
  {
    hide FieldText;
    Regroup(FieldText(fields[0]), "," + RowText(fields[1..]), rest);
    Regroup(",", RowText(fields[1..]), rest);
  }

  /** Where a row of fields leaves the reader: at its end, nothing closed yet. */
  ghost predicate ReadsRow(contents: Row, rest: string, r: Reader, read: Reader) {
    exists last: Reader :: last.records == r.records && !last.quoted
      && last.row + [last.field] == r.row + contents && read == Run(rest, last)
  }

  lemma LastFieldReads(f: Field, rest: string, r: Reader)
    requires (f.quote || Plain(f.content)) && Separated(rest) && !r.quoted && r.field == ""
    ensures ReadsRow([f.content], rest, r, Run(FieldText(f) + rest, r))
  {
    FieldReads(f, rest, r);
    hide Run, FieldText;
    var last := r.(field := f.content);
    assert last.row + [last.field] == r.row + [f.content];
  }

  lemma RowContinues(content: string, contents: Row, rest: string, r: Reader, read: Reader)
    requires ReadsRow(contents, rest, EndField(r.(field := content)), read)
    ensures ReadsRow([content] + contents, rest, r, read)
  {
    hide Run;
    Regroup(r.row, [content], contents);
  }

  /** All fields but the last end at their commas. */
  lemma {:induction false} FieldsRead(fields: seq<Field>, rest: string, r: Reader)
    requires Encodable(fields) && Separated(rest) && (rest != "" ==> rest[0] != ',') && !r.quoted && r.field == ""
    ensures ReadsRow(Contents(fields), rest, r, Run(RowText(fields) + rest, r))
    decreases |fields|
  {
    hide Run, ReadsRow, Contents, FieldText;
    ContentsSplit(fields);
    if |fields| == 1 {
      LastFieldReads(fields[0], rest, r);
    } else {
      var tail := RowText(fields[1..]) + rest;
      RowTextSplit(fields, rest);
      hide RowText;
      FieldReads(fields[0], "," + tail, r);
      CommaEnds(tail, r.(field := fields[0].content));
      FieldsRead(fields[1..], rest, EndField(r.(field := fields[0].content)));
      RowContinues(
        fields[0].content, Contents(fields[1..]), rest, r, Run(tail, EndField(r.(field := fields[0].content))));
    }
  }

  lemma LineEndReads(crlf: bool, rest: string, r: Reader)
    requires !r.quoted
    ensures Run(LineEnd(crlf) + rest, r) == Run(rest, EndRow(r))
  {
    var end := LineEnd(crlf) + rest;
    if crlf {
      assert end[1..] == "\n" + rest && end[1..][1..] == rest;
    } else {
      assert end[1..] == rest;
    }
  }

  lemma LineReads(line: Line, rest: string, r: Reader)
    requires Encodable(line.fields) && !r.quoted && r.field == "" && r.row == []
    ensures Run(RowText(line.fields) + (LineEnd(line.crlf) + rest), r)
      == Run(rest, r.(records := r.records + [Contents(line.fields)]))
  {
    hide Run, Contents, RowText;
    var end := LineEnd(line.crlf) + rest;
    FieldsRead(line.fields, end, r);
    var last: Reader :| last.records == r.records && !last.quoted
      && last.row + [last.field] == r.row + Contents(line.fields)
      && Run(RowText(line.fields) + end, r) == Run(end, last);
    EmptyIsNeutral(Contents(line.fields));
    LineEndReads(line.crlf, rest, last);
  }

  lemma {:induction false} LinesRead(lines: seq<Line>, rest: string, r: Reader)
    requires AllEncodable(lines) && !r.quoted && r.field == "" && r.row == []
    ensures Run(Text(lines) + rest, r) == Run(rest, r.(records := r.records + Rows(lines)))
    decreases |lines|
  {
    hide Run;
    if lines == [] {
      EmptyIsNeutral(rest);
      EmptyIsNeutral(r.records);
    } else {
      hide RowText, LineEnd, Contents, Encodable;
      var head, tail := lines[0], Text(lines[1..]);
      Regroup(RowText(head.fields), LineEnd(head.crlf) + tail, rest);
      Regroup(LineEnd(head.crlf), tail, rest);
      LineReads(head, tail + rest, r);
      var next := r.(records := r.records + [Contents(head.fields)]);
      LinesRead(lines[1..], rest, next);
      assert next.records + Rows(lines[1..]) == r.records + Rows(lines);
    }
  }

  /** Every terminated encoding of a list of records reads back as exactly those records. */
  lemma ParsingInvertsEncoding(lines: seq<Line>)
    requires AllEncodable(lines)
    ensures Parsed(Text(lines)) == Ok(Rows(lines))
  {
    LinesRead(lines, "", START);
    EmptyIsNeutral(Text(lines));
    EmptyIsNeutral(Rows(lines));
  }

  lemma NothingLeft()
    ensures forall r: Reader :: Run("", r) == r
  {
  }

  /** Without a final line end the last record is lost exactly when it is a single empty field. */
  lemma UnterminatedLastRecord(lines: seq<Line>, last: seq<Field>)
    requires AllEncodable(lines) && Encodable(last)
    ensures Parsed(Text(lines) + RowText(last))
      == Ok(if Contents(last) == [""] then Rows(lines) else Rows(lines) + [Contents(last)])
  {
    NothingLeft();
    hide Run, Contents, RowText;
    LinesRead(lines, RowText(last), START);
    EmptyIsNeutral(Rows(lines));
    var r := START.(records := Rows(lines));
    FieldsRead(last, "", r);
    EmptyIsNeutral(RowText(last));
    var end: Reader :| end.records == r.records && !end.quoted
      && end.row + [end.field] == r.row + Contents(last) && Run(RowText(last) + "", r) == Run("", end);
    EmptyIsNeutral(Contents(last));
    assert end.row + [end.field] == Contents(last);
    assert |end.row| + 1 == |Contents(last)| && end.field == Contents(last)[|end.row|];
  }

  // ---- the only failure ----

  /** A quoted field that nothing closes: its quotes come in pairs to the end. */
  predicate NeverClosed(body: string)
    decreases |body|
  {
    || body == ""
    || (if body[0] != '"' then NeverClosed(body[1..]) else |body| > 1 && body[1] == '"' && NeverClosed(body[2..]))
  }

  lemma {:induction false} OpenStaysOpen(body: string, r: Reader)
    requires r.quoted
    ensures NeverClosed(body) ==> Run(body, r).quoted
    decreases |body|
  {
    if body != "" {
      var (next, used) := Take(body, r);
      if next.quoted {
        OpenStaysOpen(body[used..], next);
      }
    }
  }

  /** The state after exactly `n` characters, if a step ends there. */
  function StateAt(text: string, r: Reader, n: nat): Option<Reader>
    decreases n
  {
    if n == 0 then Some(r)
    else if text == "" then None
    else
      var (next, used) := Take(text, r);
      if used > n then None else StateAt(text[used..], next, n - used)
  }

  lemma {:induction false} StateRunsOn(text: string, r: Reader, n: nat)
    requires StateAt(text, r, n).Some?
    ensures n <= |text| && Run(text[n..], StateAt(text, r, n).value) == Run(text, r)
    decreases n
  {
    if n == 0 {
      assert text[0..] == text;
    } else {
      var (next, used) := Take(text, r);
      StateRunsOn(text[used..], next, n - used);
      assert text[used..][n - used..] == text[n..];
    }
  }

  lemma StateUnfolds(text: string, r: Reader, n: nat)
    requires n > 0
    ensures StateAt(text, r, 0) == Some(r)
    ensures StateAt(text, r, n).Some? ==> text != "" && Take(text, r).1 <= n
    ensures text != "" && Take(text, r).1 <= n ==>
      StateAt(text, r, n) == StateAt(text[Take(text, r).1..], Take(text, r).0, n - Take(text, r).1)
  {
    hide Take;
  }

  lemma {:induction false} StateSteps(text: string, r: Reader, n: nat)
    requires StateAt(text, r, n).Some? && n < |text|
    ensures
      var (next, used) := Take(text[n..], StateAt(text, r, n).value);
      0 < used <= |text| - n && StateAt(text, r, n + used) == Some(next)
    decreases n
  {
    hide Take, StateAt;
    var (next, used) := Take(text, r);
    TakesSome(text, r);
    if n == 0 {
      assert text[0..] == text;
      StateUnfolds(text, r, used);
      StateUnfolds(text[used..], next, 1);
    } else {
      StateUnfolds(text, r, n);
      StateSteps(text[used..], next, n - used);
      assert text[used..][n - used..] == text[n..];
      var more := Take(text[n..], StateAt(text, r, n).value).1;
      StateUnfolds(text, r, n + more);
    }
  }

  lemma TakesSome(text: string, r: Reader)
    requires text != ""
    ensures 0 < Take(text, r).1 <= |text|
  {
  }

  /** Reading gets to the place between two fields, and the next character opens a quoted one. */
  predicate OpensAt(raw: string, i: nat) {
    var r := StateAt(raw, START, i);
    i < |raw| && raw[i] == '"' && r.Some? && !r.value.quoted && r.value.field == ""
  }

  /** Outside quotes the text goes on, and only an opening quote leads inside. */
  lemma StepBetweenFields(raw: string, i: nat)
    requires StateAt(raw, START, i).Some? && !StateAt(raw, START, i).value.quoted && Run(raw, START).quoted
    ensures i < |raw|
    ensures
      var (next, used) := Take(raw[i..], StateAt(raw, START, i).value);
      && 0 < used <= |raw| - i && StateAt(raw, START, i + used) == Some(next)
      && (next.quoted ==> used == 1 && OpensAt(raw, i))
  {
    StateRunsOn(raw, START, i);
    assert |raw[i..]| == |raw| - i;
    assert i < |raw|;
    hide Run, StateAt;
    StateSteps(raw, START, i);
  }

  lemma {:induction false} FailureOpens(raw: string, i: nat) returns (at: nat)
    requires StateAt(raw, START, i).Some? && !StateAt(raw, START, i).value.quoted && Run(raw, START).quoted
    ensures OpensAt(raw, at) && NeverClosed(raw[at + 1..])
    decreases |raw| - i
  {
    hide Run, NeverClosed, StateAt, Take, OpensAt;
    StepBetweenFields(raw, i);
    var (next, used) := Take(raw[i..], StateAt(raw, START, i).value);
    if next.quoted {
      var j := InsideQuotes(raw, i + 1);
      if j <= |raw| {
        at := FailureOpens(raw, j);
      } else {
        at := i;
      }
    } else {
      at := FailureOpens(raw, i + used);
    }
  }

  /** From inside a quoted field: where it closes, or beyond the end if it never does. */
  lemma {:induction false} InsideQuotes(raw: string, i: nat) returns (j: nat)
    requires i <= |raw| && StateAt(raw, START, i).Some? && StateAt(raw, START, i).value.quoted
    ensures j > i
    ensures j <= |raw| ==> StateAt(raw, START, j).Some? && !StateAt(raw, START, j).value.quoted
    ensures j > |raw| ==> NeverClosed(raw[i..])
    decreases |raw| - i
  {
    hide StateAt;
    if i == |raw| {
      return i + 1;
    }
    var rest := raw[i..];
    StateSteps(raw, START, i);
    var (next, used) := Take(rest, StateAt(raw, START, i).value);
    assert rest[used..] == raw[i + used..];
    if next.quoted {
      j := InsideQuotes(raw, i + used);
    } else {
      j := i + 1;
    }
  }

  /** Reading fails exactly when some quoted field is opened and never closed. */
  lemma FailsIffLeftOpen(raw: string)
    ensures Parsed(raw).Err? <==> exists i: nat :: OpensAt(raw, i) && NeverClosed(raw[i + 1..])
  {
    if Parsed(raw).Err? {
      var i := FailureOpens(raw, 0);
    }
    if i: nat :| OpensAt(raw, i) && NeverClosed(raw[i + 1..]) {
      StateRunsOn(raw, START, i);
      assert raw[i..][1..] == raw[i + 1..];
      OpenStaysOpen(raw[i + 1..], StateAt(raw, START, i).value.(quoted := true));
    }
  }
}
