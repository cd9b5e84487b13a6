/**
  A1-style ranges: the reader's parser and the writer of the ranges it hands back.
 */
module Addresses {
  import opened Numerals
  import opened Wrappers

  const U32_MAX := 0xFFFF_FFFF

  datatype Rect = Rect(c1: nat, r1: nat, c2: nat, r2: nat)

  // ---- column letters ----

  predicate IsUpper(x: char) {
    'A' <= x <= 'Z'
  }

  predicate IsLetter(x: char) {
    IsUpper(x) || 'a' <= x <= 'z'
  }

  /** 1 for A or a, up to 26. */
  function LetterValue(x: char): (v: nat)
    requires IsLetter(x)
    ensures 1 <= v <= 26
  {
    if IsUpper(x) then (x as int) - ('A' as int) + 1 else (x as int) - ('a' as int) + 1
  }

  predicate AllLetters(s: string) {
    forall i | 0 <= i < |s| :: IsLetter(s[i])
  }

  function ColumnValue(s: string): nat
    requires AllLetters(s)
  {
    if s == "" then 0 else ColumnValue(s[..|s| - 1]) * 26 + LetterValue(s[|s| - 1])
  }

  /** Bijective base 26: the column's name, empty for 0. */
  function ColumnText(n: nat): (s: string)
    ensures AllLetters(s) && (n > 0 ==> s != "") && (forall i | 0 <= i < |s| :: IsUpper(s[i]))
  {
    if n == 0 then ""
    else ColumnText((n - 1) / 26) + [('A' as int + (n - 1) % 26) as char]
  }

  /** The writer's loop collects letters from the right. */
  method ColumnName(column: nat) returns (name: string)
    ensures name == ColumnText(column)
  {
    var col := column;
    name := "";
    while col > 0
      invariant ColumnText(column) == ColumnText(col) + name
    {
      col := col - 1;
      name := [('A' as int + col % 26) as char] + name;
      col := col / 26;
    }
  }

  lemma {:induction false} ColumnRoundTrip(n: nat)
    ensures ColumnValue(ColumnText(n)) == n
  {
    if n > 0 {
      ColumnRoundTrip((n - 1) / 26);
    }
  }

  /** A column's name is the only upper-case text with its value. */
  lemma {:induction false} ColumnNamesAreUnique(s: string)
    requires forall i | 0 <= i < |s| :: IsUpper(s[i])
    ensures ColumnText(ColumnValue(s)) == s
  {
    if s != "" {
      var front := s[..|s| - 1];
      ColumnNamesAreUnique(front);
      assert (ColumnValue(s) - 1) / 26 == ColumnValue(front);
    }
  }

  // ---- one cell ----

  predicate IsSpace(x: char) {
    x == ' ' || '\U{0009}' <= x <= '\U{000D}' || x == '\U{0085}' || x == '\U{00A0}' || x == '\U{1680}'
    || '\U{2000}' <= x <= '\U{200A}' || x == '\U{2028}' || x == '\U{2029}' || x == '\U{202F}' || x == '\U{205F}'
    || x == '\U{3000}'
  }

  function Trim(s: string): string {
    if s != "" && IsSpace(s[0]) then Trim(s[1..])
    else if s != "" && IsSpace(s[|s| - 1]) then Trim(s[..|s| - 1])
    else s
  }

  function SkipDollar(s: string): string {
    if s != "" && s[0] == '$' then s[1..] else s
  }

  /** How many leading letters there are. */
  function LetterRun(s: string): (n: nat)
    ensures n <= |s| && AllLetters(s[..n])
    ensures n < |s| ==> !IsLetter(s[n])
  {
    if s != "" && IsLetter(s[0]) then
      assert forall i :: 0 < i < |s| ==> s[i] == s[1..][i - 1];
      1 + LetterRun(s[1..])
    else 0
  }

  function Narrow(n: nat): Option<nat> {
    if n <= U32_MAX then Some(n) else None
  }

  /** Column and row of `$A$1`-style text; both must fit 32 bits and the row must not be 0. */
  function CellOf(text: string): Option<(nat, nat)> {
    var s := SkipDollar(Trim(text));
    var n := LetterRun(s);
    var rest := SkipDollar(s[n..]);
    if n == 0 || rest == "" || !AllDigits(rest) then None
    else
      var column :- Narrow(ColumnValue(s[..n]));
      var row :- Narrow(DecimalValue(rest));
      if row == 0 then None else Some((column, row))
  }

  lemma LettersGrow(s: string, a: nat, b: nat)
    requires a <= b <= |s| && AllLetters(s[..b])
    ensures ColumnValue(s[..a]) <= ColumnValue(s[..b])
  {
    if a < b {
      LettersGrow(s, a, b - 1);
      assert s[..b][..b - 1] == s[..b - 1];
    }
  }

  lemma RunReaches(s: string, n: nat)
    requires n <= |s| && AllLetters(s[..n])
    ensures n <= LetterRun(s)
  {
    assert forall k | 0 <= k < n :: s[..n][k] == s[k];
  }

  lemma RunIsMaximal(s: string, n: nat)
    requires n <= |s| && AllLetters(s[..n]) && (n < |s| ==> !IsLetter(s[n]))
    ensures LetterRun(s) == n
  {
    var m := LetterRun(s);
    assert forall k | 0 <= k < n :: s[..n][k] == s[k];
    assert forall k | 0 <= k < m :: s[..m][k] == s[k];
  }

  /** Stops as soon as the column no longer fits 32 bits. */
  method ReadColumn(s: string) returns (column: Option<nat>, index: nat)
    ensures index <= LetterRun(s)
    ensures column == Narrow(ColumnValue(s[..LetterRun(s)]))
    ensures column.Some? ==> index == LetterRun(s)
  {
    var value := 0;
    index := 0;
    while index < |s| && IsLetter(s[index])
      invariant index <= |s| && AllLetters(s[..index])
      invariant value == ColumnValue(s[..index]) <= U32_MAX
    {
      assert s[..index + 1][..index] == s[..index];
      value := value * 26 + LetterValue(s[index]);
      index := index + 1;
      if value > U32_MAX {
        RunReaches(s, index);
        LettersGrow(s, index, LetterRun(s));
        return None, index;
      }
    }
    RunIsMaximal(s, index);
    return Some(value), index;
  }

  /** White space by code point. */
  method IsWhite(x: char) returns (white: bool)
    ensures white <==> IsSpace(x)
  {
    var code := x as int;
    white := (9 <= code && code <= 13) || code == 0x20 || code == 0x85 || code == 0xA0 || code == 0x1680
      || (0x2000 <= code && code <= 0x200A) || code == 0x2028 || code == 0x2029 || code == 0x202F || code == 0x205F
      || code == 0x3000;
  }

  method TrimText(s: string) returns (t: string)
    ensures t == Trim(s)
  {
    t := s;
    while t != ""
      invariant Trim(t) == Trim(s)
      decreases |t|
    {
      var white := IsWhite(t[0]);
      if !white {
        break;
      }
      t := t[1..];
    }
    while t != ""
      invariant Trim(t) == Trim(s) && (t != "" ==> !IsSpace(t[0]))
      decreases |t|
    {
      var white := IsWhite(t[|t| - 1]);
      if !white {
        break;
      }
      t := t[..|t| - 1];
    }
  }

  method ParseCell(text: string) returns (r: Option<(nat, nat)>)
    ensures r == CellOf(text)
  {
    hide Trim, LetterRun, ColumnValue, DecimalValue;
    var trimmed := TrimText(text);
    var s := SkipDollar(trimmed);
    var column, index := ReadColumn(s);
    if column.None? || index == 0 {
      return None;
    }
    var rest := SkipDollar(s[index..]);
    var digits := 0;
    while digits < |rest| && IsDigit(rest[digits])
      invariant digits <= |rest| && AllDigits(rest[..digits])
    {
      digits := digits + 1;
    }
    if digits == 0 || digits != |rest| {
      return None;
    }
    assert rest[..digits] == rest;
    var row := Narrow(DecimalValue(rest));
    if row.None? || row.value == 0 {
      return None;
    }
    return Some((column.value, row.value));
  }

  // ---- ranges ----

  /** The text after the last `!`, or all of it. */
  function AfterSheet(s: string): (t: string)
    ensures '!' !in t
  {
    if s == "" then ""
    else if s[|s| - 1] == '!' then ""
    else AfterSheet(s[..|s| - 1]) + [s[|s| - 1]]
  }

  function SplitAt(s: string, mark: char): (parts: seq<string>)
    ensures parts != []
    ensures mark !in s ==> parts == [s]
  {
    if s == "" then [""]
    else if s[0] == mark then [""] + SplitAt(s[1..], mark)
    else
      var rest := SplitAt(s[1..], mark);
      assert mark !in s ==> [s[0]] + s[1..] == s;
      [[s[0]] + rest[0]] + rest[1..]
  }

  function RectOf(text: string): Option<Rect> {
    var parts := SplitAt(AfterSheet(text), ':');
    if |parts| > 2 then None
    else
      var a :- CellOf(parts[0]);
      var b :- CellOf(if |parts| == 2 then parts[1] else parts[0]);
      if a.0 > b.0 || a.1 > b.1 then None else Some(Rect(a.0, a.1, b.0, b.1))
  }

  method ParseRange(text: string) returns (r: Option<Rect>)
    ensures r == RectOf(text)
  {
    var parts := SplitAt(AfterSheet(text), ':');
    if |parts| > 2 {
      return None;
    }
    var a := ParseCell(parts[0]);
    var b := ParseCell(if |parts| == 2 then parts[1] else parts[0]);
    if a.None? || b.None? || a.value.0 > b.value.0 || a.value.1 > b.value.1 {
      return None;
    }
    return Some(Rect(a.value.0, a.value.1, b.value.0, b.value.1));
  }

  /** What the parser accepts is an upright, non-empty rectangle. */
  lemma RectsAreUpright(text: string)
    requires RectOf(text).Some?
    ensures
      var r := RectOf(text).value;
      1 <= r.c1 <= r.c2 <= U32_MAX && 1 <= r.r1 <= r.r2 <= U32_MAX
  {
    var parts := SplitAt(AfterSheet(text), ':');
    ColumnsArePositive(parts[0]);
  }

  lemma ColumnsArePositive(text: string)
    requires CellOf(text).Some?
    ensures 1 <= CellOf(text).value.0 <= U32_MAX && 1 <= CellOf(text).value.1 <= U32_MAX
  {
    var s := SkipDollar(Trim(text));
    assert s[..LetterRun(s)] != "";
  }

  function CellText(column: nat, row: nat): string {
    ColumnText(column) + DecimalText(row)
  }

  function RangeText(r: Rect): string {
    CellText(r.c1, r.r1) + ":" + CellText(r.c2, r.r2)
  }

  lemma PlainCell(column: nat, row: nat)
    requires column > 0
    ensures
      var s := CellText(column, row);
      Trim(s) == s && SkipDollar(s) == s && '!' !in s && ':' !in s
  {
    var s := CellText(column, row);
    assert IsUpper(s[0]) && IsDigit(s[|s| - 1]);
    forall i | 0 <= i < |s| ensures IsUpper(s[i]) || IsDigit(s[i]) {
      if i >= |ColumnText(column)| {
        assert s[i] == DecimalText(row)[i - |ColumnText(column)|];
      }
    }
  }

  /** A written cell reads back as itself. */
  lemma CellRoundTrip(column: nat, row: nat)
    requires 1 <= column <= U32_MAX && 1 <= row <= U32_MAX
    ensures CellOf(CellText(column, row)) == Some((column, row))
  {
    hide Trim, LetterRun, ColumnText, DecimalText, ColumnValue, DecimalValue;
    var s, n := CellText(column, row), |ColumnText(column)|;
    PlainCell(column, row);
    assert s[..n] == ColumnText(column) && s[n..] == DecimalText(row);
    assert !IsLetter(DecimalText(row)[0]) by {
      assert IsDigit(DecimalText(row)[0]);
    }
    RunIsMaximal(s, n);
    ColumnRoundTrip(column);
    DecimalRoundTrip(row);
  }

  lemma {:induction false} NoSheet(s: string)
    requires '!' !in s
    ensures AfterSheet(s) == s
  {
    if s != "" {
      NoSheet(s[..|s| - 1]);
    }
  }

  lemma {:induction false} SplitOnce(a: string, b: string, mark: char)
    requires mark !in a && mark !in b
    ensures SplitAt(a + [mark] + b, mark) == [a, b]
  {
    var s := a + [mark] + b;
    if a == "" {
      assert s[1..] == b;
    } else {
      SplitOnce(a[1..], b, mark);
      assert s[1..] == a[1..] + [mark] + b;
      assert [a[0]] + a[1..] == a;
    }
  }

  /** The ranges the reader hands back parse to exactly the rectangle they describe. */
  lemma RangeRoundTrip(r: Rect)
    requires 1 <= r.c1 <= r.c2 <= U32_MAX && 1 <= r.r1 <= r.r2 <= U32_MAX
    ensures RectOf(RangeText(r)) == Some(r)
  {
    var a, b := CellText(r.c1, r.r1), CellText(r.c2, r.r2);
    PlainCell(r.c1, r.r1);
    PlainCell(r.c2, r.r2);
    NoSheet(RangeText(r));
    SplitOnce(a, b, ':');
    CellRoundTrip(r.c1, r.r1);
    CellRoundTrip(r.c2, r.r2);
  }
}
