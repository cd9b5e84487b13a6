/**
  Which texts are cells and ranges: blanks around it, a `$` before column and row, letters of either
  case, digits with leading zeros, and anything up to the last `!` in front of a range.
 */
module AddressForms {
  import opened Wrappers
  import opened Numerals
  import opened Addresses
  import opened Sequences

  datatype Form = Form(pre: string, fixedColumn: bool, letters: string, fixedRow: bool, digits: string, post: string)

  function Dollar(there: bool): string {
    if there then "$" else ""
  }

  function Core(f: Form): string {
    Dollar(f.fixedColumn) + (f.letters + (Dollar(f.fixedRow) + f.digits))
  }

  function TextOf(f: Form): string {
    f.pre + Core(f) + f.post
  }

  predicate AllSpaces(s: string) {
    forall i | 0 <= i < |s| :: IsSpace(s[i])
  }

  /** The parts are what they should be, and name this column and row. */
  predicate Names(f: Form, column: nat, row: nat) {
    && AllSpaces(f.pre) && AllSpaces(f.post)
    && f.letters != "" && AllLetters(f.letters) && ColumnValue(f.letters) == column <= U32_MAX
    && f.digits != "" && AllDigits(f.digits) && 1 <= row && DecimalValue(f.digits) == row <= U32_MAX
  }

  // ---- cells ----

  lemma {:induction false} TrimStrips(pre: string, core: string, post: string)
    requires AllSpaces(pre) && AllSpaces(post)
    requires core != "" && !IsSpace(core[0]) && !IsSpace(core[|core| - 1])
    ensures Trim(pre + core + post) == core
    decreases |pre| + |post|
  {
    var s := pre + core + post;
    if pre != "" {
      assert s[1..] == pre[1..] + core + post;
      TrimStrips(pre[1..], core, post);
    } else if post != "" {
      assert s[0] == core[0];
      assert s[..|s| - 1] == pre + core + post[..|post| - 1];
      TrimStrips(pre, core, post[..|post| - 1]);
    } else {
      assert s == core;
    }
  }

  lemma {:induction false} TrimParts(s: string) returns (pre: string, post: string)
    ensures AllSpaces(pre) && AllSpaces(post) && s == pre + Trim(s) + post
    decreases |s|
  {
    hide IsSpace;
    if s != "" && IsSpace(s[0]) {
      var inner, t := s[1..], Trim(s);
      pre, post := TrimParts(inner);
      assert s == [s[0]] + inner;
      hide Trim;
      Regroup([s[0]], pre + t, post);
      Regroup([s[0]], pre, t);
      pre := [s[0]] + pre;
    } else if s != "" && IsSpace(s[|s| - 1]) {
      var inner, t := s[..|s| - 1], Trim(s);
      pre, post := TrimParts(inner);
      assert s == inner + [s[|s| - 1]];
      hide Trim;
      Regroup(pre + t, post, [s[|s| - 1]]);
      post := post + [s[|s| - 1]];
    } else {
      pre, post := "", "";
      assert s == pre + s + post;
    }
  }

  lemma CoreIsSolid(f: Form, column: nat, row: nat)
    requires Names(f, column, row)
    ensures Core(f) != "" && !IsSpace(Core(f)[0]) && !IsSpace(Core(f)[|Core(f)| - 1])
    ensures SkipDollar(Core(f)) == f.letters + (Dollar(f.fixedRow) + f.digits)
  {
    assert IsLetter(f.letters[0]) && IsDigit(f.digits[|f.digits| - 1]);
    assert Core(f)[|Core(f)| - 1] == f.digits[|f.digits| - 1];
    if f.fixedColumn {
      assert Core(f)[1..] == f.letters + (Dollar(f.fixedRow) + f.digits);
    }
  }

  lemma LettersEnd(letters: string, rest: string)
    requires AllLetters(letters) && (rest != "" ==> !IsLetter(rest[0]))
    ensures LetterRun(letters + rest) == |letters|
  {
    assert (letters + rest)[..|letters|] == letters;
    RunIsMaximal(letters + rest, |letters|);
  }

  lemma DollarSkipped(there: bool, s: string)
    requires s != "" && s[0] != '$'
    ensures SkipDollar(Dollar(there) + s) == s
  {
    if there {
      assert (Dollar(there) + s)[1..] == s;
    } else {
      EmptyIsNeutral(s);
    }
  }

  lemma LettersThenDigits(letters: string, fixedRow: bool, digits: string)
    requires letters != "" && AllLetters(letters) && digits != "" && AllDigits(digits)
    ensures
      var s := letters + (Dollar(fixedRow) + digits);
      LetterRun(s) == |letters| && s[..|letters|] == letters && SkipDollar(s[|letters|..]) == digits
  {
    var rest := Dollar(fixedRow) + digits;
    assert IsDigit(digits[0]) && rest[0] == (if fixedRow then '$' else digits[0]);
    LettersEnd(letters, rest);
    DollarSkipped(fixedRow, digits);
    assert (letters + rest)[|letters|..] == rest;
  }

  /** Every such text is read as the cell it names. */
  lemma FormIsRead(f: Form, column: nat, row: nat)
    requires Names(f, column, row)
    ensures CellOf(TextOf(f)) == Some((column, row))
  {
    hide Trim, LetterRun, ColumnValue, DecimalValue, IsSpace, SkipDollar, Dollar;
    CoreIsSolid(f, column, row);
    TrimStrips(f.pre, Core(f), f.post);
    hide Core;
    LettersThenDigits(f.letters, f.fixedRow, f.digits);
  }

  lemma DollarParts(s: string)
    ensures s == Dollar(SkipDollar(s) != s) + SkipDollar(s)
  {
    if s != "" && s[0] == '$' {
      assert s == "$" + s[1..];
    } else {
      EmptyIsNeutral(s);
    }
  }

  lemma CellParts(text: string)
    requires CellOf(text).Some?
    ensures
      var s := SkipDollar(Trim(text));
      var n, cell := LetterRun(s), CellOf(text).value;
      var letters, digits := s[..n], SkipDollar(s[n..]);
      && letters != "" && AllLetters(letters) && ColumnValue(letters) == cell.0 <= U32_MAX
      && digits != "" && AllDigits(digits) && 1 <= cell.1 && DecimalValue(digits) == cell.1 <= U32_MAX
  {
    hide Trim, LetterRun, ColumnValue, DecimalValue, SkipDollar;
  }

  lemma CoreParts(core: string, f: Form)
    requires
      var s := SkipDollar(core);
      var n := LetterRun(s);
      f == Form(f.pre, s != core, s[..n], SkipDollar(s[n..]) != s[n..], SkipDollar(s[n..]), f.post)
    ensures Core(f) == core
  {
    hide LetterRun, SkipDollar, Dollar;
    var s := SkipDollar(core);
    var n := LetterRun(s);
    DollarParts(core);
    DollarParts(s[n..]);
    assert s == s[..n] + s[n..];
  }

  /** And nothing else is read as a cell. */
  lemma ReadCellHasForm(text: string) returns (f: Form)
    requires CellOf(text).Some?
    ensures text == TextOf(f) && Names(f, CellOf(text).value.0, CellOf(text).value.1)
  {
    hide CellOf, Trim, LetterRun, ColumnValue, DecimalValue, IsSpace, SkipDollar, Core;
    var pre, post := TrimParts(text);
    var s := SkipDollar(Trim(text));
    var n := LetterRun(s);
    f := Form(pre, s != Trim(text), s[..n], SkipDollar(s[n..]) != s[n..], SkipDollar(s[n..]), post);
    CellParts(text);
    CoreParts(Trim(text), f);
  }

  function Lower(x: char): char {
    if 'A' <= x <= 'Z' then (x as int + 32) as char else x
  }

  /** The case of a column's letters makes no difference. */
  lemma {:induction false} CaseIsNoMatter(a: string, b: string)
    requires AllLetters(a) && AllLetters(b) && |a| == |b|
    requires forall i | 0 <= i < |a| :: Lower(a[i]) == Lower(b[i])
    ensures ColumnValue(a) == ColumnValue(b)
  {
    if a != "" {
      CaseIsNoMatter(a[..|a| - 1], b[..|b| - 1]);
    }
  }

  // ---- ranges ----

  datatype RangeForm = RangeForm(prefix: string, first: Form, second: Option<Form>)

  function RangeTextOf(f: RangeForm): string {
    f.prefix + (TextOf(f.first) + (if f.second.Some? then ":" + TextOf(f.second.value) else ""))
  }

  /** A prefix ends in `!`; one cell stands for itself; two are the corners of an upright rectangle. */
  predicate NamesRange(f: RangeForm, r: Rect) {
    && (f.prefix != "" ==> f.prefix[|f.prefix| - 1] == '!')
    && Names(f.first, r.c1, r.r1)
    && (if f.second.Some? then Names(f.second.value, r.c2, r.r2) else r.c2 == r.c1 && r.r2 == r.r1)
    && r.c1 <= r.c2 && r.r1 <= r.r2
  }

  lemma {:induction false} AfterPrefix(prefix: string, t: string)
    requires '!' !in t && (prefix != "" ==> prefix[|prefix| - 1] == '!')
    ensures AfterSheet(prefix + t) == t
    decreases |t|
  {
    var s := prefix + t;
    if t == "" {
      assert s == prefix;
    } else {
      assert s[..|s| - 1] == prefix + t[..|t| - 1] && s[|s| - 1] == t[|t| - 1];
      AfterPrefix(prefix, t[..|t| - 1]);
    }
  }

  lemma {:induction false} PrefixOf(s: string) returns (prefix: string)
    ensures s == prefix + AfterSheet(s) && (prefix != "" ==> prefix[|prefix| - 1] == '!')
  {
    if s == "" {
      prefix := "";
    } else if s[|s| - 1] == '!' {
      prefix := s;
    } else {
      prefix := PrefixOf(s[..|s| - 1]);
      assert s == s[..|s| - 1] + [s[|s| - 1]];
    }
  }

  lemma PlainForm(f: Form, column: nat, row: nat)
    requires Names(f, column, row)
    ensures '!' !in TextOf(f) && ':' !in TextOf(f)
  {
    forall x | x in TextOf(f) ensures IsSpace(x) || x == '$' || IsLetter(x) || IsDigit(x) {
    }
  }

  /** Every such text is read as the rectangle it names. */
  lemma RangeIsRead(f: RangeForm, r: Rect)
    requires NamesRange(f, r)
    ensures RectOf(RangeTextOf(f)) == Some(r)
  {
    hide CellOf, TextOf, Names, SplitAt, AfterSheet;
    FormIsRead(f.first, r.c1, r.r1);
    PlainForm(f.first, r.c1, r.r1);
    var a := TextOf(f.first);
    if f.second.Some? {
      var b := TextOf(f.second.value);
      FormIsRead(f.second.value, r.c2, r.r2);
      PlainForm(f.second.value, r.c2, r.r2);
      SplitOnce(a, b, ':');
      Regroup(a, [':'], b);
      AfterPrefix(f.prefix, a + (":" + b));
    } else {
      EmptyIsNeutral(a);
      AfterPrefix(f.prefix, a);
    }
  }

  function Joined(parts: seq<string>, mark: char): string
    requires parts != []
  {
    if |parts| == 1 then parts[0] else parts[0] + ([mark] + Joined(parts[1..], mark))
  }

  lemma JoinedHead(x: char, rest: seq<string>, mark: char)
    requires rest != []
    ensures Joined([[x] + rest[0]] + rest[1..], mark) == [x] + Joined(rest, mark)
  {
    var parts := [[x] + rest[0]] + rest[1..];
    assert parts[1..] == rest[1..];
    if |rest| > 1 {
      Regroup([x], rest[0], [mark] + Joined(rest[1..], mark));
    }
  }

  lemma {:induction false} SplitJoins(s: string, mark: char)
    ensures Joined(SplitAt(s, mark), mark) == s
  {
    if s != "" {
      var rest := SplitAt(s[1..], mark);
      SplitJoins(s[1..], mark);
      assert s == [s[0]] + s[1..];
      if s[0] == mark {
        assert ([""] + rest)[1..] == rest;
      } else {
        hide SplitAt;
        JoinedHead(s[0], rest, mark);
      }
    }
  }

  /** And nothing else is read as a range. */
  lemma ReadRangeHasForm(text: string) returns (f: RangeForm)
    requires RectOf(text).Some?
    ensures text == RangeTextOf(f) && NamesRange(f, RectOf(text).value)
  {
    hide CellOf, TextOf, Names, SplitAt;
    var prefix := PrefixOf(text);
    var t := AfterSheet(text);
    var parts := SplitAt(t, ':');
    SplitJoins(t, ':');
    var first := ReadCellHasForm(parts[0]);
    if |parts| == 2 {
      var second := ReadCellHasForm(parts[1]);
      assert parts[1..] == [parts[1]];
      f := RangeForm(prefix, first, Some(second));
    } else {
      f := RangeForm(prefix, first, None);
      EmptyIsNeutral(parts[0]);
    }
  }
}
