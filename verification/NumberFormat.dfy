/**
  Rendering an already rounded decimal under a placeholder pattern: `0` always shows, `#` drops
  trailing zeros, `?` pads the last one with a space, and grouping sets commas by threes.
 */
module NumberFormat {
  import opened Numerals

  datatype Placeholder = Zero | Hash | Question

  datatype Pattern = Pattern(integerZeros: nat, integerPlaces: nat, decimals: seq<Placeholder>, grouping: bool)

  // ---- grouping ----

  /** The loop's own account: `right` digits follow the given ones. */
  function Marked(digits: string, right: nat): string {
    if digits == "" then ""
    else
      var last := |digits| - 1;
      Marked(digits[..last], right + 1) + (if last > 0 && (right + 1) % 3 == 0 then "," else "") + [digits[last]]
  }

  /** The rule: every three digits from the right. */
  function Grouped(digits: string): string {
    if |digits| <= 3 then digits else Grouped(digits[..|digits| - 3]) + "," + digits[|digits| - 3..]
  }

  lemma {:induction false} MarkingRepeats(digits: string, right: nat)
    ensures Marked(digits, right + 3) == Marked(digits, right)
  {
    if digits != "" {
      MarkingRepeats(digits[..|digits| - 1], right + 1);
      assert (right + 3 + 1) % 3 == (right + 1) % 3;
    }
  }

  lemma MarkedSnoc(front: string, x: char, right: nat)
    ensures Marked(front + [x], right)
      == Marked(front, right + 1) + (if front != "" && (right + 1) % 3 == 0 then "," else "") + [x]
  {
    assert (front + [x])[..|front|] == front;
  }

  lemma LastThree(front: string, x: char, y: char, z: char)
    ensures Marked(front + [x] + [y] + [z], 0) == Marked(front, 0) + (if front != "" then "," else "") + [x, y, z]
  {
    hide Marked;
    MarkedSnoc(front + [x] + [y], z, 0);
    MarkedSnoc(front + [x], y, 1);
    MarkedSnoc(front, x, 2);
    MarkingRepeats(front, 0);
  }

  lemma GroupedUnfolds(digits: string)
    ensures |digits| <= 3 ==> Grouped(digits) == digits
    ensures |digits| > 3 ==>
      Grouped(digits) == Grouped(digits[..|digits| - 3]) + "," + digits[|digits| - 3..]
  {
  }

  lemma ThreeFromTheEnd(digits: string)
    requires |digits| >= 3
    ensures
      var n := |digits|;
      && digits == digits[..n - 3] + [digits[n - 3]] + [digits[n - 2]] + [digits[n - 1]]
      && digits[n - 3..] == [digits[n - 3], digits[n - 2], digits[n - 1]]
  {
  }

  lemma {:induction false} MarkingGroups(digits: string)
    ensures Marked(digits, 0) == Grouped(digits)
  {
    hide Marked, Grouped;
    var n := |digits|;
    GroupedUnfolds(digits);
    if n <= 3 {
      FewMarks(digits, 0);
    } else {
      var front := digits[..n - 3];
      ThreeFromTheEnd(digits);
      MarkingGroups(front);
      LastThree(front, digits[n - 3], digits[n - 2], digits[n - 1]);
    }
  }

  lemma {:induction false} FewMarks(digits: string, right: nat)
    requires |digits| + right <= 3
    ensures Marked(digits, right) == digits
  {
    if digits != "" {
      FewMarks(digits[..|digits| - 1], right + 1);
    }
  }

  function NoCommas(s: string): string {
    if s == "" then ""
    else NoCommas(s[..|s| - 1]) + (if s[|s| - 1] == ',' then "" else [s[|s| - 1]])
  }

  lemma {:induction false} NoCommasConcat(a: string, b: string)
    ensures NoCommas(a + b) == NoCommas(a) + NoCommas(b)
  {
    if b == "" {
      assert a + b == a;
    } else {
      NoCommasConcat(a, b[..|b| - 1]);
      assert (a + b)[..|a + b| - 1] == a + b[..|b| - 1];
    }
  }

  lemma {:induction false} DigitsHaveNoCommas(s: string)
    requires AllDigits(s)
    ensures NoCommas(s) == s
  {
    if s != "" {
      DigitsHaveNoCommas(s[..|s| - 1]);
    }
  }

  lemma CommaAlone()
    ensures NoCommas(",") == ""
  {
  }

  /** Taking the commas out gives the digits back. */
  lemma {:induction false} GroupingLosesNothing(digits: string)
    requires AllDigits(digits)
    ensures NoCommas(Grouped(digits)) == digits
  {
    DigitsHaveNoCommas(digits);
    if |digits| > 3 {
      hide Grouped, NoCommas;
      var front, tail := digits[..|digits| - 3], digits[|digits| - 3..];
      GroupedUnfolds(digits);
      DigitsSplit(digits, |digits| - 3);
      CommaAlone();
      GroupingLosesNothing(front);
      DigitsHaveNoCommas(tail);
      NoCommasConcat(Grouped(front) + ",", tail);
      NoCommasConcat(Grouped(front), ",");
    }
  }

  lemma GroupedKeepsSome(digits: string)
    ensures digits != "" ==> Grouped(digits) != ""
  {
  }

  predicate ByFours(n: nat) {
    n % 4 == 0
  }

  lemma FourMore(n: nat)
    ensures ByFours(n + 4) <==> ByFours(n)
    ensures n < 4 ==> (ByFours(n) <==> n == 0)
  {
  }

  lemma CommaThenThree(g: string, tail: string, k: nat)
    requires |tail| == 3 && AllDigits(tail) && k < |g| + 4
    ensures
      var whole := g + "," + tail;
      && |whole| == |g| + 4
      && (k < |g| ==> whole[k] == g[k]) && (k == |g| ==> whole[k] == ',') && (k > |g| ==> whole[k] != ',')
  {
  }

  lemma DigitsSplit(s: string, n: nat)
    requires AllDigits(s) && n <= |s|
    ensures AllDigits(s[..n]) && AllDigits(s[n..])
  {
  }

  lemma DigitIsNoComma(s: string, k: nat)
    requires AllDigits(s) && k < |s|
    ensures s[k] != ','
  {
  }

  /** A comma stands exactly before each third digit from the right, never first. */
  lemma {:induction false} CommasByThrees(digits: string, k: nat)
    requires AllDigits(digits) && k < |Grouped(digits)|
    ensures Grouped(digits)[k] == ',' <==> k > 0 && ByFours(|Grouped(digits)| - k)
  {
    hide ByFours, Grouped, AllDigits;
    GroupedUnfolds(digits);
    if |digits| > 3 {
      var front, tail := digits[..|digits| - 3], digits[|digits| - 3..];
      DigitsSplit(digits, |digits| - 3);
      GroupedKeepsSome(front);
      var n := |Grouped(front)|;
      CommaThenThree(Grouped(front), tail, k);
      if k < n {
        CommasByThrees(front, k);
        FourMore(n - k);
      } else if k == n {
        FourMore(0);
      } else {
        FourMore(n + 4 - k);
      }
    } else {
      DigitIsNoComma(digits, k);
      FourMore(|digits| - k);
    }
  }

  method GroupThousands(digits: string) returns (out: string)
    ensures out == Grouped(digits)
  {
    out := "";
    for index := 0 to |digits|
      invariant out == Marked(digits[..index], |digits| - index)
    {
      assert digits[..index + 1][..index] == digits[..index];
      if index > 0 && (|digits| - index) % 3 == 0 {
        out := out + ",";
      }
      out := out + [digits[index]];
    }
    assert digits[..|digits|] == digits;
    MarkingGroups(digits);
  }

  // ---- what a rendering denotes ----

  function Read(s: string): (r: string)
    ensures |r| == |s|
  {
    seq(|s|, i requires 0 <= i < |s| => if s[i] == ' ' then '0' else s[i])
  }

  predicate Shown(s: string) {
    forall i | 0 <= i < |s| :: IsDigit(s[i]) || s[i] == ' '
  }

  /** The decimals shown, spaces read as zeros and missing places filled. */
  function Filled(decimal: string, places: nat): (s: string)
    requires |decimal| <= places && Shown(decimal)
    ensures |s| == places && AllDigits(s)
  {
    Read(decimal) + Zeros(places - |decimal|)
  }

  /** Read as one row of digits, the two texts are the number of units of the last place. */
  ghost predicate Denotes(integer: string, decimal: string, units: nat, places: nat) {
    && AllDigits(NoCommas(integer)) && Shown(decimal) && |decimal| <= places
    && DecimalValue(NoCommas(integer) + Filled(decimal, places)) == units
  }

  function TrimZeros(s: string): string {
    if s != "" && s[0] == '0' then TrimZeros(s[1..]) else s
  }

  lemma {:induction false} TrimKeepsValue(s: string)
    requires AllDigits(s)
    ensures AllDigits(TrimZeros(s)) && DecimalValue(TrimZeros(s)) == DecimalValue(s)
  {
    if s != "" && s[0] == '0' {
      TrimKeepsValue(s[1..]);
      LeadingZeros(1, s[1..]);
      assert s == Zeros(1) + s[1..];
    }
  }

  lemma {:induction false} HeadCounts(s: string)
    requires AllDigits(s) && s != "" && s[0] != '0'
    ensures DecimalValue(s) > 0
  {
    if |s| > 1 {
      HeadCounts(s[..|s| - 1]);
    }
  }

  lemma TrimmedIsZero(s: string)
    requires AllDigits(s)
    ensures TrimZeros(s) == "" <==> DecimalValue(s) == 0
  {
    TrimKeepsValue(s);
    TrimmedHead(s);
    if TrimZeros(s) != "" {
      HeadCounts(TrimZeros(s));
    }
  }

  /** A zero integer part is shown where a digit is required, and where nothing else would be shown. */
  predicate ShowsZero(pattern: Pattern) {
    pattern.integerZeros > 0 || (pattern.integerPlaces > 0 && pattern.decimals == [])
  }

  /** Integer digits before grouping. */
  method IntegerDigits(raw: string, pattern: Pattern) returns (integer: string)
    requires AllDigits(raw)
    ensures AllDigits(integer) && DecimalValue(integer) == DecimalValue(raw)
    ensures |integer| >= pattern.integerZeros
    ensures |integer| > pattern.integerZeros && integer != "0" ==> integer[0] != '0'
    ensures integer == "" <==> DecimalValue(raw) == 0 && !ShowsZero(pattern)
  {
    integer := TrimZeros(raw);
    TrimKeepsValue(raw);
    TrimmedIsZero(raw);
    TrimmedHead(raw);
    if |integer| < pattern.integerZeros {
      LeadingZeros(pattern.integerZeros - |integer|, integer);
      integer := Zeros(pattern.integerZeros - |integer|) + integer;
    }
    if integer == "" && pattern.integerZeros == 0 && pattern.integerPlaces > 0 {
      if |pattern.decimals| == 0 {
        integer := "0";
        assert DecimalValue("0") == 0 by {
          LeadingZeros(1, "");
          assert Zeros(1) + "" == "0";
        }
      }
    }
  }

  lemma {:induction false} TrimmedHead(s: string)
    ensures TrimZeros(s) != "" ==> TrimZeros(s)[0] != '0'
  {
    if s != "" && s[0] == '0' {
      TrimmedHead(s[1..]);
    }
  }

  /**
    What is left of the decimals. Every place is shown or is a zero that is not required. Zeros go from
    the end: a `#` drops its zero and all behind it, a `?` blanks its zero if that is the last place
    shown; so no shown text ends in a zero that could go, and nothing is dropped past a blank that stays.
   */
  predicate Trimmed(decimal: string, raw: string, tokens: seq<Placeholder>)
    requires |raw| == |tokens|
  {
    && |decimal| <= |raw| && Shown(decimal) && Filled(decimal, |raw|) == raw
    && (forall k | 0 <= k < |decimal| && decimal[k] == ' ' :: tokens[k].Question? && k == |decimal| - 1)
    && (forall k | |decimal| <= k < |raw| ::
         !tokens[k].Zero? && (tokens[k].Question? ==> k > |decimal| && tokens[k - 1].Hash?))
    && (decimal != "" ==>
          var last := |decimal| - 1;
          && (decimal[last] == '0' ==> tokens[last].Zero?)
          && (decimal[last] == ' ' && last > 0 && decimal[last - 1] == '0' ==> !tokens[last - 1].Hash?))
  }

  lemma FilledAt(decimal: string, raw: string, k: nat)
    requires |decimal| <= |raw| && Shown(decimal) && Filled(decimal, |raw|) == raw && k < |raw|
    ensures raw[k] == if k < |decimal| && decimal[k] != ' ' then decimal[k] else '0'
  {
    assert Filled(decimal, |raw|)[k] == raw[k];
  }

  lemma ShorterIsNotTrimmed(a: string, b: string, raw: string, tokens: seq<Placeholder>)
    requires |raw| == |tokens| && Trimmed(a, raw, tokens) && Trimmed(b, raw, tokens)
    ensures |a| >= |b|
  {
    hide Filled;
    if |a| < |b| {
      var last := |b| - 1;
      FilledAt(a, raw, last);
      FilledAt(b, raw, last);
      assert tokens[last].Question? && last > |a| && tokens[last - 1].Hash?;
      FilledAt(a, raw, last - 1);
      FilledAt(b, raw, last - 1);
    }
  }

  /** The digits and the placeholders determine what is shown. */
  lemma TrimmedIsDetermined(a: string, b: string, raw: string, tokens: seq<Placeholder>)
    requires |raw| == |tokens| && Trimmed(a, raw, tokens) && Trimmed(b, raw, tokens)
    ensures a == b
  {
    ShorterIsNotTrimmed(a, b, raw, tokens);
    ShorterIsNotTrimmed(b, a, raw, tokens);
    forall k | 0 <= k < |a| ensures a[k] == b[k] {
      FilledAt(a, raw, k);
      FilledAt(b, raw, k);
    }
  }

  /** Drops and pads trailing zeros as the placeholders allow. */
  method TrailingPlaces(raw: string, tokens: seq<Placeholder>) returns (decimal: string)
    requires AllDigits(raw) && |raw| == |tokens|
    ensures Trimmed(decimal, raw, tokens)
  {
    decimal := raw;
    var index := |tokens|;
    while index > 0
      invariant 0 <= index <= |raw| && index <= |decimal| <= |raw| && Shown(decimal)
      invariant forall k | 0 <= k < |decimal| :: decimal[k] == raw[k] || decimal[k] == ' '
      invariant forall k | 0 <= k < |decimal| && decimal[k] == ' ' ::
        k == |decimal| - 1 && k >= index && tokens[k].Question?
      invariant forall k | index <= k < |raw| :: raw[k] == '0' && !tokens[k].Zero?
      invariant forall k | |decimal| <= k < |raw| && tokens[k].Question? :: k > |decimal| && tokens[k - 1].Hash?
      invariant |decimal| == index || (|decimal| == index + 1 && decimal[index] == ' ')
    {
      var k := index - 1;
      if tokens[k].Hash? && decimal[k] == '0' {
        decimal := decimal[..k];
      } else if tokens[k].Question? && decimal[k] == '0' {
        if index == |decimal| {
          decimal := decimal[k := ' '];
        } else {
          break;
        }
      } else {
        break;
      }
      index := k;
    }
    assert forall k | 0 <= k < |raw| :: Filled(decimal, |raw|)[k] == raw[k];
  }

  lemma DivisionLeaves(n: nat, d: nat)
    requires d > 0
    ensures (n / d) * d + n % d == n && 0 <= n % d < d && n / d >= 0
  {
  }

  /**
    What a rendering is. Whatever the placeholders, the text denotes exactly the decimal it was made
    from; every place marked `0` is shown, and no other leading zero is, except for the zero of a whole
    number that has an integer place and nothing else to show; the decimals are trimmed.
   */
  ghost predicate IsRendering(integer: string, decimal: string, units: nat, pattern: Pattern) {
    var digits, places := NoCommas(integer), |pattern.decimals|;
    && Denotes(integer, decimal, units, places)
    && |digits| >= pattern.integerZeros
    && (|digits| > pattern.integerZeros && digits != "0" ==> digits[0] != '0')
    && (digits == "" <==> DecimalValue(digits) == 0 && !ShowsZero(pattern))
    && integer == (if pattern.grouping then Grouped(digits) else digits)
    && Trimmed(decimal, Filled(decimal, places), pattern.decimals)
  }

  method RenderFixed(units: nat, pattern: Pattern) returns (integer: string, decimal: string)
    ensures IsRendering(integer, decimal, units, pattern)
  {
    hide DecimalText, DecimalValue, LowDigits, Grouped, NoCommas, Filled, Trimmed, ShowsZero;
    var places := |pattern.decimals|;
    DivisionLeaves(units, Pow10(places));
    var integerRaw, decimalRaw := DecimalText(units / Pow10(places)), LowDigits(units % Pow10(places), places);
    DecimalRoundTrip(units / Pow10(places));
    LowDigitsValue(units % Pow10(places), places);
    var digits := IntegerDigits(integerRaw, pattern);
    DigitsHaveNoCommas(digits);
    GroupingLosesNothing(digits);
    integer := digits;
    if pattern.grouping {
      integer := GroupThousands(digits);
    }
    decimal := TrailingPlaces(decimalRaw, pattern.decimals);
    TrimmedIsShown(decimal, decimalRaw, pattern.decimals);
    ValueOfConcat(digits, decimalRaw);
  }

  lemma TrimmedIsShown(decimal: string, raw: string, tokens: seq<Placeholder>)
    requires |raw| == |tokens| && Trimmed(decimal, raw, tokens)
    ensures |decimal| <= |raw| && Shown(decimal) && Filled(decimal, |raw|) == raw
  {
  }

  // ---- a rendering is determined ----

  lemma {:induction false} ValueIsBelow(s: string)
    requires AllDigits(s)
    ensures DecimalValue(s) < Pow10(|s|)
  {
    if s != "" {
      ValueIsBelow(s[..|s| - 1]);
    }
  }

  lemma ValueSplits(s: string)
    requires AllDigits(s) && s != ""
    ensures AllDigits(s[..|s| - 1]) && IsDigit(s[|s| - 1])
    ensures DecimalValue(s) == DecimalValue(s[..|s| - 1]) * 10 + DigitValue(s[|s| - 1])
  {
  }

  lemma SameEnds(a: string, b: string)
    requires |a| == |b| > 0 && a[..|a| - 1] == b[..|b| - 1] && a[|a| - 1] == b[|b| - 1]
    ensures a == b
  {
    assert a == a[..|a| - 1] + [a[|a| - 1]] && b == b[..|b| - 1] + [b[|b| - 1]];
  }

  lemma {:induction false} SameLengthSameValue(a: string, b: string)
    requires AllDigits(a) && AllDigits(b) && |a| == |b| && DecimalValue(a) == DecimalValue(b)
    ensures a == b
  {
    hide AllDigits, DecimalValue;
    if a != "" {
      var last := |a| - 1;
      ValueSplits(a);
      ValueSplits(b);
      SameLengthSameValue(a[..last], b[..last]);
      SameEnds(a, b);
    }
  }

  lemma {:induction false} HeadWeighs(s: string)
    requires AllDigits(s) && s != "" && s[0] != '0'
    ensures DecimalValue(s) >= Pow10(|s| - 1)
  {
    if |s| > 1 {
      HeadWeighs(s[..|s| - 1]);
    }
  }

  lemma {:induction false} PowersGrow(m: nat, n: nat)
    requires m <= n
    ensures Pow10(m) <= Pow10(n)
  {
    if m < n {
      PowersGrow(m, n - 1);
    }
  }

  /** The shown integer digits of two renderings have one length. */
  lemma LongerIsLarger(a: string, b: string, pattern: Pattern)
    requires AllDigits(a) && AllDigits(b) && DecimalValue(a) == DecimalValue(b)
    requires |a| >= pattern.integerZeros
    requires |b| > pattern.integerZeros && b != "0" ==> b[0] != '0'
    requires (a == "" <==> DecimalValue(a) == 0 && !ShowsZero(pattern))
      && (b == "" <==> DecimalValue(b) == 0 && !ShowsZero(pattern))
    ensures |a| >= |b|
  {
    hide DecimalValue, Pow10;
    if |a| < |b| && b != "0" {
      ValueIsBelow(a);
      HeadWeighs(b);
      PowersGrow(|a|, |b| - 1);
      assert false;
    }
  }

  /** Two readings of one row of digits, split at the same place from its end, agree on both sides. */
  lemma SplitIsUnique(a: string, x: string, b: string, y: string)
    requires AllDigits(a) && AllDigits(b) && AllDigits(x) && AllDigits(y) && |x| == |y|
    requires DecimalValue(a + x) == DecimalValue(b + y)
    ensures DecimalValue(a) == DecimalValue(b) && DecimalValue(x) == DecimalValue(y)
  {
    ValueOfConcat(a, x);
    ValueOfConcat(b, y);
    ValueIsBelow(x);
    ValueIsBelow(y);
    QuotientIsUnique(DecimalValue(a), DecimalValue(x), DecimalValue(b), DecimalValue(y), Pow10(|x|));
  }

  lemma ProductsGrow(m: nat, n: nat, d: nat)
    ensures m <= n ==> m * d <= n * d
  {
  }

  lemma QuotientIsUnique(a: nat, x: nat, b: nat, y: nat, d: nat)
    requires x < d && y < d && a * d + x == b * d + y
    ensures a == b && x == y
  {
    ProductsGrow(a + 1, b, d);
    ProductsGrow(b + 1, a, d);
  }

  /** There is one rendering of each decimal under each pattern. */
  lemma RenderingIsDetermined(
    integer: string, decimal: string, integer': string, decimal': string, units: nat, pattern: Pattern)
    requires IsRendering(integer, decimal, units, pattern) && IsRendering(integer', decimal', units, pattern)
    ensures integer == integer' && decimal == decimal'
  {
    var places := |pattern.decimals|;
    var a, b, x, y := NoCommas(integer), NoCommas(integer'), Filled(decimal, places), Filled(decimal', places);
    hide DecimalValue, Trimmed, Filled, NoCommas, Grouped;
    SplitIsUnique(a, x, b, y);
    LongerIsLarger(a, b, pattern);
    LongerIsLarger(b, a, pattern);
    SameLengthSameValue(a, b);
    SameLengthSameValue(x, y);
    TrimmedIsDetermined(decimal, decimal', x, pattern.decimals);
  }
}
