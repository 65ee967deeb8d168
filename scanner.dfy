/** `strtofloat`: the first match of the pattern `-?\d+\.?\d*` in a CLI field,
    read as a decimal number, with a per-unit fallback when there is none. */
module Scanner {
  import opened Errors
  import opened Text

  // ---------------------------------------------------------------------------
  // The language of the pattern, stated declaratively

  /** `\d+\.?\d*`: a digit first, then digits and at most one '.'. */
  ghost predicate IsUnsignedNumeral(u: string) {
    && |u| > 0
    && IsDigit(u[0])
    && (forall j :: 0 <= j < |u| ==> IsDigit(u[j]) || u[j] == '.')
    && (forall j, l :: 0 <= j < l < |u| && u[j] == '.' ==> u[l] != '.')
  }

  /** `-?\d+\.?\d*`. */
  ghost predicate IsNumeral(t: string) {
    IsUnsignedNumeral(t) || (|t| > 0 && t[0] == '-' && IsUnsignedNumeral(t[1..]))
  }

  // ---------------------------------------------------------------------------
  // The scanner

  /** A match of the pattern can begin at `i`: a digit, or a '-' directly
      followed by a digit. */
  predicate CanStartAt(s: string, i: nat)
    requires i < |s|
  {
    IsDigit(s[i]) || (s[i] == '-' && i + 1 < |s| && IsDigit(s[i + 1]))
  }

  /** The leftmost position at or after `i` where a match can begin. */
  function FirstStart(s: string, i: nat): (r: Option<nat>)
    requires i <= |s|
    ensures r.Some? ==> i <= r.value < |s| && CanStartAt(s, r.value)
    ensures r.Some? ==> forall j :: i <= j < r.value ==> !CanStartAt(s, j)
    ensures r.None? ==> forall j :: i <= j < |s| ==> !CanStartAt(s, j)
    decreases |s| - i
  {
    if i == |s| then None
    else if CanStartAt(s, i) then Some(i)
    else FirstStart(s, i + 1)
  }

  /** The end of the run of digits starting at `i` (a greedy `\d*`). */
  function DigitsEnd(s: string, i: nat): (k: nat)
    requires i <= |s|
    ensures i <= k <= |s|
    ensures forall j :: i <= j < k ==> IsDigit(s[j])
    ensures k < |s| ==> !IsDigit(s[k])
    decreases |s| - i
  {
    if i < |s| && IsDigit(s[i]) then DigitsEnd(s, i + 1) else i
  }

  /** The end of the greedy match that begins at `start`. */
  function MatchEnd(s: string, start: nat): (e: nat)
    requires start < |s| && CanStartAt(s, start)
    ensures start < e <= |s|
  {
    var k := DigitsEnd(s, if s[start] == '-' then start + 1 else start);
    if k < |s| && s[k] == '.' then DigitsEnd(s, k + 1) else k
  }

  /** Where a match lies in the text: `s[start..end]`. */
  datatype Span = Span(start: nat, end: nat)

  /** `re.findall('-?\d+\.?\d*', s)[0]`, as a span, or `None` when the
      pattern does not occur. A match exists exactly when `s` has a digit. */
  function FindNumber(s: string): (r: Option<Span>)
    ensures r.Some? ==> r.value.start < r.value.end <= |s|
    ensures r.None? <==> forall i :: 0 <= i < |s| ==> !IsDigit(s[i])
  {
    var first := FirstStart(s, 0);
    assert first.None? ==> forall i :: 0 <= i < |s| ==> !IsDigit(s[i]) by {
      if first.None? {
        forall i | 0 <= i < |s| ensures !IsDigit(s[i]) {
          assert !CanStartAt(s, i);
        }
      }
    }
    assert first.Some? ==> IsDigit(s[first.value]) || IsDigit(s[first.value + 1]);
    match first
    case None => None
    case Some(start) => Some(Span(start, MatchEnd(s, start)))
  }

  lemma SpanIsNumeral(s: string, start: nat)
    requires start < |s| && CanStartAt(s, start)
    ensures IsNumeral(s[start..MatchEnd(s, start)])
  {
    var e := MatchEnd(s, start);
    var p := if s[start] == '-' then start + 1 else start;
    var k := DigitsEnd(s, p);
    var t := s[start..e];
    var u := s[p..e];
    assert IsDigit(s[p]);
    assert forall j :: 0 <= j < |u| ==> u[j] == s[p + j];
    assert forall j :: 0 <= j < |u| && p + j != k ==> IsDigit(u[j]);
    assert IsUnsignedNumeral(u);
    if s[start] == '-' {
      assert t[1..] == u;
    } else {
      assert t == u;
    }
  }

  lemma NoNumeralBefore(s: string, j: nat, k: nat)
    requires j < |s| && !CanStartAt(s, j) && j <= k <= |s|
    ensures !IsNumeral(s[j..k])
  {
    var t := s[j..k];
    if |t| > 0 {
      assert t[0] == s[j];
    }
    if |t| > 1 {
      assert t[1..][0] == s[j + 1];
    }
  }

  lemma NoLongerNumeral(s: string, start: nat, k: nat)
    requires start < |s| && CanStartAt(s, start)
    requires MatchEnd(s, start) < k <= |s|
    ensures !IsNumeral(s[start..k])
  {
    var e := MatchEnd(s, start);
    var p := if s[start] == '-' then start + 1 else start;
    var d := DigitsEnd(s, p);
    var u := s[p..k];
    assert IsDigit(s[p]);
    // The character that ends the match cannot extend a numeral.
    assert u[e - p] == s[e];
    assert !IsDigit(s[e]);
    if s[e] == '.' {
      assert d < |s| && s[d] == '.' && d < e;
      assert u[d - p] == '.';
      assert !IsUnsignedNumeral(u);
    } else {
      assert !IsUnsignedNumeral(u);
    }
    var t := s[start..k];
    if s[start] == '-' {
      assert t[1..] == u;
      assert !IsDigit(t[0]);
    } else {
      assert t == u;
    }
  }

  /** The span `FindNumber` reports is the match Python's regular-expression
      engine finds: the text there is in the pattern's language, no match
      begins further left, and the match cannot be extended to the right
      (greedy and longest coincide for this pattern). With no span, the
      pattern occurs nowhere in the text. */
  lemma FindNumberIsLeftmostLongest(s: string)
    ensures FindNumber(s).None? ==>
      forall j, k :: 0 <= j <= k <= |s| ==> !IsNumeral(s[j..k])
    ensures FindNumber(s).Some? ==>
      var sp := FindNumber(s).value;
      && IsNumeral(s[sp.start..sp.end])
      && (forall j, k :: 0 <= j < sp.start && j <= k <= |s| ==> !IsNumeral(s[j..k]))
      && (forall k :: sp.end < k <= |s| ==> !IsNumeral(s[sp.start..k]))
  {
    match FirstStart(s, 0)
    case None =>
      forall j, k | 0 <= j <= k <= |s| ensures !IsNumeral(s[j..k]) {
        if j < |s| {
          NoNumeralBefore(s, j, k);
        } else {
          assert s[j..k] == [];
        }
      }
    case Some(start) =>
      SpanIsNumeral(s, start);
      forall j, k | 0 <= j < start && j <= k <= |s| ensures !IsNumeral(s[j..k]) {
        NoNumeralBefore(s, j, k);
      }
      forall k | MatchEnd(s, start) < k <= |s| ensures !IsNumeral(s[start..k]) {
        NoLongerNumeral(s, start, k);
      }
  }

  // ---------------------------------------------------------------------------
  // The value of a numeral: Python's float() of the token, as an exact real

  function DigitValue(c: char): nat {
    if IsDigit(c) then c as int - '0' as int else 0
  }

  /** The value of a string of decimal digits; 0 for the empty string. */
  function DigitsValue(d: string): nat
    decreases |d|
  {
    if |d| == 0 then 0 else DigitsValue(d[..|d| - 1]) * 10 + DigitValue(d[|d| - 1])
  }

  function Ten(n: nat): (r: nat)
    ensures r > 0
  {
    if n == 0 then 1 else 10 * Ten(n - 1)
  }

  /** The integer digits of an unsigned numeral (before any '.'). */
  function IntegerDigits(u: string): string {
    u[..DigitsEnd(u, 0)]
  }

  /** The fraction digits of an unsigned numeral (after the '.', if any). */
  function FractionDigits(u: string): string {
    var k := DigitsEnd(u, 0);
    if k < |u| then u[k + 1..] else []
  }

  function UnsignedValue(u: string): real {
    var f := FractionDigits(u);
    DigitsValue(IntegerDigits(u)) as real + DigitsValue(f) as real / Ten(|f|) as real
  }

  /** The value `float(token)`: a leading '-' negates. */
  function NumeralValue(t: string): (v: real)
    ensures |t| > 0 && t[0] == '-' ==> v <= 0.0
    ensures !(|t| > 0 && t[0] == '-') ==> v >= 0.0
  {
    if |t| > 0 && t[0] == '-' then
      UnsignedValueBounds(t[1..]);
      -UnsignedValue(t[1..])
    else
      UnsignedValueBounds(t);
      UnsignedValue(t)
  }

  lemma {:induction false} DigitsValueBelowTen(d: string)
    ensures DigitsValue(d) < Ten(|d|)
    decreases |d|
  {
    if |d| > 0 {
      DigitsValueBelowTen(d[..|d| - 1]);
    }
  }

  /** The integer digits of a numeral give its integer part: the fraction
      digits add a non-negative amount below one. */
  lemma UnsignedValueBounds(u: string)
    ensures DigitsValue(IntegerDigits(u)) as real <= UnsignedValue(u)
    ensures UnsignedValue(u) < DigitsValue(IntegerDigits(u)) as real + 1.0
  {
    var f := FractionDigits(u);
    DigitsValueBelowTen(f);
    FractionBelowOne(DigitsValue(f) as real, Ten(|f|) as real);
  }

  lemma FractionBelowOne(n: real, t: real)
    requires 0.0 <= n < t
    ensures 0.0 <= n / t < 1.0
  {
    assert n / t * t == n;
  }

  // ---------------------------------------------------------------------------
  // strtofloat

  /** The units a device reports readings in, as the device table spells them. */
  const Milliwatt: string := "mW"
  const Dbm: string := "dBm"

  /** `strtofloat(string, units)`: the value of the first match; with no
      match, 0 for mW and -40 for dBm; with no match and any other unit,
      `value` is read before it is assigned. */
  function StrToFloat(s: string, units: string): (r: Result<real>)
    ensures r.Err? <==>
      (forall i :: 0 <= i < |s| ==> !IsDigit(s[i])) && units != Milliwatt && units != Dbm
    ensures r.Err? ==> r.error == UnboundLocalError("value")
    ensures (forall i :: 0 <= i < |s| ==> !IsDigit(s[i])) && units == Milliwatt ==> r == Ok(0.0)
    ensures (forall i :: 0 <= i < |s| ==> !IsDigit(s[i])) && units == Dbm ==> r == Ok(-40.0)
  {
    match FindNumber(s)
    case Some(sp) => Ok(NumeralValue(s[sp.start..sp.end]))
    case None =>
      if units == Milliwatt then Ok(0.0)
      else if units == Dbm then Ok(-40.0)
      else Err(UnboundLocalError("value"))
  }

  /** With a match, the unit plays no part in the result. */
  lemma StrToFloatIgnoresUnitsOnMatch(s: string, units1: string, units2: string)
    requires exists i :: 0 <= i < |s| && IsDigit(s[i])
    ensures StrToFloat(s, units1) == StrToFloat(s, units2)
    ensures StrToFloat(s, units1).Ok?
  {
  }

  /** The scan for a start stops at the first position where one can begin. */
  lemma FirstStartIs(s: string, i: nat, k: nat)
    requires i <= k < |s| && CanStartAt(s, k)
    requires forall j :: i <= j < k ==> !CanStartAt(s, j)
    ensures FirstStart(s, i) == Some(k)
  {
  }

  lemma FirstNumberSpan()
    ensures FindNumber("Temp: 25 Voltage: -3.14") == Some(Span(6, 8))
  {
    var s := "Temp: 25 Voltage: -3.14";
    assert s[6] == '2' && s[7] == '5' && s[8] == ' ';
    assert forall j :: 0 <= j < 6 ==> !CanStartAt(s, j) by {
      assert s[..6] == "Temp: ";
      forall j | 0 <= j < 6 ensures !CanStartAt(s, j) {
        assert s[j] == s[..6][j];
      }
    }
    FirstStartIs(s, 0, 6);
    assert DigitsEnd(s, 8) == 8;
    assert DigitsEnd(s, 6) == 8;
  }

  /** With a digit in the text, `strtofloat` is the value of the leftmost
      numeral that cannot be extended to the right, whatever the unit. */
  lemma StrToFloatOfFirstNumeral(s: string, units: string)
    requires exists i :: 0 <= i < |s| && IsDigit(s[i])
    ensures exists j, k ::
              && 0 <= j < k <= |s|
              && IsNumeral(s[j..k])
              && (forall j', k' :: 0 <= j' < j && j' <= k' <= |s| ==> !IsNumeral(s[j'..k']))
              && (forall k' :: k < k' <= |s| ==> !IsNumeral(s[j..k']))
              && StrToFloat(s, units) == Ok(NumeralValue(s[j..k]))
  {
    FindNumberIsLeftmostLongest(s);
    var sp := FindNumber(s).value;
    assert StrToFloat(s, units) == Ok(NumeralValue(s[sp.start..sp.end]));
  }

  /** Worked example: the first number in the text wins. */
  lemma FirstNumberWins()
    ensures StrToFloat("Temp: 25 Voltage: -3.14", Milliwatt) == Ok(25.0)
  {
    var s := "Temp: 25 Voltage: -3.14";
    FirstNumberSpan();
    assert s[6..8] == "25";
    NumeralValueOfTwentyFive();
  }

  lemma NumeralValueOfTwentyFive()
    ensures NumeralValue("25") == 25.0
  {
    assert DigitsEnd("25", 0) == 2;
    assert "25"[..2] == "25";
  }

  /** Worked example: a '-' belongs to a match only when a digit follows it. */
  lemma MinusNeedsDigit()
    ensures StrToFloat("a--5", Dbm) == Ok(-5.0)
  {
    var s := "a--5";
    assert FirstStart(s, 0) == Some(2);
    assert MatchEnd(s, 2) == 4;
    assert s[2..4] == "-5";
    assert "-5"[1..] == "5";
    assert DigitsEnd("5", 0) == 1;
    assert "5"[..1] == "5";
  }

  /** Worked example: a second '.' ends the match. */
  lemma SecondDotEndsMatch()
    ensures StrToFloat("1.2.3", Milliwatt) == Ok(1.2)
  {
    var s := "1.2.3";
    assert FirstStart(s, 0) == Some(0);
    assert DigitsEnd(s, 0) == 1;
    assert DigitsEnd(s, 2) == 3;
    assert MatchEnd(s, 0) == 3;
    assert s[0..3] == "1.2";
    assert DigitsEnd("1.2", 0) == 1;
    assert "1.2"[..1] == "1" && "1.2"[2..] == "2";
  }

  /** Worked example: a negative reading with a fraction. */
  lemma NegativeFraction()
    ensures StrToFloat("-3.14", Dbm) == Ok(-3.14)
  {
    var s := "-3.14";
    assert FirstStart(s, 0) == Some(0);
    assert DigitsEnd(s, 1) == 2;
    assert DigitsEnd(s, 3) == 5;
    assert MatchEnd(s, 0) == 5;
    assert s[0..5] == s;
    assert s[1..] == "3.14";
    assert DigitsEnd("3.14", 0) == 1;
    assert "3.14"[..1] == "3" && "3.14"[2..] == "14";
    assert DigitsValue("14") == 14;
  }

  /** Worked example: the sentinels when the field holds no number. */
  lemma NoNumberSentinels()
    ensures StrToFloat("no data", Milliwatt) == Ok(0.0)
    ensures StrToFloat("no data", Dbm) == Ok(-40.0)
    ensures StrToFloat("N/A", "W") == Err(UnboundLocalError("value"))
  {
    var s := "no data";
    assert forall i :: 0 <= i < |s| ==> !IsDigit(s[i]);
    var t := "N/A";
    assert !IsDigit(t[0]) && !IsDigit(t[1]) && !IsDigit(t[2]);
  }
}
