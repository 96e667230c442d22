/**
 * Others/GenerateDropDownOptions.py: the script that produces the values a
 * dropdown offers, evenly spaced from a minimum to a maximum and written to
 * a file as a JSON array (section 5 of RFC 8259). The script's floats are
 * exact reals here, and every value it keeps is a whole number of
 * thousandths, which is how the options are represented. "{:.3f}"
 * formatting rounds to the nearest thousandth, a tie going to the even one.
 */
module DropDownOptionsScript {
  import opened Wrappers
  import Numeric
  import Seqs
  import Text

  /** float("{:.3f}".format(x)) as a number of thousandths: the nearest one. */
  function Thousandths(x: real): (t: int)
    ensures Numeric.AbsReal(t as real - x * 1000.0) <= 0.5
  {
    Numeric.RoundHalfEven(x * 1000.0)
  }

  /** The length of the list: int((max - min) / increment) + 1, int truncating toward zero; range() of a count below 1 is empty. */
  function OptionCount(min: real, max: real, increment: real): nat
    requires increment != 0.0
  {
    var k := Numeric.Truncate((max - min) / increment) + 1;
    if k < 0 then 0 else k
  }

  /** The i-th option: min + i·increment, kept to three decimals. */
  function OptionAt(min: real, increment: real, i: nat): int
  {
    Thousandths(min + i as real * increment)
  }

  /**
   * generate_drop_down_options: a zero increment fails on the division
   * (ZeroDivisionError); otherwise the list holds OptionCount values, the
   * i-th being OptionAt(i).
   */
  method GenerateDropDownOptions(min: real, max: real, increment: real) returns (r: Result<seq<int>>)
    ensures increment == 0.0 <==> r == Throws(DivideByZero)
    ensures increment != 0.0 ==> r.Ok? && |r.value| == OptionCount(min, max, increment)
    ensures increment != 0.0 ==> forall i :: 0 <= i < |r.value| ==> r.value[i] == OptionAt(min, increment, i)
  {
    if increment == 0.0 {
      return Throws(DivideByZero);
    }
    var count := Numeric.Truncate((max - min) / increment) + 1;
    // range() of a count below 1 runs no iteration
    var n: nat := if count < 0 then 0 else count;
    var options: seq<int> := [];
    var i := 0;
    while i < n
      invariant 0 <= i <= n
      invariant |options| == i
      invariant forall k :: 0 <= k < i ==> options[k] == OptionAt(min, increment, k)
    {
      var value := min + i as real * increment;
      options := options + [Thousandths(value)];
      i := i + 1;
    }
    return Ok(options);
  }

  /** Rounding to the nearest whole number, ties to even, never reverses an order. */
  lemma RoundMonotone(x: real, y: real)
    requires x <= y
    ensures Numeric.RoundHalfEven(x) <= Numeric.RoundHalfEven(y)
  {
  }

  /** A whole number is its own rounding. */
  lemma RoundWhole(n: int)
    ensures Numeric.RoundHalfEven(n as real) == n
  {
    var r := Numeric.RoundHalfEven(n as real);
    assert Numeric.AbsReal(r as real - n as real) <= 0.5;
  }

  /** Options further along the line are never smaller, whatever the sign of the increment. */
  lemma OptionAtMonotone(min: real, increment: real, i: nat, j: nat)
    requires i as real * increment <= j as real * increment
    ensures OptionAt(min, increment, i) <= OptionAt(min, increment, j)
  {
    var x := min + i as real * increment;
    var y := min + j as real * increment;
    assert x * 1000.0 <= y * 1000.0;
    RoundMonotone(x * 1000.0, y * 1000.0);
  }

  /** With a positive increment the options never decrease. */
  lemma {:induction false} OptionsAscending(min: real, increment: real, i: nat, j: nat)
    requires increment > 0.0 && i <= j
    ensures OptionAt(min, increment, i) <= OptionAt(min, increment, j)
  {
    Numeric.MulMonotone(i as real, increment, j as real, increment);
    OptionAtMonotone(min, increment, i, j);
  }

  /**
   * When the minimum and the increment are whole thousandths, rounding
   * changes nothing: the i-th option is exactly min + i·increment, so the
   * list starts at the minimum and, for a positive increment, strictly
   * ascends.
   */
  lemma {:induction false} OptionsExact(minT: int, incrementT: int, i: nat)
    ensures OptionAt(minT as real / 1000.0, incrementT as real / 1000.0, i) == minT + i * incrementT
  {
    var x := minT as real / 1000.0 + i as real * (incrementT as real / 1000.0);
    assert x * 1000.0 == (minT + i * incrementT) as real;
    RoundWhole(minT + i * incrementT);
  }

  /** The script's own call, (0, 1, 0.005): 201 options, 0.000 to 1.000 in steps of 0.005. */
  lemma {:induction false} DefaultOptions()
    ensures OptionCount(0.0, 1.0, 0.005) == 201
    ensures forall i: nat :: i < 201 ==> OptionAt(0.0, 0.005, i) == 5 * i
    ensures OptionAt(0.0, 0.005, 0) == 0 && OptionAt(0.0, 0.005, 200) == 1000
  {
    assert (1.0 - 0.0) / 0.005 == 200.0;
    forall i: nat | i < 201
      ensures OptionAt(0.0, 0.005, i) == 5 * i
    {
      OptionsExact(0, 5, i);
      assert 0 as real / 1000.0 == 0.0 && 5 as real / 1000.0 == 0.005;
    }
  }

  /** The format rounds although the script's comment says it truncates: 0.0006 is kept as 0.001, not 0.000. */
  lemma FormatRounds()
    ensures Thousandths(0.0006) == 1
    ensures Numeric.Truncate(0.0006 * 1000.0) == 0
  {
    assert 0.0006 * 1000.0 == 0.6;
  }

  // ---------------------------------------------------------------------
  // json.dumps of the list: Python's repr of each float (the shortest text
  // that reads back as the same value, here at most three decimals and at
  // least one), separated by ", " inside brackets.
  // ---------------------------------------------------------------------

  /** The decimal digits of n, without leading zeros. */
  function DigitString(n: nat): (s: string)
    ensures |s| >= 1 && Text.AllDigits(s)
    ensures |s| == 1 || s[0] != '0'
  {
    if n < 10 then [Text.DigitChar(n)] else DigitString(n / 10) + [Text.DigitChar(n % 10)]
  }

  lemma {:induction false} DigitsRoundTrip(n: nat)
    ensures Text.DigitsValue(DigitString(n)) == n
  {
    if n >= 10 {
      DigitsRoundTrip(n / 10);
      var s := DigitString(n);
      assert s[..|s| - 1] == DigitString(n / 10);
    }
  }

  /** The digits after the point of a number of thousandths: one to three, with no trailing zero beyond the first. */
  function FractionText(f: nat): (s: string)
    requires f < 1000
    ensures 1 <= |s| <= 3 && Text.AllDigits(s)
  {
    if f % 100 == 0 then [Text.DigitChar(f / 100)]
    else if f % 10 == 0 then [Text.DigitChar(f / 100), Text.DigitChar(f / 10 % 10)]
    else [Text.DigitChar(f / 100), Text.DigitChar(f / 10 % 10), Text.DigitChar(f % 10)]
  }

  /** The thousandths that one to three digits after the point stand for. */
  function FractionValue(s: string): nat
    requires 1 <= |s| <= 3 && Text.AllDigits(s)
  {
    Text.DigitsValue(s) * (if |s| == 1 then 100 else if |s| == 2 then 10 else 1)
  }

  /** The value of one, two or three digits. */
  lemma ShortDigitsValue(s: string)
    requires 1 <= |s| <= 3 && Text.AllDigits(s)
    ensures |s| == 1 ==> Text.DigitsValue(s) == (s[0] as int) - ('0' as int)
    ensures |s| == 2 ==> Text.DigitsValue(s) == 10 * ((s[0] as int) - ('0' as int)) + ((s[1] as int) - ('0' as int))
    ensures |s| == 3 ==> Text.DigitsValue(s) == 100 * ((s[0] as int) - ('0' as int)) + 10 * ((s[1] as int) - ('0' as int)) + ((s[2] as int) - ('0' as int))
  {
    assert Text.DigitsValue(s[..0]) == 0;
    if |s| >= 2 {
      assert s[..1][..0] == s[..0];
      assert Text.DigitsValue(s[..1]) == (s[0] as int) - ('0' as int);
    }
    if |s| == 3 {
      assert s[..2][..1] == s[..1];
      assert s[..2][..0] == s[..0];
    }
  }

  lemma FractionRoundTrip(f: nat)
    requires f < 1000
    ensures FractionValue(FractionText(f)) == f
  {
    var s := FractionText(f);
    ShortDigitsValue(s);
    assert Text.DigitValue(s[0]) == f / 100;
    if f % 100 == 0 {
      assert FractionValue(s) == (f / 100) * 100;
    } else if f % 10 == 0 {
      assert Text.DigitValue(s[1]) == f / 10 % 10;
      assert FractionValue(s) == (10 * (f / 100) + f / 10 % 10) * 10;
    } else {
      assert Text.DigitValue(s[1]) == f / 10 % 10 && Text.DigitValue(s[2]) == f % 10;
      assert FractionValue(s) == 100 * (f / 100) + 10 * (f / 10 % 10) + f % 10;
    }
  }

  /** repr of a non-negative number of thousandths: the whole part, a point and the fraction digits. */
  function UnsignedText(a: nat): (s: string)
    ensures |s| >= 3 && ',' !in s && Text.IsDigit(s[0])
  {
    DigitString(a / 1000) + "." + FractionText(a % 1000)
  }

  /** repr of the float that a number of thousandths stands for. */
  function NumberText(t: int): (s: string)
    ensures |s| >= 3 && ',' !in s
  {
    (if t < 0 then "-" else "") + UnsignedText(Numeric.Abs(t))
  }

  /** The integer part, a point and one to three digits, as thousandths; the integer part is 0 or has no leading zero. */
  function ParseUnsigned(body: string): Option<nat>
  {
    var k := Seqs.IndexOf(body, '.');
    if k <= 0 then None
    else
      var whole, frac := body[..k], body[k + 1..];
      if !Text.AllDigits(whole) || !Text.AllDigits(frac) || !(1 <= |frac| <= 3) then None
      else if |whole| > 1 && whole[0] == '0' then None
      else Some(Text.DigitsValue(whole) * 1000 + FractionValue(frac))
  }

  /**
   * Reads a JSON number (section 6 of RFC 8259) without an exponent and
   * with one to three digits after the point, as thousandths: an optional
   * minus and the unsigned part. Anything else is None.
   */
  function ParseNumber(s: string): Option<int>
  {
    if |s| > 0 && s[0] == '-' then
      (match ParseUnsigned(s[1..]) case None => None case Some(v) => Some(-(v as int)))
    else
      (match ParseUnsigned(s) case None => None case Some(v) => Some(v))
  }

  lemma {:induction false} UnsignedRoundTrip(w: string, f: string)
    requires |w| >= 1 && Text.AllDigits(w) && (|w| == 1 || w[0] != '0')
    requires 1 <= |f| <= 3 && Text.AllDigits(f)
    ensures ParseUnsigned(w + "." + f) == Some(Text.DigitsValue(w) * 1000 + FractionValue(f))
  {
    var body := w + "." + f;
    assert body[|w|] == '.';
    assert body[..|w|] == w;
    assert '.' !in w by {
      forall i | 0 <= i < |w|
        ensures w[i] != '.'
      {
        assert Text.IsDigit(w[i]);
      }
    }
    assert Seqs.IndexOf(body, '.') == |w|;
    assert body[|w| + 1..] == f;
  }

  lemma {:induction false} UnsignedTextRoundTrip(a: nat)
    ensures ParseUnsigned(UnsignedText(a)) == Some(a)
  {
    var w, f := DigitString(a / 1000), FractionText(a % 1000);
    UnsignedRoundTrip(w, f);
    DigitsRoundTrip(a / 1000);
    FractionRoundTrip(a % 1000);
  }

  /** Every option's text reads back as the same number of thousandths. */
  lemma {:induction false} NumberRoundTrip(t: int)
    ensures ParseNumber(NumberText(t)) == Some(t)
  {
    var body := UnsignedText(Numeric.Abs(t));
    UnsignedTextRoundTrip(Numeric.Abs(t));
    var s := NumberText(t);
    if t < 0 {
      assert s == "-" + body;
      assert s[0] == '-' && s[1..] == body;
    } else {
      assert s == body;
    }
  }

  /** The elements of the array, separated by ", ". */
  function JoinTexts(ts: seq<int>): (s: string)
    ensures |ts| > 0 ==> |s| >= 3
  {
    if |ts| == 0 then ""
    else if |ts| == 1 then NumberText(ts[0])
    else NumberText(ts[0]) + ", " + JoinTexts(ts[1..])
  }

  /** json.dumps of the options: the array's opening and closing brackets around the elements. */
  function JsonArray(ts: seq<int>): (s: string)
    ensures |s| >= 2 && s[0] == '[' && s[|s| - 1] == ']'
  {
    "[" + JoinTexts(ts) + "]"
  }

  /** Reads elements separated by ", " (a value separator followed by the space json.dumps puts there). */
  function ParseValues(s: string): Option<seq<int>>
    decreases |s|
  {
    if s == "" then Some([])
    else
      var k := Seqs.IndexOf(s, ',');
      if k < 0 then
        (match ParseNumber(s) case None => None case Some(v) => Some([v]))
      else if k + 2 < |s| && s[k + 1] == ' ' then
        match ParseNumber(s[..k])
        case None => None
        case Some(v) =>
          match ParseValues(s[k + 2..])
          case None => None
          case Some(rest) => Some([v] + rest)
      else None
  }

  /** Reads a JSON array of such numbers. */
  function ParseJsonArray(s: string): Option<seq<int>>
  {
    if |s| >= 2 && s[0] == '[' && s[|s| - 1] == ']' then ParseValues(s[1..|s| - 1]) else None
  }

  /** The first comma of "n, rest" is the one after n when n has none. */
  lemma FirstComma(n: string, rest: string)
    requires ',' !in n
    ensures Seqs.IndexOf(n + ", " + rest, ',') == |n|
    ensures (n + ", " + rest)[..|n|] == n && (n + ", " + rest)[|n| + 2..] == rest
  {
    var s := n + ", " + rest;
    assert s[|n|] == ',' && s[..|n|] == n;
  }

  /** One element followed by ", " and the rest reads as that element and the rest's elements. */
  lemma ParseValuesCons(s: string, n: string, rest: string, ts: seq<int>)
    requires s == n + ", " + rest && ',' !in n && |rest| >= 1 && |ts| >= 1
    requires ParseNumber(n) == Some(ts[0]) && ParseValues(rest) == Some(ts[1..])
    ensures ParseValues(s) == Some(ts)
  {
    FirstComma(n, rest);
    assert [ts[0]] + ts[1..] == ts;
  }

  lemma ParseValuesSingle(t: int)
    ensures ParseValues(NumberText(t)) == Some([t])
  {
    NumberRoundTrip(t);
    assert Seqs.IndexOf(NumberText(t), ',') == -1;
  }

  lemma JoinTextsCons(ts: seq<int>)
    requires |ts| > 1
    ensures JoinTexts(ts) == NumberText(ts[0]) + ", " + JoinTexts(ts[1..])
  {
  }

  lemma JoinCons(ts: seq<int>)
    requires |ts| > 1 && ParseValues(JoinTexts(ts[1..])) == Some(ts[1..])
    ensures ParseValues(JoinTexts(ts)) == Some(ts)
  {
    JoinTextsCons(ts);
    NumberRoundTrip(ts[0]);
    ParseValuesCons(JoinTexts(ts), NumberText(ts[0]), JoinTexts(ts[1..]), ts);
  }

  lemma {:induction false} JoinRoundTrip(ts: seq<int>)
    ensures ParseValues(JoinTexts(ts)) == Some(ts)
  {
    if |ts| == 1 {
      ParseValuesSingle(ts[0]);
      assert JoinTexts(ts) == NumberText(ts[0]) && [ts[0]] == ts;
    } else if |ts| > 1 {
      JoinRoundTrip(ts[1..]);
      JoinCons(ts);
    }
  }

  /** The written text reads back as the same list of options. */
  lemma JsonRoundTrip(ts: seq<int>)
    ensures ParseJsonArray(JsonArray(ts)) == Some(ts)
  {
    var s := JsonArray(ts);
    assert s[1..|s| - 1] == JoinTexts(ts);
    JoinRoundTrip(ts);
  }

  /** The files the script can write, by name. */
  class FileSystem {
    var Files: map<string, string>

    constructor (files: map<string, string>)
      ensures Files == files
    {
      Files := files;
    }

    /** write_options_to_file: opened in 'w' mode, the file holds the JSON text of the options and nothing of what it held before. */
    method WriteOptionsToFile(options: seq<int>, filename: string)
      modifies this
      ensures Files == old(Files)[filename := JsonArray(options)]
      ensures ParseJsonArray(Files[filename]) == Some(options)
    {
      Files := Files[filename := JsonArray(options)];
      JsonRoundTrip(options);
    }

    /** The script's body: the default options 0, 5, ..., 1000 written to dropdownOptions.json. */
    method Run()
      modifies this
      ensures "dropdownOptions.json" in Files
      ensures var o := ParseJsonArray(Files["dropdownOptions.json"]);
        o.Some? && o.value == seq(201, i => 5 * i)
      ensures forall name :: name in old(Files) && name != "dropdownOptions.json" ==> name in Files && Files[name] == old(Files)[name]
    {
      var options := GenerateDropDownOptions(0.0, 1.0, 0.005);
      DefaultOptions();
      WriteOptionsToFile(options.value, "dropdownOptions.json");
    }
  }
}
