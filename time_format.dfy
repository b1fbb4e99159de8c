/** `formatTime`: elapsed seconds as `HH:MM:SS`, each field zero-padded to two digits. */
module TimeFormat {
  import opened Numeric

  predicate IsDigit(c: char) {
    '0' <= c <= '9'
  }

  predicate AllDigits(s: string) {
    forall i :: 0 <= i < |s| ==> IsDigit(s[i])
  }

  function DigitChar(d: nat): (c: char)
    requires d < 10
    ensures IsDigit(c) && c as int - '0' as int == d
  {
    ('0' as int + d) as char
  }

  /** The number a string of decimal digits denotes. */
  function DecimalValue(s: string): nat
    requires AllDigits(s)
    decreases |s|
  {
    if s == [] then 0 else 10 * DecimalValue(s[..|s| - 1]) + (s[|s| - 1] as int - '0' as int)
  }

  /** `n.toString()` for a non-negative whole number: its decimal digits, no leading zero. */
  function NatToString(n: nat): (s: string)
    ensures |s| >= 1 && AllDigits(s)
    ensures n < 10 ==> |s| == 1
    ensures 10 <= n < 100 ==> |s| == 2
    ensures n >= 10 ==> |s| >= 2
    ensures n >= 10 ==> s[0] != '0'
    decreases n
  {
    if n < 10 then [DigitChar(n)] else NatToString(n / 10) + [DigitChar(n % 10)]
  }

  /** Printing and reading back a number gives the number. */
  lemma {:induction false} NatToStringValue(n: nat)
    ensures DecimalValue(NatToString(n)) == n
    decreases n
  {
    if n >= 10 {
      NatToStringValue(n / 10);
      var s := NatToString(n);
      assert s[..|s| - 1] == NatToString(n / 10);
    }
  }

  /** A leading zero does not change the value. */
  lemma {:induction false} LeadingZeroValue(s: string)
    requires AllDigits(s)
    ensures AllDigits("0" + s) && DecimalValue("0" + s) == DecimalValue(s)
    decreases |s|
  {
    if s != [] {
      var t := "0" + s;
      assert t[..|t| - 1] == "0" + s[..|s| - 1];
      LeadingZeroValue(s[..|s| - 1]);
    }
  }

  /** `s.padStart(2, '0')`. */
  function PadStart2(s: string): (r: string)
    requires AllDigits(s)
    ensures AllDigits(r) && DecimalValue(r) == DecimalValue(s)
    ensures |r| == if |s| < 2 then 2 else |s|
  {
    if |s| >= 2 then s
    else if |s| == 1 then LeadingZeroValue(s); "0" + s
    else LeadingZeroValue(s); LeadingZeroValue("0" + s); "00"
  }

  /** `if (seconds < 0) seconds = 0`. */
  function Clamped(seconds: real): real {
    if seconds < 0.0 then 0.0 else seconds
  }

  /** JavaScript's `x % m` for `x >= 0`, where truncation and flooring agree. */
  function Mod(x: real, m: real): (r: real)
    requires x >= 0.0 && m > 0.0
    ensures 0.0 <= r < m
    ensures r == x - (x / m).Floor as real * m
  {
    var q := x / m;
    var d := q - q.Floor as real;
    MulNonNegative(d, m);
    MulStrict(d, 1.0, m);
    d * m
  }

  function Hours(t: real): nat
    requires t >= 0.0
  {
    (t / 3600.0).Floor
  }

  function Minutes(t: real): nat
    requires t >= 0.0
  {
    (Mod(t, 3600.0) / 60.0).Floor
  }

  function Seconds(t: real): nat
    requires t >= 0.0
  {
    Mod(t, 60.0).Floor
  }

  function FormatTime(seconds: real): string {
    var t := Clamped(seconds);
    PadStart2(NatToString(Hours(t))) + ":" + PadStart2(NatToString(Minutes(t))) + ":" + PadStart2(NatToString(Seconds(t)))
  }

  /** The three fields recompose the whole seconds: `3600 h + 60 m + s == floor(t)`,
      with minutes and seconds below 60. */
  lemma FieldsRecompose(t: real)
    requires t >= 0.0
    ensures Minutes(t) < 60 && Seconds(t) < 60
    ensures 3600 * Hours(t) + 60 * Minutes(t) + Seconds(t) == t.Floor
  {
    var h := Hours(t);
    var r1 := Mod(t, 3600.0);
    assert r1 == t - 3600.0 * h as real;
    var m := Minutes(t);
    assert (t / 60.0).Floor == 60 * h + m by {
      assert t / 60.0 == (60 * h) as real + r1 / 60.0;
    }
    assert Mod(t, 60.0) == t - 60.0 * (60 * h + m) as real;
    assert t == (60 * (60 * h + m)) as real + Mod(t, 60.0);
  }

  /** Negative input prints as all zeros. */
  lemma FormatTimeNegative(seconds: real)
    requires seconds < 0.0
    ensures FormatTime(seconds) == "00:00:00"
  {
    assert Hours(0.0) == 0 && Minutes(0.0) == 0 && Seconds(0.0) == 0;
    assert NatToString(0) == "0";
  }

  /** The output is `HH:MM:SS`: an hour field of at least two digits worth
      `floor(seconds / 3600)`, with no leading zero once it reaches 10, then two-digit minute and second fields in 00..59,
      and together the fields give back the whole seconds of the (clamped) input. */
  lemma FormatTimeFields(seconds: real)
    ensures var r, t := FormatTime(seconds), Clamped(seconds);
      |r| >= 8 && r[|r| - 6] == ':' && r[|r| - 3] == ':' &&
      AllDigits(r[..|r| - 6]) && AllDigits(r[|r| - 5..|r| - 3]) && AllDigits(r[|r| - 2..]) &&
      DecimalValue(r[..|r| - 6]) == (t / 3600.0).Floor &&
      DecimalValue(r[|r| - 5..|r| - 3]) < 60 && DecimalValue(r[|r| - 2..]) < 60 &&
      3600 * DecimalValue(r[..|r| - 6]) + 60 * DecimalValue(r[|r| - 5..|r| - 3]) + DecimalValue(r[|r| - 2..])
        == t.Floor
    ensures (Clamped(seconds) / 3600.0).Floor >= 10 ==> FormatTime(seconds)[0] != '0'
  {
    var t := Clamped(seconds);
    FieldsRecompose(t);
    var hh := PadStart2(NatToString(Hours(t)));
    var mm := PadStart2(NatToString(Minutes(t)));
    var ss := PadStart2(NatToString(Seconds(t)));
    NatToStringValue(Hours(t));
    NatToStringValue(Minutes(t));
    NatToStringValue(Seconds(t));
    var r := FormatTime(seconds);
    assert r == hh + ":" + mm + ":" + ss;
    var n := |r|;
    assert |mm| == 2 && |ss| == 2;
    assert r[..n - 6] == hh;
    assert r[n - 5..n - 3] == mm;
    assert r[n - 2..] == ss;
  }

  /** One hour, one minute and one second. */
  lemma FormatTimeExample()
    ensures FormatTime(3661.5) == "01:01:01"
  {
    assert Hours(3661.5) == 1 && Minutes(3661.5) == 1 && Seconds(3661.5) == 1;
    assert NatToString(1) == "1";
  }
}
