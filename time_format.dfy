/**
 * Rendering of whole seconds as a `MM:SS` clock (the engine's `format_time`),
 * over a small model of decimal digit strings, together with the parser that
 * reads such a clock back, so that the rendering can be shown to lose nothing.
 */
module TimeFormat {
  import opened Wrappers

  predicate IsDigit(c: char) {
    '0' <= c <= '9'
  }

  predicate AllDigits(s: string) {
    forall i :: 0 <= i < |s| ==> IsDigit(s[i])
  }

  function DigitValue(c: char): (d: nat)
    requires IsDigit(c)
    ensures d < 10
  {
    (c as int) - ('0' as int)
  }

  function DigitChar(d: nat): (c: char)
    requires d < 10
    ensures IsDigit(c) && DigitValue(c) == d
  {
    (('0' as int) + d) as char
  }

  /** The number a string of decimal digits denotes, most significant digit first. */
  function Value(s: string): nat
    requires AllDigits(s)
  {
    if s == [] then 0 else Value(s[..|s| - 1]) * 10 + DigitValue(s[|s| - 1])
  }

  lemma ValueSnoc(s: string, c: char)
    requires AllDigits(s) && IsDigit(c)
    ensures AllDigits(s + [c]) && Value(s + [c]) == Value(s) * 10 + DigitValue(c)
  {
    assert (s + [c])[..|s|] == s;
  }

  /** A leading zero does not change the value of a digit string. */
  lemma {:induction false} ValueLeadingZero(s: string)
    requires AllDigits(s)
    ensures AllDigits("0" + s) && Value("0" + s) == Value(s)
  {
    if s != [] {
      var init := s[..|s| - 1];
      ValueLeadingZero(init);
      assert "0" + s == ("0" + init) + [s[|s| - 1]];
      ValueSnoc("0" + init, s[|s| - 1]);
      assert s == init + [s[|s| - 1]];
      ValueSnoc(init, s[|s| - 1]);
    }
  }

  /** Python's `str(n)` for a non-negative integer: shortest decimal digits, no leading zero. */
  function Decimal(n: nat): (r: string)
    ensures AllDigits(r) && Value(r) == n
    ensures 1 <= |r| && (|r| == 1 <==> n < 10)
    ensures n < 100 ==> |r| <= 2
    ensures |r| > 1 ==> r[0] != '0'
  {
    if n < 10 then [DigitChar(n)]
    else
      var r := Decimal(n / 10) + [DigitChar(n % 10)];
      ValueSnoc(Decimal(n / 10), DigitChar(n % 10));
      r
  }

  /** A run of `k` zero digits. */
  function Zeros(k: nat): (r: string)
    ensures |r| == k && forall i :: 0 <= i < k ==> r[i] == '0'
  {
    seq(k, _ => '0')
  }

  /** Leading zeros do not change the value of a digit string. */
  lemma {:induction false} ValueZeros(k: nat, s: string)
    requires AllDigits(s)
    ensures AllDigits(Zeros(k) + s) && Value(Zeros(k) + s) == Value(s)
    decreases k
  {
    if k > 0 {
      ValueZeros(k - 1, s);
      assert Zeros(k) + s == "0" + (Zeros(k - 1) + s);
      ValueLeadingZero(Zeros(k - 1) + s);
    } else {
      assert Zeros(k) + s == s;
    }
  }

  /**
   * Left padding with zeros to at least `width` characters, as the `0width`
   * format specification does for an integer.
   */
  function ZeroPad(s: string, width: nat): (r: string)
    requires AllDigits(s)
    ensures AllDigits(r) && Value(r) == Value(s)
    ensures |r| == if |s| < width then width else |s|
    ensures r[|r| - |s|..] == s
    ensures forall i :: 0 <= i < |r| - |s| ==> r[i] == '0'
    ensures |s| >= width ==> r == s
  {
    var pad := if |s| < width then width - |s| else 0;
    ValueZeros(pad, s);
    assert (Zeros(pad) + s)[pad..] == s;
    Zeros(pad) + s
  }

  /**
   * `r` is a clock for `s` seconds: a minutes field of at least two digits
   * holding `s / 60`, a colon, and a two-digit seconds field holding `s % 60`.
   */
  predicate IsClockOf(r: string, s: nat) {
    && 5 <= |r| && r[|r| - 3] == ':'
    && AllDigits(r[..|r| - 3]) && AllDigits(r[|r| - 2..])
    && Value(r[..|r| - 3]) == s / 60
    && Value(r[|r| - 2..]) == s % 60
  }

  lemma ClockFromFields(minutes: string, secs: string, s: nat)
    requires AllDigits(minutes) && 2 <= |minutes| && Value(minutes) == s / 60
    requires AllDigits(secs) && |secs| == 2 && Value(secs) == s % 60
    ensures IsClockOf(minutes + ":" + secs, s)
    ensures forall i :: 0 <= i < |minutes + ":" + secs| ==> (minutes + ":" + secs)[i] == ':' || IsDigit((minutes + ":" + secs)[i])
  {
    var r := minutes + ":" + secs;
    assert r[..|r| - 3] == minutes && r[|r| - 2..] == secs;
    forall i | 0 <= i < |r|
      ensures r[i] == ':' || IsDigit(r[i])
    {
      if i < |minutes| {
        assert r[i] == minutes[i];
      } else if i > |minutes| {
        assert r[i] == secs[i - |minutes| - 1];
      }
    }
  }

  /**
   * `format_time`: no value renders as `00:00`; otherwise the minutes
   * (`seconds / 60`, which may exceed two digits) and the seconds
   * (`seconds % 60`), each zero-padded to two digits, joined by a colon.
   * A minutes field wider than two digits has no leading zero, so together
   * with `IsClockOf` the text is fixed by the number of seconds.
   */
  function FormatTime(seconds: Option<nat>): (r: string)
    ensures seconds.None? ==> r == "00:00"
    ensures seconds.Some? ==> IsClockOf(r, seconds.value)
    ensures seconds.Some? && |r| > 5 ==> r[0] != '0'
    ensures forall i :: 0 <= i < |r| ==> r[i] == ':' || IsDigit(r[i])
  {
    match seconds
    case None => "00:00"
    case Some(s) =>
      var minutes := ZeroPad(Decimal(s / 60), 2);
      var secs := ZeroPad(Decimal(s % 60), 2);
      ClockFromFields(minutes, secs, s);
      assert (minutes + ":" + secs)[0] == minutes[0];
      minutes + ":" + secs
  }

  /** Reads a `minutes:SS` clock back into seconds; the inverse of FormatTime. */
  function ParseClock(t: string): Option<nat> {
    if 5 <= |t| && t[|t| - 3] == ':' && AllDigits(t[..|t| - 3]) && AllDigits(t[|t| - 2..])
       && Value(t[|t| - 2..]) < 60
    then Some(Value(t[..|t| - 3]) * 60 + Value(t[|t| - 2..]))
    else None
  }

  /** Any clock for `s` seconds parses back to `s`. */
  lemma ParseClockOf(t: string, s: nat)
    requires IsClockOf(t, s)
    ensures ParseClock(t) == Some(s)
  {
    assert (s / 60) * 60 + s % 60 == s && s % 60 < 60;
  }

  /** Formatting a number of seconds and reading the clock back gives the number again. */
  lemma FormatTimeRoundTrip(s: nat)
    ensures ParseClock(FormatTime(Some(s))) == Some(s)
  {
    ParseClockOf(FormatTime(Some(s)), s);
  }

  /** Distinct numbers of seconds render distinct clocks. */
  lemma FormatTimeInjective(a: nat, b: nat)
    requires a != b
    ensures FormatTime(Some(a)) != FormatTime(Some(b))
  {
    FormatTimeRoundTrip(a);
    FormatTimeRoundTrip(b);
  }

  /** `format_time(None)` and `format_time(0)` render the same clock. */
  lemma NoneRendersAsZero()
    ensures FormatTime(None) == FormatTime(Some(0))
  {
    var zero := Decimal(0);
    assert zero == [DigitChar(0)] == "0";
    assert Zeros(1) == "0";
    var field := ZeroPad(zero, 2);
    assert field == "00";
    assert 0 / 60 == 0 % 60 == 0;
    assert FormatTime(Some(0)) == field + ":" + field;
  }
}
