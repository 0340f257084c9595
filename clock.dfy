/**
 * Times of day as the create-listing form writes them: the `HH:MM` pattern the
 * schema accepts, the two-digit `formatTime` of the suggestion button, and the
 * minutes since midnight that both stand for.
 */
module Clock {
  import opened Text

  /** Minutes in a day. */
  const DayMinutes: nat := 1440

  /** The schema's time pattern `^([01]\d|2[0-3]):([0-5]\d)$`. */
  predicate IsTime(s: string) {
    && |s| == 5
    && ((('0' <= s[0] <= '1') && IsDigit(s[1])) || (s[0] == '2' && '0' <= s[1] <= '3'))
    && s[2] == ':'
    && '0' <= s[3] <= '5'
    && IsDigit(s[4])
  }

  /** The minute of the day an `HH:MM` string names. */
  function Minutes(s: string): (m: nat)
    requires IsTime(s)
    ensures m < DayMinutes
  {
    (10 * DigitValue(s[0]) + DigitValue(s[1])) * 60 + 10 * DigitValue(s[3]) + DigitValue(s[4])
  }

  /** `n.toString().padStart(2, '0')` for `n` below 100. */
  function Pad2(n: nat): string
    requires n < 100
  {
    [DigitChar(n / 10), DigitChar(n % 10)]
  }

  /** `formatTime`: the hours and minutes of minute `t` of the day, each padded to two digits. */
  function FormatTime(t: nat): string
    requires t < DayMinutes
  {
    Pad2(t / 60) + ":" + Pad2(t % 60)
  }

  /** Every minute of the day formats to an accepted time that names that same minute. */
  lemma FormatTimeIsTime(t: nat)
    requires t < DayMinutes
    ensures IsTime(FormatTime(t))
    ensures Minutes(FormatTime(t)) == t
  {
    var s := FormatTime(t);
    var h, m := t / 60, t % 60;
    assert s[0] == DigitChar(h / 10) && s[1] == DigitChar(h % 10);
    assert s[3] == DigitChar(m / 10) && s[4] == DigitChar(m % 10);
    assert h < 24 && m < 60;
    assert 10 * (h / 10) + h % 10 == h;
    assert 10 * (m / 10) + m % 10 == m;
  }

  /** Every accepted time is the formatting of the minute it names: the two are inverse. */
  lemma {:induction false} MinutesFormatTime(s: string)
    requires IsTime(s)
    ensures FormatTime(Minutes(s)) == s
  {
    var h := 10 * DigitValue(s[0]) + DigitValue(s[1]);
    var m := 10 * DigitValue(s[3]) + DigitValue(s[4]);
    assert Minutes(s) / 60 == h && Minutes(s) % 60 == m;
    assert h / 10 == DigitValue(s[0]) && h % 10 == DigitValue(s[1]);
    assert m / 10 == DigitValue(s[3]) && m % 10 == DigitValue(s[4]);
    var f := FormatTime(Minutes(s));
    assert f[0] == s[0] && f[1] == s[1] && f[2] == s[2] && f[3] == s[3] && f[4] == s[4];
  }

  /** Unfolds one step of the string order. */
  lemma StrLessStep(a: string, b: string)
    requires a != [] && b != []
    ensures StrLess(a, b) == if a[0] == b[0] then StrLess(a[1..], b[1..]) else a[0] < b[0]
  {
  }

  /** For two accepted times, the string order the schema uses is the chronological order. */
  lemma {:induction false} TimeOrder(a: string, b: string)
    requires IsTime(a) && IsTime(b)
    ensures StrLess(a, b) <==> Minutes(a) < Minutes(b)
  {
    var a1, b1 := a[1..], b[1..];
    var a2, b2 := a1[1..], b1[1..];
    var a3, b3 := a2[1..], b2[1..];
    var a4, b4 := a3[1..], b3[1..];
    var a5, b5 := a4[1..], b4[1..];
    StrLessStep(a, b);
    StrLessStep(a1, b1);
    StrLessStep(a2, b2);
    StrLessStep(a3, b3);
    StrLessStep(a4, b4);
    assert a5 == [] && b5 == [];
    assert !StrLess(a5, b5);
  }

  /** Distinct accepted times name distinct minutes. */
  lemma MinutesInjective(a: string, b: string)
    requires IsTime(a) && IsTime(b)
    ensures Minutes(a) == Minutes(b) ==> a == b
  {
    MinutesFormatTime(a);
    MinutesFormatTime(b);
  }
}
