/** The "m:ss" clock text that the timer display and the end-of-game
    statistics both build, and `timeToSeconds`, which reads it back. */
module Clock {
  import opened Text

  /** JavaScript's `%` on integers: the remainder takes the sign of the dividend. */
  function JsRem60(a: int): (r: int)
    ensures a >= 0 ==> 0 <= r < 60
    ensures a < 0 ==> -60 < r <= 0
    ensures (a - r) % 60 == 0
  {
    if a >= 0 then a % 60 else -((-a) % 60)
  }

  /** The whole minutes (rounded down), a colon, and the remaining seconds as
      at least two digits. Dafny's `/` by a positive divisor already rounds
      towards minus infinity, as a floor does; the remainder is JavaScript's. */
  function FormatClock(s: int): string {
    IntToString(s / 60) + ":" + PadStart2(IntToString(JsRem60(s)))
  }

  /** For a non-negative count the clock text is the minutes in decimal, a
      colon and exactly two digits, and the two parts hold the whole minutes
      and the seconds left over. */
  lemma ClockShape(s: nat)
    ensures var r := FormatClock(s);
            && |r| >= 4 && r[|r| - 3] == ':'
            && IsDigits(r[..|r| - 3]) && ParseDigits(r[..|r| - 3]) == s / 60
            && IsDigits(r[|r| - 2..]) && ParseDigits(r[|r| - 2..]) == s % 60
  {
    var r := FormatClock(s);
    var m, p := NatToString(s / 60), PadStart2(NatToString(s % 60));
    FormatClockOfNat(s);
    ParseNatToString(s / 60);
    PaddedValue(s % 60);
    TwoDigitsBelowHundred(s % 60);
    assert r[..|r| - 3] == m && r[|r| - 2..] == p;
  }

  /** A number below 100 prints as at most two digits, so padded it is two. */
  lemma TwoDigitsBelowHundred(n: nat)
    requires n < 100
    ensures |PadStart2(NatToString(n))| == 2
  {
    if n >= 10 {
      assert NatToString(n) == NatToString(n / 10) + [Digit(n % 10)];
    }
  }

  /** Position of the first colon, if any. */
  function FindColon(s: string): (r: Option<nat>)
    ensures r.Some? ==> r.value < |s| && s[r.value] == ':' && forall j :: 0 <= j < r.value ==> s[j] != ':'
    ensures r.None? ==> forall j :: 0 <= j < |s| ==> s[j] != ':'
  {
    if s == [] then None
    else if s[0] == ':' then Some(0)
    else match FindColon(s[1..])
      case None => None
      case Some(k) => Some(k + 1)
  }

  /** `timeToSeconds` on the texts the game writes, "digits:digits": minutes times
      60 plus seconds. None marks a text outside that form. */
  function ParseClock(t: string): Option<nat> {
    var colon := FindColon(t);
    if colon.None? then None else ClockParts(t[..colon.value], t[colon.value + 1..])
  }

  /** A text reads as a time exactly when a colon with digits on both sides
      splits it, and then as minutes times 60 plus seconds. */
  lemma ParseClockForm(t: string)
    ensures ParseClock(t).Some? ==>
              exists k :: 0 < k < |t| - 1 && t[k] == ':' && IsDigits(t[..k]) && IsDigits(t[k + 1..]) &&
                          ParseClock(t).value == ParseDigits(t[..k]) * 60 + ParseDigits(t[k + 1..])
    ensures ParseClock(t).None? ==>
              forall k :: 0 < k < |t| - 1 && t[k] == ':' ==> !(IsDigits(t[..k]) && IsDigits(t[k + 1..]))
  {
  }

  function ClockParts(mins: string, secs: string): Option<nat> {
    if mins != [] && secs != [] && IsDigits(mins) && IsDigits(secs)
    then Some(ParseDigits(mins) * 60 + ParseDigits(secs))
    else None
  }

  /** For every non-negative number of seconds, the clock text has the form
      minutes ":" two digits and reads back as that number. */
  lemma ClockRoundTrip(e: nat)
    ensures ParseClock(FormatClock(e)) == Some(e)
  {
    var q, s := e / 60, e % 60;
    var m, p := NatToString(q), PadStart2(NatToString(s));
    FormatClockOfNat(e);
    ParseNatToString(q);
    PaddedValue(s);
    ParseClockOf(m, p);
    MinutesAndSeconds(e);
  }

  /** On a non-negative count both parts of the clock are plain decimal numbers. */
  lemma FormatClockOfNat(e: nat)
    ensures FormatClock(e) == NatToString(e / 60) + ":" + PadStart2(NatToString(e % 60))
  {
    assert JsRem60(e) == e % 60;
  }

  lemma MinutesAndSeconds(e: nat)
    ensures (e / 60) * 60 + e % 60 == e
  {
  }

  lemma ParseClockOf(m: string, p: string)
    requires m != [] && p != [] && IsDigits(m) && IsDigits(p)
    ensures ParseClock(m + ":" + p) == Some(ParseDigits(m) * 60 + ParseDigits(p))
  {
    SplitAtColon(m, p);
    ClockPartsValue(m, p);
  }

  lemma SplitAtColon(m: string, p: string)
    requires IsDigits(m)
    ensures ParseClock(m + ":" + p) == ClockParts(m, p)
  {
    var t := m + ":" + p;
    FindColonAfterDigits(m, p);
    assert t[..|m|] == m && t[|m| + 1..] == p;
  }

  lemma ClockPartsValue(m: string, p: string)
    requires m != [] && p != [] && IsDigits(m) && IsDigits(p)
    ensures ClockParts(m, p) == Some(ParseDigits(m) * 60 + ParseDigits(p))
  {
  }

  lemma PaddedValue(s: nat)
    ensures IsDigits(PadStart2(NatToString(s)))
    ensures ParseDigits(PadStart2(NatToString(s))) == s
  {
    var r := NatToString(s);
    ParseNatToString(s);
    if |r| == 1 { ParseLeadingZero(r); }
  }

  lemma {:induction false} FindColonAfterDigits(m: string, p: string)
    requires IsDigits(m)
    ensures FindColon(m + ":" + p) == Some(|m|)
    decreases |m|
  {
    if m != [] {
      assert (m + ":" + p)[1..] == m[1..] + ":" + p;
      FindColonAfterDigits(m[1..], p);
    }
  }
}
