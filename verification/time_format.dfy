/** The `formatTime` helpers: M:SS in components/SleepTimerModal.tsx (the
    identical helper in components/LargePlayer.tsx has no caller), H:MM:SS or
    M:SS in screens/SleepTimerScreen.tsx. Both callers pass the sleep timer's
    remaining seconds, which are whole and non-negative. */
module TimeFormat {
  import opened Text

  /** `n.toString().padStart(2, '0')`. */
  function Pad2(n: nat): (r: string)
    ensures |r| >= 2 && forall i :: 0 <= i < |r| ==> IsDigit(r[i])
    ensures n < 100 ==> |r| == 2
    ensures ParseNat(r) == n
  {
    ParseNatToString(n);
    if n < 10 then
      var d := NatToString(n);
      assert ("0" + d)[..1] == "0";
      assert ParseNat("0") == 0;
      "0" + d
    else
      assert n < 100 ==> |NatToString(n / 10)| == 1;
      NatToString(n)
  }

  predicate AllDigits(s: string) {
    forall i :: 0 <= i < |s| ==> IsDigit(s[i])
  }

  /** Digits, a colon, exactly two digits. */
  predicate MinSecShape(r: string) {
    |r| >= 4 && r[|r| - 3] == ':' && AllDigits(r[..|r| - 3]) && AllDigits(r[|r| - 2..])
  }

  /** Minutes (not wrapped at 60), a colon, seconds padded to two digits. */
  function FormatMinSec(seconds: nat): (r: string)
    ensures MinSecShape(r)
    ensures r[..|r| - 3] == NatToString(seconds / 60)
    ensures r[|r| - 2..] == Pad2(seconds % 60)
  {
    var m := NatToString(seconds / 60);
    var s := Pad2(seconds % 60);
    var r := m + ":" + s;
    assert r[..|r| - 3] == m && r[|r| - 2..] == s;
    r
  }

  /** Reads an M:SS string back into seconds. */
  function ParseMinSec(r: string): nat
    requires MinSecShape(r)
  {
    ParseNat(r[..|r| - 3]) * 60 + ParseNat(r[|r| - 2..])
  }

  /** The M:SS rendering loses nothing: reading it back gives the seconds. */
  lemma MinSecRoundTrip(seconds: nat)
    ensures ParseMinSec(FormatMinSec(seconds)) == seconds
  {
    ParseNatToString(seconds / 60);
  }

  /** The three fields the clock format shows. */
  datatype Clock = Clock(hours: nat, minutes: nat, secs: nat)

  function ClockParts(seconds: nat): (c: Clock)
    ensures c.hours * 3600 + c.minutes * 60 + c.secs == seconds
    ensures c.minutes < 60 && c.secs < 60
  {
    var c := Clock(seconds / 3600, (seconds % 3600) / 60, seconds % 60);
    assert seconds % 3600 == (seconds % 3600) / 60 * 60 + seconds % 60;
    c
  }

  /** Digits, a colon, two digits, a colon, two digits. */
  predicate ClockShape(r: string) {
    |r| >= 7 && r[|r| - 6] == ':' && r[|r| - 3] == ':'
    && AllDigits(r[..|r| - 6]) && AllDigits(r[|r| - 5..|r| - 3]) && AllDigits(r[|r| - 2..])
  }

  /** H:MM:SS when there is at least an hour, otherwise M:SS. */
  function FormatClock(seconds: nat): (r: string)
    ensures ClockParts(seconds).hours > 0 ==>
              && ClockShape(r)
              && r[..|r| - 6] == NatToString(ClockParts(seconds).hours)
              && r[|r| - 5..|r| - 3] == Pad2(ClockParts(seconds).minutes)
              && r[|r| - 2..] == Pad2(ClockParts(seconds).secs)
    ensures ClockParts(seconds).hours == 0 ==>
              && MinSecShape(r) && |r| <= 5
              && r[..|r| - 3] == NatToString(ClockParts(seconds).minutes)
              && r[|r| - 2..] == Pad2(ClockParts(seconds).secs)
  {
    var c := ClockParts(seconds);
    if c.hours > 0 then
      var h := NatToString(c.hours);
      var mm := Pad2(c.minutes);
      var ss := Pad2(c.secs);
      var r := h + ":" + mm + ":" + ss;
      assert r[..|r| - 6] == h && r[|r| - 5..|r| - 3] == mm && r[|r| - 2..] == ss;
      r
    else
      var m := NatToString(c.minutes);
      var ss := Pad2(c.secs);
      assert |NatToString(c.minutes / 10)| == 1 || c.minutes < 10;
      var r := m + ":" + ss;
      assert r[..|r| - 3] == m && r[|r| - 2..] == ss;
      r
  }

  /** Reads either clock form back into seconds; the two forms are told
      apart by length, as M:SS below an hour is at most five characters. */
  function ParseClock(r: string): nat
    requires ClockShape(r) || MinSecShape(r)
  {
    if |r| >= 7 && ClockShape(r) then
      ParseNat(r[..|r| - 6]) * 3600 + ParseNat(r[|r| - 5..|r| - 3]) * 60 + ParseNat(r[|r| - 2..])
    else ParseMinSec(r)
  }

  /** The clock rendering loses nothing. */
  lemma ClockRoundTrip(seconds: nat)
    ensures ClockShape(FormatClock(seconds)) || MinSecShape(FormatClock(seconds))
    ensures ParseClock(FormatClock(seconds)) == seconds
  {
    var c := ClockParts(seconds);
    ParseNatToString(c.hours);
    ParseNatToString(c.minutes);
  }

  /** Below an hour both screens show the same text. */
  lemma ClockAgreesBelowAnHour(seconds: nat)
    requires seconds < 3600
    ensures FormatClock(seconds) == FormatMinSec(seconds)
  {
  }
}
