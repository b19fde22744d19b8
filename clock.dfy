/** `formatTime` of the two playback engines: seconds rendered as M:SS. */
module Clock {
  import opened Wrappers
  import opened Decimal

  /** `String.prototype.padStart(2, '0')` on a string of at most two characters. */
  function PadStart2(s: string): (r: string)
    requires |s| <= 2
    ensures |r| == 2
    ensures |s| == 2 ==> r == s
    ensures |s| == 1 ==> r == ['0'] + s
    ensures |s| == 0 ==> r == "00"
  {
    if |s| == 0 then "00" else if |s| == 1 then ['0'] + s else s
  }

  /** Minutes (unpadded), a colon, and the seconds of the minute as two digits. */
  function FormatTime(seconds: nat): (r: string)
    ensures 4 <= |r| && r[|r| - 3] == ':'
    ensures r[..|r| - 3] == NatToString(seconds / 60)
    ensures AllDigits(r[|r| - 2..])
  {
    var secs := NatToString(seconds % 60);
    NatToString(seconds / 60) + ":" + PadStart2(secs)
  }

  /** Reads an M:SS rendering back as a number of seconds. */
  function ParseTime(r: string): Option<nat> {
    if 4 <= |r| && r[|r| - 3] == ':' && AllDigits(r[..|r| - 3]) && AllDigits(r[|r| - 2..]) then
      Some(StringToNat(r[..|r| - 3]) * 60 + StringToNat(r[|r| - 2..]))
    else
      None
  }

  /** The two-digit seconds field reads back as the seconds of the minute. */
  lemma {:induction false} SecondsFieldReadsBack(seconds: nat)
    ensures var r := FormatTime(seconds);
      StringToNat(r[|r| - 2..]) == seconds % 60
  {
    var r := FormatTime(seconds);
    var secs := NatToString(seconds % 60);
    StringToNatOfNatToString(seconds % 60);
    assert r[|r| - 2..] == PadStart2(secs);
    if |secs| == 1 {
      assert PadStart2(secs)[..1] == "0";
      assert StringToNat("0") == 0;
      assert PadStart2(secs)[..1] == "0";
    }
  }

  /** Formatting loses nothing: the rendering reads back as the original number of seconds. */
  lemma {:induction false} FormatTimeRoundTrip(seconds: nat)
    ensures ParseTime(FormatTime(seconds)) == Some(seconds)
  {
    var r := FormatTime(seconds);
    StringToNatOfNatToString(seconds / 60);
    SecondsFieldReadsBack(seconds);
  }

  /** The renderings of 40 s and 125 s. */
  lemma FormatTimeExamples()
    ensures FormatTime(40) == "0:40"
    ensures FormatTime(125) == "2:05"
  {
    assert NatToString(40) == "40";
    assert NatToString(2) == "2";
    assert NatToString(5) == "5";
  }
}
