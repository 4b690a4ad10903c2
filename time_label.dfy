/**
 * The `m:ss` time label. The content script's per-frame body and the preview
 * controller's `formatTime` compute it the same way: minutes are
 * `Math.floor(t / 60)`, seconds are `Math.floor(t % 60)` (JavaScript's
 * truncating `%`), and the seconds are left-padded to two digits.
 */
module TimeLabel {
  import opened JsNumbers
  import opened Optional

  /** The whole minutes of a position: `Math.floor(t / 60)`. */
  function Minutes(t: real): (m: int)
    ensures 60.0 * m as real <= t < 60.0 * m as real + 60.0
  {
    Floor(t / 60.0)
  }

  /** The seconds within the minute: `Math.floor(t % 60)`, negative for a negative position. */
  function Seconds(t: real): (s: int)
    ensures t >= 0.0 ==> 0 <= s < 60
    ensures t < 0.0 ==> -60 <= s <= 0
  {
    Floor(RealRem(t, 60.0))
  }

  /** The label shown for a playback position of t seconds. */
  function FormatTime(t: real): (text: string)
  {
    IntToString(Minutes(t)) + ":" + PadStart2(IntToString(Seconds(t)))
  }

  /** Reads a label `<digits>:<two digits>` back as a number of whole seconds. */
  function ParseLabel(text: string): (r: Option<int>)
    ensures r.Some? ==> r.value >= 0
  {
    var n := |text|;
    if n >= 4 && text[n - 3] == ':' then ParseFields(text[..n - 3], [text[n - 2], text[n - 1]]) else None
  }

  /** The two fields of a label: a digit run of minutes and two digits of seconds below 60. */
  function ParseFields(minutes: string, seconds: string): (r: Option<int>)
    ensures r.Some? ==> r.value >= 0
  {
    if IsDigits(minutes) && IsDigits(seconds) && DigitsValue(seconds) < 60 then
      Some(60 * DigitsValue(minutes) + DigitsValue(seconds))
    else
      None
  }

  /** For a non-negative position the fields split the whole seconds: m * 60 + s == floor(t), 0 <= s < 60. */
  lemma {:induction false} FieldsSplitWholeSeconds(t: real)
    requires t >= 0.0
    ensures Minutes(t) >= 0 && 0 <= Seconds(t) < 60
    ensures 60 * Minutes(t) + Seconds(t) == Floor(t)
  {
    var q := Floor(t / 60.0);
    assert q as real <= t / 60.0 < q as real + 1.0;
    assert 60.0 * q as real <= t < 60.0 * q as real + 60.0;
    assert Trunc(t / 60.0) == q;
    var rem := RealRem(t, 60.0);
    assert rem == t - 60.0 * q as real;
    var s := Floor(rem);
    var f := Floor(t);
    // floor(t - 60q) == floor(t) - 60q because 60q is an integer
    assert (f - 60 * q) as real <= rem < (f - 60 * q) as real + 1.0;
    assert s == f - 60 * q;
  }

  /** A label assembled from a minutes field, a colon and a two-character seconds field splits back into the two. */
  lemma {:induction false} ParseJoined(ms: string, ss: string)
    requires |ms| >= 1 && |ss| == 2
    ensures ParseLabel(ms + ":" + ss) == ParseFields(ms, ss)
  {
    var text := ms + ":" + ss;
    var n := |text|;
    assert n == |ms| + 3;
    assert text[n - 3] == ':';
    assert text[..n - 3] == ms;
    assert [text[n - 2], text[n - 1]] == ss;
  }

  /** The seconds field: s < 60 printed and padded is two digits that read back as s. */
  lemma {:induction false} PaddedSeconds(s: nat)
    requires s < 60
    ensures var padded := PadStart2(NatToString(s));
            |padded| == 2 && IsDigits(padded) && DigitsValue(padded) == s
  {
    var ss := NatToString(s);
    var padded := PadStart2(ss);
    if s < 10 {
      assert ss == [DigitChar(s)];
      assert padded == ['0', DigitChar(s)];
      assert padded[..1] == ['0'] && ['0'][..0] == [];
      assert DigitsValue(['0']) == 0;
      DigitRoundTrip(s);
    } else {
      assert |ss| == 2;
      assert padded == ss;
      NatToStringRoundTrip(s);
    }
  }

  /** The fields printed for whole minutes m and seconds s < 60 read back as m * 60 + s. */
  lemma {:induction false} LabelOfFields(m: nat, s: nat)
    requires s < 60
    ensures ParseFields(NatToString(m), PadStart2(NatToString(s))) == Some(60 * m + s)
  {
    PaddedSeconds(s);
    NatToStringRoundTrip(m);
  }

  /** The label is faithful: reading it back gives the whole seconds of a non-negative position. */
  lemma FormatTimeRoundTrip(t: real)
    requires t >= 0.0
    ensures ParseLabel(FormatTime(t)) == Some(Floor(t))
  {
    FieldsSplitWholeSeconds(t);
    var ms, ss := NatToString(Minutes(t)), PadStart2(NatToString(Seconds(t)));
    assert FormatTime(t) == ms + ":" + ss;
    LabelOfFields(Minutes(t), Seconds(t));
    ParseJoined(ms, ss);
  }

  /** For a non-negative position the label ends in a colon and exactly two digits, the seconds below 60. */
  lemma SecondsFieldTwoDigits(t: real)
    requires t >= 0.0
    ensures var text := FormatTime(t);
            |text| >= 4 && text[|text| - 3] == ':' &&
            IsDigits(text[|text| - 2..]) && DigitsValue(text[|text| - 2..]) == Seconds(t) < 60
  {
    FieldsSplitWholeSeconds(t);
    var ms, ss := NatToString(Minutes(t)), PadStart2(NatToString(Seconds(t)));
    PaddedSeconds(Seconds(t));
    var text := FormatTime(t);
    assert text == ms + ":" + ss;
    assert text[|text| - 3] == ':';
    assert text[|text| - 2..] == ss;
  }

  /** The label at the start of playback, which is also the label the markup starts with. */
  lemma StartLabel()
    ensures FormatTime(0.0) == "0:00"
  {
    assert Minutes(0.0) == 0 && Seconds(0.0) == 0;
    assert NatToString(0) == "0";
    assert PadStart2("0") == "00";
  }
}
