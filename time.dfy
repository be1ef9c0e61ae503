/**
 * `formatTime` (src/lib/utils/time.ts): a play position in whole seconds as
 * a clock string, "M:SS" or, past an hour, "H:M:SS".
 */
module Time {
  import opened Text

  /** `seconds < 10 ? "0" + seconds : seconds`. */
  function Pad(n: nat): (r: string)
    ensures AllDigits(r) && ':' !in r
    ensures n < 100 ==> |r| == 2
  {
    if n < 10 then "0" + NatToString(n) else NatToString(n)
  }

  /** Reading a padded field back gives the number. */
  lemma ParsePad(n: nat)
    ensures ParseNat(Pad(n)) == n
  {
    ParseNatToString(n);
    if n < 10 {
      var s := Pad(n);
      assert s[..|s| - 1] == "0";
      assert NatToString(n) == [s[1]];
    }
  }

  /** A number's decimal form has no ':'. */
  lemma NoColon(n: nat)
    ensures ':' !in NatToString(n)
  {
  }

  /**
   * `formatTime(secs)` as written: past 60 minutes the middle field is the
   * whole minute count, not the minutes within the hour.
   */
  function FormatTime(secs: nat): string {
    var minutes := secs / 60;
    var seconds := secs % 60;
    if minutes > 60 then
      NatToString(minutes / 60) + ":" + NatToString(minutes) + ":" + Pad(seconds)
    else
      NatToString(minutes) + ":" + Pad(seconds)
  }

  /**
   * `formatTime` as evidently intended: past 60 minutes the middle field is
   * the minutes within the hour, padded to two digits.
   */
  function FormatTimeCorrected(secs: nat): string {
    var minutes := secs / 60;
    var seconds := secs % 60;
    if minutes > 60 then
      NatToString(minutes / 60) + ":" + Pad(minutes % 60) + ":" + Pad(seconds)
    else
      NatToString(minutes) + ":" + Pad(seconds)
  }

  /** The number a field shows, 0 for one that is not all digits. */
  function FieldValue(field: string): nat {
    if AllDigits(field) then ParseNat(field) else 0
  }

  /** The number of seconds a clock string's fields show: "M:SS" or "H:M:SS". */
  function ClockValue(fields: seq<string>): nat {
    if |fields| == 2 then 60 * FieldValue(fields[0]) + FieldValue(fields[1])
    else if |fields| == 3 then 3600 * FieldValue(fields[0]) + 60 * FieldValue(fields[1]) + FieldValue(fields[2])
    else 0
  }

  /** Splitting `a:b` and `a:b:c` on ':' when no part holds a ':'. */
  lemma SplitClock(a: string, b: string, c: string)
    requires ':' !in a && ':' !in b && ':' !in c
    ensures Split(a + ":" + b, ':') == [a, b]
    ensures Split(a + ":" + b + ":" + c, ':') == [a, b, c]
  {
    SplitJoin([a, b], ':');
    assert Join([a, b], ":") == a + ":" + b by {
      assert Join([b], ":") == b;
    }
    SplitJoin([a, b, c], ':');
    assert Join([a, b, c], ":") == a + ":" + b + ":" + c by {
      assert [a, b, c][1..] == [b, c];
      assert Join([b, c], ":") == b + ":" + c by {
        assert Join([c], ":") == c;
      }
    }
  }

  /** The fields of the formatted time, as split on ':'. */
  lemma FormatTimeFields(secs: nat)
    ensures var minutes := secs / 60;
      var f := Split(FormatTime(secs), ':');
      && (minutes <= 60 ==> f == [NatToString(minutes), Pad(secs % 60)])
      && (minutes > 60 ==> f == [NatToString(minutes / 60), NatToString(minutes), Pad(secs % 60)])
  {
    var minutes := secs / 60;
    NoColon(minutes);
    NoColon(minutes / 60);
    SplitClock(NatToString(minutes / 60), NatToString(minutes), Pad(secs % 60));
    SplitClock(NatToString(minutes), Pad(secs % 60), "");
  }

  /** The seconds field is always two digits and is the seconds within the minute. */
  lemma SecondsField(secs: nat)
    ensures var f := Split(FormatTime(secs), ':');
      |f[|f| - 1]| == 2 && AllDigits(f[|f| - 1]) && ParseNat(f[|f| - 1]) == secs % 60
    ensures var f := Split(FormatTimeCorrected(secs), ':');
      |f[|f| - 1]| == 2 && AllDigits(f[|f| - 1]) && ParseNat(f[|f| - 1]) == secs % 60
  {
    FormatTimeFields(secs);
    CorrectedFields(secs);
    ParsePad(secs % 60);
  }

  /** Up to 60 whole minutes, the output is minutes then seconds, so 3600 seconds is "60:00". */
  lemma MinutesForm(secs: nat)
    requires secs / 60 <= 60
    ensures FormatTime(secs) == FormatTimeCorrected(secs) == NatToString(secs / 60) + ":" + Pad(secs % 60)
    ensures ClockValue(Split(FormatTime(secs), ':')) == secs
  {
    FormatTimeFields(secs);
    ParseNatToString(secs / 60);
    ParsePad(secs % 60);
  }

  /** An hour and 100 seconds is shown as written with 61 in the middle, and reads back as 7300 seconds. */
  lemma HoursFieldIsTotalMinutes()
    ensures FormatTime(3700) == "1:61:40"
    ensures ClockValue(Split(FormatTime(3700), ':')) == 7300
  {
    assert NatToString(61) == "61";
    FormatTimeFields(3700);
    ParsePad(40);
    ParseNatToString(1);
    ParseNatToString(61);
  }

  /**
   * Past 60 minutes the string as written shows the hour twice: read back,
   * it is off by exactly 3600 seconds per hour.
   */
  lemma HoursFormMisreads(secs: nat)
    requires secs / 60 > 60
    ensures ClockValue(Split(FormatTime(secs), ':')) == secs + 3600 * (secs / 3600)
  {
    var minutes := secs / 60;
    FormatTimeFields(secs);
    ParseNatToString(minutes);
    ParseNatToString(minutes / 60);
    ParsePad(secs % 60);
    assert minutes / 60 == secs / 3600;
  }

  /** The fields of the corrected format, as split on ':'. */
  lemma CorrectedFields(secs: nat)
    ensures var minutes := secs / 60;
      var f := Split(FormatTimeCorrected(secs), ':');
      && (minutes <= 60 ==> f == [NatToString(minutes), Pad(secs % 60)])
      && (minutes > 60 ==> f == [NatToString(minutes / 60), Pad(minutes % 60), Pad(secs % 60)])
  {
    var minutes := secs / 60;
    NoColon(minutes);
    NoColon(minutes / 60);
    SplitClock(NatToString(minutes / 60), Pad(minutes % 60), Pad(secs % 60));
    SplitClock(NatToString(minutes), Pad(secs % 60), "");
  }

  /**
   * The corrected format reads back as the number of seconds it was given,
   * and past an hour its minutes field is two digits below 60.
   */
  lemma FormatTimeCorrectedReadsBack(secs: nat)
    ensures ClockValue(Split(FormatTimeCorrected(secs), ':')) == secs
    ensures secs / 60 > 60 ==>
      var f := Split(FormatTimeCorrected(secs), ':');
      |f| == 3 && |f[1]| == 2 && FieldValue(f[1]) < 60
  {
    var minutes := secs / 60;
    CorrectedFields(secs);
    ParseNatToString(minutes);
    ParseNatToString(minutes / 60);
    ParsePad(minutes % 60);
    ParsePad(secs % 60);
    if minutes > 60 {
      assert 3600 * (minutes / 60) + 60 * (minutes % 60) == 60 * minutes;
    }
  }
}
