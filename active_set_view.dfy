/**
 * What the active-set panel shows (FitnessApp/Features/ActiceSet/ActiveSetView.swift):
 * a stopwatch header while the timer runs, and one row per planned set showing
 * the logged result or a pending marker.
 */
module ActiveSetPanel {
  import opened Optional
  import opened Decimal
  import opened SetLog

  /** Swift's `/` on `Int`: the quotient truncated toward zero. */
  function TruncDiv(a: int, b: int): int
    requires b > 0
  {
    if a >= 0 then a / b else -((-a) / b)
  }

  /** Swift's `%` on `Int`: the remainder takes the sign of the dividend. */
  function TruncRem(a: int, b: int): int
    requires b > 0
  {
    a - TruncDiv(a, b) * b
  }

  /** Truncating division and remainder recombine to the dividend, with the remainder below the divisor in size. */
  lemma TruncDivRem(a: int, b: int)
    requires b > 0
    ensures TruncDiv(a, b) * b + TruncRem(a, b) == a
    ensures -b < TruncRem(a, b) < b
    ensures a >= 0 ==> TruncDiv(a, b) == a / b && TruncRem(a, b) == a % b && TruncRem(a, b) >= 0
    ensures a < 0 ==> TruncRem(a, b) <= 0
  {
  }

  /** `%02d`: at least two characters, padding with a zero after any sign. */
  function Pad2(n: int): (s: string)
    ensures |s| >= 2
    ensures 0 <= n < 100 ==> |s| == 2 && AllDigits(s)
  {
    if 0 <= n < 10 then "0" + IntToString(n) else IntToString(n)
  }

  /** A padded number reads back as the number. */
  lemma Pad2RoundTrip(n: int)
    ensures ParseInt(Pad2(n)) == Some(n)
  {
    IntToStringRoundTrip(n);
    if 0 <= n < 10 {
      var s := Pad2(n);
      assert s[..|s| - 1] == "0";
      assert DigitsValue(s) == DigitsValue("0") * 10 + DigitValue(s[1]);
    }
  }

  /** `formatTime(seconds:)`: `"%02d:%02d"` of the truncated minutes and remaining seconds. */
  function FormatTime(seconds: int): (r: string)
  {
    Pad2(TruncDiv(seconds, 60)) + ":" + Pad2(TruncRem(seconds, 60))
  }

  /**
   * A non-negative time is shown as minutes, a colon and two digits of
   * seconds, and reading both parts back gives the time again.
   */
  lemma FormatTimeRoundTrip(seconds: int)
    requires seconds >= 0
    ensures var r := FormatTime(seconds);
      && |r| >= 5 && r[|r| - 3] == ':'
      && exists minutes: int, secs: int ::
           && ParseInt(r[..|r| - 3]) == Some(minutes) && ParseInt(r[|r| - 2..]) == Some(secs)
           && 0 <= secs < 60 && minutes * 60 + secs == seconds
  {
    var m, s := TruncDiv(seconds, 60), TruncRem(seconds, 60);
    TruncDivRem(seconds, 60);
    var r := FormatTime(seconds);
    assert r[..|r| - 3] == Pad2(m);
    assert r[|r| - 2..] == Pad2(s);
    Pad2RoundTrip(m);
    Pad2RoundTrip(s);
  }

  /** Under 100 minutes the clock reads exactly "mm:ss". */
  lemma FormatTimeShape(seconds: int)
    requires 0 <= seconds < 6000
    ensures var r := FormatTime(seconds);
      |r| == 5 && r[2] == ':' && AllDigits(r[..2]) && AllDigits(r[3..])
  {
    TruncDivRem(seconds, 60);
    var r := FormatTime(seconds);
    assert r[..2] == Pad2(TruncDiv(seconds, 60));
    assert r[3..] == Pad2(TruncRem(seconds, 60));
  }

  /** The header's texts while the timer runs: the clock and "Aktiver Satz"; none at 0 seconds. */
  function Header(timerSeconds: int): (r: Option<seq<string>>)
    ensures r.Some? <==> timerSeconds > 0
  {
    if timerSeconds > 0 then Some([FormatTime(timerSeconds), "Aktiver Satz"]) else None
  }

  /** The icon of a logged set. */
  function ActionIcon(a: SetAction): string {
    match a
    case Done => "checkmark.circle.fill"
    case Less => "minus.circle.fill"
    case More => "flame.circle.fill"
    case NoAction => "circle.fill"
  }

  const PendingIcon := "bolt.fill"

  /** Every outcome has its own icon, and none looks like a pending set. */
  lemma IconsDistinct(a: SetAction, b: SetAction)
    ensures ActionIcon(a) == ActionIcon(b) <==> a == b
    ensures ActionIcon(a) != PendingIcon
  {
  }

  /** One row: its icon and, for a logged set, the texts weight, reps done and planned reps. */
  datatype SetRow = SetRow(icon: string, texts: seq<string>)

  function RowOf(setProgress: seq<SetProgress>, index: nat, plannedReps: int): SetRow {
    if index < |setProgress| then
      var p := setProgress[index];
      SetRow(ActionIcon(p.action),
             [IntToString(p.weight) + " KG", IntToString(p.currentReps), "/  " + IntToString(plannedReps)])
    else SetRow(PendingIcon, [])
  }

  /** `ForEach(0..<sets)`: one row per planned set. A negative count traps in Swift. */
  function Rows(sets: int, setProgress: seq<SetProgress>, plannedReps: int): (r: seq<SetRow>)
    requires sets >= 0
    ensures |r| == sets
  {
    seq(sets, i requires 0 <= i < sets => RowOf(setProgress, i, plannedReps))
  }

  /**
   * Row `i` shows the `i`-th logged set, with an icon naming its outcome and
   * texts that read back as its weight, its reps and the planned reps; rows
   * past the log show the pending marker and no text.
   */
  lemma RowsShowLog(sets: int, setProgress: seq<SetProgress>, plannedReps: int, i: nat)
    requires sets >= 0 && i < sets
    ensures var row := Rows(sets, setProgress, plannedReps)[i];
      && (row.icon == PendingIcon <==> i >= |setProgress|)
      && (i >= |setProgress| ==> row.texts == [])
      && (i < |setProgress| ==>
            && row.icon == ActionIcon(setProgress[i].action)
            && |row.texts| == 3
            && |row.texts[0]| > 3 && row.texts[0][|row.texts[0]| - 3..] == " KG"
            && ParseInt(row.texts[0][..|row.texts[0]| - 3]) == Some(setProgress[i].weight)
            && ParseInt(row.texts[1]) == Some(setProgress[i].currentReps)
            && |row.texts[2]| > 3 && row.texts[2][..3] == "/  "
            && ParseInt(row.texts[2][3..]) == Some(plannedReps))
  {
    var row := Rows(sets, setProgress, plannedReps)[i];
    if i < |setProgress| {
      var p := setProgress[i];
      IconsDistinct(p.action, p.action);
      assert row.texts[0][..|row.texts[0]| - 3] == IntToString(p.weight);
      assert row.texts[2][3..] == IntToString(plannedReps);
      IntToStringRoundTrip(p.weight);
      IntToStringRoundTrip(p.currentReps);
      IntToStringRoundTrip(plannedReps);
    }
  }
}
