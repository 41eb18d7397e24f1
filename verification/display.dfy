/**
 * Display rules shared by several pages: the relative-date labels computed from a time
 * difference in milliseconds, and the two-digit row numbers of the tables.
 */
module Display {
  import opened Strings

  /** Milliseconds in a day: `1000 * 60 * 60 * 24`. */
  const DayMs := 86400000

  /**
   * `Math.floor(ms / DayMs)`. The divisor is positive, so Dafny's division is the floor also
   * for a negative difference (a date in the future).
   */
  function Days(ms: int): int
  {
    ms / DayMs
  }

  /** The label of a day count; counts of 30 or more get `older`. */
  function DayLabel(days: int, older: string): string
  {
    if days == 0 then "Today"
    else if days == 1 then "Yesterday"
    else if days < 7 then IntToString(days) + " days ago"
    else if days < 30 then IntToString(days / 7) + " weeks ago"
    else older
  }

  function MonthsAgo(days: int): string
  {
    IntToString(days / 30) + " months ago"
  }

  /** `formatRelativeTime` of the applications and jobs tables: `now - date` in milliseconds. */
  function Relative(diffMs: int): string
  {
    DayLabel(Days(diffMs), MonthsAgo(Days(diffMs)))
  }

  /** `formatDate` of the job board: the same buckets over the absolute difference. */
  function RelativeAbs(diffMs: int): string
  {
    Relative(if diffMs < 0 then -diffMs else diffMs)
  }

  /**
   * `formatRelativeTime` of the candidate dashboard: after four weeks it shows the date,
   * whose text (`toLocaleDateString`) is the parameter `dateText`.
   */
  function RelativeOrDate(diffMs: int, dateText: string): string
  {
    DayLabel(Days(diffMs), dateText)
  }

  /** `Days` is the floor: the largest day count whose milliseconds do not exceed the difference. */
  lemma DaysIsFloor(ms: int)
    ensures Days(ms) * DayMs <= ms < (Days(ms) + 1) * DayMs
  {
  }

  /**
   * The buckets, stated on the difference itself: under a day is 'Today', under two days
   * 'Yesterday', under a week the day count, under 30 days one to four weeks, and from 30 days
   * on at least one month. A date up to a day in the future is '-1 days ago'.
   */
  lemma RelativeBuckets(ms: int)
    ensures 0 <= ms < DayMs ==> Relative(ms) == "Today"
    ensures DayMs <= ms < 2 * DayMs ==> Relative(ms) == "Yesterday"
    ensures 2 * DayMs <= ms < 7 * DayMs ==>
      2 <= Days(ms) < 7 && Relative(ms) == NatToString(Days(ms)) + " days ago"
    ensures 7 * DayMs <= ms < 30 * DayMs ==>
      1 <= Days(ms) / 7 <= 4 && Relative(ms) == NatToString(Days(ms) / 7) + " weeks ago"
    ensures 30 * DayMs <= ms ==>
      1 <= Days(ms) / 30 && Relative(ms) == NatToString(Days(ms) / 30) + " months ago"
    ensures -DayMs <= ms < 0 ==> Relative(ms) == "-1 days ago"
  {
    DaysIsFloor(ms);
  }

  /**
   * The job board's labels do not depend on the direction of the difference, agree with the
   * tables' labels for past dates, and never show a negative count.
   */
  lemma RelativeAbsSymmetric(ms: int)
    ensures RelativeAbs(ms) == RelativeAbs(-ms)
    ensures ms >= 0 ==> RelativeAbs(ms) == Relative(ms)
    ensures RelativeAbs(ms) != "-1 days ago"
  {
    var a := if ms < 0 then -ms else ms;
    RelativeBuckets(a);
    DaysIsFloor(a);
    var d := Days(a);
    assert d >= 0;
    if 2 <= d < 7 {
      assert RelativeAbs(ms)[0] == NatToString(d)[0];
    } else if 7 <= d < 30 {
      assert RelativeAbs(ms)[0] == NatToString(d / 7)[0];
    } else if 30 <= d {
      assert RelativeAbs(ms)[0] == NatToString(d / 30)[0];
    }
    assert "-1 days ago"[0] == '-';
  }

  /**
   * The candidate dashboard agrees with the tables for the first four weeks, and after that
   * shows the date instead of a month count.
   */
  lemma RelativeOrDateAgrees(ms: int, dateText: string)
    ensures Days(ms) < 30 ==> RelativeOrDate(ms, dateText) == Relative(ms)
    ensures Days(ms) >= 30 ==> RelativeOrDate(ms, dateText) == dateText
  {
  }

  /** `String(index + 1).padStart(2, '0')`: the one-based row number with at least two digits. */
  function RowLabel(index: nat): string
  {
    PadStart2(IntToString(index + 1))
  }

  /**
   * Rows one to nine get a leading zero; from row ten on the label is the plain number. The
   * label is always made of digits and at least two characters long.
   */
  lemma RowLabelDigits(index: nat)
    ensures index < 9 ==> RowLabel(index) == "0" + NatToString(index + 1)
    ensures index >= 9 ==> RowLabel(index) == NatToString(index + 1)
    ensures |RowLabel(index)| >= 2
    ensures forall i :: 0 <= i < |RowLabel(index)| ==> '0' <= RowLabel(index)[i] <= '9'
    ensures DigitsValue(RowLabel(index)) == index + 1
  {
    var s := NatToString(index + 1);
    NatToStringValue(index + 1);
    if index < 9 {
      assert |s| == 1;
      var l := RowLabel(index);
      assert l == "0" + s;
      assert l[..1] == "0" && DigitsValue(l[..1]) == 0;
    }
  }
}
