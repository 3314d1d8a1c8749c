/** The dose-accounting transform applied to the daily-vaccinations metric
    (model.py, run_model_sampling): the daily series is added to a copy of
    itself shifted 30 days later (the second doses), missing dates counting
    as zero, and the sum is then read off on a 7-day grid anchored at the
    start date.

    Dates are day numbers; a date-indexed series is a finite map from day
    numbers to values, as a pandas frame column is. */
module DoseAccounting {

  /** Days between a first and a second dose. */
  const SecondDoseDelay: nat := 30

  /** Spacing of the grid the combined series is read on. */
  const GridStep: nat := 7

  /** A series indexed by date. */
  type Series = map<int, real>

  /** The daily dates from `start` to `end`, both included: every day of
      the range once, in increasing order without gaps. */
  function DailyDates(start: int, end: int): (dates: seq<int>)
    ensures |dates| == if start <= end then end - start + 1 else 0
    ensures forall d :: d in dates <==> start <= d <= end
    ensures |dates| > 0 ==> dates[0] == start
    ensures forall k :: 0 < k < |dates| ==> dates[k] == dates[k - 1] + 1
  {
    if start <= end then
      var dates := seq(end - start + 1, k => start + k);
      assert forall d :: start <= d <= end ==> d in dates by {
        forall d | start <= d <= end ensures d in dates {
          assert dates[d - start] == d;
        }
      }
      dates
    else []
  }

  /** The dates from `start` to at most `end` in steps of `GridStep` days. */
  function GridDates(start: int, end: int): (dates: seq<int>)
    ensures start <= end <==> |dates| > 0
    ensures forall k :: 0 <= k < |dates| ==> dates[k] == start + GridStep * k && dates[k] <= end
    ensures |dates| > 0 ==> end < dates[|dates| - 1] + GridStep
  {
    if start <= end then seq((end - start) / GridStep + 1, k => start + GridStep * k) else []
  }

  /** The values of `values` placed on consecutive dates from `first` on. */
  function Indexed(values: seq<real>, first: int): Series
  {
    var dates := seq(|values|, k => first + k);
    map d | d in dates :: values[d - first]
  }

  /** Date d is held exactly when it is one of the consecutive dates, and
      it holds the value at its offset. */
  lemma IndexedAt(values: seq<real>, first: int, d: int)
    ensures d in Indexed(values, first) <==> first <= d < first + |values|
    ensures d in Indexed(values, first) ==> Indexed(values, first)[d] == values[d - first]
  {
    if first <= d < first + |values| {
      assert seq(|values|, k => first + k)[d - first] == d;
    }
  }

  /** Adding two series with missing values filled by zero: the sum is
      indexed by the union of the two indexes. */
  function AddFilled(a: Series, b: Series): Series
  {
    map d | d in a.Keys + b.Keys :: (if d in a then a[d] else 0.0) + (if d in b then b[d] else 0.0)
  }

  lemma AddFilledAt(a: Series, b: Series, d: int)
    ensures d in AddFilled(a, b) <==> d in a || d in b
    ensures d in AddFilled(a, b) ==>
      AddFilled(a, b)[d] == (if d in a then a[d] else 0.0) + (if d in b then b[d] else 0.0)
  {
  }

  /** The values of a series at the given dates, all of which it holds. */
  function Reindex(s: Series, dates: seq<int>): seq<real>
    requires forall k :: 0 <= k < |dates| ==> dates[k] in s
  {
    seq(|dates|, k requires 0 <= k < |dates| => s[dates[k]])
  }

  /** First and second doses of a daily series indexed from `start`. */
  function Combined(row: seq<real>, start: int): Series
  {
    AddFilled(Indexed(row, start), Indexed(row, start + SecondDoseDelay))
  }

  /** The transformed series: the combined doses on the weekly grid. */
  function DoseAdjusted(row: seq<real>, start: int, end: int): seq<real>
    requires |row| == |DailyDates(start, end)|
  {
    var grid := GridDates(start, end);
    assert forall k :: 0 <= k < |grid| ==> grid[k] in Combined(row, start) by {
      forall k | 0 <= k < |grid| ensures grid[k] in Combined(row, start) {
        IndexedAt(row, start, grid[k]);
      }
    }
    Reindex(Combined(row, start), grid)
  }

  /** The combined series holds the dates of the first doses and the dates
      30 days later; at each the value is the first doses of that day plus
      the first doses of 30 days before, whichever exist. */
  lemma CombinedAt(row: seq<real>, start: int, offset: int)
    ensures start + offset in Combined(row, start)
        <==> 0 <= offset < |row| || SecondDoseDelay <= offset < SecondDoseDelay + |row|
    ensures start + offset in Combined(row, start) ==>
      Combined(row, start)[start + offset]
        == (if 0 <= offset < |row| then row[offset] else 0.0)
         + (if SecondDoseDelay <= offset < SecondDoseDelay + |row| then row[offset - SecondDoseDelay] else 0.0)
  {
    var first, second, d := Indexed(row, start), Indexed(row, start + SecondDoseDelay), start + offset;
    IndexedAt(row, start, d);
    IndexedAt(row, start + SecondDoseDelay, d);
    AddFilledAt(first, second, d);
  }

  /** The transform has one entry per grid date, and it only picks: the
      entry at offset d = 7k is the day's value plus, from offset 30 on, the
      value 30 days earlier. Nothing is averaged over the week. */
  lemma DoseAdjustedAt(row: seq<real>, start: int, end: int, k: nat)
    requires |row| == |DailyDates(start, end)|
    requires k < |GridDates(start, end)|
    ensures |DoseAdjusted(row, start, end)| == |GridDates(start, end)|
    ensures GridStep * k < |row|
    ensures DoseAdjusted(row, start, end)[k]
         == row[GridStep * k] + (if GridStep * k >= SecondDoseDelay then row[GridStep * k - SecondDoseDelay] else 0.0)
  {
    var d := GridStep * k;
    assert GridDates(start, end)[k] == start + d;
    CombinedAt(row, start, d);
  }
}
