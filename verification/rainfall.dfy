/**
  The 2-hour rainfall lookback (src/pages/Prediction_panel.py:11-26): every
  row receives the precipitation of the row eight 15-minute steps earlier,
  or 0 when there is no such row.
 */
module Rainfall {

  import opened Frames
  import opened Features

  /** Eight 15-minute steps make two hours. */
  const LookbackSteps: nat := 8

  /**
    The first `i` rows of the shifted table, built in row order as the loop at
    lines 16-21 fills them. Rows are addressed by position: the loop addresses
    them by timestamp, which names one row each because the feed's timestamps
    are distinct.
   */
  function ShiftPrefix<T>(rows: seq<Reading<T>>, i: nat): (r: seq<ShiftedReading<T>>)
    requires i <= |rows|
    ensures |r| == i
    ensures forall j :: 0 <= j < i ==> r[j].reading == rows[j]
    ensures forall j :: 0 <= j < LookbackSteps && j < i ==> r[j].rainfallPrevious2Hours == 0.0
    ensures forall j :: LookbackSteps <= j < i ==> r[j].rainfallPrevious2Hours == rows[j - LookbackSteps].precipitation
    decreases i
  {
    if i == 0 then []
    else
      var j := i - 1;
      var previous := if j < LookbackSteps then 0.0 else rows[j - LookbackSteps].precipitation;
      ShiftPrefix(rows, j) + [ShiftedReading(rows[j], previous)]
  }

  /**
    Adds `rainfall_previous_2_hours` to every row. The row count, the row order
    and every existing column are kept; the index is reset, so labels restart at 0.
   */
  function CalculateRainfallPrevious2Hours<T>(df: Frame<Reading<T>>): (r: Frame<ShiftedReading<T>>)
    ensures r.firstLabel == 0
    ensures |r.rows| == |df.rows|
    ensures forall i :: 0 <= i < |r.rows| ==> r.rows[i].reading == df.rows[i]
    ensures forall i :: 0 <= i < |r.rows| ==>
      r.rows[i].rainfallPrevious2Hours == if i < LookbackSteps then 0.0 else df.rows[i - LookbackSteps].precipitation
  {
    Frame(ShiftPrefix(df.rows, |df.rows|), 0)
  }

  /**
    Once the first day is dropped, no kept row holds the zero fill: each row's
    lookback is the precipitation eight rows before it in the input, which the
    dropped day supplies for the first eight kept rows.
   */
  lemma TrimmedLookbackIsReal<T>(df: Frame<Reading<T>>)
    ensures var kept := DropFirstDay(CalculateRainfallPrevious2Hours(df)).rows;
      forall k :: 0 <= k < |kept| ==>
        kept[k].rainfallPrevious2Hours == df.rows[k + RowsPerDay - LookbackSteps].precipitation
  {
  }
}
