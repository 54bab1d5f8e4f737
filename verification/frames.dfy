/**
  A table of records addressed both by position and by row label.

  The forecast page keeps its table in a data frame whose labels are always a
  contiguous range: a freshly built frame, or one whose index was reset, is
  labelled 0, 1, ..; a positional slice keeps the labels of the rows it keeps.
  `Frame` records the rows in position order and the label of the first row.
 */
module Frames {

  /** Rows per day at the feed's 15-minute sampling interval (24 * 4). */
  const RowsPerDay: nat := 96

  /** Rows in position order; the row at position `k` carries label `firstLabel + k`. */
  datatype Frame<R> = Frame(rows: seq<R>, firstLabel: nat) {

    /** The label of the row at position `k`. */
    function Label(k: nat): nat {
      firstLabel + k
    }
  }

  /**
    Drops yesterday's rows with the positional slice `df[96:]`
    (src/pages/Prediction_panel.py:29-31). A table of at most 96 rows yields an
    empty table, not an error, and the rows kept keep their labels.
   */
  function DropFirstDay<R>(f: Frame<R>): (r: Frame<R>)
    ensures |r.rows| == if |f.rows| <= RowsPerDay then 0 else |f.rows| - RowsPerDay
    ensures forall k :: 0 <= k < |r.rows| ==> r.rows[k] == f.rows[k + RowsPerDay]
    ensures forall k: nat :: k < |r.rows| ==> r.Label(k) == f.Label(k + RowsPerDay)
  {
    Frame(if |f.rows| <= RowsPerDay then [] else f.rows[RowsPerDay..], f.firstLabel + RowsPerDay)
  }

  /** Nothing but the first day is lost: the day dropped followed by the rows kept is the input. */
  lemma DropFirstDayKeepsRest<R>(f: Frame<R>)
    requires |f.rows| >= RowsPerDay
    ensures f.rows[..RowsPerDay] + DropFirstDay(f).rows == f.rows
  {
  }
}
