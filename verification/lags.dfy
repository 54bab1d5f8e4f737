/**
  The autoregressive lag loop (src/pages/Prediction_panel.py:33-65).

  Every lag column starts at the default 0. The loop then walks the rows in
  order; for each row it obtains a prediction and, when the guard
  `index + 1 < len(df)` holds, writes that prediction into the next row's
  `percentage_previous_1` and cascades the current row's lag k-1 into the next
  row's lag k. The guard compares a row LABEL with the row COUNT, so the
  frame's first label is a parameter of the loop: after the first day is
  dropped it is 96, while 0 is what makes the guard mean "a next row exists".
 */
module LagFeatures {

  import opened Frames
  import opened Features

  /** Adds the six lag columns, every one holding the default (lines 35-41); the other columns are kept. */
  function ZeroFill(rows: seq<BaseFeatures>): (r: seq<LaggedRow>)
    ensures |r| == |rows|
    ensures forall p :: 0 <= p < |r| ==> r[p].base == rows[p]
    ensures forall p, k :: 0 <= p < |r| && 1 <= k <= 6 ==> r[p].lags.Get(k) == DefaultLag
  {
    seq(|rows|, p requires 0 <= p < |rows| => LaggedRow(rows[p], NoLags))
  }

  /** The lags one step later: the new prediction becomes lag 1 and lag k-1 becomes lag k. */
  function ShiftIn(l: Lags, prediction: real): (r: Lags)
    ensures r.Get(1) == prediction
    ensures forall k :: 2 <= k <= 6 ==> r.Get(k) == l.Get(k - 1)
  {
    Lags(prediction, l.p1, l.p2, l.p3, l.p4, l.p5)
  }

  /**
    The lags the loop writes into the row labelled `next`, as lines 53-63 write
    them: lag 1 takes the prediction; lag k takes the previous row's lag k-1
    only when `next >= k`, and otherwise keeps the row's current value.
   */
  function Cascade(next: int, prediction: real, prev: Lags, cur: Lags): (r: Lags)
    ensures r.Get(1) == prediction
    ensures next >= 6 ==> r == ShiftIn(prev, prediction)
    ensures forall j :: 1 <= j <= 5 && next >= j + 1 ==> r.Get(j + 1) == prev.Get(j)
    ensures forall k :: 2 <= k <= 6 && next < k ==> r.Get(k) == cur.Get(k)
  {
    Lags(prediction,
         if next >= 2 then prev.p1 else cur.p2,
         if next >= 3 then prev.p2 else cur.p3,
         if next >= 4 then prev.p3 else cur.p4,
         if next >= 5 then prev.p4 else cur.p5,
         if next >= 6 then prev.p5 else cur.p6)
  }

  /**
    The guards `index + 1 >= k` only skip copies of values that are still the
    default: when the previous row's lag k-1 is 0 wherever `next < k`, the
    guarded cascade into a default row is exactly the plain shift.
   */
  lemma CascadeIsShift(next: int, prediction: real, prev: Lags)
    requires forall j :: 1 <= j <= 5 && next < j + 1 ==> prev.Get(j) == DefaultLag
    ensures Cascade(next, prediction, prev, NoLags) == ShiftIn(prev, prediction)
  {
    assert prev.Get(1) == prev.p1 && prev.Get(2) == prev.p2 && prev.Get(3) == prev.p3;
    assert prev.Get(4) == prev.p4 && prev.Get(5) == prev.p5;
  }

  /**
    Reference definition of the row at position `p` once the loop has finished,
    for a frame whose first label is `firstLabel`. Row p receives lags exactly
    when the guard held at position p-1, that is when `firstLabel + p < n`;
    otherwise it keeps the defaults.
   */
  function RowAt(firstLabel: nat, predict: LaggedRow -> real, base: seq<BaseFeatures>, p: nat): (r: LaggedRow)
    requires p < |base|
    ensures r.base == base[p]
    decreases p
  {
    if p == 0 || firstLabel + p >= |base| then LaggedRow(base[p], NoLags)
    else
      var prev := RowAt(firstLabel, predict, base, p - 1);
      LaggedRow(base[p], ShiftIn(prev.lags, predict(prev)))
  }

  /** Row p of a row whose predecessor passed the guard: the predecessor's lags shifted, its prediction in front. */
  lemma RowAtShifted(firstLabel: nat, predict: LaggedRow -> real, base: seq<BaseFeatures>, p: nat)
    requires 0 < p && firstLabel + p < |base|
    ensures RowAt(firstLabel, predict, base, p).lags
      == ShiftIn(RowAt(firstLabel, predict, base, p - 1).lags, predict(RowAt(firstLabel, predict, base, p - 1)))
  {
  }

  /** The whole table the loop leaves behind; it never changes a non-lag column. */
  function LagTable(firstLabel: nat, predict: LaggedRow -> real, base: seq<BaseFeatures>): (t: seq<LaggedRow>)
    ensures |t| == |base|
    ensures forall p :: 0 <= p < |t| ==> t[p].base == base[p]
    ensures forall p :: 0 <= p < |t| ==> t[p] == RowAt(firstLabel, predict, base, p)
  {
    seq(|base|, p requires 0 <= p < |base| => RowAt(firstLabel, predict, base, p))
  }

  /** Lag k of the row at label `firstLabel + p` is the default whenever that label is below k. */
  lemma LagsZeroBelowLabel(firstLabel: nat, predict: LaggedRow -> real, base: seq<BaseFeatures>, p: nat)
    requires p < |base|
    ensures forall k :: 1 <= k <= 6 && firstLabel + p < k ==> RowAt(firstLabel, predict, base, p).lags.Get(k) == DefaultLag
  {
  }

  /**
    The table after the iterations for positions 0..i-1: rows 0..i already hold
    their final lags, later rows still hold the defaults.
   */
  function AfterIterations(firstLabel: nat, predict: LaggedRow -> real, base: seq<BaseFeatures>, i: nat): seq<LaggedRow> {
    seq(|base|, q requires 0 <= q < |base| =>
      if q <= i then RowAt(firstLabel, predict, base, q) else LaggedRow(base[q], NoLags))
  }

  /**
    One iteration of the loop, at position i, turns the table after i
    iterations into the table after i+1: when the guard holds, the guarded
    cascade writes exactly the reference row i+1; otherwise nothing is written
    and row i+1 is already final with its defaults.
   */
  lemma IterationStep(firstLabel: nat, predict: LaggedRow -> real, base: seq<BaseFeatures>, i: nat)
    requires i < |base|
    ensures var t := AfterIterations(firstLabel, predict, base, i);
      firstLabel + i + 1 < |base| ==>
        t[i + 1 := LaggedRow(t[i + 1].base, Cascade(firstLabel + i + 1, predict(t[i]), t[i].lags, t[i + 1].lags))]
          == AfterIterations(firstLabel, predict, base, i + 1)
    ensures firstLabel + i + 1 >= |base| ==>
      AfterIterations(firstLabel, predict, base, i) == AfterIterations(firstLabel, predict, base, i + 1)
  {
    var t := AfterIterations(firstLabel, predict, base, i);
    var u := AfterIterations(firstLabel, predict, base, i + 1);
    if firstLabel + i + 1 < |base| {
      var prev := RowAt(firstLabel, predict, base, i);
      LagsZeroBelowLabel(firstLabel, predict, base, i);
      CascadeIsShift(firstLabel + i + 1, predict(prev), prev.lags);
      assert t[i] == prev && t[i + 1].lags == NoLags;
      var w := t[i + 1 := LaggedRow(t[i + 1].base, Cascade(firstLabel + i + 1, predict(t[i]), t[i].lags, t[i + 1].lags))];
      assert w[i + 1] == u[i + 1];
      assert forall q :: 0 <= q < |base| && q != i + 1 ==> w[q] == u[q];
    } else if i + 1 < |base| {
      assert t[i + 1] == u[i + 1];
      assert forall q :: 0 <= q < |base| && q != i + 1 ==> t[q] == u[q];
    }
  }

  /**
    The loop of lines 44-63. The prediction for each row is taken from the
    row as it stands in the table at that iteration, lag writes of earlier
    iterations included; whether the row object pandas hands to the scaler
    sees those writes is a copy-semantics detail the source does not show.
    Besides the table, the method returns the prediction each iteration made,
    which the source computes and then discards.
   */
  method InitLagFeatures(df: Frame<BaseFeatures>, predict: LaggedRow -> real) returns (out: seq<LaggedRow>, predicted: seq<real>)
    ensures out == LagTable(df.firstLabel, predict, df.rows)
    ensures |predicted| == |out|
    ensures forall p :: 0 <= p < |out| ==> predicted[p] == predict(out[p])
  {
    var n := |df.rows|;
    var rows := ZeroFill(df.rows);
    assert rows == AfterIterations(df.firstLabel, predict, df.rows, 0);
    predicted := [];
    var index := 0;
    while index < n
      invariant 0 <= index <= n
      invariant rows == AfterIterations(df.firstLabel, predict, df.rows, index)
      invariant |predicted| == index
      invariant forall q :: 0 <= q < index ==> predicted[q] == predict(rows[q])
    {
      IterationStep(df.firstLabel, predict, df.rows, index);
      var predictedPercentage := predict(rows[index]);
      // the guard compares the row's label with the row count
      if df.firstLabel + index + 1 < n {
        var lags := Cascade(df.firstLabel + index + 1, predictedPercentage, rows[index].lags, rows[index + 1].lags);
        rows := rows[index + 1 := LaggedRow(rows[index + 1].base, lags)];
      }
      predicted := predicted + [predictedPercentage];
      index := index + 1;
    }
    assert rows == LagTable(df.firstLabel, predict, df.rows);
    out := rows;
  }

  /**
    What the finished table holds row by row: where the guard held at position
    p, row p+1 carries row p's lags shifted in by the prediction for row p
    (see `ShiftIn`); the first row, and every row whose predecessor failed
    the guard, keeps all six defaults. No write lands outside the table.
   */
  lemma LagTableRows(firstLabel: nat, predict: LaggedRow -> real, base: seq<BaseFeatures>)
    ensures var t := LagTable(firstLabel, predict, base);
      forall p :: 0 <= p && firstLabel + p + 1 < |t| ==> t[p + 1].lags == ShiftIn(t[p].lags, predict(t[p]))
    ensures var t := LagTable(firstLabel, predict, base);
      forall p :: 0 <= p < |t| && (p == 0 || firstLabel + p >= |t|) ==> t[p].lags == NoLags
  {
    var t := LagTable(firstLabel, predict, base);
    forall p | 0 <= p && firstLabel + p + 1 < |t|
      ensures t[p + 1].lags == ShiftIn(t[p].lags, predict(t[p]))
    {
      assert t[p] == RowAt(firstLabel, predict, base, p);
      assert t[p + 1] == RowAt(firstLabel, predict, base, p + 1);
      RowAtShifted(firstLabel, predict, base, p + 1);
    }
    forall p | 0 <= p < |t| && (p == 0 || firstLabel + p >= |t|)
      ensures t[p].lags == NoLags
    {
      assert t[p] == RowAt(firstLabel, predict, base, p);
    }
  }

  /**
    With the labels the shipped pipeline produces (first label 96), the last
    96 rows never receive a lag: their predecessor's label plus one is at
    least the row count.
   */
  lemma ShippedLabelsFreezeTail(predict: LaggedRow -> real, base: seq<BaseFeatures>)
    ensures var t := LagTable(RowsPerDay, predict, base);
      forall p :: 0 <= p < |t| && p + RowsPerDay >= |t| ==> t[p].lags == NoLags
  {
  }

  /** Lag k of reference row p, for labels starting at 0, by induction on p. */
  lemma {:induction false} RowAtLags(predict: LaggedRow -> real, base: seq<BaseFeatures>, p: nat)
    requires p < |base|
    ensures forall k :: 1 <= k <= 6 ==>
      RowAt(0, predict, base, p).lags.Get(k) == if p >= k then predict(RowAt(0, predict, base, p - k)) else DefaultLag
  {
    if p > 0 {
      RowAtLags(predict, base, p - 1);
      RowAtShifted(0, predict, base, p);
    }
  }

  /**
    With labels starting at 0, lag k of row p is the prediction made for row
    p-k, and the default for the first k rows.
   */
  lemma CausalLags(predict: LaggedRow -> real, base: seq<BaseFeatures>, p: nat)
    requires p < |base|
    ensures var t := LagTable(0, predict, base);
      forall k :: 1 <= k <= 6 ==> t[p].lags.Get(k) == if p >= k then predict(t[p - k]) else DefaultLag
  {
    RowAtLags(predict, base, p);
  }

  /** Rows up to position p depend on the base features of rows 0..p only. */
  lemma {:induction false} RowAtIsCausal(predict: LaggedRow -> real, b1: seq<BaseFeatures>, b2: seq<BaseFeatures>, p: nat)
    requires p < |b1| && p < |b2|
    requires b1[..p + 1] == b2[..p + 1]
    ensures RowAt(0, predict, b1, p) == RowAt(0, predict, b2, p)
  {
    assert b1[p] == b1[..p + 1][p] == b2[..p + 1][p] == b2[p];
    if p > 0 {
      assert b1[..p] == b1[..p + 1][..p] == b2[..p + 1][..p] == b2[..p];
      RowAtIsCausal(predict, b1, b2, p - 1);
    }
  }

  /**
    With labels starting at 0, the loop is causal: two tables that agree on the
    non-lag features of rows 0..p yield the same rows 0..p, hence the same
    predictions for them, however many rows follow.
   */
  lemma PredictionsAreCausal(predict: LaggedRow -> real, b1: seq<BaseFeatures>, b2: seq<BaseFeatures>, p: nat)
    requires p < |b1| && p < |b2|
    requires b1[..p + 1] == b2[..p + 1]
    ensures LagTable(0, predict, b1)[..p + 1] == LagTable(0, predict, b2)[..p + 1]
    ensures forall q :: 0 <= q <= p ==> predict(LagTable(0, predict, b1)[q]) == predict(LagTable(0, predict, b2)[q])
  {
    forall q | 0 <= q <= p
      ensures LagTable(0, predict, b1)[q] == LagTable(0, predict, b2)[q]
    {
      assert b1[..q + 1] == b1[..p + 1][..q + 1] == b2[..p + 1][..q + 1] == b2[..q + 1];
      RowAtIsCausal(predict, b1, b2, q);
    }
  }

  /**
    The shipped first label (96) breaks causality: with identical features, row
    1 receives the prediction for row 0 in a 98-row table but not in a 97-row
    one, so an earlier row depends on how many rows follow it. Starting the
    labels at 0 gives row 1 its lag in both.
   */
  lemma ShippedLabelsBreakCausality()
    ensures var b := BaseFeatures(Calendar(1, 1, 0, 0), 0.0, 0.0);
      var predict: LaggedRow -> real := r => 1.0;
      && LagTable(RowsPerDay, predict, seq(97, _ => b))[1].lags.p1 == DefaultLag
      && LagTable(RowsPerDay, predict, seq(98, _ => b))[1].lags.p1 == 1.0
      && LagTable(0, predict, seq(97, _ => b))[1].lags.p1 == 1.0
  {
  }

  /** With the shipped first label, a one-day horizon (96 rows) never fills a single lag. */
  lemma ShippedOneDayHasNoLags(predict: LaggedRow -> real, base: seq<BaseFeatures>)
    requires |base| <= RowsPerDay + 1
    ensures forall p :: 0 <= p < |base| ==> LagTable(RowsPerDay, predict, base)[p].lags == NoLags
  {
  }
}
