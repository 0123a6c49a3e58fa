/** The "Predict price" action: build the row, hand it to the fitted pipeline,
    and show the row's non-missing entries. */
module Prediction {
  import opened Categories
  import opened FeatureRow

  /** The entries of `row` whose value is not missing, in row order. */
  function Shown(row: seq<(string, Value)>): (s: seq<(string, Value)>)
    ensures |s| <= |row|
    ensures forall e :: e in s <==> e in row && e.1 != Missing
  {
    if row == [] then []
    else if row[0].1 == Missing then Shown(row[1..])
    else [row[0]] + Shown(row[1..])
  }

  /** The display filter deletes as many entries as are missing, and a
      second pass deletes nothing more. */
  lemma {:induction false} ShownDropsMissing(row: seq<(string, Value)>)
    ensures |Shown(row)| == |row| - MissingCount(row)
    ensures Shown(Shown(row)) == Shown(row)
  {
    if row != [] {
      ShownDropsMissing(row[1..]);
      if row[0].1 != Missing {
        assert ([row[0]] + Shown(row[1..]))[1..] == Shown(row[1..]);
      }
    }
  }

  /** The display filter keeps the order of the row: filtering a
      concatenation filters each part and keeps the parts in order, so every
      entry is kept or dropped in place, a single entry exactly when it is
      not missing. */
  lemma {:induction false} ShownAppend(a: seq<(string, Value)>, b: seq<(string, Value)>)
    ensures Shown(a + b) == Shown(a) + Shown(b)
  {
    if a != [] {
      assert (a + b)[1..] == a[1..] + b;
      ShownAppend(a[1..], b);
    } else {
      assert a + b == b;
    }
  }

  /** How many entries of `row` are missing. */
  function MissingCount(row: seq<(string, Value)>): nat {
    if row == [] then 0 else (if row[0].1 == Missing then 1 else 0) + MissingCount(row[1..])
  }

  /** In the built row, an entry is shown exactly when its column is one the
      builder writes: a scalar, derived or one-hot column. */
  lemma ShownBuiltRow(schema: seq<string>, inp: Inputs)
    requires LabelsKnown(inp)
    ensures forall i :: 0 <= i < |schema| ==>
      (BuildRow(schema, inp)[i] in Shown(BuildRow(schema, inp)) <==>
        schema[i] in ScalarColumns || schema[i] in PropertyTypes.columns || schema[i] in SaleMethods.columns)
  {
    var row := BuildRow(schema, inp);
    RowScalars(schema, inp);
    RowOneHot(schema, inp);
    RowUnnamedMissing(schema, inp);
    forall i | 0 <= i < |schema| && schema[i] in ScalarColumns
      ensures row[i].1 != Missing
    {
      ScalarValuePresent(schema[i], inp);
    }
  }

  /** Pressing the button: the prediction is the pipeline applied to the built
      row, and the table shown lists exactly the row's non-missing entries. */
  method OnPredict(schema: seq<string>, inp: Inputs, predictor: seq<(string, Value)> -> real)
    returns (yhat: real, shown: seq<(string, Value)>)
    requires FromWidgets(inp)
    ensures yhat == predictor(BuildRow(schema, inp))
    ensures shown == Shown(BuildRow(schema, inp))
    ensures forall e :: e in shown <==> e in BuildRow(schema, inp) && e.1 != Missing
  {
    var row := BuildInputRow(schema, inp);
    yhat := predictor(row);
    shown := Shown(row);
  }
}
