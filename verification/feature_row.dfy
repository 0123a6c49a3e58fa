/** The schema-driven feature-row builder: one row, keyed by the pipeline's
    expected columns in their training order, filled from the form's inputs. */
module FeatureRow {
  import opened Categories

  /** One cell of the row. `Missing` stands for the NaN that the pipeline's
      imputer later fills; counts and one-hot flags are integers, areas and
      distances are reals. */
  datatype Value = Missing | I(int) | R(real)

  /** The widget state read by the builder. `amenityIndex` is the engineered
      amenity access index, taken as already computed from the four distances. */
  datatype Inputs = Inputs(
    beds: int,
    baths: int,
    parking: int,
    landSize: real,
    distanceToCbd: real,
    nearestSupermarket: real,
    nearestTrain: real,
    nearestBus: real,
    nearestPark: real,
    amenityIndex: real,
    propertyType: string,
    saleMethod: string)

  /** Both selections are labels of their tables, as the drop-downs guarantee;
      any other label would make the table lookup fail. */
  predicate LabelsKnown(inp: Inputs) {
    inp.propertyType in PropertyTypes.labels && inp.saleMethod in SaleMethods.labels
  }

  /** Everything the widgets guarantee: the numeric bounds of each input and
      labels taken from the drop-down options. */
  predicate FromWidgets(inp: Inputs) {
    && 0 <= inp.beds <= 12
    && 0 <= inp.baths <= 8
    && 0 <= inp.parking <= 8
    && 0.0 <= inp.landSize <= 200000.0
    && 0.0 <= inp.distanceToCbd <= 500.0
    && 0.0 <= inp.nearestSupermarket <= 200.0
    && 0.0 <= inp.nearestTrain <= 200.0
    && 0.0 <= inp.nearestBus <= 200.0
    && 0.0 <= inp.nearestPark <= 200.0
    && LabelsKnown(inp)
  }

  /** Python's `int()` on a number: truncation toward zero. */
  function Truncate(x: real): int {
    if x >= 0.0 then x.Floor else -((-x).Floor)
  }

  /** The derived room count, `int()` of the sum of the three counts. The
      counts are integers, so the conversion changes nothing. */
  function RoomsTotal(inp: Inputs): (n: int)
    ensures n == inp.beds + inp.baths + inp.parking
  {
    Truncate((inp.beds + inp.baths + inp.parking) as real)
  }

  /** The one-hot column selected in each family. */
  function PropertyTypeColumn(inp: Inputs): (col: string)
    requires LabelsKnown(inp)
    ensures col in PropertyTypes.columns
  {
    Lookup(PropertyTypes, inp.propertyType)
  }

  function SaleMethodColumn(inp: Inputs): (col: string)
    requires LabelsKnown(inp)
    ensures col in SaleMethods.columns
  {
    Lookup(SaleMethods, inp.saleMethod)
  }

  /** The names of the raw and derived scalar columns the builder writes. */
  const ScalarColumns: seq<string> := [
    "beds", "baths", "parking", "land_size", "distance_to_cbd", "rooms_total",
    "nearest_supermarket", "nearest_train", "nearest_bus", "nearest_park",
    "amenity_access_index"
  ]

  /** The value a scalar column receives, or Missing for any other name. */
  function ScalarValue(c: string, inp: Inputs): Value {
    if c == "beds" then I(inp.beds)
    else if c == "baths" then I(inp.baths)
    else if c == "parking" then I(inp.parking)
    else if c == "land_size" then R(inp.landSize)
    else if c == "distance_to_cbd" then R(inp.distanceToCbd)
    else if c == "rooms_total" then I(RoomsTotal(inp))
    else if c == "nearest_supermarket" then R(inp.nearestSupermarket)
    else if c == "nearest_train" then R(inp.nearestTrain)
    else if c == "nearest_bus" then R(inp.nearestBus)
    else if c == "nearest_park" then R(inp.nearestPark)
    else if c == "amenity_access_index" then R(inp.amenityIndex)
    else Missing
  }

  /** Every scalar column gets a value. */
  lemma ScalarValuePresent(c: string, inp: Inputs)
    requires c in ScalarColumns
    ensures ScalarValue(c, inp) != Missing
  {
  }

  /** No scalar column belongs to a one-hot family. */
  lemma ScalarsOutsidePropertyTypes()
    ensures forall c :: c in ScalarColumns ==> c !in PropertyTypes.columns
  {
  }

  lemma ScalarsOutsideSaleMethods()
    ensures forall c :: c in ScalarColumns ==> c !in SaleMethods.columns
  {
  }

  /** Reference definition, column by column, given the column selected in
      each one-hot family: a one-hot column holds 1 when it is its family's
      selected column and 0 otherwise; a scalar column holds its input; every
      other column is Missing. (The three kinds of column are disjoint, see
      TablesWellFormed, ScalarsOutsidePropertyTypes and
      ScalarsOutsideSaleMethods, so the order of the tests does not matter;
      it follows the order of the writes.) */
  function Cell(c: string, inp: Inputs, ptCol: string, smCol: string): Value {
    if c in SaleMethods.columns then I(if c == smCol then 1 else 0)
    else if c in PropertyTypes.columns then I(if c == ptCol then 1 else 0)
    else if c in ScalarColumns then ScalarValue(c, inp)
    else Missing
  }

  /** A scalar column holds its scalar value, whatever the selections. */
  lemma CellScalar(c: string, inp: Inputs, ptCol: string, smCol: string)
    requires c in ScalarColumns
    ensures Cell(c, inp, ptCol, smCol) == ScalarValue(c, inp)
  {
    ScalarsOutsidePropertyTypes();
    ScalarsOutsideSaleMethods();
  }

  /** Within each one-hot family exactly the selected column holds 1, and a
      column no rule names is Missing. */
  lemma CellOneHot(inp: Inputs, ptCol: string, smCol: string)
    ensures forall c :: c in PropertyTypes.columns ==>
      Cell(c, inp, ptCol, smCol) == if c == ptCol then I(1) else I(0)
    ensures forall c :: c in SaleMethods.columns ==>
      Cell(c, inp, ptCol, smCol) == if c == smCol then I(1) else I(0)
    ensures forall c | c !in ScalarColumns && c !in PropertyTypes.columns && c !in SaleMethods.columns ::
      Cell(c, inp, ptCol, smCol) == Missing
  {
    TablesWellFormed();
  }

  /** The row the builder must produce: exactly the schema's columns, in the
      schema's order, each with its reference value. */
  function BuildRow(schema: seq<string>, inp: Inputs): (row: seq<(string, Value)>)
    requires LabelsKnown(inp)
    ensures |row| == |schema|
    ensures forall i :: 0 <= i < |schema| ==> row[i].0 == schema[i]
  {
    var ptCol, smCol := PropertyTypeColumn(inp), SaleMethodColumn(inp);
    seq(|schema|, i requires 0 <= i < |schema| => (schema[i], Cell(schema[i], inp, ptCol, smCol)))
  }

  /** Every scalar column of the schema holds its scalar value. */
  lemma RowScalars(schema: seq<string>, inp: Inputs)
    requires LabelsKnown(inp)
    ensures forall i :: 0 <= i < |schema| && schema[i] in ScalarColumns ==>
      BuildRow(schema, inp)[i].1 == ScalarValue(schema[i], inp)
  {
    var ptCol, smCol := PropertyTypeColumn(inp), SaleMethodColumn(inp);
    forall i | 0 <= i < |schema| && schema[i] in ScalarColumns
      ensures BuildRow(schema, inp)[i].1 == ScalarValue(schema[i], inp)
    {
      CellScalar(schema[i], inp, ptCol, smCol);
    }
  }

  /** Each raw field present in the schema holds exactly its input. */
  lemma RowRawFields(schema: seq<string>, inp: Inputs)
    requires LabelsKnown(inp)
    ensures forall i :: 0 <= i < |schema| && schema[i] == "beds" ==> BuildRow(schema, inp)[i].1 == I(inp.beds)
    ensures forall i :: 0 <= i < |schema| && schema[i] == "baths" ==> BuildRow(schema, inp)[i].1 == I(inp.baths)
    ensures forall i :: 0 <= i < |schema| && schema[i] == "parking" ==> BuildRow(schema, inp)[i].1 == I(inp.parking)
    ensures forall i :: 0 <= i < |schema| && schema[i] == "land_size" ==> BuildRow(schema, inp)[i].1 == R(inp.landSize)
    ensures forall i :: 0 <= i < |schema| && schema[i] == "distance_to_cbd" ==>
      BuildRow(schema, inp)[i].1 == R(inp.distanceToCbd)
  {
    RowScalars(schema, inp);
    assert ScalarValue("beds", inp) == I(inp.beds);
    assert ScalarValue("baths", inp) == I(inp.baths);
    assert ScalarValue("parking", inp) == I(inp.parking);
    assert ScalarValue("land_size", inp) == R(inp.landSize);
    assert ScalarValue("distance_to_cbd", inp) == R(inp.distanceToCbd);
  }

  /** Each distance field present in the schema holds exactly its input. */
  lemma RowDistances(schema: seq<string>, inp: Inputs)
    requires LabelsKnown(inp)
    ensures forall i :: 0 <= i < |schema| && schema[i] == "nearest_supermarket" ==>
      BuildRow(schema, inp)[i].1 == R(inp.nearestSupermarket)
    ensures forall i :: 0 <= i < |schema| && schema[i] == "nearest_train" ==>
      BuildRow(schema, inp)[i].1 == R(inp.nearestTrain)
    ensures forall i :: 0 <= i < |schema| && schema[i] == "nearest_bus" ==> BuildRow(schema, inp)[i].1 == R(inp.nearestBus)
    ensures forall i :: 0 <= i < |schema| && schema[i] == "nearest_park" ==> BuildRow(schema, inp)[i].1 == R(inp.nearestPark)
  {
    RowScalars(schema, inp);
    assert ScalarValue("nearest_supermarket", inp) == R(inp.nearestSupermarket);
    assert ScalarValue("nearest_train", inp) == R(inp.nearestTrain);
    assert ScalarValue("nearest_bus", inp) == R(inp.nearestBus);
    assert ScalarValue("nearest_park", inp) == R(inp.nearestPark);
  }

  /** The derived columns, when present, hold `beds + baths + parking` and the
      amenity index. */
  lemma RowDerivedFields(schema: seq<string>, inp: Inputs)
    requires LabelsKnown(inp)
    ensures forall i :: 0 <= i < |schema| && schema[i] == "rooms_total" ==>
      BuildRow(schema, inp)[i].1 == I(inp.beds + inp.baths + inp.parking)
    ensures forall i :: 0 <= i < |schema| && schema[i] == "amenity_access_index" ==>
      BuildRow(schema, inp)[i].1 == R(inp.amenityIndex)
  {
    RowScalars(schema, inp);
    assert ScalarValue("rooms_total", inp) == I(inp.beds + inp.baths + inp.parking);
    assert ScalarValue("amenity_access_index", inp) == R(inp.amenityIndex);
  }

  /** Every present column of a one-hot family is 0 except the selected
      label's column, which is 1; when that column is absent from the schema,
      every present column of the family is 0. */
  lemma RowOneHot(schema: seq<string>, inp: Inputs)
    requires LabelsKnown(inp)
    ensures forall i :: 0 <= i < |schema| && schema[i] in PropertyTypes.columns ==>
      BuildRow(schema, inp)[i].1 == if schema[i] == PropertyTypeColumn(inp) then I(1) else I(0)
    ensures forall i :: 0 <= i < |schema| && schema[i] in SaleMethods.columns ==>
      BuildRow(schema, inp)[i].1 == if schema[i] == SaleMethodColumn(inp) then I(1) else I(0)
    ensures PropertyTypeColumn(inp) !in schema ==>
      forall i :: 0 <= i < |schema| && schema[i] in PropertyTypes.columns ==> BuildRow(schema, inp)[i].1 == I(0)
    ensures SaleMethodColumn(inp) !in schema ==>
      forall i :: 0 <= i < |schema| && schema[i] in SaleMethods.columns ==> BuildRow(schema, inp)[i].1 == I(0)
  {
    CellOneHot(inp, PropertyTypeColumn(inp), SaleMethodColumn(inp));
  }

  /** A schema column that no rule names stays Missing. */
  lemma RowUnnamedMissing(schema: seq<string>, inp: Inputs)
    requires LabelsKnown(inp)
    ensures forall i | 0 <= i < |schema| && schema[i] !in ScalarColumns &&
      schema[i] !in PropertyTypes.columns && schema[i] !in SaleMethods.columns :: BuildRow(schema, inp)[i].1 == Missing
  {
    CellOneHot(inp, PropertyTypeColumn(inp), SaleMethodColumn(inp));
  }

  /** The dictionary after the guarded write `put_if_present`: `value` lands
      under `name` when `name` is already a key; nothing else changes. */
  function Put(m: map<string, Value>, name: string, value: Value): (r: map<string, Value>)
    ensures r.Keys == m.Keys
    ensures name !in m ==> r == m
    ensures name in m ==> r[name] == value
    ensures forall c :: c in m && c != name ==> r[c] == m[c]
  {
    if name in m then m[name := value] else m
  }

  /** Put seen from one key. */
  lemma PutAt(m: map<string, Value>, name: string, value: Value, c: string)
    requires c in m
    ensures c in Put(m, name, value)
    ensures Put(m, name, value)[c] == if c == name then value else m[c]
  {
  }

  /** The mutable dictionary the builder fills in. */
  class FeatureDict {
    var data: map<string, Value>

    /** Every schema column, set to Missing. */
    constructor FromSchema(schema: seq<string>)
      ensures data.Keys == set c | c in schema
      ensures forall c :: c in data ==> data[c] == Missing
    {
      data := map c | c in schema :: Missing;
    }

    /** Writes `value` under `name` only when `name` is already a column. */
    method PutIfPresent(name: string, value: Value)
      modifies this
      ensures data == Put(old(data), name, value)
    {
      if name in data {
        data := data[name := value];
      }
    }

    /** The dictionary read out in the order of `columns`. */
    function Frame(columns: seq<string>): (row: seq<(string, Value)>)
      reads this
      requires forall c :: c in columns ==> c in data
      ensures |row| == |columns|
      ensures forall i :: 0 <= i < |columns| ==> row[i].0 == columns[i] && row[i].1 == data[columns[i]]
    {
      var m := data;
      seq(|columns|, i requires 0 <= i < |columns| => (columns[i], m[columns[i]]))
    }
  }

  /** The guarded writes of the raw scalar fields and the two derived fields,
      in source order. */
  method PutScalarFields(d: FeatureDict, inp: Inputs)
    modifies d
    ensures d.data.Keys == old(d.data).Keys
    ensures forall c :: c in d.data ==>
      d.data[c] == if c in ScalarColumns then ScalarValue(c, inp) else old(d.data)[c]
  {
    ghost var m0 := d.data;

    d.PutIfPresent("beds", I(inp.beds));
    ghost var m1 := d.data;
    d.PutIfPresent("baths", I(inp.baths));
    ghost var m2 := d.data;
    d.PutIfPresent("parking", I(inp.parking));
    ghost var m3 := d.data;
    d.PutIfPresent("land_size", R(inp.landSize));
    ghost var m4 := d.data;
    d.PutIfPresent("distance_to_cbd", R(inp.distanceToCbd));
    ghost var m5 := d.data;
    d.PutIfPresent("rooms_total", I(RoomsTotal(inp)));
    ghost var m6 := d.data;

    d.PutIfPresent("nearest_supermarket", R(inp.nearestSupermarket));
    ghost var m7 := d.data;
    d.PutIfPresent("nearest_train", R(inp.nearestTrain));
    ghost var m8 := d.data;
    d.PutIfPresent("nearest_bus", R(inp.nearestBus));
    ghost var m9 := d.data;
    d.PutIfPresent("nearest_park", R(inp.nearestPark));
    ghost var m10 := d.data;
    d.PutIfPresent("amenity_access_index", R(inp.amenityIndex));

    forall c | c in m0 ensures d.data[c] == if c in ScalarColumns then ScalarValue(c, inp) else m0[c] {
      PutAt(m0, "beds", I(inp.beds), c);
      PutAt(m1, "baths", I(inp.baths), c);
      PutAt(m2, "parking", I(inp.parking), c);
      PutAt(m3, "land_size", R(inp.landSize), c);
      PutAt(m4, "distance_to_cbd", R(inp.distanceToCbd), c);
      PutAt(m5, "rooms_total", I(RoomsTotal(inp)), c);
      PutAt(m6, "nearest_supermarket", R(inp.nearestSupermarket), c);
      PutAt(m7, "nearest_train", R(inp.nearestTrain), c);
      PutAt(m8, "nearest_bus", R(inp.nearestBus), c);
      PutAt(m9, "nearest_park", R(inp.nearestPark), c);
      PutAt(m10, "amenity_access_index", R(inp.amenityIndex), c);
    }

  }

  /** One one-hot family: every column of the family that is a key is set
      to 0, in table order, and then the selected label's column to 1. */
  method PutOneHot(d: FeatureDict, family: Table, choice: string)
    requires |family.labels| == |family.columns| && choice in family.labels
    modifies d
    ensures d.data.Keys == old(d.data).Keys
    ensures forall c :: c in d.data ==>
      d.data[c] == if c in family.columns then I(if c == Lookup(family, choice) then 1 else 0) else old(d.data)[c]
  {
    ghost var base := d.data;
    for j := 0 to |family.columns|
      invariant d.data.Keys == base.Keys
      invariant forall c :: c in d.data ==> d.data[c] == if c in family.columns[..j] then I(0) else base[c]
    {
      assert family.columns[..j + 1] == family.columns[..j] + [family.columns[j]];
      d.PutIfPresent(family.columns[j], I(0));
    }
    assert family.columns[..|family.columns|] == family.columns;
    var selected := Lookup(family, choice);
    d.PutIfPresent(selected, I(1));
  }

  /** The dictionary after the three groups of writes, starting from all
      Missing, holds the reference value under every key. */
  lemma AssembleCells(m0: map<string, Value>, m1: map<string, Value>, m2: map<string, Value>,
                      m3: map<string, Value>, inp: Inputs, ptCol: string, smCol: string)
    requires forall c :: c in m0 ==> m0[c] == Missing
    requires m1.Keys == m0.Keys
    requires forall c :: c in m1 ==> m1[c] == if c in ScalarColumns then ScalarValue(c, inp) else m0[c]
    requires m2.Keys == m1.Keys
    requires forall c :: c in m2 ==> m2[c] == if c in PropertyTypes.columns then I(if c == ptCol then 1 else 0) else m1[c]
    requires m3.Keys == m2.Keys
    requires forall c :: c in m3 ==> m3[c] == if c in SaleMethods.columns then I(if c == smCol then 1 else 0) else m2[c]
    ensures m3.Keys == m0.Keys
    ensures forall c :: c in m3 ==> m3[c] == Cell(c, inp, ptCol, smCol)
  {
  }

  /** A dictionary holding the reference value under every schema column
      reads out as the reference row. */
  lemma FrameMatches(d: FeatureDict, schema: seq<string>, inp: Inputs)
    requires LabelsKnown(inp)
    requires forall c :: c in schema ==> c in d.data
    requires forall c :: c in d.data ==> d.data[c] == Cell(c, inp, PropertyTypeColumn(inp), SaleMethodColumn(inp))
    ensures d.Frame(schema) == BuildRow(schema, inp)
  {
  }

  /** Builds the row by guarded writes into a dictionary that starts with every
      schema column Missing: the scalar fields, then each one-hot family zeroed
      and its selected column set to 1; the result is read out in schema order. */
  method BuildInputRow(schema: seq<string>, inp: Inputs) returns (row: seq<(string, Value)>)
    requires LabelsKnown(inp)
    ensures row == BuildRow(schema, inp)
  {
    var d := new FeatureDict.FromSchema(schema);
    ghost var m0 := d.data;
    PutScalarFields(d, inp);
    ghost var m1 := d.data;
    PutOneHot(d, PropertyTypes, inp.propertyType);
    ghost var m2 := d.data;
    PutOneHot(d, SaleMethods, inp.saleMethod);
    AssembleCells(m0, m1, m2, d.data, inp, PropertyTypeColumn(inp), SaleMethodColumn(inp));
    FrameMatches(d, schema, inp);
    row := d.Frame(schema);
  }

  /** The names of a row's columns are pairwise distinct. */
  predicate DistinctColumns(row: seq<(string, Value)>) {
    forall i, j :: 0 <= i < j < |row| ==> row[i].0 != row[j].0
  }

  /** How many columns of `family` hold 1 in `row`. */
  function CountOnes(row: seq<(string, Value)>, family: seq<string>): nat {
    if row == [] then 0
    else (if row[0].0 in family && row[0].1 == I(1) then 1 else 0) + CountOnes(row[1..], family)
  }

  /** In a row with distinct columns where, within `family`, exactly the
      column `sel` may hold 1, the family holds one 1 when `sel` is a column
      of the row and none otherwise. */
  lemma {:induction false} OneHotCount(row: seq<(string, Value)>, family: seq<string>, sel: string)
    requires DistinctColumns(row)
    requires sel in family
    requires forall i :: 0 <= i < |row| && row[i].0 in family ==> (row[i].1 == I(1) <==> row[i].0 == sel)
    ensures CountOnes(row, family) == if exists i :: 0 <= i < |row| && row[i].0 == sel then 1 else 0
  {
    if row != [] {
      OneHotCount(row[1..], family, sel);
      if row[0].0 == sel {
        assert !exists i :: 0 <= i < |row[1..]| && row[1..][i].0 == sel;
      } else if exists i :: 0 <= i < |row| && row[i].0 == sel {
        var i :| 0 <= i < |row| && row[i].0 == sel;
        assert row[1..][i - 1].0 == sel;
      }
    }
  }

  /** Over a schema without repeated columns, each one-hot family of the
      built row ends with exactly one 1 when the selected column is in the
      schema, and with none when it is not. */
  lemma ExactlyOnePropertyType(schema: seq<string>, inp: Inputs)
    requires LabelsKnown(inp)
    requires Distinct(schema)
    ensures CountOnes(BuildRow(schema, inp), PropertyTypes.columns) ==
      if PropertyTypeColumn(inp) in schema then 1 else 0
  {
    var row := BuildRow(schema, inp);
    RowOneHot(schema, inp);
    OneHotCount(row, PropertyTypes.columns, PropertyTypeColumn(inp));
    assert (exists i :: 0 <= i < |row| && row[i].0 == PropertyTypeColumn(inp)) <==> PropertyTypeColumn(inp) in schema;
  }

  lemma ExactlyOneSaleMethod(schema: seq<string>, inp: Inputs)
    requires LabelsKnown(inp)
    requires Distinct(schema)
    ensures CountOnes(BuildRow(schema, inp), SaleMethods.columns) ==
      if SaleMethodColumn(inp) in schema then 1 else 0
  {
    var row := BuildRow(schema, inp);
    RowOneHot(schema, inp);
    OneHotCount(row, SaleMethods.columns, SaleMethodColumn(inp));
    assert (exists i :: 0 <= i < |row| && row[i].0 == SaleMethodColumn(inp)) <==> SaleMethodColumn(inp) in schema;
  }
}
