# House price demo: the feature-row builder

This project models the core of a small house-price demo app (`app.py`). The
app shows a form, turns the form's inputs into one row of features, and
passes that row to a fitted regression pipeline. The row is built against a
schema: the ordered list of columns the pipeline was trained on, `FEATURES`.

The builder works as follows.

- It starts a dictionary holding every schema column with the missing
  sentinel (NaN).
- It makes a fixed sequence of guarded writes (`put_if_present`). Each write
  lands only when its column is already a key, so a column absent from the
  schema is skipped silently.
  - The raw fields `beds`, `baths`, `parking`, `land_size`,
    `distance_to_cbd` and the four `nearest_*` distances.
  - The derived `rooms_total` (`beds + baths + parking`) and the amenity
    access index.
  - Two one-hot families, property type and sale method. Each family has
    all its columns zeroed, in dictionary order, and then its selected
    label's column set to 1.
- It reads the dictionary out in schema order.

The predict action runs the builder, applies the pipeline, and displays the
row's non-missing entries.

Modules:

- `Categories` holds the two label-to-column dictionaries as `Table`s, kept
  as their keys and values in insertion order. It also holds the dictionary
  lookup and their well-formedness: distinct labels, distinct columns, and
  no column shared between the two families.
- `FeatureRow` holds the cell type `Value = Missing | I(int) | R(real)` and
  the input record `Inputs`. It also holds two descriptions of the row:
  - the reference description `BuildRow`, defined column by column through
    `Cell`;
  - the imperative builder: class `FeatureDict` with a `map` field,
    `PutIfPresent`, the two groups of writes `PutScalarFields` and
    `PutOneHot`, and `BuildInputRow`. `BuildInputRow` is proved equal to
    `BuildRow`.

  The properties of the row are proved about `BuildRow`: raw and derived
  values, one-hot contents, untouched columns, and the count of 1s per
  family.
- `Prediction` holds the non-missing filter `Shown` and the button action
  `OnPredict`. The fitted pipeline is a function parameter of
  `OnPredict`.

A row is a sequence of `(column, value)` pairs in schema order. Repeated
schema names are allowed, as in `app.py`. Each position reads the
dictionary's single entry for its name. Lemmas that count 1s assume a schema
without repeats.

## Model

| member | source | states |
|---|---|---|
| Categories.IndexOf | app.py:99 | the key search behind a dictionary lookup: the position found holds the label, and no earlier position does |
| Categories.Lookup | app.py:99 | the looked-up column is one of the table's columns, and it is the column paired with the chosen label |
| Categories.TablesWellFormed | app.py:58-70 | both tables pair each label with one column; labels and columns are distinct within a table; no column belongs to both families |
| FeatureRow.RoomsTotal | app.py:49 | `int()` of `beds + baths + parking`, modelled as truncation toward zero, equals the integer sum itself: the conversion changes nothing |
| FeatureRow.PropertyTypeColumn | app.py:99 | the selected property type column is a property type column |
| FeatureRow.SaleMethodColumn | app.py:104 | the selected sale method column is a sale method column |
| FeatureRow.ScalarValuePresent | app.py:82-94 | every scalar column the builder writes receives a non-missing value |
| FeatureRow.ScalarsOutsidePropertyTypes | app.py:58-64 | no scalar column is a property type column |
| FeatureRow.ScalarsOutsideSaleMethods | app.py:65-70 | no scalar column is a sale method column |
| FeatureRow.CellScalar | app.py:82-94 | a scalar column's reference value is its scalar value, whatever the selected one-hot columns |
| FeatureRow.CellOneHot | app.py:96-105 | in each family, the selected column is 1 and every other column of the family is 0; a column no write names is Missing |
| FeatureRow.BuildRow | app.py:79-108 | the row has exactly the schema's columns, in schema order |
| FeatureRow.RowScalars | app.py:82-94 | every scalar column of the schema holds its scalar value in the row |
| FeatureRow.RowRawFields | app.py:82-86 | `beds`, `baths`, `parking`, `land_size` and `distance_to_cbd` each hold exactly their input wherever they appear in the schema |
| FeatureRow.RowDistances | app.py:90-93 | the four `nearest_*` columns hold exactly their inputs wherever they appear |
| FeatureRow.RowDerivedFields | app.py:49-94 | `rooms_total` holds `beds + baths + parking`, and `amenity_access_index` holds the amenity index |
| FeatureRow.RowOneHot | app.py:96-105 | every present column of a family is 0 except the selected column, which is 1; when the selected column is absent, every present family column is 0 |
| FeatureRow.RowUnnamedMissing | app.py:79-105 | a schema column that is neither scalar nor one-hot stays Missing |
| FeatureRow.Put | app.py:72-75 | the guarded write keeps the key set; a missing name leaves the dictionary unchanged; otherwise the name gets the value and every other entry is untouched |
| FeatureRow.PutAt | app.py:72-75 | the guarded write seen at one key: that key's new value is the written value if the key is the name, and its old value otherwise |
| FeatureRow.FeatureDict.FromSchema | app.py:79 | the dictionary's keys are exactly the schema's columns, and each holds Missing |
| FeatureRow.FeatureDict.PutIfPresent | app.py:72-75 | the new dictionary is the guarded write of the old one |
| FeatureRow.PutScalarFields | app.py:82-94 | after the eleven writes the keys are unchanged; each scalar key holds its scalar value and every other key keeps its old value |
| FeatureRow.PutOneHot | app.py:96-105 | after zeroing a family and setting its selected column, the keys are unchanged; family keys hold 1 for the looked-up column and 0 otherwise; other keys keep their old values |
| FeatureRow.AssembleCells | app.py:79-105 | starting from all Missing, the three groups of writes leave every key holding its reference value |
| FeatureRow.FeatureDict.Frame | app.py:108 | the frame has one entry per requested column, in the requested order, each holding the dictionary's value for that column |
| FeatureRow.FrameMatches | app.py:108 | a dictionary holding the reference value under every schema column reads out, in schema order, as the reference row |
| FeatureRow.BuildInputRow | app.py:77-108 | the imperative builder returns exactly the reference row |
| FeatureRow.OneHotCount | app.py:96-105 | in a row with distinct columns where only the selected column of a family may hold 1, the family holds one 1 if the selected column is in the row and none otherwise |
| FeatureRow.ExactlyOnePropertyType | app.py:96-100 | over a schema without repeats, the property type family holds exactly one 1 when the selected column is in the schema, and none otherwise |
| FeatureRow.ExactlyOneSaleMethod | app.py:102-105 | the same for the sale method family |
| Prediction.Shown | app.py:118 | the displayed entries are exactly the row's non-missing entries, and there are no more of them than row entries |
| Prediction.ShownDropsMissing | app.py:118 | the filter removes as many entries as are missing, and filtering twice changes nothing |
| Prediction.ShownAppend | app.py:118 | filtering a concatenation is the concatenation of the filtered parts, so the displayed entries keep the row's order and each position is kept or dropped in place |
| Prediction.ShownBuiltRow | app.py:79-118 | an entry of the built row is displayed exactly when its column is a scalar or one-hot column |
| Prediction.OnPredict | app.py:112-119 | the prediction is the pipeline applied to the reference row, and the displayed table holds exactly that row's non-missing entries |

## Left out

- The Streamlit page, widgets, layout, button and expander (app.py:7, 14-48,
  56, 111-119) are not modelled. The bounds the number inputs enforce
  (app.py:22-35) and the drop-down options are the predicate `FromWidgets`,
  which `OnPredict` requires. The builder itself needs only the labels to be
  known (`LabelsKnown`).
- Loading the artifact with `joblib` (app.py:10-12) is file I/O. The schema
  is a parameter instead.
- `pipe.predict` (app.py:114) is an opaque fitted pipeline. It is the
  function parameter `predictor`. That parameter is a total function, so
  `OnPredict` always returns a prediction; a pipeline that raises, with the
  exception reaching the page, is not modelled.
- The floating-point formula for `amenity_access_index` (app.py:50-55) is not
  modelled. The index is an opaque real field of `Inputs`, and the model
  proves only that it lands in its column.
- Reals are mathematical reals, not IEEE doubles. The input floats are copied
  unchanged, so no rounding arises in the modelled code.
- pandas frame construction, dtype coercion of the 0/1 flags to floats, and
  currency formatting (app.py:108, 115, 119) are not modelled. The frame is a
  sequence of (column, value) pairs.
- Categories.Lookup: the `KeyError` for a label outside a table (app.py:99,
  104) is excluded by a precondition, because the drop-downs offer only the
  tables' labels.
- Prediction.Shown: `app.py` builds a dictionary at line 118. With
  repeated schema names it keeps one entry per name; the model keeps every
  non-missing position.
- The helper methods `PutScalarFields` and `PutOneHot` split
  `build_input_row` along its own commented sections. They are not separate
  functions in `app.py`.
