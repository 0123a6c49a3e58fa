/** The two categorical families of the form: fixed dictionaries that map a
    drop-down label to the one-hot column name used in training. A dictionary
    is kept as its keys and its values, in insertion order, so that iterating
    over its values follows the table's own order. */
module Categories {

  datatype Table = Table(labels: seq<string>, columns: seq<string>)

  predicate Distinct(s: seq<string>) {
    forall i, j :: 0 <= i < j < |s| ==> s[i] != s[j]
  }

  /** Each label has one column, and no label occurs twice. */
  predicate WellFormed(t: Table) {
    |t.labels| == |t.columns| && Distinct(t.labels)
  }

  /** The first position of `x` in `s`. */
  function IndexOf(s: seq<string>, x: string): (i: nat)
    requires x in s
    ensures i < |s| && s[i] == x
    ensures forall j :: 0 <= j < i ==> s[j] != x
  {
    if s[0] == x then 0 else 1 + IndexOf(s[1..], x)
  }

  /** Dictionary lookup `t[choice]`. A label outside the table would raise
      KeyError; the drop-down offers only the table's labels, so that case is
      excluded by the precondition. */
  function Lookup(t: Table, choice: string): (col: string)
    requires |t.labels| == |t.columns|
    requires choice in t.labels
    ensures col in t.columns
    ensures Distinct(t.labels) ==>
      forall i :: 0 <= i < |t.labels| && t.labels[i] == choice ==> col == t.columns[i]
  {
    t.columns[IndexOf(t.labels, choice)]
  }

  /** The property type table (five variants). */
  const PropertyTypes: Table := Table(
    ["House", "Apartment / Unit / Flat / Studio", "Townhouse", "Villa", "Land"],
    ["property_type_house", "property_type_apartment_unit_flat_studio",
     "property_type_townhouse", "property_type_villa", "property_type_land"])

  /** The sale method table (four variants). */
  const SaleMethods: Table := Table(
    ["Private treaty", "Auction", "Prior auction", "Active (listed)"],
    ["sale_method_private_treaty", "sale_method_auction",
     "sale_method_prior_auction", "sale_method_active"])

  /** Both tables are dictionaries, the columns within each family are
      distinct, and no column belongs to both families. */
  lemma TablesWellFormed()
    ensures WellFormed(PropertyTypes) && Distinct(PropertyTypes.columns)
    ensures WellFormed(SaleMethods) && Distinct(SaleMethods.columns)
    ensures forall c :: c in PropertyTypes.columns ==> c !in SaleMethods.columns
  {
  }
}
