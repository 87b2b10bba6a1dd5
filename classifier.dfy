/** The first-match range lookup the BMI and body-fat calculators run over their category tables. */
module Classifier {

  import opened Common

  /** One row of a category table: an inclusive range with its label and description. */
  datatype CategoryRange = CategoryRange(min: real, max: real, category: string, description: string)

  /** The label reported when no row of the table contains the value. */
  const UnknownLabel: string := "Unknown"

  /** The row test of the lookup: min <= value <= max, both bounds inclusive. */
  predicate Contains(row: CategoryRange, value: real)
  {
    row.min <= value <= row.max
  }

  /** The index of the first row that contains the value, if any. */
  function FirstMatch(table: seq<CategoryRange>, value: real): (r: Option<nat>)
    ensures r.Some? ==> r.value < |table| && Contains(table[r.value], value)
    ensures r.Some? ==> forall j :: 0 <= j < r.value ==> !Contains(table[j], value)
    ensures r.None? <==> forall j :: 0 <= j < |table| ==> !Contains(table[j], value)
  {
    if table == [] then None
    else if Contains(table[0], value) then Some(0)
    else match FirstMatch(table[1..], value)
      case None => None
      case Some(i) => Some(i + 1)
  }

  /** The category and description the lookup produces: those of the first containing row,
      or "Unknown" with an empty description. */
  function Classification(table: seq<CategoryRange>, value: real): (string, string)
  {
    match FirstMatch(table, value)
    case None => (UnknownLabel, "")
    case Some(i) => (table[i].category, table[i].description)
  }

  /** The lookup loop of the calculators: start from "Unknown", scan the rows in order and stop at
      the first one that contains the value. */
  method Classify(table: seq<CategoryRange>, value: real) returns (category: string, description: string)
    ensures (category, description) == Classification(table, value)
  {
    category := UnknownLabel;
    description := "";
    var i := 0;
    while i < |table|
      invariant 0 <= i <= |table|
      invariant forall j :: 0 <= j < i ==> !Contains(table[j], value)
      invariant category == UnknownLabel && description == ""
    {
      var row := table[i];
      if value >= row.min && value <= row.max {
        category := row.category;
        description := row.description;
        break;
      }
      i := i + 1;
    }
  }

  /** Rows listed in ascending order, each ending strictly below the start of every later one. */
  ghost predicate Ascending(table: seq<CategoryRange>)
  {
    forall i, j :: 0 <= i < j < |table| ==> table[i].max < table[j].min
  }

  /** No row of the table is labelled "Unknown". */
  ghost predicate KnownLabels(table: seq<CategoryRange>)
  {
    forall i :: 0 <= i < |table| ==> table[i].category != UnknownLabel
  }

  /** In an ascending table, the first match is the only match: a value in row i gets row i's label and
      description. */
  lemma AscendingMatchIsUnique(table: seq<CategoryRange>, value: real, i: nat)
    requires Ascending(table)
    requires i < |table| && Contains(table[i], value)
    ensures FirstMatch(table, value) == Some(i)
    ensures Classification(table, value) == (table[i].category, table[i].description)
  {
  }

  /** With no row labelled "Unknown", the category is "Unknown" exactly when no row contains the value;
      the description is then empty. */
  lemma UnknownIffNoRow(table: seq<CategoryRange>, value: real)
    requires KnownLabels(table)
    ensures Classification(table, value).0 == UnknownLabel <==>
            forall j :: 0 <= j < |table| ==> !Contains(table[j], value)
    ensures Classification(table, value).0 == UnknownLabel ==> Classification(table, value).1 == ""
  {
  }

  /** No two rows of the table share a label. */
  ghost predicate DistinctLabels(table: seq<CategoryRange>)
  {
    forall i, j :: 0 <= i < j < |table| ==> table[i].category != table[j].category
  }

  /** In an ascending table with distinct labels none of which is "Unknown", a value gets row k's label
      exactly when row k contains it. */
  lemma LabelIffRow(table: seq<CategoryRange>, value: real, k: nat)
    requires Ascending(table) && KnownLabels(table) && DistinctLabels(table)
    requires k < |table|
    ensures Classification(table, value).0 == table[k].category <==> Contains(table[k], value)
  {
    if Contains(table[k], value) {
      AscendingMatchIsUnique(table, value, k);
    } else {
      match FirstMatch(table, value)
      case None =>
      case Some(i) =>
        assert i != k;
        if i < k {
          assert table[i].category != table[k].category;
        } else {
          assert table[k].category != table[i].category;
        }
    }
  }
}
