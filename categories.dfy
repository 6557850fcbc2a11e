/**
 * The category reference table: loading the id-to-name mapping from the
 * rows of the category CSV file, naming an id, and the set of ids whose
 * name is one of the configured high-risk categories.
 */
module Categories {
  import opened Text

  /** One CSV record, already split into fields. */
  type Row = seq<string>

  /** The name shown for an id the mapping does not know. */
  const UnknownCategory := "Unknown"

  /** The effect of one data row: rows with two or more fields map their stripped id to their stripped name. */
  function AddRow(m: map<string, string>, row: Row): map<string, string> {
    if |row| >= 2 then m[Strip(row[0]) := Strip(row[1])] else m
  }

  /** The mapping built from data rows, in file order. */
  function MappingOf(dataRows: seq<Row>): map<string, string> {
    if dataRows == [] then map[]
    else AddRow(MappingOf(dataRows[..|dataRows| - 1]), dataRows[|dataRows| - 1])
  }

  /** The mapping built from a whole file: the first row is the header; an empty file gives the empty mapping. */
  function CategoryMapping(rows: seq<Row>): map<string, string> {
    if rows == [] then map[] else MappingOf(rows[1..])
  }

  /** _load_category_mapping, over the rows the CSV reader yields. */
  method LoadCategoryMapping(rows: seq<Row>) returns (m: map<string, string>)
    ensures m == CategoryMapping(rows)
  {
    m := map[];
    if |rows| == 0 {
      return;
    }
    var i := 1;
    while i < |rows|
      invariant 1 <= i <= |rows|
      invariant m == MappingOf(rows[1..i])
    {
      var row := rows[i];
      if |row| >= 2 {
        m := m[Strip(row[0]) := Strip(row[1])];
      }
      assert rows[1..i + 1][..i - 1] == rows[1..i];
      i := i + 1;
    }
    assert rows[1..i] == rows[1..];
  }

  /** A data row that defines `id`. */
  predicate Defines(row: Row, id: string) {
    |row| >= 2 && Strip(row[0]) == id
  }

  /** Some row of `rows` defines `id`. */
  predicate SomeRowDefines(rows: seq<Row>, id: string) {
    exists i :: 0 <= i < |rows| && Defines(rows[i], id)
  }

  lemma AddRowKeys(m: map<string, string>, row: Row, id: string)
    ensures id in AddRow(m, row) <==> id in m || Defines(row, id)
  {
  }

  lemma SomeRowDefinesSnoc(front: seq<Row>, row: Row, id: string)
    ensures SomeRowDefines(front + [row], id) <==> SomeRowDefines(front, id) || Defines(row, id)
  {
    var rows := front + [row];
    if SomeRowDefines(front, id) {
      var i :| 0 <= i < |front| && Defines(front[i], id);
      assert rows[i] == front[i];
    }
    if Defines(row, id) {
      assert rows[|front|] == row;
    }
    if SomeRowDefines(rows, id) {
      var i :| 0 <= i < |rows| && Defines(rows[i], id);
      if i < |front| {
        assert front[i] == rows[i];
      }
    }
  }

  /** The mapping knows exactly the ids some data row defines. */
  lemma {:induction false} MappingKeys(dataRows: seq<Row>, id: string)
    ensures id in MappingOf(dataRows) <==> SomeRowDefines(dataRows, id)
  {
    if dataRows != [] {
      var front := dataRows[..|dataRows| - 1];
      var row := dataRows[|dataRows| - 1];
      assert MappingOf(dataRows) == AddRow(MappingOf(front), row);
      MappingKeys(front, id);
      AddRowKeys(MappingOf(front), row, id);
      assert dataRows == front + [row];
      SomeRowDefinesSnoc(front, row, id);
    }
  }

  /** When an id is defined more than once, the last defining row gives its name. */
  lemma {:induction false} LastRowWins(dataRows: seq<Row>, i: int)
    requires 0 <= i < |dataRows| && |dataRows[i]| >= 2
    requires forall j :: i < j < |dataRows| ==> !Defines(dataRows[j], Strip(dataRows[i][0]))
    ensures var id := Strip(dataRows[i][0]);
      id in MappingOf(dataRows) && MappingOf(dataRows)[id] == Strip(dataRows[i][1])
  {
    var front := dataRows[..|dataRows| - 1];
    if i < |dataRows| - 1 {
      assert front[i] == dataRows[i];
      forall j | i < j < |front| ensures !Defines(front[j], Strip(front[i][0])) {
        assert front[j] == dataRows[j];
      }
      LastRowWins(front, i);
    }
  }

  /** The header row never contributes, and rows with fewer than two fields are ignored. */
  lemma {:induction false} ShortRowsIgnored(dataRows: seq<Row>, row: Row)
    requires |row| < 2
    ensures MappingOf(dataRows + [row]) == MappingOf(dataRows)
    ensures forall header :: CategoryMapping([header] + dataRows) == MappingOf(dataRows)
  {
    assert (dataRows + [row])[..|dataRows|] == dataRows;
    forall header ensures CategoryMapping([header] + dataRows) == MappingOf(dataRows) {
      assert ([header] + dataRows)[1..] == dataRows;
    }
  }

  /** The name the source shows for a category id: `mapping.get(id, "Unknown")`. */
  function CategoryName(mapping: map<string, string>, id: string): (name: string)
    ensures id !in mapping ==> name == UnknownCategory
  {
    if id in mapping then mapping[id] else UnknownCategory
  }

  /** The ids whose mapped name is a high-risk category name. */
  function HighRiskIds(mapping: map<string, string>, highRiskNames: set<string>): (ids: set<string>)
    ensures ids <= mapping.Keys
  {
    set id | id in mapping && mapping[id] in highRiskNames
  }

  /** An id is high-risk exactly when the mapping knows it and names it as a high-risk category. */
  lemma HighRiskIdsIff(mapping: map<string, string>, highRiskNames: set<string>, id: string)
    ensures id in HighRiskIds(mapping, highRiskNames) <==> id in mapping && CategoryName(mapping, id) in highRiskNames
  {
  }
}
