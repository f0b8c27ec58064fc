/**
 The measurement log as an abstract sequence of rows (`salvar_dados`, `carregar_dados`).
 The CSV encoding and the file system are not modelled: the file is either absent or
 holds its rows in the order they were appended.
 */
module RecordStore {
  import opened Results
  import opened Classifier

  /** One log line, in column order: name, age, height, weight, BMI, weigh date, sex code. */
  datatype Row = Row(name: string, age: int, height: real, weight: real, bmi: real, weighDate: string, sex: string)

  /** A row as loaded: the stored fields plus a classification derived from them on every load. */
  datatype LoadedRow = LoadedRow(row: Row, classification: Category)

  /** The log file: not created yet (or removed), or present with its rows. */
  datatype LogFile = Absent | Present(rows: seq<Row>)

  /** The rows a log file holds; an absent file holds none. */
  function Contents(file: LogFile): seq<Row> {
    match file
    case Absent => []
    case Present(rows) => rows
  }

  /** A row whose cohort the percentile table covers. */
  predicate Classifiable(row: Row) {
    SupportedCohort(row.age, row.sex)
  }

  /** Every row of a log can be classified, so loading it succeeds. */
  predicate AllClassifiable(rows: seq<Row>) {
    forall i :: 0 <= i < |rows| ==> Classifiable(rows[i])
  }

  /** Row k is the first row, in file order, that cannot be classified. */
  predicate FirstUnclassifiable(rows: seq<Row>, k: int) {
    && 0 <= k < |rows|
    && !Classifiable(rows[k])
    && forall j :: 0 <= j < k ==> Classifiable(rows[j])
  }

  /** Appends one row, creating the file when it is absent. */
  function Save(file: LogFile, row: Row): (result: LogFile)
    ensures result.Present?
    ensures Contents(result) == Contents(file) + [row]
  {
    Present(Contents(file) + [row])
  }

  /** Appends rows one at a time, in order. */
  function SaveAll(file: LogFile, rows: seq<Row>): LogFile
    decreases |rows|
  {
    if rows == [] then file else SaveAll(Save(file, rows[0]), rows[1..])
  }

  /**
   Classifies rows in order; the first row outside the table aborts the whole load
   with its lookup failure.
   */
  function ClassifyRows(rows: seq<Row>): (r: Result<seq<LoadedRow>>)
    ensures r.Ok? <==> AllClassifiable(rows)
    ensures r.Ok? ==> |r.value| == |rows|
    ensures r.Ok? ==> forall i :: 0 <= i < |rows| ==>
      && r.value[i].row == rows[i]
      && Classify(rows[i].bmi, rows[i].age, rows[i].sex) == Ok(r.value[i].classification)
    ensures r.Err? ==>
      exists k :: FirstUnclassifiable(rows, k) && r.error == UnsupportedCohort(rows[k].age, rows[k].sex)
  {
    if rows == [] then Ok([])
    else
      match Classify(rows[0].bmi, rows[0].age, rows[0].sex)
      case Err(e) =>
        assert FirstUnclassifiable(rows, 0);
        Err(e)
      case Ok(c) =>
        match ClassifyRows(rows[1..])
        case Err(e) =>
          var k :| FirstUnclassifiable(rows[1..], k) && e == UnsupportedCohort(rows[1..][k].age, rows[1..][k].sex);
          assert FirstUnclassifiable(rows, k + 1);
          Err(e)
        case Ok(rest) =>
          Ok([LoadedRow(rows[0], c)] + rest)
  }

  /** Reads the whole log back with a freshly computed classification per row; an absent file loads as empty. */
  function Load(file: LogFile): (r: Result<seq<LoadedRow>>)
    ensures file.Absent? ==> r == Ok([])
    ensures r.Ok? <==> AllClassifiable(Contents(file))
    ensures r.Ok? ==> |r.value| == |Contents(file)|
    ensures r.Ok? ==> forall i :: 0 <= i < |r.value| ==>
      && r.value[i].row == Contents(file)[i]
      && Classify(r.value[i].row.bmi, r.value[i].row.age, r.value[i].row.sex) == Ok(r.value[i].classification)
    ensures r.Err? ==> exists k ::
      FirstUnclassifiable(Contents(file), k) && r.error == UnsupportedCohort(Contents(file)[k].age, Contents(file)[k].sex)
  {
    match file
    case Absent => Ok([])
    case Present(rows) => ClassifyRows(rows)
  }

  /** Appending rows one by one leaves the earlier rows first and the new ones after, in order. */
  lemma {:induction false} SaveAllContents(file: LogFile, rows: seq<Row>)
    ensures Contents(SaveAll(file, rows)) == Contents(file) + rows
    decreases |rows|
  {
    if rows != [] {
      SaveAllContents(Save(file, rows[0]), rows[1..]);
      assert [rows[0]] + rows[1..] == rows;
      assert Contents(file) + [rows[0]] + rows[1..] == Contents(file) + rows;
    }
  }

  /**
   Loading a log made of n appended rows yields those n rows in insertion order,
   each with the classification of its own stored BMI, age and sex.
   */
  lemma LoadAfterSaves(rows: seq<Row>)
    requires AllClassifiable(rows)
    ensures Load(SaveAll(Absent, rows)).Ok?
    ensures |Load(SaveAll(Absent, rows)).value| == |rows|
    ensures forall i :: 0 <= i < |rows| ==>
      && Load(SaveAll(Absent, rows)).value[i].row == rows[i]
      && Classify(rows[i].bmi, rows[i].age, rows[i].sex) == Ok(Load(SaveAll(Absent, rows)).value[i].classification)
  {
    SaveAllContents(Absent, rows);
  }

  /** After one append, the load ends with that row and its classification, the earlier rows unchanged. */
  lemma SaveThenLoad(file: LogFile, row: Row)
    requires Load(file).Ok?
    requires Classifiable(row)
    ensures Load(Save(file, row)).Ok?
    ensures Load(Save(file, row)).value == Load(file).value + [LoadedRow(row, Classify(row.bmi, row.age, row.sex).value)]
  {
  }
}
