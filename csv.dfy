/**
 * The per-cell transform of `save_jobs_to_csv`, with the text the `csv`
 * module then writes for the value (`str()`, and '' for None). Quoting,
 * the byte-order mark and the file itself are not modelled.
 */
module CsvCells {

  import opened Common
  import opened Text
  import opened Lines
  import opened JsonValues
  import opened Schema

  /**
   * scraper3.py and all_scraper.py: a list is ','-joined (empty: ''), a flag
   * is 1 or 0, None is '', a string description gets "\r\n" line breaks,
   * anything else is written as `str()` gives it.
   */
  function Cell(v: Json, isDescription: bool): string {
    match v
    case JArr(items) => if items == [] then "" else Join(",", StrEach(items))
    case JBool(b) => if b then "1" else "0"
    case JNull => ""
    case JStr(s) => if isDescription then CrLf(s) else s
    case _ => PyStr(v)
  }

  /** import.py: a list is ', '-joined (empty: ''), None is '', anything else is written as `str()` gives it. */
  function ImportCell(v: Json): string {
    match v
    case JArr(items) => if items == [] then "" else Join(", ", StrEach(items))
    case JNull => ""
    case _ => PyStr(v)
  }

  /** `str(v) for v in value`. */
  function StrEach(items: seq<Json>): (ss: seq<string>)
    ensures |ss| == |items|
    ensures forall k :: 0 <= k < |items| ==> ss[k] == PyStr(items[k])
  {
    seq(|items|, k requires 0 <= k < |items| => PyStr(items[k]))
  }

  /** The row loop of scraper3.py and all_scraper.py over the 26 keys. */
  method CsvRow(r: Record) returns (row: seq<string>)
    ensures |row| == 26
    ensures forall k :: 0 <= k < 26 ==> row[k] == Cell(Fields(r)[k], k == DescriptionColumn)
  {
    var fields := Fields(r);
    row := [];
    var k := 0;
    while k < 26
      invariant 0 <= k <= 26 && |row| == k
      invariant forall j :: 0 <= j < k ==> row[j] == Cell(fields[j], j == DescriptionColumn)
    {
      row := row + [Cell(fields[k], k == DescriptionColumn)];
      k := k + 1;
    }
  }

  /** The row loop of import.py. */
  method ImportCsvRow(r: Record) returns (row: seq<string>)
    ensures |row| == 26
    ensures forall k :: 0 <= k < 26 ==> row[k] == ImportCell(Fields(r)[k])
  {
    var fields := Fields(r);
    row := [];
    var k := 0;
    while k < 26
      invariant 0 <= k <= 26 && |row| == k
      invariant forall j :: 0 <= j < k ==> row[j] == ImportCell(fields[j])
    {
      row := row + [ImportCell(fields[k])];
      k := k + 1;
    }
  }

  // ---------------------------------------------------------------- properties

  /** The strings as JSON list items. */
  function Strs(ss: seq<string>): (items: seq<Json>)
    ensures |items| == |ss|
    ensures forall k :: 0 <= k < |ss| ==> items[k] == JStr(ss[k])
  {
    seq(|ss|, k requires 0 <= k < |ss| => JStr(ss[k]))
  }

  /** A non-empty list of comma-free strings reads back from its cell by splitting on ','. */
  lemma ListCellReadsBack(ss: seq<string>)
    requires |ss| >= 1
    requires forall k :: 0 <= k < |ss| ==> ',' !in ss[k]
    ensures SplitOn(Cell(JArr(Strs(ss)), false), {','}) == ss
  {
    assert StrEach(Strs(ss)) == ss;
    SplitOnJoin(ss, ',');
  }

  /**
   * The description cell has every line break as "\r\n", reads back to the
   * canonical text, and encoding it again changes nothing.
   */
  lemma DescriptionCell(s: string)
    ensures CrLfForm(Cell(JStr(s), true))
    ensures NormalizeNewlines(Cell(JStr(s), true)) == NormalizeNewlines(s)
    ensures Cell(JStr(Cell(JStr(s), true)), true) == Cell(JStr(s), true)
  {
    CrLfWellFormed(s);
    CrLfReadsBack(s);
    CrLfIdempotent(s);
  }

  /**
   * Flags are written as "1" for True and "0" for False by scraper3.py and
   * all_scraper.py, and as "True" and "False" by import.py; None and an
   * empty list both give an empty cell.
   */
  lemma FlagAndEmptyCells(b: bool)
    ensures Cell(JBool(b), false) == "1" <==> b
    ensures Cell(JBool(b), false) == "0" <==> !b
    ensures ImportCell(JBool(b)) == (if b then "True" else "False")
    ensures Cell(JNull, false) == Cell(JArr([]), false) == ""
    ensures ImportCell(JNull) == ImportCell(JArr([])) == ""
  {
  }
}
