/** What both scrapers see of the fetched page once BeautifulSoup has parsed
    it: the tables, each table's tbody elements, each tbody's rows, and each
    row's `td` cells as their text. The failures of the row loops are
    exceptions in the source; here they are ScrapError values. */
module Html {
  import opened Wrappers
  import opened Text

  /** The `.string` of every `td` cell of one `tr`, in document order. */
  type Row = seq<string>

  datatype Table = Table(bodies: seq<seq<Row>>)

  datatype Page = Page(tables: seq<Table>)

  datatype ScrapError =
    | NotOneTable(tables: nat)      // assert len(tables) == 1
    | NotOneBody(bodies: nat)       // assert len(tbodys) == 1
    | MissingCell(index: nat)       // attrs[index] raises IndexError
    | NotAnInteger(text: string)    // int(text) raises ValueError
    | MissingClassIndex             // cfg["class"] raises KeyError
    | MissingArgument               // Rider(...) called with too few arguments

  /** The rows of the page's only tbody of its only table. */
  function SingleBody(page: Page): (r: Result<seq<Row>, ScrapError>)
    ensures r.Ok? <==> |page.tables| == 1 && |page.tables[0].bodies| == 1
    ensures r.Ok? ==> r.value == page.tables[0].bodies[0]
    ensures |page.tables| != 1 ==> r == Err(NotOneTable(|page.tables|))
    ensures |page.tables| == 1 && |page.tables[0].bodies| != 1 ==> r == Err(NotOneBody(|page.tables[0].bodies|))
  {
    if |page.tables| != 1 then Err(NotOneTable(|page.tables|))
    else if |page.tables[0].bodies| != 1 then Err(NotOneBody(|page.tables[0].bodies|))
    else Ok(page.tables[0].bodies[0])
  }

  /** `attrs[k].string`. */
  function Cell(cells: Row, k: nat): (r: Result<string, ScrapError>)
    ensures r.Ok? <==> k < |cells|
    ensures r.Ok? ==> r.value == cells[k]
    ensures r.Err? ==> r.error == MissingCell(k)
  {
    if k < |cells| then Ok(cells[k]) else Err(MissingCell(k))
  }

  /** `int(attrs[k].string)`: the index is checked before the text. */
  function IntCell(cells: Row, k: nat): (r: Result<int, ScrapError>)
    ensures r.Ok? <==> k < |cells| && ParseInt(cells[k]).Some?
    ensures r.Ok? ==> ParseInt(cells[k]) == Some(r.value)
    ensures k >= |cells| ==> r == Err(MissingCell(k))
    ensures k < |cells| && ParseInt(cells[k]).None? ==> r == Err(NotAnInteger(cells[k]))
  {
    var text :- Cell(cells, k);
    match ParseInt(text)
    case Some(n) => Ok(n)
    case None => Err(NotAnInteger(text))
  }

  /** The lines a row loop appends, one per row in row order, or the error of
      the first row whose conversion raises. */
  function LinesOf(rows: seq<Row>, toLine: Row -> Result<string, ScrapError>): (r: Result<seq<string>, ScrapError>)
    ensures r.Ok? ==> |r.value| == |rows|
    ensures r.Ok? ==> forall i :: 0 <= i < |rows| ==> toLine(rows[i]) == Ok(r.value[i])
    ensures r.Err? ==> exists k :: 0 <= k < |rows| && toLine(rows[k]) == Err(r.error)
                                   && forall j :: 0 <= j < k ==> toLine(rows[j]).Ok?
  {
    if rows == [] then Ok([])
    else
      var front := rows[..|rows| - 1];
      var last := rows[|rows| - 1];
      match LinesOf(front, toLine)
      case Err(e) => Err(e)
      case Ok(lines) =>
        match toLine(last)
        case Err(e) => Err(e)
        case Ok(line) => Ok(lines + [line])
  }

  /** A loop that has converted the first i rows without error can go on with row i. */
  lemma LinesOfStep(rows: seq<Row>, toLine: Row -> Result<string, ScrapError>, i: nat, lines: seq<string>)
    requires i < |rows| && LinesOf(rows[..i], toLine) == Ok(lines)
    ensures LinesOf(rows[..i + 1], toLine) ==
              match toLine(rows[i]) case Err(e) => Err(e) case Ok(line) => Ok(lines + [line])
  {
    assert rows[..i + 1][..i] == rows[..i];
  }

  /** When the first failing row is row i, the whole loop fails with its error. */
  lemma LinesOfFailsAt(rows: seq<Row>, toLine: Row -> Result<string, ScrapError>, i: nat, lines: seq<string>)
    requires i < |rows| && LinesOf(rows[..i], toLine) == Ok(lines) && toLine(rows[i]).Err?
    ensures LinesOf(rows, toLine) == Err(toLine(rows[i]).error)
  {
    var r := LinesOf(rows, toLine);
    forall j | 0 <= j < i ensures toLine(rows[j]).Ok? {
      assert rows[..i][j] == rows[j];
    }
    assert r.Err?;
    var k :| 0 <= k < |rows| && toLine(rows[k]) == Err(r.error)
             && forall j :: 0 <= j < k ==> toLine(rows[j]).Ok?;
    assert k == i;
  }

  /** When every row converts, the loop succeeds, and the lines avoid `c`
      when every row's line does. */
  lemma LinesOfSucceeds(rows: seq<Row>, toLine: Row -> Result<string, ScrapError>, c: char)
    requires forall k :: 0 <= k < |rows| ==> toLine(rows[k]).Ok? && c !in toLine(rows[k]).value
    ensures LinesOf(rows, toLine).Ok?
    ensures forall k :: 0 <= k < |rows| ==> c !in LinesOf(rows, toLine).value[k]
  {
    var r := LinesOf(rows, toLine);
    if r.Ok? {
      forall k | 0 <= k < |rows| ensures c !in r.value[k] {
        assert toLine(rows[k]) == Ok(r.value[k]);
      }
    }
  }

  /** The row loop: each row's line appended in row order, stopping at the
      first row that fails. */
  method ConvertRows(rows: seq<Row>, toLine: Row -> Result<string, ScrapError>) returns (r: Result<seq<string>, ScrapError>)
    ensures r == LinesOf(rows, toLine)
  {
    var lines: seq<string> := [];
    var i := 0;
    while i < |rows|
      invariant 0 <= i <= |rows|
      invariant LinesOf(rows[..i], toLine) == Ok(lines)
    {
      LinesOfStep(rows, toLine, i, lines);
      var line := toLine(rows[i]);
      if line.Err? {
        LinesOfFailsAt(rows, toLine, i, lines);
        return Err(line.error);
      }
      lines := lines + [line.value];
      i := i + 1;
    }
    assert rows[..i] == rows;
    r := Ok(lines);
  }

  /** The file content: the lines joined by newlines, no trailing newline.
      Read back line by line, it gives exactly one line per row. */
  function Content(lines: seq<string>): (text: string)
    ensures (|lines| >= 1 && forall k :: 0 <= k < |lines| ==> '\n' !in lines[k]) ==>
              Split(text, '\n') == lines
    ensures lines == [] ==> text == ""
  {
    if lines == [] then ""
    else SplitJoin(lines, '\n'); Join(lines, '\n')
  }
}
