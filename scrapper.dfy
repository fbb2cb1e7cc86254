/** velogames/scrapper.py: the stand-alone scraper of the four-field rider
    list (name, team, score, cost), with fixed cell positions. */
module Scrapper {
  import opened Wrappers
  import opened Text
  import opened Html

  /** The fields `Rider.__init__` stores, unchanged. */
  datatype Rider = Rider(name: string, team: string, score: int, cost: int)

  /** The `csv` property: name, team, score and cost joined by commas. */
  function Csv(r: Rider): (line: string)
    ensures CountChar(line, ',') == CountChar(r.name, ',') + CountChar(r.team, ',') + 3
    ensures (',' !in r.name && ',' !in r.team) ==>
              Split(line, ',') == [r.name, r.team, IntToString(r.score), IntToString(r.cost)]
    ensures ('\n' !in r.name && '\n' !in r.team) ==> '\n' !in line
  {
    var fields := [r.name, r.team, IntToString(r.score), IntToString(r.cost)];
    CountJoin(fields, ',');
    SplitJoin(fields, ',');
    NumericFree(r.score, ',');
    NumericFree(r.cost, ',');
    NumericFree(r.score, '\n');
    NumericFree(r.cost, '\n');
    JoinAvoids(fields, ',', '\n');
    FieldCommas(r);
    Join(fields, ',')
  }

  /** Only name and team contribute commas: the numbers are rendered without any. */
  lemma FieldCommas(r: Rider)
    ensures CountAll([r.name, r.team, IntToString(r.score), IntToString(r.cost)], ',') ==
            CountChar(r.name, ',') + CountChar(r.team, ',')
  {
    var s, c := IntToString(r.score), IntToString(r.cost);
    NumericFree(r.score, ',');
    NumericFree(r.cost, ',');
    assert CountAll([c], ',') == 0 by { assert [c][1..] == []; }
    assert CountAll([s, c], ',') == 0 by { assert [s, c][1..] == [c]; }
    assert CountAll([r.team, s, c], ',') == CountChar(r.team, ',') by { assert [r.team, s, c][1..] == [s, c]; }
    assert [r.name, r.team, s, c][1..] == [r.team, s, c];
  }

  /** The four-column read of a csv line (name, team, score, cost). */
  function FromCsv(line: string): Option<Rider>
  {
    var f := Split(line, ',');
    if |f| != 4 then None
    else
      match (ParseInt(f[2]), ParseInt(f[3]))
      case (Some(score), Some(cost)) => Some(Rider(f[0], f[1], score, cost))
      case _ => None
  }

  lemma CsvRoundTrip(r: Rider)
    requires ',' !in r.name && ',' !in r.team
    ensures FromCsv(Csv(r)) == Some(r)
  {
    IntRoundTrip(r.score);
    IntRoundTrip(r.cost);
  }

  /** One row of the table: name in cell 1, team in cell 2, score parsed
      from cell 4 and cost from cell 3, read in that order. */
  function RowToRider(cells: Row): (r: Result<Rider, ScrapError>)
    ensures r.Ok? <==> |cells| >= 5 && ParseInt(cells[4]).Some? && ParseInt(cells[3]).Some?
    ensures r.Ok? ==> r.value.name == cells[1] && r.value.team == cells[2]
                      && ParseInt(cells[4]) == Some(r.value.score) && ParseInt(cells[3]) == Some(r.value.cost)
    ensures |cells| < 2 ==> r == Err(MissingCell(1))
    ensures |cells| == 2 ==> r == Err(MissingCell(2))
    ensures 3 <= |cells| < 5 ==> r == Err(MissingCell(4))
    ensures |cells| >= 5 && ParseInt(cells[4]).None? ==> r == Err(NotAnInteger(cells[4]))
    ensures |cells| >= 5 && ParseInt(cells[4]).Some? && ParseInt(cells[3]).None? ==> r == Err(NotAnInteger(cells[3]))
  {
    var name :- Cell(cells, 1);
    var team :- Cell(cells, 2);
    var score :- IntCell(cells, 4);
    var cost :- IntCell(cells, 3);
    Ok(Rider(name, team, score, cost))
  }

  /** The line the loop appends for one row. */
  function RowLine(cells: Row): Result<string, ScrapError>
  {
    var r :- RowToRider(cells);
    Ok(Csv(r))
  }

  /** The text written to riders.csv, or the exception that stops the scrape. */
  function ScrapOutput(page: Page): Result<string, ScrapError>
  {
    var rows :- SingleBody(page);
    var lines :- LinesOf(rows, RowLine);
    Ok(Content(lines))
  }

  /** A page whose one table has one tbody of well-formed rows scrapes
      successfully, and reading the output back gives one line per row, line
      i splitting into row i's name, team, score and cost. */
  lemma ScrapOutputLines(rows: seq<Row>, i: nat)
    requires i < |rows|
    requires forall k :: 0 <= k < |rows| ==> RowToRider(rows[k]).Ok?
    requires forall k :: 0 <= k < |rows| ==> |rows[k]| >= 5 && '\n' !in rows[k][1] && '\n' !in rows[k][2]
    requires ',' !in rows[i][1] && ',' !in rows[i][2]
    ensures var out := ScrapOutput(Page([Table([rows])]));
            out.Ok? && |Split(out.value, '\n')| == |rows| &&
            FromCsv(Split(out.value, '\n')[i]) == Some(RowToRider(rows[i]).value)
  {
    assert forall k :: 0 <= k < |rows| ==> RowLine(rows[k]).Ok?;
    var lines := LinesOf(rows, RowLine).value;
    forall k | 0 <= k < |lines| ensures '\n' !in lines[k] {
      assert RowLine(rows[k]) == Ok(lines[k]);
    }
    assert RowLine(rows[i]) == Ok(lines[i]);
    CsvRoundTrip(RowToRider(rows[i]).value);
  }

  /** The row loop of `scrap`: one line per row appended in order, then the
      lines joined by newlines. */
  method Scrap(page: Page) returns (r: Result<string, ScrapError>)
    ensures r == ScrapOutput(page)
  {
    var body := SingleBody(page);
    if body.Err? {
      return Err(body.error);
    }
    var rows := body.value;
    var lines: seq<string> := [];
    var i := 0;
    while i < |rows|
      invariant 0 <= i <= |rows|
      invariant LinesOf(rows[..i], RowLine) == Ok(lines)
    {
      LinesOfStep(rows, RowLine, i, lines);
      var rider := RowToRider(rows[i]);
      if rider.Err? {
        LinesOfFailsAt(rows, RowLine, i, lines);
        return Err(rider.error);
      }
      lines := lines + [Csv(rider.value)];
      i := i + 1;
    }
    assert rows[..i] == rows;
    r := Ok(Content(lines));
  }
}
