/** velogames/computer.py: the `Computer` object that scrapes or is given the
    rider pool, builds the optimisation instance (`init`), solves it
    (`compute`) and writes the announcement (`publish`). */
module Computer {
  import opened Wrappers
  import opened Text
  import opened Html
  import opened Rules
  import Solver
  import Riders
  import Scrapper

  /** The game configuration's `tab` table: the cell index of each field; the
      class index is read for the grand tour only. */
  datatype Tab = Tab(name: nat, team: nat, score: nat, cost: nat, rclass: Option<nat>)

  /** The values one table row yields. */
  datatype Fields = Fields(name: string, team: string, score: int, cost: int, rclass: string)

  /** `self.riders["<category>"]` on a column that does not exist: KeyError. */
  datatype InitError = MissingColumn(category: string)

  // ---- scrap: from table rows to csv lines ----

  /** The cells of one row read through the `tab` indices, in the order the
      loop reads them: name, team, score, cost, then the class for the grand tour. */
  function ReadRow(gt: GameType, tab: Tab, iclass: nat, cells: Row): (r: Result<Fields, ScrapError>)
    ensures r.Ok? <==> tab.name < |cells| && tab.team < |cells| &&
                       tab.score < |cells| && ParseInt(cells[tab.score]).Some? &&
                       tab.cost < |cells| && ParseInt(cells[tab.cost]).Some? &&
                       (gt == GrandTour ==> iclass < |cells|)
    ensures r.Ok? ==> r.value.name == cells[tab.name] && r.value.team == cells[tab.team] &&
                      ParseInt(cells[tab.score]) == Some(r.value.score) &&
                      ParseInt(cells[tab.cost]) == Some(r.value.cost) &&
                      r.value.rclass == (if gt == GrandTour then cells[iclass] else "")
  {
    var name :- Cell(cells, tab.name);
    var team :- Cell(cells, tab.team);
    var score :- IntCell(cells, tab.score);
    var cost :- IntCell(cells, tab.cost);
    var rclass :- if gt == GrandTour then Cell(cells, iclass) else Ok("");
    Ok(Fields(name, team, score, cost, rclass))
  }

  /** The line for one row AS WRITTEN. For the grand tour the call
      `Rider(name, team, score, cost, rclass)` binds the score to the
      `rclass` parameter, the cost to `score` and the class to `cost`, so
      the csv renders them in the order score, cost, class. For the other
      game types the call passes four arguments to a five-parameter
      constructor: a TypeError. */
  function RowLineAsWritten(gt: GameType, tab: Tab, iclass: nat, cells: Row): Result<string, ScrapError>
  {
    var f :- ReadRow(gt, tab, iclass, cells);
    if gt == GrandTour then Ok(Join([f.name, f.team, IntToString(f.score), IntToString(f.cost), f.rclass], ','))
    else Err(MissingArgument)
  }

  /** The line for one row as the readers at lines 75-79 expect it: the
      five-field rider.py line for the grand tour, the four-field line of
      scrapper.py otherwise. */
  function RowLine(gt: GameType, tab: Tab, iclass: nat, cells: Row): Result<string, ScrapError>
  {
    var f :- ReadRow(gt, tab, iclass, cells);
    if gt == GrandTour then Ok(Riders.Csv(Riders.Rider(f.name, f.team, f.rclass, f.score, f.cost)))
    else Ok(Scrapper.Csv(Scrapper.Rider(f.name, f.team, f.score, f.cost)))
  }

  function RowLineFor(gt: GameType, tab: Tab, iclass: nat): Row -> Result<string, ScrapError>
  {
    cells => RowLine(gt, tab, iclass, cells)
  }

  function RowLineAsWrittenFor(gt: GameType, tab: Tab, iclass: nat): Row -> Result<string, ScrapError>
  {
    cells => RowLineAsWritten(gt, tab, iclass, cells)
  }

  /** The class cell index, when the configuration gives one. */
  function IClass(tab: Tab): nat
  {
    if tab.rclass.Some? then tab.rclass.value else 0
  }

  /** The text fields a row yields carry no `c` (a row that fails to read
      yields none). */
  predicate RowAvoids(gt: GameType, tab: Tab, cells: Row, c: char)
  {
    var r := ReadRow(gt, tab, IClass(tab), cells);
    r.Ok? ==> c !in r.value.name && c !in r.value.team && c !in r.value.rclass
  }

  /** The text written to riders.csv, or the exception that stops `scrap`. */
  function ScrapOutput(gt: GameType, tab: Tab, page: Page): Result<string, ScrapError>
  {
    var rows :- SingleBody(page);
    if gt == GrandTour && tab.rclass.None? then Err(MissingClassIndex)
    else
      var lines :- LinesOf(rows, RowLineFor(gt, tab, IClass(tab)));
      Ok(Content(lines))
  }

  /** As written, a grand-tour line carries the score where the five-column
      read expects the class and the class where it expects the cost: the
      read fails whenever the class text is not an integer, and otherwise
      yields the score as the class. */
  lemma AsWrittenGrandTourLineMisplacesFields(tab: Tab, iclass: nat, cells: Row)
    requires ReadRow(GrandTour, tab, iclass, cells).Ok?
    requires var f := ReadRow(GrandTour, tab, iclass, cells).value;
             ',' !in f.name && ',' !in f.team && ',' !in f.rclass
    ensures var f := ReadRow(GrandTour, tab, iclass, cells).value;
            var line := RowLineAsWritten(GrandTour, tab, iclass, cells).value;
            Split(line, ',') == [f.name, f.team, IntToString(f.score), IntToString(f.cost), f.rclass] &&
            (ParseInt(f.rclass).None? ==> Riders.FromCsv(line).None?) &&
            (Riders.FromCsv(line).Some? ==> Riders.FromCsv(line).value.rclass == IntToString(f.score))
  {
    var f := ReadRow(GrandTour, tab, iclass, cells).value;
    var fields := [f.name, f.team, IntToString(f.score), IntToString(f.cost), f.rclass];
    NumericFree(f.score, ',');
    NumericFree(f.cost, ',');
    SplitJoin(fields, ',');
  }

  /** As written, the five-column read of the scraped grand-tour file takes
      each line's third field, the score's decimal text, as the rider's
      class. A pool whose every class is such a rendering has no
      "All Rounder" rider, so building the grand-tour instance fails on the
      first category column it looks up. */
  lemma AsWrittenGrandTourPoolLacksCategories(rs: seq<Entry>)
    requires forall i :: 0 <= i < |rs| ==> exists n: int :: rs[i].rclass == IntToString(n)
    ensures MissingCategory(rs) == Some(AllRounder)
  {
    forall i | 0 <= i < |rs| ensures rs[i].rclass != AllRounder {
      var n: int :| rs[i].rclass == IntToString(n);
      assert !IsDigit(AllRounder[0]) && AllRounder[0] != '-';
    }
  }

  /** Corrected, a grand-tour line reads back as the row's rider. */
  lemma GrandTourLineReadsBack(tab: Tab, iclass: nat, cells: Row)
    requires ReadRow(GrandTour, tab, iclass, cells).Ok?
    requires var f := ReadRow(GrandTour, tab, iclass, cells).value;
             ',' !in f.name && ',' !in f.team && ',' !in f.rclass
    ensures var f := ReadRow(GrandTour, tab, iclass, cells).value;
            Riders.FromCsv(RowLine(GrandTour, tab, iclass, cells).value) ==
              Some(Riders.Rider(f.name, f.team, f.rclass, f.score, f.cost))
  {
    var f := ReadRow(GrandTour, tab, iclass, cells).value;
    Riders.CsvRoundTrip(Riders.Rider(f.name, f.team, f.rclass, f.score, f.cost));
  }

  /** As written, scraping for any game type but the grand tour fails on
      every table that has a row. */
  lemma AsWrittenOtherGamesFail(gt: GameType, tab: Tab, iclass: nat, rows: seq<Row>)
    requires gt != GrandTour && |rows| >= 1
    ensures LinesOf(rows, RowLineAsWrittenFor(gt, tab, iclass)).Err?
  {
    var toLine := RowLineAsWrittenFor(gt, tab, iclass);
    assert toLine(rows[0]).Err?;
  }

  /** Corrected, a line of another game type reads back as the row's rider
      through the four-column read. */
  lemma OtherGamesLineReadsBack(gt: GameType, tab: Tab, iclass: nat, cells: Row)
    requires gt != GrandTour && ReadRow(gt, tab, iclass, cells).Ok?
    requires var f := ReadRow(gt, tab, iclass, cells).value; ',' !in f.name && ',' !in f.team
    ensures var f := ReadRow(gt, tab, iclass, cells).value;
            Scrapper.FromCsv(RowLine(gt, tab, iclass, cells).value) == Some(Scrapper.Rider(f.name, f.team, f.score, f.cost))
  {
    var f := ReadRow(gt, tab, iclass, cells).value;
    Scrapper.CsvRoundTrip(Scrapper.Rider(f.name, f.team, f.score, f.cost));
  }

  /** A corrected line carries no newline when the row's text fields carry none. */
  lemma RowLineAvoidsNewline(gt: GameType, tab: Tab, cells: Row)
    requires ReadRow(gt, tab, IClass(tab), cells).Ok? && RowAvoids(gt, tab, cells, '\n')
    ensures '\n' !in RowLine(gt, tab, IClass(tab), cells).value
  {
  }

  /** Every row of the tbody converts to a newline-free line. */
  lemma RowLinesAvoidNewline(gt: GameType, tab: Tab, rows: seq<Row>)
    requires forall k :: 0 <= k < |rows| ==> ReadRow(gt, tab, IClass(tab), rows[k]).Ok?
    requires forall k :: 0 <= k < |rows| ==> RowAvoids(gt, tab, rows[k], '\n')
    ensures forall k :: 0 <= k < |rows| ==>
              RowLineFor(gt, tab, IClass(tab))(rows[k]).Ok? && '\n' !in RowLineFor(gt, tab, IClass(tab))(rows[k]).value
  {
    forall k | 0 <= k < |rows|
      ensures RowLineFor(gt, tab, IClass(tab))(rows[k]).Ok? && '\n' !in RowLineFor(gt, tab, IClass(tab))(rows[k]).value
    {
      RowLineAvoidsNewline(gt, tab, rows[k]);
    }
  }

  /** Corrected, `scrap` of a page whose one table has one tbody of
      readable rows succeeds, and its output splits back into the lines. */
  lemma ScrapSucceeds(gt: GameType, tab: Tab, rows: seq<Row>)
    requires gt == GrandTour ==> tab.rclass.Some?
    requires forall k :: 0 <= k < |rows| ==> ReadRow(gt, tab, IClass(tab), rows[k]).Ok?
    requires forall k :: 0 <= k < |rows| ==> RowAvoids(gt, tab, rows[k], '\n')
    ensures LinesOf(rows, RowLineFor(gt, tab, IClass(tab))).Ok?
    ensures var lines := LinesOf(rows, RowLineFor(gt, tab, IClass(tab))).value;
            ScrapOutput(gt, tab, Page([Table([rows])])) == Ok(Content(lines)) &&
            (|rows| >= 1 ==> Split(Content(lines), '\n') == lines)
  {
    var toLine := RowLineFor(gt, tab, IClass(tab));
    RowLinesAvoidNewline(gt, tab, rows);
    LinesOfSucceeds(rows, toLine, '\n');
    ScrapOutputOfRows(gt, tab, rows, LinesOf(rows, toLine).value);
  }

  /** The scrape of a page whose one table has one tbody is the newline join
      of its rows' lines, once every row has one. */
  lemma ScrapOutputOfRows(gt: GameType, tab: Tab, rows: seq<Row>, lines: seq<string>)
    requires gt == GrandTour ==> tab.rclass.Some?
    requires LinesOf(rows, RowLineFor(gt, tab, IClass(tab))) == Ok(lines)
    ensures ScrapOutput(gt, tab, Page([Table([rows])])) == Ok(Content(lines))
  {
    assert SingleBody(Page([Table([rows])])) == Ok(rows);
  }

  /** Corrected, `scrap` writes what the constructor reads back: one line
      per table row, and line i read with the game's column names gives row
      i's fields. */
  lemma ScrapOutputReadsBack(gt: GameType, tab: Tab, rows: seq<Row>, i: nat)
    requires gt == GrandTour ==> tab.rclass.Some?
    requires i < |rows|
    requires forall k :: 0 <= k < |rows| ==> ReadRow(gt, tab, IClass(tab), rows[k]).Ok?
    requires forall k :: 0 <= k < |rows| ==> RowAvoids(gt, tab, rows[k], '\n')
    requires RowAvoids(gt, tab, rows[i], ',')
    ensures var out := ScrapOutput(gt, tab, Page([Table([rows])]));
            var f := ReadRow(gt, tab, IClass(tab), rows[i]).value;
            out.Ok? && |Split(out.value, '\n')| == |rows| &&
            (gt == GrandTour ==>
               Riders.FromCsv(Split(out.value, '\n')[i]) == Some(Riders.Rider(f.name, f.team, f.rclass, f.score, f.cost))) &&
            (gt != GrandTour ==>
               Scrapper.FromCsv(Split(out.value, '\n')[i]) == Some(Scrapper.Rider(f.name, f.team, f.score, f.cost)))
  {
    ScrapSucceeds(gt, tab, rows);
    var toLine := RowLineFor(gt, tab, IClass(tab));
    var lines := LinesOf(rows, toLine).value;
    assert toLine(rows[i]) == Ok(lines[i]);
    if gt == GrandTour {
      GrandTourLineReadsBack(tab, IClass(tab), rows[i]);
    } else {
      OtherGamesLineReadsBack(gt, tab, IClass(tab), rows[i]);
    }
  }

  // ---- publish: the announcement ----

  function Title(game: string): string
  {
    "Best possible team for " + game + ":"
  }

  /** One line per team member, each ended by a newline. */
  function NameLines(team: seq<Entry>): string
  {
    if team == [] then "" else team[0].name + "\n" + NameLines(team[1..])
  }

  function Names(team: seq<Entry>): seq<string>
  {
    seq(|team|, k requires 0 <= k < |team| => team[k].name)
  }

  /** The announcement: a title, a blank line, the team's names, the score and the cost. */
  function Report(game: string, team: seq<Entry>, score: nat, cost: nat): string
  {
    Title(game) + "\n\n" + NameLines(team) + "Score: " + IntToString(score) + "\n" + "Cost: " + IntToString(cost)
  }

  /** Sum of a team's scores (`team.score.sum()`). */
  function TeamScore(team: seq<Entry>): nat
  {
    if team == [] then 0 else TeamScore(team[..|team| - 1]) + team[|team| - 1].score
  }

  /** Sum of a team's costs. */
  function TeamCost(team: seq<Entry>): nat
  {
    if team == [] then 0 else TeamCost(team[..|team| - 1]) + team[|team| - 1].cost
  }

  /** The sums over the filtered frame are the objective and the cost of the choice. */
  lemma {:induction false} TeamSums(rs: seq<Entry>, ch: seq<bool>)
    requires |ch| == |rs|
    ensures TeamScore(Selected(rs, ch)) == Score(rs, ch)
    ensures TeamCost(Selected(rs, ch)) == TotalCost(rs, ch)
  {
    if rs != [] {
      var front, last := Selected(rs[..|rs| - 1], ch[..|ch| - 1]), rs[|rs| - 1];
      TeamSums(rs[..|rs| - 1], ch[..|ch| - 1]);
      if ch[|ch| - 1] {
        assert (front + [last])[..|front|] == front;
      } else {
        assert front + [] == front;
      }
    }
  }

  lemma {:induction false} NameLinesAppend(team: seq<Entry>, e: Entry)
    ensures NameLines(team + [e]) == NameLines(team) + e.name + "\n"
  {
    if team == [] {
      assert [e][1..] == [];
    } else {
      assert (team + [e])[1..] == team[1..] + [e];
      NameLinesAppend(team[1..], e);
    }
  }

  lemma {:induction false} NameLinesSplit(team: seq<Entry>, rest: string)
    requires forall k :: 0 <= k < |team| ==> '\n' !in team[k].name
    ensures Split(NameLines(team) + rest, '\n') == Names(team) + Split(rest, '\n')
  {
    if team == [] {
      assert NameLines(team) + rest == rest;
    } else {
      var head, tail := team[0].name, NameLines(team[1..]) + rest;
      calc {
        Split(NameLines(team) + rest, '\n');
        { assert NameLines(team) + rest == head + ['\n'] + tail; }
        Split(head + ['\n'] + tail, '\n');
        { SplitAfter(head, tail, '\n'); }
        [head] + Split(tail, '\n');
        { NameLinesSplit(team[1..], rest); }
        [head] + (Names(team[1..]) + Split(rest, '\n'));
        { assert Names(team) == [head] + Names(team[1..]); }
        Names(team) + Split(rest, '\n');
      }
    }
  }

  lemma TwoLines(a: string, b: string)
    requires '\n' !in a && '\n' !in b
    ensures Split(a + ['\n'] + b, '\n') == [a, b]
  {
    SplitFree(b, '\n');
    SplitAfter(a, b, '\n');
  }

  lemma TitleThenBlank(t: string, body: string)
    requires '\n' !in t
    ensures Split(t + ['\n'] + ['\n'] + body, '\n') == [t, ""] + Split(body, '\n')
  {
    assert t + ['\n'] + ['\n'] + body == t + ['\n'] + ([] + ['\n'] + body);
    SplitAfter(t, [] + ['\n'] + body, '\n');
    SplitAfter([], body, '\n');
  }

  lemma LineFree(prefix: string, n: int)
    requires '\n' !in prefix
    ensures '\n' !in prefix + IntToString(n)
  {
    NumericFree(n, '\n');
  }

  lemma ReportShape(game: string, team: seq<Entry>, score: nat, cost: nat)
    ensures Report(game, team, score, cost) ==
            Title(game) + ['\n'] + ['\n'] +
            (NameLines(team) + (("Score: " + IntToString(score)) + ['\n'] + ("Cost: " + IntToString(cost))))
  {
  }

  /** Read line by line, the announcement is the title, an empty line, one
      name per team member in team order, the score line and the cost line. */
  lemma ReportLines(game: string, team: seq<Entry>, score: nat, cost: nat)
    requires '\n' !in game && forall k :: 0 <= k < |team| ==> '\n' !in team[k].name
    ensures Split(Report(game, team, score, cost), '\n') ==
            [Title(game), ""] + Names(team) + ["Score: " + IntToString(score), "Cost: " + IntToString(cost)]
  {
    var s, c := "Score: " + IntToString(score), "Cost: " + IntToString(cost);
    LineFree("Score: ", score);
    LineFree("Cost: ", cost);
    var tail := s + ['\n'] + c;
    var body := NameLines(team) + tail;
    NameLinesSplit(team, tail);
    TwoLines(s, c);
    assert Split(body, '\n') == Names(team) + [s, c];
    TitleFree(game);
    ReportShape(game, team, score, cost);
    TitleThenBlank(Title(game), body);
    assert [Title(game), ""] + (Names(team) + [s, c]) == [Title(game), ""] + Names(team) + [s, c];
  }

  lemma TitleFree(game: string)
    requires '\n' !in game
    ensures '\n' !in Title(game)
  {
  }

  // ---- init: indicator columns and the instance ----

  /** The loop of `init` that adds, for each distinct class value in order of
      first appearance, the column that is 1 exactly on the riders of that
      class. */
  method IndicatorColumns(rs: seq<Entry>) returns (columns: map<string, seq<nat>>)
    ensures OneHotColumns(rs, columns)
  {
    var values := Distinct(Classes(rs));
    columns := map[];
    var k := 0;
    while k < |values|
      invariant 0 <= k <= |values|
      invariant forall c :: c in columns <==> c in values[..k]
      invariant forall c :: c in columns ==> columns[c] == OneHot(rs, c)
    {
      assert values[..k + 1] == values[..k] + [values[k]];
      columns := columns[values[k] := OneHot(rs, values[k])];
      k := k + 1;
    }
    assert values[..k] == values;
    DistinctColumnsAreOneHot(rs, values, columns);
  }

  ghost predicate Present(rs: seq<Entry>, category: string)
  {
    exists i :: 0 <= i < |rs| && rs[i].rclass == category
  }

  /** The first grand-tour category that no rider of the pool has. */
  ghost function MissingCategory(rs: seq<Entry>): Option<string>
  {
    if !Present(rs, AllRounder) then Some(AllRounder)
    else if !Present(rs, Climber) then Some(Climber)
    else if !Present(rs, Sprinter) then Some(Sprinter)
    else if !Present(rs, Unclassed) then Some(Unclassed)
    else None
  }

  /** The four grand-tour rules, looking up the category columns in the
      order the source does; the first missing one is the KeyError. */
  function GrandTourRules(columns: map<string, seq<nat>>): (r: Result<seq<Quota>, InitError>)
    ensures r.Ok? <==> AllRounder in columns && Climber in columns && Sprinter in columns && Unclassed in columns
    ensures r.Ok? ==> r.value == GrandTourQuotas(columns)
    ensures r.Err? ==> r.error.category == (if AllRounder !in columns then AllRounder
                                            else if Climber !in columns then Climber
                                            else if Sprinter !in columns then Sprinter
                                            else Unclassed)
  {
    if AllRounder !in columns then Err(MissingColumn(AllRounder))
    else if Climber !in columns then Err(MissingColumn(Climber))
    else if Sprinter !in columns then Err(MissingColumn(Sprinter))
    else if Unclassed !in columns then Err(MissingColumn(Unclassed))
    else Ok(GrandTourQuotas(columns))
  }

  /** A category column is missing exactly when no rider has that class, so
      building the grand-tour instance fails on the first category absent
      from the pool. */
  lemma MissingCategoryIsMissingColumn(rs: seq<Entry>, columns: map<string, seq<nat>>)
    requires OneHotColumns(rs, columns)
    ensures GrandTourRules(columns).Ok? <==> MissingCategory(rs).None?
    ensures GrandTourRules(columns).Err? ==> MissingCategory(rs) == Some(GrandTourRules(columns).error.category)
  {
    assert forall c :: c in columns <==> Present(rs, c);
  }

  /** The `Computer` object. Reading riders.csv is outside the model: the
      constructor takes the pool as that read yields it. `init` is a method
      of its own because it can fail. */
  class Computer {
    const gameType: GameType
    const gameName: string
    const tab: Tab

    /** The rider DataFrame's own columns. */
    var riders: seq<Entry>
    /** The indicator columns `init` adds for the grand tour. */
    var columns: map<string, seq<nat>>
    /** The optimisation instance `init` attaches to the model. */
    var problem: Problem
    var built: bool
    /** The `chosen` column and the `team` frame `compute` sets. */
    var chosen: seq<bool>
    var team: seq<Entry>
    var computed: bool

    ghost predicate Valid()
      reads this
    {
      (built ==> Encodes(problem, riders, gameType)) &&
      (computed ==> built && |chosen| == |riders| && team == Selected(riders, chosen))
    }

    constructor (gameType: GameType, gameName: string, tab: Tab, riders: seq<Entry>)
      ensures Valid() && !built && !computed
      ensures this.gameType == gameType && this.gameName == gameName && this.tab == tab
      ensures this.riders == riders && columns == map[]
    {
      this.gameType := gameType;
      this.gameName := gameName;
      this.tab := tab;
      this.riders := riders;
      columns := map[];
      problem := Problem([], [], []);
      built := false;
      chosen := [];
      team := [];
      computed := false;
    }

    /** `init`: for the grand tour, one indicator column per class value;
        then the instance, whose grand-tour rules look up the four category
        columns and fail on the first that does not exist. */
    method Init() returns (err: Option<InitError>)
      requires Valid() && !built && !computed
      modifies this
      ensures Valid() && riders == old(riders) && !computed
      ensures gameType == GrandTour ==> OneHotColumns(riders, columns)
      ensures gameType != GrandTour ==> columns == map[]
      ensures built <==> err.None?
      ensures gameType != GrandTour ==> err.None?
      ensures gameType == GrandTour ==>
                (err.None? <==> MissingCategory(riders).None?) &&
                (err.Some? ==> MissingCategory(riders) == Some(err.value.category))
    {
      var added: map<string, seq<nat>> := map[];
      var quotas: seq<Quota> := [];
      if gameType == GrandTour {
        added := IndicatorColumns(riders);
        var rules := GrandTourRules(added);
        MissingCategoryIsMissingColumn(riders, added);
        if rules.Err? {
          columns, built := added, false;
          return Some(rules.error);
        }
        quotas := rules.value;
      }
      var instance := Problem(Scores(riders), Costs(riders), quotas);
      BuiltProblemEncodes(riders, gameType, added);
      columns, problem, built := added, instance, true;
      err := None;
    }

    /** `compute`: solve the instance, store one chosen flag per rider, and
        keep the chosen riders, in pool order, as the team. */
    method Compute()
      requires Valid() && built
      modifies this
      ensures Valid() && built && computed
      ensures riders == old(riders) && problem == old(problem) && columns == old(columns)
      ensures |chosen| == |riders| && team == Selected(riders, chosen)
      ensures Solvable(riders, gameType) ==> Optimal(riders, gameType, chosen)
      ensures !Solvable(riders, gameType) ==> forall i :: 0 <= i < |chosen| ==> !chosen[i]
    {
      var answer := Solver.Search(problem, []);
      Solver.SolveIsOptimal(problem);
      if answer.Some? {
        chosen := answer.value;
        forall other | Feasible(riders, other, gameType)
          ensures Score(riders, other) <= Score(riders, chosen)
        {
          assert Satisfies(problem, other);
        }
      } else {
        chosen := seq(|riders|, _ => false);
        forall other | |other| == |riders| ensures !Feasible(riders, other, gameType) {
          assert !Satisfies(problem, other);
        }
      }
      team := Selected(riders, chosen);
      computed := true;
    }

    /** The text-building part of `publish`: the score and cost sums over
        the chosen riders and the announcement. */
    method Publish() returns (score: nat, cost: nat, text: string)
      requires Valid() && computed
      ensures score == Score(riders, chosen) && cost == TotalCost(riders, chosen)
      ensures text == Report(gameName, team, score, cost)
      ensures ('\n' !in gameName && forall k :: 0 <= k < |team| ==> '\n' !in team[k].name) ==>
                Split(text, '\n') == [Title(gameName), ""] + Names(team) +
                                     ["Score: " + IntToString(score), "Cost: " + IntToString(cost)]
    {
      TeamSums(riders, chosen);
      var members := team;
      score, cost := TeamScore(members), TeamCost(members);
      text := Title(gameName) + "\n\n";
      var k := 0;
      while k < |members|
        invariant 0 <= k <= |members|
        invariant text == Title(gameName) + "\n\n" + NameLines(members[..k])
      {
        assert members[..k + 1] == members[..k] + [members[k]];
        NameLinesAppend(members[..k], members[k]);
        text := text + members[k].name + "\n";
        k := k + 1;
      }
      assert members[..k] == members;
      text := text + "Score: " + IntToString(score) + "\n";
      text := text + "Cost: " + IntToString(cost);
      if '\n' !in gameName && forall k :: 0 <= k < |members| ==> '\n' !in members[k].name {
        ReportLines(gameName, members, score, cost);
      }
    }

    /** `scrap`: the class index is looked up before the rows; then one line
        per row, in row order, joined by newlines. */
    method Scrap(page: Page) returns (r: Result<string, ScrapError>)
      ensures r == ScrapOutput(gameType, tab, page)
    {
      var body := SingleBody(page);
      if body.Err? {
        return Err(body.error);
      }
      if gameType == GrandTour && tab.rclass.None? {
        return Err(MissingClassIndex);
      }
      var lines := ConvertRows(body.value, RowLineFor(gameType, tab, IClass(tab)));
      if lines.Err? {
        return Err(lines.error);
      }
      r := Ok(Content(lines.value));
    }
  }
}
