# velogames roster selection, modelled in Dafny

velogames picks the best team for a Velogames fantasy cycling game. The pool
is a table of riders. Each rider has a name, a team, a class (grand tours
only), a score and a cost. The program chooses exactly 9 riders whose total
cost is at most 100 and whose total score is as high as possible. For a grand
tour the choice must also hold at least 2 "All Rounder", 2 "Climber",
1 "Sprinter" and 3 "Unclassed" riders. The pool is scraped from the game's
rider page: the one table, its one tbody, one csv line per row. The
`Computer` object builds the optimisation instance (`init`), solves it
(`compute`) and writes the announcement (`publish`).

Modules, one per concern:

- `Wrappers`: `Option` and `Result`.
- `Text`: comma/newline joining and splitting, `str` of an integer and `int`
  of a string, with their round trip.
- `Html`: a page as tables of tbodies of rows of cell strings, the
  single-table/single-tbody check, cell access and the row loop's
  specification (`LinesOf`).
- `Riders`: the five-field rider of `velogames/rider.py`.
- `Scrapper`: the four-field rider and the `scrap` loop of
  `velogames/scrapper.py`.
- `Rules`: the problem twice. First over the pool (`Feasible`, `Score`,
  `Optimal`). Then as the linear rules the solver is handed (`Problem`,
  `Satisfies`, `ObjFunction`, the indicator columns). A lemma proves the
  two agree.
- `Solver`: an exhaustive search over the chosen flags, standing in for
  glpk, proved exact.
- `Computer`: the `Computer` class (`Init`, `Compute`, `Publish`, `Scrap`),
  the announcement text, and the scraped row-to-line mapping, both as
  written and corrected.

## Model

| member | source | states |
|---|---|---|
| Riders.Csv | velogames/rider.py:10-13 | The line has exactly 4 more commas than the field texts. When no text field holds a comma, splitting it on commas gives name, team, class, `str(score)`, `str(cost)` in that order. It holds no newline when the fields hold none. |
| Riders.CsvRoundTrip | velogames/rider.py:2-13 | The five-column read of a rider's csv line (name, team, class, score, cost) gives back the rider the constructor stored, when no text field holds a comma. |
| Scrapper.Csv | velogames/scrapper.py:17-19 | The line has exactly 3 more commas than name and team. When they hold none, splitting gives name, team, `str(score)`, `str(cost)`. It holds no newline when name and team hold none. |
| Scrapper.CsvRoundTrip | velogames/scrapper.py:11-19 | The four-column read of the csv line gives back the stored rider, when name and team hold no comma. |
| Scrapper.RowToRider | velogames/scrapper.py:33-38 | A row yields a rider iff it has at least 5 cells and cells 4 and 3 parse as integers. The name comes from cell 1, the team from cell 2, the score from cell 4 and the cost from cell 3. Otherwise the error is the one the source raises first: missing cell 1, 2 or 4, then cell 4 not an integer, then cell 3 not an integer. |
| Scrapper.ScrapOutputLines | velogames/scrapper.py:31-40 | A page with one table and one tbody whose rows all read scrapes successfully. Read back line by line, the output has one line per row, and line i splits into row i's name, team, score and cost. |
| Scrapper.ScrapOutput | velogames/scrapper.py:25-40 | Defines the scrape's result: the table and tbody checks, then the rows' lines joined by newlines, or the first error. |
| Scrapper.Scrap | velogames/scrapper.py:25-40 | The row loop produces exactly the scrape's specified output: the newline-joined lines of all rows, or the first failing row's error. |
| Html.SingleBody | velogames/scrapper.py:25-30 | Scraping gets rows iff the page has exactly one table with exactly one tbody; otherwise it stops with the table count or the tbody count. |
| Html.IntCell | velogames/scrapper.py:36-37 | A numeric cell yields the integer its text parses to. A missing cell is an index error, checked before the text. Non-numeric text is a value error. |
| Html.LinesOf | velogames/scrapper.py:31-39 | On success, one line per row, line i being row i's line. On failure, the error is that of a row before which every row succeeded. |
| Html.ConvertRows | velogames/computer.py:148-167 | The row loop produces exactly `LinesOf`: every row's line in row order, or the error of the first row that fails. |
| Html.Content | velogames/scrapper.py:40 | Joining newline-free lines by newlines and splitting the text back gives the lines. No lines give the empty text. |
| Text.IntRoundTrip | velogames/scrapper.py:36-37 | `int` applied to the `str` rendering of any integer gives that integer back. |
| Rules.Distinct | velogames/computer.py:89 | The distinct class values hold every value of the pool's class column and no other, each once. |
| Rules.DistinctColumnsAreOneHot | velogames/computer.py:88-92 | One `numpy.where` column per distinct class value gives exactly one column per class present in the pool. The column has one entry per rider, each 0 or 1, and the entry is 1 iff the rider's class is that column's class. |
| Rules.Score | velogames/computer.py:20-21 | Defines the objective over the pool: the sum of the chosen riders' scores. |
| Rules.Feasible | velogames/computer.py:24-45 | Defines a feasible choice: one flag per rider, total cost at most 100, exactly 9 chosen, and for the grand tour only at least 2 All Rounders, 2 Climbers, 1 Sprinter and 3 Unclassed. |
| Rules.ObjFunction | velogames/computer.py:20-21 | Defines `obj_function`: the sum over riders of the score parameter times the chosen flag. |
| Rules.CostRule | velogames/computer.py:24-25 | Defines `cost_rule`: the sum of chosen flag times cost parameter is at most 100. |
| Rules.ChoiceRule | velogames/computer.py:28-29 | Defines `choice_rule`: exactly 9 flags are set. |
| Rules.QuotaRule | velogames/computer.py:32-45 | Defines one category rule: the indicator-weighted count of chosen riders reaches the category's minimum. |
| Rules.DotScores | velogames/computer.py:20-21 | The objective's sum of score times chosen equals the sum of the chosen riders' scores. |
| Rules.DotCosts | velogames/computer.py:24-25 | The cost rule's sum of chosen times cost equals the chosen riders' total cost. |
| Rules.DotOneHot | velogames/computer.py:32-45 | Weighting the chosen flags by a class's indicator column counts the chosen riders of that class. |
| Rules.GrandTourRulesMatch | velogames/computer.py:32-45 | The four category rules all hold iff at least 2 All Rounders, 2 Climbers, 1 Sprinter and 3 Unclassed riders are chosen. |
| Rules.BuiltProblemEncodes | velogames/computer.py:94-137 | The instance built from the pool satisfies the same choices as `Feasible`, and its objective equals `Score` for every choice. The instance has the cost and count rules always, and the four category rules for the grand tour only. `Feasible` is: cost ≤ 100, exactly 9 chosen, and the quotas for the grand tour. |
| Rules.Selected | velogames/computer.py:176 | The team has as many riders as there are chosen flags. |
| Rules.ChosenIndices | velogames/computer.py:173-176 | The chosen indices are in range, strictly ascending, all chosen, and include every chosen index. |
| Rules.SelectedAt | velogames/computer.py:176 | The team's j-th rider is the pool rider at the j-th chosen index, so the team is the chosen riders in pool order. |
| Solver.Search | velogames/computer.py:171-172 | Defines the solve step standing in for glpk: every completion of the partial choice is tried, the best-scoring satisfying one kept, ties going to "not chosen". A result has one flag per rider. |
| Solver.SearchIsOptimal | velogames/computer.py:170-172 | The search from a partial choice returns an extension that satisfies every rule, and no satisfying extension scores higher. When it returns nothing, no extension satisfies the rules. |
| Solver.SolveIsOptimal | velogames/computer.py:171-172 | Solving the instance gives a full choice that satisfies every rule, and no satisfying choice has a greater objective. Or it gives nothing, and no choice satisfies the rules. |
| Computer.ReadRow | velogames/computer.py:156-163 | A row reads iff the name, team, score and cost cells exist, the score and cost cells are integers, and for the grand tour the class cell exists. The fields are those cells' values. |
| Computer.AsWrittenGrandTourLineMisplacesFields | velogames/computer.py:162-164 | As written, the grand-tour line splits into name, team, `str(score)`, `str(cost)`, class. So the class column of the five-column read holds the score's text and the cost column the class text. The strict reader `Riders.FromCsv` fails whenever the class text is not an integer, and otherwise yields the score as the class. |
| Computer.AsWrittenGrandTourPoolLacksCategories | velogames/computer.py:109-113 | A pool whose every class is the decimal text of an integer, as the as-written file gives, has no "All Rounder" rider. So the first category column `init` looks up is missing, which is the KeyError `Computer.Computer.Init` then returns. |
| Computer.RowLineAsWritten | velogames/computer.py:156-167 | Defines the as-written line of a row: the grand-tour line with score, cost and class in the misbound order, and a missing-argument error for every other game type. |
| Computer.GrandTourLineReadsBack | velogames/computer.py:162-164 | Corrected, a grand-tour row's line reads back through the five-column read as the row's rider. |
| Computer.AsWrittenOtherGamesFail | velogames/computer.py:165-166 | As written, scraping for any other game type fails on every table with at least one row. |
| Computer.OtherGamesLineReadsBack | velogames/computer.py:165-167 | Corrected, a row's line for the other game types reads back through the four-column read as the row's rider. |
| Computer.ScrapOutput | velogames/computer.py:139-168 | Defines the corrected scrape's result: table and tbody checks, the class-index lookup for the grand tour, then the rows' lines joined by newlines, or the first error. |
| Computer.ScrapOutputReadsBack | velogames/computer.py:148-168 | A page with one table and one tbody whose rows all read scrapes successfully. The output has one line per row, and line i, read with the game's columns, gives row i's fields. |
| Computer.IndicatorColumns | velogames/computer.py:88-92 | The column loop yields one-hot columns: one per class present, each rider 1 exactly in its own class's column. |
| Computer.GrandTourRules | velogames/computer.py:108-128 | The four category rules are built iff all four category columns exist, looked up in source order; otherwise the first missing column is the error. |
| Computer.MissingCategoryIsMissingColumn | velogames/computer.py:89-127 | Over one-hot columns, building the grand-tour rules fails iff some category has no rider in the pool. The error names the first such category in the order All Rounder, Climber, Sprinter, Unclassed. |
| Computer.Report | velogames/computer.py:182-186 | Defines the announcement: `Best possible team for <game>:`, a blank line, each name followed by a newline, `Score: <score>`, a newline, `Cost: <cost>`. |
| Computer.TeamSums | velogames/computer.py:179-180 | The sums of the team's scores and costs are the sums over the chosen riders. |
| Computer.ReportLines | velogames/computer.py:182-186 | The announcement, split on newlines, is the title `Best possible team for <game>:`, an empty line, one name per team member in team order, `Score: <score>` and `Cost: <cost>`. This holds when the game name and rider names hold no newline. |
| Computer.Computer.constructor | velogames/computer.py:63-81 | The object holds the game type, name, cell indices and the pool as read, with nothing built or computed yet. |
| Computer.Computer.Init | velogames/computer.py:87-137 | For the grand tour, one-hot indicator columns are added. Otherwise no columns are added. The instance is built iff no error occurs. When built, it encodes `Feasible` and `Score`. For the grand tour the error happens iff a category is absent from the pool, and it names the first absent one. The pool is unchanged. |
| Computer.Computer.Compute | velogames/computer.py:170-176 | There is one flag per rider. If any choice is feasible, the flags are a feasible choice that no feasible choice outscores. Otherwise every flag is false. The team is the chosen riders in pool order, and the pool and instance are unchanged. |
| Computer.Computer.Publish | velogames/computer.py:178-186 | The score and cost are the sums over the chosen riders. The text is the announcement, and reads line by line as title, empty line, names in team order, score line and cost line. |
| Computer.Computer.Scrap | velogames/computer.py:139-168 | The scrape produces its specified output. That is the first error in source order (table count, tbody count, missing class index, then the first failing row), or the newline-joined corrected lines of all rows. |

## Left out

- HTTP fetching and BeautifulSoup traversal are not modelled. A page is given
  as tables of tbodies of rows of cell strings. A cell whose `.string` is
  `None` (nested markup) is not modelled.
- Writing `riders.csv` and reading it with pandas are not modelled. The
  `Computer` constructor takes the pool as the read yields it.
- Riders.FromCsv, Scrapper.FromCsv: these readers state the round trips
  (`CsvRoundTrip`, `Scrapper.ScrapOutputLines`,
  `Computer.ScrapOutputReadsBack`) and are stricter than
  `pandas.read_csv`. They reject a line whose score or cost text is not an
  integer, where pandas keeps the text as a column of strings. They split on
  every comma, so pandas' quoting is not modelled, and they do not skip
  blank lines. Under pandas the as-written grand-tour file is read without
  error and fails later, in `init` (see Findings).
- TOML configuration parsing is not modelled. The game type, name and cell
  indices are constructor parameters. A missing name, team, score or cost
  index (a KeyError) cannot be expressed; a missing class index can.
- Negative cell indices (Python indexing from the end) are not modelled: the
  indices are natural numbers.
- Printing the announcement, the Twitter post and the environment-variable
  reads in `publish` are I/O, and are left out.
- `velogames/form.py` (Google Forms API) and `velogames/main.py` (wiring) are
  not part of this model.
- glpk and pyomo are not modelled. The solve step is modelled by an
  exhaustive search proved exact. The search breaks ties towards "not
  chosen", so among equally scoring teams it may pick a different one than
  glpk would. On an infeasible instance the model leaves every flag false,
  the value `bool(None)` gives when the solver assigns nothing.
- pyomo's non-negative-integer check on score and cost is not modelled:
  pool scores and costs are natural numbers.
- `int` accepts surrounding ASCII whitespace, an optional sign and ASCII
  digits. Underscore separators, non-ASCII digits and non-ASCII whitespace
  are not modelled.
- The indicator columns live in their own map, not in the rider table. A
  class value equal to an existing column name (`name`, `score`, ...)
  would overwrite that column in the source; this is not modelled.
- Computer.Computer.Init is a separate method from the constructor so that
  its KeyError can be returned. Calling `publish` before `compute` (a
  KeyError on `chosen`) is excluded by Publish's precondition.
- The budget 100 and roster size 9 are the code's fixed constants and apply
  to every game type, `CLASSICS_WITH_UNLIMITED_CHANGES` included. A
  configurable budget or a 6-rider roster is not what the code does.
- The standalone `scrap()` run at import time in `velogames/scrapper.py`
  (when `riders.csv` is missing) is file I/O, and is left out.

## Findings

| source | as written | input that shows it | evidently intended | confidence | as-written member | corrected member |
|---|---|---|---|---|---|---|
| velogames/computer.py:164 | `Rider(name, team, score, cost, rclass)` binds the score to `rclass`, the cost to `score` and the class to `cost`. The line is therefore name, team, score, cost, class. | A row with name "A", team "T", class "Climber", score "120" and cost "8" gives the line `A,T,120,8,Climber`. `pandas.read_csv` at lines 75-77 reads it without error, with "120" in the class column and "Climber" in the cost column. Every scraped rider's class is then a number, so `init` raises KeyError on the "All Rounder" column at line 112 (`Computer.AsWrittenGrandTourPoolLacksCategories`), for every scraped grand-tour pool. | `Rider(name, team, rclass, score, cost)`, giving `A,T,Climber,120,8` | high, not executed | Computer.AsWrittenGrandTourLineMisplacesFields | Computer.GrandTourLineReadsBack |
| velogames/computer.py:166 | `Rider(name, team, score, cost)` passes four arguments to the five-parameter `Rider.__init__`: a TypeError on the first row | Any stage race or classics page whose tbody has one row | the four-field rider of `velogames/scrapper.py`, matching the four-column read at line 79 | high, not executed | Computer.AsWrittenOtherGamesFail | Computer.OtherGamesLineReadsBack |
