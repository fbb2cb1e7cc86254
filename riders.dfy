/** velogames/rider.py: the five-field rider record the grand-tour scraper
    writes, one csv line per rider. */
module Riders {
  import opened Wrappers
  import opened Text

  /** The fields `Rider.__init__` stores, unchanged, under its own parameter
      order (name, team, rclass, score, cost). */
  datatype Rider = Rider(name: string, team: string, rclass: string, score: int, cost: int)

  /** The `csv` property: name, team, class, score and cost, with the numbers
      rendered by `str`, joined by commas. */
  function Csv(r: Rider): (line: string)
    ensures CountChar(line, ',') == CountChar(r.name, ',') + CountChar(r.team, ',') + CountChar(r.rclass, ',') + 4
    ensures (',' !in r.name && ',' !in r.team && ',' !in r.rclass) ==>
              Split(line, ',') == [r.name, r.team, r.rclass, IntToString(r.score), IntToString(r.cost)]
    ensures ('\n' !in r.name && '\n' !in r.team && '\n' !in r.rclass) ==> '\n' !in line
  {
    var fields := [r.name, r.team, r.rclass, IntToString(r.score), IntToString(r.cost)];
    CountJoin(fields, ',');
    SplitJoin(fields, ',');
    NumericFree(r.score, ',');
    NumericFree(r.cost, ',');
    NumericFree(r.score, '\n');
    NumericFree(r.cost, '\n');
    JoinAvoids(fields, ',', '\n');
    FieldCommas(r);
    Join(fields, ',')
  }

  /** Only the text fields contribute commas: the numbers are rendered without any. */
  lemma FieldCommas(r: Rider)
    ensures CountAll([r.name, r.team, r.rclass, IntToString(r.score), IntToString(r.cost)], ',') ==
            CountChar(r.name, ',') + CountChar(r.team, ',') + CountChar(r.rclass, ',')
  {
    var s, c := IntToString(r.score), IntToString(r.cost);
    NumericFree(r.score, ',');
    NumericFree(r.cost, ',');
    assert CountAll([c], ',') == 0 by { assert [c][1..] == []; }
    assert CountAll([s, c], ',') == 0 by { assert [s, c][1..] == [c]; }
    assert CountAll([r.rclass, s, c], ',') == CountChar(r.rclass, ',') by { assert [r.rclass, s, c][1..] == [s, c]; }
    assert CountAll([r.team, r.rclass, s, c], ',') == CountChar(r.team, ',') + CountChar(r.rclass, ',')
      by { assert [r.team, r.rclass, s, c][1..] == [r.rclass, s, c]; }
    assert [r.name, r.team, r.rclass, s, c][1..] == [r.team, r.rclass, s, c];
  }

  /** The five-column read of a csv line (name, team, class, score, cost):
      split on commas, the last two fields parsed as integers. */
  function FromCsv(line: string): Option<Rider>
  {
    var f := Split(line, ',');
    if |f| != 5 then None
    else
      match (ParseInt(f[3]), ParseInt(f[4]))
      case (Some(score), Some(cost)) => Some(Rider(f[0], f[1], f[2], score, cost))
      case _ => None
  }

  /** A rider whose texts hold no comma is read back unchanged from its line. */
  lemma CsvRoundTrip(r: Rider)
    requires ',' !in r.name && ',' !in r.team && ',' !in r.rclass
    ensures FromCsv(Csv(r)) == Some(r)
  {
    IntRoundTrip(r.score);
    IntRoundTrip(r.cost);
  }
}
