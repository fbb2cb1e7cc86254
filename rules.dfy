/** The optimisation problem of velogames/computer.py. A choice is a flag per
    rider of the pool (the `chosen` variables). It is stated twice: once
    over the pool (Feasible, Score), once as the linear rules handed to the
    solver (Problem, Satisfies, ObjFunction), and `BuiltProblemEncodes` proves
    the two agree. */
module Rules {

  const Budget: nat := 100
  const RosterSize: nat := 9

  const AllRounder: string := "All Rounder"
  const Climber: string := "Climber"
  const Sprinter: string := "Sprinter"
  const Unclassed: string := "Unclassed"

  datatype GameType = GrandTour | StageRace | Classics | ClassicsWithUnlimitedChanges

  /** One row of the rider DataFrame. The class column exists for the grand
      tour only; other game types leave `rclass` unread. */
  datatype Entry = Entry(name: string, team: string, rclass: string, score: nat, cost: nat)

  // ---- The problem over the pool ----

  /** Number of chosen flags. */
  function Count(ch: seq<bool>): nat
  {
    if ch == [] then 0 else Count(ch[..|ch| - 1]) + (if ch[|ch| - 1] then 1 else 0)
  }

  /** Sum of the scores of the chosen riders. */
  function Score(rs: seq<Entry>, ch: seq<bool>): nat
    requires |ch| == |rs|
  {
    if rs == [] then 0
    else Score(rs[..|rs| - 1], ch[..|ch| - 1]) + (if ch[|ch| - 1] then rs[|rs| - 1].score else 0)
  }

  /** Sum of the costs of the chosen riders. */
  function TotalCost(rs: seq<Entry>, ch: seq<bool>): nat
    requires |ch| == |rs|
  {
    if rs == [] then 0
    else TotalCost(rs[..|rs| - 1], ch[..|ch| - 1]) + (if ch[|ch| - 1] then rs[|rs| - 1].cost else 0)
  }

  /** Number of chosen riders whose class is `category`. */
  function ClassCount(rs: seq<Entry>, ch: seq<bool>, category: string): nat
    requires |ch| == |rs|
  {
    if rs == [] then 0
    else ClassCount(rs[..|rs| - 1], ch[..|ch| - 1], category)
         + (if ch[|ch| - 1] && rs[|rs| - 1].rclass == category then 1 else 0)
  }

  /** Within budget, exactly nine riders, and for the grand tour the four
      class minimums; every other game type has no class rule. */
  predicate Feasible(rs: seq<Entry>, ch: seq<bool>, gt: GameType)
  {
    |ch| == |rs| && TotalCost(rs, ch) <= Budget && Count(ch) == RosterSize &&
    (gt == GrandTour ==>
       ClassCount(rs, ch, AllRounder) >= 2 && ClassCount(rs, ch, Climber) >= 2 &&
       ClassCount(rs, ch, Sprinter) >= 1 && ClassCount(rs, ch, Unclassed) >= 3)
  }

  ghost predicate Solvable(rs: seq<Entry>, gt: GameType)
  {
    exists ch :: Feasible(rs, ch, gt)
  }

  /** A feasible choice that no feasible choice outscores. */
  ghost predicate Optimal(rs: seq<Entry>, gt: GameType, ch: seq<bool>)
  {
    Feasible(rs, ch, gt) && forall other :: Feasible(rs, other, gt) ==> Score(rs, other) <= Score(rs, ch)
  }

  // ---- The problem as the solver is given it ----

  /** A category rule: at least `atLeast` chosen riders whose indicator is 1. */
  datatype Quota = Quota(category: string, indicator: seq<nat>, atLeast: nat)

  /** The instance: the score and cost parameters and the category rules. */
  datatype Problem = Problem(score: seq<nat>, cost: seq<nat>, quotas: seq<Quota>)

  predicate WellFormed(p: Problem)
  {
    |p.cost| == |p.score| && forall k :: 0 <= k < |p.quotas| ==> |p.quotas[k].indicator| == |p.score|
  }

  /** `sum(xs[i] * chosen[i] for i in riders)`. */
  function Dot(xs: seq<nat>, ch: seq<bool>): nat
    requires |xs| == |ch|
  {
    if xs == [] then 0
    else Dot(xs[..|xs| - 1], ch[..|ch| - 1]) + (if ch[|ch| - 1] then xs[|xs| - 1] else 0)
  }

  /** obj_function: the summation of score times chosen. */
  function ObjFunction(p: Problem, ch: seq<bool>): nat
    requires WellFormed(p) && |ch| == |p.score|
  {
    Dot(p.score, ch)
  }

  /** cost_rule. */
  predicate CostRule(p: Problem, ch: seq<bool>)
    requires WellFormed(p) && |ch| == |p.score|
  {
    Dot(p.cost, ch) <= Budget
  }

  /** choice_rule. */
  predicate ChoiceRule(ch: seq<bool>)
  {
    Count(ch) == RosterSize
  }

  /** all_rounder_rule, climber_rule, sprinter_rule and unclassed_rule. */
  predicate QuotaRule(q: Quota, ch: seq<bool>)
    requires |q.indicator| == |ch|
  {
    Dot(q.indicator, ch) >= q.atLeast
  }

  /** The choice meets every constraint attached to the instance. */
  predicate Satisfies(p: Problem, ch: seq<bool>)
    requires WellFormed(p)
  {
    |ch| == |p.score| && CostRule(p, ch) && ChoiceRule(ch) &&
    forall k :: 0 <= k < |p.quotas| ==> QuotaRule(p.quotas[k], ch)
  }

  // ---- Building the instance from the pool ----

  /** The `score` column. */
  function Scores(rs: seq<Entry>): seq<nat>
  {
    seq(|rs|, i requires 0 <= i < |rs| => rs[i].score)
  }

  /** The `cost` column. */
  function Costs(rs: seq<Entry>): seq<nat>
  {
    seq(|rs|, i requires 0 <= i < |rs| => rs[i].cost)
  }

  /** `numpy.where(riders["class"] == category, 1, 0)`. */
  function OneHot(rs: seq<Entry>, category: string): seq<nat>
  {
    seq(|rs|, i requires 0 <= i < |rs| => if rs[i].rclass == category then 1 else 0)
  }

  /** The class values of the pool, once each, in order of first appearance
      (`riders["class"].unique()`). */
  function Distinct(classes: seq<string>): (r: seq<string>)
    ensures forall c :: c in r <==> c in classes
    ensures forall j, k :: 0 <= j < k < |r| ==> r[j] != r[k]
  {
    if classes == [] then []
    else
      var front := Distinct(classes[..|classes| - 1]);
      var last := classes[|classes| - 1];
      assert forall c :: c in classes <==> c in classes[..|classes| - 1] || c == last;
      if last in front then front else front + [last]
  }

  function Classes(rs: seq<Entry>): (r: seq<string>)
    ensures |r| == |rs| && forall i :: 0 <= i < |rs| ==> r[i] == rs[i].rclass
  {
    seq(|rs|, i requires 0 <= i < |rs| => rs[i].rclass)
  }

  /** The indicator columns the grand tour adds: one per class value of the
      pool, and each rider has 1 exactly in the column of its own class. */
  ghost predicate OneHotColumns(rs: seq<Entry>, columns: map<string, seq<nat>>)
  {
    (forall c :: c in columns <==> exists i :: 0 <= i < |rs| && rs[i].rclass == c) &&
    (forall c :: c in columns ==> |columns[c]| == |rs|) &&
    (forall c, i :: c in columns && 0 <= i < |rs| ==> (columns[c][i] == 1 <==> rs[i].rclass == c)) &&
    (forall c, i :: c in columns && 0 <= i < |rs| ==> columns[c][i] <= 1)
  }

  /** One `numpy.where` column per distinct class value gives one-hot columns. */
  lemma DistinctColumnsAreOneHot(rs: seq<Entry>, values: seq<string>, columns: map<string, seq<nat>>)
    requires values == Distinct(Classes(rs))
    requires forall c :: c in columns <==> c in values
    requires forall c :: c in columns ==> columns[c] == OneHot(rs, c)
    ensures OneHotColumns(rs, columns)
  {
    forall i | 0 <= i < |rs| ensures rs[i].rclass in columns {
      assert Classes(rs)[i] == rs[i].rclass;
    }
    forall c | c in columns ensures exists i :: 0 <= i < |rs| && rs[i].rclass == c {
      var j :| 0 <= j < |Classes(rs)| && Classes(rs)[j] == c;
      assert rs[j].rclass == c;
    }
  }

  /** The four grand-tour rules over the indicator columns. */
  function GrandTourQuotas(columns: map<string, seq<nat>>): seq<Quota>
    requires AllRounder in columns && Climber in columns && Sprinter in columns && Unclassed in columns
  {
    [Quota(AllRounder, columns[AllRounder], 2), Quota(Climber, columns[Climber], 2),
     Quota(Sprinter, columns[Sprinter], 1), Quota(Unclassed, columns[Unclassed], 3)]
  }

  /** The instance answers exactly the pool's question: the same choices
      satisfy it, with the same objective. */
  ghost predicate Encodes(p: Problem, rs: seq<Entry>, gt: GameType)
  {
    WellFormed(p) && |p.score| == |rs| &&
    forall ch {:trigger Satisfies(p, ch)} :: |ch| == |rs| ==>
      (Satisfies(p, ch) <==> Feasible(rs, ch, gt)) && ObjFunction(p, ch) == Score(rs, ch)
  }

  lemma {:induction false} DotScores(rs: seq<Entry>, ch: seq<bool>)
    requires |ch| == |rs|
    ensures Dot(Scores(rs), ch) == Score(rs, ch)
  {
    if rs != [] {
      assert Scores(rs)[..|rs| - 1] == Scores(rs[..|rs| - 1]);
      DotScores(rs[..|rs| - 1], ch[..|ch| - 1]);
    }
  }

  lemma {:induction false} DotCosts(rs: seq<Entry>, ch: seq<bool>)
    requires |ch| == |rs|
    ensures Dot(Costs(rs), ch) == TotalCost(rs, ch)
  {
    if rs != [] {
      assert Costs(rs)[..|rs| - 1] == Costs(rs[..|rs| - 1]);
      DotCosts(rs[..|rs| - 1], ch[..|ch| - 1]);
    }
  }

  /** Weighting the choice by a class's indicator column counts the chosen
      riders of that class. */
  lemma {:induction false} DotOneHot(rs: seq<Entry>, ch: seq<bool>, column: seq<nat>, category: string)
    requires |ch| == |rs| && |column| == |rs|
    requires forall i :: 0 <= i < |rs| ==> column[i] <= 1 && (column[i] == 1 <==> rs[i].rclass == category)
    ensures Dot(column, ch) == ClassCount(rs, ch, category)
  {
    if rs != [] {
      DotOneHot(rs[..|rs| - 1], ch[..|ch| - 1], column[..|column| - 1], category);
    }
  }

  /** The four grand-tour rules hold exactly when the chosen riders meet the
      four class minimums. */
  lemma GrandTourRulesMatch(rs: seq<Entry>, ch: seq<bool>, columns: map<string, seq<nat>>)
    requires |ch| == |rs| && OneHotColumns(rs, columns)
    requires AllRounder in columns && Climber in columns && Sprinter in columns && Unclassed in columns
    ensures (forall k :: 0 <= k < |GrandTourQuotas(columns)| ==> QuotaRule(GrandTourQuotas(columns)[k], ch)) <==>
            (ClassCount(rs, ch, AllRounder) >= 2 && ClassCount(rs, ch, Climber) >= 2 &&
             ClassCount(rs, ch, Sprinter) >= 1 && ClassCount(rs, ch, Unclassed) >= 3)
  {
    var qs := GrandTourQuotas(columns);
    DotOneHot(rs, ch, columns[AllRounder], AllRounder);
    DotOneHot(rs, ch, columns[Climber], Climber);
    DotOneHot(rs, ch, columns[Sprinter], Sprinter);
    DotOneHot(rs, ch, columns[Unclassed], Unclassed);
    assert QuotaRule(qs[0], ch) <==> ClassCount(rs, ch, AllRounder) >= 2;
    assert QuotaRule(qs[1], ch) <==> ClassCount(rs, ch, Climber) >= 2;
    assert QuotaRule(qs[2], ch) <==> ClassCount(rs, ch, Sprinter) >= 1;
    assert QuotaRule(qs[3], ch) <==> ClassCount(rs, ch, Unclassed) >= 3;
  }

  /** The constraint builder is right: the instance built from the pool, the
      game type and the indicator columns encodes Feasible and Score. */
  lemma BuiltProblemEncodes(rs: seq<Entry>, gt: GameType, columns: map<string, seq<nat>>)
    requires gt == GrandTour ==> OneHotColumns(rs, columns)
    requires gt == GrandTour ==> AllRounder in columns && Climber in columns && Sprinter in columns && Unclassed in columns
    ensures Encodes(Problem(Scores(rs), Costs(rs), if gt == GrandTour then GrandTourQuotas(columns) else []), rs, gt)
  {
    var p := Problem(Scores(rs), Costs(rs), if gt == GrandTour then GrandTourQuotas(columns) else []);
    assert WellFormed(p);
    forall ch | |ch| == |rs|
      ensures (Satisfies(p, ch) <==> Feasible(rs, ch, gt)) && ObjFunction(p, ch) == Score(rs, ch)
    {
      DotScores(rs, ch);
      DotCosts(rs, ch);
      if gt == GrandTour {
        GrandTourRulesMatch(rs, ch, columns);
      }
    }
  }

  /** The chosen elements, in their original order (`df[df["chosen"]]`). */
  function Selected<T>(xs: seq<T>, ch: seq<bool>): (r: seq<T>)
    requires |ch| == |xs|
    ensures |r| == Count(ch)
  {
    if xs == [] then []
    else Selected(xs[..|xs| - 1], ch[..|ch| - 1]) + (if ch[|ch| - 1] then [xs[|xs| - 1]] else [])
  }

  /** The indices of the chosen flags, ascending. */
  function ChosenIndices(ch: seq<bool>): (idx: seq<nat>)
    ensures |idx| == Count(ch)
    ensures forall j :: 0 <= j < |idx| ==> idx[j] < |ch| && ch[idx[j]]
    ensures forall j, k :: 0 <= j < k < |idx| ==> idx[j] < idx[k]
    ensures forall i :: 0 <= i < |ch| && ch[i] ==> i in idx
  {
    if ch == [] then []
    else
      var front := ChosenIndices(ch[..|ch| - 1]);
      front + (if ch[|ch| - 1] then [|ch| - 1] else [])
  }

  /** Selected keeps exactly the chosen elements, in pool order: its j-th
      element is the element at the j-th chosen index. */
  lemma {:induction false} SelectedAt<T>(xs: seq<T>, ch: seq<bool>)
    requires |ch| == |xs|
    ensures forall j :: 0 <= j < |Selected(xs, ch)| ==> Selected(xs, ch)[j] == xs[ChosenIndices(ch)[j]]
  {
    if xs != [] {
      SelectedAt(xs[..|xs| - 1], ch[..|ch| - 1]);
    }
  }
}
