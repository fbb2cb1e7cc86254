/** The solve step of `compute`. The source hands the instance to glpk; this
    model solves it with an exhaustive search over the chosen flags, which is
    exact, and proves the contract an exact solver gives: the answer satisfies
    every rule and nothing that satisfies them scores higher, or there is no
    answer because nothing satisfies them. */
module Solver {
  import opened Wrappers
  import opened Rules

  function Size(p: Problem): nat { |p.score| }

  /** `full` is a complete choice that starts with the decisions in `prefix`. */
  ghost predicate Extends(full: seq<bool>, prefix: seq<bool>, n: nat)
  {
    |full| == n && |prefix| <= n && full[..|prefix|] == prefix
  }

  /** The better of two candidate answers; on a tie the first is kept. */
  function Better(p: Problem, a: Option<seq<bool>>, b: Option<seq<bool>>): Option<seq<bool>>
    requires WellFormed(p)
    requires a.Some? ==> |a.value| == Size(p)
    requires b.Some? ==> |b.value| == Size(p)
  {
    if a.None? then b
    else if b.None? then a
    else if ObjFunction(p, b.value) > ObjFunction(p, a.value) then b
    else a
  }

  /** The best choice among those that extend `prefix`, trying "not chosen"
      before "chosen" for the next rider. */
  function Search(p: Problem, prefix: seq<bool>): (r: Option<seq<bool>>)
    requires WellFormed(p) && |prefix| <= Size(p)
    ensures r.Some? ==> |r.value| == Size(p)
    decreases Size(p) - |prefix|
  {
    if |prefix| == Size(p) then (if Satisfies(p, prefix) then Some(prefix) else None)
    else Better(p, Search(p, prefix + [false]), Search(p, prefix + [true]))
  }

  lemma ExtendsNext(full: seq<bool>, prefix: seq<bool>, n: nat)
    requires Extends(full, prefix, n) && |prefix| < n
    ensures Extends(full, prefix + [full[|prefix|]], n)
  {
    assert full[..|prefix| + 1] == full[..|prefix|] + [full[|prefix|]];
  }

  /** The search is exact: what it returns extends the prefix, satisfies the
      rules and is not outscored by any satisfying extension; when it returns
      nothing, no extension satisfies the rules. */
  lemma {:induction false} SearchIsOptimal(p: Problem, prefix: seq<bool>)
    requires WellFormed(p) && |prefix| <= Size(p)
    ensures var r := Search(p, prefix);
            r.Some? ==> Extends(r.value, prefix, Size(p)) && Satisfies(p, r.value) &&
                        forall d :: Extends(d, prefix, Size(p)) && Satisfies(p, d) ==>
                                      ObjFunction(p, d) <= ObjFunction(p, r.value)
    ensures Search(p, prefix).None? ==> forall d :: Extends(d, prefix, Size(p)) ==> !Satisfies(p, d)
    decreases Size(p) - |prefix|
  {
    var n := Size(p);
    if |prefix| == n {
      forall d | Extends(d, prefix, n) ensures d == prefix {
        assert d[..|prefix|] == d;
      }
      assert Extends(prefix, prefix, n) by { assert prefix[..|prefix|] == prefix; }
    } else {
      var no, yes := prefix + [false], prefix + [true];
      SearchIsOptimal(p, no);
      SearchIsOptimal(p, yes);
      forall d | Extends(d, prefix, n) ensures Extends(d, no, n) || Extends(d, yes, n) {
        ExtendsNext(d, prefix, n);
        assert prefix + [d[|prefix|]] == if d[|prefix|] then yes else no;
      }
      forall d | Extends(d, no, n) || Extends(d, yes, n) ensures Extends(d, prefix, n) {
        assert d[..|prefix|] == d[..|prefix| + 1][..|prefix|];
      }
    }
  }

  /** Solving the whole instance: `Search` from no decisions. */
  lemma SolveIsOptimal(p: Problem)
    requires WellFormed(p)
    ensures var r := Search(p, []);
            (r.Some? ==> |r.value| == Size(p) && Satisfies(p, r.value) &&
                         forall d :: |d| == Size(p) && Satisfies(p, d) ==> ObjFunction(p, d) <= ObjFunction(p, r.value)) &&
            (r.None? ==> forall d :: |d| == Size(p) ==> !Satisfies(p, d))
  {
    SearchIsOptimal(p, []);
    forall d | |d| == Size(p) ensures Extends(d, [], Size(p)) {
      assert d[..0] == [];
    }
  }
}
