/** The rules of a state in ascending identifier order, as snapshots and the serialized state list them. */
module Listing {
  import opened Model

  ghost predicate LowerBound(m: nat, ids: set<nat>) { forall n :: n in ids ==> m <= n }

  lemma {:induction false} LeastExists(ids: set<nat>)
    requires ids != {}
    ensures exists m :: m in ids && LowerBound(m, ids)
  {
    var x :| x in ids;
    var rest := ids - {x};
    if rest == {} {
      forall n | n in ids ensures n == x { assert n !in rest; }
      assert LowerBound(x, ids);
    } else {
      LeastExists(rest);
      var m :| m in rest && LowerBound(m, rest);
      var least := if x < m then x else m;
      forall n | n in ids ensures least <= n { assert n == x || n in rest; }
      assert LowerBound(least, ids);
    }
  }

  ghost function Least(ids: set<nat>): (m: nat)
    requires ids != {}
    ensures m in ids && LowerBound(m, ids)
  {
    LeastExists(ids);
    var m :| m in ids && LowerBound(m, ids);
    m
  }

  /** The rules with the given identifiers, in ascending order. */
  ghost function Listed(rules: map<nat, Rule>, ids: set<nat>): seq<Rule>
    requires ids <= rules.Keys
  {
    if ids == {} then [] else [rules[Least(ids)]] + Listed(rules, ids - {Least(ids)})
  }

  lemma {:induction false} ListedHolds(rules: map<nat, Rule>, ids: set<nat>)
    requires ids <= rules.Keys && forall id :: id in rules ==> rules[id].id == id
    ensures |Listed(rules, ids)| == |ids| && DistinctIds(Listed(rules, ids))
    ensures forall r :: r in Listed(rules, ids) <==> r.id in ids && rules[r.id] == r
  {
    if ids != {} {
      var m := Least(ids);
      var rest := Listed(rules, ids - {m});
      ListedHolds(rules, ids - {m});
      HeadIsNew(rules[m], rest);
      forall r ensures r in [rules[m]] + rest <==> r.id in ids && rules[r.id] == r {}
    }
  }

  lemma HeadIsNew(r: Rule, rest: seq<Rule>)
    requires DistinctIds(rest) && forall x :: x in rest ==> x.id != r.id
    ensures DistinctIds([r] + rest)
  {
  }
}
