/** Selecting and ordering the rules a compiler section is built from.
    Every section filters the snapshot and sorts by (action priority, id). */
module RuleOrder {
  import opened Model

  function Priority(a: Action): nat {
    match a case Drop => 0 case Reject => 1 case Accept => 2
  }

  predicate Before(a: Rule, b: Rule) {
    || Priority(a.spec.action) < Priority(b.spec.action)
    || (Priority(a.spec.action) == Priority(b.spec.action) && a.id < b.id)
  }

  predicate Ordered(rs: seq<Rule>) {
    rs == [] || ((forall r :: r in rs[1..] ==> !Before(r, rs[0])) && Ordered(rs[1..]))
  }

  function Insert(r: Rule, rs: seq<Rule>): (out: seq<Rule>)
    ensures forall x :: x in out <==> x == r || x in rs
  {
    if rs == [] then [r]
    else if Before(rs[0], r) then [rs[0]] + Insert(r, rs[1..])
    else [r] + rs
  }

  function SortRules(rs: seq<Rule>): (out: seq<Rule>)
    ensures forall x :: x in out <==> x in rs
  {
    if rs == [] then [] else Insert(rs[0], SortRules(rs[1..]))
  }

  lemma {:induction false} InsertOrders(r: Rule, rs: seq<Rule>)
    requires Ordered(rs)
    ensures Ordered(Insert(r, rs))
  {
    if rs == [] {
    } else if Before(rs[0], r) {
      InsertOrders(r, rs[1..]);
      assert Insert(r, rs)[1..] == Insert(r, rs[1..]);
    } else {
      assert Insert(r, rs)[1..] == rs;
      assert forall x :: x in rs ==> x == rs[0] || x in rs[1..];
    }
  }

  lemma {:induction false} SortOrders(rs: seq<Rule>)
    ensures Ordered(SortRules(rs))
  {
    if rs != [] {
      SortOrders(rs[1..]);
      InsertOrders(rs[0], SortRules(rs[1..]));
    }
  }

  lemma {:induction false} InsertCounts(r: Rule, rs: seq<Rule>)
    ensures multiset(Insert(r, rs)) == multiset([r]) + multiset(rs)
  {
    if rs != [] && Before(rs[0], r) {
      InsertCounts(r, rs[1..]);
      assert rs == [rs[0]] + rs[1..];
    }
  }

  lemma {:induction false} SortCounts(rs: seq<Rule>)
    ensures multiset(SortRules(rs)) == multiset(rs)
  {
    if rs != [] {
      SortCounts(rs[1..]);
      InsertCounts(rs[0], SortRules(rs[1..]));
      assert rs == [rs[0]] + rs[1..];
    }
  }

  /** xtables compiles one program per family and leaves out rules of the other one. */
  predicate SupportsFamily(spec: RuleSpec, f: Family) {
    && !(spec.protocol.Icmp? && f.IPv6?)
    && !(spec.protocol.IcmpV6? && f.IPv4?)
    && (spec.peer.Some? ==> spec.peer.value.family == f)
  }

  /** `application` and `family` constrain only when given. */
  datatype Pick = Pick(direction: Direction, application: Option<bool>, actions: set<Action>, family: Option<Family>)

  predicate Picked(k: Pick, r: Rule) {
    && r.spec.enabled
    && r.spec.direction == k.direction
    && (k.application.Some? ==> r.spec.application.Some? == k.application.value)
    && r.spec.action in k.actions
    && (k.family.Some? ==> SupportsFamily(r.spec, k.family.value))
  }

  function FilterRules(k: Pick, rs: seq<Rule>): (out: seq<Rule>)
    ensures forall r :: r in out <==> r in rs && Picked(k, r)
  {
    if rs == [] then []
    else if Picked(k, rs[0]) then [rs[0]] + FilterRules(k, rs[1..])
    else FilterRules(k, rs[1..])
  }

  function Chosen(k: Pick, rs: seq<Rule>): (out: seq<Rule>)
    ensures forall r :: r in out <==> r in rs && Picked(k, r)
  {
    SortRules(FilterRules(k, rs))
  }

  // ---------------------------------------------------------------- order independence

  predicate IdsIdentify(rs: seq<Rule>) {
    forall a, b :: a in rs && b in rs && a.id == b.id ==> a == b
  }

  lemma Uncons(rs: seq<Rule>)
    requires rs != []
    ensures multiset(rs) == multiset([rs[0]]) + multiset(rs[1..])
    ensures multiset(rs[1..]) == multiset(rs) - multiset([rs[0]])
  {
    assert rs == [rs[0]] + rs[1..];
  }

  /** Sorting has one answer: an ordered sequence is determined by its elements. */
  lemma {:induction false} OrderedIsUnique(a: seq<Rule>, b: seq<Rule>)
    requires multiset(a) == multiset(b) && Ordered(a) && Ordered(b) && IdsIdentify(a)
    ensures a == b
  {
    assert |multiset(a)| == |multiset(b)|;
    if a != [] {
      assert a[0] in multiset(b) && b[0] in multiset(a);
      assert !Before(b[0], a[0]) by { assert b[0] == a[0] || b[0] in a[1..]; }
      assert !Before(a[0], b[0]) by { assert a[0] == b[0] || a[0] in b[1..]; }
      Uncons(a);
      Uncons(b);
      OrderedIsUnique(a[1..], b[1..]);
    }
  }

  lemma {:induction false} FilterCounts(k: Pick, rs: seq<Rule>, r: Rule)
    ensures multiset(FilterRules(k, rs))[r] == if Picked(k, r) then multiset(rs)[r] else 0
  {
    if rs != [] {
      assert rs == [rs[0]] + rs[1..];
      FilterCounts(k, rs[1..], r);
    }
  }

  /** A section depends on the set of rules, not on the order the snapshot lists them in. */
  lemma ChosenIgnoresOrder(k: Pick, a: seq<Rule>, b: seq<Rule>)
    requires multiset(a) == multiset(b) && IdsIdentify(a)
    ensures Chosen(k, a) == Chosen(k, b)
  {
    var fa, fb := FilterRules(k, a), FilterRules(k, b);
    forall r ensures multiset(fa)[r] == multiset(fb)[r] {
      FilterCounts(k, a, r);
      FilterCounts(k, b, r);
    }
    assert multiset(fa) == multiset(fb);
    SortCounts(fa);
    SortCounts(fb);
    SortOrders(fa);
    SortOrders(fb);
    OrderedIsUnique(SortRules(fa), SortRules(fb));
  }
}
