/** What an accepting decision rests on: an application Accept, or one of two fallbacks. */
module Grounds {
  import opened Model
  import opened Netfilter
  import opened RuleBlocks
  import opened PolicyState
  import opened Decisions

  /** Every identity the policy accepts for this connection has an application Accept of its own. */
  ghost predicate RestsOnApplication(st: State, p: Packet) {
    forall uid, id :: Decide(st, p, uid, id).Accept? ==> SomeApplies(st, Accept, p, uid, id)
  }

  // ---------------------------------------------------------------- identities no rule names

  lemma {:induction false} Bounded(s: set<nat>) returns (bound: nat)
    ensures forall n :: n in s ==> n < bound
  {
    if s == {} {
      bound := 0;
    } else {
      var x :| x in s;
      var rest := Bounded(s - {x});
      bound := if rest <= x then x + 1 else rest;
      forall n | n in s ensures n < bound { assert n == x || n in s - {x}; }
    }
  }

  predicate Pins(r: Rule, file: FileId) { r.spec.application.Some? && r.spec.application.value.file == Some(file) }

  /** An executable no rule pins. */
  lemma Stranger(st: State) returns (id: Identity)
    ensures forall k :: k in st.rules ==> !Pins(st.rules[k], id.file)
  {
    var inodes := set k | k in st.rules && st.rules[k].spec.application.Some?
                          && st.rules[k].spec.application.value.file.Some? :: st.rules[k].spec.application.value.file.value.inode;
    var bound := Bounded(inodes);
    id := Identity("/stranger", FileId(0, bound, 0, 0, 0), [], 0, []);
    assert bound !in inodes;
    assert forall k :: k in st.rules && Pins(st.rules[k], id.file) ==> bound in inodes;
  }

  lemma StrangersHaveNoRules(st: State, p: Packet, uid: nat, id: Identity)
    requires forall k :: k in st.rules ==> !Pins(st.rules[k], id.file)
    ensures forall a :: !SomeApplies(st, a, p, uid, id)
  {
  }

  // ---------------------------------------------------------------- learned rules under fast enforcement

  /** A learned Accept that fast enforcement may extend to other processes of the same user and executable. */
  predicate FastEligible(r: Rule, p: Packet) {
    && r.spec.enabled && r.spec.direction.Outbound? && r.spec.origin.Learned? && r.spec.action.Accept?
    && r.spec.application.Some? && Outgoing(r.spec, p)
    && var sel := r.spec.application.value;
       !sel.redacted && sel.executable.Some? && sel.file.Some? && sel.uid.Some?
  }

  /** A process of the same user and executable with no arguments and no control group. */
  function Bare(r: Rule): Identity
    requires r.spec.application.Some?
    requires var sel := r.spec.application.value; sel.executable.Some? && sel.file.Some? && sel.uid.Some?
  {
    var sel := r.spec.application.value;
    Identity(sel.executable.value, sel.file.value, [], sel.uid.value, [])
  }

  /** Some rule, accepting or denying, speaks about every process of that user and executable. */
  ghost predicate Covered(st: State, p: Packet, r: Rule)
    requires FastEligible(r, p)
  {
    exists k :: k in st.rules && AppliesTo(st.rules[k], p, Bare(r).uid, Bare(r))
  }

  /** A rule that applies to the bare process applies to every process of that user and executable. */
  lemma BareSpeaksForAll(st: State, k: nat, p: Packet, r: Rule, uid: nat, id: Identity)
    requires StateValid(st) && k in st.rules && FastEligible(r, p) && FastApplies(r, p, uid, id)
    requires AppliesTo(st.rules[k], p, Bare(r).uid, Bare(r))
    ensures AppliesTo(st.rules[k], p, uid, id)
  {
    assert Storable(st.rules[k]);
  }

  ghost predicate FastIsCovered(st: State, p: Packet) {
    forall k :: k in st.rules && FastEligible(st.rules[k], p) ==> Covered(st, p, st.rules[k])
  }

  lemma FallbackOpens(st: State, p: Packet)
    requires st.mode.Enforcing? && SomeFallback(st, p)
    ensures !RestsOnApplication(st, p)
  {
    var id := Stranger(st);
    StrangersHaveNoRules(st, p, 0, id);
    assert Decide(st, p, 0, id).Accept?;
  }

  lemma UncoveredOpens(st: State, p: Packet, k: nat)
    requires st.mode.Enforcing? && st.strategy.Fast? && k in st.rules
    requires FastEligible(st.rules[k], p) && !Covered(st, p, st.rules[k])
    ensures !RestsOnApplication(st, p)
  {
    var id := Bare(st.rules[k]);
    assert FastApplies(st.rules[k], p, id.uid, id);
    assert forall a :: !SomeApplies(st, a, p, id.uid, id);
    assert Decide(st, p, id.uid, id).Accept?;
  }

  lemma FastMeetsRule(st: State, p: Packet, uid: nat, id: Identity)
    requires StateValid(st) && FastIsCovered(st, p) && SomeFast(st, p, uid, id)
    ensures exists a :: SomeApplies(st, a, p, uid, id)
  {
    var k :| k in st.rules && FastApplies(st.rules[k], p, uid, id);
    var j :| j in st.rules && AppliesTo(st.rules[j], p, Bare(st.rules[k]).uid, Bare(st.rules[k]));
    BareSpeaksForAll(st, j, p, st.rules[k], uid, id);
    assert SomeApplies(st, st.rules[j].spec.action, p, uid, id);
  }

  lemma CoveredRests(st: State, p: Packet, uid: nat, id: Identity)
    requires StateValid(st) && st.mode.Enforcing? && !SomeFallback(st, p) && (st.strategy.Fast? ==> FastIsCovered(st, p))
    requires Decide(st, p, uid, id).Accept?
    ensures SomeApplies(st, Accept, p, uid, id)
  {
    if SomeFast(st, p, uid, id) {
      FastMeetsRule(st, p, uid, id);
      var a :| SomeApplies(st, a, p, uid, id);
      assert a == Drop || a == Reject || a == Accept;
    }
  }

  /** While enforcing, acceptance rests on application Accepts alone exactly when no network Accept covers the
      connection and, under fast enforcement, some rule speaks about every process of each learned executable. */
  lemma RestsOnApplicationIff(st: State, p: Packet)
    requires StateValid(st) && st.mode.Enforcing?
    ensures RestsOnApplication(st, p) <==> !SomeFallback(st, p) && (st.strategy.Fast? ==> FastIsCovered(st, p))
  {
    if SomeFallback(st, p) {
      FallbackOpens(st, p);
    } else if st.strategy.Fast? && !FastIsCovered(st, p) {
      var k :| k in st.rules && FastEligible(st.rules[k], p) && !Covered(st, p, st.rules[k]);
      UncoveredOpens(st, p, k);
    } else {
      forall uid, id | Decide(st, p, uid, id).Accept? ensures SomeApplies(st, Accept, p, uid, id) {
        CoveredRests(st, p, uid, id);
      }
    }
  }

  /** Then a grant was made to an identified process, and an application Accept stands behind it. */
  lemma GrantsRestOnApplication(st: State, g: Grant)
    requires Justified(st, g) && RestsOnApplication(st, g.packet)
    ensures g.who.Some? && SomeApplies(st, Accept, g.packet, g.uid, g.who.value)
  {
    var id := Stranger(st);
    StrangersHaveNoRules(st, g.packet, g.uid, id);
    assert !Decide(st, g.packet, g.uid, id).Accept?;
  }
}
