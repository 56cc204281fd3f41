/** What a grant says about the later packets of its connection.

    A connection keeps its destination but may leave through another interface than the one it was granted on,
    and nobody asks again. The policy accepts the rerouted packet exactly when the grant carries over. */
module Rerouting {
  import opened Model
  import opened Netfilter
  import opened RuleBlocks
  import opened PolicyState
  import opened Decisions

  /** What the original packets of one connection have in common. */
  datatype Tuple = Tuple(family: Family, l4: L4, dst: Address, dport: nat)

  function TupleOf(p: Packet): Tuple { Tuple(p.family, p.l4, p.dst, p.dport) }

  /** The grant, as if it had been asked for this packet. */
  function For(g: Grant, p: Packet): Grant { g.(packet := p) }

  /** Does the grant speak about this process? */
  predicate Concerns(g: Grant, id: Identity) { g.who.None? || g.who == Some(id) }

  // ---------------------------------------------------------------- when a grant carries over

  /** The rule alone is reason enough to accept the packet, unless another denies it. */
  predicate Ground(st: State, r: Rule, p: Packet, uid: nat, id: Identity) {
    || (r.spec.action.Accept? && AppliesTo(r, p, uid, id))
    || (st.strategy.Fast? && FastApplies(r, p, uid, id))
    || NetworkFallback(r, p)
  }

  /** A rule that names no interface still speaks for acceptance, or one that names the new interface does. */
  predicate GroundStays(st: State, granted: Packet, p: Packet, uid: nat, id: Identity) {
    exists k :: k in st.rules
                && (|| (st.rules[k].spec.interface.None? && Ground(st, st.rules[k], granted, uid, id))
                    || (st.rules[k].spec.interface == Some(p.oif) && Ground(st, st.rules[k], p, uid, id)))
  }

  predicate DeniedThere(st: State, p: Packet, uid: nat, id: Identity) {
    exists k :: k in st.rules && !st.rules[k].spec.action.Accept? && st.rules[k].spec.interface == Some(p.oif)
                && AppliesTo(st.rules[k], p, uid, id)
  }

  /** No deny names the new interface, and some ground for the grant is not lost with the old one. */
  predicate Carried(st: State, granted: Packet, p: Packet, uid: nat, id: Identity) {
    !DeniedThere(st, p, uid, id) && (st.mode.Learning? || GroundStays(st, granted, p, uid, id))
  }

  ghost predicate CarriesOver(st: State, g: Grant, p: Packet) {
    forall id :: Concerns(g, id) ==> Carried(st, g.packet, p, g.uid, id)
  }

  // ---------------------------------------------------------------- exactly then the packet is accepted

  lemma InterfaceDecides(spec: RuleSpec, p: Packet, q: Packet)
    requires TupleOf(p) == TupleOf(q)
    ensures spec.interface.None? || p.oif == q.oif ==> (Outgoing(spec, p) <==> Outgoing(spec, q))
    ensures Outgoing(spec, p) ==> spec.interface.None? || spec.interface == Some(p.oif)
  {
  }

  lemma GroundsAccept(st: State, p: Packet, uid: nat, id: Identity)
    ensures (exists k :: k in st.rules && Ground(st, st.rules[k], p, uid, id)) <==>
            SomeApplies(st, Accept, p, uid, id) || SomeFast(st, p, uid, id) || SomeFallback(st, p)
  {
    if k :| k in st.rules && Ground(st, st.rules[k], p, uid, id) {
      assert st.rules[k].spec.action.Accept?;
    }
  }

  lemma GroundsStay(st: State, granted: Packet, p: Packet, uid: nat, id: Identity)
    requires TupleOf(p) == TupleOf(granted)
    ensures GroundStays(st, granted, p, uid, id) <==> exists k :: k in st.rules && Ground(st, st.rules[k], p, uid, id)
  {
    forall k | k in st.rules
      ensures st.rules[k].spec.interface.None? ==>
                (Ground(st, st.rules[k], p, uid, id) <==> Ground(st, st.rules[k], granted, uid, id))
      ensures Ground(st, st.rules[k], p, uid, id) ==>
                st.rules[k].spec.interface.None? || st.rules[k].spec.interface == Some(p.oif)
    {
      InterfaceDecides(st.rules[k].spec, p, granted);
    }
  }

  /** Denies that name no interface would have stopped the grant. */
  lemma DeniesNameInterface(st: State, granted: Packet, p: Packet, uid: nat, id: Identity)
    requires TupleOf(p) == TupleOf(granted) && Decide(st, granted, uid, id).Accept?
    ensures DeniedThere(st, p, uid, id) <==> SomeApplies(st, Drop, p, uid, id) || SomeApplies(st, Reject, p, uid, id)
  {
    forall k | k in st.rules && !st.rules[k].spec.action.Accept? && AppliesTo(st.rules[k], p, uid, id)
      ensures st.rules[k].spec.interface == Some(p.oif)
    {
      InterfaceDecides(st.rules[k].spec, p, granted);
      assert AppliesTo(st.rules[k], granted, uid, id) ==> SomeApplies(st, st.rules[k].spec.action, granted, uid, id);
    }
    if k :| k in st.rules && !st.rules[k].spec.action.Accept? && AppliesTo(st.rules[k], p, uid, id) {
      assert st.rules[k].spec.action == Drop || st.rules[k].spec.action == Reject;
    }
  }

  lemma DecisionCarriesOver(st: State, granted: Packet, p: Packet, uid: nat, id: Identity)
    requires TupleOf(p) == TupleOf(granted) && Decide(st, granted, uid, id).Accept?
    ensures Decide(st, p, uid, id).Accept? <==> Carried(st, granted, p, uid, id)
  {
    DeniesNameInterface(st, granted, p, uid, id);
    GroundsStay(st, granted, p, uid, id);
    GroundsAccept(st, p, uid, id);
  }

  /** The policy accepts another packet of a granted connection, for everyone the grant concerns, if and only if the
      grant carries over to the interface the packet leaves through. */
  lemma AcceptedIffCarriedOver(st: State, g: Grant, p: Packet)
    requires Justified(st, g) && TupleOf(p) == TupleOf(g.packet)
    ensures Justified(st, For(g, p)) <==> CarriesOver(st, g, p)
  {
    forall id | Concerns(g, id)
      ensures Decide(st, p, g.uid, id).Accept? <==> Carried(st, g.packet, p, g.uid, id)
    {
      DecisionCarriesOver(st, g.packet, p, g.uid, id);
    }
    assert Justified(st, For(g, p)) <==> forall id :: Concerns(g, id) ==> Decide(st, p, g.uid, id).Accept?;
  }

  /** On the interface it was granted on, every grant carries over. */
  lemma SameInterfaceCarriesOver(st: State, g: Grant, p: Packet)
    requires Justified(st, g) && TupleOf(p) == TupleOf(g.packet) && p.oif == g.packet.oif
    ensures CarriesOver(st, g, p)
  {
    forall id | Concerns(g, id) ensures Carried(st, g.packet, p, g.uid, id) {
      SameDestination(st, p, g.packet, g.uid, id);
      DecisionCarriesOver(st, g.packet, p, g.uid, id);
    }
  }

  lemma SameDestination(st: State, p: Packet, q: Packet, uid: nat, id: Identity)
    requires TupleOf(p) == TupleOf(q) && p.oif == q.oif
    ensures Decide(st, p, uid, id) == Decide(st, q, uid, id)
  {
    assert forall spec :: Outgoing(spec, p) <==> Outgoing(spec, q);
    assert forall r :: AppliesTo(r, p, uid, id) <==> AppliesTo(r, q, uid, id);
    assert SomeFast(st, p, uid, id) <==> SomeFast(st, q, uid, id);
    assert SomeFallback(st, p) <==> SomeFallback(st, q);
  }
}
