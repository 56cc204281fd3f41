/** Userspace decisions on queued packets, and how they survive changes of the policy. */
module Decisions {
  import opened Model
  import opened Netfilter
  import opened RuleBlocks
  import opened PolicyState

  /** An enabled outbound application rule whose network tuple and socket owner fit the connection. */
  predicate Candidate(r: Rule, p: Packet, uid: nat) {
    && r.spec.enabled && r.spec.direction.Outbound? && r.spec.application.Some? && Outgoing(r.spec, p)
    && (r.spec.application.value.uid.Some? ==> r.spec.application.value.uid.value == uid)
  }

  predicate AppliesTo(r: Rule, p: Packet, uid: nat, id: Identity) {
    && Candidate(r, p, uid)
    && r.spec.application.value.file == Some(id.file) && SelectorMatches(r.spec.application.value, id)
  }

  /** Fast enforcement lets a learned Accept stand for every process of the same user and executable. */
  predicate FastApplies(r: Rule, p: Packet, uid: nat, id: Identity) {
    && r.spec.origin.Learned? && r.spec.action.Accept? && Candidate(r, p, uid)
    && var sel := r.spec.application.value;
       !sel.redacted && sel.executable == Some(id.executable) && sel.file == Some(id.file) && sel.uid == Some(id.uid)
  }

  predicate NetworkFallback(r: Rule, p: Packet) {
    && r.spec.enabled && r.spec.direction.Outbound? && r.spec.application.None? && r.spec.action.Accept?
    && Outgoing(r.spec, p)
  }

  predicate SomeApplies(st: State, a: Action, p: Packet, uid: nat, id: Identity) {
    exists k :: k in st.rules && st.rules[k].spec.action == a && AppliesTo(st.rules[k], p, uid, id)
  }

  predicate SomeFast(st: State, p: Packet, uid: nat, id: Identity) {
    st.strategy.Fast? && exists k :: k in st.rules && FastApplies(st.rules[k], p, uid, id)
  }

  predicate SomeFallback(st: State, p: Packet) { exists k :: k in st.rules && NetworkFallback(st.rules[k], p) }

  predicate SomeCandidate(st: State, p: Packet, uid: nat, deniesOnly: bool) {
    exists k :: k in st.rules && Candidate(st.rules[k], p, uid) && (deniesOnly ==> !st.rules[k].spec.action.Accept?)
  }

  /** The decision for an attributed packet: Drop before Reject before Accept. */
  function Decide(st: State, p: Packet, uid: nat, id: Identity): Action {
    if st.mode.BlockAll? || SomeApplies(st, Drop, p, uid, id) then Drop
    else if SomeApplies(st, Reject, p, uid, id) then Reject
    else if st.mode.Learning? || SomeApplies(st, Accept, p, uid, id) || SomeFast(st, p, uid, id) || SomeFallback(st, p)
    then Accept
    else Drop
  }

  /** Userspace's answer: without any candidate rule nobody is identified, and an identity that is
      needed but cannot be resolved denies. */
  function Answer(st: State, p: Packet, uid: nat, who: Option<Identity>): Action {
    match who
    case Some(id) => Decide(st, p, uid, id)
    case None =>
      if st.mode.BlockAll? || SomeCandidate(st, p, uid, st.mode.Learning?) then Drop
      else if st.mode.Learning? || SomeFallback(st, p) then Accept
      else Drop
  }

  // ---------------------------------------------------------------- what a grant rests on

  datatype Grant = Grant(packet: Packet, uid: nat, who: Option<Identity>)

  /** The policy accepts this connection from the process it was granted to; if none was identified,
      from every process. */
  ghost predicate Justified(st: State, g: Grant) {
    match g.who
    case Some(id) => Decide(st, g.packet, g.uid, id).Accept?
    case None => forall id :: Decide(st, g.packet, g.uid, id).Accept?
  }

  lemma AcceptedAnswersAreJustified(st: State, g: Grant)
    requires Answer(st, g.packet, g.uid, g.who).Accept?
    ensures Justified(st, g)
  {
    if g.who.None? {
      forall id ensures Decide(st, g.packet, g.uid, id).Accept? {
        forall k, a | k in st.rules && st.rules[k].spec.action == a && AppliesTo(st.rules[k], g.packet, g.uid, id)
          ensures a.Accept?
        {
          assert Candidate(st.rules[k], g.packet, g.uid);
        }
      }
    }
  }

  // ---------------------------------------------------------------- change within one generation

  predicate Enabled(st: State, k: nat) { k in st.rules && st.rules[k].spec.enabled }

  /** What may change while the generation stays: rules that are on stay as they are, what is newly on
      only accepts, and mode and strategy stay too, except that the last generation may fall to BlockAll. */
  ghost predicate Grows(a: State, b: State) {
    && b.generation == a.generation
    && ((b.mode == a.mode && b.strategy == a.strategy) || (a.generation >= MAX_GENERATION && b.mode.BlockAll?))
    && (forall k :: Enabled(a, k) ==> Enabled(b, k) && b.rules[k].spec == a.rules[k].spec)
    && (forall k :: Enabled(b, k) && !Enabled(a, k) ==> b.rules[k].spec.action.Accept?)
  }

  lemma GrowsComposes(a: State, b: State, c: State)
    requires Grows(a, b) && Grows(b, c)
    ensures Grows(a, c)
  {
    forall k | Enabled(c, k) && !Enabled(a, k) ensures c.rules[k].spec.action.Accept? {
      if Enabled(b, k) { assert c.rules[k].spec == b.rules[k].spec; }
    }
  }

  lemma DeniesDoNotAppear(a: State, b: State, action: Action, p: Packet, uid: nat, id: Identity)
    requires Grows(a, b) && !action.Accept? && !SomeApplies(a, action, p, uid, id)
    ensures !SomeApplies(b, action, p, uid, id)
  {
    forall k | k in b.rules && b.rules[k].spec.action == action && AppliesTo(b.rules[k], p, uid, id)
      ensures false
    {
      assert Enabled(b, k);
      assert Enabled(a, k) && b.rules[k].spec == a.rules[k].spec;
      assert AppliesTo(a.rules[k], p, uid, id);
    }
  }

  lemma AcceptsStay(a: State, b: State, p: Packet, uid: nat, id: Identity)
    requires Grows(a, b)
    ensures SomeApplies(a, Accept, p, uid, id) ==> SomeApplies(b, Accept, p, uid, id)
    ensures SomeFallback(a, p) ==> SomeFallback(b, p)
    ensures SomeFast(a, p, uid, id) && a.strategy == b.strategy ==> SomeFast(b, p, uid, id)
  {
    forall k | k in a.rules && a.rules[k].spec.enabled ensures k in b.rules && b.rules[k].spec == a.rules[k].spec {
      assert Enabled(a, k);
    }
  }

  /** Within a generation an accepting decision is never taken back, except by BlockAll. */
  lemma DecisionsStand(a: State, b: State, p: Packet, uid: nat, id: Identity)
    requires Grows(a, b) && !b.mode.BlockAll? && Decide(a, p, uid, id).Accept?
    ensures Decide(b, p, uid, id).Accept?
  {
    DeniesDoNotAppear(a, b, Drop, p, uid, id);
    DeniesDoNotAppear(a, b, Reject, p, uid, id);
    AcceptsStay(a, b, p, uid, id);
  }

  lemma GrantsStand(a: State, b: State, g: Grant)
    requires Grows(a, b) && !b.mode.BlockAll? && Justified(a, g)
    ensures Justified(b, g)
  {
    match g.who
    case Some(id) => DecisionsStand(a, b, g.packet, g.uid, id);
    case None =>
      forall id ensures Decide(b, g.packet, g.uid, id).Accept? {
        DecisionsStand(a, b, g.packet, g.uid, id);
      }
  }
}
