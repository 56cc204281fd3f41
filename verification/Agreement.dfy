/** Userspace decisions, field by field: which rules speak about a process and a packet, and which of them decides. */
module Agreement {
  import opened Model
  import opened Netfilter
  import opened RuleBlocks
  import opened PolicyState
  import opened Decisions
  import opened Grounds

  // ---------------------------------------------------------------- which rules speak

  /** Every field the selector sets is the process's own. */
  predicate Agrees(sel: Selector, id: Identity) {
    && !sel.redacted
    && sel.executable in {None, Some(id.executable)}
    && sel.file in {None, Some(id.file)}
    && sel.uid in {None, Some(id.uid)}
    && (sel.cgroup.Some? ==> exists i :: 0 <= i < |id.cgroups| && id.cgroups[i] == sel.cgroup.value)
    && (match sel.commandLine
        case None => true
        case Some(ExactLine(arguments)) => id.commandLine == arguments
        case Some(PrefixLine(arguments)) =>
          |arguments| <= |id.commandLine| && id.commandLine[..|arguments|] == arguments)
  }

  /** The packet leaves through the rule's interface, with its protocol, for its peer and port. */
  predicate Bound(spec: RuleSpec, p: Packet) {
    && spec.interface in {None, Some(p.oif)}
    && (spec.peer.Some? ==> Contains(spec.peer.value, p.dst))
    && (spec.port.Some? ==> spec.port.value.start <= p.dport <= spec.port.value.end)
    && (match spec.protocol
        case Any => true
        case Tcp => p.l4 == TCP
        case Udp => p.l4 == UDP
        case Icmp => p.l4 == ICMP && p.family == IPv4
        case IcmpV6 => p.l4 == ICMPV6 && p.family == IPv6)
  }

  predicate InForce(spec: RuleSpec, p: Packet) { spec.enabled && spec.direction == Outbound && Bound(spec, p) }

  /** An enabled, pinned application rule for this packet, this socket owner and this process. */
  predicate Governs(r: Rule, p: Packet, uid: nat, id: Identity) {
    && InForce(r.spec, p) && r.spec.application.Some?
    && r.spec.application.value.file.Some? && r.spec.application.value.uid in {None, Some(uid)}
    && Agrees(r.spec.application.value, id)
  }

  /** A learned Accept of the same executable and user, whatever its arguments and control group. */
  predicate Extends(r: Rule, p: Packet, uid: nat, id: Identity) {
    && InForce(r.spec, p) && r.spec.application.Some? && r.spec.origin == Origin.Learned && r.spec.action == Accept
    && var sel := r.spec.application.value;
       !sel.redacted && sel.executable == Some(id.executable) && sel.file == Some(id.file) && sel.uid == Some(id.uid)
       && id.uid == uid
  }

  predicate NetworkAccepts(r: Rule, p: Packet) { InForce(r.spec, p) && r.spec.application.None? && r.spec.action == Accept }

  lemma RulesSpeak(r: Rule, p: Packet, uid: nat, id: Identity)
    ensures AppliesTo(r, p, uid, id) <==> Governs(r, p, uid, id)
    ensures FastApplies(r, p, uid, id) <==> Extends(r, p, uid, id)
    ensures NetworkFallback(r, p) <==> NetworkAccepts(r, p)
  {
    assert Outgoing(r.spec, p) <==> Bound(r.spec, p);
    if r.spec.application.Some? { SelectorsAgree(r.spec.application.value, id); }
  }

  lemma SelectorsAgree(sel: Selector, id: Identity)
    ensures SelectorMatches(sel, id) <==> Agrees(sel, id)
  {
  }

  // ---------------------------------------------------------------- which of them decides

  function Severity(a: Action): nat { match a case Drop => 0 case Reject => 1 case Accept => 2 }

  /** Outside BlockAll, the most severe rule that speaks about the process decides. */
  lemma StrictestDecides(st: State, p: Packet, uid: nat, id: Identity, k: nat)
    requires !st.mode.BlockAll? && k in st.rules && Governs(st.rules[k], p, uid, id)
    requires forall j :: j in st.rules && Governs(st.rules[j], p, uid, id) ==>
               Severity(st.rules[k].spec.action) <= Severity(st.rules[j].spec.action)
    ensures Decide(st, p, uid, id) == st.rules[k].spec.action
  {
    forall j | j in st.rules ensures AppliesTo(st.rules[j], p, uid, id) <==> Governs(st.rules[j], p, uid, id) {
      RulesSpeak(st.rules[j], p, uid, id);
    }
  }

  /** If none speaks, Learning accepts; enforcing needs a network Accept, or under Fast a learned rule of the same
      executable and user. */
  lemma SilenceDecides(st: State, p: Packet, uid: nat, id: Identity)
    requires !st.mode.BlockAll? && forall k :: k in st.rules ==> !Governs(st.rules[k], p, uid, id)
    ensures Decide(st, p, uid, id) ==
            if || st.mode.Learning?
               || (exists k :: k in st.rules && NetworkAccepts(st.rules[k], p))
               || (st.strategy.Fast? && exists k :: k in st.rules && Extends(st.rules[k], p, uid, id))
            then Accept else Drop
  {
    forall k | k in st.rules
      ensures AppliesTo(st.rules[k], p, uid, id) <==> Governs(st.rules[k], p, uid, id)
      ensures FastApplies(st.rules[k], p, uid, id) <==> Extends(st.rules[k], p, uid, id)
      ensures NetworkFallback(st.rules[k], p) <==> NetworkAccepts(st.rules[k], p)
    {
      RulesSpeak(st.rules[k], p, uid, id);
    }
  }

  /** Strict enforcement without a network Accept accepts only a process some enabled Accept agrees with in every
      field it sets, and that no deny agrees with. */
  lemma AcceptanceNeedsAgreement(st: State, p: Packet, uid: nat, id: Identity)
    requires st.mode.Enforcing? && st.strategy.Strict? && Decide(st, p, uid, id).Accept?
    requires forall k :: k in st.rules ==> !NetworkAccepts(st.rules[k], p)
    ensures exists k :: k in st.rules && st.rules[k].spec.action == Accept && Governs(st.rules[k], p, uid, id)
    ensures forall k :: k in st.rules && Governs(st.rules[k], p, uid, id) ==> st.rules[k].spec.action == Accept
  {
    forall k | k in st.rules
      ensures AppliesTo(st.rules[k], p, uid, id) <==> Governs(st.rules[k], p, uid, id)
      ensures NetworkFallback(st.rules[k], p) <==> NetworkAccepts(st.rules[k], p)
    {
      RulesSpeak(st.rules[k], p, uid, id);
    }
    forall k | k in st.rules && Governs(st.rules[k], p, uid, id) ensures st.rules[k].spec.action == Accept {
      assert SomeApplies(st, st.rules[k].spec.action, p, uid, id);
      assert st.rules[k].spec.action in {Accept, Drop, Reject};
    }
  }

  lemma BlockAllDrops(st: State, p: Packet, uid: nat, who: Option<Identity>)
    requires st.mode.BlockAll?
    ensures Answer(st, p, uid, who) == Drop
  {
  }

  // ---------------------------------------------------------------- answers without an identity

  /** An enabled application rule for this packet and socket owner that the mode consults. */
  predicate Matters(st: State, r: Rule, p: Packet, uid: nat) {
    && InForce(r.spec, p) && r.spec.application.Some? && r.spec.application.value.uid in {None, Some(uid)}
    && (st.mode.Learning? ==> r.spec.action != Accept)
  }

  /** Nobody identified is accepted exactly if no application rule matters and the policy accepts everybody; and an
      identity, if there is one, is decided on as it is. */
  lemma AnswersWithoutIdentity(st: State, p: Packet, uid: nat)
    requires StateValid(st)
    ensures Answer(st, p, uid, None).Accept? <==>
            && (forall k :: k in st.rules ==> !Matters(st, st.rules[k], p, uid))
            && (forall id :: Decide(st, p, uid, id).Accept?)
    ensures Answer(st, p, uid, None).Accept? || Answer(st, p, uid, None).Drop?
    ensures forall id :: Answer(st, p, uid, Some(id)) == Decide(st, p, uid, id)
  {
    forall k | k in st.rules
      ensures Matters(st, st.rules[k], p, uid) <==>
              Candidate(st.rules[k], p, uid) && (st.mode.Learning? ==> !st.rules[k].spec.action.Accept?)
    {
      assert Outgoing(st.rules[k].spec, p) <==> Bound(st.rules[k].spec, p);
    }
    if Answer(st, p, uid, None).Accept? {
      var anyone := Grant(p, uid, None);
      AcceptedAnswersAreJustified(st, anyone);
      assert Justified(st, anyone) && anyone.who.None?;
      forall id ensures Decide(st, p, uid, id).Accept? { assert Decide(st, anyone.packet, anyone.uid, id).Accept?; }
    } else if !SomeCandidate(st, p, uid, st.mode.Learning?) {
      var id := Stranger(st);
      StrangersHaveNoRules(st, p, uid, id);
      assert !SomeFast(st, p, uid, id);
      assert !Decide(st, p, uid, id).Accept?;
    }
  }
}
