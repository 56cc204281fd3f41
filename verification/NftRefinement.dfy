/** The nftables program does what the outbound policy says, for every packet and every userspace. */
module NftRefinement {
  import opened Model
  import opened Marks
  import opened Netfilter
  import opened RuleOrder
  import opened RuleBlocks
  import opened Compilers
  import opened Outbound

  // ---------------------------------------------------------------- protocol lists

  predicate ProtocolIn(ps: seq<Protocol>, p: Packet) { exists x :: x in ps && ProtocolOk(x, p) }

  predicate Fits(x: Protocol, f: Family) { !(x.Icmp? && f.IPv6?) && !(x.IcmpV6? && f.IPv4?) }

  predicate Breaks(effects: seq<Effect>, p: Packet) { !p.ct.Tracked? && exists e :: e in effects && e.NftConnmark? }

  lemma ProtocolMeans(nft: bool, x: Protocol, p: Packet)
    requires nft || Fits(x, p.family)
    ensures HoldAll(if nft then NftProtocol(x) else XtProtocol(x), p) <==> ProtocolOk(x, p)
  {
    if nft {
      NftProtocolMeans(x, p);
    } else {
      XtProtocolMeans(RuleSpec(Outbound, Accept, x, None, None, None, None, Manual, true), p);
    }
  }

  lemma {:induction false} PerProtocolActs(nft: bool, ps: seq<Protocol>, before: seq<Match>, after: seq<Match>,
                                           effects: seq<Effect>, target: Target, p: Packet)
    requires !target.Continue? && !Breaks(effects, p)
    requires nft || forall x :: x in ps ==> Fits(x, p.family)
    ensures Traverse(PerProtocol(nft, ps, before, after, effects, target), p) ==
            if HoldAll(before, p) && HoldAll(after, p) && ProtocolIn(ps, p)
            then Stopped(target, AffectAll(effects, p)) else Fell(p)
  {
    if ps != [] {
      var protocol := if nft then NftProtocol(ps[0]) else XtProtocol(ps[0]);
      var fw := FwRule(before + protocol + after, effects, target);
      HoldAllConcat(before, protocol, p);
      HoldAllConcat(before + protocol, after, p);
      ProtocolMeans(nft, ps[0], p);
      TraverseConcat([fw], PerProtocol(nft, ps[1..], before, after, effects, target), p);
      TraverseOne(fw, p);
      PerProtocolActs(nft, ps[1..], before, after, effects, target, p);
      assert forall x :: x in ps <==> x == ps[0] || x in ps[1..];
    }
  }

  /** Clearing a stamp, whatever the number of rules that spell it out. */
  lemma {:induction false} PerProtocolClears(nft: bool, ps: seq<Protocol>, before: seq<Match>, after: seq<Match>,
                                             effect: Effect, p: Packet)
    requires effect == if nft then NftConnmark(false, 0) else XtConnmark(false, 0)
    requires before + after == [OnCtDir(Original)]
    requires nft || forall x :: x in ps ==> Fits(x, p.family)
    ensures Traverse(PerProtocol(nft, ps, before, after, [effect], Continue), p) ==
            Fell(if IsOriginal(p) && ProtocolIn(ps, p) then SetConnmark(p, false, 0) else p)
  {
    if ps != [] {
      var protocol := if nft then NftProtocol(ps[0]) else XtProtocol(ps[0]);
      var fw := FwRule(before + protocol + after, [effect], Continue);
      var rest := PerProtocol(nft, ps[1..], before, after, [effect], Continue);
      HoldAllConcat(before, protocol, p);
      HoldAllConcat(before + protocol, after, p);
      HoldAllConcat(before, after, p);
      One(OnCtDir(Original), p);
      ProtocolMeans(nft, ps[0], p);
      TraverseConcat([fw], rest, p);
      TraverseOne(fw, p);
      OneEffect(effect, p);
      assert Applies(fw, p) <==> IsOriginal(p) && ProtocolOk(ps[0], p);
      var q := if Applies(fw, p) then SetConnmark(p, false, 0) else p;
      PerProtocolClears(nft, ps[1..], before, after, effect, q);
      assert forall x :: ProtocolOk(x, q) <==> ProtocolOk(x, p);
      assert forall x :: x in ps <==> x == ps[0] || x in ps[1..];
    }
  }

  lemma TcpMeans(p: Packet)
    ensures ProtocolIn([Tcp], p) <==> p.l4.TCP?
  {
    assert Tcp in [Tcp];
  }

  lemma NonTcpMeans(p: Packet)
    ensures ProtocolIn(NON_TCP, p) <==> Attributable(p) && !p.l4.TCP?
  {
    assert Udp in NON_TCP && Icmp in NON_TCP && IcmpV6 in NON_TCP;
  }

  lemma ReplyProtocolsMean(i: Interception, p: Packet)
    ensures ProtocolIn(ReplyProtocols(i), p) <==>
            match i case NoInterception => false case TcpInitial => p.l4.TCP? case PerPacket => Attributable(p)
  {
    match i {
      case NoInterception =>
      case TcpInitial => TcpMeans(p);
      case PerPacket =>
        NonTcpMeans(p);
        assert ReplyProtocols(i) == [Tcp] + NON_TCP;
        assert Tcp in [Tcp];
        assert forall x :: x in [Tcp] + NON_TCP <==> x == Tcp || x in NON_TCP;
        assert ProtocolIn([Tcp] + NON_TCP, p) <==> ProtocolOk(Tcp, p) || ProtocolIn(NON_TCP, p);
    }
  }

  // ---------------------------------------------------------------- the output chain, stage by stage

  predicate RelatedAnswer(p: Packet) { p.ct.Tracked? && p.ct.state.Related? && p.ct.dir.Reply? }

  lemma RelatedReplyMeans(p: Packet)
    ensures HoldAll(RELATED_REPLY, p) <==> RelatedAnswer(p)
  {
    Two(OnCtState({Related}), OnCtDir(Reply), p);
  }

  lemma ResetShapeMeans(p: Packet)
    ensures HoldAll(RESET_SHAPE, p) <==> p.l4.TCP? && p.flags.rst
  {
    Two(OnL4(TCP), OnFlags(RST_ONLY, RST_ONLY), p);
  }

  lemma RejectedShapeMeans(f: Family, p: Packet)
    ensures HoldAll(RejectedShape(f), p) <==>
            if f.IPv4? then p.l4.ICMP? && p.icmpType == 3 && p.icmpCode == 3
            else p.l4.ICMPV6? && p.icmpType == 1 && p.icmpCode == 4
  {
    if f.IPv4? {
      Two(OnL4(ICMP), OnIcmp(3, 3), p);
    } else {
      Two(OnL4(ICMPV6), OnIcmp(1, 4), p);
    }
  }

  lemma RejectRuleApplies(shape: seq<Match>, g: nat, effects: seq<Effect>, p: Packet)
    requires forall e :: e in effects ==> !e.NftConnmark?
    ensures Applies(FwRule(RELATED_REPLY + shape + [OnConnmark(false, g)], effects, Pass), p) <==>
            RelatedAnswer(p) && HoldAll(shape, p) && StampedWith(p, false, g)
  {
    RelatedReplyMeans(p);
    HoldAllConcat(RELATED_REPLY, shape, p);
    HoldAllConcat(RELATED_REPLY + shape, [OnConnmark(false, g)], p);
    One(OnConnmark(false, g), p);
    PlainApplies(FwRule(RELATED_REPLY + shape + [OnConnmark(false, g)], effects, Pass), p);
  }

  lemma UnreachableRuleApplies(f: Family, g: nat, effects: seq<Effect>, p: Packet)
    requires forall e :: e in effects ==> !e.NftConnmark?
    ensures Applies(FwRule(RELATED_REPLY + [OnFamily(f)] + RejectedShape(f) + [OnConnmark(false, g)], effects, Pass), p) <==>
            RelatedAnswer(p) && p.family == f && HoldAll(RejectedShape(f), p) && StampedWith(p, false, g)
  {
    RejectRuleApplies([OnFamily(f)] + RejectedShape(f), g, effects, p);
    HoldAllConcat([OnFamily(f)], RejectedShape(f), p);
    One(OnFamily(f), p);
    assert RELATED_REPLY + ([OnFamily(f)] + RejectedShape(f)) == RELATED_REPLY + [OnFamily(f)] + RejectedShape(f);
  }

  lemma AnyOfThree(a: FwRule, b: FwRule, c: FwRule, p: Packet)
    ensures (exists r :: r in [a, b, c] && Applies(r, p)) <==> Applies(a, p) || Applies(b, p) || Applies(c, p)
  {
    assert a in [a, b, c] && b in [a, b, c] && c in [a, b, c];
  }

  lemma RejectRepliesAct(s: Snapshot, p: Packet)
    ensures Traverse(NftRejectReplies(s, Outbound), p) ==
            if GeneratedReject(s, p) then Stopped(Pass, InDomain(p, Handoff)) else Fell(p)
  {
    if HasOutboundReject(s) {
      var rules := NftRejectReplies(s, Outbound);
      var effects := [SetDomain(Handoff)];
      TraverseUniform(rules, effects, Pass, p);
      OneEffect(SetDomain(Handoff), p);
      AnyOfThree(rules[0], rules[1], rules[2], p);
      RejectRuleApplies(RESET_SHAPE, s.generation, effects, p);
      UnreachableRuleApplies(IPv4, s.generation, effects, p);
      UnreachableRuleApplies(IPv6, s.generation, effects, p);
      ResetShapeMeans(p);
      RejectedShapeMeans(IPv4, p);
      RejectedShapeMeans(IPv6, p);
    }
  }

  lemma InvalidActs(s: Snapshot, rest: seq<FwRule>, p: Packet)
    ensures
      var invalid := if s.mode.Enforcing? then [FwRule([OnInvalid], [], Deny)] else [];
      Traverse(invalid + rest, p) ==
      if s.mode.Enforcing? && p.ct.Invalid? then Stopped(Deny, p) else Traverse(rest, p)
  {
    if s.mode.Enforcing? {
      var fw := FwRule([OnInvalid], [], Deny);
      TraverseConcat([fw], rest, p);
      TraverseOne(fw, p);
      PlainApplies(fw, p);
      One(OnInvalid, p);
    } else {
      assert [] + rest == rest;
    }
  }

  lemma DeniesAreChosen(s: Snapshot)
    ensures forall r :: r in NetworkRules(s, Outbound, {Drop, Reject}, None) <==>
                        r in s.rules && (NetworkRule(r, Drop) || NetworkRule(r, Reject))
  {
  }

  lemma FirstDeny(s: Snapshot, p: Packet)
    requires SnapshotValid(s)
    ensures
      match First(NftVerdicts(s, Outbound, false), NetworkRules(s, Outbound, {Drop, Reject}, None), p)
      case None => !NetworkMatch(s, p, Drop) && !(p.ct.Tracked? && NetworkMatch(s, p, Reject))
      case Some(r) =>
        if r.spec.action.Drop? then NetworkMatch(s, p, Drop)
        else !NetworkMatch(s, p, Drop) && p.ct.Tracked? && LeastReject(s, p, r)
  {
    var e := NftVerdicts(s, Outbound, false);
    var rules := NetworkRules(s, Outbound, {Drop, Reject}, None);
    DeniesAreChosen(s);
    SortOrders(FilterRules(Pick(Outbound, Some(false), {Drop, Reject}, None), s.rules));
    if First(e, rules, p).Some? {
      FirstIsLeast(e, rules, p);
    }
  }

  /** In a list of network denies a matching Drop goes first, then the Reject with the least id. */
  lemma DeniesAct(s: Snapshot, p: Packet)
    requires SnapshotValid(s)
    ensures
      Traverse(Section(NftVerdicts(s, Outbound, false), NetworkRules(s, Outbound, {Drop, Reject}, None)), p) ==
      if NetworkMatch(s, p, Drop) then Stopped(Deny, p)
      else if p.ct.Tracked? && NetworkMatch(s, p, Reject) then
        Stopped(Refuse(RefusesWithReset(s, p)), SetConnmark(p, false, s.generation))
      else Fell(p)
  {
    var e := NftVerdicts(s, Outbound, false);
    var rules := NetworkRules(s, Outbound, {Drop, Reject}, None);
    SectionActs(e, rules, p);
    FirstDeny(s, p);
    match First(e, rules, p) {
      case None =>
      case Some(r) =>
        DeniesAreChosen(s);
        if r.spec.action.Reject? {
          LeastIsReset(s, p, r);
        }
    }
  }

  lemma LeastIsReset(s: Snapshot, p: Packet, r: Rule)
    requires SnapshotValid(s) && LeastReject(s, p, r)
    ensures RefusesWithReset(s, p) <==> r.spec.protocol.Tcp?
  {
    forall x | x in s.rules && LeastReject(s, p, x)
      ensures x == r
    {
      assert x.id == r.id;
      IdsAreUnique(s.rules, x, r);
    }
  }

  lemma IdsAreUnique(rules: seq<Rule>, a: Rule, b: Rule)
    requires DistinctIds(rules) && a in rules && b in rules && a.id == b.id
    ensures a == b
  {
    var i :| 0 <= i < |rules| && rules[i] == a;
    var j :| 0 <= j < |rules| && rules[j] == b;
    assert !(i < j) && !(j < i);
  }

  lemma LoopbackActs(s: Snapshot, p: Packet)
    ensures Traverse(NftLoopback(s, Outbound), p) ==
            if LocalReply(s, p) then Stopped(Pass, InDomain(p, Handoff)) else Fell(p)
  {
    if s.mode.Enforcing? {
      var before := [OnOif("lo"), OnCtDir(Reply), OnCtState({Established})];
      PerProtocolActs(true, ReplyProtocols(Attribution(s)), before, [OnConnmark(true, s.generation)],
                      [SetDomain(Handoff)], Pass, p);
      ReplyProtocolsMean(Attribution(s), p);
      OneEffect(SetDomain(Handoff), p);
      One(OnConnmark(true, s.generation), p);
      assert before == [OnOif("lo")] + ESTABLISHED_REPLY;
      HoldAllConcat([OnOif("lo")], ESTABLISHED_REPLY, p);
      One(OnOif("lo"), p);
      Two(OnCtDir(Reply), OnCtState({Established}), p);
    }
  }

  lemma FlowsAct(s: Snapshot, p: Packet)
    ensures Traverse(NftFlows(s, Outbound), p) ==
            if EstablishedFlow(s, p) then Stopped(Pass, InDomain(p, Handoff)) else Fell(p)
  {
    if !Attribution(s).NoInterception? {
      PerProtocolActs(true, [Tcp], [OnCtDir(Original), OnCtState({Established})], [OnConnmark(true, s.generation)],
                      [SetDomain(Handoff)], Pass, p);
      TcpMeans(p);
      OneEffect(SetDomain(Handoff), p);
      One(OnConnmark(true, s.generation), p);
      Two(OnCtDir(Original), OnCtState({Established}), p);
    }
  }

  lemma ResetsAct(s: Snapshot, p: Packet)
    ensures Traverse(NftResets(s), p) == Fell(Unstamped(s, p))
  {
    if Attribution(s).PerPacket? {
      assert [OnCtDir(Original)] + [] == [OnCtDir(Original)];
      PerProtocolClears(true, NON_TCP, [OnCtDir(Original)], [], NftConnmark(false, 0), p);
      NonTcpMeans(p);
    }
  }

  lemma RepliesAct(s: Snapshot, p: Packet)
    ensures Traverse(Section(NftVerdicts(s, Outbound, true), NetworkRules(s, Inbound, {Accept}, None)), p) ==
            if AnswersInbound(s, p) then Stopped(Pass, if s.mode.Learning? then p else InDomain(p, Handoff)) else Fell(p)
  {
    var rules := NetworkRules(s, Inbound, {Accept}, None);
    SectionActs(NftVerdicts(s, Outbound, true), rules, p);
    forall r | r in s.rules ensures r in rules <==> InboundAccept(r) {}
  }

  lemma AsksIsChosen(s: Snapshot, f: Option<Family>)
    ensures forall r :: r in ApplicationRules(s, QueuedActions(s.mode), f) <==>
                        r in s.rules && Asks(s, r) && (f.Some? ==> SupportsFamily(r.spec, f.value))
  {
    forall a: Action ensures a in QueuedActions(s.mode) <==> s.mode.Enforcing? || !a.Accept? {
      assert a == Accept || a == Drop || a == Reject;
    }
  }

  lemma QueuesAct(s: Snapshot, p: Packet)
    ensures Traverse(Section(NftQueue, ApplicationRules(s, QueuedActions(s.mode), None)), p) ==
            if IsOriginal(p) && InEnvelope(s, p) then Stopped(Enqueue(ENFORCE_QUEUE), InDomain(p, Pending)) else Fell(p)
  {
    SectionActs(NftQueue, ApplicationRules(s, QueuedActions(s.mode), None), p);
    AsksIsChosen(s, None);
  }

  lemma GuardsAct(s: Snapshot, p: Packet)
    ensures Traverse(Section(NftGuard, ApplicationRules(s, QueuedActions(s.mode), None)), p) ==
            if Guarded(Nft, s, p) then Stopped(Deny, p) else Fell(p)
  {
    SectionActs(NftGuard, ApplicationRules(s, QueuedActions(s.mode), None), p);
    AsksIsChosen(s, None);
  }

  lemma CatchAll(target: Target, p: Packet)
    requires !target.Continue?
    ensures Traverse([FwRule(EVERYTHING, [], target)], p) == Stopped(target, p)
  {
    TraverseOne(FwRule(EVERYTHING, [], target), p);
  }

  lemma SynSampleMeans(mask: Flags, p: Packet)
    ensures HoldAll([OnCtDir(Original), OnL4(TCP), OnCtState({New}), OnFlags(mask, SYN_ONLY)], p) <==>
            IsOriginal(p) && p.l4.TCP? && p.ct.state.New? && Masked(p.flags, mask) == SYN_ONLY
  {
    var a, b := [OnCtDir(Original), OnL4(TCP)], [OnCtState({New}), OnFlags(mask, SYN_ONLY)];
    Two(OnCtDir(Original), OnL4(TCP), p);
    Two(OnCtState({New}), OnFlags(mask, SYN_ONLY), p);
    HoldAllConcat(a, b, p);
    assert a + b == [OnCtDir(Original), OnL4(TCP), OnCtState({New}), OnFlags(mask, SYN_ONLY)];
  }

  lemma FlowSampleMeans(p: Packet)
    ensures HoldAll([OnCtDir(Original), OnL4(TCP), OnCtState({Established}), OnFlags(FIN_RST, NO_FLAGS), OnToken], p) <==>
            IsOriginal(p) && p.l4.TCP? && p.ct.state.Established? && !p.flags.fin && !p.flags.rst && p.token
  {
    var a, b := [OnCtDir(Original), OnL4(TCP)], [OnCtState({Established}), OnFlags(FIN_RST, NO_FLAGS)];
    Two(OnCtDir(Original), OnL4(TCP), p);
    Two(OnCtState({Established}), OnFlags(FIN_RST, NO_FLAGS), p);
    One(OnToken, p);
    HoldAllConcat(a, b, p);
    HoldAllConcat(a + b, [OnToken], p);
    assert a + b + [OnToken] ==
           [OnCtDir(Original), OnL4(TCP), OnCtState({Established}), OnFlags(FIN_RST, NO_FLAGS), OnToken];
  }

  /** The SYN test each backend emits. */
  function SynMask(b: Backend): Flags { if b.Nft? then SYN_ACK else ALL_FLAGS }

  lemma ObserveActs(b: Backend, p: Packet)
    ensures Traverse(ObserveQueue(SynMask(b)), p) ==
            if Sampled(b, p) then Stopped(Enqueue(LEARNING_QUEUE), p) else Fell(p)
  {
    var rules := ObserveQueue(SynMask(b));
    TraverseUniform(rules, [], Enqueue(LEARNING_QUEUE), p);
    AnyOfThree(rules[0], rules[1], rules[2], p);
    SynSampleMeans(SynMask(b), p);
    FlowSampleMeans(p);
    Two(OnCtDir(Original), OnL4Not(TCP), p);
    PlainApplies(rules[0], p);
    PlainApplies(rules[1], p);
    PlainApplies(rules[2], p);
  }

  lemma DefaultsAct(s: Snapshot, p: Packet)
    requires !s.mode.BlockAll?
    ensures Traverse(NftOutput9(s), p) ==
            if s.mode.Enforcing? then
              if NetworkMatch(s, p, Accept) then Stopped(Pass, InDomain(p, Handoff)) else Stopped(Deny, p)
            else if Sampled(Nft, p) then Stopped(Enqueue(LEARNING_QUEUE), p)
            else Stopped(Pass, p)
  {
    if s.mode.Enforcing? {
      var rules := NetworkRules(s, Outbound, {Accept}, None);
      SectionActs(NftVerdicts(s, Outbound, false), rules, p);
      forall r | r in s.rules ensures r in rules <==> NetworkRule(r, Accept) {}
      TraverseConcat(Section(NftVerdicts(s, Outbound, false), rules), DROP_REST, p);
      CatchAll(Deny, p);
    } else {
      var queue := ObserveQueue(SYN_ACK);
      ObserveActs(Nft, p);
      CatchAll(Pass, p);
      TraverseConcat(queue, [FwRule(EVERYTHING, [], Pass)], p);
      TraverseConcat(queue + [FwRule(EVERYTHING, [], Pass)], DROP_REST, p);
    }
  }

  // ---------------------------------------------------------------- the whole output chain

  /** What the output base chain says once the fast path has been passed. */
  function TailStep(s: Snapshot, p: Packet): Step {
    if AnswersInbound(s, p) then Stopped(Pass, if s.mode.Learning? then p else InDomain(p, Handoff))
    else if IsOriginal(p) && InEnvelope(s, p) then Stopped(Enqueue(ENFORCE_QUEUE), InDomain(p, Pending))
    else if Guarded(Nft, s, p) then Stopped(Deny, p)
    else if s.mode.Enforcing? then
      if NetworkMatch(s, p, Accept) then Stopped(Pass, InDomain(p, Handoff)) else Stopped(Deny, p)
    else if Sampled(Nft, p) then Stopped(Enqueue(LEARNING_QUEUE), p)
    else Stopped(Pass, p)
  }

  function OutputStep(s: Snapshot, p: Packet): Step {
    if GeneratedReject(s, p) then Stopped(Pass, InDomain(p, Handoff))
    else if s.mode.Enforcing? && p.ct.Invalid? then Stopped(Deny, p)
    else if NetworkMatch(s, p, Drop) then Stopped(Deny, p)
    else if p.ct.Tracked? && NetworkMatch(s, p, Reject) then
      Stopped(Refuse(RefusesWithReset(s, p)), SetConnmark(p, false, s.generation))
    else if FastPath(s, p) then Stopped(Pass, InDomain(p, Handoff))
    else TailStep(s, Unstamped(s, p))
  }

  lemma TailActs(s: Snapshot, p: Packet)
    requires !s.mode.BlockAll?
    ensures Traverse(NftOutput6(s), p) == TailStep(s, p)
  {
    var replies := Section(NftVerdicts(s, Outbound, true), NetworkRules(s, Inbound, {Accept}, None));
    var queues := Section(NftQueue, ApplicationRules(s, QueuedActions(s.mode), None));
    var guards := Section(NftGuard, ApplicationRules(s, QueuedActions(s.mode), None));
    TraverseConcat(replies, NftOutput7(s), p);
    RepliesAct(s, p);
    TraverseConcat(queues, NftOutput8(s), p);
    QueuesAct(s, p);
    TraverseConcat(guards, NftOutput9(s), p);
    GuardsAct(s, p);
    DefaultsAct(s, p);
  }

  lemma FastPathActs(s: Snapshot, p: Packet)
    requires !s.mode.BlockAll?
    ensures Traverse(NftOutput3(s), p) ==
            if FastPath(s, p) then Stopped(Pass, InDomain(p, Handoff)) else TailStep(s, Unstamped(s, p))
  {
    TraverseConcat(NftLoopback(s, Outbound), NftOutput4(s), p);
    LoopbackActs(s, p);
    TraverseConcat(NftFlows(s, Outbound), NftOutput5(s), p);
    FlowsAct(s, p);
    TraverseConcat(NftResets(s), NftOutput6(s), p);
    ResetsAct(s, p);
    TailActs(s, Unstamped(s, p));
  }

  lemma OutputActs(s: Snapshot, p: Packet)
    requires SnapshotValid(s) && !s.mode.BlockAll?
    ensures Traverse(NftOutput(s), p) == OutputStep(s, p)
  {
    TraverseConcat(NftRejectReplies(s, Outbound), NftOutput1(s), p);
    RejectRepliesAct(s, p);
    InvalidActs(s, NftOutput2(s), p);
    TraverseConcat(Section(NftVerdicts(s, Outbound, false), NetworkRules(s, Outbound, {Drop, Reject}, None)),
                   NftOutput3(s), p);
    DeniesAct(s, p);
    FastPathActs(s, p);
  }

  // ---------------------------------------------------------------- the authorization chain

  lemma RefusalsAct(s: Snapshot, p: Packet)
    requires p.mark.domain.Rejected? ==> p.ct.Tracked?
    ensures
      Traverse([FwRule([OnL4(TCP), OnDomain(Rejected)], [NftConnmark(false, s.generation)], Refuse(true)),
                FwRule([OnDomain(Rejected)], [NftConnmark(false, s.generation)], Refuse(false))], p) ==
      if p.mark.domain.Rejected? then Stopped(Refuse(p.l4.TCP?), SetConnmark(p, false, s.generation)) else Fell(p)
  {
    var effect := NftConnmark(false, s.generation);
    var a := FwRule([OnL4(TCP), OnDomain(Rejected)], [effect], Refuse(true));
    var b := FwRule([OnDomain(Rejected)], [effect], Refuse(false));
    assert [a, b] == [a] + [b];
    TraverseConcat([a], [b], p);
    TraverseOne(a, p);
    TraverseOne(b, p);
    OneEffect(effect, p);
    Two(OnL4(TCP), OnDomain(Rejected), p);
    One(OnDomain(Rejected), p);
  }

  lemma StampActs(s: Snapshot, p: Packet)
    requires p.mark.domain.Pending? ==> p.ct.Tracked?
    ensures
      Traverse(PerProtocol(true, ReplyProtocols(Attribution(s)), [], [OnDomain(Pending)],
                           [NftConnmark(true, s.generation), SetDomain(Clear)], Pass), p) ==
      if p.mark.domain.Pending? && ProtocolIn(ReplyProtocols(Attribution(s)), p)
      then Stopped(Pass, InDomain(SetConnmark(p, true, s.generation), Clear)) else Fell(p)
  {
    var effects := [NftConnmark(true, s.generation), SetDomain(Clear)];
    var rules := PerProtocol(true, ReplyProtocols(Attribution(s)), [], [OnDomain(Pending)], effects, Pass);
    One(OnDomain(Pending), p);
    if p.mark.domain.Pending? {
      PerProtocolActs(true, ReplyProtocols(Attribution(s)), [], [OnDomain(Pending)], effects, Pass, p);
      assert effects[1..] == [SetDomain(Clear)];
      OneEffect(SetDomain(Clear), SetConnmark(p, true, s.generation));
    } else {
      NotMine(ReplyProtocols(Attribution(s)), OnDomain(Pending), effects, p);
    }
  }

  lemma {:induction false} NotMine(ps: seq<Protocol>, m: Match, effects: seq<Effect>, p: Packet)
    requires !Holds(m, p)
    ensures Traverse(PerProtocol(true, ps, [], [m], effects, Pass), p) == Fell(p)
  {
    if ps != [] {
      var fw := FwRule([] + NftProtocol(ps[0]) + [m], effects, Pass);
      HoldAllConcat([] + NftProtocol(ps[0]), [m], p);
      One(m, p);
      TraverseConcat([fw], PerProtocol(true, ps[1..], [], [m], effects, Pass), p);
      TraverseOne(fw, p);
      NotMine(ps[1..], m, effects, p);
    }
  }

  function AuthorizeStep(s: Snapshot, p: Packet): Step {
    match p.mark.domain
    case Rejected => Stopped(Refuse(p.l4.TCP?), SetConnmark(p, false, s.generation))
    case Pending => Stopped(Pass, InDomain(SetConnmark(p, true, s.generation), Clear))
    case Handoff => Stopped(Pass, InDomain(p, Clear))
    case Clear => Stopped(if s.mode.Learning? then Pass else Deny, p)
  }

  lemma HandoffActs(s: Snapshot, p: Packet)
    requires !s.mode.BlockAll? && !p.mark.domain.Rejected? && !p.mark.domain.Pending?
    ensures
      Traverse([FwRule([OnDomain(Handoff)], [SetDomain(Clear)], Pass)]
               + ((if s.mode.Learning? then [FwRule(EVERYTHING, [], Pass)] else []) + DROP_REST), p) == AuthorizeStep(s, p)
  {
    var handoff := FwRule([OnDomain(Handoff)], [SetDomain(Clear)], Pass);
    var learning := if s.mode.Learning? then [FwRule(EVERYTHING, [], Pass)] else [];
    TraverseConcat([handoff], learning + DROP_REST, p);
    TraverseOne(handoff, p);
    PlainApplies(handoff, p);
    One(OnDomain(Handoff), p);
    OneEffect(SetDomain(Clear), p);
    TraverseConcat(learning, DROP_REST, p);
    CatchAll(Pass, p);
    CatchAll(Deny, p);
  }

  lemma AuthorizeActs(s: Snapshot, p: Packet)
    requires !s.mode.BlockAll?
    requires p.mark.domain.Rejected? ==> p.ct.Tracked? && !Attribution(s).NoInterception?
    requires p.mark.domain.Pending? ==> p.ct.Tracked? && ProtocolIn(ReplyProtocols(Attribution(s)), p)
    ensures Traverse(NftAuthorize(s), p) == AuthorizeStep(s, p)
  {
    var refusals := if Attribution(s).NoInterception? then [] else
      [FwRule([OnL4(TCP), OnDomain(Rejected)], [NftConnmark(false, s.generation)], Refuse(true)),
       FwRule([OnDomain(Rejected)], [NftConnmark(false, s.generation)], Refuse(false))];
    var stamps := PerProtocol(true, ReplyProtocols(Attribution(s)), [], [OnDomain(Pending)],
                              [NftConnmark(true, s.generation), SetDomain(Clear)], Pass);
    var rest := [FwRule([OnDomain(Handoff)], [SetDomain(Clear)], Pass)]
      + ((if s.mode.Learning? then [FwRule(EVERYTHING, [], Pass)] else []) + DROP_REST);
    assert NftAuthorize(s) == refusals + stamps + rest;
    TraverseConcat(refusals + stamps, rest, p);
    TraverseConcat(refusals, stamps, p);
    if !Attribution(s).NoInterception? {
      RefusalsAct(s, p);
    }
    StampActs(s, p);
    if !p.mark.domain.Rejected? && !p.mark.domain.Pending? {
      HandoffActs(s, p);
    }
  }

  // ---------------------------------------------------------------- the hook

  lemma SanitizeActs(p: Packet)
    ensures Traverse([SANITIZE_RULE], p) == Fell(InDomain(p, Clear))
  {
    TraverseOne(SANITIZE_RULE, p);
    PlainApplies(SANITIZE_RULE, p);
    One(OnDomainNot(Clear), p);
    OneEffect(SetDomain(Clear), p);
  }

  lemma LastChain(chain: BaseChain, p: Packet, o: Oracle)
    ensures RunHook([chain], p, o) ==
            match Traverse(chain.rules, p)
            case Fell(q) => Outcome(if chain.policyAccept then Accepted else Dropped, q)
            case Stopped(Pass, q) => Outcome(Accepted, q)
            case Stopped(Deny, q) => Outcome(Dropped, q)
            case Stopped(Refuse(reset), q) => Outcome(Refused(reset), q)
            case _ => RunHook([chain], p, o)
  {
    assert [chain][1..] == [];
  }

  lemma AskedIsStampable(s: Snapshot, p: Packet)
    requires !s.mode.BlockAll? && InEnvelope(s, p)
    ensures !Attribution(s).NoInterception?
    ensures Attributable(p) ==> ProtocolIn(ReplyProtocols(Attribution(s)), p)
  {
    ReplyProtocolsMean(Attribution(s), p);
    var r :| r in s.rules && Asks(s, r) && Outgoing(r.spec, p);
    assert ApplicationRule(r);
  }

  function Authorized(s: Snapshot, p: Packet): Outcome {
    match p.mark.domain
    case Rejected => Outcome(Refused(p.l4.TCP?), SetConnmark(p, false, s.generation))
    case Pending => Outcome(Accepted, InDomain(SetConnmark(p, true, s.generation), Clear))
    case Handoff => Outcome(Accepted, InDomain(p, Clear))
    case Clear => Outcome(if s.mode.Learning? then Accepted else Dropped, p)
  }

  /** Marks userspace decides about sit on tracked packets of attributed protocols. */
  predicate Ready(s: Snapshot, p: Packet) {
    && (p.mark.domain.Rejected? ==> p.ct.Tracked? && !Attribution(s).NoInterception?)
    && (p.mark.domain.Pending? ==> p.ct.Tracked? && ProtocolIn(ReplyProtocols(Attribution(s)), p))
  }

  lemma AuthorizedOutcome(s: Snapshot, p: Packet, o: Oracle)
    requires !s.mode.BlockAll? && Ready(s, p)
    ensures RunHook([BaseChain(false, NftAuthorize(s))], p, o) == Authorized(s, p)
  {
    AuthorizeActs(s, p);
    LastChain(BaseChain(false, NftAuthorize(s)), p, o);
  }

  /** What becomes of a packet the output chain has stopped. */
  function AfterOutput(s: Snapshot, step: Step, o: Oracle): Outcome {
    match step
    case Stopped(Pass, q) => Authorized(s, q)
    case Stopped(Refuse(reset), q) => Outcome(Refused(reset), q)
    case Stopped(Enqueue(queue), q) =>
      if queue == LEARNING_QUEUE then if o.observe(q) then Authorized(s, q) else Outcome(Dropped, q)
      else (match QueueDecision(o, q)
            case Accept => Authorized(s, q)
            case Drop => Outcome(Dropped, q)
            case Reject => Authorized(s, InDomain(q, Rejected)))
    case _ => Outcome(Dropped, step.packet)
  }

  predicate ReadyStep(s: Snapshot, step: Step, o: Oracle) {
    match step
    case Stopped(Pass, q) => Ready(s, q)
    case Stopped(Enqueue(queue), q) =>
      if queue == LEARNING_QUEUE then Ready(s, q)
      else (match QueueDecision(o, q)
            case Accept => Ready(s, q)
            case Drop => true
            case Reject => Ready(s, InDomain(q, Rejected)))
    case _ => true
  }

  lemma HookActs(s: Snapshot, p: Packet, o: Oracle, chains: seq<BaseChain>)
    requires !s.mode.BlockAll?
    requires chains == [BaseChain(false, NftOutput(s)), BaseChain(false, NftAuthorize(s))]
    requires ReadyStep(s, Traverse(NftOutput(s), p), o)
    ensures RunHook(chains, p, o) == AfterOutput(s, Traverse(NftOutput(s), p), o)
  {
    assert chains[1..] == [BaseChain(false, NftAuthorize(s))];
    match Traverse(NftOutput(s), p) {
      case Stopped(Pass, q) => AuthorizedOutcome(s, q, o);
      case Stopped(Enqueue(queue), q) =>
        if queue == LEARNING_QUEUE || QueueDecision(o, q).Accept? {
          if Ready(s, q) { AuthorizedOutcome(s, q, o); }
        } else if QueueDecision(o, q).Reject? {
          AuthorizedOutcome(s, InDomain(q, Rejected), o);
        }
      case _ =>
    }
  }

  lemma AskedOutcome(s: Snapshot, p: Packet, o: Oracle)
    requires !s.mode.BlockAll? && p.mark.domain.Clear? && IsOriginal(p) && InEnvelope(s, p)
    ensures var step := Stopped(Enqueue(ENFORCE_QUEUE), InDomain(p, Pending));
            ReadyStep(s, step, o) && AfterOutput(s, step, o) == Decided(s, p, o)
  {
    var asked := InDomain(p, Pending);
    AskedIsStampable(s, p);
    SameProtocols(ReplyProtocols(Attribution(s)), asked, p);
    assert QueueDecision(o, asked).Accept? ==> Ready(s, asked) && Authorized(s, asked) == Outcome(Accepted, SetConnmark(p, true, s.generation));
  }

  lemma SameProtocols(ps: seq<Protocol>, p: Packet, q: Packet)
    requires p.family == q.family && p.l4 == q.l4
    ensures ProtocolIn(ps, p) <==> ProtocolIn(ps, q)
  {
    assert forall x :: ProtocolOk(x, p) <==> ProtocolOk(x, q);
  }

  lemma TailOutcome(s: Snapshot, p: Packet, o: Oracle)
    requires !s.mode.BlockAll? && p.mark.domain.Clear?
    ensures ReadyStep(s, TailStep(s, p), o) && AfterOutput(s, TailStep(s, p), o) == Judged(Nft, s, p, o)
  {
    if !AnswersInbound(s, p) && IsOriginal(p) && InEnvelope(s, p) { AskedOutcome(s, p, o); }
  }

  lemma OutputOutcome(s: Snapshot, p: Packet, o: Oracle)
    requires !s.mode.BlockAll? && p.mark.domain.Clear?
    ensures ReadyStep(s, OutputStep(s, p), o) && AfterOutput(s, OutputStep(s, p), o) == Filtered(Nft, s, p, o)
  {
    var step, passed := OutputStep(s, p), InDomain(p, Handoff);
    assert Authorized(s, passed) == Outcome(Accepted, p);
    if GeneratedReject(s, p) || FastPath(s, p) {
      assert step == Stopped(Pass, passed) || !step.target.Pass?;
    } else if !(s.mode.Enforcing? && p.ct.Invalid?) && !NetworkMatch(s, p, Drop)
           && !(p.ct.Tracked? && NetworkMatch(s, p, Reject)) {
      TailOutcome(s, Unstamped(s, p), o);
      assert step == TailStep(s, Unstamped(s, p));
    }
  }

  /** The compiled nftables program is the outbound policy, for every packet and every userspace. */
  lemma NftRefinesPolicy(s: Snapshot, p: Packet, o: Oracle)
    requires SnapshotValid(s)
    ensures NftCompile(s).Some? && RunHook(NftHook(NftCompile(s).value), p, o) == Policy(Nft, s, p, o)
  {
    var q := InDomain(p, Clear);
    var hook := NftHook(NftCompile(s).value);
    var chains := [BaseChain(false, NftOutput(s)), BaseChain(false, NftAuthorize(s))];
    SanitizeActs(p);
    assert hook[1..] == chains;
    assert RunHook(hook, p, o) == RunHook(chains, q, o);
    if s.mode.BlockAll? {
      CatchAll(Deny, q);
    } else {
      OutputActs(s, q);
      OutputOutcome(s, q, o);
      HookActs(s, q, o, chains);
    }
  }
}
