/** Both compiled input programs do what the inbound policy says, for every packet. */
module InboundRefinement {
  import opened Model
  import opened Marks
  import opened Netfilter
  import opened RuleOrder
  import opened RuleBlocks
  import opened Compilers
  import opened Outbound
  import opened Inbound
  import opened NftRefinement
  import opened XtRefinement
  import opened ReplyDeferral

  /** How a chain ends for a packet it does not change. */
  function Ending(r: Reception, p: Packet): Step {
    match r
    case Passed => Stopped(Pass, p)
    case Deferred => Stopped(Enqueue(REPLY_QUEUE), p)
    case Denied => Stopped(Deny, p)
  }

  // ---------------------------------------------------------------- sections of the input chain

  lemma IncomingPieces(spec: RuleSpec, p: Packet)
    ensures HoldAll(InterfaceMatch(spec, Inbound), p) <==> InterfaceOk(spec, p.iif)
    ensures HoldAll(PeerMatch(spec, Inbound), p) <==> PeerOk(spec, p.src)
    ensures HoldAll(ESTABLISHED_REPLY, p) <==> EstablishedAnswer(p)
  {
    if spec.interface.Some? { One(OnIif(spec.interface.value), p); }
    if spec.peer.Some? { One(OnSrc(spec.peer.value), p); }
    Two(OnCtDir(Reply), OnCtState({Established}), p);
  }

  lemma NftSelectorsReceive(spec: RuleSpec, p: Packet, reverse: bool)
    ensures HoldAll(NftSelectors(spec, Inbound, reverse), p) <==> if reverse then Returning(spec, p) else Incoming(spec, p)
  {
    var s0: seq<Match> := if reverse then ESTABLISHED_REPLY else [];
    var s1 := s0 + InterfaceMatch(spec, Inbound);
    var s2 := s1 + PeerMatch(spec, Inbound);
    var s3 := s2 + NftProtocol(spec.protocol);
    HoldAllConcat(s0, InterfaceMatch(spec, Inbound), p);
    HoldAllConcat(s1, PeerMatch(spec, Inbound), p);
    HoldAllConcat(s2, NftProtocol(spec.protocol), p);
    HoldAllConcat(s3, PortMatch(spec, reverse), p);
    IncomingPieces(spec, p);
    NftProtocolMeans(spec.protocol, p);
    PortMeans(spec, p, reverse);
  }

  lemma XtSelectorsReceive(spec: RuleSpec, p: Packet, reverse: bool)
    requires SupportsFamily(spec, p.family)
    ensures HoldAll(XtSelectors(spec, Inbound, reverse), p) <==> if reverse then Returning(spec, p) else Incoming(spec, p)
  {
    var rev: seq<Match> := if reverse then ESTABLISHED_REPLY else [];
    var s1 := PeerMatch(spec, Inbound) + InterfaceMatch(spec, Inbound);
    var s2 := s1 + XtProtocol(spec.protocol);
    var s3 := s2 + rev;
    HoldAllConcat(PeerMatch(spec, Inbound), InterfaceMatch(spec, Inbound), p);
    HoldAllConcat(s1, XtProtocol(spec.protocol), p);
    HoldAllConcat(s2, rev, p);
    HoldAllConcat(s3, PortMatch(spec, reverse), p);
    IncomingPieces(spec, p);
    XtProtocolMeans(spec, p);
    PortMeans(spec, p, reverse);
  }

  /** The emitter writes one plain rule per policy rule, with this target. */
  predicate Plain(e: Emitter, rules: seq<Rule>, target: Target) {
    !target.Continue? && forall r :: r in rules ==> PlainRule(Emit(e, r), target)
  }

  predicate PlainRule(block: seq<FwRule>, target: Target) {
    |block| == 1 && block[0].effects == [] && block[0].target == target
  }

  predicate Selected(e: Emitter, r: Rule, p: Packet) { Emit(e, r) != [] && HoldAll(Emit(e, r)[0].sel, p) }

  lemma {:induction false} PlainSectionActs(e: Emitter, rules: seq<Rule>, target: Target, p: Packet)
    requires Plain(e, rules, target)
    ensures Traverse(Section(e, rules), p) ==
            if exists r :: r in rules && Selected(e, r, p) then Stopped(target, p) else Fell(p)
  {
    if rules != [] {
      var block := Emit(e, rules[0]);
      assert rules[0] in rules && PlainRule(block, target) && block == [block[0]];
      TraverseConcat(block, Section(e, rules[1..]), p);
      TraverseOne(block[0], p);
      PlainApplies(block[0], p);
      PlainSectionActs(e, rules[1..], target, p);
      assert forall r :: r in rules <==> r == rules[0] || r in rules[1..];
    }
  }

  // ---------------------------------------------------------------- stages both backends share

  lemma HeadActs(p: Packet)
    ensures Traverse(INPUT_HEAD, p) ==
            if p.dhcpBootstrap then Stopped(Pass, p) else if p.ct.Invalid? then Stopped(Deny, p) else Fell(p)
  {
    var a, b := FwRule([OnDhcp], [], Pass), FwRule([OnInvalid], [], Deny);
    assert INPUT_HEAD == [a] + [b];
    TraverseConcat([a], [b], p);
    TraverseOne(a, p);
    TraverseOne(b, p);
    PlainApplies(a, p);
    PlainApplies(b, p);
    One(OnDhcp, p);
    One(OnInvalid, p);
  }

  lemma LearningActs(s: Snapshot, p: Packet)
    ensures Traverse(LearningInput(s.mode), p) == if LearningEntry(s, p) then Stopped(Pass, p) else Fell(p)
  {
    if s.mode.Learning? {
      var a := FwRule([OnIif("lo"), OnCtDir(Original)], [], Pass);
      var b := FwRule([OnCtDir(Reply), OnCtState({Established, Related})], [], Pass);
      assert LearningInput(s.mode) == [a] + [b];
      TraverseConcat([a], [b], p);
      TraverseOne(a, p);
      TraverseOne(b, p);
      PlainApplies(a, p);
      PlainApplies(b, p);
      Two(OnIif("lo"), OnCtDir(Original), p);
      Two(OnCtDir(Reply), OnCtState({Established, Related}), p);
    }
  }

  /** A stage that can only pass, in front of the rest. */
  lemma PassStage(stage: seq<FwRule>, rest: seq<FwRule>, passes: bool, p: Packet)
    requires Traverse(stage, p) == if passes then Stopped(Pass, p) else Fell(p)
    ensures Traverse(stage + rest, p) == if passes then Stopped(Pass, p) else Traverse(rest, p)
  {
    TraverseConcat(stage, rest, p);
  }

  // ---------------------------------------------------------------- reply candidates

  /** The packet is a reply one candidate describes. */
  predicate CandidateFor(r: Rule, p: Packet) {
    PeerOk(r.spec, p.src) && ProtocolOk(r.spec.protocol, p) && PortOk(r.spec, p.sport)
  }

  predicate Stripped(r: Rule, x: Protocol, c: Rule) { c == r.(spec := r.spec.(protocol := x, interface := None)) }

  predicate Fitting(r: Rule, x: Protocol) {
    && (r.spec.protocol.Any? || r.spec.protocol == x)
    && !(x.Icmp? && r.spec.peer.Some? && r.spec.peer.value.family.IPv6?)
    && !(x.IcmpV6? && r.spec.peer.Some? && r.spec.peer.value.family.IPv4?)
  }

  lemma {:induction false} CandidatesAre(r: Rule, ps: seq<Protocol>, c: Rule)
    ensures c in CandidatesFor(r, ps) <==> exists x :: x in ps && Fitting(r, x) && Stripped(r, x, c)
  {
    if ps != [] {
      CandidatesAre(r, ps[1..], c);
      var head := if Fitting(r, ps[0]) then [r.(spec := r.spec.(protocol := ps[0], interface := None))] else [];
      assert CandidatesFor(r, ps) == head + CandidatesFor(r, ps[1..]);
      assert c in head <==> Fitting(r, ps[0]) && Stripped(r, ps[0], c);
      assert forall x :: x in ps <==> x == ps[0] || x in ps[1..];
    }
  }

  lemma {:induction false} ReplyCandidatesAre(rules: seq<Rule>, c: Rule)
    ensures c in ReplyCandidates(rules) <==> exists r :: r in rules && c in CandidatesFor(r, NON_TCP)
  {
    if rules != [] {
      ReplyCandidatesAre(rules[1..], c);
      assert ReplyCandidates(rules) == CandidatesFor(rules[0], NON_TCP) + ReplyCandidates(rules[1..]);
      assert forall r :: r in rules <==> r == rules[0] || r in rules[1..];
    }
  }

  lemma {:induction false} SupportingAre(rules: seq<Rule>, f: Family, c: Rule)
    ensures c in Supporting(rules, f) <==> c in rules && SupportsFamily(c.spec, f)
  {
    if rules != [] { SupportingAre(rules[1..], f, c); }
  }

  /** Which packets a candidate's queue rule takes. */
  predicate Queues(c: Rule, p: Packet) {
    && Returning(c.spec, p) && !p.mark.domain.Handoff?
    && (c.spec.protocol.Icmp? ==> p.icmpType == 0 && p.icmpCode == 0)
    && (c.spec.protocol.IcmpV6? ==> p.icmpType == 129 && p.icmpCode == 0)
  }

  lemma EchoMeans(x: Protocol, p: Packet)
    ensures HoldAll(EchoReply(x), p) <==>
            && (x.Icmp? ==> p.icmpType == 0 && p.icmpCode == 0)
            && (x.IcmpV6? ==> p.icmpType == 129 && p.icmpCode == 0)
  {
    if x.Icmp? { One(OnIcmp(0, 0), p); }
    if x.IcmpV6? { One(OnIcmp(129, 0), p); }
  }

  lemma QueueSelects(e: Emitter, c: Rule, p: Packet)
    requires e.NftReplyQueue? || (e.XtReplyQueue? && SupportsFamily(c.spec, p.family))
    ensures Selected(e, c, p) <==> Queues(c, p)
  {
    var sel := if e.NftReplyQueue? then NftSelectors(c.spec, Inbound, true) else XtSelectors(c.spec, Inbound, true);
    HoldAllConcat(sel, EchoReply(c.spec.protocol), p);
    HoldAllConcat(sel + EchoReply(c.spec.protocol), [OnDomainNot(Handoff)], p);
    One(OnDomainNot(Handoff), p);
    EchoMeans(c.spec.protocol, p);
    if e.NftReplyQueue? { NftSelectorsReceive(c.spec, p, true); } else { XtSelectorsReceive(c.spec, p, true); }
  }

  /** The non-TCP protocol of a waiting packet. */
  function WaitingProtocol(p: Packet): Protocol { if p.l4.UDP? then Udp else if p.l4.ICMP? then Icmp else IcmpV6 }

  lemma CandidateWaits(r: Rule, c: Rule, p: Packet)
    requires WellFormed(p) && c in CandidatesFor(r, NON_TCP) && Queues(c, p)
    ensures EstablishedAnswer(p) && WaitingShape(p) && RetriesLeft(p.mark) > 0 && CandidateFor(r, p)
  {
    CandidatesAre(r, NON_TCP, c);
  }

  lemma WaitingHasCandidate(r: Rule, p: Packet) returns (c: Rule)
    requires WellFormed(p) && EstablishedAnswer(p) && WaitingShape(p) && RetriesLeft(p.mark) > 0 && CandidateFor(r, p)
    ensures c in CandidatesFor(r, NON_TCP) && Queues(c, p) && SupportsFamily(c.spec, p.family)
  {
    var x := WaitingProtocol(p);
    c := r.(spec := r.spec.(protocol := x, interface := None));
    CandidatesAre(r, NON_TCP, c);
    assert x in NON_TCP && Stripped(r, x, c) && Fitting(r, x);
    if !SupportsFamily(c.spec, p.family) { UnsupportedNeverReturns(c.spec, p); }
  }

  lemma UnsupportedNeverReturns(spec: RuleSpec, p: Packet)
    requires WellFormed(p) && !SupportsFamily(spec, p.family)
    ensures !Incoming(spec, p) && !Returning(spec, p)
  {
  }

  lemma QueuedAwaits(s: Snapshot, c: Rule, p: Packet)
    requires WellFormed(p) && s.mode.Enforcing?
    requires c in ReplyCandidates(ApplicationRules(s, {Accept}, None)) && Queues(c, p)
    ensures Awaits(s, p)
  {
    var accepts := ApplicationRules(s, {Accept}, None);
    ReplyCandidatesAre(accepts, c);
    var r :| r in accepts && c in CandidatesFor(r, NON_TCP);
    CandidateWaits(r, c, p);
    assert r in s.rules && ApplicationRule(r) && r.spec.action.Accept?;
  }

  lemma AwaitingIsQueued(s: Snapshot, p: Packet) returns (c: Rule)
    requires WellFormed(p) && Awaits(s, p)
    ensures c in ReplyCandidates(ApplicationRules(s, {Accept}, None)) && Queues(c, p) && SupportsFamily(c.spec, p.family)
    ensures Attribution(s).PerPacket?
  {
    var accepts := ApplicationRules(s, {Accept}, None);
    var r :| r in s.rules && ApplicationRule(r) && r.spec.action.Accept?
             && PeerOk(r.spec, p.src) && ProtocolOk(r.spec.protocol, p) && PortOk(r.spec, p.sport);
    assert r in accepts && !r.spec.protocol.Tcp? && CandidateFor(r, p);
    c := WaitingHasCandidate(r, p);
    ReplyCandidatesAre(accepts, c);
  }

  /** Some queue rule takes the packet exactly when it awaits its authorization, whatever the other family drops. */
  lemma QueuesAwait(s: Snapshot, p: Packet)
    requires WellFormed(p) && s.mode.Enforcing?
    ensures var candidates := ReplyCandidates(ApplicationRules(s, {Accept}, None));
            && ((exists c :: c in candidates && Queues(c, p)) <==> Awaits(s, p))
            && ((exists c :: c in Supporting(candidates, p.family) && Queues(c, p)) <==> Awaits(s, p))
    ensures Awaits(s, p) ==> Attribution(s).PerPacket?
  {
    var candidates := ReplyCandidates(ApplicationRules(s, {Accept}, None));
    forall c | c in candidates && Queues(c, p) ensures Awaits(s, p) { QueuedAwaits(s, c, p); }
    forall c ensures c in Supporting(candidates, p.family) <==> c in candidates && SupportsFamily(c.spec, p.family) {
      SupportingAre(candidates, p.family, c);
    }
    if Awaits(s, p) { var c := AwaitingIsQueued(s, p); }
  }

  // ---------------------------------------------------------------- nftables

  lemma NftRejectsReturn(s: Snapshot, p: Packet)
    ensures Traverse(NftRejectReplies(s, Inbound), p) == if GeneratedReject(s, p) then Stopped(Pass, p) else Fell(p)
  {
    if HasOutboundReject(s) {
      var rules := NftRejectReplies(s, Inbound);
      TraverseUniform(rules, [], Pass, p);
      AnyOfThree(rules[0], rules[1], rules[2], p);
      RejectRuleApplies(RESET_SHAPE, s.generation, [], p);
      UnreachableRuleApplies(IPv4, s.generation, [], p);
      UnreachableRuleApplies(IPv6, s.generation, [], p);
      ResetShapeMeans(p);
      RejectedShapeMeans(IPv4, p);
      RejectedShapeMeans(IPv6, p);
    }
  }

  lemma NftLocalActs(s: Snapshot, p: Packet)
    ensures Traverse(NftLoopback(s, Inbound), p) == if LocalDelivery(s, p) then Stopped(Pass, p) else Fell(p)
  {
    if s.mode.Enforcing? {
      var before := [OnIif("lo"), OnCtDir(Original), OnCtState({New, Established})];
      var stamp := [OnConnmark(true, s.generation)];
      PerProtocolActs(true, ReplyProtocols(Attribution(s)), before, stamp, [], Pass, p);
      ReplyProtocolsMean(Attribution(s), p);
      LocalMeans(p);
      One(OnConnmark(true, s.generation), p);
    }
  }

  lemma LocalMeans(p: Packet)
    ensures HoldAll([OnIif("lo"), OnCtDir(Original), OnCtState({New, Established})], p) <==>
            p.iif == "lo" && p.ct.Tracked? && p.ct.dir.Original? && (p.ct.state.New? || p.ct.state.Established?)
  {
    var a, b := [OnIif("lo"), OnCtDir(Original)], [OnCtState({New, Established})];
    assert [OnIif("lo"), OnCtDir(Original), OnCtState({New, Established})] == a + b;
    HoldAllConcat(a, b, p);
    Two(OnIif("lo"), OnCtDir(Original), p);
    One(OnCtState({New, Established}), p);
  }

  lemma NftRepliesActs(s: Snapshot, p: Packet)
    ensures Traverse(NftFlows(s, Inbound), p) == if AuthorizedReply(s, p) then Stopped(Pass, p) else Fell(p)
  {
    var i := Attribution(s);
    if !i.NoInterception? {
      PerProtocolActs(true, ReplyProtocols(i), [OnCtDir(Reply), OnCtState({Established})],
                      [OnConnmark(true, s.generation)], [], Pass, p);
      ReplyProtocolsMean(i, p);
      Two(OnCtDir(Reply), OnCtState({Established}), p);
      One(OnConnmark(true, s.generation), p);
    }
  }

  lemma NftDirectActs(s: Snapshot, p: Packet)
    ensures Traverse(Section(NftVerdicts(s, Inbound, false), NetworkRules(s, Inbound, {Accept}, None)), p) ==
            if AcceptsInbound(s, p) then Stopped(Pass, p) else Fell(p)
  {
    var e, rules := NftVerdicts(s, Inbound, false), NetworkRules(s, Inbound, {Accept}, None);
    forall r | r in rules ensures PlainRule(Emit(e, r), Pass) {}
    PlainSectionActs(e, rules, Pass, p);
    forall r ensures Selected(e, r, p) <==> Incoming(r.spec, p) { NftSelectorsReceive(r.spec, p, false); }
    forall r ensures r in rules <==> r in s.rules && InboundAccept(r) {}
  }

  lemma NftReverseActs(s: Snapshot, p: Packet)
    ensures Traverse(Section(NftVerdicts(s, Inbound, true), NetworkRules(s, Outbound, {Accept}, None)), p) ==
            if AnswersOutbound(s, p) then Stopped(Pass, p) else Fell(p)
  {
    var e, rules := NftVerdicts(s, Inbound, true), NetworkRules(s, Outbound, {Accept}, None);
    forall r | r in rules ensures PlainRule(Emit(e, r), Pass) {}
    PlainSectionActs(e, rules, Pass, p);
    forall r ensures Selected(e, r, p) <==> Returning(r.spec, p) { NftSelectorsReceive(r.spec, p, true); }
    forall r ensures r in rules <==> r in s.rules && NetworkRule(r, Accept) {}
  }

  lemma NftQueuesAct(s: Snapshot, p: Packet)
    requires WellFormed(p)
    ensures Traverse(NftReplyQueues(s), p) == if Awaits(s, p) then Stopped(Enqueue(REPLY_QUEUE), p) else Fell(p)
  {
    if s.mode.Enforcing? {
      var candidates := ReplyCandidates(ApplicationRules(s, {Accept}, None));
      PlainSectionActs(NftReplyQueue, candidates, Enqueue(REPLY_QUEUE), p);
      forall c ensures Selected(NftReplyQueue, c, p) <==> Queues(c, p) { QueueSelects(NftReplyQueue, c, p); }
      QueuesAwait(s, p);
    }
  }

  lemma NftEndActs(s: Snapshot, p: Packet)
    requires WellFormed(p)
    ensures Traverse(NftInput5(s), p) ==
            if AcceptsInbound(s, p) || AnswersOutbound(s, p) then Stopped(Pass, p)
            else if Awaits(s, p) then Stopped(Enqueue(REPLY_QUEUE), p)
            else Stopped(Deny, p)
  {
    var direct := Section(NftVerdicts(s, Inbound, false), NetworkRules(s, Inbound, {Accept}, None));
    var reverse := Section(NftVerdicts(s, Inbound, true), NetworkRules(s, Outbound, {Accept}, None));
    NftQueuesAct(s, p);
    CatchAll(Deny, p);
    TraverseConcat(NftReplyQueues(s), DROP_REST, p);
    NftReverseActs(s, p);
    PassStage(reverse, NftReplyQueues(s) + DROP_REST, AnswersOutbound(s, p), p);
    NftDirectActs(s, p);
    PassStage(direct, NftInput6(s), AcceptsInbound(s, p), p);
  }

  lemma NftHeadActs(s: Snapshot, p: Packet)
    ensures Traverse(NftInput1(s), p) ==
            if p.dhcpBootstrap then Stopped(Pass, p) else if p.ct.Invalid? then Stopped(Deny, p)
            else if ControlMessage(p) then Stopped(Pass, p) else Traverse(NftInput2(s), p)
  {
    var control := FwRule([OnFamily(IPv6), OnControlPlane], [], Pass);
    HeadActs(p);
    TraverseOne(control, p);
    PlainApplies(control, p);
    Two(OnFamily(IPv6), OnControlPlane, p);
    PassStage([control], NftInput2(s), ControlMessage(p), p);
    TraverseConcat(INPUT_HEAD, [control] + NftInput2(s), p);
  }

  lemma NftBodyActs(s: Snapshot, p: Packet)
    ensures Traverse(NftInput2(s), p) ==
            if LearningEntry(s, p) || LocalDelivery(s, p) || AuthorizedReply(s, p)
            then Stopped(Pass, p) else Traverse(NftInput5(s), p)
  {
    NftRepliesActs(s, p);
    PassStage(NftFlows(s, Inbound), NftInput5(s), AuthorizedReply(s, p), p);
    NftLocalActs(s, p);
    PassStage(NftLoopback(s, Inbound), NftInput4(s), LocalDelivery(s, p), p);
    LearningActs(s, p);
    PassStage(LearningInput(s.mode), NftInput3(s), LearningEntry(s, p), p);
  }

  lemma NftInputActs(s: Snapshot, p: Packet)
    requires WellFormed(p)
    ensures Traverse(NftInput(s), p) == Ending(Receive(s, p), p)
  {
    if s.mode.BlockAll? {
      CatchAll(Deny, p);
    } else {
      NftEndActs(s, p);
      NftBodyActs(s, p);
      NftHeadActs(s, p);
      NftRejectsReturn(s, p);
      PassStage(NftRejectReplies(s, Inbound), NftInput1(s), GeneratedReject(s, p), p);
    }
  }

  /** The nftables input chain is the inbound policy. */
  lemma NftReceives(s: Snapshot, p: Packet)
    requires SnapshotValid(s) && WellFormed(p)
    ensures NftCompile(s).Some? && Traverse(NftCompile(s).value.input, p) == Ending(Receive(s, p), p)
  {
    NftInputActs(s, p);
  }

  // ---------------------------------------------------------------- xtables

  lemma XtLocalActs(s: Snapshot, p: Packet)
    ensures Traverse(XtLoopback(s, p.family, Inbound), p) == if LocalDelivery(s, p) then Stopped(Pass, p) else Fell(p)
  {
    if s.mode.Enforcing? {
      var states := [OnCtState({New, Established}), OnCtDir(Original)];
      var stamp := [OnConnmark(true, s.generation)];
      FamilyRulesAct(ReplyProtocols(Attribution(s)), [OnIif("lo")], states + stamp, Pass, p);
      ReplyProtocolsMean(Attribution(s), p);
      HoldAllConcat(states, stamp, p);
      Two(OnCtState({New, Established}), OnCtDir(Original), p);
      One(OnIif("lo"), p);
      One(OnConnmark(true, s.generation), p);
    }
  }

  lemma XtRepliesPass(s: Snapshot, p: Packet)
    ensures Traverse(XtFlows(s, p.family, Inbound), p) == if AuthorizedReply(s, p) then Stopped(Pass, p) else Fell(p)
  {
    var i := Attribution(s);
    if !i.NoInterception? {
      var after := [OnCtState({Established}), OnCtDir(Reply), OnConnmark(true, s.generation)];
      FamilyRulesAct(ReplyProtocols(i), [], after, Pass, p);
      ReplyProtocolsMean(i, p);
      StampedReplyMeans(s, p);
      assert after == [OnCtState({Established}), OnCtDir(Reply)] + [OnConnmark(true, s.generation)];
    }
  }

  lemma XtDirectActs(s: Snapshot, p: Packet)
    requires WellFormed(p)
    ensures Traverse(Section(XtVerdicts(s, Inbound, false), NetworkRules(s, Inbound, {Accept}, Some(p.family))), p) ==
            if AcceptsInbound(s, p) then Stopped(Pass, p) else Fell(p)
  {
    var e, rules := XtVerdicts(s, Inbound, false), NetworkRules(s, Inbound, {Accept}, Some(p.family));
    forall r | r in rules ensures PlainRule(Emit(e, r), Pass) {}
    PlainSectionActs(e, rules, Pass, p);
    forall r | r in rules ensures Selected(e, r, p) <==> Incoming(r.spec, p) { XtSelectorsReceive(r.spec, p, false); }
    forall r | r in s.rules && InboundAccept(r) && Incoming(r.spec, p) ensures r in rules {
      if !SupportsFamily(r.spec, p.family) { UnsupportedNeverReturns(r.spec, p); }
    }
  }

  lemma XtReverseActs(s: Snapshot, p: Packet)
    requires WellFormed(p)
    ensures Traverse(Section(XtVerdicts(s, Inbound, true), NetworkRules(s, Outbound, {Accept}, Some(p.family))), p) ==
            if AnswersOutbound(s, p) then Stopped(Pass, p) else Fell(p)
  {
    var e, rules := XtVerdicts(s, Inbound, true), NetworkRules(s, Outbound, {Accept}, Some(p.family));
    forall r | r in rules ensures PlainRule(Emit(e, r), Pass) {}
    PlainSectionActs(e, rules, Pass, p);
    forall r | r in rules ensures Selected(e, r, p) <==> Returning(r.spec, p) { XtSelectorsReceive(r.spec, p, true); }
    forall r | r in s.rules && NetworkRule(r, Accept) && Returning(r.spec, p) ensures r in rules {
      if !SupportsFamily(r.spec, p.family) { UnsupportedNeverReturns(r.spec, p); }
    }
  }

  lemma XtWaitersAct(s: Snapshot, p: Packet)
    requires WellFormed(p)
    ensures Traverse(XtReplyQueues(s, p.family), p) == if Awaits(s, p) then Stopped(Enqueue(REPLY_QUEUE), p) else Fell(p)
  {
    if s.mode.Enforcing? {
      var candidates := ReplyCandidates(ApplicationRules(s, {Accept}, None));
      var supported := Supporting(candidates, p.family);
      PlainSectionActs(XtReplyQueue, supported, Enqueue(REPLY_QUEUE), p);
      forall c | c in supported ensures Selected(XtReplyQueue, c, p) <==> Queues(c, p) {
        SupportingAre(candidates, p.family, c);
        QueueSelects(XtReplyQueue, c, p);
      }
      QueuesAwait(s, p);
    }
  }

  lemma XtEndActs(s: Snapshot, p: Packet)
    requires WellFormed(p)
    ensures Traverse(XtInput5(s, p.family), p) ==
            if AcceptsInbound(s, p) || AnswersOutbound(s, p) then Stopped(Pass, p)
            else if Awaits(s, p) then Stopped(Enqueue(REPLY_QUEUE), p)
            else Stopped(Deny, p)
  {
    var f := p.family;
    var direct := Section(XtVerdicts(s, Inbound, false), NetworkRules(s, Inbound, {Accept}, Some(f)));
    var reverse := Section(XtVerdicts(s, Inbound, true), NetworkRules(s, Outbound, {Accept}, Some(f)));
    XtWaitersAct(s, p);
    CatchAll(Deny, p);
    TraverseConcat(XtReplyQueues(s, f), DROP_REST, p);
    XtReverseActs(s, p);
    PassStage(reverse, XtReplyQueues(s, f) + DROP_REST, AnswersOutbound(s, p), p);
    XtDirectActs(s, p);
    PassStage(direct, XtInput6(s, f), AcceptsInbound(s, p), p);
  }

  lemma XtHeadActs(s: Snapshot, p: Packet)
    requires !s.mode.BlockAll?
    ensures Traverse(XtInput(s, p.family), p) ==
            if p.dhcpBootstrap then Stopped(Pass, p) else if p.ct.Invalid? then Stopped(Deny, p)
            else if ControlMessage(p) then Stopped(Pass, p) else Traverse(XtInput1(s, p.family), p)
  {
    var rule := FwRule([OnControlPlane], [], Pass);
    var control := if p.family.IPv6? then [rule] else [];
    HeadActs(p);
    TraverseOne(rule, p);
    PlainApplies(rule, p);
    One(OnControlPlane, p);
    PassStage(control, XtInput1(s, p.family), ControlMessage(p), p);
    TraverseConcat(INPUT_HEAD, control + XtInput1(s, p.family), p);
  }

  lemma XtBodyActs(s: Snapshot, p: Packet)
    requires WellFormed(p)
    ensures Traverse(XtInput1(s, p.family), p) ==
            if GeneratedReject(s, p) || LearningEntry(s, p) || LocalDelivery(s, p) || AuthorizedReply(s, p)
            then Stopped(Pass, p) else Traverse(XtInput5(s, p.family), p)
  {
    var f := p.family;
    XtRepliesPass(s, p);
    PassStage(XtFlows(s, f, Inbound), XtInput5(s, f), AuthorizedReply(s, p), p);
    XtLocalActs(s, p);
    PassStage(XtLoopback(s, f, Inbound), XtInput4(s, f), LocalDelivery(s, p), p);
    LearningActs(s, p);
    PassStage(LearningInput(s.mode), XtInput3(s, f), LearningEntry(s, p), p);
    XtRejectRepliesAct(s, p);
    PassStage(XtRejectReplies(s, f), XtInput2(s, f), GeneratedReject(s, p), p);
  }

  lemma XtInputActs(s: Snapshot, p: Packet)
    requires WellFormed(p)
    ensures Traverse(XtInput(s, p.family), p) == Ending(Receive(s, p), p)
  {
    if s.mode.BlockAll? {
      CatchAll(Deny, p);
    } else {
      XtEndActs(s, p);
      XtBodyActs(s, p);
      XtHeadActs(s, p);
    }
  }

  /** The xtables input chain of the packet's family is the inbound policy. */
  lemma XtReceives(s: Snapshot, p: Packet)
    requires SnapshotValid(s) && WellFormed(p)
    ensures XtCompile(s).Some? && Traverse(ForFamily(XtCompile(s).value, p.family).input, p) == Ending(Receive(s, p), p)
  {
    XtInputActs(s, p);
  }

  // ---------------------------------------------------------------- deferred packets

  /** The run ended at the first traversal that does not defer the packet, or at which the consumer let go of it, and
      as the policy decides there. */
  predicate Followed(receive: nat -> Reception, release: nat -> bool, k: nat, accepted: bool, last: nat) {
    && k <= last && (forall j :: k <= j < last ==> receive(j).Deferred? && release(j))
    && (receive(last).Deferred? ==> !release(last))
    && (accepted <==> receive(last).Passed?)
  }

  /** The chain ends as the policy says at traversal `k`. */
  predicate Says(rules: seq<FwRule>, p: Packet, world: nat -> Conn, receive: nat -> Reception, k: nat) {
    Traverse(rules, Arriving(p, world, k)) == Ending(receive(k), Arriving(p, world, k))
  }

  lemma {:induction false} RunFollowsPolicy(
      rules: seq<FwRule>, p: Packet, world: nat -> Conn, receive: nat -> Reception, release: nat -> bool, k: nat, limit: nat)
    requires forall j :: Says(rules, p, world, receive, j)
    ensures var run := RunInput(rules, p, world, release, k, limit);
            run.Some? ==> Followed(receive, release, k, run.value.0.verdict.Accepted?, run.value.1)
    decreases limit
  {
    assert Says(rules, p, world, receive, k);
    if receive(k).Deferred? && release(k) && limit > 0 {
      RunFollowsPolicy(rules, p, world, receive, release, k + 1, limit - 1);
    }
  }

  /** What the policy says at each traversal. */
  function Receptions(s: Snapshot, p: Packet, world: nat -> Conn): nat -> Reception {
    (k: nat) => Receive(s, Arriving(p, world, k))
  }

  lemma InputActs(s: Snapshot, p: Packet, q: Packet, xt: bool)
    requires WellFormed(q) && q.family == p.family
    ensures Traverse(if xt then XtInput(s, p.family) else NftInput(s), q) == Ending(Receive(s, q), q)
  {
    if xt { XtInputActs(s, q); } else { NftInputActs(s, q); }
  }

  /** Deferral changes when a packet is judged, never how: within three repetitions every arriving packet gets the
      policy's verdict on the conntrack record it has by then, under both backends. */
  lemma DeferralFollowsPolicy(s: Snapshot, p: Packet, world: nat -> Conn, release: nat -> bool, xt: bool)
    requires SnapshotValid(s) && forall j :: WellFormed(Arriving(p, world, j))
    ensures var rules := if xt then ForFamily(XtCompile(s).value, p.family).input else NftCompile(s).value.input;
            var run := RunInput(rules, p, world, release, 0, 3);
            && run.Some? && run.value.1 <= RetriesLeft(p.mark)
            && Followed(Receptions(s, p, world), release, 0, run.value.0.verdict.Accepted?, run.value.1)
  {
    var rules := if xt then XtInput(s, p.family) else NftInput(s);
    var receive := Receptions(s, p, world);
    forall j ensures Says(rules, p, world, receive, j) {
      ArrivingMark(p, world, j);
      InputActs(s, p, Arriving(p, world, j), xt);
    }
    CompiledInputDefersSafely(s, p, world, release, xt);
    RunFollowsPolicy(rules, p, world, receive, release, 0, 3);
  }

  // ---------------------------------------------------------------- forwarded packets

  /** Forwarded packets are denied in BlockAll and left to the host otherwise, under both backends. */
  lemma ForwardingFollowsMode(s: Snapshot, p: Packet)
    requires SnapshotValid(s)
    ensures var end := Stopped(if s.mode.BlockAll? then Deny else Pass, p);
            && Traverse(NftCompile(s).value.forward, p) == end
            && Traverse(ForFamily(XtCompile(s).value, p.family).forward, p) == end
  {
    CatchAll(if s.mode.BlockAll? then Deny else Pass, p);
  }
}
