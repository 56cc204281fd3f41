/** The xtables programs, with their repeated traversals, do what the outbound policy says. */
module XtRefinement {
  import opened Model
  import opened Marks
  import opened Netfilter
  import opened RuleOrder
  import opened RuleBlocks
  import opened Compilers
  import opened Outbound
  import opened NftRefinement

  // ---------------------------------------------------------------- family filtering loses nothing

  lemma {:induction false} FamilyProtocolsMean(ps: seq<Protocol>, p: Packet)
    ensures ProtocolIn(FamilyProtocols(ps, p.family), p) <==> ProtocolIn(ps, p)
    ensures forall x :: x in FamilyProtocols(ps, p.family) ==> Fits(x, p.family)
  {
    if ps != [] {
      FamilyProtocolsMean(ps[1..], p);
      assert forall x :: x in ps <==> x == ps[0] || x in ps[1..];
      var kept := FamilyProtocols(ps[1..], p.family);
      assert forall x :: x in [ps[0]] + kept <==> x == ps[0] || x in kept;
    }
  }

  lemma FamilyRulesAct(ps: seq<Protocol>, before: seq<Match>, after: seq<Match>, target: Target, p: Packet)
    requires !target.Continue?
    ensures Traverse(PerProtocol(false, FamilyProtocols(ps, p.family), before, after, [], target), p) ==
            if HoldAll(before, p) && HoldAll(after, p) && ProtocolIn(ps, p) then Stopped(target, p) else Fell(p)
  {
    FamilyProtocolsMean(ps, p);
    PerProtocolActs(false, FamilyProtocols(ps, p.family), before, after, [], target, p);
  }

  lemma NetworkChosen(s: Snapshot, a: Action, p: Packet)
    requires WellFormed(p)
    ensures NetworkMatch(s, p, a) <==>
            exists r :: r in NetworkRules(s, Outbound, {a}, Some(p.family)) && Outgoing(r.spec, p)
  {
    forall r | r in s.rules && NetworkRule(r, a) && Outgoing(r.spec, p)
      ensures r in NetworkRules(s, Outbound, {a}, Some(p.family))
    {
      if !SupportsFamily(r.spec, p.family) { UnsupportedNeverConcerns(r.spec, p); }
    }
  }

  // ---------------------------------------------------------------- stages

  lemma XtRejectRepliesAct(s: Snapshot, p: Packet)
    ensures Traverse(XtRejectReplies(s, p.family), p) == if GeneratedReject(s, p) then Stopped(Pass, p) else Fell(p)
  {
    if HasOutboundReject(s) {
      var stamp := [OnConnmark(false, s.generation)];
      var a := FwRule(RESET_SHAPE + RELATED_REPLY + stamp, [], Pass);
      var b := FwRule(RejectedShape(p.family) + RELATED_REPLY + stamp, [], Pass);
      assert XtRejectReplies(s, p.family) == [a] + [b];
      TraverseConcat([a], [b], p);
      TraverseOne(a, p);
      TraverseOne(b, p);
      ErrorRuleApplies(RESET_SHAPE, s.generation, p);
      ErrorRuleApplies(RejectedShape(p.family), s.generation, p);
      ResetShapeMeans(p);
      RejectedShapeMeans(p.family, p);
    }
  }

  lemma ErrorRuleApplies(shape: seq<Match>, g: nat, p: Packet)
    ensures Applies(FwRule(shape + RELATED_REPLY + [OnConnmark(false, g)], [], Pass), p) <==>
            HoldAll(shape, p) && RelatedAnswer(p) && StampedWith(p, false, g)
  {
    RelatedReplyMeans(p);
    HoldAllConcat(shape, RELATED_REPLY, p);
    HoldAllConcat(shape + RELATED_REPLY, [OnConnmark(false, g)], p);
    One(OnConnmark(false, g), p);
    PlainApplies(FwRule(shape + RELATED_REPLY + [OnConnmark(false, g)], [], Pass), p);
  }

  lemma XtDropsAct(s: Snapshot, p: Packet)
    requires WellFormed(p)
    ensures Traverse(Section(XtVerdicts(s, Outbound, false), NetworkRules(s, Outbound, {Drop}, Some(p.family))), p) ==
            if NetworkMatch(s, p, Drop) then Stopped(Deny, p) else Fell(p)
  {
    SectionActs(XtVerdicts(s, Outbound, false), NetworkRules(s, Outbound, {Drop}, Some(p.family)), p);
    NetworkChosen(s, Drop, p);
  }

  lemma FirstReject(s: Snapshot, p: Packet, r: Rule)
    requires WellFormed(p)
    requires First(XtVerdicts(s, Outbound, false), NetworkRules(s, Outbound, {Reject}, Some(p.family)), p) == Some(r)
    ensures LeastReject(s, p, r)
  {
    var rules := NetworkRules(s, Outbound, {Reject}, Some(p.family));
    SortOrders(FilterRules(Pick(Outbound, Some(false), {Reject}, Some(p.family)), s.rules));
    FirstIsLeast(XtVerdicts(s, Outbound, false), rules, p);
    forall x | x in s.rules && NetworkRule(x, Reject) && Outgoing(x.spec, p)
      ensures r.id <= x.id
    {
      if !SupportsFamily(x.spec, p.family) { UnsupportedNeverConcerns(x.spec, p); }
      assert x in rules && !Before(x, r);
    }
  }

  lemma XtRejectsAct(s: Snapshot, p: Packet)
    requires WellFormed(p) && SnapshotValid(s)
    ensures Traverse(Section(XtVerdicts(s, Outbound, false), NetworkRules(s, Outbound, {Reject}, Some(p.family))), p) ==
            if NetworkMatch(s, p, Reject) then Stopped(Refuse(RefusesWithReset(s, p)), SetConnmark(p, false, s.generation))
            else Fell(p)
  {
    var rules := NetworkRules(s, Outbound, {Reject}, Some(p.family));
    SectionActs(XtVerdicts(s, Outbound, false), rules, p);
    NetworkChosen(s, Reject, p);
    match First(XtVerdicts(s, Outbound, false), rules, p) {
      case None =>
      case Some(r) =>
        FirstReject(s, p, r);
        LeastIsReset(s, p, r);
    }
  }

  lemma StampedReplyMeans(s: Snapshot, p: Packet)
    ensures HoldAll([OnCtState({Established}), OnCtDir(Reply)] + [OnConnmark(true, s.generation)], p) <==>
            StampedWith(p, true, s.generation) && p.ct.state.Established? && p.ct.dir.Reply?
  {
    One(OnConnmark(true, s.generation), p);
    Two(OnCtState({Established}), OnCtDir(Reply), p);
    HoldAllConcat([OnCtState({Established}), OnCtDir(Reply)], [OnConnmark(true, s.generation)], p);
  }

  lemma XtLoopbackActs(s: Snapshot, p: Packet)
    ensures Traverse(XtLoopback(s, p.family, Outbound), p) == if LocalReply(s, p) then Stopped(Pass, p) else Fell(p)
  {
    if s.mode.Enforcing? {
      StampedReplyMeans(s, p);
      One(OnOif("lo"), p);
      FamilyRulesAct(ReplyProtocols(Attribution(s)), [OnOif("lo")],
                     [OnCtState({Established}), OnCtDir(Reply)] + [OnConnmark(true, s.generation)], Pass, p);
      ReplyProtocolsMean(Attribution(s), p);
    }
  }

  lemma XtFlowsAct(s: Snapshot, p: Packet)
    ensures Traverse(XtFlows(s, p.family, Outbound), p) == if EstablishedFlow(s, p) then Stopped(Pass, p) else Fell(p)
  {
    if !Attribution(s).NoInterception? {
      var after := [OnCtState({Established}), OnCtDir(Original), OnConnmark(true, s.generation)];
      PerProtocolActs(false, [Tcp], [], after, [], Pass, p);
      TcpMeans(p);
      assert after == [OnCtState({Established}), OnCtDir(Original)] + [OnConnmark(true, s.generation)];
      HoldAllConcat([OnCtState({Established}), OnCtDir(Original)], [OnConnmark(true, s.generation)], p);
      Two(OnCtState({Established}), OnCtDir(Original), p);
      One(OnConnmark(true, s.generation), p);
    }
  }

  lemma XtResetsAct(s: Snapshot, p: Packet)
    ensures Traverse(XtResets(s, p.family), p) == Fell(Unstamped(s, p))
  {
    if Attribution(s).PerPacket? {
      assert [] + [OnCtDir(Original)] == [OnCtDir(Original)];
      FamilyProtocolsMean(NON_TCP, p);
      PerProtocolClears(false, FamilyProtocols(NON_TCP, p.family), [], [OnCtDir(Original)], XtConnmark(false, 0), p);
      NonTcpMeans(p);
    }
  }

  lemma XtRepliesAct(s: Snapshot, p: Packet)
    requires WellFormed(p)
    ensures Traverse(Section(XtVerdicts(s, Outbound, true), NetworkRules(s, Inbound, {Accept}, Some(p.family))), p) ==
            if AnswersInbound(s, p) then Stopped(Pass, p) else Fell(p)
  {
    var rules := NetworkRules(s, Inbound, {Accept}, Some(p.family));
    SectionActs(XtVerdicts(s, Outbound, true), rules, p);
    forall r | r in s.rules && InboundAccept(r) && Answering(r.spec, p)
      ensures r in rules
    {
      if !SupportsFamily(r.spec, p.family) { UnsupportedNeverConcerns(r.spec, p); }
    }
  }

  lemma XtQueuesAct(s: Snapshot, p: Packet)
    requires WellFormed(p)
    ensures Traverse(Section(XtQueue, ApplicationRules(s, QueuedActions(s.mode), Some(p.family))), p) ==
            if IsOriginal(p) && InEnvelope(s, p) then Stopped(Enqueue(ENFORCE_QUEUE), InDomain(p, Pending)) else Fell(p)
  {
    SectionActs(XtQueue, ApplicationRules(s, QueuedActions(s.mode), Some(p.family)), p);
    AsksIsChosen(s, Some(p.family));
    forall r | r in s.rules && Asks(s, r) && Outgoing(r.spec, p)
      ensures SupportsFamily(r.spec, p.family)
    {
      if !SupportsFamily(r.spec, p.family) { UnsupportedNeverConcerns(r.spec, p); }
    }
  }

  lemma XtGuardsAct(s: Snapshot, p: Packet)
    requires WellFormed(p)
    ensures Traverse(Section(XtGuard, ApplicationRules(s, QueuedActions(s.mode), Some(p.family))), p) ==
            if Guarded(Xt, s, p) then Stopped(Deny, p) else Fell(p)
  {
    SectionActs(XtGuard, ApplicationRules(s, QueuedActions(s.mode), Some(p.family)), p);
    AsksIsChosen(s, Some(p.family));
    forall r | r in s.rules && Asks(s, r) && Hit(XtGuard, r.spec, p)
      ensures SupportsFamily(r.spec, p.family)
    {
      if !SupportsFamily(r.spec, p.family) { UnsupportedNeverConcerns(r.spec, p); }
    }
  }

  lemma XtDefaultsAct(s: Snapshot, p: Packet)
    requires !s.mode.BlockAll? && WellFormed(p)
    ensures Traverse(XtOutput11(s, p.family), p) ==
            Stopped(if s.mode.Learning? || NetworkMatch(s, p, Accept) then Pass else Deny, p)
  {
    var rules := NetworkRules(s, Outbound, {Accept}, Some(p.family));
    var learning := if s.mode.Learning? then [FwRule(EVERYTHING, [], Pass)] else [];
    SectionActs(XtVerdicts(s, Outbound, false), rules, p);
    NetworkChosen(s, Accept, p);
    TraverseConcat(Section(XtVerdicts(s, Outbound, false), rules), learning + DROP_REST, p);
    TraverseConcat(learning, DROP_REST, p);
    CatchAll(Pass, p);
    CatchAll(Deny, p);
  }

  // ---------------------------------------------------------------- the repeated traversal

  /** Does the output chain hand a packet with the handoff mark to an application chain? */
  predicate TakesHandoff(s: Snapshot, p: Packet) {
    match Attribution(s)
    case NoInterception => false
    case TcpInitial => p.l4.TCP?
    case PerPacket => Attributable(p) || s.mode.Learning?
  }

  function Handed(s: Snapshot, p: Packet): AppChain { if p.l4.TCP? then AppTcp else AppPacket }

  lemma XtRefusalsAct(s: Snapshot, p: Packet)
    ensures Traverse(XtRefusals(s), p) ==
            if p.mark.domain.Rejected? then Stopped(Refuse(p.l4.TCP?), SetConnmark(p, false, s.generation)) else Fell(p)
  {
    var a := FwRule([OnDomain(Rejected)], [XtConnmark(false, s.generation)], Continue);
    var b := FwRule([OnL4(TCP), OnDomain(Rejected)], [], Refuse(true));
    var c := FwRule([OnDomain(Rejected)], [], Refuse(false));
    var q := if p.mark.domain.Rejected? then SetConnmark(p, false, s.generation) else p;
    assert [a, b, c] == [a] + ([b] + [c]);
    TraverseConcat([a], [b] + [c], p);
    TraverseOne(a, p);
    PlainApplies(a, p);
    OneEffect(XtConnmark(false, s.generation), p);
    One(OnDomain(Rejected), p);
    TraverseConcat([b], [c], q);
    TraverseOne(b, q);
    TraverseOne(c, q);
    PlainApplies(b, q);
    PlainApplies(c, q);
    One(OnDomain(Rejected), q);
    Two(OnL4(TCP), OnDomain(Rejected), q);
  }

  lemma PacketHandoffsAct(s: Snapshot, p: Packet)
    ensures Traverse(PacketHandoffs(s, p.family), p) ==
            if Attribution(s).PerPacket? && p.mark.domain.Handoff? && (s.mode.Learning? || (Attributable(p) && !p.l4.TCP?))
            then Stopped(GoTo(AppPacket), p) else Fell(p)
  {
    if Attribution(s).PerPacket? {
      var typed := PerProtocol(false, FamilyProtocols(NON_TCP, p.family), [], [OnDomain(Handoff)], [], GoTo(AppPacket));
      var any := FwRule([OnDomain(Handoff)], [], GoTo(AppPacket));
      var rest := if s.mode.Learning? then [any] else [];
      FamilyRulesAct(NON_TCP, [], [OnDomain(Handoff)], GoTo(AppPacket), p);
      NonTcpMeans(p);
      One(OnDomain(Handoff), p);
      TraverseConcat(typed, rest, p);
      TraverseOne(any, p);
      PlainApplies(any, p);
    }
  }

  lemma JumpsAct(s: Snapshot, p: Packet)
    requires !Attribution(s).NoInterception?
    ensures Traverse([FwRule([OnL4(TCP), OnDomain(Handoff)], [], GoTo(AppTcp))] + PacketHandoffs(s, p.family), p) ==
            if p.mark.domain.Handoff? && TakesHandoff(s, p) then Stopped(GoTo(Handed(s, p)), p) else Fell(p)
  {
    var tcp := FwRule([OnL4(TCP), OnDomain(Handoff)], [], GoTo(AppTcp));
    TraverseConcat([tcp], PacketHandoffs(s, p.family), p);
    TraverseOne(tcp, p);
    PlainApplies(tcp, p);
    Two(OnL4(TCP), OnDomain(Handoff), p);
    PacketHandoffsAct(s, p);
  }

  lemma XtHandoffsAct(s: Snapshot, p: Packet)
    ensures Traverse(XtHandoffs(s, p.family), p) ==
            if Attribution(s).NoInterception? then Fell(p)
            else if p.mark.domain.Rejected? then Stopped(Refuse(p.l4.TCP?), SetConnmark(p, false, s.generation))
            else if p.mark.domain.Handoff? && TakesHandoff(s, p) then Stopped(GoTo(Handed(s, p)), p)
            else Fell(p)
  {
    if !Attribution(s).NoInterception? {
      var jumps := [FwRule([OnL4(TCP), OnDomain(Handoff)], [], GoTo(AppTcp))] + PacketHandoffs(s, p.family);
      TraverseConcat(XtRefusals(s), jumps, p);
      XtRefusalsAct(s, p);
      JumpsAct(s, p);
    }
  }

  lemma AppChainActs(s: Snapshot, p: Packet)
    ensures Traverse(XtAppChain(s, true), p) == Stopped(Pass, InDomain(SetConnmark(p, true, s.generation), Clear))
  {
    var a := FwRule(EVERYTHING, [XtConnmark(true, s.generation)], Continue);
    var b := FwRule(EVERYTHING, [SetDomain(Clear)], Continue);
    var c := FwRule(EVERYTHING, [], Pass);
    var q := SetConnmark(p, true, s.generation);
    assert XtAppChain(s, true) == [a] + ([b] + ([c] + DROP_REST));
    TraverseConcat([a], [b] + ([c] + DROP_REST), p);
    TraverseOne(a, p);
    PlainApplies(a, p);
    OneEffect(XtConnmark(true, s.generation), p);
    TraverseConcat([b], [c] + DROP_REST, q);
    TraverseOne(b, q);
    PlainApplies(b, q);
    OneEffect(SetDomain(Clear), q);
    TraverseConcat([c], DROP_REST, InDomain(q, Clear));
    CatchAll(Pass, InDomain(q, Clear));
  }

  // ---------------------------------------------------------------- one filter pass

  function XtTailStep(s: Snapshot, p: Packet): Step {
    if AnswersInbound(s, p) then Stopped(Pass, p)
    else if IsOriginal(p) && InEnvelope(s, p) then Stopped(Enqueue(ENFORCE_QUEUE), InDomain(p, Pending))
    else if Guarded(Xt, s, p) then Stopped(Deny, p)
    else Stopped(if s.mode.Learning? || NetworkMatch(s, p, Accept) then Pass else Deny, p)
  }

  /** The pass over a packet whose queue mark, if any, has been consumed. */
  function UnmarkedStep(s: Snapshot, p: Packet): Step {
    if FastPath(s, p) then Stopped(Pass, p) else XtTailStep(s, Unstamped(s, p))
  }

  function MarkedStep(s: Snapshot, p: Packet): Step {
    if Attribution(s).NoInterception? then UnmarkedStep(s, p)
    else if p.mark.domain.Rejected? then Stopped(Refuse(p.l4.TCP?), SetConnmark(p, false, s.generation))
    else if p.mark.domain.Handoff? && TakesHandoff(s, p) then Stopped(GoTo(Handed(s, p)), p)
    else UnmarkedStep(s, p)
  }

  function XtStep(s: Snapshot, p: Packet): Step {
    if s.mode.Enforcing? && p.ct.Invalid? then Stopped(Deny, p)
    else if GeneratedReject(s, p) then Stopped(Pass, p)
    else if NetworkMatch(s, p, Drop) then Stopped(Deny, p)
    else if NetworkMatch(s, p, Reject) then
      Stopped(Refuse(RefusesWithReset(s, p)), SetConnmark(p, false, s.generation))
    else MarkedStep(s, p)
  }

  lemma XtTailActs(s: Snapshot, p: Packet)
    requires !s.mode.BlockAll? && WellFormed(p)
    ensures Traverse(XtOutput8(s, p.family), p) == XtTailStep(s, p)
  {
    var f := p.family;
    TraverseConcat(Section(XtVerdicts(s, Outbound, true), NetworkRules(s, Inbound, {Accept}, Some(f))), XtOutput9(s, f), p);
    XtRepliesAct(s, p);
    TraverseConcat(Section(XtQueue, ApplicationRules(s, QueuedActions(s.mode), Some(f))), XtOutput10(s, f), p);
    XtQueuesAct(s, p);
    TraverseConcat(Section(XtGuard, ApplicationRules(s, QueuedActions(s.mode), Some(f))), XtOutput11(s, f), p);
    XtGuardsAct(s, p);
    XtDefaultsAct(s, p);
  }

  lemma UnmarkedActs(s: Snapshot, p: Packet)
    requires !s.mode.BlockAll? && WellFormed(p)
    ensures Traverse(XtOutput5(s, p.family), p) == UnmarkedStep(s, p)
  {
    var f := p.family;
    TraverseConcat(XtLoopback(s, f, Outbound), XtOutput6(s, f), p);
    XtLoopbackActs(s, p);
    TraverseConcat(XtFlows(s, f, Outbound), XtOutput7(s, f), p);
    XtFlowsAct(s, p);
    TraverseConcat(XtResets(s, f), XtOutput8(s, f), p);
    XtResetsAct(s, p);
    XtTailActs(s, Unstamped(s, p));
  }

  lemma XtOutputActs(s: Snapshot, p: Packet)
    requires SnapshotValid(s) && !s.mode.BlockAll? && WellFormed(p)
    ensures Traverse(XtOutput(s, p.family), p) == XtStep(s, p)
  {
    var f := p.family;
    InvalidActs(s, XtOutput1(s, f), p);
    TraverseConcat(XtRejectReplies(s, f), XtOutput2(s, f), p);
    XtRejectRepliesAct(s, p);
    TraverseConcat(Section(XtVerdicts(s, Outbound, false), NetworkRules(s, Outbound, {Drop}, Some(f))), XtOutput3(s, f), p);
    XtDropsAct(s, p);
    TraverseConcat(Section(XtVerdicts(s, Outbound, false), NetworkRules(s, Outbound, {Reject}, Some(f))), XtOutput4(s, f), p);
    XtRejectsAct(s, p);
    TraverseConcat(XtHandoffs(s, f), XtOutput5(s, f), p);
    XtHandoffsAct(s, p);
    UnmarkedActs(s, p);
  }

  /** A pass with its jump to an application chain resolved. */
  function PassStep(s: Snapshot, p: Packet): Step {
    match XtStep(s, p)
    case Stopped(GoTo(_), q) => Stopped(Pass, InDomain(SetConnmark(q, true, s.generation), Clear))
    case step => step
  }

  lemma GotoIsHandoff(s: Snapshot, p: Packet)
    requires XtStep(s, p).Stopped? && XtStep(s, p).target.GoTo?
    ensures XtStep(s, p) == Stopped(GoTo(Handed(s, p)), p) && TakesHandoff(s, p)
  {
    assert XtStep(s, p) == MarkedStep(s, p);
  }

  lemma JumpActs(prog: XtProgram, s: Snapshot, p: Packet)
    requires Traverse(prog.output, p) == XtStep(s, p)
    requires prog.appTcp == XtAppChain(s, !Attribution(s).NoInterception?)
    requires prog.appPacket == XtAppChain(s, Attribution(s).PerPacket?)
    ensures FilterPass(prog, p) == PassStep(s, p)
  {
    if XtStep(s, p).Stopped? && XtStep(s, p).target.GoTo? {
      GotoIsHandoff(s, p);
      AppChainActs(s, p);
    }
  }

  /** The program's filter passes over this family's packets are the closed form. */
  ghost predicate Behaves(prog: XtProgram, s: Snapshot, f: Family) {
    forall q :: WellFormed(q) && q.family == f ==> FilterPass(prog, q) == PassStep(s, q)
  }

  lemma CompiledBehaves(s: Snapshot, f: Family)
    requires SnapshotValid(s) && !s.mode.BlockAll?
    ensures Behaves(XtFamily(s, f), s, f)
  {
    forall q | WellFormed(q) && q.family == f
      ensures FilterPass(XtFamily(s, f), q) == PassStep(s, q)
    {
      XtOutputActs(s, q);
      JumpActs(XtFamily(s, f), s, q);
    }
  }

  // ---------------------------------------------------------------- the hook

  /** Two views of one packet that differ in marks only. */
  predicate SameTuple(p: Packet, q: Packet) {
    && q.(mark := p.mark, ct := p.ct) == p
    && (p.ct.Tracked? <==> q.ct.Tracked?)
    && (if p.ct.Tracked? then q.ct.(mark := p.ct.mark) == p.ct else q.ct == p.ct)
  }

  lemma MarksDoNotMatter(s: Snapshot, p: Packet, q: Packet)
    requires SameTuple(p, q)
    ensures NetworkMatch(s, p, Drop) <==> NetworkMatch(s, q, Drop)
    ensures NetworkMatch(s, p, Reject) <==> NetworkMatch(s, q, Reject)
    ensures InEnvelope(s, p) <==> InEnvelope(s, q)
  {
    assert forall spec :: Outgoing(spec, p) <==> Outgoing(spec, q);
  }

  /** After a queue verdict the repeated traversal finds its mark before any other decision. */
  lemma RepeatActs(s: Snapshot, p: Packet, asked: Packet)
    requires !s.mode.BlockAll?
    requires !NetworkMatch(s, p, Drop) && !NetworkMatch(s, p, Reject)
    requires SameTuple(p, asked) && (asked.mark.domain.Handoff? || asked.mark.domain.Rejected?)
    requires IsOriginal(asked) && InEnvelope(s, asked) && Attributable(asked)
    ensures PassStep(s, asked) ==
            if asked.mark.domain.Rejected? then Stopped(Refuse(asked.l4.TCP?), SetConnmark(asked, false, s.generation))
            else Stopped(Pass, InDomain(SetConnmark(asked, true, s.generation), Clear))
  {
    MarksDoNotMatter(s, p, asked);
    AskedIsStampable(s, asked);
    ReplyProtocolsMean(Attribution(s), asked);
    assert XtStep(s, asked) == MarkedStep(s, asked);
  }

  lemma UnstampedIsSame(s: Snapshot, p: Packet)
    ensures SameTuple(p, Unstamped(s, p)) && Unstamped(s, p).mark == p.mark
  {
  }

  function Answered(q: Packet, answer: Action): Packet { InDomain(q, if answer.Accept? then Handoff else Rejected) }

  /** No network rule denies the packet and an envelope covers it. */
  predicate Asking(s: Snapshot, p: Packet, q: Packet) {
    !NetworkMatch(s, p, Drop) && !NetworkMatch(s, p, Reject) && InEnvelope(s, q)
  }

  /** What the repeated traversal does with an answered packet. */
  function Repeated(q: Packet, answer: Action, generation: nat): Step {
    if answer.Accept? then Stopped(Pass, InDomain(SetConnmark(q, true, generation), Clear))
    else Stopped(Refuse(q.l4.TCP?), SetConnmark(InDomain(q, Rejected), false, generation))
  }

  lemma RepeatedPass(prog: XtProgram, s: Snapshot, p: Packet, q: Packet, answer: Action)
    requires !s.mode.BlockAll? && WellFormed(p) && SameTuple(p, q) && IsOriginal(q) && Attributable(q)
    ensures Behaves(prog, s, p.family) && Asking(s, p, q) ==>
              FilterPass(prog, Answered(q, answer)) == Repeated(q, answer, s.generation)
  {
    if Behaves(prog, s, p.family) && Asking(s, p, q) {
      var again := Answered(q, answer);
      MarksDoNotMatter(s, q, again);
      RepeatActs(s, p, again);
      assert FilterPass(prog, again) == PassStep(s, again);
    }
  }

  lemma AskedRun(prog: XtProgram, p: Packet, q: Packet, o: Oracle, repeats: nat, generation: nat)
    requires repeats > 0 && q.mark.domain.Clear?
    requires FilterPass(prog, p) == Stopped(Enqueue(ENFORCE_QUEUE), InDomain(q, Pending))
    requires var answer := QueueDecision(o, InDomain(q, Pending));
             !answer.Drop? ==> FilterPass(prog, Answered(q, answer)) == Repeated(q, answer, generation)
    ensures RunFilter(prog, p, o, repeats) == Some(
              match QueueDecision(o, InDomain(q, Pending))
              case Accept => Outcome(Accepted, SetConnmark(q, true, generation))
              case Drop => Outcome(Dropped, InDomain(q, Pending))
              case Reject => Outcome(Refused(q.l4.TCP?), SetConnmark(InDomain(q, Rejected), false, generation)))
  {
    var asked := InDomain(q, Pending);
    var answer := QueueDecision(o, asked);
    assert InDomain(asked, if answer.Accept? then Handoff else Rejected) == Answered(q, answer);
    assert InDomain(SetConnmark(q, true, generation), Clear) == SetConnmark(q, true, generation);
  }

  lemma AskedOutcome(prog: XtProgram, s: Snapshot, p: Packet, q: Packet, o: Oracle, repeats: nat)
    requires !s.mode.BlockAll? && WellFormed(p) && SameTuple(p, q) && q.mark.domain.Clear? && IsOriginal(q) && repeats > 0
    ensures Behaves(prog, s, p.family) && Asking(s, p, q)
            && FilterPass(prog, p) == Stopped(Enqueue(ENFORCE_QUEUE), InDomain(q, Pending)) ==>
              RunFilter(prog, p, o, repeats) == Some(Decided(s, q, o))
  {
    if Behaves(prog, s, p.family) && Asking(s, p, q)
       && FilterPass(prog, p) == Stopped(Enqueue(ENFORCE_QUEUE), InDomain(q, Pending)) {
      var answer := QueueDecision(o, InDomain(q, Pending));
      if !answer.Drop? { RepeatedPass(prog, s, p, q, answer); }
      AskedRun(prog, p, q, o, repeats, s.generation);
    }
  }

  lemma UnmarkedOutcome(prog: XtProgram, s: Snapshot, p: Packet, o: Oracle, repeats: nat)
    requires !s.mode.BlockAll? && WellFormed(p) && Behaves(prog, s, p.family)
    requires p.mark.domain.Clear? && repeats > 0
    requires !NetworkMatch(s, p, Drop) && !NetworkMatch(s, p, Reject) && !FastPath(s, p)
    requires FilterPass(prog, p) == XtTailStep(s, Unstamped(s, p))
    ensures RunFilter(prog, p, o, repeats) == Some(Judged(Xt, s, Unstamped(s, p), o))
  {
    var q := Unstamped(s, p);
    UnstampedIsSame(s, p);
    if !AnswersInbound(s, q) && IsOriginal(q) && InEnvelope(s, q) {
      AskedOutcome(prog, s, p, q, o, repeats);
    }
  }

  /** filter/OUTPUT ends after at most one repetition, with the policy's outcome. */
  lemma FilterOutcome(prog: XtProgram, s: Snapshot, p: Packet, o: Oracle, repeats: nat)
    requires !s.mode.BlockAll? && WellFormed(p) && Behaves(prog, s, p.family)
    requires p.mark.domain.Clear? && repeats > 0
    ensures RunFilter(prog, p, o, repeats) == Some(Filtered(Xt, s, p, o))
  {
    assert FilterPass(prog, p) == PassStep(s, p);
    if (s.mode.Enforcing? && p.ct.Invalid?) || GeneratedReject(s, p) || NetworkMatch(s, p, Drop) {
    } else if NetworkMatch(s, p, Reject) {
    } else {
      assert XtStep(s, p) == UnmarkedStep(s, p);
      if !FastPath(s, p) {
        assert PassStep(s, p) == XtTailStep(s, Unstamped(s, p));
        UnmarkedOutcome(prog, s, p, o, repeats);
      }
    }
  }

  lemma DenyIsObserved(s: Snapshot, p: Packet, r: Rule)
    requires WellFormed(p) && r in s.rules && r.spec.enabled && r.spec.direction.Outbound? && !r.spec.action.Accept?
    requires Outgoing(r.spec, p)
    ensures r in XtObserved(s, p.family)
  {
    if !SupportsFamily(r.spec, p.family) { UnsupportedNeverConcerns(r.spec, p); }
  }

  lemma ObserverConcerns(s: Snapshot, p: Packet)
    requires WellFormed(p)
    ensures First(XtObserver, XtObserved(s, p.family), p).Some? <==> IsOriginal(p) && AnyDeny(s, p)
  {
    var first := First(XtObserver, XtObserved(s, p.family), p);
    if first.Some? { assert first.value in s.rules && !first.value.spec.action.Accept?; }
    if IsOriginal(p) && AnyDeny(s, p) {
      var r :| r in s.rules && r.spec.enabled && r.spec.direction.Outbound? && !r.spec.action.Accept? && Outgoing(r.spec, p);
      DenyIsObserved(s, p, r);
      assert Hit(XtObserver, r.spec, p);
    }
  }

  lemma ObserverActs(s: Snapshot, p: Packet)
    requires WellFormed(p)
    ensures Traverse(Section(XtObserver, XtObserved(s, p.family)), p) ==
            if IsOriginal(p) && AnyDeny(s, p) then Stopped(Pass, p) else Fell(p)
  {
    SectionActs(XtObserver, XtObserved(s, p.family), p);
    ObserverConcerns(s, p);
  }

  lemma ObserveChainActs(s: Snapshot, p: Packet)
    requires WellFormed(p)
    ensures
      var q := InDomain(p, Clear);
      Traverse(XtObserve(s, p.family), p) ==
      Stopped(if s.mode.Learning? && Sampled(Xt, q) && !AnyDeny(s, q) then Enqueue(LEARNING_QUEUE) else Pass, q)
  {
    var q := InDomain(p, Clear);
    var last := [FwRule(EVERYTHING, [], Pass)];
    var watch := if s.mode.Learning? then Section(XtObserver, XtObserved(s, p.family)) + ObserveQueue(ALL_FLAGS) else [];
    TraverseConcat([SANITIZE_RULE], watch + last, p);
    SanitizeActs(p);
    TraverseConcat(watch, last, q);
    CatchAll(Pass, q);
    if s.mode.Learning? {
      TraverseConcat(Section(XtObserver, XtObserved(s, p.family)), ObserveQueue(ALL_FLAGS), q);
      ObserverActs(s, q);
      ObserveActs(Xt, q);
    }
  }

  lemma HookActs(prog: XtProgram, s: Snapshot, p: Packet, o: Oracle, repeats: nat)
    requires !s.mode.BlockAll? && WellFormed(p) && Behaves(prog, s, p.family) && repeats > 0
    requires Traverse(prog.sanitize, p).packet == InDomain(p, Clear)
    requires prog.observe == XtObserve(s, p.family)
    ensures RunXtOutput(prog, p, o, repeats) == Some(Policy(Xt, s, p, o))
  {
    ObserveChainActs(s, InDomain(p, Clear));
    FilterOutcome(prog, s, InDomain(p, Clear), o, repeats);
  }

  lemma BlockedActs(s: Snapshot, p: Packet, o: Oracle, repeats: nat)
    requires s.mode.BlockAll? && WellFormed(p)
    ensures RunFilter(XtFamily(s, p.family), p, o, repeats) == Some(Outcome(Dropped, p))
  {
    CatchAll(Deny, p);
  }

  lemma SanitizerActs(s: Snapshot, p: Packet)
    ensures Traverse(XtFamily(s, p.family).sanitize, p).packet == InDomain(p, Clear)
  {
    TraverseConcat([SANITIZE_RULE], [FwRule(EVERYTHING, [], Pass)], p);
    SanitizeActs(p);
    CatchAll(Pass, InDomain(p, Clear));
  }

  /** The compiled xtables programs are the outbound policy, for every packet and every userspace,
      however many repetitions beyond one are allowed. */
  lemma XtRefinesPolicy(s: Snapshot, p: Packet, o: Oracle, repeats: nat)
    requires SnapshotValid(s) && WellFormed(p) && repeats > 0
    ensures XtCompile(s).Some?
    ensures RunXtOutput(ForFamily(XtCompile(s).value, p.family), p, o, repeats) == Some(Policy(Xt, s, p, o))
  {
    SanitizerActs(s, p);
    if s.mode.BlockAll? {
      ObserveChainActs(s, InDomain(p, Clear));
      BlockedActs(s, InDomain(p, Clear), o, repeats);
    } else {
      CompiledBehaves(s, p.family);
      HookActs(XtFamily(s, p.family), s, p, o, repeats);
    }
  }
}
