/** What each compiler emits for one policy rule, and what that block does to a packet. */
module RuleBlocks {
  import opened Model
  import opened Marks
  import opened Netfilter
  import opened RuleOrder

  // ---------------------------------------------------------------- emitted text

  function InterfaceMatch(spec: RuleSpec, dir: Direction): seq<Match> {
    match spec.interface
    case None => []
    case Some(name) => [if dir.Inbound? then OnIif(name) else OnOif(name)]
  }

  function PeerMatch(spec: RuleSpec, dir: Direction): seq<Match> {
    match spec.peer
    case None => []
    case Some(net) => [if dir.Inbound? then OnSrc(net) else OnDst(net)]
  }

  function PortMatch(spec: RuleSpec, reverse: bool): seq<Match> {
    match spec.port
    case None => []
    case Some(ports) => [if reverse then OnSport(ports) else OnDport(ports)]
  }

  const ESTABLISHED_REPLY: seq<Match> := [OnCtDir(Reply), OnCtState({Established})]

  function NftProtocol(protocol: Protocol): seq<Match> {
    match protocol
    case Any => []
    case Tcp => [OnL4(TCP)]
    case Udp => [OnL4(UDP)]
    case Icmp => [OnFamily(IPv4), OnL4(ICMP)]
    case IcmpV6 => [OnFamily(IPv6), OnL4(ICMPV6)]
  }

  function XtProtocol(protocol: Protocol): seq<Match> {
    match protocol
    case Any => []
    case Tcp => [OnL4(TCP)]
    case Udp => [OnL4(UDP)]
    case Icmp => [OnL4(ICMP)]
    case IcmpV6 => [OnL4(ICMPV6)]
  }

  function NftSelectors(spec: RuleSpec, dir: Direction, reverse: bool): seq<Match> {
    (if reverse then ESTABLISHED_REPLY else [])
    + InterfaceMatch(spec, dir) + PeerMatch(spec, dir) + NftProtocol(spec.protocol) + PortMatch(spec, reverse)
  }

  function XtSelectors(spec: RuleSpec, dir: Direction, reverse: bool): seq<Match> {
    PeerMatch(spec, dir) + InterfaceMatch(spec, dir) + XtProtocol(spec.protocol)
    + (if reverse then ESTABLISHED_REPLY else []) + PortMatch(spec, reverse)
  }

  function OriginalTuple(spec: RuleSpec): seq<Match> {
    (match spec.peer case None => [] case Some(net) => [OnOrigDst(net)])
    + (match spec.port case None => [] case Some(ports) => [OnOrigDport(ports)])
  }

  function EchoReply(protocol: Protocol): seq<Match> {
    match protocol
    case Icmp => [OnIcmp(0, 0)]
    case IcmpV6 => [OnIcmp(129, 0)]
    case _ => []
  }

  datatype Emitter =
    | NftVerdict(dir: Direction, reverse: bool, handoff: bool, generation: nat)
    | NftQueue
    | NftGuard
    | NftReplyQueue
    | XtVerdict(dir: Direction, reverse: bool, generation: nat)
    | XtQueue
    | XtGuard
    | XtReplyQueue
    | XtObserver

  function VerdictTarget(spec: RuleSpec): Target {
    match spec.action
    case Accept => Pass
    case Drop => Deny
    case Reject => Refuse(spec.protocol.Tcp?)
  }

  predicate Anywhere(spec: RuleSpec) { spec.peer.None? && spec.port.None? }

  function Emit(e: Emitter, r: Rule): seq<FwRule> {
    match e
    case NftVerdict(dir, reverse, handoff, generation) =>
      [FwRule(NftSelectors(r.spec, dir, reverse),
              (if dir.Outbound? && r.spec.action.Accept? && handoff then [SetDomain(Handoff)] else [])
              + (if r.spec.action.Reject? then [NftConnmark(false, generation)] else []),
              VerdictTarget(r.spec))]
    case NftQueue =>
      [FwRule([OnCtDir(Original)] + NftSelectors(r.spec, Outbound, false), [SetDomain(Pending)], Enqueue(ENFORCE_QUEUE))]
    case NftGuard =>
      [FwRule(NftSelectors(r.spec, Outbound, false), [], Deny)]
      + (if Anywhere(r.spec) then []
         else [FwRule(InterfaceMatch(r.spec, Outbound) + NftProtocol(r.spec.protocol) + OriginalTuple(r.spec), [], Deny)])
    case NftReplyQueue =>
      [FwRule(NftSelectors(r.spec, Inbound, true) + EchoReply(r.spec.protocol) + [OnDomainNot(Handoff)],
              [], Enqueue(REPLY_QUEUE))]
    case XtVerdict(dir, reverse, generation) =>
      (if r.spec.action.Reject? then
         [FwRule(XtSelectors(r.spec, dir, reverse), [XtConnmark(false, generation)], Continue)]
       else [])
      + [FwRule(XtSelectors(r.spec, dir, reverse), [], VerdictTarget(r.spec))]
    case XtQueue =>
      [FwRule(XtSelectors(r.spec, Outbound, false) + [OnCtDir(Original)], [SetDomain(Pending)], Continue)]
      + [FwRule(XtSelectors(r.spec, Outbound, false) + [OnCtDir(Original)], [], Enqueue(ENFORCE_QUEUE))]
    case XtGuard =>
      [FwRule(XtSelectors(r.spec, Outbound, false) + [OnUntracked], [], Deny)]
      + (if Anywhere(r.spec) then []
         else
           [FwRule(InterfaceMatch(r.spec, Outbound) + XtProtocol(r.spec.protocol) + OriginalTuple(r.spec)
                   + [OnCtDir(Original)], [], Deny)])
    case XtReplyQueue =>
      [FwRule(XtSelectors(r.spec, Inbound, true) + EchoReply(r.spec.protocol) + [OnDomainNot(Handoff)],
              [], Enqueue(REPLY_QUEUE))]
    case XtObserver =>
      [FwRule(XtSelectors(r.spec, Outbound, false) + [OnCtDir(Original)], [], Pass)]
  }

  function Section(e: Emitter, rules: seq<Rule>): seq<FwRule> {
    if rules == [] then [] else Emit(e, rules[0]) + Section(e, rules[1..])
  }

  /** The append loop every section is written with. */
  method AppendEach(script: seq<FwRule>, e: Emitter, rules: seq<Rule>) returns (out: seq<FwRule>)
    ensures out == script + Section(e, rules)
  {
    out := script;
    for i := 0 to |rules|
      invariant out + Section(e, rules[i..]) == script + Section(e, rules)
    {
      assert rules[i..][1..] == rules[i + 1..];
      out := out + Emit(e, rules[i]);
    }
    assert out + Section(e, []) == out;
  }

  // ---------------------------------------------------------------- what a rule means

  predicate ProtocolOk(protocol: Protocol, p: Packet) {
    match protocol
    case Any => true
    case Tcp => p.l4.TCP?
    case Udp => p.l4.UDP?
    case Icmp => p.family.IPv4? && p.l4.ICMP?
    case IcmpV6 => p.family.IPv6? && p.l4.ICMPV6?
  }

  predicate InterfaceOk(spec: RuleSpec, name: string) { spec.interface.Some? ==> spec.interface.value == name }
  predicate PeerOk(spec: RuleSpec, a: Address) { spec.peer.Some? ==> Contains(spec.peer.value, a) }
  predicate PortOk(spec: RuleSpec, port: nat) { spec.port.Some? ==> InRange(spec.port.value, port) }

  /** The packet's current destination lies in the rule's network envelope. */
  predicate Outgoing(spec: RuleSpec, p: Packet) {
    InterfaceOk(spec, p.oif) && PeerOk(spec, p.dst) && ProtocolOk(spec.protocol, p) && PortOk(spec, p.dport)
  }

  predicate IsOriginal(p: Packet) { p.ct.Tracked? && p.ct.dir.Original? }

  /** The destination before local address translation lies in the rule's envelope. */
  predicate OriginallyTo(spec: RuleSpec, p: Packet) {
    && !Anywhere(spec) && p.ct.Tracked?
    && InterfaceOk(spec, p.oif) && PeerOk(spec, p.ct.origDst)
    && ProtocolOk(spec.protocol, p) && PortOk(spec, p.ct.origDport)
  }

  /** An outgoing reply on a connection the (inbound) rule admits. */
  predicate Answering(spec: RuleSpec, p: Packet) {
    && p.ct.Tracked? && p.ct.dir.Reply? && p.ct.state.Established?
    && InterfaceOk(spec, p.oif) && PeerOk(spec, p.dst) && ProtocolOk(spec.protocol, p) && PortOk(spec, p.sport)
  }

  predicate Hit(e: Emitter, spec: RuleSpec, p: Packet) {
    match e
    case NftVerdict(_, reverse, _, _) =>
      (if reverse then Answering(spec, p) else Outgoing(spec, p)) && (spec.action.Reject? ==> p.ct.Tracked?)
    case XtVerdict(_, reverse, _) => if reverse then Answering(spec, p) else Outgoing(spec, p)
    case NftGuard => Outgoing(spec, p) || OriginallyTo(spec, p)
    case XtGuard => (p.ct.Untracked? && Outgoing(spec, p)) || (IsOriginal(p) && OriginallyTo(spec, p))
    case _ => IsOriginal(p) && Outgoing(spec, p)
  }

  function HitStep(e: Emitter, spec: RuleSpec, p: Packet): Step {
    match e
    case NftVerdict(_, _, handoff, generation) =>
      (match spec.action
       case Accept => Stopped(Pass, if handoff then p.(mark := p.mark.(domain := Handoff)) else p)
       case Drop => Stopped(Deny, p)
       case Reject => Stopped(Refuse(spec.protocol.Tcp?), SetConnmark(p, false, generation)))
    case XtVerdict(_, _, generation) =>
      (match spec.action
       case Accept => Stopped(Pass, p)
       case Drop => Stopped(Deny, p)
       case Reject => Stopped(Refuse(spec.protocol.Tcp?), SetConnmark(p, false, generation)))
    case NftGuard => Stopped(Deny, p)
    case XtGuard => Stopped(Deny, p)
    case XtObserver => Stopped(Pass, p)
    case _ => Stopped(Enqueue(ENFORCE_QUEUE), p.(mark := p.mark.(domain := Pending)))
  }

  /** Emitters of the OUTPUT chains. */
  predicate Outbounder(e: Emitter) {
    && !e.NftReplyQueue? && !e.XtReplyQueue?
    && (e.NftVerdict? || e.XtVerdict? ==> e.dir.Outbound?)
  }

  predicate IsXt(e: Emitter) { e.XtVerdict? || e.XtQueue? || e.XtGuard? || e.XtReplyQueue? || e.XtObserver? }

  // ---------------------------------------------------------------- blocks do what rules mean

  lemma HoldAllConcat(a: seq<Match>, b: seq<Match>, p: Packet)
    ensures HoldAll(a + b, p) <==> HoldAll(a, p) && HoldAll(b, p)
  {
    if HoldAll(a + b, p) {
      assert forall m :: m in a ==> m in a + b;
      assert forall m :: m in b ==> m in a + b;
    }
  }

  lemma PiecesMean(spec: RuleSpec, p: Packet, reverse: bool)
    ensures HoldAll(InterfaceMatch(spec, Outbound), p) <==> InterfaceOk(spec, p.oif)
    ensures HoldAll(PeerMatch(spec, Outbound), p) <==> PeerOk(spec, p.dst)
    ensures HoldAll(NftProtocol(spec.protocol), p) <==> ProtocolOk(spec.protocol, p)
    ensures SupportsFamily(spec, p.family) ==> (HoldAll(XtProtocol(spec.protocol), p) <==> ProtocolOk(spec.protocol, p))
    ensures HoldAll(PortMatch(spec, reverse), p) <==> PortOk(spec, if reverse then p.sport else p.dport)
    ensures HoldAll(ESTABLISHED_REPLY, p) <==> p.ct.Tracked? && p.ct.dir.Reply? && p.ct.state.Established?
  {
    InterfaceMeans(spec, p);
    PeerMeans(spec, p);
    NftProtocolMeans(spec.protocol, p);
    PortMeans(spec, p, reverse);
    assert OnCtDir(Reply) in ESTABLISHED_REPLY && OnCtState({Established}) in ESTABLISHED_REPLY;
    if SupportsFamily(spec, p.family) {
      XtProtocolMeans(spec, p);
    }
  }

  lemma One(m: Match, p: Packet)
    ensures HoldAll([m], p) <==> Holds(m, p)
  {
    assert m in [m];
  }

  lemma Two(m: Match, n: Match, p: Packet)
    ensures HoldAll([m, n], p) <==> Holds(m, p) && Holds(n, p)
  {
    assert m in [m, n] && n in [m, n];
  }

  lemma InterfaceMeans(spec: RuleSpec, p: Packet)
    ensures HoldAll(InterfaceMatch(spec, Outbound), p) <==> InterfaceOk(spec, p.oif)
  {
    if spec.interface.Some? { One(OnOif(spec.interface.value), p); }
  }

  lemma PeerMeans(spec: RuleSpec, p: Packet)
    ensures HoldAll(PeerMatch(spec, Outbound), p) <==> PeerOk(spec, p.dst)
  {
    if spec.peer.Some? { One(OnDst(spec.peer.value), p); }
  }

  lemma PortMeans(spec: RuleSpec, p: Packet, reverse: bool)
    ensures HoldAll(PortMatch(spec, reverse), p) <==> PortOk(spec, if reverse then p.sport else p.dport)
  {
    if spec.port.Some? { One(if reverse then OnSport(spec.port.value) else OnDport(spec.port.value), p); }
  }

  lemma NftProtocolMeans(protocol: Protocol, p: Packet)
    ensures HoldAll(NftProtocol(protocol), p) <==> ProtocolOk(protocol, p)
  {
    match protocol {
      case Any =>
      case Tcp => One(OnL4(TCP), p);
      case Udp => One(OnL4(UDP), p);
      case Icmp => Two(OnFamily(IPv4), OnL4(ICMP), p);
      case IcmpV6 => Two(OnFamily(IPv6), OnL4(ICMPV6), p);
    }
  }

  lemma XtProtocolMeans(spec: RuleSpec, p: Packet)
    requires SupportsFamily(spec, p.family)
    ensures HoldAll(XtProtocol(spec.protocol), p) <==> ProtocolOk(spec.protocol, p)
  {
    match spec.protocol {
      case Any =>
      case Tcp => One(OnL4(TCP), p);
      case Udp => One(OnL4(UDP), p);
      case Icmp => One(OnL4(ICMP), p);
      case IcmpV6 => One(OnL4(ICMPV6), p);
    }
  }

  lemma OriginalTupleMeans(spec: RuleSpec, p: Packet)
    ensures HoldAll(OriginalTuple(spec), p) <==>
            (spec.peer.Some? ==> p.ct.Tracked? && Contains(spec.peer.value, p.ct.origDst)) &&
            (spec.port.Some? ==> p.ct.Tracked? && InRange(spec.port.value, p.ct.origDport))
  {
    var a: seq<Match> := match spec.peer case None => [] case Some(net) => [OnOrigDst(net)];
    var b: seq<Match> := match spec.port case None => [] case Some(ports) => [OnOrigDport(ports)];
    HoldAllConcat(a, b, p);
    if spec.peer.Some? { One(OnOrigDst(spec.peer.value), p); }
    if spec.port.Some? { One(OnOrigDport(spec.port.value), p); }
  }

  lemma NftSelectorsMean(spec: RuleSpec, p: Packet, reverse: bool)
    ensures HoldAll(NftSelectors(spec, Outbound, reverse), p) <==>
            if reverse then Answering(spec, p) else Outgoing(spec, p)
  {
    var s0: seq<Match> := if reverse then ESTABLISHED_REPLY else [];
    var s1 := s0 + InterfaceMatch(spec, Outbound);
    var s2 := s1 + PeerMatch(spec, Outbound);
    var s3 := s2 + NftProtocol(spec.protocol);
    HoldAllConcat(s0, InterfaceMatch(spec, Outbound), p);
    HoldAllConcat(s1, PeerMatch(spec, Outbound), p);
    HoldAllConcat(s2, NftProtocol(spec.protocol), p);
    HoldAllConcat(s3, PortMatch(spec, reverse), p);
    PiecesMean(spec, p, reverse);
  }

  lemma XtSelectorsMean(spec: RuleSpec, p: Packet, reverse: bool)
    requires SupportsFamily(spec, p.family)
    ensures HoldAll(XtSelectors(spec, Outbound, reverse), p) <==>
            if reverse then Answering(spec, p) else Outgoing(spec, p)
  {
    var rev: seq<Match> := if reverse then ESTABLISHED_REPLY else [];
    var s1 := PeerMatch(spec, Outbound) + InterfaceMatch(spec, Outbound);
    var s2 := s1 + XtProtocol(spec.protocol);
    var s3 := s2 + rev;
    HoldAllConcat(PeerMatch(spec, Outbound), InterfaceMatch(spec, Outbound), p);
    HoldAllConcat(s1, XtProtocol(spec.protocol), p);
    HoldAllConcat(s2, rev, p);
    HoldAllConcat(s3, PortMatch(spec, reverse), p);
    PiecesMean(spec, p, reverse);
  }

  /** A rule of the other family never concerns the packet. */
  lemma UnsupportedNeverConcerns(spec: RuleSpec, p: Packet)
    requires WellFormed(p) && !SupportsFamily(spec, p.family)
    ensures !Outgoing(spec, p) && !OriginallyTo(spec, p) && !Answering(spec, p)
  {
  }

  lemma EmptyEffects(p: Packet)
    ensures AffectAll([], p) == p
  {
  }

  lemma OneEffect(e: Effect, p: Packet)
    ensures AffectAll([e], p) == Affect(e, p)
  {
    assert [e][1..] == [];
  }

  /** A rule without connection-mark reads applies exactly when its matches hold. */
  lemma PlainApplies(r: FwRule, p: Packet)
    requires forall e :: e in r.effects ==> !e.NftConnmark?
    ensures Applies(r, p) <==> HoldAll(r.sel, p)
  {
  }

  lemma NftVerdictActs(e: Emitter, r: Rule, p: Packet)
    requires e.NftVerdict? && e.dir.Outbound?
    ensures Traverse(Emit(e, r), p) == if Hit(e, r.spec, p) then HitStep(e, r.spec, p) else Fell(p)
  {
    var fw := Emit(e, r)[0];
    NftSelectorsMean(r.spec, p, e.reverse);
    TraverseOne(fw, p);
    match r.spec.action {
      case Accept =>
        if e.handoff {
          assert fw.effects == [SetDomain(Handoff)];
          OneEffect(SetDomain(Handoff), p);
        } else {
          assert fw.effects == [];
        }
        PlainApplies(fw, p);
      case Drop =>
        assert fw.effects == [];
        PlainApplies(fw, p);
      case Reject =>
        assert fw.effects == [NftConnmark(false, e.generation)];
        assert NftConnmark(false, e.generation) in fw.effects;
        OneEffect(NftConnmark(false, e.generation), p);
    }
  }

  /** Marks are no part of a rule's envelope. */
  lemma StampKeepsMeaning(spec: RuleSpec, p: Packet, authorized: bool, generation: nat)
    ensures var q := SetConnmark(p, authorized, generation);
            && (Outgoing(spec, q) <==> Outgoing(spec, p))
            && (Answering(spec, q) <==> Answering(spec, p))
            && q.family == p.family
  {
  }

  lemma XtRejectActs(sel: seq<Match>, generation: nat, reset: bool, p: Packet)
    requires HoldAll(sel, p) <==> HoldAll(sel, SetConnmark(p, false, generation))
    ensures Traverse([FwRule(sel, [XtConnmark(false, generation)], Continue)] + [FwRule(sel, [], Refuse(reset))], p) ==
            if HoldAll(sel, p) then Stopped(Refuse(reset), SetConnmark(p, false, generation)) else Fell(p)
  {
    var first := FwRule(sel, [XtConnmark(false, generation)], Continue);
    var last := FwRule(sel, [], Refuse(reset));
    var q := SetConnmark(p, false, generation);
    TraverseConcat([first], [last], p);
    TraverseOne(first, p);
    OneEffect(XtConnmark(false, generation), p);
    PlainApplies(first, p);
    TraverseOne(last, p);
    PlainApplies(last, p);
    TraverseOne(last, q);
    PlainApplies(last, q);
  }

  lemma XtVerdictActs(e: Emitter, r: Rule, p: Packet)
    requires e.XtVerdict? && e.dir.Outbound? && SupportsFamily(r.spec, p.family)
    ensures Traverse(Emit(e, r), p) == if Hit(e, r.spec, p) then HitStep(e, r.spec, p) else Fell(p)
  {
    var sel := XtSelectors(r.spec, Outbound, e.reverse);
    XtSelectorsMean(r.spec, p, e.reverse);
    if r.spec.action.Reject? {
      StampKeepsMeaning(r.spec, p, false, e.generation);
      XtSelectorsMean(r.spec, SetConnmark(p, false, e.generation), e.reverse);
      XtRejectActs(sel, e.generation, r.spec.protocol.Tcp?, p);
    } else {
      var last := FwRule(sel, [], VerdictTarget(r.spec));
      assert Emit(e, r) == [last];
      TraverseOne(last, p);
      PlainApplies(last, p);
    }
  }

  lemma QueueActs(e: Emitter, r: Rule, p: Packet)
    requires e.NftQueue? || (e.XtQueue? && SupportsFamily(r.spec, p.family))
    ensures Traverse(Emit(e, r), p) == if Hit(e, r.spec, p) then HitStep(e, r.spec, p) else Fell(p)
  {
    One(OnCtDir(Original), p);
    if e.NftQueue? {
      var fw := Emit(e, r)[0];
      HoldAllConcat([OnCtDir(Original)], NftSelectors(r.spec, Outbound, false), p);
      NftSelectorsMean(r.spec, p, false);
      TraverseOne(fw, p);
      PlainApplies(fw, p);
      OneEffect(SetDomain(Pending), p);
    } else {
      var sel := XtSelectors(r.spec, Outbound, false);
      var first := FwRule(sel + [OnCtDir(Original)], [SetDomain(Pending)], Continue);
      var last := FwRule(sel + [OnCtDir(Original)], [], Enqueue(ENFORCE_QUEUE));
      var q := p.(mark := p.mark.(domain := Pending));
      HoldAllConcat(sel, [OnCtDir(Original)], p);
      HoldAllConcat(sel, [OnCtDir(Original)], q);
      XtSelectorsMean(r.spec, p, false);
      XtSelectorsMean(r.spec, q, false);
      One(OnCtDir(Original), q);
      TraverseConcat([first], [last], p);
      TraverseOne(first, p);
      TraverseOne(last, p);
      TraverseOne(last, q);
      PlainApplies(first, p);
      PlainApplies(last, p);
      PlainApplies(last, q);
      OneEffect(SetDomain(Pending), p);
    }
  }

  lemma GuardOriginal(e: Emitter, spec: RuleSpec, p: Packet)
    requires e.NftGuard? || (e.XtGuard? && SupportsFamily(spec, p.family))
    requires !Anywhere(spec)
    ensures
      var protocol := if e.NftGuard? then NftProtocol(spec.protocol) else XtProtocol(spec.protocol);
      HoldAll(InterfaceMatch(spec, Outbound) + protocol + OriginalTuple(spec), p) <==> OriginallyTo(spec, p)
  {
    var protocol := if e.NftGuard? then NftProtocol(spec.protocol) else XtProtocol(spec.protocol);
    HoldAllConcat(InterfaceMatch(spec, Outbound), protocol, p);
    HoldAllConcat(InterfaceMatch(spec, Outbound) + protocol, OriginalTuple(spec), p);
    OriginalTupleMeans(spec, p);
    PiecesMean(spec, p, false);
  }

  lemma GuardActs(e: Emitter, r: Rule, p: Packet)
    requires e.NftGuard? || (e.XtGuard? && SupportsFamily(r.spec, p.family))
    ensures Traverse(Emit(e, r), p) == if Hit(e, r.spec, p) then HitStep(e, r.spec, p) else Fell(p)
  {
    var first := Emit(e, r)[0];
    if e.NftGuard? {
      NftSelectorsMean(r.spec, p, false);
    } else {
      HoldAllConcat(XtSelectors(r.spec, Outbound, false), [OnUntracked], p);
      XtSelectorsMean(r.spec, p, false);
      One(OnUntracked, p);
    }
    TraverseOne(first, p);
    PlainApplies(first, p);
    if Anywhere(r.spec) {
      assert Emit(e, r) == [first];
    } else {
      var last := Emit(e, r)[1];
      assert Emit(e, r) == [first] + [last];
      GuardOriginal(e, r.spec, p);
      if e.XtGuard? {
        HoldAllConcat(InterfaceMatch(r.spec, Outbound) + XtProtocol(r.spec.protocol) + OriginalTuple(r.spec),
                      [OnCtDir(Original)], p);
        One(OnCtDir(Original), p);
      }
      TraverseConcat([first], [last], p);
      TraverseOne(last, p);
      PlainApplies(last, p);
    }
  }

  lemma ObserverActs(e: Emitter, r: Rule, p: Packet)
    requires e.XtObserver? && SupportsFamily(r.spec, p.family)
    ensures Traverse(Emit(e, r), p) == if Hit(e, r.spec, p) then HitStep(e, r.spec, p) else Fell(p)
  {
    HoldAllConcat(XtSelectors(r.spec, Outbound, false), [OnCtDir(Original)], p);
    XtSelectorsMean(r.spec, p, false);
    One(OnCtDir(Original), p);
    TraverseOne(Emit(e, r)[0], p);
    PlainApplies(Emit(e, r)[0], p);
  }

  lemma BlockActs(e: Emitter, r: Rule, p: Packet)
    requires Outbounder(e) && (IsXt(e) ==> SupportsFamily(r.spec, p.family))
    ensures Traverse(Emit(e, r), p) == if Hit(e, r.spec, p) then HitStep(e, r.spec, p) else Fell(p)
  {
    match e {
      case NftVerdict(_, _, _, _) => NftVerdictActs(e, r, p);
      case XtVerdict(_, _, _) => XtVerdictActs(e, r, p);
      case NftGuard => GuardActs(e, r, p);
      case XtGuard => GuardActs(e, r, p);
      case XtObserver => ObserverActs(e, r, p);
      case NftQueue => QueueActs(e, r, p);
      case XtQueue => QueueActs(e, r, p);
    }
  }

  // ---------------------------------------------------------------- sections

  function First(e: Emitter, rules: seq<Rule>, p: Packet): (r: Option<Rule>)
    ensures r.Some? ==> r.value in rules && Hit(e, r.value.spec, p)
    ensures r.None? ==> forall x :: x in rules ==> !Hit(e, x.spec, p)
  {
    if rules == [] then None
    else if Hit(e, rules[0].spec, p) then Some(rules[0])
    else First(e, rules[1..], p)
  }

  /** A section does what the first rule that concerns the packet says. */
  lemma {:induction false} SectionActs(e: Emitter, rules: seq<Rule>, p: Packet)
    requires Outbounder(e) && (IsXt(e) ==> forall r :: r in rules ==> SupportsFamily(r.spec, p.family))
    ensures Traverse(Section(e, rules), p) ==
            match First(e, rules, p) case None => Fell(p) case Some(r) => HitStep(e, r.spec, p)
  {
    if rules != [] {
      BlockActs(e, rules[0], p);
      TraverseConcat(Emit(e, rules[0]), Section(e, rules[1..]), p);
      SectionActs(e, rules[1..], p);
    }
  }

  /** In an ordered section the first rule that concerns the packet is the least one. */
  lemma {:induction false} FirstIsLeast(e: Emitter, rules: seq<Rule>, p: Packet)
    requires Ordered(rules) && First(e, rules, p).Some?
    ensures forall x :: x in rules && Hit(e, x.spec, p) ==> !Before(x, First(e, rules, p).value)
  {
    if !Hit(e, rules[0].spec, p) {
      FirstIsLeast(e, rules[1..], p);
    }
  }
}
