/** The policy for packets that arrive at the host, stated over packets and rules only. */
module Inbound {
  import opened Model
  import opened Netfilter
  import opened RuleBlocks
  import opened Compilers
  import opened Outbound
  import opened Marks

  datatype Reception = Passed | Deferred | Denied

  /** The packet comes from the rule's peer, through its interface, to its port. */
  predicate Incoming(spec: RuleSpec, p: Packet) {
    InterfaceOk(spec, p.iif) && PeerOk(spec, p.src) && ProtocolOk(spec.protocol, p) && PortOk(spec, p.dport)
  }

  predicate EstablishedAnswer(p: Packet) { p.ct.Tracked? && p.ct.dir.Reply? && p.ct.state.Established? }

  /** An incoming reply on a connection the (outbound) rule admits. */
  predicate Returning(spec: RuleSpec, p: Packet) {
    && EstablishedAnswer(p)
    && InterfaceOk(spec, p.iif) && PeerOk(spec, p.src) && ProtocolOk(spec.protocol, p) && PortOk(spec, p.sport)
  }

  predicate AcceptsInbound(s: Snapshot, p: Packet) {
    exists r :: r in s.rules && InboundAccept(r) && Incoming(r.spec, p)
  }

  predicate AnswersOutbound(s: Snapshot, p: Packet) {
    exists r :: r in s.rules && NetworkRule(r, Accept) && Returning(r.spec, p)
  }

  /** Some application rule makes the firewall attribute packets of this protocol. */
  predicate Attributed(s: Snapshot, p: Packet) {
    match Attribution(s)
    case NoInterception => false
    case TcpInitial => p.l4.TCP?
    case PerPacket => Attributable(p)
  }

  /** A reply on a flow the generation in force authorized. */
  predicate AuthorizedReply(s: Snapshot, p: Packet) {
    Attributed(s, p) && StampedWith(p, true, s.generation) && EstablishedAnswer(p)
  }

  /** The receiving end of an authorized local connection. */
  predicate LocalDelivery(s: Snapshot, p: Packet) {
    && s.mode.Enforcing? && Attributed(s, p) && StampedWith(p, true, s.generation)
    && p.iif == "lo" && p.ct.dir.Original? && (p.ct.state.New? || p.ct.state.Established?)
  }

  /** Learning lets local connections and all replies in. */
  predicate LearningEntry(s: Snapshot, p: Packet) {
    && s.mode.Learning? && p.ct.Tracked?
    && ((p.iif == "lo" && p.ct.dir.Original?) || (p.ct.dir.Reply? && (p.ct.state.Established? || p.ct.state.Related?)))
  }

  predicate ControlMessage(p: Packet) { p.family.IPv6? && p.controlPlane }

  /** The shapes of non-TCP replies that may wait for their authorization. */
  predicate WaitingShape(p: Packet) {
    || p.l4.UDP?
    || (p.family.IPv4? && p.l4.ICMP? && p.icmpType == 0 && p.icmpCode == 0)
    || (p.family.IPv6? && p.l4.ICMPV6? && p.icmpType == 129 && p.icmpCode == 0)
  }

  /** An established non-TCP reply from within an application Accept's envelope, on any interface, with retries left. */
  predicate Awaits(s: Snapshot, p: Packet) {
    && s.mode.Enforcing? && EstablishedAnswer(p) && WaitingShape(p) && RetriesLeft(p.mark) > 0
    && exists r :: r in s.rules && ApplicationRule(r) && r.spec.action.Accept?
                   && PeerOk(r.spec, p.src) && ProtocolOk(r.spec.protocol, p) && PortOk(r.spec, p.sport)
  }

  function Receive(s: Snapshot, p: Packet): Reception {
    if s.mode.BlockAll? then Denied
    else if p.dhcpBootstrap then Passed
    else if p.ct.Invalid? then Denied
    else if ControlMessage(p) || GeneratedReject(s, p) || LearningEntry(s, p) || LocalDelivery(s, p) || AuthorizedReply(s, p)
            || AcceptsInbound(s, p) || AnswersOutbound(s, p)
    then Passed
    else if Awaits(s, p) then Deferred
    else Denied
  }
}
