/** What both compilers promise for outgoing packets, stated without chains or marks in flight. */
module Outbound {
  import opened Model
  import opened Marks
  import opened Netfilter
  import opened RuleBlocks
  import opened Compilers

  datatype Backend = Nft | Xt

  predicate NetworkRule(r: Rule, a: Action) {
    r.spec.enabled && r.spec.direction.Outbound? && r.spec.application.None? && r.spec.action == a
  }

  /** Some enabled network rule with this action covers the packet's current destination. */
  predicate NetworkMatch(s: Snapshot, p: Packet, a: Action) {
    exists r :: r in s.rules && NetworkRule(r, a) && Outgoing(r.spec, p)
  }

  /** An application rule that the active mode sends to userspace. */
  predicate Asks(s: Snapshot, r: Rule) { ApplicationRule(r) && (s.mode.Enforcing? || !r.spec.action.Accept?) }

  /** The packet's current destination lies in the network envelope of such a rule. */
  predicate InEnvelope(s: Snapshot, p: Packet) {
    exists r :: r in s.rules && Asks(s, r) && Outgoing(r.spec, p)
  }

  predicate OriginallyInEnvelope(s: Snapshot, p: Packet) {
    exists r :: r in s.rules && Asks(s, r) && OriginallyTo(r.spec, p)
  }

  predicate InboundAccept(r: Rule) {
    r.spec.enabled && r.spec.direction.Inbound? && r.spec.application.None? && r.spec.action.Accept?
  }

  predicate AnswersInbound(s: Snapshot, p: Packet) {
    exists r :: r in s.rules && InboundAccept(r) && Answering(r.spec, p)
  }

  predicate StampedWith(p: Packet, authorized: bool, generation: nat) {
    p.ct.Tracked? && p.ct.mark.authorized == authorized && p.ct.mark.generation == generation
  }

  predicate ErrorShape(p: Packet) {
    || (p.l4.TCP? && p.flags.rst)
    || (p.family.IPv4? && p.l4.ICMP? && p.icmpType == 3 && p.icmpCode == 3)
    || (p.family.IPv6? && p.l4.ICMPV6? && p.icmpType == 1 && p.icmpCode == 4)
  }

  /** The error packet the kernel generates for a rejection of the current generation. */
  predicate GeneratedReject(s: Snapshot, p: Packet) {
    && (exists r :: r in s.rules && r.spec.enabled && r.spec.direction.Outbound? && r.spec.action.Reject?)
    && StampedWith(p, false, s.generation)
    && p.ct.state.Related? && p.ct.dir.Reply? && ErrorShape(p)
  }

  predicate LocalReply(s: Snapshot, p: Packet) {
    && s.mode.Enforcing? && StampedWith(p, true, s.generation)
    && p.ct.state.Established? && p.ct.dir.Reply? && p.oif == "lo"
    && (match Attribution(s) case NoInterception => false case TcpInitial => p.l4.TCP? case PerPacket => Attributable(p))
  }

  predicate EstablishedFlow(s: Snapshot, p: Packet) {
    && !Attribution(s).NoInterception? && StampedWith(p, true, s.generation)
    && p.ct.state.Established? && p.ct.dir.Original? && p.l4.TCP?
  }

  /** Traffic of a flow stamped by the current generation. */
  predicate FastPath(s: Snapshot, p: Packet) { LocalReply(s, p) || EstablishedFlow(s, p) }

  /** Every original non-TCP packet loses its cached stamp before it is judged. */
  function Unstamped(s: Snapshot, p: Packet): Packet {
    if Attribution(s).PerPacket? && IsOriginal(p) && Attributable(p) && !p.l4.TCP? then SetConnmark(p, false, 0) else p
  }

  predicate LeastReject(s: Snapshot, p: Packet, r: Rule) {
    && r in s.rules && NetworkRule(r, Reject) && Outgoing(r.spec, p)
    && forall x :: x in s.rules && NetworkRule(x, Reject) && Outgoing(x.spec, p) ==> r.id <= x.id
  }

  predicate RefusesWithReset(s: Snapshot, p: Packet) {
    exists r :: r in s.rules && LeastReject(s, p, r) && r.spec.protocol.Tcp?
  }

  /** Candidates that could not be queued. nftables guards every packet; xtables guards untracked
      packets by their current tuple and original-direction packets by their original one. */
  predicate Guarded(b: Backend, s: Snapshot, p: Packet) {
    match b
    case Nft => InEnvelope(s, p) || OriginallyInEnvelope(s, p)
    case Xt => (p.ct.Untracked? && InEnvelope(s, p)) || (IsOriginal(p) && OriginallyInEnvelope(s, p))
  }

  /** The first packet of a connection; xtables looks at two more flags. */
  predicate OpensConnection(b: Backend, f: Flags) { f.syn && !f.ack && (b.Xt? ==> !f.fin && !f.rst) }

  predicate Sampled(b: Backend, p: Packet) {
    && IsOriginal(p)
    && (|| (p.l4.TCP? && p.ct.state.New? && OpensConnection(b, p.flags))
        || (p.l4.TCP? && p.ct.state.Established? && !p.flags.fin && !p.flags.rst && p.token)
        || !p.l4.TCP?)
  }

  predicate AnyDeny(s: Snapshot, p: Packet) {
    exists r :: r in s.rules && r.spec.enabled && r.spec.direction.Outbound? && !r.spec.action.Accept?
                && Outgoing(r.spec, p)
  }

  function InDomain(p: Packet, d: Domain): Packet { p.(mark := p.mark.(domain := d)) }

  function Decided(s: Snapshot, p: Packet, o: Oracle): Outcome {
    var q := InDomain(p, Pending);
    match QueueDecision(o, q)
    case Accept => Outcome(Accepted, SetConnmark(p, true, s.generation))
    case Drop => Outcome(Dropped, q)
    case Reject => Outcome(Refused(p.l4.TCP?), SetConnmark(InDomain(p, Rejected), false, s.generation))
  }

  /** The verdict on a packet that is neither denied by a network rule nor on the fast path. */
  function Judged(b: Backend, s: Snapshot, p: Packet, o: Oracle): Outcome {
    if AnswersInbound(s, p) then Outcome(Accepted, p)
    else if IsOriginal(p) && InEnvelope(s, p) then Decided(s, p, o)
    else if Guarded(b, s, p) then Outcome(Dropped, p)
    else if s.mode.Enforcing? then Outcome(if NetworkMatch(s, p, Accept) then Accepted else Dropped, p)
    else if b.Nft? && Sampled(b, p) && !o.observe(p) then Outcome(Dropped, p)
    else Outcome(Accepted, p)
  }

  function Filtered(b: Backend, s: Snapshot, p: Packet, o: Oracle): Outcome {
    if s.mode.Enforcing? && p.ct.Invalid? then Outcome(Dropped, p)
    else if GeneratedReject(s, p) then Outcome(Accepted, p)
    else if NetworkMatch(s, p, Drop) then Outcome(Dropped, p)
    else if (b.Xt? || p.ct.Tracked?) && NetworkMatch(s, p, Reject) then
      Outcome(Refused(RefusesWithReset(s, p)), SetConnmark(p, false, s.generation))
    else if FastPath(s, p) then Outcome(Accepted, p)
    else Judged(b, s, Unstamped(s, p), o)
  }

  /** The policy for outgoing packets. */
  function Policy(b: Backend, s: Snapshot, p: Packet, o: Oracle): Outcome {
    var q := InDomain(p, Clear);
    if s.mode.BlockAll? then Outcome(Dropped, q)
    else if b.Xt? && s.mode.Learning? && Sampled(b, q) && !AnyDeny(s, q) && !o.observe(q) then Outcome(Dropped, q)
    else Filtered(b, s, q, o)
  }
}
