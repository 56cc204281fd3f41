/** Packets, firewall rules and the two traversal disciplines.

    A rule is a conjunction of matches, a list of mark effects and a target. nftables runs the base
    chains of a hook one after another: accepting (or a queue verdict of accept) ends one base chain
    only. xtables queues answer with NF_REPEAT, which re-enters the filter chain with a new mark. */
module Netfilter {
  import opened Model
  import opened Marks

  datatype L4 = TCP | UDP | ICMP | ICMPV6 | OTHER(number: nat)
  datatype CtState = New | Established | Related
  datatype CtDir = Original | Reply
  datatype Flags = Flags(fin: bool, syn: bool, rst: bool, ack: bool)

  /** What connection tracking knows about a packet. Untracked and invalid packets have no record. */
  datatype Conn =
    | Untracked
    | Invalid
    | Tracked(state: CtState, dir: CtDir, origDst: Address, origDport: nat, mark: Connmark)

  datatype Packet = Packet(
    family: Family, l4: L4,
    iif: string, oif: string,
    src: Address, dst: Address, sport: nat, dport: nat,
    flags: Flags, icmpType: nat, icmpCode: nat,
    dhcpBootstrap: bool,   // an exact DHCP client reply
    controlPlane: bool,    // an IPv6 host control message admitted by RFC 4890
    token: bool,           // the sampling token bucket is not empty
    mark: Mark, ct: Conn)

  function Masked(f: Flags, mask: Flags): Flags {
    Flags(f.fin && mask.fin, f.syn && mask.syn, f.rst && mask.rst, f.ack && mask.ack)
  }

  const NO_FLAGS := Flags(false, false, false, false)

  predicate WellFormed(p: Packet) {
    && p.src.family == p.dst.family == p.family
    && (p.ct.Tracked? ==> p.ct.origDst.family == p.family)
  }

  // ---------------------------------------------------------------- rules

  datatype Match =
    | OnCtDir(dir: CtDir) | OnCtState(states: set<CtState>) | OnInvalid | OnUntracked
    | OnConnmark(authorized: bool, generation: nat)
    | OnDomain(domain: Domain) | OnDomainNot(domain: Domain)
    | OnIif(name: string) | OnOif(name: string)
    | OnSrc(net: Network) | OnDst(net: Network) | OnSport(ports: PortRange) | OnDport(ports: PortRange)
    | OnOrigDst(net: Network) | OnOrigDport(ports: PortRange)
    | OnFamily(family: Family) | OnL4(l4: L4) | OnL4Not(l4: L4)
    | OnFlags(mask: Flags, value: Flags) | OnIcmp(icmpType: nat, icmpCode: nat)
    | OnDhcp | OnControlPlane | OnToken

  predicate Holds(m: Match, p: Packet) {
    match m
    case OnCtDir(dir) => p.ct.Tracked? && p.ct.dir == dir
    case OnCtState(states) => p.ct.Tracked? && p.ct.state in states
    case OnInvalid => p.ct.Invalid?
    case OnUntracked => p.ct.Untracked?
    case OnConnmark(authorized, generation) =>
      p.ct.Tracked? && p.ct.mark.authorized == authorized && p.ct.mark.generation == generation
    case OnDomain(domain) => p.mark.domain == domain
    case OnDomainNot(domain) => p.mark.domain != domain
    case OnIif(name) => p.iif == name
    case OnOif(name) => p.oif == name
    case OnSrc(net) => Contains(net, p.src)
    case OnDst(net) => Contains(net, p.dst)
    case OnSport(ports) => InRange(ports, p.sport)
    case OnDport(ports) => InRange(ports, p.dport)
    case OnOrigDst(net) => p.ct.Tracked? && Contains(net, p.ct.origDst)
    case OnOrigDport(ports) => p.ct.Tracked? && InRange(ports, p.ct.origDport)
    case OnFamily(family) => p.family == family
    case OnL4(l4) => p.l4 == l4
    case OnL4Not(l4) => p.l4 != l4
    case OnFlags(mask, value) => Masked(p.flags, mask) == value
    case OnIcmp(icmpType, icmpCode) => p.icmpType == icmpType && p.icmpCode == icmpCode
    case OnDhcp => p.dhcpBootstrap
    case OnControlPlane => p.controlPlane
    case OnToken => p.token
  }

  predicate HoldAll(sel: seq<Match>, p: Packet) { forall m :: m in sel ==> Holds(m, p) }

  /** `NftConnmark` reads the connection mark before writing it, so without a conntrack record the
      rule breaks; `XtConnmark` does nothing then and the rule goes on. */
  datatype Effect =
    | SetDomain(domain: Domain)
    | NftConnmark(authorized: bool, generation: nat)
    | XtConnmark(authorized: bool, generation: nat)

  datatype Target =
    | Continue
    | Pass        // nftables accept; xtables RETURN to the built-in chain
    | Deny
    | Refuse(reset: bool)
    | Enqueue(queue: nat)
    | GoTo(chain: AppChain)

  datatype AppChain = AppTcp | AppPacket

  datatype FwRule = FwRule(sel: seq<Match>, effects: seq<Effect>, target: Target)

  const ENFORCE_QUEUE: nat := 1337
  const LEARNING_QUEUE: nat := 1338
  const REPLY_QUEUE: nat := 1339

  predicate Applies(r: FwRule, p: Packet) {
    HoldAll(r.sel, p) && forall e :: e in r.effects && e.NftConnmark? ==> p.ct.Tracked?
  }

  function SetConnmark(p: Packet, authorized: bool, generation: nat): Packet {
    if p.ct.Tracked? then
      p.(ct := p.ct.(mark := Connmark(p.ct.mark.foreign, authorized, generation)))
    else p
  }

  function Affect(e: Effect, p: Packet): Packet {
    match e
    case SetDomain(domain) => p.(mark := p.mark.(domain := domain))
    case NftConnmark(authorized, generation) => SetConnmark(p, authorized, generation)
    case XtConnmark(authorized, generation) => SetConnmark(p, authorized, generation)
  }

  function AffectAll(effects: seq<Effect>, p: Packet): Packet {
    if effects == [] then p else AffectAll(effects[1..], Affect(effects[0], p))
  }

  // ---------------------------------------------------------------- one chain

  datatype Step = Fell(packet: Packet) | Stopped(target: Target, packet: Packet)

  function Traverse(rules: seq<FwRule>, p: Packet): Step {
    if rules == [] then Fell(p)
    else if !Applies(rules[0], p) then Traverse(rules[1..], p)
    else
      var q := AffectAll(rules[0].effects, p);
      if rules[0].target.Continue? then Traverse(rules[1..], q) else Stopped(rules[0].target, q)
  }

  lemma {:induction false} TraverseConcat(a: seq<FwRule>, b: seq<FwRule>, p: Packet)
    ensures Traverse(a + b, p) ==
            match Traverse(a, p) case Fell(q) => Traverse(b, q) case Stopped(t, q) => Stopped(t, q)
  {
    if a == [] {
      assert a + b == b;
    } else {
      assert (a + b)[1..] == a[1..] + b;
      TraverseConcat(a[1..], b, if Applies(a[0], p) then AffectAll(a[0].effects, p) else p);
    }
  }

  lemma TraverseOne(r: FwRule, p: Packet)
    ensures Traverse([r], p) ==
            if !Applies(r, p) then Fell(p)
            else if r.target.Continue? then Fell(AffectAll(r.effects, p))
            else Stopped(r.target, AffectAll(r.effects, p))
  {
  }

  /** A block of rules that all do the same thing acts as one rule with a disjunctive match. */
  lemma {:induction false} TraverseUniform(rules: seq<FwRule>, effects: seq<Effect>, target: Target, p: Packet)
    requires !target.Continue?
    requires forall r :: r in rules ==> r.effects == effects && r.target == target
    ensures Traverse(rules, p) ==
            if exists r :: r in rules && Applies(r, p) then Stopped(target, AffectAll(effects, p)) else Fell(p)
  {
    if rules != [] && !Applies(rules[0], p) {
      TraverseUniform(rules[1..], effects, target, p);
      assert forall r :: r in rules <==> r == rules[0] || r in rules[1..];
    }
  }

  // ---------------------------------------------------------------- userspace

  /** Userspace answers: `decide` for queue 1337, `observe` (false: dropped) for queue 1338. */
  datatype Oracle = Oracle(decide: Packet -> Action, observe: Packet -> bool)

  /** The protocols the attribution parser knows; everything else it denies. */
  predicate Attributable(p: Packet) {
    || p.l4.TCP?
    || p.l4.UDP?
    || (p.l4.ICMP? && p.family.IPv4?)
    || (p.l4.ICMPV6? && p.family.IPv6?)
  }

  predicate Parses(p: Packet) {
    && Attributable(p)
    && (p.l4.ICMP? ==> p.icmpType == 8 && p.icmpCode == 0)
    && (p.l4.ICMPV6? ==> p.icmpType == 128 && p.icmpCode == 0)
  }

  function QueueDecision(o: Oracle, p: Packet): Action {
    if p.mark.domain.Pending? && Parses(p) then o.decide(p) else Drop
  }

  datatype Verdict = Accepted | Dropped | Refused(reset: bool)

  datatype Outcome = Outcome(verdict: Verdict, packet: Packet)

  // ---------------------------------------------------------------- nftables hooks

  /** The base chains of one hook in priority order; falling off a chain applies its policy. */
  datatype BaseChain = BaseChain(policyAccept: bool, rules: seq<FwRule>)

  function RunHook(chains: seq<BaseChain>, p: Packet, o: Oracle): Outcome {
    if chains == [] then Outcome(Accepted, p)
    else
      match Traverse(chains[0].rules, p)
      case Fell(q) => if chains[0].policyAccept then RunHook(chains[1..], q, o) else Outcome(Dropped, q)
      case Stopped(target, q) =>
        match target
        case Pass => RunHook(chains[1..], q, o)
        case Refuse(reset) => Outcome(Refused(reset), q)
        case Enqueue(queue) =>
          if queue == LEARNING_QUEUE then
            if o.observe(q) then RunHook(chains[1..], q, o) else Outcome(Dropped, q)
          else
            (match QueueDecision(o, q)
             case Accept => RunHook(chains[1..], q, o)
             case Drop => Outcome(Dropped, q)
             case Reject => RunHook(chains[1..], q.(mark := q.mark.(domain := Rejected)), o))
        case Continue => Outcome(Dropped, q)
        case Deny => Outcome(Dropped, q)
        case GoTo(_) => Outcome(Dropped, q)
  }

  // ---------------------------------------------------------------- xtables hooks

  datatype XtProgram = XtProgram(
    sanitize: seq<FwRule>, observe: seq<FwRule>,   // mangle, dispatched first and last from OUTPUT
    input: seq<FwRule>, output: seq<FwRule>, forward: seq<FwRule>,
    appTcp: seq<FwRule>, appPacket: seq<FwRule>)

  function FilterPass(prog: XtProgram, p: Packet): Step {
    match Traverse(prog.output, p)
    case Stopped(GoTo(chain), q) => Traverse(if chain.AppTcp? then prog.appTcp else prog.appPacket, q)
    case step => step
  }

  /** filter/OUTPUT with at most `repeats` NF_REPEAT verdicts; `None` if they do not suffice. */
  function RunFilter(prog: XtProgram, p: Packet, o: Oracle, repeats: nat): Option<Outcome>
    decreases repeats
  {
    match FilterPass(prog, p)
    case Fell(q) => Some(Outcome(Accepted, q))
    case Stopped(target, q) =>
      match target
      case Pass => Some(Outcome(Accepted, q))
      case Refuse(reset) => Some(Outcome(Refused(reset), q))
      case Enqueue(_) =>
        var action := QueueDecision(o, q);
        if action.Drop? then Some(Outcome(Dropped, q))
        else if repeats == 0 then None
        else
          RunFilter(prog, q.(mark := q.mark.(domain := if action.Accept? then Handoff else Rejected)), o, repeats - 1)
      case Continue => Some(Outcome(Dropped, q))
      case Deny => Some(Outcome(Dropped, q))
      case GoTo(_) => Some(Outcome(Dropped, q))
  }

  /** mangle/OUTPUT (sanitizer, then observer), then filter/OUTPUT. */
  function RunXtOutput(prog: XtProgram, p: Packet, o: Oracle, repeats: nat): Option<Outcome> {
    var q := Traverse(prog.sanitize, p).packet;
    match Traverse(prog.observe, q)
    case Stopped(Enqueue(_), r) => if o.observe(r) then RunFilter(prog, r, o, repeats) else Some(Outcome(Dropped, r))
    case step => RunFilter(prog, step.packet, o, repeats)
  }
}
