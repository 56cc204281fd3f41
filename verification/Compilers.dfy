/** The two policy compilers. Chains are built stage by stage, in the order the rules are appended. */
module Compilers {
  import opened Basics
  import opened Model
  import opened Marks
  import opened Netfilter
  import opened RuleOrder
  import opened RuleBlocks

  // ---------------------------------------------------------------- shared pieces

  function Attribution(s: Snapshot): Interception { InterceptionOf(s.mode, s.rules) }

  predicate HasOutboundReject(s: Snapshot) {
    exists r :: r in s.rules && r.spec.enabled && r.spec.direction.Outbound? && r.spec.action.Reject?
  }

  const EVERYTHING: seq<Match> := []

  function ReplyProtocols(i: Interception): seq<Protocol> {
    match i
    case NoInterception => []
    case TcpInitial => [Tcp]
    case PerPacket => [Tcp, Udp, Icmp, IcmpV6]
  }

  function FamilyProtocols(ps: seq<Protocol>, f: Family): seq<Protocol> {
    if ps == [] then []
    else if ps[0] == (if f.IPv4? then IcmpV6 else Icmp) then FamilyProtocols(ps[1..], f)
    else [ps[0]] + FamilyProtocols(ps[1..], f)
  }

  const NON_TCP: seq<Protocol> := [Udp, Icmp, IcmpV6]

  /** One rule per protocol, with the same other matches. */
  function PerProtocol(nft: bool, ps: seq<Protocol>, before: seq<Match>, after: seq<Match>,
                       effects: seq<Effect>, target: Target): seq<FwRule>
  {
    if ps == [] then []
    else
      [FwRule(before + (if nft then NftProtocol(ps[0]) else XtProtocol(ps[0])) + after, effects, target)]
      + PerProtocol(nft, ps[1..], before, after, effects, target)
  }

  function NetworkRules(s: Snapshot, dir: Direction, actions: set<Action>, f: Option<Family>): seq<Rule> {
    Chosen(Pick(dir, Some(false), actions, f), s.rules)
  }

  function ApplicationRules(s: Snapshot, actions: set<Action>, f: Option<Family>): seq<Rule> {
    Chosen(Pick(Outbound, Some(true), actions, f), s.rules)
  }

  /** Application actions that must reach userspace: all when enforcing, only denies when learning. */
  function QueuedActions(mode: Mode): set<Action> {
    if mode.Enforcing? then {Drop, Reject, Accept} else {Drop, Reject}
  }

  function RejectedShape(f: Family): seq<Match> {
    if f.IPv4? then [OnL4(ICMP), OnIcmp(3, 3)] else [OnL4(ICMPV6), OnIcmp(1, 4)]
  }

  const RST_ONLY := NO_FLAGS.(rst := true)
  const SYN_ONLY := NO_FLAGS.(syn := true)
  const SYN_ACK := Flags(false, true, false, true)
  const ALL_FLAGS := Flags(true, true, true, true)
  const FIN_RST := Flags(true, false, true, false)
  const RESET_SHAPE: seq<Match> := [OnL4(TCP), OnFlags(RST_ONLY, RST_ONLY)]
  const RELATED_REPLY: seq<Match> := [OnCtState({Related}), OnCtDir(Reply)]

  // The two learning samples of TCP traffic, and everything else.
  function ObservedShapes(synMask: Flags): seq<seq<Match>> {
    [[OnCtDir(Original), OnL4(TCP), OnCtState({New}), OnFlags(synMask, SYN_ONLY)],
     [OnCtDir(Original), OnL4(TCP), OnCtState({Established}), OnFlags(FIN_RST, NO_FLAGS), OnToken],
     [OnCtDir(Original), OnL4Not(TCP)]]
  }

  function ObserveQueue(synMask: Flags): seq<FwRule> {
    var shapes := ObservedShapes(synMask);
    [FwRule(shapes[0], [], Enqueue(LEARNING_QUEUE)), FwRule(shapes[1], [], Enqueue(LEARNING_QUEUE)),
     FwRule(shapes[2], [], Enqueue(LEARNING_QUEUE))]
  }

  const SANITIZE_RULE := FwRule([OnDomainNot(Clear)], [SetDomain(Clear)], Continue)

  /** Inbound replies worth deferring: the network envelope of each application accept,
      per non-TCP protocol and without the interface. */
  function CandidatesFor(r: Rule, ps: seq<Protocol>): seq<Rule> {
    if ps == [] then []
    else if (r.spec.protocol.Any? || r.spec.protocol == ps[0])
            && !(ps[0].Icmp? && r.spec.peer.Some? && r.spec.peer.value.family.IPv6?)
            && !(ps[0].IcmpV6? && r.spec.peer.Some? && r.spec.peer.value.family.IPv4?)
    then [r.(spec := r.spec.(protocol := ps[0], interface := None))] + CandidatesFor(r, ps[1..])
    else CandidatesFor(r, ps[1..])
  }

  function ReplyCandidates(rules: seq<Rule>): seq<Rule> {
    if rules == [] then [] else CandidatesFor(rules[0], NON_TCP) + ReplyCandidates(rules[1..])
  }

  // ---------------------------------------------------------------- nftables

  datatype NftProgram = NftProgram(
    input: seq<FwRule>, sanitize: seq<FwRule>, output: seq<FwRule>, authorize: seq<FwRule>, forward: seq<FwRule>)

  const DROP_REST := [FwRule(EVERYTHING, [], Deny)]

  function NftVerdicts(s: Snapshot, dir: Direction, reverse: bool): Emitter {
    NftVerdict(dir, reverse, !s.mode.Learning?, s.generation)
  }

  function NftRejectReplies(s: Snapshot, dir: Direction): seq<FwRule> {
    var effects := if dir.Outbound? then [SetDomain(Handoff)] else [];
    var stamp := [OnConnmark(false, s.generation)];
    if !HasOutboundReject(s) then []
    else
      [FwRule(RELATED_REPLY + RESET_SHAPE + stamp, effects, Pass),
       FwRule(RELATED_REPLY + [OnFamily(IPv4)] + RejectedShape(IPv4) + stamp, effects, Pass),
       FwRule(RELATED_REPLY + [OnFamily(IPv6)] + RejectedShape(IPv6) + stamp, effects, Pass)]
  }

  function NftLoopback(s: Snapshot, dir: Direction): seq<FwRule> {
    if !s.mode.Enforcing? then []
    else
      PerProtocol(true, ReplyProtocols(Attribution(s)),
                  if dir.Inbound? then [OnIif("lo"), OnCtDir(Original), OnCtState({New, Established})]
                  else [OnOif("lo"), OnCtDir(Reply), OnCtState({Established})],
                  [OnConnmark(true, s.generation)],
                  if dir.Outbound? then [SetDomain(Handoff)] else [], Pass)
  }

  function NftFlows(s: Snapshot, dir: Direction): seq<FwRule> {
    var i := Attribution(s);
    if i.NoInterception? then []
    else
      PerProtocol(true, if dir.Inbound? then ReplyProtocols(i) else [Tcp],
                  [OnCtDir(if dir.Inbound? then Reply else Original), OnCtState({Established})],
                  [OnConnmark(true, s.generation)],
                  if dir.Outbound? then [SetDomain(Handoff)] else [], Pass)
  }

  function NftResets(s: Snapshot): seq<FwRule> {
    if Attribution(s).PerPacket? then
      PerProtocol(true, NON_TCP, [OnCtDir(Original)], [], [NftConnmark(false, 0)], Continue)
    else []
  }

  function NftOutput(s: Snapshot): seq<FwRule> {
    if s.mode.BlockAll? then DROP_REST else NftRejectReplies(s, Outbound) + NftOutput1(s)
  }

  function NftOutput1(s: Snapshot): seq<FwRule> {
    (if s.mode.Enforcing? then [FwRule([OnInvalid], [], Deny)] else []) + NftOutput2(s)
  }

  function NftOutput2(s: Snapshot): seq<FwRule> {
    Section(NftVerdicts(s, Outbound, false), NetworkRules(s, Outbound, {Drop, Reject}, None)) + NftOutput3(s)
  }

  function NftOutput3(s: Snapshot): seq<FwRule> { NftLoopback(s, Outbound) + NftOutput4(s) }

  function NftOutput4(s: Snapshot): seq<FwRule> { NftFlows(s, Outbound) + NftOutput5(s) }

  function NftOutput5(s: Snapshot): seq<FwRule> { NftResets(s) + NftOutput6(s) }

  function NftOutput6(s: Snapshot): seq<FwRule> {
    Section(NftVerdicts(s, Outbound, true), NetworkRules(s, Inbound, {Accept}, None)) + NftOutput7(s)
  }

  function NftOutput7(s: Snapshot): seq<FwRule> {
    Section(NftQueue, ApplicationRules(s, QueuedActions(s.mode), None)) + NftOutput8(s)
  }

  function NftOutput8(s: Snapshot): seq<FwRule> {
    Section(NftGuard, ApplicationRules(s, QueuedActions(s.mode), None)) + NftOutput9(s)
  }

  function NftOutput9(s: Snapshot): seq<FwRule> {
    if s.mode.Enforcing? then
      Section(NftVerdicts(s, Outbound, false), NetworkRules(s, Outbound, {Accept}, None)) + DROP_REST
    else ObserveQueue(SYN_ACK) + [FwRule(EVERYTHING, [], Pass)] + DROP_REST
  }

  function NftAuthorize(s: Snapshot): seq<FwRule> {
    var i := Attribution(s);
    (if i.NoInterception? then []
     else [FwRule([OnL4(TCP), OnDomain(Rejected)], [NftConnmark(false, s.generation)], Refuse(true)),
           FwRule([OnDomain(Rejected)], [NftConnmark(false, s.generation)], Refuse(false))])
    + PerProtocol(true, ReplyProtocols(i), [], [OnDomain(Pending)],
                  [NftConnmark(true, s.generation), SetDomain(Clear)], Pass)
    + ((if s.mode.BlockAll? then [] else [FwRule([OnDomain(Handoff)], [SetDomain(Clear)], Pass)])
       + ((if s.mode.Learning? then [FwRule(EVERYTHING, [], Pass)] else []) + DROP_REST))
  }

  const INPUT_HEAD := [FwRule([OnDhcp], [], Pass), FwRule([OnInvalid], [], Deny)]

  function NftInput(s: Snapshot): seq<FwRule> {
    if s.mode.BlockAll? then DROP_REST else NftRejectReplies(s, Inbound) + NftInput1(s)
  }

  function NftInput1(s: Snapshot): seq<FwRule> {
    INPUT_HEAD + ([FwRule([OnFamily(IPv6), OnControlPlane], [], Pass)] + NftInput2(s))
  }

  function NftInput2(s: Snapshot): seq<FwRule> { LearningInput(s.mode) + NftInput3(s) }

  function NftInput3(s: Snapshot): seq<FwRule> { NftLoopback(s, Inbound) + NftInput4(s) }

  function NftInput4(s: Snapshot): seq<FwRule> { NftFlows(s, Inbound) + NftInput5(s) }

  function NftInput5(s: Snapshot): seq<FwRule> {
    Section(NftVerdicts(s, Inbound, false), NetworkRules(s, Inbound, {Accept}, None)) + NftInput6(s)
  }

  function NftInput6(s: Snapshot): seq<FwRule> {
    Section(NftVerdicts(s, Inbound, true), NetworkRules(s, Outbound, {Accept}, None)) + (NftReplyQueues(s) + DROP_REST)
  }

  function LearningInput(mode: Mode): seq<FwRule> {
    if mode.Learning? then
      [FwRule([OnIif("lo"), OnCtDir(Original)], [], Pass),
       FwRule([OnCtDir(Reply), OnCtState({Established, Related})], [], Pass)]
    else []
  }

  function NftReplyQueues(s: Snapshot): seq<FwRule> {
    if s.mode.Enforcing? && Attribution(s).PerPacket? then
      Section(NftReplyQueue, ReplyCandidates(ApplicationRules(s, {Accept}, None)))
    else []
  }

  function Forward(mode: Mode): seq<FwRule> { [FwRule(EVERYTHING, [], if mode.BlockAll? then Deny else Pass)] }

  function NftCompile(s: Snapshot): Option<NftProgram> {
    if SnapshotValid(s) then
      Some(NftProgram(NftInput(s), [SANITIZE_RULE], NftOutput(s), NftAuthorize(s), Forward(s.mode)))
    else None
  }

  /** The OUTPUT hook: sanitize (priority -1), output (0), authorize (1). */
  function NftHook(prog: NftProgram): seq<BaseChain> {
    [BaseChain(true, prog.sanitize), BaseChain(false, prog.output), BaseChain(false, prog.authorize)]
  }

  // ---------------------------------------------------------------- xtables

  function XtVerdicts(s: Snapshot, dir: Direction, reverse: bool): Emitter { XtVerdict(dir, reverse, s.generation) }

  function XtRejectReplies(s: Snapshot, f: Family): seq<FwRule> {
    var stamp := [OnConnmark(false, s.generation)];
    if !HasOutboundReject(s) then []
    else [FwRule(RESET_SHAPE + RELATED_REPLY + stamp, [], Pass), FwRule(RejectedShape(f) + RELATED_REPLY + stamp, [], Pass)]
  }

  function XtLoopback(s: Snapshot, f: Family, dir: Direction): seq<FwRule> {
    if !s.mode.Enforcing? then []
    else
      PerProtocol(false, FamilyProtocols(ReplyProtocols(Attribution(s)), f),
                  [if dir.Inbound? then OnIif("lo") else OnOif("lo")],
                  (if dir.Inbound? then [OnCtState({New, Established}), OnCtDir(Original)]
                   else [OnCtState({Established}), OnCtDir(Reply)]) + [OnConnmark(true, s.generation)], [], Pass)
  }

  function XtFlows(s: Snapshot, f: Family, dir: Direction): seq<FwRule> {
    var i := Attribution(s);
    if i.NoInterception? then []
    else
      PerProtocol(false, if dir.Inbound? then FamilyProtocols(ReplyProtocols(i), f) else [Tcp], [],
                  [OnCtState({Established}), OnCtDir(if dir.Inbound? then Reply else Original),
                   OnConnmark(true, s.generation)], [], Pass)
  }

  function XtResets(s: Snapshot, f: Family): seq<FwRule> {
    if Attribution(s).PerPacket? then
      PerProtocol(false, FamilyProtocols(NON_TCP, f), [], [OnCtDir(Original)], [XtConnmark(false, 0)], Continue)
    else []
  }

  function XtRefusals(s: Snapshot): seq<FwRule> {
    [FwRule([OnDomain(Rejected)], [XtConnmark(false, s.generation)], Continue),
     FwRule([OnL4(TCP), OnDomain(Rejected)], [], Refuse(true)),
     FwRule([OnDomain(Rejected)], [], Refuse(false))]
  }

  function PacketHandoffs(s: Snapshot, f: Family): seq<FwRule> {
    if Attribution(s).PerPacket? then
      PerProtocol(false, FamilyProtocols(NON_TCP, f), [], [OnDomain(Handoff)], [], GoTo(AppPacket))
      + (if s.mode.Learning? then [FwRule([OnDomain(Handoff)], [], GoTo(AppPacket))] else [])
    else []
  }

  /** Consumes the mark a queue verdict carries on the repeated traversal. */
  function XtHandoffs(s: Snapshot, f: Family): seq<FwRule> {
    if Attribution(s).NoInterception? then []
    else XtRefusals(s) + ([FwRule([OnL4(TCP), OnDomain(Handoff)], [], GoTo(AppTcp))] + PacketHandoffs(s, f))
  }

  function XtOutput(s: Snapshot, f: Family): seq<FwRule> {
    if s.mode.BlockAll? then DROP_REST
    else (if s.mode.Enforcing? then [FwRule([OnInvalid], [], Deny)] else []) + XtOutput1(s, f)
  }

  function XtOutput1(s: Snapshot, f: Family): seq<FwRule> { XtRejectReplies(s, f) + XtOutput2(s, f) }

  function XtOutput2(s: Snapshot, f: Family): seq<FwRule> {
    Section(XtVerdicts(s, Outbound, false), NetworkRules(s, Outbound, {Drop}, Some(f))) + XtOutput3(s, f)
  }

  function XtOutput3(s: Snapshot, f: Family): seq<FwRule> {
    Section(XtVerdicts(s, Outbound, false), NetworkRules(s, Outbound, {Reject}, Some(f))) + XtOutput4(s, f)
  }

  function XtOutput4(s: Snapshot, f: Family): seq<FwRule> { XtHandoffs(s, f) + XtOutput5(s, f) }

  function XtOutput5(s: Snapshot, f: Family): seq<FwRule> { XtLoopback(s, f, Outbound) + XtOutput6(s, f) }

  function XtOutput6(s: Snapshot, f: Family): seq<FwRule> { XtFlows(s, f, Outbound) + XtOutput7(s, f) }

  function XtOutput7(s: Snapshot, f: Family): seq<FwRule> { XtResets(s, f) + XtOutput8(s, f) }

  function XtOutput8(s: Snapshot, f: Family): seq<FwRule> {
    Section(XtVerdicts(s, Outbound, true), NetworkRules(s, Inbound, {Accept}, Some(f))) + XtOutput9(s, f)
  }

  function XtOutput9(s: Snapshot, f: Family): seq<FwRule> {
    Section(XtQueue, ApplicationRules(s, QueuedActions(s.mode), Some(f))) + XtOutput10(s, f)
  }

  function XtOutput10(s: Snapshot, f: Family): seq<FwRule> {
    Section(XtGuard, ApplicationRules(s, QueuedActions(s.mode), Some(f))) + XtOutput11(s, f)
  }

  function XtOutput11(s: Snapshot, f: Family): seq<FwRule> {
    Section(XtVerdicts(s, Outbound, false), NetworkRules(s, Outbound, {Accept}, Some(f)))
    + ((if s.mode.Learning? then [FwRule(EVERYTHING, [], Pass)] else []) + DROP_REST)
  }

  function XtAppChain(s: Snapshot, active: bool): seq<FwRule> {
    (if active then
       [FwRule(EVERYTHING, [XtConnmark(true, s.generation)], Continue),
        FwRule(EVERYTHING, [SetDomain(Clear)], Continue),
        FwRule(EVERYTHING, [], Pass)]
     else [])
    + DROP_REST
  }

  function XtObserve(s: Snapshot, f: Family): seq<FwRule> {
    [SANITIZE_RULE]
    + ((if s.mode.Learning? then
          Section(XtObserver, XtObserved(s, f)) + ObserveQueue(ALL_FLAGS)
        else [])
       + [FwRule(EVERYTHING, [], Pass)])
  }

  /** Every enabled outbound deny, network and application rules alike. */
  function XtObserved(s: Snapshot, f: Family): seq<Rule> {
    Chosen(Pick(Outbound, None, {Drop, Reject}, Some(f)), s.rules)
  }

  function XtReplyQueues(s: Snapshot, f: Family): seq<FwRule> {
    if s.mode.Enforcing? && Attribution(s).PerPacket? then
      Section(XtReplyQueue, Supporting(ReplyCandidates(ApplicationRules(s, {Accept}, None)), f))
    else []
  }

  function Supporting(rules: seq<Rule>, f: Family): seq<Rule> {
    if rules == [] then []
    else if SupportsFamily(rules[0].spec, f) then [rules[0]] + Supporting(rules[1..], f)
    else Supporting(rules[1..], f)
  }

  function XtInput(s: Snapshot, f: Family): seq<FwRule> {
    if s.mode.BlockAll? then DROP_REST
    else
      INPUT_HEAD + ((if f.IPv6? then [FwRule([OnControlPlane], [], Pass)] else []) + XtInput1(s, f))
  }

  function XtInput1(s: Snapshot, f: Family): seq<FwRule> { XtRejectReplies(s, f) + XtInput2(s, f) }

  function XtInput2(s: Snapshot, f: Family): seq<FwRule> { LearningInput(s.mode) + XtInput3(s, f) }

  function XtInput3(s: Snapshot, f: Family): seq<FwRule> { XtLoopback(s, f, Inbound) + XtInput4(s, f) }

  function XtInput4(s: Snapshot, f: Family): seq<FwRule> { XtFlows(s, f, Inbound) + XtInput5(s, f) }

  function XtInput5(s: Snapshot, f: Family): seq<FwRule> {
    Section(XtVerdicts(s, Inbound, false), NetworkRules(s, Inbound, {Accept}, Some(f))) + XtInput6(s, f)
  }

  function XtInput6(s: Snapshot, f: Family): seq<FwRule> {
    Section(XtVerdicts(s, Inbound, true), NetworkRules(s, Outbound, {Accept}, Some(f)))
    + (XtReplyQueues(s, f) + DROP_REST)
  }

  function XtFamily(s: Snapshot, f: Family): XtProgram {
    var i := Attribution(s);
    XtProgram([SANITIZE_RULE] + [FwRule(EVERYTHING, [], Pass)], XtObserve(s, f),
              XtInput(s, f), XtOutput(s, f), Forward(s.mode),
              XtAppChain(s, !i.NoInterception?), XtAppChain(s, i.PerPacket?))
  }

  /** One program per family. */
  function XtCompile(s: Snapshot): Option<(XtProgram, XtProgram)> {
    if SnapshotValid(s) then Some((XtFamily(s, IPv4), XtFamily(s, IPv6))) else None
  }

  function ForFamily(progs: (XtProgram, XtProgram), f: Family): XtProgram { if f.IPv4? then progs.0 else progs.1 }

  // ---------------------------------------------------------------- the append code

  lemma Glue(a: seq<FwRule>, b: seq<FwRule>, c: seq<FwRule>, d: seq<FwRule>)
    ensures a + b + c + d == a + (b + (c + d))
  {
  }

  /** Builds the nftables output chain the way the compiler does, one append at a time. */
  method AppendNftOutput(s: Snapshot) returns (script: seq<FwRule>)
    ensures script == NftOutput(s)
  {
    if s.mode.BlockAll? {
      return DROP_REST;
    }
    var invalid := if s.mode.Enforcing? then [FwRule([OnInvalid], [], Deny)] else [];
    script := AppendNftDenies(NftRejectReplies(s, Outbound) + invalid, s);
    Regroup(NftRejectReplies(s, Outbound), invalid, NftOutput2(s));
  }

  method AppendNftDenies(script: seq<FwRule>, s: Snapshot) returns (out: seq<FwRule>)
    ensures out == script + NftOutput2(s)
  {
    out := AppendEach(script, NftVerdicts(s, Outbound, false), NetworkRules(s, Outbound, {Drop, Reject}, None));
    out := out + NftLoopback(s, Outbound);
    out := AppendNftFlows(out, s);
    Glue(script, Section(NftVerdicts(s, Outbound, false), NetworkRules(s, Outbound, {Drop, Reject}, None)),
         NftLoopback(s, Outbound), NftOutput4(s));
  }

  method AppendNftFlows(script: seq<FwRule>, s: Snapshot) returns (out: seq<FwRule>)
    ensures out == script + NftOutput4(s)
  {
    out := script + NftFlows(s, Outbound) + NftResets(s);
    out := AppendNftReplies(out, s);
    Glue(script, NftFlows(s, Outbound), NftResets(s), NftOutput6(s));
  }

  method AppendNftReplies(script: seq<FwRule>, s: Snapshot) returns (out: seq<FwRule>)
    ensures out == script + NftOutput6(s)
  {
    out := AppendEach(script, NftVerdicts(s, Outbound, true), NetworkRules(s, Inbound, {Accept}, None));
    out := AppendNftApplications(out, s);
    Regroup(script, Section(NftVerdicts(s, Outbound, true), NetworkRules(s, Inbound, {Accept}, None)), NftOutput7(s));
  }

  method AppendNftApplications(script: seq<FwRule>, s: Snapshot) returns (out: seq<FwRule>)
    ensures out == script + NftOutput7(s)
  {
    out := AppendEach(script, NftQueue, ApplicationRules(s, QueuedActions(s.mode), None));
    out := AppendEach(out, NftGuard, ApplicationRules(s, QueuedActions(s.mode), None));
    out := AppendNftDefaults(out, s);
    Glue(script, Section(NftQueue, ApplicationRules(s, QueuedActions(s.mode), None)),
         Section(NftGuard, ApplicationRules(s, QueuedActions(s.mode), None)), NftOutput9(s));
  }

  method AppendNftDefaults(script: seq<FwRule>, s: Snapshot) returns (out: seq<FwRule>)
    ensures out == script + NftOutput9(s)
  {
    if s.mode.Enforcing? {
      out := AppendEach(script, NftVerdicts(s, Outbound, false), NetworkRules(s, Outbound, {Accept}, None));
      out := out + DROP_REST;
    } else {
      out := script + (ObserveQueue(SYN_ACK) + [FwRule(EVERYTHING, [], Pass)] + DROP_REST);
    }
  }

  /** Builds one family's xtables output chain, one append at a time. */
  method AppendXtOutput(s: Snapshot, f: Family) returns (script: seq<FwRule>)
    ensures script == XtOutput(s, f)
  {
    if s.mode.BlockAll? {
      return DROP_REST;
    }
    var invalid := if s.mode.Enforcing? then [FwRule([OnInvalid], [], Deny)] else [];
    script := AppendXtRejectReplies(invalid, s, f);
  }

  method AppendXtRejectReplies(script: seq<FwRule>, s: Snapshot, f: Family) returns (out: seq<FwRule>)
    ensures out == script + XtOutput1(s, f)
  {
    out := AppendXtDenies(script + XtRejectReplies(s, f), s, f);
    Regroup(script, XtRejectReplies(s, f), XtOutput2(s, f));
  }

  method AppendXtDenies(script: seq<FwRule>, s: Snapshot, f: Family) returns (out: seq<FwRule>)
    ensures out == script + XtOutput2(s, f)
  {
    out := AppendEach(script, XtVerdicts(s, Outbound, false), NetworkRules(s, Outbound, {Drop}, Some(f)));
    out := AppendEach(out, XtVerdicts(s, Outbound, false), NetworkRules(s, Outbound, {Reject}, Some(f)));
    out := AppendXtHandoffs(out, s, f);
    Glue(script, Section(XtVerdicts(s, Outbound, false), NetworkRules(s, Outbound, {Drop}, Some(f))),
         Section(XtVerdicts(s, Outbound, false), NetworkRules(s, Outbound, {Reject}, Some(f))), XtOutput4(s, f));
  }

  method AppendXtHandoffs(script: seq<FwRule>, s: Snapshot, f: Family) returns (out: seq<FwRule>)
    ensures out == script + XtOutput4(s, f)
  {
    out := script + XtHandoffs(s, f) + XtLoopback(s, f, Outbound);
    out := AppendXtFlows(out, s, f);
    Glue(script, XtHandoffs(s, f), XtLoopback(s, f, Outbound), XtOutput6(s, f));
  }

  method AppendXtFlows(script: seq<FwRule>, s: Snapshot, f: Family) returns (out: seq<FwRule>)
    ensures out == script + XtOutput6(s, f)
  {
    out := script + XtFlows(s, f, Outbound) + XtResets(s, f);
    out := AppendXtReplies(out, s, f);
    Glue(script, XtFlows(s, f, Outbound), XtResets(s, f), XtOutput8(s, f));
  }

  method AppendXtReplies(script: seq<FwRule>, s: Snapshot, f: Family) returns (out: seq<FwRule>)
    ensures out == script + XtOutput8(s, f)
  {
    out := AppendEach(script, XtVerdicts(s, Outbound, true), NetworkRules(s, Inbound, {Accept}, Some(f)));
    out := AppendXtApplications(out, s, f);
    Regroup(script, Section(XtVerdicts(s, Outbound, true), NetworkRules(s, Inbound, {Accept}, Some(f))), XtOutput9(s, f));
  }

  method AppendXtApplications(script: seq<FwRule>, s: Snapshot, f: Family) returns (out: seq<FwRule>)
    ensures out == script + XtOutput9(s, f)
  {
    out := AppendEach(script, XtQueue, ApplicationRules(s, QueuedActions(s.mode), Some(f)));
    out := AppendEach(out, XtGuard, ApplicationRules(s, QueuedActions(s.mode), Some(f)));
    out := AppendXtDefaults(out, s, f);
    Glue(script, Section(XtQueue, ApplicationRules(s, QueuedActions(s.mode), Some(f))),
         Section(XtGuard, ApplicationRules(s, QueuedActions(s.mode), Some(f))), XtOutput11(s, f));
  }

  method AppendXtDefaults(script: seq<FwRule>, s: Snapshot, f: Family) returns (out: seq<FwRule>)
    ensures out == script + XtOutput11(s, f)
  {
    out := AppendEach(script, XtVerdicts(s, Outbound, false), NetworkRules(s, Outbound, {Accept}, Some(f)));
    out := out + ((if s.mode.Learning? then [FwRule(EVERYTHING, [], Pass)] else []) + DROP_REST);
  }
}
