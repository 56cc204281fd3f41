/** The policy vocabulary shared by the compilers and the state machine:
    rules, application selectors, snapshots and their validity. */
module Model {

  datatype Option<+T> = None | Some(value: T)

  datatype Result<+T, +E> = Ok(value: T) | Err(error: E)

  datatype Mode = BlockAll | Learning | Enforcing
  datatype Strategy = Strict | Fast
  datatype Direction = Inbound | Outbound
  datatype Protocol = Any | Tcp | Udp | Icmp | IcmpV6
  datatype Origin = Manual | Learned | Template
  datatype Action = Accept | Drop | Reject

  datatype Family = IPv4 | IPv6
  datatype Address = Address(family: Family, bits: nat)
  datatype Network = Network(family: Family, base: nat, prefix: nat)
  datatype PortRange = PortRange(start: nat, end: nat)

  function Width(f: Family): nat { if f.IPv4? then 32 else 128 }

  function Pow2(n: nat): (r: nat)
    ensures r > 0
  {
    if n == 0 then 1 else 2 * Pow2(n - 1)
  }

  predicate Contains(net: Network, a: Address) {
    && net.family == a.family
    && net.prefix <= Width(net.family)
    && a.bits / Pow2(Width(net.family) - net.prefix) == net.base / Pow2(Width(net.family) - net.prefix)
  }

  /** The single-address network a learned endpoint is stored under. */
  function HostNetwork(a: Address): Network { Network(a.family, a.bits, Width(a.family)) }

  predicate InRange(range: PortRange, port: nat) { range.start <= port <= range.end }

  // ---------------------------------------------------------------- applications

  datatype FileId = FileId(device: nat, inode: nat, size: nat, ctimeSeconds: int, ctimeNanoseconds: int)

  datatype CommandLine = ExactLine(arguments: seq<string>) | PrefixLine(arguments: seq<string>)

  datatype Selector = Selector(
    executable: Option<string>,
    file: Option<FileId>,
    commandLine: Option<CommandLine>,
    uid: Option<nat>,
    cgroup: Option<string>,
    redacted: bool)

  datatype Identity = Identity(
    executable: string, file: FileId, commandLine: seq<string>, uid: nat, cgroups: seq<string>)

  predicate LineMatches(line: CommandLine, actual: seq<string>) {
    match line
    case ExactLine(arguments) => arguments == actual
    case PrefixLine(arguments) => arguments <= actual
  }

  predicate SelectorMatches(sel: Selector, id: Identity) {
    && !sel.redacted
    && (sel.executable.Some? ==> sel.executable.value == id.executable)
    && (sel.file.Some? ==> sel.file.value == id.file)
    && (sel.commandLine.Some? ==> LineMatches(sel.commandLine.value, id.commandLine))
    && (sel.uid.Some? ==> sel.uid.value == id.uid)
    && (sel.cgroup.Some? ==> sel.cgroup.value in id.cgroups)
  }

  predicate FileIdValid(file: FileId) {
    file.inode != 0 && 0 <= file.ctimeNanoseconds < 1_000_000_000
  }

  function LineBytes(arguments: seq<string>): nat {
    if arguments == [] then 0 else |arguments[0]| + 1 + LineBytes(arguments[1..])
  }

  predicate LineValid(line: CommandLine) {
    1 <= |line.arguments| <= 64 && LineBytes(line.arguments) <= 8 * 1024
  }

  predicate SelectorValid(sel: Selector) {
    if sel.redacted then
      sel == Selector(Some("/redacted"), None, None, None, None, true)
    else
      && sel.executable.Some?
      && (sel.file.Some? ==> FileIdValid(sel.file.value))
      && (sel.commandLine.Some? ==> LineValid(sel.commandLine.value))
  }

  // ---------------------------------------------------------------- rules

  datatype RuleSpec = RuleSpec(
    direction: Direction,
    action: Action,
    protocol: Protocol,
    peer: Option<Network>,
    port: Option<PortRange>,
    interface: Option<string>,
    application: Option<Selector>,
    origin: Origin,
    enabled: bool)

  datatype Rule = Rule(id: nat, spec: RuleSpec, createdAt: nat, updatedAt: nat)

  predicate SpecValid(spec: RuleSpec) {
    && (spec.direction.Inbound? ==> spec.action.Accept?)
    && !(spec.protocol.Any? && spec.peer.None? && spec.port.None? && spec.interface.None? && spec.application.None?)
    && (spec.port.Some? ==> spec.protocol.Tcp? || spec.protocol.Udp?)
    && !(spec.protocol.Icmp? && spec.peer.Some? && spec.peer.value.family.IPv6?)
    && !(spec.protocol.IcmpV6? && spec.peer.Some? && spec.peer.value.family.IPv4?)
    && (spec.direction.Inbound? ==> spec.application.None?)
    && (spec.application.Some? ==> SelectorValid(spec.application.value))
  }

  /** The one shape an application rule without a pinned executable may have. */
  predicate UnpinnedTemplate(spec: RuleSpec) {
    && spec.application.Some?
    && spec.origin.Template? && !spec.enabled && spec.action.Accept? && spec.direction.Outbound?
    && spec.protocol.Any? && spec.peer.None? && spec.port.None? && spec.interface.None?
    && var sel := spec.application.value;
       sel.executable.Some? && sel.file.None? && sel.commandLine.None? && sel.uid.None? && !sel.redacted
  }

  predicate Redacted(spec: RuleSpec) { spec.application.Some? && spec.application.value.redacted }

  predicate Unpinned(spec: RuleSpec) {
    spec.application.Some? && spec.application.value.file.None? && !UnpinnedTemplate(spec)
  }

  predicate RuleValid(r: Rule) {
    r.id != 0 && r.createdAt <= r.updatedAt && SpecValid(r.spec)
  }

  predicate Storable(r: Rule) { RuleValid(r) && !Redacted(r.spec) && !Unpinned(r.spec) }

  // ---------------------------------------------------------------- snapshots

  const MAX_RULES: nat := 10_000
  const MAX_AUTOMATIC_RULES: nat := 7_500
  const MAX_GENERATION: nat := 0x3fff_ffff

  datatype Snapshot = Snapshot(revision: nat, generation: nat, mode: Mode, rules: seq<Rule>)

  predicate DistinctIds(rules: seq<Rule>) {
    forall i, j :: 0 <= i < j < |rules| ==> rules[i].id != rules[j].id
  }

  predicate SnapshotValid(s: Snapshot) {
    && |s.rules| <= MAX_RULES
    && 1 <= s.generation <= MAX_GENERATION
    && (forall r :: r in s.rules ==> Storable(r))
    && DistinctIds(s.rules)
  }

  datatype Interception = NoInterception | TcpInitial | PerPacket

  predicate ApplicationRule(r: Rule) {
    r.spec.enabled && r.spec.direction.Outbound? && r.spec.application.Some?
  }

  /** Which attribution path the policy needs: nothing, TCP flows only, or every packet. */
  function InterceptionOf(mode: Mode, rules: seq<Rule>): (i: Interception)
    ensures mode.BlockAll? ==> i.NoInterception?
    ensures mode.Learning? ==> i.PerPacket?
    ensures mode.Enforcing? ==> (i.NoInterception? <==> forall r :: r in rules ==> !ApplicationRule(r))
    ensures mode.Enforcing? ==> (i.PerPacket? <==> exists r :: r in rules && ApplicationRule(r) && !r.spec.protocol.Tcp?)
  {
    match mode
    case BlockAll => NoInterception
    case Learning => PerPacket
    case Enforcing =>
      if exists r :: r in rules && ApplicationRule(r) && !r.spec.protocol.Tcp? then PerPacket
      else if exists r :: r in rules && ApplicationRule(r) then TcpInitial
      else NoInterception
  }

  /** The source's scan: stop at the first rule that needs per-packet attribution. */
  method ClassifyInterception(mode: Mode, rules: seq<Rule>) returns (i: Interception)
    ensures i == InterceptionOf(mode, rules)
  {
    match mode {
      case BlockAll => return NoInterception;
      case Learning => return PerPacket;
      case Enforcing =>
    }
    i := NoInterception;
    for k := 0 to |rules|
      invariant i.NoInterception? || i.TcpInitial?
      invariant i.TcpInitial? <==> exists r :: r in rules[..k] && ApplicationRule(r)
      invariant forall r :: r in rules[..k] && ApplicationRule(r) ==> r.spec.protocol.Tcp?
    {
      assert rules[..k + 1] == rules[..k] + [rules[k]];
      if ApplicationRule(rules[k]) {
        if rules[k].spec.protocol.Tcp? {
          i := TcpInitial;
        } else {
          return PerPacket;
        }
      }
    }
    assert rules[..|rules|] == rules;
  }
}
