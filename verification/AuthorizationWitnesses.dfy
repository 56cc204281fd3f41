/** Concrete runs at the edges of the authorization theorems. */
module AuthorizationWitnesses {
  import opened Model
  import opened Marks
  import opened Netfilter
  import opened RuleBlocks
  import opened Outbound
  import opened PolicyProperties
  import opened PolicyState
  import opened Decisions
  import opened PolicyRuns
  import opened Rerouting
  import opened Authorization

  const BROWSER := FileId(1, 10, 1, 0, 0)
  const MAILER := FileId(1, 20, 1, 0, 0)

  function Accepting(id: nat, interface: Option<string>, application: Option<Selector>): Rule {
    Rule(id, RuleSpec(Outbound, Accept, Tcp, None, None, interface, application, Manual, true), 0, 0)
  }

  function Pinned(path: string, file: FileId): Option<Selector> {
    Some(Selector(Some(path), Some(file), None, None, None, false))
  }

  function Process(path: string, file: FileId): Identity { Identity(path, file, [], 1000, []) }

  /** An opening packet of connection 7, and the later packets of the same connection. */
  function Leaving(oif: string, state: CtState, mark: Connmark): Packet {
    Packet(IPv4, TCP, "", oif, Address(IPv4, 1), Address(IPv4, 2), 5000, 443, NO_FLAGS, 0, 0, false, false, false,
           Mark(Clear, 0), Tracked(state, Original, Address(IPv4, 2), 443, mark))
  }

  const UNMARKED := Connmark(false, false, 0)
  const STAMPED := Connmark(false, true, 1)

  function Opening(st: State): World { World(st, map[7 := Flow(TupleOf(Leaving("eth0", New, UNMARKED)), UNMARKED, None)]) }

  function Answering(id: Identity): Userspace { Userspace(p => (1000, Some(id)), p => 0, p => true) }

  /** A policy of the first generation with these rules only, all of them accepting. */
  predicate Simple(st: State) {
    && StateValid(st) && st.generation == 1 && st.mode.Enforcing? && st.strategy.Strict?
    && forall k :: k in st.rules ==> st.rules[k].spec.action.Accept?
  }

  lemma NothingDenied(st: State, p: Packet)
    requires Simple(st)
    ensures !Denied(SnapshotOf(st), p)
  {
    SnapshotsAreValid(st);
  }

  lemma RuleAsks(st: State, k: nat, p: Packet)
    requires Simple(st) && k in st.rules && ApplicationRule(st.rules[k]) && Outgoing(st.rules[k].spec, p)
    ensures InEnvelope(SnapshotOf(st), p)
  {
    SnapshotsAreValid(st);
    assert st.rules[k] in SnapshotOf(st).rules;
  }

  const SYN := Leaving("eth0", New, UNMARKED)

  /** The opening packet is asked about, accepted, and stamps the connection. */
  ghost function Granted(st: State, id: Identity): World {
    World(st, map[7 := Flow(TupleOf(SYN), STAMPED, Some(Grant(Asked(SnapshotOf(st), SYN), 1000, Some(id))))])
  }

  lemma AskedSyn(st: State)
    requires Simple(st)
    ensures Asked(SnapshotOf(st), SYN) == InDomain(SYN, Pending)
  {
  }

  lemma AnswerCounts(st: State, id: Identity)
    requires Decide(st, InDomain(SYN, Pending), 1000, id).Accept?
    ensures QueueDecision(OracleOf([Opening(st)], Answering(id)), InDomain(SYN, Pending)).Accept?
  {
    var past, u, asked := [Opening(st)], Answering(id), InDomain(SYN, Pending);
    assert Parses(asked) && u.decidedAt(asked) == 0 && u.owner(asked) == (1000, Some(id));
    assert OracleOf(past, u).decide(asked) == Answer(st, asked, 1000, Some(id));
  }

  lemma OpeningJudged(b: Backend, st: State, k: nat, id: Identity)
    requires Simple(st) && k in st.rules && ApplicationRule(st.rules[k]) && Outgoing(st.rules[k].spec, SYN)
    requires Decide(st, InDomain(SYN, Pending), 1000, id).Accept?
    ensures Carries(Opening(st), 7, SYN)
    ensures Judge(b, [Opening(st)], 7, SYN, Answering(id)) == Granted(st, id).flows[7]
  {
    NothingDenied(st, SYN);
    RuleAsks(st, k, SYN);
    AskedSyn(st);
    AnswerCounts(st, id);
    RenewalStamps(b, SnapshotOf(st), SYN, OracleOf([Opening(st)], Answering(id)));
  }

  lemma OneEventRun(b: Backend, w: World, e: Event, next: World)
    requires Start(w) && Authorization.Step(b, [w], e) == next
    ensures IsRun(b, [w, next], [e])
  {
    assert [w, next][..1] == [w];
  }

  lemma OpeningRun(b: Backend, st: State, k: nat, id: Identity)
    requires Simple(st) && k in st.rules && ApplicationRule(st.rules[k]) && Outgoing(st.rules[k].spec, SYN)
    requires Decide(st, InDomain(SYN, Pending), 1000, id).Accept?
    ensures IsRun(b, [Opening(st), Granted(st, id)], [Sent(7, SYN, Answering(id))])
  {
    OpeningJudged(b, st, k, id);
    assert Opening(st).flows[7 := Granted(st, id).flows[7]] == Granted(st, id).flows;
    OneEventRun(b, Opening(st), Sent(7, SYN, Answering(id)), Granted(st, id));
  }

  // ---------------------------------------------------------------- a network Accept authorizes

  const WITH_FALLBACK := State(0, 1, Enforcing, Strict, map[
    1 := Accepting(1, None, Pinned("/browser", BROWSER)),
    2 := Accepting(2, None, None)])

  lemma WithFallbackIsSimple()
    ensures Simple(WITH_FALLBACK)
  {
    assert WITH_FALLBACK.rules.Keys == {1, 2};
  }

  /** The mailer has no rule of its own, but the browser's envelope sends it to userspace and the network Accept
      answers: its flow is authorized without any application Accept. */
  lemma AuthorizedByNetworkAccept(b: Backend)
    ensures var id := Process("/mailer", MAILER);
            && IsRun(b, [Opening(WITH_FALLBACK), Granted(WITH_FALLBACK, id)], [Sent(7, SYN, Answering(id))])
            && Granted(WITH_FALLBACK, id).flows[7].mark.authorized
            && SomeFallback(WITH_FALLBACK, SYN) && !SomeApplies(WITH_FALLBACK, Accept, SYN, 1000, id)
  {
    var id, asked := Process("/mailer", MAILER), InDomain(SYN, Pending);
    WithFallbackIsSimple();
    assert NetworkFallback(WITH_FALLBACK.rules[2], asked) && NetworkFallback(WITH_FALLBACK.rules[2], SYN);
    assert forall a :: !SomeApplies(WITH_FALLBACK, a, asked, 1000, id) && !SomeApplies(WITH_FALLBACK, a, SYN, 1000, id);
    OpeningRun(b, WITH_FALLBACK, 1, id);
  }

  // ---------------------------------------------------------------- the interface is not asked again

  const ON_ETHERNET := State(0, 1, Enforcing, Strict, map[1 := Accepting(1, Some("eth0"), Pinned("/browser", BROWSER))])

  const REROUTED := Leaving("wlan0", Established, STAMPED)

  lemma OnEthernetIsSimple()
    ensures Simple(ON_ETHERNET)
  {
    assert ON_ETHERNET.rules.Keys == {1};
  }

  lemma StampedIsAccepted(b: Backend, st: State, p: Packet, o: Oracle)
    requires Simple(st) && p.mark.domain.Clear? && !p.ct.Invalid? && EstablishedFlow(SnapshotOf(st), p)
    ensures Policy(b, SnapshotOf(st), p, o).verdict.Accepted?
  {
    NothingDenied(st, p);
    assert InDomain(p, Clear) == p;
  }

  lemma OnEthernetAccepts()
    ensures Decide(ON_ETHERNET, InDomain(SYN, Pending), 1000, Process("/browser", BROWSER)).Accept?
    ensures Outgoing(ON_ETHERNET.rules[1].spec, SYN)
    ensures Decide(ON_ETHERNET, REROUTED, 1000, Process("/browser", BROWSER)).Drop?
  {
    assert AppliesTo(ON_ETHERNET.rules[1], InDomain(SYN, Pending), 1000, Process("/browser", BROWSER));
  }

  lemma ReroutedIsEstablished()
    ensures EstablishedFlow(SnapshotOf(ON_ETHERNET), REROUTED)
  {
    OnEthernetIsSimple();
    SnapshotsAreValid(ON_ETHERNET);
    assert ON_ETHERNET.rules[1] in SnapshotOf(ON_ETHERNET).rules && ApplicationRule(ON_ETHERNET.rules[1]);
  }

  /** That is what the compiled programs do. */
  lemma ReroutedIsAccepted(b: Backend, o: Oracle)
    ensures SnapshotValid(SnapshotOf(ON_ETHERNET)) && Run(b, SnapshotOf(ON_ETHERNET), REROUTED, o).verdict.Accepted?
  {
    OnEthernetIsSimple();
    SnapshotsAreValid(ON_ETHERNET);
    ReroutedIsEstablished();
    StampedIsAccepted(b, ON_ETHERNET, REROUTED, o);
  }

  /** Why the interface is a condition: a connection granted on one interface goes on through another that its
      rule does not cover, in both backends and whatever userspace says. */
  lemma ReroutedConnectionGoesOn(b: Backend, o: Oracle)
    ensures var id := Process("/browser", BROWSER);
            var s := SnapshotOf(ON_ETHERNET);
            && IsRun(b, [Opening(ON_ETHERNET), Granted(ON_ETHERNET, id)], [Sent(7, SYN, Answering(id))])
            && Carries(Granted(ON_ETHERNET, id), 7, REROUTED)
            && Policy(b, s, REROUTED, o).verdict.Accepted?
            && Decide(ON_ETHERNET, REROUTED, 1000, id).Drop?
  {
    OnEthernetIsSimple();
    OnEthernetAccepts();
    OpeningRun(b, ON_ETHERNET, 1, Process("/browser", BROWSER));
    ReroutedIsEstablished();
    StampedIsAccepted(b, ON_ETHERNET, REROUTED, o);
  }

  // ---------------------------------------------------------------- the last generation falls to BlockAll

  const LAST := State(0, MAX_GENERATION, Enforcing, Strict, map[])
  const FALLEN := State(1, MAX_GENERATION, BlockAll, Strict, map[])

  /** The one way to change the mode within a generation, in a run. */
  lemma LastGenerationFalls(b: Backend)
    ensures IsRun(b, [World(LAST, map[]), World(FALLEN, map[])], [Operate(ChangeMode(BlockAll))])
    ensures FALLEN.generation == LAST.generation && FALLEN.mode != LAST.mode
  {
    assert Apply(ChangeMode(BlockAll), LAST) == FALLEN;
    OneEventRun(b, World(LAST, map[]), Operate(ChangeMode(BlockAll)), World(FALLEN, map[]));
  }
}
