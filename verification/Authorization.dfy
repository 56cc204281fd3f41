/** Authorized flows over whole runs of the firewall: policy operations interleaved with packets.

    A run starts with the stamps of earlier daemons already stale, because start-up rotates the
    generation. Userspace may decide a packet under one policy and answer under a later one; the
    answer counts only if mode and generation are still the same. */
module Authorization {
  import opened Model
  import opened Marks
  import opened Netfilter
  import opened RuleBlocks
  import opened Outbound
  import opened PolicyProperties
  import opened PolicyState
  import opened Decisions
  import opened Grounds
  import opened Rerouting
  import opened Listing
  import opened PolicyRuns

  // ---------------------------------------------------------------- the compiled snapshot

  ghost function SnapshotOf(st: State): Snapshot {
    Snapshot(st.revision, st.generation, st.mode, Listed(st.rules, st.rules.Keys))
  }

  lemma SnapshotsAreValid(st: State)
    requires StateValid(st)
    ensures SnapshotValid(SnapshotOf(st))
    ensures forall r :: r in SnapshotOf(st).rules <==> r.id in st.rules && st.rules[r.id] == r
  {
    ListedHolds(st.rules, st.rules.Keys);
    assert |st.rules.Keys| == |st.rules|;
  }

  // ---------------------------------------------------------------- worlds and events

  /** A connection, its mark, and the grant its authorization rests on. */
  datatype Flow = Flow(tuple: Tuple, mark: Connmark, grant: Option<Grant>)

  datatype World = World(st: State, flows: map<nat, Flow>)

  /** Userspace: who owns a packet's socket, and at which point of the run each packet was decided. */
  datatype Userspace = Userspace(owner: Packet -> (nat, Option<Identity>), decidedAt: Packet -> nat, observe: Packet -> bool)

  datatype Event =
    | Operate(op: Operation)
    | Opened(flow: nat, tuple: Tuple, foreign: bool)
    | Closed(flow: nat)
    | Sent(flow: nat, packet: Packet, userspace: Userspace)

  function GrantFor(u: Userspace, p: Packet): Grant { Grant(p, u.owner(p).0, u.owner(p).1) }

  /** An answer counts only while mode and generation are those it was decided under. */
  predicate StillCurrent(decided: State, now: State) { decided.mode == now.mode && decided.generation == now.generation }

  ghost function OracleOf(past: seq<World>, u: Userspace): Oracle
    requires past != []
  {
    Oracle(p =>
             (var at := u.decidedAt(p);
              if at < |past| && StillCurrent(past[at].st, past[|past| - 1].st)
              then Answer(past[at].st, p, u.owner(p).0, u.owner(p).1)
              else Drop),
           u.observe)
  }

  /** The packet belongs to the flow: its record is the flow's, and an original packet has the flow's tuple. */
  predicate Carries(w: World, flow: nat, p: Packet) {
    && StateValid(w.st) && flow in w.flows && WellFormed(p)
    && p.ct.Tracked? && p.ct.mark == w.flows[flow].mark
    && (IsOriginal(p) ==> TupleOf(p) == w.flows[flow].tuple)
  }

  /** Userspace is asked about the packet and accepts it. */
  predicate Renews(s: Snapshot, p: Packet, o: Oracle) {
    && !s.mode.BlockAll? && IsOriginal(p) && InEnvelope(s, p) && !Denied(s, p) && !FastPath(s, p)
    && QueueDecision(o, Asked(s, p)).Accept?
  }

  /** The flow after the firewall judged one of its packets: its mark is the program's, its grant the latest one. */
  ghost function Judge(b: Backend, past: seq<World>, flow: nat, p: Packet, u: Userspace): Flow
    requires past != [] && Carries(past[|past| - 1], flow, p)
  {
    var w := past[|past| - 1];
    var s := SnapshotOf(w.st);
    var out := Policy(b, s, p, OracleOf(past, u)).packet;
    if !out.ct.Tracked? then w.flows[flow]
    else
      Flow(w.flows[flow].tuple, out.ct.mark,
           if Renews(s, p, OracleOf(past, u)) then Some(GrantFor(u, Asked(s, p))) else w.flows[flow].grant)
  }

  /** That is the mark the backend's compiled program leaves. */
  lemma ProgramsJudge(b: Backend, past: seq<World>, flow: nat, p: Packet, u: Userspace)
    requires past != [] && Carries(past[|past| - 1], flow, p)
    ensures var s := SnapshotOf(past[|past| - 1].st);
            && SnapshotValid(s) && Run(b, s, p, OracleOf(past, u)).packet.ct.Tracked?
            && Judge(b, past, flow, p, u).mark == Run(b, s, p, OracleOf(past, u)).packet.ct.mark
  {
    SnapshotsAreValid(past[|past| - 1].st);
    OnlyUserspaceAuthorizes(b, SnapshotOf(past[|past| - 1].st), p, OracleOf(past, u));
  }

  ghost function Step(b: Backend, past: seq<World>, e: Event): World
    requires past != []
  {
    var w := past[|past| - 1];
    match e
    case Operate(op) => w.(st := Apply(op, w.st))
    case Opened(flow, tuple, foreign) =>
      if flow in w.flows then w else w.(flows := w.flows[flow := Flow(tuple, Connmark(foreign, false, 0), None)])
    case Closed(flow) => w.(flows := w.flows - {flow})
    case Sent(flow, p, u) =>
      if Carries(w, flow, p) then w.(flows := w.flows[flow := Judge(b, past, flow, p, u)]) else w
  }

  ghost predicate Start(w: World) {
    StateValid(w.st) && forall k :: k in w.flows && w.flows[k].mark.authorized ==> w.flows[k].mark.generation < w.st.generation
  }

  ghost predicate IsRun(b: Backend, ws: seq<World>, es: seq<Event>) {
    && |ws| == |es| + 1 && Start(ws[0])
    && forall i :: 0 <= i < |es| ==> ws[i + 1] == Step(b, ws[..i + 1], es[i])
  }

  // ---------------------------------------------------------------- what a packet can do to its flow

  lemma DecidedStamps(s: Snapshot, p: Packet, o: Oracle)
    requires p.ct.Tracked? && p.mark.domain.Clear?
    ensures var out := Decided(s, p, o).packet;
            out.ct.Tracked? && (out.ct.mark.authorized && out.ct.mark != p.ct.mark ==>
              out.ct.mark.generation == s.generation && QueueDecision(o, InDomain(p, Pending)).Accept?)
  {
  }

  lemma JudgedStamps(b: Backend, s: Snapshot, p: Packet, o: Oracle)
    requires p.ct.Tracked? && p.mark.domain.Clear?
    ensures var out := Judged(b, s, p, o).packet;
            out.ct.Tracked? && (out.ct.mark.authorized && out.ct.mark != p.ct.mark ==>
              && IsOriginal(p) && InEnvelope(s, p)
              && out.ct.mark.generation == s.generation && QueueDecision(o, InDomain(p, Pending)).Accept?)
  {
    if !AnswersInbound(s, p) && IsOriginal(p) && InEnvelope(s, p) { DecidedStamps(s, p, o); }
  }

  lemma FilteredStamps(b: Backend, s: Snapshot, p: Packet, o: Oracle)
    requires p.ct.Tracked? && p.mark.domain.Clear? && !s.mode.BlockAll?
    ensures var out := Filtered(b, s, p, o).packet;
            out.ct.Tracked? && (out.ct.mark.authorized && out.ct.mark != p.ct.mark ==>
              out.ct.mark.generation == s.generation && Renews(s, p, o))
  {
    assert InDomain(p, Clear) == p;
    SameView(s, p, Unstamped(s, p));
    JudgedStamps(b, s, Unstamped(s, p), o);
  }

  /** A flow gets a new authorization only from a packet userspace was asked about and accepted, and only for this
      generation. */
  lemma OnlyUserspaceAuthorizes(b: Backend, s: Snapshot, p: Packet, o: Oracle)
    requires p.ct.Tracked?
    ensures var out := Policy(b, s, p, o).packet;
            out.ct.Tracked? && (out.ct.mark.authorized && out.ct.mark != p.ct.mark ==>
              out.ct.mark.generation == s.generation && Renews(s, p, o))
  {
    var c := InDomain(p, Clear);
    SameView(s, p, c);
    if !s.mode.BlockAll? { FilteredStamps(b, s, c, o); }
  }

  lemma RenewsFiltered(b: Backend, s: Snapshot, p: Packet, o: Oracle)
    requires Renews(s, p, o) && p.mark.domain.Clear?
    ensures Filtered(b, s, p, o) == Outcome(Accepted, SetConnmark(p, true, s.generation))
  {
    assert InDomain(p, Clear) == p;
    var q := Unstamped(s, p);
    SameView(s, p, q);
    assert !AnswersInbound(s, q) && Judged(b, s, q, o) == Decided(s, q, o);
  }

  /** And every such packet is accepted and stamps its flow, whatever stamp the flow had. */
  lemma RenewalStamps(b: Backend, s: Snapshot, p: Packet, o: Oracle)
    requires Renews(s, p, o)
    ensures Policy(b, s, p, o) == Outcome(Accepted, SetConnmark(InDomain(p, Clear), true, s.generation))
  {
    var c := InDomain(p, Clear);
    SameView(s, p, c);
    assert s.mode.Learning? ==> AnyDeny(s, c);
    RenewsFiltered(b, s, c, o);
  }

  // ---------------------------------------------------------------- every run

  lemma StepAdvances(b: Backend, past: seq<World>, e: Event)
    requires past != [] && StateValid(past[|past| - 1].st)
    ensures var st, next := past[|past| - 1].st, Step(b, past, e).st; Advances(st, next) && StateValid(next)
  {
    if e.Operate? { OperationsAdvance(e.op, past[|past| - 1].st); }
  }

  lemma {:induction false} StatesStayValid(b: Backend, ws: seq<World>, es: seq<Event>, i: nat)
    requires IsRun(b, ws, es) && i < |ws|
    ensures StateValid(ws[i].st) && (i > 0 ==> Advances(ws[i - 1].st, ws[i].st))
  {
    if i > 0 {
      StatesStayValid(b, ws, es, i - 1);
      StepAdvances(b, ws[..i], es[i - 1]);
    }
  }

  ghost predicate Steady(ws: seq<World>) {
    forall i :: 0 < i < |ws| ==> Advances(ws[i - 1].st, ws[i].st)
  }

  lemma {:induction false} SteadyAdvances(ws: seq<World>, i: nat, j: nat)
    requires Steady(ws) && i <= j < |ws|
    ensures Advances(ws[i].st, ws[j].st)
    decreases j
  {
    if i < j {
      SteadyAdvances(ws, i, j - 1);
      AdvancesComposes(ws[i].st, ws[j - 1].st, ws[j].st);
    }
  }

  /** Over every run the state stays valid, the generation never falls, and while it stays the policy only grows. */
  lemma StatesAdvance(b: Backend, ws: seq<World>, es: seq<Event>, i: nat, j: nat)
    requires IsRun(b, ws, es) && i <= j < |ws|
    ensures StateValid(ws[j].st) && Advances(ws[i].st, ws[j].st)
  {
    forall k | 0 <= k < |ws| ensures StateValid(ws[k].st) && (k > 0 ==> Advances(ws[k - 1].st, ws[k].st)) {
      StatesStayValid(b, ws, es, k);
    }
    SteadyAdvances(ws, i, j);
  }

  /** A stamp of the current generation rests on a grant for this connection that the current policy still stands by. */
  ghost predicate Backed(st: State, f: Flow) {
    f.mark.authorized ==>
      && f.mark.generation <= st.generation
      && (f.mark.generation == st.generation && !st.mode.BlockAll? ==>
            f.grant.Some? && TupleOf(f.grant.value.packet) == f.tuple && Justified(st, f.grant.value))
  }

  lemma BackingStands(a: State, b: State, f: Flow)
    requires Advances(a, b) && Backed(a, f)
    ensures Backed(b, f)
  {
    if f.mark.authorized && f.mark.generation == b.generation && !b.mode.BlockAll? { GrantsStand(a, b, f.grant.value); }
  }

  ghost predicate PastAdvances(past: seq<World>) {
    past != [] && forall at :: 0 <= at < |past| ==> Advances(past[at].st, past[|past| - 1].st)
  }

  lemma AcceptedAskIsJustified(past: seq<World>, u: Userspace, q: Packet)
    requires PastAdvances(past) && !past[|past| - 1].st.mode.BlockAll?
    requires QueueDecision(OracleOf(past, u), q).Accept?
    ensures Justified(past[|past| - 1].st, GrantFor(u, q))
  {
    var at := u.decidedAt(q);
    assert at < |past| && StillCurrent(past[at].st, past[|past| - 1].st);
    AcceptedAnswersAreJustified(past[at].st, GrantFor(u, q));
    GrantsStand(past[at].st, past[|past| - 1].st, GrantFor(u, q));
  }

  lemma RenewedIsBacked(b: Backend, past: seq<World>, flow: nat, p: Packet, u: Userspace)
    requires PastAdvances(past) && Carries(past[|past| - 1], flow, p)
    requires Renews(SnapshotOf(past[|past| - 1].st), p, OracleOf(past, u))
    ensures Backed(past[|past| - 1].st, Judge(b, past, flow, p, u))
  {
    var s := SnapshotOf(past[|past| - 1].st);
    RenewalStamps(b, s, p, OracleOf(past, u));
    AcceptedAskIsJustified(past, u, Asked(s, p));
  }

  lemma JudgeKeepsBacking(b: Backend, past: seq<World>, flow: nat, p: Packet, u: Userspace)
    requires PastAdvances(past) && Carries(past[|past| - 1], flow, p)
    requires Backed(past[|past| - 1].st, past[|past| - 1].flows[flow])
    ensures Backed(past[|past| - 1].st, Judge(b, past, flow, p, u))
  {
    var s := SnapshotOf(past[|past| - 1].st);
    if Renews(s, p, OracleOf(past, u)) {
      RenewedIsBacked(b, past, flow, p, u);
    } else {
      OnlyUserspaceAuthorizes(b, s, p, OracleOf(past, u));
    }
  }

  lemma StepKeepsBacking(b: Backend, past: seq<World>, e: Event)
    requires PastAdvances(past) && StateValid(past[|past| - 1].st)
    requires var w := past[|past| - 1]; forall k :: k in w.flows ==> Backed(w.st, w.flows[k])
    ensures var w := Step(b, past, e); forall k :: k in w.flows ==> Backed(w.st, w.flows[k])
  {
    var w, next := past[|past| - 1], Step(b, past, e);
    match e
    case Operate(op) =>
      OperationsAdvance(op, w.st);
      forall k | k in next.flows ensures Backed(next.st, next.flows[k]) { BackingStands(w.st, next.st, w.flows[k]); }
    case Opened(_, _, _) =>
    case Closed(_) =>
    case Sent(flow, p, u) =>
      if Carries(w, flow, p) { JudgeKeepsBacking(b, past, flow, p, u); }
  }

  lemma PastsAdvance(b: Backend, ws: seq<World>, es: seq<Event>, i: nat)
    requires IsRun(b, ws, es) && 0 < i <= |ws|
    ensures PastAdvances(ws[..i]) && StateValid(ws[i - 1].st)
  {
    forall at | 0 <= at < i ensures StateValid(ws[i - 1].st) && Advances(ws[at].st, ws[i - 1].st) {
      StatesAdvance(b, ws, es, at, i - 1);
    }
  }

  lemma {:induction false} FlowsAreBacked(b: Backend, ws: seq<World>, es: seq<Event>, i: nat)
    requires IsRun(b, ws, es) && i < |ws|
    ensures forall k :: k in ws[i].flows ==> Backed(ws[i].st, ws[i].flows[k])
  {
    if i > 0 {
      FlowsAreBacked(b, ws, es, i - 1);
      PastsAdvance(b, ws, es, i);
      StepKeepsBacking(b, ws[..i], es[i - 1]);
    }
  }

  // ---------------------------------------------------------------- which grant a flow rests on

  /** The event is a packet of the flow that userspace is asked about and accepts. */
  ghost predicate Questions(past: seq<World>, e: Event, flow: nat)
    requires past != []
  {
    var w := past[|past| - 1];
    e.Sent? && e.flow == flow && Carries(w, flow, e.packet) && Renews(SnapshotOf(w.st), e.packet, OracleOf(past, e.userspace))
  }

  ghost function GrantOf(past: seq<World>, e: Event): Grant
    requires past != [] && e.Sent?
  {
    GrantFor(e.userspace, Asked(SnapshotOf(past[|past| - 1].st), e.packet))
  }

  /** The flow is authorized by the generation in force. */
  predicate InForce(w: World, flow: nat) {
    flow in w.flows && w.flows[flow].mark.authorized && w.flows[flow].mark.generation == w.st.generation
  }

  lemma QuestionsGrant(b: Backend, past: seq<World>, e: Event, flow: nat)
    requires past != [] && Questions(past, e, flow)
    ensures InForce(Step(b, past, e), flow) && Step(b, past, e).flows[flow].grant == Some(GrantOf(past, e))
  {
    var w := past[|past| - 1];
    RenewalStamps(b, SnapshotOf(w.st), e.packet, OracleOf(past, e.userspace));
  }

  /** Nothing else grants: a flow in force after any other event was in force before it, with the same grant. */
  lemma OthersKeepGrants(b: Backend, past: seq<World>, e: Event, flow: nat)
    requires past != [] && StateValid(past[|past| - 1].st) && !Questions(past, e, flow)
    requires var w := past[|past| - 1]; flow in w.flows ==> Backed(w.st, w.flows[flow])
    requires InForce(Step(b, past, e), flow)
    ensures InForce(past[|past| - 1], flow)
    ensures Step(b, past, e).flows[flow].grant == past[|past| - 1].flows[flow].grant
  {
    var w := past[|past| - 1];
    StepAdvances(b, past, e);
    if e.Sent? && Carries(w, e.flow, e.packet) {
      OnlyUserspaceAuthorizes(b, SnapshotOf(w.st), e.packet, OracleOf(past, e.userspace));
    }
  }

  /** The last index below `i` that satisfies the predicate. */
  function Latest(asks: nat -> bool, i: nat): (j: Option<nat>)
    ensures j.Some? ==> j.value < i && asks(j.value) && forall k :: j.value < k < i ==> !asks(k)
    ensures j.None? ==> forall k :: 0 <= k < i ==> !asks(k)
  {
    if i == 0 then None else if asks(i - 1) then Some(i - 1) else Latest(asks, i - 1)
  }

  /** What holds after index `k` was given there, or held before with the same value. */
  predicate Passes<T(==)>(asks: nat -> bool, held: nat -> Option<T>, given: nat -> T, k: nat) {
    held(k + 1).Some? ==> held(k + 1) == if asks(k) then Some(given(k)) else held(k)
  }

  lemma {:induction false} LastGiven<T>(asks: nat -> bool, held: nat -> Option<T>, given: nat -> T, i: nat)
    requires held(i).Some? && held(0).None? && forall k :: 0 <= k < i ==> Passes(asks, held, given, k)
    ensures Latest(asks, i).Some? && held(i) == Some(given(Latest(asks, i).value))
    decreases i
  {
    assert Passes(asks, held, given, i - 1);
    if !asks(i - 1) { LastGiven(asks, held, given, i - 1); }
  }

  /** Is event `k` of the run an accepted question of the flow? Which grant did it give? */
  ghost function QuestionsIn(ws: seq<World>, es: seq<Event>, flow: nat): nat -> bool
    requires |ws| == |es| + 1
  {
    (k: nat) => k < |es| && Questions(ws[..k + 1], es[k], flow)
  }

  ghost function GivenIn(ws: seq<World>, es: seq<Event>): nat -> Option<Grant>
    requires |ws| == |es| + 1
  {
    (k: nat) => if k < |es| && es[k].Sent? then Some(GrantOf(ws[..k + 1], es[k])) else None
  }

  /** The grant of the flow at point `k`, if it is in force there. */
  ghost function HeldIn(ws: seq<World>, flow: nat): nat -> Option<Option<Grant>> {
    (k: nat) => if k < |ws| && InForce(ws[k], flow) then Some(ws[k].flows[flow].grant) else None
  }

  /** The flow in force after event `k` was granted by it, or was in force before with the same grant. */
  ghost predicate GrantedBy(ws: seq<World>, es: seq<Event>, k: nat, flow: nat)
    requires |ws| == |es| + 1 && k < |es| && flow in ws[k + 1].flows
  {
    if Questions(ws[..k + 1], es[k], flow) then ws[k + 1].flows[flow].grant == Some(GrantOf(ws[..k + 1], es[k]))
    else InForce(ws[k], flow) && ws[k + 1].flows[flow].grant == ws[k].flows[flow].grant
  }

  lemma EventsGrant(b: Backend, ws: seq<World>, es: seq<Event>, k: nat, flow: nat)
    requires IsRun(b, ws, es) && k < |es| && InForce(ws[k + 1], flow)
    ensures GrantedBy(ws, es, k, flow)
  {
    if Questions(ws[..k + 1], es[k], flow) {
      QuestionsGrant(b, ws[..k + 1], es[k], flow);
    } else {
      StatesAdvance(b, ws, es, k, k);
      FlowsAreBacked(b, ws, es, k);
      OthersKeepGrants(b, ws[..k + 1], es[k], flow);
    }
  }

  lemma GrantsPass(ws: seq<World>, es: seq<Event>, k: nat, flow: nat)
    requires |ws| == |es| + 1 && k < |es| && (InForce(ws[k + 1], flow) ==> GrantedBy(ws, es, k, flow))
    ensures Passes(QuestionsIn(ws, es, flow), HeldIn(ws, flow), GivenIn(ws, es), k)
  {
  }

  lemma NothingHeldAtStart(b: Backend, ws: seq<World>, es: seq<Event>, flow: nat)
    requires IsRun(b, ws, es)
    ensures HeldIn(ws, flow)(0).None?
  {
  }

  /** In every run, an authorization in force was granted by the flow's last accepted question. */
  lemma GrantIsLastAccepted(b: Backend, ws: seq<World>, es: seq<Event>, i: nat, flow: nat)
    requires IsRun(b, ws, es) && i < |ws| && InForce(ws[i], flow)
    ensures var j := Latest(QuestionsIn(ws, es, flow), i);
            j.Some? && ws[i].flows[flow].grant == Some(GrantOf(ws[..j.value + 1], es[j.value]))
  {
    var asks, held, given := QuestionsIn(ws, es, flow), HeldIn(ws, flow), GivenIn(ws, es);
    forall k | 0 <= k < i ensures Passes(asks, held, given, k) {
      if InForce(ws[k + 1], flow) { EventsGrant(b, ws, es, k, flow); }
      GrantsPass(ws, es, k, flow);
    }
    NothingHeldAtStart(b, ws, es, flow);
    LastGiven(asks, held, given, i);
  }

  // ---------------------------------------------------------------- what that means for the packet itself

  /** An enabled application deny in force applies to the packet of a process the grant concerns. */
  ghost predicate Forbidden(st: State, g: Grant, p: Packet, r: Rule) {
    && r.id in st.rules && st.rules[r.id] == r && !r.spec.action.Accept?
    && exists id :: Concerns(g, id) && AppliesTo(r, p, g.uid, id)
  }

  /** The one deny that can meet a granted connection names an interface the grant was not made for. */
  lemma DeniesNameOtherInterface(st: State, g: Grant, p: Packet, r: Rule)
    requires Justified(st, g) && TupleOf(p) == TupleOf(g.packet) && Forbidden(st, g, p, r)
    ensures r.spec.interface == Some(p.oif) && p.oif != g.packet.oif
  {
    var id :| Concerns(g, id) && AppliesTo(r, p, g.uid, id);
    assert Decide(st, g.packet, g.uid, id).Accept?;
    assert !AppliesTo(r, g.packet, g.uid, id) by {
      assert r.spec.action == Drop || r.spec.action == Reject;
      assert AppliesTo(r, g.packet, g.uid, id) ==> SomeApplies(st, r.spec.action, g.packet, g.uid, id);
    }
    assert Outgoing(r.spec, p) && !Outgoing(r.spec, g.packet);
  }

  /** The policy in force stands by the flow's grant; by the packet itself on the interface of the grant, and on any
      other exactly when the grant carries over to it; and denies it to the grantee nowhere but on an interface the
      grant was not made for. */
  ghost predicate StandsBy(st: State, f: Flow, p: Packet) {
    && f.grant.Some? && TupleOf(f.grant.value.packet) == f.tuple && Justified(st, f.grant.value)
    && (IsOriginal(p) ==>
          && (Justified(st, For(f.grant.value, p)) <==> CarriesOver(st, f.grant.value, p))
          && (p.oif == f.grant.value.packet.oif ==> CarriesOver(st, f.grant.value, p))
          && (forall r :: Forbidden(st, f.grant.value, p, r) ==>
                r.spec.interface == Some(p.oif) && p.oif != f.grant.value.packet.oif))
  }

  lemma BackedStandsBy(st: State, f: Flow, p: Packet)
    requires Backed(st, f) && f.mark.authorized && f.mark.generation == st.generation && !st.mode.BlockAll?
    requires IsOriginal(p) ==> TupleOf(p) == f.tuple
    ensures StandsBy(st, f, p)
  {
    var g := f.grant.value;
    if IsOriginal(p) {
      AcceptedIffCarriedOver(st, g, p);
      if p.oif == g.packet.oif { SameInterfaceCarriesOver(st, g, p); }
      forall r | Forbidden(st, g, p, r) ensures r.spec.interface == Some(p.oif) && p.oif != g.packet.oif {
        DeniesNameOtherInterface(st, g, p, r);
      }
    }
  }

  /** Any traffic on the fast path, replies included, belongs to a flow the policy in force stands by. */
  lemma FastPathIsBacked(b: Backend, ws: seq<World>, es: seq<Event>, i: nat, flow: nat, p: Packet)
    requires IsRun(b, ws, es) && i < |ws| && Carries(ws[i], flow, p) && FastPath(SnapshotOf(ws[i].st), p)
    ensures StandsBy(ws[i].st, ws[i].flows[flow], p)
  {
    FlowsAreBacked(b, ws, es, i);
    BackedStandsBy(ws[i].st, ws[i].flows[flow], p);
  }

  /** Authorization never outlives its policy. In every run, under both backends: an original packet in an
      application envelope that is accepted although userspace does not accept it belongs to a flow the policy now
      in force stands by, for this very connection and grantee, and no network rule in force denies it. */
  lemma AuthorizationNeverOutlivesPolicy(
    b: Backend, ws: seq<World>, es: seq<Event>, i: nat, flow: nat, p: Packet, o: Oracle)
    requires IsRun(b, ws, es) && i < |ws| && Carries(ws[i], flow, p) && IsOriginal(p)
    ensures var s := SnapshotOf(ws[i].st);
            && SnapshotValid(s)
            && (InEnvelope(s, p) && Run(b, s, p, o).verdict.Accepted? && !QueueDecision(o, Asked(s, p)).Accept? ==>
                  !Denied(s, p) && StandsBy(ws[i].st, ws[i].flows[flow], p))
  {
    var s := SnapshotOf(ws[i].st);
    SnapshotsAreValid(ws[i].st);
    EnvelopeIsNotBypassed(b, s, p, o);
    DenyOverrides(b, s, p, o);
    if FastPath(s, p) { FastPathIsBacked(b, ws, es, i, flow, p); }
  }

  /** Where acceptance rests on application Accepts alone, so does every authorized flow its grant carries over: the
      fast-path packet has an enabled application Accept in force for the identified process it was granted to. */
  lemma FastPathRestsOnApplication(b: Backend, ws: seq<World>, es: seq<Event>, i: nat, flow: nat, p: Packet)
    requires IsRun(b, ws, es) && i < |ws| && Carries(ws[i], flow, p) && IsOriginal(p)
    requires FastPath(SnapshotOf(ws[i].st), p) && ws[i].st.mode.Enforcing?
    ensures var st, f := ws[i].st, ws[i].flows[flow];
            f.grant.Some? && (CarriesOver(st, f.grant.value, p) && !SomeFallback(st, p)
                              && (st.strategy.Fast? ==> FastIsCovered(st, p)) ==>
              f.grant.value.who.Some? && SomeApplies(st, Accept, p, f.grant.value.uid, f.grant.value.who.value))
  {
    FastPathIsBacked(b, ws, es, i, flow, p);
    RestsOnApplicationIff(ws[i].st, p);
    var st, g := ws[i].st, ws[i].flows[flow].grant.value;
    if CarriesOver(st, g, p) && RestsOnApplication(st, p) { GrantsRestOnApplication(st, For(g, p)); }
  }

  /** Within a generation there is one mode and one strategy, until the last generation falls to BlockAll. */
  lemma OneModePerGeneration(b: Backend, ws: seq<World>, es: seq<Event>, i: nat, j: nat)
    requires IsRun(b, ws, es) && i <= j < |ws| && ws[i].st.generation == ws[j].st.generation
    ensures (ws[i].st.mode == ws[j].st.mode && ws[i].st.strategy == ws[j].st.strategy)
            || (ws[i].st.generation == MAX_GENERATION && ws[j].st.mode.BlockAll?)
  {
    StatesAdvance(b, ws, es, i, j);
  }

  lemma OldStampsAreIgnored(st: State, f: Flow, p: Packet)
    requires p.ct.Tracked? && p.ct.mark == f.mark && (f.mark.authorized ==> f.mark.generation < st.generation)
    ensures !FastPath(SnapshotOf(st), p)
  {
  }

  lemma RestrictionsAreLater(a: State, b: State)
    requires Advances(a, b) && Restricts(a, b)
    ensures a.generation < b.generation
  {
  }

  /** Revocation is final: once an operation restricts the policy, no stamp made before it is ever honoured again. */
  lemma RestrictionEndsFlows(
    b: Backend, ws: seq<World>, es: seq<Event>, i: nat, j: nat, flow: nat, p: Packet)
    requires IsRun(b, ws, es) && i < j < |ws| && Restricts(ws[i].st, ws[i + 1].st)
    requires flow in ws[i].flows && p.ct.Tracked? && p.ct.mark == ws[i].flows[flow].mark
    ensures !FastPath(SnapshotOf(ws[j].st), p)
  {
    FlowsAreBacked(b, ws, es, i);
    StatesAdvance(b, ws, es, i, i + 1);
    StatesAdvance(b, ws, es, i + 1, j);
    RestrictionsAreLater(ws[i].st, ws[i + 1].st);
    OldStampsAreIgnored(ws[j].st, ws[i].flows[flow], p);
  }
}
