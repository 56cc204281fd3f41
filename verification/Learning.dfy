/** Automatic learning of application endpoints under count budgets.

    `LearnBatch` says what a batch does in terms of an admission index rebuilt for every endpoint;
    `LearnEndpoints` is the daemon's loop, which keeps one index up to date instead. */
module Learning {
  import opened Basics
  import opened Model
  import opened PolicyState

  datatype Endpoint = Endpoint(
    address: Address, protocol: Protocol, port: Option<PortRange>, interface: Option<string>, application: Selector)

  predicate EndpointValid(e: Endpoint) {
    && e.interface.Some?
    && (match e.protocol
        case Tcp => e.port.Some?
        case Udp => e.port.Some?
        case Icmp => e.address.family.IPv4?
        case IcmpV6 => e.address.family.IPv6?
        case Any => false)
    && SelectorValid(e.application) && e.application.uid.Some? && e.application.file.Some?
  }

  datatype Limits = Limits(perUid: nat, perApplication: nat)

  // ---------------------------------------------------------------- keys

  datatype Key = Key(
    protocol: Protocol, peer: Option<Network>, port: Option<PortRange>, interface: Option<string>,
    application: Option<Selector>)

  datatype TemplateKey = TemplateKey(executable: string, cgroup: Option<string>)

  function KeyOf(e: Endpoint): Key {
    Key(e.protocol, Some(HostNetwork(e.address)), e.port, e.interface, Some(e.application))
  }

  function KeyOfRule(r: Rule): Key {
    Key(r.spec.protocol, r.spec.peer, r.spec.port, r.spec.interface, r.spec.application)
  }

  function GroupOf(sel: Selector): TemplateKey
    requires sel.executable.Some?
  {
    TemplateKey(sel.executable.value, sel.cgroup)
  }

  predicate IsLearned(r: Rule) { r.spec.origin.Learned? && r.spec.direction.Outbound? }

  predicate IsTemplate(r: Rule) {
    && r.spec.origin.Template? && r.spec.direction.Outbound? && r.spec.application.Some?
    && !r.spec.application.value.redacted && r.spec.application.value.executable.Some?
  }

  predicate IsAutomatic(r: Rule) { r.spec.origin.Learned? || r.spec.origin.Template? }

  /** A learned rule counted against its user and executable. */
  predicate Charged(r: Rule) {
    && IsLearned(r) && r.spec.application.Some?
    && r.spec.application.value.uid.Some? && r.spec.application.value.file.Some?
  }

  predicate ChargedTo(r: Rule, uid: nat) { Charged(r) && r.spec.application.value.uid.value == uid }

  predicate ChargedToApp(r: Rule, uid: nat, file: FileId) {
    ChargedTo(r, uid) && r.spec.application.value.file.value == file
  }

  // ---------------------------------------------------------------- the index, recomputed

  function Known(rules: map<nat, Rule>): set<Key> { set id | id in rules && IsLearned(rules[id]) :: KeyOfRule(rules[id]) }

  function Groups(rules: map<nat, Rule>): set<TemplateKey> {
    set id | id in rules && IsTemplate(rules[id]) :: GroupOf(rules[id].spec.application.value)
  }

  function AutomaticIds(rules: map<nat, Rule>): set<nat> { set id | id in rules && IsAutomatic(rules[id]) }

  function UidIds(rules: map<nat, Rule>, uid: nat): set<nat> { set id | id in rules && ChargedTo(rules[id], uid) }

  function AppIds(rules: map<nat, Rule>, uid: nat, file: FileId): set<nat> {
    set id | id in rules && ChargedToApp(rules[id], uid, file)
  }

  function Automatic(rules: map<nat, Rule>): nat { |AutomaticIds(rules)| }

  function UidCount(rules: map<nat, Rule>, uid: nat): nat { |UidIds(rules, uid)| }

  function AppCount(rules: map<nat, Rule>, uid: nat, file: FileId): nat { |AppIds(rules, uid, file)| }

  lemma KnownGrows(rules: map<nat, Rule>, id: nat, r: Rule)
    requires id !in rules
    ensures Known(rules[id := r]) == Known(rules) + if IsLearned(r) then {KeyOfRule(r)} else {}
  {
    var next := rules[id := r];
    forall i | i in rules && IsLearned(rules[i]) ensures KeyOfRule(rules[i]) in Known(next) {
      assert i in next && next[i] == rules[i];
    }
    if IsLearned(r) { assert id in next && next[id] == r; }
  }

  lemma GroupsGrow(rules: map<nat, Rule>, id: nat, r: Rule)
    requires id !in rules
    ensures Groups(rules[id := r]) == Groups(rules) + if IsTemplate(r) then {GroupOf(r.spec.application.value)} else {}
  {
    var next := rules[id := r];
    forall i | i in rules && IsTemplate(rules[i]) ensures GroupOf(rules[i].spec.application.value) in Groups(next) {
      assert i in next && next[i] == rules[i];
    }
    if IsTemplate(r) { assert id in next && next[id] == r; }
  }

  lemma AutomaticGrows(rules: map<nat, Rule>, id: nat, r: Rule)
    requires id !in rules
    ensures Automatic(rules[id := r]) == Automatic(rules) + if IsAutomatic(r) then 1 else 0
  {
    assert AutomaticIds(rules[id := r]) == if IsAutomatic(r) then AutomaticIds(rules) + {id} else AutomaticIds(rules);
  }

  lemma UidCountGrows(rules: map<nat, Rule>, id: nat, r: Rule, uid: nat)
    requires id !in rules
    ensures UidCount(rules[id := r], uid) == UidCount(rules, uid) + if ChargedTo(r, uid) then 1 else 0
  {
    assert UidIds(rules[id := r], uid) == if ChargedTo(r, uid) then UidIds(rules, uid) + {id} else UidIds(rules, uid);
  }

  lemma AppCountGrows(rules: map<nat, Rule>, id: nat, r: Rule, uid: nat, file: FileId)
    requires id !in rules
    ensures AppCount(rules[id := r], uid, file) == AppCount(rules, uid, file) + if ChargedToApp(r, uid, file) then 1 else 0
  {
    assert AppIds(rules[id := r], uid, file)
        == if ChargedToApp(r, uid, file) then AppIds(rules, uid, file) + {id} else AppIds(rules, uid, file);
  }

  // ---------------------------------------------------------------- the index, kept up to date

  datatype Index = Index(
    known: set<Key>, groups: set<TemplateKey>, automatic: nat,
    perUid: map<nat, nat>, perApp: map<(nat, FileId), nat>)

  const EMPTY_INDEX := Index({}, {}, 0, map[], map[])

  function Tally<T>(counts: map<T, nat>, key: T): nat { if key in counts then counts[key] else 0 }

  function Bump<T>(counts: map<T, nat>, key: T): map<T, nat> { counts[key := Tally(counts, key) + 1] }

  /** Accounts for one more rule. */
  function Account(ix: Index, r: Rule): Index {
    if !IsAutomatic(r) then ix
    else
      var ix1 := ix.(automatic := ix.automatic + 1);
      var ix2 := if IsTemplate(r) then ix1.(groups := ix1.groups + {GroupOf(r.spec.application.value)}) else ix1;
      if !IsLearned(r) then ix2
      else
        var ix3 := ix2.(known := ix2.known + {KeyOfRule(r)});
        if !Charged(r) then ix3
        else
          var uid, file := r.spec.application.value.uid.value, r.spec.application.value.file.value;
          ix3.(perUid := Bump(ix3.perUid, uid), perApp := Bump(ix3.perApp, (uid, file)))
  }

  ghost predicate CountsUids(perUid: map<nat, nat>, rules: map<nat, Rule>) {
    forall uid :: Tally(perUid, uid) == UidCount(rules, uid)
  }

  ghost predicate CountsApps(perApp: map<(nat, FileId), nat>, rules: map<nat, Rule>) {
    forall uid, file :: Tally(perApp, (uid, file)) == AppCount(rules, uid, file)
  }

  ghost predicate Indexes(ix: Index, rules: map<nat, Rule>) {
    && ix.known == Known(rules) && ix.groups == Groups(rules) && ix.automatic == Automatic(rules)
    && CountsUids(ix.perUid, rules) && CountsApps(ix.perApp, rules)
  }

  lemma UidsStayCounted(ix: Index, rules: map<nat, Rule>, id: nat, r: Rule)
    requires CountsUids(ix.perUid, rules) && id !in rules
    ensures CountsUids(Account(ix, r).perUid, rules[id := r])
  {
    forall uid ensures Tally(Account(ix, r).perUid, uid) == UidCount(rules[id := r], uid) {
      UidCountGrows(rules, id, r, uid);
    }
  }

  lemma AppsStayCounted(ix: Index, rules: map<nat, Rule>, id: nat, r: Rule)
    requires CountsApps(ix.perApp, rules) && id !in rules
    ensures CountsApps(Account(ix, r).perApp, rules[id := r])
  {
    forall uid, file ensures Tally(Account(ix, r).perApp, (uid, file)) == AppCount(rules[id := r], uid, file) {
      AppCountGrows(rules, id, r, uid, file);
    }
  }

  lemma AccountFields(ix: Index, r: Rule)
    ensures Account(ix, r).known == ix.known + if IsLearned(r) then {KeyOfRule(r)} else {}
    ensures Account(ix, r).groups == ix.groups + if IsTemplate(r) then {GroupOf(r.spec.application.value)} else {}
    ensures Account(ix, r).automatic == ix.automatic + if IsAutomatic(r) then 1 else 0
  {
  }

  /** Accounting for one rule keeps every set and count equal to recomputation. */
  lemma AccountKeepsIndex(ix: Index, rules: map<nat, Rule>, id: nat, r: Rule)
    requires Indexes(ix, rules) && id !in rules
    ensures Indexes(Account(ix, r), rules[id := r])
  {
    AccountFields(ix, r);
    assert Account(ix, r).known == Known(rules[id := r]) by { KnownGrows(rules, id, r); }
    assert Account(ix, r).groups == Groups(rules[id := r]) by { GroupsGrow(rules, id, r); }
    assert Account(ix, r).automatic == Automatic(rules[id := r]) by { AutomaticGrows(rules, id, r); }
    UidsStayCounted(ix, rules, id, r);
    AppsStayCounted(ix, rules, id, r);
  }

  lemma EmptyIsIndexed()
    ensures Indexes(EMPTY_INDEX, map[])
  {
    forall uid ensures UidCount(map[], uid) == 0 { assert UidIds(map[], uid) == {}; }
    forall uid, file ensures AppCount(map[], uid, file) == 0 { assert AppIds(map[], uid, file) == {}; }
    assert AutomaticIds(map[]) == {};
  }

  /** One scan over the rules builds the index. */
  method BuildIndex(rules: map<nat, Rule>) returns (ix: Index)
    ensures Indexes(ix, rules)
  {
    ix := EMPTY_INDEX;
    EmptyIsIndexed();
    var rest := rules.Keys;
    ghost var done: map<nat, Rule> := map[];
    while rest != {}
      invariant rest <= rules.Keys
      invariant done == map id | id in rules && id !in rest :: rules[id]
      invariant Indexes(ix, done)
    {
      var id :| id in rest;
      AccountKeepsIndex(ix, done, id, rules[id]);
      ix := Account(ix, rules[id]);
      rest := rest - {id};
      done := done[id := rules[id]];
    }
    assert done == rules;
  }

  // ---------------------------------------------------------------- admission

  datatype Admission = AlreadyKnown | Saturated | Candidate

  function Slots(groups: set<TemplateKey>, e: Endpoint): nat
    requires EndpointValid(e)
  {
    if GroupOf(e.application) in groups then 1 else 2
  }

  predicate LacksSlots(rules: map<nat, Rule>, e: Endpoint)
    requires EndpointValid(e)
  {
    var slots := Slots(Groups(rules), e);
    |rules| + slots > MAX_RULES || Automatic(rules) + slots > MAX_AUTOMATIC_RULES
  }

  predicate OverQuota(rules: map<nat, Rule>, limits: Limits, e: Endpoint)
    requires EndpointValid(e)
  {
    var uid, file := e.application.uid.value, e.application.file.value;
    UidCount(rules, uid) >= limits.perUid || AppCount(rules, uid, file) >= limits.perApplication
  }

  /** Classification against an index of `total` rules, as the packet path asks it. */
  function ClassifyWith(ix: Index, total: nat, limits: Limits, e: Endpoint): Admission
    requires EndpointValid(e)
  {
    var slots := Slots(ix.groups, e);
    var uid, file := e.application.uid.value, e.application.file.value;
    if KeyOf(e) in ix.known then AlreadyKnown
    else if total + slots > MAX_RULES || ix.automatic + slots > MAX_AUTOMATIC_RULES then Saturated
    else if Tally(ix.perUid, uid) >= limits.perUid || Tally(ix.perApp, (uid, file)) >= limits.perApplication then Saturated
    else Candidate
  }

  /** Classification against an index rebuilt from the rules. */
  function Classify(rules: map<nat, Rule>, limits: Limits, e: Endpoint): Admission
    requires EndpointValid(e)
  {
    if KeyOf(e) in Known(rules) then AlreadyKnown
    else if LacksSlots(rules, e) || OverQuota(rules, limits, e) then Saturated
    else Candidate
  }

  lemma IndexClassifies(ix: Index, rules: map<nat, Rule>, limits: Limits, e: Endpoint)
    requires Indexes(ix, rules) && EndpointValid(e)
    ensures ClassifyWith(ix, |rules|, limits, e) == Classify(rules, limits, e)
  {
  }

  // ---------------------------------------------------------------- learning, one endpoint at a time

  function GroupSpec(g: TemplateKey): RuleSpec {
    RuleSpec(Outbound, Accept, Any, None, None, None,
             Some(Selector(Some(g.executable), None, None, None, g.cgroup, false)), Template, false)
  }

  function TemplateSpec(e: Endpoint): RuleSpec
    requires EndpointValid(e)
  {
    GroupSpec(GroupOf(e.application))
  }

  function LearnedSpec(e: Endpoint): RuleSpec {
    RuleSpec(Outbound, Accept, e.protocol, Some(HostNetwork(e.address)), e.port, e.interface,
             Some(e.application), Origin.Learned, true)
  }

  /** The state reached, the rules created on the way, and the error that stopped it, if any. */
  datatype Progress = Progress(state: State, created: seq<Rule>, error: Option<CoreError>)

  /** A supply of identifiers that are fresh for the rules in use. */
  ghost predicate Fresh(mint: set<nat> -> nat) { forall ids :: mint(ids) !in ids && mint(ids) != 0 }

  function Insert(st: State, spec: RuleSpec, mint: set<nat> -> nat, now: nat): Progress {
    var id := mint(st.rules.Keys);
    match CreateRule(st, id, spec, now)
    case Ok(next) => Progress(next, [Rule(id, spec, now, now)], None)
    case Err(e) => Progress(st, [], Some(e))
  }

  /** The missing template first, then the endpoint. */
  function Admit(st: State, e: Endpoint, mint: set<nat> -> nat, now: nat): Progress
    requires EndpointValid(e)
  {
    if GroupOf(e.application) in Groups(st.rules) then Insert(st, LearnedSpec(e), mint, now)
    else
      var first := Insert(st, TemplateSpec(e), mint, now);
      if first.error.Some? then first
      else
        var second := Insert(first.state, LearnedSpec(e), mint, now);
        Progress(second.state, first.created + second.created, second.error)
  }

  /** Is there no room for this endpoint, globally or under what is left of the caller's cap? */
  predicate NoRoom(rules: map<nat, Rule>, e: Endpoint, allowance: int)
    requires EndpointValid(e)
  {
    LacksSlots(rules, e) || Slots(Groups(rules), e) > allowance
  }

  datatype Step = Skip | Stop | Admitted(progress: Progress)

  /** What a batch does at one endpoint; a batch holding an invalid endpoint never gets this far. */
  function LearnStep(st: State, allowance: int, e: Endpoint, limits: Limits, mint: set<nat> -> nat, now: nat): Step {
    if !EndpointValid(e) then Stop
    else
      var admission := Classify(st.rules, limits, e);
      if admission.AlreadyKnown? then Skip
      else if NoRoom(st.rules, e, allowance) then Stop
      else if admission.Saturated? then Skip
      else Admitted(Admit(st, e, mint, now))
  }

  type Stepper = (State, int, Endpoint) -> Step

  function Learner(limits: Limits, mint: set<nat> -> nat, now: nat): Stepper {
    (st, allowance, e) => LearnStep(st, allowance, e, limits, mint, now)
  }

  function After(created: seq<Rule>, rest: Progress): Progress { rest.(created := created + rest.created) }

  /** Steps through the endpoints in order, spending the allowance on the rules created. */
  function LearnEach(f: Stepper, st: State, allowance: int, es: seq<Endpoint>): Progress
    decreases |es|
  {
    if es == [] then Progress(st, [], None)
    else
      match f(st, allowance, es[0])
      case Skip => LearnEach(f, st, allowance, es[1..])
      case Stop => Progress(st, [], None)
      case Admitted(step) =>
        if step.error.Some? then step
        else After(step.created, LearnEach(f, step.state, allowance - |step.created|, es[1..]))
  }

  function Bounded(es: seq<Endpoint>): seq<Endpoint> { if |es| > MAX_RULES then es[..MAX_RULES] else es }

  function LearnBatch(st: State, es: seq<Endpoint>, limits: Limits, maximumNew: nat, mint: set<nat> -> nat, now: nat): Progress {
    var batch := Bounded(es);
    if exists e :: e in batch && !EndpointValid(e) then Progress(st, [], Some(InvalidRule))
    else LearnEach(Learner(limits, mint, now), st, maximumNew, batch)
  }

  // ---------------------------------------------------------------- the daemon's loop

  /** One insertion adds exactly one rule, and accounting for it keeps the index exact. */
  lemma InsertAccounts(st: State, spec: RuleSpec, mint: set<nat> -> nat, now: nat, ix: Index)
    requires Indexes(ix, st.rules) && Insert(st, spec, mint, now).error.None?
    ensures var p := Insert(st, spec, mint, now);
            && |p.created| == 1 && p.created[0].spec == spec && p.created[0].id !in st.rules
            && p.state.rules == st.rules[p.created[0].id := p.created[0]]
            && |p.state.rules| == |st.rules| + 1
            && Indexes(Account(ix, p.created[0]), p.state.rules)
  {
    var p := Insert(st, spec, mint, now);
    var r := p.created[0];
    assert p.state.rules == st.rules[r.id := r];
    assert p.state.rules.Keys == st.rules.Keys + {r.id};
    AccountKeepsIndex(ix, st.rules, r.id, r);
  }

  method InsertRule(store: PolicyStore, spec: RuleSpec, mint: set<nat> -> nat, now: nat)
    returns (r: Result<Rule, CoreError>)
    requires StateValid(store.View())
    modifies store
    ensures StateValid(store.View())
    ensures var p := Insert(old(store.View()), spec, mint, now);
            && store.View() == p.state
            && (r.Ok? <==> p.error.None?)
            && (r.Ok? ==> p.created == [r.value])
            && (r.Err? ==> p.error == Some(r.error) && p.created == [])
  {
    var id := mint(store.rules.Keys);
    var created := store.Create(id, spec, now);
    r := match created case Ok(_) => Ok(Rule(id, spec, now, now)) case Err(e) => Err(e);
  }

  /** Learns one admitted endpoint, template first, keeping the caller's index exact. */
  method AdmitEndpoint(store: PolicyStore, e: Endpoint, mint: set<nat> -> nat, now: nat, ix: Index)
    returns (r: Result<seq<Rule>, CoreError>, ix': Index)
    requires StateValid(store.View()) && EndpointValid(e) && Indexes(ix, store.rules)
    modifies store
    ensures StateValid(store.View())
    ensures var p := Admit(old(store.View()), e, mint, now);
            && store.View() == p.state
            && (r.Ok? <==> p.error.None?)
            && (r.Ok? ==> p.created == r.value)
            && (r.Err? ==> p.error == Some(r.error))
    ensures r.Ok? ==> Indexes(ix', store.rules)
    ensures r.Ok? ==> |store.rules| == old(|store.rules|) + |r.value| && ix'.automatic == ix.automatic + |r.value|
  {
    ix' := ix;
    var created := [];
    if GroupOf(e.application) !in ix.groups {
      ghost var before := store.View();
      var template := InsertRule(store, TemplateSpec(e), mint, now);
      if template.Err? { return Err(template.error), ix'; }
      InsertAccounts(before, TemplateSpec(e), mint, now, ix);
      AccountFields(ix, template.value);
      ix' := Account(ix, template.value);
      created := [template.value];
    }
    ghost var before := store.View();
    var learned := InsertRule(store, LearnedSpec(e), mint, now);
    if learned.Err? { return Err(learned.error), ix'; }
    InsertAccounts(before, LearnedSpec(e), mint, now, ix');
    AccountFields(ix', learned.value);
    ix' := Account(ix', learned.value);
    r := Ok(created + [learned.value]);
  }

  function Cap(rules: map<nat, Rule>, automatic: nat, maximumNew: nat): nat
    requires |rules| <= MAX_RULES
  {
    var spare := if automatic < MAX_AUTOMATIC_RULES then MAX_AUTOMATIC_RULES - automatic else 0;
    Min(Min(maximumNew, MAX_RULES - |rules|), spare)
  }

  /** Comparing with a cap fixed before the loop is the same as asking for room now. */
  lemma CapDecides(start: map<nat, Rule>, rules: map<nat, Rule>, created: nat, maximumNew: nat, e: Endpoint)
    requires EndpointValid(e) && |start| <= MAX_RULES && created <= maximumNew
    requires |rules| == |start| + created && Automatic(rules) == Automatic(start) + created
    ensures created + Slots(Groups(rules), e) > Cap(start, Automatic(start), maximumNew)
            <==> NoRoom(rules, e, maximumNew - created)
  {
  }

  /** All a batch does, seen from the endpoint at `i`. */
  ghost function Remaining(f: Stepper, st: State, maximumNew: nat, es: seq<Endpoint>, i: nat, created: seq<Rule>): Progress
    requires i <= |es|
  {
    After(created, LearnEach(f, st, maximumNew - |created|, es[i..]))
  }

  lemma Advance(f: Stepper, st: State, maximumNew: nat, es: seq<Endpoint>, i: nat, created: seq<Rule>)
    requires i <= |es|
    ensures i == |es| ==> Remaining(f, st, maximumNew, es, i, created) == Progress(st, created, None)
    ensures i < |es| ==>
              var now := Remaining(f, st, maximumNew, es, i, created);
              match f(st, maximumNew - |created|, es[i])
              case Skip => now == Remaining(f, st, maximumNew, es, i + 1, created)
              case Stop => now == Progress(st, created, None)
              case Admitted(step) =>
                if step.error.Some? then now == After(created, step)
                else now == Remaining(f, step.state, maximumNew, es, i + 1, created + step.created)
  {
    if i < |es| {
      assert es[i..][0] == es[i] && es[i..][1..] == es[i + 1..];
      match f(st, maximumNew - |created|, es[i])
      case Skip =>
      case Stop =>
      case Admitted(step) =>
        var rest := LearnEach(f, step.state, maximumNew - |created| - |step.created|, es[i + 1..]);
        assert created + (step.created + rest.created) == (created + step.created) + rest.created;
    }
  }

  /** `f` learns as `LearnStep` says; a step is unfolded only where `LearnStep` itself is mentioned. */
  ghost predicate Learns(f: Stepper, limits: Limits, mint: set<nat> -> nat, now: nat) {
    forall st, allowance, e {:trigger LearnStep(st, allowance, e, limits, mint, now)} ::
      f(st, allowance, e) == LearnStep(st, allowance, e, limits, mint, now)
  }

  /** What a turn of the loop reports is what the step says. */
  ghost predicate Follows(step: Step, before: State, after: State, stop: bool, r: Result<seq<Rule>, CoreError>) {
    match step
    case Skip => !stop && r == Ok([]) && after == before
    case Stop => stop && r == Ok([]) && after == before
    case Admitted(p) =>
      && !stop && after == p.state
      && (r.Ok? ==> p.error.None? && p.created == r.value)
      && (r.Err? ==> p.error == Some(r.error))
  }

  lemma TurnsFollow(
    f: Stepper, before: State, after: State, maximumNew: nat, es: seq<Endpoint>, i: nat, created: seq<Rule>,
    stop: bool, r: Result<seq<Rule>, CoreError>)
    requires i < |es| && Follows(f(before, maximumNew - |created|, es[i]), before, after, stop, r)
    ensures var whole := Remaining(f, before, maximumNew, es, i, created);
            if r.Err? then whole.state == after && whole.error == Some(r.error)
            else if stop then whole == Progress(after, created + r.value, None)
            else whole == Remaining(f, after, maximumNew, es, i + 1, created + r.value)
  {
    Advance(f, before, maximumNew, es, i, created);
    assert created + [] == created;
  }

  /** One turn of the loop, judged by the index and the cap. */
  method LearnOne(
    ghost f: Stepper, store: PolicyStore, e: Endpoint, limits: Limits, ghost start: map<nat, Rule>, cap: nat, ghost maximumNew: nat,
    created: nat, mint: set<nat> -> nat, now: nat, ix: Index)
    returns (stop: bool, r: Result<seq<Rule>, CoreError>, ix': Index)
    requires Learns(f, limits, mint, now)
    requires StateValid(store.View()) && EndpointValid(e) && Indexes(ix, store.rules)
    requires |start| <= MAX_RULES && cap == Cap(start, Automatic(start), maximumNew) && created <= maximumNew
    requires |store.rules| == |start| + created && ix.automatic == Automatic(start) + created
    modifies store
    ensures StateValid(store.View())
    ensures Follows(f(old(store.View()), maximumNew - created, e), old(store.View()), store.View(), stop, r)
    ensures r.Ok? ==> Indexes(ix', store.rules) && created + |r.value| <= maximumNew
    ensures r.Ok? ==> |store.rules| == old(|store.rules|) + |r.value| && ix'.automatic == ix.automatic + |r.value|
  {
    IndexClassifies(ix, store.rules, limits, e);
    CapDecides(start, store.rules, created, maximumNew, e);
    ghost var step := LearnStep(store.View(), maximumNew - created, e, limits, mint, now);
    stop, r, ix' := false, Ok([]), ix;
    if KeyOf(e) in ix.known { return; }
    if created + Slots(ix.groups, e) > cap {
      stop := true;
      return;
    }
    var uid, file := e.application.uid.value, e.application.file.value;
    if Tally(ix.perUid, uid) >= limits.perUid || Tally(ix.perApp, (uid, file)) >= limits.perApplication { return; }
    r, ix' := AdmitEndpoint(store, e, mint, now, ix);
  }

  /** The turn at position `i`, seen from the whole batch. */
  method LearnAt(
    ghost f: Stepper, store: PolicyStore, ghost es: seq<Endpoint>, ghost i: nat, e: Endpoint, limits: Limits,
    ghost start: map<nat, Rule>, cap: nat, ghost maximumNew: nat, created: seq<Rule>, mint: set<nat> -> nat, now: nat,
    ix: Index)
    returns (stop: bool, r: Result<seq<Rule>, CoreError>, ix': Index)
    requires Learns(f, limits, mint, now) && i < |es| && e == es[i] && EndpointValid(e)
    requires StateValid(store.View()) && Indexes(ix, store.rules)
    requires |start| <= MAX_RULES && cap == Cap(start, Automatic(start), maximumNew) && |created| <= maximumNew
    requires |store.rules| == |start| + |created| && ix.automatic == Automatic(start) + |created|
    modifies store
    ensures StateValid(store.View())
    ensures r.Ok? ==>
              && Indexes(ix', store.rules) && |r.value| <= maximumNew
              && |store.rules| == |start| + |r.value| && ix'.automatic == Automatic(start) + |r.value|
    ensures var whole := Remaining(f, old(store.View()), maximumNew, es, i, created);
            if r.Err? then whole.state == store.View() && whole.error == Some(r.error)
            else if stop then whole == Progress(store.View(), r.value, None)
            else whole == Remaining(f, store.View(), maximumNew, es, i + 1, r.value)
  {
    ghost var before := store.View();
    var step;
    stop, step, ix' := LearnOne(f, store, e, limits, start, cap, maximumNew, |created|, mint, now, ix);
    TurnsFollow(f, before, store.View(), maximumNew, es, i, created, stop, step);
    r := match step case Ok(more) => Ok(created + more) case Err(e) => Err(e);
  }

  method LearnValid(
    ghost f: Stepper, store: PolicyStore, es: seq<Endpoint>, limits: Limits, maximumNew: nat, mint: set<nat> -> nat,
    now: nat)
    returns (r: Result<seq<Rule>, CoreError>)
    requires Learns(f, limits, mint, now)
    requires StateValid(store.View()) && forall i :: 0 <= i < |es| ==> EndpointValid(es[i])
    modifies store
    ensures StateValid(store.View())
    ensures var p := LearnEach(f, old(store.View()), maximumNew, es);
            && store.View() == p.state
            && r == match p.error case None => Ok(p.created) case Some(e) => Err(e)
  {
    var ix := BuildIndex(store.rules);
    var cap := Cap(store.rules, ix.automatic, maximumNew);
    ghost var start := store.rules;
    ghost var whole := Remaining(f, store.View(), maximumNew, es, 0, []);
    assert whole == LearnEach(f, store.View(), maximumNew, es) by { assert es[0..] == es; }
    r := Ok([]);
    for i := 0 to |es|
      invariant StateValid(store.View()) && r.Ok?
      invariant Indexes(ix, store.rules) && |r.value| <= maximumNew
      invariant |store.rules| == |start| + |r.value| && ix.automatic == Automatic(start) + |r.value|
      invariant whole == Remaining(f, store.View(), maximumNew, es, i, r.value)
    {
      var stop;
      stop, r, ix := LearnAt(f, store, es, i, es[i], limits, start, cap, maximumNew, r.value, mint, now, ix);
      if stop || r.Err? { return; }
    }
    Advance(f, store.View(), maximumNew, es, |es|, r.value);
  }

  /** The daemon's entry point: bound the batch, refuse it whole if any endpoint is invalid, then learn. */
  method LearnEndpoints(
    store: PolicyStore, es: seq<Endpoint>, limits: Limits, maximumNew: nat, mint: set<nat> -> nat, now: nat)
    returns (r: Result<seq<Rule>, CoreError>)
    requires StateValid(store.View())
    modifies store
    ensures StateValid(store.View())
    ensures var p := LearnBatch(old(store.View()), es, limits, maximumNew, mint, now);
            && store.View() == p.state
            && r == match p.error case None => Ok(p.created) case Some(e) => Err(e)
  {
    var batch := Bounded(es);
    for i := 0 to |batch|
      invariant forall k :: 0 <= k < i ==> EndpointValid(batch[k])
    {
      if !EndpointValid(batch[i]) {
        assert batch[i] in batch;
        return Err(InvalidRule);
      }
    }
    r := LearnValid(Learner(limits, mint, now), store, batch, limits, maximumNew, mint, now);
  }
}
