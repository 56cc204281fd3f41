/** Which packets learned rules let through. */
module LearningCoverage {
  import opened Model
  import opened Netfilter
  import opened RuleBlocks
  import opened PolicyState
  import opened Learning
  import opened LearningProperties
  import opened Decisions
  import opened Addresses
  import Agreement

  /** The packet goes to the endpoint: its address, protocol and port, through its interface. */
  predicate Names(e: Endpoint, p: Packet) {
    && p.dst == e.address && e.interface == Some(p.oif)
    && (e.port.Some? ==> e.port.value.start <= p.dport <= e.port.value.end)
    && (match e.protocol
        case Any => true
        case Tcp => p.l4 == TCP
        case Udp => p.l4 == UDP
        case Icmp => p.l4 == ICMP && p.family == IPv4
        case IcmpV6 => p.l4 == ICMPV6 && p.family == IPv6)
  }

  /** The rule learned for an endpoint is an enabled Accept for its application that covers its packets and no others. */
  lemma LearnedRuleCovers(e: Endpoint, p: Packet)
    requires EndpointValid(e)
    ensures var spec := LearnedSpec(e);
            && spec.enabled && spec.direction.Outbound? && spec.action.Accept? && spec.origin.Learned?
            && spec.application == Some(e.application)
            && (Outgoing(spec, p) <==> Names(e, p))
  {
    HostIsAlone(e.address, p.dst);
  }

  /** An endpoint that may be learned names one protocol at one address behind one interface. */
  lemma EndpointsAreSpecific(e: Endpoint, p: Packet, q: Packet)
    requires EndpointValid(e) && Names(e, p) && Names(e, q)
    ensures p.l4 == q.l4 && p.dst == q.dst && p.oif == q.oif
    ensures p.l4 == TCP || p.l4 == UDP || p.l4 == ICMP || p.l4 == ICMPV6
  {
  }

  /** The template kept beside it is disabled, so it lets nothing through, and names executable and group only. */
  lemma TemplateIsIdle(e: Endpoint)
    requires EndpointValid(e)
    ensures var spec := TemplateSpec(e);
            && UnpinnedTemplate(spec)
            && spec.application.value.executable == e.application.executable && spec.application.value.cgroup == e.application.cgroup
  {
  }

  // ---------------------------------------------------------------- where created rules come from

  predicate MadeFor(r: Rule, e: Endpoint) { EndpointValid(e) && (r.spec == LearnedSpec(e) || r.spec == TemplateSpec(e)) }

  type Maker = (Rule, Endpoint) -> bool

  predicate AllMade(made: Maker, created: seq<Rule>, e: Endpoint) { forall r :: r in created ==> made(r, e) }

  ghost predicate StepsMake(f: Stepper, made: Maker) {
    forall st, allowance, e :: f(st, allowance, e).Admitted? ==> AllMade(made, f(st, allowance, e).progress.created, e)
  }

  lemma {:induction false} BatchMakes(f: Stepper, made: Maker, st: State, allowance: int, es: seq<Endpoint>, r: Rule)
    requires StepsMake(f, made) && r in LearnEach(f, st, allowance, es).created
    ensures exists e :: e in es && made(r, e)
    decreases |es|
  {
    var step := f(st, allowance, es[0]);
    if step.Admitted? && r in step.progress.created {
      assert AllMade(made, step.progress.created, es[0]) && es[0] in es;
    } else {
      var next := if step.Skip? then st else step.progress.state;
      BatchMakes(f, made, next, if step.Skip? then allowance else allowance - |step.progress.created|, es[1..], r);
      var e :| e in es[1..] && made(r, e);
      assert e in es;
    }
  }

  lemma AdmitMakes(st: State, e: Endpoint, mint: set<nat> -> nat, now: nat)
    requires EndpointValid(e)
    ensures AllMade(MadeFor, Admit(st, e, mint, now).created, e)
  {
  }

  lemma LearnersMake(limits: Limits, mint: set<nat> -> nat, now: nat)
    ensures StepsMake(Learner(limits, mint, now), MadeFor)
  {
    var f := Learner(limits, mint, now);
    forall st, allowance, e | f(st, allowance, e).Admitted?
      ensures AllMade(MadeFor, f(st, allowance, e).progress.created, e)
    {
      AdmitMakes(st, e, mint, now);
    }
  }

  /** A batch is taken whole, up to its first ten thousand endpoints. */
  lemma BatchesAreBounded(es: seq<Endpoint>)
    ensures Bounded(es) <= es && |Bounded(es)| == if |es| < 10_000 then |es| else 10_000
  {
  }

  /** Every rule a batch creates was made for one of its endpoints. */
  lemma CreatedForEndpoint(
    st: State, es: seq<Endpoint>, limits: Limits, maximumNew: nat, mint: set<nat> -> nat, now: nat, r: Rule)
    requires r in LearnBatch(st, es, limits, maximumNew, mint, now).created
    ensures exists e :: e in es && MadeFor(r, e)
  {
    LearnersMake(limits, mint, now);
    BatchMakes(Learner(limits, mint, now), MadeFor, st, maximumNew, Bounded(es), r);
    var e :| e in Bounded(es) && MadeFor(r, e);
    assert e in es;
  }

  // ---------------------------------------------------------------- what a batch newly admits

  /** The process is the endpoint's application, in every field it sets; under Fast, of its user and executable. */
  predicate Owns(strategy: Strategy, e: Endpoint, uid: nat, id: Identity) {
    && e.application.uid == Some(uid)
    && (|| Agreement.Agrees(e.application, id)
        || (strategy.Fast? && e.application.executable == Some(id.executable) && e.application.file == Some(id.file)
            && id.uid == uid))
  }

  lemma MadeRuleGrounds(st: State, r: Rule, e: Endpoint, p: Packet, uid: nat, id: Identity)
    requires MadeFor(r, e)
    requires AppliesTo(r, p, uid, id) || (st.strategy.Fast? && FastApplies(r, p, uid, id)) || NetworkFallback(r, p)
    ensures Names(e, p) && Owns(st.strategy, e, uid, id)
  {
    LearnedRuleCovers(e, p);
    Agreement.RulesSpeak(r, p, uid, id);
  }

  /** A learned batch newly admits only packets to its endpoints from their applications. */
  lemma BatchAdmitsOnlyEndpoints(
    st: State, es: seq<Endpoint>, limits: Limits, maximumNew: nat, mint: set<nat> -> nat, now: nat,
    p: Packet, uid: nat, id: Identity)
    requires !Decide(st, p, uid, id).Accept?
    requires Decide(LearnBatch(st, es, limits, maximumNew, mint, now).state, p, uid, id).Accept?
    ensures exists e :: e in es && Names(e, p) && Owns(st.strategy, e, uid, id)
  {
    var batch := LearnBatch(st, es, limits, maximumNew, mint, now);
    LearningIsSound(st, es, limits, maximumNew, mint, now);
    var k := NewGround(st, batch.state, batch.created, p, uid, id);
    var r := batch.state.rules[k];
    CreatedForEndpoint(st, es, limits, maximumNew, mint, now, r);
    var e :| e in es && MadeFor(r, e);
    MadeRuleGrounds(st, r, e, p, uid, id);
  }

  /** More acceptance needs a new accepting rule that speaks about the process. */
  lemma NewGround(a: State, b: State, created: seq<Rule>, p: Packet, uid: nat, id: Identity) returns (k: nat)
    requires Extends(a, b, created) && !Decide(a, p, uid, id).Accept? && Decide(b, p, uid, id).Accept?
    ensures k in b.rules && b.rules[k] in created
    ensures AppliesTo(b.rules[k], p, uid, id) || (a.strategy.Fast? && FastApplies(b.rules[k], p, uid, id))
            || NetworkFallback(b.rules[k], p)
  {
    k :| k in b.rules && ((b.rules[k].spec.action == Accept && AppliesTo(b.rules[k], p, uid, id))
                          || (b.strategy.Fast? && FastApplies(b.rules[k], p, uid, id)) || NetworkFallback(b.rules[k], p));
    assert k !in a.rules;
  }

  /** And each rule learned does admit them, unless something denies them. */
  lemma LearnedEndpointIsAdmitted(
    st: State, es: seq<Endpoint>, limits: Limits, maximumNew: nat, mint: set<nat> -> nat, now: nat,
    e: Endpoint, r: Rule, p: Packet, uid: nat, id: Identity)
    requires var batch := LearnBatch(st, es, limits, maximumNew, mint, now);
             EndpointValid(e) && r in batch.created && r.spec == LearnedSpec(e) && !batch.state.mode.BlockAll?
    requires Names(e, p) && Agreement.Agrees(e.application, id) && e.application.uid == Some(uid)
    requires forall k :: k in st.rules && Agreement.Governs(st.rules[k], p, uid, id) ==> st.rules[k].spec.action == Accept
    ensures Decide(LearnBatch(st, es, limits, maximumNew, mint, now).state, p, uid, id).Accept?
  {
    var batch := LearnBatch(st, es, limits, maximumNew, mint, now);
    LearningIsSound(st, es, limits, maximumNew, mint, now);
    LearnedRuleCovers(e, p);
    var after := batch.state;
    assert after.rules[r.id] == r;
    Agreement.RulesSpeak(r, p, uid, id);
    Agreement.SelectorsAgree(e.application, id);
    assert AppliesTo(r, p, uid, id);
    forall k | k in after.rules && Agreement.Governs(after.rules[k], p, uid, id)
      ensures after.rules[k].spec.action == Accept
    {
      assert k in st.rules ==> after.rules[k] == st.rules[k];
    }
    Agreement.RulesSpeak(after.rules[r.id], p, uid, id);
    Agreement.StrictestDecides(after, p, uid, id, r.id);
  }

  // ---------------------------------------------------------------- what is known, and what fits

  /** An endpoint is known exactly if a learned rule has its address, protocol, port, interface and application. */
  lemma KnownIffLearned(rules: map<nat, Rule>, e: Endpoint)
    ensures KeyOf(e) in Known(rules) <==>
            exists id :: id in rules && rules[id].spec.origin == Origin.Learned && rules[id].spec.direction == Outbound
                         && rules[id].spec.peer == Some(HostNetwork(e.address)) && rules[id].spec.protocol == e.protocol
                         && rules[id].spec.port == e.port && rules[id].spec.interface == e.interface
                         && rules[id].spec.application == Some(e.application)
  {
    if KeyOf(e) in Known(rules) {
      var id :| id in rules && IsLearned(rules[id]) && KeyOfRule(rules[id]) == KeyOf(e);
      assert id in rules && rules[id].spec.peer == Some(HostNetwork(e.address));
    }
  }

  /** The rules with the endpoint learned, and its template too if the group had none. */
  function With(rules: map<nat, Rule>, e: Endpoint, template: nat, learned: nat): map<nat, Rule>
    requires EndpointValid(e)
  {
    (if GroupOf(e.application) in Groups(rules) then rules else rules[template := Rule(template, TemplateSpec(e), 0, 0)])
    [learned := Rule(learned, LearnedSpec(e), 0, 0)]
  }

  lemma TemplateCounts(rules: map<nat, Rule>, e: Endpoint, id: nat, uid: nat, file: FileId)
    requires EndpointValid(e) && id !in rules
    ensures var after := rules[id := Rule(id, TemplateSpec(e), 0, 0)];
            && |after| == |rules| + 1 && Automatic(after) == Automatic(rules) + 1
            && UidCount(after, uid) == UidCount(rules, uid) && AppCount(after, uid, file) == AppCount(rules, uid, file)
  {
    var t := Rule(id, TemplateSpec(e), 0, 0);
    AutomaticGrows(rules, id, t);
    UidCountGrows(rules, id, t, uid);
    AppCountGrows(rules, id, t, uid, file);
    assert rules[id := t].Keys == rules.Keys + {id};
  }

  lemma LearnedCounts(rules: map<nat, Rule>, e: Endpoint, id: nat)
    requires EndpointValid(e) && id !in rules
    ensures var after := rules[id := Rule(id, LearnedSpec(e), 0, 0)];
            var uid, file := e.application.uid.value, e.application.file.value;
            && |after| == |rules| + 1 && Automatic(after) == Automatic(rules) + 1
            && UidCount(after, uid) == UidCount(rules, uid) + 1 && AppCount(after, uid, file) == AppCount(rules, uid, file) + 1
  {
    var uid, file := e.application.uid.value, e.application.file.value;
    var r := Rule(id, LearnedSpec(e), 0, 0);
    AutomaticGrows(rules, id, r);
    UidCountGrows(rules, id, r, uid);
    AppCountGrows(rules, id, r, uid, file);
    assert rules[id := r].Keys == rules.Keys + {id};
  }

  /** A candidate is exactly an unknown endpoint with which every budget is still kept. */
  lemma CandidateIffFits(rules: map<nat, Rule>, limits: Limits, e: Endpoint, template: nat, learned: nat)
    requires EndpointValid(e) && template !in rules && learned !in rules && template != learned
    ensures var after := With(rules, e, template, learned);
            var uid, file := e.application.uid.value, e.application.file.value;
            Classify(rules, limits, e).Candidate? <==>
              && KeyOf(e) !in Known(rules)
              && |after| <= 10_000 && Automatic(after) <= 7_500
              && UidCount(after, uid) <= limits.perUid && AppCount(after, uid, file) <= limits.perApplication
  {
    TemplateCounts(rules, e, template, e.application.uid.value, e.application.file.value);
    LearnedCounts(if GroupOf(e.application) in Groups(rules) then rules else rules[template := Rule(template, TemplateSpec(e), 0, 0)],
                  e, learned);
  }
}
