/** What every learned batch keeps, whatever endpoints it holds and wherever it stops. */
module LearningProperties {
  import opened Basics
  import opened Model
  import opened PolicyState
  import opened Learning

  // ---------------------------------------------------------------- what a batch must keep

  /** `b` is `a` with exactly the rules `created` added, all accepting, one revision each. */
  ghost predicate Extends(a: State, b: State, created: seq<Rule>) {
    && b == a.(revision := a.revision + |created|, rules := b.rules)
    && |b.rules| == |a.rules| + |created|
    && (forall id :: id in a.rules ==> id in b.rules && b.rules[id] == a.rules[id])
    && (forall id :: id in b.rules && id !in a.rules ==> b.rules[id] in created)
    && (forall r :: r in created ==> r.id in b.rules && r.id !in a.rules && b.rules[r.id] == r)
    && (forall r :: r in created ==> r.spec.action.Accept?)
  }

  /** No count passes its budget, unless it had passed it before. */
  ghost predicate WithinBudgets(limits: Limits, a: map<nat, Rule>, b: map<nat, Rule>) {
    && |b| <= Max(|a|, MAX_RULES)
    && Automatic(b) <= Max(Automatic(a), MAX_AUTOMATIC_RULES)
    && (forall uid :: UidCount(b, uid) <= Max(UidCount(a, uid), limits.perUid))
    && (forall uid, file :: AppCount(b, uid, file) <= Max(AppCount(a, uid, file), limits.perApplication))
  }

  predicate SameEndpoint(r: Rule, s: Rule) { IsLearned(r) && IsLearned(s) && KeyOfRule(r) == KeyOfRule(s) }

  /** No two learned rules share a key. */
  ghost predicate Deduplicated(rules: map<nat, Rule>) {
    forall i, j :: i in rules && j in rules && SameEndpoint(rules[i], rules[j]) ==> i == j
  }

  /** Every learned rule just created has a template for its executable and group. */
  ghost predicate Templated(b: map<nat, Rule>, created: seq<Rule>) {
    forall r :: r in created && IsLearned(r) ==>
      && r.spec.application.Some? && r.spec.application.value.executable.Some?
      && GroupOf(r.spec.application.value) in Groups(b)
  }

  ghost predicate Sound(limits: Limits, a: State, b: State, created: seq<Rule>) {
    && Extends(a, b, created)
    && WithinBudgets(limits, a.rules, b.rules)
    && (StateValid(a) ==> StateValid(b))
    && (Deduplicated(a.rules) ==> Deduplicated(b.rules))
    && Templated(b.rules, created)
  }

  // ---------------------------------------------------------------- soundness composes

  lemma ExtendsComposes(a: State, b: State, c: State, first: seq<Rule>, second: seq<Rule>)
    requires Extends(a, b, first) && Extends(b, c, second)
    ensures Extends(a, c, first + second)
  {
  }

  lemma BudgetsCompose(limits: Limits, a: map<nat, Rule>, b: map<nat, Rule>, c: map<nat, Rule>)
    requires WithinBudgets(limits, a, b) && WithinBudgets(limits, b, c)
    ensures WithinBudgets(limits, a, c)
  {
    forall uid ensures UidCount(c, uid) <= Max(UidCount(a, uid), limits.perUid) {
      assert UidCount(c, uid) <= Max(UidCount(b, uid), limits.perUid);
    }
    forall uid, file ensures AppCount(c, uid, file) <= Max(AppCount(a, uid, file), limits.perApplication) {
      assert AppCount(c, uid, file) <= Max(AppCount(b, uid, file), limits.perApplication);
    }
  }

  lemma GroupsStay(a: State, b: State, created: seq<Rule>)
    requires Extends(a, b, created)
    ensures Groups(a.rules) <= Groups(b.rules)
  {
    forall g | g in Groups(a.rules) ensures g in Groups(b.rules) {
      var id :| id in a.rules && IsTemplate(a.rules[id]) && g == GroupOf(a.rules[id].spec.application.value);
      assert id in b.rules && b.rules[id] == a.rules[id];
    }
  }

  lemma TemplatesCompose(b: State, c: State, first: seq<Rule>, second: seq<Rule>)
    requires Extends(b, c, second) && Templated(b.rules, first) && Templated(c.rules, second)
    ensures Templated(c.rules, first + second)
  {
    GroupsStay(b, c, second);
  }

  lemma SoundComposes(limits: Limits, a: State, b: State, c: State, first: seq<Rule>, second: seq<Rule>)
    requires Sound(limits, a, b, first) && Sound(limits, b, c, second)
    ensures Sound(limits, a, c, first + second)
  {
    ExtendsComposes(a, b, c, first, second);
    BudgetsCompose(limits, a.rules, b.rules, c.rules);
    TemplatesCompose(b, c, first, second);
  }

  // ---------------------------------------------------------------- one insertion is sound

  /** An insertion either changed nothing or added one rule with the given spec. */
  ghost predicate Inserted(st: State, spec: RuleSpec, p: Progress) {
    && Extends(st, p.state, p.created)
    && (StateValid(st) ==> StateValid(p.state))
    && if p.error.Some? then p.state == st && p.created == []
       else
         && |p.created| == 1 && p.created[0].spec == spec && p.created[0].id !in st.rules
         && p.state.rules == st.rules[p.created[0].id := p.created[0]]
  }

  lemma InsertInserts(st: State, spec: RuleSpec, mint: set<nat> -> nat, now: nat)
    requires spec.action.Accept?
    ensures Inserted(st, spec, Insert(st, spec, mint, now))
  {
    var id := mint(st.rules.Keys);
    var p := Insert(st, spec, mint, now);
    if p.error.None? {
      assert p.state.rules.Keys == st.rules.Keys + {id};
      if StateValid(st) { CreateKeepsValid(st, id, spec, now); }
    }
  }

  lemma UncountedIsWithin(limits: Limits, rules: map<nat, Rule>, id: nat, r: Rule)
    requires id !in rules && !IsLearned(r) && |rules| < MAX_RULES && Automatic(rules) < MAX_AUTOMATIC_RULES
    ensures WithinBudgets(limits, rules, rules[id := r])
  {
    assert rules[id := r].Keys == rules.Keys + {id};
    AutomaticGrows(rules, id, r);
    forall uid ensures UidCount(rules[id := r], uid) <= UidCount(rules, uid) { UidCountGrows(rules, id, r, uid); }
    forall uid, file ensures AppCount(rules[id := r], uid, file) <= AppCount(rules, uid, file) {
      AppCountGrows(rules, id, r, uid, file);
    }
  }

  lemma ChargedIsWithin(limits: Limits, rules: map<nat, Rule>, id: nat, r: Rule)
    requires id !in rules && Charged(r) && |rules| < MAX_RULES && Automatic(rules) < MAX_AUTOMATIC_RULES
    requires UidCount(rules, r.spec.application.value.uid.value) < limits.perUid
    requires AppCount(rules, r.spec.application.value.uid.value, r.spec.application.value.file.value) < limits.perApplication
    ensures WithinBudgets(limits, rules, rules[id := r])
  {
    assert rules[id := r].Keys == rules.Keys + {id};
    AutomaticGrows(rules, id, r);
    forall uid ensures UidCount(rules[id := r], uid) <= Max(UidCount(rules, uid), limits.perUid) {
      UidCountGrows(rules, id, r, uid);
    }
    forall uid, file
      ensures AppCount(rules[id := r], uid, file) <= Max(AppCount(rules, uid, file), limits.perApplication)
    {
      AppCountGrows(rules, id, r, uid, file);
    }
  }

  lemma NewKeyStaysUnique(rules: map<nat, Rule>, id: nat, r: Rule)
    requires id !in rules && (IsLearned(r) ==> KeyOfRule(r) !in Known(rules))
    ensures Deduplicated(rules) ==> Deduplicated(rules[id := r])
  {
    forall i | i in rules && IsLearned(rules[i]) ensures KeyOfRule(rules[i]) in Known(rules) {}
  }

  lemma TemplateIsSound(st: State, e: Endpoint, limits: Limits, p: Progress)
    requires EndpointValid(e) && |st.rules| < MAX_RULES && Automatic(st.rules) < MAX_AUTOMATIC_RULES
    requires Inserted(st, TemplateSpec(e), p)
    ensures Sound(limits, st, p.state, p.created)
  {
    if p.error.None? {
      var r := p.created[0];
      UncountedIsWithin(limits, st.rules, r.id, r);
      NewKeyStaysUnique(st.rules, r.id, r);
    }
  }

  lemma LearnedIsSound(st: State, e: Endpoint, limits: Limits, p: Progress)
    requires EndpointValid(e) && |st.rules| < MAX_RULES && Automatic(st.rules) < MAX_AUTOMATIC_RULES
    requires KeyOf(e) !in Known(st.rules) && !OverQuota(st.rules, limits, e)
    requires GroupOf(e.application) in Groups(st.rules)
    requires Inserted(st, LearnedSpec(e), p)
    ensures Sound(limits, st, p.state, p.created)
  {
    if p.error.None? {
      var r := p.created[0];
      ChargedIsWithin(limits, st.rules, r.id, r);
      GroupsGrow(st.rules, r.id, r);
      NewKeyStaysUnique(st.rules, r.id, r);
    }
  }

  lemma TemplateAdds(rules: map<nat, Rule>, id: nat, r: Rule, e: Endpoint)
    requires EndpointValid(e) && id !in rules && r.spec == TemplateSpec(e)
    ensures Automatic(rules[id := r]) == Automatic(rules) + 1
    ensures Known(rules[id := r]) == Known(rules) && GroupOf(e.application) in Groups(rules[id := r])
  {
    AutomaticGrows(rules, id, r);
    KnownGrows(rules, id, r);
    GroupsGrow(rules, id, r);
  }

  lemma TemplateIsUncharged(rules: map<nat, Rule>, id: nat, r: Rule, e: Endpoint, limits: Limits)
    requires EndpointValid(e) && id !in rules && r.spec == TemplateSpec(e)
    ensures OverQuota(rules[id := r], limits, e) == OverQuota(rules, limits, e)
  {
    UidCountGrows(rules, id, r, e.application.uid.value);
    AppCountGrows(rules, id, r, e.application.uid.value, e.application.file.value);
  }

  /** The template that goes first leaves room, keys and quotas for the endpoint that follows. */
  lemma TemplateMakesWay(st: State, e: Endpoint, limits: Limits, p: Progress)
    requires EndpointValid(e) && Inserted(st, TemplateSpec(e), p) && p.error.None?
    ensures |p.state.rules| == |st.rules| + 1 && Automatic(p.state.rules) == Automatic(st.rules) + 1
    ensures Known(p.state.rules) == Known(st.rules) && GroupOf(e.application) in Groups(p.state.rules)
    ensures OverQuota(p.state.rules, limits, e) == OverQuota(st.rules, limits, e)
  {
    TemplateAdds(st.rules, p.created[0].id, p.created[0], e);
    TemplateIsUncharged(st.rules, p.created[0].id, p.created[0], e, limits);
  }

  // ---------------------------------------------------------------- every step is sound

  lemma AdmitIsSound(st: State, e: Endpoint, limits: Limits, mint: set<nat> -> nat, now: nat)
    requires EndpointValid(e) && !LacksSlots(st.rules, e)
    requires KeyOf(e) !in Known(st.rules) && !OverQuota(st.rules, limits, e)
    ensures var p := Admit(st, e, mint, now);
            Sound(limits, st, p.state, p.created) && |p.created| <= Slots(Groups(st.rules), e)
  {
    if GroupOf(e.application) in Groups(st.rules) {
      InsertInserts(st, LearnedSpec(e), mint, now);
      LearnedIsSound(st, e, limits, Insert(st, LearnedSpec(e), mint, now));
    } else {
      var first := Insert(st, TemplateSpec(e), mint, now);
      InsertInserts(st, TemplateSpec(e), mint, now);
      TemplateIsSound(st, e, limits, first);
      if first.error.None? {
        TemplateMakesWay(st, e, limits, first);
        var second := Insert(first.state, LearnedSpec(e), mint, now);
        InsertInserts(first.state, LearnedSpec(e), mint, now);
        LearnedIsSound(first.state, e, limits, second);
        SoundComposes(limits, st, first.state, second.state, first.created, second.created);
      }
    }
  }

  type Relation = (State, State, seq<Rule>) -> bool

  ghost predicate Composes(sound: Relation) {
    && (forall st :: sound(st, st, []))
    && (forall a, b, c, first, second ::
          sound(a, b, first) && sound(b, c, second) ==> sound(a, c, first + second))
  }

  ghost predicate StepsAre(sound: Relation, f: Stepper) {
    forall st, allowance, e ::
      f(st, allowance, e).Admitted? ==>
        var p := f(st, allowance, e).progress;
        sound(st, p.state, p.created) && |p.created| <= allowance
  }

  /** What every step keeps and composes, every batch keeps. */
  lemma {:induction false} BatchKeeps(sound: Relation, f: Stepper, st: State, allowance: nat, es: seq<Endpoint>)
    requires Composes(sound) && StepsAre(sound, f)
    ensures var p := LearnEach(f, st, allowance, es);
            sound(st, p.state, p.created) && |p.created| <= allowance
    decreases |es|
  {
    if es != [] {
      match f(st, allowance, es[0])
      case Skip => BatchKeeps(sound, f, st, allowance, es[1..]);
      case Stop =>
      case Admitted(p) =>
        if p.error.None? { BatchKeeps(sound, f, p.state, allowance - |p.created|, es[1..]); }
    }
  }

  lemma StepIsSound(st: State, allowance: int, e: Endpoint, limits: Limits, mint: set<nat> -> nat, now: nat)
    ensures var step := LearnStep(st, allowance, e, limits, mint, now);
            step.Admitted? ==>
              && Sound(limits, st, step.progress.state, step.progress.created)
              && |step.progress.created| <= allowance
  {
    if LearnStep(st, allowance, e, limits, mint, now).Admitted? { AdmitIsSound(st, e, limits, mint, now); }
  }

  ghost function SoundWith(limits: Limits): Relation { (a, b, created) => Sound(limits, a, b, created) }

  lemma SoundnessComposes(limits: Limits)
    ensures Composes(SoundWith(limits))
  {
    var sound := SoundWith(limits);
    forall a, b, c, first, second | sound(a, b, first) && sound(b, c, second) ensures sound(a, c, first + second) {
      SoundComposes(limits, a, b, c, first, second);
    }
  }

  lemma StepsAreSound(limits: Limits, mint: set<nat> -> nat, now: nat)
    ensures StepsAre(SoundWith(limits), Learner(limits, mint, now))
  {
    var f := Learner(limits, mint, now);
    forall st, allowance, e | f(st, allowance, e).Admitted?
      ensures var p := f(st, allowance, e).progress;
              SoundWith(limits)(st, p.state, p.created) && |p.created| <= allowance
    {
      StepIsSound(st, allowance, e, limits, mint, now);
    }
  }

  lemma EachIsSound(st: State, es: seq<Endpoint>, limits: Limits, allowance: nat, mint: set<nat> -> nat, now: nat)
    ensures var p := LearnEach(Learner(limits, mint, now), st, allowance, es);
            Sound(limits, st, p.state, p.created) && |p.created| <= allowance
  {
    SoundnessComposes(limits);
    StepsAreSound(limits, mint, now);
    BatchKeeps(SoundWith(limits), Learner(limits, mint, now), st, allowance, es);
  }

  /** Every batch, of any endpoints, under any cap, ending or failing anywhere: it only adds, counts one
      revision per rule, stays within every budget, keeps validity, learns no endpoint twice and leaves a
      template for everything it learned. */
  lemma LearningIsSound(st: State, es: seq<Endpoint>, limits: Limits, maximumNew: nat, mint: set<nat> -> nat, now: nat)
    ensures var p := LearnBatch(st, es, limits, maximumNew, mint, now);
            Sound(limits, st, p.state, p.created) && |p.created| <= maximumNew
  {
    EachIsSound(st, Bounded(es), limits, maximumNew, mint, now);
  }

  // ---------------------------------------------------------------- learning twice

  lemma KnowledgeStays(a: State, b: State, created: seq<Rule>)
    requires Extends(a, b, created)
    ensures Known(a.rules) <= Known(b.rules)
  {
    forall k | k in Known(a.rules) ensures k in Known(b.rules) {
      var id :| id in a.rules && IsLearned(a.rules[id]) && k == KeyOfRule(a.rules[id]);
      assert id in b.rules && b.rules[id] == a.rules[id];
    }
  }

  lemma QuotasStayReached(a: State, b: State, created: seq<Rule>, limits: Limits, e: Endpoint)
    requires Extends(a, b, created) && EndpointValid(e) && OverQuota(a.rules, limits, e)
    ensures OverQuota(b.rules, limits, e)
  {
    var uid, file := e.application.uid.value, e.application.file.value;
    assert UidIds(a.rules, uid) <= UidIds(b.rules, uid);
    assert AppIds(a.rules, uid, file) <= AppIds(b.rules, uid, file);
    SubsetIsSmaller(UidIds(a.rules, uid), UidIds(b.rules, uid));
    SubsetIsSmaller(AppIds(a.rules, uid, file), AppIds(b.rules, uid, file));
  }

  lemma LearnedIsKnown(st: State, e: Endpoint, p: Progress)
    requires EndpointValid(e) && Inserted(st, LearnedSpec(e), p) && p.error.None?
    ensures KeyOf(e) in Known(p.state.rules) && Automatic(p.state.rules) == Automatic(st.rules) + 1
  {
    var r := p.created[0];
    KnownGrows(st.rules, r.id, r);
    AutomaticGrows(st.rules, r.id, r);
  }

  lemma AdmittedIsKnown(st: State, e: Endpoint, limits: Limits, mint: set<nat> -> nat, now: nat)
    requires EndpointValid(e) && Admit(st, e, mint, now).error.None?
    ensures var p := Admit(st, e, mint, now);
            KeyOf(e) in Known(p.state.rules) && Automatic(p.state.rules) == Automatic(st.rules) + |p.created|
  {
    if GroupOf(e.application) in Groups(st.rules) {
      InsertInserts(st, LearnedSpec(e), mint, now);
      LearnedIsKnown(st, e, Insert(st, LearnedSpec(e), mint, now));
    } else {
      var first := Insert(st, TemplateSpec(e), mint, now);
      InsertInserts(st, TemplateSpec(e), mint, now);
      TemplateMakesWay(st, e, limits, first);
      InsertInserts(first.state, LearnedSpec(e), mint, now);
      LearnedIsKnown(first.state, e, Insert(first.state, LearnedSpec(e), mint, now));
    }
  }

  lemma WideCapNeverDecides(rules: map<nat, Rule>, e: Endpoint, allowance: int)
    requires EndpointValid(e) && allowance + Automatic(rules) >= MAX_AUTOMATIC_RULES
    ensures NoRoom(rules, e, allowance) == LacksSlots(rules, e)
  {
  }

  /** What became of an endpoint leaves nothing to admit in the state the batch ended in. */
  lemma NothingLeftToAdmit(
    st: State, final: State, created: seq<Rule>, e: Endpoint, limits: Limits, allowance: int,
    mint: set<nat> -> nat, now: nat, again: int, mint': set<nat> -> nat, now': nat)
    requires Extends(st, final, created) && allowance + Automatic(st.rules) >= MAX_AUTOMATIC_RULES
    requires var step := LearnStep(st, allowance, e, limits, mint, now); step.Skip? || (step.Stop? && final == st)
    ensures var step, later := LearnStep(st, allowance, e, limits, mint, now), LearnStep(final, again, e, limits, mint', now');
            !later.Admitted? && (step.Stop? ==> later.Stop?)
  {
    if EndpointValid(e) {
      WideCapNeverDecides(st.rules, e, allowance);
      KnowledgeStays(st, final, created);
      if OverQuota(st.rules, limits, e) { QuotasStayReached(st, final, created, limits, e); }
    }
  }

  /** A cap this wide never decides. */
  ghost predicate Wide(st: State, allowance: int) { allowance + Automatic(st.rules) >= MAX_AUTOMATIC_RULES }

  /** Whatever `f` passed over, `g` does not admit in any state reached from there. */
  ghost predicate PassesOver(sound: Relation, f: Stepper, g: Stepper) {
    forall st, final, created, allowance, again, e
      {:trigger sound(st, final, created), f(st, allowance, e), g(final, again, e)} ::
      Wide(st, allowance) && sound(st, final, created) ==>
        && (f(st, allowance, e).Skip? ==> !g(final, again, e).Admitted?)
        && (f(st, allowance, e).Stop? && final == st ==> g(final, again, e).Stop?)
  }

  /** Whatever `f` learned, `g` skips in any state reached from there. */
  ghost predicate Remembers(sound: Relation, f: Stepper, g: Stepper) {
    forall st, allowance, e {:trigger f(st, allowance, e)} ::
      Wide(st, allowance) && f(st, allowance, e).Admitted? && f(st, allowance, e).progress.error.None? ==>
        var p := f(st, allowance, e).progress;
        && Wide(p.state, allowance - |p.created|)
        && forall final, created, again {:trigger sound(p.state, final, created), g(final, again, e)} ::
             sound(p.state, final, created) ==> g(final, again, e).Skip?
  }

  /** The step ends the batch without having changed anything. */
  predicate Idle(step: Step, st: State) {
    step.Stop? || (step.Admitted? && step.progress.state == st && step.progress.created == [] && step.progress.error.Some?)
  }

  /** Where `f` failed, `g` ends without a change. */
  ghost predicate Repeats(f: Stepper, g: Stepper) {
    forall st, allowance, e, again {:trigger f(st, allowance, e), g(f(st, allowance, e).progress.state, again, e)} ::
      f(st, allowance, e).Admitted? && f(st, allowance, e).progress.error.Some? ==>
        Idle(g(f(st, allowance, e).progress.state, again, e), f(st, allowance, e).progress.state)
  }

  lemma {:induction false} SettledBatch(
    sound: Relation, f: Stepper, g: Stepper, st: State, es: seq<Endpoint>, allowance: nat, again: nat)
    requires Composes(sound) && StepsAre(sound, f) && PassesOver(sound, f, g) && Remembers(sound, f, g)
    requires Wide(st, allowance) && (Repeats(f, g) || LearnEach(f, st, allowance, es).error.None?)
    ensures var first := LearnEach(f, st, allowance, es);
            var second := LearnEach(g, first.state, again, es);
            second.state == first.state && second.created == [] && (first.error.None? ==> second.error.None?)
    decreases |es|
  {
    if es != [] {
      var p := LearnEach(f, st, allowance, es);
      BatchKeeps(sound, f, st, allowance, es);
      var later := g(p.state, again, es[0]);
      match f(st, allowance, es[0])
      case Skip => SettledBatch(sound, f, g, st, es[1..], allowance, again);
      case Stop =>
      case Admitted(q) =>
        if q.error.Some? {
          assert Idle(later, p.state);
        } else {
          BatchKeeps(sound, f, q.state, allowance - |q.created|, es[1..]);
          SettledBatch(sound, f, g, q.state, es[1..], allowance - |q.created|, again);
        }
    }
  }

  // What refuses a rule whatever identifier it gets.
  predicate RefusedFor(st: State, spec: RuleSpec) {
    Redacted(spec) || Unpinned(spec) || |st.rules| >= MAX_RULES || !SpecValid(spec) || st.revision >= MAX_REVISION
  }

  lemma FailureIsRefusal(st: State, spec: RuleSpec, mint: set<nat> -> nat, now: nat)
    requires Fresh(mint) && spec.action.Accept? && Insert(st, spec, mint, now).error.Some?
    ensures RefusedFor(st, spec) && Insert(st, spec, mint, now).state == st
  {
  }

  lemma RefusalFails(st: State, spec: RuleSpec, mint: set<nat> -> nat, now: nat)
    requires RefusedFor(st, spec)
    ensures var p := Insert(st, spec, mint, now); p.error.Some? && p.state == st && p.created == []
  {
  }

  lemma FailedAdmitRepeats(st: State, e: Endpoint, limits: Limits, mint: set<nat> -> nat, now: nat, mint': set<nat> -> nat, now': nat)
    requires Fresh(mint) && EndpointValid(e) && Admit(st, e, mint, now).error.Some?
    requires KeyOf(e) !in Known(st.rules) && !OverQuota(st.rules, limits, e)
    ensures var p := Admit(st, e, mint, now);
            && KeyOf(e) !in Known(p.state.rules) && !OverQuota(p.state.rules, limits, e)
            && var again := Admit(p.state, e, mint', now');
               again.error.Some? && again.state == p.state && again.created == []
  {
    if GroupOf(e.application) in Groups(st.rules) {
      FailureIsRefusal(st, LearnedSpec(e), mint, now);
      RefusalFails(st, LearnedSpec(e), mint', now');
    } else {
      var first := Insert(st, TemplateSpec(e), mint, now);
      if first.error.Some? {
        FailureIsRefusal(st, TemplateSpec(e), mint, now);
        RefusalFails(st, TemplateSpec(e), mint', now');
      } else {
        InsertInserts(st, TemplateSpec(e), mint, now);
        TemplateMakesWay(st, e, limits, first);
        FailureIsRefusal(first.state, LearnedSpec(e), mint, now);
        RefusalFails(first.state, LearnedSpec(e), mint', now');
      }
    }
  }

  lemma LearnersRepeat(limits: Limits, mint: set<nat> -> nat, now: nat, mint': set<nat> -> nat, now': nat)
    requires Fresh(mint)
    ensures Repeats(Learner(limits, mint, now), Learner(limits, mint', now'))
  {
    var f, g := Learner(limits, mint, now), Learner(limits, mint', now');
    forall st, allowance, e, again | f(st, allowance, e).Admitted? && f(st, allowance, e).progress.error.Some?
      ensures Idle(g(f(st, allowance, e).progress.state, again, e), f(st, allowance, e).progress.state)
    {
      FailedAdmitRepeats(st, e, limits, mint, now, mint', now');
    }
  }

  lemma LearnersPassOver(limits: Limits, mint: set<nat> -> nat, now: nat, mint': set<nat> -> nat, now': nat)
    ensures PassesOver(SoundWith(limits), Learner(limits, mint, now), Learner(limits, mint', now'))
  {
    var f, g := Learner(limits, mint, now), Learner(limits, mint', now');
    forall st, final, created, allowance, again, e | Wide(st, allowance) && Sound(limits, st, final, created)
      ensures f(st, allowance, e).Skip? ==> !g(final, again, e).Admitted?
      ensures f(st, allowance, e).Stop? && final == st ==> g(final, again, e).Stop?
    {
      if f(st, allowance, e).Skip? || (f(st, allowance, e).Stop? && final == st) {
        NothingLeftToAdmit(st, final, created, e, limits, allowance, mint, now, again, mint', now');
      }
    }
  }

  lemma LearnersRemember(limits: Limits, mint: set<nat> -> nat, now: nat, mint': set<nat> -> nat, now': nat)
    ensures Remembers(SoundWith(limits), Learner(limits, mint, now), Learner(limits, mint', now'))
  {
    var f, g := Learner(limits, mint, now), Learner(limits, mint', now');
    forall st, allowance, e |
      Wide(st, allowance) && f(st, allowance, e).Admitted? && f(st, allowance, e).progress.error.None?
      ensures var p := f(st, allowance, e).progress;
              && Wide(p.state, allowance - |p.created|)
              && forall final, created, again {:trigger Sound(limits, p.state, final, created), g(final, again, e)} ::
                   Sound(limits, p.state, final, created) ==> g(final, again, e).Skip?
    {
      var p := f(st, allowance, e).progress;
      AdmittedIsKnown(st, e, limits, mint, now);
      forall final, created, again: int | Sound(limits, p.state, final, created) ensures g(final, again, e).Skip? {
        KnowledgeStays(p.state, final, created);
      }
    }
  }

  /** Learning the same batch again changes nothing and creates nothing, once it was learned without a binding cap,
      even if it failed; and if it did not fail, neither does the repetition. */
  lemma LearningAgainIsIdle(
    st: State, es: seq<Endpoint>, limits: Limits, maximumNew: nat, mint: set<nat> -> nat, now: nat,
    again: nat, mint': set<nat> -> nat, now': nat)
    requires maximumNew >= MAX_AUTOMATIC_RULES
    requires Fresh(mint) || LearnBatch(st, es, limits, maximumNew, mint, now).error.None?
    ensures var first := LearnBatch(st, es, limits, maximumNew, mint, now);
            var second := LearnBatch(first.state, es, limits, again, mint', now');
            second.state == first.state && second.created == [] && (first.error.None? ==> second.error.None?)
  {
    SoundnessComposes(limits);
    StepsAreSound(limits, mint, now);
    LearnersPassOver(limits, mint, now, mint', now');
    LearnersRemember(limits, mint, now, mint', now');
    if Fresh(mint) { LearnersRepeat(limits, mint, now, mint', now'); }
    if forall e :: e in Bounded(es) ==> EndpointValid(e) {
      SettledBatch(SoundWith(limits), Learner(limits, mint, now), Learner(limits, mint', now'),
                   st, Bounded(es), maximumNew, again);
    }
  }

  // ---------------------------------------------------------------- one endpoint, exactly

  /** An endpoint's own validation lets through one shape the rule validation refuses: ICMP with a port. */
  predicate PortFits(e: Endpoint) { e.port.Some? ==> e.protocol.Tcp? || e.protocol.Udp? }

  lemma LearnedSpecFits(e: Endpoint)
    requires EndpointValid(e)
    ensures SpecValid(TemplateSpec(e)) && !Redacted(TemplateSpec(e)) && !Unpinned(TemplateSpec(e))
    ensures !Redacted(LearnedSpec(e)) && !Unpinned(LearnedSpec(e))
    ensures SpecValid(LearnedSpec(e)) <==> PortFits(e)
  {
  }

  lemma InsertSucceeds(st: State, spec: RuleSpec, mint: set<nat> -> nat, now: nat)
    requires Fresh(mint) && st.revision < MAX_REVISION && |st.rules| < MAX_RULES
    requires spec.action.Accept? && !Redacted(spec) && !Unpinned(spec)
    ensures var p := Insert(st, spec, mint, now);
            && (p.error.None? <==> SpecValid(spec))
            && (p.error.Some? ==> p == Progress(st, [], Some(InvalidRule)))
  {
  }

  lemma AdmitSucceeds(st: State, e: Endpoint, limits: Limits, mint: set<nat> -> nat, now: nat)
    requires EndpointValid(e) && !LacksSlots(st.rules, e) && Fresh(mint) && st.revision + 2 <= MAX_REVISION
    ensures var p := Admit(st, e, mint, now);
            && (p.error.None? <==> PortFits(e))
            && (p.error.Some? ==>
                  && p.error == Some(InvalidRule) && |p.created| == Slots(Groups(st.rules), e) - 1
                  && Known(p.state.rules) == Known(st.rules))
  {
    LearnedSpecFits(e);
    if GroupOf(e.application) in Groups(st.rules) {
      InsertSucceeds(st, LearnedSpec(e), mint, now);
    } else {
      InsertSucceeds(st, TemplateSpec(e), mint, now);
      InsertInserts(st, TemplateSpec(e), mint, now);
      var first := Insert(st, TemplateSpec(e), mint, now);
      TemplateMakesWay(st, e, limits, first);
      InsertSucceeds(first.state, LearnedSpec(e), mint, now);
    }
  }

  lemma OneStep(f: Stepper, st: State, allowance: nat, e: Endpoint)
    ensures var step := f(st, allowance, e);
            LearnEach(f, st, allowance, [e]) == if step.Admitted? then step.progress else Progress(st, [], None)
  {
    assert [e][1..] == [];
    var step := f(st, allowance, e);
    if step.Admitted? { assert step.progress.created + [] == step.progress.created; }
  }

  /** An endpoint is learned exactly when the packet path would classify it a candidate and its port fits its
      protocol; a candidate whose port does not fit fails, leaving at most its template behind. */
  lemma LearnedIffCandidate(st: State, e: Endpoint, limits: Limits, maximumNew: nat, mint: set<nat> -> nat, now: nat)
    requires EndpointValid(e) && Fresh(mint) && st.revision + 2 <= MAX_REVISION && maximumNew >= 2
    ensures var p := LearnBatch(st, [e], limits, maximumNew, mint, now);
            match Classify(st.rules, limits, e)
            case AlreadyKnown => p == Progress(st, [], None)
            case Saturated => p == Progress(st, [], None)
            case Candidate =>
              if PortFits(e) then p.error.None? && Classify(p.state.rules, limits, e).AlreadyKnown?
              else
                && p.error == Some(InvalidRule) && KeyOf(e) !in Known(p.state.rules)
                && |p.created| == Slots(Groups(st.rules), e) - 1
  {
    OneStep(Learner(limits, mint, now), st, maximumNew, e);
    if LearnStep(st, maximumNew, e, limits, mint, now).Admitted? {
      AdmitSucceeds(st, e, limits, mint, now);
      if PortFits(e) { AdmittedIsKnown(st, e, limits, mint, now); }
    }
  }
}
