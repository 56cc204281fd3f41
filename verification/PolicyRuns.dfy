/** Runs of policy operations: what the flow generation separates. */
module PolicyRuns {
  import opened Model
  import opened PolicyState
  import opened Learning
  import opened LearningProperties
  import opened Decisions

  datatype Operation =
    | ChangeMode(mode: Mode)
    | StartEnforcing(strategy: Strategy)
    | Create(id: nat, spec: RuleSpec, now: nat)
    | Update(id: nat, spec: RuleSpec, now: nat)
    | Delete(id: nat)
    | Enable(id: nat, enabled: bool, now: nat)
    | Learn(endpoints: seq<Endpoint>, limits: Limits, maximumNew: nat, mint: set<nat> -> nat, now: nat)

  function Kept(st: State, r: Result<State, CoreError>): State { if r.Ok? then r.value else st }

  /** A failed operation changes nothing, except that a failed batch keeps what it learned before. */
  function Apply(op: Operation, st: State): State {
    match op
    case ChangeMode(mode) => Kept(st, SetMode(st, mode))
    case StartEnforcing(strategy) => Kept(st, Enforce(st, strategy))
    case Create(id, spec, now) => Kept(st, CreateRule(st, id, spec, now))
    case Update(id, spec, now) => Kept(st, UpdateRule(st, id, spec, now))
    case Delete(id) => Kept(st, DeleteRule(st, id))
    case Enable(id, enabled, now) => Kept(st, SetEnabled(st, id, enabled, now))
    case Learn(es, limits, maximumNew, mint, now) => LearnBatch(st, es, limits, maximumNew, mint, now).state
  }

  /** Either a new generation began, or the policy only grew. */
  ghost predicate Advances(a: State, b: State) {
    a.generation < b.generation || Grows(a, b)
  }

  lemma AdvancesComposes(a: State, b: State, c: State)
    requires Advances(a, b) && Advances(b, c)
    ensures Advances(a, c)
  {
    if a.generation == b.generation == c.generation { GrowsComposes(a, b, c); }
  }

  lemma ModeAdvances(st: State, mode: Mode, strategy: Strategy)
    requires StateValid(st)
    ensures Advances(st, Kept(st, SetModeWith(st, mode, strategy)))
    ensures StateValid(Kept(st, SetModeWith(st, mode, strategy)))
  {
    if SetModeWith(st, mode, strategy).Ok? { ModeKeepsValid(st, mode, strategy); }
  }

  lemma AcceptsGrow(a: State, b: State)
    requires b.mode == a.mode && b.strategy == a.strategy && b.generation == a.generation
    requires forall k :: k in a.rules ==> k in b.rules && b.rules[k] == a.rules[k]
    requires forall k :: k in b.rules && k !in a.rules && b.rules[k].spec.enabled ==> b.rules[k].spec.action.Accept?
    ensures Grows(a, b)
  {
  }

  lemma CreateAdvances(st: State, id: nat, spec: RuleSpec, now: nat)
    requires StateValid(st)
    ensures Advances(st, Kept(st, CreateRule(st, id, spec, now))) && StateValid(Kept(st, CreateRule(st, id, spec, now)))
  {
    if CreateRule(st, id, spec, now).Ok? {
      CreateKeepsValid(st, id, spec, now);
      if !spec.enabled || spec.action.Accept? { AcceptsGrow(st, CreateRule(st, id, spec, now).value); }
    }
  }

  lemma UpdateAdvances(st: State, id: nat, spec: RuleSpec, now: nat)
    requires StateValid(st)
    ensures Advances(st, Kept(st, UpdateRule(st, id, spec, now))) && StateValid(Kept(st, UpdateRule(st, id, spec, now)))
  {
    if UpdateRule(st, id, spec, now).Ok? { UpdateKeepsValid(st, id, spec, now); }
  }

  lemma DeleteAdvances(st: State, id: nat)
    requires StateValid(st)
    ensures Advances(st, Kept(st, DeleteRule(st, id))) && StateValid(Kept(st, DeleteRule(st, id)))
  {
    if DeleteRule(st, id).Ok? { DeleteKeepsValid(st, id); }
  }

  lemma EnableAdvances(st: State, id: nat, enabled: bool, now: nat)
    requires StateValid(st)
    ensures Advances(st, Kept(st, SetEnabled(st, id, enabled, now)))
    ensures StateValid(Kept(st, SetEnabled(st, id, enabled, now)))
  {
    if SetEnabled(st, id, enabled, now).Ok? {
      EnableKeepsValid(st, id, enabled, now);
      var next := SetEnabled(st, id, enabled, now).value;
      if next.generation == st.generation { ToggleGrows(st, next, id, enabled, now); }
    }
  }

  /** A toggle that keeps the generation turns nothing off and turns on only an Accept. */
  lemma ToggleGrows(st: State, next: State, id: nat, enabled: bool, now: nat)
    requires id in st.rules && (st.rules[id].spec.enabled ==> enabled)
    requires !st.rules[id].spec.enabled && enabled ==> st.rules[id].spec.action.Accept?
    requires next == st.(revision := next.revision, rules := st.rules[id := Toggled(st.rules[id], enabled, now)])
    ensures Grows(st, next)
  {
    assert forall k :: k != id ==> (Enabled(next, k) <==> Enabled(st, k));
  }

  lemma LearnAdvances(st: State, es: seq<Endpoint>, limits: Limits, maximumNew: nat, mint: set<nat> -> nat, now: nat)
    requires StateValid(st)
    ensures var next := LearnBatch(st, es, limits, maximumNew, mint, now).state; Advances(st, next) && StateValid(next)
  {
    LearningIsSound(st, es, limits, maximumNew, mint, now);
    AcceptsGrow(st, LearnBatch(st, es, limits, maximumNew, mint, now).state);
  }

  /** The mode changes within a generation exactly when generations are spent and BlockAll is entered. */
  lemma ModeFallsIff(op: Operation, st: State)
    requires StateValid(st)
    ensures Apply(op, st).generation == st.generation && Apply(op, st).mode != st.mode <==>
            && op == ChangeMode(BlockAll) && st.generation == MAX_GENERATION && !st.mode.BlockAll? && st.revision < MAX_REVISION
  {
    match op
    case Learn(es, limits, maximumNew, mint, now) => LearningIsSound(st, es, limits, maximumNew, mint, now);
    case _ =>
  }

  /** Every operation keeps the state valid and either starts a new generation or only lets the policy grow. */
  lemma OperationsAdvance(op: Operation, st: State)
    requires StateValid(st)
    ensures Advances(st, Apply(op, st)) && StateValid(Apply(op, st))
  {
    match op
    case ChangeMode(mode) => ModeAdvances(st, mode, if mode.Enforcing? then Strict else st.strategy);
    case StartEnforcing(strategy) => ModeAdvances(st, Enforcing, strategy);
    case Create(id, spec, now) => CreateAdvances(st, id, spec, now);
    case Update(id, spec, now) => UpdateAdvances(st, id, spec, now);
    case Delete(id) => DeleteAdvances(st, id);
    case Enable(id, enabled, now) => EnableAdvances(st, id, enabled, now);
    case Learn(es, limits, maximumNew, mint, now) => LearnAdvances(st, es, limits, maximumNew, mint, now);
  }

  /** Once the generations are spent in BlockAll, no operation leaves it. */
  lemma SpentBlockAllStays(op: Operation, st: State)
    requires StateValid(st) && st.mode.BlockAll? && st.generation == MAX_GENERATION
    ensures Apply(op, st).mode.BlockAll? && Apply(op, st).generation == MAX_GENERATION
  {
    OperationsAdvance(op, st);
  }

  /** What must not survive in stamped flows: a deny switched on, anything switched off, changed or removed, and any
      change of mode or strategy short of the last resort to BlockAll. */
  ghost predicate Restricts(a: State, b: State) {
    || (exists k :: Enabled(a, k) && !(k in b.rules && b.rules[k].spec == a.rules[k].spec))
    || (exists k :: Enabled(b, k) && !Enabled(a, k) && !b.rules[k].spec.action.Accept?)
    || (!(b.mode == a.mode && b.strategy == a.strategy) && !(a.generation >= MAX_GENERATION && b.mode.BlockAll?))
  }

  lemma RestrictingStartsGeneration(op: Operation, st: State)
    requires StateValid(st) && Restricts(st, Apply(op, st))
    ensures Apply(op, st).generation > st.generation
  {
    OperationsAdvance(op, st);
  }
}
