/** The mutable policy: revision, flow generation, mode and rules, and the operations on them. */
module PolicyState {
  import opened Basics
  import opened Model

  const MAX_REVISION: nat := 0xffff_ffff_ffff_ffff

  datatype CoreError =
    | InvalidRule | RedactedMetadata | UnpinnedIdentity
    | RuleNotFound | DuplicateRuleId | RulesLimitReached
    | RevisionOverflow | GenerationExhausted | InvalidGeneration | StateTooLarge

  datatype State = State(revision: nat, generation: nat, mode: Mode, strategy: Strategy, rules: map<nat, Rule>)

  const INITIAL_STATE := State(0, 1, BlockAll, Strict, map[])

  predicate RulesValid(rules: map<nat, Rule>) {
    |rules| <= MAX_RULES && forall id :: id in rules ==> rules[id].id == id && Storable(rules[id])
  }

  predicate GenerationValid(g: nat) { 1 <= g <= MAX_GENERATION }

  predicate StateValid(st: State) {
    RulesValid(st.rules) && GenerationValid(st.generation) && st.revision <= MAX_REVISION
  }

  function NextRevision(st: State): Result<nat, CoreError> {
    if st.revision < MAX_REVISION then Ok(st.revision + 1) else Err(RevisionOverflow)
  }

  function NextGeneration(st: State): (r: Result<nat, CoreError>)
    ensures r.Ok? && GenerationValid(st.generation) ==> GenerationValid(r.value) && st.generation < r.value
  {
    if st.generation >= MAX_GENERATION then Err(GenerationExhausted) else Ok(st.generation + 1)
  }

  // ---------------------------------------------------------------- operations

  /** Every mode change starts a new generation; only BlockAll may still be entered when none is left. */
  function SetModeWith(st: State, mode: Mode, strategy: Strategy): Result<State, CoreError> {
    match NextRevision(st)
    case Err(e) => Err(e)
    case Ok(revision) =>
      match NextGeneration(st)
      case Ok(generation) =>
        Ok(st.(revision := revision, generation := generation, mode := mode, strategy := strategy))
      case Err(e) =>
        if mode.BlockAll? then Ok(st.(revision := revision, mode := mode, strategy := strategy)) else Err(e)
  }

  function SetMode(st: State, mode: Mode): Result<State, CoreError> {
    SetModeWith(st, mode, if mode.Enforcing? then Strict else st.strategy)
  }

  function Enforce(st: State, strategy: Strategy): Result<State, CoreError> { SetModeWith(st, Enforcing, strategy) }

  function CreateRule(st: State, id: nat, spec: RuleSpec, now: nat): Result<State, CoreError> {
    if Redacted(spec) then Err(RedactedMetadata)
    else if Unpinned(spec) then Err(UnpinnedIdentity)
    else if |st.rules| >= MAX_RULES then Err(RulesLimitReached)
    else if id in st.rules then Err(DuplicateRuleId)
    else if !SpecValid(spec) || id == 0 then Err(InvalidRule)
    else
      match NextRevision(st)
      case Err(e) => Err(e)
      case Ok(revision) =>
        var created := st.(revision := revision, rules := st.rules[id := Rule(id, spec, now, now)]);
        if spec.enabled && !spec.action.Accept? then
          match NextGeneration(st)
          case Err(e) => Err(e)
          case Ok(generation) => Ok(created.(generation := generation))
        else Ok(created)
  }

  /** A disabled application-wide template drops its executable pin. */
  function ClearPin(spec: RuleSpec): RuleSpec {
    if spec.origin.Template? && !spec.enabled && spec.action.Accept? && spec.direction.Outbound?
       && spec.protocol.Any? && spec.peer.None? && spec.port.None? && spec.interface.None?
       && spec.application.Some? && spec.application.value.executable.Some?
       && spec.application.value.commandLine.None? && spec.application.value.uid.None?
       && !spec.application.value.redacted
    then spec.(application := Some(spec.application.value.(file := None)))
    else spec
  }

  function UpdateRule(st: State, id: nat, requested: RuleSpec, now: nat): Result<State, CoreError> {
    var spec := ClearPin(requested);
    if !SpecValid(spec) then Err(InvalidRule)
    else if Redacted(spec) then Err(RedactedMetadata)
    else if Unpinned(spec) then Err(UnpinnedIdentity)
    else
      match NextRevision(st)
      case Err(e) => Err(e)
      case Ok(revision) =>
        if id !in st.rules then Err(RuleNotFound)
        else
          match NextGeneration(st)
          case Err(e) => Err(e)
          case Ok(generation) =>
            var rule := st.rules[id].(spec := spec, updatedAt := Max(now, st.rules[id].updatedAt));
            if !RuleValid(rule) then Err(InvalidRule)
            else Ok(st.(revision := revision, generation := generation, rules := st.rules[id := rule]))
  }

  function DeleteRule(st: State, id: nat): Result<State, CoreError> {
    match NextRevision(st)
    case Err(e) => Err(e)
    case Ok(revision) =>
      if id !in st.rules then Err(RuleNotFound)
      else
        match NextGeneration(st)
        case Err(e) => Err(e)
        case Ok(generation) => Ok(st.(revision := revision, generation := generation, rules := st.rules - {id}))
  }

  function Toggled(rule: Rule, enabled: bool, now: nat): Rule {
    rule.(spec := ClearPin(rule.spec.(enabled := enabled)), updatedAt := Max(now, rule.updatedAt))
  }

  /** Disabling anything, or enabling a deny, starts a new generation. */
  function SetEnabled(st: State, id: nat, enabled: bool, now: nat): Result<State, CoreError> {
    match NextRevision(st)
    case Err(e) => Err(e)
    case Ok(revision) =>
      if id !in st.rules then Err(RuleNotFound)
      else
        var current := st.rules[id];
        var rotates := (current.spec.enabled && !enabled)
                       || (!current.spec.enabled && enabled && !current.spec.action.Accept?);
        match (if rotates then NextGeneration(st) else Ok(st.generation))
        case Err(e) => Err(e)
        case Ok(generation) =>
          var rule := Toggled(current, enabled, now);
          if !RuleValid(rule) then Err(InvalidRule)
          else if Unpinned(rule.spec) then Err(UnpinnedIdentity)
          else Ok(st.(revision := revision, generation := generation, rules := st.rules[id := rule]))
  }

  // ---------------------------------------------------------------- validity is kept

  lemma PutKeepsRules(rules: map<nat, Rule>, id: nat, rule: Rule)
    requires RulesValid(rules) && (id in rules || |rules| < MAX_RULES) && rule.id == id && Storable(rule)
    ensures RulesValid(rules[id := rule])
  {
    assert rules[id := rule].Keys == rules.Keys + {id};
  }

  lemma RemoveKeepsRules(rules: map<nat, Rule>, id: nat)
    requires RulesValid(rules)
    ensures RulesValid(rules - {id})
  {
    assert (rules - {id}).Keys == rules.Keys - {id};
    assert |(rules - {id}).Keys| <= |rules.Keys|;
  }

  lemma ModeKeepsValid(st: State, mode: Mode, strategy: Strategy)
    requires StateValid(st) && SetModeWith(st, mode, strategy).Ok?
    ensures StateValid(SetModeWith(st, mode, strategy).value)
  {
  }

  lemma CreateKeepsValid(st: State, id: nat, spec: RuleSpec, now: nat)
    requires StateValid(st) && CreateRule(st, id, spec, now).Ok?
    ensures StateValid(CreateRule(st, id, spec, now).value)
  {
    PutKeepsRules(st.rules, id, Rule(id, spec, now, now));
  }

  lemma UpdateKeepsValid(st: State, id: nat, spec: RuleSpec, now: nat)
    requires StateValid(st) && UpdateRule(st, id, spec, now).Ok?
    ensures StateValid(UpdateRule(st, id, spec, now).value)
  {
    var rule := st.rules[id].(spec := ClearPin(spec), updatedAt := Max(now, st.rules[id].updatedAt));
    PutKeepsRules(st.rules, id, rule);
  }

  lemma DeleteKeepsValid(st: State, id: nat)
    requires StateValid(st) && DeleteRule(st, id).Ok?
    ensures StateValid(DeleteRule(st, id).value)
  {
    RemoveKeepsRules(st.rules, id);
  }

  lemma ClearPinKeepsPrivacy(spec: RuleSpec)
    ensures Redacted(ClearPin(spec)) <==> Redacted(spec)
  {
  }

  lemma EnableKeepsValid(st: State, id: nat, enabled: bool, now: nat)
    requires StateValid(st) && SetEnabled(st, id, enabled, now).Ok?
    ensures StateValid(SetEnabled(st, id, enabled, now).value)
  {
    var rule := Toggled(st.rules[id], enabled, now);
    ClearPinKeepsPrivacy(st.rules[id].spec.(enabled := enabled));
    assert Redacted(st.rules[id].spec.(enabled := enabled)) <==> Redacted(st.rules[id].spec);
    PutKeepsRules(st.rules, id, rule);
  }

  // ---------------------------------------------------------------- the store

  /** The state as the daemon holds it, updated in place. */
  class PolicyStore {
    var revision: nat
    var generation: nat
    var mode: Mode
    var strategy: Strategy
    var rules: map<nat, Rule>

    function View(): State
      reads this
    {
      State(revision, generation, mode, strategy, rules)
    }

    constructor ()
      ensures View() == INITIAL_STATE && StateValid(View())
    {
      revision, generation, mode, strategy, rules := 0, 1, BlockAll, Strict, map[];
    }

    method SetModeWithStrategy(newMode: Mode, newStrategy: Strategy) returns (r: Result<State, CoreError>)
      requires StateValid(View())
      modifies this
      ensures r == SetModeWith(old(View()), newMode, newStrategy)
      ensures View() == if r.Ok? then r.value else old(View())
      ensures StateValid(View())
    {
      if revision >= MAX_REVISION { return Err(RevisionOverflow); }
      var next := NextGeneration(View());
      if next.Err? && !newMode.BlockAll? { return Err(next.error); }
      ModeKeepsValid(View(), newMode, newStrategy);
      mode, strategy, revision := newMode, newStrategy, revision + 1;
      if next.Ok? { generation := next.value; }
      r := Ok(View());
    }

    method Create(id: nat, spec: RuleSpec, now: nat) returns (r: Result<State, CoreError>)
      requires StateValid(View())
      modifies this
      ensures r == CreateRule(old(View()), id, spec, now)
      ensures View() == if r.Ok? then r.value else old(View())
      ensures StateValid(View())
    {
      if Redacted(spec) { return Err(RedactedMetadata); }
      if Unpinned(spec) { return Err(UnpinnedIdentity); }
      if |rules| >= MAX_RULES { return Err(RulesLimitReached); }
      if id in rules { return Err(DuplicateRuleId); }
      if !SpecValid(spec) || id == 0 { return Err(InvalidRule); }
      if revision >= MAX_REVISION { return Err(RevisionOverflow); }
      var next := Ok(generation);
      if spec.enabled && !spec.action.Accept? { next := NextGeneration(View()); }
      if next.Err? { return Err(next.error); }
      CreateKeepsValid(View(), id, spec, now);
      rules, generation, revision := rules[id := Rule(id, spec, now, now)], next.value, revision + 1;
      r := Ok(View());
    }

    method Update(id: nat, requested: RuleSpec, now: nat) returns (r: Result<State, CoreError>)
      requires StateValid(View())
      modifies this
      ensures r == UpdateRule(old(View()), id, requested, now)
      ensures View() == if r.Ok? then r.value else old(View())
      ensures StateValid(View())
    {
      var spec := ClearPin(requested);
      if !SpecValid(spec) { return Err(InvalidRule); }
      if Redacted(spec) { return Err(RedactedMetadata); }
      if Unpinned(spec) { return Err(UnpinnedIdentity); }
      if revision >= MAX_REVISION { return Err(RevisionOverflow); }
      if id !in rules { return Err(RuleNotFound); }
      var next := NextGeneration(View());
      if next.Err? { return Err(next.error); }
      var rule := rules[id].(spec := spec, updatedAt := Max(now, rules[id].updatedAt));
      if !RuleValid(rule) { return Err(InvalidRule); }
      UpdateKeepsValid(View(), id, requested, now);
      rules, generation, revision := rules[id := rule], next.value, revision + 1;
      r := Ok(View());
    }

    method Delete(id: nat) returns (r: Result<State, CoreError>)
      requires StateValid(View())
      modifies this
      ensures r == DeleteRule(old(View()), id)
      ensures View() == if r.Ok? then r.value else old(View())
      ensures StateValid(View())
    {
      if revision >= MAX_REVISION { return Err(RevisionOverflow); }
      if id !in rules { return Err(RuleNotFound); }
      var next := NextGeneration(View());
      if next.Err? { return Err(next.error); }
      DeleteKeepsValid(View(), id);
      rules, generation, revision := rules - {id}, next.value, revision + 1;
      r := Ok(View());
    }

    method Enable(id: nat, enabled: bool, now: nat) returns (r: Result<State, CoreError>)
      requires StateValid(View())
      modifies this
      ensures r == SetEnabled(old(View()), id, enabled, now)
      ensures View() == if r.Ok? then r.value else old(View())
      ensures StateValid(View())
    {
      if revision >= MAX_REVISION { return Err(RevisionOverflow); }
      if id !in rules { return Err(RuleNotFound); }
      var current := rules[id];
      var next := Ok(generation);
      if (current.spec.enabled && !enabled) || (!current.spec.enabled && enabled && !current.spec.action.Accept?) {
        next := NextGeneration(View());
      }
      if next.Err? { return Err(next.error); }
      var rule := Toggled(current, enabled, now);
      if !RuleValid(rule) { return Err(InvalidRule); }
      if Unpinned(rule.spec) { return Err(UnpinnedIdentity); }
      EnableKeepsValid(View(), id, enabled, now);
      rules, generation, revision := rules[id := rule], next.value, revision + 1;
      r := Ok(View());
    }
  }
}
