/** What each policy operation does, seen from the states before and after it alone. */
module PolicyLaws {
  import opened Model
  import opened PolicyState
  import PolicyRuns

  /** Only the rule `id` may differ. */
  ghost predicate OthersKept(a: State, b: State, id: nat) {
    && b.mode == a.mode && b.strategy == a.strategy
    && (forall k :: k != id ==> (k in b.rules <==> k in a.rules))
    && (forall k :: k != id && k in a.rules ==> b.rules[k] == a.rules[k])
  }

  /** One more revision, and a new generation exactly if `rotates`. */
  predicate Counted(a: State, b: State, rotates: bool) {
    b.revision == a.revision + 1 && b.generation == if rotates then a.generation + 1 else a.generation
  }

  /** Counters allow it. */
  predicate Countable(st: State, rotates: bool) {
    st.revision < 0xffff_ffff_ffff_ffff && (rotates ==> st.generation < 0x3fff_ffff)
  }

  /** Without its pin the spec would be an application template. */
  predicate Skeleton(spec: RuleSpec) {
    spec.application.Some? && UnpinnedTemplate(spec.(application := Some(spec.application.value.(file := None))))
  }

  /** The spec is stored as requested, except that a skeleton loses its executable pin. */
  predicate StoredAs(requested: RuleSpec, stored: RuleSpec) {
    if Skeleton(requested) then
      && stored.application.Some? && stored.application.value.file.None?
      && stored.(application := None) == requested.(application := None)
      && stored.application.value == requested.application.value.(file := stored.application.value.file)
    else stored == requested
  }

  /** The spec as it may be kept: valid, with its metadata, and pinned. */
  predicate Acceptable(spec: RuleSpec) { SpecValid(spec) && !Redacted(spec) && !Unpinned(spec) }

  predicate IsDeny(spec: RuleSpec) { spec.enabled && !spec.action.Accept? }

  /** The newer of two times. */
  predicate Touched(updated: nat, before: nat, now: nat) {
    updated >= before && updated >= now && (updated == before || updated == now)
  }

  /** Creation succeeds exactly for an acceptable spec under a fresh identifier with room and counters left; it stores
      just that rule, and an enabled deny starts a new generation. */
  lemma CreateStores(st: State, id: nat, spec: RuleSpec, now: nat)
    ensures CreateRule(st, id, spec, now).Ok? <==>
            Acceptable(spec) && id != 0 && id !in st.rules && |st.rules| < 10_000 && Countable(st, IsDeny(spec))
    ensures var r := CreateRule(st, id, spec, now);
            r.Ok? ==>
              && OthersKept(st, r.value, id) && Counted(st, r.value, IsDeny(spec))
              && id in r.value.rules && r.value.rules[id] == Rule(id, spec, now, now)
  {
  }

  lemma PinClears(requested: RuleSpec)
    ensures StoredAs(requested, ClearPin(requested))
    ensures forall stored :: StoredAs(requested, stored) ==> stored == ClearPin(requested)
  {
  }

  /** An update succeeds exactly for a known rule, if the spec is acceptable as it will be stored; it stores just that
      spec, keeps identifier and creation time, and always starts a new generation. */
  lemma UpdateStores(st: State, id: nat, requested: RuleSpec, now: nat)
    requires StateValid(st)
    ensures UpdateRule(st, id, requested, now).Ok? <==>
            id in st.rules && Countable(st, true) && exists stored :: StoredAs(requested, stored) && Acceptable(stored)
    ensures var r := UpdateRule(st, id, requested, now);
            r.Ok? ==>
              && OthersKept(st, r.value, id) && Counted(st, r.value, true)
              && id in st.rules && id in r.value.rules
              && r.value.rules[id].id == id && r.value.rules[id].createdAt == st.rules[id].createdAt
              && Touched(r.value.rules[id].updatedAt, st.rules[id].updatedAt, now)
              && StoredAs(requested, r.value.rules[id].spec)
  {
    PinClears(requested);
  }

  /** A deletion succeeds exactly for a known rule; the rule is gone, nothing else, and a new generation starts. */
  lemma DeleteRemoves(st: State, id: nat)
    ensures DeleteRule(st, id).Ok? <==> id in st.rules && Countable(st, true)
    ensures var r := DeleteRule(st, id);
            r.Ok? ==> OthersKept(st, r.value, id) && Counted(st, r.value, true) && id !in r.value.rules
  {
  }

  /** Does the toggle take traffic away? */
  predicate TakesAway(before: RuleSpec, enabled: bool) {
    (before.enabled && !enabled) || (!before.enabled && enabled && !before.action.Accept?)
  }

  /** A toggle changes the flag of just that rule (and the pin of a skeleton), and starts a new generation exactly when
      it takes traffic away. */
  lemma EnableToggles(st: State, id: nat, enabled: bool, now: nat)
    requires StateValid(st)
    ensures SetEnabled(st, id, enabled, now).Ok? <==>
            && id in st.rules && Countable(st, TakesAway(st.rules[id].spec, enabled))
            && exists stored :: StoredAs(st.rules[id].spec.(enabled := enabled), stored) && Acceptable(stored)
    ensures var r := SetEnabled(st, id, enabled, now);
            r.Ok? ==>
              && id in st.rules && id in r.value.rules && OthersKept(st, r.value, id)
              && Counted(st, r.value, TakesAway(st.rules[id].spec, enabled))
              && r.value.rules[id].id == id && r.value.rules[id].createdAt == st.rules[id].createdAt
              && Touched(r.value.rules[id].updatedAt, st.rules[id].updatedAt, now)
              && r.value.rules[id].spec.enabled == enabled
              && StoredAs(st.rules[id].spec.(enabled := enabled), r.value.rules[id].spec)
  {
    if id in st.rules {
      PinClears(st.rules[id].spec.(enabled := enabled));
      ClearPinKeepsPrivacy(st.rules[id].spec.(enabled := enabled));
    }
  }

  /** A mode change keeps every rule and sets mode and strategy; it succeeds unless a counter is spent, and then only
      BlockAll does, within the last generation. */
  lemma ModeChanges(st: State, mode: Mode, strategy: Strategy)
    requires StateValid(st)
    ensures SetModeWith(st, mode, strategy).Ok? <==> Countable(st, !mode.BlockAll?)
    ensures var r := SetModeWith(st, mode, strategy);
            r.Ok? ==>
              && r.value.rules == st.rules && r.value.mode == mode && r.value.strategy == strategy
              && Counted(st, r.value, st.generation < 0x3fff_ffff)
  {
  }

  /** Choosing a mode alone enforces strictly and otherwise keeps the strategy. */
  lemma ModeAloneIsStrict(st: State, mode: Mode, strategy: Strategy)
    ensures SetMode(st, mode).Ok? ==>
            SetMode(st, mode).value.mode == mode
            && SetMode(st, mode).value.strategy == if mode.Enforcing? then Strict else st.strategy
    ensures Enforce(st, strategy).Ok? ==>
            Enforce(st, strategy).value.mode == Enforcing && Enforce(st, strategy).value.strategy == strategy
  {
  }

  // ---------------------------------------------------------------- operations of a run

  /** In a run too: a creation, update, deletion, toggle or mode change that may happen does happen. */
  lemma OperationsTakeEffect(st: State, id: nat, spec: RuleSpec, enabled: bool, mode: Mode, strategy: Strategy, now: nat)
    requires StateValid(st)
    ensures CreateRule(st, id, spec, now).Ok? ==>
            var next := PolicyRuns.Apply(PolicyRuns.Create(id, spec, now), st);
            OthersKept(st, next, id) && id in next.rules && next.rules[id] == Rule(id, spec, now, now)
    ensures UpdateRule(st, id, spec, now).Ok? ==>
            var next := PolicyRuns.Apply(PolicyRuns.Update(id, spec, now), st);
            OthersKept(st, next, id) && id in next.rules && StoredAs(spec, next.rules[id].spec)
    ensures DeleteRule(st, id).Ok? ==>
            var next := PolicyRuns.Apply(PolicyRuns.Delete(id), st);
            OthersKept(st, next, id) && id !in next.rules
    ensures SetEnabled(st, id, enabled, now).Ok? ==>
            var next := PolicyRuns.Apply(PolicyRuns.Enable(id, enabled, now), st);
            OthersKept(st, next, id) && id in next.rules && next.rules[id].spec.enabled == enabled
    ensures Countable(st, !mode.BlockAll?) ==>
            var next := PolicyRuns.Apply(PolicyRuns.ChangeMode(mode), st);
            next.rules == st.rules && next.mode == mode
    ensures Countable(st, true) ==>
            var next := PolicyRuns.Apply(PolicyRuns.StartEnforcing(strategy), st);
            next.rules == st.rules && next.mode == Enforcing && next.strategy == strategy
  {
    CreateStores(st, id, spec, now);
    UpdateStores(st, id, spec, now);
    DeleteRemoves(st, id);
    EnableToggles(st, id, enabled, now);
  }

  // ---------------------------------------------------------------- refusals

  /** The error names something that is wrong with the request. */
  predicate Excused(st: State, id: nat, spec: RuleSpec, e: CoreError) {
    match e
    case RedactedMetadata => Redacted(spec)
    case UnpinnedIdentity => Unpinned(spec)
    case InvalidRule => !SpecValid(spec) || id == 0
    case RuleNotFound => id !in st.rules
    case DuplicateRuleId => id in st.rules
    case RulesLimitReached => |st.rules| >= 10_000
    case RevisionOverflow => st.revision >= 0xffff_ffff_ffff_ffff
    case GenerationExhausted => st.generation >= 0x3fff_ffff
    case InvalidGeneration => false
    case StateTooLarge => false
  }

  lemma RefusalsAreTrue(st: State, id: nat, requested: RuleSpec, enabled: bool, now: nat, stored: RuleSpec)
    requires StateValid(st) && StoredAs(requested, stored)
    ensures CreateRule(st, id, requested, now).Err? ==> Excused(st, id, requested, CreateRule(st, id, requested, now).error)
    ensures UpdateRule(st, id, requested, now).Err? ==> Excused(st, id, stored, UpdateRule(st, id, requested, now).error)
    ensures DeleteRule(st, id).Err? ==> Excused(st, id, requested, DeleteRule(st, id).error)
    ensures SetEnabled(st, id, enabled, now).Err? ==>
              Excused(st, id, if id in st.rules then ClearPin(st.rules[id].spec.(enabled := enabled)) else requested,
                      SetEnabled(st, id, enabled, now).error)
  {
    PinClears(requested);
    if id in st.rules { assert st.rules[id].id == id && Storable(st.rules[id]); }
  }
}
