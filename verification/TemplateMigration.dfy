/** Adding the missing application templates to a state loaded from an older schema, within a byte budget.

    The state's text is JSON. How a rule, an identifier and the fields after the revision print is left
    open; only the punctuation around them, the decimal revision and the order of the rules are fixed. */
module TemplateMigration {
  import opened Basics
  import opened Model
  import opened PolicyState
  import opened Learning
  import opened LearningProperties
  import opened Listing
  import opened Numerals

  // ---------------------------------------------------------------- the text

  datatype Format = Format(rule: Rule -> string, id: nat -> string, fields: (nat, Mode, Strategy) -> string)

  function Entry(fmt: Format, r: Rule): string { "\"" + fmt.id(r.id) + "\":" + fmt.rule(r) }

  function Entries(fmt: Format, rules: seq<Rule>): string {
    if rules == [] then ""
    else if |rules| == 1 then Entry(fmt, rules[0])
    else Entry(fmt, rules[0]) + "," + Entries(fmt, rules[1..])
  }

  ghost function Text(fmt: Format, st: State): string {
    "{\"revision\":" + Decimal(st.revision) + "," + fmt.fields(st.generation, st.mode, st.strategy)
    + "\"rules\":{" + Entries(fmt, Listed(st.rules, st.rules.Keys)) + "}}"
  }

  ghost function Size(fmt: Format, st: State): nat { |Text(fmt, st)| }

  // ---------------------------------------------------------------- what one more rule adds

  function EntrySizes(fmt: Format, rules: seq<Rule>): nat {
    if rules == [] then 0 else |Entry(fmt, rules[0])| + EntrySizes(fmt, rules[1..])
  }

  lemma {:induction false} EntriesSize(fmt: Format, rules: seq<Rule>)
    ensures |Entries(fmt, rules)| == EntrySizes(fmt, rules) + if rules == [] then 0 else |rules| - 1
  {
    if |rules| == 1 {
      assert rules[1..] == [];
    } else if |rules| > 1 {
      EntriesSize(fmt, rules[1..]);
    }
  }

  lemma {:induction false} SizesInsert(fmt: Format, a: seq<Rule>, r: Rule, b: seq<Rule>)
    ensures EntrySizes(fmt, a + [r] + b) == EntrySizes(fmt, a + b) + |Entry(fmt, r)|
  {
    if a == [] {
      assert a + [r] + b == [r] + b && a + b == b;
    } else {
      SizesInsert(fmt, a[1..], r, b);
      assert (a + [r] + b)[1..] == a[1..] + [r] + b && (a + b)[1..] == a[1..] + b;
    }
  }

  lemma {:induction false} ListedAgrees(rules: map<nat, Rule>, next: map<nat, Rule>, ids: set<nat>)
    requires ids <= rules.Keys && ids <= next.Keys && forall id :: id in ids ==> rules[id] == next[id]
    ensures Listed(rules, ids) == Listed(next, ids)
  {
    if ids != {} { ListedAgrees(rules, next, ids - {Least(ids)}); }
  }

  lemma LeastOfMore(ids: set<nat>, id: nat)
    requires id !in ids && ids != {}
    ensures Least(ids + {id}) == if id < Least(ids) then id else Least(ids)
  {
  }

  lemma InsertBehind(x: Rule, tail: seq<Rule>, j: nat, r: Rule)
    requires j <= |tail|
    ensures ([x] + tail)[..j + 1] + [r] + ([x] + tail)[j + 1..] == [x] + (tail[..j] + [r] + tail[j..])
  {
    assert ([x] + tail)[..j + 1] == [x] + tail[..j] && ([x] + tail)[j + 1..] == tail[j..];
  }

  lemma ListedBefore(rules: map<nat, Rule>, ids: set<nat>, id: nat, r: Rule)
    requires ids <= rules.Keys && id !in rules && ids != {} && id < Least(ids)
    ensures Listed(rules[id := r], ids + {id}) == Listed(rules, ids)[..0] + [r] + Listed(rules, ids)[0..]
  {
    LeastOfMore(ids, id);
    assert (ids + {id}) - {id} == ids;
    ListedAgrees(rules, rules[id := r], ids);
  }

  /** A new rule takes its place among the others. */
  lemma {:induction false} ListedInserts(rules: map<nat, Rule>, ids: set<nat>, id: nat, r: Rule) returns (k: nat)
    requires ids <= rules.Keys && id !in rules
    ensures k <= |Listed(rules, ids)|
    ensures Listed(rules[id := r], ids + {id}) == Listed(rules, ids)[..k] + [r] + Listed(rules, ids)[k..]
  {
    var next := rules[id := r];
    if ids == {} {
      k := 0;
      assert Least({id}) == id && ids + {id} == {id} && {id} - {id} == {};
    } else {
      var m := Least(ids);
      LeastOfMore(ids, id);
      if id < m {
        k := 0;
        ListedBefore(rules, ids, id, r);
      } else {
        var j := ListedInserts(rules, ids - {m}, id, r);
        assert (ids + {id}) - {m} == (ids - {m}) + {id} && next[m] == rules[m];
        k := j + 1;
        var tail := Listed(rules, ids - {m});
        assert Listed(rules, ids) == [rules[m]] + tail;
        assert Listed(next, ids + {id}) == [rules[m]] + (tail[..j] + [r] + tail[j..]);
        InsertBehind(rules[m], tail, j, r);
      }
    }
  }

  function EntryDelta(fmt: Format, r: Rule, before: nat, after: nat, hadRules: bool): int {
    |fmt.rule(r)| + (|fmt.id(r.id)| + 3) + (if hadRules then 1 else 0) + |Decimal(after)| - |Decimal(before)|
  }

  lemma EntriesGrow(fmt: Format, rules: map<nat, Rule>, id: nat, r: Rule)
    requires id !in rules
    ensures |Entries(fmt, Listed(rules[id := r], rules[id := r].Keys))|
         == |Entries(fmt, Listed(rules, rules.Keys))| + |Entry(fmt, r)| + if rules == map[] then 0 else 1
  {
    var old_ := Listed(rules, rules.Keys);
    var k := ListedInserts(rules, rules.Keys, id, r);
    assert rules[id := r].Keys == rules.Keys + {id};
    SizesInsert(fmt, old_[..k], r, old_[k..]);
    assert old_[..k] + old_[k..] == old_;
    EntriesSize(fmt, old_);
    EntriesSize(fmt, old_[..k] + [r] + old_[k..]);
    ListedIsEmpty(rules);
  }

  lemma ListedIsEmpty(rules: map<nat, Rule>)
    ensures Listed(rules, rules.Keys) == [] <==> rules == map[]
  {
    if rules.Keys == {} { assert rules == map[]; }
  }

  function Grown(st: State, r: Rule, revision: nat): State { st.(revision := revision, rules := st.rules[r.id := r]) }

  /** The incremental formula is the difference of the two serialized sizes, whatever the digits of the revision,
      the commas and the place of the new rule. */
  lemma DeltaIsExact(fmt: Format, st: State, r: Rule, revision: nat)
    requires r.id !in st.rules
    ensures Size(fmt, Grown(st, r, revision))
         == Size(fmt, st) + EntryDelta(fmt, r, st.revision, revision, st.rules != map[])
  {
    EntriesGrow(fmt, st.rules, r.id, r);
  }

  // ---------------------------------------------------------------- the groups to add

  predicate Grouped(r: Rule) {
    IsLearned(r) && r.spec.application.Some? && r.spec.application.value.executable.Some?
  }

  function GroupOfRule(r: Rule): TemplateKey
    requires Grouped(r)
  {
    GroupOf(r.spec.application.value)
  }

  /** The groups of learned rules without a template, each once, in the order they first appear. */
  function Lacking(rules: seq<Rule>, known: set<TemplateKey>): seq<TemplateKey> {
    if rules == [] then []
    else if Grouped(rules[0]) && GroupOfRule(rules[0]) !in known then
      [GroupOfRule(rules[0])] + Lacking(rules[1..], known + {GroupOfRule(rules[0])})
    else Lacking(rules[1..], known)
  }

  lemma {:induction false} LackingIsExact(rules: seq<Rule>, known: set<TemplateKey>)
    ensures forall r :: r in rules && Grouped(r) ==> GroupOfRule(r) in known || GroupOfRule(r) in Lacking(rules, known)
    ensures forall g :: g in Lacking(rules, known) ==> g !in known && exists r :: r in rules && Grouped(r) && GroupOfRule(r) == g
    ensures forall i, j :: 0 <= i < j < |Lacking(rules, known)| ==> Lacking(rules, known)[i] != Lacking(rules, known)[j]
  {
    if rules != [] {
      if Grouped(rules[0]) && GroupOfRule(rules[0]) !in known {
        LackingIsExact(rules[1..], known + {GroupOfRule(rules[0])});
      } else {
        LackingIsExact(rules[1..], known);
      }
    }
  }

  method CollectLacking(rules: seq<Rule>, templates: set<TemplateKey>) returns (groups: seq<TemplateKey>)
    ensures groups == Lacking(rules, templates)
  {
    groups := [];
    var known := templates;
    assert rules[0..] == rules;
    for i := 0 to |rules|
      invariant Lacking(rules, templates) == groups + Lacking(rules[i..], known)
    {
      assert rules[i..][0] == rules[i] && rules[i..][1..] == rules[i + 1..];
      if Grouped(rules[i]) && GroupOfRule(rules[i]) !in known {
        var g := GroupOfRule(rules[i]);
        ghost var rest := Lacking(rules[i + 1..], known + {g});
        assert groups + ([g] + rest) == (groups + [g]) + rest;
        known, groups := known + {g}, groups + [g];
      }
    }
  }

  // ---------------------------------------------------------------- the migration

  /** The groups a call will try: those lacking a template, up to the slots left and the caller's cap. */
  ghost function Wanted(st: State, maximumNew: nat): seq<TemplateKey>
    requires |st.rules| <= MAX_RULES
  {
    var groups := Lacking(Listed(st.rules, st.rules.Keys), Groups(st.rules));
    groups[..Min(|groups|, Cap(st.rules, Automatic(st.rules), maximumNew))]
  }

  const MAX_STATE_BYTES: nat := 8 * 1024 * 1024

  /** How large a state is, and by how much a rule inserted between two revisions makes it larger. */
  type Measure = State -> nat
  type Delta = (Rule, nat, nat, bool) -> int

  ghost predicate Exact(size: Measure, delta: Delta) {
    forall st: State, r: Rule, revision {:trigger Grown(st, r, revision)} ::
      r.id !in st.rules ==>
        size(Grown(st, r, revision)) == size(st) + delta(r, st.revision, revision, st.rules != map[])
  }

  ghost function SizeOf(fmt: Format): Measure { st => Size(fmt, st) }

  function DeltaOf(fmt: Format): Delta {
    (r: Rule, before: nat, after: nat, hadRules: bool) => EntryDelta(fmt, r, before, after, hadRules)
  }

  lemma SerializedSizeIsExact(fmt: Format)
    ensures Exact(SizeOf(fmt), DeltaOf(fmt))
  {
    forall st: State, r: Rule, revision | r.id !in st.rules
      ensures SizeOf(fmt)(Grown(st, r, revision))
           == SizeOf(fmt)(st) + DeltaOf(fmt)(r, st.revision, revision, st.rules != map[])
    {
      DeltaIsExact(fmt, st, r, revision);
    }
  }

  /** Adds templates in order while the serialized state fits, and stops before the first that does not. */
  ghost function Migrate(size: Measure, limit: nat, st: State, groups: seq<TemplateKey>, mint: set<nat> -> nat, now: nat): Progress
    decreases |groups|
  {
    if groups == [] then Progress(st, [], None)
    else
      var p := Insert(st, GroupSpec(groups[0]), mint, now);
      if p.error.Some? then p
      else if size(p.state) > limit then Progress(st, [], None)
      else After(p.created, Migrate(size, limit, p.state, groups[1..], mint, now))
  }

  lemma InsertShape(st: State, spec: RuleSpec, mint: set<nat> -> nat, now: nat)
    requires spec.action.Accept? && Insert(st, spec, mint, now).error.None?
    ensures var p := Insert(st, spec, mint, now);
            && |p.created| == 1 && p.created[0].id !in st.rules
            && p.state == Grown(st, p.created[0], st.revision + 1)
  {
  }

  /** Taking the rule out again, with the revision, restores the exact prior state. */
  lemma RollbackRestores(rules: map<nat, Rule>, id: nat, r: Rule)
    requires id !in rules
    ensures rules[id := r] - {id} == rules
  {
  }

  ghost predicate Tried(
    size: Measure, limit: nat, p: Progress, before: State, after: State, r: Result<Option<Rule>, CoreError>)
  {
    match r
    case Err(e) => p.error == Some(e) && after == before == p.state
    case Ok(None) => p.error.None? && size(p.state) > limit && after == before
    case Ok(Some(rule)) => p == Progress(after, [rule], None) && size(p.state) <= limit
  }

  /** All a migration does, seen from the group at `i`. */
  ghost function Unfinished(
    size: Measure, limit: nat, st: State, groups: seq<TemplateKey>, i: nat, created: seq<Rule>, mint: set<nat> -> nat, now: nat)
    : Progress
    requires i <= |groups|
  {
    After(created, Migrate(size, limit, st, groups[i..], mint, now))
  }

  lemma TryAdvances(
    size: Measure, limit: nat, before: State, after: State, groups: seq<TemplateKey>, i: nat, created: seq<Rule>,
    mint: set<nat> -> nat, now: nat, r: Result<Option<Rule>, CoreError>)
    requires i < |groups|
    requires Tried(size, limit, Insert(before, GroupSpec(groups[i]), mint, now), before, after, r)
    ensures var whole := Unfinished(size, limit, before, groups, i, created, mint, now);
            match r
            case Err(e) => whole.state == after && whole.error == Some(e)
            case Ok(None) => whole == Progress(after, created, None)
            case Ok(Some(rule)) => whole == Unfinished(size, limit, after, groups, i + 1, created + [rule], mint, now)
  {
    assert groups[i..][0] == groups[i] && groups[i..][1..] == groups[i + 1..];
    assert created + [] == created;
    if r.Ok? && r.value.Some? {
      var rest := Migrate(size, limit, after, groups[i + 1..], mint, now);
      assert created + ([r.value.value] + rest.created) == (created + [r.value.value]) + rest.created;
    }
  }

  /** One template: kept with its size accounted for, or taken back. */
  method TryTemplate(
    ghost size: Measure, delta: Delta, limit: nat, store: PolicyStore, group: TemplateKey, bytes: int,
    mint: set<nat> -> nat, now: nat)
    returns (r: Result<Option<Rule>, CoreError>, bytes': int)
    requires Exact(size, delta) && StateValid(store.View()) && bytes == size(store.View())
    modifies store
    ensures StateValid(store.View()) && bytes' == size(store.View())
    ensures Tried(size, limit, Insert(old(store.View()), GroupSpec(group), mint, now), old(store.View()), store.View(), r)
  {
    var revision, generation, hadRules := store.revision, store.generation, store.rules != map[];
    ghost var before := store.View();
    var inserted := InsertRule(store, GroupSpec(group), mint, now);
    if inserted.Err? { return Err(inserted.error), bytes; }
    var rule := inserted.value;
    InsertShape(before, GroupSpec(group), mint, now);
    assert store.View() == Grown(before, rule, store.revision);
    bytes' := bytes + delta(rule, revision, store.revision, hadRules);
    if bytes' > limit {
      RollbackRestores(before.rules, rule.id, rule);
      store.rules, store.revision, store.generation := store.rules - {rule.id}, revision, generation;
      return Ok(None), bytes;
    }
    r := Ok(Some(rule));
  }

  method MigrateEach(
    ghost size: Measure, delta: Delta, limit: nat, store: PolicyStore, groups: seq<TemplateKey>, measured: nat,
    mint: set<nat> -> nat, now: nat)
    returns (r: Result<seq<Rule>, CoreError>)
    requires Exact(size, delta) && StateValid(store.View()) && measured == size(store.View())
    modifies store
    ensures StateValid(store.View())
    ensures var p := Migrate(size, limit, old(store.View()), groups, mint, now);
            && store.View() == p.state
            && r == match p.error case None => Ok(p.created) case Some(e) => Err(e)
  {
    var created, bytes: int := [], measured;
    assert groups[0..] == groups;
    for i := 0 to |groups|
      invariant StateValid(store.View()) && bytes == size(store.View())
      invariant Migrate(size, limit, old(store.View()), groups, mint, now)
             == Unfinished(size, limit, store.View(), groups, i, created, mint, now)
    {
      ghost var before := store.View();
      var step;
      step, bytes := TryTemplate(size, delta, limit, store, groups[i], bytes, mint, now);
      TryAdvances(size, limit, before, store.View(), groups, i, created, mint, now, step);
      if step.Err? { return Err(step.error); }
      if step.value.None? { return Ok(created); }
      created := created + [step.value.value];
    }
    assert created + [] == created;
    r := Ok(created);
  }

  /** `listed` is the rules in identifier order and `measured` what the serializer counts for the loaded state. */
  method MigrateTemplates(
    fmt: Format, limit: nat, store: PolicyStore, listed: seq<Rule>, measured: nat, maximumNew: nat,
    mint: set<nat> -> nat, now: nat)
    returns (r: Result<seq<Rule>, CoreError>)
    requires StateValid(store.View())
    requires listed == Listed(store.rules, store.rules.Keys) && measured == SizeOf(fmt)(store.View())
    modifies store
    ensures StateValid(store.View())
    ensures measured > MAX_STATE_BYTES ==> r == Err(StateTooLarge) && store.View() == old(store.View())
    ensures measured <= MAX_STATE_BYTES ==>
              var p := Migrate(SizeOf(fmt), limit, old(store.View()), Wanted(old(store.View()), maximumNew), mint, now);
              && store.View() == p.state
              && r == match p.error case None => Ok(p.created) case Some(e) => Err(e)
  {
    var ix := BuildIndex(store.rules);
    var lacking := CollectLacking(listed, ix.groups);
    var groups := lacking[..Min(|lacking|, Cap(store.rules, ix.automatic, maximumNew))];
    if measured > MAX_STATE_BYTES { return Err(StateTooLarge); }
    SerializedSizeIsExact(fmt);
    r := MigrateEach(SizeOf(fmt), DeltaOf(fmt), limit, store, groups, measured, mint, now);
  }

  // ---------------------------------------------------------------- what a migration guarantees

  /** A migration never grows the state past the limit, only adds, and keeps the state valid, whether it ends, stops
      or fails. */
  lemma {:induction false} MigrationFits(
    size: Measure, limit: nat, st: State, groups: seq<TemplateKey>, mint: set<nat> -> nat, now: nat)
    ensures var p := Migrate(size, limit, st, groups, mint, now);
            && size(p.state) <= Max(size(st), limit)
            && Extends(st, p.state, p.created) && (StateValid(st) ==> StateValid(p.state))
    decreases |groups|
  {
    if groups != [] {
      var p := Insert(st, GroupSpec(groups[0]), mint, now);
      InsertInserts(st, GroupSpec(groups[0]), mint, now);
      if p.error.None? && size(p.state) <= limit {
        MigrationFits(size, limit, p.state, groups[1..], mint, now);
        var rest := Migrate(size, limit, p.state, groups[1..], mint, now);
        ExtendsComposes(st, p.state, rest.state, p.created, rest.created);
      }
    }
  }

  lemma {:induction false} MigrationTakesPrefix(
    size: Measure, limit: nat, st: State, groups: seq<TemplateKey>, mint: set<nat> -> nat, now: nat)
    ensures var p := Migrate(size, limit, st, groups, mint, now);
            |p.created| <= |groups| && forall i :: 0 <= i < |p.created| ==> p.created[i].spec == GroupSpec(groups[i])
    decreases |groups|
  {
    if groups != [] {
      var p := Insert(st, GroupSpec(groups[0]), mint, now);
      if p.error.None? && size(p.state) <= limit {
        MigrationTakesPrefix(size, limit, p.state, groups[1..], mint, now);
      }
    }
  }

  lemma {:induction false} MigrationStopsLate(
    size: Measure, limit: nat, st: State, groups: seq<TemplateKey>, mint: set<nat> -> nat, now: nat)
    ensures var p := Migrate(size, limit, st, groups, mint, now);
            p.error.None? && |p.created| < |groups| ==>
              var next := Insert(p.state, GroupSpec(groups[|p.created|]), mint, now);
              next.error.None? && size(next.state) > limit
    decreases |groups|
  {
    if groups != [] {
      var p := Insert(st, GroupSpec(groups[0]), mint, now);
      if p.error.None? && size(p.state) <= limit {
        MigrationStopsLate(size, limit, p.state, groups[1..], mint, now);
        InsertShape(st, GroupSpec(groups[0]), mint, now);
        var rest := Migrate(size, limit, p.state, groups[1..], mint, now);
        assert Migrate(size, limit, st, groups, mint, now) == After(p.created, rest);
        assert |p.created + rest.created| == |rest.created| + 1;
        assert |rest.created| + 1 < |groups| ==> groups[1..][|rest.created|] == groups[|rest.created| + 1];
      }
    }
  }

  /** It is greedy: the templates created are those of the leading groups, in order, and if it stopped short without
      an error then the next template would not have fitted. */
  lemma MigrationIsGreedy(
    size: Measure, limit: nat, st: State, groups: seq<TemplateKey>, mint: set<nat> -> nat, now: nat)
    ensures var p := Migrate(size, limit, st, groups, mint, now);
            && |p.created| <= |groups|
            && (forall i :: 0 <= i < |p.created| ==> p.created[i].spec == GroupSpec(groups[i]))
            && (p.error.None? && |p.created| < |groups| ==>
                  var next := Insert(p.state, GroupSpec(groups[|p.created|]), mint, now);
                  next.error.None? && size(next.state) > limit)
  {
    MigrationTakesPrefix(size, limit, st, groups, mint, now);
    MigrationStopsLate(size, limit, st, groups, mint, now);
  }

  lemma CreatedTemplatesCount(st: State, final: State, created: seq<Rule>, g: TemplateKey, i: nat)
    requires Extends(st, final, created) && i < |created| && created[i].spec == GroupSpec(g)
    ensures g in Groups(final.rules)
  {
    var r := created[i];
    assert r.id in final.rules && final.rules[r.id] == r && IsTemplate(r);
  }

  /** If nothing cut it short, every learned rule has a template for its executable and group afterwards. */
  lemma MigrationCovers(size: Measure, limit: nat, st: State, mint: set<nat> -> nat, now: nat, r: Rule)
    requires StateValid(st)
    requires var groups := Lacking(Listed(st.rules, st.rules.Keys), Groups(st.rules));
             |Migrate(size, limit, st, groups, mint, now).created| == |groups|
    requires r.id in st.rules && st.rules[r.id] == r && Grouped(r)
    ensures var groups := Lacking(Listed(st.rules, st.rules.Keys), Groups(st.rules));
            GroupOfRule(r) in Groups(Migrate(size, limit, st, groups, mint, now).state.rules)
  {
    var listed := Listed(st.rules, st.rules.Keys);
    var groups := Lacking(listed, Groups(st.rules));
    var p := Migrate(size, limit, st, groups, mint, now);
    ListedHolds(st.rules, st.rules.Keys);
    LackingIsExact(listed, Groups(st.rules));
    MigrationFits(size, limit, st, groups, mint, now);
    MigrationIsGreedy(size, limit, st, groups, mint, now);
    if GroupOfRule(r) in Groups(st.rules) {
      GroupsStay(st, p.state, p.created);
    } else {
      var i :| 0 <= i < |groups| && groups[i] == GroupOfRule(r);
      CreatedTemplatesCount(st, p.state, p.created, GroupOfRule(r), i);
    }
  }
}
