/** Installing a policy into four kernel tables that share no transaction: filter and mangle, for two families.

    Every command may fail, and a failed restore may have committed none, the first or both of its
    tables. The backend records every state the kernel passes through. */
module ApplyProtocol {
  import opened Model
  import RuleComparison

  type Chain = RuleComparison.Chain

  /** What an owned chain holds: only its ownership mark, or the rules of a policy. */
  datatype Entry = Claimed | Rules(policy: nat)

  /** The owned chains a table has. */
  type Content = map<Chain, Entry>

  datatype Tables = Tables(filter: Content, mangle: Content)

  datatype World = World(v4: Tables, v6: Tables)

  function Of(w: World, f: Family): Tables { if f.IPv4? then w.v4 else w.v6 }

  function With(w: World, f: Family, t: Tables): World { if f.IPv4? then w.(v4 := t) else w.(v6 := t) }

  function Other(f: Family): Family { if f.IPv4? then IPv6 else IPv4 }

  datatype Table = Filter | Mangle

  function Get(t: Tables, table: Table): Content { if table.Filter? then t.filter else t.mangle }

  function Put(t: Tables, table: Table, c: Content): Tables {
    if table.Filter? then t.(filter := c) else t.(mangle := c)
  }

  function Owned(table: Table): set<Chain> {
    match table
    case Filter => {RuleComparison.AppPacket, RuleComparison.AppTcp, RuleComparison.Forward, RuleComparison.Input,
                    RuleComparison.Output}
    case Mangle => {RuleComparison.MarkSanitize, RuleComparison.Observe}
  }

  /** A table in which every owned chain holds the policy. */
  function Script(table: Table, p: nat): Content { map c | c in Owned(table) :: Rules(p) }

  function Both(p: nat): Tables { Tables(Script(Filter, p), Script(Mangle, p)) }

  /** Some chain holds rules of the policy. */
  predicate Uses(content: Content, p: nat) { exists c :: c in content && content[c] == Rules(p) }

  lemma ScriptsDiffer(table: Table, p: nat, q: nat)
    ensures Uses(Script(table, p), q) <==> p == q
  {
    var c := if table.Filter? then RuleComparison.Input else RuleComparison.Observe;
    assert c in Owned(table);
    if p == q { assert Script(table, p)[c] == Rules(q); }
  }

  /** A family whose filter runs any of a new active policy has its whole mangle table, and the other family's
      filter is wholly on the new policy or wholly on BlockAll. */
  predicate SafeFor(w: World, f: Family, policy: nat, block: nat) {
    policy != block && Uses(Of(w, f).filter, policy) ==>
      && Of(w, f).mangle == Script(Mangle, policy)
      && Decides(Of(w, Other(f)), policy, block)
  }

  /** The filter is wholly on the new policy or on BlockAll. */
  predicate Decides(t: Tables, policy: nat, block: nat) {
    t.filter == Script(Filter, policy) || t.filter == Script(Filter, block)
  }

  predicate Safe(w: World, policy: nat, block: nat) { SafeFor(w, IPv4, policy, block) && SafeFor(w, IPv6, policy, block) }

  predicate Installed(w: World, p: nat) { w.v4 == w.v6 == Both(p) }

  /** Nothing of an older policy decides any more. */
  predicate Settled(w: World, policy: nat, block: nat) { Decides(w.v4, policy, block) && Decides(w.v6, policy, block) }

  /** The table with its missing chains claimed. */
  function Completed(content: Content, table: Table): Content {
    content + map c | c in Owned(table) - content.Keys :: Claimed
  }

  lemma CompletedKeeps(content: Content, table: Table, p: nat)
    ensures Uses(Completed(content, table), p) <==> Uses(content, p)
    ensures Owned(table) <= content.Keys ==> Completed(content, table) == content
  {
    var next := Completed(content, table);
    forall c | c in content ensures c in next && next[c] == content[c] {}
  }

  lemma ScriptIsComplete(table: Table, p: nat)
    ensures Completed(Script(table, p), table) == Script(table, p)
  {
  }

  /** A family after the first `committed` tables of a restore. */
  function Partly(t: Tables, p: nat, filterFirst: bool, committed: nat): Tables {
    if committed == 0 then t
    else if committed >= 2 then Both(p)
    else if filterFirst then t.(filter := Script(Filter, p))
    else t.(mangle := Script(Mangle, p))
  }

  /** `committed` tables went through before the command failed. */
  datatype Fault = Fine | Fails(committed: nat)

  /** The command each stage of an activation ended at. */
  datatype Stages = Stages(prepared: nat, validated: nat, closed: nat, applied: nat)

  datatype Outcome =
    | Applied
    | ValidationFailed
    | QuarantineFailed
    | Restored          // an error, reported as: BlockAll was restored
    | PreparationLost   // neither the preparation nor the emergency succeeded
    | EmergencyFailed

  class XtablesBackend {
    const faults: nat -> Fault
    const block: nat
    var world: World
    var expected: Option<nat>
    var clock: nat
    var trace: seq<World>

    constructor (faults: nat -> Fault, block: nat, world: World)
      ensures this.faults == faults && this.block == block && this.world == world
      ensures trace == [world] && expected == None
    {
      this.faults, this.block, this.world, expected, clock, trace := faults, block, world, None, 0, [world];
    }

    ghost predicate Sound(policy: nat)
      reads this
    {
      world in trace && forall w :: w in trace ==> Safe(w, policy, block)
    }

    /** None of the commands from `a` up to `b` failed. */
    ghost predicate Smooth(a: nat, b: nat) { forall k :: a <= k < b ==> faults(k).Fine? }

    method NextFault() returns (fault: Fault)
      modifies this`clock
      ensures fault == faults(old(clock)) && clock == old(clock) + 1
    {
      fault := faults(clock);
      clock := clock + 1;
    }

    /** One table commit. */
    method Commit(f: Family, table: Table, c: Content, ghost policy: nat)
      requires Sound(policy)
      requires Safe(With(world, f, Put(Of(world, f), table, c)), policy, block)
      modifies this`world, this`trace
      ensures Sound(policy) && world == With(old(world), f, Put(old(Of(world, f)), table, c))
      ensures old(trace) <= trace
    {
      world := With(world, f, Put(Of(world, f), table, c));
      trace := trace + [world];
    }

    /** A restore of BlockAll commits the filter first, one of an active policy the mangle table first; a failed one
        leaves as many tables as it committed. */
    method Restore(f: Family, p: nat, ghost policy: nat) returns (ok: bool)
      requires Sound(policy)
      requires p == block || (p == policy && Settled(world, policy, block))
      modifies this`world, this`trace, this`clock
      ensures Sound(policy) && old(trace) <= trace
      ensures Of(world, Other(f)) == old(Of(world, Other(f)))
      ensures clock == old(clock) + 1 && (ok <==> Smooth(old(clock), clock))
      ensures Of(world, f) == Partly(old(Of(world, f)), p, p == block, if ok then 2 else faults(old(clock)).committed)
      ensures old(Settled(world, policy, block)) ==> Settled(world, policy, block)
      ensures p == block && old(Of(world, f)) == Both(block) ==> world == old(world)
    {
      var first, second := if p == block then Filter else Mangle, if p == block then Mangle else Filter;
      var fault := NextFault();
      ok := fault.Fine?;
      var commits := if fault.Fine? then 2 else fault.committed;
      ScriptsDiffer(Filter, p, policy);
      if commits >= 1 { Commit(f, first, Script(first, p), policy); }
      if commits >= 2 { Commit(f, second, Script(second, p), policy); }
    }

    /** Claims exactly the owned chains a table does not have yet; the others it only inspects. */
    method EnsureChains(f: Family, table: Table, ghost policy: nat) returns (ok: bool)
      requires Sound(policy)
      modifies this`world, this`trace, this`clock
      ensures Sound(policy) && old(trace) <= trace
      ensures world == old(world) || world == old(With(world, f, Put(Of(world, f), table, Completed(Get(Of(world, f), table), table))))
      ensures ok ==> world == old(With(world, f, Put(Of(world, f), table, Completed(Get(Of(world, f), table), table))))
      ensures old(clock) < clock && (ok <==> Smooth(old(clock), clock))
    {
      CompletedKeeps(Get(Of(world, f), table), table, policy);
      var inspected := NextFault();
      if inspected.Fails? { return false; }
      var content := Get(Of(world, f), table);
      var missing := Owned(table) - content.Keys;
      if missing != {} {
        var fault := NextFault();
        if fault.Fine? || fault.committed > 0 { Commit(f, table, content + map c | c in missing :: Claimed, policy); }
        if fault.Fails? { return false; }
      }
      var verified := NextFault();
      ok := verified.Fine?;
    }

    method ClaimChains(f: Family, ghost policy: nat) returns (ok: bool)
      requires Sound(policy)
      modifies this`world, this`trace, this`clock
      ensures Sound(policy) && old(trace) <= trace
      ensures Of(world, Other(f)) == old(Of(world, Other(f)))
      ensures old(clock) < clock && (ok <==> Smooth(old(clock), clock))
      ensures old(Settled(world, policy, block)) ==> Settled(world, policy, block)
      ensures old(Of(world, f)) == Both(block) ==> world == old(world)
    {
      ScriptIsComplete(Filter, policy);
      ScriptIsComplete(Filter, block);
      ScriptIsComplete(Mangle, block);
      ok := EnsureChains(f, Mangle, policy);
      if ok { ok := EnsureChains(f, Filter, policy); }
    }

    method InstallOwned(f: Family, p: nat, ghost policy: nat) returns (ok: bool)
      requires Sound(policy)
      requires p == block || (p == policy && Settled(world, policy, block))
      modifies this`world, this`trace, this`clock
      ensures Sound(policy) && old(trace) <= trace
      ensures Of(world, Other(f)) == old(Of(world, Other(f)))
      ensures ok ==> Of(world, f) == Both(p)
      ensures old(clock) < clock && (ok <==> Smooth(old(clock), clock))
      ensures old(Settled(world, policy, block)) ==> Settled(world, policy, block)
      ensures p == block && old(Of(world, f)) == Both(block) ==> world == old(world)
    {
      ok := ClaimChains(f, policy);
      if ok { ok := Restore(f, p, policy); }
    }

    /** Claim the chains, close the family, hang up the dispatchers, inspect the result. */
    method EnsureTopology(f: Family, ghost policy: nat) returns (ok: bool)
      requires Sound(policy)
      modifies this`world, this`trace, this`clock
      ensures Sound(policy) && old(trace) <= trace
      ensures Of(world, Other(f)) == old(Of(world, Other(f)))
      ensures ok ==> Of(world, f) == Both(block)
      ensures old(clock) < clock && (ok <==> Smooth(old(clock), clock))
      ensures old(Settled(world, policy, block)) ==> Settled(world, policy, block)
    {
      ok := InstallOwned(f, block, policy);
      if !ok { return; }
      var dispatched := NextFault();
      if dispatched.Fails? { return false; }
      var inspected := NextFault();
      ok := inspected.Fine?;
    }

    /** Both families are attempted, whatever becomes of the first. */
    method Prepare(ghost policy: nat) returns (ok: bool)
      requires Sound(policy)
      modifies this`world, this`trace, this`clock
      ensures Sound(policy) && old(trace) <= trace
      ensures ok ==> Installed(world, block)
      ensures old(clock) < clock && (ok <==> Smooth(old(clock), clock))
    {
      var v4 := EnsureTopology(IPv4, policy);
      var v6 := EnsureTopology(IPv6, policy);
      ok := v4 && v6;
    }

    /** A dry run changes nothing. */
    method ValidatePair() returns (ok: bool)
      modifies this`clock
      ensures old(clock) < clock && (ok <==> Smooth(old(clock), clock))
    {
      var v4 := NextFault();
      if v4.Fails? { return false; }
      var v6 := NextFault();
      ok := v6.Fine?;
    }

    method ApplyPair(policy: nat) returns (ok: bool)
      requires Sound(policy) && Settled(world, policy, block)
      modifies this`world, this`trace, this`clock
      ensures Sound(policy) && old(trace) <= trace && Settled(world, policy, block)
      ensures ok ==> Installed(world, policy)
      ensures old(clock) < clock && (ok <==> Smooth(old(clock), clock))
    {
      ok := InstallOwned(IPv4, policy, policy);
      if !ok { return; }
      ok := InstallOwned(IPv6, policy, policy);
    }

    /** Both families are read back and compared before they count as expected. */
    method RecordExpected(p: nat) returns (ok: bool)
      modifies this`clock, this`expected
      ensures ok ==> Installed(world, p) && expected == Some(p)
      ensures !ok ==> expected == old(expected)
      ensures old(clock) < clock && (ok <==> Smooth(old(clock), clock) && Installed(world, p))
    {
      var v4 := NextFault();
      if v4.Fails? { return false; }
      var v6 := NextFault();
      if v6.Fails? { return false; }
      ok := world.v4 == Both(p) && world.v6 == Both(p);
      if ok { expected := Some(p); }
    }

    method EmergencyBlockAll(ghost policy: nat) returns (ok: bool)
      requires Sound(policy)
      modifies this`world, this`trace, this`clock, this`expected
      ensures Sound(policy) && old(trace) <= trace
      ensures ok ==> Installed(world, block) && expected == Some(block)
      ensures old(Settled(world, policy, block)) ==> Settled(world, policy, block)
      ensures old(Installed(world, block)) ==> world == old(world)
      ensures old(clock) < clock && (ok <==> Smooth(old(clock), clock))
    {
      var v4 := InstallOwned(IPv4, block, policy);
      var v6 := InstallOwned(IPv6, block, policy);
      ok := v4 && v6;
      if ok { ok := RecordExpected(block); }
    }

    /** The whole activation. At no point does one family decide by the new policy while the other decides by an
        older one, or a new filter run without its mangle table; success means both families hold the new policy and
        were read back; an error reported as restored means both are blocked and were read back; and after
        preparation no error leaves an older policy deciding. Which outcome it is, the commands that failed decide:
        the policy is applied exactly when none did. */
    method CheckedApply(policy: nat) returns (outcome: Outcome, ghost stages: Stages)
      requires Sound(policy)
      modifies this
      ensures forall w :: w in trace ==> Safe(w, policy, block)
      ensures old(trace) <= trace && world in trace
      ensures outcome.Applied? ==> Installed(world, policy) && expected == Some(policy)
      ensures outcome.Restored? ==> Installed(world, block) && expected == Some(block)
      ensures outcome.ValidationFailed? || outcome.QuarantineFailed? ==> Installed(world, block)
      ensures outcome.PreparationLost? || Settled(world, policy, block)
      ensures outcome.Applied? <==> Smooth(old(clock), clock)
      ensures old(clock) < stages.prepared <= stages.validated <= stages.closed <= stages.applied <= clock
      ensures outcome.Applied? ==> stages.prepared < stages.validated < stages.closed < stages.applied == clock
      ensures outcome == OutcomeOf(old(clock), stages, clock)
    {
      var prepared := Prepare(policy);
      stages := Stages(clock, clock, clock, clock);
      if !prepared {
        var restored := EmergencyBlockAll(policy);
        outcome := if restored then Restored else PreparationLost;
        return;
      }
      var valid := ValidatePair();
      stages := Stages(stages.prepared, clock, clock, clock);
      if !valid { outcome := ValidationFailed; return; }
      var closed := EmergencyBlockAll(policy);
      stages := Stages(stages.prepared, stages.validated, clock, clock);
      if !closed { outcome := QuarantineFailed; return; }
      var applied := ApplyPair(policy);
      if applied { applied := RecordExpected(policy); }
      stages := Stages(stages.prepared, stages.validated, stages.closed, clock);
      if applied { outcome := Applied; return; }
      var restored := EmergencyBlockAll(policy);
      outcome := if restored then Restored else EmergencyFailed;
    }

    /** The outcome of an activation whose stages ended at these commands. */
    ghost function OutcomeOf(start: nat, stages: Stages, end: nat): Outcome {
      if !Smooth(start, stages.prepared) then if Smooth(stages.prepared, end) then Restored else PreparationLost
      else if !Smooth(stages.prepared, stages.validated) then ValidationFailed
      else if !Smooth(stages.validated, stages.closed) then QuarantineFailed
      else if !Smooth(stages.closed, stages.applied) then if Smooth(stages.applied, end) then Restored else EmergencyFailed
      else Applied
    }

    /** Closing the firewall succeeds exactly when the emergency step does, whatever became of the preparation. */
    method FailClosed(ghost policy: nat) returns (ok: bool, ghost prepared: nat)
      requires Sound(policy)
      modifies this
      ensures Sound(policy) && old(trace) <= trace
      ensures ok ==> Installed(world, block) && expected == Some(block)
      ensures old(clock) < prepared < clock && (ok <==> Smooth(prepared, clock))
    {
      var attempted := Prepare(policy);
      prepared := clock;
      ok := EmergencyBlockAll(policy);
    }
  }
}
