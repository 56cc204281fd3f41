/** Inbound replies that race their authorization are deferred through queue 1339.
    The consumer can only drop or repeat, so deferral is bounded and grants nothing. */
module ReplyDeferral {
  import opened Model
  import opened Marks
  import opened Netfilter
  import opened RuleBlocks
  import opened Compilers

  /** The packet at its k-th traversal: k retries counted, and the conntrack record as it is by then. */
  function Arriving(p: Packet, world: nat -> Conn, k: nat): Packet {
    if k == 0 then p.(ct := world(0))
    else Arriving(p, world, k - 1).(mark := RetryMark(Arriving(p, world, k - 1).mark), ct := world(k))
  }

  /** INPUT from the k-th traversal on; `release(k)` is the consumer's choice to repeat rather than drop.
      The second component counts the repetitions that were needed. */
  function RunInput(rules: seq<FwRule>, p: Packet, world: nat -> Conn, release: nat -> bool, k: nat, limit: nat)
    : Option<(Outcome, nat)>
    decreases limit
  {
    match Traverse(rules, Arriving(p, world, k))
    case Stopped(Pass, q) => Some((Outcome(Accepted, q), k))
    case Stopped(Enqueue(_), q) =>
      if !release(k) then Some((Outcome(Dropped, q), k))
      else if limit == 0 then None
      else RunInput(rules, p, world, release, k + 1, limit - 1)
    case step => Some((Outcome(Dropped, step.packet), k))
  }

  function WithoutQueues(rules: seq<FwRule>): seq<FwRule> {
    if rules == [] then []
    else (if rules[0].target.Enqueue? then [] else [rules[0]]) + WithoutQueues(rules[1..])
  }

  // ---------------------------------------------------------------- what input chains look like

  /** No input rule touches marks, and every queue rule spares packets whose retries are spent. */
  predicate Inert(r: FwRule) {
    r.effects == [] && (r.target.Enqueue? ==> OnDomainNot(Handoff) in r.sel)
  }

  predicate AllInert(rules: seq<FwRule>) { forall r :: r in rules ==> Inert(r) }

  lemma AllInertConcat(a: seq<FwRule>, b: seq<FwRule>)
    requires AllInert(a) && AllInert(b)
    ensures AllInert(a + b)
  {
  }

  lemma {:induction false} SectionIsInert(e: Emitter, rules: seq<Rule>)
    requires e.NftVerdict? || e.XtVerdict? ==> e.dir.Inbound? && forall r :: r in rules ==> r.spec.action.Accept?
    requires e.NftVerdict? || e.XtVerdict? || e.NftReplyQueue? || e.XtReplyQueue?
    ensures AllInert(Section(e, rules))
  {
    if rules != [] {
      SectionIsInert(e, rules[1..]);
      assert AllInert(Emit(e, rules[0])) by {
        assert rules[0] in rules;
      }
      AllInertConcat(Emit(e, rules[0]), Section(e, rules[1..]));
    }
  }

  lemma {:induction false} PerProtocolIsInert(nft: bool, ps: seq<Protocol>, before: seq<Match>, after: seq<Match>)
    ensures AllInert(PerProtocol(nft, ps, before, after, [], Pass))
  {
    if ps != [] {
      PerProtocolIsInert(nft, ps[1..], before, after);
    }
  }

  lemma AcceptsOnly(s: Snapshot, dir: Direction, f: Option<Family>)
    ensures forall r :: r in NetworkRules(s, dir, {Accept}, f) ==> r.spec.action.Accept?
  {
  }

  lemma NftStampsAreInert(s: Snapshot)
    ensures AllInert(NftLoopback(s, Inbound)) && AllInert(NftFlows(s, Inbound)) && AllInert(NftRejectReplies(s, Inbound))
  {
    var loopback := [OnIif("lo"), OnCtDir(Original), OnCtState({New, Established})];
    var flows := [OnCtDir(Reply), OnCtState({Established})];
    PerProtocolIsInert(true, ReplyProtocols(Attribution(s)), loopback, [OnConnmark(true, s.generation)]);
    PerProtocolIsInert(true, ReplyProtocols(Attribution(s)), flows, [OnConnmark(true, s.generation)]);
  }

  lemma NftTailIsInert(s: Snapshot)
    ensures AllInert(NftInput5(s))
  {
    var direct := Section(NftVerdicts(s, Inbound, false), NetworkRules(s, Inbound, {Accept}, None));
    var reverse := Section(NftVerdicts(s, Inbound, true), NetworkRules(s, Outbound, {Accept}, None));
    AcceptsOnly(s, Inbound, None);
    AcceptsOnly(s, Outbound, None);
    SectionIsInert(NftVerdicts(s, Inbound, false), NetworkRules(s, Inbound, {Accept}, None));
    SectionIsInert(NftVerdicts(s, Inbound, true), NetworkRules(s, Outbound, {Accept}, None));
    SectionIsInert(NftReplyQueue, ReplyCandidates(ApplicationRules(s, {Accept}, None)));
    AllInertConcat(NftReplyQueues(s), DROP_REST);
    AllInertConcat(reverse, NftReplyQueues(s) + DROP_REST);
    AllInertConcat(direct, NftInput6(s));
  }

  lemma NftInputIsInert(s: Snapshot)
    ensures AllInert(NftInput(s))
  {
    if !s.mode.BlockAll? {
      NftTailIsInert(s);
      NftStampsAreInert(s);
      AllInertConcat(NftFlows(s, Inbound), NftInput5(s));
      AllInertConcat(NftLoopback(s, Inbound), NftInput4(s));
      AllInertConcat(LearningInput(s.mode), NftInput3(s));
      assert AllInert(NftInput1(s));
      AllInertConcat(NftRejectReplies(s, Inbound), NftInput1(s));
    }
  }

  lemma XtStampsAreInert(s: Snapshot, f: Family)
    ensures AllInert(XtLoopback(s, f, Inbound)) && AllInert(XtFlows(s, f, Inbound)) && AllInert(XtRejectReplies(s, f))
  {
    var stamp := [OnConnmark(true, s.generation)];
    var protocols := FamilyProtocols(ReplyProtocols(Attribution(s)), f);
    PerProtocolIsInert(false, protocols, [OnIif("lo")], [OnCtState({New, Established}), OnCtDir(Original)] + stamp);
    PerProtocolIsInert(false, protocols, [], [OnCtState({Established}), OnCtDir(Reply), OnConnmark(true, s.generation)]);
  }

  lemma XtTailIsInert(s: Snapshot, f: Family)
    ensures AllInert(XtInput5(s, f))
  {
    var direct := Section(XtVerdicts(s, Inbound, false), NetworkRules(s, Inbound, {Accept}, Some(f)));
    var reverse := Section(XtVerdicts(s, Inbound, true), NetworkRules(s, Outbound, {Accept}, Some(f)));
    AcceptsOnly(s, Inbound, Some(f));
    AcceptsOnly(s, Outbound, Some(f));
    SectionIsInert(XtVerdicts(s, Inbound, false), NetworkRules(s, Inbound, {Accept}, Some(f)));
    SectionIsInert(XtVerdicts(s, Inbound, true), NetworkRules(s, Outbound, {Accept}, Some(f)));
    SectionIsInert(XtReplyQueue, Supporting(ReplyCandidates(ApplicationRules(s, {Accept}, None)), f));
    AllInertConcat(XtReplyQueues(s, f), DROP_REST);
    AllInertConcat(reverse, XtReplyQueues(s, f) + DROP_REST);
    AllInertConcat(direct, XtInput6(s, f));
  }

  lemma XtInputIsInert(s: Snapshot, f: Family)
    ensures AllInert(XtInput(s, f))
  {
    if !s.mode.BlockAll? {
      XtTailIsInert(s, f);
      XtStampsAreInert(s, f);
      AllInertConcat(XtFlows(s, f, Inbound), XtInput5(s, f));
      AllInertConcat(XtLoopback(s, f, Inbound), XtInput4(s, f));
      AllInertConcat(LearningInput(s.mode), XtInput3(s, f));
      AllInertConcat(XtRejectReplies(s, f), XtInput2(s, f));
      var control := if f.IPv6? then [FwRule([OnControlPlane], [], Pass)] else [];
      AllInertConcat(control, XtInput1(s, f));
    }
  }

  // ---------------------------------------------------------------- deferral is bounded

  lemma {:induction false} InertTraversal(rules: seq<FwRule>, p: Packet)
    requires AllInert(rules)
    ensures Traverse(rules, p).packet == p
    ensures var step := Traverse(rules, p);
            step.Stopped? && step.target.Enqueue? ==> !p.mark.domain.Handoff?
  {
    if rules != [] {
      assert rules[0] in rules;
      EmptyEffects(p);
      if !Applies(rules[0], p) || rules[0].target.Continue? {
        InertTraversal(rules[1..], p);
      }
    }
  }

  lemma {:induction false} QueuesOnlyDelay(rules: seq<FwRule>, p: Packet)
    requires AllInert(rules)
    ensures var step := Traverse(rules, p);
            step.Stopped? && step.target.Pass? ==> Traverse(WithoutQueues(rules), p) == step
  {
    if rules != [] {
      assert rules[0] in rules;
      EmptyEffects(p);
      QueuesOnlyDelay(rules[1..], p);
      if rules[0].target.Enqueue? {
        assert WithoutQueues(rules) == WithoutQueues(rules[1..]);
      } else {
        assert WithoutQueues(rules)[1..] == WithoutQueues(rules[1..]);
      }
    }
  }

  lemma {:induction false} ArrivingMark(p: Packet, world: nat -> Conn, k: nat)
    ensures Arriving(p, world, k).mark.host == p.mark.host
    ensures RetriesLeft(Arriving(p, world, k).mark) == if k <= RetriesLeft(p.mark) then RetriesLeft(p.mark) - k else 0
    ensures Arriving(p, world, k) == p.(mark := Arriving(p, world, k).mark, ct := world(k))
  {
    if k > 0 {
      ArrivingMark(p, world, k - 1);
    }
  }

  /** An ended run: within the retry budget, the host's mark bits intact, and nothing accepted that the
      chain without its queue rules would not accept. */
  predicate Sound(rules: seq<FwRule>, p: Packet, world: nat -> Conn, out: Outcome, last: nat) {
    && last <= RetriesLeft(p.mark) && out.packet.mark.host == p.mark.host
    && out.packet == Arriving(p, world, last)
    && (out.verdict.Accepted? ==> Traverse(WithoutQueues(rules), out.packet) == Stopped(Pass, out.packet))
  }

  /** From any starting mark the chain is repeated at most as often as retries are left. */
  lemma {:induction false} DeferralIsBoundedAndGrantsNothing(
      rules: seq<FwRule>, p: Packet, world: nat -> Conn, release: nat -> bool, k: nat, limit: nat)
    requires AllInert(rules) && k <= RetriesLeft(p.mark) <= k + limit
    ensures var run := RunInput(rules, p, world, release, k, limit);
            run.Some? && Sound(rules, p, world, run.value.0, run.value.1)
    decreases limit
  {
    var q := Arriving(p, world, k);
    ArrivingMark(p, world, k);
    InertTraversal(rules, q);
    QueuesOnlyDelay(rules, q);
    var step := Traverse(rules, q);
    if step.Stopped? && step.target.Enqueue? && release(k) {
      assert !q.mark.domain.Handoff?;
      DeferralIsBoundedAndGrantsNothing(rules, p, world, release, k + 1, limit - 1);
    }
  }

  /** The same for the input chains both compilers emit; three repetitions always suffice. */
  lemma CompiledInputDefersSafely(s: Snapshot, p: Packet, world: nat -> Conn, release: nat -> bool, xt: bool)
    ensures
      var rules := if xt then XtInput(s, p.family) else NftInput(s);
      var run := RunInput(rules, p, world, release, 0, 3);
      run.Some? && Sound(rules, p, world, run.value.0, run.value.1)
  {
    NftInputIsInert(s);
    XtInputIsInert(s, p.family);
    DeferralIsBoundedAndGrantsNothing(if xt then XtInput(s, p.family) else NftInput(s), p, world, release, 0, 3);
  }
}
