/** Every compiled generation fits the payload bits, so the whole outbound program can be read on words;
    what the programs promise about marks then holds of the 32-bit words themselves. */
module WireIsolation {
  import opened Model
  import opened Marks
  import opened Netfilter
  import opened RuleBlocks
  import opened Compilers
  import opened Outbound
  import opened PolicyProperties
  import opened Wire

  // ---------------------------------------------------------------- compiled generations fit

  predicate SelFits(sel: seq<Match>) { forall m :: m in sel ==> MatchFits(m) }

  predicate EffectsFit(effects: seq<Effect>) { forall e :: e in effects ==> EffectFits(e) }

  lemma RuleFits(r: FwRule)
    requires SelFits(r.sel) && EffectsFit(r.effects)
    ensures AllFit([r])
  {
  }

  lemma AllFitConcat(a: seq<FwRule>, b: seq<FwRule>)
    requires AllFit(a) && AllFit(b)
    ensures AllFit(a + b)
  {
  }

  lemma SelectorsFit(spec: RuleSpec, dir: Direction, reverse: bool)
    ensures SelFits(NftSelectors(spec, dir, reverse)) && SelFits(XtSelectors(spec, dir, reverse))
  {
  }

  predicate EmitterFits(e: Emitter) { e.NftVerdict? || e.XtVerdict? ==> e.generation <= MAX_GENERATION }

  lemma VerdictFits(e: Emitter, r: Rule)
    requires EmitterFits(e) && (e.NftVerdict? || e.XtVerdict?)
    ensures AllFit(Emit(e, r))
  {
    SelectorsFit(r.spec, e.dir, e.reverse);
  }

  lemma GuardFits(e: Emitter, r: Rule)
    requires e.NftGuard? || e.XtGuard?
    ensures AllFit(Emit(e, r))
  {
    SelectorsFit(r.spec, Outbound, false);
    assert SelFits(InterfaceMatch(r.spec, Outbound)) && SelFits(OriginalTuple(r.spec));
    assert SelFits(NftProtocol(r.spec.protocol)) && SelFits(XtProtocol(r.spec.protocol));
  }

  lemma QueueFits(e: Emitter, r: Rule)
    requires e.NftQueue? || e.XtQueue? || e.XtObserver?
    ensures AllFit(Emit(e, r))
  {
    SelectorsFit(r.spec, Outbound, false);
  }

  lemma ReplyQueueFits(e: Emitter, r: Rule)
    requires e.NftReplyQueue? || e.XtReplyQueue?
    ensures AllFit(Emit(e, r))
  {
    SelectorsFit(r.spec, Inbound, true);
    assert SelFits(EchoReply(r.spec.protocol));
  }

  lemma EmitFits(e: Emitter, r: Rule)
    requires EmitterFits(e)
    ensures AllFit(Emit(e, r))
  {
    if e.NftVerdict? || e.XtVerdict? { VerdictFits(e, r); }
    else if e.NftGuard? || e.XtGuard? { GuardFits(e, r); }
    else if e.NftReplyQueue? || e.XtReplyQueue? { ReplyQueueFits(e, r); }
    else { QueueFits(e, r); }
  }

  lemma {:induction false} SectionFits(e: Emitter, rules: seq<Rule>)
    requires EmitterFits(e)
    ensures AllFit(Section(e, rules))
  {
    if rules != [] {
      EmitFits(e, rules[0]);
      SectionFits(e, rules[1..]);
      AllFitConcat(Emit(e, rules[0]), Section(e, rules[1..]));
    }
  }

  lemma {:induction false} PerProtocolFits(nft: bool, ps: seq<Protocol>, before: seq<Match>, after: seq<Match>,
                                           effects: seq<Effect>, target: Target)
    requires SelFits(before) && SelFits(after) && EffectsFit(effects)
    ensures AllFit(PerProtocol(nft, ps, before, after, effects, target))
  {
    if ps != [] {
      var protocol := if nft then NftProtocol(ps[0]) else XtProtocol(ps[0]);
      assert SelFits(protocol);
      RuleFits(FwRule(before + protocol + after, effects, target));
      PerProtocolFits(nft, ps[1..], before, after, effects, target);
    }
  }

  lemma NftStampsFit(s: Snapshot)
    requires s.generation <= MAX_GENERATION
    ensures AllFit(NftLoopback(s, Outbound)) && AllFit(NftFlows(s, Outbound)) && AllFit(NftResets(s))
  {
    var i, stamp, handoff := Attribution(s), [OnConnmark(true, s.generation)], [SetDomain(Handoff)];
    PerProtocolFits(true, ReplyProtocols(i), [OnOif("lo"), OnCtDir(Reply), OnCtState({Established})], stamp, handoff, Pass);
    PerProtocolFits(true, [Tcp], [OnCtDir(Original), OnCtState({Established})], stamp, handoff, Pass);
    PerProtocolFits(true, NON_TCP, [OnCtDir(Original)], [], [NftConnmark(false, 0)], Continue);
  }

  lemma NftEndFits(s: Snapshot)
    requires s.generation <= MAX_GENERATION
    ensures AllFit(NftOutput9(s))
  {
    SectionFits(NftVerdicts(s, Outbound, false), NetworkRules(s, Outbound, {Accept}, None));
    ObservationFits(SYN_ACK);
  }

  lemma ObservationFits(synMask: Flags)
    ensures AllFit(ObserveQueue(synMask))
  {
  }

  lemma NftTailFits(s: Snapshot)
    requires s.generation <= MAX_GENERATION
    ensures AllFit(NftOutput6(s))
  {
    NftEndFits(s);
    SectionFits(NftGuard, ApplicationRules(s, QueuedActions(s.mode), None));
    AllFitConcat(Section(NftGuard, ApplicationRules(s, QueuedActions(s.mode), None)), NftOutput9(s));
    SectionFits(NftQueue, ApplicationRules(s, QueuedActions(s.mode), None));
    AllFitConcat(Section(NftQueue, ApplicationRules(s, QueuedActions(s.mode), None)), NftOutput8(s));
    var replies := Section(NftVerdicts(s, Outbound, true), NetworkRules(s, Inbound, {Accept}, None));
    SectionFits(NftVerdicts(s, Outbound, true), NetworkRules(s, Inbound, {Accept}, None));
    AllFitConcat(replies, NftOutput7(s));
  }

  lemma NftOutputFits(s: Snapshot)
    requires s.generation <= MAX_GENERATION
    ensures AllFit(NftOutput(s))
  {
    NftTailFits(s);
    NftStampsFit(s);
    AllFitConcat(NftResets(s), NftOutput6(s));
    AllFitConcat(NftFlows(s, Outbound), NftOutput5(s));
    AllFitConcat(NftLoopback(s, Outbound), NftOutput4(s));
    var denies := Section(NftVerdicts(s, Outbound, false), NetworkRules(s, Outbound, {Drop, Reject}, None));
    SectionFits(NftVerdicts(s, Outbound, false), NetworkRules(s, Outbound, {Drop, Reject}, None));
    AllFitConcat(denies, NftOutput3(s));
    var invalid := if s.mode.Enforcing? then [FwRule([OnInvalid], [], Deny)] else [];
    AllFitConcat(invalid, NftOutput2(s));
    NftRejectRepliesFit(s);
    AllFitConcat(NftRejectReplies(s, Outbound), NftOutput1(s));
  }

  lemma NftRejectRepliesFit(s: Snapshot)
    requires s.generation <= MAX_GENERATION
    ensures AllFit(NftRejectReplies(s, Outbound))
  {
  }

  lemma NftAuthorizeFits(s: Snapshot)
    requires s.generation <= MAX_GENERATION
    ensures AllFit(NftAuthorize(s))
  {
    var i, stamp := Attribution(s), [NftConnmark(false, s.generation)];
    var refusals := if i.NoInterception? then []
      else [FwRule([OnL4(TCP), OnDomain(Rejected)], stamp, Refuse(true)), FwRule([OnDomain(Rejected)], stamp, Refuse(false))];
    var grants := [NftConnmark(true, s.generation), SetDomain(Clear)];
    PerProtocolFits(true, ReplyProtocols(i), [], [OnDomain(Pending)], grants, Pass);
    AllFitConcat(refusals, PerProtocol(true, ReplyProtocols(i), [], [OnDomain(Pending)], grants, Pass));
  }

  lemma XtStampsFit(s: Snapshot, f: Family)
    requires s.generation <= MAX_GENERATION
    ensures AllFit(XtLoopback(s, f, Outbound)) && AllFit(XtFlows(s, f, Outbound)) && AllFit(XtResets(s, f))
  {
    var stamp := [OnConnmark(true, s.generation)];
    PerProtocolFits(false, FamilyProtocols(ReplyProtocols(Attribution(s)), f), [OnOif("lo")],
                    [OnCtState({Established}), OnCtDir(Reply)] + stamp, [], Pass);
    PerProtocolFits(false, [Tcp], [], [OnCtState({Established}), OnCtDir(Original), OnConnmark(true, s.generation)], [], Pass);
    PerProtocolFits(false, FamilyProtocols(NON_TCP, f), [], [OnCtDir(Original)], [XtConnmark(false, 0)], Continue);
  }

  lemma XtHandoffsFit(s: Snapshot, f: Family)
    requires s.generation <= MAX_GENERATION
    ensures AllFit(XtHandoffs(s, f))
  {
    PerProtocolFits(false, FamilyProtocols(NON_TCP, f), [], [OnDomain(Handoff)], [], GoTo(AppPacket));
    assert AllFit(PacketHandoffs(s, f)) && AllFit(XtRefusals(s));
  }

  lemma XtTailFits(s: Snapshot, f: Family)
    requires s.generation <= MAX_GENERATION
    ensures AllFit(XtOutput8(s, f))
  {
    SectionFits(XtVerdicts(s, Outbound, false), NetworkRules(s, Outbound, {Accept}, Some(f)));
    assert AllFit(XtOutput11(s, f));
    SectionFits(XtGuard, ApplicationRules(s, QueuedActions(s.mode), Some(f)));
    AllFitConcat(Section(XtGuard, ApplicationRules(s, QueuedActions(s.mode), Some(f))), XtOutput11(s, f));
    SectionFits(XtQueue, ApplicationRules(s, QueuedActions(s.mode), Some(f)));
    AllFitConcat(Section(XtQueue, ApplicationRules(s, QueuedActions(s.mode), Some(f))), XtOutput10(s, f));
    var replies := Section(XtVerdicts(s, Outbound, true), NetworkRules(s, Inbound, {Accept}, Some(f)));
    SectionFits(XtVerdicts(s, Outbound, true), NetworkRules(s, Inbound, {Accept}, Some(f)));
    AllFitConcat(replies, XtOutput9(s, f));
  }

  lemma XtMiddleFits(s: Snapshot, f: Family)
    requires s.generation <= MAX_GENERATION
    ensures AllFit(XtOutput4(s, f))
  {
    XtTailFits(s, f);
    XtStampsFit(s, f);
    XtHandoffsFit(s, f);
    AllFitConcat(XtResets(s, f), XtOutput8(s, f));
    AllFitConcat(XtFlows(s, f, Outbound), XtOutput7(s, f));
    AllFitConcat(XtLoopback(s, f, Outbound), XtOutput6(s, f));
    AllFitConcat(XtHandoffs(s, f), XtOutput5(s, f));
  }

  lemma XtRejectRepliesFit(s: Snapshot, f: Family)
    requires s.generation <= MAX_GENERATION
    ensures AllFit(XtRejectReplies(s, f))
  {
  }

  lemma XtOutputFits(s: Snapshot, f: Family)
    requires s.generation <= MAX_GENERATION
    ensures AllFit(XtOutput(s, f))
  {
    XtMiddleFits(s, f);
    var denies := XtVerdicts(s, Outbound, false);
    SectionFits(denies, NetworkRules(s, Outbound, {Reject}, Some(f)));
    AllFitConcat(Section(denies, NetworkRules(s, Outbound, {Reject}, Some(f))), XtOutput4(s, f));
    SectionFits(denies, NetworkRules(s, Outbound, {Drop}, Some(f)));
    AllFitConcat(Section(denies, NetworkRules(s, Outbound, {Drop}, Some(f))), XtOutput3(s, f));
    XtRejectRepliesFit(s, f);
    AllFitConcat(XtRejectReplies(s, f), XtOutput2(s, f));
    var invalid := if s.mode.Enforcing? then [FwRule([OnInvalid], [], Deny)] else [];
    AllFitConcat(invalid, XtOutput1(s, f));
  }

  lemma XtProgramFits(s: Snapshot, f: Family)
    requires s.generation <= MAX_GENERATION
    ensures ProgramFits(XtFamily(s, f))
  {
    XtOutputFits(s, f);
    XtObserveFits(s, f);
    XtAppChainFits(s, !Attribution(s).NoInterception?);
    XtAppChainFits(s, Attribution(s).PerPacket?);
    AllFitConcat([SANITIZE_RULE], [FwRule(EVERYTHING, [], Pass)]);
  }

  lemma XtObserveFits(s: Snapshot, f: Family)
    ensures AllFit(XtObserve(s, f))
  {
    SectionFits(XtObserver, XtObserved(s, f));
    ObservationFits(ALL_FLAGS);
    AllFitConcat(Section(XtObserver, XtObserved(s, f)), ObserveQueue(ALL_FLAGS));
  }

  lemma XtAppChainFits(s: Snapshot, active: bool)
    requires s.generation <= MAX_GENERATION
    ensures AllFit(XtAppChain(s, active))
  {
  }

  // ---------------------------------------------------------------- words are isolated

  /** The compiled program on words. The repeats suffice, so the default is never used. */
  function RunWire(b: Backend, s: Snapshot, w: WirePacket, o: Oracle): WireOutcome
    requires SnapshotValid(s)
  {
    match b
    case Nft => WireHook(NftHook(NftCompile(s).value), w, o)
    case Xt =>
      match WireXt(ForFamily(XtCompile(s).value, w.packet.family), w, o, 1)
      case Some(out) => out
      case None => WireOutcome(Dropped, w)
  }

  lemma NftHookFollows(hook: seq<BaseChain>, s: Snapshot, w: WirePacket, o: Oracle)
    requires SnapshotValid(s) && hook == NftHook(NftCompile(s).value)
    ensures ViewOutcome(WireHook(hook, w, o)) == RunHook(hook, View(w), o)
  {
    NftHookFits(s, hook);
    HookFollowsWords(hook, w, o);
  }

  lemma NftHookFits(s: Snapshot, hook: seq<BaseChain>)
    requires SnapshotValid(s) && hook == NftHook(NftCompile(s).value)
    ensures forall c :: c in hook ==> AllFit(c.rules)
  {
    NftOutputFits(s);
    NftAuthorizeFits(s);
    assert AllFit([SANITIZE_RULE]);
  }

  lemma NftFollowsFields(s: Snapshot, w: WirePacket, o: Oracle)
    requires SnapshotValid(s) && WellFormed(View(w))
    ensures ViewOutcome(RunWire(Nft, s, w, o)) == Policy(Nft, s, View(w), o)
  {
    NftHookFollows(NftHook(NftCompile(s).value), s, w, o);
    NftRefinement.NftRefinesPolicy(s, View(w), o);
  }

  lemma XtHookFollows(prog: XtProgram, s: Snapshot, w: WirePacket, o: Oracle)
    requires SnapshotValid(s) && prog == ForFamily(XtCompile(s).value, w.packet.family)
    ensures ViewResult(WireXt(prog, w, o, 1)) == RunXtOutput(prog, View(w), o, 1)
  {
    XtProgramFits(s, w.packet.family);
    XtFollowsWords(prog, w, o, 1);
  }

  lemma XtFollowsFields(s: Snapshot, w: WirePacket, o: Oracle)
    requires SnapshotValid(s) && WellFormed(View(w))
    ensures ViewOutcome(RunWire(Xt, s, w, o)) == Policy(Xt, s, View(w), o)
  {
    XtHookFollows(ForFamily(XtCompile(s).value, w.packet.family), s, w, o);
    XtRefinement.XtRefinesPolicy(s, View(w), o, 1);
  }

  /** Running on words and reading the fields is reading the fields and running. */
  lemma WordsFollowFields(b: Backend, s: Snapshot, w: WirePacket, o: Oracle)
    requires SnapshotValid(s) && WellFormed(View(w))
    ensures ViewOutcome(RunWire(b, s, w, o)) == Run(b, s, View(w), o)
  {
    match b
    case Nft => NftFollowsFields(s, w, o);
    case Xt => XtFollowsFields(s, w, o);
  }

  lemma SamePayload(v: Word, w: Word)
    requires v[..30] == w[..30]
    ensures ReadMark(v) == ReadMark(w).(domain := ReadDomain(v))
  {
  }

  lemma ClearedWord(word: Word, result: Word)
    requires ReadMark(result) == ReadMark(word).(domain := Clear)
    ensures result == And(word, PAYLOAD)
  {
    DomainWrite(word, Clear);
    MarkIsItsFields(result, AndOr(word, PAYLOAD, Code(Clear)));
  }

  /** Whatever the verdict, the low thirty mark bits and the connection's top bit come out as they went in;
      an accepted packet leaves with its mark's two top bits cleared. */
  lemma HostBitsSurvive(b: Backend, s: Snapshot, w: WirePacket, o: Oracle)
    requires SnapshotValid(s) && WellFormed(View(w))
    ensures var out := RunWire(b, s, w, o);
            && out.packet.mark[..30] == w.mark[..30]
            && (w.packet.ct.Tracked? ==> out.packet.connmark[31] == w.connmark[31])
            && (out.verdict.Accepted? ==> out.packet.mark == And(w.mark, PAYLOAD))
  {
    var out := RunWire(b, s, w, o);
    WordsFollowFields(b, s, w, o);
    MarksAreIsolated(b, s, View(w), o, Clear);
    PayloadsAreValues(out.packet.mark, w.mark);
    if out.verdict.Accepted? { ClearedWord(w.mark, out.packet.mark); }
  }

  /** A sender's choice of the two top mark bits changes neither the verdict nor either word. */
  lemma ForgedBitsAreIgnored(b: Backend, s: Snapshot, w: WirePacket, o: Oracle, forged: Word)
    requires SnapshotValid(s) && WellFormed(View(w)) && forged[..30] == w.mark[..30]
    ensures var out, other := RunWire(b, s, w, o), RunWire(b, s, w.(mark := forged), o);
            && other.verdict == out.verdict && other.packet.mark == out.packet.mark
            && (w.packet.ct.Tracked? ==> other.packet.connmark == out.packet.connmark)
  {
    var v := w.(mark := forged);
    var out, other := RunWire(b, s, w, o), RunWire(b, s, v, o);
    SamePayload(forged, w.mark);
    assert View(v) == InDomain(View(w), ReadDomain(forged));
    WordsFollowFields(b, s, w, o);
    WordsFollowFields(b, s, v, o);
    MarksAreIsolated(b, s, View(w), o, ReadDomain(forged));
    MarkIsItsFields(other.packet.mark, out.packet.mark);
    if w.packet.ct.Tracked? {
      assert View(out.packet).ct.Tracked?;
      ConnmarkIsItsFields(other.packet.connmark, out.packet.connmark);
    }
  }
}
