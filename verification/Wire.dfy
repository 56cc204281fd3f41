/** The same programs on 32-bit words, with the masked operations the backends emit.

    A wire packet carries its packet mark and connection mark as words. Running a compiled program on words and
    reading the fields afterwards is the same as reading the fields first. */
module Wire {
  import opened Model
  import opened Marks
  import opened Netfilter
  import opened Outbound

  /** The marks inside `packet` are not used. */
  datatype WirePacket = WirePacket(packet: Packet, mark: Word, connmark: Word)

  function View(w: WirePacket): Packet {
    var p := w.packet.(mark := ReadMark(w.mark));
    if p.ct.Tracked? then p.(ct := p.ct.(mark := ReadConnmark(w.connmark))) else p
  }

  // ---------------------------------------------------------------- matches and effects on words

  function StampWord(authorized: bool, generation: nat): Word {
    if authorized then FlowWord(generation) else RejectWord(generation)
  }

  predicate WireHolds(m: Match, w: WirePacket) {
    match m
    case OnConnmark(authorized, generation) =>
      w.packet.ct.Tracked? && And(w.connmark, OWNED) == StampWord(authorized, generation)
    case OnDomain(domain) => And(w.mark, DOMAIN) == Code(domain)
    case OnDomainNot(domain) => And(w.mark, DOMAIN) != Code(domain)
    case _ => Holds(m, View(w))
  }

  function WriteDomain(xt: bool, word: Word, d: Domain): Word {
    if xt then SetXmark(word, Code(d), DOMAIN) else AndOr(word, PAYLOAD, Code(d))
  }

  function WireAffect(xt: bool, e: Effect, w: WirePacket): WirePacket {
    match e
    case SetDomain(domain) => w.(mark := WriteDomain(xt, w.mark, domain))
    case NftConnmark(authorized, generation) =>
      if w.packet.ct.Tracked? then w.(connmark := AndOr(w.connmark, FOREIGN, StampWord(authorized, generation))) else w
    case XtConnmark(authorized, generation) =>
      if w.packet.ct.Tracked? then w.(connmark := SetXmark(w.connmark, StampWord(authorized, generation), OWNED)) else w
  }

  predicate MatchFits(m: Match) { m.OnConnmark? ==> m.generation <= MAX_GENERATION }

  predicate EffectFits(e: Effect) { e.NftConnmark? || e.XtConnmark? ==> e.generation <= MAX_GENERATION }

  lemma MatchReadsWords(m: Match, w: WirePacket)
    requires MatchFits(m)
    ensures WireHolds(m, w) <==> Holds(m, View(w))
  {
    match m
    case OnConnmark(authorized, generation) =>
      FlowTest(w.connmark, generation);
      RejectTest(w.connmark, generation);
    case OnDomain(domain) => DomainTest(w.mark, domain);
    case OnDomainNot(domain) => DomainTest(w.mark, domain);
    case _ =>
  }

  lemma StampWrites(w: WirePacket, authorized: bool, generation: nat)
    requires generation <= MAX_GENERATION
    ensures ReadConnmark(AndOr(w.connmark, FOREIGN, StampWord(authorized, generation)))
         == Connmark(ReadConnmark(w.connmark).foreign, authorized, generation)
    ensures SetXmark(w.connmark, StampWord(authorized, generation), OWNED)
         == AndOr(w.connmark, FOREIGN, StampWord(authorized, generation))
  {
    if authorized { FlowWrite(w.connmark, generation); } else { RejectWrite(w.connmark, generation); }
    ConnmarkSpellings(w.connmark, StampWord(authorized, generation));
  }

  lemma EffectWritesWords(xt: bool, e: Effect, w: WirePacket)
    requires EffectFits(e)
    ensures View(WireAffect(xt, e, w)) == Affect(e, View(w))
  {
    match e
    case SetDomain(domain) =>
      DomainWrite(w.mark, domain);
      DomainSpellings(w.mark, domain);
    case NftConnmark(authorized, generation) => StampWrites(w, authorized, generation);
    case XtConnmark(authorized, generation) => StampWrites(w, authorized, generation);
  }

  // ---------------------------------------------------------------- chains on words

  predicate Fits(r: FwRule) { (forall m :: m in r.sel ==> MatchFits(m)) && (forall e :: e in r.effects ==> EffectFits(e)) }

  predicate AllFit(rules: seq<FwRule>) { forall r :: r in rules ==> Fits(r) }

  predicate WireApplies(r: FwRule, w: WirePacket) {
    && (forall m :: m in r.sel ==> WireHolds(m, w))
    && (forall e :: e in r.effects && e.NftConnmark? ==> w.packet.ct.Tracked?)
  }

  function WireAffectAll(xt: bool, effects: seq<Effect>, w: WirePacket): WirePacket {
    if effects == [] then w else WireAffectAll(xt, effects[1..], WireAffect(xt, effects[0], w))
  }

  datatype WireStep = WireFell(packet: WirePacket) | WireStopped(target: Target, packet: WirePacket)

  function ViewStep(s: WireStep): Step {
    match s case WireFell(w) => Fell(View(w)) case WireStopped(t, w) => Stopped(t, View(w))
  }

  function WireTraverse(xt: bool, rules: seq<FwRule>, w: WirePacket): WireStep {
    if rules == [] then WireFell(w)
    else if !WireApplies(rules[0], w) then WireTraverse(xt, rules[1..], w)
    else
      var v := WireAffectAll(xt, rules[0].effects, w);
      if rules[0].target.Continue? then WireTraverse(xt, rules[1..], v) else WireStopped(rules[0].target, v)
  }

  lemma RuleReadsWords(r: FwRule, w: WirePacket)
    requires Fits(r)
    ensures WireApplies(r, w) <==> Applies(r, View(w))
  {
    forall m | m in r.sel ensures WireHolds(m, w) <==> Holds(m, View(w)) { MatchReadsWords(m, w); }
  }

  lemma {:induction false} EffectsWriteWords(xt: bool, effects: seq<Effect>, w: WirePacket)
    requires forall e :: e in effects ==> EffectFits(e)
    ensures View(WireAffectAll(xt, effects, w)) == AffectAll(effects, View(w))
  {
    if effects != [] {
      EffectWritesWords(xt, effects[0], w);
      EffectsWriteWords(xt, effects[1..], WireAffect(xt, effects[0], w));
    }
  }

  /** A chain run on words is the chain run on their fields. */
  lemma {:induction false} ChainFollowsWords(xt: bool, rules: seq<FwRule>, w: WirePacket)
    requires AllFit(rules)
    ensures ViewStep(WireTraverse(xt, rules, w)) == Traverse(rules, View(w))
  {
    if rules != [] {
      assert Fits(rules[0]);
      RuleReadsWords(rules[0], w);
      EffectsWriteWords(xt, rules[0].effects, w);
      if !WireApplies(rules[0], w) {
        ChainFollowsWords(xt, rules[1..], w);
      } else if rules[0].target.Continue? {
        ChainFollowsWords(xt, rules[1..], WireAffectAll(xt, rules[0].effects, w));
      }
    }
  }

  // ---------------------------------------------------------------- hooks on words

  datatype WireOutcome = WireOutcome(verdict: Verdict, packet: WirePacket)

  function ViewOutcome(out: WireOutcome): Outcome { Outcome(out.verdict, View(out.packet)) }

  /** The mark word userspace sends back with its verdict. */
  function Answered(w: WirePacket, d: Domain): WirePacket { w.(mark := AndOr(w.mark, PAYLOAD, Code(d))) }

  function WireHook(chains: seq<BaseChain>, w: WirePacket, o: Oracle): WireOutcome {
    if chains == [] then WireOutcome(Accepted, w)
    else
      match WireTraverse(false, chains[0].rules, w)
      case WireFell(v) => if chains[0].policyAccept then WireHook(chains[1..], v, o) else WireOutcome(Dropped, v)
      case WireStopped(target, v) =>
        match target
        case Pass => WireHook(chains[1..], v, o)
        case Refuse(reset) => WireOutcome(Refused(reset), v)
        case Enqueue(queue) =>
          if queue == LEARNING_QUEUE then
            if o.observe(View(v)) then WireHook(chains[1..], v, o) else WireOutcome(Dropped, v)
          else
            (match QueueDecision(o, View(v))
             case Accept => WireHook(chains[1..], v, o)
             case Drop => WireOutcome(Dropped, v)
             case Reject => WireHook(chains[1..], Answered(v, Rejected), o))
        case Continue => WireOutcome(Dropped, v)
        case Deny => WireOutcome(Dropped, v)
        case GoTo(_) => WireOutcome(Dropped, v)
  }

  function WirePass(prog: XtProgram, w: WirePacket): WireStep {
    match WireTraverse(true, prog.output, w)
    case WireStopped(GoTo(chain), v) => WireTraverse(true, if chain.AppTcp? then prog.appTcp else prog.appPacket, v)
    case step => step
  }

  function WireFilter(prog: XtProgram, w: WirePacket, o: Oracle, repeats: nat): Option<WireOutcome>
    decreases repeats
  {
    match WirePass(prog, w)
    case WireFell(v) => Some(WireOutcome(Accepted, v))
    case WireStopped(target, v) =>
      match target
      case Pass => Some(WireOutcome(Accepted, v))
      case Refuse(reset) => Some(WireOutcome(Refused(reset), v))
      case Enqueue(_) =>
        var action := QueueDecision(o, View(v));
        if action.Drop? then Some(WireOutcome(Dropped, v))
        else if repeats == 0 then None
        else
          WireFilter(prog, Answered(v, if action.Accept? then Handoff else Rejected), o, repeats - 1)
      case Continue => Some(WireOutcome(Dropped, v))
      case Deny => Some(WireOutcome(Dropped, v))
      case GoTo(_) => Some(WireOutcome(Dropped, v))
  }

  function WireXt(prog: XtProgram, w: WirePacket, o: Oracle, repeats: nat): Option<WireOutcome> {
    var v := WireTraverse(true, prog.sanitize, w).packet;
    match WireTraverse(true, prog.observe, v)
    case WireStopped(Enqueue(_), u) =>
      if o.observe(View(u)) then WireFilter(prog, u, o, repeats) else Some(WireOutcome(Dropped, u))
    case step => WireFilter(prog, step.packet, o, repeats)
  }

  lemma VerdictMark(w: WirePacket, d: Domain)
    ensures View(Answered(w, d)) == InDomain(View(w), d)
  {
    DomainWrite(w.mark, d);
  }

  lemma {:induction false} HookFollowsWords(chains: seq<BaseChain>, w: WirePacket, o: Oracle)
    requires forall c :: c in chains ==> AllFit(c.rules)
    ensures ViewOutcome(WireHook(chains, w, o)) == RunHook(chains, View(w), o)
  {
    if chains != [] {
      assert chains[0] in chains;
      ChainFollowsWords(false, chains[0].rules, w);
      var v := WireTraverse(false, chains[0].rules, w).packet;
      VerdictMark(v, Rejected);
      HookFollowsWords(chains[1..], v, o);
      HookFollowsWords(chains[1..], Answered(v, Rejected), o);
    }
  }

  predicate ProgramFits(prog: XtProgram) {
    AllFit(prog.sanitize) && AllFit(prog.observe) && AllFit(prog.output) && AllFit(prog.appTcp) && AllFit(prog.appPacket)
  }

  lemma PassFollowsWords(prog: XtProgram, w: WirePacket)
    requires ProgramFits(prog)
    ensures ViewStep(WirePass(prog, w)) == FilterPass(prog, View(w))
  {
    ChainFollowsWords(true, prog.output, w);
    var v := WireTraverse(true, prog.output, w).packet;
    ChainFollowsWords(true, prog.appTcp, v);
    ChainFollowsWords(true, prog.appPacket, v);
  }

  function ViewResult(r: Option<WireOutcome>): Option<Outcome> { if r.None? then None else Some(ViewOutcome(r.value)) }

  /** The pass ends at a queue and a repeat is left. */
  predicate Repeats(step: WireStep, repeats: nat) { step.WireStopped? && step.target.Enqueue? && repeats > 0 }

  lemma LastPassFollows(prog: XtProgram, w: WirePacket, o: Oracle, repeats: nat)
    requires ProgramFits(prog) && !Repeats(WirePass(prog, w), repeats)
    ensures ViewResult(WireFilter(prog, w, o, repeats)) == RunFilter(prog, View(w), o, repeats)
  {
    PassFollowsWords(prog, w);
  }

  lemma {:induction false} FilterFollowsWords(prog: XtProgram, w: WirePacket, o: Oracle, repeats: nat)
    requires ProgramFits(prog)
    ensures ViewResult(WireFilter(prog, w, o, repeats)) == RunFilter(prog, View(w), o, repeats)
    decreases repeats
  {
    var step := WirePass(prog, w);
    if Repeats(step, repeats) {
      PassFollowsWords(prog, w);
      var d := if QueueDecision(o, View(step.packet)).Accept? then Handoff else Rejected;
      VerdictMark(step.packet, d);
      FilterFollowsWords(prog, Answered(step.packet, d), o, repeats - 1);
    } else {
      LastPassFollows(prog, w, o, repeats);
    }
  }

  lemma XtFollowsWords(prog: XtProgram, w: WirePacket, o: Oracle, repeats: nat)
    requires ProgramFits(prog)
    ensures ViewResult(WireXt(prog, w, o, repeats)) == RunXtOutput(prog, View(w), o, repeats)
  {
    ChainFollowsWords(true, prog.sanitize, w);
    var v := WireTraverse(true, prog.sanitize, w).packet;
    ChainFollowsWords(true, prog.observe, v);
    FilterFollowsWords(prog, WireTraverse(true, prog.observe, v).packet, o, repeats);
  }
}
