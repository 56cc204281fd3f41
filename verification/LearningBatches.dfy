/** Whole batches, position by position: what is learned, where a batch ends, and what learning it again does. */
module LearningBatches {
  import opened Model
  import opened PolicyState
  import opened Learning
  import opened LearningProperties

  /** The state a batch has reached and what is left of the caller's cap. */
  datatype Point = Point(state: State, allowance: int)

  /** Where a batch stands before each endpoint it reaches, and at its end. */
  function Points(f: Stepper, st: State, allowance: int, es: seq<Endpoint>): (ps: seq<Point>)
    ensures 1 <= |ps| <= |es| + 1 && ps[0] == Point(st, allowance)
    decreases |es|
  {
    [Point(st, allowance)] +
    if es == [] then []
    else
      match f(st, allowance, es[0])
      case Skip => Points(f, st, allowance, es[1..])
      case Stop => []
      case Admitted(p) =>
        if p.error.Some? then [] else Points(f, p.state, allowance - |p.created|, es[1..])
  }

  /** The packet path would call it a candidate, and there is room under the cap. */
  predicate Learnable(at: Point, e: Endpoint, limits: Limits)
    requires EndpointValid(e)
  {
    Classify(at.state.rules, limits, e).Candidate? && !NoRoom(at.state.rules, e, at.allowance)
  }

  // ---------------------------------------------------------------- one step

  /** What a step must do at a point where two more revisions are left. */
  ghost predicate Exactly(step: Step, at: Point, e: Endpoint, limits: Limits)
    requires EndpointValid(e)
  {
    match step
    case Skip => !Learnable(at, e, limits)
    case Stop => !Learnable(at, e, limits) && KeyOf(e) !in Known(at.state.rules) && NoRoom(at.state.rules, e, at.allowance)
    case Admitted(p) =>
      && Learnable(at, e, limits) && KeyOf(e) !in Known(at.state.rules)
      && (p.error.None? <==> PortFits(e))
      && (p.error.None? ==> Known(p.state.rules) == Known(at.state.rules) + {KeyOf(e)})
      && (p.error.Some? ==> p.error == Some(InvalidRule) && Known(p.state.rules) == Known(at.state.rules))
      && p.state.revision <= at.state.revision + 2
  }

  lemma LearnedAddsKey(st: State, e: Endpoint, p: Progress)
    requires EndpointValid(e) && Inserted(st, LearnedSpec(e), p) && p.error.None?
    ensures Known(p.state.rules) == Known(st.rules) + {KeyOf(e)}
  {
    KnownGrows(st.rules, p.created[0].id, p.created[0]);
  }

  lemma AdmitAddsKey(st: State, e: Endpoint, limits: Limits, mint: set<nat> -> nat, now: nat)
    requires EndpointValid(e) && Admit(st, e, mint, now).error.None?
    ensures Known(Admit(st, e, mint, now).state.rules) == Known(st.rules) + {KeyOf(e)}
  {
    if GroupOf(e.application) in Groups(st.rules) {
      InsertInserts(st, LearnedSpec(e), mint, now);
      LearnedAddsKey(st, e, Insert(st, LearnedSpec(e), mint, now));
    } else {
      var first := Insert(st, TemplateSpec(e), mint, now);
      InsertInserts(st, TemplateSpec(e), mint, now);
      TemplateMakesWay(st, e, limits, first);
      InsertInserts(first.state, LearnedSpec(e), mint, now);
      LearnedAddsKey(first.state, e, Insert(first.state, LearnedSpec(e), mint, now));
    }
  }

  lemma StepIsExact(st: State, allowance: int, e: Endpoint, limits: Limits, mint: set<nat> -> nat, now: nat)
    requires Fresh(mint) && EndpointValid(e) && st.revision + 2 <= MAX_REVISION
    ensures Exactly(LearnStep(st, allowance, e, limits, mint, now), Point(st, allowance), e, limits)
  {
    if LearnStep(st, allowance, e, limits, mint, now).Admitted? {
      AdmitSucceeds(st, e, limits, mint, now);
      AdmitIsSound(st, e, limits, mint, now);
      if PortFits(e) { AdmitAddsKey(st, e, limits, mint, now); }
    }
  }

  // ---------------------------------------------------------------- whole batches

  /** At each position passed, exactly a learnable endpoint became known, and its port fitted. */
  ghost predicate Passed(limits: Limits, before: Point, after: Point, e: Endpoint) {
    && EndpointValid(e)
    && Known(after.state.rules) == Known(before.state.rules) + (if Learnable(before, e, limits) then {KeyOf(e)} else {})
    && (Learnable(before, e, limits) ==> KeyOf(e) !in Known(before.state.rules) && PortFits(e))
  }

  /** A batch that ends early ends at an unknown endpoint, for lack of room, or because its port does not fit. */
  ghost predicate Ended(limits: Limits, at: Point, e: Endpoint, final: State, error: Option<CoreError>) {
    && EndpointValid(e) && KeyOf(e) !in Known(at.state.rules)
    && if Learnable(at, e, limits)
       then !PortFits(e) && error == Some(InvalidRule) && Known(final.rules) == Known(at.state.rules)
       else NoRoom(at.state.rules, e, at.allowance) && error.None? && final == at.state
  }

  type Passing = (Point, Point, Endpoint) -> bool
  type Ending = (Point, Endpoint, State, Option<CoreError>) -> bool

  /** Every position passed, and the end if it came early. */
  ghost predicate Accounted(passed: Passing, ended: Ending, ps: seq<Point>, es: seq<Endpoint>, p: Progress) {
    && 1 <= |ps| <= |es| + 1
    && (forall i :: 0 <= i < |ps| - 1 ==> passed(ps[i], ps[i + 1], es[i]))
    && var n := |ps| - 1;
       if n == |es| then p.error.None? && p.state == ps[n].state else ended(ps[n], es[n], p.state, p.error)
  }

  ghost predicate StepAccounted(passed: Passing, ended: Ending, at: Point, e: Endpoint, step: Step) {
    match step
    case Skip => passed(at, at, e)
    case Stop => ended(at, e, at.state, None)
    case Admitted(p) =>
      if p.error.Some? then ended(at, e, p.state, p.error)
      else passed(at, Point(p.state, at.allowance - |p.created|), e) && p.state.revision <= at.state.revision + 2
  }

  ghost predicate StepsAccounted(passed: Passing, ended: Ending, f: Stepper) {
    forall st: State, allowance: int, e: Endpoint {:trigger f(st, allowance, e)} ::
      EndpointValid(e) && st.revision + 2 <= MAX_REVISION ==>
        StepAccounted(passed, ended, Point(st, allowance), e, f(st, allowance, e))
  }

  lemma AccountedExtends(
    passed: Passing, ended: Ending, first: Point, ps: seq<Point>, es: seq<Endpoint>, p: Progress, q: Progress)
    requires es != [] && Accounted(passed, ended, ps, es[1..], p) && passed(first, ps[0], es[0])
    requires q.state == p.state && q.error == p.error
    ensures Accounted(passed, ended, [first] + ps, es, q)
  {
    var all := [first] + ps;
    forall i | 0 <= i < |all| - 1 ensures passed(all[i], all[i + 1], es[i]) {
      if i > 0 { assert all[i] == ps[i - 1] && all[i + 1] == ps[i] && es[i] == es[1..][i - 1]; }
    }
  }

  lemma {:induction false} BatchAccounts(
    passed: Passing, ended: Ending, f: Stepper, st: State, allowance: int, es: seq<Endpoint>)
    requires StepsAccounted(passed, ended, f)
    requires (forall e :: e in es ==> EndpointValid(e)) && st.revision + 2 * |es| <= MAX_REVISION
    ensures Accounted(passed, ended, Points(f, st, allowance, es), es, LearnEach(f, st, allowance, es))
    decreases |es|
  {
    if es != [] {
      var p, here := LearnEach(f, st, allowance, es), Point(st, allowance);
      match f(st, allowance, es[0])
      case Skip =>
        BatchAccounts(passed, ended, f, st, allowance, es[1..]);
        AccountedExtends(passed, ended, here, Points(f, st, allowance, es[1..]), es, LearnEach(f, st, allowance, es[1..]), p);
      case Stop =>
      case Admitted(q) =>
        if q.error.None? {
          var left := allowance - |q.created|;
          BatchAccounts(passed, ended, f, q.state, left, es[1..]);
          AccountedExtends(passed, ended, here, Points(f, q.state, left, es[1..]), es, LearnEach(f, q.state, left, es[1..]), p);
        }
    }
  }

  ghost function PassedWith(limits: Limits): Passing { (before, after, e) => Passed(limits, before, after, e) }

  ghost function EndedWith(limits: Limits): Ending { (at, e, final, error) => Ended(limits, at, e, final, error) }

  lemma LearnersAccount(limits: Limits, mint: set<nat> -> nat, now: nat)
    requires Fresh(mint)
    ensures StepsAccounted(PassedWith(limits), EndedWith(limits), Learner(limits, mint, now))
  {
    var f := Learner(limits, mint, now);
    forall st: State, allowance: int, e: Endpoint {:trigger f(st, allowance, e)} |
      EndpointValid(e) && st.revision + 2 <= MAX_REVISION
      ensures StepAccounted(PassedWith(limits), EndedWith(limits), Point(st, allowance), e, f(st, allowance, e))
    {
      StepIsExact(st, allowance, e, limits, mint, now);
    }
  }

  /** Every batch, position by position: an endpoint becomes known exactly when, in the state reached there, it is a
      candidate with room under the cap. The batch ends early only at an unknown endpoint without room, or with an
      error at a learnable endpoint whose port does not fit. */
  lemma BatchLearnsCandidates(st: State, es: seq<Endpoint>, limits: Limits, maximumNew: nat, mint: set<nat> -> nat, now: nat)
    requires Fresh(mint) && (forall e :: e in Bounded(es) ==> EndpointValid(e))
    requires st.revision + 2 * |Bounded(es)| <= MAX_REVISION
    ensures Accounted(PassedWith(limits), EndedWith(limits),
                      Points(Learner(limits, mint, now), st, maximumNew, Bounded(es)), Bounded(es),
                      LearnBatch(st, es, limits, maximumNew, mint, now))
  {
    LearnersAccount(limits, mint, now);
    BatchAccounts(PassedWith(limits), EndedWith(limits), Learner(limits, mint, now), st, maximumNew, Bounded(es));
  }

  /** A batch whose ports fit never fails. */
  lemma FittingBatchSucceeds(st: State, es: seq<Endpoint>, limits: Limits, maximumNew: nat, mint: set<nat> -> nat, now: nat)
    requires Fresh(mint) && (forall e :: e in Bounded(es) ==> EndpointValid(e) && PortFits(e))
    requires st.revision + 2 * |Bounded(es)| <= MAX_REVISION
    ensures LearnBatch(st, es, limits, maximumNew, mint, now).error.None?
  {
    BatchLearnsCandidates(st, es, limits, maximumNew, mint, now);
    var ps := Points(Learner(limits, mint, now), st, maximumNew, Bounded(es));
    if |ps| - 1 < |Bounded(es)| { assert Bounded(es)[|ps| - 1] in Bounded(es); }
  }

  // ---------------------------------------------------------------- without a cap

  ghost predicate AllWide(ps: seq<Point>) { forall at :: at in ps ==> Wide(at.state, at.allowance) }

  lemma {:induction false} PointsStayWide(sound: Relation, f: Stepper, st: State, allowance: int, es: seq<Endpoint>)
    requires Remembers(sound, f, f) && Wide(st, allowance)
    ensures AllWide(Points(f, st, allowance, es))
    decreases |es|
  {
    var rest: seq<Point> := [];
    if es != [] {
      match f(st, allowance, es[0])
      case Skip =>
        PointsStayWide(sound, f, st, allowance, es[1..]);
        rest := Points(f, st, allowance, es[1..]);
      case Stop =>
      case Admitted(p) =>
        if p.error.None? {
          PointsStayWide(sound, f, p.state, allowance - |p.created|, es[1..]);
          rest := Points(f, p.state, allowance - |p.created|, es[1..]);
        }
    }
    assert AllWide(rest);
    assert Points(f, st, allowance, es) == [Point(st, allowance)] + rest;
  }

  /** Without a binding cap, being learnable at a position is being a candidate there. */
  lemma UncappedLearnsCandidates(
    st: State, es: seq<Endpoint>, limits: Limits, maximumNew: nat, mint: set<nat> -> nat, now: nat, i: nat, e: Endpoint)
    requires maximumNew >= MAX_AUTOMATIC_RULES && EndpointValid(e)
    requires i < |Points(Learner(limits, mint, now), st, maximumNew, Bounded(es))|
    ensures var at := Points(Learner(limits, mint, now), st, maximumNew, Bounded(es))[i];
            Learnable(at, e, limits) <==> Classify(at.state.rules, limits, e).Candidate?
  {
    var f := Learner(limits, mint, now);
    LearnersRemember(limits, mint, now, mint, now);
    PointsStayWide(SoundWith(limits), f, st, maximumNew, Bounded(es));
    var at := Points(f, st, maximumNew, Bounded(es))[i];
    WideCapNeverDecides(at.state.rules, e, at.allowance);
  }

  // ---------------------------------------------------------------- a batch that fails

  const PING_WITH_PORT := Endpoint(Address(IPv4, 2), Icmp, Some(PortRange(7, 7)), Some("eth0"),
                                 Selector(Some("/ping"), Some(FileId(1, 1, 1, 0, 0)), None, Some(1000), None, false))

  lemma InitialKnowsNothing()
    ensures Known(INITIAL_STATE.rules) == {} && Groups(INITIAL_STATE.rules) == {} && Automatic(INITIAL_STATE.rules) == 0
    ensures UidCount(INITIAL_STATE.rules, 1000) == 0 && AppCount(INITIAL_STATE.rules, 1000, FileId(1, 1, 1, 0, 0)) == 0
  {
    assert AutomaticIds(INITIAL_STATE.rules) == {} && UidIds(INITIAL_STATE.rules, 1000) == {};
    assert AppIds(INITIAL_STATE.rules, 1000, FileId(1, 1, 1, 0, 0)) == {};
  }

  /** A concrete endpoint its own validation accepts: learning it from scratch fails and leaves a template behind. */
  lemma PingWithPortFails(limits: Limits, maximumNew: nat, mint: set<nat> -> nat, now: nat)
    requires Fresh(mint) && limits.perUid > 0 && limits.perApplication > 0 && maximumNew >= 2
    ensures EndpointValid(PING_WITH_PORT) && !PortFits(PING_WITH_PORT)
    ensures var p := LearnBatch(INITIAL_STATE, [PING_WITH_PORT], limits, maximumNew, mint, now);
            && p.error == Some(InvalidRule) && |p.created| == 1 && |p.state.rules| == 1
            && KeyOf(PING_WITH_PORT) !in Known(p.state.rules)
  {
    InitialKnowsNothing();
    assert Classify(INITIAL_STATE.rules, limits, PING_WITH_PORT).Candidate?;
    LearnedIffCandidate(INITIAL_STATE, PING_WITH_PORT, limits, maximumNew, mint, now);
    LearningIsSound(INITIAL_STATE, [PING_WITH_PORT], limits, maximumNew, mint, now);
  }
}
