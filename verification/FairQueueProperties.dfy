/** Runs of the scheduler: pushes and turns in any interleaving, batches being runs of turns. */
module FairQueueProperties {
  import opened Basics
  import opened FairQueue

  datatype Move = Push(work: Work) | Turn(room: nat)

  /** A push is refused when the queue is full; a turn with no room or nobody waiting does nothing. */
  function Do(q: seq<UserQueue>, m: Move): Served {
    match m
    case Push(w) => Served([], if |Waiting(q)| < MAX_PENDING then Add(q, w) else q)
    case Turn(room) => if room == 0 || q == [] then Served([], q) else Serve(q, room)
  }

  function Run(q: seq<UserQueue>, ms: seq<Move>): Served
    decreases |ms|
  {
    if ms == [] then Served([], q)
    else
      var first := Do(q, ms[0]);
      var later := Run(first.rest, ms[1..]);
      Served(first.taken + later.taken, later.rest)
  }

  /** The packets the queue took in. */
  function Entered(q: seq<UserQueue>, m: Move): seq<Work> {
    if m.Push? && |Waiting(q)| < MAX_PENDING then [m.work] else []
  }

  function AllEntered(q: seq<UserQueue>, ms: seq<Move>): seq<Work>
    decreases |ms|
  {
    if ms == [] then [] else Entered(q, ms[0]) + AllEntered(Do(q, ms[0]).rest, ms[1..])
  }

  ghost predicate Sound(q: seq<UserQueue>) { Wf(q) && |Waiting(q)| <= MAX_PENDING }

  // ---------------------------------------------------------------- batches are runs of turns

  function BatchTurns(q: seq<UserQueue>, room: nat): seq<Move>
    requires Wf(q)
    decreases room
  {
    if room == 0 || q == [] then []
    else
      BatchUnfolds(q, room);
      [Turn(room)] + BatchTurns(Serve(q, room).rest, room - |Serve(q, room).taken|)
  }

  lemma {:induction false} BatchIsRun(q: seq<UserQueue>, room: nat)
    requires Wf(q)
    ensures Run(q, BatchTurns(q, room)) == Batch(q, room)
    decreases room
  {
    if room > 0 && q != [] {
      BatchUnfolds(q, room);
      var turn := Serve(q, room);
      var turns := BatchTurns(turn.rest, room - |turn.taken|);
      assert BatchTurns(q, room) == [Turn(room)] + turns && Do(q, Turn(room)) == turn;
      FirstMove(q, Turn(room), turns);
      BatchIsRun(turn.rest, room - |turn.taken|);
    }
  }

  lemma FirstMove(q: seq<UserQueue>, m: Move, ms: seq<Move>)
    ensures var first := Do(q, m);
            var later := Run(first.rest, ms);
            Run(q, [m] + ms) == Served(first.taken + later.taken, later.rest)
  {
    assert ([m] + ms)[1..] == ms;
  }

  /** A turn takes four packets from the front flow of the front user, or as many as there are or fit. */
  lemma TurnTakesQuantum(q: seq<UserQueue>, room: nat)
    requires Wf(q) && q != [] && room > 0
    ensures q[0].flows != []
    ensures var front := q[0].flows[0].packets;
            Serve(q, room).taken == front[..Min(Min(4, room), |front|)]
  {
    assert UserWf(q[0]);
  }

  /** Packets share a user exactly if their sockets do, and a flow exactly if they share protocol, addresses and ports;
      unparsed packets share one user and no flow. */
  lemma KeysSeparate(v: Work, w: Work)
    ensures UserOf(v) == UserOf(w) <==>
            v.connection.Some? == w.connection.Some? && (v.connection.Some? ==> v.connection.value.uid == w.connection.value.uid)
    ensures FlowOf(v) == FlowOf(w) <==>
            if v.connection.Some? then
              w.connection.Some? && w.connection.value.(uid := v.connection.value.uid) == v.connection.value
            else w.connection.None? && w.packetId == v.packetId
  {
  }

  // ---------------------------------------------------------------- conservation and order

  /** What left and what waits are what waited and what came in, flow by flow in order. */
  ghost predicate Accounts(q: seq<UserQueue>, entered: seq<Work>, served: Served) {
    && Sound(served.rest)
    && forall user, flow ::
         Of(user, flow, served.taken) + Of(user, flow, Waiting(served.rest))
         == Of(user, flow, Waiting(q)) + Of(user, flow, entered)
  }

  lemma PushAccounts(q: seq<UserQueue>, w: Work)
    requires Sound(q)
    ensures Accounts(q, Entered(q, Push(w)), Do(q, Push(w)))
  {
    if |Waiting(q)| < MAX_PENDING {
      AddKeepsWf(q, w);
      AddCounts(q, w);
      forall user, flow ensures Of(user, flow, Waiting(Add(q, w))) == Of(user, flow, Waiting(q)) + Of(user, flow, [w]) {
        AddKeepsOrder(q, w, user, flow);
      }
    }
  }

  lemma TurnAccounts(q: seq<UserQueue>, room: nat)
    requires Sound(q)
    ensures Accounts(q, [], Do(q, Turn(room)))
  {
    if room > 0 && q != [] {
      ServeSplits(q, room);
      ServeCounts(q, room);
    } else {
      NothingSplits(q);
    }
    forall user, flow ensures Of(user, flow, Waiting(q)) + Of(user, flow, []) == Of(user, flow, Waiting(q)) {}
  }

  lemma Interleave<T>(first: seq<T>, second: seq<T>, rest: seq<T>, middle: seq<T>, start: seq<T>, e1: seq<T>, e2: seq<T>)
    requires first + middle == start + e1 && second + rest == middle + e2
    ensures (first + second) + rest == start + (e1 + e2)
  {
    calc {
      (first + second) + rest;
      { Regroup(first, second, rest); }
      first + (middle + e2);
      { Regroup(first, middle, e2); }
      (start + e1) + e2;
      { Regroup(start, e1, e2); }
      start + (e1 + e2);
    }
  }

  lemma AccountsCompose(q: seq<UserQueue>, e1: seq<Work>, first: Served, e2: seq<Work>, second: Served)
    requires Accounts(q, e1, first) && Accounts(first.rest, e2, second)
    ensures Accounts(q, e1 + e2, Served(first.taken + second.taken, second.rest))
  {
    forall user, flow
      ensures Of(user, flow, first.taken + second.taken) + Of(user, flow, Waiting(second.rest))
           == Of(user, flow, Waiting(q)) + Of(user, flow, e1 + e2)
    {
      OfSplit(user, flow, first.taken, second.taken);
      OfSplit(user, flow, e1, e2);
      Interleave(Of(user, flow, first.taken), Of(user, flow, second.taken), Of(user, flow, Waiting(second.rest)),
                 Of(user, flow, Waiting(first.rest)), Of(user, flow, Waiting(q)), Of(user, flow, e1), Of(user, flow, e2));
    }
  }

  /** Over every run: no empty user or flow and no key twice, never more than the bound, and each flow's packets
      leave in the order they came, none lost, none twice. */
  lemma {:induction false} RunsAccount(q: seq<UserQueue>, ms: seq<Move>)
    requires Sound(q)
    ensures Accounts(q, AllEntered(q, ms), Run(q, ms))
    decreases |ms|
  {
    if ms == [] {
      TurnAccounts(q, 0);
    } else {
      var first := Do(q, ms[0]);
      match ms[0] { case Push(w) => PushAccounts(q, w); case Turn(room) => TurnAccounts(q, room); }
      RunsAccount(first.rest, ms[1..]);
      AccountsCompose(q, Entered(q, ms[0]), first, AllEntered(first.rest, ms[1..]), Run(first.rest, ms[1..]));
    }
  }

  // ---------------------------------------------------------------- no starvation

  /** The packet waits `depth` places deep in the flow at `flow` of the user at `user`. */
  datatype Place = Place(user: nat, flow: nat, depth: nat)

  predicate Occupied(q: seq<UserQueue>, at: Place) {
    at.user < |q| && at.flow < |q[at.user].flows| && at.depth < |q[at.user].flows[at.flow].packets|
  }

  function At(q: seq<UserQueue>, at: Place): Work
    requires Occupied(q, at)
  {
    q[at.user].flows[at.flow].packets[at.depth]
  }

  /** Lexicographic: depth, then flow position, then user position. */
  predicate Closer(a: Place, b: Place) {
    a.depth < b.depth || (a.depth == b.depth && (a.flow < b.flow || (a.flow == b.flow && a.user < b.user)))
  }

  lemma PushKeepsPlace(q: seq<UserQueue>, x: Work, at: Place)
    requires Occupied(q, at)
    ensures Occupied(Do(q, Push(x)).rest, at) && At(Do(q, Push(x)).rest, at) == At(q, at)
  {
  }

  /** The place after a turn, if the packet is still waiting. */
  function Moved(q: seq<UserQueue>, room: nat, at: Place): Place
    requires at.user < |q| && (at.user == 0 ==> q[0].flows != [])
  {
    var rest := Serve(q, room).rest;
    if at.user > 0 then at.(user := at.user - 1)
    else if at.flow > 0 then Place(if rest == [] then 0 else |rest| - 1, at.flow - 1, at.depth)
    else
      var n := Quantum(q[0].flows[0], room);
      Place(if rest == [] then 0 else |rest| - 1, |q[0].flows| - 1, if at.depth < n then 0 else at.depth - n)
  }

  lemma TurnMovesOthers(q: seq<UserQueue>, room: nat, at: Place)
    requires Wf(q) && room > 0 && Occupied(q, at) && (at.user > 0 || at.flow > 0)
    ensures var rest, next := Serve(q, room).rest, Moved(q, room, at);
            Occupied(rest, next) && At(rest, next) == At(q, at) && Closer(next, at)
  {
    assert UserWf(q[0]);
  }

  lemma TurnMovesFront(q: seq<UserQueue>, room: nat, at: Place)
    requires Wf(q) && room > 0 && Occupied(q, at) && at.user == 0 && at.flow == 0
    ensures var n := Quantum(q[0].flows[0], room);
            var rest, next := Serve(q, room).rest, Moved(q, room, at);
            && n > 0
            && if at.depth < n then at.depth < |Serve(q, room).taken| && Serve(q, room).taken[at.depth] == At(q, at)
               else Occupied(rest, next) && At(rest, next) == At(q, at) && Closer(next, at)
  {
    assert UserWf(q[0]);
  }

  predicate Effective(m: Move) { m.Turn? && m.room > 0 }

  function Turns(ms: seq<Move>): nat { if ms == [] then 0 else (if Effective(ms[0]) then 1 else 0) + Turns(ms[1..]) }

  /** An upper bound for the turns a packet can still wait. */
  function Rank(at: Place): nat { (at.depth * MAX_PENDING + at.flow) * MAX_PENDING + at.user }

  lemma CloserRanksLower(a: Place, b: Place)
    requires Closer(a, b) && a.user < MAX_PENDING && a.flow < MAX_PENDING
    ensures Rank(a) < Rank(b)
  {
  }

  lemma {:induction false} FlowsAreFew(user: UserKey, flows: seq<FlowQueue>)
    requires forall f :: f in flows ==> FlowWf(user, f)
    ensures |flows| <= |FlowsHold(flows)|
  {
    if flows != [] {
      assert FlowWf(user, flows[0]);
      FlowsAreFew(user, flows[1..]);
    }
  }

  lemma {:induction false} UsersAreFew(q: seq<UserQueue>)
    requires forall x :: x in q ==> UserWf(x)
    ensures |q| <= |Waiting(q)| && forall i :: 0 <= i < |q| ==> |q[i].flows| <= |Waiting(q)|
  {
    if q != [] {
      assert UserWf(q[0]);
      FlowsAreFew(q[0].key, q[0].flows);
      UsersAreFew(q[1..]);
      forall i | 0 <= i < |q| ensures |q[i].flows| <= |Waiting(q)| { if i > 0 { assert q[i] == q[1..][i - 1]; } }
    }
  }

  lemma PlacesAreBounded(q: seq<UserQueue>, at: Place)
    requires Sound(q) && Occupied(q, at)
    ensures at.user < MAX_PENDING && at.flow < MAX_PENDING
  {
    UsersAreFew(q);
  }

  lemma MoveIsSound(q: seq<UserQueue>, m: Move)
    requires Sound(q)
    ensures Sound(Do(q, m).rest)
  {
    match m { case Push(w) => PushAccounts(q, w); case Turn(room) => TurnAccounts(q, room); }
  }

  /** What becomes of the packet at a place: it leaves at an index of the output, or it waits at another place. */
  datatype Fate = Left(index: nat) | Waits(at: Place)

  function Shifted(fate: Fate, n: nat): Fate { if fate.Left? then Left(fate.index + n) else fate }

  function NextFate(q: seq<UserQueue>, m: Move, at: Place): Fate
    requires at.user < |q| && at.flow < |q[at.user].flows|
  {
    if !Effective(m) then Waits(at)
    else if at.user == 0 && at.flow == 0 && at.depth < Quantum(q[0].flows[0], m.room) then Left(at.depth)
    else Waits(Moved(q, m.room, at))
  }

  lemma NextFateIsTrue(q: seq<UserQueue>, m: Move, at: Place)
    requires Sound(q) && Occupied(q, at)
    ensures match NextFate(q, m, at)
            case Left(i) => i < |Do(q, m).taken| && Do(q, m).taken[i] == At(q, at)
            case Waits(next) =>
              && Occupied(Do(q, m).rest, next) && At(Do(q, m).rest, next) == At(q, at)
              && (if Effective(m) then Closer(next, at) else next == at)
  {
    match m
    case Push(w) => PushKeepsPlace(q, w, at);
    case Turn(room) =>
      if room > 0 {
        if at.user == 0 && at.flow == 0 { TurnMovesFront(q, room, at); } else { TurnMovesOthers(q, room, at); }
      }
  }

  /** The packet at a place, followed through a run. */
  function FateOf(q: seq<UserQueue>, ms: seq<Move>, at: Place): Fate
    requires Sound(q) && Occupied(q, at)
    decreases |ms|
  {
    if ms == [] then Waits(at)
    else
      NextFateIsTrue(q, ms[0], at);
      MoveIsSound(q, ms[0]);
      match NextFate(q, ms[0], at)
      case Left(i) => Left(i)
      case Waits(next) => Shifted(FateOf(Do(q, ms[0]).rest, ms[1..], next), |Do(q, ms[0]).taken|)
  }

  /** The packet is where its fate says. */
  predicate Meets(served: Served, w: Work, fate: Fate) {
    match fate
    case Left(i) => i < |served.taken| && served.taken[i] == w
    case Waits(at) => Occupied(served.rest, at) && At(served.rest, at) == w
  }

  lemma MeetsNow(first: Served, later: Served, w: Work, i: nat)
    requires i < |first.taken| && first.taken[i] == w
    ensures Meets(Served(first.taken + later.taken, later.rest), w, Left(i))
  {
  }

  lemma MeetsLater(first: Served, later: Served, w: Work, fate: Fate)
    requires Meets(later, w, fate)
    ensures Meets(Served(first.taken + later.taken, later.rest), w, Shifted(fate, |first.taken|))
  {
    if fate.Left? { assert (first.taken + later.taken)[|first.taken| + fate.index] == later.taken[fate.index]; }
  }

  /** Following is faithful. */
  lemma {:induction false} FateIsTrue(q: seq<UserQueue>, ms: seq<Move>, at: Place)
    requires Sound(q) && Occupied(q, at)
    ensures Meets(Run(q, ms), At(q, at), FateOf(q, ms, at))
    decreases |ms|
  {
    if ms != [] {
      NextFateIsTrue(q, ms[0], at);
      MoveIsSound(q, ms[0]);
      var first := Do(q, ms[0]);
      var later := Run(first.rest, ms[1..]);
      match NextFate(q, ms[0], at)
      case Left(i) => MeetsNow(first, later, At(q, at), i);
      case Waits(next) =>
        FateIsTrue(first.rest, ms[1..], next);
        MeetsLater(first, later, At(q, at), FateOf(first.rest, ms[1..], next));
    }
  }

  /** No starvation: whatever is pushed meanwhile, the very packet at a place leaves before its rank of turns has passed. */
  lemma {:induction false} EveryPacketLeaves(q: seq<UserQueue>, ms: seq<Move>, at: Place)
    requires Sound(q) && Occupied(q, at) && Turns(ms) > Rank(at)
    ensures FateOf(q, ms, at).Left?
    decreases |ms|
  {
    var next := Do(q, ms[0]).rest;
    NextFateIsTrue(q, ms[0], at);
    MoveIsSound(q, ms[0]);
    match NextFate(q, ms[0], at)
    case Left(_) =>
    case Waits(moved) =>
      if Effective(ms[0]) {
        PlacesAreBounded(next, moved);
        CloserRanksLower(moved, at);
      }
      EveryPacketLeaves(next, ms[1..], moved);
  }

  lemma NextFatesDiffer(q: seq<UserQueue>, m: Move, a: Place, b: Place)
    requires Sound(q) && Occupied(q, a) && Occupied(q, b) && a != b
    ensures NextFate(q, m, a) != NextFate(q, m, b)
  {
    if Effective(m) {
      ServeKeepsWf(q, m.room);
      assert UserWf(q[0]);
    }
  }

  /** Two packets never share a fate: each leaves at its own index or waits at its own place. */
  lemma {:induction false} FatesDiffer(q: seq<UserQueue>, ms: seq<Move>, a: Place, b: Place)
    requires Sound(q) && Occupied(q, a) && Occupied(q, b) && a != b
    ensures FateOf(q, ms, a) != FateOf(q, ms, b)
    decreases |ms|
  {
    if ms != [] {
      NextFateIsTrue(q, ms[0], a);
      NextFateIsTrue(q, ms[0], b);
      NextFatesDiffer(q, ms[0], a, b);
      MoveIsSound(q, ms[0]);
      var fa, fb := NextFate(q, ms[0], a), NextFate(q, ms[0], b);
      if fa.Waits? && fb.Waits? { FatesDiffer(Do(q, ms[0]).rest, ms[1..], fa.at, fb.at); }
    }
  }

  lemma MoveAdvancesUser(q: seq<UserQueue>, m: Move, i: nat)
    requires Sound(q) && i < |q| && (Effective(m) ==> i > 0)
    ensures var next, k := Do(q, m).rest, if Effective(m) then i - 1 else i;
            k < |next| && next[k].key == q[i].key
    ensures |Do(q, m).taken| <= if Effective(m) then FLOW_QUANTUM else 0
  {
    if Effective(m) {
      ServeKeepsWf(q, m.room);
      assert UserWf(q[0]);
    }
  }

  /** A user waits exactly one turn for each user ahead, and each costs at most a quantum. */
  lemma {:induction false} UserAdvances(q: seq<UserQueue>, ms: seq<Move>, i: nat)
    requires Sound(q) && i < |q| && Turns(ms) <= i
    ensures var end := Run(q, ms);
            && i - Turns(ms) < |end.rest| && end.rest[i - Turns(ms)].key == q[i].key
            && |end.taken| <= FLOW_QUANTUM * Turns(ms)
    decreases |ms|
  {
    if ms != [] {
      MoveIsSound(q, ms[0]);
      MoveAdvancesUser(q, ms[0], i);
      UserAdvances(Do(q, ms[0]).rest, ms[1..], if Effective(ms[0]) then i - 1 else i);
    }
  }

  // ---------------------------------------------------------------- equal turns

  predicate Present(q: seq<UserQueue>, u: UserKey) { UserIndex(q, u) < |q| }

  /** The user waits before and after every move. */
  predicate Stays(q: seq<UserQueue>, ms: seq<Move>, u: UserKey)
    decreases |ms|
  {
    Present(q, u) && (ms == [] || Stays(Do(q, ms[0]).rest, ms[1..], u))
  }

  function Gets(q: seq<UserQueue>, m: Move, u: UserKey): nat { if Effective(m) && q != [] && q[0].key == u then 1 else 0 }

  function TurnsOf(q: seq<UserQueue>, ms: seq<Move>, u: UserKey): nat
    decreases |ms|
  {
    if ms == [] then 0 else Gets(q, ms[0], u) + TurnsOf(Do(q, ms[0]).rest, ms[1..], u)
  }

  /** Zero while `a` is ahead of `b`. */
  function Behind(q: seq<UserQueue>, a: UserKey, b: UserKey): int { if UserIndex(q, a) < UserIndex(q, b) then 0 else 1 }

  lemma IndexIs(q: seq<UserQueue>, i: nat)
    requires Wf(q) && i < |q|
    ensures UserIndex(q, q[i].key) == i
  {
  }

  lemma PushKeepsIndex(q: seq<UserQueue>, w: Work, u: UserKey)
    requires Sound(q) && Present(q, u)
    ensures UserIndex(Do(q, Push(w)).rest, u) == UserIndex(q, u)
  {
    MoveIsSound(q, Push(w));
    var next := Do(q, Push(w)).rest;
    assert next[UserIndex(q, u)].key == u;
    IndexIs(next, UserIndex(q, u));
  }

  lemma TurnShiftsIndex(q: seq<UserQueue>, room: nat, u: UserKey)
    requires Sound(q) && room > 0 && Present(q, u)
    ensures var rest := Serve(q, room).rest;
            if UserIndex(q, u) > 0 then UserIndex(rest, u) == UserIndex(q, u) - 1
            else Present(rest, u) ==> UserIndex(rest, u) == |rest| - 1 == |q| - 1
  {
    ServeKeepsWf(q, room);
    assert UserWf(q[0]);
    var rest := Serve(q, room).rest;
    if UserIndex(q, u) > 0 {
      assert rest[UserIndex(q, u) - 1].key == u;
      IndexIs(rest, UserIndex(q, u) - 1);
    } else if Present(rest, u) {
      IndexIs(q, 0);
      assert forall j :: 0 <= j < |q| - 1 ==> rest[j].key == q[j + 1].key != u;
    }
  }

  lemma MoveShiftsLead(q: seq<UserQueue>, m: Move, a: UserKey, b: UserKey)
    requires Sound(q) && a != b && Present(q, a) && Present(q, b)
    requires Present(Do(q, m).rest, a) && Present(Do(q, m).rest, b)
    ensures Gets(q, m, a) - Gets(q, m, b) == Behind(Do(q, m).rest, a, b) - Behind(q, a, b)
  {
    if m.Push? {
      PushKeepsIndex(q, m.work, a);
      PushKeepsIndex(q, m.work, b);
    } else if Effective(m) {
      TurnShiftsIndex(q, m.room, a);
      TurnShiftsIndex(q, m.room, b);
    }
  }

  lemma {:induction false} LeadTelescopes(q: seq<UserQueue>, ms: seq<Move>, a: UserKey, b: UserKey)
    requires Sound(q) && a != b && Stays(q, ms, a) && Stays(q, ms, b)
    ensures TurnsOf(q, ms, a) - TurnsOf(q, ms, b) == Behind(Run(q, ms).rest, a, b) - Behind(q, a, b)
    decreases |ms|
  {
    if ms != [] {
      MoveIsSound(q, ms[0]);
      MoveShiftsLead(q, ms[0], a, b);
      LeadTelescopes(Do(q, ms[0]).rest, ms[1..], a, b);
    }
  }

  /** Many flows buy no extra turns: over any window in which two users both keep waiting, the turns they get
      differ by at most one. */
  lemma TurnsAreShared(q: seq<UserQueue>, ms: seq<Move>, a: UserKey, b: UserKey)
    requires Sound(q) && Stays(q, ms, a) && Stays(q, ms, b)
    ensures -1 <= TurnsOf(q, ms, a) - TurnsOf(q, ms, b) <= 1
  {
    if a != b { LeadTelescopes(q, ms, a, b); }
  }
}
