/** The bounded two-level scheduler of queued packets: users take turns, and each user's flows take turns.

    `Add` and `Serve` say what one push and one turn do; `PacketScheduler` is the daemon's object. */
module FairQueue {
  import opened Basics
  import opened Model

  const MAX_PENDING: nat := 128
  const MAX_BATCH: nat := 32
  const FLOW_QUANTUM: nat := 4

  datatype Connection = Connection(
    uid: nat, protocol: Protocol, source: Address, destination: Address, sport: Option<nat>, dport: Option<nat>)

  /** A queued packet; `connection` is missing when it could not be parsed. */
  datatype Work = Work(packetId: nat, connection: Option<Connection>)

  datatype UserKey = SocketUid(uid: nat) | UnparsedUser

  datatype FlowKey =
    | NetworkFlow(protocol: Protocol, source: Address, destination: Address, sport: Option<nat>, dport: Option<nat>)
    | UnparsedFlow(packetId: nat)

  function UserOf(w: Work): UserKey { if w.connection.Some? then SocketUid(w.connection.value.uid) else UnparsedUser }

  function FlowOf(w: Work): FlowKey {
    match w.connection
    case Some(c) => NetworkFlow(c.protocol, c.source, c.destination, c.sport, c.dport)
    case None => UnparsedFlow(w.packetId)
  }

  datatype FlowQueue = FlowQueue(key: FlowKey, packets: seq<Work>)

  datatype UserQueue = UserQueue(key: UserKey, flows: seq<FlowQueue>)

  // ---------------------------------------------------------------- well-formedness

  predicate FlowWf(user: UserKey, f: FlowQueue) {
    f.packets != [] && forall w :: w in f.packets ==> UserOf(w) == user && FlowOf(w) == f.key
  }

  predicate UserWf(x: UserQueue) {
    && x.flows != []
    && (forall f :: f in x.flows ==> FlowWf(x.key, f))
    && (forall i, j :: 0 <= i < j < |x.flows| ==> x.flows[i].key != x.flows[j].key)
  }

  /** No empty user or flow, and no key twice. */
  predicate Wf(q: seq<UserQueue>) {
    && (forall x :: x in q ==> UserWf(x))
    && (forall i, j :: 0 <= i < j < |q| ==> q[i].key != q[j].key)
  }

  function FlowsHold(flows: seq<FlowQueue>): seq<Work> {
    if flows == [] then [] else flows[0].packets + FlowsHold(flows[1..])
  }

  /** Everything that waits. */
  function Waiting(q: seq<UserQueue>): seq<Work> {
    if q == [] then [] else FlowsHold(q[0].flows) + Waiting(q[1..])
  }

  // ---------------------------------------------------------------- one push

  function FlowIndex(flows: seq<FlowQueue>, key: FlowKey): (i: nat)
    ensures i <= |flows| && (i < |flows| ==> flows[i].key == key)
    ensures forall j :: 0 <= j < i ==> flows[j].key != key
  {
    if flows == [] || flows[0].key == key then 0 else 1 + FlowIndex(flows[1..], key)
  }

  function UserIndex(q: seq<UserQueue>, key: UserKey): (i: nat)
    ensures i <= |q| && (i < |q| ==> q[i].key == key)
    ensures forall j :: 0 <= j < i ==> q[j].key != key
  {
    if q == [] || q[0].key == key then 0 else 1 + UserIndex(q[1..], key)
  }

  function AddToFlows(flows: seq<FlowQueue>, w: Work): seq<FlowQueue> {
    var i := FlowIndex(flows, FlowOf(w));
    if i < |flows| then flows[i := flows[i].(packets := flows[i].packets + [w])]
    else flows + [FlowQueue(FlowOf(w), [w])]
  }

  function Add(q: seq<UserQueue>, w: Work): seq<UserQueue> {
    var i := UserIndex(q, UserOf(w));
    if i < |q| then q[i := q[i].(flows := AddToFlows(q[i].flows, w))]
    else q + [UserQueue(UserOf(w), [FlowQueue(FlowOf(w), [w])])]
  }

  // ---------------------------------------------------------------- one turn

  datatype Served = Served(taken: seq<Work>, rest: seq<UserQueue>)

  function Quantum(f: FlowQueue, room: nat): nat { Min(Min(FLOW_QUANTUM, room), |f.packets|) }

  function FlowsAfter(flows: seq<FlowQueue>, n: nat): seq<FlowQueue>
    requires flows != [] && n <= |flows[0].packets|
  {
    var left := flows[0].packets[n..];
    if left == [] then flows[1..] else flows[1..] + [flows[0].(packets := left)]
  }

  /** The first user's first flow gives up to a quantum of packets; what is left of it, and of the user,
      goes to the back. */
  function Serve(q: seq<UserQueue>, room: nat): Served {
    if q == [] then Served([], [])
    else if q[0].flows == [] then Served([], q[1..])
    else
      var n := Quantum(q[0].flows[0], room);
      var flows := FlowsAfter(q[0].flows, n);
      Served(q[0].flows[0].packets[..n], if flows == [] then q[1..] else q[1..] + [q[0].(flows := flows)])
  }

  /** Turns until the room or the queue is used up. */
  function Batch(q: seq<UserQueue>, room: nat): Served
    requires Wf(q)
    decreases room
  {
    if room == 0 || q == [] then Served([], q)
    else
      ServeKeepsWf(q, room);
      var turn := Serve(q, room);
      var more := Batch(turn.rest, room - |turn.taken|);
      Served(turn.taken + more.taken, more.rest)
  }

  // ---------------------------------------------------------------- pushes and turns keep the shape

  lemma FlowsAfterWf(x: UserQueue, n: nat)
    requires UserWf(x) && n <= |x.flows[0].packets|
    ensures var flows := FlowsAfter(x.flows, n); flows != [] ==> UserWf(x.(flows := flows))
  {
    var flows := FlowsAfter(x.flows, n);
    forall f | f in flows ensures FlowWf(x.key, f) {
      if f !in x.flows {
        assert FlowWf(x.key, x.flows[0]) && f == x.flows[0].(packets := x.flows[0].packets[n..]);
        assert forall w :: w in f.packets ==> w in x.flows[0].packets;
      }
    }
  }

  lemma ServeKeepsWf(q: seq<UserQueue>, room: nat)
    requires Wf(q) && q != [] && room > 0
    ensures Wf(Serve(q, room).rest) && 1 <= |Serve(q, room).taken| <= Min(FLOW_QUANTUM, room)
  {
    assert UserWf(q[0]) && FlowWf(q[0].key, q[0].flows[0]);
    FlowsAfterWf(q[0], Quantum(q[0].flows[0], room));
  }

  lemma AddToFlowsWf(x: UserQueue, w: Work)
    requires UserWf(x) && UserOf(w) == x.key
    ensures UserWf(x.(flows := AddToFlows(x.flows, w)))
  {
    var flows := AddToFlows(x.flows, w);
    forall f | f in flows ensures FlowWf(x.key, f) {
      if f !in x.flows {
        var i := FlowIndex(x.flows, FlowOf(w));
        if i < |x.flows| { assert x.flows[i] in x.flows; }
      }
    }
  }

  lemma AddKeepsWf(q: seq<UserQueue>, w: Work)
    requires Wf(q)
    ensures Wf(Add(q, w))
  {
    var i := UserIndex(q, UserOf(w));
    if i < |q| {
      assert q[i] in q;
      AddToFlowsWf(q[i], w);
      assert forall x :: x in Add(q, w) ==> x in q || x == q[i].(flows := AddToFlows(q[i].flows, w));
    } else {
      assert forall x :: x in Add(q, w) ==> x in q || x == UserQueue(UserOf(w), [FlowQueue(FlowOf(w), [w])]);
    }
  }

  // ---------------------------------------------------------------- what waits is conserved

  lemma {:induction false} FlowsHoldSplit(a: seq<FlowQueue>, b: seq<FlowQueue>)
    ensures FlowsHold(a + b) == FlowsHold(a) + FlowsHold(b)
  {
    if a == [] {
      assert a + b == b;
    } else {
      FlowsHoldSplit(a[1..], b);
      assert FlowsHold(a + b) == a[0].packets + (FlowsHold(a[1..]) + FlowsHold(b)) by {
        assert (a + b)[1..] == a[1..] + b;
      }
      Regroup(a[0].packets, FlowsHold(a[1..]), FlowsHold(b));
    }
  }

  lemma {:induction false} WaitingSplit(a: seq<UserQueue>, b: seq<UserQueue>)
    ensures Waiting(a + b) == Waiting(a) + Waiting(b)
  {
    if a == [] {
      assert a + b == b;
    } else {
      var head := FlowsHold(a[0].flows);
      WaitingSplit(a[1..], b);
      assert Waiting(a + b) == head + (Waiting(a[1..]) + Waiting(b)) by { assert (a + b)[1..] == a[1..] + b; }
      Regroup(head, Waiting(a[1..]), Waiting(b));
    }
  }

  lemma WaitingOne(x: UserQueue)
    ensures Waiting([x]) == FlowsHold(x.flows)
  {
    assert [x][1..] == [];
  }

  lemma FlowsHoldOne(f: FlowQueue)
    ensures FlowsHold([f]) == f.packets
  {
    assert [f][1..] == [];
  }

  // ---------------------------------------------------------------- order within a flow

  /** The packets of one user's flow, in order. */
  function Of(user: UserKey, flow: FlowKey, ws: seq<Work>): seq<Work> {
    if ws == [] then []
    else (if UserOf(ws[0]) == user && FlowOf(ws[0]) == flow then [ws[0]] else []) + Of(user, flow, ws[1..])
  }

  lemma {:induction false} OfSplit(user: UserKey, flow: FlowKey, a: seq<Work>, b: seq<Work>)
    ensures Of(user, flow, a + b) == Of(user, flow, a) + Of(user, flow, b)
  {
    if a == [] {
      assert a + b == b;
    } else {
      var head := if UserOf(a[0]) == user && FlowOf(a[0]) == flow then [a[0]] else [];
      OfSplit(user, flow, a[1..], b);
      assert Of(user, flow, a + b) == head + (Of(user, flow, a[1..]) + Of(user, flow, b)) by {
        assert (a + b)[1..] == a[1..] + b;
      }
      Regroup(head, Of(user, flow, a[1..]), Of(user, flow, b));
    }
  }

  lemma {:induction false} OfNone(user: UserKey, flow: FlowKey, ws: seq<Work>)
    requires forall w :: w in ws ==> UserOf(w) != user || FlowOf(w) != flow
    ensures Of(user, flow, ws) == []
  {
    if ws != [] { OfNone(user, flow, ws[1..]); }
  }

  lemma {:induction false} FlowsHoldMembers(flows: seq<FlowQueue>, w: Work)
    requires w in FlowsHold(flows)
    ensures exists f :: f in flows && w in f.packets
  {
    if w !in flows[0].packets { FlowsHoldMembers(flows[1..], w); }
  }

  lemma {:induction false} WaitingMembers(q: seq<UserQueue>, w: Work)
    requires w in Waiting(q)
    ensures exists x :: x in q && w in FlowsHold(x.flows)
  {
    if w !in FlowsHold(q[0].flows) { WaitingMembers(q[1..], w); }
  }

  /** Another user's packets are not in the way. */
  lemma OtherUsers(user: UserKey, flow: FlowKey, q: seq<UserQueue>)
    requires forall x :: x in q ==> UserWf(x) && x.key != user
    ensures Of(user, flow, Waiting(q)) == []
  {
    forall w | w in Waiting(q) ensures UserOf(w) != user {
      WaitingMembers(q, w);
      var x :| x in q && w in FlowsHold(x.flows);
      FlowsHoldMembers(x.flows, w);
    }
    OfNone(user, flow, Waiting(q));
  }

  /** Nor are the other flows of the same user. */
  lemma OtherFlows(user: UserKey, flow: FlowKey, flows: seq<FlowQueue>)
    requires forall f :: f in flows ==> FlowWf(user, f) && f.key != flow
    ensures Of(user, flow, FlowsHold(flows)) == []
  {
    forall w | w in FlowsHold(flows) ensures FlowOf(w) != flow { FlowsHoldMembers(flows, w); }
    OfNone(user, flow, FlowsHold(flows));
  }

  lemma FlowsAfterHold(x: UserQueue, n: nat)
    requires x.flows != [] && n <= |x.flows[0].packets|
    ensures FlowsHold(FlowsAfter(x.flows, n)) == FlowsHold(x.flows[1..]) + x.flows[0].packets[n..]
  {
    var last := x.flows[0].(packets := x.flows[0].packets[n..]);
    FlowsHoldSplit(x.flows[1..], [last]);
    FlowsHoldOne(last);
  }

  lemma Swap<T>(taken: seq<T>, others: seq<T>, left: seq<T>)
    requires others == [] || (taken == [] && left == [])
    ensures taken + (others + left) == (taken + left) + others
  {
  }

  /** Serving the first flow of a user takes from the front of each flow's packets. */
  lemma FlowsAfterKeepOrder(x: UserQueue, n: nat, flow: FlowKey)
    requires UserWf(x) && n <= |x.flows[0].packets|
    ensures Of(x.key, flow, x.flows[0].packets[..n]) + Of(x.key, flow, FlowsHold(FlowsAfter(x.flows, n)))
         == Of(x.key, flow, FlowsHold(x.flows))
  {
    var packets, others := x.flows[0].packets, FlowsHold(x.flows[1..]);
    FlowsAfterHold(x, n);
    OfSplit(x.key, flow, others, packets[n..]);
    OfSplit(x.key, flow, packets, others);
    assert Of(x.key, flow, packets) == Of(x.key, flow, packets[..n]) + Of(x.key, flow, packets[n..]) by {
      OfSplit(x.key, flow, packets[..n], packets[n..]);
      assert packets == packets[..n] + packets[n..];
    }
    assert FlowWf(x.key, x.flows[0]);
    if flow == x.flows[0].key {
      OtherFlows(x.key, flow, x.flows[1..]);
    } else {
      OfNone(x.key, flow, packets[..n]);
      OfNone(x.key, flow, packets[n..]);
    }
    Swap(Of(x.key, flow, packets[..n]), Of(x.key, flow, others), Of(x.key, flow, packets[n..]));
  }

  /** A turn hands out every flow's packets in the order they waited. */
  lemma ServeKeepsOrder(q: seq<UserQueue>, room: nat, user: UserKey, flow: FlowKey)
    requires Wf(q)
    ensures Of(user, flow, Serve(q, room).taken) + Of(user, flow, Waiting(Serve(q, room).rest))
         == Of(user, flow, Waiting(q))
  {
    if q != [] {
      var x := q[0];
      assert UserWf(x);
      var n := Quantum(x.flows[0], room);
      var flows := FlowsAfter(x.flows, n);
      var mine, others := FlowsHold(flows), Waiting(q[1..]);
      assert Waiting(Serve(q, room).rest) == others + mine by {
        WaitingSplit(q[1..], [x.(flows := flows)]);
        WaitingOne(x.(flows := flows));
      }
      OfSplit(user, flow, others, mine);
      OfSplit(user, flow, FlowsHold(x.flows), others);
      if user == x.key {
        OtherUsers(user, flow, q[1..]);
        FlowsAfterKeepOrder(x, n, flow);
      } else {
        NotMine(x, user, flow);
        OfNone(user, flow, Serve(q, room).taken);
        ServedNotMine(x, n, user, flow);
      }
    }
  }

  lemma NotMine(x: UserQueue, user: UserKey, flow: FlowKey)
    requires UserWf(x) && user != x.key
    ensures Of(user, flow, FlowsHold(x.flows)) == []
    ensures forall w :: w in x.flows[0].packets ==> UserOf(w) != user
  {
    forall w | w in FlowsHold(x.flows) ensures UserOf(w) != user { FlowsHoldMembers(x.flows, w); }
    OfNone(user, flow, FlowsHold(x.flows));
    assert FlowWf(x.key, x.flows[0]);
  }

  lemma ServedNotMine(x: UserQueue, n: nat, user: UserKey, flow: FlowKey)
    requires UserWf(x) && user != x.key && n <= |x.flows[0].packets|
    ensures Of(user, flow, FlowsHold(FlowsAfter(x.flows, n))) == []
  {
    FlowsAfterWf(x, n);
    var flows := FlowsAfter(x.flows, n);
    if flows != [] { NotMine(x.(flows := flows), user, flow); }
  }

  lemma Slide<T>(a: seq<T>, f: seq<T>, b: seq<T>, w: seq<T>)
    requires b == [] || w == []
    ensures a + ((f + w) + b) == (a + (f + b)) + w
  {
  }

  lemma Around<T>(s: seq<T>, i: nat, y: T)
    requires i < |s|
    ensures s == s[..i] + ([s[i]] + s[i + 1..]) && s[i := y] == s[..i] + ([y] + s[i + 1..])
  {
  }

  lemma OfOne(user: UserKey, flow: FlowKey, w: Work)
    ensures Of(user, flow, [w]) == if UserOf(w) == user && FlowOf(w) == flow then [w] else []
  {
    assert [w][1..] == [];
  }

  lemma AddToFlowsHolds(x: UserQueue, w: Work, user: UserKey, flow: FlowKey)
    requires UserWf(x)
    ensures Of(user, flow, FlowsHold(AddToFlows(x.flows, w))) == Of(user, flow, FlowsHold(x.flows)) + Of(user, flow, [w])
  {
    var i := FlowIndex(x.flows, FlowOf(w));
    if i < |x.flows| {
      ExtendedFlowHolds(x, i, w, user, flow);
      assert AddToFlows(x.flows, w) == x.flows[i := x.flows[i].(packets := x.flows[i].packets + [w])];
    } else {
      FlowsHoldSplit(x.flows, [FlowQueue(FlowOf(w), [w])]);
      FlowsHoldOne(FlowQueue(FlowOf(w), [w]));
      OfSplit(user, flow, FlowsHold(x.flows), [w]);
    }
  }

  lemma ExtendedFlowHolds(x: UserQueue, i: nat, w: Work, user: UserKey, flow: FlowKey)
    requires UserWf(x) && i < |x.flows| && x.flows[i].key == FlowOf(w)
    ensures var g := x.flows[i].(packets := x.flows[i].packets + [w]);
            Of(user, flow, FlowsHold(x.flows[i := g])) == Of(user, flow, FlowsHold(x.flows)) + Of(user, flow, [w])
  {
    var a, f, b := x.flows[..i], x.flows[i], x.flows[i + 1..];
    var g := f.(packets := f.packets + [w]);
    Around(x.flows, i, g);
    HoldsMiddle(a, f, b, user, flow);
    HoldsMiddle(a, g, b, user, flow);
    OfSplit(user, flow, f.packets, [w]);
    OfOne(user, flow, w);
    if flow == FlowOf(w) { LaterFlows(x, i, user); }
    Slide(Of(user, flow, FlowsHold(a)), Of(user, flow, f.packets), Of(user, flow, FlowsHold(b)), Of(user, flow, [w]));
  }

  lemma HoldsMiddle(a: seq<FlowQueue>, f: FlowQueue, b: seq<FlowQueue>, user: UserKey, flow: FlowKey)
    ensures Of(user, flow, FlowsHold(a + ([f] + b)))
         == Of(user, flow, FlowsHold(a)) + (Of(user, flow, f.packets) + Of(user, flow, FlowsHold(b)))
  {
    FlowsHoldSplit(a, [f] + b);
    FlowsHoldSplit([f], b);
    FlowsHoldOne(f);
    OfSplit(user, flow, FlowsHold(a), f.packets + FlowsHold(b));
    OfSplit(user, flow, f.packets, FlowsHold(b));
  }

  lemma LaterFlows(x: UserQueue, i: nat, user: UserKey)
    requires UserWf(x) && i < |x.flows|
    ensures Of(user, x.flows[i].key, FlowsHold(x.flows[i + 1..])) == []
  {
    if user == x.key {
      OtherFlows(user, x.flows[i].key, x.flows[i + 1..]);
    } else {
      forall w | w in FlowsHold(x.flows[i + 1..]) ensures UserOf(w) != user {
        FlowsHoldMembers(x.flows[i + 1..], w);
        var f :| f in x.flows[i + 1..] && w in f.packets;
        assert f in x.flows;
      }
      OfNone(user, x.flows[i].key, FlowsHold(x.flows[i + 1..]));
    }
  }

  lemma WaitingMiddle(a: seq<UserQueue>, x: UserQueue, b: seq<UserQueue>, user: UserKey, flow: FlowKey)
    ensures Of(user, flow, Waiting(a + ([x] + b)))
         == Of(user, flow, Waiting(a)) + (Of(user, flow, FlowsHold(x.flows)) + Of(user, flow, Waiting(b)))
  {
    WaitingSplit(a, [x] + b);
    WaitingSplit([x], b);
    WaitingOne(x);
    OfSplit(user, flow, Waiting(a), FlowsHold(x.flows) + Waiting(b));
    OfSplit(user, flow, FlowsHold(x.flows), Waiting(b));
  }

  lemma ExtendedUserWaits(q: seq<UserQueue>, i: nat, w: Work, user: UserKey, flow: FlowKey)
    requires Wf(q) && i < |q| && q[i].key == UserOf(w)
    ensures var y := q[i].(flows := AddToFlows(q[i].flows, w));
            Of(user, flow, Waiting(q[i := y])) == Of(user, flow, Waiting(q)) + Of(user, flow, [w])
  {
    var a, x, b := q[..i], q[i], q[i + 1..];
    assert x in q;
    var y := x.(flows := AddToFlows(x.flows, w));
    Around(q, i, y);
    WaitingMiddle(a, x, b, user, flow);
    WaitingMiddle(a, y, b, user, flow);
    AddToFlowsHolds(x, w, user, flow);
    OfOne(user, flow, w);
    if user == UserOf(w) { OtherUsers(user, flow, b); }
    Slide(Of(user, flow, Waiting(a)), Of(user, flow, FlowsHold(x.flows)), Of(user, flow, Waiting(b)), Of(user, flow, [w]));
  }

  /** A pushed packet goes behind everything its flow already holds, and disturbs no other flow. */
  lemma AddKeepsOrder(q: seq<UserQueue>, w: Work, user: UserKey, flow: FlowKey)
    requires Wf(q)
    ensures Of(user, flow, Waiting(Add(q, w))) == Of(user, flow, Waiting(q)) + Of(user, flow, [w])
  {
    var i := UserIndex(q, UserOf(w));
    if i < |q| {
      ExtendedUserWaits(q, i, w, user, flow);
    } else {
      var y := UserQueue(UserOf(w), [FlowQueue(FlowOf(w), [w])]);
      WaitingSplit(q, [y]);
      WaitingOne(y);
      FlowsHoldOne(y.flows[0]);
      OfSplit(user, flow, Waiting(q), [w]);
    }
  }

  // ---------------------------------------------------------------- nothing is lost

  lemma FlowsAfterConserve(x: UserQueue, n: nat)
    requires x.flows != [] && n <= |x.flows[0].packets|
    ensures multiset(x.flows[0].packets[..n]) + multiset(FlowsHold(FlowsAfter(x.flows, n))) == multiset(FlowsHold(x.flows))
  {
    FlowsAfterHold(x, n);
    assert x.flows[0].packets == x.flows[0].packets[..n] + x.flows[0].packets[n..];
  }

  lemma ServeWaits(q: seq<UserQueue>, room: nat)
    requires Wf(q) && q != [] && q[0].flows != []
    ensures Waiting(Serve(q, room).rest)
         == Waiting(q[1..]) + FlowsHold(FlowsAfter(q[0].flows, Quantum(q[0].flows[0], room)))
  {
    assert UserWf(q[0]);
    var y := q[0].(flows := FlowsAfter(q[0].flows, Quantum(q[0].flows[0], room)));
    WaitingSplit(q[1..], [y]);
    WaitingOne(y);
  }

  lemma ServeConserves(q: seq<UserQueue>, room: nat)
    requires Wf(q)
    ensures multiset(Serve(q, room).taken) + multiset(Waiting(Serve(q, room).rest)) == multiset(Waiting(q))
  {
    if q != [] {
      assert UserWf(q[0]);
      ServeWaits(q, room);
      FlowsAfterConserve(q[0], Quantum(q[0].flows[0], room));
    }
  }

  lemma ServeCounts(q: seq<UserQueue>, room: nat)
    requires Wf(q)
    ensures |Serve(q, room).taken| + |Waiting(Serve(q, room).rest)| == |Waiting(q)|
  {
    ServeConserves(q, room);
    var served := Serve(q, room);
    assert |multiset(served.taken) + multiset(Waiting(served.rest))| == |multiset(Waiting(q))|;
  }

  lemma AddToFlowsCounts(flows: seq<FlowQueue>, w: Work)
    ensures |FlowsHold(AddToFlows(flows, w))| == |FlowsHold(flows)| + 1
  {
    var i := FlowIndex(flows, FlowOf(w));
    if i < |flows| {
      var g := flows[i].(packets := flows[i].packets + [w]);
      Around(flows, i, g);
      FlowsHoldSplit(flows[..i], [flows[i]] + flows[i + 1..]);
      FlowsHoldSplit(flows[..i], [g] + flows[i + 1..]);
      FlowsHoldSplit([flows[i]], flows[i + 1..]);
      FlowsHoldSplit([g], flows[i + 1..]);
      FlowsHoldOne(flows[i]);
      FlowsHoldOne(g);
    } else {
      FlowsHoldSplit(flows, [FlowQueue(FlowOf(w), [w])]);
      FlowsHoldOne(FlowQueue(FlowOf(w), [w]));
    }
  }

  lemma AddCounts(q: seq<UserQueue>, w: Work)
    ensures |Waiting(Add(q, w))| == |Waiting(q)| + 1
  {
    var i := UserIndex(q, UserOf(w));
    if i < |q| {
      var y := q[i].(flows := AddToFlows(q[i].flows, w));
      AddToFlowsCounts(q[i].flows, w);
      Around(q, i, y);
      WaitingSplit(q[..i], [q[i]] + q[i + 1..]);
      WaitingSplit(q[..i], [y] + q[i + 1..]);
      WaitingSplit([q[i]], q[i + 1..]);
      WaitingSplit([y], q[i + 1..]);
      WaitingOne(q[i]);
      WaitingOne(y);
    } else {
      var y := UserQueue(UserOf(w), [FlowQueue(FlowOf(w), [w])]);
      WaitingSplit(q, [y]);
      WaitingOne(y);
      FlowsHoldOne(y.flows[0]);
    }
  }

  /** With the rest, what was taken is exactly what waited, each flow in order; the queue keeps its shape. */
  ghost predicate Splits(q: seq<UserQueue>, served: Served) {
    && Wf(served.rest)
    && multiset(served.taken) + multiset(Waiting(served.rest)) == multiset(Waiting(q))
    && forall user, flow ::
         Of(user, flow, served.taken) + Of(user, flow, Waiting(served.rest)) == Of(user, flow, Waiting(q))
  }

  lemma ServeSplits(q: seq<UserQueue>, room: nat)
    requires Wf(q) && q != [] && room > 0
    ensures Splits(q, Serve(q, room))
  {
    ServeKeepsWf(q, room);
    ServeConserves(q, room);
    forall user, flow
      ensures Of(user, flow, Serve(q, room).taken) + Of(user, flow, Waiting(Serve(q, room).rest))
           == Of(user, flow, Waiting(q))
    {
      ServeKeepsOrder(q, room, user, flow);
    }
  }

  lemma SplitsCompose(q: seq<UserQueue>, first: Served, second: Served)
    requires Splits(q, first) && Splits(first.rest, second)
    ensures Splits(q, Served(first.taken + second.taken, second.rest))
  {
    forall user, flow
      ensures Of(user, flow, first.taken + second.taken) + Of(user, flow, Waiting(second.rest))
           == Of(user, flow, Waiting(q))
    {
      OfSplit(user, flow, first.taken, second.taken);
      Regroup(Of(user, flow, first.taken), Of(user, flow, second.taken), Of(user, flow, Waiting(second.rest)));
      assert Of(user, flow, second.taken) + Of(user, flow, Waiting(second.rest)) == Of(user, flow, Waiting(first.rest));
    }
  }

  lemma NothingSplits(q: seq<UserQueue>)
    requires Wf(q)
    ensures Splits(q, Served([], q))
  {
    forall user, flow ensures Of(user, flow, []) + Of(user, flow, Waiting(q)) == Of(user, flow, Waiting(q)) {}
  }

  lemma BatchUnfolds(q: seq<UserQueue>, room: nat)
    requires Wf(q) && q != [] && room > 0
    ensures var turn := Serve(q, room);
            && Wf(turn.rest) && 1 <= |turn.taken| <= room
            && var more := Batch(turn.rest, room - |turn.taken|);
               Batch(q, room) == Served(turn.taken + more.taken, more.rest)
  {
    ServeKeepsWf(q, room);
  }

  /** A batch, with the rest, is exactly what waited, and hands out every flow's packets in order. */
  lemma {:induction false} BatchSplits(q: seq<UserQueue>, room: nat)
    requires Wf(q)
    ensures Splits(q, Batch(q, room))
    decreases room
  {
    if room == 0 || q == [] {
      NothingSplits(q);
    } else {
      BatchUnfolds(q, room);
      var turn := Serve(q, room);
      ServeSplits(q, room);
      BatchSplits(turn.rest, room - |turn.taken|);
      SplitsCompose(q, turn, Batch(turn.rest, room - |turn.taken|));
    }
  }

  /** A batch is full unless the queue runs dry. */
  lemma {:induction false} BatchIsFull(q: seq<UserQueue>, room: nat)
    requires Wf(q)
    ensures |Batch(q, room).taken| == Min(room, |Waiting(q)|)
    decreases room
  {
    if room > 0 && q != [] {
      BatchUnfolds(q, room);
      ServeCounts(q, room);
      BatchIsFull(Serve(q, room).rest, room - |Serve(q, room).taken|);
    }
  }

  // ---------------------------------------------------------------- the daemon's object

  class PacketScheduler {
    var users: seq<UserQueue>
    var pending: nat

    ghost predicate Valid()
      reads this
    {
      Wf(users) && pending == |Waiting(users)| <= MAX_PENDING
    }

    constructor ()
      ensures Valid() && users == [] && pending == 0
    {
      users, pending := [], 0;
    }

    method Push(w: Work) returns (ok: bool)
      requires Valid()
      modifies this
      ensures Valid() && (ok <==> old(pending) < 128)
      ensures users == if ok then Add(old(users), w) else old(users)
    {
      if pending >= MAX_PENDING { return false; }
      AddKeepsWf(users, w);
      AddCounts(users, w);
      var i := 0;
      while i < |users| && users[i].key != UserOf(w)
        invariant i <= |users| && forall j :: 0 <= j < i ==> users[j].key != UserOf(w)
      {
        i := i + 1;
      }
      assert i == UserIndex(users, UserOf(w));
      if i < |users| {
        var flows := users[i].flows;
        var k := 0;
        while k < |flows| && flows[k].key != FlowOf(w)
          invariant k <= |flows| && forall j :: 0 <= j < k ==> flows[j].key != FlowOf(w)
        {
          k := k + 1;
        }
        assert k == FlowIndex(flows, FlowOf(w));
        if k < |flows| {
          flows := flows[k := flows[k].(packets := flows[k].packets + [w])];
        } else {
          flows := flows + [FlowQueue(FlowOf(w), [w])];
        }
        users := users[i := users[i].(flows := flows)];
      } else {
        users := users + [UserQueue(UserOf(w), [FlowQueue(FlowOf(w), [w])])];
      }
      pending := pending + 1;
      ok := true;
    }

    /** One turn: the front user's front flow gives packets one by one. */
    method TakeTurn(room: nat) returns (taken: seq<Work>)
      requires Valid() && users != [] && room > 0
      modifies this
      ensures Valid() && Served(taken, users) == Serve(old(users), room)
      ensures 1 <= |taken| <= room
    {
      ServeKeepsWf(users, room);
      ServeCounts(users, room);
      assert UserWf(users[0]);
      var user := users[0];
      users := users[1..];
      var flow := user.flows[0];
      var flows := user.flows[1..];
      var packets := flow.packets;
      var quantum := Min(FLOW_QUANTUM, room);
      taken := [];
      while |taken| < quantum && packets != []
        invariant |taken| <= Quantum(flow, room)
        invariant taken == flow.packets[..|taken|] && packets == flow.packets[|taken|..]
        invariant pending + |taken| == old(pending)
        invariant users == old(users)[1..]
      {
        taken := taken + [packets[0]];
        packets := packets[1..];
        pending := pending - 1;
      }
      assert |taken| == Quantum(flow, room);
      if packets != [] { flows := flows + [flow.(packets := packets)]; }
      if flows != [] { users := users + [user.(flows := flows)]; }
    }

    method TakeBatch() returns (batch: seq<Work>)
      requires Valid()
      modifies this
      ensures Valid() && Served(batch, users) == Batch(old(users), MAX_BATCH)
      ensures |batch| == Min(32, old(pending))
    {
      BatchIsFull(users, MAX_BATCH);
      batch := [];
      while |batch| < MAX_BATCH && users != []
        invariant Valid() && |batch| <= MAX_BATCH
        invariant Batch(old(users), MAX_BATCH)
               == Served(batch + Batch(users, MAX_BATCH - |batch|).taken, Batch(users, MAX_BATCH - |batch|).rest)
      {
        ghost var before := batch;
        ghost var more := Batch(users, MAX_BATCH - |batch|);
        var taken := TakeTurn(MAX_BATCH - |batch|);
        Regroup(before, taken, Batch(users, MAX_BATCH - |before| - |taken|).taken);
        batch := batch + taken;
      }
    }
  }
}
