/** Moving the learning observer's dispatcher to the end of a built-in chain while traffic flows through it. */
module ObserverRelocation {

  /** A rule of the chain: a jump to the observer, canonical or with extra matches, or anything else. */
  datatype Line = Dispatch | Noncanonical(text: string) | Foreign(text: string)

  function Foreigners(chain: seq<Line>): seq<Line> {
    if chain == [] then [] else (if chain[0].Dispatch? then [] else [chain[0]]) + Foreigners(chain[1..])
  }

  function Dispatches(chain: seq<Line>): nat {
    if chain == [] then 0 else (if chain[0].Dispatch? then 1 else 0) + Dispatches(chain[1..])
  }

  /** Deleting by specification removes the first match. */
  function DeleteFirst(chain: seq<Line>): seq<Line> {
    if chain == [] then []
    else if chain[0].Dispatch? then chain[1..]
    else [chain[0]] + DeleteFirst(chain[1..])
  }

  lemma {:induction false} DeleteKeepsForeigners(chain: seq<Line>)
    ensures Foreigners(DeleteFirst(chain)) == Foreigners(chain)
    ensures Dispatches(DeleteFirst(chain)) == if Dispatches(chain) == 0 then 0 else Dispatches(chain) - 1
  {
    if chain != [] && !chain[0].Dispatch? { DeleteKeepsForeigners(chain[1..]); }
  }

  lemma {:induction false} DeleteKeepsLast(chain: seq<Line>)
    requires chain != [] && chain[|chain| - 1].Dispatch? && Dispatches(chain) >= 2
    ensures var next := DeleteFirst(chain); next != [] && next[|next| - 1].Dispatch?
  {
    if chain[0].Dispatch? {
      assert Dispatches(chain[1..]) >= 1;
    } else {
      DeleteKeepsLast(chain[1..]);
    }
  }

  lemma {:induction false} AppendCounts(chain: seq<Line>)
    ensures Foreigners(chain + [Dispatch]) == Foreigners(chain)
    ensures Dispatches(chain + [Dispatch]) == Dispatches(chain) + 1
  {
    if chain == [] {
      assert chain + [Dispatch] == [Dispatch] && [Dispatch][1..] == [];
    } else {
      AppendCounts(chain[1..]);
      assert (chain + [Dispatch])[1..] == chain[1..] + [Dispatch];
    }
  }

  /** One dispatcher, in last place, means the foreign rules in their order and then the dispatcher. */
  lemma {:induction false} LoneLast(chain: seq<Line>)
    requires chain != [] && chain[|chain| - 1].Dispatch? && Dispatches(chain) == 1
    ensures chain == Foreigners(chain) + [Dispatch]
  {
    if chain[0].Dispatch? {
      if |chain| > 1 { LastCounts(chain[1..]); }
      assert chain[1..] == [];
    } else {
      LoneLast(chain[1..]);
      assert chain == [chain[0]] + chain[1..];
    }
  }

  lemma {:induction false} LastCounts(chain: seq<Line>)
    requires chain != [] && chain[|chain| - 1].Dispatch?
    ensures Dispatches(chain) >= 1
  {
    if !chain[0].Dispatch? { LastCounts(chain[1..]); }
  }

  /** The scan of the captured chain, which gives up at a noncanonical dispatcher. */
  method CountDispatchers(captured: seq<Line>) returns (canonical: bool, found: nat)
    ensures canonical <==> forall l :: l in captured ==> !l.Noncanonical?
    ensures canonical ==> found == Dispatches(captured)
  {
    found := 0;
    for i := 0 to |captured|
      invariant found == Dispatches(captured[..i])
      invariant forall l :: l in captured[..i] ==> !l.Noncanonical?
    {
      assert captured[..i + 1] == captured[..i] + [captured[i]];
      if captured[i].Noncanonical? { return false, found; }
      if captured[i].Dispatch? {
        AppendCounts(captured[..i]);
        found := found + 1;
      } else {
        SkipCounts(captured[..i], captured[i]);
      }
    }
    assert captured[..|captured|] == captured;
    canonical := true;
  }

  datatype Fault = Fine | Fails(effective: bool)

  /** The chain of the kernel, with every state it passed through. */
  class BuiltInChain {
    const faults: nat -> Fault
    var lines: seq<Line>
    var clock: nat
    var trace: seq<seq<Line>>

    constructor (faults: nat -> Fault, lines: seq<Line>)
      ensures this.faults == faults && this.lines == lines && trace == [lines]
    {
      this.faults, this.lines, clock, trace := faults, lines, 0, [lines];
    }

    /** None of the commands from `a` up to `b` failed. */
    ghost predicate Smooth(a: nat, b: nat) { forall k :: a <= k < b ==> faults(k).Fine? }

    /** A command that may fail before or after it took effect. */
    method Become(next: seq<Line>) returns (ok: bool)
      modifies this
      ensures ok ==> lines == next
      ensures lines == next || lines == old(lines)
      ensures trace == old(trace) + [lines]
      ensures clock == old(clock) + 1 && (ok <==> Smooth(old(clock), clock))
    {
      var fault := faults(clock);
      clock := clock + 1;
      ok := fault.Fine?;
      if fault.Fine? || fault.effective { lines := next; }
      trace := trace + [lines];
    }

    /** Append, then delete the first as often as there were dispatchers. The foreign rules never move; from the
        append on there is always a dispatcher; success leaves exactly one, in last place; a noncanonical dispatcher
        is refused untouched, and otherwise it succeeds exactly when no command fails. */
    method Relocate() returns (ok: bool)
      modifies this
      ensures old(trace) <= trace && Foreigners(lines) == Foreigners(old(lines))
      ensures forall i :: |old(trace)| <= i < |trace| ==>
                && Foreigners(trace[i]) == Foreigners(old(lines))
                && (old(Dispatches(lines)) > 0 ==> Dispatches(trace[i]) > 0)
                && (i > |old(trace)| ==> Dispatches(trace[i]) > 0)
      ensures ok ==> lines == Foreigners(old(lines)) + [Dispatch]
      ensures (exists l :: l in old(lines) && l.Noncanonical?) ==> !ok && trace == old(trace) && lines == old(lines)
      ensures (forall l :: l in old(lines) ==> !l.Noncanonical?) ==> (ok <==> Smooth(old(clock), clock))
    {
      var canonical, found := CountDispatchers(lines);
      if !canonical { return false; }
      if found == 1 && lines[|lines| - 1].Dispatch? {
        LoneLast(lines);
        return true;
      }
      AppendCounts(lines);
      ok := Become(lines + [Dispatch]);
      if !ok { return; }
      for deleted := 0 to found
        invariant Foreigners(lines) == Foreigners(old(lines)) && Dispatches(lines) == found + 1 - deleted
        invariant lines != [] && lines[|lines| - 1].Dispatch?
        invariant old(clock) <= clock && Smooth(old(clock), clock) && ok
        invariant old(trace) <= trace && |trace| > |old(trace)|
        invariant forall i :: |old(trace)| <= i < |trace| ==>
                    && Foreigners(trace[i]) == Foreigners(old(lines)) && Dispatches(trace[i]) > 0
      {
        DeleteKeepsForeigners(lines);
        DeleteKeepsLast(lines);
        ok := Become(DeleteFirst(lines));
        if !ok { return; }
      }
      LoneLast(lines);
    }
  }

  lemma {:induction false} SkipCounts(chain: seq<Line>, l: Line)
    requires !l.Dispatch?
    ensures Dispatches(chain + [l]) == Dispatches(chain)
  {
    if chain == [] {
      assert chain + [l] == [l] && [l][1..] == [];
    } else {
      SkipCounts(chain[1..], l);
      assert (chain + [l])[1..] == chain[1..] + [l];
    }
  }
}
