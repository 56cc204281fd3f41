/** The bounded cache of socket-owner search hints that fast attribution starts from.

    A ghost history remembers where each hint was born, and whether some generation was ever prepared both for
    learning and for enforcing. */
module OwnerHints {
  import opened Basics
  import opened Model

  const MAX_HINTS: nat := 256
  const HINT_TTL: nat := 180_000   // milliseconds

  /** The next generation, in 32 bits. */
  function Following(g: nat): (r: nat)
    ensures g <= MAX_GENERATION ==> r == g + 1
  {
    (g + 1) % U32
  }

  datatype Key = Key(uid: nat, process: nat)

  datatype Hint = Hint(anchorTid: nat, anchorStart: nat, verifiedAt: nat)

  datatype Origin = Origin(generation: Option<nat>, learning: bool)

  /** Time since a point that may lie in the future, where it counts as none. */
  function Since(now: nat, then_: nat): nat { if now < then_ then 0 else now - then_ }

  predicate Live(h: Hint, now: nat) { Since(now, h.verifiedAt) < HINT_TTL }

  function Kept(entries: map<Key, Hint>, now: nat): map<Key, Hint> {
    map k | k in entries && Live(entries[k], now) :: entries[k]
  }

  /** Hints live for three minutes after they were verified. */
  lemma KeptAreYoung(entries: map<Key, Hint>, now: nat, k: Key)
    ensures k in Kept(entries, now) <==> k in entries && now < entries[k].verifiedAt + 180_000
    ensures k in Kept(entries, now) ==> Kept(entries, now)[k] == entries[k]
  {
  }

  lemma KeptIsSmaller(entries: map<Key, Hint>, now: nat)
    ensures |Kept(entries, now)| <= |entries|
  {
    var kept := Kept(entries, now);
    assert kept.Keys <= entries.Keys;
    assert |kept.Keys| <= |entries.Keys| by { SubsetIsSmaller(kept.Keys, entries.Keys); }
  }

  // ---------------------------------------------------------------- seeding

  datatype Socket = Socket(uid: nat, inode: nat)

  datatype Owner = Owner(tid: nat, process: nat)

  datatype Attributed = Attributed(pid: nat, startTime: nat)

  /** What an exhaustive scan saw: every process at each socket, and the sole owners. */
  datatype Scan = Scan(observed: map<Socket, set<nat>>, unique: map<Socket, seq<Owner>>)

  /** The processes seen at a target that failed. */
  ghost predicate Suspect(scan: Scan, keys: seq<Option<Socket>>, results: seq<Option<Attributed>>, process: nat) {
    exists i :: 0 <= i < |keys| && i < |results| && results[i].None? && keys[i].Some?
                && keys[i].value in scan.observed && process in scan.observed[keys[i].value]
  }

  /** The owner a successful target seeds, if any. */
  ghost predicate Seeds(
    scan: Scan, keys: seq<Option<Socket>>, results: seq<Option<Attributed>>, i: nat, k: Key, h: Hint, now: nat)
    requires i < |keys| == |results|
  {
    && keys[i].Some? && results[i].Some? && keys[i].value in scan.unique
    && k.uid == keys[i].value.uid && Owner(results[i].value.pid, k.process) in scan.unique[keys[i].value]
    && h == Hint(results[i].value.pid, results[i].value.startTime, now)
    && !Suspect(scan, keys, results, k.process)
  }

  /** A target that succeeded, at a socket one of whose sole owners is its process and not suspect. */
  ghost predicate Qualifies(scan: Scan, keys: seq<Option<Socket>>, results: seq<Option<Attributed>>, i: nat, k: Key)
    requires i < |keys| == |results|
  {
    && keys[i].Some? && results[i].Some? && keys[i].value in scan.unique
    && k.uid == keys[i].value.uid && Owner(results[i].value.pid, k.process) in scan.unique[keys[i].value]
    && !Suspect(scan, keys, results, k.process)
  }

  /** Some owner at the target has a hint seeded by this scan. */
  ghost predicate Recorded(
    entries: map<Key, Hint>, scan: Scan, keys: seq<Option<Socket>>, results: seq<Option<Attributed>>, i: nat, now: nat)
    requires i < |keys| == |results|
  {
    exists k, j :: k in entries && Qualifies(scan, keys, results, i, k) && 0 <= j < |keys|
                   && Seeds(scan, keys, results, j, k, entries[k], now)
  }

  lemma RecordedStays(
    entries: map<Key, Hint>, scan: Scan, keys: seq<Option<Socket>>, results: seq<Option<Attributed>>, i: nat, now: nat,
    at: nat, k: Key, h: Hint)
    requires i < |keys| == |results| && at < |keys|
    requires Recorded(entries, scan, keys, results, i, now) && Seeds(scan, keys, results, at, k, h, now)
    ensures Recorded(entries[k := h], scan, keys, results, i, now)
  {
    var m, j :| m in entries && Qualifies(scan, keys, results, i, m) && 0 <= j < |keys|
                && Seeds(scan, keys, results, j, m, entries[m], now);
    var next := entries[k := h];
    if m == k {
      assert m in next && Seeds(scan, keys, results, at, m, next[m], now);
    } else {
      assert m in next && Seeds(scan, keys, results, j, m, next[m], now);
    }
  }

  ghost predicate AllRecorded(
    entries: map<Key, Hint>, scan: Scan, keys: seq<Option<Socket>>, results: seq<Option<Attributed>>, n: nat, now: nat)
    requires n <= |keys| == |results|
  {
    forall i, k :: 0 <= i < n && Qualifies(scan, keys, results, i, k) ==> Recorded(entries, scan, keys, results, i, now)
  }

  /** Every hint was there before or was seeded by a target of this scan. */
  ghost predicate SeededFrom(
    before: map<Key, Hint>, entries: map<Key, Hint>, scan: Scan, keys: seq<Option<Socket>>,
    results: seq<Option<Attributed>>, now: nat)
    requires |keys| == |results|
  {
    forall k :: k in entries ==>
      || (k in before && entries[k] == before[k])
      || (exists i :: 0 <= i < |keys| && Seeds(scan, keys, results, i, k, entries[k], now))
  }

  lemma SeedingGoesOn(
    start: map<Key, Hint>, before: map<Key, Hint>, after: map<Key, Hint>, scan: Scan, keys: seq<Option<Socket>>,
    results: seq<Option<Attributed>>, i: nat, seeded: Option<(Key, Hint)>, now: nat)
    requires i < |keys| == |results| && SeededFrom(start, before, scan, keys, results, now)
    requires seeded.None? ==> after == before
    requires seeded.Some? ==>
               && Seeds(scan, keys, results, i, seeded.value.0, seeded.value.1, now)
               && forall k :: k in after ==>
                    (k == seeded.value.0 && after[k] == seeded.value.1) || (k in before && after[k] == before[k])
    ensures SeededFrom(start, after, scan, keys, results, now)
  {
  }

  lemma RecordingGoesOn(
    before: map<Key, Hint>, after: map<Key, Hint>, scan: Scan, keys: seq<Option<Socket>>,
    results: seq<Option<Attributed>>, i: nat, seeded: Option<(Key, Hint)>, now: nat)
    requires i < |keys| == |results| && AllRecorded(before, scan, keys, results, i, now)
    requires seeded.None? ==> after == before && forall k :: !Qualifies(scan, keys, results, i, k)
    requires seeded.Some? ==>
               && Seeds(scan, keys, results, i, seeded.value.0, seeded.value.1, now)
               && after == before[seeded.value.0 := seeded.value.1]
    ensures AllRecorded(after, scan, keys, results, i + 1, now)
  {
    if seeded.Some? {
      var k, h := seeded.value.0, seeded.value.1;
      forall j, m | 0 <= j < i && Qualifies(scan, keys, results, j, m) ensures Recorded(after, scan, keys, results, j, now) {
        RecordedStays(before, scan, keys, results, j, now, i, k, h);
      }
      assert Qualifies(scan, keys, results, i, k) && after[k] == h;
    }
  }

  method SuspectsOf(scan: Scan, keys: seq<Option<Socket>>, results: seq<Option<Attributed>>) returns (suspects: set<nat>)
    requires |keys| == |results|
    ensures forall p :: p in suspects <==> Suspect(scan, keys, results, p)
  {
    suspects := {};
    for i := 0 to |keys|
      invariant forall p :: p in suspects <==> Suspect(scan, keys[..i], results[..i], p)
    {
      ghost var before := suspects;
      if results[i].None? && keys[i].Some? && keys[i].value in scan.observed {
        suspects := suspects + scan.observed[keys[i].value];
      }
      forall p ensures p in suspects <==> Suspect(scan, keys[..i + 1], results[..i + 1], p) {
        SuspectGrows(scan, keys, results, i, p);
      }
    }
    assert keys[..|keys|] == keys && results[..|results|] == results;
  }

  lemma SuspectGrows(scan: Scan, keys: seq<Option<Socket>>, results: seq<Option<Attributed>>, i: nat, p: nat)
    requires i < |keys| == |results|
    ensures Suspect(scan, keys[..i + 1], results[..i + 1], p) <==>
            Suspect(scan, keys[..i], results[..i], p)
            || (results[i].None? && keys[i].Some? && keys[i].value in scan.observed && p in scan.observed[keys[i].value])
  {
    var ks, rs := keys[..i + 1], results[..i + 1];
    assert ks[i] == keys[i] && rs[i] == results[i];
    assert forall j :: 0 <= j < i ==> ks[j] == keys[..i][j] && rs[j] == results[..i][j];
  }

  method FindOwner(owners: seq<Owner>, tid: nat, suspects: set<nat>) returns (found: Option<Owner>)
    ensures found.Some? ==> found.value in owners && found.value.tid == tid && found.value.process !in suspects
    ensures found.None? ==> forall o :: o in owners && o.tid == tid ==> o.process in suspects
  {
    for i := 0 to |owners|
      invariant forall o :: o in owners[..i] && o.tid == tid ==> o.process in suspects
    {
      if owners[i].tid == tid && owners[i].process !in suspects { return Some(owners[i]); }
      assert owners[..i + 1] == owners[..i] + [owners[i]];
    }
    assert owners[..|owners|] == owners;
    found := None;
  }

  // ---------------------------------------------------------------- the cache

  class OwnerCache {
    var generation: Option<nat>
    var warm: bool
    var entries: map<Key, Hint>
    ghost var origin: map<Key, Origin>
    ghost var mixed: bool   // some generation was prepared in both modes

    /** A hint comes from the current generation and mode, or from learning in the generation directly before. */
    ghost predicate Rooted(k: Key)
      reads this
      requires k in origin
    {
      || origin[k] == Origin(generation, warm)
      || (!warm && generation.Some? && generation.value > 0 && origin[k] == Origin(Some(generation.value - 1), true))
    }

    ghost predicate Valid()
      reads this
    {
      && |entries| <= MAX_HINTS && origin.Keys == entries.Keys
      && (!mixed ==> forall k :: k in entries ==> Rooted(k))
      && (generation.Some? ==> generation.value <= MAX_GENERATION)
    }

    constructor ()
      ensures Valid() && entries == map[] && !mixed && generation == None && !warm
    {
      generation, warm, entries, origin, mixed := None, false, map[], map[], false;
    }

    method Clear()
      modifies this
      ensures Valid() && entries == map[] && generation == None && !warm && mixed == old(mixed)
    {
      generation, warm, entries, origin := None, false, map[], map[];
    }

    method Retain(now: nat)
      requires origin.Keys == entries.Keys
      modifies this`entries, this`origin
      ensures entries == Kept(old(entries), now) && |entries| <= |old(entries)|
      ensures origin.Keys == entries.Keys && forall k :: k in entries ==> origin[k] == old(origin)[k]
    {
      KeptIsSmaller(entries, now);
      entries := Kept(entries, now);
      origin := map k | k in entries :: origin[k];
    }

    /** Enforcing keeps the hints of its own generation and those learned in the generation directly before. */
    method Prepare(g: nat, now: nat)
      requires Valid() && g <= MAX_GENERATION
      modifies this
      ensures Valid() && generation == Some(g) && !warm
      ensures mixed == (old(mixed) || (old(generation) == Some(g) && old(warm)))
      ensures forall k :: k in entries ==> Live(entries[k], now)
      ensures entries == Kept(if old(generation) == Some(g) || (old(warm) && old(generation) == Some(g - 1))
                              then old(entries) else map[], now)
      ensures forall k :: k in entries ==> origin[k] == old(origin)[k]
    {
      mixed := mixed || (generation == Some(g) && warm);
      var direct := warm && generation.Some? && Following(generation.value) == g;
      assert direct <==> warm && generation == Some(g - 1);
      if generation != Some(g) && !direct { entries, origin := map[], map[]; }
      Retain(now);
      generation, warm := Some(g), false;
    }

    /** Learning keeps only the hints of its own generation. */
    method PrepareLearning(g: nat, now: nat)
      requires Valid() && g <= MAX_GENERATION
      modifies this
      ensures Valid() && generation == Some(g) && warm
      ensures mixed == (old(mixed) || (old(generation) == Some(g) && !old(warm)))
      ensures forall k :: k in entries ==> Live(entries[k], now)
      ensures entries == Kept(if old(generation) == Some(g) then old(entries) else map[], now)
      ensures forall k :: k in entries ==> origin[k] == old(origin)[k]
    {
      mixed := mixed || (generation == Some(g) && !warm);
      if generation != Some(g) { entries, origin := map[], map[]; }
      Retain(now);
      generation, warm := Some(g), true;
    }

    /** The hint verified longest ago. */
    method Oldest() returns (oldest: Key)
      requires entries != map[]
      ensures oldest in entries && forall k :: k in entries ==> entries[oldest].verifiedAt <= entries[k].verifiedAt
    {
      var rest := entries.Keys;
      oldest :| oldest in rest;
      rest := rest - {oldest};
      while rest != {}
        invariant rest <= entries.Keys && oldest in entries
        invariant forall k :: k in entries && k !in rest ==> entries[oldest].verifiedAt <= entries[k].verifiedAt
      {
        var k :| k in rest;
        if entries[k].verifiedAt < entries[oldest].verifiedAt { oldest := k; }
        rest := rest - {k};
      }
    }

    method Evict() returns (oldest: Key)
      requires Valid() && entries != map[]
      modifies this`entries, this`origin
      ensures Valid() && oldest in old(entries) && entries == old(entries) - {oldest} && |entries| == |old(entries)| - 1
      ensures forall k :: k in old(entries) ==> old(entries)[oldest].verifiedAt <= old(entries)[k].verifiedAt
    {
      oldest := Oldest();
      assert (entries - {oldest}).Keys == entries.Keys - {oldest};
      entries, origin := entries - {oldest}, origin - {oldest};
    }

    /** A new hint in a full cache replaces the one verified longest ago. */
    method Insert(k: Key, h: Hint)
      requires Valid()
      modifies this`entries, this`origin
      ensures Valid() && |entries| <= |old(entries)| + 1 && k in entries && entries[k] == h && origin[k] == Origin(generation, warm)
      ensures k in old(entries) || |old(entries)| < 256 ==> entries == old(entries)[k := h]
      ensures k !in old(entries) && |old(entries)| >= 256 ==>
                exists oldest :: oldest in old(entries) && entries == (old(entries) - {oldest})[k := h]
                                 && forall j :: j in old(entries) ==> old(entries)[oldest].verifiedAt <= old(entries)[j].verifiedAt
    {
      if k !in entries && |entries| >= MAX_HINTS { var oldest := Evict(); }
      assert entries[k := h].Keys == entries.Keys + {k};
      entries, origin := entries[k := h], origin[k := Origin(generation, warm)];
    }

    /** The hint of one target, if it has one. */
    method SeedOne(
      scan: Scan, keys: seq<Option<Socket>>, results: seq<Option<Attributed>>, i: nat, suspects: set<nat>, now: nat)
      returns (ghost seeded: Option<(Key, Hint)>)
      requires Valid() && i < |keys| == |results|
      requires forall p :: p in suspects <==> Suspect(scan, keys, results, p)
      modifies this`entries, this`origin
      ensures Valid() && |entries| <= |old(entries)| + 1
      ensures seeded.None? ==> entries == old(entries) && forall k :: !Qualifies(scan, keys, results, i, k)
      ensures seeded.Some? ==>
                && Seeds(scan, keys, results, i, seeded.value.0, seeded.value.1, now)
                && (|old(entries)| < MAX_HINTS ==> entries == old(entries)[seeded.value.0 := seeded.value.1])
                && forall k :: k in entries ==>
                     (k == seeded.value.0 && entries[k] == seeded.value.1) || (k in old(entries) && entries[k] == old(entries)[k])
    {
      seeded := None;
      if keys[i].Some? && results[i].Some? && keys[i].value in scan.unique {
        var owner := FindOwner(scan.unique[keys[i].value], results[i].value.pid, suspects);
        if owner.Some? {
          var k, h := Key(keys[i].value.uid, owner.value.process), Hint(owner.value.tid, results[i].value.startTime, now);
          seeded := Some((k, h));
          Insert(k, h);
        }
      }
    }

    /** Only a process seen at no failed target is seeded, every other hint stays or is evicted, and while there is
        room every qualifying target is seeded. */
    method Seed(scan: Scan, keys: seq<Option<Socket>>, results: seq<Option<Attributed>>, now: nat)
      requires Valid()
      modifies this`entries, this`origin
      ensures Valid()
      ensures |keys| != |results| ==> entries == old(entries)
      ensures |keys| == |results| ==> SeededFrom(old(entries), entries, scan, keys, results, now)
      ensures |keys| == |results| && |old(entries)| + |keys| <= MAX_HINTS ==>
                AllRecorded(entries, scan, keys, results, |keys|, now)
    {
      if |keys| != |results| { return; }
      var suspects := SuspectsOf(scan, keys, results);
      for i := 0 to |keys|
        invariant Valid() && |entries| <= |old(entries)| + i
        invariant SeededFrom(old(entries), entries, scan, keys, results, now)
        invariant |old(entries)| + |keys| <= MAX_HINTS ==> AllRecorded(entries, scan, keys, results, i, now)
      {
        ghost var before := entries;
        ghost var seeded := SeedOne(scan, keys, results, i, suspects, now);
        SeedingGoesOn(old(entries), before, entries, scan, keys, results, i, seeded, now);
        if |old(entries)| + |keys| <= MAX_HINTS { RecordingGoesOn(before, entries, scan, keys, results, i, seeded, now); }
      }
    }

    /** Verified processes keep their hints longer; nothing else changes. */
    method Touch(verified: set<Key>, now: nat)
      requires Valid()
      modifies this`entries
      ensures Valid() && entries.Keys == old(entries).Keys
      ensures forall k :: k in entries ==>
                entries[k] == if k in verified then old(entries)[k].(verifiedAt := now) else old(entries)[k]
    {
      var rest := verified;
      while rest != {}
        invariant rest <= verified && Valid() && entries.Keys == old(entries).Keys
        invariant forall k :: k in entries ==>
                    entries[k] == if k in verified && k !in rest then old(entries)[k].(verifiedAt := now) else old(entries)[k]
      {
        var k :| k in rest;
        if k in entries {
          assert entries[k := entries[k].(verifiedAt := now)].Keys == entries.Keys;
          entries := entries[k := entries[k].(verifiedAt := now)];
        }
        rest := rest - {k};
      }
    }

    /** A detected ambiguity forgets every hint but not the generation. */
    method ForgetHints()
      requires Valid()
      modifies this`entries, this`origin
      ensures Valid() && entries == map[]
    {
      entries, origin := map[], map[];
    }
  }

  /** Anything the daemon does with the cache. */
  datatype Call =
    | Clearing
    | Preparing(generation: nat, learning: bool, now: nat)
    | Seeding(scan: Scan, keys: seq<Option<Socket>>, results: seq<Option<Attributed>>, now: nat)
    | Touching(verified: set<Key>, now: nat)
    | Forgetting

  /** Over every sequence of calls in which each generation is prepared for one mode, no generation is ever mixed, so
      every hint comes from its own generation or from learning in the one directly before. */
  method Replay(calls: seq<Call>, ghost learningIn: nat -> bool) returns (c: OwnerCache)
    requires forall i :: 0 <= i < |calls| && calls[i].Preparing? ==>
               calls[i].generation <= MAX_GENERATION && calls[i].learning == learningIn(calls[i].generation)
    ensures fresh(c) && c.Valid() && !c.mixed
    ensures forall k :: k in c.entries ==> c.Rooted(k)
  {
    c := new OwnerCache();
    for i := 0 to |calls|
      invariant fresh(c) && c.Valid() && !c.mixed
      invariant c.generation.Some? ==> c.warm == learningIn(c.generation.value)
    {
      match calls[i]
      case Clearing => c.Clear();
      case Preparing(g, learning, now) => if learning { c.PrepareLearning(g, now); } else { c.Prepare(g, now); }
      case Seeding(scan, keys, results, now) => c.Seed(scan, keys, results, now);
      case Touching(verified, now) => c.Touch(verified, now);
      case Forgetting => c.ForgetHints();
    }
  }

  /** Why one mode per generation matters: prepared for enforcing and then for learning, a generation carries the
      hint of an earlier one over to a later one. */
  method OlderHintSurvives() returns (c: OwnerCache)
    ensures c.Valid() && c.mixed && c.generation == Some(3)
    ensures exists k :: k in c.entries && c.origin[k] == Origin(Some(1), true)
  {
    c := new OwnerCache();
    c.PrepareLearning(1, 0);
    c.Insert(Key(0, 1), Hint(1, 1, 0));
    c.Prepare(2, 0);
    c.PrepareLearning(2, 0);
    c.Prepare(3, 0);
    assert Key(0, 1) in c.entries;
  }
}
