/** What the outbound policy guarantees, stated about the compiled programs of both backends. */
module PolicyProperties {
  import opened Model
  import opened Marks
  import opened Netfilter
  import opened RuleOrder
  import opened RuleBlocks
  import opened Compilers
  import opened Outbound
  import NftRefinement
  import XtRefinement

  /** What a backend's compiled program does to an outgoing packet. */
  function Run(b: Backend, s: Snapshot, p: Packet, o: Oracle): (out: Outcome)
    requires SnapshotValid(s) && WellFormed(p)
    ensures out == Policy(b, s, p, o)
  {
    match b
    case Nft =>
      NftRefinement.NftRefinesPolicy(s, p, o);
      RunHook(NftHook(NftCompile(s).value), p, o)
    case Xt =>
      XtRefinement.XtRefinesPolicy(s, p, o, 1);
      RunXtOutput(ForFamily(XtCompile(s).value, p.family), p, o, 1).value
  }

  /** The learning queue answers accept, or is bypassed. */
  ghost predicate ObservesOnly(s: Snapshot, o: Oracle) { s.mode.Learning? ==> forall q :: o.observe(q) }

  // ---------------------------------------------------------------- the backends agree

  /** Packets the two backends judge differently: without a conntrack record nftables cannot stamp a
      network Reject and skips it, and xtables does not guard tracked replies or invalid packets. */
  predicate Diverges(s: Snapshot, p: Packet) {
    && !s.mode.BlockAll? && !IsOriginal(p) && !(s.mode.Enforcing? && p.ct.Invalid?)
    && !GeneratedReject(s, p) && !NetworkMatch(s, p, Drop)
    && (|| (!p.ct.Tracked? && NetworkMatch(s, p, Reject))
        || (!NetworkMatch(s, p, Reject) && !FastPath(s, p) && !AnswersInbound(s, p)
            && Guarded(Nft, s, p) && !Guarded(Xt, s, p) && (s.mode.Learning? || NetworkMatch(s, p, Accept))))
  }

  lemma JudgedAgrees(s: Snapshot, p: Packet, o: Oracle)
    requires !s.mode.BlockAll? && ObservesOnly(s, o)
    ensures Judged(Nft, s, p, o) == Judged(Xt, s, p, o) <==>
            !(!IsOriginal(p) && !AnswersInbound(s, p) && Guarded(Nft, s, p) && !Guarded(Xt, s, p)
              && (s.mode.Learning? || NetworkMatch(s, p, Accept)))
  {
    if IsOriginal(p) {
      assert !InEnvelope(s, p) ==> (Guarded(Nft, s, p) <==> Guarded(Xt, s, p));
    } else {
      assert Guarded(Xt, s, p) ==> Guarded(Nft, s, p);
    }
  }

  lemma JudgedNeverRefusesForeign(b: Backend, s: Snapshot, p: Packet, o: Oracle)
    requires !IsOriginal(p)
    ensures !Judged(b, s, p, o).verdict.Refused?
  {
  }

  lemma FilteredAgrees(s: Snapshot, p: Packet, o: Oracle)
    requires !s.mode.BlockAll? && ObservesOnly(s, o)
    ensures Filtered(Nft, s, p, o) == Filtered(Xt, s, p, o) <==> !Diverges(s, p)
  {
    var q := Unstamped(s, p);
    if (s.mode.Enforcing? && p.ct.Invalid?) || GeneratedReject(s, p) || NetworkMatch(s, p, Drop) {
    } else if NetworkMatch(s, p, Reject) {
      if !p.ct.Tracked? {
        JudgedNeverRefusesForeign(Nft, s, q, o);
      }
    } else if !FastPath(s, p) {
      JudgedAgrees(s, q, o);
      if !IsOriginal(p) {
        assert q == p;
      }
    }
  }

  /** The two compiled programs give every packet the same verdict, connection mark and packet mark
      exactly when it is not one of the diverging ones; on original-direction packets they always do. */
  lemma BackendsAgreeExactly(s: Snapshot, p: Packet, o: Oracle)
    requires SnapshotValid(s) && WellFormed(p) && ObservesOnly(s, o)
    ensures Run(Nft, s, p, o) == Run(Xt, s, p, o) <==> !Diverges(s, InDomain(p, Clear))
    ensures IsOriginal(p) ==> Run(Nft, s, p, o) == Run(Xt, s, p, o)
  {
    if !s.mode.BlockAll? {
      FilteredAgrees(s, InDomain(p, Clear), o);
    }
  }

  // ---------------------------------------------------------------- when a packet is accepted

  predicate Denied(s: Snapshot, p: Packet) { NetworkMatch(s, p, Drop) || NetworkMatch(s, p, Reject) }

  /** Marks are no part of what rules look at. */
  lemma SameView(s: Snapshot, p: Packet, q: Packet)
    requires XtRefinement.SameTuple(p, q)
    ensures forall a :: NetworkMatch(s, p, a) <==> NetworkMatch(s, q, a)
    ensures InEnvelope(s, p) <==> InEnvelope(s, q)
    ensures OriginallyInEnvelope(s, p) <==> OriginallyInEnvelope(s, q)
    ensures AnyDeny(s, p) <==> AnyDeny(s, q)
  {
    assert forall spec :: Outgoing(spec, p) <==> Outgoing(spec, q);
    assert forall spec :: OriginallyTo(spec, p) <==> OriginallyTo(spec, q);
  }

  function Asked(s: Snapshot, p: Packet): Packet { InDomain(Unstamped(s, InDomain(p, Clear)), Pending) }

  predicate AdmittedByDefault(s: Snapshot, p: Packet) {
    !InEnvelope(s, p) && !OriginallyInEnvelope(s, p) && (s.mode.Learning? || NetworkMatch(s, p, Accept))
  }

  lemma JudgedOriginal(b: Backend, s: Snapshot, p: Packet, o: Oracle)
    requires !s.mode.BlockAll? && ObservesOnly(s, o) && IsOriginal(p)
    ensures Judged(b, s, p, o).verdict.Accepted? <==>
            if InEnvelope(s, p) then QueueDecision(o, InDomain(p, Pending)).Accept? else AdmittedByDefault(s, p)
  {
    assert !AnswersInbound(s, p);
  }

  lemma FilteredOriginal(b: Backend, s: Snapshot, p: Packet, o: Oracle)
    requires !s.mode.BlockAll? && ObservesOnly(s, o) && IsOriginal(p) && p.mark.domain.Clear?
    ensures Filtered(b, s, p, o).verdict.Accepted? <==>
            && !Denied(s, p)
            && (|| EstablishedFlow(s, p)
                || (InEnvelope(s, p) && QueueDecision(o, Asked(s, p)).Accept?)
                || AdmittedByDefault(s, p))
  {
    var q := Unstamped(s, p);
    assert InDomain(p, Clear) == p;
    assert !GeneratedReject(s, p) && !LocalReply(s, p);
    SameView(s, p, q);
    if !Denied(s, p) && !FastPath(s, p) {
      JudgedOriginal(b, s, q, o);
    }
  }

  /** A stamp of this generation, userspace, or the default outside every envelope. */
  ghost predicate Admitted(s: Snapshot, p: Packet, o: Oracle) {
    || EstablishedFlow(s, p)
    || (InEnvelope(s, p) && QueueDecision(o, Asked(s, p)).Accept?)
    || AdmittedByDefault(s, p)
  }

  lemma PolicyOriginal(b: Backend, s: Snapshot, p: Packet, o: Oracle)
    requires ObservesOnly(s, o) && IsOriginal(p) && !s.mode.BlockAll?
    ensures Policy(b, s, p, o).verdict.Accepted? <==> !Denied(s, p) && Admitted(s, p, o)
  {
    var c := InDomain(p, Clear);
    SameView(s, p, c);
    FilteredOriginal(b, s, c, o);
    assert Policy(b, s, p, o) == Filtered(b, s, c, o);
  }

  /** An original-direction packet is accepted if and only if no network rule denies it and it belongs
      to a flow stamped by this generation, or userspace accepts it, or no envelope covers its current
      or original destination and the default admits it. */
  lemma OriginalAcceptedIff(b: Backend, s: Snapshot, p: Packet, o: Oracle)
    requires SnapshotValid(s) && WellFormed(p) && ObservesOnly(s, o) && IsOriginal(p) && !s.mode.BlockAll?
    ensures Run(b, s, p, o).verdict.Accepted? <==> !Denied(s, p) && Admitted(s, p, o)
  {
    PolicyOriginal(b, s, p, o);
  }

  lemma UntrackedEnvelope(b: Backend, s: Snapshot, p: Packet, o: Oracle)
    requires InEnvelope(s, p) && p.ct.Untracked?
    ensures !Filtered(b, s, p, o).verdict.Accepted?
  {
    assert Unstamped(s, p) == p && Guarded(b, s, p) && !AnswersInbound(s, p);
    assert Judged(b, s, p, o) == Outcome(Dropped, p);
  }

  lemma OriginalEnvelope(b: Backend, s: Snapshot, p: Packet, o: Oracle)
    requires InEnvelope(s, p) && IsOriginal(p) && p.mark.domain.Clear?
    requires Filtered(b, s, p, o).verdict.Accepted?
    ensures EstablishedFlow(s, p) || QueueDecision(o, Asked(s, p)).Accept?
  {
    var q := Unstamped(s, p);
    assert InDomain(p, Clear) == p;
    SameView(s, p, q);
    assert !GeneratedReject(s, p) && !LocalReply(s, p) && !AnswersInbound(s, q);
    if !EstablishedFlow(s, p) {
      assert Judged(b, s, q, o) == Decided(s, q, o);
    }
  }

  /** No broad network accept bypasses an application envelope: a tracked original packet in one is
      accepted only by a stamp of the current generation or by userspace, an untracked one never. */
  lemma EnvelopeIsNotBypassed(b: Backend, s: Snapshot, p: Packet, o: Oracle)
    requires SnapshotValid(s) && WellFormed(p)
    ensures InEnvelope(s, p) && Run(b, s, p, o).verdict.Accepted? ==>
              && !p.ct.Untracked?
              && (IsOriginal(p) ==> EstablishedFlow(s, p) || QueueDecision(o, Asked(s, p)).Accept?)
  {
    var c := InDomain(p, Clear);
    SameView(s, p, c);
    if InEnvelope(s, p) && Policy(b, s, p, o).verdict.Accepted? {
      assert Policy(b, s, p, o) == Filtered(b, s, c, o);
      if p.ct.Untracked? {
        UntrackedEnvelope(b, s, c, o);
      } else if IsOriginal(p) {
        OriginalEnvelope(b, s, c, o);
      }
    }
  }

  /** A rule of the given backend denies the packet; nftables needs a record to reject. */
  predicate Refuses(b: Backend, s: Snapshot, p: Packet) {
    NetworkMatch(s, p, Drop) || (NetworkMatch(s, p, Reject) && (p.ct.Tracked? || b.Xt?))
  }

  lemma PolicyRefuses(b: Backend, s: Snapshot, p: Packet, o: Oracle)
    ensures Refuses(b, s, p) && Policy(b, s, p, o).verdict.Accepted? ==> GeneratedReject(s, p)
  {
    var c := InDomain(p, Clear);
    SameView(s, p, c);
    assert GeneratedReject(s, c) <==> GeneratedReject(s, p);
  }

  /** A tracked packet that a network rule denies is accepted only as the generated reject reply of the
      current generation; a Drop binds untracked packets too, and so does a Reject under xtables. */
  lemma DenyOverrides(b: Backend, s: Snapshot, p: Packet, o: Oracle)
    requires SnapshotValid(s) && WellFormed(p)
    ensures Refuses(b, s, p) && Run(b, s, p, o).verdict.Accepted? ==> GeneratedReject(s, p)
  {
    PolicyRefuses(b, s, p, o);
  }

  lemma FilteredUnrecorded(s: Snapshot, p: Packet, o: Oracle)
    requires !p.ct.Tracked? && !NetworkMatch(s, p, Drop) && !(s.mode.Enforcing? && p.ct.Invalid?)
    ensures Filtered(Nft, s, p, o) == Judged(Nft, s, p, o)
  {
    assert Unstamped(s, p) == p && !GeneratedReject(s, p) && !FastPath(s, p);
  }

  /** nftables skips a Reject on packets without a conntrack record: they are judged as if the rule were absent. */
  lemma NftRejectNeedsRecord(s: Snapshot, p: Packet, o: Oracle)
    requires SnapshotValid(s) && WellFormed(p) && !s.mode.BlockAll? && !p.ct.Tracked?
    requires !NetworkMatch(s, p, Drop) && !(s.mode.Enforcing? && p.ct.Invalid?)
    ensures Run(Nft, s, p, o) == Judged(Nft, s, InDomain(p, Clear), o)
  {
    var c := InDomain(p, Clear);
    SameView(s, p, c);
    FilteredUnrecorded(s, c, o);
  }

  const REJECT_ALL := Rule(1, RuleSpec(Outbound, Reject, Tcp, None, None, None, None, Manual, true), 0, 0)
  const WITNESS := Snapshot(0, 1, Learning, [REJECT_ALL])
  const STRAY := Packet(IPv4, TCP, "", "eth0", Address(IPv4, 1), Address(IPv4, 2), 5000, 443, NO_FLAGS, 0, 0,
                        false, false, false, Mark(Clear, 0), Untracked)

  lemma WitnessFacts()
    ensures SnapshotValid(WITNESS) && WellFormed(STRAY) && InDomain(STRAY, Clear) == STRAY
    ensures NetworkMatch(WITNESS, STRAY, Reject) && !NetworkMatch(WITNESS, STRAY, Drop)
    ensures !InEnvelope(WITNESS, STRAY) && !OriginallyInEnvelope(WITNESS, STRAY)
  {
    assert REJECT_ALL in WITNESS.rules && NetworkRule(REJECT_ALL, Reject) && Outgoing(REJECT_ALL.spec, STRAY);
  }

  lemma WitnessOutcomes(o: Oracle)
    requires forall q :: o.observe(q)
    ensures Filtered(Nft, WITNESS, STRAY, o).verdict.Accepted? && Filtered(Xt, WITNESS, STRAY, o).verdict.Refused?
  {
    WitnessFacts();
    FilteredUnrecorded(WITNESS, STRAY, o);
    assert !Guarded(Nft, WITNESS, STRAY);
  }

  /** A concrete packet on which the backends part: learning, one network Reject, no conntrack record. */
  lemma UntrackedRejectWitness(o: Oracle)
    requires forall q :: o.observe(q)
    ensures SnapshotValid(WITNESS) && WellFormed(STRAY) && NetworkMatch(WITNESS, STRAY, Reject)
    ensures Run(Nft, WITNESS, STRAY, o).verdict.Accepted? && Run(Xt, WITNESS, STRAY, o).verdict.Refused?
  {
    WitnessFacts();
    WitnessOutcomes(o);
  }

  const BROWSER_RULE := Rule(1, RuleSpec(Outbound, Accept, Tcp, None, None, None,
                                        Some(Selector(Some("/browser"), Some(FileId(1, 10, 1, 0, 0)), None, None, None, false)),
                                        Manual, true), 0, 0)
  const ANY_TCP := Rule(2, RuleSpec(Outbound, Accept, Tcp, None, None, None, None, Manual, true), 0, 0)
  const OVERLAPPING := Snapshot(0, 1, Enforcing, [BROWSER_RULE, ANY_TCP])
  const REPLY_PACKET := Packet(IPv4, TCP, "", "eth0", Address(IPv4, 1), Address(IPv4, 2), 443, 5000, NO_FLAGS, 0, 0,
                         false, false, false, Mark(Clear, 0),
                         Tracked(Established, Reply, Address(IPv4, 1), 443, Connmark(false, false, 0)))

  lemma GuardFacts()
    ensures SnapshotValid(OVERLAPPING) && WellFormed(REPLY_PACKET) && InDomain(REPLY_PACKET, Clear) == REPLY_PACKET
    ensures InEnvelope(OVERLAPPING, REPLY_PACKET) && NetworkMatch(OVERLAPPING, REPLY_PACKET, Accept)
    ensures !NetworkMatch(OVERLAPPING, REPLY_PACKET, Drop) && !NetworkMatch(OVERLAPPING, REPLY_PACKET, Reject)
    ensures !AnswersInbound(OVERLAPPING, REPLY_PACKET)
  {
    assert BROWSER_RULE in OVERLAPPING.rules && Asks(OVERLAPPING, BROWSER_RULE) && Outgoing(BROWSER_RULE.spec, REPLY_PACKET);
    assert ANY_TCP in OVERLAPPING.rules && NetworkRule(ANY_TCP, Accept) && Outgoing(ANY_TCP.spec, REPLY_PACKET);
  }

  lemma GuardOutcomes(o: Oracle)
    ensures Policy(Nft, OVERLAPPING, REPLY_PACKET, o).verdict.Dropped? && Policy(Xt, OVERLAPPING, REPLY_PACKET, o).verdict.Accepted?
  {
    GuardFacts();
    assert Unstamped(OVERLAPPING, REPLY_PACKET) == REPLY_PACKET;
    assert Guarded(Nft, OVERLAPPING, REPLY_PACKET) && !Guarded(Xt, OVERLAPPING, REPLY_PACKET);
  }

  /** The other way to part: a tracked reply inside an envelope that a network Accept covers too. nftables guards it,
      xtables does not. */
  lemma GuardedReplyWitness(o: Oracle)
    ensures SnapshotValid(OVERLAPPING) && WellFormed(REPLY_PACKET) && !IsOriginal(REPLY_PACKET)
    ensures Run(Nft, OVERLAPPING, REPLY_PACKET, o).verdict.Dropped? && Run(Xt, OVERLAPPING, REPLY_PACKET, o).verdict.Accepted?
  {
    GuardFacts();
    GuardOutcomes(o);
  }

  lemma FilteredLearning(b: Backend, s: Snapshot, p: Packet, o: Oracle)
    requires s.mode.Learning? && ObservesOnly(s, o)
    requires !NetworkMatch(s, p, Drop) && !NetworkMatch(s, p, Reject) && !InEnvelope(s, p) && !OriginallyInEnvelope(s, p)
    ensures Filtered(b, s, p, o).verdict.Accepted?
  {
    var q := Unstamped(s, p);
    SameView(s, p, q);
    assert !Guarded(b, s, q);
    assert Judged(b, s, q, o).verdict.Accepted?;
  }

  /** Learning admits every outgoing packet no enabled deny covers: by its current destination, or for
      application rules by its original one. */
  lemma LearningAllowsByDefault(b: Backend, s: Snapshot, p: Packet, o: Oracle)
    requires SnapshotValid(s) && WellFormed(p) && s.mode.Learning? && ObservesOnly(s, o)
    requires !AnyDeny(s, p) && !OriginallyInEnvelope(s, p)
    ensures Run(b, s, p, o).verdict.Accepted?
  {
    var c := InDomain(p, Clear);
    SameView(s, p, c);
    NoDeny(s, c);
    FilteredLearning(b, s, c, o);
    assert Policy(b, s, p, o) == Filtered(b, s, c, o);
  }

  lemma NoDeny(s: Snapshot, p: Packet)
    requires s.mode.Learning? && !AnyDeny(s, p)
    ensures !NetworkMatch(s, p, Drop) && !NetworkMatch(s, p, Reject) && !InEnvelope(s, p)
  {
  }

  // ---------------------------------------------------------------- attribution is provided where it is needed

  lemma EveryActionIsQueued(mode: Mode, a: Action)
    requires mode.Enforcing?
    ensures a in QueuedActions(mode)
  {
    match a { case Accept => case Drop => case Reject => }
  }

  /** The classification is enough, and no more than needed: a packet can lie in an envelope only if attribution
      covers its protocol, and per-packet attribution while enforcing means some envelope is not TCP. */
  lemma InterceptionIsEnough(s: Snapshot, p: Packet)
    requires !s.mode.BlockAll?
    ensures InEnvelope(s, p) ==> !Attribution(s).NoInterception? && (Attribution(s).TcpInitial? ==> p.l4.TCP?)
    ensures s.mode.Enforcing? && !Attribution(s).NoInterception? ==> exists r :: r in s.rules && Asks(s, r)
    ensures s.mode.Enforcing? && Attribution(s).PerPacket? ==> exists r :: r in s.rules && Asks(s, r) && !r.spec.protocol.Tcp?
  {
    if InEnvelope(s, p) {
      var r :| r in s.rules && Asks(s, r) && Outgoing(r.spec, p);
      assert Attribution(s).TcpInitial? ==> r.spec.protocol.Tcp?;
    }
    if s.mode.Enforcing? && Attribution(s).PerPacket? {
      var r :| r in s.rules && ApplicationRule(r) && !r.spec.protocol.Tcp?;
      EveryActionIsQueued(s.mode, r.spec.action);
    } else if s.mode.Enforcing? && !Attribution(s).NoInterception? {
      var r :| r in s.rules && ApplicationRule(r);
      EveryActionIsQueued(s.mode, r.spec.action);
    }
  }

  // ---------------------------------------------------------------- marks stay private

  predicate Restamped(p: Packet, q: Packet) {
    && XtRefinement.SameTuple(p, q) && q.mark.host == p.mark.host
    && (p.ct.Tracked? ==> q.ct.mark.foreign == p.ct.mark.foreign)
  }

  /** An outcome that leaves the host's bits alone, and the whole mark if it accepts. */
  predicate Discreet(p: Packet, out: Outcome) {
    Restamped(p, out.packet) && (out.verdict.Accepted? ==> out.packet.mark == p.mark)
  }

  lemma StampIsDiscreet(p: Packet, d: Domain, authorized: bool, generation: nat)
    ensures Restamped(p, SetConnmark(p, authorized, generation))
    ensures Restamped(p, InDomain(p, d))
    ensures Restamped(p, SetConnmark(InDomain(p, d), authorized, generation))
  {
  }

  lemma DecidedIsDiscreet(s: Snapshot, p: Packet, o: Oracle)
    ensures Discreet(p, Decided(s, p, o))
  {
    StampIsDiscreet(p, Pending, true, s.generation);
    StampIsDiscreet(p, Rejected, false, s.generation);
  }

  lemma JudgedIsDiscreet(b: Backend, s: Snapshot, p: Packet, o: Oracle)
    ensures Discreet(p, Judged(b, s, p, o))
  {
    if !AnswersInbound(s, p) && IsOriginal(p) && InEnvelope(s, p) {
      DecidedIsDiscreet(s, p, o);
    } else {
      assert Judged(b, s, p, o).packet == p;
    }
  }

  lemma FilteredIsDiscreet(b: Backend, s: Snapshot, p: Packet, o: Oracle)
    ensures Discreet(p, Filtered(b, s, p, o))
  {
    var q := Unstamped(s, p);
    StampIsDiscreet(p, Clear, false, s.generation);
    StampIsDiscreet(p, Clear, false, 0);
    JudgedIsDiscreet(b, s, q, o);
    var out := Judged(b, s, q, o);
    assert Discreet(p, out);
    assert Filtered(b, s, p, o) == out || Filtered(b, s, p, o).packet == p
           || Filtered(b, s, p, o) == Outcome(Refused(RefusesWithReset(s, p)), SetConnmark(p, false, s.generation));
  }

  /** The verdict does not depend on the sender's reserved mark bits; accepted packets leave with them
      clear; the host's thirty mark bits and its connection-mark bit are never touched. */
  lemma MarksAreIsolated(b: Backend, s: Snapshot, p: Packet, o: Oracle, forged: Domain)
    requires SnapshotValid(s) && WellFormed(p)
    ensures Run(b, s, InDomain(p, forged), o) == Run(b, s, p, o)
    ensures Restamped(p, Run(b, s, p, o).packet)
    ensures Run(b, s, p, o).verdict.Accepted? ==> Run(b, s, p, o).packet.mark.domain.Clear?
  {
    var c := InDomain(p, Clear);
    assert InDomain(InDomain(p, forged), Clear) == c;
    PolicyRestamps(b, s, p, o);
  }

  lemma PolicyRestamps(b: Backend, s: Snapshot, p: Packet, o: Oracle)
    ensures var out := Policy(b, s, p, o);
            Restamped(p, out.packet) && (out.verdict.Accepted? ==> out.packet.mark.domain.Clear?)
  {
    StampIsDiscreet(p, Clear, false, 0);
    FilteredIsDiscreet(b, s, InDomain(p, Clear), o);
  }

  // ---------------------------------------------------------------- what userspace can admit

  /** The packets attribution understands: TCP, UDP and echo requests of the packet's own family. */
  predicate Understood(p: Packet) {
    || p.l4 == TCP
    || p.l4 == UDP
    || (p.l4 == ICMP && p.family == IPv4 && p.icmpType == 8 && p.icmpCode == 0)
    || (p.l4 == ICMPV6 && p.family == IPv6 && p.icmpType == 128 && p.icmpCode == 0)
  }

  lemma AcceptedIsUnderstood(p: Packet, o: Oracle)
    requires QueueDecision(o, p).Accept?
    ensures Understood(p)
  {
  }

  lemma AskedLooksAlike(s: Snapshot, p: Packet)
    ensures Understood(Asked(s, p)) <==> Understood(p)
  {
  }

  /** Inside an application envelope no other packet gets out, whatever userspace answers. */
  lemma OnlyUnderstoodIsAdmitted(b: Backend, s: Snapshot, p: Packet, o: Oracle)
    requires SnapshotValid(s) && WellFormed(p) && IsOriginal(p) && InEnvelope(s, p) && Run(b, s, p, o).verdict.Accepted?
    ensures Understood(p)
  {
    EnvelopeIsNotBypassed(b, s, p, o);
    if !EstablishedFlow(s, p) {
      AcceptedIsUnderstood(Asked(s, p), o);
      AskedLooksAlike(s, p);
    }
  }

  // ---------------------------------------------------------------- no stored rule is dead

  /** A packet for the rule: its protocol, peer, port and interface. */
  function Example(spec: RuleSpec): Packet {
    var family := if spec.peer.Some? then spec.peer.value.family else if spec.protocol.IcmpV6? then IPv6 else IPv4;
    var dst := Address(family, if spec.peer.Some? then spec.peer.value.base else 0);
    var l4 := match spec.protocol case Any => TCP case Tcp => TCP case Udp => UDP case Icmp => ICMP case IcmpV6 => ICMPV6;
    var interface := if spec.interface.Some? then spec.interface.value else "";
    Packet(family, l4, "", interface, Address(family, 0), dst, 0, if spec.port.Some? then spec.port.value.start else 0, NO_FLAGS,
           0, 0, false, false, false, Mark(Clear, 0), Untracked)
  }

  /** Every valid rule with a proper network and range covers some well-formed packet, and what validation refuses as a
      clash of protocol and family covers none. */
  lemma ValidRulesCanMatch(spec: RuleSpec, p: Packet)
    requires spec.peer.Some? ==> spec.peer.value.prefix <= Width(spec.peer.value.family)
    requires spec.port.Some? ==> spec.port.value.start <= spec.port.value.end
    ensures SpecValid(spec) ==> WellFormed(Example(spec)) && Outgoing(spec, Example(spec))
    ensures spec.peer.Some? && WellFormed(p) && Outgoing(spec, p) ==>
            (spec.protocol.Icmp? ==> spec.peer.value.family == IPv4) && (spec.protocol.IcmpV6? ==> spec.peer.value.family == IPv6)
  {
  }

  // ---------------------------------------------------------------- rule order is irrelevant

  lemma PermutedFacts(s: Snapshot, t: Snapshot)
    requires multiset(s.rules) == multiset(t.rules) && s.mode == t.mode
    ensures HasOutboundReject(s) <==> HasOutboundReject(t)
    ensures Attribution(s) == Attribution(t)
  {
    assert forall r :: r in s.rules <==> r in multiset(s.rules);
    assert forall r :: r in t.rules <==> r in multiset(t.rules);
    assert forall r :: r in s.rules <==> r in t.rules;
  }

  lemma PermutedSections(s: Snapshot, t: Snapshot, k: Pick)
    requires SnapshotValid(s) && multiset(s.rules) == multiset(t.rules)
    ensures Chosen(k, s.rules) == Chosen(k, t.rules)
  {
    forall a, b | a in s.rules && b in s.rules && a.id == b.id ensures a == b {
      NftRefinement.IdsAreUnique(s.rules, a, b);
    }
    ChosenIgnoresOrder(k, s.rules, t.rules);
  }

  ghost predicate SameSections(s: Snapshot, t: Snapshot) {
    && s.mode == t.mode && s.generation == t.generation
    && (HasOutboundReject(s) <==> HasOutboundReject(t)) && Attribution(s) == Attribution(t)
    && forall k :: Chosen(k, s.rules) == Chosen(k, t.rules)
  }

  lemma SameRules(s: Snapshot, t: Snapshot, f: Option<Family>)
    requires SameSections(s, t)
    ensures forall dir, actions :: NetworkRules(s, dir, actions, f) == NetworkRules(t, dir, actions, f)
    ensures forall actions :: ApplicationRules(s, actions, f) == ApplicationRules(t, actions, f)
  {
  }

  lemma SameNftTail(s: Snapshot, t: Snapshot)
    requires SameSections(s, t)
    ensures NftOutput6(s) == NftOutput6(t)
  {
    SameRules(s, t, None);
    assert NftOutput9(s) == NftOutput9(t);
    assert NftOutput8(s) == NftOutput8(t);
    assert NftOutput7(s) == NftOutput7(t);
  }

  lemma SameNftOutput(s: Snapshot, t: Snapshot)
    requires SameSections(s, t)
    ensures NftOutput(s) == NftOutput(t)
  {
    SameRules(s, t, None);
    SameNftTail(s, t);
    assert NftResets(s) == NftResets(t);
    assert NftFlows(s, Outbound) == NftFlows(t, Outbound);
    assert NftLoopback(s, Outbound) == NftLoopback(t, Outbound);
    assert NftRejectReplies(s, Outbound) == NftRejectReplies(t, Outbound);
    assert NftOutput3(s) == NftOutput3(t);
    assert NftOutput2(s) == NftOutput2(t);
    assert NftOutput1(s) == NftOutput1(t);
  }

  lemma SameNftInput(s: Snapshot, t: Snapshot)
    requires SameSections(s, t)
    ensures NftInput(s) == NftInput(t)
  {
    SameRules(s, t, None);
    assert NftFlows(s, Inbound) == NftFlows(t, Inbound);
    assert NftLoopback(s, Inbound) == NftLoopback(t, Inbound);
    assert NftRejectReplies(s, Inbound) == NftRejectReplies(t, Inbound);
    assert NftReplyQueues(s) == NftReplyQueues(t);
    assert NftInput5(s) == NftInput5(t);
    assert NftInput2(s) == NftInput2(t);
  }

  lemma SameXtTail(s: Snapshot, t: Snapshot, f: Family)
    requires SameSections(s, t)
    ensures XtOutput8(s, f) == XtOutput8(t, f)
  {
    SameRules(s, t, Some(f));
    assert XtOutput11(s, f) == XtOutput11(t, f);
    assert XtOutput10(s, f) == XtOutput10(t, f);
    assert XtOutput9(s, f) == XtOutput9(t, f);
  }

  lemma SameXtMiddle(s: Snapshot, t: Snapshot, f: Family)
    requires SameSections(s, t)
    ensures XtOutput4(s, f) == XtOutput4(t, f)
  {
    SameXtTail(s, t, f);
    assert XtOutput6(s, f) == XtOutput6(t, f);
    assert XtOutput5(s, f) == XtOutput5(t, f);
  }

  lemma SameXtOutput(s: Snapshot, t: Snapshot, f: Family)
    requires SameSections(s, t)
    ensures XtOutput(s, f) == XtOutput(t, f)
  {
    SameRules(s, t, Some(f));
    SameXtMiddle(s, t, f);
    assert XtOutput3(s, f) == XtOutput3(t, f);
    assert XtOutput2(s, f) == XtOutput2(t, f);
    assert XtOutput1(s, f) == XtOutput1(t, f);
  }

  lemma SameXtInput(s: Snapshot, t: Snapshot, f: Family)
    requires SameSections(s, t)
    ensures XtInput(s, f) == XtInput(t, f)
  {
    SameRules(s, t, Some(f));
    SameRules(s, t, None);
    assert XtReplyQueues(s, f) == XtReplyQueues(t, f);
    assert XtInput5(s, f) == XtInput5(t, f);
    assert XtInput2(s, f) == XtInput2(t, f);
  }

  lemma SameXtFamily(s: Snapshot, t: Snapshot, f: Family)
    requires SameSections(s, t)
    ensures XtFamily(s, f) == XtFamily(t, f)
  {
    SameXtOutput(s, t, f);
    SameXtInput(s, t, f);
    assert XtObserved(s, f) == XtObserved(t, f);
    assert XtObserve(s, f) == XtObserve(t, f);
  }

  /** Listing the rules of a snapshot in another order compiles to the identical programs. */
  lemma RuleOrderIsIrrelevant(s: Snapshot, t: Snapshot)
    requires SnapshotValid(s) && SnapshotValid(t)
    requires t == s.(rules := t.rules) && multiset(s.rules) == multiset(t.rules)
    ensures NftCompile(s) == NftCompile(t) && XtCompile(s) == XtCompile(t)
  {
    PermutedFacts(s, t);
    forall k ensures Chosen(k, s.rules) == Chosen(k, t.rules) {
      PermutedSections(s, t, k);
    }
    SameNftOutput(s, t);
    SameNftInput(s, t);
    SameXtFamily(s, t, IPv4);
    SameXtFamily(s, t, IPv6);
  }

  // ---------------------------------------------------------------- BlockAll

  /** In BlockAll every hook of both backends denies every packet. */
  lemma BlockAllBlocks(s: Snapshot, p: Packet, o: Oracle)
    requires SnapshotValid(s) && WellFormed(p) && s.mode.BlockAll?
    ensures Run(Nft, s, p, o).verdict.Dropped? && Run(Xt, s, p, o).verdict.Dropped?
    ensures Traverse(NftInput(s), p) == Traverse(XtInput(s, p.family), p) == Stopped(Deny, p)
    ensures Traverse(Forward(s.mode), p) == Stopped(Deny, p)
  {
    NftRefinement.CatchAll(Deny, p);
  }
}
