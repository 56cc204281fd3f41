# OpenShield policy model

OpenShield is an application-aware firewall. A daemon keeps a policy (mode, rules, flow generation),
compiles it into netfilter programs for nftables or for ip(6)tables, answers queued packets with
accept, drop or reject, and learns rules from observed traffic. This project models that logic in Dafny
and proves what it promises. `dafny verify dfyconfig.toml` covers every file.

The parts, in dependency order:

- `Basics`, `Model`, `Addresses`, `Marks`, `Numerals`, `Listing`: shared arithmetic; rules, selectors and snapshots;
  what networks and port ranges contain; the bit fields of packet marks and connection marks, as 32-bit words;
  numbers as text; rules in identifier order.
- `Netfilter`: packets, firewall rules, and the two traversal disciplines. nftables runs base chains one
  after another; xtables runs mangle, then filter, and a queue verdict repeats the filter chain.
- `RuleOrder`, `RuleBlocks`, `Compilers`: the two compilers, as rule sequences built by emission loops.
- `Outbound`: one declarative policy for outgoing packets, without chains or marks in flight.
- `NftRefinement`, `XtRefinement`: each compiled program equals that policy on every packet.
- `PolicyProperties`: what follows for packets, and the exact family on which the backends differ.
- `Inbound`, `ReplyDeferral`, `InboundRefinement`: one declarative policy for arriving packets, replies that wait for
  their request, and both compiled input programs equal to that policy.
- `Wire`, `WireIsolation`: the compiled programs run on 32-bit words, and what that means for the host's bits.
- `PolicyState`, `PolicyLaws`: the mutable policy, and what each operation does seen from the states alone.
- `Learning`, `LearningProperties`, `LearningBatches`, `LearningCoverage`, `TemplateMigration`: batch learning under
  budgets, the packets learned rules let through, and the byte-bounded migration of older states.
- `Decisions`, `Agreement`, `Grounds`, `Rerouting`: userspace decisions, field by field; what they rest on; and what
  they say about the later packets of a connection.
- `PolicyRuns`, `Authorization`, `AuthorizationWitnesses`: runs in which policy operations and packets interleave.
- `FairQueue`, `FairQueueProperties`: the packet scheduler and its runs.
- `ApplyProtocol`, `ObserverRelocation`, `RuleComparison`, `NormalForms`: installing an xtables policy without a
  cross-family transaction, moving the observer, comparing installed with compiled rules, and which spellings of a
  rule compare equal.
- `OwnerHints`: the socket-owner hint cache.

## How the kernel is modelled

- A rule is a conjunction of matches, a list of mark effects and a target; a chain is a sequence of rules.
- An nftables statement that reads the connection mark in order to write it ends its rule when the packet
  has no conntrack record. The xtables CONNMARK target does nothing then and its rule goes on.
- An nftables accept, or an accepting queue verdict, ends one base chain only. An xtables queue verdict of
  NF_REPEAT enters the filter chain again with the verdict's mark.
- Userspace is a function from packets to answers, universally quantified. Packets the parser does not
  know, or that do not carry the pending mark, are denied before it is asked.
- Other netfilter users (host rules between sanitizer and observer, NAT, other tables) are not modelled. A
  packet carries its current and its original destination, so rewritten destinations are covered.

## What the code does differently from what one might expect

- Under nftables a network Reject is skipped on packets without a conntrack record, so such a packet can be
  accepted that the xtables program refuses; and nftables guards replies inside an envelope that xtables lets a
  network Accept pass. `BackendsAgreeExactly` gives the exact condition, `UntrackedRejectWitness` and
  `GuardedReplyWitness` a packet each.
- Endpoint validation admits ICMP with a port, which rule validation refuses: such an endpoint fails in the
  middle of a batch and may leave its template behind. `PingWithPortFails` is one; `BatchLearnsCandidates` says
  exactly where a batch learns and where it fails, `FittingBatchSucceeds` that fitting ports never fail.
- A flow can be authorized by a network Accept, or under Fast by a rule learned from another process of the same
  executable, not only by an application Accept of its own. `AuthorizedByNetworkAccept` is a run that does;
  `RestsOnApplicationIff` gives the exact condition on the policy, `FastPathRestsOnApplication` lifts it to flows.
- An authorized connection is not asked about again when it leaves through another interface, so a rule that
  names interfaces can be passed by: `ReroutedConnectionGoesOn`. `AcceptedIffCarriedOver` gives the exact condition
  on the rules under which the policy accepts the rerouted packet too; `FastPathIsBacked` and
  `AuthorizationNeverOutlivesPolicy` lift it to the packets of every run.
- When generations are spent, the fall to BlockAll keeps the generation: `LastGenerationFalls` is a run,
  `ModeFallsIff` the exact condition. Below the last generation mode and strategy never change within one
  (`OneModePerGeneration`).
- Socket-owner hints outlive one generation only if some generation is prepared for both learning and
  enforcing: `OlderHintSurvives` shows that case, `Replay` that it is the only one, `OneModePerGeneration` that a
  run of the policy has one mode per generation.

## Model

| member | source | states |
|---|---|---|
| `PolicyProperties.InterceptionIsEnough` | crates/openshield-core/src/state.rs:1038-1070 | the attribution a policy turns on is enough and no more than needed: every packet that can lie in an application envelope is covered by it, and while enforcing it is on, or per packet, only if some queued rule, or some queued rule that is not TCP, calls for it |
| `Model.ClassifyInterception` | crates/openshield-core/src/state.rs:1038-1070 | the early-exit scan computes that classification |
| `Marks.DomainTest` | crates/openshield-core/src/nftables.rs:55-72 | a masked comparison with a domain code reads exactly the two-bit domain |
| `Marks.DomainWrite` | crates/openshield-core/src/nftables.rs:55-72 | writing a domain keeps the host's thirty bits |
| `Marks.DomainSpellings` | crates/openshield-core/src/iptables.rs:602-607 | the xtables set-xmark spelling of a domain write equals the nftables and/or spelling on every word |
| `Marks.RetryWrite` | crates/openshield-core/src/nftables.rs:78-82 | the saturating two-bit retry counter steps through the domains and keeps the host's bits |
| `Marks.FlowWrite` | crates/openshield-core/src/nftables.rs:86-88 | stamping an authorized flow sets bit 30 and the generation and keeps the host's bit 31 |
| `Marks.RejectWrite` | crates/openshield-core/src/nftables.rs:443-445 | stamping a rejection clears bit 30, sets the generation and keeps bit 31 |
| `Marks.ResetWrite` | crates/openshield-core/src/nftables.rs:612-620 | resetting a stamp clears the owned 31 bits only |
| `Marks.ConnmarkSpellings` | crates/openshield-core/src/iptables.rs:503-542 | the xtables connection-mark write equals the nftables one on every word |
| `Marks.FlowTest` | crates/openshield-core/src/nftables.rs:526-568 | the masked comparison with a flow word holds exactly when the flow is authorized by that generation |
| `Marks.RejectTest` | crates/openshield-core/src/nftables.rs:416-441 | the masked comparison with a reject word holds exactly when the flow was rejected by that generation |
| `Marks.MarkIsItsFields` | crates/openshield-core/src/nftables.rs:29-53 | packet-mark words with equal fields are equal: reading fields loses nothing |
| `Marks.ConnmarkIsItsFields` | crates/openshield-core/src/nftables.rs:29-53 | connection-mark words with equal fields are equal |
| `Marks.StampsNeverCollide` | crates/openshield-core/src/nftables.rs:86-88 | flow and reject words never coincide, and neither coincide across generations |
| `RuleOrder.ChosenIgnoresOrder` | crates/openshield-core/src/nftables.rs:455-486 | filtering and sorting rules by action priority and identifier gives the same list for every permutation of the snapshot |
| `RuleOrder.SortOrders` | crates/openshield-core/src/iptables.rs:677-730 | the sort orders by (priority, identifier) |
| `RuleOrder.SortCounts` | crates/openshield-core/src/iptables.rs:677-730 | the sort is a permutation |
| `RuleBlocks.AppendEach` | crates/openshield-core/src/nftables.rs:455-486 | the emission loop appends exactly the section of the chosen rules |
| `RuleBlocks.NftVerdictActs` | crates/openshield-core/src/nftables.rs:931-966 | one rule's nftables verdict block applies exactly to the packets its spec describes, with its verdict and mark effects |
| `RuleBlocks.XtVerdictActs` | crates/openshield-core/src/iptables.rs:918-960 | the same for the xtables verdict block, including the two-line Reject |
| `RuleBlocks.QueueActs` | crates/openshield-core/src/nftables.rs:704-730 | a queue block sends exactly original packets in the rule's envelope to userspace, marked pending |
| `RuleBlocks.GuardActs` | crates/openshield-core/src/nftables.rs:732-809 | a guard block drops exactly the candidates the backend guards: by current tuple, by original tuple, per protocol |
| `RuleBlocks.ObserverActs` | crates/openshield-core/src/iptables.rs:190-221 | an observer guard returns exactly the denied packets before the sampling queue |
| `RuleBlocks.SectionActs` | crates/openshield-core/src/nftables.rs:455-516 | a whole section acts as its first rule that concerns the packet |
| `RuleBlocks.FirstIsLeast` | crates/openshield-core/src/nftables.rs:455-486 | in a sorted section that first rule is the least by (priority, identifier) |
| `Compilers.AppendNftOutput` | crates/openshield-core/src/nftables.rs:190-374 | the nftables output program, built stage by stage, is the specified chain |
| `Compilers.AppendXtOutput` | crates/openshield-core/src/iptables.rs:328-501 | the xtables output program, built stage by stage, is the specified chain |
| `NftRefinement.NftRefinesPolicy` | crates/openshield-core/src/nftables.rs:190-374 | for every valid snapshot, packet and userspace, the three nftables base chains give exactly the declarative policy's verdict, connection mark and packet mark |
| `NftRefinement.OutputActs` | crates/openshield-core/src/nftables.rs:190-374 | one pass through the output chain does what the closed-form step says |
| `NftRefinement.AuthorizeActs` | crates/openshield-core/src/nftables.rs:839-928 | the authorization chain refuses, stamps or lets pass exactly by domain and protocol |
| `NftRefinement.SanitizeActs` | crates/openshield-core/src/nftables.rs:811-823 | the sanitizing chain clears the sender's domain bits |
| `NftRefinement.RejectRepliesAct` | crates/openshield-core/src/nftables.rs:416-441 | exactly the kernel-generated reject replies of the current generation pass |
| `XtRefinement.XtRefinesPolicy` | crates/openshield-core/src/iptables.rs:79-154 | for every valid snapshot, well-formed packet, userspace and positive repeat budget, the xtables program (mangle, filter, NF_REPEAT) ends within it and gives exactly the declarative policy's outcome |
| `XtRefinement.XtOutputActs` | crates/openshield-core/src/iptables.rs:328-501 | one pass through the output chain and its application chains does what the closed-form step says |
| `XtRefinement.RepeatedPass` | crates/openshield-core/src/iptables.rs:328-501 | after a queue verdict the repeated pass finds its mark before any other decision |
| `XtRefinement.XtHandoffsAct` | crates/openshield-core/src/iptables.rs:328-501 | an accepted packet jumps to the application chain of its protocol |
| `XtRefinement.AppChainActs` | crates/openshield-core/src/iptables.rs:503-542 | the application chains stamp the flow and clear the domain |
| `PolicyProperties.Run` | crates/openshield-core/src/nftables.rs:130-156 | what a backend's compiled program does to a packet equals the declarative policy |
| `PolicyProperties.BackendsAgreeExactly` | crates/openshield-core/src/iptables.rs:328-501 | both compiled programs give equal verdicts and marks if and only if the packet is not of the diverging family; on original-direction packets they always agree |
| `PolicyProperties.OriginalAcceptedIff` | crates/openshield-core/src/nftables.rs:190-374 | an original packet is accepted if and only if no network rule denies it and a current stamp, userspace or the default outside every envelope admits it |
| `PolicyProperties.EnvelopeIsNotBypassed` | crates/openshield-core/src/nftables.rs:293-333 | a packet in an application envelope is accepted only by a current-generation stamp or by userspace, and never untracked |
| `PolicyProperties.DenyOverrides` | crates/openshield-core/src/nftables.rs:236-246 | a denied packet is accepted only as the generated reject reply of the current generation |
| `PolicyProperties.NftRejectNeedsRecord` | crates/openshield-core/src/nftables.rs:931-966 | without a conntrack record the nftables Reject is skipped and the packet judged as if the rule were absent |
| `PolicyProperties.UntrackedRejectWitness` | crates/openshield-core/src/nftables.rs:931-966 | a concrete snapshot and packet on which nftables accepts what xtables refuses |
| `PolicyProperties.GuardedReplyWitness` | crates/openshield-core/src/nftables.rs:732-809 | a concrete snapshot and tracked reply on which nftables drops what xtables accepts, whatever userspace answers |
| `PolicyProperties.LearningAllowsByDefault` | crates/openshield-core/src/nftables.rs:315-367 | in Learning every packet no enabled deny covers is accepted in both backends |
| `PolicyProperties.MarksAreIsolated` | crates/openshield-core/src/nftables.rs:811-928 | the outcome ignores the sender's domain bits, accepted packets leave with them clear, and the host's bits are never touched |
| `PolicyProperties.RuleOrderIsIrrelevant` | crates/openshield-core/src/iptables.rs:677-760 | permuted snapshots compile to identical programs in both backends |
| `PolicyProperties.BlockAllBlocks` | crates/openshield-core/src/nftables.rs:190-215 | BlockAll denies every packet at every hook of both backends |
| `PolicyProperties.OnlyUnderstoodIsAdmitted` | crates/openshield-daemon/src/nfqueue.rs:1940-1990 | inside an application envelope no original packet gets out but TCP, UDP and echo requests of its own family, whatever userspace answers |
| `PolicyProperties.ValidRulesCanMatch` | crates/openshield-core/src/model.rs:336-370 | every valid rule covers some well-formed packet, and a protocol that clashes with the peer's family covers none |
| `InboundRefinement.NftReceives` | crates/openshield-core/src/nftables.rs:190-374 | for every valid snapshot and well-formed packet the nftables input chain passes, defers or denies exactly as the declarative inbound policy says: BlockAll denies; else DHCP passes; else an invalid packet is denied; else IPv6 control messages, generated reject replies, Learning's local and reply traffic, stamped local and reply traffic, packets an inbound Accept covers and established replies to an outbound network Accept pass; else an established non-TCP reply from an application Accept's envelope with retries left is deferred; everything else is denied |
| `InboundRefinement.XtReceives` | crates/openshield-core/src/iptables.rs:223-291 | the same for the xtables input chain of the packet's family |
| `InboundRefinement.DeferralFollowsPolicy` | crates/openshield-core/src/nftables.rs:622-680 | from any mark, within three repetitions and the retries the mark has left, an arriving packet gets the inbound policy's verdict on the record it has at the first traversal that does not defer it or at which the consumer drops it |
| `InboundRefinement.ForwardingFollowsMode` | crates/openshield-core/src/nftables.rs:158-173 | both forward chains deny everything in BlockAll and pass everything otherwise |
| `Wire.ChainFollowsWords` | crates/openshield-core/src/nftables.rs:811-928 | a chain run on 32-bit mark and connection-mark words with the emitted masked operations, in either backend's spelling, does what it does on the fields |
| `WireIsolation.WordsFollowFields` | crates/openshield-core/src/nftables.rs:130-156 | the whole compiled outbound program run on words, verdict marks included, ends with the verdict and words whose fields are those of the program run on fields |
| `WireIsolation.HostBitsSurvive` | crates/openshield-core/src/nftables.rs:29-53 | under both backends, for every word: the low thirty packet-mark bits and connection-mark bit 31 come out as they went in, and an accepted packet leaves with exactly its two top bits cleared |
| `WireIsolation.ForgedBitsAreIgnored` | crates/openshield-core/src/iptables.rs:602-607 | two packets that differ in the two top mark bits only get the same verdict and leave with the same words |
| `ReplyDeferral.DeferralIsBoundedAndGrantsNothing` | crates/openshield-core/src/nftables.rs:622-680 | from any mark the input program repeats at most three times, keeps the host's bits, and accepts only what some traversal accepts with the queue rules deleted |
| `ReplyDeferral.CompiledInputDefersSafely` | crates/openshield-core/src/iptables.rs:223-291 | both compiled input programs have that property |
| `PolicyState.NextGeneration` | crates/openshield-core/src/state.rs:1030-1035 | generations strictly grow and stay within the mark domain, or are exhausted |
| `PolicyState.ModeKeepsValid` | crates/openshield-core/src/state.rs:430-457 | mode changes keep the state valid |
| `PolicyState.CreateKeepsValid` | crates/openshield-core/src/state.rs:474-508 | creation keeps the state valid |
| `PolicyState.UpdateKeepsValid` | crates/openshield-core/src/state.rs:526-557 | updates keep the state valid |
| `PolicyState.DeleteKeepsValid` | crates/openshield-core/src/state.rs:573-592 | deletion keeps the state valid |
| `PolicyState.EnableKeepsValid` | crates/openshield-core/src/state.rs:614-648 | toggling keeps the state valid, whatever pin it clears |
| `PolicyState.PolicyStore.SetModeWithStrategy` | crates/openshield-core/src/state.rs:430-457 | result and whole new state of a mode change, error cases included |
| `PolicyState.PolicyStore.Create` | crates/openshield-core/src/state.rs:474-508 | result and whole new state of a creation, with every refusal in the source's order |
| `PolicyState.PolicyStore.Update` | crates/openshield-core/src/state.rs:526-557 | result and whole new state of an update |
| `PolicyState.PolicyStore.Delete` | crates/openshield-core/src/state.rs:573-592 | result and whole new state of a deletion |
| `PolicyState.PolicyStore.Enable` | crates/openshield-core/src/state.rs:614-648 | result and whole new state of a toggle |
| `PolicyLaws.CreateStores` | crates/openshield-core/src/state.rs:474-508 | from the states alone: exactly when a creation succeeds, that it stores just the given rule, and that exactly an enabled deny starts a new generation |
| `PolicyLaws.UpdateStores` | crates/openshield-core/src/state.rs:526-557 | exactly when an update succeeds; every other rule, mode and strategy stay, the rule keeps identifier and creation time and carries the requested spec, except that a disabled skeleton template loses its executable pin; a new generation starts |
| `PolicyLaws.DeleteRemoves` | crates/openshield-core/src/state.rs:573-592 | exactly when a deletion succeeds; the rule is gone, nothing else is, and a new generation starts |
| `PolicyLaws.EnableToggles` | crates/openshield-core/src/state.rs:614-648 | exactly when a toggle succeeds; only that rule's flag changes, and a new generation starts exactly when it takes traffic away |
| `PolicyLaws.ModeChanges` | crates/openshield-core/src/state.rs:430-457 | exactly when a mode change succeeds; rules stay, mode and strategy are those asked for |
| `PolicyLaws.RefusalsAreTrue` | crates/openshield-core/src/state.rs:393-648 | every refusal names something that is wrong with the request or the state |
| `PolicyLaws.OperationsTakeEffect` | crates/openshield-core/src/state.rs:393-648 | the same effects for the operations of a run |
| `Agreement.StrictestDecides` | crates/openshield-daemon/src/application.rs:300-327 | outside BlockAll the most severe enabled rule that agrees with packet, socket owner and process in every field it sets decides, Drop before Reject before Accept |
| `Agreement.SilenceDecides` | crates/openshield-daemon/src/application.rs:300-359 | if no rule agrees, Learning accepts and enforcing accepts exactly by a network Accept or, under Fast, by a learned Accept of the same executable and user |
| `Agreement.AcceptanceNeedsAgreement` | crates/openshield-core/src/application.rs:355-374 | strict enforcement without a network Accept accepts only a process that some enabled Accept agrees with in executable, file, user, control group and command line, exact or prefix, and no deny agrees with |
| `Agreement.AnswersWithoutIdentity` | crates/openshield-daemon/src/nfqueue.rs:1067-1097 | without an identity a packet is accepted exactly if no application rule that the mode consults fits it and the policy accepts every process |
| `Decisions.AcceptedAnswersAreJustified` | crates/openshield-daemon/src/nfqueue.rs:1060-1097 | an accepting answer, given with or without an identity, rests on a decision that accepts the identity, or every identity |
| `Decisions.DecisionsStand` | crates/openshield-daemon/src/application.rs:300-327 | while the policy only grows, an accepting decision is never taken back except by BlockAll |
| `Decisions.GrantsStand` | crates/openshield-daemon/src/application.rs:467-555 | and neither is a grant, identified or not |
| `PolicyRuns.OperationsAdvance` | crates/openshield-core/src/state.rs:393-860 | every operation keeps validity and either starts a later generation or stays in its own, where mode and strategy stay (but for the fall to BlockAll when generations are spent), enabled rules stay and only accepts are turned on |
| `PolicyRuns.RestrictingStartsGeneration` | crates/openshield-core/src/state.rs:430-648 | every operation that restricts the policy, by a rule or by mode or strategy, starts a later generation; only the fall to BlockAll when generations are spent does not |
| `PolicyRuns.ModeFallsIff` | crates/openshield-core/src/state.rs:430-457 | an operation changes the mode within a generation if and only if it enters BlockAll when generations are spent and revisions are not |
| `AuthorizationWitnesses.LastGenerationFalls` | crates/openshield-core/src/state.rs:430-457 | a concrete run that changes the mode and keeps the generation |
| `PolicyRuns.SpentBlockAllStays` | crates/openshield-core/src/state.rs:430-457 | once generations are spent in BlockAll no operation leaves it |
| `Authorization.StatesAdvance` | crates/openshield-core/src/state.rs:1030-1035 | over every run the generation never falls, and while it stays the policy only grows, with one mode and strategy but for the fall to BlockAll in the last generation |
| `Authorization.OneModePerGeneration` | crates/openshield-core/src/state.rs:430-457 | two states of one run with the same generation have the same mode and strategy, or the generation is the last one and the later state is in BlockAll |
| `Authorization.OnlyUserspaceAuthorizes` | crates/openshield-core/src/nftables.rs:839-928 | a flow gains an authorization only from an original, undenied envelope packet off the fast path that userspace was asked about and accepts, and only for the current generation |
| `Authorization.RenewalStamps` | crates/openshield-core/src/nftables.rs:839-928 | conversely every such packet is accepted and stamps its flow with the current generation, whatever stamp the flow had, in both backends |
| `Authorization.FlowsAreBacked` | crates/openshield-daemon/src/nfqueue.rs:890-900 | in every run each stamp of the current generation rests on a grant for the very connection it marks, which the current policy accepts even when it was decided under an earlier one |
| `Authorization.GrantIsLastAccepted` | crates/openshield-daemon/src/nfqueue.rs:890-900 | in every run, the grant behind an authorization in force is the one of the flow's last accepted question |
| `Authorization.AuthorizationNeverOutlivesPolicy` | crates/openshield-core/src/nftables.rs:526-568 | over every run and in both backends, an original packet in an envelope accepted without userspace belongs to a connection granted to someone; the policy in force accepts that grant, and this very packet for the same grantee if and only if the grant carries over to the packet's interface, always so on its own; no network rule denies it, and an application deny could reach it only by naming an interface the grant was not made for |
| `Authorization.FastPathIsBacked` | crates/openshield-core/src/nftables.rs:526-610 | the same backing for all fast-path traffic, loopback replies included |
| `Rerouting.AcceptedIffCarriedOver` | crates/openshield-daemon/src/application.rs:467-555 | for any packet of a granted connection on any interface: the policy accepts it for everyone the grant concerns if and only if, for each of them, no deny names the new interface and either the mode is Learning or some accepting rule names no interface or the new one |
| `Rerouting.SameInterfaceCarriesOver` | crates/openshield-daemon/src/application.rs:467-555 | on the interface it was granted on, every grant carries over |
| `Authorization.DeniesNameOtherInterface` | crates/openshield-daemon/src/application.rs:467-555 | the only application deny that can apply to a packet of a granted connection names that packet's interface, and the grant was made on another |
| `Grounds.RestsOnApplicationIff` | crates/openshield-daemon/src/application.rs:300-327 | while enforcing, everyone the policy accepts for a packet has an application Accept of their own if and only if no network Accept covers it and, under Fast, some rule speaks about every process of each learned executable that could be extended to it |
| `Grounds.GrantsRestOnApplication` | crates/openshield-daemon/src/nfqueue.rs:1060-1097 | under that condition every grant was made to an identified process with an application Accept |
| `Authorization.FastPathRestsOnApplication` | crates/openshield-core/src/nftables.rs:526-568 | in every run, under that condition and on an interface the grant carries over to, an original fast-path packet has an enabled application Accept in force for the process its flow was granted to |
| `AuthorizationWitnesses.AuthorizedByNetworkAccept` | crates/openshield-daemon/src/application.rs:300-327 | a concrete run that stamps a flow for a process without any application Accept, through a network Accept |
| `AuthorizationWitnesses.ReroutedConnectionGoesOn` | crates/openshield-core/src/nftables.rs:526-568 | a concrete run after which a granted connection goes on through another interface where the policy would deny the same process |
| `AuthorizationWitnesses.ReroutedIsAccepted` | crates/openshield-core/src/nftables.rs:526-568 | both compiled programs accept that packet whatever userspace answers |
| `Authorization.RestrictionEndsFlows` | crates/openshield-core/src/state.rs:526-648 | after any restricting operation no stamp made before it is ever honoured again |
| `Authorization.ProgramsJudge` | crates/openshield-core/src/nftables.rs:839-928 | the mark a run gives a flow is the one the compiled program leaves |
| `Authorization.SnapshotsAreValid` | crates/openshield-core/src/state.rs:362-369 | the snapshot of a valid state is valid and lists exactly its rules |
| `Learning.BuildIndex` | crates/openshield-core/src/state.rs:1180-1223 | one scan builds an admission index equal to recomputation |
| `Learning.AccountKeepsIndex` | crates/openshield-core/src/state.rs:1180-1223 | accounting for one rule keeps every set and count equal to recomputation |
| `Learning.IndexClassifies` | crates/openshield-core/src/state.rs:1263-1303 | classification by an exact index equals classification by recomputation |
| `Learning.CapDecides` | crates/openshield-core/src/state.rs:812-830 | comparing with a cap fixed before the loop equals asking for room in the current state |
| `Learning.LearnEndpoints` | crates/openshield-core/src/state.rs:767-860 | the batch loop with its incrementally kept sets and counts does exactly what a fresh classification of every endpoint says, partial failures included |
| `LearningProperties.LearningIsSound` | crates/openshield-core/src/state.rs:767-860 | every batch only adds accepting rules, one revision each, keeps every budget and validity, learns no key twice and leaves a template for everything learned |
| `LearningProperties.LearningAgainIsIdle` | crates/openshield-core/src/state.rs:798-859 | relearning a batch that was learned without a binding cap, completely or up to a failure, changes and creates nothing, and succeeds if it succeeded |
| `LearningProperties.LearnedIffCandidate` | crates/openshield-core/src/state.rs:1263-1303 | one endpoint, exactly: known and saturated ones change nothing, a candidate is learned if its port fits its protocol and otherwise fails, with the number of templates it leaves |
| `LearningBatches.BatchLearnsCandidates` | crates/openshield-core/src/state.rs:767-860 | while revisions last, any batch, position by position: an endpoint becomes known there exactly when, in the state reached, it is a candidate with room under the cap and its port fits; the batch stops early exactly at an unknown endpoint without room, or with an error at a learnable one whose port does not fit |
| `LearningBatches.FittingBatchSucceeds` | crates/openshield-core/src/state.rs:767-860 | while revisions last, a batch whose ports fit never fails |
| `LearningBatches.UncappedLearnsCandidates` | crates/openshield-core/src/state.rs:812-830 | without a binding cap, being learnable at a position is being classified a candidate there |
| `LearningBatches.PingWithPortFails` | crates/openshield-core/src/state.rs:805-859 | a concrete ICMP endpoint with a port passes endpoint validation, fails in the batch and leaves its template behind |
| `LearningProperties.LearnedSpecFits` | crates/openshield-core/src/model.rs:336-370 | an accepted endpoint makes a valid rule exactly when it has no port or is TCP or UDP |
| `Addresses.HostIsAlone` | crates/openshield-core/src/state.rs:978-983 | the network of a learned address contains that address and no other |
| `LearningCoverage.LearnedRuleCovers` | crates/openshield-core/src/state.rs:978-1003 | the rule learned for an endpoint is an enabled outbound Accept of its application that covers exactly the packets to its address, protocol and port through its interface |
| `LearningCoverage.TemplateIsIdle` | crates/openshield-core/src/state.rs:947-975 | the template beside it is disabled and names executable and control group only |
| `LearningCoverage.BatchAdmitsOnlyEndpoints` | crates/openshield-core/src/state.rs:767-860 | whatever a batch newly lets through goes to one of its endpoints from that endpoint's application |
| `LearningCoverage.LearnedEndpointIsAdmitted` | crates/openshield-core/src/state.rs:767-860 | and what goes to a learned endpoint from its application is let through unless a rule denies it |
| `LearningCoverage.KnownIffLearned` | crates/openshield-core/src/state.rs:1263-1303 | an endpoint is known exactly if a learned rule has its address, protocol, port, interface and application |
| `LearningCoverage.CandidateIffFits` | crates/openshield-core/src/state.rs:1263-1303 | an endpoint is a candidate exactly if it is unknown and every budget is kept with it and its template added |
| `TemplateMigration.DeltaIsExact` | crates/openshield-core/src/state.rs:1379-1398 | the incremental size formula is exactly the difference of the serialized sizes |
| `TemplateMigration.CollectLacking` | crates/openshield-core/src/state.rs:885-900 | the group scan collects exactly the learned groups without a template |
| `TemplateMigration.LackingIsExact` | crates/openshield-core/src/state.rs:885-900 | those groups are exactly the unknown ones of learned rules, each once |
| `TemplateMigration.TryTemplate` | crates/openshield-core/src/state.rs:911-943 | one insertion is kept with its size accounted for, or taken back to the exact prior state |
| `TemplateMigration.MigrateTemplates` | crates/openshield-core/src/state.rs:880-945 | the loop with its running byte count does what measuring every state from scratch says |
| `TemplateMigration.MigrationFits` | crates/openshield-core/src/state.rs:880-945 | the result never exceeds the larger of the initial size and the limit, and only adds |
| `TemplateMigration.MigrationIsGreedy` | crates/openshield-core/src/state.rs:911-943 | templates are created for the leading groups in order, and stopping short means the next would not fit |
| `TemplateMigration.MigrationCovers` | crates/openshield-core/src/state.rs:862-878 | if nothing cuts it short, every learned rule has a template afterwards |
| `FairQueue.PacketScheduler.Push` | crates/openshield-daemon/src/nfqueue_scheduler.rs:90-116 | a push is refused exactly at the bound and otherwise appends to the packet's flow |
| `FairQueue.PacketScheduler.TakeTurn` | crates/openshield-daemon/src/nfqueue_scheduler.rs:121-145 | one turn takes up to a quantum from the front flow of the front user and moves the rest to the back |
| `FairQueue.PacketScheduler.TakeBatch` | crates/openshield-daemon/src/nfqueue_scheduler.rs:121-145 | a batch is the specified run of turns and holds 32 packets or all that wait |
| `FairQueue.BatchSplits` | crates/openshield-daemon/src/nfqueue_scheduler.rs:121-145 | a batch and the rest are exactly what waited, each flow in order, with no empty or repeated queue |
| `FairQueue.BatchIsFull` | crates/openshield-daemon/src/nfqueue_scheduler.rs:118-145 | a batch holds 32 packets or all that wait |
| `FairQueueProperties.TurnTakesQuantum` | crates/openshield-daemon/src/nfqueue_scheduler.rs:121-145 | a turn takes exactly the first four packets of the front user's front flow, or as many as there are or fit |
| `FairQueueProperties.KeysSeparate` | crates/openshield-daemon/src/nfqueue_scheduler.rs:43-62 | packets share a user exactly by socket user and a flow exactly by protocol, addresses and ports; unparsed packets share one user and no flow |
| `FairQueueProperties.RunsAccount` | crates/openshield-daemon/src/nfqueue_scheduler.rs:90-145 | over every run: well-formed, at most 128 waiting, and each flow's packets leave in push order, none lost or repeated |
| `FairQueueProperties.NextFateIsTrue` | crates/openshield-daemon/src/nfqueue_scheduler.rs:90-145 | each effective turn takes the packet at a place or moves it to a lower (depth, flow, user) place, and nothing else moves it |
| `FairQueueProperties.FateIsTrue` | crates/openshield-daemon/src/nfqueue_scheduler.rs:90-145 | followed through any run by place, a packet is at the index it left at or at the place it waits at |
| `FairQueueProperties.FatesDiffer` | crates/openshield-daemon/src/nfqueue_scheduler.rs:90-145 | two packets, even equal ones, never share an index or a place |
| `FairQueueProperties.PushKeepsPlace` | crates/openshield-daemon/src/nfqueue_scheduler.rs:90-116 | no push moves a waiting packet back |
| `FairQueueProperties.EveryPacketLeaves` | crates/openshield-daemon/src/nfqueue_scheduler.rs:121-145 | under any interleaving the very packet at a place leaves before its rank of turns has passed |
| `FairQueueProperties.UserAdvances` | crates/openshield-daemon/src/nfqueue_scheduler.rs:121-145 | a user at position i waits i turns, costing at most 4 packets each |
| `FairQueueProperties.TurnsAreShared` | crates/openshield-daemon/src/nfqueue_scheduler.rs:121-145 | over any window two waiting users get turn counts that differ by at most one |
| `FairQueueProperties.BatchIsRun` | crates/openshield-daemon/src/nfqueue_scheduler.rs:121-145 | a batch is a run of turns |
| `ApplyProtocol.XtablesBackend.Restore` | crates/openshield-core/src/iptables.rs:143-153 | a restore commits filter first for BlockAll and mangle first otherwise, keeping every reachable point safe; it succeeds exactly if the command does, and a failed one leaves exactly the tables it committed |
| `ApplyProtocol.XtablesBackend.EnsureChains` | crates/openshield-daemon/src/backend.rs:753-783 | exactly the missing owned chains of a table are claimed, one by one, and present ones keep their rules; it succeeds exactly if no command fails |
| `ApplyProtocol.XtablesBackend.Prepare` | crates/openshield-daemon/src/backend.rs:864-876 | preparation attempts both families, succeeds exactly if no command fails, and then both are blocked |
| `ApplyProtocol.XtablesBackend.ApplyPair` | crates/openshield-daemon/src/backend.rs:887-892 | the new policy goes in family by family, only over blocked or new filters, and succeeds exactly if no command fails |
| `ApplyProtocol.XtablesBackend.RecordExpected` | crates/openshield-daemon/src/backend.rs:894-916 | a policy is recorded as expected exactly if both families can be read back and equal it |
| `ApplyProtocol.XtablesBackend.EmergencyBlockAll` | crates/openshield-daemon/src/backend.rs:918-925 | it succeeds exactly if no command fails, and then both families are blocked and recorded |
| `ApplyProtocol.XtablesBackend.CheckedApply` | crates/openshield-daemon/src/backend.rs:927-973 | for every policy, BlockAll included: fail-closed activation at every kernel state reached, what each outcome guarantees, and which outcome it is by the stage whose commands failed; the policy is applied exactly if none did |
| `ApplyProtocol.XtablesBackend.FailClosed` | crates/openshield-daemon/src/backend.rs:989-1008 | closing succeeds exactly if the emergency step does, whatever became of the preparation, and then both families are blocked and read back |
| `ObserverRelocation.BuiltInChain.Relocate` | crates/openshield-daemon/src/backend.rs:822-845 | relocation leaves the foreign rules in order, keeps a dispatcher throughout, ends with exactly one in last place, refuses noncanonical dispatchers, and otherwise succeeds exactly if no command fails |
| `ObserverRelocation.LoneLast` | crates/openshield-daemon/src/backend.rs:822-845 | one dispatcher in last place means the foreign rules followed by it |
| `RuleComparison.NormalizeRule` | crates/openshield-daemon/src/backend.rs:2297-2355 | the in-place normaliser computes the specified normal form and its encoding |
| `RuleComparison.MarksCompareByValue` | crates/openshield-daemon/src/backend.rs:2357-2368 | two mark arguments normalise alike exactly when value and mask are equal |
| `RuleComparison.MarkReadsBack` | crates/openshield-daemon/src/backend.rs:2357-2381 | the normal form of a mark reads back as the same mark |
| `NormalForms.SynIsItsMask` | crates/openshield-daemon/src/backend.rs:2300-2318 | wherever it stands, the SYN shorthand and its flag mask are the same rule |
| `NormalForms.ModuleIsImplied` | crates/openshield-daemon/src/backend.rs:2320-2338 | behind -p tcp or -p udp, a rule with and without that protocol's match module are the same rule |
| `NormalForms.MarksAreTheirValue` | crates/openshield-daemon/src/backend.rs:2340-2344 | two spellings of one mark argument, anywhere in a rule, are the same rule |
| `NormalForms.SpellingsAgree` | crates/openshield-daemon/src/backend.rs:2369-2381 | a number means the same in decimal and hexadecimal and is refused above 32 bits in both |
| `NormalForms.NormalFormsStay` | crates/openshield-daemon/src/backend.rs:2297-2355 | a rule in normal form is its own normal form, so nothing else is identified |
| `RuleComparison.EncodingIsInjective` | crates/openshield-daemon/src/backend.rs:2346-2354 | the length-prefixed token encoding is injective |
| `RuleComparison.NormalKeepsChain` | crates/openshield-daemon/src/backend.rs:2275-2286 | normalisation keeps the command and the chain |
| `RuleComparison.SortedIsUnique` | crates/openshield-daemon/src/backend.rs:2288-2295 | a list sorted by chain is determined by its per-chain sequences |
| `RuleComparison.SortKeepsChains` | crates/openshield-daemon/src/backend.rs:2288-2295 | the sort is stable: every chain keeps its sequence |
| `RuleComparison.TableComparisonIsExact` | crates/openshield-daemon/src/backend.rs:2288-2295 | one table compares equal exactly when every chain holds the same rules in the same order |
| `RuleComparison.InstalledIffCompiled` | crates/openshield-daemon/src/backend.rs:849-862 | the concatenated comparison of both tables is equal exactly when each chain of each table matches the compiled policy |
| `OwnerHints.OwnerCache.Prepare` | crates/openshield-daemon/src/application_fast.rs:65-78 | enforcing keeps exactly the live hints of its generation and of learning in the one directly before |
| `OwnerHints.OwnerCache.PrepareLearning` | crates/openshield-daemon/src/application_fast.rs:80-89 | learning keeps exactly the live hints of its own generation |
| `OwnerHints.KeptAreYoung` | crates/openshield-daemon/src/application_fast.rs:65-89 | exactly the hints verified less than three minutes ago are kept |
| `OwnerHints.OwnerCache.Insert` | crates/openshield-daemon/src/application_fast.rs:91-104 | at most 256 hints; a full cache evicts one verified longest ago |
| `OwnerHints.OwnerCache.Touch` | crates/openshield-daemon/src/application_fast.rs:106-116 | verified hints are renewed and nothing else changes |
| `OwnerHints.OwnerCache.Seed` | crates/openshield-daemon/src/application_fast.rs:136-181 | only a unique owner that was seen at no failed target is seeded, every other hint stays or is evicted, and with room every qualifying target is recorded |
| `OwnerHints.Replay` | crates/openshield-daemon/src/application_fast.rs:65-181 | over every sequence of cache calls in which each generation is prepared for one mode, every hint comes from its own generation or from learning in the one directly before |
| `OwnerHints.SuspectsOf` | crates/openshield-daemon/src/application_fast.rs:149-162 | the excluded processes are exactly those observed at a failed target |
| `OwnerHints.OlderHintSurvives` | crates/openshield-daemon/src/application_fast.rs:65-89 | without one mode per generation an older hint does survive: a concrete run |

## Left out

- Names, descriptions and timestamps of events: they decide nothing. Text lengths are counted in characters, not bytes.
- Address parsing and UUIDs: addresses are numbers, identifiers are numbers, fresh identifiers and clocks are parameters.
- The text syntax of `nft` and `iptables-save`, and the quoting rules of the tokenizer: rules are structures, and comparison starts from tokens.
- The DHCP and ICMPv6 control-plane lists: one packet flag each.
- InboundRefinement.NftReceives: which packets are DHCP replies or IPv6 control messages is given by those two flags.
- Rate limits of the sampling queue: one packet flag.
- Subprocesses, pipes, timeouts, tool discovery and the checks for foreign firewall worlds: a command either succeeds or fails at any point.
- procfs scanning and identity capture: identities and scans are inputs.
- Persistence to disk, the protocol server, the terminal interface, release scripts.
- Network-only learning (`learn_endpoint`, `learn_new_endpoints`): the application batch subsumes its bookkeeping.
- Observer redaction of snapshots and events, and the escaped display of command arguments.
- Counters, and their addition across families.
- Authorization.AuthorizationNeverOutlivesPolicy: inbound packets are not events of these runs; `ReplyDeferral` shows that the input programs set no authorization.
- ApplyProtocol.XtablesBackend.EnsureTopology: inserting the first dispatchers is one command that may fail; where dispatchers stand is modelled in `ObserverRelocation` only.
- ApplyProtocol.XtablesBackend.CheckedApply: nobody else changes the owned chains meanwhile.
- TemplateMigration.MigrateTemplates: how a rule, an identifier and the fields after the revision print is any fixed function of them; sizes do not overflow.
- RuleComparison.Rank: the order of the seven owned chain names is given as a table.
- OwnerHints.OwnerCache.Insert: which of several equally old hints is evicted is left open.
- Decisions.Decide: which of several matching rules is reported is left out, only the action is decided.
