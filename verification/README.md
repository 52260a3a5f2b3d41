# Trusted-agent evidence, settlement and penalties

This project models the trusted-agent runtime in four connected pieces and proves what they keep.

1. **Evidence.** Execution receipts are linked by `prev_receipt_hash`, stored write-once, bundled,
   verified, exported as AP2 mandates and turned into settlement plans (`CanonicalJson`, `Schemas`,
   `ReceiptStore`, `EvidenceAdapter`, `Verification`, `Recovery`, `Ap2`, `ProofHash`, `Settlement`,
   `OperationalControls`). The stress harness builds honest chains, attacks them and judges them
   (`StressDetectors`, `StressInspection`, `StressRunner`).
2. **Penalties.** A ledger charges sellers who leave orders unconfirmed, exactly once per session
   while the charge is on record, and scales their liability (`SellerRisk`, `AcceptLedger`,
   `SellerTimeouts`).
3. **Ownership and acknowledgement.** Boundary cards are re-derived from a catalog, and the
   directory withdraws an acknowledgement when the card it was given for changes (`AgentBoundary`,
   `AgentDirectory`).
4. **Arithmetic.** The automatic arbitration split and the verifiers' moving average
   (`Arbitration`, `Reputation`, on `Rounding`).

`Text` and `Sorting` hold Python's string and sorting operations. Loops and objects that change are
methods and classes, each specified by a function; the theorems are about those functions.

**Hashing.** SHA-256 is any function into 64 lower-case hexadecimal characters (`Schemas.Hasher`).
Nothing is assumed about collisions: a theorem that needs their absence says "or these two different
texts have one hash". `Schemas.Digester` is what such a function gives on records; `DigestsOf` and
`DigestsBind` tie the two together, through the injectivity of the canonical JSON text.

## What the code does that its documentation does not say

Each of these is proved of the code as written.

- An agent whose last receipt has swapped times or a bad status is missing both from the plans and
  from `failed_cases` (`StressRunner.UnreportedAgents`).
- A mandate whose `mandate_digest` is missing or empty passes `verify_ap2_digest_consistency` whatever
  else it says; only its evidence digest is compared, and only when a bundle is given
  (`Ap2.UndeclaredPasses`). One that declares the exported digest is protected in every other field
  (`Ap2.TamperedExportFails`).
- `_is_hex64` lets texts pass that are not 64 hexadecimal digits (`Ap2.PassesAsHex64Lenient`);
  `Ap2.PassesAsHex64Iff` says which.
- Event ids repeat, exactly when the log is shorter than the greatest id given
  (`AcceptLedger.EventIdsRepeat`).
- A past-due seller accept with a blank owner makes every later sweep that lists it stop there
  (`SellerTimeouts.SweepSettles`).
- Step keys can clash for two traces, exactly when one with its bar begins the other
  (`Settlement.StepKeyClashes`).
- A pending challenge window lets an attested plan through (`Settlement.BuildAttestedPlan`).
- A seller card with profile id `user` in another case is refused or stored as a buyer's, under another
  hash than the row's (`AgentBoundary.MaterializedFixpoint`, `AgentDirectory.ConnectStoresLiveHash`).
- Metadata that overwrites the acknowledgement of a ready row can leave it ready
  (`AgentDirectory.OverwrittenAckBreaks`); `AgentDirectory.ConnectSoundIff` gives the exact condition.
- An escrow that ends in half a cent can gain or lose a cent (`Arbitration.HalfCentDrifts`, with
  `Arbitration.HalfCentGained` for an instance).
- A verifier that never fails does not reach a score of 100 unless it starts there
  (`Reputation.PerfectReachesOnlyFromThere`).

## Model

| member | source | states |
|---|---|---|
| CanonicalJson.EncodeIdentifies | evidence_runtime/hashing.py:16-17 | two values have one canonical text exactly when they are equal as JSON values, key order aside (`true` and 1 differ, unlike under Python's `==`) |
| CanonicalJson.EncodeInjective | evidence_runtime/hashing.py:16-17 | equal texts come from equal values, for every pair of JSON values |
| CanonicalJson.EncodeIgnoresInsertionOrder | evidence_runtime/hashing.py:16-17 | inserting the same keys in another order gives the same text |
| CanonicalJson.RenderPrefixFree | evidence_runtime/hashing.py:16-17 | no value's text, followed by a delimiter, is the beginning of another's |
| Schemas.ReceiptBytesInjective | evidence_runtime/schemas.py:44-67 | distinct receipts, an empty against a set trace id included, have distinct pre-hash texts |
| Schemas.BundleBytesInjective | evidence_runtime/schemas.py:84-99 | likewise for bundles |
| Schemas.TaskBytesInjective | evidence_runtime/evidence_adapter.py:14-25 | likewise for task contracts |
| Schemas.BodyBytesFaithful | evidence_runtime/stress_runner.py:89-92 | two body texts agree exactly when the receipts differ in nothing but the id |
| Schemas.CanonicalTextsFaithful | evidence_runtime/schemas.py:44-99 | the canonical texts of receipts, bodies, tasks and bundles tell all of them apart |
| Schemas.DigestsBind | evidence_runtime/evidence_adapter.py:66-75 | two different records with one digest are a collision of the hash function on their two texts |
| Schemas.ReceiptCollisionIsHashCollision | evidence_runtime/evidence_adapter.py:74-75 | two receipts collide exactly when their two canonical texts are different and have one hash |
| Schemas.RecordHashesBind | evidence_runtime/verification.py:72-75 | equal lists of receipt hashes come from equal lists of receipts, or two receipts collide |
| Schemas.PointerBinds | evidence_runtime/evidence_adapter.py:69-71 | equal proof-hash pointers name bundles with equal receipt hashes, or two bundles collide |
| ReceiptStore.InMemoryReceiptStore.SaveReceipt | evidence_runtime/receipt_store.py:17-23 | write once: a save is refused exactly for an id held by another payload, and never changes what is stored |
| ReceiptStore.InMemoryReceiptStore.GetReceipt | evidence_runtime/receipt_store.py:25-26 | finds a receipt exactly when one with that id is stored |
| ReceiptStore.InMemoryReceiptStore.GetReceiptChain | evidence_runtime/receipt_store.py:28-32 | lists exactly the task's receipts |
| ReceiptStore.SortedChainIgnoresOrder | evidence_runtime/verification.py:58-63 | the chain verification sorts does not depend on the insertion order |
| ReceiptStore.SaveOrderIsInvisible | evidence_runtime/receipt_store.py:17-32 | saving the same receipts in any order, or twice, gives the same sorted chain |
| EvidenceAdapter.BuildEvidenceBundle | evidence_runtime/evidence_adapter.py:34-64 | raises for an id that is not stored, else bundles exactly the receipts named, in the order named |
| EvidenceAdapter.FetchReceipts | evidence_runtime/evidence_adapter.py:43-48 | stops at the first missing id; otherwise the receipts carry the ids asked for |
| Verification.VerifyEvidenceBundleStructural | evidence_runtime/verification.py:32-86 | ends with the one reason the verdict function gives, and `STRUCT_OK` only for `receipt_chain_valid` |
| Verification.CheckChronology | evidence_runtime/verification.py:77-83 | comparing neighbours decides whether all start times are in order |
| Verification.BuildThenVerify | evidence_runtime/verification.py:37-86 | a bundle built from the stored receipts verifies exactly when there are some, traces agree, starts are in order and nothing blocks |
| Verification.VerdictIgnoresSaveOrder | evidence_runtime/verification.py:58-75 | the verdict never depends on the order of saves |
| Verification.OneBundleOneHistory | evidence_runtime/verification.py:58-75 | a bundle accepted against two stores pins one history, or two receipts collide |
| Verification.OneBundleOneHistoryOrCollides | evidence_runtime/verification.py:58-75 | the same for any hash function over the canonical texts, ending in two colliding texts |
| Recovery.DescribeReceiptChainGaps | evidence_runtime/recovery.py:9-31 | reports every step gap and link gap in order, and nothing exactly for a non-empty contiguous linked chain |
| Recovery.DigestFixesHistory | evidence_runtime/recovery.py:23-30 | one receipt digest fixes everything before it in a gapless chain, or two receipts collide |
| Recovery.HeadHashFixesHistory | evidence_runtime/recovery.py:9-31 | gapless chains with equal head hashes are the same chain, or two receipts collide |
| Recovery.HeadHashFixesHistoryOrCollides | evidence_runtime/recovery.py:9-31 | the same for any hash function over the canonical texts, ending in two colliding texts |
| Recovery.HeadInsideIsPrefix | evidence_runtime/recovery.py:9-31 | a head found inside a longer gapless chain makes the shorter one its prefix, or two receipts collide |
| StressDetectors.DuplicateExtraCount | evidence_runtime/stress_runner.py:81-86 | the counted surplus is the number of receipts minus the number of different ids |
| StressDetectors.IdCardinality | evidence_runtime/stress_runner.py:81-86 | that surplus is zero exactly when all ids differ |
| StressDetectors.ReplayEventCount | evidence_runtime/stress_runner.py:95-100 | the number of body digests that occur under more than one id |
| StressDetectors.ChainLinkErrors | evidence_runtime/stress_runner.py:103-115 | one error for each wrong link of the sorted chain, of the right kind |
| StressDetectors.CheckersAgree | evidence_runtime/recovery.py:16-31 | recovery reports no gaps exactly when the chain is non-empty, contiguous and free of harness link errors |
| StressInspection.LinkTagsNumberErrors | evidence_runtime/stress_runner.py:273-286 | the receipts tagged for a bad link are exactly as many as the link errors |
| StressInspection.AgentOkIffAllValid | evidence_runtime/stress_runner.py:273-292 | an agent passes as a whole exactly when none of its receipts is invalid |
| StressInspection.Inspect | evidence_runtime/stress_runner.py:236-292 | every counter of one agent is what its detector's definition gives |
| StressInspection.CountSchemaErrors | evidence_runtime/stress_runner.py:266-271 | timeout and other schema errors are counted apart and together |
| StressRunner.BuildHonestReceipts | evidence_runtime/stress_runner.py:122-157 | the loop builds the recursive honest chain, each link naming the digest before it |
| StressRunner.ApplyAttack | evidence_runtime/stress_runner.py:160-196 | the list afterwards is the attacked list, for every attack and length |
| StressRunner.DuplicatesFound | evidence_runtime/stress_runner.py:163-165 | one surplus id after `duplicate_id` and none after any other attack |
| StressRunner.ReplaysFound | evidence_runtime/stress_runner.py:166-189 | the clone is always found; nothing else is unless two bodies collide |
| StressRunner.SchemaFound | evidence_runtime/stress_runner.py:190-194 | one timeout error after `timeout`, one other after `malformed`, none after other attacks |
| StressRunner.LinksFound | evidence_runtime/stress_runner.py:195-196 | link errors exactly after an added receipt or a forged link on at least two receipts; no digest can hide them |
| StressRunner.AgentPasses | evidence_runtime/stress_runner.py:292-292 | an agent passes exactly when no attack struck it and no two bodies of its chain collide |
| StressRunner.AttackDetected | evidence_runtime/stress_runner.py:160-196 | each of the five attacks trips its own detector, with exact counts where they do not depend on digests |
| StressRunner.BodyCollisionIsHashCollision | evidence_runtime/stress_runner.py:89-92 | bodies collide exactly when two different body texts have one hash |
| StressRunner.HonestVerifies | evidence_runtime/stress_runner.py:294-325 | a stored honest chain verifies exactly when it has a receipt |
| StressRunner.SettleAgent | evidence_runtime/stress_runner.py:294-345 | for a passing agent: stores, bundles, verifies and plans all five calls exactly when the chain is not empty |
| StressRunner.RunStress | evidence_runtime/stress_runner.py:226-345 | totals and failed cases of a run are the sums over its agents |
| StressRunner.RunAddsUp | evidence_runtime/stress_runner.py:226-345 | valid plus invalid receipts make all receipts; bundles and plans count the same agents; duplicates, timeouts and malformed are one per agent so attacked |
| StressRunner.RunPlansUnattacked | evidence_runtime/stress_runner.py:226-345 | with at least two steps each and no body collision, bundles and plans are counted for exactly the un-attacked agents |
| StressRunner.RunPlansExactly | evidence_runtime/stress_runner.py:226-345 | for all lengths and hash functions: exactly the agents with a receipt, not struck, without a body collision |
| StressRunner.RunAllValid | evidence_runtime/stress_runner.py:273-292 | a run counts no invalid receipt exactly when the detectors pass every agent |
| StressRunner.UnreportedAgents | evidence_runtime/stress_runner.py:240-254 | an agent is missing from plans and failed cases exactly after `timeout` or `malformed`, collisions aside |
| Ap2.SignatureIsDetached | evidence_runtime/ap2_adapter.py:76-80 | adding or changing the signature changes neither the digest nor the check |
| Ap2.DeclaredBinds | evidence_runtime/ap2_adapter.py:200-205 | a mandate that declares another's digest passes exactly when they are equal apart from the two skipped keys, or collide |
| Ap2.TamperedFieldFails | evidence_runtime/ap2_adapter.py:191-205 | a passing mandate has the original's value under every key but the skipped ones, or the texts collide |
| Ap2.ExportPasses | evidence_runtime/ap2_adapter.py:107-137 | an exported mandate passes, signed or not, with its own bundle and with no other unless they collide |
| Ap2.TamperedExportFails | evidence_runtime/ap2_adapter.py:191-205 | changing, adding or removing any field but signature and digest is detected, or the texts collide |
| Ap2.UndeclaredPasses | evidence_runtime/ap2_adapter.py:195-205 | a mandate without a declared digest passes exactly if no bundle is given or its digest is the evidence digest |
| Ap2.RoundTrip | evidence_runtime/ap2_adapter.py:140-188 | each field of any bundle comes back exactly when it is not empty, the hashes always |
| Ap2.BuiltRoundTrip | evidence_runtime/ap2_adapter.py:140-188 | for a bundle built from receipts with non-empty ids and time everything comes back |
| Ap2.PassesAsHex64Iff | evidence_runtime/ap2_adapter.py:208-215 | a text that passes is 64 hexadecimal digits exactly when it holds no blank, sign, underscore or x |
| ProofHash.NormalizeIdempotent | evidence_runtime/proof_hash_format.py:24-30 | normalising twice is normalising once |
| ProofHash.CanonicalIffStrippedValidates | evidence_runtime/proof_hash_format.py:33-77 | a text is canonical exactly when its stripped form validates |
| ProofHash.NormalizationNeverFails | evidence_runtime/proof_hash_format.py:74-75 | the last failure branch is never taken |
| ProofHash.AssertedIsCanonical | evidence_runtime/proof_hash_format.py:80-90 | what is returned matches the pattern, is its own normal form and validates |
| ProofHash.PointerValidates | evidence_runtime/hashing.py:29-31 | a pointer made from any digest validates and is its own normal form |
| Settlement.PausedIsPrefix | evidence_runtime/settlement_adapter.py:30-71 | the paused plan is the full plan's first three calls, dropping exactly settle and finalizeSettle |
| Settlement.BuildOffchainPlan | evidence_runtime/settlement_adapter.py:97-161 | calls exactly for a structurally valid, unblocked task, with the status of the branch taken |
| Settlement.BuildAttestedPlan | evidence_runtime/settlement_adapter.py:184-278 | calls exactly for an OK quorum whose window is neither open nor disputed and no block |
| Settlement.StepKeysEqual | evidence_runtime/settlement_idempotency.py:22-24 | two keys are equal exactly when functions are and trace and bundle, joined by a bar, are one text |
| Settlement.StepKeyInjective | evidence_runtime/settlement_idempotency.py:22-24 | hence, for traces without a bar that are not the no-trace marker, keys tell every trace, bundle and function apart |
| Settlement.StepKeyClashes | evidence_runtime/settlement_idempotency.py:22-24 | two traces have a key in common for some bundles exactly when one, with its bar, begins the other with its |
| Settlement.SettlementIdempotencyBook.TryOnce | evidence_runtime/settlement_idempotency.py:14-19 | true exactly the first time, and the key is remembered |
| Settlement.SettlementIdempotencyBook.Dispatch | tests/test_runtime_stabilization.py:245-250 | submitting keys through the book lets through exactly the fresh ones |
| Settlement.FreshOnce | evidence_runtime/settlement_idempotency.py:14-19 | what is let through is new, without repeats, and all that was new |
| Settlement.PlanCarries | evidence_runtime/settlement_adapter.py:146-153 | a plan carries the key of each of its calls, in order |
| Settlement.ReplayDispatchesOnce | evidence_runtime/settlement_idempotency.py:10-24 | replaying any mix of paused and full plans, of any traces and bundles, dispatches each step once, in canonical order |
| SellerRisk.ThresholdForCount | services/accept_fulfillment.py:168-198 | the walk over sorted thresholds ends with the last one reached, with all defaults |
| SellerRisk.GreatestThreshold | services/accept_fulfillment.py:168-198 | the active threshold is the greatest not above the count, and none exactly when all lie above |
| SellerRisk.MultiplierRatchet | services/accept_fulfillment.py:182-194 | with an escalating catalog a larger count never has a smaller multiplier |
| SellerRisk.LiabilityExact | services/accept_fulfillment.py:409-413 | each amount is within half a millionth of the exact basis-point share |
| SellerRisk.LiabilityRatchet | services/accept_fulfillment.py:403-413 | more unconfirmed orders never lower bond or compensation |
| SellerRisk.CompensationDueBounds | services/accept_fulfillment.py:446-455 | what is due grows with the clamped fraction and reaches, but never exceeds, the compensation |
| AcceptLedger.SellerAcceptLedger.RecordSellerNonConfirm | services/accept_fulfillment.py:229-322 | one event per session and reason while retained; the whole new ledger, the answer and the late error |
| AcceptLedger.SellerAcceptLedger.RecordSellerConfirm | services/accept_fulfillment.py:325-391 | one event per session while retained; the log is only extended |
| AcceptLedger.SellerAcceptLedger.SellerRiskProfile | services/accept_fulfillment.py:201-222 | the profile of the count on record, creating an empty entry |
| AcceptLedger.SellerAcceptLedger.LogNonConfirm | services/accept_fulfillment.py:263-306 | the entry, updated field by field, and the cut log |
| AcceptLedger.EntryCounts | services/accept_fulfillment.py:263-289 | an entry's counts, its scenes and its reputation total are those of the seller's full history |
| AcceptLedger.LedgerOfAnyRun | services/accept_fulfillment.py:241-307 | after any run the log is the end of the history, holds no repeat, and every entry counts the full history |
| AcceptLedger.RunKeeps | services/accept_fulfillment.py:241-369 | any run of records keeps the ledger's invariants and only extends its history |
| AcceptLedger.RunRatchet | services/accept_fulfillment.py:403-413 | no run lowers a seller's multiplier, bond or compensation |
| AcceptLedger.DeltaBounded | services/accept_fulfillment.py:242-247 | every reputation hit lies between minus the maximum and zero |
| AcceptLedger.EventIdsRepeat | services/accept_fulfillment.py:291-306 | after any run the next id was given before exactly when the log is shorter than the greatest id given, as it is after every cut |
| SellerTimeouts.ProcessExpiredSellerSession | services/accept_fulfillment.py:458-534 | the whole new state and answer of processing one session |
| SellerTimeouts.ProcessKeeps | services/accept_fulfillment.py:458-534 | a cancel answer rests on a retained timeout of its seller; the history grows by that event or not at all |
| SellerTimeouts.ProcessNames | services/accept_fulfillment.py:471-511 | its cancel answer rests on a timeout of that very session |
| SellerTimeouts.ExpirePendingSellerAccepts | services/accept_fulfillment.py:537-557 | the loop is the sweep function over the listed sessions |
| SellerTimeouts.SweepSettles | services/accept_fulfillment.py:540-553 | a sweep raises exactly when a listed session is overdue with a blank owner, which stays so; else none listed is left lapsed |
| SellerTimeouts.SweepClears | services/accept_fulfillment.py:537-557 | a sweep of the whole table leaves nothing lapsed, or raises exactly for a blank owner |
| SellerTimeouts.CheckInteractionSellerTimeout | services/accept_fulfillment.py:560-613 | the given session, then the log, then the listed sessions |
| SellerTimeouts.CheckKeeps | services/accept_fulfillment.py:560-613 | an interaction check's cancel answer rests on a recorded timeout of its seller |
| SellerTimeouts.CheckNames | services/accept_fulfillment.py:568-613 | that timeout is of the session named, of the interaction asked for, or of a session of this seller and interaction |
| SellerTimeouts.DeskRunKeeps | services/accept_fulfillment.py:458-613 | over any interleaving every cancel answer given rests on a recorded timeout |
| SellerTimeouts.TimeoutOnce | services/accept_fulfillment.py:252-262 | over any interleaving a session is charged once while the charge is retained |
| AgentBoundary.PlanConfirmations | services/human_confirmation_policy.py:268-315 | the lifecycle split into steps to confirm and automatic steps, or the error for an unknown role |
| AgentBoundary.StepsSplit | services/human_confirmation_policy.py:282-299 | every lifecycle step is in exactly one of the two lists |
| AgentBoundary.NotLooserMeans | services/agent_boundary.py:101-122 | a block is looser exactly when it leaves out a step the catalog wants confirmed or makes one automatic |
| AgentBoundary.CanonicalizeIsStable | services/agent_boundary.py:125-152 | canonical cards are fixed points, never looser than the catalog, and keep everything else |
| AgentBoundary.AssessComplete | services/agent_boundary.py:260-286 | the gaps in order, and complete exactly without any |
| AgentBoundary.CompleteMeans | services/agent_boundary.py:260-286 | what a complete card must hold, for sellers and for buyers |
| AgentBoundary.CollectScenes | services/agent_boundary.py:222-234 | the scenes that some capability stands for, each once |
| AgentBoundary.MaterializedFixpoint | services/agent_boundary.py:289-395 | canonicalising a materialised card keeps its hashed content exactly unless a seller's profile is `user` in another case |
| AgentBoundary.SavedIsStable | services/agent_boundary.py:155-196 | a saved card is saved as it is again and its completeness cannot be claimed |
| AgentDirectory.ExtendCapabilities | services/agent_directory.py:103-107 | the old capabilities followed by the new ones not among them |
| AgentDirectory.AgentDirectory.RecordBoundary | services/agent_directory.py:220-262 | the hash recorded and a stale acknowledgement withdrawn |
| AgentDirectory.AgentDirectory.ConnectAgent | services/agent_directory.py:43-265 | the whole new directory, a refusal or a refused card |
| AgentDirectory.AgentDirectory.RefreshP1Ready | services/agent_directory.py:268-278 | only the readiness flag changes, to what the records say |
| AgentDirectory.EvaluateP1Readiness | services/agent_p1_readiness.py:228-428 | ready exactly when every condition on the records holds, the platform key tolerated in demos |
| AgentDirectory.ConnectSoundIff | services/agent_directory.py:115-118 | a ready row stays backed by an acknowledgement of the stored card exactly under a condition on the row and the request; other rows have nothing to back |
| AgentDirectory.OwnHashSoundIff | services/agent_directory.py:220-262 | for a row with its own hash: exactly when no acknowledgement is sent, it names the hash to be stored, or a card is written under another hash |
| AgentDirectory.ConnectStoresLiveHash | services/agent_directory.py:225-262 | after a write the row stores the saved card's hash exactly when the card is not a misspelt user's, or contents clash |
| AgentDirectory.OverwrittenAckBreaks | services/agent_directory.py:115-118 | overwriting a ready row's acknowledgement leaves it ready without one, exactly unless a card is written under another hash |
| AgentDirectory.RunKeepsSound | services/agent_directory.py:97-262 | over any run whose requests keep ready rows backed, renewed acknowledgements included, every ready row holds one of the hash it stores |
| AgentDirectory.RunWithoutUnboundAcks | services/agent_directory.py:97-262 | runs whose metadata carries no unbound acknowledgement are such runs |
| AgentDirectory.RunKeepsOwners | services/agent_directory.py:51-114 | over any run without the hijack switch owners are never replaced and capabilities only grow |
| AgentDirectory.RunKeepsLive | services/agent_directory.py:225-262 | over any run without misspelt users every row stores the hash of its saved card |
| AgentDirectory.ReadyMeansAcknowledged | services/agent_p1_readiness.py:345-379 | in every directory so reached a ready agent's acknowledgement names its live card |
| Arbitration.CompareBundle | services/auto_arbitration_rules.py:68-94 | each flag is true exactly when the bundle states what is stored, and nothing is noted exactly when all of it does |
| Arbitration.BuildContext | services/auto_arbitration_rules.py:40-109 | all flags of the context, and no notes exactly for evidence in order |
| Arbitration.CascadeIsSimple | services/auto_arbitration_rules.py:112-146 | the eight rules pay what a four-case split of step flag and percent pays |
| Arbitration.OnlyStepCountsMatter | services/auto_arbitration_rules.py:112-146 | contexts that agree on the step-count flag split alike |
| Arbitration.SplitConserves | services/auto_arbitration_rules.py:144-146 | for whole cents both parts lie within the escrow and add up to it |
| Arbitration.SettledGrows | services/auto_arbitration_rules.py:140-146 | more confirmed progress never pays the seller less |
| Arbitration.SplitNearlyConserves | services/auto_arbitration_rules.py:144-146 | for any escrow the parts add up to within half a cent |
| Arbitration.SplitConservesIff | services/auto_arbitration_rules.py:144-146 | the parts add up to the escrow exactly when it is a whole number of cents |
| Arbitration.HalfCentDrifts | services/auto_arbitration_rules.py:144-146 | the parts miss the rounded escrow exactly for a partial split of an escrow ending in half a cent with an odd seller's part, and by which cent |
| Reputation.UpdateReputation | decentralized_verifier/tasks.py:272-283 | every verifier with attestations takes one step of the average, the others none |
| Reputation.AutoVerify | decentralized_verifier/tasks.py:158-163 | one more attestation each, and one more success for each OK decision |
| Reputation.RunStaysFair | decentralized_verifier/tasks.py:158-161 | successes never exceed attestations and scores stay between 0 and 100 over any run |
| Reputation.Converges | decentralized_verifier/tasks.py:272-282 | after k updates at a constant rate the gap is at most 0.7^k of the first plus the rounding bound |
| Reputation.RunConverges | decentralized_verifier/tasks.py:272-282 | the same over any run of attestations and updates whose updates find one rate |
| Reputation.ArrivesOnlyFromThere | decentralized_verifier/tasks.py:278-282 | a stored score arrives at a target of four decimals exactly if it started there |
| Reputation.PerfectReachesOnlyFromThere | decentralized_verifier/tasks.py:272-282 | over any run a verifier that never fails scores 100 exactly if it started with 100 |
| Reputation.PerfectStaysBelow | decentralized_verifier/tasks.py:272-282 | from any score up to 99.9999 it stays there over any run |

## Left out

- Receipts are values: that the store and the caller share one mutable receipt object after a save is not modelled.
- JSON numbers are integers; surrogate code points, floats and the non-dataclass bundle types accepted by `ap2_adapter` are not modelled.
- Money, scores and multipliers are exact reals rounded as `round` rounds; binary floating point is not modelled.
- Clocks, UUIDs and the pseudo-random generator are inputs; each call reads the clock once.
- Timestamps are texts of one format that keeps the order of time (`StressDetectors.Clock`).
- `str.lower` acts on ASCII letters only, and hexadecimal parsing in `Ap2.ReadsBase16` on ASCII digits.
- An absent session id, interaction reference or nullable column is the empty string.
- The harness's timing statistics, its repeated hashing of the same object and its JSON re-parse of a plan are not modelled.
- The catalogs of thresholds, gates, capabilities and specifications are parameters; where a result needs more of them (escalating multipliers, rates not below zero) it says so.
- The digests of stored receipts in `Arbitration` are given texts of 64 hexadecimal characters.
- Readiness reads identities, keys, signatures and reputations through parameters (`AgentDirectory.World`).
- `validate_service_specs_for_industries` matters only through whether it raises; the error list it returns is dropped by its caller.
- The default notice, delegation, compliance flags and display fields of a boundary card are opaque texts; its content hash is any function of the parts it covers.
- A refused card leaves the rows unchanged, as when the session is rolled back; the rollback itself is not modelled.
- JSON files, locks, HTTP routes, database sessions, Solidity contracts and on-chain calls are not part of this model.
- SellerTimeouts.TimeoutOnce: bounds repeated charges by the log limit, because the code forgets events that are cut; it is not once for ever.
- AcceptLedger.RunRatchet: is for a catalog whose multipliers do not fall with the count and rates that are not negative.
- AgentDirectory.RunKeepsSound: is for requests that keep ready rows backed, because the code lets others leave a ready row without a bound acknowledgement (`AgentDirectory.OverwrittenAckBreaks`).
- StressRunner.RunPlansUnattacked: is up to collisions of body digests, which the detectors cannot tell from replays.
- Verification.BuildThenVerify: does not cover `prev_receipt_hash` or step contiguity, because verification does not check them; `Recovery` and the harness do.
