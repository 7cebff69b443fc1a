# A verified model of the recovery agent

RECLAIM is an agent that tries to recover failed payments. It keeps a small database
(obligations, risk cases, an idempotent outbox, a hash-chained audit log), diagnoses each
case, proposes at most one action, lets a policy engine rule on it, and carries the ruling
out. This project models that core in Dafny and proves what every run of it keeps.

The main results, in the system's own terms:

- **Safety over whole runs.** A run is any interleaving of obligation ingest, case opening,
  agent steps under any thresholds, arbitrary legal moves by anyone, simulator outcomes and
  outbox workers; an operation that raises is rolled back. In every reached ledger there is
  at most one live case per obligation, every case satisfies its validators and got where
  it is along allowed edges with one audit row each, the audit chain is valid, no debit is
  doubled, the n-th action row of the log carries the key of the n-th outbox row, and no
  case has two actions. So checks #1 and #8 are never violated and #8 never raises.
- **Every queued action was justified.** The k-th outbox row of any reached ledger was added
  by exactly one step of that run: an agent step on the row's own case, which took that case
  from `detected` to `scheduled` and for which, on the ledger as it stood, the debit
  (liquidity cause at or above the floor, uncontested, soft decline, within the AFA ceiling,
  outstanding debt, no open hold) or the message (inside the governing window, effective
  consent for its purpose and language and none withdrawn, no open hold, registered template,
  counts strictly below both caps) was justified.
- **No live case is orphaned.** A completed run over a freshly detected batch leaves every
  live case with one queued action, a human owner or a logged decision, before and after the
  simulator; and with a row hash that never returns the genesis value such a run completes.
- **Recovered at most what is owed** (#6) is kept exactly by the runs whose openings and
  ingests pass a guard that can be checked before each call; a run that breaks it and
  over-collects is exhibited.
- **The policy engine** means what its rules say, whatever their order; the shipped rule set
  is characterised exactly, without rules or facts, for every threshold setting.
- **The audit chain** commits to its history: two valid logs with one head are the same log
  or a colliding pair of rows is computed; each kind of tampering gets its own verdict.
- **Randomisation** is exactly balanced per block, within k(B - k) for every prefix, over
  the smallest block that can be; the bytes alone decide every rank's arm, and any order of a
  block can be drawn.
- **The headline estimate** is within 1.5 millionths of the money at risk plus half a paisa
  of the exact weighted figure.

## How it is laid out

One module per file. `Vocabulary`, `Cases`, `Actions` and `Parties` hold the data;
`PolicyFormat`, `PolicyEngine`, `PolicyRules`, `PolicyFacts` and `ShippedPolicy` the policy;
`Diagnosis` the diagnostician; `AuditChain` and `ChainVerifier` the log; `Outbox` and `Spine`
say what each write does to the tables and what every reachable ledger keeps; `Flow` builds
the agent step from those writes, `FlowSafety` says what it keeps, and `AgentStep` tells its
whole effect field by field; `Outcomes` and `Resolution` do the same for the simulator; `Runs`,
`QueueRuns`, `Justification`, `BatchRuns` and `Completion` are about whole runs. `SpineStore`,
`Agent` and `Simulator` are the imperative side: a class whose fields are the four tables,
and the methods that update them one write at a time, each tied to the function that says
what it does. `Grouping`, `InvariantChecks` and `RecoveryCheck` are the batch checkers, and
`RecoveryRuns` says which runs keep check #6. `Divisibility`, `Experiment`, `Shuffling`,
`BlockAssignment` and `DrawnOrders` are the randomisation and `Metrics` the estimator.

Each main operation is told twice: once as it is built, and once as its effect on the raw
fields (`AgentStep.RoutedExactly`, `Resolution.ResolveExactly`, `Spine.TransitionWrites`,
`ShippedPolicy.DebitVerdict` and `MessageVerdict`, the four checkers, `BlockAssignment.Draws`,
`Metrics.PointIsClose`). The second telling does not use the functions of the first.

Identifiers are numbers, instants are seconds, money is integer paise, probabilities are
integer millionths. Hashes and idempotency digests are arbitrary functions: nothing assumes
they are injective. The consent profile and the holds of a payer, local time, rendered slot
text, the banned-phrase list and whether simulated money arrives are arbitrary inputs too.

## Where the code and its documentation differ

The model follows the code.

- The stratum-weighted estimate promises to refuse an unmatched stratum rather than treat it
  as zero. It refuses one that is missing an arm, but a stratum with declared money and no
  comparison at all is accepted and counts as zero lift. `Metrics.UncomparedStratumDilutes`
  says by how much that lowers the delta, and
  `Metrics.WeightsSumToOneExactlyWhenAllIsCompared` exactly when the weights are a weighted
  average.
- Invariant #6 ("recovered at most what is owed") is said to be enforced at the schema
  boundary (reclaim/contracts/obligations.py:450-455). That holds of settled money: no run
  stores an obligation settled beyond its gross. It does not hold of recognised money: the
  ledger takes a new case on an obligation whose earlier cases are over, whatever they have
  recovered (`RecoveryRuns.OneDebtRecoveredTwice`). The exact condition, for every ledger
  with room for all its live claims and a row hash that never returns the genesis value:
  opening a case is safe if and only if what is recognised on the obligation and the new
  amount fit its gross, and an ingest if and only if what is recognised or still claimed fits
  the new gross (or there is nothing claimed and nothing settled); otherwise moves alone lead
  to a violation (`RecoveryRuns.GuardIsExact`, `RecoveryRuns.WithoutRoomMovesOverCollect`).
- Idempotence of the simulator rests on its audit row, not on the entry state of the case,
  and that is how it is proved.

## Model

| member | source | states |
|---|---|---|
| `Vocabulary.DiagnosisIsNeverUndone` | reclaim/contracts/enums.py:471-510 | no walk of allowed edges leads a case whose diagnosis has started back to `detected` or `suppressed` |
| `Vocabulary.TerminalExactlyWhenStuck` | reclaim/contracts/enums.py:415-510 | a state is terminal exactly when it has no edge, and every other state can be stopped |
| `Vocabulary.WaysIn` | reclaim/contracts/enums.py:471-510 | the transition table read by destination: for every state, exactly where it can be entered from |
| `Vocabulary.ArmsExactly` | reclaim/contracts/enums.py:522-640 | only the control takes no action, only the last arm goes without the policy engine, and exactly A3 and A4 are routed |
| `Actions.VerbsUnder` | reclaim/contracts/actions.py:590-832 | the governing categories read by category: which of the thirteen verbs must answer to each |
| `Cases.RebuildAcceptsExactly` | reclaim/contracts/case.py:498-629 | re-validating a moved live case succeeds if and only if a reason and a time accompany a stop and nothing else, and no plan lands on the control arm |
| `Cases.ValidExactly` | reclaim/contracts/case.py:498-629 | the validators together, field by field: stop fields, window, positive amount, control arm, segment, rupee band, and how each risk class may be filed |
| `PolicyFormat.SuitsExactly` | reclaim/contracts/policy_format.py:157-330 | the typed fact vocabulary read by value: which facts a value of each kind may state |
| `PolicyFormat.ListLeafExactly` | reclaim/contracts/policy_format.py:376-434 | a list of values goes with membership only, checked member by member on an enumerated fact |
| `PolicyFormat.ValueLeafExactly` | reclaim/contracts/policy_format.py:376-434 | one value goes with any other operator if it suits the fact, and with an order only where there is one |
| `PolicyFormat.RuleValidExactly` | reclaim/contracts/policy_format.py:554-588 | a deferral names a fact that is an instant, a tier rides on an approval only, and the condition is well formed |
| `PolicyFormat.CombineMeaning` | reclaim/contracts/policy_format.py:673-718 | the decision is the strictest blocking effect, its deciding rule the least id among the strictest; without a blocking verdict it is a fail-closed denial |
| `PolicyFormat.CombineTier` | reclaim/contracts/policy_format.py:703-704 | the tier is the strictest any blocking verdict asks for |
| `PolicyFormat.CombineDeferral` | reclaim/contracts/policy_format.py:706-708 | the deferral is the latest among the verdicts that decided |
| `PolicyFormat.CombineIgnoresOrder` | reclaim/contracts/policy_format.py:673-718 | verdict lists with the same members give the same ruling |
| `PolicyFormat.CombineIsMonotone` | reclaim/contracts/policy_format.py:673-718 | more verdicts keep or tighten the effect |
| `PolicyFormat.EffectsInOrder` | reclaim/contracts/policy_format.py:673-718 | any denial denies, else any deferral defers, else any approval asks, else it is allowed; with no blocking verdict it is denied |
| `PolicyFormat.TiersInOrder` | reclaim/contracts/policy_format.py:703-704 | the tier is T3 if any blocking verdict asks for T3, else T2, and so on |
| `PolicyEngine.CompareMeaning` | reclaim/policy/engine.py:102-126 | the eight operators on every kind of value, and exactly when a comparison raises |
| `PolicyEngine.ConnectivesMean` | reclaim/policy/engine.py:129-150 | conjunction, disjunction and negation over children that answer, and which child decides when others raise |
| `PolicyEngine.ConsultMeaning` | reclaim/policy/engine.py:240-301 | a rule is unevaluable iff a fact it names is missing, speaks only when its condition is true, with its own id, category, effect, severity and tier, and breaks only on a raise or a deferral without an instant |
| `PolicyEngine.MatchesIsTotal` | reclaim/policy/engine.py:102-150 | a well-formed predicate over typed facts that are present always has an answer |
| `PolicyEngine.ApplicableRules` | reclaim/policy/engine.py:165-191 | the loop selects exactly the enabled rules in a declared category that cover the segment and channel |
| `PolicyEngine.EvaluateAction` | reclaim/policy/engine.py:240-301 | the loop over rules computes the specified evaluation, including the first predicate error |
| `PolicyEngine.EvaluateIsTotal` | reclaim/policy/engine.py:240-301 | valid rules over typed facts never make the engine raise |
| `PolicyEngine.RulingDependsOnBlockingRulesOnly` | reclaim/policy/engine.py:240-309 | effect, deciding rule, tier, deferral and silent categories depend only on which blocking rules are present: advisory rules neither block nor cover |
| `PolicyEngine.EvaluateIgnoresRuleOrder` | reclaim/policy/engine.py:240-328 | two listings of the same rules give the same ruling, or both raise |
| `PolicyEngine.AddingRulesOnlyTightens` | reclaim/policy/engine.py:240-328 | when no declared category is silent, adding rules keeps or tightens the effect |
| `PolicyEngine.SilenceDenies` | reclaim/policy/engine.py:304-328 | an action whose declared category no blocking verdict covers is denied and the category reported |
| `PolicyRules.GatesDecide` | reclaim/policy/rules.py:186-234 | for any complementary gates covering the verb: nothing unevaluable or silent, DENY iff a denying gate fires, ALLOW_WITH_APPROVAL iff only approval gates fire, ALLOW otherwise |
| `PolicyRules.GatesAreHeardInOrder` | reclaim/policy/rules.py:186-234 | the verdicts of an evaluation are one for each relevant gate, in the order of the gates |
| `PolicyRules.ShippedRulesAreValid` | reclaim/contracts/policy_format.py:523-588 | every shipped rule passes the rule validator under any thresholds |
| `PolicyRules.BuildMinimalRuleSet` | reclaim/policy/rules.py:717-740 | the loop extends the rule list with both halves of each of the eight gates, in order |
| `PolicyFacts.BuildFacts` | reclaim/policy/facts.py:214-349 | filling the bundle step by step gives the specified facts, all of their declared type |
| `PolicyFacts.ValidateFacts` | reclaim/policy/facts.py:361-404 | the loop accepts a bundle if and only if every fact has its declared type |
| `ShippedPolicy.DebitVerdict` | reclaim/policy/rules.py:248-463 | a debit is denied iff a needed mandate is missing, the class is not soft, three debits are queued, a hold is open, a record was withdrawn, a cohort or incident is set, the key is known or the debt is not outstanding; it needs approval iff only the AFA ceiling is exceeded, and is allowed otherwise; nothing unevaluable, no category silent |
| `ShippedPolicy.MessageVerdict` | reclaim/policy/rules.py:377-740 | a message is denied iff any record is ungranted or withdrawn, the channel's first record does not cover the purpose, list, language, hours, caps, template or text forbid it, or it is held or done already, all over the payer's own fields; otherwise allowed, never for approval |
| `ShippedPolicy.DebitRecord` | reclaim/policy/rules.py:248-463 | the ruling on a debit records four verdicts, each by its denying or permissive rule according to the fields, and tier T2 exactly above the ceiling |
| `ShippedPolicy.MessageRecord` | reclaim/policy/rules.py:377-740 | the ruling on a message records six, likewise |
| `ShippedPolicy.HoldsGateMeaning` | reclaim/policy/facts.py:214-246 | on the built facts the holds gate fires iff a hold is open, a record on any channel is ungranted or withdrawn, or the case is in a cohort or an incident of ours |
| `ShippedPolicy.ConsentGateMeaning` | reclaim/policy/facts.py:288-325 | the consent gate fires iff the payer asked to stop anywhere, is listed, speaks another language, or the first record on the channel is not granted, withdrawn or for another purpose |
| `ShippedPolicy.UsedKeyIsDenied` | reclaim/policy/rules.py:415-453 | evaluating the shipped rules, the engine denies any action whose key is already in the outbox |
| `Diagnosis.DispatchCandidates` | reclaim/diagnosis/deterministic.py:170-183 | the loop computes the primary cause and at most three alternatives, first mention first |
| `Diagnosis.DispatchIsSound` | reclaim/diagnosis/deterministic.py:170-201 | for any taxonomy entry: our own side is never blamed, alternatives are distinct candidates other than the cause, and an unknown cause has none |
| `Diagnosis.DiagnosesAreValid` | reclaim/contracts/case.py:265-305 | every deterministic diagnosis meets the `Diagnosis` constraints |
| `Diagnosis.LiquidityDiagnosis` | reclaim/diagnosis/deterministic.py:277-310 | a liquidity cause comes from exactly three decline classes and is never contested |
| `Diagnosis.DiagnosisByClass` | reclaim/diagnosis/deterministic.py:170-310 | cause, alternatives and confidence for every decline class and risk class |
| `AuditChain.VerifyChain` | reclaim/contracts/audit.py:287-354 | valid iff every link holds, with the last row's hash as head; otherwise the first bad row is named and all before it are fine |
| `AuditChain.AppendKeepsTheChain` | reclaim/contracts/audit.py:357-374 | an append succeeds iff the body is acceptable and the tail does not hash to genesis; it keeps the chain valid, and the tail alone gives the same row as the whole log |
| `AuditChain.BodyValidExactly` | reclaim/contracts/audit.py:222-248 | a body is refused exactly for a repeated rule id, or a tool call under a key or case not its own |
| `AuditChain.RowValidExactly` | reclaim/contracts/audit.py:249-265 | the first row, and no other, points at the genesis value |
| `AuditChain.PrefixIsAChain` | reclaim/contracts/audit.py:287-354 | a prefix of a valid log is valid: nothing inside shows a cut tail |
| `AuditChain.SameHeadSameLog` | reclaim/contracts/audit.py:186-201 | two valid logs with one head are equal row for row, or the walk back returns two different rows with one hash |
| `ChainVerifier.AttributeReadFailure` | reclaim/spine/verify.py:197-266 | the first unreadable row is named, as tampered iff only its claimed hash disagrees |
| `ChainVerifier.FirstColumnDivergence` | reclaim/spine/verify.py:269-292 | the first row whose columns differ from its document, or none iff all mirror it |
| `ChainVerifier.VerifyDatabaseChain` | reclaim/spine/verify.py:295-376 | the report for every state of the stored table, with and without a pinned head |
| `ChainVerifier.ReadExactly` | reclaim/spine/verify.py:220-292 | when a stored document is read, when it is read without its claimed hash, and when the three columns mirror it |
| `ChainVerifier.VerifiedExactly` | reclaim/spine/verify.py:295-386 | the verdict is success iff the table is non-empty, parses, links, mirrors its columns and ends at the pin; the exit code is 0 then, 2 for an empty table and 1 otherwise |
| `ChainVerifier.HonestLogVerifies` | reclaim/spine/verify.py:295-376 | storing a valid log and verifying it against its own head succeeds |
| `ChainVerifier.PinnedHeadCatchesEverything` | reclaim/spine/verify.py:345-354 | any table that verifies against the pinned head of a log holds exactly that log, or exhibits a collision |
| `ChainVerifier.EditedRowIsNamed` | reclaim/spine/verify.py:197-266 | editing one row under its old claimed hash is ROW_TAMPERED or ROW_UNREADABLE at that row, or a collision |
| `ChainVerifier.RehashedRowBreaksTheNextLink` | reclaim/spine/verify.py:295-376 | editing and re-hashing a non-last row is BROKEN_LINK at its successor, or a collision |
| `ChainVerifier.DeletedRowLeavesAGap` | reclaim/spine/verify.py:295-376 | deleting a non-last row is SEQUENCE_GAP |
| `ChainVerifier.CutTailNeedsThePin` | reclaim/spine/verify.py:345-354 | a cut tail verifies unpinned and is HEAD_MISMATCH when pinned, or a collision |
| `Outbox.EnqueueKeepsTheQueueGood` | reclaim/spine/outbox.py:106-147 | a known key changes nothing, a second debit of an obligation and attempt is refused, and otherwise exactly one pending row is added, given column by column; ids, keys and debits stay distinct |
| `Outbox.ClaimTakesTheOldest` | reclaim/spine/outbox.py:150-179 | a claim returns the pending row with the least id and marks only that row, and nothing iff nothing is pending |
| `Outbox.FinishExactly` | reclaim/spine/outbox.py:182-208 | a success leaves the named row done with its digest or none, a failure leaves it failed with its error, and no other row changes |
| `Outbox.HandedOutInOrderAndOnce` | reclaim/spine/outbox.py:106-208 | over any run of enqueues, claims and marks the ids handed to workers strictly increase |
| `QueueRuns.SystemRunIsAQueueRun` | reclaim/spine/outbox.py:106-208 | every run of the whole system is, on the outbox, a run of enqueues, claims and marks with the same handouts |
| `QueueRuns.NoActionIsHandedOutTwice` | reclaim/spine/outbox.py:150-179 | in any interleaving of the system no action is handed out twice |
| `QueueRuns.EveryReachedLogIsHonest` | reclaim/spine/audit_store.py:42-74 | the log any run leaves is one the stored-log verifier accepts |
| `Spine.OpenKeepsLedgerGood` | reclaim/spine/ledger.py:142-196 | opening succeeds iff the case is valid, just detected, new, on a known obligation without a live case, and the log can grow; it keeps every ledger invariant |
| `Spine.TransitionExactly` | reclaim/spine/case_machine.py:41-98 | a transition is accepted iff the case exists, the edge is allowed, the fields fit and the log can grow; it changes that one case and adds one row |
| `Spine.TransitionKeepsLedgerGood` | reclaim/spine/case_machine.py:41-115 | it keeps one live case per obligation, validity, and the case's history as a walk from `detected` with one audit row per edge |
| `Spine.TransitionWrites` | reclaim/spine/case_machine.py:69-98 | what an accepted transition writes, column by column: the case in its new state with the passed fields, and one row naming the move |
| `Spine.OpenWrites` | reclaim/spine/ledger.py:173-196 | what opening writes: the case as given and one row |
| `Spine.UpsertExactly` | reclaim/spine/ledger.py:102-124 | ingest succeeds iff what was paid and credited fits the gross, and writes that one row |
| `FlowSafety.MoveKeepsGood` | reclaim/spine/case_machine.py:62-98 | any accepted move, by anyone, keeps the whole invariant and touches one case |
| `FlowSafety.CarryOutKeepsGood` | reclaim/flow.py:908-954 | enqueue, plan, record, schedule: one new outbox row, one action row under its key, the case scheduled, every invariant kept |
| `FlowSafety.ParkKeepsGood` | reclaim/flow.py:833-905 | an action awaiting approval is not enqueued; the case is parked and every invariant kept |
| `FlowSafety.JudgeKeepsGood` | reclaim/flow.py:656-806 | what the step does is exactly what the shipped policy rules on the ledger as it stands |
| `FlowSafety.RoutedKeepsGood` | reclaim/flow.py:572-806 | a completed step of a routing arm found the case `detected`, touched only it, and left it with a human when nothing was proposed and otherwise where the ruling sends it |
| `AgentStep.ProposalExactly` | reclaim/flow.py:295-496 | nothing is proposed exactly for the listed causes and blank or uncontested diagnoses; otherwise the one action of the cause: H2 credential update, H3 re-authorisation, H4 AFA completion, H9 reminder, H1 a debit, below the floor a failure notice or a reminder; with channel by segment, template, slots, rail, delay of a day and attempt two |
| `AgentStep.ReadingExactly` | reclaim/flow.py:515-550 | the facts are asked of the payer's own consent and holds, and of the outbox as it stands: debits of the obligation, messages of the case, whether the key is there |
| `AgentStep.RoutedExactly` | reclaim/flow.py:572-954 | everything a completed step of A3 or A4 does: the right action or none, the ruling on the fields read, the case record, the outbox row, every log row with its inputs and rules in order, and the result |
| `AgentStep.LeftAloneExactly` | reclaim/flow.py:581-633 | the other arms: one log row of the right kind, nothing moved, and the result |
| `Justification.ProposalsRespectTheDiagnosis` | reclaim/flow.py:387-496 | nothing is proposed for an unknown or nudge-forbidding cause; below the floor only a contested diagnosis yields a contact, never a debit, and no reminder while a cause on the table forbids one |
| `Justification.AllowedDebitIsJustified` | reclaim/flow.py:348-412 | every debit the step enqueues is the one-time card debit of the case's own amount, a day later, as attempt two, for a liquidity cause at or above the floor, no alternatives, a soft class, within the AFA ceiling, debt outstanding, no open hold, no withdrawn record, fewer than three queued |
| `Justification.AllowedMessageIsJustified` | reclaim/policy/facts.py:179-349 | every message it enqueues is the one the diagnosis calls for, inside the governing hours, its channel's first record granted, not withdrawn and for its purpose, none withdrawn on any channel, no open hold, template registered, text clean, strictly below both caps |
| `Justification.OnlyTheAgentProposes` | reclaim/flow.py:908-935 | no operation but the agent step changes the proposals in the outbox; that step adds at most one, justified, for the case it schedules |
| `Justification.EveryQueuedActionWasJustified` | reclaim/flow.py:760-806 | the k-th row of any reached outbox was added as the k-th by a step of the run that routed the row's own case from `detected` to `scheduled`, and the action was justified for that case on the ledger that step ran on |
| `Justification.QueuedOnce` | reclaim/flow.py:760-806 | by one step of the run only |
| `Resolution.ResolveExactly` | reclaim/sim/outcomes.py:340-780 | everything a completed resolution does: the lane by arm and state, the response row, each move in order with its event, the final record with its stop reason, and the outcome with its contacts and money; a debit not recovered stops or backs off by decline class |
| `Outcomes.ResolveIsNeverIllegal` | reclaim/sim/outcomes.py:506-604 | on any good ledger only the log can refuse; the step keeps every invariant, reports what the ledger says, and settles the case for later passes |
| `Outcomes.LegalWalkIsTaken` | reclaim/sim/outcomes.py:661-780 | a walk of allowed edges is taken to its end, one case touched |
| `Outcomes.StepsAreLegal` | reclaim/sim/outcomes.py:607-780 | whatever the lane, the state and the draw, the walk uses allowed edges and brings exactly the fields each needs |
| `Outcomes.MoneyAndStateAgree` | reclaim/sim/outcomes.py:607-780 | money that arrived ends the case recovered, or stopped where no such edge exists, or finds it over; otherwise no case becomes recovered |
| `Outcomes.BatchIsNeverIllegal` | reclaim/sim/outcomes.py:809-823 | a pass over any cases of any good ledger completes unless the log refuses, and settles them all |
| `Outcomes.SecondPassWritesNothing` | reclaim/sim/outcomes.py:340-416 | a second pass, in any order and with any draws, writes nothing and reports every case as not simulated |
| `Outcomes.TallyByArm` | reclaim/sim/outcomes.py:788-806 | one tally for each arm that occurs, each the sum over that arm's outcomes |
| `Outcomes.TalliesPartition` | reclaim/sim/outcomes.py:788-806 | every figure of the batch is the sum over the arms |
| `Outcomes.RecoveredWithinSimulatedWithinTotal` | reclaim/sim/outcomes.py:788-806 | recovered <= simulated at risk <= total at risk, in cases and in money, for every arm |
| `Runs.EveryReachedLedgerIsGood` | reclaim/flow.py:572-975 | in every interleaving every reached ledger satisfies all the invariants, including at most one action per case |
| `Runs.EarlierLedgersAreKept` | reclaim/spine/case_machine.py:41-98 | every earlier ledger of a run is contained in every later one: log prefix, same proposals, frozen case fields, unchanged terminal cases |
| `Runs.NoRunDoublesADebit` | reclaim/invariants.py:330-408 | no run leaves two debit rows, whatever became of them, with one key or one obligation and attempt |
| `Runs.NoRunMispairsAnAction` | reclaim/invariants.py:416-505 | on every reached ledger each queued action has exactly one audit row and the other way round: what check #8 calls a violation never holds |
| `Runs.CheckAnyRun` | reclaim/invariants.py:330-505 | the two checkers, run over the tables any run leaves, report HOLDS, or VACUOUS when they have nothing to look at, name nobody, and #8 does not raise |
| `BatchRuns.OpeningExtendsTheBatch` | reclaim/spine/ledger.py:142-196 | opening one more case of a fresh batch gives a fresh batch |
| `BatchRuns.IntakeBuildsAFreshBatch` | reclaim/spine/seed.py:247-284 | after any run of ingests and openings from the empty ledger, refused ones included, the cases it opened are a fresh batch |
| `BatchRuns.RunLooksAfterEveryCase` | reclaim/flow.py:957-975 | after a completed run over a fresh batch every live case has one queued action, a human owner or a logged decision: check #9 is never violated |
| `BatchRuns.RunAndResolveLookAfterEveryCase` | reclaim/sim/outcomes.py:661-823 | and the same after the simulator has resolved any of its cases |
| `BatchRuns.CheckFinishedRun` | reclaim/invariants.py:514-619 | checker #9 over the tables left by intake and a completed run over every case it opened reports no violation |
| `Completion.RulingCanBeRecorded` | reclaim/contracts/audit.py:222-264 | the engine never reports a rule twice, so its evaluation passes the audit row's validators |
| `Completion.RunCompletes` | reclaim/flow.py:957-975 | every fresh batch is processed to the end, whatever the world and the thresholds, when no audit row hashes to the genesis value |
| `InvariantChecks.CheckNoDoubleDebit` | reclaim/invariants.py:330-408 | over the outbox itself: violated iff two debit rows of any status share a key or their envelope's obligation and attempt, naming exactly the cases of such rows; vacuous iff there is no debit row |
| `InvariantChecks.CheckActionAuditPairing` | reclaim/invariants.py:416-505 | over outbox and log: violated iff some row has not exactly one keyed log row, shares its key, or some keyed log row was never queued, naming exactly those cases; raises iff that names nobody; vacuous iff nothing is queued or keyed |
| `InvariantChecks.CheckNoOrphanedLiveCase` | reclaim/invariants.py:514-619 | violated iff some live case has neither exactly one open row nor, with none, a human state or a logged decision to leave it alone, naming exactly those; vacuous iff no live case has an open row otherwise |
| `RecoveryCheck.CheckRecoveryWithinAmountOwed` | reclaim/invariants.py:627-753 | violated iff some obligation is over-collected by either reading, naming the recovered cases of exactly those, or the obligations when there are none |
| `RecoveryCheck.OneRecoveryPerObligationSuffices` | reclaim/invariants.py:627-668 | with one recovered case per obligation, none above the debt and nothing over-settled, no obligation is over-collected |
| `RecoveryRuns.OneDebtRecoveredTwice` | reclaim/invariants.py:632-636 | opening and recovering two cases on one debt, one after the other, is a run; when together they claim more than the debt, it ends in a ledger that violates #6 |
| `RecoveryRuns.LiveCasesCanRecover` | reclaim/contracts/enums.py:471-510 | from any reached ledger any live case can be brought to `recovered` by allowed moves |
| `RecoveryRuns.GuardedRunsNeverOverCollect` | reclaim/spine/ledger.py:102-196 | a run in which every opening and ingest that commits passes the guard never violates #6, whatever else happens in it |
| `RecoveryRuns.StepKeepsRoomExactlyWhenItFits` | reclaim/spine/ledger.py:102-196 | one committed operation leaves room for all live claims if and only if it passes the guard |
| `RecoveryRuns.WithoutRoomMovesOverCollect` | reclaim/invariants.py:632-636 | from any reached ledger without room, allowed moves alone lead to a violation of #6 |
| `RecoveryRuns.RoomIsExact` | reclaim/invariants.py:628-660 | a reached ledger has room for all its live claims if and only if no guarded continuation of its run violates #6 |
| `RecoveryRuns.GuardIsExact` | reclaim/spine/ledger.py:102-196 | on a reached ledger with room, a committed operation passes the guard if and only if no guarded continuation after it violates #6 |
| `RecoveryRuns.CheckRecoveries` | reclaim/invariants.py:628-738 | checker #6 over the tables any run leaves, read in id order, is VIOLATED iff some obligation has more recognised than it owes and something recovered; settled money never exceeds the gross |
| `SpineStore.Store.Append` | reclaim/spine/audit_store.py:42-61 | the row built from the tail alone is the specified one and the log is only extended; a refusal writes nothing |
| `SpineStore.Store.UpsertObligation` | reclaim/spine/ledger.py:102-124 | an obligation settled beyond its gross is refused and nothing is written; otherwise it is inserted or overwritten and no other table changes |
| `SpineStore.Store.OpenCase` | reclaim/spine/ledger.py:142-196 | the new tables, or the reason for refusal; a refusal before the first write leaves every table alone |
| `SpineStore.Store.Rebuild` | reclaim/spine/case_machine.py:101-115 | overwriting the passed fields one by one and validating gives the specified case or refusal |
| `SpineStore.Store.Transition` | reclaim/spine/case_machine.py:41-98 | the three checks in order, then the case row and the audit row; a rejected call writes nothing |
| `SpineStore.Store.ListAtRisk` | reclaim/spine/ledger.py:207-214 | exactly the non-terminal cases, strictly ordered by id |
| `SpineStore.Store.ListAwaitingApproval` | reclaim/spine/ledger.py:217-230 | exactly the parked cases, strictly ordered by id |
| `SpineStore.Store.Enqueue` | reclaim/spine/outbox.py:106-147 | key lookup, clash lookup and insert give the specified queue, row or refusal |
| `SpineStore.Store.Claim` | reclaim/spine/outbox.py:150-179 | scanning for the least pending id and setting its status gives the specified claim |
| `SpineStore.Store.MarkDone` | reclaim/spine/outbox.py:182-196 | that row is done with the digest given, or with none, and nothing else changes |
| `SpineStore.Store.MarkFailed` | reclaim/spine/outbox.py:199-208 | the row with that id is failed with its error, and no other row changes |
| `SpineStore.Store.OutboxCounts` | reclaim/flow.py:515-541 | the debits of the obligation and the contacts of the case in the outbox |
| `Agent.ProcessCase` | reclaim/flow.py:572-806 | written one table at a time, the step reaches the ledger, result or failure of the specified step, which `AgentStep.RoutedExactly` and `AgentStep.LeftAloneExactly` tell in full |
| `Agent.Allow` | reclaim/flow.py:908-954 | the four writes of an allowed action, in order |
| `Agent.AwaitApproval` | reclaim/flow.py:833-905 | the three writes of a parked action, in order |
| `Agent.Run` | reclaim/flow.py:957-975 | the batch in the order given, all of it or none of it |
| `Simulator.Apply` | reclaim/sim/outcomes.py:661-780 | the transitions of each lane, in order, are the specified walk |
| `Simulator.RecordSelfHeal` | reclaim/sim/outcomes.py:607-658 | recovered if the table has the edge, else stopped as already paid, else left |
| `Simulator.ResolveCase` | reclaim/sim/outcomes.py:506-604 | written one row at a time, the resolution reaches the specified ledger and outcome, which `Resolution.ResolveExactly` tells in full |
| `Simulator.ResolveBatch` | reclaim/sim/outcomes.py:809-823 | the whole batch in one transaction, with its per-arm tallies |
| `Experiment.BlocksAreExact` | reclaim/contracts/experiment.py:301-312 | the divisor splits every weight and the thousand without remainder |
| `Experiment.BlockSizeIsTheSmallestExact` | reclaim/contracts/experiment.py:301-312 | a block of m cases can hold the declared ratios exactly iff m is a multiple of the block size |
| `Shuffling.ShuffleInPlace` | reclaim/contracts/experiment.py:376-395 | the in-place loop with its cursor and refills performs the specified swaps: position i takes the i-th four-byte word of the stream, none used twice; the items are permuted |
| `Shuffling.ShuffleIsTraced` | reclaim/contracts/experiment.py:376-395 | the shuffle is a chain of exchanges: step s swaps the last open place with the one named by the s-th big-endian word of the hash chain, modulo the places left |
| `Shuffling.OneShuffle` | reclaim/contracts/experiment.py:376-395 | the bytes decide the order |
| `Shuffling.ShuffleIsAPermutation` | reclaim/contracts/experiment.py:376-395 | whatever the choices, nothing is lost or duplicated |
| `Shuffling.NoOrderIsReachedTwice` | reclaim/contracts/experiment.py:376-395 | different choices give different orders of distinct items |
| `Shuffling.EveryOrderIsReached` | reclaim/contracts/experiment.py:376-395 | every order of the items is reached by some choices |
| `BlockAssignment.BlockPattern` | reclaim/contracts/experiment.py:367-373 | the pattern has exactly the block size and exactly each arm's copies, arms in their order |
| `BlockAssignment.PatternFollowsTheWalk` | reclaim/contracts/experiment.py:349-373 | place i of the pattern is the arm the cumulative walk gives draw i times the divisor |
| `BlockAssignment.AssignArmBlocked` | reclaim/contracts/experiment.py:398-423 | the answer is the arm at the rank's place of the rank's block, after that block's bytes have shuffled its pattern exchange by exchange; a negative rank is refused |
| `BlockAssignment.EveryPrefixIsBalanced` | reclaim/contracts/experiment.py:367-423 | for every prefix n: abs(B * count - n * k) <= k * (B - k), and exact at block boundaries, whatever the bytes |
| `DrawnOrders.DrawnRanksAreBalanced` | reclaim/contracts/experiment.py:367-423 | the same bound for the arms any run of ranks draws |
| `DrawnOrders.OneArm` | reclaim/contracts/experiment.py:398-423 | a rank draws one arm only |
| `DrawnOrders.AnyOrderCanBeDrawn` | reclaim/contracts/experiment.py:376-423 | for every block and every order of its arms there are 32-byte seeds and a hash under which its ranks receive exactly that order |
| `BlockAssignment.AssignArm` | reclaim/contracts/experiment.py:349-364 | the walk always stops, at the one arm whose half-open interval of thousandths holds the draw |
| `Metrics.RoundIsNearest` | reclaim/contracts/units.py:76-79 | half-up rounding is within one half, away from zero at ties, and odd |
| `Metrics.StratumWeightedIncrementalRecovery` | reclaim/contracts/metrics.py:677-735 | the loop gives the first reason for refusal in the program's order, or the estimate that `Metrics.PointIsClose` and `Metrics.RateIsClose` bound |
| `Metrics.PointIsClose` | reclaim/contracts/metrics.py:579-735 | for non-negative weights and positive total the reported point is within 1.5e-6 of the total plus half a paisa of the sum, over strata, of weight times (gross less cost over money at risk, treatment less control), read off the inputs |
| `Metrics.RateIsClose` | reclaim/contracts/metrics.py:579-735 | the reported delta times the total is within 1.5e-6 of the total of the same figure |
| `Metrics.AcceptedExactly` | reclaim/contracts/metrics.py:677-725 | the call answers exactly for non-empty strata, a non-zero total, entries filed under declared strata with two different arms and money on both sides, and one pair of arms |
| `Metrics.WeightsSumToOneExactlyWhenAllIsCompared` | reclaim/contracts/metrics.py:677-735 | the shares sum to one iff the compared strata hold all the declared money |
| `Metrics.UncomparedStratumDilutes` | reclaim/contracts/metrics.py:696-725 | whatever is accepted stays accepted when any further stratum is declared that nobody compared, and the delta reported is then the weighted delta scaled by exactly the share of the money the others hold |
| `Metrics.AsMuchUncomparedHalves` | reclaim/contracts/metrics.py:696-725 | as much money again in such a stratum halves the delta |
| `Metrics.TotalAmountAtRisk` | reclaim/contracts/metrics.py:489-508 | refused iff one obligation appears at two amounts; otherwise each obligation counts once |

## Left out

- SQLAlchemy, engines, dialects, DDL, JSON text and model coercion: tables are maps and sequences, validators are predicates, UNIQUE constraints and foreign keys are refusals.
- SHA-256, canonical JSON and the derivation of idempotency keys: arbitrary functions. Audit rows carry the dictionary behind `inputs_digest` rather than its digest, without fact bundles or prose.
- AuditChain.VerifyChain: does not re-hash each row against its own `row_hash`, because that hash is derived from the row in the contract and cannot differ; the stored claim is checked in `ChainVerifier`.
- Outbox.ClaimTakesTheOldest: models the claim as one atomic step, because its read, compare-and-set and re-read are only meaningful under row locking or serialised writes; timestamps of the worker lifecycle are not kept.
- SpineStore.Store.Transition: the fields a caller may pass are the four that callers do pass (`stop_reason`, `stopped_at`, `active_plan_id`, `active_diagnosis_id`).
- Outcomes.ResolveIsNeverIllegal: the simulator's probabilities, uplifts and draw hash are replaced by an arbitrary boolean per call, so the hedge discount and the recorded probability do not appear.
- Metrics.PointIsClose: exact real arithmetic with half-up quantisation where the code quantises; the 28-digit Decimal context is not modelled. Cost breakdowns enter as one number.
- BlockAssignment.AssignArm: takes the draw in thousandths as an input; salts, case-id validation, `verify_assignment` and the pre-registration digest are not modelled.
- Time zones, daylight saving and `contact_window_end`: the local hour and date are inputs; the half-open window test and the choice of governing window are modelled.
- Parameters of the eleven action verbs the router never proposes; plans, evidence references, claims and reasoning summaries.
- Audit rows: the dictionary of an opened case keeps only its id, that of a move no list of passed fields, that of a hedge no confidence, that of an approval no tier or verb, that of an outcome no probability or draw.
- The descriptive fields of a case result (arm, segment, amounts, cause, confidence, verb, channel, effect, deciding rule, tier, reason): the result has the case, the time, the outcome, the hedge flag, the outbox row and the final state.
- The stand-in consent and hold generators: consent and holds are arbitrary functions instead.
- The stubbed checks #2, #3, #4, #5, #7 and #10, candidate detail texts, and the sorting of reported case ids (they are sets here).
- Bootstrap intervals, p-values, the other rates, the guardrail, scoreboard rendering, demos and command-line code.
