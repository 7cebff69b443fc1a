/**
 Runs of the whole system: any interleaving of ingest, detection, agent steps, human and
 simulator moves and outbox workers, where an operation that raises is rolled back.
 */
module Runs {
  import opened Wrappers
  import opened Vocabulary
  import opened Actions
  import opened Cases
  import opened Parties
  import opened PolicyRules
  import opened ShippedPolicy
  import opened AuditChain
  import opened Spine
  import opened Flow
  import opened FlowSafety
  import opened Outcomes
  import opened Grouping
  import opened InvariantChecks
  import Outbox

  datatype Op =
    | Upsert(obligation: Obligation)
    | Open(opening: RiskCase, opener: ActorType, openedAt: Instant)
    | Move(moving: CaseId, to: CaseState, updates: FieldUpdates, actor: ActorType, event: EventType, at: Instant)
    | Process(ruleThresholds: Thresholds, thresholds: Thresholds, given: RiskCase)
    | Resolve(resolving: CaseId, moneyArrived: bool)
    | ClaimNext(worker: Outbox.Worker)
    | Mark(marking: nat, report: Outbox.Report)

  /** The ledger an operation commits, or why it raises. */
  function Attempt(env: Env, db: DB, op: Op): Result<DB, SpineError> {
    match op
    case Upsert(o) => UpsertObligation(db, o)
    case Open(c, actor, at) => OpenCase(env, db, c, actor, at)
    case Move(id, to, u, actor, event, at) => Transition(env, db, id, to, u, actor, event, at)
    case Process(tr, t, c) =>
      var done :- ProcessCase(env, Shipped(tr), t, db, c);
      Success(done.0)
    case Resolve(id, money) =>
      var done :- ResolveCase(env, db, id, money);
      Success(done.0)
    case ClaimNext(worker) => Success(db.(outbox := Outbox.Claim(db.outbox, worker).0))
    case Mark(id, report) => Success(db.(outbox := Outbox.Finish(db.outbox, id, report)))
  }

  function Commit(env: Env, db: DB, op: Op): DB {
    match Attempt(env, db, op)
    case Success(db') => db'
    case Failure(_) => db
  }

  function After(env: Env, ops: seq<Op>): DB {
    if ops == [] then EMPTY_DB else Commit(env, After(env, ops[..|ops| - 1]), ops[|ops| - 1])
  }

  // ------------------------------------------------------------ every operation keeps the invariant

  lemma LeaveAloneKeepsGood(env: Env, db: DB, c: RiskCase, at: Instant)
    requires Good(env, db) && LeaveAlone(env, db, c, at).Success?
    ensures var db' := LeaveAlone(env, db, c, at).value.0;
            Good(env, db') && Touches(db, db', c.caseId) && db'.cases == db.cases && db'.outbox == db.outbox
  {
    var event := if ArmSpecOf(c.arm).takesAnyAction then ArmNotRouted else ControlArmNoAction;
    QuietLogKeepsGood(env, db, Note(at, c.caseId, System, event, ArmInputs(c.caseId, c.arm)), c.caseId);
  }

  /** The step kept the invariant, touched one case at most, no terminal one, and only
      added to the outbox. */
  ghost predicate Kept(env: Env, db: DB, db': DB, id: CaseId) {
    && Good(env, db') && Touches(db, db', id)
    && (id in db.cases && !db.cases[id].IsLive() ==> db'.cases[id] == db.cases[id])
    && db.outbox <= db'.outbox
  }

  lemma RoutedIsKept(env: Env, tr: Thresholds, t: Thresholds, db: DB, c: RiskCase, at: Instant)
    requires Good(env, db) && Routed(env, Shipped(tr), t, db, c, at).Success?
    ensures Kept(env, db, Routed(env, Shipped(tr), t, db, c, at).value.0, c.caseId)
  {
    hide Routed, GoodOwing, Proposal, ContextFor, Ruling;
    RoutedKeepsGood(env, tr, t, db, c, at);
  }

  lemma LeftAloneIsKept(env: Env, db: DB, c: RiskCase, at: Instant)
    requires Good(env, db) && LeaveAlone(env, db, c, at).Success?
    ensures Kept(env, db, LeaveAlone(env, db, c, at).value.0, c.caseId)
  {
    LeaveAloneKeepsGood(env, db, c, at);
  }

  lemma ProcessIsKept(env: Env, tr: Thresholds, t: Thresholds, db: DB, c: RiskCase)
    requires Good(env, db) && ProcessCase(env, Shipped(tr), t, db, c).Success?
    ensures Kept(env, db, ProcessCase(env, Shipped(tr), t, db, c).value.0, c.caseId)
  {
    hide Routed, LeaveAlone, GoodOwing;
    if IsRoutingArm(c.arm) {
      RoutedIsKept(env, tr, t, db, c, c.detectedAt + PLANNING_LATENCY);
    } else {
      LeftAloneIsKept(env, db, c, c.detectedAt + PLANNING_LATENCY);
    }
  }

  lemma UpsertKeepsCases(db: DB, o: Obligation)
    requires CasesGood(db) && UpsertObligation(db, o).Success?
    ensures CasesGood(UpsertObligation(db, o).value)
  {
  }

  lemma UpsertKeepsGood(env: Env, db: DB, o: Obligation)
    requires Good(env, db) && UpsertObligation(db, o).Success?
    ensures Good(env, UpsertObligation(db, o).value)
  {
    hide CasesGood, IsWalk, History, RowValid, LinkOk, Outbox.GoodQueue;
    UpsertKeepsCases(db, o);
  }

  lemma KeysOfSameProposals(a: Outbox.Queue, b: Outbox.Queue)
    requires Outbox.SameProposals(a, b)
    ensures Keys(a) == Keys(b)
  {
    forall i | 0 <= i < |a| ensures a[i].key == b[i].key {
      assert Outbox.SameProposal(a[i], b[i]);
    }
  }

  lemma WorkersKeepOneActionPerCase(db: DB, q: Outbox.Queue)
    requires OneActionPerCase(db) && Outbox.SameProposals(db.outbox, q)
    ensures OneActionPerCase(db.(outbox := q))
  {
    forall i | 0 <= i < |q| ensures q[i].caseId == db.outbox[i].caseId {
      assert Outbox.SameProposal(db.outbox[i], q[i]);
    }
  }

  lemma WorkersKeepGood(env: Env, db: DB, q: Outbox.Queue)
    requires Good(env, db) && Outbox.SameProposals(db.outbox, q)
    ensures Good(env, db.(outbox := q))
  {
    Outbox.SameProposalsStayGood(env.world.digest, db.outbox, q);
    KeysOfSameProposals(db.outbox, q);
    WorkersKeepOneActionPerCase(db, q);
  }

  lemma OpenKeepsGood(env: Env, db: DB, c: RiskCase, actor: ActorType, at: Instant)
    requires Good(env, db) && OpenCase(env, db, c, actor, at).Success?
    ensures Good(env, OpenCase(env, db, c, actor, at).value)
    ensures c.caseId !in db.cases
    ensures var db' := OpenCase(env, db, c, actor, at).value;
            db'.outbox == db.outbox && db'.obligations == db.obligations && db'.cases == db.cases[c.caseId := c]
            && db.audit <= db'.audit
  {
    OpenKeepsLedgerGood(env, db, c, actor, at);
    var withCase := db.(cases := db.cases[c.caseId := c]);
    var body := Note(at, c.caseId, actor, CaseOpened, OpenedInputs(c.caseId));
    LogAppends(env, withCase, body);
    QuietRow(db.audit, NextRow(env.hash, db.audit, body));
  }

  /** What holds between a ledger and any later one: the log is append-only, queued
      proposals are never altered or dropped, no case or obligation disappears, a case
      keeps what was frozen at detection, and a terminal case never changes. */
  predicate Grew(a: DB, b: DB) {
    && a.audit <= b.audit
    && |a.outbox| <= |b.outbox| && Outbox.SameProposals(a.outbox, b.outbox[..|a.outbox|])
    && a.obligations.Keys <= b.obligations.Keys
    && a.cases.Keys <= b.cases.Keys
    && (forall id :: id in a.cases ==> SameCase(a.cases[id], b.cases[id]))
    && (forall id :: id in a.cases && !a.cases[id].IsLive() ==> b.cases[id] == a.cases[id])
  }

  lemma GrewTwice(a: DB, b: DB, c: DB)
    requires Grew(a, b) && Grew(b, c)
    ensures Grew(a, c)
  {
    forall i | 0 <= i < |a.outbox| ensures Outbox.SameProposal(a.outbox[i], c.outbox[i]) {
      assert Outbox.SameProposal(a.outbox[i], b.outbox[..|a.outbox|][i]);
      assert Outbox.SameProposal(b.outbox[i], c.outbox[..|b.outbox|][i]);
    }
  }

  lemma ProposalsOfThemselves(q: Outbox.Queue)
    ensures Outbox.SameProposals(q, q[..|q|])
  {
    assert q[..|q|] == q;
  }

  lemma KeptGrows(env: Env, a: DB, b: DB, id: CaseId)
    requires Kept(env, a, b, id)
    ensures Grew(a, b)
  {
    hide GoodOwing;
    ProposalsOfThemselves(a.outbox);
    assert b.outbox[..|a.outbox|] == a.outbox;
  }

  /** What one operation leaves behind. */
  ghost predicate Next(env: Env, a: DB, b: DB) {
    Good(env, b) && Grew(a, b)
  }

  lemma NextOfKept(env: Env, a: DB, b: DB, id: CaseId)
    requires Kept(env, a, b, id)
    ensures Next(env, a, b)
  {
    KeptGrows(env, a, b, id);
  }

  lemma MoveIsNext(env: Env, db: DB, id: CaseId, to: CaseState, u: FieldUpdates,
                   actor: ActorType, event: EventType, at: Instant)
    requires Good(env, db) && Transition(env, db, id, to, u, actor, event, at).Success?
    ensures Next(env, db, Transition(env, db, id, to, u, actor, event, at).value)
  {
    MoveKeepsGood(env, db, id, to, u, actor, event, at, []);
    TerminalExactlyWhenStuck(db.cases[id].state);
    NextOfKept(env, db, Transition(env, db, id, to, u, actor, event, at).value, id);
  }

  lemma ResolveIsNext(env: Env, db: DB, id: CaseId, money: bool)
    requires Good(env, db) && ResolveCase(env, db, id, money).Success?
    ensures Next(env, db, ResolveCase(env, db, id, money).value.0)
  {
    ResolveIsNeverIllegal(env, db, id, money);
    NextOfKept(env, db, ResolveCase(env, db, id, money).value.0, id);
  }

  lemma WorkersAreNext(env: Env, db: DB, q: Outbox.Queue)
    requires Good(env, db) && Outbox.SameProposals(db.outbox, q)
    ensures Next(env, db, db.(outbox := q))
  {
    WorkersKeepGood(env, db, q);
    assert q[..|db.outbox|] == q;
  }

  lemma OpenIsNext(env: Env, db: DB, c: RiskCase, actor: ActorType, at: Instant)
    requires Good(env, db) && OpenCase(env, db, c, actor, at).Success?
    ensures Next(env, db, OpenCase(env, db, c, actor, at).value)
  {
    hide GoodOwing, OpenCase;
    OpenKeepsGood(env, db, c, actor, at);
    ProposalsOfThemselves(db.outbox);
  }

  lemma UpsertIsNext(env: Env, db: DB, o: Obligation)
    requires Good(env, db) && UpsertObligation(db, o).Success?
    ensures Next(env, db, UpsertObligation(db, o).value)
  {
    UpsertKeepsGood(env, db, o);
    ProposalsOfThemselves(db.outbox);
  }

  lemma NothingIsNext(env: Env, db: DB)
    requires Good(env, db)
    ensures Next(env, db, db)
  {
    ProposalsOfThemselves(db.outbox);
  }

  /** Every operation, completed or rolled back, keeps the invariant and only grows the ledger. */
  lemma StepIsNext(env: Env, db: DB, op: Op)
    requires Good(env, db)
    ensures Next(env, db, Commit(env, db, op))
  {
    hide ProcessCase, ResolveCase, Transition, OpenCase, GoodOwing, Grew;
    NothingIsNext(env, db);
    if Attempt(env, db, op).Success? {
      match op
      case Upsert(o) => UpsertIsNext(env, db, o);
      case Open(c, actor, at) => OpenIsNext(env, db, c, actor, at);
      case Move(id, to, u, actor, event, at) => MoveIsNext(env, db, id, to, u, actor, event, at);
      case Process(tr, t, c) =>
        ProcessIsKept(env, tr, t, db, c);
        NextOfKept(env, db, ProcessCase(env, Shipped(tr), t, db, c).value.0, c.caseId);
      case Resolve(id, money) => ResolveIsNext(env, db, id, money);
      case ClaimNext(worker) =>
        Outbox.ClaimKeepsProposals(db.outbox, worker);
        WorkersAreNext(env, db, Outbox.Claim(db.outbox, worker).0);
      case Mark(id, report) =>
        Outbox.FinishKeepsProposals(db.outbox, id, report);
        WorkersAreNext(env, db, Outbox.Finish(db.outbox, id, report));
    }
  }

  /** Safety over whole runs: whatever the interleaving, every reached ledger is good. */
  lemma {:induction false} EveryReachedLedgerIsGood(env: Env, ops: seq<Op>)
    ensures Good(env, After(env, ops))
  {
    hide Commit, GoodOwing;
    if ops == [] {
      EmptyDbIsGood(env);
    } else {
      EveryReachedLedgerIsGood(env, ops[..|ops| - 1]);
      StepIsNext(env, After(env, ops[..|ops| - 1]), ops[|ops| - 1]);
    }
  }

  // ------------------------------------------------------------ no run makes #1 or #8 violated

  /** No run of the producer, in any interleaving, queues two debits with one key, or with
      one obligation and attempt, whatever became of the first. */
  lemma NoRunDoublesADebit(env: Env, ops: seq<Op>)
    ensures var q := After(env, ops).outbox; forall i :: 0 <= i < |q| ==> !Doubled(q, i)
  {
    hide Commit;
    EveryReachedLedgerIsGood(env, ops);
    GoodQueueHasNoDoubles(env.world.digest, After(env, ops).outbox);
  }

  lemma GoodQueueHasNoDoubles(digest: Outbox.ScopeDigest, q: Outbox.Queue)
    requires Outbox.GoodQueue(digest, q)
    ensures forall i :: 0 <= i < |q| ==> !Doubled(q, i)
  {
    forall i, j | 0 <= i < |q| && 0 <= j < |q| && i != j
                  && q[i].actionType == ScheduleDebitType && q[j].actionType == ScheduleDebitType
      ensures !SameAttempt(q[i].envelope, q[j].envelope) && q[i].key != q[j].key
    {
      assert Outbox.ShadowsEnvelope(digest, q[i]) && Outbox.ShadowsEnvelope(digest, q[j]);
      var first, last := if i < j then i else j, if i < j then j else i;
      assert q[first].coordinates != q[last].coordinates && q[first].key != q[last].key;
    }
  }

  lemma {:induction false} AuditPairsFollowTheKeyLog(audit: seq<AuditRow>)
    ensures |AuditPairs(audit)| == |KeyLog(audit)|
    ensures forall i :: 0 <= i < |KeyLog(audit)| ==> AuditPairs(audit)[i].0 == KeyLog(audit)[i]
  {
    if audit != [] {
      AuditPairsFollowTheKeyLog(audit[..|audit| - 1]);
    }
  }

  lemma KeysInStepArePaired(q: Outbox.Queue, audited: seq<(IdempotencyKey, Option<CaseId>)>)
    requires Outbox.DistinctKeys(q)
    requires |audited| == |q| && forall i :: 0 <= i < |q| ==> audited[i].0 == q[i].key
    ensures !Mispaired(q, audited)
  {
    forall i | 0 <= i < |q| ensures !Unpaired(q, audited, i) {
      assert audited[i].0 == q[i].key;
      GroupSize(audited, q[i].key);
    }
    forall j | 0 <= j < |audited| ensures !Orphaned(q, audited, j) {
      assert KeyPairs(q)[j].0 == audited[j].0;
    }
  }

  /** No run makes check #8 report a violation, or raise: every queued action has exactly
      one audit row and one key, and no audit row claims an action that was never queued. */
  lemma NoRunMispairsAnAction(env: Env, ops: seq<Op>)
    ensures !Mismatch(After(env, ops).outbox, After(env, ops).audit)
  {
    hide Commit, Mismatch, Mispaired;
    MismatchExactly(After(env, ops).outbox, After(env, ops).audit);
    EveryReachedLedgerIsGood(env, ops);
    var db := After(env, ops);
    AuditPairsFollowTheKeyLog(db.audit);
    KeysInStepArePaired(db.outbox, AuditPairs(db.audit)) by {
      forall i | 0 <= i < |db.outbox| ensures AuditPairs(db.audit)[i].0 == db.outbox[i].key {
        assert Keys(db.outbox)[i] == KeyLog(db.audit)[i];
      }
    }
  }

  predicate NoDebitQueued(q: Outbox.Queue) {
    forall i :: 0 <= i < |q| ==> q[i].actionType != ScheduleDebitType
  }

  /** The two checkers, run over the tables any run leaves: neither reports a violation
      and #8 does not raise; each is vacuous only when it has nothing to look at. */
  method CheckAnyRun(env: Env, ops: seq<Op>)
    returns (doubles: InvariantResult, pairing: Result<InvariantResult, CheckerRaised>)
    ensures doubles.status == (if NoDebitQueued(After(env, ops).outbox) then Vacuous else InvariantStatus.Holds)
    ensures pairing.Success?
            && pairing.value.status == (if After(env, ops).outbox == [] then Vacuous else InvariantStatus.Holds)
    ensures doubles.offendingCaseIds == {} == pairing.value.offendingCaseIds
  {
    hide After, Commit;
    NoRunDoublesADebit(env, ops);
    NoRunMispairsAnAction(env, ops);
    doubles := CheckNoDoubleDebit(After(env, ops).outbox);
    pairing := CheckActionAuditPairing(After(env, ops).outbox, After(env, ops).audit);
  }

  /** History is never rewritten: every earlier ledger of a run is contained in every later
      one, with the same log prefix, the same proposals and unchanged terminal cases. */
  lemma {:induction false} EarlierLedgersAreKept(env: Env, ops: seq<Op>, n: nat)
    requires n <= |ops|
    ensures Grew(After(env, ops[..n]), After(env, ops))
    decreases |ops|
  {
    hide Commit, Grew, GoodOwing;
    if n == |ops| {
      assert ops[..n] == ops;
      EveryReachedLedgerIsGood(env, ops);
      NothingIsNext(env, After(env, ops));
    } else {
      var before := ops[..|ops| - 1];
      assert before[..n] == ops[..n];
      EarlierLedgersAreKept(env, before, n);
      EveryReachedLedgerIsGood(env, before);
      StepIsNext(env, After(env, before), ops[|ops| - 1]);
      GrewTwice(After(env, ops[..n]), After(env, before), After(env, ops));
    }
  }
}
