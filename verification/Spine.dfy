/**
 The transactional spine: four tables and the single writers of each
 (reclaim/spine/ledger.py, case_machine.py, outbox.py, audit_store.py).
 A raised exception is a `Failure`, and the caller's transaction is then rolled back.
 */
module Spine {
  import opened Wrappers
  import opened Vocabulary
  import opened Actions
  import opened Cases
  import opened Parties
  import opened AuditChain
  import Outbox

  datatype DB = DB(
    obligations: map<ObligationId, Obligation>,
    cases: map<CaseId, RiskCase>,
    outbox: Outbox.Queue,
    audit: seq<AuditRow>)

  const EMPTY_DB := DB(map[], map[], [], [])

  /** What the spine does not compute: the outside world and the row hash. */
  datatype Env = Env(world: World, hash: RowHash)

  datatype SpineError =
    | NotOpenedAsDetected
    | DuplicateActiveCase
    | DuplicateCaseId
    | UnknownObligation
    | InvalidCase
    | InvalidObligation
    | CaseNotFound
    | IllegalTransition
    | DoubleDebitBlocked
    | AuditRejected
    | PolicyRaised

  // ------------------------------------------------------------ writers

  /** A row without an action: no tool call, no key. */
  function Note(at: Instant, id: CaseId, actor: ActorType, event: EventType, inputs: Inputs): Body {
    Body(at, Some(id), actor, event, inputs, None, [], None)
  }

  function Log(env: Env, db: DB, body: Body): Result<DB, SpineError> {
    match Append(env.hash, env.world.digest, db.audit, body)
    case None => Failure(AuditRejected)
    case Some(rows) => Success(db.(audit := rows))
  }

  function UpsertObligation(db: DB, o: Obligation): Result<DB, SpineError> {
    if !o.Valid() then Failure(InvalidObligation) else Success(db.(obligations := db.obligations[o.obligationId := o]))
  }

  predicate HasLiveCase(db: DB, o: ObligationId) {
    exists id :: id in db.cases && db.cases[id].obligationId == o && db.cases[id].IsLive()
  }

  function OpenCase(env: Env, db: DB, c: RiskCase, actor: ActorType, at: Instant): Result<DB, SpineError> {
    if !c.Valid() then Failure(InvalidCase)
    else if c.state != Detected then Failure(NotOpenedAsDetected)
    else if HasLiveCase(db, c.obligationId) then Failure(DuplicateActiveCase)
    else if c.caseId in db.cases then Failure(DuplicateCaseId)
    else if c.obligationId !in db.obligations then Failure(UnknownObligation)
    else Log(env, db.(cases := db.cases[c.caseId := c]), Note(at, c.caseId, actor, CaseOpened, OpenedInputs(c.caseId)))
  }

  /** Three checks, in this order, before anything is written. */
  function Transition(env: Env, db: DB, id: CaseId, to: CaseState, u: FieldUpdates,
                      actor: ActorType, event: EventType, at: Instant): Result<DB, SpineError>
  {
    if id !in db.cases then Failure(CaseNotFound)
    else
      var current := db.cases[id];
      if !CanMove(current.state, to) then Failure(IllegalTransition)
      else if !Overwrite(current, to, u).Valid() then Failure(InvalidCase)
      else
        Log(env, db.(cases := db.cases[id := Overwrite(current, to, u)]),
            Note(at, id, actor, event, MoveInputs(id, current.state, to)))
  }

  function Enqueue(env: Env, db: DB, e: Envelope): Result<(DB, Outbox.OutboxRow), SpineError> {
    match Outbox.Enqueue(env.world.digest, db.outbox, e)
    case None => Failure(DoubleDebitBlocked)
    case Some((q, row)) => Success((db.(outbox := q), row))
  }

  // ------------------------------------------------------------ what every reachable ledger keeps

  predicate CasesGood(db: DB) {
    forall id :: id in db.cases ==>
      db.cases[id].caseId == id && db.cases[id].Valid() && db.cases[id].obligationId in db.obligations
  }

  predicate SharesLive(a: RiskCase, b: RiskCase) {
    a.IsLive() && b.IsLive() && a.obligationId == b.obligationId
  }

  /** At most one live case per obligation. */
  predicate OneLiveCase(db: DB) {
    forall a, b :: a in db.cases && b in db.cases && SharesLive(db.cases[a], db.cases[b]) ==> a == b
  }

  /** The moves of one case, in the order the log records them. */
  function History(audit: seq<AuditRow>, id: CaseId): seq<(CaseState, CaseState)> {
    if audit == [] then []
    else
      History(audit[..|audit| - 1], id) + EdgeIn(audit[|audit| - 1], id)
  }

  function EdgeIn(r: AuditRow, id: CaseId): seq<(CaseState, CaseState)> {
    var inputs := r.body.inputs;
    if inputs.MoveInputs? && inputs.moved == id then [(inputs.from, inputs.to)] else []
  }

  /** Each case got from `detected` to its state along allowed edges, with one audit
      row for each edge and none to spare. */
  ghost predicate HistoryGood(db: DB) {
    forall id: CaseId ::
      if id in db.cases then IsWalk(Detected, History(db.audit, id), db.cases[id].state)
      else History(db.audit, id) == []
  }

  predicate ChainGood(env: Env, db: DB) {
    && ValidChain(env.hash, db.audit)
    && forall i :: 0 <= i < |db.audit| ==> RowValid(env.world.digest, db.audit[i])
  }

  ghost predicate GoodLedger(env: Env, db: DB) {
    && CasesGood(db) && OneLiveCase(db) && HistoryGood(db) && ChainGood(env, db)
    && Outbox.GoodQueue(env.world.digest, db.outbox)
  }

  predicate CanAppend(env: Env, db: DB) {
    db.audit == [] || Head(env.hash, db.audit) != GENESIS_HASH
  }

  lemma EmptyIsGood(env: Env)
    ensures GoodLedger(env, EMPTY_DB)
  {
  }

  // ------------------------------------------------------------ each writer keeps it

  lemma LogAppends(env: Env, db: DB, body: Body)
    requires ChainGood(env, db)
    ensures Log(env, db, body).Success? <==> BodyValid(env.world.digest, body) && CanAppend(env, db)
    ensures Log(env, db, body).Success? ==>
              && Log(env, db, body).value == db.(audit := db.audit + [NextRow(env.hash, db.audit, body)])
              && ChainGood(env, Log(env, db, body).value)
  {
    AppendKeepsTheChain(env.hash, env.world.digest, db.audit, body);
  }

  lemma HistoryGrows(audit: seq<AuditRow>, r: AuditRow, id: CaseId)
    ensures History(audit + [r], id) == History(audit, id) + EdgeIn(r, id)
  {
    assert (audit + [r])[..|audit|] == audit;
  }

  lemma WalkGrows(from: CaseState, walk: seq<(CaseState, CaseState)>, a: CaseState, b: CaseState)
    requires IsWalk(from, walk, a) && CanMove(a, b)
    ensures IsWalk(from, walk + [(a, b)], b)
  {
    assert (walk + [(a, b)])[..|walk|] == walk;
  }

  /** A row that is not a move changes no history. */
  lemma NoteKeepsHistory(db: DB, r: AuditRow)
    requires HistoryGood(db) && !r.body.inputs.MoveInputs?
    ensures HistoryGood(db.(audit := db.audit + [r]))
  {
    hide IsWalk;
    forall id: CaseId ensures History(db.audit + [r], id) == History(db.audit, id) {
      HistoryGrows(db.audit, r, id);
    }
  }

  lemma LogKeepsLedgerGood(env: Env, db: DB, body: Body)
    requires GoodLedger(env, db) && !body.inputs.MoveInputs?
    ensures Log(env, db, body).Success? ==>
              && GoodLedger(env, Log(env, db, body).value)
              && Log(env, db, body).value == db.(audit := db.audit + [NextRow(env.hash, db.audit, body)])
  {
    hide Log, HistoryGood, ChainGood, Outbox.GoodQueue;
    LogAppends(env, db, body);
    NoteKeepsHistory(db, NextRow(env.hash, db.audit, body));
  }

  lemma NoteIsAcceptable(digest: ScopeDigest, at: Instant, id: CaseId, actor: ActorType, event: EventType, inputs: Inputs)
    ensures BodyValid(digest, Note(at, id, actor, event, inputs))
  {
  }

  /** A new case on an obligation without a live one. */
  lemma NewCaseKeepsLedgerGood(env: Env, db: DB, c: RiskCase)
    requires GoodLedger(env, db)
    requires c.Valid() && c.state == Detected && !HasLiveCase(db, c.obligationId)
    requires c.caseId !in db.cases && c.obligationId in db.obligations
    ensures GoodLedger(env, db.(cases := db.cases[c.caseId := c]))
  {
    hide RowValid, ValidChain, Outbox.GoodQueue, c.Valid;
    assert History(db.audit, c.caseId) == [];
  }

  lemma OpenKeepsLedgerGood(env: Env, db: DB, c: RiskCase, actor: ActorType, at: Instant)
    requires GoodLedger(env, db)
    ensures OpenCase(env, db, c, actor, at).Success? <==>
              && c.Valid() && c.state == Detected && !HasLiveCase(db, c.obligationId)
              && c.caseId !in db.cases && c.obligationId in db.obligations && CanAppend(env, db)
    ensures OpenCase(env, db, c, actor, at).Success? ==> GoodLedger(env, OpenCase(env, db, c, actor, at).value)
  {
    hide HistoryGood, CasesGood, OneLiveCase, BodyValid, Outbox.GoodQueue, Log, HasLiveCase;
    var withCase := db.(cases := db.cases[c.caseId := c]);
    var body := Note(at, c.caseId, actor, CaseOpened, OpenedInputs(c.caseId));
    NoteIsAcceptable(env.world.digest, at, c.caseId, actor, CaseOpened, OpenedInputs(c.caseId));
    LogAppends(env, withCase, body);
    if OpenCase(env, db, c, actor, at).Success? {
      NewCaseKeepsLedgerGood(env, db, c);
      LogKeepsLedgerGood(env, withCase, body);
    }
  }

  lemma MovedCaseKeepsTheCases(db: DB, id: CaseId, to: CaseState, u: FieldUpdates)
    requires CasesGood(db) && OneLiveCase(db)
    requires id in db.cases && CanMove(db.cases[id].state, to) && Overwrite(db.cases[id], to, u).Valid()
    ensures var db' := db.(cases := db.cases[id := Overwrite(db.cases[id], to, u)]);
            CasesGood(db') && OneLiveCase(db')
  {
    assert db.cases[id].IsLive();
  }

  lemma MoveFits(db: DB, id: CaseId, to: CaseState, u: FieldUpdates)
    requires CasesGood(db) && id in db.cases && CanMove(db.cases[id].state, to)
    ensures Overwrite(db.cases[id], to, u).Valid() <==> UpdatesFit(db.cases[id], to, u)
  {
    TerminalExactlyWhenStuck(db.cases[id].state);
    RebuildAcceptsExactly(db.cases[id], to, u);
  }

  /** A transition is accepted exactly when the case exists, the edge is in the table,
      the fields fit and the log can grow; it then changes this one case and adds one row. */
  lemma TransitionExactly(env: Env, db: DB, id: CaseId, to: CaseState, u: FieldUpdates,
                          actor: ActorType, event: EventType, at: Instant)
    requires CasesGood(db) && ChainGood(env, db)
    ensures Transition(env, db, id, to, u, actor, event, at).Success? <==>
              id in db.cases && CanMove(db.cases[id].state, to) && UpdatesFit(db.cases[id], to, u) && CanAppend(env, db)
    ensures Transition(env, db, id, to, u, actor, event, at).Success? ==>
              Transition(env, db, id, to, u, actor, event, at).value == Moved(env, db, id, to, u, actor, event, at)
  {
    hide CanMove, UpdatesFit, CasesGood, ValidChain, RowValid, BodyValid, Overwrite, Log;
    if id in db.cases && CanMove(db.cases[id].state, to) {
      MoveFits(db, id, to, u);
      if UpdatesFit(db.cases[id], to, u) {
        NoteIsAcceptable(env.world.digest, at, id, actor, event, MoveInputs(id, db.cases[id].state, to));
        LogAppends(env, db.(cases := db.cases[id := Overwrite(db.cases[id], to, u)]),
                   Note(at, id, actor, event, MoveInputs(id, db.cases[id].state, to)));
      }
    }
  }

  function Given<T>(passed: Option<T>, stored: Option<T>): Option<T> {
    if passed == None then stored else passed
  }

  /** What an accepted transition writes, column by column: one case in its new state with
      the fields that were passed, and one row that names the move and nothing else. */
  lemma TransitionWrites(env: Env, db: DB, id: CaseId, to: CaseState, u: FieldUpdates,
                         actor: ActorType, event: EventType, at: Instant)
    requires CasesGood(db) && ChainGood(env, db) && Transition(env, db, id, to, u, actor, event, at).Success?
    ensures var db' := Transition(env, db, id, to, u, actor, event, at).value;
            && id in db.cases && db'.obligations == db.obligations && db'.outbox == db.outbox
            && var c := db.cases[id];
               && db'.cases == db.cases[id := c.(
                    state := to,
                    activePlanId := Given(u.activePlanId, c.activePlanId),
                    activeDiagnosisId := Given(u.activeDiagnosisId, c.activeDiagnosisId),
                    stopReason := Given(u.stopReason, c.stopReason),
                    stoppedAt := Given(u.stoppedAt, c.stoppedAt))]
               && db'.audit == db.audit + [AuditRow(|db.audit|, if db.audit == [] then 0 else env.hash(db.audit[|db.audit| - 1]),
                    Body(at, Some(id), actor, event, MoveInputs(id, c.state, to), None, [], None))]
  {
    hide CanMove, UpdatesFit, CasesGood, RowValid, BodyValid;
    TransitionExactly(env, db, id, to, u, actor, event, at);
    NextRowOfChain(env, db, Note(at, id, actor, event, MoveInputs(id, db.cases[id].state, to)));
  }

  lemma NextRowOfChain(env: Env, db: DB, body: Body)
    requires ChainGood(env, db)
    ensures NextRow(env.hash, db.audit, body)
         == AuditRow(|db.audit|, if db.audit == [] then 0 else env.hash(db.audit[|db.audit| - 1]), body)
  {
    if db.audit != [] {
      assert LinkOk(env.hash, db.audit, |db.audit| - 1);
    }
  }

  /** Ingest takes an obligation exactly when what was paid and credited fits its gross, and
      writes that one row. */
  lemma UpsertExactly(db: DB, o: Obligation)
    ensures UpsertObligation(db, o).Success? <==> Sum(o.partialPayments) + Sum(o.creditNotes) <= o.grossAmount
    ensures UpsertObligation(db, o).Success? ==>
              UpsertObligation(db, o).value == DB(db.obligations[o.obligationId := o], db.cases, db.outbox, db.audit)
  {
  }

  /** And what opening a case writes. */
  lemma OpenWrites(env: Env, db: DB, c: RiskCase, actor: ActorType, at: Instant)
    requires GoodLedger(env, db) && OpenCase(env, db, c, actor, at).Success?
    ensures var db' := OpenCase(env, db, c, actor, at).value;
            && db'.obligations == db.obligations && db'.outbox == db.outbox && db'.cases == db.cases[c.caseId := c]
            && db'.audit == db.audit + [AuditRow(|db.audit|, if db.audit == [] then 0 else env.hash(db.audit[|db.audit| - 1]),
                 Body(at, Some(c.caseId), actor, CaseOpened, OpenedInputs(c.caseId), None, [], None))]
  {
    hide HistoryGood, CasesGood, OneLiveCase, BodyValid, RowValid, Outbox.GoodQueue, HasLiveCase;
    var withCase := db.(cases := db.cases[c.caseId := c]);
    LogAppends(env, withCase, Note(at, c.caseId, actor, CaseOpened, OpenedInputs(c.caseId)));
    NextRowOfChain(env, withCase, Note(at, c.caseId, actor, CaseOpened, OpenedInputs(c.caseId)));
  }

  /** A legal, well-furnished move can only be refused by the log. */
  lemma OnlyTheLogRefuses(env: Env, db: DB, id: CaseId, to: CaseState, u: FieldUpdates,
                          actor: ActorType, event: EventType, at: Instant)
    requires CasesGood(db) && id in db.cases
    requires CanMove(db.cases[id].state, to) && UpdatesFit(db.cases[id], to, u)
    ensures var r := Transition(env, db, id, to, u, actor, event, at); r.Failure? ==> r.error == AuditRejected
  {
    MoveFits(db, id, to, u);
  }

  function Moved(env: Env, db: DB, id: CaseId, to: CaseState, u: FieldUpdates,
                 actor: ActorType, event: EventType, at: Instant): DB
    requires id in db.cases
  {
    var body := Note(at, id, actor, event, MoveInputs(id, db.cases[id].state, to));
    db.(cases := db.cases[id := Overwrite(db.cases[id], to, u)],
        audit := db.audit + [NextRow(env.hash, db.audit, body)])
  }

  lemma MovedHistory(env: Env, db: DB, id: CaseId, to: CaseState, u: FieldUpdates,
                     actor: ActorType, event: EventType, at: Instant)
    requires HistoryGood(db)
    requires id in db.cases && CanMove(db.cases[id].state, to)
    ensures HistoryGood(Moved(env, db, id, to, u, actor, event, at))
  {
    var db' := Moved(env, db, id, to, u, actor, event, at);
    var row := db'.audit[|db.audit|];
    var from := db.cases[id].state;
    assert db'.audit == db.audit + [row] && row.body.inputs == MoveInputs(id, from, to);
    HistoryGrows(db.audit, row, id);
    WalkGrows(Detected, History(db.audit, id), from, to);
    forall other: CaseId | other != id ensures History(db'.audit, other) == History(db.audit, other) {
      HistoryGrows(db.audit, row, other);
    }
  }

  lemma TransitionKeepsLedgerGood(env: Env, db: DB, id: CaseId, to: CaseState, u: FieldUpdates,
                                  actor: ActorType, event: EventType, at: Instant)
    requires GoodLedger(env, db)
    ensures Transition(env, db, id, to, u, actor, event, at).Success? ==>
              GoodLedger(env, Transition(env, db, id, to, u, actor, event, at).value)
  {
    var r := Transition(env, db, id, to, u, actor, event, at);
    if r.Success? {
      TransitionExactly(env, db, id, to, u, actor, event, at);
      MovedCaseKeepsTheCases(db, id, to, u);
      MovedHistory(env, db, id, to, u, actor, event, at);
      LogAppends(env, db.(cases := db.cases[id := Overwrite(db.cases[id], to, u)]),
                 Note(at, id, actor, event, MoveInputs(id, db.cases[id].state, to)));
    }
  }

  lemma EnqueueKeepsLedgerGood(env: Env, db: DB, e: Envelope)
    requires GoodLedger(env, db)
    ensures Enqueue(env, db, e).Success? ==> GoodLedger(env, Enqueue(env, db, e).value.0)
  {
    Outbox.EnqueueKeepsTheQueueGood(env.world.digest, db.outbox, e);
  }
}
