/**
 Check #6 over whole runs. Unlike #1 and #8 it is not something every run keeps: the ledger
 takes a new case on an obligation whose earlier cases are all over, whatever they have
 recovered. Here is a run that over-collects, the guard on opening and ingest under which
 no run does, and the proof that this guard is exact.
 */
module RecoveryRuns {
  import opened Vocabulary
  import opened Cases
  import opened Parties
  import opened AuditChain
  import opened Spine
  import opened Flow
  import opened FlowSafety
  import opened Outcomes
  import opened InvariantChecks
  import opened RecoveryCheck
  import opened Runs
  import opened Completion
  import SpineStore

  // ------------------------------------------------------------ money on one obligation

  type CaseTable = map<CaseId, RiskCase>

  /** What a case puts on an obligation once recovered and, if `live` ones are counted too,
      what it may still put there. */
  function Claim(c: RiskCase, o: ObligationId, live: bool): Paise {
    if c.obligationId == o && (c.state == Recovered || (live && c.IsLive())) then c.amountAtRisk else 0
  }

  /** The claims of the cases with ids below `n`. */
  function Claims(cases: CaseTable, o: ObligationId, live: bool, n: nat): Paise {
    if n == 0 then 0
    else Claims(cases, o, live, n - 1) + (if n - 1 in cases then Claim(cases[n - 1], o, live) else 0)
  }

  ghost function Bound(ids: set<CaseId>): (n: nat)
    ensures forall id :: id in ids ==> id < n
  {
    if ids == {} then 0
    else
      var id :| id in ids;
      var n := Bound(ids - {id});
      assert forall other :: other in ids ==> other == id || other in ids - {id};
      if id < n then n else id + 1
  }

  /** Money already recognised on the obligation. */
  ghost function RecoveredOnIt(db: DB, o: ObligationId): Paise {
    Claims(db.cases, o, false, Bound(db.cases.Keys))
  }

  /** Money recognised on the obligation or still claimed by a live case on it. */
  ghost function Exposure(db: DB, o: ObligationId): Paise {
    Claims(db.cases, o, true, Bound(db.cases.Keys))
  }

  /** What check #6 calls a violation, read off the tables. */
  ghost predicate OverCollects(db: DB) {
    exists o :: o in db.obligations && Exceeds(db.obligations[o], RecoveredOnIt(db, o))
  }

  /** Even if every live case is recovered in full, nothing is over-collected. */
  ghost predicate HasRoom(db: DB) {
    forall o :: o in db.obligations ==> !Exceeds(db.obligations[o], Exposure(db, o))
  }

  lemma {:induction false} IdsBeyondClaimNothing(cases: CaseTable, o: ObligationId, live: bool, n: nat, m: nat)
    requires n <= m && forall id :: id in cases ==> id < n
    ensures Claims(cases, o, live, m) == Claims(cases, o, live, n)
  {
    if n < m {
      IdsBeyondClaimNothing(cases, o, live, n, m - 1);
    }
  }

  lemma ClaimsOf(cases: CaseTable, o: ObligationId, live: bool, n: nat)
    requires forall id :: id in cases ==> id < n
    ensures Claims(cases, o, live, n) == Claims(cases, o, live, Bound(cases.Keys))
  {
    var b := Bound(cases.Keys);
    if b <= n {
      IdsBeyondClaimNothing(cases, o, live, b, n);
    } else {
      IdsBeyondClaimNothing(cases, o, live, n, b);
    }
  }

  predicate AmountsPositive(cases: CaseTable) {
    forall id :: id in cases ==> cases[id].amountAtRisk > 0
  }

  lemma {:induction false} RecoveredWithinExposure(cases: CaseTable, o: ObligationId, n: nat)
    requires AmountsPositive(cases)
    ensures 0 <= Claims(cases, o, false, n) <= Claims(cases, o, true, n)
  {
    if n > 0 {
      RecoveredWithinExposure(cases, o, n - 1);
    }
  }

  predicate NoLiveCaseOn(cases: CaseTable, o: ObligationId) {
    forall id :: id in cases ==> !(cases[id].obligationId == o && cases[id].IsLive())
  }

  lemma {:induction false} NothingLiveNothingMore(cases: CaseTable, o: ObligationId, n: nat)
    requires NoLiveCaseOn(cases, o)
    ensures Claims(cases, o, true, n) == Claims(cases, o, false, n)
  {
    if n > 0 {
      NothingLiveNothingMore(cases, o, n - 1);
    }
  }

  lemma {:induction false} OneMoreCase(cases: CaseTable, c: RiskCase, o: ObligationId, live: bool, n: nat)
    requires c.caseId !in cases
    ensures Claims(cases[c.caseId := c], o, live, n)
            == Claims(cases, o, live, n) + (if c.caseId < n then Claim(c, o, live) else 0)
  {
    if n > 0 {
      OneMoreCase(cases, c, o, live, n - 1);
    }
  }

  /** Cases keep their obligation and amount, and a finished one stays as it is. */
  predicate OnlyMoved(a: CaseTable, b: CaseTable) {
    && b.Keys == a.Keys
    && forall id :: id in a ==> SameCase(a[id], b[id]) && (!a[id].IsLive() ==> b[id] == a[id])
  }

  lemma {:induction false} MovingClaimsNoMore(a: CaseTable, b: CaseTable, o: ObligationId, n: nat)
    requires OnlyMoved(a, b) && AmountsPositive(a)
    ensures Claims(b, o, true, n) <= Claims(a, o, true, n)
  {
    if n > 0 {
      MovingClaimsNoMore(a, b, o, n - 1);
    }
  }

  /** The one live case on the obligation recovers: its claim becomes recognised money. */
  lemma {:induction false} RecoveringTheLiveCase(cases: CaseTable, x: CaseId, o: ObligationId, n: nat)
    requires x in cases && cases[x].obligationId == o && cases[x].IsLive()
    requires forall id :: id in cases && cases[id].obligationId == o && cases[id].IsLive() ==> id == x
    ensures Claims(cases[x := cases[x].(state := Recovered)], o, false, n) == Claims(cases, o, true, n)
  {
    if n > 0 {
      RecoveringTheLiveCase(cases, x, o, n - 1);
    }
  }

  // ------------------------------------------------------------ what every reached ledger has

  /** Obligations are filed under their own id and were acceptable when written. */
  predicate ObligationsGood(db: DB) {
    forall o :: o in db.obligations ==> db.obligations[o].obligationId == o && db.obligations[o].Valid()
  }

  /** Only ingest writes obligations, only opening adds cases; what else happens moves them. */
  lemma OnlyIntakeAddsRows(env: Env, db: DB, op: Op)
    requires Good(env, db)
    ensures var db' := Commit(env, db, op);
            && (!op.Upsert? ==> db'.obligations == db.obligations)
            && (!op.Open? ==> OnlyMoved(db.cases, db'.cases))
  {
    hide ProcessCase, ResolveCase, Transition, OpenCase, GoodOwing;
    StepIsNext(env, db, op);
    if Attempt(env, db, op).Success? {
      match op
      case Upsert(o) =>
      case Open(c, actor, at) => OpenKeepsGood(env, db, c, actor, at);
      case Move(id, to, u, actor, event, at) => MoveKeepsGood(env, db, id, to, u, actor, event, at, []);
      case Process(tr, t, c) => ProcessIsKept(env, tr, t, db, c);
      case Resolve(id, money) =>
        ResolvingKnownCase(env, db, id, money);
        ResolveIsNeverIllegal(env, db, id, money);
      case ClaimNext(worker) =>
      case Mark(id, report) =>
    }
  }

  lemma {:induction false} EveryObligationIsGood(env: Env, ops: seq<Op>)
    ensures ObligationsGood(After(env, ops))
  {
    hide Commit, GoodOwing;
    if ops != [] {
      var before, op := ops[..|ops| - 1], ops[|ops| - 1];
      EveryObligationIsGood(env, before);
      EveryReachedLedgerIsGood(env, before);
      OnlyIntakeAddsRows(env, After(env, before), op);
      if op.Upsert? {
        UpsertKeepsObligationsGood(env, After(env, before), op);
      }
    }
  }

  lemma UpsertKeepsObligationsGood(env: Env, db: DB, op: Op)
    requires op.Upsert? && ObligationsGood(db)
    ensures ObligationsGood(Commit(env, db, op))
  {
  }

  lemma GoodAmounts(env: Env, db: DB)
    requires Good(env, db)
    ensures AmountsPositive(db.cases) && OneLiveCase(db)
  {
  }

  // ------------------------------------------------------------ the guard

  /** What a caller can check before the call. Opening: what is recognised on the obligation
      and the new amount fit its gross. Ingest: what is recognised or still claimed fits the
      new gross, unless nothing is claimed and nothing settled. */
  ghost predicate Fits(db: DB, op: Op) {
    match op
    case Upsert(o) =>
      var claimed := Exposure(db, o.obligationId);
      claimed <= o.grossAmount || claimed == 0 == o.Settled()
    case Open(c, _, _) =>
      c.obligationId in db.obligations ==>
        RecoveredOnIt(db, c.obligationId) + c.amountAtRisk <= db.obligations[c.obligationId].grossAmount
    case _ => true
  }

  lemma ExceedsWithin(o: Obligation, a: Paise, b: Paise)
    requires 0 <= a <= b && Exceeds(o, a)
    ensures Exceeds(o, b)
  {
  }

  lemma MovesKeepRoom(a: DB, b: DB)
    requires HasRoom(a) && OnlyMoved(a.cases, b.cases) && b.obligations == a.obligations && AmountsPositive(a.cases)
    ensures HasRoom(b)
  {
    forall o | o in b.obligations ensures !Exceeds(b.obligations[o], Exposure(b, o)) {
      var n := Bound(a.cases.Keys);
      MovingClaimsNoMore(a.cases, b.cases, o, n);
      assert AmountsPositive(b.cases);
      RecoveredWithinExposure(b.cases, o, n);
      if Exceeds(b.obligations[o], Exposure(b, o)) {
        ExceedsWithin(b.obligations[o], Exposure(b, o), Exposure(a, o));
      }
    }
  }

  lemma ExposureAfterOpening(db: DB, db': DB, c: RiskCase, o: ObligationId)
    requires c.caseId !in db.cases && db'.cases == db.cases[c.caseId := c] && c.IsLive()
    requires NoLiveCaseOn(db.cases, c.obligationId)
    ensures Exposure(db', o) == if o == c.obligationId then RecoveredOnIt(db, o) + c.amountAtRisk else Exposure(db, o)
  {
    var m, m' := Bound(db.cases.Keys), Bound(db'.cases.Keys);
    var n := if m < m' then m' else m;
    ClaimsOf(db.cases, o, true, n);
    ClaimsOf(db'.cases, o, true, n);
    OneMoreCase(db.cases, c, o, true, n);
    assert c.caseId in db'.cases;
    if o == c.obligationId {
      NothingLiveNothingMore(db.cases, o, m);
    }
  }

  lemma OpeningKeepsRoomExactlyWhenItFits(env: Env, db: DB, c: RiskCase, actor: ActorType, at: Instant)
    requires Good(env, db) && ObligationsGood(db) && HasRoom(db) && OpenCase(env, db, c, actor, at).Success?
    ensures HasRoom(OpenCase(env, db, c, actor, at).value) <==> Fits(db, Op.Open(c, actor, at))
  {
    hide GoodOwing, Exceeds, Exposure;
    var db' := OpenCase(env, db, c, actor, at).value;
    OpenKeepsGood(env, db, c, actor, at);
    assert c.Valid() && c.state == Detected && !HasLiveCase(db, c.obligationId) && c.obligationId in db.obligations;
    hide OpenCase;
    var o := c.obligationId;
    assert NoLiveCaseOn(db.cases, o);
    GoodAmounts(env, db);
    RecoveredWithinExposure(db.cases, o, Bound(db.cases.Keys));
    SomethingRecovered(db.obligations[o], RecoveredOnIt(db, o) + c.amountAtRisk);
    forall k | k in db.obligations
      ensures Exposure(db', k) == if k == o then RecoveredOnIt(db, k) + c.amountAtRisk else Exposure(db, k)
    {
      ExposureAfterOpening(db, db', c, k);
    }
  }

  lemma SomethingRecovered(o: Obligation, recognised: Paise)
    requires o.Valid() && recognised > 0
    ensures Exceeds(o, recognised) <==> recognised > o.grossAmount
  {
  }

  lemma UpsertKeepsRoomExactlyWhenItFits(env: Env, db: DB, o: Obligation)
    requires HasRoom(db) && UpsertObligation(db, o).Success?
    ensures HasRoom(UpsertObligation(db, o).value) <==> Fits(db, Upsert(o))
  {
    var db', id := UpsertObligation(db, o).value, o.obligationId;
    assert forall k :: Exposure(db', k) == Exposure(db, k);
    assert id in db'.obligations && db'.obligations[id] == o;
    assert Exceeds(o, Exposure(db, id)) <==> !Fits(db, Upsert(o));
  }

  /** One committed operation keeps room exactly when it fits. */
  lemma StepKeepsRoomExactlyWhenItFits(env: Env, db: DB, op: Op)
    requires Good(env, db) && ObligationsGood(db) && HasRoom(db) && Attempt(env, db, op).Success?
    ensures HasRoom(Commit(env, db, op)) <==> Fits(db, op)
  {
    hide GoodOwing, HasRoom, OpenCase, UpsertObligation, ProcessCase, ResolveCase, Transition, OnlyMoved;
    if op.Open? {
      OpeningKeepsRoomExactlyWhenItFits(env, db, op.opening, op.opener, op.openedAt);
    } else if op.Upsert? {
      UpsertKeepsRoomExactlyWhenItFits(env, db, op.obligation);
    } else {
      OnlyIntakeAddsRows(env, db, op);
      GoodAmounts(env, db);
      MovesKeepRoom(db, Commit(env, db, op));
    }
  }

  lemma RoomMeansNotOverCollected(env: Env, db: DB)
    requires Good(env, db) && HasRoom(db)
    ensures !OverCollects(db)
  {
    GoodAmounts(env, db);
    forall o | o in db.obligations ensures !Exceeds(db.obligations[o], RecoveredOnIt(db, o)) {
      RecoveredWithinExposure(db.cases, o, Bound(db.cases.Keys));
      if Exceeds(db.obligations[o], RecoveredOnIt(db, o)) {
        ExceedsWithin(db.obligations[o], RecoveredOnIt(db, o), Exposure(db, o));
      }
    }
  }

  // ------------------------------------------------------------ guarded runs

  /** Every operation of `more` that commits, in the run that continues `ops`, fits. */
  ghost predicate Guarded(env: Env, ops: seq<Op>, more: seq<Op>) {
    forall n :: 0 <= n < |more| ==> StepFits(env, After(env, ops + more[..n]), more[n])
  }

  ghost predicate StepFits(env: Env, db: DB, op: Op) {
    Attempt(env, db, op).Success? ==> Fits(db, op)
  }

  lemma AfterOneMore(env: Env, ops: seq<Op>, op: Op)
    ensures After(env, ops + [op]) == Commit(env, After(env, ops), op)
  {
    hide Commit;
    assert (ops + [op])[..|ops|] == ops;
  }

  lemma StepKeepsRoom(env: Env, ops: seq<Op>, op: Op)
    requires HasRoom(After(env, ops)) && StepFits(env, After(env, ops), op)
    ensures HasRoom(After(env, ops + [op]))
  {
    hide HasRoom, Fits, After, GoodOwing, ObligationsGood, Attempt;
    AfterOneMore(env, ops, op);
    EveryReachedLedgerIsGood(env, ops);
    EveryObligationIsGood(env, ops);
    if Attempt(env, After(env, ops), op).Success? {
      StepKeepsRoomExactlyWhenItFits(env, After(env, ops), op);
    }
  }

  lemma {:induction false} GuardedRunsKeepRoom(env: Env, ops: seq<Op>, more: seq<Op>)
    requires HasRoom(After(env, ops)) && Guarded(env, ops, more)
    ensures HasRoom(After(env, ops + more))
    decreases |more|
  {
    hide HasRoom, After, StepFits;
    if more == [] {
      assert ops + more == ops;
    } else {
      var before, op := more[..|more| - 1], more[|more| - 1];
      forall n | 0 <= n < |before| ensures StepFits(env, After(env, ops + before[..n]), before[n]) {
        assert before[..n] == more[..n];
      }
      GuardedRunsKeepRoom(env, ops, before);
      assert ops + more == (ops + before) + [op];
      StepKeepsRoom(env, ops + before, op);
    }
  }

  lemma RoomLastsWhileGuarded(env: Env, ops: seq<Op>, more: seq<Op>)
    requires HasRoom(After(env, ops)) && Guarded(env, ops, more)
    ensures !OverCollects(After(env, ops + more))
  {
    hide HasRoom, After, Guarded, OverCollects, GoodOwing;
    GuardedRunsKeepRoom(env, ops, more);
    EveryReachedLedgerIsGood(env, ops + more);
    RoomMeansNotOverCollected(env, After(env, ops + more));
  }

  lemma EmptyLedgerHasRoom(env: Env)
    ensures HasRoom(After(env, []))
  {
  }

  /** No run whose openings and ingests fit over-collects, whatever else happens in it and
      however often a debt is opened again. */
  lemma GuardedRunsNeverOverCollect(env: Env, ops: seq<Op>)
    requires Guarded(env, [], ops)
    ensures !OverCollects(After(env, ops))
  {
    hide After, HasRoom, Guarded, OverCollects;
    EmptyLedgerHasRoom(env);
    RoomLastsWhileGuarded(env, [], ops);
    assert [] + ops == ops;
  }

  // ------------------------------------------------------------ without room there is a way to over-collect

  /** The next state on a shortest way to recovery. */
  function TowardsRecovery(s: CaseState): CaseState {
    match s
    case Suppressed => Detected
    case Detected => Diagnosing
    case Diagnosing => Escalated
    case Planned => Scheduled
    case AwaitingApproval => Scheduled
    case Scheduled => Executing
    case RetryBackoff => Escalated
    case AwaitingResponse => Escalated
    case _ => Recovered
  }

  function StepsToRecovery(s: CaseState): nat {
    match s
    case Recovered => 0
    case Suppressed => 4
    case Detected => 3
    case Planned => 3
    case AwaitingApproval => 3
    case Diagnosing => 2
    case Scheduled => 2
    case RetryBackoff => 2
    case AwaitingResponse => 2
    case _ => 1
  }

  function MoveOf(id: CaseId, to: CaseState): Op {
    Move(id, to, NO_UPDATES, Human, CaseStateChanged, 0)
  }

  /** Allowed moves that recover the case. */
  function RecoveryMoves(id: CaseId, s: CaseState): (moves: seq<Op>)
    ensures forall n :: 0 <= n < |moves| ==> moves[n].Move?
    decreases StepsToRecovery(s)
  {
    if s.IsTerminal() then []
    else [MoveOf(id, TowardsRecovery(s))] + RecoveryMoves(id, TowardsRecovery(s))
  }

  lemma TheWayIsAllowed(s: CaseState)
    requires !s.IsTerminal()
    ensures CanMove(s, TowardsRecovery(s)) && TowardsRecovery(s) != Stopped && TowardsRecovery(s) != WrittenOff
    ensures StepsToRecovery(TowardsRecovery(s)) < StepsToRecovery(s)
  {
  }

  ghost predicate RecoversTheCase(db: DB, db': DB, id: CaseId) {
    && id in db.cases && db'.obligations == db.obligations
    && db'.cases == db.cases[id := db.cases[id].(state := Recovered)]
  }

  lemma OneStepTowardsRecovery(env: Env, db: DB, id: CaseId)
    requires Good(env, db) && NeverGenesis(env.hash) && id in db.cases && db.cases[id].IsLive()
    ensures var to := TowardsRecovery(db.cases[id].state);
            var db' := Commit(env, db, MoveOf(id, to));
            db'.obligations == db.obligations && db'.cases == db.cases[id := db.cases[id].(state := to)]
  {
    hide Log, History, IsWalk;
    var to := TowardsRecovery(db.cases[id].state);
    TheWayIsAllowed(db.cases[id].state);
    TransitionExactly(env, db, id, to, NO_UPDATES, Human, CaseStateChanged, 0);
  }

  /** From any reached ledger any live case can be recovered by allowed moves. */
  lemma {:induction false} LiveCasesCanRecover(env: Env, ops: seq<Op>, id: CaseId)
    requires NeverGenesis(env.hash)
    requires id in After(env, ops).cases
    requires var s := After(env, ops).cases[id].state; s == Recovered || !s.IsTerminal()
    ensures RecoversTheCase(After(env, ops), After(env, ops + RecoveryMoves(id, After(env, ops).cases[id].state)), id)
    decreases StepsToRecovery(After(env, ops).cases[id].state)
  {
    hide After, Commit, GoodOwing, NeverGenesis;
    var db := After(env, ops);
    var s := db.cases[id].state;
    if s == Recovered {
      assert ops + [] == ops;
    } else {
      var to := TowardsRecovery(s);
      TheWayIsAllowed(s);
      EveryReachedLedgerIsGood(env, ops);
      OneStepTowardsRecovery(env, db, id);
      AfterOneMore(env, ops, MoveOf(id, to));
      var next := ops + [MoveOf(id, to)];
      LiveCasesCanRecover(env, next, id);
      assert next + RecoveryMoves(id, to) == ops + RecoveryMoves(id, s);
    }
  }

  /** Without room, moves of one case at most lead to a ledger that over-collects. */
  lemma WithoutRoomMovesOverCollect(env: Env, ops: seq<Op>) returns (more: seq<Op>)
    requires NeverGenesis(env.hash) && !HasRoom(After(env, ops))
    ensures forall n :: 0 <= n < |more| ==> more[n].Move?
    ensures OverCollects(After(env, ops + more))
  {
    hide After, GoodOwing, NeverGenesis, Exceeds;
    var db := After(env, ops);
    EveryReachedLedgerIsGood(env, ops);
    GoodAmounts(env, db);
    var o :| o in db.obligations && Exceeds(db.obligations[o], Exposure(db, o));
    if NoLiveCaseOn(db.cases, o) {
      NothingLiveNothingMore(db.cases, o, Bound(db.cases.Keys));
      more := [];
      assert ops + more == ops;
    } else {
      var x :| x in db.cases && db.cases[x].obligationId == o && db.cases[x].IsLive();
      more := RecoveryMoves(x, db.cases[x].state);
      LiveCasesCanRecover(env, ops, x);
      OnlyLiveCaseOn(db, x, o);
      ExposureIsRecovered(db, After(env, ops + more), x, o);
    }
  }

  lemma OnlyLiveCaseOn(db: DB, x: CaseId, o: ObligationId)
    requires OneLiveCase(db) && x in db.cases && db.cases[x].obligationId == o && db.cases[x].IsLive()
    ensures forall id :: id in db.cases && db.cases[id].obligationId == o && db.cases[id].IsLive() ==> id == x
  {
    forall id | id in db.cases && db.cases[id].obligationId == o && db.cases[id].IsLive() ensures id == x {
      assert SharesLive(db.cases[id], db.cases[x]);
    }
  }

  lemma ExposureIsRecovered(db: DB, db': DB, x: CaseId, o: ObligationId)
    requires x in db.cases && db.cases[x].obligationId == o && db.cases[x].IsLive()
    requires forall id :: id in db.cases && db.cases[id].obligationId == o && db.cases[id].IsLive() ==> id == x
    requires RecoversTheCase(db, db', x)
    ensures RecoveredOnIt(db', o) == Exposure(db, o)
  {
    assert db'.cases.Keys == db.cases.Keys;
    RecoveringTheLiveCase(db.cases, x, o, Bound(db.cases.Keys));
  }

  lemma MovesAreGuarded(env: Env, ops: seq<Op>, more: seq<Op>)
    requires forall n :: 0 <= n < |more| ==> more[n].Move?
    ensures Guarded(env, ops, more)
  {
    forall n | 0 <= n < |more| ensures StepFits(env, After(env, ops + more[..n]), more[n]) {
      assert more[n].Move?;
    }
  }

  /** Room is exactly what it takes: a reached ledger has room if and only if no guarded
      continuation of its run over-collects. */
  lemma RoomIsExact(env: Env, ops: seq<Op>)
    requires NeverGenesis(env.hash)
    ensures HasRoom(After(env, ops))
            <==> forall more :: Guarded(env, ops, more) ==> !OverCollects(After(env, ops + more))
  {
    hide After, HasRoom, Guarded, OverCollects, NeverGenesis;
    if HasRoom(After(env, ops)) {
      forall more | Guarded(env, ops, more) ensures !OverCollects(After(env, ops + more)) {
        RoomLastsWhileGuarded(env, ops, more);
      }
    } else {
      var more := WithoutRoomMovesOverCollect(env, ops);
      MovesAreGuarded(env, ops, more);
    }
  }

  /** The guard is exact too: on a ledger with room, an operation that commits fits if and
      only if no guarded continuation after it over-collects. */
  lemma GuardIsExact(env: Env, ops: seq<Op>, op: Op)
    requires NeverGenesis(env.hash) && HasRoom(After(env, ops)) && Attempt(env, After(env, ops), op).Success?
    ensures Fits(After(env, ops), op)
            <==> forall more :: Guarded(env, ops + [op], more) ==> !OverCollects(After(env, ops + [op] + more))
  {
    hide After, HasRoom, Fits, Guarded, OverCollects, NeverGenesis, GoodOwing, Attempt, ObligationsGood;
    EveryReachedLedgerIsGood(env, ops);
    EveryObligationIsGood(env, ops);
    AfterOneMore(env, ops, op);
    StepKeepsRoomExactlyWhenItFits(env, After(env, ops), op);
    RoomIsExact(env, ops + [op]);
  }

  // ------------------------------------------------------------ a run that over-collects

  /** Open the case and take it to recovery. */
  function OpenedAndRecovered(c: RiskCase): seq<Op> {
    [Op.Open(c, System, 0)] + RecoveryMoves(c.caseId, Detected)
  }

  /** A case detection may open on the obligation. */
  predicate Detectable(c: RiskCase, o: ObligationId) {
    c.Valid() && c.state == Detected && c.obligationId == o
  }

  lemma OpeningSucceeds(env: Env, db: DB, c: RiskCase)
    requires Good(env, db) && NeverGenesis(env.hash) && Detectable(c, c.obligationId)
    requires c.caseId !in db.cases && c.obligationId in db.obligations && NoLiveCaseOn(db.cases, c.obligationId)
    ensures OpenCase(env, db, c, System, 0).Success?
  {
    OpenKeepsLedgerGood(env, db, c, System, 0);
  }

  lemma OneMoreOpening(env: Env, ops: seq<Op>, c: RiskCase, o: ObligationId)
    requires NeverGenesis(env.hash) && Detectable(c, o)
    requires var db := After(env, ops); c.caseId !in db.cases && o in db.obligations && NoLiveCaseOn(db.cases, o)
    ensures var db, db' := After(env, ops), After(env, ops + [Op.Open(c, System, 0)]);
            && Exposure(db', o) == RecoveredOnIt(db, o) + c.amountAtRisk
            && db'.obligations == db.obligations && db'.cases == db.cases[c.caseId := c]
  {
    hide After, GoodOwing, NeverGenesis, Exposure, RecoveredOnIt, OpenCase;
    var db := After(env, ops);
    EveryReachedLedgerIsGood(env, ops);
    OpeningSucceeds(env, db, c);
    OpenKeepsGood(env, db, c, System, 0);
    AfterOneMore(env, ops, Op.Open(c, System, 0));
    ExposureAfterOpening(db, After(env, ops + [Op.Open(c, System, 0)]), c, o);
  }

  /** An obligation without a live case takes a new one whatever it has already recovered,
      and recovering that case adds its whole amount. */
  lemma OneMoreRecovery(env: Env, ops: seq<Op>, c: RiskCase, o: ObligationId)
    requires NeverGenesis(env.hash) && Detectable(c, o)
    requires var db := After(env, ops); c.caseId !in db.cases && o in db.obligations && NoLiveCaseOn(db.cases, o)
    ensures var db, db' := After(env, ops), After(env, ops + OpenedAndRecovered(c));
            && RecoveredOnIt(db', o) == RecoveredOnIt(db, o) + c.amountAtRisk
            && db'.obligations == db.obligations && db'.cases == db.cases[c.caseId := c.(state := Recovered)]
  {
    hide After, GoodOwing, NeverGenesis, Exposure, RecoveredOnIt, RecoveryMoves, OneLiveCase;
    var next := ops + [Op.Open(c, System, 0)];
    OneMoreOpening(env, ops, c, o);
    LiveCasesCanRecover(env, next, c.caseId);
    EveryReachedLedgerIsGood(env, next);
    GoodAmounts(env, After(env, next));
    OnlyLiveCaseOn(After(env, next), c.caseId, o);
    assert next + RecoveryMoves(c.caseId, Detected) == ops + OpenedAndRecovered(c);
    ExposureIsRecovered(After(env, next), After(env, ops + OpenedAndRecovered(c)), c.caseId, o);
  }

  /** One debt, two cases, one after the other: every operation commits, and if together
      they claim more than the debt the ledger it leaves over-collects. */
  lemma OneDebtRecoveredTwice(env: Env, o: Obligation, first: RiskCase, second: RiskCase)
    requires NeverGenesis(env.hash) && o.Valid() && first.caseId != second.caseId
    requires Detectable(first, o.obligationId) && Detectable(second, o.obligationId)
    requires first.amountAtRisk + second.amountAtRisk > o.grossAmount
    ensures var db := After(env, [Op.Upsert(o)] + OpenedAndRecovered(first) + OpenedAndRecovered(second));
            && db.cases == map[first.caseId := first.(state := Recovered), second.caseId := second.(state := Recovered)]
            && OverCollects(db)
  {
    hide After, GoodOwing, NeverGenesis, RecoveredOnIt;
    var start, id := [Op.Upsert(o)], o.obligationId;
    IngestedAlone(env, o);
    OneMoreRecovery(env, start, first, id);
    OneMoreRecovery(env, start + OpenedAndRecovered(first), second, id);
    SomethingRecovered(o, first.amountAtRisk + second.amountAtRisk);
  }

  lemma IngestedAlone(env: Env, o: Obligation)
    requires o.Valid()
    ensures var db := After(env, [Op.Upsert(o)]);
            && db.obligations == map[o.obligationId := o] && db.cases == map[]
            && RecoveredOnIt(db, o.obligationId) == 0
  {
    AfterOneMore(env, [], Op.Upsert(o));
    assert [] + [Op.Upsert(o)] == [Op.Upsert(o)];
    var db := After(env, [Op.Upsert(o)]);
    assert db.cases == map[];
    ClaimsOf(db.cases, o.obligationId, false, 0);
  }

  // ------------------------------------------------------------ the checker on the tables

  function RowsBelow(cases: CaseTable, n: nat): seq<RiskCase> {
    if n == 0 then [] else RowsBelow(cases, n - 1) + (if n - 1 in cases then [cases[n - 1]] else [])
  }

  lemma {:induction false} RowsRecognise(cases: CaseTable, o: ObligationId, n: nat)
    ensures Recognised(RowsBelow(cases, n), o) == Claims(cases, o, false, n)
  {
    if n > 0 {
      RowsRecognise(cases, o, n - 1);
      if n - 1 in cases {
        OneMoreRow(RowsBelow(cases, n - 1), cases[n - 1]);
      } else {
        assert RowsBelow(cases, n) == RowsBelow(cases, n - 1);
      }
    }
  }

  /** Strictly increasing, and exactly the ids of the table below `n`. */
  predicate ListsBelow(order: seq<CaseId>, cases: CaseTable, n: nat) {
    && (forall i, j :: 0 <= i < j < |order| ==> order[i] < order[j])
    && (forall i :: 0 <= i < |order| ==> order[i] in cases && order[i] < n)
    && (forall id :: id in cases && id < n ==> id in order)
  }

  function RowsOf(cases: CaseTable, order: seq<CaseId>): seq<RiskCase>
    requires forall i :: 0 <= i < |order| ==> order[i] in cases
  {
    seq(|order|, i requires 0 <= i < |order| => cases[order[i]])
  }

  lemma GreatestIsLast(order: seq<CaseId>, cases: CaseTable, n: nat)
    requires n > 0 && n - 1 in cases && ListsBelow(order, cases, n)
    ensures order != [] && order[|order| - 1] == n - 1
  {
    var k :| 0 <= k < |order| && order[k] == n - 1;
    assert order[k] <= order[|order| - 1];
  }

  lemma RestListsBelow(order: seq<CaseId>, cases: CaseTable, n: nat)
    requires n > 0 && n - 1 in cases && ListsBelow(order, cases, n)
    ensures order != [] && ListsBelow(order[..|order| - 1], cases, n - 1)
  {
    GreatestIsLast(order, cases, n);
    var rest := order[..|order| - 1];
    forall id | id in cases && id < n - 1 ensures id in rest {
      var i :| 0 <= i < |order| && order[i] == id;
      assert rest[i] == id;
    }
  }

  lemma ListedMeansPositive(order: seq<CaseId>, cases: CaseTable, n: nat)
    requires ListsBelow(order, cases, n)
    ensures order != [] ==> n > 0
  {
    if order != [] {
      assert order[0] < n;
    }
  }

  lemma GapListsBelow(order: seq<CaseId>, cases: CaseTable, n: nat)
    requires n > 0 && n - 1 !in cases && ListsBelow(order, cases, n)
    ensures ListsBelow(order, cases, n - 1)
  {
  }

  /** `SELECT .. ORDER BY case_id`: the rows in id order are the rows below any bound. */
  lemma {:induction false} OrderedRowsAreRowsBelow(cases: CaseTable, order: seq<CaseId>, n: nat)
    requires ListsBelow(order, cases, n) && forall i :: 0 <= i < |order| ==> order[i] in cases
    ensures RowsBelow(cases, n) == RowsOf(cases, order)
  {
    hide ListsBelow;
    if n == 0 {
      ListedMeansPositive(order, cases, n);
    } else if n - 1 in cases {
      GreatestIsLast(order, cases, n);
      RestListsBelow(order, cases, n);
      var rest := order[..|order| - 1];
      OrderedRowsAreRowsBelow(cases, rest, n - 1);
      assert RowsOf(cases, order) == RowsOf(cases, rest) + [cases[n - 1]];
    } else {
      GapListsBelow(order, cases, n);
      OrderedRowsAreRowsBelow(cases, order, n - 1);
      assert RowsBelow(cases, n) == RowsBelow(cases, n - 1) + [];
    }
  }

  method SelectCases(db: DB) returns (rows: seq<RiskCase>)
    ensures forall o :: Recognised(rows, o) == RecoveredOnIt(db, o)
  {
    var order := SpineStore.InOrder(db.cases.Keys);
    assert forall i :: 0 <= i < |order| ==> order[i] in order;
    rows := RowsOf(db.cases, order);
    ghost var n := Bound(db.cases.Keys);
    OrderedRowsAreRowsBelow(db.cases, order, n);
    forall o ensures Recognised(rows, o) == RecoveredOnIt(db, o) {
      RowsRecognise(db.cases, o, n);
    }
  }

  method SelectObligations(db: DB) returns (rows: seq<Obligation>)
    ensures forall x :: x in rows <==> exists o :: o in db.obligations && db.obligations[o] == x
  {
    var order := SpineStore.InOrder(db.obligations.Keys);
    rows := seq(|order|, i requires 0 <= i < |order| => assert order[i] in order; db.obligations[order[i]]);
    forall o | o in db.obligations ensures db.obligations[o] in rows {
      var i :| 0 <= i < |order| && order[i] == o;
      assert rows[i] == db.obligations[o];
    }
    forall x | x in rows ensures exists o :: o in db.obligations && db.obligations[o] == x {
      var i :| 0 <= i < |rows| && rows[i] == x;
      assert order[i] in order;
    }
  }

  /** Checker #6 over the tables any run leaves: it reports a violation exactly when the
      ledger over-collects, and never because of what the obligations say was settled. */
  method CheckRecoveries(env: Env, ops: seq<Op>) returns (r: RecoveryResult)
    ensures r.status == Violated <==> OverCollects(After(env, ops))
    ensures forall o :: o in After(env, ops).obligations ==>
              After(env, ops).obligations[o].Settled() <= After(env, ops).obligations[o].grossAmount
  {
    hide After, Exceeds, Recognised, RecoveredOnIt;
    EveryObligationIsGood(env, ops);
    var db := After(env, ops);
    var obligations := SelectObligations(db);
    var rows := SelectCases(db);
    r := CheckRecoveryWithinAmountOwed(obligations, rows);
    if OverCollects(db) {
      var o :| o in db.obligations && Exceeds(db.obligations[o], RecoveredOnIt(db, o));
      assert db.obligations[o] in obligations;
      var k :| 0 <= k < |obligations| && obligations[k] == db.obligations[o];
      assert OverCollected(obligations[k], rows);
    }
    if k :| 0 <= k < |obligations| && OverCollected(obligations[k], rows) {
      assert obligations[k] in obligations;
      var o :| o in db.obligations && db.obligations[o] == obligations[k];
      assert Exceeds(db.obligations[o], RecoveredOnIt(db, o));
    }
  }
}
