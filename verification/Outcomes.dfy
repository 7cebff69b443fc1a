/**
 Simulated outcomes (reclaim/sim/outcomes.py): one draw per case, one audit row that
 precedes the moves it causes, and a walk through the case state machine.
 Whether the money arrived is an arbitrary input of each call.
 */
module Outcomes {
  import opened Wrappers
  import opened Vocabulary
  import opened Actions
  import opened Cases
  import opened AuditChain
  import opened Spine
  import opened FlowSafety
  import Outbox

  datatype SimLane = NaturalOnly | GenericBaseline | TargetedAgent | NaturalFloor | NotSimulated

  const GENERIC_TOUCH_COUNT := 4

  datatype SimulatedOutcome = SimulatedOutcome(
    caseId: CaseId,
    arm: Arm,
    lane: SimLane,
    amountAtRisk: Paise,
    entryState: CaseState,
    finalState: CaseState,
    actionType: Option<ActionType>,
    recovered: bool,
    recoveredAmount: Paise,
    simulatedContacts: nat)
  {
    predicate WasSimulated() {
      lane != NotSimulated
    }
  }

  predicate InScope(arm: Arm) {
    arm == A0 || arm == A1 || arm == A4
  }

  predicate AlreadyResolved(audit: seq<AuditRow>, id: CaseId) {
    exists i :: 0 <= i < |audit| && audit[i].body.caseId == Some(id) && audit[i].body.eventType == SimulatedPspResponse
  }

  function LaneFor(db: DB, c: RiskCase): SimLane {
    if AlreadyResolved(db.audit, c.caseId) then NotSimulated
    else if !InScope(c.arm) then NotSimulated
    else if c.arm == A0 then (if c.state == Detected then NaturalOnly else NaturalFloor)
    else if c.arm == A1 then (if c.state == Detected then GenericBaseline else NaturalFloor)
    else if c.state == Scheduled then TargetedAgent
    else NaturalFloor
  }

  /** The verb of the case's oldest outbox row. */
  function EnqueuedVerb(q: Outbox.Queue, id: CaseId): Option<ActionType> {
    if q == [] then None
    else
      var earlier := EnqueuedVerb(q[..|q| - 1], id);
      if earlier.Some? then earlier
      else if q[|q| - 1].caseId == id then Some(q[|q| - 1].actionType)
      else None
  }

  predicate FurtherDebitPermitted(d: Option<DeclineClass>) {
    d.None? || RetryabilityOf(d.value) == RetrySoft || RetryabilityOf(d.value) == RetryAfterIncident
  }

  // ------------------------------------------------------------ the walk

  datatype Step = Step(to: CaseState, updates: FieldUpdates, event: EventType)

  function Plain(to: CaseState): Step {
    Step(to, NO_UPDATES, CaseStateChanged)
  }

  function StopStep(reason: StopReason, at: Instant): Step {
    Step(Stopped, StopWith(reason, at), CaseStopped)
  }

  const RECOVERED_STEP := Step(Recovered, NO_UPDATES, CaseRecovered)

  /** Money arrived with no action from us: as far as the table permits. */
  function SelfHeal(state: CaseState, at: Instant): seq<Step> {
    if CanMove(state, Recovered) then [RECOVERED_STEP]
    else if CanMove(state, Stopped) then [StopStep(AlreadyPaid, at)]
    else []
  }

  function StepsFor(lane: SimLane, c: RiskCase, verb: Option<ActionType>, recovered: bool, at: Instant): seq<Step> {
    match lane
    case NotSimulated => []
    case NaturalOnly => if recovered then SelfHeal(c.state, at) else []
    case NaturalFloor => if recovered then SelfHeal(c.state, at) else []
    case GenericBaseline =>
      [Plain(Planned), Plain(Scheduled), Plain(Executing)]
      + (if recovered then [RECOVERED_STEP] else [Plain(AwaitingResponse), StopStep(ContactCap, at)])
    case TargetedAgent =>
      [Plain(Executing)]
      + (if recovered then [RECOVERED_STEP]
         else if verb == Some(SendMessageType) then [Plain(AwaitingResponse), Plain(Planned)]
         else if !FurtherDebitPermitted(c.declineClass) then [StopStep(HardDeclineNoFurtherDebit, at)]
         else [Plain(RetryBackoff)])
  }

  function Take(env: Env, db: DB, id: CaseId, s: Step, at: Instant): Result<DB, SpineError> {
    Transition(env, db, id, s.to, s.updates, System, s.event, at)
  }

  function Walk(env: Env, db: DB, id: CaseId, steps: seq<Step>, at: Instant): Result<DB, SpineError>
    decreases |steps|
  {
    if steps == [] then Success(db)
    else
      var moved :- Take(env, db, id, steps[0], at);
      Walk(env, moved, id, steps[1..], at)
  }

  // ------------------------------------------------------------ one case, one batch

  function Contacts(lane: SimLane, verb: Option<ActionType>): nat {
    if lane == GenericBaseline then GENERIC_TOUCH_COUNT
    else if lane == TargetedAgent && verb == Some(SendMessageType) then 1
    else 0
  }

  function ResponseBody(c: RiskCase, recovered: bool): Body {
    Note(c.recoveryWindowEndsAt, c.caseId, System, SimulatedPspResponse, OutcomeInputs(c.caseId, c.arm, recovered))
  }

  function OutcomeOf(c: RiskCase, lane: SimLane, verb: Option<ActionType>, recovered: bool, final: CaseState): SimulatedOutcome {
    SimulatedOutcome(c.caseId, c.arm, lane, c.amountAtRisk, c.state, final, verb, recovered,
                     if recovered then c.amountAtRisk else 0, Contacts(lane, verb))
  }

  function ResolveCase(env: Env, db: DB, id: CaseId, moneyArrived: bool): Result<(DB, SimulatedOutcome), SpineError> {
    if id !in db.cases then Failure(CaseNotFound)
    else
      var c := db.cases[id];
      var lane := LaneFor(db, c);
      if lane == NotSimulated then Success((db, OutcomeOf(c, NotSimulated, None, false, c.state)))
      else
        var verb := if lane == TargetedAgent then EnqueuedVerb(db.outbox, id) else None;
        var steps := StepsFor(lane, c, verb, moneyArrived, c.recoveryWindowEndsAt);
        var answered :- Log(env, db, ResponseBody(c, moneyArrived));
        var walked :- Walk(env, answered, id, steps, c.recoveryWindowEndsAt);
        Success((walked, OutcomeOf(c, lane, verb, moneyArrived,
                                   if id in walked.cases then walked.cases[id].state else c.state)))
  }

  type Draws = CaseId -> bool

  function ResolveBatch(env: Env, db: DB, ids: seq<CaseId>, money: Draws): Result<(DB, seq<SimulatedOutcome>), SpineError> {
    if ids == [] then Success((db, []))
    else
      var id := ids[|ids| - 1];
      var earlier :- ResolveBatch(env, db, ids[..|ids| - 1], money);
      var last :- ResolveCase(env, earlier.0, id, money(id));
      Success((last.0, earlier.1 + [last.1]))
  }

  // ------------------------------------------------------------ never illegal

  /** Each step is an edge of the table and brings exactly the fields it needs. */
  predicate LegalWalk(c: RiskCase, steps: seq<Step>)
    decreases |steps|
  {
    steps == []
    || (&& CanMove(c.state, steps[0].to) && UpdatesFit(c, steps[0].to, steps[0].updates)
        && LegalWalk(Overwrite(c, steps[0].to, steps[0].updates), steps[1..]))
  }

  function Destination(state: CaseState, steps: seq<Step>): CaseState {
    if steps == [] then state else steps[|steps| - 1].to
  }

  /** Whatever the lane, the state and the draw, the walk is legal from where the case is. */
  lemma StepsAreLegal(db: DB, c: RiskCase, verb: Option<ActionType>, recovered: bool)
    requires c.Valid() && LaneFor(db, c) != NotSimulated
    ensures LegalWalk(c, StepsFor(LaneFor(db, c), c, verb, recovered, c.recoveryWindowEndsAt))
  {
    var at := c.recoveryWindowEndsAt;
    match LaneFor(db, c)
    case NaturalOnly => SelfHealIsLegal(c);
    case NaturalFloor => SelfHealIsLegal(c);
    case GenericBaseline => BaselineIsLegal(c, recovered);
    case TargetedAgent => TargetedIsLegal(c, verb, recovered);
  }

  lemma SelfHealIsLegal(c: RiskCase)
    requires c.Valid()
    ensures LegalWalk(c, SelfHeal(c.state, c.recoveryWindowEndsAt))
  {
    var steps := SelfHeal(c.state, c.recoveryWindowEndsAt);
    if steps != [] {
      assert steps[1..] == [];
    }
  }

  lemma BaselineIsLegal(c: RiskCase, recovered: bool)
    requires c.Valid() && c.state == Detected
    ensures LegalWalk(c, StepsFor(GenericBaseline, c, None, recovered, c.recoveryWindowEndsAt))
  {
    var at := c.recoveryWindowEndsAt;
    var tail := if recovered then [RECOVERED_STEP] else [Plain(AwaitingResponse), StopStep(ContactCap, at)];
    TailIsLegal(Overwrite(Overwrite(Overwrite(c, Planned, NO_UPDATES), Scheduled, NO_UPDATES), Executing, NO_UPDATES), tail);
    var steps := [Plain(Planned), Plain(Scheduled), Plain(Executing)] + tail;
    assert steps[1..] == [Plain(Scheduled), Plain(Executing)] + tail;
    assert steps[1..][1..] == [Plain(Executing)] + tail;
    assert steps[1..][1..][1..] == tail;
  }

  lemma TargetedIsLegal(c: RiskCase, verb: Option<ActionType>, recovered: bool)
    requires c.Valid() && c.state == Scheduled
    ensures LegalWalk(c, StepsFor(TargetedAgent, c, verb, recovered, c.recoveryWindowEndsAt))
  {
    var steps := StepsFor(TargetedAgent, c, verb, recovered, c.recoveryWindowEndsAt);
    var tail := steps[1..];
    TailIsLegal(Overwrite(c, Executing, NO_UPDATES), tail);
  }

  lemma TailIsLegal(c: RiskCase, tail: seq<Step>)
    requires c.state == Executing && c.recoveryWindowEndsAt > c.detectedAt
    requires var at := c.recoveryWindowEndsAt;
             || tail == [RECOVERED_STEP] || tail == [Plain(RetryBackoff)]
             || tail == [StopStep(HardDeclineNoFurtherDebit, at)]
             || tail == [Plain(AwaitingResponse), Plain(Planned)]
             || tail == [Plain(AwaitingResponse), StopStep(ContactCap, at)]
    ensures LegalWalk(c, tail)
  {
    if |tail| == 2 {
      assert tail[1..] == [tail[1]];
      assert tail[1..][1..] == [];
    } else {
      assert tail[1..] == [];
    }
  }

  /** The walk kept every invariant, touched one case and left it in this state. */
  ghost predicate WalkedTo(env: Env, db: DB, db': DB, id: CaseId, state: CaseState) {
    && Good(env, db') && Touches(db, db', id) && db'.outbox == db.outbox
    && id in db'.cases && db'.cases[id].state == state
  }

  lemma LegalStepIsTaken(env: Env, db: DB, id: CaseId, s: Step, at: Instant)
    requires Good(env, db) && id in db.cases
    requires CanMove(db.cases[id].state, s.to) && UpdatesFit(db.cases[id], s.to, s.updates)
    ensures var r := Take(env, db, id, s, at);
            && (r.Failure? ==> r.error == AuditRejected)
            && (r.Success? ==> WalkedTo(env, db, r.value, id, s.to)
                               && r.value.cases[id] == Overwrite(db.cases[id], s.to, s.updates))
  {
    OnlyTheLogRefuses(env, db, id, s.to, s.updates, System, s.event, at);
    if Take(env, db, id, s, at).Success? {
      MoveKeepsGood(env, db, id, s.to, s.updates, System, s.event, at, []);
    }
  }

  lemma WalkOn(env: Env, a: DB, b: DB, c: DB, id: CaseId, s: CaseState, t: CaseState)
    requires WalkedTo(env, a, b, id, s) && WalkedTo(env, b, c, id, t)
    ensures WalkedTo(env, a, c, id, t)
  {
    TouchesTwice(a, b, c, id);
  }

  lemma StandStill(env: Env, db: DB, id: CaseId)
    requires Good(env, db) && id in db.cases
    ensures WalkedTo(env, db, db, id, db.cases[id].state)
  {
  }

  lemma DestinationOfTheRest(state: CaseState, steps: seq<Step>)
    requires steps != []
    ensures Destination(steps[0].to, steps[1..]) == Destination(state, steps)
  {
  }

  /** The state the walk ends in agrees with the money. If it arrived, the case ends
      recovered, or stopped where the table offers no such edge, or was over already; if it
      did not, no case becomes recovered. */
  lemma MoneyAndStateAgree(db: DB, c: RiskCase, verb: Option<ActionType>, recovered: bool)
    requires LaneFor(db, c) != NotSimulated
    ensures var to := Destination(c.state, StepsFor(LaneFor(db, c), c, verb, recovered, c.recoveryWindowEndsAt));
            && (recovered ==> to == Recovered || (to == Stopped && !CanMove(c.state, Recovered)) || (to == c.state && !c.IsLive()))
            && (!recovered && to == Recovered ==> c.state == Recovered)
  {
    hide AlreadyResolved;
    TerminalExactlyWhenStuck(c.state);
  }

  /** A legal walk can only be refused by the log; it keeps every invariant, touches one
      case, and ends where its last step says. */
  lemma {:induction false} LegalWalkIsTaken(env: Env, db: DB, id: CaseId, steps: seq<Step>, at: Instant)
    requires Good(env, db) && id in db.cases && LegalWalk(db.cases[id], steps)
    ensures var r := Walk(env, db, id, steps, at);
            && (r.Failure? ==> r.error == AuditRejected)
            && (r.Success? ==> WalkedTo(env, db, r.value, id, Destination(db.cases[id].state, steps)))
    decreases |steps|
  {
    if steps == [] {
      StandStill(env, db, id);
    } else {
      LegalStepIsTaken(env, db, id, steps[0], at);
      var r := Take(env, db, id, steps[0], at);
      if r.Success? {
        LegalWalkIsTaken(env, r.value, id, steps[1..], at);
        var rest := Walk(env, r.value, id, steps[1..], at);
        DestinationOfTheRest(db.cases[id].state, steps);
        if rest.Success? {
          WalkOn(env, db, r.value, rest.value, id, steps[0].to, Destination(db.cases[id].state, steps));
        }
      }
    }
  }

  // ------------------------------------------------------------ what a pass does

  lemma ResolvingKnownCase(env: Env, db: DB, id: CaseId, money: bool)
    requires ResolveCase(env, db, id, money).Success?
    ensures id in db.cases
  {
  }

  lemma LaneReadsLogAndCase(a: DB, b: DB, c: RiskCase)
    requires AlreadyResolved(a.audit, c.caseId) && a.audit <= b.audit
    ensures LaneFor(b, c) == NotSimulated
  {
    var i :| 0 <= i < |a.audit| && a.audit[i].body.caseId == Some(c.caseId)
             && a.audit[i].body.eventType == SimulatedPspResponse;
    assert b.audit[i] == a.audit[i];
  }

  /** The outcome reports what the ledger now says, and the money only if it arrived. */
  predicate Reported(db: DB, db': DB, id: CaseId, o: SimulatedOutcome) {
    && id in db.cases && id in db'.cases
    && o.caseId == id && o.arm == db.cases[id].arm && o.amountAtRisk == db.cases[id].amountAtRisk
    && o.entryState == db.cases[id].state && o.finalState == db'.cases[id].state
    && o.recoveredAmount == (if o.recovered then o.amountAtRisk else 0)
    && (o.lane == NotSimulated ==> db' == db && !o.recovered)
  }

  lemma TerminalCaseStandsStill(db: DB, c: RiskCase, verb: Option<ActionType>, recovered: bool)
    requires LaneFor(db, c) != NotSimulated
    ensures !c.IsLive() ==> StepsFor(LaneFor(db, c), c, verb, recovered, c.recoveryWindowEndsAt) == []
  {
  }

  lemma ResponseRowKeepsGood(env: Env, db: DB, c: RiskCase, recovered: bool)
    requires Good(env, db) && c.caseId in db.cases && db.cases[c.caseId] == c
    ensures var r := Log(env, db, ResponseBody(c, recovered));
            && (r.Failure? ==> r.error == AuditRejected)
            && (r.Success? ==> WalkedTo(env, db, r.value, c.caseId, c.state) && r.value.cases == db.cases
                               && AlreadyResolved(r.value.audit, c.caseId))
  {
    hide GoodLedger, Paired, KeyedRowsNameTheirCase, OneActionPerCase;
    var body := ResponseBody(c, recovered);
    QuietLogKeepsGood(env, db, body, c.caseId);
    LogKeepsLedgerGood(env, db, body);
    if Log(env, db, body).Success? {
      var rows := Log(env, db, body).value.audit;
      assert rows[|db.audit|].body == body;
    }
  }

  /** Resolving a case of any good ledger is never refused by the state machine: only the
      log can refuse. It keeps every invariant, reports what it did, ends where its lane
      and the draw say, and leaves a case that no later pass simulates again. */
  lemma ResolveIsNeverIllegal(env: Env, db: DB, id: CaseId, money: bool)
    requires Good(env, db) && id in db.cases
    ensures var r := ResolveCase(env, db, id, money);
            && (r.Failure? ==> r.error == AuditRejected)
            && (r.Success? ==>
                  && Good(env, r.value.0) && Touches(db, r.value.0, id) && r.value.0.outbox == db.outbox
                  && Reported(db, r.value.0, id, r.value.1)
                  && (!db.cases[id].IsLive() ==> r.value.0.cases == db.cases)
                  && LaneFor(r.value.0, r.value.0.cases[id]) == NotSimulated)
    ensures var c, r := db.cases[id], ResolveCase(env, db, id, money);
            r.Success? && r.value.1.WasSimulated() ==>
              && r.value.1.lane == LaneFor(db, c) && r.value.1.recovered == money
              && r.value.1.finalState ==
                   Destination(c.state, StepsFor(LaneFor(db, c), c, r.value.1.actionType, money, c.recoveryWindowEndsAt))
  {
    CaseKnowsItsId(env, db, id);
    var c := db.cases[id];
    var lane := LaneFor(db, c);
    if lane != NotSimulated {
      var verb := if lane == TargetedAgent then EnqueuedVerb(db.outbox, id) else None;
      ResponseRowKeepsGood(env, db, c, money);
      StepsAreLegal(db, c, verb, money);
      var answered := Log(env, db, ResponseBody(c, money));
      if answered.Success? {
        var steps := StepsFor(lane, c, verb, money, c.recoveryWindowEndsAt);
        LegalWalkIsTaken(env, answered.value, id, steps, c.recoveryWindowEndsAt);
        var walked := Walk(env, answered.value, id, steps, c.recoveryWindowEndsAt);
        TerminalCaseStandsStill(db, c, verb, money);
        if walked.Success? {
          WalkOn(env, db, answered.value, walked.value, id, c.state, Destination(c.state, steps));
          LaneReadsLogAndCase(answered.value, walked.value, walked.value.cases[id]);
        }
      }
    } else {
      StandStill(env, db, id);
    }
  }

  // ------------------------------------------------------------ a whole batch

  /** Only states moved and only the log grew. */
  predicate Evolves(a: DB, b: DB) {
    && b.obligations == a.obligations && b.cases.Keys == a.cases.Keys
    && (forall id :: id in a.cases ==> SameCase(a.cases[id], b.cases[id]))
    && a.audit <= b.audit
  }

  lemma TouchingEvolves(a: DB, b: DB, c: DB, id: CaseId)
    requires Evolves(a, b) && Touches(b, c, id)
    ensures Evolves(a, c)
  {
  }

  /** The money is credited to simulated cases only, and never more than was at risk. */
  predicate Sane(o: SimulatedOutcome) {
    && o.amountAtRisk > 0
    && o.recoveredAmount == (if o.recovered then o.amountAtRisk else 0)
    && (o.recovered ==> o.WasSimulated())
  }

  ghost predicate Settled(db: DB, ids: seq<CaseId>) {
    forall id :: id in ids ==> id in db.cases && LaneFor(db, db.cases[id]) == NotSimulated
  }

  lemma SettledCaseStays(a: DB, b: DB, id: CaseId, k: CaseId)
    requires CasesGood(a) && CasesGood(b) && Touches(a, b, id)
    requires k in a.cases && LaneFor(a, a.cases[k]) == NotSimulated
    ensures k in b.cases && LaneFor(b, b.cases[k]) == NotSimulated
  {
    assert a.cases[k].caseId == k && b.cases[k].caseId == k;
    assert SameCase(a.cases[k], b.cases[k]);
    if InScope(a.cases[k].arm) {
      LaneReadsLogAndCase(a, b, b.cases[k]);
    }
  }

  lemma SettledStays(a: DB, b: DB, ids: seq<CaseId>, id: CaseId)
    requires CasesGood(a) && CasesGood(b) && Touches(a, b, id) && Settled(a, ids)
    ensures Settled(b, ids)
  {
    forall k | k in ids ensures k in b.cases && LaneFor(b, b.cases[k]) == NotSimulated {
      SettledCaseStays(a, b, id, k);
    }
  }

  predicate OutcomesMatch(outcomes: seq<SimulatedOutcome>, ids: seq<CaseId>) {
    |outcomes| == |ids| && forall i :: 0 <= i < |ids| ==> outcomes[i].caseId == ids[i] && Sane(outcomes[i])
  }

  /** A completed pass keeps every invariant, moves no case it was not given, names each
      case in order, and settles all of them. */
  ghost predicate PassDone(env: Env, db: DB, db': DB, ids: seq<CaseId>, outcomes: seq<SimulatedOutcome>) {
    && Good(env, db') && Evolves(db, db') && db'.outbox == db.outbox
    && Settled(db', ids) && OutcomesMatch(outcomes, ids)
  }

  lemma ReportedIsSane(env: Env, db: DB, db': DB, id: CaseId, o: SimulatedOutcome)
    requires Good(env, db) && Reported(db, db', id, o)
    ensures Sane(o)
  {
    assert db.cases[id].Valid();
  }

  lemma OneMoreResolved(env: Env, db: DB, mid: DB, db': DB, ids: seq<CaseId>, outcomes: seq<SimulatedOutcome>,
                        id: CaseId, o: SimulatedOutcome)
    requires PassDone(env, db, mid, ids, outcomes) && Good(env, db') && Touches(mid, db', id) && db'.outbox == mid.outbox
    requires Reported(mid, db', id, o) && LaneFor(db', db'.cases[id]) == NotSimulated
    ensures PassDone(env, db, db', ids + [id], outcomes + [o])
  {
    SettledStays(mid, db', ids, id);
    SettledWithOneMore(db', ids, id);
    TouchingEvolves(db, mid, db', id);
    ReportedIsSane(env, mid, db', id, o);
    MatchedWithOneMore(outcomes, ids, o);
  }

  lemma SettledWithOneMore(db: DB, ids: seq<CaseId>, id: CaseId)
    requires Settled(db, ids) && id in db.cases && LaneFor(db, db.cases[id]) == NotSimulated
    ensures Settled(db, ids + [id])
  {
  }

  lemma MatchedWithOneMore(outcomes: seq<SimulatedOutcome>, ids: seq<CaseId>, o: SimulatedOutcome)
    requires OutcomesMatch(outcomes, ids) && Sane(o)
    ensures OutcomesMatch(outcomes + [o], ids + [o.caseId])
  {
  }

  lemma NothingResolved(env: Env, db: DB)
    requires Good(env, db)
    ensures PassDone(env, db, db, [], [])
  {
  }

  lemma EvolvingKeepsTheCases(a: DB, b: DB, id: CaseId)
    requires Evolves(a, b) && id in a.cases
    ensures id in b.cases
  {
  }

  /** A pass over any cases of any good ledger completes unless the log refuses. */
  lemma {:induction false} BatchIsNeverIllegal(env: Env, db: DB, ids: seq<CaseId>, money: Draws)
    requires Good(env, db) && forall id :: id in ids ==> id in db.cases
    ensures var r := ResolveBatch(env, db, ids, money);
            && (r.Failure? ==> r.error == AuditRejected)
            && (r.Success? ==> PassDone(env, db, r.value.0, ids, r.value.1))
  {
    if ids == [] {
      NothingResolved(env, db);
    } else {
      var before, id := ids[..|ids| - 1], ids[|ids| - 1];
      assert ids == before + [id];
      BatchIsNeverIllegal(env, db, before, money);
      var earlier := ResolveBatch(env, db, before, money);
      if earlier.Success? {
        var mid := earlier.value.0;
        EvolvingKeepsTheCases(db, mid, id);
        ResolveIsNeverIllegal(env, mid, id, money(id));
        var last := ResolveCase(env, mid, id, money(id));
        if last.Success? {
          OneMoreResolved(env, db, mid, last.value.0, before, earlier.value.1, id, last.value.1);
        }
      }
    }
  }

  /** A settled case is reported as it is and nothing is written. */
  lemma {:induction false} SettledBatchWritesNothing(env: Env, db: DB, ids: seq<CaseId>, money: Draws)
    requires Settled(db, ids)
    ensures var r := ResolveBatch(env, db, ids, money);
            r.Success? && r.value.0 == db && forall o :: o in r.value.1 ==> o.lane == NotSimulated
  {
    if ids != [] {
      assert ids == ids[..|ids| - 1] + [ids[|ids| - 1]];
      SettledBatchWritesNothing(env, db, ids[..|ids| - 1], money);
    }
  }

  /** Idempotence: whatever the second pass draws and in whatever order it visits the
      cases, it writes nothing and reports every case as not simulated. */
  lemma SecondPassWritesNothing(env: Env, db: DB, ids: seq<CaseId>, money: Draws, again: seq<CaseId>, redraw: Draws)
    requires Good(env, db) && forall id :: id in ids ==> id in db.cases
    requires ResolveBatch(env, db, ids, money).Success?
    requires forall id :: id in again ==> id in ids
    ensures var after := ResolveBatch(env, db, ids, money).value.0;
            var r := ResolveBatch(env, after, again, redraw);
            r.Success? && r.value.0 == after && forall o :: o in r.value.1 ==> o.lane == NotSimulated
  {
    BatchIsNeverIllegal(env, db, ids, money);
    SettledBatchWritesNothing(env, ResolveBatch(env, db, ids, money).value.0, again, redraw);
  }

  // ------------------------------------------------------------ tallies

  datatype ArmTally = ArmTally(
    caseCount: nat,
    simulatedCaseCount: nat,
    recoveredCaseCount: nat,
    totalAtRisk: Paise,
    simulatedAtRisk: Paise,
    grossRecovered: Paise,
    simulatedContacts: nat)

  const EMPTY_TALLY := ArmTally(0, 0, 0, 0, 0, 0, 0)

  function CountIn(t: ArmTally, o: SimulatedOutcome): ArmTally {
    ArmTally(
      t.caseCount + 1,
      t.simulatedCaseCount + (if o.WasSimulated() then 1 else 0),
      t.recoveredCaseCount + (if o.recovered then 1 else 0),
      t.totalAtRisk + o.amountAtRisk,
      t.simulatedAtRisk + (if o.WasSimulated() then o.amountAtRisk else 0),
      t.grossRecovered + o.recoveredAmount,
      t.simulatedContacts + o.simulatedContacts)
  }

  function Add(s: ArmTally, t: ArmTally): ArmTally {
    ArmTally(s.caseCount + t.caseCount, s.simulatedCaseCount + t.simulatedCaseCount,
             s.recoveredCaseCount + t.recoveredCaseCount, s.totalAtRisk + t.totalAtRisk,
             s.simulatedAtRisk + t.simulatedAtRisk, s.grossRecovered + t.grossRecovered,
             s.simulatedContacts + t.simulatedContacts)
  }

  /** The tally of one arm. */
  function TallyOf(outcomes: seq<SimulatedOutcome>, arm: Arm): ArmTally {
    if outcomes == [] then EMPTY_TALLY
    else
      var o := outcomes[|outcomes| - 1];
      var earlier := TallyOf(outcomes[..|outcomes| - 1], arm);
      if o.arm == arm then CountIn(earlier, o) else earlier
  }

  function TallyOfAll(outcomes: seq<SimulatedOutcome>): ArmTally {
    if outcomes == [] then EMPTY_TALLY
    else CountIn(TallyOfAll(outcomes[..|outcomes| - 1]), outcomes[|outcomes| - 1])
  }

  /** One entry for each arm that occurs, filled arm by arm. */
  method TallyByArm(outcomes: seq<SimulatedOutcome>) returns (tallies: map<Arm, ArmTally>)
    ensures forall arm :: arm in tallies <==> exists i :: 0 <= i < |outcomes| && outcomes[i].arm == arm
    ensures forall arm :: arm in tallies ==> tallies[arm] == TallyOf(outcomes, arm)
  {
    tallies := map[];
    var a := 0;
    while a < |ALL_ARMS|
      invariant 0 <= a <= |ALL_ARMS|
      invariant forall arm :: arm in tallies <==>
                  arm in ALL_ARMS[..a] && exists i :: 0 <= i < |outcomes| && outcomes[i].arm == arm
      invariant forall arm :: arm in tallies ==> tallies[arm] == TallyOf(outcomes, arm)
    {
      var arm := ALL_ARMS[a];
      var present := false;
      var tally := EMPTY_TALLY;
      var i := 0;
      while i < |outcomes|
        invariant 0 <= i <= |outcomes|
        invariant present <==> exists j :: 0 <= j < i && outcomes[j].arm == arm
        invariant tally == TallyOf(outcomes[..i], arm)
      {
        assert outcomes[..i + 1][..i] == outcomes[..i];
        if outcomes[i].arm == arm {
          present := true;
          var o := outcomes[i];
          var simulated := o.lane != NotSimulated;
          tally := ArmTally(
            tally.caseCount + 1,
            if simulated then tally.simulatedCaseCount + 1 else tally.simulatedCaseCount,
            if o.recovered then tally.recoveredCaseCount + 1 else tally.recoveredCaseCount,
            tally.totalAtRisk + o.amountAtRisk,
            if simulated then tally.simulatedAtRisk + o.amountAtRisk else tally.simulatedAtRisk,
            tally.grossRecovered + o.recoveredAmount,
            tally.simulatedContacts + o.simulatedContacts);
        }
        i := i + 1;
      }
      assert outcomes[..|outcomes|] == outcomes;
      assert ALL_ARMS[..a + 1] == ALL_ARMS[..a] + [arm];
      if present {
        tallies := tallies[arm := tally];
      }
      a := a + 1;
    }
    assert ALL_ARMS[..|ALL_ARMS|] == ALL_ARMS;
    forall arm: Arm ensures arm in ALL_ARMS {
      EveryArmIsListed(arm);
    }
  }

  function SumOverArms(outcomes: seq<SimulatedOutcome>, arms: seq<Arm>): ArmTally {
    if arms == [] then EMPTY_TALLY
    else Add(SumOverArms(outcomes, arms[..|arms| - 1]), TallyOf(outcomes, arms[|arms| - 1]))
  }

  predicate NoArmTwice(arms: seq<Arm>) {
    forall i, j :: 0 <= i < j < |arms| ==> arms[i] != arms[j]
  }

  lemma {:induction false} EmptySum(outcomes: seq<SimulatedOutcome>, arms: seq<Arm>)
    requires |outcomes| == 0
    ensures SumOverArms(outcomes, arms) == EMPTY_TALLY
  {
    if arms != [] {
      EmptySum(outcomes, arms[..|arms| - 1]);
    }
  }

  lemma CountInOneSummand(s: ArmTally, t: ArmTally, o: SimulatedOutcome)
    ensures CountIn(Add(s, t), o) == Add(CountIn(s, o), t) == Add(s, CountIn(t, o))
  {
  }

  lemma TallyGrows(outcomes: seq<SimulatedOutcome>, o: SimulatedOutcome, arm: Arm)
    ensures TallyOf(outcomes + [o], arm) == if o.arm == arm then CountIn(TallyOf(outcomes, arm), o) else TallyOf(outcomes, arm)
  {
    assert (outcomes + [o])[..|outcomes|] == outcomes;
  }

  /** One more outcome is counted under its own arm and nowhere else. */
  lemma {:induction false} SumGrows(before: seq<SimulatedOutcome>, o: SimulatedOutcome, arms: seq<Arm>)
    requires NoArmTwice(arms)
    ensures SumOverArms(before + [o], arms)
         == if o.arm in arms then CountIn(SumOverArms(before, arms), o) else SumOverArms(before, arms)
  {
    if arms != [] {
      var some, arm := arms[..|arms| - 1], arms[|arms| - 1];
      assert arms == some + [arm];
      SumGrows(before, o, some);
      TallyGrows(before, o, arm);
      CountInOneSummand(SumOverArms(before, some), TallyOf(before, arm), o);
    }
  }

  lemma {:induction false} EveryListedArmCounts(outcomes: seq<SimulatedOutcome>, arms: seq<Arm>)
    requires NoArmTwice(arms) && forall o :: o in outcomes ==> o.arm in arms
    ensures TallyOfAll(outcomes) == SumOverArms(outcomes, arms)
    ensures TallyOfAll(outcomes).caseCount == |outcomes|
  {
    if outcomes == [] {
      EmptySum(outcomes, arms);
    } else {
      var before, o := outcomes[..|outcomes| - 1], outcomes[|outcomes| - 1];
      assert outcomes == before + [o];
      EveryListedArmCounts(before, arms);
      SumGrows(before, o, arms);
    }
  }

  /** The arms partition the batch: every figure of the whole is the sum over the arms. */
  lemma TalliesPartition(outcomes: seq<SimulatedOutcome>)
    ensures TallyOfAll(outcomes) == SumOverArms(outcomes, ALL_ARMS)
    ensures TallyOfAll(outcomes).caseCount == |outcomes|
  {
    forall o | o in outcomes ensures o.arm in ALL_ARMS {
      EveryArmIsListed(o.arm);
    }
    EveryListedArmCounts(outcomes, ALL_ARMS);
  }

  /** recovered <= simulated <= all, in cases and in money, for every arm. */
  lemma {:induction false} RecoveredWithinSimulatedWithinTotal(outcomes: seq<SimulatedOutcome>, arm: Arm)
    requires forall o :: o in outcomes ==> Sane(o)
    ensures var t := TallyOf(outcomes, arm);
            && t.recoveredCaseCount <= t.simulatedCaseCount <= t.caseCount
            && 0 <= t.grossRecovered <= t.simulatedAtRisk <= t.totalAtRisk
  {
    if outcomes != [] {
      var o := outcomes[|outcomes| - 1];
      assert o in outcomes;
      RecoveredWithinSimulatedWithinTotal(outcomes[..|outcomes| - 1], arm);
    }
  }
}
