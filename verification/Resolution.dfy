/**
 One simulated resolution told once (reclaim/sim/outcomes.py): for each arm, state and draw,
 the log rows it adds, the record it leaves and the outcome it reports.
 */
module Resolution {
  import opened Wrappers
  import opened Vocabulary
  import opened Actions
  import opened Cases
  import opened AuditChain
  import opened Spine
  import opened FlowSafety
  import opened Outcomes
  import opened AgentStep
  import Outbox

  // ------------------------------------------------------------ walks, row by row

  function Moved(at: Instant, id: CaseId, from: CaseState, to: CaseState, event: EventType): Body {
    Body(at, Some(id), System, event, MoveInputs(id, from, to), None, [], None)
  }

  function RowsOfWalk(at: Instant, id: CaseId, from: CaseState, steps: seq<Step>): seq<Body>
    decreases |steps|
  {
    if steps == [] then []
    else [Moved(at, id, from, steps[0].to, steps[0].event)] + RowsOfWalk(at, id, steps[0].to, steps[1..])
  }

  function RecordOfWalk(c: RiskCase, steps: seq<Step>): RiskCase
    decreases |steps|
  {
    if steps == [] then c else RecordOfWalk(MovedRecord(c, steps[0].to, steps[0].updates), steps[1..])
  }

  lemma StepWrote(env: Env, db: DB, id: CaseId, s: Step, at: Instant)
    requires CasesGood(db) && ChainGood(env, db) && Take(env, db, id, s, at).Success?
    ensures id in db.cases
    ensures Wrote(db, Take(env, db, id, s, at).value, id, MovedRecord(db.cases[id], s.to, s.updates), [],
                  [Moved(at, id, db.cases[id].state, s.to, s.event)])
  {
    hide CasesGood, ChainGood, Transition;
    TransitionWrites(env, db, id, s.to, s.updates, System, s.event, at);
    assert db.outbox + [] == db.outbox;
  }

  lemma {:induction false} WalkWrote(env: Env, db: DB, id: CaseId, steps: seq<Step>, at: Instant)
    requires Good(env, db) && id in db.cases && Walk(env, db, id, steps, at).Success?
    ensures Wrote(db, Walk(env, db, id, steps, at).value, id, RecordOfWalk(db.cases[id], steps), [],
                  RowsOfWalk(at, id, db.cases[id].state, steps))
    decreases |steps|
  {
    hide Take, GoodOwing, CasesGood, ChainGood, Appends;
    if steps == [] {
      NothingWrote(db, id);
    } else {
      var c, s := db.cases[id], steps[0];
      var mid := Take(env, db, id, s, at).value;
      GoodLogAndCases(env, db, []);
      StepWrote(env, db, id, s, at);
      StepKeepsGood(env, db, id, s, at);
      WalkWrote(env, mid, id, steps[1..], at);
      WroteTwice(db, mid, Walk(env, mid, id, steps[1..], at).value, id, MovedRecord(c, s.to, s.updates),
                 RecordOfWalk(mid.cases[id], steps[1..]), [], [],
                 [Moved(at, id, c.state, s.to, s.event)], RowsOfWalk(at, id, s.to, steps[1..]));
    }
  }

  lemma NothingWrote(db: DB, id: CaseId)
    requires id in db.cases
    ensures Wrote(db, db, id, db.cases[id], [], [])
  {
    assert db.cases == db.cases[id := db.cases[id]];
    assert db.outbox + [] == db.outbox && db.audit == db.audit[..|db.audit|];
  }

  lemma StepKeepsGood(env: Env, db: DB, id: CaseId, s: Step, at: Instant)
    requires Good(env, db) && Take(env, db, id, s, at).Success?
    ensures Good(env, Take(env, db, id, s, at).value)
  {
    MoveKeepsGood(env, db, id, s.to, s.updates, System, s.event, at, []);
  }

  // ------------------------------------------------------------ what each lane does

  /** The classes another debit may follow; a case that names none is one of them. */
  predicate MayDebitAgain(d: Option<DeclineClass>) {
    d in {None, Some(InsufficientFunds), Some(IssuerTransientDecline), Some(IssuerUnavailable),
          Some(PreDebitNotificationUndelivered), Some(RiskBlockedByPsp), Some(RiskBlockedByMerchantRule),
          Some(ProcessingError), Some(RoutingOrConfigError)}
  }

  predicate HasResponse(audit: seq<AuditRow>, id: CaseId) {
    exists i :: 0 <= i < |audit| && audit[i].body.caseId == Some(id) && audit[i].body.eventType == SimulatedPspResponse
  }

  /** The lane: nothing twice and only three arms; the full treatment only from the state
      the arm's treatment starts in, and otherwise the natural floor. */
  function LaneOf(resolved: bool, arm: Arm, state: CaseState): SimLane {
    match arm
    case A0 => if resolved then NotSimulated else if state.Detected? then NaturalOnly else NaturalFloor
    case A1 => if resolved then NotSimulated else if state.Detected? then GenericBaseline else NaturalFloor
    case A4 => if resolved then NotSimulated else if state.Scheduled? then TargetedAgent else NaturalFloor
    case _ => NotSimulated
  }

  function StoppedFor(c: RiskCase, reason: StopReason, at: Instant): RiskCase {
    c.(state := Stopped, stopReason := Some(reason), stoppedAt := Some(at))
  }

  /** The record a resolution leaves and the rows it adds after its response row. */
  function Ending(lane: SimLane, c: RiskCase, verb: Option<ActionType>, money: bool): (RiskCase, seq<Body>) {
    var at, id := c.recoveryWindowEndsAt, c.caseId;
    match lane
    case NotSimulated => (c, [])
    case GenericBaseline =>
      var drip := [Moved(at, id, c.state, Planned, CaseStateChanged), Moved(at, id, Planned, Scheduled, CaseStateChanged),
                   Moved(at, id, Scheduled, Executing, CaseStateChanged)];
      if money then (c.(state := Recovered), drip + [Moved(at, id, Executing, Recovered, CaseRecovered)])
      else (StoppedFor(c, ContactCap, at),
            drip + [Moved(at, id, Executing, AwaitingResponse, CaseStateChanged), Moved(at, id, AwaitingResponse, Stopped, CaseStopped)])
    case TargetedAgent =>
      var run := [Moved(at, id, c.state, Executing, CaseStateChanged)];
      if money then (c.(state := Recovered), run + [Moved(at, id, Executing, Recovered, CaseRecovered)])
      else if verb == Some(SendMessageType) then
        (c.(state := Planned),
         run + [Moved(at, id, Executing, AwaitingResponse, CaseStateChanged), Moved(at, id, AwaitingResponse, Planned, CaseStateChanged)])
      else if MayDebitAgain(c.declineClass) then
        (c.(state := RetryBackoff), run + [Moved(at, id, Executing, RetryBackoff, CaseStateChanged)])
      else (StoppedFor(c, HardDeclineNoFurtherDebit, at), run + [Moved(at, id, Executing, Stopped, CaseStopped)])
    case _ =>
      if !money then (c, [])
      else if c.state in {Executing, PartiallyRecovered, Promised, Reconciling, Escalated} then
        (c.(state := Recovered), [Moved(at, id, c.state, Recovered, CaseRecovered)])
      else if c.state in {Recovered, Stopped, WrittenOff} then (c, [])
      else (StoppedFor(c, AlreadyPaid, at), [Moved(at, id, c.state, Stopped, CaseStopped)])
  }

  lemma OneStepWalk(at: Instant, id: CaseId, c: RiskCase, a: Step)
    ensures RowsOfWalk(at, id, c.state, [a]) == [Moved(at, id, c.state, a.to, a.event)]
    ensures RecordOfWalk(c, [a]) == MovedRecord(c, a.to, a.updates)
  {
    assert [a][1..] == [];
  }

  lemma LongerWalk(at: Instant, id: CaseId, c: RiskCase, a: Step, rest: seq<Step>)
    ensures RowsOfWalk(at, id, c.state, [a] + rest)
         == [Moved(at, id, c.state, a.to, a.event)] + RowsOfWalk(at, id, a.to, rest)
    ensures RecordOfWalk(c, [a] + rest) == RecordOfWalk(MovedRecord(c, a.to, a.updates), rest)
  {
    assert ([a] + rest)[1..] == rest;
  }

  lemma TwoStepWalk(at: Instant, id: CaseId, c: RiskCase, a: Step, b: Step)
    ensures RowsOfWalk(at, id, c.state, [a, b]) == [Moved(at, id, c.state, a.to, a.event), Moved(at, id, a.to, b.to, b.event)]
    ensures RecordOfWalk(c, [a, b]) == MovedRecord(MovedRecord(c, a.to, a.updates), b.to, b.updates)
  {
    assert [a, b] == [a] + [b];
    LongerWalk(at, id, c, a, [b]);
    OneStepWalk(at, id, MovedRecord(c, a.to, a.updates), b);
  }

  lemma ThreeStepWalk(at: Instant, id: CaseId, c: RiskCase, a: Step, b: Step, d: Step)
    ensures RowsOfWalk(at, id, c.state, [a, b, d])
         == [Moved(at, id, c.state, a.to, a.event), Moved(at, id, a.to, b.to, b.event), Moved(at, id, b.to, d.to, d.event)]
    ensures RecordOfWalk(c, [a, b, d])
         == MovedRecord(MovedRecord(MovedRecord(c, a.to, a.updates), b.to, b.updates), d.to, d.updates)
  {
    assert [a, b, d] == [a] + [b, d];
    LongerWalk(at, id, c, a, [b, d]);
    TwoStepWalk(at, id, MovedRecord(c, a.to, a.updates), b, d);
  }

  lemma {:induction false} WalkInTwo(at: Instant, id: CaseId, c: RiskCase, steps: seq<Step>, rest: seq<Step>)
    ensures RowsOfWalk(at, id, c.state, steps + rest)
         == RowsOfWalk(at, id, c.state, steps) + RowsOfWalk(at, id, RecordOfWalk(c, steps).state, rest)
    ensures RecordOfWalk(c, steps + rest) == RecordOfWalk(RecordOfWalk(c, steps), rest)
    decreases |steps|
  {
    hide MovedRecord, Moved;
    if steps == [] {
      assert [] + rest == rest;
    } else {
      var a, tail := steps[0], steps[1..];
      assert steps == [a] + tail && steps + rest == [a] + (tail + rest);
      var next := MovedRecord(c, a.to, a.updates);
      MovedTo(c, a.to, a.updates);
      LongerWalk(at, id, c, a, tail);
      LongerWalk(at, id, c, a, tail + rest);
      WalkInTwo(at, id, next, tail, rest);
    }
  }

  lemma MovedTo(c: RiskCase, to: CaseState, u: FieldUpdates)
    ensures MovedRecord(c, to, u).state == to
  {
  }

  predicate EndsAs(lane: SimLane, c: RiskCase, verb: Option<ActionType>, money: bool) {
    var at := c.recoveryWindowEndsAt;
    var steps := StepsFor(lane, c, verb, money, at);
    (RecordOfWalk(c, steps), RowsOfWalk(at, c.caseId, c.state, steps)) == Ending(lane, c, verb, money)
  }

  lemma NaturalEnding(lane: SimLane, c: RiskCase, verb: Option<ActionType>, money: bool)
    requires lane == NaturalOnly || lane == NaturalFloor
    ensures EndsAs(lane, c, verb, money)
  {
    var at := c.recoveryWindowEndsAt;
    WaysIn(c.state);
    OneStepWalk(at, c.caseId, c, RECOVERED_STEP);
    OneStepWalk(at, c.caseId, c, StopStep(AlreadyPaid, at));
  }

  lemma DripEnding(c: RiskCase, verb: Option<ActionType>, money: bool)
    ensures EndsAs(GenericBaseline, c, verb, money)
  {
    var at, id := c.recoveryWindowEndsAt, c.caseId;
    var drip := [Plain(Planned), Plain(Scheduled), Plain(Executing)];
    var executing := RecordOfWalk(c, drip);
    ThreeStepWalk(at, id, c, Plain(Planned), Plain(Scheduled), Plain(Executing));
    if money {
      WalkInTwo(at, id, c, drip, [RECOVERED_STEP]);
      OneStepWalk(at, id, executing, RECOVERED_STEP);
    } else {
      WalkInTwo(at, id, c, drip, [Plain(AwaitingResponse), StopStep(ContactCap, at)]);
      TwoStepWalk(at, id, executing, Plain(AwaitingResponse), StopStep(ContactCap, at));
    }
  }

  lemma DebitAgainExactly(d: Option<DeclineClass>)
    ensures FurtherDebitPermitted(d) <==> MayDebitAgain(d)
  {
  }

  lemma TargetedEnding(c: RiskCase, verb: Option<ActionType>, money: bool)
    ensures EndsAs(TargetedAgent, c, verb, money)
  {
    hide FurtherDebitPermitted, MayDebitAgain;
    var at, id := c.recoveryWindowEndsAt, c.caseId;
    var run := [Plain(Executing)];
    var executing := RecordOfWalk(c, run);
    DebitAgainExactly(c.declineClass);
    OneStepWalk(at, id, c, Plain(Executing));
    WalkInTwo(at, id, c, run, [RECOVERED_STEP]);
    OneStepWalk(at, id, executing, RECOVERED_STEP);
    WalkInTwo(at, id, c, run, [Plain(AwaitingResponse), Plain(Planned)]);
    TwoStepWalk(at, id, executing, Plain(AwaitingResponse), Plain(Planned));
    WalkInTwo(at, id, c, run, [StopStep(HardDeclineNoFurtherDebit, at)]);
    OneStepWalk(at, id, executing, StopStep(HardDeclineNoFurtherDebit, at));
    WalkInTwo(at, id, c, run, [Plain(RetryBackoff)]);
    OneStepWalk(at, id, executing, Plain(RetryBackoff));
  }

  // ------------------------------------------------------------ one resolution

  /** The verb of the case's one queued action, if it has one. */
  predicate VerbQueued(q: Outbox.Queue, id: CaseId, verb: Option<ActionType>) {
    && (verb.None? <==> HasNoAction(q, id))
    && forall i :: 0 <= i < |q| && q[i].caseId == id ==>
         verb == Some(if q[i].envelope.action.ScheduleDebit? then ScheduleDebitType else SendMessageType)
  }

  lemma {:induction false} QueuedVerbExactly(digest: ScopeDigest, q: Outbox.Queue, id: CaseId)
    requires Outbox.AllShadow(digest, q)
    requires forall i, j :: 0 <= i < j < |q| ==> q[i].caseId != q[j].caseId
    ensures VerbQueued(q, id, EnqueuedVerb(q, id))
  {
    if q != [] {
      var n := |q| - 1;
      QueuedVerbExactly(digest, q[..n], id);
      assert Outbox.ShadowsEnvelope(digest, q[n]);
      forall i | 0 <= i < n ensures q[i] == q[..n][i] && q[i].caseId != q[n].caseId {
      }
    }
  }

  /** What a resolution does: a lane, one response row and its ending; or nothing. */
  ghost predicate ResolvedAs(db: DB, db': DB, id: CaseId, money: bool, o: SimulatedOutcome) {
    && id in db.cases
    && var c := db.cases[id];
       var at, lane := c.recoveryWindowEndsAt, LaneOf(HasResponse(db.audit, id), c.arm, c.state);
       if lane == NotSimulated then
         && db' == db
         && o == SimulatedOutcome(id, c.arm, NotSimulated, c.amountAtRisk, c.state, c.state, None, false, 0, 0)
       else
         exists verb :: (if lane == TargetedAgent then VerbQueued(db.outbox, id, verb) else verb == None)
           && var (record, rows) := Ending(lane, c, verb, money);
              && Wrote(db, db', id, record, [],
                       [Body(at, Some(id), System, SimulatedPspResponse, OutcomeInputs(id, c.arm, money), None, [], None)] + rows)
              && o == SimulatedOutcome(id, c.arm, lane, c.amountAtRisk, c.state, record.state, verb, money,
                                       if money then c.amountAtRisk else 0,
                                       if lane == GenericBaseline then 4
                                       else if lane == TargetedAgent && verb == Some(SendMessageType) then 1 else 0)
  }

  lemma LaneExactly(db: DB, c: RiskCase)
    ensures LaneFor(db, c) == LaneOf(HasResponse(db.audit, c.caseId), c.arm, c.state)
  {
  }

  lemma EndingExactly(lane: SimLane, c: RiskCase, verb: Option<ActionType>, money: bool)
    ensures EndsAs(lane, c, verb, money)
  {
    hide EndsAs;
    match lane
    case NotSimulated => assert EndsAs(NotSimulated, c, verb, money) by { NotSimulatedEnding(c, verb, money); }
    case NaturalOnly => NaturalEnding(lane, c, verb, money);
    case NaturalFloor => NaturalEnding(lane, c, verb, money);
    case GenericBaseline => DripEnding(c, verb, money);
    case TargetedAgent => TargetedEnding(c, verb, money);
  }

  lemma NotSimulatedEnding(c: RiskCase, verb: Option<ActionType>, money: bool)
    ensures EndsAs(NotSimulated, c, verb, money)
  {
  }

  lemma QueueFacts(env: Env, db: DB)
    requires Good(env, db)
    ensures Outbox.AllShadow(env.world.digest, db.outbox)
    ensures forall i, j :: 0 <= i < j < |db.outbox| ==> db.outbox[i].caseId != db.outbox[j].caseId
  {
  }

  /** Resolving a case of any good ledger, when it completes, does exactly this. */
  lemma ResolveExactly(env: Env, db: DB, id: CaseId, money: bool)
    requires Good(env, db) && ResolveCase(env, db, id, money).Success?
    ensures var (db', o) := ResolveCase(env, db, id, money).value; ResolvedAs(db, db', id, money, o)
  {
    hide Walk, StepsFor, Log, GoodOwing, LaneFor, LaneOf, Ending, RowsOfWalk, RecordOfWalk, CasesGood, ChainGood, Appends,
         EnqueuedVerb, VerbQueued, HasResponse;
    ResolvingKnownCase(env, db, id, money);
    CaseKnowsItsId(env, db, id);
    var c := db.cases[id];
    LaneExactly(db, c);
    var lane, at := LaneFor(db, c), c.recoveryWindowEndsAt;
    if lane != NotSimulated {
      var verb := if lane == TargetedAgent then EnqueuedVerb(db.outbox, id) else None;
      QueueFacts(env, db);
      QueuedVerbExactly(env.world.digest, db.outbox, id);
      GoodLogAndCases(env, db, []);
      ResponseRowKeepsGood(env, db, c, money);
      var body := ResponseBody(c, money);
      LogWrote(env, db, id, body);
      var answered := Log(env, db, body).value;
      var steps := StepsFor(lane, c, verb, money, at);
      WalkWrote(env, answered, id, steps, at);
      EndingExactly(lane, c, verb, money);
      var walked := Walk(env, answered, id, steps, at).value;
      WroteTwice(db, answered, walked, id, c, RecordOfWalk(c, steps), [], [], [body], RowsOfWalk(at, id, c.state, steps));
    }
  }
}
