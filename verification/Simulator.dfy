/**
 The simulated environment over the stored tables (reclaim/sim/outcomes.py): one audit
 row, then the transitions it explains, in the order the program makes them.
 */
module Simulator {
  import opened Wrappers
  import opened Vocabulary
  import opened Actions
  import opened Cases
  import opened AuditChain
  import opened Outcomes
  import opened SpineStore
  import FS = FlowSafety
  import Outbox
  import S = Spine

  method FindResponse(store: Store, id: CaseId) returns (found: bool)
    ensures found <==> AlreadyResolved(store.audit, id)
  {
    var i := 0;
    while i < |store.audit|
      invariant 0 <= i <= |store.audit|
      invariant forall j :: 0 <= j < i ==>
                  !(store.audit[j].body.caseId == Some(id) && store.audit[j].body.eventType == SimulatedPspResponse)
    {
      var b := store.audit[i].body;
      if b.caseId == Some(id) && b.eventType == SimulatedPspResponse {
        return true;
      }
      i := i + 1;
    }
    return false;
  }

  method ChooseLane(store: Store, c: RiskCase) returns (lane: SimLane)
    ensures lane == LaneFor(store.View(), c)
  {
    var resolved := FindResponse(store, c.caseId);
    if resolved {
      return NotSimulated;
    }
    if !InScope(c.arm) {
      return NotSimulated;
    }
    if c.arm == A0 {
      return if c.state == Detected then NaturalOnly else NaturalFloor;
    }
    if c.arm == A1 {
      return if c.state == Detected then GenericBaseline else NaturalFloor;
    }
    return if c.state == Scheduled then TargetedAgent else NaturalFloor;
  }

  method FirstVerb(store: Store, id: CaseId) returns (verb: Option<ActionType>)
    ensures verb == EnqueuedVerb(store.outbox, id)
  {
    var i := 0;
    while i < |store.outbox|
      invariant 0 <= i <= |store.outbox|
      invariant EnqueuedVerb(store.outbox[..i], id).None?
    {
      assert store.outbox[..i + 1][..i] == store.outbox[..i];
      if store.outbox[i].caseId == id {
        FirstVerbStands(store.outbox, id, i + 1);
        return Some(store.outbox[i].actionType);
      }
      i := i + 1;
    }
    assert store.outbox[..i] == store.outbox;
    return None;
  }

  lemma {:induction false} FirstVerbStands(q: Outbox.Queue, id: CaseId, n: nat)
    requires n <= |q| && EnqueuedVerb(q[..n], id).Some?
    ensures EnqueuedVerb(q, id) == EnqueuedVerb(q[..n], id)
    decreases |q|
  {
    if n == |q| {
      assert q[..n] == q;
    } else {
      assert q[..|q| - 1][..n] == q[..n];
      FirstVerbStands(q[..|q| - 1], id, n);
    }
  }

  /** One transition, as the first step of a longer walk. */
  method Advance(store: Store, id: CaseId, s: Step, at: Instant) returns (r: Result<CaseState, S.SpineError>)
    modifies store
    ensures match Take(store.env, old(store.View()), id, s, at)
            case Success(db) => store.View() == db && id in db.cases && r == Success(db.cases[id].state)
            case Failure(e) => r == Failure(e)
  {
    var moved :- store.Transition(id, s.to, s.updates, System, s.event, at);
    return Success(moved.state);
  }

  /** A walk is its first step and then the rest, from the ledger that step leaves. */
  lemma WalkStep(env: S.Env, db: S.DB, id: CaseId, s: Step, rest: seq<Step>, at: Instant)
    ensures var r := Take(env, db, id, s, at);
            Walk(env, db, id, [s] + rest, at) == if r.Success? then Walk(env, r.value, id, rest, at) else Failure(r.error)
  {
    hide Take;
    assert ([s] + rest)[1..] == rest;
  }

  method RecordSelfHeal(store: Store, c: RiskCase, at: Instant) returns (r: Result<CaseState, S.SpineError>)
    requires c.caseId in store.cases && store.cases[c.caseId].state == c.state
    modifies store
    ensures match Walk(store.env, old(store.View()), c.caseId, SelfHeal(c.state, at), at)
            case Success(db) => store.View() == db && c.caseId in db.cases && r == Success(db.cases[c.caseId].state)
            case Failure(e) => r == Failure(e)
  {
    hide Take;
    var steps := SelfHeal(c.state, at);
    if CanMove(c.state, Recovered) {
      assert steps[1..] == [];
      r := Advance(store, c.caseId, RECOVERED_STEP, at);
    } else if CanMove(c.state, Stopped) {
      assert steps[1..] == [];
      r := Advance(store, c.caseId, StopStep(AlreadyPaid, at), at);
    } else {
      r := Success(c.state);
    }
  }

  /** The fixed drip of the baseline arm: three moves out, then its end. */
  method RunDrip(store: Store, c: RiskCase, recovered: bool, at: Instant) returns (r: Result<CaseState, S.SpineError>)
    requires c.caseId in store.cases
    modifies store
    ensures match Walk(store.env, old(store.View()), c.caseId, StepsFor(GenericBaseline, c, None, recovered, at), at)
            case Success(db) => store.View() == db && c.caseId in db.cases && r == Success(db.cases[c.caseId].state)
            case Failure(e) => r == Failure(e)
  {
    hide Take;
    var id, env := c.caseId, store.env;
    ghost var tail := if recovered then [RECOVERED_STEP] else [Plain(AwaitingResponse), StopStep(ContactCap, at)];
    ghost var afterPlan, afterSchedule := [Plain(Scheduled), Plain(Executing)] + tail, [Plain(Executing)] + tail;
    assert StepsFor(GenericBaseline, c, None, recovered, at) == [Plain(Planned)] + afterPlan;
    assert afterPlan == [Plain(Scheduled)] + afterSchedule;
    WalkStep(env, store.View(), id, Plain(Planned), afterPlan, at);
    var planned :- Advance(store, id, Plain(Planned), at);
    WalkStep(env, store.View(), id, Plain(Scheduled), afterSchedule, at);
    var scheduled :- Advance(store, id, Plain(Scheduled), at);
    WalkStep(env, store.View(), id, Plain(Executing), tail, at);
    var executing :- Advance(store, id, Plain(Executing), at);
    if recovered {
      assert tail == [RECOVERED_STEP] + [];
      WalkStep(env, store.View(), id, RECOVERED_STEP, [], at);
      r := Advance(store, id, RECOVERED_STEP, at);
    } else {
      assert tail == [Plain(AwaitingResponse)] + [StopStep(ContactCap, at)];
      WalkStep(env, store.View(), id, Plain(AwaitingResponse), [StopStep(ContactCap, at)], at);
      var awaiting :- Advance(store, id, Plain(AwaitingResponse), at);
      assert [StopStep(ContactCap, at)] == [StopStep(ContactCap, at)] + [];
      WalkStep(env, store.View(), id, StopStep(ContactCap, at), [], at);
      r := Advance(store, id, StopStep(ContactCap, at), at);
    }
  }

  /** The scheduled action is executed; what follows depends on the verb and the class. */
  method RunAction(store: Store, c: RiskCase, verb: Option<ActionType>, recovered: bool, at: Instant)
    returns (r: Result<CaseState, S.SpineError>)
    requires c.caseId in store.cases
    modifies store
    ensures match Walk(store.env, old(store.View()), c.caseId, StepsFor(TargetedAgent, c, verb, recovered, at), at)
            case Success(db) => store.View() == db && c.caseId in db.cases && r == Success(db.cases[c.caseId].state)
            case Failure(e) => r == Failure(e)
  {
    hide Take;
    var id, env := c.caseId, store.env;
    ghost var tail := StepsFor(TargetedAgent, c, verb, recovered, at)[1..];
    assert StepsFor(TargetedAgent, c, verb, recovered, at) == [Plain(Executing)] + tail;
    WalkStep(env, store.View(), id, Plain(Executing), tail, at);
    var executing :- Advance(store, id, Plain(Executing), at);
    if recovered {
      assert tail == [RECOVERED_STEP] + [];
      WalkStep(env, store.View(), id, RECOVERED_STEP, [], at);
      r := Advance(store, id, RECOVERED_STEP, at);
      return;
    }
    if verb == Some(SendMessageType) {
      assert tail == [Plain(AwaitingResponse)] + [Plain(Planned)];
      WalkStep(env, store.View(), id, Plain(AwaitingResponse), [Plain(Planned)], at);
      var awaiting :- Advance(store, id, Plain(AwaitingResponse), at);
      assert [Plain(Planned)] == [Plain(Planned)] + [];
      WalkStep(env, store.View(), id, Plain(Planned), [], at);
      r := Advance(store, id, Plain(Planned), at);
      return;
    }
    if !FurtherDebitPermitted(c.declineClass) {
      assert tail == [StopStep(HardDeclineNoFurtherDebit, at)] + [];
      WalkStep(env, store.View(), id, StopStep(HardDeclineNoFurtherDebit, at), [], at);
      r := Advance(store, id, StopStep(HardDeclineNoFurtherDebit, at), at);
      return;
    }
    assert tail == [Plain(RetryBackoff)] + [];
    WalkStep(env, store.View(), id, Plain(RetryBackoff), [], at);
    r := Advance(store, id, Plain(RetryBackoff), at);
  }

  method Apply(store: Store, c: RiskCase, lane: SimLane, verb: Option<ActionType>, recovered: bool, at: Instant)
    returns (r: Result<CaseState, S.SpineError>)
    requires lane != NotSimulated && (lane == GenericBaseline ==> verb.None?)
    requires c.caseId in store.cases && store.cases[c.caseId].state == c.state
    modifies store
    ensures match Walk(store.env, old(store.View()), c.caseId, StepsFor(lane, c, verb, recovered, at), at)
            case Success(db) => store.View() == db && c.caseId in db.cases && r == Success(db.cases[c.caseId].state)
            case Failure(e) => r == Failure(e)
  {
    hide Take, SelfHeal;
    if lane == NaturalOnly || lane == NaturalFloor {
      if !recovered {
        return Success(c.state);
      }
      r := RecordSelfHeal(store, c, at);
    } else if lane == GenericBaseline {
      r := RunDrip(store, c, recovered, at);
    } else {
      r := RunAction(store, c, verb, recovered, at);
    }
  }

  /** One case as the ledger holds it, keyed by its own id. */
  method ResolveCase(store: Store, id: CaseId, moneyArrived: bool) returns (r: Result<SimulatedOutcome, S.SpineError>)
    requires S.CasesGood(store.View())
    modifies store
    ensures match Outcomes.ResolveCase(store.env, old(store.View()), id, moneyArrived)
            case Success(done) => store.View() == done.0 && r == Success(done.1)
            case Failure(e) => r == Failure(e)
  {
    hide Walk, StepsFor, LaneFor;
    if id !in store.cases {
      return Failure(S.CaseNotFound);
    }
    var c := store.cases[id];
    var lane := ChooseLane(store, c);
    if lane == NotSimulated {
      return Success(OutcomeOf(c, NotSimulated, None, false, c.state));
    }
    var verb: Option<ActionType> := None;
    if lane == TargetedAgent {
      verb := FirstVerb(store, id);
    }
    var row :- store.Append(ResponseBody(c, moneyArrived));
    var final :- Apply(store, c, lane, verb, moneyArrived, c.recoveryWindowEndsAt);
    return Success(OutcomeOf(c, lane, verb, moneyArrived, final));
  }

  /** A whole batch in one transaction, in the order given. */
  method ResolveBatch(store: Store, ids: seq<CaseId>, money: Draws)
    returns (r: Result<(seq<SimulatedOutcome>, map<Arm, ArmTally>), S.SpineError>)
    requires FS.Good(store.env, store.View())
    modifies store
    ensures match Outcomes.ResolveBatch(store.env, old(store.View()), ids, money)
            case Success(done) =>
              && store.View() == done.0 && r.Success? && r.value.0 == done.1
              && (forall arm :: arm in r.value.1 <==> exists i :: 0 <= i < |done.1| && done.1[i].arm == arm)
              && (forall arm :: arm in r.value.1 ==> r.value.1[arm] == TallyOf(done.1, arm))
            case Failure(e) => r == Failure(e) && store.View() == old(store.View())
  {
    hide Outcomes.ResolveCase, FS.GoodOwing, PassDone, S.CasesGood, TallyOf;
    var obligations, cases, outbox, audit := store.obligations, store.cases, store.outbox, store.audit;
    var outcomes: seq<SimulatedOutcome> := [];
    var i := 0;
    while i < |ids|
      invariant 0 <= i <= |ids|
      invariant forall j :: 0 <= j < i ==> ids[j] in cases
      invariant Outcomes.ResolveBatch(store.env, old(store.View()), ids[..i], money) == Success((store.View(), outcomes))
    {
      assert ids[..i + 1][..i] == ids[..i];
      BatchIsNeverIllegal(store.env, old(store.View()), ids[..i], money);
      GoodLedgersKnowTheirCases(store.env, old(store.View()), store.View(), ids[..i], outcomes);
      ghost var here := store.View();
      var outcome := ResolveCase(store, ids[i], money(ids[i]));
      if outcome.Failure? {
        BatchAborts(store.env, old(store.View()), ids, money, i + 1);
        store.obligations, store.cases, store.outbox, store.audit := obligations, cases, outbox, audit;
        return Failure(outcome.error);
      }
      ResolvingKnownCase(store.env, here, ids[i], money(ids[i]));
      outcomes := outcomes + [outcome.value];
      i := i + 1;
    }
    assert ids[..i] == ids;
    var tallies := TallyByArm(outcomes);
    return Success((outcomes, tallies));
  }

  lemma GoodLedgersKnowTheirCases(env: S.Env, start: S.DB, db: S.DB, ids: seq<CaseId>, outcomes: seq<SimulatedOutcome>)
    requires PassDone(env, start, db, ids, outcomes)
    ensures S.CasesGood(db) && db.cases.Keys == start.cases.Keys
  {
  }

  lemma {:induction false} BatchAborts(env: S.Env, db: S.DB, ids: seq<CaseId>, money: Draws, n: nat)
    requires n <= |ids| && Outcomes.ResolveBatch(env, db, ids[..n], money).Failure?
    ensures Outcomes.ResolveBatch(env, db, ids, money).Failure?
    ensures Outcomes.ResolveBatch(env, db, ids, money).error == Outcomes.ResolveBatch(env, db, ids[..n], money).error
    decreases |ids|
  {
    hide Outcomes.ResolveCase;
    if n == |ids| {
      assert ids[..n] == ids;
    } else {
      assert ids[..|ids| - 1][..n] == ids[..n];
      BatchAborts(env, db, ids[..|ids| - 1], money, n);
    }
  }
}
