/**
 The spine as the program runs it: four tables updated in place, one write at a time.
 Every method is tied to the function of module Spine that says what it does.
 */
module SpineStore {
  import opened Wrappers
  import opened Vocabulary
  import opened Actions
  import opened Cases
  import opened Parties
  import opened AuditChain
  import S = Spine
  import F = Flow
  import Outbox

  class Store {
    const env: S.Env
    var obligations: map<ObligationId, Obligation>
    var cases: map<CaseId, RiskCase>
    var outbox: Outbox.Queue
    var audit: seq<AuditRow>

    ghost function View(): S.DB
      reads this
    {
      S.DB(obligations, cases, outbox, audit)
    }

    constructor (env: S.Env)
      ensures this.env == env && View() == S.EMPTY_DB
    {
      this.env := env;
      obligations, cases, outbox, audit := map[], map[], [], [];
    }

    // ---------------------------------------------------------- audit log

    method TailRow() returns (tail: Option<AuditRow>)
      ensures tail == if audit == [] then None else Some(audit[|audit| - 1])
    {
      if |audit| == 0 {
        return None;
      }
      return Some(audit[|audit| - 1]);
    }

    /** Built from the tail alone; the log is only ever extended. */
    method Append(body: Body) returns (r: Result<AuditRow, S.SpineError>)
      modifies this`audit
      ensures match S.Log(env, old(View()), body)
              case Success(db) => r.Success? && View() == db && audit == old(audit) + [r.value]
              case Failure(e) => r == Failure(e) && View() == old(View())
    {
      var tail := TailRow();
      var row := NextRow(env.hash, if tail.Some? then [tail.value] else [], body);
      if !RowValid(env.world.digest, row) {
        return Failure(S.AuditRejected);
      }
      audit := audit + [row];
      return Success(row);
    }

    // ---------------------------------------------------------- ledger

    /** Insert, or overwrite the row with that id; an over-settled obligation is refused. */
    method UpsertObligation(o: Obligation) returns (r: Result<Obligation, S.SpineError>)
      modifies this`obligations
      ensures match S.UpsertObligation(old(View()), o)
              case Success(db) => r == Success(o) && View() == db
              case Failure(e) => r == Failure(e) && View() == old(View())
    {
      if !o.Valid() {
        return Failure(S.InvalidObligation);
      }
      obligations := obligations[o.obligationId := o];
      return Success(o);
    }

    method FindLiveCase(o: ObligationId) returns (found: Option<CaseId>)
      ensures found.Some? <==> S.HasLiveCase(View(), o)
    {
      var left := cases.Keys;
      while left != {}
        invariant left <= cases.Keys
        invariant forall id :: id in cases && id !in left ==> !(cases[id].obligationId == o && cases[id].IsLive())
        decreases |left|
      {
        var id :| id in left;
        if cases[id].obligationId == o && cases[id].IsLive() {
          return Some(id);
        }
        left := left - {id};
      }
      return None;
    }

    /** A refusal before the first write leaves every table alone. */
    method OpenCase(c: RiskCase, actor: ActorType, at: Instant) returns (r: Result<RiskCase, S.SpineError>)
      modifies this`cases, this`audit
      ensures match S.OpenCase(env, old(View()), c, actor, at)
              case Success(db) => r == Success(c) && View() == db
              case Failure(e) => r == Failure(e) && (e != S.AuditRejected ==> View() == old(View()))
    {
      if !c.Valid() {
        return Failure(S.InvalidCase);
      }
      if c.state != Detected {
        return Failure(S.NotOpenedAsDetected);
      }
      var live := FindLiveCase(c.obligationId);
      if live.Some? {
        return Failure(S.DuplicateActiveCase);
      }
      if c.caseId in cases {
        return Failure(S.DuplicateCaseId);
      }
      if c.obligationId !in obligations {
        return Failure(S.UnknownObligation);
      }
      cases := cases[c.caseId := c];
      var _ :- Append(S.Note(at, c.caseId, actor, CaseOpened, OpenedInputs(c.caseId)));
      return Success(c);
    }

    /** The passed fields are written over the case one by one, then it is validated. */
    method Rebuild(current: RiskCase, to: CaseState, u: FieldUpdates) returns (r: Result<RiskCase, S.SpineError>)
      ensures r == if Overwrite(current, to, u).Valid() then Success(Overwrite(current, to, u)) else Failure(S.InvalidCase)
    {
      var data := current.(state := to);
      if u.activePlanId.Some? {
        data := data.(activePlanId := u.activePlanId);
      }
      if u.activeDiagnosisId.Some? {
        data := data.(activeDiagnosisId := u.activeDiagnosisId);
      }
      if u.stopReason.Some? {
        data := data.(stopReason := u.stopReason);
      }
      if u.stoppedAt.Some? {
        data := data.(stoppedAt := u.stoppedAt);
      }
      if !data.Valid() {
        return Failure(S.InvalidCase);
      }
      return Success(data);
    }

    method Transition(id: CaseId, to: CaseState, u: FieldUpdates, actor: ActorType, event: EventType, at: Instant)
      returns (r: Result<RiskCase, S.SpineError>)
      modifies this`cases, this`audit
      ensures match S.Transition(env, old(View()), id, to, u, actor, event, at)
              case Success(db) => View() == db && id in db.cases && r == Success(db.cases[id])
              case Failure(e) => r == Failure(e) && (e != S.AuditRejected ==> View() == old(View()))
    {
      if id !in cases {
        return Failure(S.CaseNotFound);
      }
      var current := cases[id];
      if !CanMove(current.state, to) {
        return Failure(S.IllegalTransition);
      }
      var rebuilt :- Rebuild(current, to, u);
      cases := cases[id := rebuilt];
      var _ :- Append(S.Note(at, id, actor, event, MoveInputs(id, current.state, to)));
      return Success(rebuilt);
    }

    /** The rows of the given cases, `ORDER BY case_id`. */
    method InIdOrder(ids: set<CaseId>) returns (rows: seq<RiskCase>)
      requires S.CasesGood(View()) && ids <= cases.Keys
      ensures forall i, j :: 0 <= i < j < |rows| ==> rows[i].caseId < rows[j].caseId
      ensures forall c :: c in rows <==> c.caseId in ids && cases[c.caseId] == c
    {
      var order := InOrder(ids);
      var table := cases;
      rows := seq(|order|, i requires 0 <= i < |order| => assert order[i] in ids; table[order[i]]);
      forall c ensures c in rows <==> c.caseId in ids && cases[c.caseId] == c {
        if c.caseId in ids && cases[c.caseId] == c {
          var k :| 0 <= k < |order| && order[k] == c.caseId;
          assert rows[k] == c;
        }
        if c in rows {
          var k :| 0 <= k < |rows| && rows[k] == c;
          assert order[k] in ids;
        }
      }
      forall i, j | 0 <= i < j < |rows| ensures rows[i].caseId < rows[j].caseId {
        assert order[i] in ids && order[j] in ids;
      }
    }

    /** Every non-terminal case. */
    method ListAtRisk() returns (rows: seq<RiskCase>)
      requires S.CasesGood(View())
      ensures forall i, j :: 0 <= i < j < |rows| ==> rows[i].caseId < rows[j].caseId
      ensures forall c :: c in rows <==> c.caseId in cases && cases[c.caseId] == c && c.IsLive()
    {
      rows := InIdOrder(set id | id in cases && cases[id].IsLive());
    }

    /** Every case parked for a human to approve. */
    method ListAwaitingApproval() returns (rows: seq<RiskCase>)
      requires S.CasesGood(View())
      ensures forall i, j :: 0 <= i < j < |rows| ==> rows[i].caseId < rows[j].caseId
      ensures forall c :: c in rows <==> c.caseId in cases && cases[c.caseId] == c && c.state == AwaitingApproval
    {
      rows := InIdOrder(set id | id in cases && cases[id].state == AwaitingApproval);
    }

    // ---------------------------------------------------------- outbox

    method FindKey(key: IdempotencyKey) returns (found: Option<Outbox.OutboxRow>)
      ensures found == match Outbox.IndexOfKey(outbox, key) { case None => None case Some(i) => Some(outbox[i]) }
    {
      var i := 0;
      while i < |outbox|
        invariant 0 <= i <= |outbox|
        invariant Outbox.IndexOfKey(outbox[..i], key).None?
      {
        assert outbox[..i + 1][..i] == outbox[..i];
        if outbox[i].key == key {
          FirstIndexStands(outbox, key, i + 1);
          return Some(outbox[i]);
        }
        i := i + 1;
      }
      assert outbox[..i] == outbox;
      return None;
    }

    method HasClash(coordinates: (ObligationId, nat)) returns (clash: bool)
      ensures clash <==> Outbox.HoldsDebit(outbox, coordinates)
    {
      var i := 0;
      while i < |outbox|
        invariant 0 <= i <= |outbox|
        invariant forall j :: 0 <= j < i ==> outbox[j].coordinates != Some(coordinates)
      {
        if outbox[i].coordinates == Some(coordinates) {
          return true;
        }
        i := i + 1;
      }
      return false;
    }

    method Enqueue(e: Envelope) returns (r: Result<Outbox.OutboxRow, S.SpineError>)
      modifies this`outbox
      ensures match S.Enqueue(env, old(View()), e)
              case Success(done) => View() == done.0 && r == Success(done.1)
              case Failure(err) => r == Failure(err) && View() == old(View())
    {
      var key := KeyOf(env.world.digest, e);
      var existing := FindKey(key);
      if existing.Some? {
        return Success(existing.value);
      }
      var coordinates := Outbox.DebitCoordinates(e);
      if coordinates.Some? {
        var clash := HasClash(coordinates.value);
        if clash {
          return Failure(S.DoubleDebitBlocked);
        }
      }
      var row := Outbox.NewRow(env.world.digest, outbox, e);
      outbox := outbox + [row];
      return Success(row);
    }

    /** `ORDER BY id LIMIT 1` over the pending rows, then compare-and-set. */
    method Claim(worker: Outbox.Worker) returns (claimed: Option<Outbox.OutboxRow>)
      requires Outbox.Ordered(outbox)
      modifies this`outbox
      ensures View() == old(View()).(outbox := Outbox.Claim(old(outbox), worker).0)
      ensures claimed == Outbox.Claim(old(outbox), worker).1
    {
      var best: Option<nat> := None;
      var i := 0;
      while i < |outbox|
        invariant 0 <= i <= |outbox|
        invariant best.None? <==> forall j :: 0 <= j < i ==> outbox[j].status != Outbox.Pending
        invariant best.Some? ==>
                    && best.value < i && outbox[best.value].status == Outbox.Pending
                    && forall j :: 0 <= j < i && outbox[j].status == Outbox.Pending ==> outbox[best.value].id <= outbox[j].id
      {
        if outbox[i].status == Outbox.Pending && (best.None? || outbox[i].id < outbox[best.value].id) {
          best := Some(i);
        }
        i := i + 1;
      }
      if best.None? {
        return None;
      }
      assert Outbox.FirstPending(outbox) == best;
      var row := Outbox.ClaimedRow(outbox[best.value], worker);
      outbox := outbox[best.value := row];
      return Some(row);
    }

    method Mark(id: nat, report: Outbox.Report)
      modifies this`outbox
      ensures View() == old(View()).(outbox := Outbox.Finish(old(outbox), id, report))
    {
      var i := 0;
      while i < |outbox|
        invariant 0 <= i <= |outbox| == |old(outbox)|
        invariant forall j :: i <= j < |outbox| ==> outbox[j] == old(outbox)[j]
        invariant forall j :: 0 <= j < i ==> outbox[j] == Outbox.Finish(old(outbox), id, report)[j]
      {
        if outbox[i].id == id {
          outbox := outbox[i := Outbox.Finished(outbox[i], report)];
        }
        i := i + 1;
      }
      assert outbox == Outbox.Finish(old(outbox), id, report);
    }

    method MarkDone(id: nat, resultDigest: Option<nat>)
      modifies this`outbox
      ensures View() == old(View()).(outbox := Outbox.Finish(old(outbox), id, Outbox.Succeeded(resultDigest)))
    {
      Mark(id, Outbox.Succeeded(resultDigest));
    }

    method MarkFailed(id: nat, error: nat)
      modifies this`outbox
      ensures View() == old(View()).(outbox := Outbox.Finish(old(outbox), id, Outbox.Broke(error)))
    {
      Mark(id, Outbox.Broke(error));
    }

    /** The two `COUNT(*)` queries behind the frequency and retry facts. */
    method OutboxCounts(c: RiskCase) returns (debits: nat, contacts: nat)
      ensures debits == F.DebitCount(outbox, c.obligationId)
      ensures contacts == F.ContactCount(outbox, c.caseId)
    {
      debits, contacts := 0, 0;
      var i := 0;
      while i < |outbox|
        invariant 0 <= i <= |outbox|
        invariant debits == F.DebitCount(outbox[..i], c.obligationId)
        invariant contacts == F.ContactCount(outbox[..i], c.caseId)
      {
        assert outbox[..i + 1][..i] == outbox[..i];
        var row := outbox[i];
        if row.coordinates.Some? && row.coordinates.value.0 == c.obligationId && row.actionType == ScheduleDebitType {
          debits := debits + 1;
        }
        if row.caseId == c.caseId && row.actionType == SendMessageType {
          contacts := contacts + 1;
        }
        i := i + 1;
      }
      assert outbox[..i] == outbox;
    }
  }

  method LeastOf(ids: set<CaseId>) returns (least: CaseId)
    requires ids != {}
    ensures least in ids && forall id :: id in ids ==> least <= id
  {
    least :| least in ids;
    var left := ids - {least};
    while left != {}
      invariant left <= ids && least in ids
      invariant forall id :: id in ids && id !in left ==> least <= id
      decreases |left|
    {
      var id :| id in left;
      if id < least {
        least := id;
      }
      left := left - {id};
    }
  }

  method InOrder(ids: set<CaseId>) returns (order: seq<CaseId>)
    ensures forall i, j :: 0 <= i < j < |order| ==> order[i] < order[j]
    ensures forall id :: id in order <==> id in ids
  {
    order := [];
    var left := ids;
    while left != {}
      invariant left <= ids
      invariant forall i, j :: 0 <= i < j < |order| ==> order[i] < order[j]
      invariant forall id :: id in order <==> id in ids && id !in left
      invariant forall i, id :: 0 <= i < |order| && id in left ==> order[i] < id
      decreases |left|
    {
      var least := LeastOf(left);
      order := order + [least];
      left := left - {least};
    }
  }

  lemma {:induction false} FirstIndexStands(q: Outbox.Queue, key: IdempotencyKey, n: nat)
    requires n <= |q| && Outbox.IndexOfKey(q[..n], key).Some?
    ensures Outbox.IndexOfKey(q, key) == Outbox.IndexOfKey(q[..n], key)
    decreases |q|
  {
    if n == |q| {
      assert q[..n] == q;
    } else {
      assert q[..|q| - 1][..n] == q[..n];
      FirstIndexStands(q[..|q| - 1], key, n);
    }
  }
}
