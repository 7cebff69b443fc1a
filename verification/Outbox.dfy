/**
 The idempotent outbox (reclaim/spine/outbox.py): proposed actions wait here for an
 executor. Rows are kept in insertion order; ids come from an autoincrement column.
 */
module Outbox {
  import opened Wrappers
  import opened Vocabulary
  import opened Actions

  datatype Status = Pending | Claimed | Done | Failed {
    predicate IsOpen() {
      Pending? || Claimed?
    }
  }

  type Worker = nat

  /** What an executor reports about a row it worked on. */
  datatype Report = Succeeded(resultDigest: Option<nat>) | Broke(error: nat)

  /** The queryable columns shadow the envelope, which is the source of truth. */
  datatype OutboxRow = OutboxRow(
    id: nat,
    key: IdempotencyKey,
    caseId: CaseId,
    coordinates: Option<(ObligationId, nat)>,
    actionType: ActionType,
    envelope: Envelope,
    status: Status,
    claimedBy: Option<Worker>,
    resultDigest: Option<nat>,
    error: Option<nat>)

  type Queue = seq<OutboxRow>
  type ScopeDigest = (CaseId, Action) -> Digest

  /** Present only for a debit: the obligation and the attempt it is. */
  function DebitCoordinates(e: Envelope): Option<(ObligationId, nat)> {
    if e.action.ScheduleDebit? then Some((e.action.obligationId, e.action.attemptSequence)) else None
  }

  function IndexOfKey(q: Queue, key: IdempotencyKey): (i: Option<nat>)
    ensures i.Some? ==> i.value < |q| && q[i.value].key == key
    ensures i.None? <==> forall j :: 0 <= j < |q| ==> q[j].key != key
  {
    if q == [] then None
    else
      var earlier := IndexOfKey(q[..|q| - 1], key);
      if earlier.Some? then earlier
      else if q[|q| - 1].key == key then Some(|q| - 1)
      else None
  }

  predicate HoldsDebit(q: Queue, coordinates: (ObligationId, nat)) {
    exists i :: 0 <= i < |q| && q[i].coordinates == Some(coordinates)
  }

  function NextId(q: Queue): nat {
    if q == [] then 1 else q[|q| - 1].id + 1
  }

  function NewRow(digest: ScopeDigest, q: Queue, e: Envelope): OutboxRow {
    OutboxRow(NextId(q), KeyOf(digest, e), e.caseId, DebitCoordinates(e), e.action.Type(), e, Pending, None, None, None)
  }

  /** A known key returns its row untouched; a debit of an obligation and attempt that
      is already queued is refused (`None`); anything else becomes the newest row. */
  function Enqueue(digest: ScopeDigest, q: Queue, e: Envelope): Option<(Queue, OutboxRow)> {
    var known := IndexOfKey(q, KeyOf(digest, e));
    if known.Some? then Some((q, q[known.value]))
    else if e.action.ScheduleDebit? && HoldsDebit(q, DebitCoordinates(e).value) then None
    else Some((q + [NewRow(digest, q, e)], NewRow(digest, q, e)))
  }

  function FirstPending(q: Queue): (i: Option<nat>)
    ensures i.Some? ==> i.value < |q| && q[i.value].status == Pending
                        && forall j :: 0 <= j < i.value ==> q[j].status != Pending
    ensures i.None? <==> forall j :: 0 <= j < |q| ==> q[j].status != Pending
  {
    if q == [] then None
    else
      var earlier := FirstPending(q[..|q| - 1]);
      if earlier.Some? then earlier
      else if q[|q| - 1].status == Pending then Some(|q| - 1)
      else None
  }

  function ClaimedRow(r: OutboxRow, worker: Worker): OutboxRow {
    r.(status := Claimed, claimedBy := Some(worker))
  }

  /** The oldest pending row goes to the worker; an empty queue hands out nothing. */
  function Claim(q: Queue, worker: Worker): (Queue, Option<OutboxRow>) {
    match FirstPending(q)
    case None => (q, None)
    case Some(i) =>
      var row := ClaimedRow(q[i], worker);
      (q[i := row], Some(row))
  }

  /** Every row with that id, whatever its status, as an SQL update does. */
  function Finish(q: Queue, id: nat, report: Report): (r: Queue)
    ensures |r| == |q|
    ensures forall i :: 0 <= i < |q| ==>
              r[i] == if q[i].id == id then Finished(q[i], report) else q[i]
  {
    seq(|q|, i requires 0 <= i < |q| => if q[i].id == id then Finished(q[i], report) else q[i])
  }

  /** Success overwrites the digest column, clearing it when there is no digest, and leaves
      the error column alone; a failure does the opposite. */
  function Finished(r: OutboxRow, report: Report): OutboxRow {
    match report
    case Succeeded(resultDigest) => r.(status := Done, resultDigest := resultDigest)
    case Broke(error) => r.(status := Failed, error := Some(error))
  }

  // ------------------------------------------------------------ what every queue keeps

  /** The columns a writer derives from the envelope. */
  predicate ShadowsEnvelope(digest: ScopeDigest, r: OutboxRow) {
    && r.key == KeyOf(digest, r.envelope)
    && r.caseId == r.envelope.caseId
    && r.coordinates == DebitCoordinates(r.envelope)
    && r.actionType == r.envelope.action.Type()
  }

  predicate Ordered(q: Queue) {
    forall i, j :: 0 <= i < j < |q| ==> q[i].id < q[j].id
  }

  predicate DistinctKeys(q: Queue) {
    forall i, j :: 0 <= i < j < |q| ==> q[i].key != q[j].key
  }

  /** No two debits of one obligation and attempt, whoever proposed them. */
  predicate DistinctDebits(q: Queue) {
    forall i, j :: 0 <= i < j < |q| && q[i].coordinates.Some? ==> q[i].coordinates != q[j].coordinates
  }

  predicate AllShadow(digest: ScopeDigest, q: Queue) {
    forall i :: 0 <= i < |q| ==> ShadowsEnvelope(digest, q[i])
  }

  predicate GoodQueue(digest: ScopeDigest, q: Queue) {
    Ordered(q) && DistinctKeys(q) && DistinctDebits(q) && AllShadow(digest, q)
  }

  /** Only the worker-lifecycle columns differ. */
  predicate SameProposal(a: OutboxRow, b: OutboxRow) {
    && a.id == b.id && a.key == b.key && a.caseId == b.caseId && a.coordinates == b.coordinates
    && a.actionType == b.actionType && a.envelope == b.envelope
  }

  predicate SameProposals(a: Queue, b: Queue) {
    |a| == |b| && forall i :: 0 <= i < |a| ==> SameProposal(a[i], b[i])
  }

  lemma SameProposalsStayGood(digest: ScopeDigest, a: Queue, b: Queue)
    requires GoodQueue(digest, a) && SameProposals(a, b)
    ensures GoodQueue(digest, b)
  {
    forall i | 0 <= i < |b| ensures ShadowsEnvelope(digest, b[i]) {
      assert SameProposal(a[i], b[i]) && ShadowsEnvelope(digest, a[i]);
    }
    forall i, j | 0 <= i < j < |b|
      ensures b[i].id < b[j].id && b[i].key != b[j].key
      ensures b[i].coordinates.Some? ==> b[i].coordinates != b[j].coordinates
    {
      assert SameProposal(a[i], b[i]) && SameProposal(a[j], b[j]);
    }
  }

  /** A row as it is first stored, column by column. */
  function FreshRow(digest: ScopeDigest, id: nat, e: Envelope): OutboxRow {
    match e.action
    case ScheduleDebit(obligation, _, _, _, attempt) =>
      OutboxRow(id, IdempotencyKey(ScheduleDebitType, digest(e.caseId, e.action)), e.caseId, Some((obligation, attempt)),
                ScheduleDebitType, e, Pending, None, None, None)
    case SendMessage(_, _, _, _, _) =>
      OutboxRow(id, IdempotencyKey(SendMessageType, digest(e.caseId, e.action)), e.caseId, None,
                SendMessageType, e, Pending, None, None, None)
  }

  /** What a worker's report leaves behind: the named row alone, done with the digest it
      brought or with none, or failed with its error; never pending again. */
  lemma FinishExactly(q: Queue, id: nat, report: Report)
    ensures var r := Finish(q, id, report);
            |r| == |q| && forall i :: 0 <= i < |q| ==>
              if q[i].id != id then r[i] == q[i]
              else match report {
                case Succeeded(d) => r[i] == q[i].(status := Done, resultDigest := d)
                case Broke(error) => r[i] == q[i].(status := Failed, error := Some(error))
              }
  {
  }

  /** Enqueueing keeps the queue good. It changes it exactly when the key is new and the
      debit is not a second one, and then only by adding one row at the end: an action
      already proposed is never reset, whatever became of it. */
  lemma EnqueueKeepsTheQueueGood(digest: ScopeDigest, q: Queue, e: Envelope)
    requires GoodQueue(digest, q)
    ensures var r := Enqueue(digest, q, e);
            && (r.None? <==> IndexOfKey(q, KeyOf(digest, e)).None? && e.action.ScheduleDebit?
                             && HoldsDebit(q, DebitCoordinates(e).value))
            && (r.Some? ==> GoodQueue(digest, r.value.0) && q <= r.value.0 <= q + [r.value.1])
            && (r.Some? ==> r.value.1 in r.value.0 && r.value.1.key == KeyOf(digest, e))
            && (r.Some? && IndexOfKey(q, KeyOf(digest, e)).Some? ==> r.value.0 == q)
            && (r.Some? && IndexOfKey(q, KeyOf(digest, e)).None? ==>
                  r.value.0 == q + [r.value.1] && r.value.1 == FreshRow(digest, r.value.1.id, e))
  {
    var r := Enqueue(digest, q, e);
    if r.Some? && IndexOfKey(q, KeyOf(digest, e)).None? {
      var row := NewRow(digest, q, e);
      assert ShadowsEnvelope(digest, row);
      assert row.coordinates.Some? ==> forall i :: 0 <= i < |q| ==> q[i].coordinates != row.coordinates;
    }
  }

  lemma ClaimKeepsProposals(q: Queue, worker: Worker)
    ensures SameProposals(q, Claim(q, worker).0)
  {
  }

  lemma FinishKeepsProposals(q: Queue, id: nat, report: Report)
    ensures SameProposals(q, Finish(q, id, report))
  {
  }

  // ------------------------------------------------------------ runs of the queue

  datatype QueueOp =
    | Put(envelope: Envelope)
    | Take(worker: Worker)
    | Mark(id: nat, report: Report)

  /** A refused enqueue is a raised exception: the transaction leaves the queue alone. */
  function QueueStep(digest: ScopeDigest, q: Queue, op: QueueOp): Queue {
    match op
    case Put(e) => (match Enqueue(digest, q, e) case None => q case Some(r) => r.0)
    case Take(worker) => Claim(q, worker).0
    case Mark(id, report) => Finish(q, id, report)
  }

  function QueueAfter(digest: ScopeDigest, ops: seq<QueueOp>): Queue {
    if ops == [] then [] else QueueStep(digest, QueueAfter(digest, ops[..|ops| - 1]), ops[|ops| - 1])
  }

  /** The id an operation hands to a worker, if any. */
  function Delivered(q: Queue, op: QueueOp): seq<nat> {
    if op.Take? then match Claim(q, op.worker).1 { case Some(row) => [row.id] case None => [] } else []
  }

  /** The ids handed to workers, in the order they were handed out. */
  function HandedOut(digest: ScopeDigest, ops: seq<QueueOp>): seq<nat> {
    if ops == [] then []
    else
      var before := ops[..|ops| - 1];
      HandedOut(digest, before) + Delivered(QueueAfter(digest, before), ops[|ops| - 1])
  }

  predicate Increasing(ids: seq<nat>) {
    forall i, j :: 0 <= i < j < |ids| ==> ids[i] < ids[j]
  }

  /** Every id handed out lies strictly before every row that still waits. */
  predicate Behind(ids: seq<nat>, q: Queue) {
    forall i, j :: 0 <= i < |ids| && 0 <= j < |q| && q[j].status == Pending ==> ids[i] < q[j].id
  }

  predicate BehindNext(ids: seq<nat>, q: Queue) {
    forall i :: 0 <= i < |ids| ==> ids[i] < NextId(q)
  }

  lemma StepKeepsTheQueueGood(digest: ScopeDigest, q: Queue, op: QueueOp)
    requires GoodQueue(digest, q)
    ensures GoodQueue(digest, QueueStep(digest, q, op))
  {
    match op
    case Put(e) => EnqueueKeepsTheQueueGood(digest, q, e);
    case Take(worker) =>
      ClaimKeepsProposals(q, worker);
      SameProposalsStayGood(digest, q, Claim(q, worker).0);
    case Mark(id, report) =>
      FinishKeepsProposals(q, id, report);
      SameProposalsStayGood(digest, q, Finish(q, id, report));
  }

  lemma PutStaysBehind(digest: ScopeDigest, ids: seq<nat>, q: Queue, e: Envelope)
    requires Behind(ids, q) && BehindNext(ids, q)
    requires Enqueue(digest, q, e).Some?
    ensures Behind(ids, Enqueue(digest, q, e).value.0) && BehindNext(ids, Enqueue(digest, q, e).value.0)
  {
  }

  lemma TakeStaysBehind(ids: seq<nat>, q: Queue, worker: Worker)
    requires Ordered(q) && Increasing(ids) && Behind(ids, q) && BehindNext(ids, q)
    requires FirstPending(q).Some?
    ensures var i := FirstPending(q).value;
            var ids' := ids + [q[i].id];
            var q' := Claim(q, worker).0;
            Increasing(ids') && Behind(ids', q') && BehindNext(ids', q')
  {
    var i := FirstPending(q).value;
    var q' := Claim(q, worker).0;
    assert q[i].id <= q[|q| - 1].id;
    assert q'[|q| - 1].id == q[|q| - 1].id;
    forall j | 0 <= j < |q'| && q'[j].status == Pending ensures q[i].id < q'[j].id {
      assert j > i;
    }
  }

  lemma FinishStaysBehind(ids: seq<nat>, q: Queue, id: nat, report: Report)
    requires Behind(ids, q) && BehindNext(ids, q)
    ensures var q' := Finish(q, id, report); Behind(ids, q') && BehindNext(ids, q')
  {
    var q' := Finish(q, id, report);
    forall j | 0 <= j < |q'| && q'[j].status == Pending ensures q[j].status == Pending && q[j].id == q'[j].id {
    }
  }

  lemma StepStaysBehind(digest: ScopeDigest, ids: seq<nat>, q: Queue, op: QueueOp)
    requires GoodQueue(digest, q)
    requires Increasing(ids) && Behind(ids, q) && BehindNext(ids, q)
    ensures var ids' := ids + Delivered(q, op);
            var q' := QueueStep(digest, q, op);
            Increasing(ids') && Behind(ids', q') && BehindNext(ids', q')
  {
    match op
    case Put(e) =>
      if Enqueue(digest, q, e).Some? {
        PutStaysBehind(digest, ids, q, e);
      }
    case Take(worker) =>
      if FirstPending(q).Some? {
        TakeStaysBehind(ids, q, worker);
      }
    case Mark(id, report) => FinishStaysBehind(ids, q, id, report);
  }

  /** First in, first out, and at most once: over any run of enqueues, claims and marks
      the ids handed to workers strictly increase, so no row is ever handed out twice;
      and the queue stays good throughout. */
  lemma {:induction false} HandedOutInOrderAndOnce(digest: ScopeDigest, ops: seq<QueueOp>)
    ensures GoodQueue(digest, QueueAfter(digest, ops))
    ensures Increasing(HandedOut(digest, ops))
    ensures Behind(HandedOut(digest, ops), QueueAfter(digest, ops))
    ensures BehindNext(HandedOut(digest, ops), QueueAfter(digest, ops))
  {
    if ops != [] {
      var before, op := ops[..|ops| - 1], ops[|ops| - 1];
      HandedOutInOrderAndOnce(digest, before);
      StepKeepsTheQueueGood(digest, QueueAfter(digest, before), op);
      StepStaysBehind(digest, HandedOut(digest, before), QueueAfter(digest, before), op);
    }
  }

  /** A claim on a good queue returns the pending row with the least id, marks only that
      row, and returns nothing exactly when nothing is pending. */
  lemma ClaimTakesTheOldest(digest: ScopeDigest, q: Queue, worker: Worker)
    requires GoodQueue(digest, q)
    ensures var (q', taken) := Claim(q, worker);
            && (taken.None? <==> forall j :: 0 <= j < |q| ==> q[j].status != Pending)
            && (taken.None? ==> q' == q)
            && (taken.Some? ==>
                  && (exists i :: 0 <= i < |q| && q[i].status == Pending
                                  && taken.value == q[i].(status := Claimed, claimedBy := Some(worker))
                                  && q' == q[i := taken.value])
                  && (forall j :: 0 <= j < |q| && q[j].status == Pending ==> taken.value.id <= q[j].id))
  {
    if FirstPending(q).Some? {
      var i := FirstPending(q).value;
      forall j | 0 <= j < |q| && q[j].status == Pending ensures q[i].id <= q[j].id {
        assert i <= j;
      }
    }
  }
}
