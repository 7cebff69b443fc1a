/**
 The hash-chained append-only log (reclaim/contracts/audit.py). The hash is an arbitrary
 function of a row: nothing assumes it is injective. Where a result needs two rows not to
 collide, the colliding pair is computed instead.
 */
module AuditChain {
  import opened Wrappers
  import opened Vocabulary
  import opened Actions

  /** A SHA-256 value read as a number; the genesis value is all zeros. */
  type Hash = nat

  const GENESIS_HASH: Hash := 0

  datatype EventType =
    | CaseOpened
    | CaseStateChanged
    | DiagnosisProduced
    | ContestedDiagnosisHedged
    | PolicyEvaluated
    | ApprovalRequested
    | ActionScheduled
    | ControlArmNoAction
    | ArmNotRouted
    | SimulatedPspResponse
    | CaseRecovered
    | CaseStopped
    | OtherEvent(name: nat)

  /** The dictionary whose digest a row carries as `inputs_digest`. */
  datatype Inputs =
    | OpenedInputs(openedCase: CaseId)
    | MoveInputs(moved: CaseId, from: CaseState, to: CaseState)
    | DiagnosisInputs(diagnosed: CaseId, riskClass: RiskClass, declineClass: Option<DeclineClass>)
    | HedgeInputs(hedged: CaseId, intent: MessageIntent)
    | PolicyInputs(evaluated: CaseId, key: IdempotencyKey)
    | ApprovalInputs(parked: CaseId, key: IdempotencyKey)
    | ScheduledInputs(scheduled: CaseId, outboxId: nat, actionId: ActionId)
    | ArmInputs(skipped: CaseId, arm: Arm)
    | OutcomeInputs(resolved: CaseId, arm: Arm, recovered: bool)

  /** Everything in a row except its position and its back-link. */
  datatype Body = Body(
    ts: Instant,
    caseId: Option<CaseId>,
    actor: ActorType,
    eventType: EventType,
    inputs: Inputs,
    toolCall: Option<Envelope>,
    verdictRuleIds: seq<nat>,
    idempotencyKey: Option<IdempotencyKey>)

  /** `row_hash` is derived from these fields, so it is not one of them. */
  datatype AuditRow = AuditRow(sequence: int, prevHash: Hash, body: Body)

  type RowHash = AuditRow -> Hash
  type ScopeDigest = (CaseId, Action) -> Digest

  predicate NoRepeatedIds(ids: seq<nat>) {
    forall i, j :: 0 <= i < j < |ids| ==> ids[i] != ids[j]
  }

  /** An executed action names its own key and its own case. */
  predicate BodyValid(digest: ScopeDigest, b: Body) {
    && NoRepeatedIds(b.verdictRuleIds)
    && (b.toolCall.Some? ==>
          && b.idempotencyKey == Some(KeyOf(digest, b.toolCall.value))
          && (b.caseId.Some? ==> b.caseId.value == b.toolCall.value.caseId))
  }

  predicate RowValid(digest: ScopeDigest, r: AuditRow) {
    && r.sequence >= 0
    && BodyValid(digest, r.body)
    && (r.sequence == 0 <==> r.prevHash == GENESIS_HASH)
  }

  /** A body is refused for a rule listed twice, or for a tool call under a key or a case
      other than its own; a row without a tool call may carry any key or none. */
  lemma BodyValidExactly(digest: ScopeDigest, b: Body)
    ensures BodyValid(digest, b) <==>
              && !(exists i, j :: 0 <= i < j < |b.verdictRuleIds| && b.verdictRuleIds[i] == b.verdictRuleIds[j])
              && match b.toolCall {
                   case None => true
                   case Some(e) =>
                     && b.idempotencyKey == Some(IdempotencyKey(if e.action.ScheduleDebit? then ScheduleDebitType else SendMessageType,
                                                                digest(e.caseId, e.action)))
                     && (b.caseId == None || b.caseId == Some(e.caseId))
                 }
  {
  }

  /** The first row, and no other, points at the genesis value; positions count from zero. */
  lemma RowValidExactly(digest: ScopeDigest, r: AuditRow)
    ensures RowValid(digest, r) <==>
              BodyValid(digest, r.body) && (if r.prevHash == 0 then r.sequence == 0 else r.sequence > 0)
  {
  }

  // ------------------------------------------------------------ appending

  /** The next row: position and back-link come from the tail of `rows`. */
  function NextRow(h: RowHash, rows: seq<AuditRow>, body: Body): AuditRow {
    if rows == [] then AuditRow(0, GENESIS_HASH, body)
    else AuditRow(rows[|rows| - 1].sequence + 1, h(rows[|rows| - 1]), body)
  }

  /** The row model refuses a bad body, and a later row that would point at genesis. */
  function Append(h: RowHash, digest: ScopeDigest, rows: seq<AuditRow>, body: Body): Option<seq<AuditRow>> {
    var r := NextRow(h, rows, body);
    if RowValid(digest, r) then Some(rows + [r]) else None
  }

  // ------------------------------------------------------------ the chain

  function PrevOf(h: RowHash, rows: seq<AuditRow>, i: nat): Hash
    requires i <= |rows|
  {
    if i == 0 then GENESIS_HASH else h(rows[i - 1])
  }

  predicate LinkOk(h: RowHash, rows: seq<AuditRow>, i: nat)
    requires i < |rows|
  {
    rows[i].sequence == i && rows[i].prevHash == PrevOf(h, rows, i)
  }

  predicate ValidChain(h: RowHash, rows: seq<AuditRow>) {
    forall i :: 0 <= i < |rows| ==> LinkOk(h, rows, i)
  }

  function Head(h: RowHash, rows: seq<AuditRow>): Hash
    requires rows != []
  {
    h(rows[|rows| - 1])
  }

  datatype ChainVerification = ChainVerification(
    isValid: bool,
    rowsChecked: nat,
    firstBadSequence: Option<int>,
    headHash: Option<Hash>)

  /** Walks the log once. It is valid exactly when every link holds; otherwise
      `rowsChecked` rows are fine and the next one is the first that is not. The
      re-hash of each row against its own derived hash cannot differ and is left out. */
  method VerifyChain(h: RowHash, rows: seq<AuditRow>) returns (v: ChainVerification)
    ensures v.isValid <==> ValidChain(h, rows)
    ensures v.isValid ==> v.rowsChecked == |rows| && v.firstBadSequence.None?
    ensures v.isValid ==> v.headHash == if rows == [] then None else Some(Head(h, rows))
    ensures !v.isValid ==>
              && v.rowsChecked < |rows| && v.headHash.None?
              && (forall i :: 0 <= i < v.rowsChecked ==> LinkOk(h, rows, i))
              && !LinkOk(h, rows, v.rowsChecked)
              && v.firstBadSequence == Some(rows[v.rowsChecked].sequence)
  {
    if rows == [] {
      return ChainVerification(true, 0, None, None);
    }
    var expectedPrev := GENESIS_HASH;
    var expectedSequence := rows[0].sequence;
    if expectedSequence != 0 {
      assert !LinkOk(h, rows, 0);
      return ChainVerification(false, 0, Some(rows[0].sequence), None);
    }
    var index := 0;
    while index < |rows|
      invariant 0 <= index <= |rows|
      invariant expectedSequence == index
      invariant expectedPrev == PrevOf(h, rows, index)
      invariant forall i :: 0 <= i < index ==> LinkOk(h, rows, i)
    {
      var row := rows[index];
      if row.sequence != expectedSequence {
        assert !LinkOk(h, rows, index);
        return ChainVerification(false, index, Some(row.sequence), None);
      }
      if row.prevHash != expectedPrev {
        assert !LinkOk(h, rows, index);
        return ChainVerification(false, index, Some(row.sequence), None);
      }
      expectedPrev := h(row);
      expectedSequence := expectedSequence + 1;
      index := index + 1;
    }
    return ChainVerification(true, |rows|, None, Some(Head(h, rows)));
  }

  /** Appending is always possible and keeps the chain valid, provided the body is
      acceptable and the tail does not hash to the genesis value; the row written from
      the tail alone is the row the whole log would give. */
  lemma AppendKeepsTheChain(h: RowHash, digest: ScopeDigest, rows: seq<AuditRow>, body: Body)
    requires ValidChain(h, rows)
    ensures Append(h, digest, rows, body).Some? <==>
              BodyValid(digest, body) && (rows == [] || Head(h, rows) != GENESIS_HASH)
    ensures Append(h, digest, rows, body).Some? ==>
              && ValidChain(h, Append(h, digest, rows, body).value)
              && Append(h, digest, rows, body).value
                 == rows + [AuditRow(|rows|, if rows == [] then 0 else h(rows[|rows| - 1]), body)]
    ensures rows != [] ==> NextRow(h, [rows[|rows| - 1]], body) == NextRow(h, rows, body)
  {
    var r := NextRow(h, rows, body);
    if rows != [] {
      assert LinkOk(h, rows, |rows| - 1);
    }
    assert r.sequence == |rows|;
    if RowValid(digest, r) {
      forall i | 0 <= i < |rows| + 1 ensures LinkOk(h, rows + [r], i) {
        if i < |rows| {
          assert LinkOk(h, rows, i);
        }
      }
    }
  }

  /** A prefix of a valid chain is a valid chain: nothing inside the log shows a cut tail. */
  lemma PrefixIsAChain(h: RowHash, rows: seq<AuditRow>, n: nat)
    requires ValidChain(h, rows) && n <= |rows|
    ensures ValidChain(h, rows[..n])
  {
    forall i | 0 <= i < n ensures LinkOk(h, rows[..n], i) {
      assert LinkOk(h, rows, i);
    }
  }

  // ------------------------------------------------------------ collisions

  predicate IsCollision(h: RowHash, x: AuditRow, y: AuditRow) {
    x != y && h(x) == h(y)
  }

  /** Walk both logs back from their heads to the first pair of rows that differ. */
  function LastDifference(a: seq<AuditRow>, b: seq<AuditRow>): (AuditRow, AuditRow)
    requires a != [] && b != []
  {
    var x, y := a[|a| - 1], b[|b| - 1];
    if x != y || |a| == 1 || |b| == 1 then (x, y)
    else LastDifference(a[..|a| - 1], b[..|b| - 1])
  }

  /** Two valid logs with the same head are the same log, or the walk finds two
      different rows with one hash: a pinned head commits to every row and to the length. */
  lemma {:induction false} SameHeadSameLog(h: RowHash, a: seq<AuditRow>, b: seq<AuditRow>)
    requires ValidChain(h, a) && ValidChain(h, b)
    requires a != [] && b != [] && Head(h, a) == Head(h, b)
    ensures a == b
         || (IsCollision(h, LastDifference(a, b).0, LastDifference(a, b).1)
             && LastDifference(a, b).0 in a && LastDifference(a, b).1 in b)
    decreases |a|
  {
    var n, m := |a|, |b|;
    var x, y := a[n - 1], b[m - 1];
    assert LinkOk(h, a, n - 1) && LinkOk(h, b, m - 1);
    if x == y {
      assert n == m;
      assert a == a[..n - 1] + [x] && b == b[..m - 1] + [y];
      if n > 1 {
        PrefixIsAChain(h, a, n - 1);
        PrefixIsAChain(h, b, m - 1);
        SameHeadSameLog(h, a[..n - 1], b[..m - 1]);
      }
    }
  }
}
