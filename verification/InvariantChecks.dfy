/**
 The batch checkers (reclaim/invariants.py): independent re-derivations of three of the
 plan's invariants from the stored rows. Each method says exactly when it reports what.
 */
module InvariantChecks {
  import opened Wrappers
  import opened Vocabulary
  import opened Actions
  import opened AuditChain
  import opened Spine
  import opened Grouping
  import Outbox

  datatype InvariantStatus = Holds | Violated | Vacuous

  datatype InvariantResult = InvariantResult(
    status: InvariantStatus, candidatesExamined: nat, offendingCaseIds: set<CaseId>)

  // ------------------------------------------------------------ #1: no double debit

  /** The rows the checker reads: every queued debit, oldest first. */
  function DebitRows(q: Outbox.Queue): Outbox.Queue {
    if q == [] then []
    else DebitRows(q[..|q| - 1]) + (if q[|q| - 1].actionType == ScheduleDebitType then [q[|q| - 1]] else [])
  }

  /** Coordinates are read from the envelope, not from the columns that shadow it. */
  function Attempts(rows: Outbox.Queue): (pairs: seq<(Option<(ObligationId, nat)>, CaseId)>)
    ensures |pairs| == |rows|
    ensures forall i :: 0 <= i < |rows| ==> pairs[i] == (Outbox.DebitCoordinates(rows[i].envelope), rows[i].caseId)
  {
    seq(|rows|, i requires 0 <= i < |rows| => (Outbox.DebitCoordinates(rows[i].envelope), rows[i].caseId))
  }

  function KeyPairs(rows: Outbox.Queue): (pairs: seq<(IdempotencyKey, CaseId)>)
    ensures |pairs| == |rows|
    ensures forall i :: 0 <= i < |rows| ==> pairs[i] == (rows[i].key, rows[i].caseId)
  {
    seq(|rows|, i requires 0 <= i < |rows| => (rows[i].key, rows[i].caseId))
  }

  predicate SameDebit(a: Outbox.OutboxRow, b: Outbox.OutboxRow) {
    Outbox.DebitCoordinates(a.envelope) == Outbox.DebitCoordinates(b.envelope) || a.key == b.key
  }

  /** Some other row debits the same obligation and attempt, or carries the same key. */
  predicate DoubledAt(rows: Outbox.Queue, i: nat)
    requires i < |rows|
  {
    exists j :: 0 <= j < |rows| && j != i && SameDebit(rows[i], rows[j])
  }

  lemma DoubledIsShared(rows: Outbox.Queue, i: nat)
    requires i < |rows|
    ensures DoubledAt(rows, i) <==> SharedAt(Attempts(rows), i) || SharedAt(KeyPairs(rows), i)
  {
    if DoubledAt(rows, i) {
      var j :| 0 <= j < |rows| && j != i && SameDebit(rows[i], rows[j]);
      assert Attempts(rows)[j].0 == Attempts(rows)[i].0 || KeyPairs(rows)[j].0 == KeyPairs(rows)[i].0;
    }
  }

  /** The two envelopes name one obligation and one attempt, or neither names any. */
  predicate SameAttempt(a: Envelope, b: Envelope) {
    if a.action.ScheduleDebit? && b.action.ScheduleDebit?
    then a.action.obligationId == b.action.obligationId && a.action.attemptSequence == b.action.attemptSequence
    else !a.action.ScheduleDebit? && !b.action.ScheduleDebit?
  }

  /** Row `i` of the outbox is a debit, whatever became of it, and another debit has its
      obligation and attempt or its key. */
  predicate Doubled(q: Outbox.Queue, i: nat)
    requires i < |q|
  {
    && q[i].actionType == ScheduleDebitType
    && exists j :: 0 <= j < |q| && j != i && q[j].actionType == ScheduleDebitType
                   && (SameAttempt(q[i].envelope, q[j].envelope) || q[i].key == q[j].key)
  }

  function DebitsIn(q: Outbox.Queue): set<nat> {
    set i | 0 <= i < |q| && q[i].actionType == ScheduleDebitType
  }

  /** Where the selected rows stand in the outbox. */
  function Positions(q: Outbox.Queue): seq<nat> {
    if q == [] then []
    else Positions(q[..|q| - 1]) + (if q[|q| - 1].actionType == ScheduleDebitType then [|q| - 1] else [])
  }

  lemma OneMoreRowIn(q: Outbox.Queue, r: Outbox.OutboxRow)
    ensures Positions(q + [r]) == Positions(q) + (if r.actionType == ScheduleDebitType then [|q|] else [])
    ensures DebitRows(q + [r]) == DebitRows(q) + (if r.actionType == ScheduleDebitType then [r] else [])
  {
    assert (q + [r])[..|q|] == q;
  }

  predicate Selects(q: Outbox.Queue, rows: Outbox.Queue, at: seq<nat>) {
    && |at| == |rows|
    && (forall k :: 0 <= k < |at| ==> at[k] < |q| && rows[k] == q[at[k]] && rows[k].actionType == ScheduleDebitType)
    && (forall k, l :: 0 <= k < l < |at| ==> at[k] < at[l])
    && (forall i :: 0 <= i < |q| && q[i].actionType == ScheduleDebitType ==> i in at)
  }

  lemma OneMoreSelected(q: Outbox.Queue, rows: Outbox.Queue, at: seq<nat>, r: Outbox.OutboxRow)
    requires Selects(q, rows, at)
    ensures if r.actionType == ScheduleDebitType then Selects(q + [r], rows + [r], at + [|q|]) else Selects(q + [r], rows, at)
  {
    var more := q + [r];
    assert forall i :: 0 <= i < |q| ==> more[i] == q[i];
    forall i | 0 <= i < |more| && more[i].actionType == ScheduleDebitType && i < |q| ensures i in at {
      assert q[i] == more[i];
    }
  }

  lemma {:induction false} EveryDebitIsSelected(q: Outbox.Queue)
    ensures Selects(q, DebitRows(q), Positions(q))
  {
    hide Selects;
    if q == [] {
      assert Selects([], [], []) by { NothingSelected(); }
    } else {
      var before, r := q[..|q| - 1], q[|q| - 1];
      assert q == before + [r];
      EveryDebitIsSelected(before);
      OneMoreRowIn(before, r);
      OneMoreSelected(before, DebitRows(before), Positions(before), r);
      assert DebitRows(before) + [] == DebitRows(before) && Positions(before) + [] == Positions(before);
    }
  }

  lemma NothingSelected()
    ensures Selects([], [], [])
  {
  }

  function Members(at: seq<nat>): set<nat> {
    set i | i in at
  }

  lemma OneMoreMember(at: seq<nat>, i: nat)
    requires i !in at
    ensures |Members(at + [i])| == |Members(at)| + 1
  {
    assert Members(at + [i]) == Members(at) + {i};
  }

  lemma {:induction false} IncreasingHaveNoRepeats(at: seq<nat>)
    requires forall k, l :: 0 <= k < l < |at| ==> at[k] < at[l]
    ensures |Members(at)| == |at|
  {
    hide Members;
    if |at| > 0 {
      var before, last := at[..|at| - 1], at[|at| - 1];
      assert at == before + [last];
      IncreasingHaveNoRepeats(before);
      OneMoreMember(before, last);
    } else {
      assert Members(at) == {} by { NoMembers(at); }
    }
  }

  lemma NoMembers(at: seq<nat>)
    requires |at| == 0
    ensures Members(at) == {}
  {
  }

  lemma PositionsExactly(q: Outbox.Queue)
    ensures |Positions(q)| == |DebitRows(q)| == |DebitsIn(q)|
    ensures forall k :: 0 <= k < |Positions(q)| ==> Positions(q)[k] < |q| && DebitRows(q)[k] == q[Positions(q)[k]]
    ensures forall k, l :: 0 <= k < l < |Positions(q)| ==> Positions(q)[k] < Positions(q)[l]
    ensures forall i :: i in DebitsIn(q) <==> i in Positions(q)
  {
    EveryDebitIsSelected(q);
    var at := Positions(q);
    IncreasingHaveNoRepeats(at);
    assert DebitsIn(q) == Members(at);
  }

  lemma DoubledInPlace(q: Outbox.Queue, k: nat)
    requires k < |DebitRows(q)|
    ensures |Positions(q)| == |DebitRows(q)| && Positions(q)[k] < |q|
    ensures DoubledAt(DebitRows(q), k) <==> Doubled(q, Positions(q)[k])
  {
    PositionsExactly(q);
    var rows, at := DebitRows(q), Positions(q);
    var i := at[k];
    assert i in at;
    if DoubledAt(rows, k) {
      var l :| 0 <= l < |rows| && l != k && SameDebit(rows[k], rows[l]);
      assert at[l] in at && at[l] != i;
      assert q[at[l]].actionType == ScheduleDebitType;
    }
    if Doubled(q, i) {
      var j :| 0 <= j < |q| && j != i && q[j].actionType == ScheduleDebitType
               && (SameAttempt(q[i].envelope, q[j].envelope) || q[i].key == q[j].key);
      assert j in at;
      var l :| 0 <= l < |at| && at[l] == j;
      assert SameDebit(rows[k], rows[l]);
    }
  }

  /** Some debit of the case is doubled. */
  predicate DoublesOf(q: Outbox.Queue, c: CaseId) {
    exists i :: 0 <= i < |q| && q[i].caseId == c && Doubled(q, i)
  }

  predicate SelectedDoubles(rows: Outbox.Queue, c: CaseId) {
    exists k :: 0 <= k < |rows| && rows[k].caseId == c && DoubledAt(rows, k)
  }

  lemma DoubledSomewhere(q: Outbox.Queue)
    ensures forall c :: SelectedDoubles(DebitRows(q), c) <==> DoublesOf(q, c)
    ensures (exists k :: 0 <= k < |DebitRows(q)| && DoubledAt(DebitRows(q), k)) <==> (exists i :: 0 <= i < |q| && Doubled(q, i))
  {
    hide DoubledAt, Doubled;
    PositionsExactly(q);
    var rows, at := DebitRows(q), Positions(q);
    forall k | 0 <= k < |rows| ensures DoubledAt(rows, k) <==> Doubled(q, at[k]) {
      DoubledInPlace(q, k);
    }
    forall i | 0 <= i < |q| && Doubled(q, i) ensures exists k :: 0 <= k < |rows| && at[k] == i {
      DoubledIsADebit(q, i);
    }
  }

  lemma DoubledIsADebit(q: Outbox.Queue, i: nat)
    requires i < |q| && Doubled(q, i)
    ensures i in DebitsIn(q)
  {
  }

  /** Exact, over the outbox itself: violated when some debit is doubled, naming exactly the
      cases of doubled rows; vacuous when there is no debit at all; and otherwise it holds. */
  method CheckNoDoubleDebit(q: Outbox.Queue) returns (r: InvariantResult)
    ensures r.candidatesExamined == |DebitsIn(q)|
    ensures r.status == Violated <==> exists i :: 0 <= i < |q| && Doubled(q, i)
    ensures r.status == Vacuous <==> forall i :: 0 <= i < |q| ==> q[i].actionType != ScheduleDebitType
    ensures forall c :: c in r.offendingCaseIds <==> DoublesOf(q, c)
    ensures r.status == Violated ==> r.offendingCaseIds != {}
  {
    hide Doubled, DoubledAt, DebitRows, DebitsIn, Positions, Crowded, SelectedDoubles, DoublesOf;
    PositionsExactly(q);
    DoubledSomewhere(q);
    NoDebits(q);
    var rows := DebitRows(q);
    var byAttempt: map<Option<(ObligationId, nat)>, seq<CaseId>> := map[];
    var byKey: map<IdempotencyKey, seq<CaseId>> := map[];
    var i := 0;
    while i < |rows|
      invariant 0 <= i <= |rows|
      invariant Indexes(byAttempt, Attempts(rows)[..i])
      invariant Indexes(byKey, KeyPairs(rows)[..i])
    {
      var coordinates := Outbox.DebitCoordinates(rows[i].envelope);
      FilingKeepsTheIndex(byAttempt, Attempts(rows)[..i], coordinates, rows[i].caseId);
      FilingKeepsTheIndex(byKey, KeyPairs(rows)[..i], rows[i].key, rows[i].caseId);
      assert Attempts(rows)[..i + 1] == Attempts(rows)[..i] + [(coordinates, rows[i].caseId)];
      assert KeyPairs(rows)[..i + 1] == KeyPairs(rows)[..i] + [(rows[i].key, rows[i].caseId)];
      byAttempt := File(byAttempt, coordinates, rows[i].caseId);
      byKey := File(byKey, rows[i].key, rows[i].caseId);
      i := i + 1;
    }
    assert Attempts(rows)[..|rows|] == Attempts(rows) && KeyPairs(rows)[..|rows|] == KeyPairs(rows);
    var offenders := Crowded(byAttempt) + Crowded(byKey);
    DoubleDebitOffenders(rows, byAttempt, byKey);
    if offenders != {} {
      return InvariantResult(Violated, |rows|, offenders);
    }
    if rows == [] {
      return InvariantResult(Vacuous, 0, {});
    }
    return InvariantResult(InvariantStatus.Holds, |rows|, {});
  }

  lemma NoDebits(q: Outbox.Queue)
    ensures DebitsIn(q) == {} <==> forall i :: 0 <= i < |q| ==> q[i].actionType != ScheduleDebitType
  {
    if forall i :: 0 <= i < |q| ==> q[i].actionType != ScheduleDebitType {
      assert DebitsIn(q) == {};
    }
    forall i | 0 <= i < |q| && q[i].actionType == ScheduleDebitType ensures i in DebitsIn(q) {
    }
  }

  lemma DoubleDebitOffenders(rows: Outbox.Queue, byAttempt: map<Option<(ObligationId, nat)>, seq<CaseId>>,
                             byKey: map<IdempotencyKey, seq<CaseId>>)
    requires Indexes(byAttempt, Attempts(rows)) && Indexes(byKey, KeyPairs(rows))
    ensures forall c :: c in Crowded(byAttempt) + Crowded(byKey) <==>
              SelectedDoubles(rows, c)
    ensures Crowded(byAttempt) + Crowded(byKey) != {} <==> exists i :: 0 <= i < |rows| && DoubledAt(rows, i)
  {
    var offenders := Crowded(byAttempt) + Crowded(byKey);
    forall c ensures c in offenders <==> SelectedDoubles(rows, c) {
      CrowdedMeansShared(byAttempt, Attempts(rows), c);
      CrowdedMeansShared(byKey, KeyPairs(rows), c);
      forall i | 0 <= i < |rows| ensures DoubledAt(rows, i) <==> SharedAt(Attempts(rows), i) || SharedAt(KeyPairs(rows), i) {
        DoubledIsShared(rows, i);
      }
    }
    if c :| c in offenders {
      var i :| 0 <= i < |rows| && rows[i].caseId == c && DoubledAt(rows, i);
    }
    forall i | 0 <= i < |rows| && DoubledAt(rows, i) ensures offenders != {} {
      assert rows[i].caseId in offenders;
    }
  }

  // ------------------------------------------------------------ #8: every action has one audit row

  /** The audit rows that carry a key, in order, with the case they name. */
  function AuditPairs(audit: seq<AuditRow>): seq<(IdempotencyKey, Option<CaseId>)> {
    if audit == [] then []
    else
      var b := audit[|audit| - 1].body;
      AuditPairs(audit[..|audit| - 1]) + (if b.idempotencyKey.Some? then [(b.idempotencyKey.value, b.caseId)] else [])
  }

  /** A queued action without exactly one audit row, or sharing its key with another. */
  predicate Unpaired(q: Outbox.Queue, audited: seq<(IdempotencyKey, Option<CaseId>)>, i: nat)
    requires i < |q|
  {
    |Group(audited, q[i].key)| != 1 || SharedAt(KeyPairs(q), i)
  }

  /** An audited action that is in no outbox row. */
  predicate Orphaned(q: Outbox.Queue, audited: seq<(IdempotencyKey, Option<CaseId>)>, j: nat)
    requires j < |audited|
  {
    !HasKey(KeyPairs(q), audited[j].0)
  }

  /** `pair` is a reason to name case `c`. */
  ghost predicate Offends(q: Outbox.Queue, audited: seq<(IdempotencyKey, Option<CaseId>)>, c: CaseId) {
    || (exists i :: 0 <= i < |q| && q[i].caseId == c && Unpaired(q, audited, i))
    || (exists j :: 0 <= j < |audited| && audited[j].1 == Some(c) && Orphaned(q, audited, j))
  }

  ghost predicate Mispaired(q: Outbox.Queue, audited: seq<(IdempotencyKey, Option<CaseId>)>) {
    || (exists i :: 0 <= i < |q| && Unpaired(q, audited, i))
    || (exists j :: 0 <= j < |audited| && Orphaned(q, audited, j))
  }

  /** The log rows that carry the key. */
  function RowsKeyed(audit: seq<AuditRow>, k: IdempotencyKey): set<nat> {
    set j | 0 <= j < |audit| && audit[j].body.idempotencyKey == Some(k)
  }

  /** Row `i` of the outbox has not exactly one log row, or shares its key with another. */
  predicate BadlyRecorded(q: Outbox.Queue, audit: seq<AuditRow>, i: nat)
    requires i < |q|
  {
    |RowsKeyed(audit, q[i].key)| != 1 || exists j :: 0 <= j < |q| && j != i && q[j].key == q[i].key
  }

  /** Row `j` of the log carries a key that no row of the outbox has. */
  predicate NeverQueued(q: Outbox.Queue, audit: seq<AuditRow>, j: nat)
    requires j < |audit|
  {
    match audit[j].body.idempotencyKey
    case None => false
    case Some(k) => forall i :: 0 <= i < |q| ==> q[i].key != k
  }

  /** Outbox and log do not match one to one. */
  predicate Mismatch(q: Outbox.Queue, audit: seq<AuditRow>) {
    || (exists i :: 0 <= i < |q| && BadlyRecorded(q, audit, i))
    || (exists j :: 0 <= j < |audit| && NeverQueued(q, audit, j))
  }

  /** The case is named by a row that does not match. */
  predicate Named(q: Outbox.Queue, audit: seq<AuditRow>, c: CaseId) {
    || (exists i :: 0 <= i < |q| && q[i].caseId == c && BadlyRecorded(q, audit, i))
    || (exists j :: 0 <= j < |audit| && audit[j].body.caseId == Some(c) && NeverQueued(q, audit, j))
  }

  lemma {:induction false} PairsAreKeyedRows(audit: seq<AuditRow>, k: IdempotencyKey)
    ensures |Group(AuditPairs(audit), k)| == |RowsKeyed(audit, k)|
  {
    hide RowsKeyed;
    if audit == [] {
      NoKeyedRows(k);
    } else {
      var n := |audit| - 1;
      PairsAreKeyedRows(audit[..n], k);
      OneMoreKeyedRow(audit[..n], audit[n], k);
      assert audit == audit[..n] + [audit[n]];
      var pairs := AuditPairs(audit[..n]);
      var b := audit[n].body;
      if b.idempotencyKey.Some? {
        assert (pairs + [(b.idempotencyKey.value, b.caseId)])[..|pairs|] == pairs;
      } else {
        assert pairs + [] == pairs;
      }
    }
  }

  lemma NoKeyedRows(k: IdempotencyKey)
    ensures |RowsKeyed([], k)| == 0
  {
    assert RowsKeyed([], k) == {};
  }

  lemma OneMoreKeyedRow(audit: seq<AuditRow>, r: AuditRow, k: IdempotencyKey)
    ensures |RowsKeyed(audit + [r], k)| == |RowsKeyed(audit, k)| + (if r.body.idempotencyKey == Some(k) then 1 else 0)
  {
    var more := audit + [r];
    assert forall j :: 0 <= j < |audit| ==> more[j] == audit[j];
    if r.body.idempotencyKey == Some(k) {
      assert RowsKeyed(more, k) == RowsKeyed(audit, k) + {|audit|};
    } else {
      assert RowsKeyed(more, k) == RowsKeyed(audit, k);
    }
  }

  predicate Carries(r: AuditRow, pair: (IdempotencyKey, Option<CaseId>)) {
    r.body.idempotencyKey == Some(pair.0) && r.body.caseId == pair.1
  }

  lemma {:induction false} PairsComeFromRows(audit: seq<AuditRow>)
    ensures forall pair :: pair in AuditPairs(audit) <==> exists j :: 0 <= j < |audit| && Carries(audit[j], pair)
  {
    if audit != [] {
      var n := |audit| - 1;
      PairsComeFromRows(audit[..n]);
      assert forall j :: 0 <= j < n ==> audit[..n][j] == audit[j];
      forall pair ensures pair in AuditPairs(audit) <==> pair in AuditPairs(audit[..n]) || Carries(audit[n], pair) {
      }
    }
  }

  lemma UnpairedExactly(q: Outbox.Queue, audit: seq<AuditRow>, i: nat)
    requires i < |q|
    ensures Unpaired(q, AuditPairs(audit), i) <==> BadlyRecorded(q, audit, i)
  {
    hide AuditPairs, RowsKeyed;
    PairsAreKeyedRows(audit, q[i].key);
    if j :| 0 <= j < |q| && j != i && q[j].key == q[i].key {
      assert KeyPairs(q)[j].0 == KeyPairs(q)[i].0;
    }
  }

  lemma KeyIsQueued(q: Outbox.Queue, k: IdempotencyKey)
    ensures HasKey(KeyPairs(q), k) <==> exists i :: 0 <= i < |q| && q[i].key == k
  {
    if i :| 0 <= i < |q| && q[i].key == k {
      assert KeyPairs(q)[i].0 == k;
    }
  }

  /** The two readings of the tables agree, row by row and case by case. */
  lemma MismatchExactly(q: Outbox.Queue, audit: seq<AuditRow>)
    ensures Mispaired(q, AuditPairs(audit)) <==> Mismatch(q, audit)
    ensures forall c :: Offends(q, AuditPairs(audit), c) <==> Named(q, audit, c)
  {
    hide Unpaired, BadlyRecorded, AuditPairs;
    var pairs := AuditPairs(audit);
    PairsComeFromRows(audit);
    forall i | 0 <= i < |q| ensures Unpaired(q, pairs, i) <==> BadlyRecorded(q, audit, i) {
      UnpairedExactly(q, audit, i);
    }
    forall l | 0 <= l < |pairs| && Orphaned(q, pairs, l)
      ensures exists j :: 0 <= j < |audit| && audit[j].body.caseId == pairs[l].1 && NeverQueued(q, audit, j)
    {
      assert pairs[l] in pairs;
      var j :| 0 <= j < |audit| && Carries(audit[j], pairs[l]);
      KeyIsQueued(q, pairs[l].0);
      assert NeverQueued(q, audit, j);
    }
    forall j | 0 <= j < |audit| && NeverQueued(q, audit, j)
      ensures exists l :: 0 <= l < |pairs| && pairs[l].1 == audit[j].body.caseId && Orphaned(q, pairs, l)
    {
      var pair := (audit[j].body.idempotencyKey.value, audit[j].body.caseId);
      assert Carries(audit[j], pair);
      assert pair in pairs;
      var l :| 0 <= l < |pairs| && pairs[l] == pair;
      KeyIsQueued(q, pair.0);
      assert Orphaned(q, pairs, l);
    }
  }

  /** The result cannot be built: a violation that names nobody. */
  datatype CheckerRaised = ViolationNamesNoCase

  /** Outbox cases whose key has no audit row, more than one, or more than one outbox row. */
  function UnpairedCases(outboxByKey: map<IdempotencyKey, seq<CaseId>>,
                         auditByKey: map<IdempotencyKey, seq<Option<CaseId>>>): set<CaseId>
  {
    set k, c | k in outboxByKey && c in outboxByKey[k]
               && (k !in auditByKey || |auditByKey[k]| > 1 || |outboxByKey[k]| > 1) :: c
  }

  function OrphanCases(outboxByKey: map<IdempotencyKey, seq<CaseId>>,
                       auditByKey: map<IdempotencyKey, seq<Option<CaseId>>>): set<CaseId>
  {
    set k, c | k in auditByKey && k !in outboxByKey && c in auditByKey[k] && c.Some? :: c.value
  }

  predicate AnyMispairing(outboxByKey: map<IdempotencyKey, seq<CaseId>>,
                          auditByKey: map<IdempotencyKey, seq<Option<CaseId>>>)
  {
    || (exists k :: k in outboxByKey && (k !in auditByKey || |auditByKey[k]| > 1 || |outboxByKey[k]| > 1))
    || (exists k :: k in auditByKey && k !in outboxByKey)
  }

  /** Exact: it raises when the only fault is audited actions that no outbox row carries
      and no audit row names a case for; otherwise it is violated when outbox and audit
      log are mispaired, naming exactly the offending cases, vacuous on an empty outbox,
      and holds in all other cases. */
  method CheckActionAuditPairing(q: Outbox.Queue, audit: seq<AuditRow>)
    returns (r: Result<InvariantResult, CheckerRaised>)
    ensures r.Failure? <==> Mismatch(q, audit) && forall c :: !Named(q, audit, c)
    ensures r.Success? ==>
              && (r.value.status == Violated <==> Mismatch(q, audit))
              && (r.value.status == Vacuous <==> q == [] && !Mismatch(q, audit))
              && (forall c :: c in r.value.offendingCaseIds <==> Named(q, audit, c))
              && r.value.candidatesExamined == |q|
  {
    hide Mismatch, Named, Mispaired, Offends, Unpaired, Orphaned, BadlyRecorded, NeverQueued;
    MismatchExactly(q, audit);
    var audited := AuditPairs(audit);
    var auditByKey: map<IdempotencyKey, seq<Option<CaseId>>> := map[];
    var i := 0;
    while i < |audited|
      invariant 0 <= i <= |audited|
      invariant Indexes(auditByKey, audited[..i])
    {
      FilingKeepsTheIndex(auditByKey, audited[..i], audited[i].0, audited[i].1);
      assert audited[..i + 1] == audited[..i] + [(audited[i].0, audited[i].1)];
      auditByKey := File(auditByKey, audited[i].0, audited[i].1);
      i := i + 1;
    }
    assert audited[..|audited|] == audited;
    var outboxByKey: map<IdempotencyKey, seq<CaseId>> := map[];
    i := 0;
    while i < |q|
      invariant 0 <= i <= |q|
      invariant Indexes(outboxByKey, KeyPairs(q)[..i])
    {
      FilingKeepsTheIndex(outboxByKey, KeyPairs(q)[..i], q[i].key, q[i].caseId);
      assert KeyPairs(q)[..i + 1] == KeyPairs(q)[..i] + [(q[i].key, q[i].caseId)];
      outboxByKey := File(outboxByKey, q[i].key, q[i].caseId);
      i := i + 1;
    }
    assert KeyPairs(q)[..|q|] == KeyPairs(q);
    PairingOffenders(q, audited, outboxByKey, auditByKey);
    if AnyMispairing(outboxByKey, auditByKey) {
      var offenders := UnpairedCases(outboxByKey, auditByKey) + OrphanCases(outboxByKey, auditByKey);
      if offenders == {} {
        return Failure(ViolationNamesNoCase);
      }
      return Success(InvariantResult(Violated, |q|, offenders));
    }
    return Success(InvariantResult(if q == [] then Vacuous else InvariantStatus.Holds, |q|, {}));
  }

  lemma UnpairedByKey(q: Outbox.Queue, audited: seq<(IdempotencyKey, Option<CaseId>)>, i: nat,
                      outboxByKey: map<IdempotencyKey, seq<CaseId>>, auditByKey: map<IdempotencyKey, seq<Option<CaseId>>>)
    requires Indexes(outboxByKey, KeyPairs(q)) && Indexes(auditByKey, audited)
    requires i < |q|
    ensures q[i].key in outboxByKey && q[i].caseId in outboxByKey[q[i].key]
    ensures Unpaired(q, audited, i) <==>
              (q[i].key !in auditByKey || |auditByKey[q[i].key]| > 1 || |outboxByKey[q[i].key]| > 1)
  {
    var k, pairs := q[i].key, KeyPairs(q);
    assert pairs[i] == (k, q[i].caseId);
    assert HasKey(pairs, k);
    GroupMembers(pairs, k, q[i].caseId);
    GroupSize(pairs, k);
    GroupSize(audited, k);
    if TwiceIn(pairs, k) {
      var a, b :| 0 <= a < b < |pairs| && pairs[a].0 == k && pairs[b].0 == k;
      assert pairs[if i == a then b else a].0 == pairs[i].0;
    }
    if SharedAt(pairs, i) {
      var j :| 0 <= j < |pairs| && j != i && pairs[j].0 == pairs[i].0;
      assert pairs[if i < j then i else j].0 == k && pairs[if i < j then j else i].0 == k;
    }
  }

  lemma PairingOffenders(q: Outbox.Queue, audited: seq<(IdempotencyKey, Option<CaseId>)>,
                         outboxByKey: map<IdempotencyKey, seq<CaseId>>, auditByKey: map<IdempotencyKey, seq<Option<CaseId>>>)
    requires Indexes(outboxByKey, KeyPairs(q)) && Indexes(auditByKey, audited)
    ensures AnyMispairing(outboxByKey, auditByKey) <==> Mispaired(q, audited)
    ensures forall c :: c in UnpairedCases(outboxByKey, auditByKey) + OrphanCases(outboxByKey, auditByKey)
                        <==> Offends(q, audited, c)
  {
    AnyMispairingIsMispaired(q, audited, outboxByKey, auditByKey);
    forall c ensures c in UnpairedCases(outboxByKey, auditByKey) + OrphanCases(outboxByKey, auditByKey)
                     <==> Offends(q, audited, c)
    {
      UnpairedCaseOffends(q, audited, outboxByKey, auditByKey, c);
      OrphanCaseOffends(q, audited, outboxByKey, auditByKey, c);
    }
  }

  lemma AnyMispairingIsMispaired(q: Outbox.Queue, audited: seq<(IdempotencyKey, Option<CaseId>)>,
                                 outboxByKey: map<IdempotencyKey, seq<CaseId>>,
                                 auditByKey: map<IdempotencyKey, seq<Option<CaseId>>>)
    requires Indexes(outboxByKey, KeyPairs(q)) && Indexes(auditByKey, audited)
    ensures AnyMispairing(outboxByKey, auditByKey) <==> Mispaired(q, audited)
  {
    if k :| k in outboxByKey && (k !in auditByKey || |auditByKey[k]| > 1 || |outboxByKey[k]| > 1) {
      assert HasKey(KeyPairs(q), k);
      var i :| 0 <= i < |q| && KeyPairs(q)[i].0 == k;
      UnpairedByKey(q, audited, i, outboxByKey, auditByKey);
    }
    if k :| k in auditByKey && k !in outboxByKey {
      assert HasKey(audited, k);
      var j :| 0 <= j < |audited| && audited[j].0 == k;
      assert Orphaned(q, audited, j);
    }
    forall i | 0 <= i < |q| && Unpaired(q, audited, i) ensures AnyMispairing(outboxByKey, auditByKey) {
      UnpairedByKey(q, audited, i, outboxByKey, auditByKey);
    }
    forall j | 0 <= j < |audited| && Orphaned(q, audited, j) ensures AnyMispairing(outboxByKey, auditByKey) {
      assert HasKey(audited, audited[j].0);
    }
  }

  lemma UnpairedCaseOffends(q: Outbox.Queue, audited: seq<(IdempotencyKey, Option<CaseId>)>,
                            outboxByKey: map<IdempotencyKey, seq<CaseId>>,
                            auditByKey: map<IdempotencyKey, seq<Option<CaseId>>>, c: CaseId)
    requires Indexes(outboxByKey, KeyPairs(q)) && Indexes(auditByKey, audited)
    ensures c in UnpairedCases(outboxByKey, auditByKey) <==>
              exists i :: 0 <= i < |q| && q[i].caseId == c && Unpaired(q, audited, i)
  {
    if c in UnpairedCases(outboxByKey, auditByKey) {
      var k :| k in outboxByKey && c in outboxByKey[k]
               && (k !in auditByKey || |auditByKey[k]| > 1 || |outboxByKey[k]| > 1);
      GroupMembers(KeyPairs(q), k, c);
      var i :| 0 <= i < |q| && KeyPairs(q)[i] == (k, c);
      UnpairedByKey(q, audited, i, outboxByKey, auditByKey);
    }
    forall i | 0 <= i < |q| && q[i].caseId == c && Unpaired(q, audited, i)
      ensures c in UnpairedCases(outboxByKey, auditByKey)
    {
      UnpairedByKey(q, audited, i, outboxByKey, auditByKey);
    }
  }

  lemma OrphanCaseOffends(q: Outbox.Queue, audited: seq<(IdempotencyKey, Option<CaseId>)>,
                          outboxByKey: map<IdempotencyKey, seq<CaseId>>,
                          auditByKey: map<IdempotencyKey, seq<Option<CaseId>>>, c: CaseId)
    requires Indexes(outboxByKey, KeyPairs(q)) && Indexes(auditByKey, audited)
    ensures c in OrphanCases(outboxByKey, auditByKey) <==>
              exists j :: 0 <= j < |audited| && audited[j].1 == Some(c) && Orphaned(q, audited, j)
  {
    if c in OrphanCases(outboxByKey, auditByKey) {
      var k :| k in auditByKey && k !in outboxByKey && Some(c) in auditByKey[k];
      GroupMembers(audited, k, Some(c));
      var j :| 0 <= j < |audited| && audited[j] == (k, Some(c));
      assert Orphaned(q, audited, j);
    }
    forall j | 0 <= j < |audited| && audited[j].1 == Some(c) && Orphaned(q, audited, j)
      ensures c in OrphanCases(outboxByKey, auditByKey)
    {
      var k := audited[j].0;
      assert HasKey(audited, k);
      GroupMembers(audited, k, Some(c));
      assert k in auditByKey && k !in outboxByKey && Some(c) in auditByKey[k];
    }
  }

  // ------------------------------------------------------------ #9: no live case is orphaned

  function OpenCount(q: Outbox.Queue, id: CaseId): nat {
    if q == [] then 0
    else OpenCount(q[..|q| - 1], id) + (if q[|q| - 1].status.IsOpen() && q[|q| - 1].caseId == id then 1 else 0)
  }

  predicate IsNoActionDecision(r: AuditRow) {
    r.body.eventType == ControlArmNoAction || r.body.eventType == ArmNotRouted
  }

  /** A decision not to act on the case is on the record. */
  predicate Decided(audit: seq<AuditRow>, id: CaseId) {
    exists i :: 0 <= i < |audit| && IsNoActionDecision(audit[i]) && audit[i].body.caseId == Some(id)
  }

  predicate HumanOwned(s: CaseState) {
    s == AwaitingApproval || s == Escalated
  }

  /** One queued action; or none, and a human owns it or a decision not to act is logged. */
  predicate LookedAfter(db: DB, id: CaseId)
    requires id in db.cases
  {
    var queued := OpenCount(db.outbox, id);
    queued == 1 || (queued == 0 && (HumanOwned(db.cases[id].state) || Decided(db.audit, id)))
  }

  function LiveIds(db: DB): set<CaseId> {
    set id | id in db.cases && db.cases[id].IsLive()
  }

  /** The rows of the case still waiting for a worker or with one. */
  function OpenRows(q: Outbox.Queue, id: CaseId): set<nat> {
    set i | 0 <= i < |q| && q[i].caseId == id && (q[i].status == Outbox.Pending || q[i].status == Outbox.Claimed)
  }

  /** One open row; or none, and the case waits for a human or a log row says it is left alone. */
  predicate HasANextStep(db: DB, id: CaseId)
    requires id in db.cases
  {
    || |OpenRows(db.outbox, id)| == 1
    || (|OpenRows(db.outbox, id)| == 0
        && (db.cases[id].state == AwaitingApproval || db.cases[id].state == Escalated
            || exists j :: 0 <= j < |db.audit| && db.audit[j].body.caseId == Some(id)
                 && (db.audit[j].body.eventType == ControlArmNoAction || db.audit[j].body.eventType == ArmNotRouted)))
  }

  function OpenCases(db: DB): set<CaseId> {
    set id | id in db.cases && db.cases[id].state !in {Recovered, Stopped, WrittenOff}
  }

  lemma {:induction false} OpenRowsAreCounted(q: Outbox.Queue, id: CaseId)
    ensures OpenCount(q, id) == |OpenRows(q, id)|
  {
    hide OpenRows;
    if q == [] {
      NoOpenRows(id);
    } else {
      var n := |q| - 1;
      OpenRowsAreCounted(q[..n], id);
      OneMoreOpenRow(q[..n], q[n], id);
      assert q == q[..n] + [q[n]];
    }
  }

  lemma NoOpenRows(id: CaseId)
    ensures |OpenRows([], id)| == 0
  {
    assert OpenRows([], id) == {};
  }

  lemma OneMoreOpenRow(q: Outbox.Queue, r: Outbox.OutboxRow, id: CaseId)
    ensures |OpenRows(q + [r], id)|
         == |OpenRows(q, id)| + (if r.caseId == id && (r.status == Outbox.Pending || r.status == Outbox.Claimed) then 1 else 0)
  {
    var more := q + [r];
    assert forall i :: 0 <= i < |q| ==> more[i] == q[i];
    if r.caseId == id && (r.status == Outbox.Pending || r.status == Outbox.Claimed) {
      assert OpenRows(more, id) == OpenRows(q, id) + {|q|};
    } else {
      assert OpenRows(more, id) == OpenRows(q, id);
    }
  }

  /** Being looked after, read off the tables. */
  lemma LookedAfterExactly(db: DB, id: CaseId)
    ensures id in OpenCases(db) <==> id in LiveIds(db)
    ensures id in db.cases ==> (LookedAfter(db, id) <==> HasANextStep(db, id))
  {
    hide OpenRows, OpenCount;
    OpenRowsAreCounted(db.outbox, id);
  }

  /** Exact: violated when some live case has no next step, naming exactly those;
      otherwise vacuous unless a live case has exactly one open row. */
  method CheckNoOrphanedLiveCase(db: DB) returns (r: InvariantResult)
    ensures r.candidatesExamined == |OpenCases(db)|
    ensures forall id :: id in r.offendingCaseIds <==> id in OpenCases(db) && !HasANextStep(db, id)
    ensures r.status == Violated <==> r.offendingCaseIds != {}
    ensures r.status == Vacuous <==>
              r.offendingCaseIds == {} && forall id :: id in OpenCases(db) ==> |OpenRows(db.outbox, id)| != 1
  {
    hide HasANextStep, OpenRows;
    forall id ensures id in OpenCases(db) <==> id in LiveIds(db) {
      LookedAfterExactly(db, id);
    }
    assert OpenCases(db) == LiveIds(db);
    forall id | id in db.cases
      ensures (LookedAfter(db, id) <==> HasANextStep(db, id)) && OpenCount(db.outbox, id) == |OpenRows(db.outbox, id)|
    {
      LookedAfterExactly(db, id);
      OpenRowsAreCounted(db.outbox, id);
    }
    var openCounts: map<CaseId, nat> := map[];
    var i := 0;
    while i < |db.outbox|
      invariant 0 <= i <= |db.outbox|
      invariant forall id ::
                  OpenCount(db.outbox[..i], id) == if id in openCounts then openCounts[id] else 0
    {
      var row := db.outbox[i];
      assert db.outbox[..i + 1][..i] == db.outbox[..i];
      if row.status.IsOpen() {
        openCounts := openCounts[row.caseId := (if row.caseId in openCounts then openCounts[row.caseId] else 0) + 1];
      }
      i := i + 1;
    }
    assert db.outbox[..|db.outbox|] == db.outbox;
    var decided: set<CaseId> := {};
    i := 0;
    while i < |db.audit|
      invariant 0 <= i <= |db.audit|
      invariant forall id :: id in decided <==>
                  exists j :: 0 <= j < i && IsNoActionDecision(db.audit[j]) && db.audit[j].body.caseId == Some(id)
    {
      if IsNoActionDecision(db.audit[i]) && db.audit[i].body.caseId.Some? {
        decided := decided + {db.audit[i].body.caseId.value};
      }
      i := i + 1;
    }
    var left := LiveIds(db);
    var scheduled: set<CaseId> := {};
    var offenders: set<CaseId> := {};
    while left != {}
      invariant left <= LiveIds(db)
      invariant forall id :: id in offenders <==> id in LiveIds(db) && id !in left && !LookedAfter(db, id)
      invariant forall id :: id in scheduled <==> id in LiveIds(db) && id !in left && OpenCount(db.outbox, id) == 1
      decreases |left|
    {
      var id :| id in left;
      left := left - {id};
      var queued := if id in openCounts then openCounts[id] else 0;
      if queued == 1 {
        scheduled := scheduled + {id};
      } else if queued > 1 || !(HumanOwned(db.cases[id].state) || id in decided) {
        offenders := offenders + {id};
      }
    }
    if offenders != {} {
      return InvariantResult(Violated, |LiveIds(db)|, offenders);
    }
    if scheduled == {} {
      return InvariantResult(Vacuous, |LiveIds(db)|, {});
    }
    return InvariantResult(InvariantStatus.Holds, |LiveIds(db)|, {});
  }
}
