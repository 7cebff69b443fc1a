/**
 Check #6 of the batch checkers (reclaim/invariants.py): recovered money against what each
 obligation owes, by two independent readings. `RecoveryRuns` says which runs keep it.
 */
module RecoveryCheck {
  import opened Vocabulary
  import opened Cases
  import opened Parties
  import opened Grouping
  import opened InvariantChecks

  /** Recognised, from the ledger: the whole amount at risk of every recovered case. */
  function Recognised(rows: seq<RiskCase>, o: ObligationId): Paise {
    if rows == [] then 0
    else
      var c := rows[|rows| - 1];
      Recognised(rows[..|rows| - 1], o) + (if c.state == Recovered && c.obligationId == o then c.amountAtRisk else 0)
  }

  predicate RecoveredOn(rows: seq<RiskCase>, o: ObligationId, id: CaseId) {
    exists j :: 0 <= j < |rows| && rows[j].state == Recovered && rows[j].obligationId == o && rows[j].caseId == id
  }

  predicate HasRecovery(o: Obligation, rows: seq<RiskCase>) {
    o.Settled() != 0 || Recognised(rows, o.obligationId) != 0
  }

  /** Something is recovered, and by one reading more than is owed. The two readings are
      compared with the gross separately, never summed. */
  predicate Exceeds(o: Obligation, recognised: Paise) {
    && (o.Settled() != 0 || recognised != 0)
    && (o.Settled() > o.grossAmount || recognised > o.grossAmount)
  }

  predicate OverCollected(o: Obligation, rows: seq<RiskCase>) {
    Exceeds(o, Recognised(rows, o.obligationId))
  }

  datatype RecoveryResult = RecoveryResult(
    status: InvariantStatus, candidatesExamined: nat, offendingCaseIds: set<CaseId>, standIns: set<ObligationId>)

  predicate RecoveryRead(rows: seq<RiskCase>, recognised: map<ObligationId, Paise>, o: ObligationId) {
    (if o in recognised then recognised[o] else 0) == Recognised(rows, o)
  }

  ghost predicate AllRead(rows: seq<RiskCase>, recognised: map<ObligationId, Paise>) {
    forall o :: RecoveryRead(rows, recognised, o)
  }

  function Credit(recognised: map<ObligationId, Paise>, c: RiskCase): map<ObligationId, Paise> {
    recognised[c.obligationId :=
      (if c.obligationId in recognised then recognised[c.obligationId] else 0) + c.amountAtRisk]
  }

  method ReadRecoveries(rows: seq<RiskCase>)
    returns (recognised: map<ObligationId, Paise>, recoveredCases: map<ObligationId, seq<CaseId>>)
    ensures AllRead(rows, recognised)
    ensures forall o, id :: o in recoveredCases && id in recoveredCases[o] <==> RecoveredOn(rows, o, id)
  {
    recognised, recoveredCases := map[], map[];
    var i := 0;
    while i < |rows|
      invariant 0 <= i <= |rows|
      invariant AllRead(rows[..i], recognised)
      invariant forall o, id :: o in recoveredCases && id in recoveredCases[o] <==> RecoveredOn(rows[..i], o, id)
    {
      var c := rows[i];
      assert rows[..i + 1] == rows[..i] + [c] && rows[..i + 1][..i] == rows[..i];
      OneMoreRow(rows[..i], c);
      ReadOneMore(rows[..i], c, recognised);
      if c.state == Recovered {
        recognised := Credit(recognised, c);
        recoveredCases := File(recoveredCases, c.obligationId, c.caseId);
      }
      i := i + 1;
    }
    assert rows[..i] == rows;
  }

  lemma ReadOneMore(rows: seq<RiskCase>, c: RiskCase, recognised: map<ObligationId, Paise>)
    requires AllRead(rows, recognised)
    ensures AllRead(rows + [c], if c.state == Recovered then Credit(recognised, c) else recognised)
  {
    OneMoreRow(rows, c);
    var updated := if c.state == Recovered then Credit(recognised, c) else recognised;
    forall o ensures RecoveryRead(rows + [c], updated, o) {
      assert RecoveryRead(rows, recognised, o);
    }
  }

  lemma OneMoreRow(rows: seq<RiskCase>, c: RiskCase)
    ensures forall o :: Recognised(rows + [c], o)
                        == Recognised(rows, o) + (if c.state == Recovered && c.obligationId == o then c.amountAtRisk else 0)
    ensures forall o, id :: RecoveredOn(rows + [c], o, id)
                            <==> RecoveredOn(rows, o, id) || (c.state == Recovered && c.obligationId == o && c.caseId == id)
  {
    var more := rows + [c];
    assert more[..|rows|] == rows;
    forall o, id
      ensures RecoveredOn(more, o, id)
              <==> RecoveredOn(rows, o, id) || (c.state == Recovered && c.obligationId == o && c.caseId == id)
    {
      if RecoveredOn(rows, o, id) {
        var j :| 0 <= j < |rows| && rows[j].state == Recovered && rows[j].obligationId == o && rows[j].caseId == id;
        assert more[j] == rows[j];
      }
      assert more[|rows|] == c;
    }
  }

  ghost predicate NamedFor(obligations: seq<Obligation>, rows: seq<RiskCase>, n: nat, id: CaseId)
    requires n <= |obligations|
  {
    exists k :: 0 <= k < n && OverCollected(obligations[k], rows) && RecoveredOn(rows, obligations[k].obligationId, id)
  }

  method SumOf(amounts: seq<Paise>) returns (total: Paise)
    ensures total == Sum(amounts)
  {
    total := 0;
    var k := 0;
    while k < |amounts|
      invariant 0 <= k <= |amounts| && total == Sum(amounts[..k])
    {
      assert amounts[..k + 1][..k] == amounts[..k];
      total := total + amounts[k];
      k := k + 1;
    }
    assert amounts[..k] == amounts;
  }

  /** Exact: violated when some obligation is over-collected, naming the recovered cases of
      exactly those obligations, or the obligations themselves when no case is to blame. */
  method CheckRecoveryWithinAmountOwed(obligations: seq<Obligation>, rows: seq<RiskCase>) returns (r: RecoveryResult)
    ensures r.status == Violated <==> exists k :: 0 <= k < |obligations| && OverCollected(obligations[k], rows)
    ensures r.status == Vacuous <==> forall k :: 0 <= k < |obligations| ==> !HasRecovery(obligations[k], rows)
    ensures forall id :: id in r.offendingCaseIds <==> NamedFor(obligations, rows, |obligations|, id)
    ensures r.status == Violated && r.offendingCaseIds == {} ==>
              forall o :: o in r.standIns <==>
                exists k :: 0 <= k < |obligations| && OverCollected(obligations[k], rows) && obligations[k].obligationId == o
  {
    hide Recognised, RecoveredOn;
    var recognised, recoveredCases := ReadRecoveries(rows);
    var candidates := 0;
    var breaches: set<ObligationId> := {};
    var offenders: set<CaseId> := {};
    var i := 0;
    while i < |obligations|
      invariant 0 <= i <= |obligations|
      invariant candidates == 0 <==> forall k :: 0 <= k < i ==> !HasRecovery(obligations[k], rows)
      invariant candidates >= 0
      invariant forall o :: o in breaches <==>
                  exists k :: 0 <= k < i && OverCollected(obligations[k], rows) && obligations[k].obligationId == o
      invariant forall id :: id in offenders <==> NamedFor(obligations, rows, i, id)
    {
      var o := obligations[i];
      assert RecoveryRead(rows, recognised, o.obligationId);
      var paid := SumOf(o.partialPayments);
      var credited := SumOf(o.creditNotes);
      var settled, claimed := paid + credited, if o.obligationId in recognised then recognised[o.obligationId] else 0;
      var named: set<CaseId> :=
        if o.obligationId in recoveredCases then set id | id in recoveredCases[o.obligationId] else {};
      assert forall id :: id in named <==> RecoveredOn(rows, o.obligationId, id);
      if settled != 0 || claimed != 0 {
        candidates := candidates + 1;
        if settled > o.grossAmount || claimed > o.grossAmount {
          breaches := breaches + {o.obligationId};
          offenders := offenders + named;
        }
      }
      i := i + 1;
    }
    if breaches != {} {
      var o :| o in breaches;
      return RecoveryResult(Violated, candidates, offenders, if offenders == {} then breaches else {});
    }
    assert forall k :: 0 <= k < |obligations| && OverCollected(obligations[k], rows) ==>
                    obligations[k].obligationId in breaches;
    NobodyNamed(obligations, rows);
    return RecoveryResult(if candidates == 0 then Vacuous else InvariantStatus.Holds, candidates, {}, {});
  }

  lemma NobodyNamed(obligations: seq<Obligation>, rows: seq<RiskCase>)
    requires forall k :: 0 <= k < |obligations| ==> !OverCollected(obligations[k], rows)
    ensures forall id :: !NamedFor(obligations, rows, |obligations|, id)
  {
  }

  // ------------------------------------------------------------ read off the rows alone

  predicate OneRecoveryEach(rows: seq<RiskCase>) {
    forall i, j :: 0 <= i < j < |rows| && rows[i].state == Recovered && rows[j].state == Recovered ==>
      rows[i].obligationId != rows[j].obligationId
  }

  /** With at most one recovered case per obligation, what is recognised is nothing or the
      amount at risk of that one case. */
  lemma {:induction false} OneRecoveryIsItsAmount(rows: seq<RiskCase>, o: ObligationId)
    requires OneRecoveryEach(rows)
    ensures Recognised(rows, o) == 0
         || exists j :: 0 <= j < |rows| && rows[j].state == Recovered && rows[j].obligationId == o
                        && Recognised(rows, o) == rows[j].amountAtRisk
    ensures (forall j :: 0 <= j < |rows| && rows[j].state == Recovered ==> rows[j].obligationId != o) ==> Recognised(rows, o) == 0
  {
    if rows != [] {
      var before, n := rows[..|rows| - 1], |rows| - 1;
      OneRecoveryIsItsAmount(before, o);
      if rows[n].state == Recovered && rows[n].obligationId == o {
        forall j | 0 <= j < |before| && before[j].state == Recovered ensures before[j].obligationId != o {
          assert rows[j] == before[j];
        }
        assert Recognised(rows, o) == rows[n].amountAtRisk;
      } else if Recognised(before, o) != 0 {
        var j :| 0 <= j < |before| && before[j].state == Recovered && before[j].obligationId == o
                 && Recognised(before, o) == before[j].amountAtRisk;
        assert rows[j] == before[j];
      }
    }
  }

  /** One recovered case per obligation, none larger than the debt, nothing over-settled:
      then no obligation is over-collected. */
  lemma OneRecoveryPerObligationSuffices(obligations: seq<Obligation>, rows: seq<RiskCase>, k: nat)
    requires k < |obligations| && OneRecoveryEach(rows)
    requires obligations[k].Settled() <= obligations[k].grossAmount && obligations[k].grossAmount >= 0
    requires forall j :: 0 <= j < |rows| && rows[j].obligationId == obligations[k].obligationId ==>
               rows[j].amountAtRisk <= obligations[k].grossAmount
    ensures !OverCollected(obligations[k], rows)
  {
    OneRecoveryIsItsAmount(rows, obligations[k].obligationId);
  }
}
