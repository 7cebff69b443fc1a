/**
 The outbox inside a run of the whole system behaves as the outbox alone: what the system
 does to it is a sequence of enqueues, claims and marks, so its queue guarantees carry over.
 */
module QueueRuns {
  import opened Wrappers
  import opened Actions
  import opened AuditChain
  import opened Spine
  import opened Flow
  import opened FlowSafety
  import opened Outcomes
  import opened Runs
  import opened Justification
  import Outbox
  import ChainVerifier

  /** The ids a run of the system hands to workers, in order. */
  function SystemHandedOut(env: Env, ops: seq<Op>): seq<nat> {
    if ops == [] then []
    else
      var before, op := ops[..|ops| - 1], ops[|ops| - 1];
      SystemHandedOut(env, before)
      + (if op.ClaimNext? then Outbox.Delivered(After(env, before).outbox, Outbox.Take(op.worker)) else [])
  }

  /** What one operation of the system does to the queue, as at most one queue operation. */
  predicate AsQueueOp(digest: ScopeDigest, q: Outbox.Queue, q': Outbox.Queue, op: Op, qop: Option<Outbox.QueueOp>) {
    match qop
    case None => q' == q && !op.ClaimNext?
    case Some(step) =>
      q' == Outbox.QueueStep(digest, q, step) && (op.ClaimNext? <==> step.Take?)
      && (op.ClaimNext? ==> step == Outbox.Take(op.worker))
  }

  lemma NewRowIsAPut(digest: ScopeDigest, q: Outbox.Queue, e: Envelope)
    requires Outbox.GoodQueue(digest, q + [Outbox.NewRow(digest, q, e)])
    ensures Outbox.QueueStep(digest, q, Outbox.Put(e)) == q + [Outbox.NewRow(digest, q, e)]
  {
    var row := Outbox.NewRow(digest, q, e);
    var q' := q + [row];
    assert q'[|q|] == row && row.coordinates == Outbox.DebitCoordinates(e);
    forall j | 0 <= j < |q|
      ensures q[j].key != row.key && (row.coordinates.Some? ==> q[j].coordinates != row.coordinates)
    {
      assert q'[j] == q[j] && q'[j].key != q'[|q|].key;
    }
  }

  lemma StepAsQueueOp(env: Env, db: DB, op: Op) returns (qop: Option<Outbox.QueueOp>)
    requires Good(env, db)
    ensures AsQueueOp(env.world.digest, db.outbox, Commit(env, db, op).outbox, op, qop)
  {
    hide ProcessCase, ResolveCase, Transition, OpenCase, GoodOwing, JustifiedBy, Schedules;
    qop := None;
    match op
    case ClaimNext(worker) => qop := Some(Outbox.Take(worker));
    case Mark(id, report) => qop := Some(Outbox.Mark(id, report));
    case Upsert(o) =>
    case Open(c, actor, at) =>
      if Attempt(env, db, op).Success? {
        OpenKeepsGood(env, db, c, actor, at);
      }
    case Move(id, to, u, actor, event, at) =>
      if Attempt(env, db, op).Success? {
        MoveKeepsGood(env, db, id, to, u, actor, event, at, []);
      }
    case Resolve(id, money) =>
      if Attempt(env, db, op).Success? {
        ResolvingKnownCase(env, db, id, money);
        ResolveIsNeverIllegal(env, db, id, money);
      }
    case Process(tr, t, c) =>
      if Attempt(env, db, op).Success? {
        ProcessIsKept(env, tr, t, db, c);
        ProcessAddsJustified(env, tr, t, db, c);
        var db' := ProcessCase(env, Shipped(tr), t, db, c).value.0;
        if db'.outbox != db.outbox {
          var e :| AddsThis(env, db, db', op, e);
          GoodHasAGoodQueue(env, db');
          FreshIsNew(env.world.digest, db.outbox, e);
          NewRowIsAPut(env.world.digest, db.outbox, e);
          qop := Some(Outbox.Put(e));
        }
      }
  }

  lemma GoodHasAGoodQueue(env: Env, db: DB)
    requires Good(env, db)
    ensures Outbox.GoodQueue(env.world.digest, db.outbox)
  {
  }

  /** Every run of the system is, on the outbox, a run of the queue with the same handouts. */
  lemma {:induction false} SystemRunIsAQueueRun(env: Env, ops: seq<Op>) returns (qops: seq<Outbox.QueueOp>)
    ensures Outbox.QueueAfter(env.world.digest, qops) == After(env, ops).outbox
    ensures Outbox.HandedOut(env.world.digest, qops) == SystemHandedOut(env, ops)
  {
    hide Commit, GoodOwing, Outbox.QueueStep;
    qops := [];
    if ops != [] {
      var before, op := ops[..|ops| - 1], ops[|ops| - 1];
      var earlier := SystemRunIsAQueueRun(env, before);
      EveryReachedLedgerIsGood(env, before);
      var qop := StepAsQueueOp(env, After(env, before), op);
      match qop
      case None => qops := earlier;
      case Some(step) =>
        qops := earlier + [step];
        assert qops[..|earlier|] == earlier;
    }
  }

  /** In any interleaving of the system, actions are handed to workers oldest first and no
      action is ever handed out twice. */
  lemma NoActionIsHandedOutTwice(env: Env, ops: seq<Op>)
    ensures Outbox.Increasing(SystemHandedOut(env, ops))
  {
    hide Commit;
    var qops := SystemRunIsAQueueRun(env, ops);
    Outbox.HandedOutInOrderAndOnce(env.world.digest, qops);
  }

  /** And the log any run leaves is one the stored-log verifier accepts. */
  lemma EveryReachedLogIsHonest(env: Env, ops: seq<Op>)
    ensures After(env, ops).audit != [] ==>
              ChainVerifier.HonestLog(env.hash, env.world.digest, After(env, ops).audit)
  {
    hide Commit;
    EveryReachedLedgerIsGood(env, ops);
  }
}
