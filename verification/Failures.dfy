/** What an operation marked failed says about its write. Failing moves the row only:
    the right to send stays with the caller that has it. So a failure is final exactly
    when nobody holds that right and nothing was sent, and an operation that was never
    attempted is always such a one. */
module Failures {
  import opened Basics
  import opened Domain
  import opened Snapshots
  import opened Builder
  import opened Plans
  import opened Storage
  import opened Protocol
  import opened ProtocolInv
  import opened ProtocolContent
  import opened ProtocolExchange
  import opened ProtocolRuns
  import opened ProtocolTheorems
  import Session

  ghost predicate Posted(w: World, op: string) {
    exists i :: 0 <= i < |w.posts| && w.posts[i].op == op
  }

  ghost predicate Started(db: Db, op: string) {
    op in db.ops && db.ops[op].attempts >= 1
  }

  ghost predicate HasFailed(db: Db, op: string) {
    op in db.ops && db.ops[op].status.Failed?
  }

  // ----- attempts -----

  lemma TransitionStarts(db: Db, x: string, expected: set<Status>, next: Status, patch: Patch, op: string)
    requires next != Applying && Started(Transition(db, x, expected, next, patch).db, op)
    ensures Started(db, op)
  {
    hide MoveFault;
  }

  lemma PreparedStarts(inst: Installation, db: Db, q: Request, now: int, op: string)
    ensures Started(Storage.PrepareCreate(db, inst, q, now).db, op) ==> Started(db, op)
    ensures Started(PrepareBinding(db, inst, q, now).db, op) ==> Started(db, op)
  {
    hide CreateFault, BindingFault;
  }

  lemma FinalizeStarts(inst: Installation, db: Db, v: VerifiedCreate, now: int, op: string)
    requires Started(FinalizeCreate(db, inst, v, now).db, op)
    ensures Started(db, op)
  {
    hide MappingsOk, MappingsFrom, SameMappings, PairsToMap, RowsFree;
  }

  lemma CompleteStarts(inst: Installation, db: Db, x: string, bl: Baseline, version: nat, now: int, op: string)
    requires Started(CompleteUpdate(db, inst, x, bl, version, now).db, op)
    ensures Started(db, op)
  {
    hide MappingsOk, MappingsFrom, PairsToMap, AllowedBinding;
  }

  lemma PreparingStarts(inst: Installation, w: World, who: nat, a: Action, op: string)
    requires Enabled(inst, w, who, a) && Preparing(a) && Started(DbAfter(inst, w, who, a), op)
    ensures Started(w.db, op)
  {
    hide BuildOk, Decoded, UpdatePlan, CreatePlan, UpdateStatus, Storage.PrepareCreate, PrepareBinding;
    var db := w.db;
    if a.PrepareCreate? {
      PreparedStarts(inst, db,
                     CreateRequest(inst, db.plans[a.planId], db.sources[db.plans[a.planId].source], a.operationId),
                     a.now, op);
    } else if a.PrepareUpdate? {
      PreparedStarts(inst, db, UpdateRequest(inst, db.plans[a.planId], a.operationId), a.now, op);
    }
  }

  /** Only beginning an operation starts it. */
  lemma MovingStarts(inst: Installation, w: World, who: nat, a: Action, op: string)
    requires Enabled(inst, w, who, a) && !Preparing(a) && !a.Begin? && Started(DbAfter(inst, w, who, a), op)
    ensures Started(w.db, op)
  {
    hide FinalizeCreate, CompleteUpdate, Transition, MayRead, Decoded, MatchesPlanned, Started;
    var db := w.db;
    match a
    case RecordReceipt(x, id) => TransitionStarts(db, x, {Applying}, Verifying, ReceiptPatch(id), op);
    case RecordUpdate(x) => TransitionStarts(db, x, {Applying}, Verifying, UpdatePatch(x), op);
    case FinishNoChange(x, now) => TransitionStarts(db, x, {Prepared}, Succeeded, DonePatch(now), op);
    case Fail(x, code) => TransitionStarts(db, x, SETTLEABLE, Failed, FailPatch(code), op);
    case Suspend(x, expected, code) => TransitionStarts(db, x, expected, NeedsReconciliation, ReadbackPatch(code), op);
    case Resume(x) => TransitionStarts(db, x, {NeedsReconciliation}, Verifying, ReadbackPatch(""), op);
    case Finalize(x, b, actual, now) =>
      FinalizeStarts(inst, db, CreatedRecord(db.ops[x], b, db.sources[PlanOf(db, x).source], actual), now, op);
    case Complete(x, version, actual, now) =>
      CompleteStarts(inst, db, x, UpdatedBaseline(db.ops[x], PlanOf(db, x), version, actual), version, now, op);
    case Crash => CrashStarts(db, op);
    case _ =>
  }

  lemma CrashStarts(db: Db, op: string)
    requires Started(RecoverInterrupted(db), op)
    ensures Started(db, op)
  {
  }

  lemma BeginStarts(db: Db, x: string, op: string)
    requires x in db.ops && Started(Transition(db, x, {Prepared}, Applying, BeginPatch(db, db.ops[x])).db, op)
    ensures Started(db, op) || (op == x && Transition(db, x, {Prepared}, Applying, BeginPatch(db, db.ops[x])).db != db)
  {
  }

  /** Whoever starts an operation gets the right to send. */
  lemma StartingClaims(inst: Installation, w: World, who: nat, a: Action, op: string)
    requires Enabled(inst, w, who, a) && Started(After(inst, w, who, a).db, op)
    ensures Started(w.db, op) || op in After(inst, w, who, a).claims
  {
    hide Enabled, DbAfter, Started;
    AfterTables(inst, w, who, a);
    if Preparing(a) {
      PreparingStarts(inst, w, who, a, op);
    } else if a.Begin? {
      BeginningClaims(inst, w, who, a.op, op);
    } else {
      MovingStarts(inst, w, who, a, op);
    }
  }

  lemma BeginningClaims(inst: Installation, w: World, who: nat, x: string, op: string)
    requires Enabled(inst, w, who, Begin(x)) && Started(DbAfter(inst, w, who, Begin(x)), op)
    ensures Started(w.db, op) || op in After(inst, w, who, Begin(x)).claims
  {
    hide Transition, Started;
    if x in w.db.ops { BeginStarts(w.db, x, op); }
  }

  lemma {:induction false} StartedWasClaimed(inst: Installation, run: seq<Event>, op: string) returns (k: nat)
    requires IsRun(inst, START, run) && Started(WorldOf(START, run).db, op)
    ensures k <= |run| && op in WorldOf(START, run[..k]).claims
    decreases |run|
  {
    hide Enabled, After;
    var before, last := run[..|run| - 1], run[|run| - 1];
    StartingClaims(inst, WorldOf(START, before), last.who, last.action, op);
    if op in WorldOf(START, run).claims {
      assert run[..|run|] == run;
      return |run|;
    }
    k := StartedWasClaimed(inst, before, op);
    assert before[..k] == run[..k];
  }

  lemma ClaimedIsStarted(inst: Installation, run: seq<Event>, op: string)
    requires IsRun(inst, START, run) && op in WorldOf(START, run).claims
    ensures Started(WorldOf(START, run).db, op) && !Posted(WorldOf(START, run), op)
    ensures HasPlan(WorldOf(START, run).db, op) && !WorldOf(START, run).db.ops[op].status.Prepared?
  {
    hide Schema, Tables, Content, IsRun, MatchesPlanned;
    Reached(inst, run);
    var w := WorldOf(START, run);
    assert ClaimRow(w, op);
    RowsOf(inst, w.db, op);
    forall i | 0 <= i < |w.posts| ensures w.posts[i].op != op { assert PostRow(w, i); }
  }

  /** The number of attempts tells whether anybody ever had the right to send. */
  lemma {:induction false} NeverStartedIff(inst: Installation, run: seq<Event>, op: string)
    requires IsRun(inst, START, run) && op in WorldOf(START, run).db.ops
    ensures WorldOf(START, run).db.ops[op].attempts == 0 <==>
      forall k :: 0 <= k <= |run| ==> op !in WorldOf(START, run[..k]).claims
  {
    hide IsRun, Grows;
    forall k: nat | k <= |run| && op in WorldOf(START, run[..k]).claims
      ensures WorldOf(START, run).db.ops[op].attempts > 0
    {
      RunsOnlyGrow(inst, run, k);
      ClaimedIsStarted(inst, run[..k], op);
      GrowsAt(WorldOf(START, run[..k]).db, WorldOf(START, run).db, op);
    }
    if WorldOf(START, run).db.ops[op].attempts > 0 { var k := StartedWasClaimed(inst, run, op); }
  }

  // ----- when a failure is final -----

  /** A failed operation without a claim gets none, and nothing is sent for it. */
  lemma QuietStep(inst: Installation, w: World, who: nat, a: Action, op: string)
    requires Enabled(inst, w, who, a) && HasFailed(w.db, op) && op !in w.claims
    ensures op !in After(inst, w, who, a).claims && (Posted(After(inst, w, who, a), op) ==> Posted(w, op))
  {
    hide DbAfter, MayRead, Decoded, MatchesPlanned, BuildOk, UpdateStatus;
    if a.Begin? { FailedNeverBegins(inst, w, who, a.op, op); }
    var posts := After(inst, w, who, a).posts;
    if i :| 0 <= i < |posts| && posts[i].op == op { assert i < |w.posts| && w.posts[i] == posts[i]; }
  }

  lemma FailedNeverBegins(inst: Installation, w: World, who: nat, x: string, op: string)
    requires Enabled(inst, w, who, Begin(x)) && HasFailed(w.db, op) && op !in w.claims
    ensures op !in After(inst, w, who, Begin(x)).claims
  {
  }

  lemma {:induction false} QuietStays(inst: Installation, run: seq<Event>, more: seq<Event>, op: string)
    requires IsRun(inst, START, run + more) && HasFailed(WorldOf(START, run).db, op)
    requires op !in WorldOf(START, run).claims
    ensures HasFailed(WorldOf(START, run + more).db, op) && op !in WorldOf(START, run + more).claims
    ensures Posted(WorldOf(START, run + more), op) ==> Posted(WorldOf(START, run), op)
    decreases |more|
  {
    hide Enabled, After, Grows;
    if more == [] {
      assert run + more == run;
    } else {
      var all, rest := run + more, more[..|more| - 1];
      assert all[..|all| - 1] == run + rest;
      QuietStays(inst, run, rest, op);
      QuietStep(inst, WorldOf(START, run + rest), all[|all| - 1].who, all[|all| - 1].action, op);
      RunsOnlyGrow(inst, all, |all| - 1);
      GrowsAt(WorldOf(START, run + rest).db, WorldOf(START, all).db, op);
    }
  }

  /** Nothing was sent for the operation, and nothing ever will be. */
  ghost predicate NeverSent(inst: Installation, run: seq<Event>, op: string) {
    forall more :: IsRun(inst, START, run + more) ==> !Posted(WorldOf(START, run + more), op)
  }

  /** A failure is final exactly when nobody holds the right to send and nothing was
      sent; one without attempts always is. */
  lemma {:induction false} FailureIsFinalIff(inst: Installation, run: seq<Event>, op: string)
    requires IsRun(inst, START, run) && HasFailed(WorldOf(START, run).db, op)
    ensures NeverSent(inst, run, op) <==> op !in WorldOf(START, run).claims && !Posted(WorldOf(START, run), op)
    ensures WorldOf(START, run).db.ops[op].attempts == 0 ==>
      NeverSent(inst, run, op) && op !in WorldOf(START, run).claims
  {
    hide IsRun, Posted;
    if op in WorldOf(START, run).claims {
      var next := SendNow(inst, run, op);
      ClaimedIsStarted(inst, run, op);
    } else {
      forall more | IsRun(inst, START, run + more) && Posted(WorldOf(START, run + more), op)
        ensures Posted(WorldOf(START, run), op)
      {
        QuietStays(inst, run, more, op);
      }
    }
    assert run + [] == run;
    if Posted(WorldOf(START, run), op) {
      assert Posted(WorldOf(START, run + []), op);
      PostedIsStarted(inst, run, op);
    }
  }

  lemma PostedIsStarted(inst: Installation, run: seq<Event>, op: string)
    requires IsRun(inst, START, run) && Posted(WorldOf(START, run), op)
    ensures Started(WorldOf(START, run).db, op)
  {
    hide Schema, Tables, Content, IsRun, MatchesPlanned;
    Reached(inst, run);
    var w := WorldOf(START, run);
    var i :| 0 <= i < |w.posts| && w.posts[i].op == op;
    assert PostRow(w, i);
  }

  // ----- sending after a failure -----

  /** The write of a started operation, as its plan has it. */
  function PlannedPost(db: Db, op: string): Post
    requires HasPlan(db, op)
  {
    var o := db.ops[op];
    Post(op, if o.kind == Create then None else Some(WriteTarget(db, o)), PlannedSnapshot(PlanOf(db, op)))
  }

  lemma PlannedMatches(p: Plan)
    ensures MatchesPlanned(PlannedSnapshot(p), p)
  {
  }

  /** Whoever holds the right to send can use it, whatever became of the operation. */
  lemma SendNow(inst: Installation, run: seq<Event>, op: string) returns (next: Event)
    requires IsRun(inst, START, run) && op in WorldOf(START, run).claims
    ensures HasPlan(WorldOf(START, run).db, op)
    ensures next.who == WorldOf(START, run).claims[op]
    ensures next.action == Send(op, PlannedSnapshot(PlanOf(WorldOf(START, run).db, op)))
    ensures IsRun(inst, START, run + [next]) && WorldOf(START, run + [next]) == next.world
    ensures next.world == Sent(WorldOf(START, run), op, PlannedSnapshot(PlanOf(WorldOf(START, run).db, op)))
    ensures next.world.posts == WorldOf(START, run).posts + [PlannedPost(WorldOf(START, run).db, op)]
    ensures Posted(next.world, op)
  {
    hide IsRun, Enabled, After, MatchesPlanned, Posted, PlannedSnapshot;
    var w := WorldOf(START, run);
    ClaimedIsStarted(inst, run, op);
    var desired, who := PlannedSnapshot(PlanOf(w.db, op)), w.claims[op];
    PlannedMatches(PlanOf(w.db, op));
    Session.SendStep(inst, w, who, op, desired);
    Session.Extend(inst, run, who, Send(op, desired));
    next := Event(who, Send(op, desired), After(inst, w, who, Send(op, desired)));
    NowSent(w, op, desired);
  }

  lemma NowSent(w: World, op: string, desired: Snapshot)
    requires op in w.db.ops
    ensures Posted(Sent(w, op, desired), op)
  {
    var posts := Sent(w, op, desired).posts;
    assert posts[|posts| - 1].op == op;
  }

  lemma FailStep(inst: Installation, w: World, who: nat, op: string, code: string)
    ensures Enabled(inst, w, who, Fail(op, code))
    ensures After(inst, w, who, Fail(op, code))
              == w.(db := Transition(w.db, op, SETTLEABLE, Failed, FailPatch(code)).db)
  {
    hide Transition;
  }

  lemma FailsUnresolved(db: Db, op: string, code: string)
    requires op in db.ops && Unresolved(db.ops[op].status)
    ensures HasFailed(Transition(db, op, SETTLEABLE, Failed, FailPatch(code)).db, op)
  {
  }

  /** While a caller holds the right to send, any caller may mark the operation failed,
      and the write can still follow. */
  lemma {:induction false} FailThenSend(inst: Installation, run: seq<Event>, op: string, other: nat, code: string)
    returns (fail: Event, send: Event)
    requires IsRun(inst, START, run) && op in WorldOf(START, run).claims
    requires op in WorldOf(START, run).db.ops ==> Unresolved(WorldOf(START, run).db.ops[op].status)
    ensures fail.who == other && fail.action == Fail(op, code) && send.who == WorldOf(START, run).claims[op]
    ensures send.action.Send?
    ensures IsRun(inst, START, run + [fail]) && IsRun(inst, START, run + [fail] + [send])
    ensures HasFailed(fail.world.db, op) && fail.world.posts == WorldOf(START, run).posts
    ensures send.world.db == fail.world.db && Posted(send.world, op) && !Posted(fail.world, op)
  {
    hide IsRun, Enabled, After, Posted, HasFailed, PlannedPost, PlannedSnapshot, Transition;
    var w := WorldOf(START, run);
    ClaimedIsStarted(inst, run, op);
    FailStep(inst, w, other, op, code);
    FailsUnresolved(w.db, op, code);
    Session.Extend(inst, run, other, Fail(op, code));
    fail := Event(other, Fail(op, code), After(inst, w, other, Fail(op, code)));
    ClaimedIsStarted(inst, run + [fail], op);
    send := SendNow(inst, run + [fail], op);
  }
}
