/** The invariant over whole runs: every interleaving of callers, every crash and every
    behaviour of the target. */
module ProtocolRuns {
  import opened Domain
  import opened Snapshots
  import opened Builder
  import opened BuildTheorems
  import opened Plans
  import opened Storage
  import opened Protocol
  import opened ProtocolInv
  import opened ProtocolSteps
  import opened ProtocolFinish
  import opened ProtocolContent
  import opened ProtocolExchange
  import Store

  ghost predicate Inv(inst: Installation, w: World) {
    Schema(w.db) && Tables(inst, w.db) && Content(w.db) && Exchange(w)
  }

  lemma StartInv(inst: Installation)
    ensures Inv(inst, START)
  {
  }

  // ----- the tables -----

  /** Steps that lead up to a prepared operation; the others move one forward. */
  predicate Preparing(a: Action) {
    a.PutSource? || a.SaveCreatePlan? || a.SaveUpdatePlan? || a.Confirm? || a.PrepareCreate? || a.PrepareUpdate?
  }

  lemma PreparingSchema(inst: Installation, w: World, who: nat, a: Action)
    requires Schema(w.db) && Enabled(inst, w, who, a) && Preparing(a)
    ensures Schema(DbAfter(inst, w, who, a))
  {
    hide Schema, BuildOk, Decoded, UpdateStatus, Storage.PrepareCreate, PrepareBinding, SavePlan, ConfirmPlan,
      Storage.PutSource, UpdatePlan, CreatePlan;
    var db := w.db;
    match a
    case PutSource(s) => SourceSchema(db, s);
    case SaveCreatePlan(c, s) => PlanSchema(db, inst, CreatePlan(c, s));
    case SaveUpdatePlan(c, s, o, policy, actual) =>
      var b := db.baselines[o];
      PlanSchema(db, inst, UpdatePlan(c, b.bindingId, s, db.sources[b.source], b, policy, actual));
    case Confirm(p, now) => ConfirmSchema(db, inst, p, now);
    case PrepareCreate(p, op, now) =>
      Store.SchemaPrepareCreate(db, inst, CreateRequest(inst, db.plans[p], db.sources[db.plans[p].source], op), now);
    case PrepareUpdate(p, op, now) => Store.SchemaPrepareBinding(db, inst, UpdateRequest(inst, db.plans[p], op), now);
  }

  lemma MovingSchema(inst: Installation, w: World, who: nat, a: Action)
    requires Schema(w.db) && Enabled(inst, w, who, a) && !Preparing(a)
    ensures Schema(DbAfter(inst, w, who, a))
  {
    hide Schema, MatchesPlanned, Decoded, MayRead, Transition, FinalizeCreate, CompleteUpdate, RecoverInterrupted;
    var db := w.db;
    match a
    case Begin(op) =>
      if op in db.ops { Store.SchemaTransition(db, op, {Prepared}, Applying, BeginPatch(db, db.ops[op])); }
    case RecordReceipt(op, id) => Store.SchemaTransition(db, op, {Applying}, Verifying, ReceiptPatch(id));
    case RecordUpdate(op) => Store.SchemaTransition(db, op, {Applying}, Verifying, UpdatePatch(op));
    case FinishNoChange(op, now) => Store.SchemaTransition(db, op, {Prepared}, Succeeded, DonePatch(now));
    case Fail(op, code) => Store.SchemaTransition(db, op, SETTLEABLE, Failed, FailPatch(code));
    case Suspend(op, expected, code) =>
      Store.SchemaTransition(db, op, expected, NeedsReconciliation, ReadbackPatch(code));
    case Resume(op) => Store.SchemaTransition(db, op, {NeedsReconciliation}, Verifying, ReadbackPatch(""));
    case Finalize(op, b, actual, now) =>
      Store.SchemaFinalize(db, inst, CreatedRecord(db.ops[op], b, db.sources[PlanOf(db, op).source], actual), now);
    case Complete(op, version, actual, now) =>
      Store.SchemaComplete(db, inst, op, UpdatedBaseline(db.ops[op], PlanOf(db, op), version, actual), version, now);
    case Crash => Store.SchemaRecover(db);
    case _ =>
  }

  lemma SourceSchema(db: Db, s: SourceSnapshot)
    requires Schema(db)
    ensures Schema(Storage.PutSource(db, s))
  {
  }

  lemma PlanSchema(db: Db, inst: Installation, p: Plan)
    requires Schema(db)
    ensures Schema(SavePlan(db, inst, p).db)
  {
  }

  lemma ConfirmSchema(db: Db, inst: Installation, p: string, now: int)
    requires Schema(db)
    ensures Schema(ConfirmPlan(db, inst, p, now).db)
  {
  }

  lemma PreparingSound(inst: Installation, w: World, who: nat, a: Action)
    requires Tables(inst, w.db) && Enabled(inst, w, who, a) && Preparing(a)
    ensures Sound(inst, w.db, DbAfter(inst, w, who, a))
  {
    hide Tables, Sound, BuildOk, Decoded, UpdateStatus, Storage.PrepareCreate, PrepareBinding, SavePlan, ConfirmPlan,
      Storage.PutSource;
    var db := w.db;
    match a
    case PutSource(s) => PutSourceSound(inst, db, s);
    case SaveCreatePlan(c, s) => SavePlanSound(inst, db, CreatePlan(c, s));
    case SaveUpdatePlan(c, s, o, policy, actual) =>
      var b := db.baselines[o];
      RowsOf(inst, db, o);
      RowsOf(inst, db, b.bindingId);
      SavePlanSound(inst, db, UpdatePlan(c, b.bindingId, s, db.sources[b.source], b, policy, actual));
    case Confirm(p, now) => ConfirmSound(inst, db, p, now);
    case PrepareCreate(p, op, now) => PrepareCreateSound(inst, db, p, op, now);
    case PrepareUpdate(p, op, now) => PrepareUpdateSound(inst, db, p, op, now);
  }

  lemma MovingSound(inst: Installation, w: World, who: nat, a: Action)
    requires Schema(w.db) && Tables(inst, w.db) && Exchange(w) && Enabled(inst, w, who, a) && !Preparing(a)
    ensures Sound(inst, w.db, DbAfter(inst, w, who, a))
  {
    hide Schema, Tables, Exchange, Sound, MatchesPlanned, Decoded, MayRead, Transition, FinalizeCreate, CompleteUpdate,
      RecoverInterrupted;
    var db := w.db;
    match a
    case Begin(op) =>
      if op in db.ops {
        TransitionSound(inst, db, op, {Prepared}, Applying, BeginPatch(db, db.ops[op]));
      } else {
        Unmoved(inst, db);
      }
    case RecordReceipt(op, id) =>
      ReceiptOfCreate(w, op, id);
      TransitionSound(inst, db, op, {Applying}, Verifying, ReceiptPatch(id));
    case RecordUpdate(op) => TransitionSound(inst, db, op, {Applying}, Verifying, UpdatePatch(op));
    case FinishNoChange(op, now) => TransitionSound(inst, db, op, {Prepared}, Succeeded, DonePatch(now));
    case Fail(op, code) => TransitionSound(inst, db, op, SETTLEABLE, Failed, FailPatch(code));
    case Suspend(op, expected, code) =>
      TransitionSound(inst, db, op, expected, NeedsReconciliation, ReadbackPatch(code));
    case Resume(op) => TransitionSound(inst, db, op, {NeedsReconciliation}, Verifying, ReadbackPatch(""));
    case Finalize(op, b, actual, now) =>
      FinalizeSound(inst, db, CreatedRecord(db.ops[op], b, db.sources[PlanOf(db, op).source], actual), now);
    case Complete(op, version, actual, now) =>
      LocksOf(db);
      CompleteSound(inst, db, op, UpdatedBaseline(db.ops[op], PlanOf(db, op), version, actual), version, now);
    case Crash => CrashSound(inst, db);
    case _ => Unmoved(inst, db);
  }

  lemma LocksOf(db: Db)
    requires Schema(db)
    ensures LocksUnique(db.ops)
  {
    hide LocksUnique;
  }

  lemma ReceiptOfCreate(w: World, op: string, id: string)
    requires Exchange(w) && (op, id) in w.receipts
    ensures op in w.db.ops && w.db.ops[op].kind == Create && id != ""
  {
    hide MatchesPlanned;
    assert ReceiptRow(w, (op, id));
    var i :| 0 <= i < |w.posts| && w.posts[i].op == op && w.posts[i].target.None?;
    assert PostRow(w, i);
  }

  // ----- their meaning -----

  lemma SavedCreateContent(inst: Installation, db: Db, c: Context, s: SourceSnapshot)
    requires Tables(inst, db) && Content(db) && BuildOk(s, EMPTY_CHAT)
    requires Grows(db, SavePlan(db, inst, CreatePlan(c, s)).db)
    ensures Content(SavePlan(db, inst, CreatePlan(c, s)).db)
  {
    assert SourceRow(db, s.Business());
    hide Tables, Grows, Content, PlanSound, SavePlan;
    if s.Business() in db.sources { CreatePlanSound(c, s, db.sources[s.Business()]); }
    SavePlanContent(inst, db, CreatePlan(c, s));
  }

  lemma SavedUpdateContent(inst: Installation, db: Db, c: Context, s: SourceSnapshot, b: Baseline, policy: TitlePolicy,
                           actual: Snapshot)
    requires Tables(inst, db) && Content(db) && Decoded(actual) && b.operationId in db.baselines
    requires db.baselines[b.operationId] == b
    requires b.source in db.sources
    requires Applicable(UpdateStatus(c, s, db.sources[b.source], b, policy, actual)) ==> BuildOk(s, actual.chat)
    requires Grows(db, SavePlan(db, inst, UpdatePlan(c, b.bindingId, s, db.sources[b.source], b, policy, actual)).db)
    ensures Content(SavePlan(db, inst, UpdatePlan(c, b.bindingId, s, db.sources[b.source], b, policy, actual)).db)
  {
    assert BaselineContent(db, b.operationId) && SourceRow(db, b.source) && SourceRow(db, s.Business());
    BaselineHasBinding(inst, db, b.operationId);
    hide Tables, Grows, Content, PlanSound, SavePlan, UpdateStatus, BuildOk, Decoded, Mirrors, MappingsOk;
    MirrorsBusiness(b.target, db.sources[b.source]);
    if s.Business() in db.sources && Applicable(UpdateStatus(c, s, db.sources[b.source], b, policy, actual)) {
      UpdatePlanSound(c, b.bindingId, s, db.sources[b.source], b, policy, actual, db.sources[s.Business()]);
    }
    SavePlanContent(inst, db, UpdatePlan(c, b.bindingId, s, db.sources[b.source], b, policy, actual));
  }

  lemma BaselineHasBinding(inst: Installation, db: Db, o: string)
    requires Tables(inst, db) && o in db.baselines
    ensures db.baselines[o].operationId == o && db.baselines[o].bindingId != ""
  {
    hide Tables;
    RowsOf(inst, db, o);
    RowsOf(inst, db, db.baselines[o].bindingId);
  }

  lemma SourceContent(db: Db, s: SourceSnapshot)
    requires Content(db) && Grows(db, Storage.PutSource(db, s))
    ensures Content(Storage.PutSource(db, s))
  {
    hide Content, Grows;
    SameContent(db, Storage.PutSource(db, s));
  }

  lemma ConfirmOnly(inst: Installation, db: Db, p: string, now: int)
    ensures var db2 := ConfirmPlan(db, inst, p, now).db;
      (forall x :: x in db2.plans ==> x in db.plans) && db2.baselines == db.baselines
  {
  }

  lemma ConfirmedContent(inst: Installation, db: Db, p: string, now: int)
    requires Content(db) && Grows(db, ConfirmPlan(db, inst, p, now).db)
    ensures Content(ConfirmPlan(db, inst, p, now).db)
  {
    hide Content, Grows;
    ConfirmOnly(inst, db, p, now);
    hide ConfirmPlan;
    SameContent(db, ConfirmPlan(db, inst, p, now).db);
  }

  lemma PreparedCreateContent(inst: Installation, db: Db, q: Request, now: int)
    requires Content(db) && Grows(db, Storage.PrepareCreate(db, inst, q, now).db)
    ensures Content(Storage.PrepareCreate(db, inst, q, now).db)
  {
    hide Content, Grows, CreateFault;
    var db2 := Storage.PrepareCreate(db, inst, q, now).db;
    assert db2.plans == db.plans && db2.baselines == db.baselines;
    hide Storage.PrepareCreate;
    SameContent(db, db2);
  }

  lemma PreparedUpdateContent(inst: Installation, db: Db, q: Request, now: int)
    requires Content(db) && Grows(db, PrepareBinding(db, inst, q, now).db)
    ensures Content(PrepareBinding(db, inst, q, now).db)
  {
    hide Content, Grows, BindingFault;
    var db2 := PrepareBinding(db, inst, q, now).db;
    assert db2.plans == db.plans && db2.baselines == db.baselines;
    hide PrepareBinding;
    SameContent(db, db2);
  }

  lemma PreparingContent(inst: Installation, w: World, who: nat, a: Action)
    requires Tables(inst, w.db) && Content(w.db) && Enabled(inst, w, who, a) && Preparing(a)
    requires Grows(w.db, DbAfter(inst, w, who, a))
    ensures Content(DbAfter(inst, w, who, a))
  {
    hide Tables, Content, Grows, BuildOk, Decoded, UpdateStatus, Storage.PrepareCreate, PrepareBinding,
      Storage.PutSource, ConfirmPlan, SavePlan, UpdatePlan, CreatePlan;
    var db := w.db;
    match a
    case PutSource(s) => SourceContent(db, s);
    case SaveCreatePlan(c, s) => SavedCreateContent(inst, db, c, s);
    case SaveUpdatePlan(c, s, o, policy, actual) =>
      BaselineHasBinding(inst, db, o);
      SavedUpdateContent(inst, db, c, s, db.baselines[o], policy, actual);
    case Confirm(p, now) => ConfirmedContent(inst, db, p, now);
    case PrepareCreate(p, op, now) =>
      PreparedCreateContent(inst, db, CreateRequest(inst, db.plans[p], db.sources[db.plans[p].source], op), now);
    case PrepareUpdate(p, op, now) => PreparedUpdateContent(inst, db, UpdateRequest(inst, db.plans[p], op), now);
  }

  lemma FinalizedContent(inst: Installation, db: Db, op: string, b: string, actual: Snapshot, now: int)
    requires Tables(inst, db) && Content(db) && HasPlan(db, op) && PlanOf(db, op).source in db.sources
    requires Decoded(actual)
    requires VerifiedRead(db, inst, op, actual, true)
    requires Grows(db,
                   FinalizeCreate(db, inst, CreatedRecord(db.ops[op], b, db.sources[PlanOf(db, op).source], actual),
                                  now).db)
    ensures Content(FinalizeCreate(db, inst, CreatedRecord(db.ops[op], b, db.sources[PlanOf(db, op).source], actual),
                                   now).db)
  {
    VerifiedMirrors(inst, db, op, actual, true);
    RowsOf(inst, db, op);
    hide Tables, Content, Grows, Decoded, VerifiedRead, Mirrors, OrderedOk, Genuine, FinalizeCreate;
    FinalizeContent(inst, db, CreatedRecord(db.ops[op], b, db.sources[PlanOf(db, op).source], actual), now);
  }

  lemma CompletedContent(inst: Installation, db: Db, op: string, version: nat, actual: Snapshot, now: int)
    requires Tables(inst, db) && Content(db) && HasPlan(db, op) && Decoded(actual)
    requires VerifiedRead(db, inst, op, actual, false)
    requires Grows(db,
                   CompleteUpdate(db, inst, op, UpdatedBaseline(db.ops[op], PlanOf(db, op), version, actual), version,
                                  now).db)
    ensures Content(CompleteUpdate(db, inst, op, UpdatedBaseline(db.ops[op], PlanOf(db, op), version, actual), version,
                                   now).db)
  {
    VerifiedMirrors(inst, db, op, actual, false);
    hide Tables, Content, Grows, Decoded, VerifiedRead, Mirrors, OrderedOk, Genuine, CompleteUpdate;
    CompleteContent(inst, db, op, UpdatedBaseline(db.ops[op], PlanOf(db, op), version, actual), version, now);
  }

  lemma TransitionMovesOps(db: Db, op: string, expected: set<Status>, next: Status, patch: Patch)
    ensures var db2 := Transition(db, op, expected, next, patch).db;
      db2.plans == db.plans && db2.baselines == db.baselines
  {
    hide Moved, MoveFault;
  }

  lemma OnlyOpsMove(inst: Installation, w: World, who: nat, a: Action)
    requires Enabled(inst, w, who, a) && !Preparing(a) && !a.Finalize? && !a.Complete?
    ensures DbAfter(inst, w, who, a).plans == w.db.plans && DbAfter(inst, w, who, a).baselines == w.db.baselines
  {
    hide Decoded, MayRead, MatchesPlanned, HasOperationMarker, FinalizeCreate, CompleteUpdate, Transition;
    forall op, expected, next, patch
      ensures Transition(w.db, op, expected, next, patch).db.plans == w.db.plans
      ensures Transition(w.db, op, expected, next, patch).db.baselines == w.db.baselines
    {
      TransitionMovesOps(w.db, op, expected, next, patch);
    }
  }

  lemma MovingContent(inst: Installation, w: World, who: nat, a: Action)
    requires Tables(inst, w.db) && Content(w.db) && Enabled(inst, w, who, a) && !Preparing(a)
    requires Grows(w.db, DbAfter(inst, w, who, a))
    ensures Content(DbAfter(inst, w, who, a))
  {
    hide Tables, Content, Grows, Decoded, MayRead, MatchesPlanned, HasOperationMarker, FinalizeCreate, CompleteUpdate,
      Transition;
    if a.Finalize? {
      FinalizedContent(inst, w.db, a.op, a.bindingId, a.actual, a.now);
    } else if a.Complete? {
      CompletedContent(inst, w.db, a.op, a.version, a.actual, a.now);
    } else {
      OnlyOpsMove(inst, w, who, a);
      hide DbAfter;
      SameContent(w.db, DbAfter(inst, w, who, a));
    }
  }

  // ----- the exchange -----

  lemma TransitionTargets(w: World, op: string, expected: set<Status>, next: Status, patch: Patch, o: string)
    requires op in w.db.ops && w.db.ops[op].kind == Create && patch.target != "" ==> (op, patch.target) in w.receipts
    ensures TargetStep(w, Transition(w.db, op, expected, next, patch).db, o)
  {
    hide MoveFault;
    var t := Transition(w.db, op, expected, next, patch);
    if t.result.Ok? && o == op { assert t.db.ops[o] == Moved(w.db.ops[op], next, patch); }
  }

  lemma PreparedTargets(inst: Installation, w: World, q: Request, now: int, o: string)
    ensures TargetStep(w, Storage.PrepareCreate(w.db, inst, q, now).db, o)
    ensures TargetStep(w, PrepareBinding(w.db, inst, q, now).db, o)
  {
    hide CreateFault, BindingFault;
  }

  lemma PreparingTargets(inst: Installation, w: World, who: nat, a: Action, o: string)
    requires Enabled(inst, w, who, a) && Preparing(a)
    ensures TargetStep(w, DbAfter(inst, w, who, a), o)
  {
    hide Storage.PrepareCreate, PrepareBinding, BuildOk, Decoded, UpdatePlan, CreatePlan, UpdateStatus;
    var db := w.db;
    if a.PrepareCreate? {
      PreparedTargets(inst, w,
                      CreateRequest(inst, db.plans[a.planId], db.sources[db.plans[a.planId].source], a.operationId),
                      a.now, o);
    } else if a.PrepareUpdate? {
      PreparedTargets(inst, w, UpdateRequest(inst, db.plans[a.planId], a.operationId), a.now, o);
    }
  }

  lemma FinalizeTargets(inst: Installation, w: World, v: VerifiedCreate, now: int, o: string)
    ensures TargetStep(w, FinalizeCreate(w.db, inst, v, now).db, o)
  {
    hide MappingsOk, MappingsFrom, SameMappings, PairsToMap, RowsFree;
  }

  lemma CompleteTargets(inst: Installation, w: World, op: string, bl: Baseline, version: nat, now: int, o: string)
    ensures TargetStep(w, CompleteUpdate(w.db, inst, op, bl, version, now).db, o)
  {
    hide MappingsOk, MappingsFrom, PairsToMap, AllowedBinding;
  }

  lemma CrashTargets(w: World, o: string)
    ensures TargetStep(w, RecoverInterrupted(w.db), o)
  {
  }

  lemma MovingTargets(inst: Installation, w: World, who: nat, a: Action, o: string)
    requires Enabled(inst, w, who, a) && !Preparing(a)
    ensures TargetStep(w, DbAfter(inst, w, who, a), o)
  {
    hide FinalizeCreate, CompleteUpdate, RecoverInterrupted, Transition, MayRead, Decoded, MatchesPlanned, TargetStep;
    var db := w.db;
    assert TargetStep(w, db, o) by { SameTargets(w, o); }
    match a
    case Begin(op) =>
      if op in db.ops { TransitionTargets(w, op, {Prepared}, Applying, BeginPatch(db, db.ops[op]), o); }
    case RecordReceipt(op, id) => TransitionTargets(w, op, {Applying}, Verifying, ReceiptPatch(id), o);
    case RecordUpdate(op) => TransitionTargets(w, op, {Applying}, Verifying, UpdatePatch(op), o);
    case FinishNoChange(op, now) => TransitionTargets(w, op, {Prepared}, Succeeded, DonePatch(now), o);
    case Fail(op, code) => TransitionTargets(w, op, SETTLEABLE, Failed, FailPatch(code), o);
    case Suspend(op, expected, code) => TransitionTargets(w, op, expected, NeedsReconciliation, ReadbackPatch(code), o);
    case Resume(op) => TransitionTargets(w, op, {NeedsReconciliation}, Verifying, ReadbackPatch(""), o);
    case Finalize(op, b, actual, now) =>
      FinalizeTargets(inst, w, CreatedRecord(db.ops[op], b, db.sources[PlanOf(db, op).source], actual), now, o);
    case Complete(op, version, actual, now) =>
      CompleteTargets(inst, w, op, UpdatedBaseline(db.ops[op], PlanOf(db, op), version, actual), version, now, o);
    case Crash => CrashTargets(w, o);
    case _ =>
  }

  lemma SameTargets(w: World, o: string)
    ensures TargetStep(w, w.db, o)
  {
  }

  /** A started operation was never started before, and nothing was sent for it. */
  lemma BegunOnce(inst: Installation, w: World, op: string)
    requires Tables(inst, w.db) && Exchange(w) && op in w.db.ops
    ensures var t := Transition(w.db, op, {Prepared}, Applying, BeginPatch(w.db, w.db.ops[op]));
      t.db != w.db ==>
        op in t.db.ops && t.db.ops[op].attempts == 1 && forall i :: 0 <= i < |w.posts| ==> w.posts[i].op != op
  {
    hide Tables, MatchesPlanned;
    RowsOf(inst, w.db, op);
    forall i | 0 <= i < |w.posts| && w.posts[i].op == op ensures w.db.ops[op].attempts == 1 { assert PostRow(w, i); }
  }

  lemma StepExchange(inst: Installation, w: World, who: nat, a: Action)
    requires Tables(inst, w.db) && Exchange(w) && Enabled(inst, w, who, a)
    requires Sound(inst, w.db, DbAfter(inst, w, who, a))
    ensures Exchange(After(inst, w, who, a))
  {
    hide Tables, Exchange, Sound, MatchesPlanned, Decoded, TargetStep, Ours, BuildOk, UpdateStatus, MayRead;
    var db2 := DbAfter(inst, w, who, a);
    forall o ensures TargetStep(w, db2, o) {
      if Preparing(a) { PreparingTargets(inst, w, who, a, o); } else { MovingTargets(inst, w, who, a, o); }
    }
    ExchangeKept(inst, w, db2);
    if a.Begin? {
      if db2 != w.db {
        BegunOnce(inst, w, a.op);
        ClaimExchange(w.(db := db2), a.op, who);
      }
    } else if a.Send? {
      SendExchange(inst, w, a.op, a.desired);
    } else if a.Reply? {
      ReplyExchange(w, a.op, a.chatId);
    } else if a.Read? {
      ReadableIsOurs(inst, w, a.chatId);
      ReadExchange(w, a.chatId);
    } else if a.Crash? {
      ForgetClaims(w.(db := db2));
    }
  }

  // ----- runs -----

  /** Every step keeps the invariant, and the tables only grow. */
  lemma {:induction false} StepKeepsInv(inst: Installation, w: World, who: nat, a: Action)
    requires Inv(inst, w) && Enabled(inst, w, who, a)
    ensures Inv(inst, After(inst, w, who, a)) && Grows(w.db, After(inst, w, who, a).db)
  {
    hide Schema, Tables, Content, Exchange, Grows, Enabled, DbAfter;
    if Preparing(a) {
      PreparingSchema(inst, w, who, a);
      PreparingSound(inst, w, who, a);
      PreparingContent(inst, w, who, a);
    } else {
      MovingSchema(inst, w, who, a);
      MovingSound(inst, w, who, a);
      MovingContent(inst, w, who, a);
    }
    StepExchange(inst, w, who, a);
    AfterTables(inst, w, who, a);
  }

  lemma AfterTables(inst: Installation, w: World, who: nat, a: Action)
    requires Enabled(inst, w, who, a)
    ensures After(inst, w, who, a).db == DbAfter(inst, w, who, a)
  {
    hide Enabled;
  }

  /** The invariant holds in every reachable state. */
  lemma {:induction false} RunsKeepInv(inst: Installation, run: seq<Event>)
    requires IsRun(inst, START, run)
    ensures Inv(inst, WorldOf(START, run))
    decreases |run|
  {
    hide Inv, Enabled, After;
    if run == [] {
      StartInv(inst);
    } else {
      var before, last := run[..|run| - 1], run[|run| - 1];
      RunsKeepInv(inst, before);
      StepKeepsInv(inst, WorldOf(START, before), last.who, last.action);
    }
  }
}
