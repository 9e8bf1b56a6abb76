/** What recovery can count on: a verified read always finishes its operation, an
    unchanged source always rebuilds its plan, and a create without a receipt stays
    where it is. */
module ProtocolRecovery {
  import opened Basics
  import opened Domain
  import opened ChatGraph
  import opened Snapshots
  import opened Builder
  import opened BuildTheorems
  import opened Plans
  import opened Storage
  import opened Protocol
  import opened ProtocolInv
  import opened ProtocolContent
  import opened ProtocolTheorems
  import opened ProtocolRuns
  import ProtocolExchange
  import Store

  /** The mapping checks pass for every verified read. */
  lemma VerifiedMaps(inst: Installation, db: Db, op: string, actual: Snapshot, create: bool)
    requires Tables(inst, db) && Content(db) && HasPlan(db, op) && Decoded(actual)
    requires VerifiedRead(db, inst, op, actual, create)
    ensures PlanOf(db, op).source in db.sources
    ensures MappingsOk(db.sources[PlanOf(db, op).source], MappingsFrom(actual.normalized.messages))
  {
    VerifiedMirrors(inst, db, op, actual, create);
    ReadIdsDiffer(actual.chat);
    var hash := PlanOf(db, op).source;
    PlanHasSource(inst, db, op);
    hide Tables, Content, Mirrors, OrderedOk, MappingsOk, MappingsFrom, ValidChat, VerifiedRead;
    MirrorMapsOneToOne(actual.normalized, hash, db.sources[hash]);
  }

  lemma PlanHasSource(inst: Installation, db: Db, op: string)
    requires Tables(inst, db) && HasPlan(db, op)
    ensures PlanOf(db, op).source in db.sources
    ensures db.sources[PlanOf(db, op).source].messages == PlanOf(db, op).source.messages
  {
    RowsOf(inst, db, db.ops[op].planId);
    assert SourceRow(db, PlanOf(db, op).source);
    hide Tables;
    var s := db.sources[PlanOf(db, op).source];
    assert s.Business().messages == s.messages;
  }

  /** Completing an update that was verified cannot fail: no version, trust or mapping
      check stands in the way. */
  lemma {:induction false} CompleteSucceeds(inst: Installation, db: Db, op: string, actual: Snapshot)
    requires Tables(inst, db) && Content(db) && HasPlan(db, op)
    requires db.ops[op].kind == Update && db.ops[op].status == Verifying && db.ops[op].bindingId in db.bindings
    requires Decoded(actual) && VerifiedRead(db, inst, op, actual, false)
    ensures var version := db.bindings[db.ops[op].bindingId].version;
      CompleteFault(db, inst, op, UpdatedBaseline(db.ops[op], PlanOf(db, op), version, actual), version).None?
  {
    hide Content, Tables, MappingsOk, MappingsFrom, Decoded, VerifiedRead, CompleteFault, AllowedBinding, HasBaseline,
      PlanOf;
    VerifiedMaps(inst, db, op, actual, false);
    var b := db.ops[op].bindingId;
    NextSlotFree(inst, db, b, op);
    UpdateReady(inst, db, op);
    NothingInTheWay(inst, db, op, UpdatedBaseline(db.ops[op], PlanOf(db, op), db.bindings[b].version, actual),
                    db.bindings[b].version);
  }

  lemma UpdateReady(inst: Installation, db: Db, op: string)
    requires Tables(inst, db) && HasPlan(db, op) && db.ops[op].kind == Update && Unresolved(db.ops[op].status)
    ensures var b := db.ops[op].bindingId;
      && b != "" && b in db.bindings && AllowedBinding(db, inst, b)
      && PlanOf(db, op).bindingId == b && PlanOf(db, op).version == db.bindings[b].version
  {
    hide Tables, AllowedBinding;
    RowsOf(inst, db, op);
    RowsOf(inst, db, db.ops[op].bindingId);
  }

  lemma NothingInTheWay(inst: Installation, db: Db, op: string, bl: Baseline, version: nat)
    requires HasPlan(db, op) && db.ops[op].kind == Update && db.ops[op].status == Verifying
    requires var b := db.ops[op].bindingId;
      && b != "" && b == bl.bindingId && b in db.bindings && AllowedBinding(db, inst, b)
      && db.bindings[b].version == version
      && PlanOf(db, op).bindingId == b && PlanOf(db, op).version == version && !HasBaseline(db, b, version + 1)
    requires PlanOf(db, op).source in db.sources && op !in db.baselines
    requires MappingsOk(db.sources[PlanOf(db, op).source], MappingsFrom(bl.target.messages))
    ensures CompleteFault(db, inst, op, bl, version).None?
  {
    hide MappingsOk, MappingsFrom, AllowedBinding, HasBaseline;
  }

  lemma NextSlotFree(inst: Installation, db: Db, b: string, op: string)
    requires Tables(inst, db) && b in db.bindings && op in db.ops && !db.ops[op].status.Succeeded?
    ensures !HasBaseline(db, b, db.bindings[b].version + 1) && op !in db.baselines
  {
    hide Tables;
    RowsOf(inst, db, op);
    if HasBaseline(db, b, db.bindings[b].version + 1) {
      var o := BaselineStored(db, b, db.bindings[b].version + 1);
      RowsOf(inst, db, o);
    }
  }

  /** Installing a create that was verified cannot fail either, unless its chat already
      belongs to a binding. */
  lemma {:induction false} FinalizeSucceeds(inst: Installation, db: Db, op: string, b: string, actual: Snapshot)
    requires Tables(inst, db) && Content(db) && HasPlan(db, op) && db.ops[op].kind == Create
    requires db.ops[op].status == Verifying
    requires Decoded(actual) && VerifiedRead(db, inst, op, actual, true)
    requires b != "" && b !in db.bindings
    ensures PlanOf(db, op).source in db.sources
    ensures FinalizeFault(db, CreatedRecord(db.ops[op], b, db.sources[PlanOf(db, op).source], actual)).None? <==>
      db.ops[op].target !in db.allow
  {
    VerifiedMaps(inst, db, op, actual, true);
    CreateRowOf(inst, db, op);
    hide Content, Decoded, VerifiedRead, Tables, OpRow, MappingsFrom, MappingsOk, SameMappings, FinalizeFault, RowsFree,
      PlanOf;
    var v := CreatedRecord(db.ops[op], b, db.sources[PlanOf(db, op).source], actual);
    SameAsItself(db.sources[PlanOf(db, op).source], v.mappings);
    OnlyRowsMatter(db, v);
    if db.ops[op].target !in db.allow { RowsAreFree(inst, db, v); } else { TakenIsNotFree(db, v); }
  }

  lemma CreateRowOf(inst: Installation, db: Db, op: string)
    requires Tables(inst, db) && op in db.ops && db.ops[op].kind == Create && db.ops[op].status == Verifying
    ensures OpRow(db, op) && op == db.ops[op].id && db.ops[op].target == db.ops[op].receipt != ""
    ensures op != ""
  {
    hide Tables;
    RowsOf(inst, db, op);
  }

  lemma OnlyRowsMatter(db: Db, v: VerifiedCreate)
    requires HasPlan(db, v.operationId) && OpRow(db, v.operationId)
    requires v.operationId != "" && v.bindingId != "" && v.target == v.receipt == db.ops[v.operationId].target
    requires db.ops[v.operationId].kind == Create && db.ops[v.operationId].status == Verifying
    requires v.mappings == MappingsFrom(v.verified.messages) && SameMappings(v.mappings, v.mappings)
    requires PlanOf(db, v.operationId).source in db.sources ==>
      MappingsOk(db.sources[PlanOf(db, v.operationId).source], v.mappings)
    ensures FinalizeFault(db, v).None? <==> RowsFree(db, v)
  {
    hide MappingsFrom, MappingsOk, SameMappings, RowsFree;
  }

  lemma TakenIsNotFree(db: Db, v: VerifiedCreate)
    requires v.target in db.allow
    ensures !RowsFree(db, v)
  {
  }

  lemma SameAsItself(source: SourceSnapshot, ps: seq<(string, string)>)
    requires MappingsOk(source, ps)
    ensures SameMappings(ps, ps)
  {
    Store.PairsAreMap(source, ps);
    forall i | 0 <= i < |ps| ensures ps[i].0 in PairsToMap(ps) && PairsToMap(ps)[ps[i].0] == ps[i].1 {
      assert (ps[i].0, ps[i].1) in ps;
    }
  }

  lemma RowsAreFree(inst: Installation, db: Db, v: VerifiedCreate)
    requires Tables(inst, db) && v.operationId in db.ops && !db.ops[v.operationId].status.Succeeded?
    requires v.bindingId !in db.bindings && v.target !in db.allow
    ensures RowsFree(db, v)
  {
    RowsOf(inst, db, v.operationId);
    forall b | b in db.bindings ensures db.bindings[b].target != v.target && db.bindings[b].createdBy != v.operationId {
      RowsOf(inst, db, b);
    }
    forall t | t in db.allow ensures db.allow[t].bindingId != v.bindingId && db.allow[t].createdBy != v.operationId {
      RowsOf(inst, db, t);
      RowsOf(inst, db, db.allow[t].bindingId);
    }
    if HasBaseline(db, v.bindingId, 1) {
      var o := BaselineStored(db, v.bindingId, 1);
      RowsOf(inst, db, o);
    }
  }

  // ----- rebuilding -----

  lemma OperationRebuilds(inst: Installation, db: Db, op: string, later: Snapshot)
    requires Tables(inst, db) && Content(db) && op in db.ops
    ensures HasPlan(db, op) && PlanOf(db, op).source in db.sources
    ensures db.ops[op].kind == Create ==> RebuildsNew(db.sources[PlanOf(db, op).source], PlanOf(db, op))
    ensures db.ops[op].kind == Update ==> Rebuilds(db.sources[PlanOf(db, op).source], PlanOf(db, op), later)
  {
    RowsOf(inst, db, op);
    assert PlanContent(db, db.ops[op].planId);
    hide Tables, Content, Rebuilds, RebuildsNew, PlanMirrors;
  }

  /** The check for a changed payload cannot fail: in every reachable state, for every
      operation's plan and any later read with the expected conflict hash, building the
      stored source again succeeds and gives the planned document. */
  lemma {:induction false} PayloadNeverChanges(inst: Installation, run: seq<Event>, op: string, later: Snapshot)
    requires IsRun(inst, START, run) && op in WorldOf(START, run).db.ops
    ensures var db := WorldOf(START, run).db;
      && HasPlan(db, op) && PlanOf(db, op).source in db.sources
      && var p, source := PlanOf(db, op), db.sources[PlanOf(db, op).source];
      && (db.ops[op].kind == Create ==> BuildOk(source, EMPTY_CHAT) && MatchesPlanned(Built(source, None), p))
      && (db.ops[op].kind == Update && Decoded(later) && p.expectedConflict == Some(later.conflict) ==>
            BuildOk(source, later.chat) && MatchesPlanned(Built(source, Some(later)), p))
  {
    hide IsRun, Schema, Tables, Content, ProtocolExchange.Exchange, BuildOk, MatchesPlanned, Decoded;
    Reached(inst, run);
    OperationRebuilds(inst, WorldOf(START, run).db, op, later);
  }

  // ----- receipt-less creates -----

  /** A create whose outcome is unknown and that has no receipt. */
  ghost predicate Lost(db: Db, op: string) {
    op in db.ops && db.ops[op].kind == Create && db.ops[op].target == ""
    && (db.ops[op].status.NeedsReconciliation? || db.ops[op].status.Failed?)
  }

  lemma TransitionKeepsLost(db: Db, op: string, x: string, expected: set<Status>, next: Status, patch: Patch)
    requires Lost(db, op)
    requires patch.target != "" ==> expected == {Applying} || expected == {Prepared}
    ensures var db2 := Transition(db, x, expected, next, patch).db;
      Lost(db2, op) && db2.ops[op].attempts == db.ops[op].attempts
  {
    hide Moved;
    if x == op && MoveFault(db.ops[op], expected, next, patch).None? { LostRow(db.ops[op], expected, next, patch); }
  }

  lemma LostRow(o: Operation, expected: set<Status>, next: Status, patch: Patch)
    requires o.kind == Create && o.target == "" && (o.status.NeedsReconciliation? || o.status.Failed?)
    requires patch.target != "" ==> expected == {Applying} || expected == {Prepared}
    requires MoveFault(o, expected, next, patch).None?
    ensures var m := Moved(o, next, patch);
      m.kind == Create && m.target == "" && (m.status.NeedsReconciliation? || m.status.Failed?)
      && m.attempts == o.attempts
  {
  }

  lemma PreparedCreateKeepsLost(inst: Installation, db: Db, q: Request, now: int, op: string)
    requires Lost(db, op)
    ensures var db2 := Storage.PrepareCreate(db, inst, q, now).db;
      Lost(db2, op) && db2.ops[op].attempts == db.ops[op].attempts
  {
  }

  lemma PreparedUpdateKeepsLost(inst: Installation, db: Db, q: Request, now: int, op: string)
    requires Lost(db, op)
    ensures var db2 := PrepareBinding(db, inst, q, now).db; Lost(db2, op) && db2.ops[op].attempts == db.ops[op].attempts
  {
  }

  lemma PreparingKeepsLost(inst: Installation, w: World, who: nat, a: Action, op: string)
    requires Enabled(inst, w, who, a) && Preparing(a) && Lost(w.db, op)
    ensures var db2 := DbAfter(inst, w, who, a); Lost(db2, op) && db2.ops[op].attempts == w.db.ops[op].attempts
  {
    hide BuildOk, Decoded, UpdatePlan, CreatePlan, UpdateStatus, Storage.PrepareCreate, PrepareBinding;
    var db := w.db;
    if a.PrepareCreate? {
      var p := db.plans[a.planId];
      PreparedCreateKeepsLost(inst, db, CreateRequest(inst, p, db.sources[p.source], a.operationId), a.now, op);
    } else if a.PrepareUpdate? {
      PreparedUpdateKeepsLost(inst, db, UpdateRequest(inst, db.plans[a.planId], a.operationId), a.now, op);
    }
  }

  lemma FinalizeKeepsLost(inst: Installation, db: Db, op: string, v: VerifiedCreate, now: int)
    requires Lost(db, op)
    ensures var db2 := FinalizeCreate(db, inst, v, now).db; Lost(db2, op) && db2.ops[op].attempts == db.ops[op].attempts
  {
    hide MappingsOk, MappingsFrom, SameMappings, PairsToMap, RowsFree;
  }

  lemma CompleteKeepsLost(inst: Installation, db: Db, op: string, x: string, bl: Baseline, version: nat, now: int)
    requires Lost(db, op)
    ensures var db2 := CompleteUpdate(db, inst, x, bl, version, now).db;
      Lost(db2, op) && db2.ops[op].attempts == db.ops[op].attempts
  {
    hide MappingsOk, MappingsFrom, PairsToMap, AllowedBinding;
  }

  lemma CrashKeepsLost(db: Db, op: string)
    requires Lost(db, op)
    ensures var db2 := RecoverInterrupted(db); Lost(db2, op) && db2.ops[op].attempts == db.ops[op].attempts
  {
  }

  lemma StepKeepsLost(inst: Installation, w: World, who: nat, a: Action, op: string)
    requires Enabled(inst, w, who, a) && Lost(w.db, op)
    ensures var db2 := After(inst, w, who, a).db; Lost(db2, op) && db2.ops[op].attempts == w.db.ops[op].attempts
  {
    hide FinalizeCreate, CompleteUpdate, RecoverInterrupted, Transition, MayRead, Decoded, MatchesPlanned, Lost,
      BuildOk, UpdateStatus;
    var db := w.db;
    AfterTables(inst, w, who, a);
    if Preparing(a) {
      PreparingKeepsLost(inst, w, who, a, op);
    } else if a.Begin? {
      if a.op in db.ops { TransitionKeepsLost(db, op, a.op, {Prepared}, Applying, BeginPatch(db, db.ops[a.op])); }
    } else if a.RecordReceipt? {
      TransitionKeepsLost(db, op, a.op, {Applying}, Verifying, ReceiptPatch(a.chatId));
    } else if a.RecordUpdate? {
      TransitionKeepsLost(db, op, a.op, {Applying}, Verifying, UpdatePatch(a.op));
    } else if a.FinishNoChange? {
      TransitionKeepsLost(db, op, a.op, {Prepared}, Succeeded, DonePatch(a.now));
    } else if a.Fail? {
      TransitionKeepsLost(db, op, a.op, SETTLEABLE, Failed, FailPatch(a.code));
    } else if a.Suspend? {
      TransitionKeepsLost(db, op, a.op, a.expected, NeedsReconciliation, ReadbackPatch(a.code));
    } else if a.Resume? {
      TransitionKeepsLost(db, op, a.op, {NeedsReconciliation}, Verifying, ReadbackPatch(""));
    } else if a.Finalize? {
      FinalizeKeepsLost(inst, db, op,
                        CreatedRecord(db.ops[a.op], a.bindingId, db.sources[PlanOf(db, a.op).source], a.actual), a.now);
    } else if a.Complete? {
      CompleteKeepsLost(inst, db, op, a.op, UpdatedBaseline(db.ops[a.op], PlanOf(db, a.op), a.version, a.actual),
                        a.version, a.now);
    } else if a.Crash? {
      CrashKeepsLost(db, op);
    }
  }

  /** Once the outcome of a create without a receipt is unknown, no later step of any
      caller gives it a target, sends it again or lets it succeed. */
  lemma {:induction false} LostCreateIsAbsorbing(inst: Installation, start: World, run: seq<Event>, op: string)
    requires IsRun(inst, start, run) && Lost(start.db, op)
    ensures Lost(WorldOf(start, run).db, op) && WorldOf(start, run).db.ops[op].attempts == start.db.ops[op].attempts
    decreases |run|
  {
    hide Enabled, After, Lost;
    if run != [] {
      var before, last := run[..|run| - 1], run[|run| - 1];
      LostCreateIsAbsorbing(inst, start, before, op);
      StepKeepsLost(inst, WorldOf(start, before), last.who, last.action, op);
      LostIsKnown(WorldOf(start, before).db, op);
    }
  }

  lemma LostIsKnown(db: Db, op: string)
    requires Lost(db, op)
    ensures op in db.ops
  {
  }
}
