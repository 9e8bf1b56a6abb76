/** Every step keeps the tables consistent and only ever adds to them. */
module ProtocolSteps {
  import opened Basics
  import opened Domain
  import opened Plans
  import opened Storage
  import opened Protocol
  import opened ProtocolInv

  lemma Unmoved(inst: Installation, db: Db)
    requires Tables(inst, db)
    ensures Sound(inst, db, db)
  {
  }

  // ----- plans -----

  lemma PlansFine(inst: Installation, db: Db, db2: Db, x: string)
    requires db2 == db.(sources := db2.sources, plans := db2.plans) && KeptPlan(db, db2, x)
    requires PlanStep(inst, db, db2, x)
    ensures RowFine(inst, db, db2, x)
  {
    hide KeptPlan, PlanStep;
  }

  /** Only sources and plans change. */
  lemma PlansChanged(inst: Installation, db: Db, db2: Db)
    requires Tables(inst, db) && db2 == db.(sources := db2.sources, plans := db2.plans)
    requires forall k :: SourceFine(db, db2, k)
    requires forall p :: KeptPlan(db, db2, p) && PlanStep(inst, db, db2, p)
    ensures Sound(inst, db, db2)
  {
    hide Tables, Sound, SourceFine, KeptPlan, PlanStep, RowFine;
    forall x ensures RowFine(inst, db, db2, x) { PlansFine(inst, db, db2, x); }
    TablesKept(inst, db, db2);
  }

  lemma PutSourceSound(inst: Installation, db: Db, s: SourceSnapshot)
    requires Tables(inst, db)
    ensures Sound(inst, db, Storage.PutSource(db, s))
  {
    hide Tables, Sound, SourceFine, KeptPlan, PlanStep;
    var db2 := Storage.PutSource(db, s);
    forall k ensures SourceFine(db, db2, k) { SourcePut(db, s, k); }
    forall p ensures KeptPlan(db, db2, p) && PlanStep(inst, db, db2, p) { PlansStay(inst, db, db2, p); }
    PlansChanged(inst, db, db2);
  }

  lemma PlansStay(inst: Installation, db: Db, db2: Db, p: string)
    requires db2.plans == db.plans
    ensures KeptPlan(db, db2, p) && PlanStep(inst, db, db2, p)
  {
  }

  lemma SourcePut(db: Db, s: SourceSnapshot, k: SourceSnapshot)
    ensures SourceFine(db, Storage.PutSource(db, s), k)
  {
  }

  /** One plan row is added, or confirmed. */
  lemma PlanWrittenSound(inst: Installation, db: Db, id: string, row: Plan)
    requires Tables(inst, db) && PlanRow(inst, db.(plans := db.plans[id := row]), id)
    requires id in db.plans ==> PlanGrows(db.plans[id], row)
    ensures Sound(inst, db, db.(plans := db.plans[id := row]))
  {
    hide Tables, Sound;
    PlansChanged(inst, db, db.(plans := db.plans[id := row]));
  }

  /** Storing a plan whose row would be sound. */
  lemma SavePlanSound(inst: Installation, db: Db, p: Plan)
    requires Tables(inst, db)
    requires if p.bindingId == "" then p.version == 0
             else p.bindingId in db.bindings && 1 <= p.version <= db.bindings[p.bindingId].version
    ensures Sound(inst, db, SavePlan(db, inst, p).db)
  {
    hide Tables, Sound;
    if SavePlan(db, inst, p).result.Ok? && p.id !in db.plans {
      PlanWrittenSound(inst, db, p.id, p.(ownerId := inst.owner, confirmedAt := None));
    }
    Unmoved(inst, db);
  }

  lemma ConfirmSound(inst: Installation, db: Db, p: string, now: int)
    requires Tables(inst, db)
    ensures Sound(inst, db, ConfirmPlan(db, inst, p, now).db)
  {
    hide Sound, OpRow, BindingRow, AllowRow, BaselineRow, SourceRow, IntentRow;
    var r := ConfirmPlan(db, inst, p, now);
    assert PlanRow(inst, db, p);
    if r.result.Ok? && r.db != db {
      PlanWrittenSound(inst, db, p, r.result.value);
    }
    Unmoved(inst, db);
  }

  // ----- new operations -----

  lemma OpsFine(inst: Installation, db: Db, db2: Db, x: string)
    requires db2 == db.(ops := db2.ops, intents := db2.intents)
    requires KeptOp(db, db2, x) && OpStep(db, db2, x) && KeptIntent(db, db2, x) && IntentStep(db, db2, x)
    ensures RowFine(inst, db, db2, x)
  {
    hide KeptOp, OpStep, KeptIntent, IntentStep;
  }

  /** Only operations and intents change. */
  lemma OpsChanged(inst: Installation, db: Db, db2: Db)
    requires Tables(inst, db) && db2 == db.(ops := db2.ops, intents := db2.intents)
    requires forall o :: KeptOp(db, db2, o) && OpStep(db, db2, o)
    requires forall i :: KeptIntent(db, db2, i) && IntentStep(db, db2, i)
    ensures Sound(inst, db, db2)
  {
    hide Tables, Sound, KeptOp, OpStep, KeptIntent, IntentStep, RowFine;
    forall x ensures RowFine(inst, db, db2, x) { OpsFine(inst, db, db2, x); }
    TablesKept(inst, db, db2);
  }

  /** A prepared operation is added, with an intent if it is a create. */
  lemma OpAddedSound(inst: Installation, db: Db, db2: Db, o: Operation)
    requires Tables(inst, db) && o.id !in db.ops && o.id !in db.intents
    requires db2 == db.(ops := db.ops[o.id := o], intents := db2.intents) && OpRow(db2, o.id)
    requires if o.kind == Create then o.id in db2.intents && db2.intents == db.intents[o.id := db2.intents[o.id]]
             else db2.intents == db.intents
    ensures Sound(inst, db, db2)
  {
    hide Tables, Sound;
    OpsChanged(inst, db, db2);
  }

  lemma PrepareCreateSound(inst: Installation, db: Db, planId: string, op: string, now: int)
    requires Tables(inst, db) && planId in db.plans && Applicable(db.plans[planId].status)
    requires db.plans[planId].source in db.sources
    ensures Sound(inst, db,
                  Storage.PrepareCreate(db, inst,
                                        CreateRequest(inst, db.plans[planId], db.sources[db.plans[planId].source], op),
                                        now).db)
  {
    hide Sound, BindingRow, BaselineRow, AllowRow;
    var p := db.plans[planId];
    var q := CreateRequest(inst, p, db.sources[p.source], op);
    var r := Storage.PrepareCreate(db, inst, q, now);
    assert PlanRow(inst, db, planId);
    if r.result.Ok? && r.result.value.1 {
      assert OpRow(r.db, op);
      OpAddedSound(inst, db, r.db, r.result.value.0);
    } else {
      Unmoved(inst, db);
    }
  }

  lemma PrepareUpdateSound(inst: Installation, db: Db, planId: string, op: string, now: int)
    requires Tables(inst, db) && planId in db.plans && Applicable(db.plans[planId].status)
    requires db.plans[planId].bindingId != ""
    ensures Sound(inst, db, PrepareBinding(db, inst, UpdateRequest(inst, db.plans[planId], op), now).db)
  {
    hide Sound, BindingRow, BaselineRow, AllowRow;
    var p := db.plans[planId];
    var r := PrepareBinding(db, inst, UpdateRequest(inst, p, op), now);
    assert PlanRow(inst, db, planId) && IntentRow(db, op);
    if r.result.Ok? && r.result.value.1 {
      assert OpRow(r.db, op);
      OpAddedSound(inst, db, r.db, r.result.value.0);
    } else {
      Unmoved(inst, db);
    }
  }

  // ----- operation moves -----

  /** One operation changes, within the rules. */
  lemma OpMovedSound(inst: Installation, db: Db, op: string, now: Operation)
    requires Tables(inst, db) && op in db.ops && OpGrows(db.ops[op], now) && OpRow(db.(ops := db.ops[op := now]), op)
    ensures Sound(inst, db, db.(ops := db.ops[op := now]))
  {
    hide Tables, Sound;
    OpsChanged(inst, db, db.(ops := db.ops[op := now]));
  }

  /** A status change that gives a sound row. */
  lemma MovedRowSound(inst: Installation, db: Db, op: string, expected: set<Status>, next: Status, patch: Patch)
    requires Tables(inst, db) && op in db.ops
    requires MoveFault(db.ops[op], expected, next, patch).None? ==>
      OpGrows(db.ops[op], Moved(db.ops[op], next, patch))
      && OpRow(db.(ops := db.ops[op := Moved(db.ops[op], next, patch)]), op)
    ensures Sound(inst, db, Transition(db, op, expected, next, patch).db)
  {
    hide Tables, Sound, OpRow, OpGrows;
    if MoveFault(db.ops[op], expected, next, patch).None? {
      OpMovedSound(inst, db, op, Moved(db.ops[op], next, patch));
    }
    Unmoved(inst, db);
  }

  /** Row facts of the moved operation follow from its old row and the patch. */
  ghost predicate PatchFits(db: Db, o: Operation, next: Status, patch: Patch) {
    && (next == Succeeded ==> o.kind == Update)
    && (patch.target != "" && o.kind == Update ==>
          o.bindingId in db.bindings && patch.target == db.bindings[o.bindingId].target)
    && (o.kind == Create ==> patch.target == patch.receipt)
    && next != Prepared
  }

  lemma RowMoves(db: Db, op: string, expected: set<Status>, next: Status, patch: Patch)
    requires op in db.ops && OpRow(db, op) && MoveFault(db.ops[op], expected, next, patch).None?
    requires PatchFits(db, db.ops[op], next, patch)
    ensures OpGrows(db.ops[op], Moved(db.ops[op], next, patch))
    ensures OpRow(db.(ops := db.ops[op := Moved(db.ops[op], next, patch)]), op)
  {
  }

  /** Every status change the service asks for is sound. */
  lemma TransitionSound(inst: Installation, db: Db, op: string, expected: set<Status>, next: Status, patch: Patch)
    requires Tables(inst, db) && (op in db.ops ==> PatchFits(db, db.ops[op], next, patch))
    ensures Sound(inst, db, Transition(db, op, expected, next, patch).db)
  {
    hide Sound, OpGrows, PatchFits;
    if op in db.ops {
      assert OpRow(db, op);
      if MoveFault(db.ops[op], expected, next, patch).None? { RowMoves(db, op, expected, next, patch); }
      MovedRowSound(inst, db, op, expected, next, patch);
    } else {
      Unmoved(inst, db);
    }
  }

  lemma InterruptedRow(db: Db, o: string)
    requires o in db.ops && OpRow(db, o)
    ensures OpRow(RecoverInterrupted(db), o) && KeptOp(db, RecoverInterrupted(db), o)
  {
  }

  lemma CrashSound(inst: Installation, db: Db)
    requires Tables(inst, db)
    ensures Sound(inst, db, RecoverInterrupted(db))
  {
    hide Sound, OpGrows;
    var db2 := RecoverInterrupted(db);
    forall o ensures KeptOp(db, db2, o) && OpStep(db, db2, o) {
      assert OpRow(db, o);
      if o in db.ops { InterruptedRow(db, o); }
    }
    OpsChanged(inst, db, db2);
  }
}
