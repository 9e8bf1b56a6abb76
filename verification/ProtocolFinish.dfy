/** The two steps that install verified results keep the tables consistent. */
module ProtocolFinish {
  import opened Plans
  import opened Storage
  import opened ProtocolInv
  import opened ProtocolSteps

  // ----- creates -----

  lemma FinalizeOps(inst: Installation, db: Db, v: VerifiedCreate, now: int, o: string)
    requires FinalizeFault(db, v).None? && OpRow(db, v.operationId) && OpRow(db, o)
    ensures var db2 := FinalizeCreate(db, inst, v, now).db; KeptOp(db, db2, o) && OpStep(db, db2, o)
  {
  }

  lemma FinalizeBindings(inst: Installation, db: Db, v: VerifiedCreate, now: int, b: string)
    requires FinalizeFault(db, v).None?
    ensures var db2 := FinalizeCreate(db, inst, v, now).db; KeptBinding(db, db2, b) && BindingStep(inst, db, db2, b)
  {
    var db2 := FinalizeCreate(db, inst, v, now).db;
    if b == v.bindingId {
      assert db2.baselines[v.operationId].bindingId == b && db2.baselines[v.operationId].version == 1;
      assert HasBaseline(db2, b, 1);
      assert BindingRow(inst, db2, b);
    }
  }

  lemma FinalizeBaselines(inst: Installation, db: Db, v: VerifiedCreate, now: int, o: string)
    requires FinalizeFault(db, v).None? && OpRow(db, v.operationId) && v.mappings == MappingsFrom(v.verified.messages)
    ensures var db2 := FinalizeCreate(db, inst, v, now).db; KeptBaseline(db, db2, o) && BaselineStep(db, db2, o)
  {
    hide MappingsOk, MappingsFrom, SameMappings, PairsToMap;
  }

  lemma FinalizeRow(inst: Installation, db: Db, v: VerifiedCreate, now: int, x: string)
    requires FinalizeFault(db, v).None? && OpRow(db, v.operationId) && OpRow(db, x)
    requires v.mappings == MappingsFrom(v.verified.messages)
    ensures RowFine(inst, db, FinalizeCreate(db, inst, v, now).db, x)
  {
    hide MappingsOk, MappingsFrom, SameMappings, PairsToMap, OpRow, BindingRow, BaselineRow;
    FinalizeOps(inst, db, v, now, x);
    FinalizeBindings(inst, db, v, now, x);
    FinalizeBaselines(inst, db, v, now, x);
  }

  /** Finalising a verified create keeps the tables consistent. */
  lemma FinalizeSound(inst: Installation, db: Db, v: VerifiedCreate, now: int)
    requires Tables(inst, db) && v.mappings == MappingsFrom(v.verified.messages)
    ensures Sound(inst, db, FinalizeCreate(db, inst, v, now).db)
  {
    hide Tables, Sound, RowFine, OpRow, PlanRow, IntentRow, BindingRow, BaselineRow, AllowRow, MappingsFrom,
      FinalizeFault;
    if FinalizeFault(db, v).None? {
      var db2 := FinalizeCreate(db, inst, v, now).db;
      RowsOf(inst, db, v.operationId);
      forall x ensures RowFine(inst, db, db2, x) {
        RowsOf(inst, db, x);
        FinalizeRow(inst, db, v, now, x);
      }
      TablesKept(inst, db, db2);
    } else {
      Unmoved(inst, db);
    }
  }

  // ----- updates -----

  lemma CompletedOp(inst: Installation, db: Db, id: string, verified: Baseline, version: nat, now: int)
    requires CompleteFault(db, inst, id, verified, version).None? && OpRow(db, id)
    ensures var db2 := CompleteUpdate(db, inst, id, verified, version, now).db;
      KeptOp(db, db2, id) && OpStep(db, db2, id)
  {
    hide MappingsOk, MappingsFrom, PairsToMap;
  }

  /** No other unresolved update waits on the binding: it would hold the same lock. */
  lemma CompleteOps(inst: Installation, db: Db, id: string, verified: Baseline, version: nat, now: int, o: string)
    requires CompleteFault(db, inst, id, verified, version).None? && OpRow(db, id) && OpRow(db, o)
    requires LocksUnique(db.ops)
    ensures var db2 := CompleteUpdate(db, inst, id, verified, version, now).db; KeptOp(db, db2, o) && OpStep(db, db2, o)
  {
    hide MappingsOk, MappingsFrom, PairsToMap;
    if o == id { CompletedOp(inst, db, id, verified, version, now); }
  }

  lemma CompleteBindings(inst: Installation, db: Db, id: string, verified: Baseline, version: nat, now: int, b: string)
    requires CompleteFault(db, inst, id, verified, version).None? && BindingRow(inst, db, b)
    ensures var db2 := CompleteUpdate(db, inst, id, verified, version, now).db;
      KeptBinding(db, db2, b) && BindingStep(inst, db, db2, b)
  {
    hide MappingsOk, MappingsFrom, PairsToMap;
    var db2 := CompleteUpdate(db, inst, id, verified, version, now).db;
    if b == db.ops[id].bindingId {
      forall v: nat | 1 <= v <= version + 1 ensures HasBaseline(db2, b, v) {
        if v == version + 1 {
          assert db2.baselines[id].bindingId == b && db2.baselines[id].version == v;
        } else {
          assert HasBaseline(db, b, v);
          var o :| o in db.baselines && db.baselines[o].bindingId == b && db.baselines[o].version == v;
          assert o in db2.baselines && db2.baselines[o] == db.baselines[o];
        }
      }
    }
  }

  lemma CompleteBaselines(inst: Installation, db: Db, id: string, verified: Baseline, version: nat, now: int, o: string)
    requires CompleteFault(db, inst, id, verified, version).None? && OpRow(db, id)
    ensures var db2 := CompleteUpdate(db, inst, id, verified, version, now).db;
      KeptBaseline(db, db2, o) && BaselineStep(db, db2, o)
  {
    hide MappingsOk, MappingsFrom, PairsToMap;
  }

  lemma CompleteRow(inst: Installation, db: Db, id: string, verified: Baseline, version: nat, now: int, x: string)
    requires CompleteFault(db, inst, id, verified, version).None? && LocksUnique(db.ops)
    requires OpRow(db, id) && OpRow(db, x) && BindingRow(inst, db, x)
    ensures RowFine(inst, db, CompleteUpdate(db, inst, id, verified, version, now).db, x)
  {
    hide MappingsOk, MappingsFrom, PairsToMap, OpRow, BindingRow, BaselineRow, LocksUnique;
    CompleteOps(inst, db, id, verified, version, now, x);
    CompleteBindings(inst, db, id, verified, version, now, x);
    CompleteBaselines(inst, db, id, verified, version, now, x);
  }

  /** Completing a verified update keeps the tables consistent. */
  lemma CompleteSound(inst: Installation, db: Db, id: string, verified: Baseline, version: nat, now: int)
    requires Tables(inst, db) && LocksUnique(db.ops)
    ensures Sound(inst, db, CompleteUpdate(db, inst, id, verified, version, now).db)
  {
    hide Tables, Sound, RowFine, OpRow, PlanRow, IntentRow, BindingRow, BaselineRow, AllowRow, MappingsFrom,
      CompleteFault, LocksUnique;
    if CompleteFault(db, inst, id, verified, version).None? {
      var db2 := CompleteUpdate(db, inst, id, verified, version, now).db;
      RowsOf(inst, db, id);
      forall x ensures RowFine(inst, db, db2, x) {
        RowsOf(inst, db, x);
        CompleteRow(inst, db, id, verified, version, now, x);
      }
      TablesKept(inst, db, db2);
    } else {
      Unmoved(inst, db);
    }
  }
}
