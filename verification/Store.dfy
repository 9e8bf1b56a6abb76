/** The store: one connection to the tables, one method per transaction. */
module Store {
  import opened Basics
  import opened Domain
  import opened Plans
  import opened Storage

  // ----- the transactions keep the uniqueness constraints -----


  lemma OperationAdded(db: Db, o: Operation)
    requires KeysUnique(db.ops) && LocksUnique(db.ops) && !HasKey(db, o.key) && !Locked(db, o.lock) && o.id !in db.ops
    ensures KeysUnique(db.ops[o.id := o]) && LocksUnique(db.ops[o.id := o])
  {
  }

  lemma IntentAdded(db: Db, id: string, i: Intent)
    requires AliasesUnique(db.intents) && !Claimed(db, i.alias)
    ensures AliasesUnique(db.intents[id := i])
  {
  }

  lemma SchemaPrepareCreate(db: Db, inst: Installation, r: Request, now: int)
    requires Schema(db)
    ensures Schema(PrepareCreate(db, inst, r, now).db)
  {
    hide KeysUnique, LocksUnique, AliasesUnique, BindingsUnique, AllowUnique, BaselinesUnique;
    var t := PrepareCreate(db, inst, r, now);
    if t.result.Ok? && t.result.value.1 {
      OperationAdded(db, t.result.value.0);
      IntentAdded(db, t.result.value.0.id, t.db.intents[t.result.value.0.id]);
    }
  }

  lemma SchemaPrepareBinding(db: Db, inst: Installation, r: Request, now: int)
    requires Schema(db)
    ensures Schema(PrepareBinding(db, inst, r, now).db)
  {
    hide KeysUnique, LocksUnique, AliasesUnique, BindingsUnique, AllowUnique, BaselinesUnique;
    var t := PrepareBinding(db, inst, r, now);
    if t.result.Ok? && t.result.value.1 { OperationAdded(db, t.result.value.0); }
  }

  lemma SchemaTransition(db: Db, id: string, expected: set<Status>, next: Status, patch: Patch)
    requires Schema(db)
    ensures Schema(Transition(db, id, expected, next, patch).db)
  {
  }

  lemma SchemaRecover(db: Db)
    requires Schema(db)
    ensures Schema(RecoverInterrupted(db))
  {
  }

  lemma {:induction false} PairsAreMap(source: SourceSnapshot, ps: seq<(string, string)>)
    requires MappingsOk(source, ps)
    ensures Injective(PairsToMap(ps))
    ensures forall k, v :: (k in PairsToMap(ps) && PairsToMap(ps)[k] == v) <==> (k, v) in ps
    decreases |ps|
  {
    if ps != [] {
      var n := |ps| - 1;
      var before := ps[..n];
      forall i | 0 <= i < |before| ensures MappingFitsAt(source, before, i) { assert MappingFitsAt(source, ps, i); }
      PairsAreMap(source, before);
      assert MappingFitsAt(source, ps, n);
      assert ps == before + [ps[n]];
      var rows := PairsToMap(before);
      forall k | k in rows ensures rows[k] != ps[n].1 {
        assert (k, rows[k]) in before;
        var j :| 0 <= j < n && before[j] == (k, rows[k]);
        assert ps[j] == before[j];
      }
    }
  }

  lemma BindingAdded(m: map<string, Binding>, id: string, b: Binding)
    requires BindingsUnique(m) && forall k :: k in m ==> m[k].target != b.target && m[k].createdBy != b.createdBy
    ensures BindingsUnique(m[id := b])
  {
  }

  lemma BindingMoved(m: map<string, Binding>, id: string, b: Binding)
    requires BindingsUnique(m) && id in m && m[id].target == b.target && m[id].createdBy == b.createdBy
    ensures BindingsUnique(m[id := b])
  {
  }

  lemma AllowAdded(m: map<string, Allowed>, t: string, a: Allowed)
    requires AllowUnique(m) && forall k :: k in m ==> m[k].bindingId != a.bindingId && m[k].createdBy != a.createdBy
    ensures AllowUnique(m[t := a])
  {
  }

  lemma BaselineAdded(m: map<string, Baseline>, o: string, b: Baseline)
    requires BaselinesUnique(m) && forall k :: k in m ==> !SameSlot(m[k], b)
    ensures BaselinesUnique(m[o := b])
  {
  }

  lemma OperationMoved(m: map<string, Operation>, id: string, o: Operation)
    requires KeysUnique(m) && LocksUnique(m) && id in m
    requires o.key == m[id].key && o.lock == m[id].lock && (Unresolved(o.status) ==> Unresolved(m[id].status))
    ensures KeysUnique(m[id := o]) && LocksUnique(m[id := o])
  {
  }

  lemma SchemaFinalize(db: Db, inst: Installation, v: VerifiedCreate, now: int)
    requires Schema(db)
    ensures Schema(FinalizeCreate(db, inst, v, now).db)
  {
    if FinalizeFault(db, v).None? {
      var source := db.intents[v.operationId].source;
      PairsAreMap(db.sources[source], v.mappings);
      BindingAdded(db.bindings, v.bindingId,
                   Binding(inst, v.target, v.operationId, v.identity, v.titlePolicy, 1, source));
      AllowAdded(db.allow, v.target, Allowed(v.bindingId, inst, v.operationId));
      BaselineAdded(db.baselines, v.operationId,
                    Baseline(v.operationId, v.bindingId, 1, source, v.verified, v.conflict));
      OperationMoved(db.ops, v.operationId, db.ops[v.operationId].(
        status := Succeeded, bindingId := v.bindingId, needsReadback := false, verifiedAt := Some(now)));
    }
  }

  lemma SchemaComplete(db: Db, inst: Installation, id: string, verified: Baseline, version: nat, now: int)
    requires Schema(db)
    ensures Schema(CompleteUpdate(db, inst, id, verified, version, now).db)
  {
    if CompleteFault(db, inst, id, verified, version).None? {
      var o, source := db.ops[id], db.plans[db.ops[id].planId].source;
      PairsAreMap(db.sources[source], MappingsFrom(verified.target.messages));
      BindingMoved(db.bindings, o.bindingId, db.bindings[o.bindingId].(version := version + 1, lastSource := source));
      BaselineAdded(db.baselines, id,
                    Baseline(id, o.bindingId, version + 1, source, verified.target, verified.conflict));
      OperationMoved(db.ops, id, o.(status := Succeeded, needsReadback := false, verifiedAt := Some(now)));
    }
  }

  // ----- mapping checks -----

  method ValidateMappings(source: SourceSnapshot, ps: seq<(string, string)>) returns (ok: bool)
    ensures ok <==> MappingsOk(source, ps)
  {
    var known := set m | m in source.messages :: m.id;
    assert forall id :: id in known <==> HasId(source, id);
    var sourceSeen: set<string>, targetSeen: set<string> := {}, {};
    var i := 0;
    while i < |ps|
      invariant 0 <= i <= |ps|
      invariant forall j {:trigger MappingFitsAt(source, ps, j)} :: 0 <= j < i ==> MappingFitsAt(source, ps, j)
      invariant sourceSeen == set j | 0 <= j < i :: ps[j].0
      invariant targetSeen == set j | 0 <= j < i :: ps[j].1
    {
      var p := ps[i];
      var fits := p.0 != "" && p.1 != "" && p.0 in known && p.0 !in sourceSeen && p.1 !in targetSeen;
      assert fits <==> MappingFitsAt(source, ps, i);
      if !fits { return false; }
      sourceSeen, targetSeen := sourceSeen + {p.0}, targetSeen + {p.1};
      i := i + 1;
    }
    ok := true;
  }

  method MappingsFromTarget(target: TargetSnapshot) returns (ps: seq<(string, string)>)
    ensures ps == MappingsFrom(target.messages)
  {
    ps := [];
    var ms := target.messages;
    var i := 0;
    while i < |ms|
      invariant 0 <= i <= |ms| && ps == MappingsFrom(ms[..i])
    {
      assert ms[..i + 1][..i] == ms[..i];
      var m := ms[i];
      if m.managed && m.sourceId != "" && m.id != "" { ps := ps + [(m.sourceId, m.id)]; }
      i := i + 1;
    }
    assert ms[..i] == ms;
  }

  /** The rows replacing a binding's mappings, inserted one by one. */
  method ReplaceMappings(ps: seq<(string, string)>) returns (rows: map<string, string>)
    ensures rows == PairsToMap(ps)
  {
    rows := map[];
    var i := 0;
    while i < |ps|
      invariant 0 <= i <= |ps| && rows == PairsToMap(ps[..i])
    {
      assert ps[..i + 1][..i] == ps[..i];
      rows := rows[ps[i].0 := ps[i].1];
      i := i + 1;
    }
    assert ps[..i] == ps;
  }

  /** Applies a patch and the bookkeeping of a status change to one row. */
  method MoveRow(row: Operation, next: Status, patch: Patch) returns (r: Result<Operation, Error>)
    ensures r == if MoveFault(row, {row.status}, next, patch).None? then Ok(Moved(row, next, patch))
                 else Err(MoveFault(row, {row.status}, next, patch).value)
  {
    if !TransitionAllowed(row.status, next) { return Err(InvalidTransition); }
    var target, receipt := row.target, row.receipt;
    if patch.target != "" {
      if target != "" && target != patch.target { return Err(ImmutableConflict); }
      target := patch.target;
    }
    if patch.receipt != "" {
      if receipt != "" && receipt != patch.receipt { return Err(ImmutableConflict); }
      receipt := patch.receipt;
    }
    if row.kind == Create && next == Verifying && target == "" { return Err(Invalid); }
    var needsReadback, errorCode, verifiedAt, attempts :=
      row.needsReadback,
      row.errorCode,
      row.verifiedAt,
      row.attempts;
    if patch.needsReadback.Some? { needsReadback := patch.needsReadback.value; }
    if patch.errorCode != "" { errorCode := patch.errorCode; }
    if patch.verifiedAt.Some? { verifiedAt := patch.verifiedAt; }
    if next == Applying { attempts := attempts + 1; }
    if next == NeedsReconciliation { needsReadback := true; }
    r := Ok(row.(status := next, target := target, receipt := receipt, needsReadback := needsReadback,
                 errorCode := errorCode, verifiedAt := verifiedAt, attempts := attempts));
  }

  class Connection {
    const inst: Installation
    var db: Db

    /** Opening existing tables marks interrupted operations first. */
    constructor (inst: Installation, tables: Db)
      requires Schema(tables)
      ensures this.inst == inst && Schema(db) && db == Storage.RecoverInterrupted(tables)
    {
      this.inst := inst;
      SchemaRecover(tables);
      this.db := Storage.RecoverInterrupted(tables);
    }

    method RecoverInterrupted()
      requires Schema(db)
      modifies this
      ensures Schema(db) && db == Storage.RecoverInterrupted(old(db))
    {
      SchemaRecover(db);
      var rows: map<string, Operation> := map[];
      var todo := db.ops.Keys;
      while todo != {}
        invariant todo <= db.ops.Keys && rows.Keys == db.ops.Keys - todo && db == old(db)
        invariant forall id :: id in rows ==> rows[id] == Interrupted(db.ops[id])
      {
        var id :| id in todo;
        rows := rows[id := Interrupted(db.ops[id])];
        todo := todo - {id};
      }
      assert rows == Storage.RecoverInterrupted(db).ops;
      db := db.(ops := rows);
    }

    method PutSourceSnapshot(s: SourceSnapshot)
      requires Schema(db)
      modifies this
      ensures Schema(db) && db == Storage.PutSource(old(db), s)
    {
      if s.Business() !in db.sources {
        db := db.(sources := db.sources[s.Business() := s]);
      }
    }

    method SavePlan(p: Plan) returns (r: Result<(), Error>)
      requires Schema(db)
      modifies this
      ensures Schema(db) && Outcome(db, r) == Storage.SavePlan(old(db), inst, p)
    {
      if p.id == "" { return Err(Invalid); }
      var row := p.(confirmedAt := None);
      if row.ownerId == "" { row := row.(ownerId := inst.owner); }
      if row.ownerId != inst.owner { return Err(IdentityMismatch); }
      if p.source !in db.sources { return Err(NotFound); }
      if p.previous.Some? && p.previous.value !in db.sources { return Err(NotFound); }
      if p.id !in db.plans {
        db := db.(plans := db.plans[p.id := row]);
        return Ok(());
      }
      if db.plans[p.id].Payload() != row { return Err(ImmutableConflict); }
      r := Ok(());
    }

    method ConfirmPlan(id: string, now: int) returns (r: Result<Plan, Error>)
      requires Schema(db)
      modifies this
      ensures Schema(db) && Outcome(db, r) == Storage.ConfirmPlan(old(db), inst, id, now)
    {
      if id !in db.plans { return Err(NotFound); }
      var p := db.plans[id];
      if p.ownerId != inst.owner { return Err(IdentityMismatch); }
      if now >= p.expiresAt { return Err(PlanExpired); }
      if p.bindingId != "" {
        if p.bindingId !in db.bindings { return Err(NotFound); }
        if db.bindings[p.bindingId].version != p.version { return Err(VersionChanged); }
      } else if p.version != 0 {
        return Err(VersionChanged);
      }
      if !p.confirmationRequired || p.confirmedAt.Some? { return Ok(p); }
      db := db.(plans := db.plans[id := p.(confirmedAt := Some(now))]);
      r := Ok(db.plans[id]);
    }

    method FindByKey(key: Key) returns (r: Option<Operation>)
      requires Schema(db)
      ensures r.Some? <==> HasKey(db, key)
      ensures r.Some? ==> r.value == db.ops[ByKey(db, key)]
    {
      var todo := db.ops.Keys;
      while todo != {}
        invariant todo <= db.ops.Keys
        invariant forall o :: o in db.ops && o !in todo ==> db.ops[o].key != key
      {
        var o :| o in todo;
        if db.ops[o].key == key { return Some(db.ops[o]); }
        todo := todo - {o};
      }
      r := None;
    }

    method FindBaseline(bindingId: string, version: nat) returns (r: Option<Baseline>)
      requires Schema(db)
      ensures r.Some? <==> HasBaseline(db, bindingId, version)
      ensures r.Some? ==> r.value == BaselineOf(db, bindingId, version)
    {
      var todo := db.baselines.Keys;
      while todo != {}
        invariant todo <= db.baselines.Keys
        invariant forall o :: o in db.baselines && o !in todo ==>
          db.baselines[o].bindingId != bindingId || db.baselines[o].version != version
      {
        var o :| o in todo;
        var b := db.baselines[o];
        if b.bindingId == bindingId && b.version == version {
          assert SameSlot(b, BaselineOf(db, bindingId, version));
          return Some(b);
        }
        todo := todo - {o};
      }
      r := None;
    }

    /** Inserts a prepared operation unless its lock is held or its id taken. */
    method InsertPrepared(o: Operation) returns (r: Option<Error>)
      requires Unresolved(o.status)
      modifies this
      ensures r ==
        if Locked(old(db), o.lock) then Some(InProgress) else if o.id in old(db).ops then Some(Constraint) else None
      ensures db == if r.None? then old(db).(ops := old(db).ops[o.id := o]) else old(db)
    {
      if Locked(db, o.lock) { return Some(InProgress); }
      if o.id in db.ops { return Some(Constraint); }
      db := db.(ops := db.ops[o.id := o]);
      r := None;
    }

    method PrepareCreate(q: Request, now: int) returns (r: Result<(Operation, bool), Error>)
      requires Schema(db)
      modifies this
      ensures Schema(db) && Outcome(db, r) == Storage.PrepareCreate(old(db), inst, q, now)
    {
      SchemaPrepareCreate(db, inst, q, now);
      if !RequestOk(inst, q) { return Err(IdentityMismatch); }
      if Blank(q.operationId) { return Err(Invalid); }
      var existing := FindByKey(q.key);
      if existing.Some? {
        if SameOperation(existing.value, Create, "", q.payload) { return Ok((existing.value, false)); }
        return Err(IdempotencyConflict);
      }
      if q.planId !in db.plans { return Err(NotFound); }
      var p := db.plans[q.planId];
      if p.bindingId != "" || p.version != 0 { return Err(Invalid); }
      if q.source.Some? && q.source.value != p.source { return Err(ImmutableConflict); }
      var fault := Executable(p, now);
      if fault.Some? { return Err(fault.value); }
      if p.source !in db.sources { return Err(NotFound); }
      if !Aliasable(db.sources[p.source]) { return Err(Invalid); }
      var alias := Alias(db.sources[p.source]);
      if Claimed(db, alias) { return Err(SourceClaimed); }
      var o := NewOperation(q.operationId, q.key, Create, "", CreateLock(alias), q.planId, q.payload);
      if q.operationId in db.intents && !Locked(db, o.lock) { return Err(Constraint); }
      fault := InsertPrepared(o);
      if fault.Some? { return Err(fault.value); }
      db := db.(intents := db.intents[o.id := Intent(p.source, alias)]);
      r := Ok((o, true));
    }

    method PrepareBindingOperation(q: Request, now: int) returns (r: Result<(Operation, bool), Error>)
      requires Schema(db)
      modifies this
      ensures Schema(db) && Outcome(db, r) == PrepareBinding(old(db), inst, q, now)
    {
      SchemaPrepareBinding(db, inst, q, now);
      if !RequestOk(inst, q) { return Err(IdentityMismatch); }
      if q.kind == Create || q.bindingId == "" || Blank(q.operationId) { return Err(Invalid); }
      var existing := FindByKey(q.key);
      if existing.Some? {
        if SameOperation(existing.value, q.kind, q.bindingId, q.payload) { return Ok((existing.value, false)); }
        return Err(IdempotencyConflict);
      }
      if !AllowedBinding(db, inst, q.bindingId) { return Err(UntrustedTarget); }
      if q.planId !in db.plans { return Err(NotFound); }
      var p := db.plans[q.planId];
      if p.bindingId != q.bindingId { return Err(ImmutableConflict); }
      var fault := Executable(p, now);
      if fault.Some? { return Err(fault.value); }
      var version := db.bindings[q.bindingId].version;
      if version != p.version { return Err(VersionChanged); }
      var baseline := FindBaseline(q.bindingId, version);
      if baseline.None? { return Err(NotFound); }
      if p.expectedTarget.Some? && p.expectedTarget.value != baseline.value.target { return Err(ImmutableConflict); }
      if p.expectedConflict.Some? && p.expectedConflict.value != baseline.value.conflict {
        return Err(ImmutableConflict);
      }
      var o := NewOperation(q.operationId, q.key, q.kind, q.bindingId, BindingLock(q.bindingId), q.planId, q.payload);
      fault := InsertPrepared(o);
      if fault.Some? { return Err(fault.value); }
      r := Ok((o, true));
    }

    method TransitionOperation(id: string, expected: set<Status>, next: Status, patch: Patch)
      returns (r: Result<Operation, Error>)
      requires Schema(db)
      modifies this
      ensures Schema(db) && Outcome(db, r) == Transition(old(db), id, expected, next, patch)
    {
      SchemaTransition(db, id, expected, next, patch);
      if expected == {} { return Err(Invalid); }
      if id !in db.ops { return Err(NotFound); }
      if db.ops[id].status !in expected { return Err(InvalidTransition); }
      r := MoveRow(db.ops[id], next, patch);
      if r.Ok? { db := db.(ops := db.ops[id := r.value]); }
    }

    method FinalizeVerifiedCreate(v: VerifiedCreate, now: int) returns (r: Result<Binding, Error>)
      requires Schema(db)
      modifies this
      ensures Schema(db) && Outcome(db, r) == FinalizeCreate(old(db), inst, v, now)
    {
      SchemaFinalize(db, inst, v, now);
      if v.operationId == "" || v.bindingId == "" || v.target == "" { return Err(Invalid); }
      if v.operationId !in db.ops { return Err(NotFound); }
      var o := db.ops[v.operationId];
      if o.kind != Create || o.status != Verifying { return Err(InvalidTransition); }
      if o.target == "" || o.target != v.target || o.receipt == "" { return Err(UntrustedTarget); }
      if v.receipt != "" && o.receipt != v.receipt { return Err(ImmutableConflict); }
      if v.operationId !in db.intents { return Err(UntrustedTarget); }
      var hash := db.intents[v.operationId].source;
      if hash !in db.sources { return Err(NotFound); }
      var given := ValidateMappings(db.sources[hash], v.mappings);
      var ps := MappingsFromTarget(v.verified);
      var found := ValidateMappings(db.sources[hash], ps);
      if !given || !found || !SameMappings(v.mappings, ps) { return Err(Invalid); }
      if !RowsFree(db, v) { return Err(Constraint); }
      var rows := ReplaceMappings(v.mappings);
      var b := Binding(inst, v.target, v.operationId, v.identity, v.titlePolicy, 1, hash);
      db := db.(
        bindings := db.bindings[v.bindingId := b],
        allow := db.allow[v.target := Allowed(v.bindingId, inst, v.operationId)],
        mappings := db.mappings[v.bindingId := rows],
        baselines := db.baselines[v.operationId := Baseline(v.operationId, v.bindingId, 1, hash, v.verified,
                                                            v.conflict)],
        ops := db.ops[v.operationId := o.(status := Succeeded, bindingId := v.bindingId, needsReadback := false,
                                          verifiedAt := Some(now))]);
      r := Ok(b);
    }

    method CompleteVerifiedUpdate(id: string, verified: Baseline, version: nat, now: int) returns (r: Result<(), Error>)
      requires Schema(db)
      modifies this
      ensures Schema(db) && Outcome(db, r) == CompleteUpdate(old(db), inst, id, verified, version, now)
    {
      SchemaComplete(db, inst, id, verified, version, now);
      if id !in db.ops { return Err(NotFound); }
      var o := db.ops[id];
      if o.kind != Update || o.status != Verifying { return Err(InvalidTransition); }
      if o.bindingId == "" || (verified.bindingId != "" && verified.bindingId != o.bindingId) {
        return Err(UntrustedTarget);
      }
      if !AllowedBinding(db, inst, o.bindingId) { return Err(UntrustedTarget); }
      var b := db.bindings[o.bindingId];
      if b.version != version { return Err(VersionChanged); }
      if o.planId !in db.plans { return Err(NotFound); }
      var p := db.plans[o.planId];
      if p.bindingId != o.bindingId || p.version != version { return Err(VersionChanged); }
      if p.source !in db.sources { return Err(NotFound); }
      var ps := MappingsFromTarget(verified.target);
      var fine := ValidateMappings(db.sources[p.source], ps);
      if !fine { return Err(Invalid); }
      if id in db.baselines || HasBaseline(db, o.bindingId, version + 1) { return Err(Constraint); }
      var rows := ReplaceMappings(ps);
      db := db.(
        bindings := db.bindings[o.bindingId := b.(version := version + 1, lastSource := p.source)],
        mappings := db.mappings[o.bindingId := rows],
        baselines := db.baselines[id := Baseline(id, o.bindingId, version + 1, p.source, verified.target,
                                                 verified.conflict)],
        ops := db.ops[id := o.(status := Succeeded, needsReadback := false, verifiedAt := Some(now))]);
      r := Ok(());
    }

    method GetBindingState(id: string) returns (r: Result<BindingState, Error>)
      requires Schema(db)
      ensures r == Storage.GetBindingState(db, inst, id)
    {
      if !AllowedBinding(db, inst, id) { return Err(UntrustedTarget); }
      var b := db.bindings[id];
      if b.lastSource !in db.sources { return Err(NotFound); }
      var baseline := FindBaseline(id, b.version);
      if baseline.None? { return Err(NotFound); }
      r := Ok(BindingState(id, b, db.sources[b.lastSource], baseline.value));
    }
  }
}
