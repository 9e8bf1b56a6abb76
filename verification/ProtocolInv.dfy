/** What every reachable state of the protocol satisfies, row by row, and that every
    step keeps it. */
module ProtocolInv {
  import opened Domain
  import opened Plans
  import opened Storage
  import opened Protocol

  // ----- what only grows -----

  predicate PlanGrows(was: Plan, now: Plan) {
    now == was.(confirmedAt := now.confirmedAt) && (was.confirmedAt.Some? ==> now == was)
  }

  /** An operation keeps its identity, never forgets a target or receipt, is never
      prepared again and does not change once it is settled. */
  predicate OpGrows(was: Operation, now: Operation) {
    && now.id == was.id && now.key == was.key && now.kind == was.kind && now.lock == was.lock
    && now.planId == was.planId && now.payload == was.payload && was.attempts <= now.attempts
    && (was.target != "" ==> now.target == was.target) && (was.receipt != "" ==> now.receipt == was.receipt)
    && (was.bindingId != "" ==> now.bindingId == was.bindingId)
    && (!Unresolved(was.status) ==> now == was) && (!was.status.Prepared? ==> !now.status.Prepared?)
  }

  /** A binding keeps its target and creator; its content changes with its version. */
  predicate BindingGrows(was: Binding, now: Binding) {
    && now.(version := was.version, lastSource := was.lastSource) == was
    && was.version <= now.version && (was.version == now.version ==> now == was)
  }

  ghost predicate KeptSource(db: Db, db2: Db, k: SourceSnapshot) {
    k in db.sources ==> k in db2.sources && db2.sources[k] == db.sources[k]
  }

  ghost predicate KeptPlan(db: Db, db2: Db, p: string) {
    p in db.plans ==> p in db2.plans && PlanGrows(db.plans[p], db2.plans[p])
  }

  ghost predicate KeptOp(db: Db, db2: Db, o: string) {
    o in db.ops ==> o in db2.ops && OpGrows(db.ops[o], db2.ops[o])
  }

  ghost predicate KeptIntent(db: Db, db2: Db, i: string) {
    i in db.intents ==> i in db2.intents && db2.intents[i] == db.intents[i]
  }

  ghost predicate KeptBinding(db: Db, db2: Db, b: string) {
    b in db.bindings ==> b in db2.bindings && BindingGrows(db.bindings[b], db2.bindings[b])
  }

  ghost predicate KeptAllow(db: Db, db2: Db, t: string) {
    t in db.allow ==> t in db2.allow && db2.allow[t] == db.allow[t]
  }

  ghost predicate KeptBaseline(db: Db, db2: Db, o: string) {
    o in db.baselines ==> o in db2.baselines && db2.baselines[o] == db.baselines[o]
  }

  ghost predicate Grows(db: Db, db2: Db) {
    && (forall k :: KeptSource(db, db2, k))
    && (forall p :: KeptPlan(db, db2, p))
    && (forall o :: KeptOp(db, db2, o))
    && (forall i :: KeptIntent(db, db2, i))
    && (forall b :: KeptBinding(db, db2, b))
    && (forall t :: KeptAllow(db, db2, t))
    && (forall o :: KeptBaseline(db, db2, o))
  }

  // ----- rows -----

  ghost predicate SourceRow(db: Db, k: SourceSnapshot) {
    k in db.sources ==> db.sources[k].Business() == k
  }

  ghost predicate PlanRow(inst: Installation, db: Db, id: string) {
    id in db.plans ==>
      var p := db.plans[id];
      && p.id == id && p.ownerId == inst.owner && p.source in db.sources
      && (if p.bindingId == "" then p.version == 0
          else p.bindingId in db.bindings && 1 <= p.version <= db.bindings[p.bindingId].version)
  }

  ghost predicate CreateRow(db: Db, o: Operation, p: Plan) {
    && p.bindingId == "" && p.source in db.sources
    && o.id in db.intents && db.intents[o.id] == Intent(p.source, Alias(db.sources[p.source]))
    && o.lock == CreateLock(Alias(db.sources[p.source])) && o.target == o.receipt
    && (o.status.Verifying? ==> o.target != "")
    && (o.status.Succeeded? <==> o.bindingId != "")
    && (o.bindingId != "" ==> o.bindingId in db.bindings && db.bindings[o.bindingId].createdBy == o.id)
  }

  ghost predicate UpdateRow(db: Db, o: Operation, p: Plan) {
    && o.bindingId == p.bindingId != "" && o.bindingId in db.bindings && o.id !in db.intents
    && o.lock == BindingLock(o.bindingId)
    && (o.target == "" || o.target == db.bindings[o.bindingId].target)
    && (Unresolved(o.status) ==> p.version == db.bindings[o.bindingId].version)
  }

  /** One attempt at most, and none before the operation left prepared. */
  predicate Attempted(o: Operation) {
    match o.status
    case Prepared => o.attempts == 0 && o.target == "" && o.receipt == ""
    case Succeeded => o.attempts <= 1
    case Failed => o.attempts <= 1
    case _ => o.attempts == 1
  }

  ghost predicate OpRow(db: Db, id: string) {
    id in db.ops ==>
      var o := db.ops[id];
      && o.id == id && !Blank(id) && o.planId in db.plans && Attempted(o)
      && var p := db.plans[o.planId];
      && Applicable(p.status) && (p.confirmationRequired ==> p.confirmedAt.Some?) && o.payload == PayloadFor(p)
      && match o.kind
         case Create => CreateRow(db, o, p)
         case Update => UpdateRow(db, o, p)
         case Archive => false
  }

  ghost predicate IntentRow(db: Db, id: string) {
    id in db.intents ==> id in db.ops && db.ops[id].kind == Create
  }

  ghost predicate BindingRow(inst: Installation, db: Db, b: string) {
    b in db.bindings ==>
      && b != "" && AllowedBinding(db, inst, b) && db.bindings[b].version >= 1 && b in db.mappings
      && forall v: nat :: 1 <= v <= db.bindings[b].version ==> HasBaseline(db, b, v)
  }

  ghost predicate AllowRow(inst: Installation, db: Db, t: string) {
    t in db.allow ==>
      var a := db.allow[t];
      a.bindingId in db.bindings && db.bindings[a.bindingId].target == t
      && db.bindings[a.bindingId].createdBy == a.createdBy
  }

  /** A baseline belongs to a succeeded operation and has its source; the latest one of
      a binding explains the binding's source and mappings. */
  ghost predicate BaselineRow(db: Db, id: string) {
    id in db.baselines ==>
      var bl := db.baselines[id];
      && bl.operationId == id && HasPlan(db, id) && db.ops[id].status.Succeeded? && db.ops[id].bindingId == bl.bindingId
      && bl.source == PlanOf(db, id).source && bl.source in db.sources
      && bl.bindingId in db.bindings && 1 <= bl.version <= db.bindings[bl.bindingId].version
      && (bl.version == db.bindings[bl.bindingId].version ==> Latest(db, bl))
  }

  ghost predicate Latest(db: Db, bl: Baseline)
    requires bl.bindingId in db.bindings
  {
    && db.bindings[bl.bindingId].lastSource == bl.source && bl.bindingId in db.mappings
    && db.mappings[bl.bindingId] == PairsToMap(MappingsFrom(bl.target.messages))
  }

  ghost predicate Tables(inst: Installation, db: Db) {
    && (forall k :: SourceRow(db, k))
    && (forall p :: PlanRow(inst, db, p))
    && (forall o :: OpRow(db, o))
    && (forall i :: IntentRow(db, i))
    && (forall b :: BindingRow(inst, db, b))
    && (forall t :: AllowRow(inst, db, t))
    && (forall o :: BaselineRow(db, o))
  }

  // ----- rows that stay -----

  ghost predicate SameBinding(db: Db, db2: Db, b: string) {
    && (b in db2.bindings <==> b in db.bindings) && (b in db.bindings ==> db2.bindings[b] == db.bindings[b])
    && (b in db.mappings ==> b in db2.mappings && db2.mappings[b] == db.mappings[b])
  }

  ghost predicate SameOp(db: Db, db2: Db, o: string) {
    o in db.ops && o in db2.ops && db2.ops[o] == db.ops[o]
  }

  /** New and changed rows are sound; a changed binding has a later version and no
      unresolved update that stays as it is. */
  ghost predicate SourceStep(db: Db, db2: Db, k: SourceSnapshot) {
    k in db.sources || SourceRow(db2, k)
  }

  ghost predicate PlanStep(inst: Installation, db: Db, db2: Db, p: string) {
    p in db.plans || PlanRow(inst, db2, p)
  }

  ghost predicate OpStep(db: Db, db2: Db, o: string) {
    if SameOp(db, db2, o) then
      db.ops[o].kind == Update && Unresolved(db.ops[o].status) ==> SameBinding(db, db2, db.ops[o].bindingId)
    else OpRow(db2, o)
  }

  ghost predicate IntentStep(db: Db, db2: Db, i: string) {
    i in db.intents || IntentRow(db2, i)
  }

  ghost predicate BindingStep(inst: Installation, db: Db, db2: Db, b: string) {
    || SameBinding(db, db2, b)
    || (BindingRow(inst, db2,
                   b) && (b in db.bindings && b in db2.bindings ==> db.bindings[b].version < db2.bindings[b].version))
  }

  ghost predicate AllowStep(inst: Installation, db: Db, db2: Db, t: string) {
    t in db.allow || AllowRow(inst, db2, t)
  }

  ghost predicate BaselineStep(db: Db, db2: Db, o: string) {
    o in db.baselines || BaselineRow(db2, o)
  }

  lemma PlanKept(inst: Installation, db: Db, db2: Db, p: string)
    requires Grows(db, db2) && PlanRow(inst, db, p) && p in db.plans
    ensures PlanRow(inst, db2, p)
  {
    hide Grows;
    GrowsAt(db, db2, p);
    var was, now := db.plans[p], db2.plans[p];
    SourceKept(db, db2, was.source);
    GrowsAt(db, db2, was.bindingId);
  }

  lemma SourceKept(db: Db, db2: Db, k: SourceSnapshot)
    requires Grows(db, db2)
    ensures KeptSource(db, db2, k)
  {
    hide KeptSource;
  }

  lemma GrowsAt(db: Db, db2: Db, x: string)
    requires Grows(db, db2)
    ensures KeptPlan(db, db2, x) && KeptOp(db, db2, x) && KeptIntent(db, db2, x)
    ensures KeptBinding(db, db2, x) && KeptAllow(db, db2, x) && KeptBaseline(db, db2, x)
  {
    hide KeptSource, KeptPlan, KeptOp, KeptIntent, KeptBinding, KeptAllow, KeptBaseline;
  }

  lemma OpKept(db: Db, db2: Db, o: string)
    requires Grows(db, db2) && OpRow(db, o) && SameOp(db, db2, o) && OpStep(db, db2, o) && IntentRow(db2, o)
    ensures OpRow(db2, o)
  {
    hide Grows;
    var op := db.ops[o];
    SourceKept(db, db2, db.plans[op.planId].source);
    GrowsAt(db, db2, op.planId);
    GrowsAt(db, db2, o);
    GrowsAt(db, db2, op.bindingId);
    var was, now := db.plans[op.planId], db2.plans[op.planId];
  }

  lemma BindingKept(inst: Installation, db: Db, db2: Db, b: string)
    requires Grows(db, db2) && BindingRow(inst, db, b) && SameBinding(db, db2, b) && b in db.bindings
    ensures BindingRow(inst, db2, b)
  {
    hide Grows;
    GrowsAt(db, db2, db.bindings[b].createdBy);
    GrowsAt(db, db2, db.bindings[b].target);
    forall v: nat | 1 <= v <= db.bindings[b].version ensures HasBaseline(db2, b, v) {
      assert HasBaseline(db, b, v);
      var o :| o in db.baselines && db.baselines[o].bindingId == b && db.baselines[o].version == v;
      GrowsAt(db, db2, o);
    }
  }

  lemma AllowKept(inst: Installation, db: Db, db2: Db, t: string)
    requires Grows(db, db2) && AllowRow(inst, db, t) && t in db.allow
    ensures AllowRow(inst, db2, t)
  {
    hide Grows;
    GrowsAt(db, db2, t);
    GrowsAt(db, db2, db.allow[t].bindingId);
  }

  lemma BaselineKept(inst: Installation, db: Db, db2: Db, o: string)
    requires Grows(db, db2) && BaselineRow(db, o) && o in db.baselines
    requires BindingStep(inst, db, db2, db.baselines[o].bindingId)
    ensures BaselineRow(db2, o)
  {
    hide Grows, MappingsFrom, PairsToMap, BindingRow;
    var bl := db.baselines[o];
    SourceKept(db, db2, bl.source);
    GrowsAt(db, db2, o);
    GrowsAt(db, db2, db.ops[o].planId);
    GrowsAt(db, db2, bl.bindingId);
    var was, now := PlanOf(db, o), db2.plans[db.ops[o].planId];
  }

  /** What any table holds under the name `x` is kept, and is sound where it is new or
      changed. */
  ghost predicate RowFine(inst: Installation, db: Db, db2: Db, x: string) {
    && KeptPlan(db, db2, x) && PlanStep(inst, db, db2, x)
    && KeptOp(db, db2, x) && OpStep(db, db2, x)
    && KeptIntent(db, db2, x) && IntentStep(db, db2, x)
    && KeptBinding(db, db2, x) && BindingStep(inst, db, db2, x)
    && KeptAllow(db, db2, x) && AllowStep(inst, db, db2, x)
    && KeptBaseline(db, db2, x) && BaselineStep(db, db2, x)
  }

  ghost predicate SourceFine(db: Db, db2: Db, k: SourceSnapshot) {
    KeptSource(db, db2, k) && SourceStep(db, db2, k)
  }

  /** A step from consistent tables leads to consistent tables that hold everything
      they held. */
  ghost predicate Sound(inst: Installation, db: Db, db2: Db) {
    Tables(inst, db2) && Grows(db, db2)
  }

  /** New and changed rows are all that has to be checked after a step. */
  lemma TablesKept(inst: Installation, db: Db, db2: Db)
    requires Tables(inst, db)
    requires forall k :: SourceFine(db, db2, k)
    requires forall x :: RowFine(inst, db, db2, x)
    ensures Sound(inst, db, db2)
  {
    hide RowFine, SourceFine, Tables, Grows;
    AllGrows(inst, db, db2);
    forall k ensures SourceRow(db2, k) { SourceStays(inst, db, db2, k); }
    forall i ensures IntentRow(db2, i) { IntentStays(inst, db, db2, i); }
    forall x ensures PlanRow(inst, db2, x) && OpRow(db2, x) { PlanStays(inst, db, db2, x); OpStays(inst, db, db2, x); }
    forall x ensures BindingRow(inst, db2, x) && AllowRow(inst, db2, x) { BindingStays(inst, db, db2, x); }
    forall o ensures BaselineRow(db2, o) { BaselineStays(inst, db, db2, o); }
    AllRows(inst, db2);
  }

  lemma AllGrows(inst: Installation, db: Db, db2: Db)
    requires forall k :: SourceFine(db, db2, k)
    requires forall x :: RowFine(inst, db, db2, x)
    ensures Grows(db, db2)
  {
    hide KeptSource, KeptPlan, KeptOp, KeptIntent, KeptBinding, KeptAllow, KeptBaseline,
      SourceStep, PlanStep, OpStep, IntentStep, BindingStep, AllowStep, BaselineStep;
    forall k ensures KeptSource(db, db2, k) { assert SourceFine(db, db2, k); }
    forall x
      ensures KeptPlan(db, db2, x) && KeptOp(db, db2, x) && KeptIntent(db, db2, x) && KeptBinding(db, db2, x)
      ensures KeptAllow(db, db2, x) && KeptBaseline(db, db2, x)
    {
      assert RowFine(inst, db, db2, x);
    }
  }

  lemma AllRows(inst: Installation, db: Db)
    requires forall k :: SourceRow(db, k)
    requires forall i :: IntentRow(db, i)
    requires forall x :: PlanRow(inst, db, x) && OpRow(db, x)
    requires forall x :: BindingRow(inst, db, x) && AllowRow(inst, db, x)
    requires forall o :: BaselineRow(db, o)
    ensures Tables(inst, db)
  {
    hide SourceRow, IntentRow, PlanRow, OpRow, BindingRow, AllowRow, BaselineRow;
  }

  /** The rows under one name. */
  lemma RowsOf(inst: Installation, db: Db, x: string)
    requires Tables(inst, db)
    ensures PlanRow(inst, db, x) && OpRow(db, x) && IntentRow(db, x) && BindingRow(inst, db, x) && AllowRow(inst, db, x)
    ensures BaselineRow(db, x)
  {
    hide PlanRow, OpRow, IntentRow, BindingRow, AllowRow, BaselineRow, SourceRow;
  }

  lemma SourceStays(inst: Installation, db: Db, db2: Db, k: SourceSnapshot)
    requires Tables(inst, db) && SourceFine(db, db2, k)
    ensures SourceRow(db2, k)
  {
    assert SourceRow(db, k);
  }

  lemma IntentStays(inst: Installation, db: Db, db2: Db, i: string)
    requires Tables(inst, db) && RowFine(inst, db, db2, i)
    ensures IntentRow(db2, i)
  {
    hide Tables, PlanStep, OpStep, BindingStep, AllowStep, BaselineStep;
    RowsOf(inst, db, i);
  }

  lemma PlanStays(inst: Installation, db: Db, db2: Db, p: string)
    requires Tables(inst, db) && Grows(db, db2) && RowFine(inst, db, db2, p)
    ensures PlanRow(inst, db2, p)
  {
    hide Tables, Grows, PlanRow, OpRow, IntentRow, BindingRow, AllowRow, BaselineRow;
    RowsOf(inst, db, p);
    if p in db.plans { PlanKept(inst, db, db2, p); }
  }

  lemma OpStays(inst: Installation, db: Db, db2: Db, o: string)
    requires Tables(inst, db) && Grows(db, db2) && RowFine(inst, db, db2, o)
    ensures OpRow(db2, o)
  {
    hide Tables, Grows, PlanRow, OpRow, IntentRow, BindingRow, AllowRow, BaselineRow;
    RowsOf(inst, db, o);
    IntentStays(inst, db, db2, o);
    if SameOp(db, db2, o) { OpKept(db, db2, o); }
  }

  lemma BindingStays(inst: Installation, db: Db, db2: Db, b: string)
    requires Tables(inst, db) && Grows(db, db2) && RowFine(inst, db, db2, b)
    ensures BindingRow(inst, db2, b) && AllowRow(inst, db2, b)
  {
    hide Tables, Grows, PlanRow, OpRow, IntentRow, BindingRow, AllowRow, BaselineRow;
    RowsOf(inst, db, b);
    if b in db.allow { AllowKept(inst, db, db2, b); }
    if SameBinding(db, db2, b) {
      if b in db.bindings { BindingKept(inst, db, db2, b); } else { NoBinding(inst, db2, b); }
    }
  }

  lemma NoBinding(inst: Installation, db: Db, b: string)
    requires b !in db.bindings
    ensures BindingRow(inst, db, b)
  {
  }

  lemma BaselineStays(inst: Installation, db: Db, db2: Db, o: string)
    requires Tables(inst, db) && Grows(db, db2) && forall x :: RowFine(inst, db, db2, x)
    ensures BaselineRow(db2, o)
  {
    hide Tables, Grows, PlanRow, OpRow, IntentRow, BindingRow, AllowRow, BaselineRow;
    RowsOf(inst, db, o);
    assert RowFine(inst, db, db2, o);
    if o in db.baselines {
      assert RowFine(inst, db, db2, db.baselines[o].bindingId);
      BaselineKept(inst, db, db2, o);
    }
  }
}
