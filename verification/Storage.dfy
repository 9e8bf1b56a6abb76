/** The durable tables and the transactions over them, as functions of the whole
    database. Every transaction either applies completely or leaves it unchanged. */
module Storage {
  import opened Basics
  import opened Domain
  import opened ChatGraph
  import opened Snapshots
  import opened Plans

  datatype Error =
    | NotFound | IdentityMismatch | IdempotencyConflict | ImmutableConflict | SourceClaimed | InvalidTransition
    | UntrustedTarget | InProgress | PlanExpired | ConfirmationRequired | VersionChanged | Invalid | Constraint

  datatype Installation = Installation(id: string, owner: string, site: string, account: string)

  datatype Kind = Create | Update | Archive

  datatype Lock = CreateLock(alias: string) | BindingLock(bindingId: string)

  datatype Basis = ByCandidate(id: string) | ByContent(source: SourceSnapshot)

  /** An idempotency key, as the fields its digest covers. */
  datatype Key = CreateKey(basis: Basis) | UpdateKey(bindingId: string, version: nat, source: SourceSnapshot)

  /** An execution payload hash, as the fields its digest covers. */
  datatype Payload = Payload(
    kind: Kind, bindingId: string, source: SourceSnapshot, previous: Option<SourceSnapshot>,
    expectedTarget: Option<TargetSnapshot>, expectedConflict: Option<ConflictHash>, target: TargetSnapshot, chat: Chat,
    archived: bool, pinned: bool, folder: string, parserVersion: string, policyVersion: string)

  datatype Operation = Operation(
    id: string, key: Key, kind: Kind, bindingId: string, lock: Lock, planId: string, payload: Payload,
    status: Status, attempts: nat, needsReadback: bool, errorCode: string, receipt: string, target: string,
    verifiedAt: Option<int>)

  datatype Intent = Intent(source: SourceSnapshot, alias: string)

  datatype Binding = Binding(
    installation: Installation, target: string, createdBy: string, identity: Identity, titlePolicy: TitlePolicy,
    version: nat, lastSource: SourceSnapshot)

  datatype Allowed = Allowed(bindingId: string, installation: Installation, createdBy: string)

  datatype Db = Db(
    sources: map<SourceSnapshot, SourceSnapshot>,
    plans: map<string, Plan>,
    ops: map<string, Operation>,
    intents: map<string, Intent>,
    bindings: map<string, Binding>,
    allow: map<string, Allowed>,
    mappings: map<string, map<string, string>>,
    baselines: map<string, Baseline>)

  const EMPTY_DB := Db(map[], map[], map[], map[], map[], map[], map[], map[])

  // ----- uniqueness constraints -----

  ghost predicate KeysUnique(ops: map<string, Operation>) {
    forall a, b :: a in ops && b in ops && ops[a].key == ops[b].key ==> a == b
  }

  ghost predicate LocksUnique(ops: map<string, Operation>) {
    forall a, b ::
      a in ops && b in ops && Unresolved(ops[a].status) && Unresolved(ops[b].status) && ops[a].lock == ops[b].lock ==>
      a == b
  }

  ghost predicate AliasesUnique(intents: map<string, Intent>) {
    forall a, b :: a in intents && b in intents && intents[a].alias == intents[b].alias ==> a == b
  }

  ghost predicate BindingsUnique(bindings: map<string, Binding>) {
    && (forall a, b :: a in bindings && b in bindings && bindings[a].target == bindings[b].target ==> a == b)
    && (forall a, b :: a in bindings && b in bindings && bindings[a].createdBy == bindings[b].createdBy ==> a == b)
  }

  ghost predicate AllowUnique(allow: map<string, Allowed>) {
    && (forall a, b :: a in allow && b in allow && allow[a].bindingId == allow[b].bindingId ==> a == b)
    && (forall a, b :: a in allow && b in allow && allow[a].createdBy == allow[b].createdBy ==> a == b)
  }

  predicate SameSlot(a: Baseline, b: Baseline) {
    a.bindingId == b.bindingId && a.version == b.version
  }

  ghost predicate BaselinesUnique(baselines: map<string, Baseline>) {
    forall a, b :: a in baselines && b in baselines && SameSlot(baselines[a], baselines[b]) ==> a == b
  }

  ghost predicate Injective(m: map<string, string>) {
    forall a, b :: a in m && b in m && m[a] == m[b] ==> a == b
  }

  /** The UNIQUE constraints of the schema. */
  ghost predicate Schema(db: Db) {
    && KeysUnique(db.ops) && LocksUnique(db.ops) && AliasesUnique(db.intents)
    && BindingsUnique(db.bindings) && AllowUnique(db.allow) && BaselinesUnique(db.baselines)
    && forall b :: b in db.mappings ==> Injective(db.mappings[b])
  }

  // ----- queries -----

  predicate Blank(s: string) {
    forall c :: c in s ==> c in " \t\n\r"
  }

  predicate HasKey(db: Db, key: Key) {
    exists o :: o in db.ops && db.ops[o].key == key
  }

  ghost function ByKey(db: Db, key: Key): (o: string)
    requires HasKey(db, key)
    ensures o in db.ops && db.ops[o].key == key
  {
    var o :| o in db.ops && db.ops[o].key == key; o
  }

  predicate Locked(db: Db, lock: Lock) {
    exists o :: o in db.ops && Unresolved(db.ops[o].status) && db.ops[o].lock == lock
  }

  predicate Claimed(db: Db, alias: string) {
    exists o :: o in db.intents && db.intents[o].alias == alias
  }

  predicate HasBaseline(db: Db, bindingId: string, version: nat) {
    exists o :: o in db.baselines && db.baselines[o].bindingId == bindingId && db.baselines[o].version == version
  }

  ghost function BaselineOf(db: Db, bindingId: string, version: nat): (b: Baseline)
    requires HasBaseline(db, bindingId, version)
    ensures b.bindingId == bindingId && b.version == version
  {
    var o :| o in db.baselines && db.baselines[o].bindingId == bindingId && db.baselines[o].version == version;
    db.baselines[o]
  }

  function Alias(s: SourceSnapshot): string {
    s.sourceType + ":" + s.shareId
  }

  predicate Aliasable(s: SourceSnapshot) {
    !Blank(s.sourceType) && !Blank(s.shareId)
  }

  predicate SameOperation(op: Operation, kind: Kind, bindingId: string, payload: Payload) {
    op.kind == kind && op.payload == payload && (kind == Create || op.bindingId == bindingId)
  }

  function Executable(p: Plan, now: int): Option<Error> {
    if p.ownerId == "" then Some(IdentityMismatch)
    else if now >= p.expiresAt then Some(PlanExpired)
    else if p.confirmationRequired && p.confirmedAt.None? then Some(ConfirmationRequired)
    else None
  }

  /** A binding backed by its allow-list row, create intent and succeeded create. */
  predicate AllowedBinding(db: Db, inst: Installation, id: string) {
    && id in db.bindings
    && var b := db.bindings[id];
    && b.installation == inst
    && b.target in db.allow && db.allow[b.target] == Allowed(id, inst, b.createdBy)
    && b.createdBy in db.intents && b.createdBy in db.ops
    && var o := db.ops[b.createdBy];
    && o.kind == Create && o.status == Succeeded && o.bindingId == id && o.target == b.target && o.receipt != ""
  }

  datatype BindingState = BindingState(id: string, binding: Binding, source: SourceSnapshot, baseline: Baseline)

  ghost function GetBindingState(db: Db, inst: Installation, id: string): Result<BindingState, Error> {
    if !AllowedBinding(db, inst, id) then Err(UntrustedTarget)
    else
      var b := db.bindings[id];
      if b.lastSource !in db.sources then Err(NotFound)
      else if !HasBaseline(db, id, b.version) then Err(NotFound)
      else Ok(BindingState(id, b, db.sources[b.lastSource], BaselineOf(db, id, b.version)))
  }

  function GetTrustedCreateTarget(db: Db, id: string): Result<string, Error> {
    if id !in db.ops || id !in db.intents then Err(UntrustedTarget)
    else
      var o := db.ops[id];
      if o.planId !in db.plans || db.intents[id].source !in db.sources then Err(UntrustedTarget)
      else if o.kind != Create || !(o.status.Verifying? || o.status.NeedsReconciliation?) then Err(UntrustedTarget)
      else if o.target == "" || o.receipt != o.target || db.intents[id].source != db.plans[o.planId].source then
        Err(UntrustedTarget)
      else if o.target in db.allow then Err(UntrustedTarget)
      else Ok(o.target)
  }

  // ----- transactions -----

  datatype Outcome<T> = Outcome(db: Db, result: Result<T, Error>)

  function PutSource(db: Db, s: SourceSnapshot): Db {
    if s.Business() in db.sources then db else db.(sources := db.sources[s.Business() := s])
  }

  function SavePlan(db: Db, inst: Installation, p: Plan): Outcome<()> {
    if p.id == "" then Outcome(db, Err(Invalid))
    else if p.ownerId != "" && p.ownerId != inst.owner then Outcome(db, Err(IdentityMismatch))
    else if p.source !in db.sources || (p.previous.Some? && p.previous.value !in db.sources) then
      Outcome(db, Err(NotFound))
    else
      var row := p.(ownerId := inst.owner, confirmedAt := None);
      if p.id !in db.plans then Outcome(db.(plans := db.plans[p.id := row]), Ok(()))
      else if db.plans[p.id].Payload() != row then Outcome(db, Err(ImmutableConflict))
      else Outcome(db, Ok(()))
  }

  function ConfirmPlan(db: Db, inst: Installation, id: string, now: int): Outcome<Plan> {
    if id !in db.plans then Outcome(db, Err(NotFound))
    else
      var p := db.plans[id];
      if p.ownerId != inst.owner then Outcome(db, Err(IdentityMismatch))
      else if now >= p.expiresAt then Outcome(db, Err(PlanExpired))
      else if p.bindingId != "" && p.bindingId !in db.bindings then Outcome(db, Err(NotFound))
      else if p.version != (if p.bindingId != "" then db.bindings[p.bindingId].version else 0) then
        Outcome(db, Err(VersionChanged))
      else if !p.confirmationRequired || p.confirmedAt.Some? then Outcome(db, Ok(p))
      else
        var confirmed := p.(confirmedAt := Some(now));
        Outcome(db.(plans := db.plans[id := confirmed]), Ok(confirmed))
  }

  /** A fresh operation row. */
  function NewOperation(id: string, key: Key, kind: Kind, bindingId: string, lock: Lock, planId: string,
                        payload: Payload): Operation
  {
    Operation(id, key, kind, bindingId, lock, planId, payload, Prepared, 0, false, "", "", "", None)
  }

  datatype Request = Request(
    owner: string, operationId: string, key: Key, kind: Kind, bindingId: string, planId: string, payload: Payload,
    source: Option<SourceSnapshot>)

  predicate RequestOk(inst: Installation, r: Request) {
    r.owner == "" || r.owner == inst.owner
  }

  /** The checks and the claim of a create, once no operation has the key. */
  function CreateFault(db: Db, r: Request, now: int): Option<Error> {
    if r.planId !in db.plans then Some(NotFound)
    else
      var p := db.plans[r.planId];
      if p.bindingId != "" || p.version != 0 then Some(Invalid)
      else if r.source.Some? && r.source.value != p.source then Some(ImmutableConflict)
      else if Executable(p, now).Some? then Executable(p, now)
      else if p.source !in db.sources then Some(NotFound)
      else if !Aliasable(db.sources[p.source]) then Some(Invalid)
      else if Claimed(db, Alias(db.sources[p.source])) then Some(SourceClaimed)
      else if Locked(db, CreateLock(Alias(db.sources[p.source]))) then Some(InProgress)
      else if r.operationId in db.ops || r.operationId in db.intents then Some(Constraint)
      else None
  }

  ghost function PrepareCreate(db: Db, inst: Installation, r: Request, now: int): Outcome<(Operation, bool)> {
    if !RequestOk(inst, r) then Outcome(db, Err(IdentityMismatch))
    else if Blank(r.operationId) then Outcome(db, Err(Invalid))
    else if HasKey(db, r.key) then
      var o := db.ops[ByKey(db, r.key)];
      Outcome(db, if SameOperation(o, Create, "", r.payload) then Ok((o, false)) else Err(IdempotencyConflict))
    else if CreateFault(db, r, now).Some? then Outcome(db, Err(CreateFault(db, r, now).value))
    else
      var source := db.plans[r.planId].source;
      var alias := Alias(db.sources[source]);
      var o := NewOperation(r.operationId, r.key, Create, "", CreateLock(alias), r.planId, r.payload);
      Outcome(db.(ops := db.ops[o.id := o], intents := db.intents[o.id := Intent(source, alias)]), Ok((o, true)))
  }

  ghost function BindingFault(db: Db, inst: Installation, r: Request, now: int): Option<Error> {
    if !AllowedBinding(db, inst, r.bindingId) then Some(UntrustedTarget)
    else if r.planId !in db.plans then Some(NotFound)
    else
      var p, b := db.plans[r.planId], db.bindings[r.bindingId];
      if p.bindingId != r.bindingId then Some(ImmutableConflict)
      else if Executable(p, now).Some? then Executable(p, now)
      else if b.version != p.version then Some(VersionChanged)
      else if !HasBaseline(db, r.bindingId, b.version) then Some(NotFound)
      else
        var base := BaselineOf(db, r.bindingId, b.version);
        if p.expectedTarget.Some? && p.expectedTarget.value != base.target then Some(ImmutableConflict)
        else if p.expectedConflict.Some? && p.expectedConflict.value != base.conflict then Some(ImmutableConflict)
        else if Locked(db, BindingLock(r.bindingId)) then Some(InProgress)
        else if r.operationId in db.ops then Some(Constraint)
        else None
  }

  ghost function PrepareBinding(db: Db, inst: Installation, r: Request, now: int): Outcome<(Operation, bool)> {
    if !RequestOk(inst, r) then Outcome(db, Err(IdentityMismatch))
    else if r.kind == Create || r.bindingId == "" || Blank(r.operationId) then Outcome(db, Err(Invalid))
    else if HasKey(db, r.key) then
      var o := db.ops[ByKey(db, r.key)];
      Outcome(db, if SameOperation(o, r.kind, r.bindingId, r.payload) then Ok((o, false)) else Err(IdempotencyConflict))
    else if BindingFault(db, inst, r, now).Some? then Outcome(db, Err(BindingFault(db, inst, r, now).value))
    else
      var o := NewOperation(r.operationId, r.key, r.kind, r.bindingId, BindingLock(r.bindingId), r.planId, r.payload);
      Outcome(db.(ops := db.ops[o.id := o]), Ok((o, true)))
  }

  // ----- operation state -----

  predicate TransitionAllowed(s: Status, t: Status) {
    match s
    case Prepared => t.Applying? || t.Succeeded? || t.Failed?
    case Applying => t.Verifying? || t.NeedsReconciliation? || t.Failed?
    case Verifying => t.Succeeded? || t.NeedsReconciliation? || t.Failed?
    case NeedsReconciliation => t.NeedsReconciliation? || t.Verifying? || t.Failed?
    case _ => false
  }

  /** The columns a transition may set; "" and None leave a column alone. */
  datatype Patch = Patch(target: string, receipt: string, needsReadback: Option<bool>, errorCode: string,
                         verifiedAt: Option<int>)

  function MoveFault(o: Operation, expected: set<Status>, next: Status, patch: Patch): Option<Error> {
    if o.status !in expected || !TransitionAllowed(o.status, next) then Some(InvalidTransition)
    else if patch.target != "" && o.target != "" && o.target != patch.target then Some(ImmutableConflict)
    else if patch.receipt != "" && o.receipt != "" && o.receipt != patch.receipt then Some(ImmutableConflict)
    else if o.kind == Create && next == Verifying && o.target == "" && patch.target == "" then Some(Invalid)
    else None
  }

  function Moved(o: Operation, next: Status, patch: Patch): Operation {
    o.(status := next,
       target := if patch.target != "" then patch.target else o.target,
       receipt := if patch.receipt != "" then patch.receipt else o.receipt,
       needsReadback := if next == NeedsReconciliation then true
                        else if patch.needsReadback.Some? then patch.needsReadback.value else o.needsReadback,
       errorCode := if patch.errorCode != "" then patch.errorCode else o.errorCode,
       verifiedAt := if patch.verifiedAt.Some? then patch.verifiedAt else o.verifiedAt,
       attempts := if next == Applying then o.attempts + 1 else o.attempts)
  }

  function Transition(db: Db, id: string, expected: set<Status>, next: Status, patch: Patch): Outcome<Operation> {
    if expected == {} then Outcome(db, Err(Invalid))
    else if id !in db.ops then Outcome(db, Err(NotFound))
    else if MoveFault(db.ops[id], expected, next, patch).Some? then
      Outcome(db, Err(MoveFault(db.ops[id], expected, next, patch).value))
    else
      var o := Moved(db.ops[id], next, patch);
      Outcome(db.(ops := db.ops[id := o]), Ok(o))
  }

  function Interrupted(o: Operation): Operation {
    if o.status.Applying? || o.status.Verifying? then
      o.(status := NeedsReconciliation, needsReadback := true,
         errorCode := if o.errorCode == "" then "process_interrupted" else o.errorCode)
    else o
  }

  function RecoverInterrupted(db: Db): Db {
    db.(ops := map id | id in db.ops :: Interrupted(db.ops[id]))
  }

  // ----- message mappings -----

  /** The managed pairs of a target, in its order. */
  function MappingsFrom(ms: seq<TargetMessage>): seq<(string, string)> {
    if ms == [] then []
    else
      var m, rest := ms[|ms| - 1], MappingsFrom(ms[..|ms| - 1]);
      if m.managed && m.sourceId != "" && m.id != "" then rest + [(m.sourceId, m.id)] else rest
  }

  predicate MappingFitsAt(source: SourceSnapshot, ps: seq<(string, string)>, i: nat)
    requires i < |ps|
  {
    && ps[i].0 != "" && ps[i].1 != "" && HasId(source, ps[i].0)
    && (forall j :: 0 <= j < i ==> ps[j].0 != ps[i].0)
    && (forall j :: 0 <= j < i ==> ps[j].1 != ps[i].1)
  }

  /** Complete pairs into known source messages, one-to-one. */
  predicate MappingsOk(source: SourceSnapshot, ps: seq<(string, string)>) {
    forall i {:trigger MappingFitsAt(source, ps, i)} :: 0 <= i < |ps| ==> MappingFitsAt(source, ps, i)
  }

  function PairsToMap(ps: seq<(string, string)>): map<string, string> {
    if ps == [] then map[] else PairsToMap(ps[..|ps| - 1])[ps[|ps| - 1].0 := ps[|ps| - 1].1]
  }

  predicate SameMappings(l: seq<(string, string)>, r: seq<(string, string)>) {
    |l| == |r| && forall i :: 0 <= i < |l| ==> l[i].0 in PairsToMap(r) && PairsToMap(r)[l[i].0] == l[i].1
  }

  // ----- finishing -----

  datatype VerifiedCreate = VerifiedCreate(
    operationId: string, bindingId: string, target: string, receipt: string, identity: Identity,
    mappings: seq<(string, string)>, titlePolicy: TitlePolicy, verified: TargetSnapshot, conflict: ConflictHash)

  predicate RowsFree(db: Db, v: VerifiedCreate) {
    && v.bindingId !in db.bindings && v.target !in db.allow && v.operationId !in db.baselines
    && (forall b :: b in db.bindings ==> db.bindings[b].target != v.target && db.bindings[b].createdBy != v.operationId)
    && (forall t :: t in db.allow ==> db.allow[t].bindingId != v.bindingId && db.allow[t].createdBy != v.operationId)
    && !HasBaseline(db, v.bindingId, 1)
  }

  function FinalizeFault(db: Db, v: VerifiedCreate): Option<Error> {
    if v.operationId == "" || v.bindingId == "" || v.target == "" then Some(Invalid)
    else if v.operationId !in db.ops then Some(NotFound)
    else
      var o := db.ops[v.operationId];
      if o.kind != Create || o.status != Verifying then Some(InvalidTransition)
      else if o.target == "" || o.target != v.target || o.receipt == "" then Some(UntrustedTarget)
      else if v.receipt != "" && o.receipt != v.receipt then Some(ImmutableConflict)
      else if v.operationId !in db.intents then Some(UntrustedTarget)
      else if db.intents[v.operationId].source !in db.sources then Some(NotFound)
      else
        var source, ps := db.sources[db.intents[v.operationId].source], MappingsFrom(v.verified.messages);
        if !MappingsOk(source, v.mappings) || !MappingsOk(source, ps) || !SameMappings(v.mappings, ps) then
          Some(Invalid)
        else if !RowsFree(db, v) then Some(Constraint)
        else None
  }

  function FinalizeCreate(db: Db, inst: Installation, v: VerifiedCreate, now: int): Outcome<Binding> {
    if FinalizeFault(db, v).Some? then Outcome(db, Err(FinalizeFault(db, v).value))
    else
      var source := db.intents[v.operationId].source;
      var b := Binding(inst, v.target, v.operationId, v.identity, v.titlePolicy, 1, source);
      Outcome(db.(
        bindings := db.bindings[v.bindingId := b],
        allow := db.allow[v.target := Allowed(v.bindingId, inst, v.operationId)],
        mappings := db.mappings[v.bindingId := PairsToMap(v.mappings)],
        baselines := db.baselines[v.operationId := Baseline(v.operationId, v.bindingId, 1, source, v.verified,
                                                            v.conflict)],
        ops := db.ops[v.operationId := db.ops[v.operationId].(
          status := Succeeded, bindingId := v.bindingId, needsReadback := false, verifiedAt := Some(now))]),
        Ok(b))
  }

  function CompleteFault(db: Db, inst: Installation, id: string, verified: Baseline, version: nat): Option<Error> {
    if id !in db.ops then Some(NotFound)
    else
      var o := db.ops[id];
      if o.kind != Update || o.status != Verifying then Some(InvalidTransition)
      else if o.bindingId == "" || (verified.bindingId != "" && verified.bindingId != o.bindingId) then
        Some(UntrustedTarget)
      else if !AllowedBinding(db, inst, o.bindingId) then Some(UntrustedTarget)
      else if db.bindings[o.bindingId].version != version then Some(VersionChanged)
      else if o.planId !in db.plans then Some(NotFound)
      else
        var p := db.plans[o.planId];
        if p.bindingId != o.bindingId || p.version != version then Some(VersionChanged)
        else if p.source !in db.sources then Some(NotFound)
        else if !MappingsOk(db.sources[p.source], MappingsFrom(verified.target.messages)) then Some(Invalid)
        else if id in db.baselines || HasBaseline(db, o.bindingId, version + 1) then Some(Constraint)
        else None
  }

  function CompleteUpdate(db: Db, inst: Installation, id: string, verified: Baseline, version: nat,
                          now: int): Outcome<()>
  {
    if CompleteFault(db, inst, id, verified, version).Some? then
      Outcome(db, Err(CompleteFault(db, inst, id, verified, version).value))
    else
      var o := db.ops[id];
      var source := db.plans[o.planId].source;
      Outcome(db.(
        bindings := db.bindings[o.bindingId := db.bindings[o.bindingId].(version := version + 1, lastSource := source)],
        mappings := db.mappings[o.bindingId := PairsToMap(MappingsFrom(verified.target.messages))],
        baselines := db.baselines[id := Baseline(id, o.bindingId, version + 1, source, verified.target,
                                                 verified.conflict)],
        ops := db.ops[id := o.(status := Succeeded, needsReadback := false, verifiedAt := Some(now))]),
        Ok(()))
  }
}
