/** What stored plans and baselines mean: every applicable plan's document is its
    source conversation and can be built again, and every baseline is its source. */
module ProtocolContent {
  import opened Basics
  import opened Domain
  import opened ChatGraph
  import opened Snapshots
  import opened Builder
  import opened BuildTheorems
  import opened Plans
  import opened Storage
  import opened Protocol
  import opened ProtocolInv

  /** Building the stored source again, on the document the plan expects, gives the plan. */
  ghost predicate Rebuilds(source: SourceSnapshot, p: Plan, later: Snapshot) {
    Decoded(later) && p.expectedConflict == Some(later.conflict) ==>
      BuildOk(source, later.chat) && MatchesPlanned(Built(source, Some(later)), p)
  }

  ghost predicate RebuildsNew(source: SourceSnapshot, p: Plan) {
    BuildOk(source, EMPTY_CHAT) && MatchesPlanned(Built(source, None), p)
  }

  ghost predicate Reproducible(source: SourceSnapshot, p: Plan) {
    if p.bindingId == "" then RebuildsNew(source, p) else forall later :: Rebuilds(source, p, later)
  }

  /** An applicable plan's document is its source, and can be built again. */
  ghost predicate PlanSound(source: SourceSnapshot, p: Plan) {
    PlanMirrors(p) && OrderedOk(SortByOrder(p.source.messages)) && Reproducible(source, p)
  }

  ghost predicate PlanContent(db: Db, id: string) {
    id in db.plans && Applicable(db.plans[id].status) ==>
      db.plans[id].source in db.sources && PlanSound(db.sources[db.plans[id].source], db.plans[id])
  }

  /** The hashed document carries the marker of the operation. */
  ghost predicate OwnWrite(conflict: ConflictHash, op: string) {
    conflict.OfResponse? && HasOperationMarker(conflict.chat, op, false)
  }

  /** What an operation verified: its source conversation, in a document it wrote. */
  ghost predicate Genuine(target: TargetSnapshot, conflict: ConflictHash, source: SourceSnapshot, op: string) {
    Mirrors(target, source) && OrderedOk(SortByOrder(source.messages)) && OwnWrite(conflict, op)
  }

  /** A baseline is what its operation verified, and its managed pairs map into that
      conversation one-to-one. */
  ghost predicate BaselineContent(db: Db, id: string) {
    id in db.baselines ==>
      var bl := db.baselines[id];
      && Genuine(bl.target, bl.conflict, bl.source, id) && bl.source in db.sources
      && MappingsOk(db.sources[bl.source], MappingsFrom(bl.target.messages))
  }

  ghost predicate Content(db: Db) {
    (forall p :: PlanContent(db, p)) && (forall o :: BaselineContent(db, o))
  }

  // ----- what a step has to show -----

  lemma ConfirmedSound(source: SourceSnapshot, was: Plan, now: Plan)
    requires PlanSound(source, was)
    requires now == was.(confirmedAt := now.confirmedAt, ownerId := now.ownerId)
    ensures PlanSound(source, now)
  {
    forall later | now.bindingId != "" ensures Rebuilds(source, now, later) { assert Rebuilds(source, was, later); }
  }

  lemma PlanContentKept(db: Db, db2: Db, p: string)
    requires Grows(db, db2) && PlanContent(db, p) && p in db.plans
    ensures PlanContent(db2, p)
  {
    hide Grows, PlanSound;
    GrowsAt(db, db2, p);
    SourceKept(db, db2, db.plans[p].source);
    if Applicable(db.plans[p].status) { ConfirmedSound(db.sources[db.plans[p].source], db.plans[p], db2.plans[p]); }
  }

  lemma BaselineContentKept(db: Db, db2: Db, o: string)
    requires Grows(db, db2) && BaselineContent(db, o) && o in db.baselines
    ensures BaselineContent(db2, o)
  {
    hide Grows, Genuine, MappingsOk, MappingsFrom;
    GrowsAt(db, db2, o);
    SourceKept(db, db2, db.baselines[o].source);
  }

  /** Only new plans and baselines have to be looked at. */
  lemma ContentKept(db: Db, db2: Db)
    requires Content(db) && Grows(db, db2)
    requires forall p :: p in db.plans || PlanContent(db2, p)
    requires forall o :: o in db.baselines || BaselineContent(db2, o)
    ensures Content(db2)
  {
    hide Grows, PlanContent, BaselineContent;
    forall p ensures PlanContent(db2, p) {
      assert PlanContent(db, p);
      if p in db.plans { PlanContentKept(db, db2, p); }
    }
    forall o ensures BaselineContent(db2, o) {
      assert BaselineContent(db, o);
      if o in db.baselines { BaselineContentKept(db, db2, o); }
    }
  }

  lemma SameContent(db: Db, db2: Db)
    requires Content(db) && Grows(db, db2) && (forall p :: p in db2.plans ==> p in db.plans)
    requires db2.baselines == db.baselines
    ensures Content(db2)
  {
    hide Grows, PlanSound, Genuine, MappingsOk, MappingsFrom;
    ContentKept(db, db2);
  }

  // ----- plans -----

  lemma CreatePlanSound(c: Context, snapshot: SourceSnapshot, stored: SourceSnapshot)
    requires BuildOk(snapshot, EMPTY_CHAT) && stored.Business() == snapshot.Business()
    ensures PlanSound(stored, CreatePlan(c, snapshot))
  {
    CreatePlanMirrors(c, snapshot);
    BuildUsesBusiness(stored, snapshot, EMPTY_CHAT);
  }

  lemma UpdatePlanSound(c: Context, bindingId: string, snapshot: SourceSnapshot, previous: SourceSnapshot, b: Baseline,
                        policy: TitlePolicy, actual: Snapshot, stored: SourceSnapshot)
    requires Decoded(actual) && Mirrors(b.target, previous) && bindingId != ""
    requires stored.Business() == snapshot.Business()
    requires Applicable(UpdateStatus(c, snapshot, previous, b, policy, actual)) && BuildOk(snapshot, actual.chat)
    ensures PlanSound(stored, UpdatePlan(c, bindingId, snapshot, previous, b, policy, actual))
  {
    var p := UpdatePlan(c, bindingId, snapshot, previous, b, policy, actual);
    UpdatePlanMirrors(c, bindingId, snapshot, previous, b, policy, actual);
    forall later ensures Rebuilds(stored, p, later) {
      if Decoded(later) && p.expectedConflict == Some(later.conflict) {
        RebuildMatchesPlan(c, bindingId, snapshot, previous, b, policy, actual, later, stored);
      }
    }
  }

  lemma SavePlanContent(inst: Installation, db: Db, p: Plan)
    requires Content(db) && Grows(db, SavePlan(db, inst, p).db)
    requires p.source in db.sources && Applicable(p.status) ==> PlanSound(db.sources[p.source], p)
    ensures Content(SavePlan(db, inst, p).db)
  {
    hide Grows, PlanSound, BaselineContent;
    var r := SavePlan(db, inst, p);
    var row := p.(ownerId := inst.owner, confirmedAt := None);
    if r.result.Ok? && Applicable(p.status) { ConfirmedSound(db.sources[p.source], p, row); }
    if r.result.Ok? && p.id !in db.plans {
      assert PlanContent(r.db, p.id);
      RowAdded(db, p.id, row);
    }
  }

  lemma RowAdded(db: Db, id: string, row: Plan)
    requires var db2 := db.(plans := db.plans[id := row]); Content(db) && Grows(db, db2) && PlanContent(db2, id)
    ensures Content(db.(plans := db.plans[id := row]))
  {
    hide Grows, PlanSound, Genuine, MappingsOk, MappingsFrom;
    ContentKept(db, db.(plans := db.plans[id := row]));
  }

  // ----- finishing -----

  /** A verified read of an operation's target shows the operation's source. */
  lemma VerifiedMirrors(inst: Installation, db: Db, op: string, actual: Snapshot, create: bool)
    requires Tables(inst, db) && Content(db) && HasPlan(db, op) && Decoded(actual)
    requires VerifiedRead(db, inst, op, actual, create)
    ensures Mirrors(actual.normalized, PlanOf(db, op).source)
    ensures OrderedOk(SortByOrder(PlanOf(db, op).source.messages))
    ensures Genuine(actual.normalized, actual.conflict, PlanOf(db, op).source, op)
  {
    hide Tables, Mirrors, OrderedOk, Reproducible;
    ReadHashesItself(actual, op, create);
    RowsOf(inst, db, op);
    assert PlanContent(db, db.ops[op].planId);
    MatchedReadMirrors(actual, PlanOf(db, op));
  }

  lemma ReadHashesItself(actual: Snapshot, op: string, create: bool)
    requires Decoded(actual) && HasOperationMarker(actual.chat, op, create)
    ensures OwnWrite(actual.conflict, op) && actual.conflict.chat == actual.chat
  {
  }

  lemma {:induction false} MappedAll(ms: seq<TargetMessage>)
    requires forall i :: 0 <= i < |ms| ==> ms[i].managed && ms[i].sourceId != "" && ms[i].id != ""
    ensures |MappingsFrom(ms)| == |ms|
    ensures forall i :: 0 <= i < |ms| ==> MappingsFrom(ms)[i] == (ms[i].sourceId, ms[i].id)
  {
    if ms != [] { MappedAll(ms[..|ms| - 1]); }
  }

  ghost predicate IdsDiffer(ms: seq<TargetMessage>) {
    && (forall i :: 0 <= i < |ms| ==> ms[i].id != "")
    && forall i, j :: 0 <= i < j < |ms| ==> ms[i].id != ms[j].id
  }

  lemma OrderIds(g: Graph, current: string)
    requires ValidGraph(g, current)
    ensures Distinct(Order(g)) && "" !in Order(g)
  {
    OrderIsPreorder(g, current);
    forall k | k in Order(g) ensures k != "" { assert k in Elements(Order(g)); }
  }

  lemma ProjectedIds(g: Graph, order: seq<string>)
    requires Distinct(order) && "" !in order && forall i :: 0 <= i < |order| ==> order[i] in g
    ensures IdsDiffer(ProjectAll(g, order))
  {
    forall i | 0 <= i < |order| ensures order[i] in order {}
  }

  lemma ReadIdsDiffer(chat: Chat)
    requires ValidChat(chat)
    ensures IdsDiffer(Normalized(chat).messages)
  {
    hide ValidView, Parses, Order, IdsDiffer, Linked, Acyclic, ParseAll;
    OrderIds(GraphOf(chat), CurrentOf(chat));
    ProjectedIds(GraphOf(chat), Order(GraphOf(chat)));
  }

  /** The managed pairs of a target that mirrors a usable source pass the mapping checks. */
  lemma {:induction false} MirrorMapsOneToOne(t: TargetSnapshot, hash: SourceSnapshot, source: SourceSnapshot)
    requires Mirrors(t, hash) && OrderedOk(SortByOrder(hash.messages)) && IdsDiffer(t.messages)
    requires source.messages == hash.messages
    ensures MappingsOk(source, MappingsFrom(t.messages))
  {
    var ms, ordered := t.messages, SortByOrder(hash.messages);
    forall i | 0 <= i < |ms| ensures CopyOf(ms[i], ordered[i], i) && ordered[i].id != "" { assert FitsAt(ordered, i); }
    MappedAll(ms);
    var ps := MappingsFrom(ms);
    hide MappingsFrom;
    forall i | 0 <= i < |ps| ensures MappingFitsAt(source, ps, i) { PairFits(hash, source, ms, i); }
  }

  lemma PairFits(hash: SourceSnapshot, source: SourceSnapshot, ms: seq<TargetMessage>, i: nat)
    requires var ordered := SortByOrder(hash.messages);
      |ms| == |ordered| && OrderedOk(ordered) && forall j :: 0 <= j < |ms| ==> CopyOf(ms[j], ordered[j], j)
    requires IdsDiffer(ms) && source.messages == hash.messages && i < |ms| == |MappingsFrom(ms)|
    requires forall j :: 0 <= j < |ms| ==> MappingsFrom(ms)[j] == (ms[j].sourceId, ms[j].id)
    ensures MappingFitsAt(source, MappingsFrom(ms), i)
  {
    hide MappingsFrom;
    var ordered := SortByOrder(hash.messages);
    assert FitsAt(ordered, i) && CopyOf(ms[i], ordered[i], i);
    SortedMember(hash.messages, ordered[i]);
    hide SortByOrder;
    assert ordered[i] in source.messages && ordered[i].id == MappingsFrom(ms)[i].0;
    forall j | 0 <= j < i ensures MappingsFrom(ms)[j].0 != MappingsFrom(ms)[i].0 {
      assert CopyOf(ms[j], ordered[j], j);
    }
  }

  lemma FinalizeContent(inst: Installation, db: Db, v: VerifiedCreate, now: int)
    requires Content(db) && Grows(db, FinalizeCreate(db, inst, v, now).db)
    requires v.operationId in db.intents ==>
      Genuine(v.verified, v.conflict, db.intents[v.operationId].source, v.operationId)
    ensures Content(FinalizeCreate(db, inst, v, now).db)
  {
    hide Grows, PlanSound, Genuine, MappingsOk, MappingsFrom, PairsToMap, SameMappings, RowsFree;
    ContentKept(db, FinalizeCreate(db, inst, v, now).db);
  }

  lemma CompleteContent(inst: Installation, db: Db, id: string, verified: Baseline, version: nat, now: int)
    requires Content(db) && Grows(db, CompleteUpdate(db, inst, id, verified, version, now).db)
    requires HasPlan(db, id) ==> Genuine(verified.target, verified.conflict, PlanOf(db, id).source, id)
    ensures Content(CompleteUpdate(db, inst, id, verified, version, now).db)
  {
    hide Grows, PlanSound, Genuine, MappingsOk, MappingsFrom, PairsToMap, AllowedBinding;
    ContentKept(db, CompleteUpdate(db, inst, id, verified, version, now).db);
  }
}
