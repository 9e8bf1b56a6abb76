/** The guarantees of the protocol, for every run. */
module ProtocolTheorems {
  import opened Basics
  import opened Domain
  import opened ChatGraph
  import opened Snapshots
  import opened Builder
  import opened BuildTheorems
  import opened Plans
  import opened Storage
  import opened Protocol
  import opened ProtocolInv
  import opened ProtocolContent
  import opened ProtocolExchange
  import opened ProtocolRuns
  import Store

  lemma Reached(inst: Installation, run: seq<Event>)
    requires IsRun(inst, START, run)
    ensures var w := WorldOf(START, run); Schema(w.db) && Tables(inst, w.db) && Content(w.db) && Exchange(w)
  {
    hide Schema, Tables, Content, Exchange, IsRun;
    RunsKeepInv(inst, run);
  }

  // ----- monotonicity -----

  lemma GrowsTransitive(a: Db, b: Db, c: Db)
    requires Grows(a, b) && Grows(b, c)
    ensures Grows(a, c)
  {
    hide Grows;
    forall k ensures KeptSource(a, c, k) { SourceKept(a, b, k); SourceKept(b, c, k); }
    forall x
      ensures KeptPlan(a, c, x) && KeptOp(a, c, x) && KeptIntent(a, c, x) && KeptBinding(a, c, x)
      ensures KeptAllow(a, c, x) && KeptBaseline(a, c, x)
    {
      KeptTwice(a, b, c, x);
    }
    hide KeptSource, KeptPlan, KeptOp, KeptIntent, KeptBinding, KeptAllow, KeptBaseline;
    GrowsBy(a, c);
  }

  lemma KeptTwice(a: Db, b: Db, c: Db, x: string)
    requires Grows(a, b) && Grows(b, c)
    ensures KeptPlan(a, c, x) && KeptOp(a, c, x) && KeptIntent(a, c, x) && KeptBinding(a, c, x)
    ensures KeptAllow(a, c, x) && KeptBaseline(a, c, x)
  {
    hide Grows;
    GrowsAt(a, b, x);
    GrowsAt(b, c, x);
  }

  lemma GrowsBy(a: Db, c: Db)
    requires forall k :: KeptSource(a, c, k)
    requires forall x :: KeptPlan(a, c, x) && KeptOp(a, c, x) && KeptIntent(a, c, x) && KeptBinding(a, c, x)
    requires forall x :: KeptAllow(a, c, x) && KeptBaseline(a, c, x)
    ensures Grows(a, c)
  {
    hide KeptSource, KeptPlan, KeptOp, KeptIntent, KeptBinding, KeptAllow, KeptBaseline;
  }

  /** Between any two points of a run nothing stored is lost: sources, intents,
      baselines and allow-list rows stay as they are, bindings keep their target and
      creator, settled operations never change. */
  lemma {:induction false} RunsOnlyGrow(inst: Installation, run: seq<Event>, k: nat)
    requires IsRun(inst, START, run) && k <= |run|
    ensures IsRun(inst, START, run[..k]) && Grows(WorldOf(START, run[..k]).db, WorldOf(START, run).db)
    decreases |run|
  {
    hide Inv, Enabled, After, Grows;
    if k == |run| {
      assert run[..k] == run;
      Same(WorldOf(START, run).db);
    } else {
      var before, last := run[..|run| - 1], run[|run| - 1];
      assert before[..k] == run[..k];
      RunsOnlyGrow(inst, before, k);
      RunsKeepInv(inst, before);
      StepKeepsInv(inst, WorldOf(START, before), last.who, last.action);
      GrowsTransitive(WorldOf(START, run[..k]).db, WorldOf(START, before).db, WorldOf(START, run).db);
    }
  }

  lemma Same(db: Db)
    ensures Grows(db, db)
  {
  }

  // ----- at most one write -----

  /** Whatever happens, each operation's write is sent at most once, each source
      conversation's chat is requested at most once, and no operation is ever
      attempted twice. */
  lemma {:induction false} AtMostOneWrite(inst: Installation, run: seq<Event>)
    requires IsRun(inst, START, run)
    ensures var w := WorldOf(START, run);
      && (forall i, j :: 0 <= i < j < |w.posts| ==> w.posts[i].op != w.posts[j].op)
      && (forall i :: 0 <= i < |w.posts| && w.posts[i].target.None? ==> w.posts[i].op in w.db.intents)
      && (forall i, j :: 0 <= i < j < |w.posts| && w.posts[i].target.None? && w.posts[j].target.None? ==>
            w.db.intents[w.posts[i].op].alias != w.db.intents[w.posts[j].op].alias)
      && (forall o :: o in w.db.ops ==> w.db.ops[o].attempts <= 1)
  {
    hide Schema, Tables, Content, IsRun, MatchesPlanned;
    Reached(inst, run);
    var w := WorldOf(START, run);
    forall i | 0 <= i < |w.posts| && w.posts[i].target.None? ensures w.posts[i].op in w.db.intents {
      assert PostRow(w, i);
      RowsOf(inst, w.db, w.posts[i].op);
    }
    forall o | o in w.db.ops ensures w.db.ops[o].attempts <= 1 { RowsOf(inst, w.db, o); }
    AliasesOf(w.db);
  }

  lemma AliasesOf(db: Db)
    requires Schema(db)
    ensures AliasesUnique(db.intents)
  {
    hide AliasesUnique;
  }

  /** A write goes out only for a confirmed, applicable plan of this installation, to
      a chat this store created (or to none yet), and what it sends reads back as
      the plan's source conversation. */
  lemma {:induction false} WritesAreConfirmed(inst: Installation, run: seq<Event>, i: nat)
    requires IsRun(inst, START, run) && i < |WorldOf(START, run).posts|
    ensures var w := WorldOf(START, run); var p := w.posts[i];
      && HasPlan(w.db, p.op)
      && var plan := PlanOf(w.db, p.op);
      && plan.ownerId == inst.owner && Applicable(plan.status) && (plan.confirmationRequired ==> plan.confirmedAt.Some?)
      && ValidChat(p.Body()) && Mirrors(Normalized(p.Body()), plan.source)
      && (p.target.Some? ==> Ours(w, p.target.value))
  {
    hide Schema, Tables, IsRun, Mirrors, Reproducible;
    Reached(inst, run);
    var w := WorldOf(START, run);
    assert PostRow(w, i);
    var p := w.posts[i];
    RowsOf(inst, w.db, p.op);
    RowsOf(inst, w.db, w.db.ops[p.op].planId);
    assert PlanContent(w.db, w.db.ops[p.op].planId);
    if p.target.Some? { ManagedIsOurs(inst, w, w.db.ops[p.op].bindingId); }
    BodyReadsAsPlan(p, PlanOf(w.db, p.op));
  }

  lemma BodyReadsAsPlan(p: Post, plan: Plan)
    requires MatchesPlanned(p.desired, plan) && PlanMirrors(plan)
    ensures ValidChat(p.Body()) && Mirrors(Normalized(p.Body()), plan.source)
  {
    hide Mirrors, ValidChat;
    MatchForcesProjection(p.desired, PlannedSnapshot(plan));
    ReadingIgnoresReceipt(p.Body(), p.desired.chat);
  }

  // ----- locks and versions -----

  /** At most one unresolved operation waits on a binding, and its plan was made for
      the binding's current version, so no version check can fail for it. */
  lemma {:induction false} LocksMatchVersions(inst: Installation, run: seq<Event>, a: string)
    requires IsRun(inst, START, run)
    requires var db := WorldOf(START, run).db; a in db.ops && db.ops[a].kind == Update && Unresolved(db.ops[a].status)
    ensures var db := WorldOf(START, run).db;
      && HasPlan(db, a) && db.ops[a].bindingId in db.bindings
      && PlanOf(db, a).bindingId == db.ops[a].bindingId
      && PlanOf(db, a).version == db.bindings[db.ops[a].bindingId].version
      && forall b ::
           b in db.ops && db.ops[b].kind == Update && Unresolved(db.ops[b].status)
           && db.ops[b].bindingId == db.ops[a].bindingId ==>
             a == b
  {
    hide Schema, Tables, Content, Exchange, IsRun;
    Reached(inst, run);
    var db := WorldOf(START, run).db;
    RowsOf(inst, db, a);
    LocksOf(db);
    forall b | b in db.ops && db.ops[b].kind == Update && Unresolved(db.ops[b].status)
               && db.ops[b].bindingId == db.ops[a].bindingId
      ensures a == b
    {
      RowsOf(inst, db, b);
    }
  }

  // ----- trust -----

  /** A binding once installed is backed by its allow-list row, create intent and
      succeeded create with the same target for ever after. */
  lemma {:induction false} TrustLasts(inst: Installation, run: seq<Event>, k: nat, b: string)
    requires IsRun(inst, START, run) && k <= |run| && b in WorldOf(START, run[..k]).db.bindings
    ensures var db, was := WorldOf(START, run).db, WorldOf(START, run[..k]).db.bindings[b];
      && AllowedBinding(db, inst, b)
      && db.bindings[b].target == was.target && db.bindings[b].createdBy == was.createdBy
      && db.bindings[b].version >= was.version
      && GetBindingState(db, inst, b).Ok?
  {
    hide Schema, Content, Exchange, IsRun, Grows, Tables;
    RunsOnlyGrow(inst, run, k);
    Reached(inst, run);
    var db := WorldOf(START, run).db;
    GrowsAt(WorldOf(START, run[..k]).db, db, b);
    BindingStateOk(inst, db, b);
  }

  lemma BaselineStored(db: Db, b: string, v: nat) returns (o: string)
    requires HasBaseline(db, b, v)
    ensures o in db.baselines && db.baselines[o] == BaselineOf(db, b, v)
    ensures db.baselines[o].bindingId == b && db.baselines[o].version == v
  {
    o :| o in db.baselines && db.baselines[o].bindingId == b && db.baselines[o].version == v
         && db.baselines[o] == BaselineOf(db, b, v);
  }

  lemma BindingStateOk(inst: Installation, db: Db, b: string)
    requires Tables(inst, db) && b in db.bindings
    ensures AllowedBinding(db, inst, b) && HasBaseline(db, b, db.bindings[b].version)
    ensures GetBindingState(db, inst, b).Ok?
    ensures var bl := BaselineOf(db, b, db.bindings[b].version);
      Latest(db, bl) && bl.operationId in db.baselines && db.baselines[bl.operationId] == bl
      && db.bindings[b].lastSource in db.sources
  {
    hide Tables, AllowedBinding;
    RowsOf(inst, db, b);
    var v := db.bindings[b].version;
    assert HasBaseline(db, b, v);
    var o := BaselineStored(db, b, v);
    RowsOf(inst, db, o);
  }

  /** Every chat ever read or updated was named by the reply to a create that this
      store sent. */
  lemma {:induction false} OnlyCreatedChats(inst: Installation, run: seq<Event>, id: string)
    requires IsRun(inst, START, run)
    requires var w := WorldOf(START, run);
      id in w.chatsRead || exists i :: 0 <= i < |w.posts| && w.posts[i].target == Some(id)
    ensures var w := WorldOf(START, run); exists op :: (op, id) in w.receipts && CreatePosted(w, op)
  {
    hide Schema, Tables, Content, IsRun, MatchesPlanned;
    Reached(inst, run);
    var w := WorldOf(START, run);
    if id in w.chatsRead {
      assert ReadRow(w, id);
    } else {
      var i :| 0 <= i < |w.posts| && w.posts[i].target == Some(id);
      assert PostRow(w, i);
      ManagedIsOurs(inst, w, w.db.ops[w.posts[i].op].bindingId);
    }
    var op :| (op, id) in w.receipts;
    assert ReceiptRow(w, (op, id));
  }

  // ----- the stored conversation -----

  /** In every reachable state the stored document of every managed chat is its last
      source conversation: all messages managed, one for each source message, in
      order, with identity, role, channel and parts intact; and the stored mappings
      are exactly its pairs, one-to-one into that conversation. */
  lemma {:induction false} StoredIsSource(inst: Installation, run: seq<Event>, b: string)
    requires IsRun(inst, START, run) && b in WorldOf(START, run).db.bindings
    ensures var db := WorldOf(START, run).db; var binding := db.bindings[b];
      && HasBaseline(db, b, binding.version)
      && var bl := BaselineOf(db, b, binding.version);
      && bl.source == binding.lastSource
      && Mirrors(bl.target, binding.lastSource) && InSourceOrder(bl.target, binding.lastSource)
      && b in db.mappings && Injective(db.mappings[b])
      && forall s, t :: (s in db.mappings[b] && db.mappings[b][s] == t) <==> (s, t) in MappingsFrom(bl.target.messages)
  {
    hide Schema, Tables, Exchange, IsRun, Mirrors, MappingsFrom;
    Reached(inst, run);
    var db := WorldOf(START, run).db;
    BindingStateOk(inst, db, b);
    var bl := BaselineOf(db, b, db.bindings[b].version);
    assert BaselineContent(db, bl.operationId);
    MirrorsInOrder(bl.target, bl.source);
    hide BaselineContent, InSourceOrder, OrderedOk;
    Store.PairsAreMap(db.sources[bl.source], MappingsFrom(bl.target.messages));
  }

  /** A read that shows a recorded baseline shows the write of the operation that
      recorded it, hence of none that has not succeeded. */
  lemma {:induction false} BaselineIsNoOtherWrite(inst: Installation, run: seq<Event>, o: string, actual: Snapshot,
                                                  op: string)
    requires IsRun(inst, START, run) && o in WorldOf(START, run).db.baselines
    requires Decoded(actual) && MatchesBaseline(actual, WorldOf(START, run).db.baselines[o])
    requires op in WorldOf(START, run).db.ops && !WorldOf(START, run).db.ops[op].status.Succeeded?
    ensures HasOperationMarker(actual.chat, o, false) && !HasOperationMarker(actual.chat, op, false)
  {
    hide Schema, Tables, Content, Exchange, IsRun, Decoded;
    Reached(inst, run);
    BaselineHasMarker(inst, WorldOf(START, run).db, o, actual, op);
  }

  lemma BaselineHasMarker(inst: Installation, db: Db, o: string, actual: Snapshot, op: string)
    requires Tables(inst, db) && Content(db) && o in db.baselines && Decoded(actual)
    requires MatchesBaseline(actual, db.baselines[o])
    ensures HasOperationMarker(actual.chat, o, false)
    ensures op in db.ops && !db.ops[op].status.Succeeded? ==> !HasOperationMarker(actual.chat, op, false)
  {
    hide Tables, Mirrors, OrderedOk, MappingsOk, MappingsFrom;
    assert BaselineContent(db, o);
    hide Content;
    RowsOf(inst, db, o);
  }

  /** The history of a binding is dense: exactly one baseline for each version up to
      the current one, each from a succeeded operation of its own. */
  lemma {:induction false} HistoryIsDense(inst: Installation, run: seq<Event>, b: string, v: nat)
    requires IsRun(inst, START, run) && b in WorldOf(START, run).db.bindings
    ensures var db := WorldOf(START, run).db;
      && (HasBaseline(db, b, v) <==> 1 <= v <= db.bindings[b].version)
      && (forall o :: o in db.baselines ==> db.baselines[o].operationId == o)
      && (HasBaseline(db, b, v) ==>
            var o := BaselineOf(db, b, v).operationId;
            && o in db.ops && db.ops[o].status.Succeeded? && db.ops[o].bindingId == b
            && forall x :: x in db.baselines && db.baselines[x].bindingId == b && db.baselines[x].version == v ==>
                 x == o)
  {
    hide Schema, Tables, Content, Exchange, IsRun;
    Reached(inst, run);
    var db := WorldOf(START, run).db;
    RowsOf(inst, db, b);
    forall o | o in db.baselines ensures db.baselines[o].operationId == o { RowsOf(inst, db, o); }
    if HasBaseline(db, b, v) {
      var o := BaselineStored(db, b, v);
      RowsOf(inst, db, o);
      BaselinesOf(db);
      forall x | x in db.baselines && db.baselines[x].bindingId == b && db.baselines[x].version == v ensures x == o {
        assert SameSlot(db.baselines[x], db.baselines[o]);
      }
    }
  }

  lemma BaselinesOf(db: Db)
    requires Schema(db)
    ensures BaselinesUnique(db.baselines)
  {
    hide BaselinesUnique;
  }
}
