/** What the service relies on between its steps: facts read from the store earlier
    that still hold, and why each thing it does next is a step of the protocol. */
module ServiceFacts {
  import opened Basics
  import opened Domain
  import opened Snapshots
  import opened Builder
  import opened Plans
  import opened Storage
  import opened Protocol
  import opened ProtocolInv
  import opened ProtocolContent
  import opened ProtocolRecovery
  import opened ProtocolTheorems
  import opened Session
  import ProtocolExchange
  import Client
  import Diff

  /** Why a call gave no operation: the process died, the service refused, or the store did. */
  datatype Failure = Crashed | Failure(code: string) | Stored(error: Error)

  /** What a caller read earlier about an operation and its plan still describes them. */
  ghost predicate Knows(db: Db, o: Operation, p: Plan) {
    && o.id in db.ops && OpGrows(o, db.ops[o.id]) && o.planId == p.id
    && p.id in db.plans && PlanGrows(p, db.plans[p.id])
  }

  lemma KnowsKept(db: Db, db2: Db, o: Operation, p: Plan)
    requires Knows(db, o, p) && Grows(db, db2)
    ensures Knows(db2, o, p)
  {
    hide Grows;
    GrowsAt(db, db2, o.id);
    GrowsAt(db, db2, p.id);
  }

  ghost predicate KnowsBinding(db: Db, b: string, was: Binding) {
    b in db.bindings && BindingGrows(was, db.bindings[b])
  }

  lemma BindingStillKnown(db: Db, db2: Db, b: string, was: Binding)
    requires KnowsBinding(db, b, was) && Grows(db, db2)
    ensures KnowsBinding(db2, b, was)
  {
    hide Grows;
    GrowsAt(db, db2, b);
  }

  /** What the tables say about an operation known from earlier. */
  lemma KnownRow(inst: Installation, db: Db, o: Operation, p: Plan)
    requires Tables(inst, db) && Knows(db, o, p)
    ensures HasPlan(db, o.id) && PlanOf(db, o.id) == db.plans[p.id] && p.source in db.sources && Applicable(p.status)
    ensures o.kind != Archive
    ensures o.kind == Create ==> p.bindingId == "" && db.ops[o.id].target == db.ops[o.id].receipt
    ensures o.kind == Update ==>
      && p.bindingId in db.bindings && db.ops[o.id].bindingId == p.bindingId
      && WriteTarget(db, db.ops[o.id]) == db.bindings[p.bindingId].target
  {
    hide Tables;
    RowsOf(inst, db, o.id);
    RowsOf(inst, db, p.id);
  }

  /** Old plan values match the same documents. */
  lemma SamePlanned(db: Db, o: Operation, p: Plan, s: Snapshot)
    requires Knows(db, o, p) && HasPlan(db, o.id) && PlanOf(db, o.id) == db.plans[p.id]
    ensures MatchesPlanned(s, p) <==> MatchesPlanned(s, PlanOf(db, o.id))
  {
    ProtocolExchange.PlannedKept(s, p, db.plans[p.id]);
  }

  /** The read shows the operation's own write. */
  ghost predicate Recognised(inst: Installation, actual: Snapshot, op: string, p: Plan, create: bool, target: string) {
    && actual.chatId == target && actual.ownerId == inst.account
    && HasOperationMarker(actual.chat, op, create) && MatchesPlanned(actual, p)
  }

  /** The tables after an update was verified and nothing else happened. */
  ghost predicate Updated(db: Db, db2: Db, op: string, p: Plan, actual: Snapshot) {
    && p.bindingId in db.bindings
    && var b := db.bindings[p.bindingId];
    && op in db2.ops && db2.ops[op].status.Succeeded?
    && db2.baselines
      == db.baselines[op := Baseline(op, p.bindingId, b.version + 1, p.source, actual.normalized, actual.conflict)]
    && db2.bindings == db.bindings[p.bindingId := b.(version := b.version + 1, lastSource := p.source)]
    && db2.mappings == db.mappings[p.bindingId := PairsToMap(MappingsFrom(actual.normalized.messages))]
    && db2.plans == db.plans && db2.intents == db.intents && db2.allow == db.allow
  }

  /** The tables after a create was verified and nothing else happened. */
  ghost predicate Created(inst: Installation, db: Db, db2: Db, o: Operation, p: Plan, source: SourceSnapshot, b: string,
                          actual: Snapshot)
  {
    && o.id in db2.ops && db2.ops[o.id].status.Succeeded? && db2.ops[o.id].bindingId == b
    && db2.bindings == db.bindings[b := Binding(inst, o.target, o.id, source.identity, FollowSource, 1, p.source)]
    && db2.allow == db.allow[o.target := Allowed(b, inst, o.id)]
    && db2.baselines == db.baselines[o.id := Baseline(o.id, b, 1, p.source, actual.normalized, actual.conflict)]
    && db2.mappings == db.mappings[b := PairsToMap(MappingsFrom(actual.normalized.messages))]
    && db2.plans == db.plans && db2.intents == db.intents
  }

  ghost predicate CreatedFrom(inst: Installation, db: Db, db2: Db, o: Operation, p: Plan, b: string, actual: Snapshot) {
    p.source in db.sources && Created(inst, db, db2, o, p, db.sources[p.source], b, actual)
  }

  /** What the service hands to the store after verifying a create. */
  function VerifiedBy(o: Operation, b: string, source: SourceSnapshot, actual: Snapshot): VerifiedCreate {
    VerifiedCreate(o.id, b, o.target, o.receipt, source.identity, MappingsFrom(actual.normalized.messages),
                   FollowSource, actual.normalized, actual.conflict)
  }

  predicate HasReceipt(o: Operation) {
    o.kind == Create && o.target != "" && o.receipt != ""
  }

  /** What a read of the chat shows; an id that does not fit a path is never asked for. */
  ghost function Seen(reply: Client.Reply, account: string, id: string): Option<Snapshot> {
    if Client.PathOk(id) then Client.ReadOutcome(reply, account, id) else None
  }

  /** Nothing but the operation's own row changed. */
  ghost predicate OnlyRow(db: Db, db2: Db, op: string) {
    op in db.ops && op in db2.ops && db2 == db.(ops := db.ops[op := db2.ops[op]])
  }

  lemma KnownBinding(inst: Installation, db: Db, o: Operation, p: Plan)
    requires Tables(inst, db) && Knows(db, o, p) && o.kind == Update
    ensures p.bindingId in db.bindings && GetBindingState(db, inst, p.bindingId).Ok?
    ensures var s := GetBindingState(db, inst, p.bindingId).value;
      s.id == p.bindingId && s.binding == db.bindings[p.bindingId] && KnowsBinding(db, p.bindingId, s.binding)
  {
    hide Tables;
    KnownRow(inst, db, o, p);
    BindingStateOk(inst, db, p.bindingId);
  }

  lemma ManagedMayBeRead(db: Db, b: string, was: Binding)
    requires KnowsBinding(db, b, was)
    ensures MayRead(db, was.target)
  {
  }

  lemma NoChangeMoves(db: Db, o: Operation, now: int)
    requires o.id in db.ops && db.ops[o.id].id == o.id
    ensures var t := Transition(db, o.id, {Prepared}, Succeeded, DonePatch(now));
      && (t.result.Ok? ==>
            t.result.value.status.Succeeded? && t.result.value.id == o.id && OnlyRow(db, t.db, o.id)
            && t.db.ops[o.id] == t.result.value)
      && (db.ops[o.id].status.Prepared? ==> t.result.Ok?)
  {
  }

  ghost predicate KnowsTarget(db: Db, b: string, target: string) {
    b in db.bindings && db.bindings[b].target == target
  }

  lemma TargetKept(db: Db, db2: Db, b: string, target: string)
    requires KnowsTarget(db, b, target) && Grows(db, db2)
    ensures KnowsTarget(db2, b, target)
  {
    hide Grows;
    GrowsAt(db, db2, b);
  }

  /** The target a caller starts with is the one the tables have. */
  lemma StartsAt(inst: Installation, db: Db, o: Operation, p: Plan, target: string)
    requires Tables(inst, db) && Knows(db, o, p)
    requires if o.kind == Create then target == "" else KnowsTarget(db, p.bindingId, target)
    ensures o.id in db.ops && target == WriteTarget(db, db.ops[o.id])
  {
    hide Tables;
    KnownRow(inst, db, o, p);
    KnowsMeans(db, o, p);
  }

  lemma UpdatedThroughAny(db: Db, ready: Db, db2: Db, op: string, p: Plan)
    ensures OnlyRow(db, ready, op) ==>
      forall actual :: Updated(ready, db2, op, p, actual) ==> Updated(db, db2, op, p, actual)
  {
    hide Updated, OnlyRow;
    if OnlyRow(db, ready, op) {
      forall actual | Updated(ready, db2, op, p, actual) ensures Updated(db, db2, op, p, actual) {
        UpdatedThrough(db, ready, db2, op, p, actual);
      }
    }
  }

  ghost predicate AsRead(db: Db, o: Operation) {
    o.id in db.ops && db.ops[o.id] == o
  }

  /** The target answers an update as it should: the first read is the baseline the
      plan was made from, the write succeeds, and the second read shows it. */
  ghost predicate Answered(inst: Installation, db: Db, o: Operation, p: Plan, first: Client.Reply, write: Client.Reply,
                           second: Client.Reply)
  {
    && GetBindingState(db, inst, p.bindingId).Ok?
    && var state := GetBindingState(db, inst, p.bindingId).value;
    var id := state.binding.target;
    && Seen(first, inst.account, id).Some?
    && MatchesBaseline(Seen(first, inst.account, id).value, state.baseline)
    && p.expectedConflict == Some(Seen(first, inst.account, id).value.conflict)
    && Client.WriteOutcome(write, inst.account, o.id, false, id).Ok?
    && Seen(second, inst.account, id).Some?
    && Recognised(inst, Seen(second, inst.account, id).value, o.id, p, false, id)
  }

  /** The update the reply shows is the one recorded. */
  ghost predicate Shown(inst: Installation, db: Db, db2: Db, op: string, p: Plan, reply: Client.Reply) {
    && p.bindingId in db.bindings && Seen(reply, inst.account, db.bindings[p.bindingId].target).Some?
    && Updated(db, db2, op, p, Seen(reply, inst.account, db.bindings[p.bindingId].target).value)
  }

  lemma PreparedIsFresh(inst: Installation, db: Db, o: Operation, p: Plan)
    requires Tables(inst, db) && Knows(db, o, p) && AsRead(db, o) && o.status.Prepared?
    ensures Fresh(db, o)
    ensures o.kind == Update ==> p.bindingId in db.bindings && db.bindings[p.bindingId].version == p.version
  {
    hide Tables, Blank;
    RowsOf(inst, db, o.id);
    KnownRow(inst, db, o, p);
  }

  lemma StillBuilds(inst: Installation, db: Db, o: Operation, p: Plan, later: Snapshot)
    requires Tables(inst, db) && Content(db) && Knows(db, o, p) && o.kind == Update
    requires Decoded(later) && p.expectedConflict == Some(later.conflict)
    ensures p.source in db.sources && BuildOk(db.sources[p.source], later.chat)
    ensures MatchesPlanned(Built(db.sources[p.source], Some(later)), p)
  {
    hide Tables, Content, BuildOk, MatchesPlanned, Decoded, Built;
    KnownRow(inst, db, o, p);
    KnowsMeans(db, o, p);
    OperationRebuilds(inst, db, o.id, later);
    SamePlanned(db, o, p, Built(db.sources[p.source], Some(later)));
  }

  ghost predicate Unchanged(inst: Installation, db: Db, p: Plan, reply: Client.Reply) {
    && GetBindingState(db, inst, p.bindingId).Ok?
    && var state := GetBindingState(db, inst, p.bindingId).value;
    var seen := Seen(reply, inst.account, state.binding.target);
    seen.Some? && MatchesBaseline(seen.value, state.baseline) && p.expectedConflict == Some(seen.value.conflict)
  }

  predicate FreeSlot(db: Db, b: string, target: string) {
    b != "" && b !in db.bindings && target !in db.allow
  }

  function WithReceipt(o: Operation, chatId: string): Operation {
    o.(target := chatId, receipt := chatId)
  }

  /** The target answers a create as it should: the write names a free chat, and the
      read of that chat shows it. */
  ghost predicate Installs(inst: Installation, db: Db, o: Operation, p: Plan, b: string, write: Client.Reply,
                           read: Client.Reply)
  {
    var answer := Client.WriteOutcome(write, inst.account, o.id, true, "");
    && answer.Ok? && FreeSlot(db, b, answer.value.chatId)
    && var seen := Seen(read, inst.account, answer.value.chatId);
    seen.Some? && Recognised(inst, seen.value, o.id, p, true, answer.value.chatId)
  }

  /** Then the chat it named is installed, with the document read from it. */
  ghost predicate Installed(inst: Installation, db: Db, db2: Db, o: Operation, p: Plan, source: SourceSnapshot,
                            b: string, write: Client.Reply, read: Client.Reply)
  {
    var answer := Client.WriteOutcome(write, inst.account, o.id, true, "");
    && answer.Ok?
    && var seen := Seen(read, inst.account, answer.value.chatId);
    seen.Some? && Created(inst, db, db2, WithReceipt(o, answer.value.chatId), p, source, b, seen.value)
  }

  ghost predicate InstalledFrom(inst: Installation, db: Db, db2: Db, o: Operation, p: Plan, b: string,
                                write: Client.Reply, read: Client.Reply)
  {
    p.source in db.sources && Installed(inst, db, db2, o, p, db.sources[p.source], b, write, read)
  }

  /** What the next three requests are answered with. */
  datatype Replies = Replies(first: Client.Reply, second: Client.Reply, third: Client.Reply)

  /** What an undisturbed execution of a prepared operation does: a create sends its one
      write, an update does once its chat is read as it was, one without changes sends
      nothing; and answered as it should be, the operation is recorded exactly. */
  ghost predicate Executed(inst: Installation, db: Db, db2: Db, o: Operation, p: Plan, b: string, replies: Replies,
                           sent: int, r: Result<Operation, Failure>)
  {
    if o.kind == Create then
      && sent == 1
      && (Installs(inst, db, o, p, b, replies.first, replies.second) ==>
            r.Ok? && InstalledFrom(inst, db, db2, o, p, b, replies.first, replies.second))
    else if p.status.NoChange? then
      && sent == 0
      && (Unchanged(inst, db, p, replies.first) ==> r.Ok? && OnlyRow(db, db2, o.id))
    else
      Answered(inst, db, o, p, replies.first, replies.second, replies.third) ==>
        r.Ok? && sent == 1 && Shown(inst, db, db2, o.id, p, replies.third)
  }

  /** What is true of an operation to be resumed. */
  lemma ResumeFacts(inst: Installation, db: Db, o: Operation, p: Plan)
    requires Tables(inst, db) && Knows(db, o, p)
    ensures o.kind != Archive && (o.kind == Create <==> p.bindingId == "")
    ensures o.kind == Update && AsRead(db, o) && o.status.Prepared? ==>
      GetBindingState(db, inst, p.bindingId).Ok?
      && GetBindingState(db, inst, p.bindingId).value.binding.version == p.version
    ensures AsRead(db, o) && o.status.Prepared? ==>
      forall code :: GivenUp(db, Transition(db, o.id, SETTLEABLE, Failed, FailPatch(code)).db, o.id)
  {
    hide Tables, Transition, GivenUp;
    KnownRow(inst, db, o, p);
    if o.kind == Update {
      KnownBinding(inst, db, o, p);
      RowsOf(inst, db, p.bindingId);
    }
    hide Knows;
    if AsRead(db, o) && o.status.Prepared? {
      PreparedIsFresh(inst, db, o, p);
      forall code ensures GivenUp(db, Transition(db, o.id, SETTLEABLE, Failed, FailPatch(code)).db, o.id) {
        FailedRow(db, o.id, code);
      }
    }
  }

  ghost predicate GivenUp(db: Db, db2: Db, op: string) {
    OnlyRow(db, db2, op) && db2.ops[op].status.Failed?
  }

  lemma FailedRow(db: Db, op: string, code: string)
    requires op in db.ops && db.ops[op].status in SETTLEABLE
    ensures GivenUp(db, Transition(db, op, SETTLEABLE, Failed, FailPatch(code)).db, op)
  {
  }

  lemma TrustedAsRead(inst: Installation, db: Db, o: Operation, p: Plan)
    requires Tables(inst, db) && Knows(db, o, p) && HasReceipt(o)
    ensures AsRead(db, o) && o.status.Verifying? && o.target !in db.allow ==>
      GetTrustedCreateTarget(db, o.id) == Ok(o.target)
    ensures GetTrustedCreateTarget(db, o.id).Ok? ==> GetTrustedCreateTarget(db, o.id).value == o.target
  {
    hide Tables;
    if AsRead(db, o) && o.status.Verifying? { TrustedIs(inst, db, o, p); }
    if GetTrustedCreateTarget(db, o.id).Ok? { TrustedTarget(db, o, p, GetTrustedCreateTarget(db, o.id).value); }
  }

  lemma CreatedThroughAny(inst: Installation, db: Db, ready: Db, db2: Db, o: Operation, q: Operation, p: Plan,
                          source: SourceSnapshot, b: string)
    requires o.id == q.id
    ensures OnlyRow(db, ready, o.id) && o.target == q.target ==>
      forall actual :: Created(inst, ready, db2, o, p, source, b, actual) ==>
        Created(inst, db, db2, q, p, source, b, actual)
  {
    if OnlyRow(db, ready, o.id) && o.target == q.target {
      forall actual | Created(inst, ready, db2, o, p, source, b, actual)
        ensures Created(inst, db, db2, q, p, source, b, actual)
      {
        CreatedThrough(inst, db, ready, db2, o, p, source, b, actual);
      }
    }
  }

  lemma StillBuildsNew(inst: Installation, db: Db, o: Operation, p: Plan)
    requires Tables(inst, db) && Content(db) && Knows(db, o, p) && o.kind == Create
    ensures p.source in db.sources && BuildOk(db.sources[p.source], EMPTY_CHAT)
    ensures MatchesPlanned(Built(db.sources[p.source], None), p)
  {
    hide Tables, Content, BuildOk, MatchesPlanned, Built;
    KnownRow(inst, db, o, p);
    KnowsMeans(db, o, p);
    OperationRebuilds(inst, db, o.id, PlannedSnapshot(p));
    SamePlanned(db, o, p, Built(db.sources[p.source], None));
  }

  /** The row is as it was read: prepared, never started. */
  ghost predicate Fresh(db: Db, o: Operation) {
    o.id in db.ops && db.ops[o.id] == o && o.status.Prepared? && o.target == o.receipt == "" && !Blank(o.id)
  }

  lemma BeginsWhenPrepared(db: Db, op: string)
    requires op in db.ops
    ensures var o := db.ops[op]; var t := Transition(db, op, {Prepared}, Applying, BeginPatch(db, o));
      o.status.Prepared? && o.target == o.receipt == "" ==>
        t.result.Ok? && t.result.value.target == WriteTarget(db, o) && t.result.value.receipt == ""
  {
  }

  lemma BegunRow(db: Db, o: Operation, p: Plan)
    requires Knows(db, o, p)
    ensures var t := Transition(db, o.id, {Prepared}, Applying, BeginPatch(db, db.ops[o.id]));
      t.result.Ok? ==>
        && Knows(t.db, t.result.value, p) && OnlyRow(db, t.db, o.id) && t.result.value.id == o.id
        && t.result.value == t.db.ops[o.id] && t.result.value.status.Applying? && t.result.value.kind == o.kind
  {
  }

  lemma RecordedRow(db: Db, o: Operation, p: Plan)
    requires Knows(db, o, p) && db.ops[o.id].kind == Update
    ensures var t := Transition(db, o.id, {Applying}, Verifying, UpdatePatch(o.id));
      && (t.result.Ok? ==> Knows(t.db, t.result.value, p) && OnlyRow(db, t.db, o.id) && t.result.value.id == o.id
                           && t.result.value == t.db.ops[o.id] && t.result.value.status.Verifying?
                           && t.result.value.kind == Update)
      && (t.result.Err? ==> t.db == db)
      && (db.ops[o.id].status.Applying? && db.ops[o.id].receipt == "" ==> t.result.Ok?)
  {
  }

  lemma UpdatedSucceeds(db: Db, db2: Db, op: string, p: Plan, actual: Snapshot)
    requires Updated(db, db2, op, p, actual)
    ensures op in db2.ops && db2.ops[op].status.Succeeded?
  {
  }

  lemma BindingIsTarget(db: Db, b: string, was: Binding)
    requires KnowsBinding(db, b, was)
    ensures b in db.bindings && KnowsTarget(db, b, was.target)
  {
  }

  /** What the caller sends is what the protocol lets it send. */
  lemma SendsAt(inst: Installation, db: Db, o: Operation, p: Plan, target: string, desired: Snapshot)
    requires Tables(inst, db) && Knows(db, o, p) && MatchesPlanned(desired, p)
    requires if o.kind == Create then target == "" else KnowsTarget(db, p.bindingId, target)
    ensures HasPlan(db, o.id) && MatchesPlanned(desired, PlanOf(db, o.id)) && db.ops[o.id].kind == o.kind
    ensures target == WriteTarget(db, db.ops[o.id])
  {
    hide Tables, MatchesPlanned;
    KnownRow(inst, db, o, p);
    KnowsMeans(db, o, p);
    SamePlanned(db, o, p, desired);
  }

  lemma StillClaimed(w: World, w2: World, me: nat, op: string)
    requires Steady(w, w2, me) && op in w.claims && w.claims[op] == me
    ensures op in w2.claims && w2.claims[op] == me && w.posts <= w2.posts && w.receipts <= w2.receipts
  {
    hide Grows;
  }

  /** At most one write went out, and it was the planned one. */
  ghost predicate Wrote(was: seq<Post>, now: seq<Post>, p: Plan) {
    now == was || (|now| == |was| + 1 && was <= now && MatchesPlanned(now[|was|].desired, p))
  }

  /** At most one write went out, and it was this operation's planned one. */
  ghost predicate OneWrite(was: seq<Post>, now: seq<Post>, op: string, p: Plan) {
    now == was || (|now| == |was| + 1 && was <= now && now[|was|].op == op && MatchesPlanned(now[|was|].desired, p))
  }

  // ----- creates -----

  lemma ReceiptFacts(inst: Installation, db: Db, o: Operation, p: Plan)
    requires Tables(inst, db) && Knows(db, o, p) && HasReceipt(o)
    ensures o.target == o.receipt == db.ops[o.id].target == db.ops[o.id].receipt && db.ops[o.id].kind == Create
    ensures db.ops[o.id].id == o.id
    ensures HasPlan(db, o.id) && PlanOf(db, o.id).source == p.source && p.source in db.sources
    ensures o.id in db.intents && db.intents[o.id].source == p.source
  {
    hide Tables;
    KnownRow(inst, db, o, p);
    KnowsMeans(db, o, p);
    RowsOf(inst, db, o.id);
  }

  lemma CreateFacts(inst: Installation, db: Db, o: Operation, p: Plan, source: SourceSnapshot, actual: Snapshot,
                    b: string)
    requires Tables(inst, db) && Knows(db, o, p) && HasReceipt(o) && p.source in db.sources
    requires source == db.sources[p.source]
    requires Recognised(inst, actual, o.id, p, true, o.target)
    ensures HasPlan(db, o.id) && PlanOf(db, o.id).source == p.source && VerifiedRead(db, inst, o.id, actual, true)
    ensures actual.chatId == db.ops[o.id].target && db.ops[o.id].kind == Create && db.ops[o.id].id == o.id
    ensures CreatedRecord(db.ops[o.id], b, source, actual) == VerifiedBy(o, b, source, actual)
  {
    hide Tables, MatchesPlanned, HasOperationMarker;
    KnownRow(inst, db, o, p);
    SamePlanned(db, o, p, actual);
    ReceiptFacts(inst, db, o, p);
    hide Knows;
  }

  /** Finalising with what the caller knows is a step of the protocol. */
  lemma FinalStep(inst: Installation, w: World, me: nat, o: Operation, p: Plan, source: SourceSnapshot,
                  actual: Snapshot, b: string, now: int)
    requires Tables(inst, w.db) && Knows(w.db, o, p) && HasReceipt(o) && p.source in w.db.sources
    requires source == w.db.sources[p.source]
    requires Recognised(inst, actual, o.id, p, true, o.target) && Decoded(actual)
    ensures Enabled(inst, w, me, Action.Finalize(o.id, b, actual, now))
    ensures DbAfter(inst, w, me, Action.Finalize(o.id, b, actual, now))
              == FinalizeCreate(w.db, inst, VerifiedBy(o, b, source, actual), now).db
  {
    hide Enabled, DbAfter, FinalizeCreate, Tables, Decoded, VerifiedBy;
    CreateFacts(inst, w.db, o, p, source, actual, b);
    FinalizeStep(inst, w, me, o.id, b, actual, now);
  }

  lemma FinalizeStep(inst: Installation, w: World, me: nat, op: string, b: string, actual: Snapshot, now: int)
    requires HasPlan(w.db, op) && PlanOf(w.db, op).source in w.db.sources && Decoded(actual)
    requires actual.chatId == w.db.ops[op].target && VerifiedRead(w.db, inst, op, actual, true)
    ensures Enabled(inst, w, me, Action.Finalize(op, b, actual, now))
    ensures DbAfter(inst, w, me, Action.Finalize(op, b, actual, now))
         == FinalizeCreate(w.db, inst, CreatedRecord(w.db.ops[op], b, w.db.sources[PlanOf(w.db, op).source], actual),
                           now).db
  {
    hide Decoded, VerifiedRead, FinalizeCreate;
  }

  /** A verified create of a free chat is installed, exactly. */
  lemma FinalizedIs(inst: Installation, db: Db, o: Operation, p: Plan, source: SourceSnapshot, actual: Snapshot,
                    b: string, now: int)
    requires Tables(inst, db) && Content(db) && Knows(db, o, p) && HasReceipt(o) && p.source in db.sources
    requires source == db.sources[p.source]
    requires Recognised(inst, actual, o.id, p, true, o.target) && Decoded(actual)
    requires db.ops[o.id].status.Verifying? && b != "" && b !in db.bindings && o.target !in db.allow
    ensures var t := FinalizeCreate(db, inst, VerifiedBy(o, b, source, actual), now);
      t.result.Ok? && Created(inst, db, t.db, o, p, source, b, actual)
  {
    CreateFacts(inst, db, o, p, source, actual, b);
    ReceiptFacts(inst, db, o, p);
    hide Tables, Content, VerifiedRead, Decoded, Recognised, Knows, FinalizeFault, CreatedRecord;
    FinalizeSucceeds(inst, db, o.id, b, actual);
    FinalizedDb(inst, db, o, p, source, actual, b, now);
  }

  lemma FinalizedDb(inst: Installation, db: Db, o: Operation, p: Plan, source: SourceSnapshot, actual: Snapshot,
                    b: string, now: int)
    requires o.id in db.intents && db.intents[o.id].source == p.source
    requires FinalizeFault(db, VerifiedBy(o, b, source, actual)).None?
    ensures var t := FinalizeCreate(db, inst, VerifiedBy(o, b, source, actual), now);
      t.result.Ok? && Created(inst, db, t.db, o, p, source, b, actual)
  {
    FinalizeHasRow(db, VerifiedBy(o, b, source, actual));
    hide FinalizeFault, MappingsFrom, PairsToMap;
  }

  lemma FinalizeHasRow(db: Db, v: VerifiedCreate)
    requires FinalizeFault(db, v).None?
    ensures v.operationId in db.ops && v.operationId in db.intents
  {
    hide MappingsOk, MappingsFrom, SameMappings, RowsFree;
  }

  lemma FinalizeOk(db: Db, inst: Installation, v: VerifiedCreate, now: int)
    ensures var t := FinalizeCreate(db, inst, v, now);
      t.result.Ok? ==> v.operationId in t.db.ops && t.db.ops[v.operationId].status.Succeeded?
  {
    hide FinalizeFault, MappingsFrom, PairsToMap;
  }

  lemma CreatedThrough(inst: Installation, db: Db, ready: Db, db2: Db, o: Operation, p: Plan, source: SourceSnapshot,
                       b: string, actual: Snapshot)
    requires OnlyRow(db, ready, o.id) && Created(inst, ready, db2, o, p, source, b, actual)
    ensures Created(inst, db, db2, o, p, source, b, actual)
  {
  }

  ghost predicate KnowsSource(db: Db, k: SourceSnapshot, s: SourceSnapshot) {
    k in db.sources && db.sources[k] == s
  }

  lemma SourceStillKnown(db: Db, db2: Db, k: SourceSnapshot, s: SourceSnapshot)
    requires KnowsSource(db, k, s) && Grows(db, db2)
    ensures KnowsSource(db2, k, s) && k in db2.sources && s == db2.sources[k]
  {
    hide Grows;
    SourceKept(db, db2, k);
  }

  lemma VerifiedNames(o: Operation, b: string, source: SourceSnapshot, actual: Snapshot)
    ensures VerifiedBy(o, b, source, actual).operationId == o.id
  {
  }

  lemma TrustedMayBeRead(db: Db, db2: Db, op: string, id: string)
    requires GetTrustedCreateTarget(db, op) == Ok(id) && Grows(db, db2)
    ensures MayRead(db2, id)
  {
    hide Grows;
    GrowsAt(db, db2, op);
    assert Receipted(db2, id);
  }

  /** A recorded receipt is trusted until its chat belongs to a binding. */
  lemma TrustedIs(inst: Installation, db: Db, o: Operation, p: Plan)
    requires Tables(inst, db) && Knows(db, o, p) && HasReceipt(o)
    requires db.ops[o.id].status in {Verifying, NeedsReconciliation}
    ensures GetTrustedCreateTarget(db, o.id) == if o.target in db.allow then Err(UntrustedTarget) else Ok(o.target)
  {
    hide Tables;
    ReceiptFacts(inst, db, o, p);
  }

  lemma TrustedTarget(db: Db, o: Operation, p: Plan, id: string)
    requires Knows(db, o, p) && HasReceipt(o) && GetTrustedCreateTarget(db, o.id) == Ok(id)
    ensures id == o.target
  {
  }

  lemma PlanSourceKnown(inst: Installation, db: Db, o: Operation, p: Plan)
    requires Tables(inst, db) && Knows(db, o, p)
    ensures p.source in db.sources && KnowsSource(db, p.source, db.sources[p.source])
  {
    KnownRow(inst, db, o, p);
  }

  /** The operation was not given up. */
  ghost predicate Survives(db: Db, db2: Db, op: string) {
    op in db.ops && !db.ops[op].status.Failed? ==> op in db2.ops && !db2.ops[op].status.Failed?
  }

  lemma TransitionSurvives(db: Db, op: string, expected: set<Status>, next: Status, patch: Patch)
    requires next != Failed
    ensures Survives(db, Transition(db, op, expected, next, patch).db, op)
  {
  }

  lemma FinalizeSurvives(db: Db, inst: Installation, v: VerifiedCreate, now: int)
    ensures Survives(db, FinalizeCreate(db, inst, v, now).db, v.operationId)
  {
    hide FinalizeFault, MappingsFrom, PairsToMap;
  }

  lemma ReceiptRow(db: Db, o: Operation, p: Plan, chatId: string)
    requires Knows(db, o, p) && db.ops[o.id].kind == Create && chatId != ""
    ensures var t := Transition(db, o.id, {Applying}, Verifying, ReceiptPatch(chatId));
      && (t.result.Ok? ==> Knows(t.db, t.result.value, p) && HasReceipt(t.result.value) && t.result.value.id == o.id
                           && t.result.value == t.db.ops[o.id] && t.result.value.target == chatId
                           && OnlyRow(db, t.db, o.id) && t.result.value.status.Verifying?)
      && (t.result.Err? ==> t.db == db)
      && (db.ops[o.id].status.Applying? && db.ops[o.id].target == db.ops[o.id].receipt == "" ==> t.result.Ok?)
  {
  }

  lemma StillPosted(w: World, w2: World, op: string)
    requires CreatePosted(w, op) && w.posts <= w2.posts
    ensures CreatePosted(w2, op)
  {
    var i :| 0 <= i < |w.posts| && w.posts[i].op == op && w.posts[i].target.None?;
    assert w2.posts[i] == w.posts[i];
  }

  lemma SteadyGrows(w: World, w2: World, me: nat)
    requires Steady(w, w2, me)
    ensures Grows(w.db, w2.db) && w.posts <= w2.posts && w.receipts <= w2.receipts
  {
    hide Grows;
  }

  lemma NowPosted(w: World, op: string, desired: Snapshot)
    requires op in w.db.ops && w.db.ops[op].kind == Create
    ensures CreatePosted(Sent(w, op, desired), op)
  {
    var posts := Sent(w, op, desired).posts;
    assert posts[|posts| - 1].op == op && posts[|posts| - 1].target.None?;
  }

  lemma AnswerNamesChat(s: Snapshot)
    requires Decoded(s)
    ensures s.chatId != ""
  {
  }

  lemma SourceHere(db: Db, k: SourceSnapshot)
    requires k in db.sources
    ensures KnowsSource(db, k, db.sources[k])
  {
  }

  lemma InterruptedRow(db: Db, o: Operation, p: Plan)
    requires Knows(db, o, p) && o.status in {Applying, Verifying}
    ensures var t := Transition(db, o.id, {Applying, Verifying}, NeedsReconciliation,
                                ReadbackPatch("interrupted_write"));
      && OnlyRow(db, t.db, o.id) && (db.ops[o.id] == o ==> t.result.Ok?)
      && (t.result.Ok? ==>
            && Knows(t.db, t.result.value, p) && t.result.value == t.db.ops[o.id] && t.result.value.id == o.id
            && t.result.value.kind == o.kind && t.result.value.status.NeedsReconciliation?
            && (db.ops[o.id] == o ==> t.result.value.target == o.target && t.result.value.receipt == o.receipt))
  {
    RowUnchanged(db, o.id);
  }

  lemma BindingMeans(db: Db, b: string, was: Binding)
    requires KnowsBinding(db, b, was)
    ensures b in db.bindings
  {
  }

  lemma UpdatedThrough(db: Db, ready: Db, db2: Db, op: string, p: Plan, actual: Snapshot)
    requires OnlyRow(db, ready, op) && Updated(ready, db2, op, p, actual)
    ensures Updated(db, db2, op, p, actual)
  {
  }

  lemma KnowsMeans(db: Db, o: Operation, p: Plan)
    requires Knows(db, o, p)
    ensures o.id in db.ops && db.ops[o.id].kind == o.kind && db.ops[o.id].id == o.id
    ensures p.id in db.plans && db.plans[p.id].status == p.status
  {
  }

  lemma RowUnchanged(db: Db, op: string)
    requires op in db.ops
    ensures OnlyRow(db, db, op)
  {
    assert db.ops == db.ops[op := db.ops[op]];
  }

  lemma SuspendedRow(db: Db, op: string, code: string)
    requires op in db.ops
    ensures var db2 := Transition(db, op, SUSPENDABLE, NeedsReconciliation, ReadbackPatch(code)).db;
      OnlyRow(db, db2, op) && (db.ops[op].status in SUSPENDABLE ==> db2.ops[op].status.NeedsReconciliation?)
  {
    var t := Transition(db, op, SUSPENDABLE, NeedsReconciliation, ReadbackPatch(code));
    if t.result.Err? { assert db == db.(ops := db.ops[op := db.ops[op]]); }
  }

  lemma ResumedRow(db: Db, op: string)
    requires op in db.ops && (db.ops[op].kind == Create ==> db.ops[op].target != "")
    ensures var t := Transition(db, op, {NeedsReconciliation}, Verifying, ReadbackPatch(""));
      db.ops[op].status.NeedsReconciliation? ==> t.result.Ok? && OnlyRow(db, t.db, op) && t.db.ops[op].status.Verifying?
  {
  }

  /** The baseline a caller builds is the one the protocol asks for. */
  lemma UpdateFacts(inst: Installation, db: Db, o: Operation, p: Plan, was: Binding, actual: Snapshot)
    requires Tables(inst, db) && Knows(db, o, p) && o.kind == Update && KnowsBinding(db, p.bindingId, was)
    requires Recognised(inst, actual, o.id, p, false, was.target)
    ensures HasPlan(db, o.id) && VerifiedRead(db, inst, o.id, actual, false)
    ensures db.ops[o.id].kind == Update && db.ops[o.id].bindingId == p.bindingId && p.bindingId in db.bindings
    ensures actual.chatId == db.bindings[p.bindingId].target
    ensures UpdatedBaseline(db.ops[o.id], PlanOf(db, o.id), was.version, actual)
         == Baseline(o.id, p.bindingId, was.version + 1, p.source, actual.normalized, actual.conflict)
  {
    hide Tables, MatchesPlanned, HasOperationMarker;
    KnownRow(inst, db, o, p);
    SamePlanned(db, o, p, actual);
    RowsOf(inst, db, o.id);
    hide OpRow, PlanRow, BindingRow, BaselineRow, AllowRow, IntentRow;
    KnowsMeans(db, o, p);
  }

  /** Completing with what the caller knows is a step of the protocol. */
  lemma CompletionStep(inst: Installation, w: World, me: nat, o: Operation, p: Plan, was: Binding, actual: Snapshot,
                       now: int)
    requires Tables(inst, w.db) && Knows(w.db, o, p) && o.kind == Update && Decoded(actual)
    requires KnowsBinding(w.db, p.bindingId, was)
    requires Recognised(inst, actual, o.id, p, false, was.target)
    ensures Enabled(inst, w, me, Action.Complete(o.id, was.version, actual, now))
    ensures DbAfter(inst, w, me, Action.Complete(o.id, was.version, actual, now)) == CompleteUpdate(w.db, inst, o.id,
      Baseline(o.id, p.bindingId, was.version + 1, p.source, actual.normalized, actual.conflict), was.version, now).db
  {
    hide Enabled, DbAfter, CompleteUpdate, Tables, Decoded;
    UpdateFacts(inst, w.db, o, p, was, actual);
    CompleteStep(inst, w, me, o.id, was.version, actual, now);
  }

  lemma CompleteStep(inst: Installation, w: World, me: nat, op: string, version: nat, actual: Snapshot, now: int)
    requires HasPlan(w.db, op) && Decoded(actual) && w.db.ops[op].bindingId in w.db.bindings
    requires actual.chatId == w.db.bindings[w.db.ops[op].bindingId].target
    requires VerifiedRead(w.db, inst, op, actual, false)
    ensures Enabled(inst, w, me, Action.Complete(op, version, actual, now))
    ensures DbAfter(inst, w, me, Action.Complete(op, version, actual, now))
         == CompleteUpdate(w.db, inst, op, UpdatedBaseline(w.db.ops[op], PlanOf(w.db, op), version, actual), version,
                           now).db
  {
    hide Decoded, VerifiedRead, CompleteUpdate;
  }

  lemma CompletionFits(inst: Installation, db: Db, o: Operation, p: Plan, was: Binding, actual: Snapshot)
    requires Tables(inst, db) && Content(db) && Knows(db, o, p) && o.kind == Update && Decoded(actual)
    requires KnowsBinding(db, p.bindingId, was) && Recognised(inst, actual, o.id, p, false, was.target)
    requires db.ops[o.id].status.Verifying? && db.bindings[p.bindingId] == was
    ensures CompleteFault(db, inst, o.id,
      Baseline(o.id, p.bindingId, was.version + 1, p.source, actual.normalized, actual.conflict), was.version).None?
    ensures HasPlan(db, o.id) && PlanOf(db, o.id).source == p.source && db.ops[o.id].bindingId == p.bindingId
  {
    UpdateFacts(inst, db, o, p, was, actual);
    SameSource(inst, db, o, p);
    hide Tables, Content, VerifiedRead, Decoded, Recognised, Knows, KnowsBinding, CompleteFault, UpdatedBaseline;
    CompleteSucceeds(inst, db, o.id, actual);
  }

  lemma SameSource(inst: Installation, db: Db, o: Operation, p: Plan)
    requires Tables(inst, db) && Knows(db, o, p)
    ensures HasPlan(db, o.id) && PlanOf(db, o.id).source == p.source
  {
    KnownRow(inst, db, o, p);
  }

  lemma CompletedDb(inst: Installation, db: Db, op: string, p: Plan, was: Binding, actual: Snapshot, now: int)
    requires HasPlan(db, op) && PlanOf(db, op).source == p.source && db.ops[op].bindingId == p.bindingId
    requires p.bindingId in db.bindings && db.bindings[p.bindingId] == was
    requires CompleteFault(db, inst, op,
      Baseline(op, p.bindingId, was.version + 1, p.source, actual.normalized, actual.conflict), was.version).None?
    ensures var t := CompleteUpdate(db, inst, op,
      Baseline(op, p.bindingId, was.version + 1, p.source, actual.normalized, actual.conflict), was.version, now);
      t.result.Ok? && Updated(db, t.db, op, p, actual)
  {
    hide CompleteFault, MappingsFrom, PairsToMap;
  }

  /** It succeeds when the version is current, and then does exactly the update. */
  lemma CompletedIs(inst: Installation, db: Db, o: Operation, p: Plan, was: Binding, actual: Snapshot, now: int)
    requires Tables(inst, db) && Content(db) && Knows(db, o, p) && o.kind == Update && Decoded(actual)
    requires KnowsBinding(db, p.bindingId, was) && Recognised(inst, actual, o.id, p, false, was.target)
    requires db.ops[o.id].status.Verifying? && db.bindings[p.bindingId] == was
    ensures var t := CompleteUpdate(db, inst, o.id,
        Baseline(o.id, p.bindingId, was.version + 1, p.source, actual.normalized, actual.conflict), was.version, now);
      t.result.Ok? && Updated(db, t.db, o.id, p, actual)
  {
    CompletionFits(inst, db, o, p, was, actual);
    hide Tables, Content, Decoded, Recognised, CompleteFault, CompleteUpdate, Updated;
    CompletedDb(inst, db, o.id, p, was, actual, now);
  }

  lemma CompleteOk(db: Db, inst: Installation, op: string, bl: Baseline, version: nat, now: int)
    ensures var t := CompleteUpdate(db, inst, op, bl, version, now);
      t.result.Ok? ==> op in t.db.ops && t.db.ops[op].status.Succeeded?
  {
    hide CompleteFault, MappingsFrom, PairsToMap;
  }

  // ----- checks -----

  function OwnershipFault(inst: Installation, p: Plan): Option<string> {
    if p.ownerId != inst.owner then Some("invalid_plan_owner")
    else if (p.bindingId == "") != (p.version == 0) || (p.bindingId != "" && p.baseline != p.expectedTarget) then
      Some("invalid_plan_binding")
    else None
  }

  predicate Trimmed(s: string) {
    s == "" || (s[0] !in " \t\n\r" && s[|s| - 1] !in " \t\n\r")
  }

  function PlanFault(inst: Installation, p: Plan, now: int): Option<string> {
    if OwnershipFault(inst, p).Some? then OwnershipFault(inst, p)
    else if p.id == "" || !Trimmed(p.id) then Some("invalid_plan")
    else if p.expiresAt <= now then Some("plan_expired")
    else if p.parserVersion != PARSER_VERSION || p.policyVersion != POLICY_VERSION then Some("plan_version_changed")
    else if !Applicable(p.status) then Some("plan_not_applicable")
    else None
  }

  predicate Terminal(s: Status) {
    s.Succeeded? || s.Failed?
  }

  /** A plan value read again later is known, and so is an operation of it. */
  lemma KnowsNow(inst: Installation, db: Db, id: string)
    requires Tables(inst, db) && id in db.ops
    ensures db.ops[id].id == id && db.ops[id].planId in db.plans && Knows(db, db.ops[id], db.plans[db.ops[id].planId])
  {
    hide Tables;
    RowsOf(inst, db, id);
    RowsOf(inst, db, db.ops[id].planId);
  }

  lemma KnowsBoth(db: Db, db2: Db, o: Operation)
    requires o.id in db.ops && db.ops[o.id] == o && o.planId in db.plans && Grows(db, db2)
    requires Knows(db, o, db.plans[o.planId])
    ensures o.planId in db2.plans && Knows(db2, o, db2.plans[o.planId])
  {
    KnowsKept(db, db2, o, db.plans[o.planId]);
  }

  lemma KnownKinds(inst: Installation, db: Db, id: string)
    requires Tables(inst, db) && id in db.ops
    ensures db.ops[id].kind != Archive && db.ops[id].planId in db.plans
    ensures db.ops[id].kind == Update ==> db.plans[db.ops[id].planId].bindingId in db.bindings
  {
    hide Tables;
    KnowsNow(inst, db, id);
    KnownRow(inst, db, db.ops[id], db.plans[db.ops[id].planId]);
  }

  /** The read shows the last verified state of a binding. */
  ghost predicate ShowsBaseline(db: Db, b: string, seen: Snapshot) {
    b in db.bindings
    && exists o ::
         o in db.baselines && db.baselines[o].bindingId == b && db.baselines[o].version == db.bindings[b].version
                   && MatchesBaseline(seen, db.baselines[o])
  }

  /** The baseline a caller loaded is the only one at the binding's version, and a read
      of it does not show the write of an operation that has not succeeded. */
  lemma BaselineSeen(inst: Installation, db: Db, o: Operation, p: Plan, actual: Snapshot)
    requires Schema(db) && Tables(inst, db) && Content(db) && Knows(db, o, p) && o.kind == Update && Decoded(actual)
    ensures GetBindingState(db, inst, p.bindingId).Ok?
    ensures ShowsBaseline(db, p.bindingId, actual) <==>
      MatchesBaseline(actual, GetBindingState(db, inst, p.bindingId).value.baseline)
    ensures ShowsBaseline(db, p.bindingId, actual) && !db.ops[o.id].status.Succeeded? ==>
      !HasOperationMarker(actual.chat, o.id, false)
  {
    hide Schema, Tables, Content, Decoded, MatchesBaseline, AllowedBinding, HasOperationMarker;
    KnownRow(inst, db, o, p);
    KnowsMeans(db, o, p);
    hide Knows;
    BindingStateOk(inst, db, p.bindingId);
    var v := db.bindings[p.bindingId].version;
    BaselinesOf(db);
    forall x | x in db.baselines && db.baselines[x].bindingId == p.bindingId && db.baselines[x].version == v
               && MatchesBaseline(actual, db.baselines[x])
      ensures db.baselines[x] == BaselineOf(db, p.bindingId, v)
      ensures !db.ops[o.id].status.Succeeded? ==> !HasOperationMarker(actual.chat, o.id, false)
    {
      assert SameSlot(db.baselines[x], BaselineOf(db, p.bindingId, v));
      BaselineHasMarker(inst, db, x, actual, o.id);
    }
  }

  /** What one undisturbed recovery does. An operation that was prepared is carried out,
      one that is settled stays, and one that was possibly sent is finished exactly when
      the chat it may read shows the operation's own write; otherwise it is left waiting
      and everything else as it was. */
  ghost predicate Recovered(inst: Installation, db: Db, db2: Db, id: string, b: string, now: int, replies: Replies,
                            sent: int, r: Result<Operation, Failure>)
    requires id in db.ops
  {
    var o := db.ops[id];
    o.planId in db.plans &&
    if Terminal(o.status) then r == Ok(o) && db2 == db
    else if o.status.Prepared? then Resumed(inst, db, db2, o, db.plans[o.planId], b, now, replies, sent, r)
    else Reconciled(inst, db, db2, id, o, db.plans[o.planId], b, replies.first, r)
  }

  /** A prepared operation whose plan no longer holds is given up, any other carried out. */
  ghost predicate Resumed(inst: Installation, db: Db, db2: Db, o: Operation, p: Plan, b: string, now: int,
                          replies: Replies, sent: int, r: Result<Operation, Failure>)
  {
    if PlanFault(inst, p, now).Some? || (p.confirmationRequired && p.confirmedAt.None?) then
      r.Err? && sent == 0 && GivenUp(db, db2, o.id)
    else
      Executed(inst, db, db2, o, p, b, replies, sent, r)
  }

  ghost predicate Reconciled(inst: Installation, db: Db, db2: Db, id: string, o: Operation, p: Plan, bindingId: string,
                             reply: Client.Reply, r: Result<Operation, Failure>)
  {
    if o.kind == Create then
      var seen := Seen(reply, inst.account, o.target);
      if HasReceipt(o) && o.target !in db.allow && seen.Some?
         && Recognised(inst, seen.value, id, p, true, o.target) then
        bindingId != "" && bindingId !in db.bindings ==>
          Done(db2, id, r) && CreatedFrom(inst, db, db2, o, p, bindingId, seen.value)
      else Waits(db, db2, id, r)
    else
      p.bindingId in db.bindings
      && var target := db.bindings[p.bindingId].target;
      var seen := Seen(reply, inst.account, target);
      && (if seen.Some? && Recognised(inst, seen.value, id, p, false, target) then
            Done(db2, id, r) && Updated(db, db2, id, p, seen.value)
          else Waits(db, db2, id, r))
      && (seen.Some? && ShowsBaseline(db, p.bindingId, seen.value) ==> Waits(db, db2, id, r))
      && (r == Err(Failure("update_still_uncertain")) <==> seen.Some? && ShowsBaseline(db, p.bindingId, seen.value))
  }

  predicate Done(db: Db, id: string, r: Result<Operation, Failure>) {
    id in db.ops && r == Ok(db.ops[id])
  }

  ghost predicate Waits(db: Db, db2: Db, id: string, r: Result<Operation, Failure>) {
    r.Err? && OnlyRow(db, db2, id) && db2.ops[id].status.NeedsReconciliation?
  }

  // ----- applying -----

  function KeyFor(p: Plan, source: SourceSnapshot): Key {
    if p.bindingId == "" then CreateKeyFor(source) else UpdateKey(p.bindingId, p.version, p.source)
  }

  /** Preparing a create from a plan value read earlier is a step of the protocol. */
  lemma PrepareCreateStep(inst: Installation, w: World, me: nat, p: Plan, source: SourceSnapshot, op: string, now: int)
    requires KnowsPlan(w.db, p) && KnowsSource(w.db, p.source, source) && Applicable(p.status)
    ensures Enabled(inst, w, me, Action.PrepareCreate(p.id, op, now))
    ensures DbAfter(inst, w, me, Action.PrepareCreate(p.id, op, now))
              == Storage.PrepareCreate(w.db, inst, CreateRequest(inst, p, source, op), now).db
  {
    hide Storage.PrepareCreate;
    assert CreateRequest(inst, w.db.plans[p.id], source, op) == CreateRequest(inst, p, source, op);
  }

  lemma PrepareUpdateStep(inst: Installation, w: World, me: nat, p: Plan, op: string, now: int)
    requires KnowsPlan(w.db, p) && Applicable(p.status) && p.bindingId != ""
    ensures Enabled(inst, w, me, Action.PrepareUpdate(p.id, op, now))
    ensures DbAfter(inst, w, me, Action.PrepareUpdate(p.id, op, now))
              == PrepareBinding(w.db, inst, UpdateRequest(inst, p, op), now).db
  {
    hide PrepareBinding;
    assert UpdateRequest(inst, w.db.plans[p.id], op) == UpdateRequest(inst, p, op);
  }

  ghost predicate KnowsPlan(db: Db, p: Plan) {
    p.id in db.plans && PlanGrows(p, db.plans[p.id])
  }

  lemma PlanStillKnown(db: Db, db2: Db, p: Plan)
    requires KnowsPlan(db, p) && Grows(db, db2)
    ensures KnowsPlan(db2, p)
  {
    hide Grows;
    GrowsAt(db, db2, p.id);
  }

  /** A created operation is known together with its plan. */
  lemma PreparedCreateIs(inst: Installation, db: Db, p: Plan, source: SourceSnapshot, op: string, now: int)
    requires KnowsPlan(db, p)
    ensures var t := Storage.PrepareCreate(db, inst, CreateRequest(inst, p, source, op), now);
      t.result.Ok? && t.result.value.1 ==>
        && Knows(t.db, t.result.value.0, p) && t.result.value.0.kind == Create
        && AsRead(t.db, t.result.value.0) && t.result.value.0.status.Prepared?
  {
    hide CreateFault;
  }

  lemma PreparedUpdateIs(inst: Installation, db: Db, p: Plan, op: string, now: int)
    requires KnowsPlan(db, p)
    ensures var t := PrepareBinding(db, inst, UpdateRequest(inst, p, op), now);
      t.result.Ok? && t.result.value.1 ==>
        && Knows(t.db, t.result.value.0, p) && t.result.value.0.kind == Update
        && AsRead(t.db, t.result.value.0) && t.result.value.0.status.Prepared?
  {
    hide BindingFault;
  }

  lemma ConfirmedIs(inst: Installation, db: Db, p: Plan, now: int)
    requires KnowsPlan(db, p)
    ensures var t := ConfirmPlan(db, inst, p.id, now);
      t.result.Ok? ==>
        && KnowsPlan(t.db, t.result.value) && t.result.value == p.(confirmedAt := t.result.value.confirmedAt)
        && (p.confirmationRequired ==> t.result.value.confirmedAt.Some?)
  {
  }

  lemma PlanRead(inst: Installation, db: Db, id: string)
    requires Tables(inst, db) && id in db.plans
    ensures db.plans[id].id == id && KnowsPlan(db, db.plans[id]) && db.plans[id].source in db.sources
  {
    hide Tables;
    RowsOf(inst, db, id);
  }

  lemma FoundRow(inst: Installation, db: Db, key: Key)
    requires Tables(inst, db) && HasKey(db, key)
    ensures db.ops[ByKey(db, key)].id in db.ops
  {
    hide Tables;
    RowsOf(inst, db, ByKey(db, key));
  }

  lemma OwnershipFirst(inst: Installation, p: Plan, now: int)
    ensures OwnershipFault(inst, p).Some? ==> PlanFault(inst, p, now).Some?
  {
  }

  lemma FaultlessIsApplicable(inst: Installation, p: Plan, now: int)
    requires PlanFault(inst, p, now).None?
    ensures Applicable(p.status)
  {
  }

  /** The plan as it stands when its operation is prepared. */
  ghost function Readied(inst: Installation, db: Db, p: Plan, confirmed: bool, now: int): Outcome<Plan> {
    if !p.confirmationRequired || p.confirmedAt.Some? then Outcome(db, Ok(p))
    else if !confirmed then Outcome(db, Err(ConfirmationRequired))
    else ConfirmPlan(db, inst, p.id, now)
  }

  /** An undisturbed create that can be prepared is carried out. */
  ghost predicate CreateApplies(inst: Installation, db: Db, db2: Db, p: Plan, op: string, b: string, now: int,
                                replies: Replies, sent: int, r: Result<Operation, Failure>)
  {
    p.source in db.sources ==>
      var t := Storage.PrepareCreate(db, inst, CreateRequest(inst, p, db.sources[p.source], op), now);
      t.result.Ok? && t.result.value.1 ==> Executed(inst, t.db, db2, t.result.value.0, p, b, replies, sent, r)
  }

  ghost predicate CurrentVersion(inst: Installation, db: Db, p: Plan) {
    GetBindingState(db, inst, p.bindingId).Ok?
    && GetBindingState(db, inst, p.bindingId).value.binding.version == p.version
  }

  /** So is an undisturbed update. */
  ghost predicate UpdateApplies(inst: Installation, db: Db, db2: Db, p: Plan, op: string, now: int,
                                replies: Replies, sent: int, r: Result<Operation, Failure>)
  {
    var t := PrepareBinding(db, inst, UpdateRequest(inst, p, op), now);
    t.result.Ok? && t.result.value.1 ==> Executed(inst, t.db, db2, t.result.value.0, p, "", replies, sent, r)
  }

  ghost predicate Applies(inst: Installation, db: Db, db2: Db, p: Plan, op: string, b: string, now: int,
                          replies: Replies, sent: int, r: Result<Operation, Failure>)
  {
    if p.bindingId == "" then CreateApplies(inst, db, db2, p, op, b, now, replies, sent, r)
    else CurrentVersion(inst, db, p) ==> UpdateApplies(inst, db, db2, p, op, now, replies, sent, r)
  }

  /** The request was seen before. */
  ghost predicate Replayed(db: Db, p: Plan) {
    p.source in db.sources && HasKey(db, KeyFor(p, db.sources[p.source]))
  }

  lemma SamePlan(p: Plan, q: Plan, was: seq<Post>, now: seq<Post>)
    requires q == p.(confirmedAt := q.confirmedAt) && Wrote(was, now, q)
    ensures Wrote(was, now, p)
  {
  }

  // ----- previewing -----

  /** The plan an update preview stores: made from one of the binding's verified
      baselines and one read of its chat. */
  ghost predicate FromBaseline(db: Db, c: Context, snapshot: SourceSnapshot, o: string, policy: TitlePolicy,
                               actual: Snapshot, p: Plan)
  {
    && o in db.baselines && db.baselines[o].source in db.sources && Decoded(actual)
    && var b := db.baselines[o];
    && (Applicable(UpdateStatus(c, snapshot, db.sources[b.source], b, policy, actual)) ==>
          BuildOk(snapshot, actual.chat))
    && p == UpdatePlan(c, b.bindingId, snapshot, db.sources[b.source], b, policy, actual)
  }

  lemma FromBaselineKept(db: Db, db2: Db, c: Context, snapshot: SourceSnapshot, o: string, policy: TitlePolicy,
                         actual: Snapshot, p: Plan)
    requires FromBaseline(db, c, snapshot, o, policy, actual, p) && Grows(db, db2)
    ensures FromBaseline(db2, c, snapshot, o, policy, actual, p)
  {
    GrowsAt(db, db2, o);
    SourceKept(db, db2, db.baselines[o].source);
    hide Grows, UpdateStatus, UpdatePlan, BuildOk, Decoded;
  }

  lemma SaveCreateStep(inst: Installation, w: World, me: nat, c: Context, s: SourceSnapshot)
    requires c.ownerId == inst.owner && BuildOk(s, EMPTY_CHAT)
    ensures Enabled(inst, w, me, SaveCreatePlan(c, s))
    ensures DbAfter(inst, w, me, SaveCreatePlan(c, s)) == SavePlan(w.db, inst, CreatePlan(c, s)).db
  {
    hide BuildOk, CreatePlan, SavePlan;
  }

  lemma SaveUpdateStep(inst: Installation, w: World, me: nat, c: Context, s: SourceSnapshot, o: string,
                       policy: TitlePolicy, actual: Snapshot, p: Plan)
    requires c.ownerId == inst.owner && FromBaseline(w.db, c, s, o, policy, actual, p)
    requires w.db.baselines[o].bindingId in w.db.bindings
    requires actual.chatId == w.db.bindings[w.db.baselines[o].bindingId].target
    ensures Enabled(inst, w, me, SaveUpdatePlan(c, s, o, policy, actual))
    ensures DbAfter(inst, w, me, SaveUpdatePlan(c, s, o, policy, actual)) == SavePlan(w.db, inst, p).db
  {
    hide BuildOk, UpdatePlan, SavePlan, UpdateStatus, Decoded;
  }

  lemma SavedIsKnown(inst: Installation, db: Db, p: Plan)
    requires p.ownerId == inst.owner && p.confirmedAt.None?
    ensures var t := SavePlan(db, inst, p); t.result.Ok? ==> KnowsPlan(t.db, p)
  {
    var t := SavePlan(db, inst, p);
    assert p.(ownerId := inst.owner, confirmedAt := None) == p;
    if t.result.Ok? && p.id in db.plans {
      assert db.plans[p.id] == db.plans[p.id].Payload().(confirmedAt := db.plans[p.id].confirmedAt);
    }
  }

  lemma PlanShape(c: Context, s: SourceSnapshot, db: Db, o: string, policy: TitlePolicy, actual: Snapshot, p: Plan)
    requires if p.bindingId == "" then BuildOk(s, EMPTY_CHAT) && p == CreatePlan(c, s)
             else FromBaseline(db, c, s, o, policy, actual, p)
    ensures p.ownerId == c.ownerId && p.confirmedAt.None? && p.source == s.Business()
  {
    hide BuildOk, UpdateStatus, Decoded;
  }

  lemma BaselineStill(db: Db, db2: Db, o: string, b: string, target: string)
    requires o in db.baselines && db.baselines[o].bindingId == b && Grows(db, db2) && KnowsTarget(db2, b, target)
    ensures o in db2.baselines && db2.baselines[o].bindingId in db2.bindings
    ensures db2.bindings[db2.baselines[o].bindingId].target == target
  {
    hide Grows;
    GrowsAt(db, db2, o);
  }

  /** Saving the plan is a step of the protocol, also after others took theirs. */
  lemma PlanningStep(inst: Installation, w: World, me: nat, was: Db, c: Context, s: SourceSnapshot, o: string,
                     policy: TitlePolicy, actual: Snapshot, p: Plan)
    returns (a: Action)
    requires c.ownerId == inst.owner && Grows(was, w.db)
    requires if p.bindingId == "" then BuildOk(s, EMPTY_CHAT) && p == CreatePlan(c, s)
             else FromBaseline(was, c, s, o, policy, actual, p)
                  && o in was.baselines && was.baselines[o].bindingId == p.bindingId
                  && KnowsTarget(was, p.bindingId, actual.chatId)
    ensures Enabled(inst, w, me, a) && Plain(a) && DbAfter(inst, w, me, a) == SavePlan(w.db, inst, p).db
  {
    hide Grows, BuildOk, CreatePlan, FromBaseline, KnowsTarget, Enabled, DbAfter, SavePlan;
    if p.bindingId == "" {
      SaveCreateStep(inst, w, me, c, s);
      a := SaveCreatePlan(c, s);
    } else {
      FromBaselineKept(was, w.db, c, s, o, policy, actual, p);
      TargetKept(was, w.db, p.bindingId, actual.chatId);
      BaselineStill(was, w.db, o, p.bindingId, actual.chatId);
      SaveUpdateStep(inst, w, me, c, s, o, policy, actual, p);
      a := SaveUpdatePlan(c, s, o, policy, actual);
    }
  }

  lemma VerdictIsPlain(previous: SourceSnapshot, current: SourceSnapshot,
                       targets: Option<(TargetSnapshot, TargetSnapshot)>, policy: TitlePolicy, stable: bool)
    ensures !Diff.VerdictOf(Some(previous), current, targets, policy, stable).status.NeedsBindingConfirmation?
  {
  }

  /** The inputs of an update preview are well-formed, and what it would apply can be built. */
  ghost predicate Plannable(c: Context, s: SourceSnapshot, state: BindingState, actual: Snapshot) {
    && Diff.InputsOk(Some(state.source), s, Some((state.baseline.target, actual.normalized)))
    && (Applicable(UpdateStatus(c, s, state.source, state.baseline, state.binding.titlePolicy, actual)) ==>
          BuildOk(s, actual.chat))
  }

  predicate FreePlanId(db: Db, id: string) {
    id != "" && id !in db.plans
  }

  lemma SavesFine(inst: Installation, db: Db, db2: Db, s: SourceSnapshot, p: Plan)
    requires p.ownerId == inst.owner && p.source == s.Business() && db2 == Storage.PutSource(db, s)
    requires FreePlanId(db, p.id) && (p.previous.Some? ==> p.previous.value in db.sources)
    ensures SavePlan(db2, inst, p).result.Ok?
  {
  }

  /** An update can be planned from the state as loaded and what the read shows. */
  ghost predicate CanPlan(inst: Installation, db: Db, c: Context, s: SourceSnapshot, bindingId: string,
                          reply: Client.Reply)
  {
    && GetBindingState(db, inst, bindingId).Ok?
    && var state := GetBindingState(db, inst, bindingId).value;
    var seen := Seen(reply, inst.account, state.binding.target);
    seen.Some? && Plannable(c, s, state, seen.value)
  }

  /** The plan an update preview returns: made from the binding's state as loaded and
      what the one read of its chat showed. */
  ghost predicate PlansUpdate(inst: Installation, db: Db, c: Context, s: SourceSnapshot, bindingId: string,
                              reply: Client.Reply, p: Plan)
  {
    && GetBindingState(db, inst, bindingId).Ok?
    && var state := GetBindingState(db, inst, bindingId).value;
    var seen := Seen(reply, inst.account, state.binding.target);
    && seen.Some? && Plannable(c, s, state, seen.value)
    && p == UpdatePlan(c, bindingId, s, state.source, state.baseline, state.binding.titlePolicy, seen.value)
  }

  /** The planned update is the one made from the state that was loaded. */
  lemma PlannedFrom(db: Db, c: Context, s: SourceSnapshot, state: BindingState, actual: Snapshot, p: Plan)
    requires state.baseline.operationId in db.baselines && db.baselines[state.baseline.operationId] == state.baseline
    requires state.baseline.source in db.sources && state.source == db.sources[state.baseline.source] && Decoded(actual)
    requires state.id == state.baseline.bindingId && state.baseline.version == state.binding.version
    requires Applicable(UpdateStatus(c, s, state.source, state.baseline, state.binding.titlePolicy, actual)) ==>
      BuildOk(s, actual.chat)
    requires p == UpdatePlan(c, state.id, s, state.source, state.baseline, state.binding.titlePolicy,
                             actual).(version := state.binding.version)
    ensures FromBaseline(db, c, s, state.baseline.operationId, state.binding.titlePolicy, actual, p)
    ensures p.bindingId == state.id
    ensures p == UpdatePlan(c, state.id, s, state.source, state.baseline, state.binding.titlePolicy, actual)
    ensures p.previous == Some(state.source.Business()) && p.id == c.planId
  {
    hide BuildOk, UpdateStatus, Decoded, Built;
  }

  /** The state a preview starts from. */
  lemma StateIs(inst: Installation, db: Db, b: string)
    requires Tables(inst, db) && GetBindingState(db, inst, b).Ok?
    ensures var s := GetBindingState(db, inst, b).value;
      && s.id == b && KnowsBinding(db, b, s.binding) && s.baseline.bindingId == b
      && s.baseline.version == s.binding.version
      && s.baseline.operationId in db.baselines && db.baselines[s.baseline.operationId] == s.baseline
      && s.baseline.source in db.sources && s.source == db.sources[s.baseline.source]
      && s.source.Business() == s.baseline.source
  {
    assert SourceRow(db, GetBindingState(db, inst, b).value.baseline.source);
    hide Tables;
    BindingStateOk(inst, db, b);
  }
}
