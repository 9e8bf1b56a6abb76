/** The synchronisation protocol as a transition system: every store transaction and
    every exchange with the target is one step, taken by any caller at any time, and
    the process may crash between any two steps. */
module Protocol {
  import opened Basics
  import opened Domain
  import opened ChatGraph
  import opened Snapshots
  import opened Builder
  import opened Plans
  import opened Storage

  /** A write sent to the target: None creates a chat. */
  datatype Post = Post(op: string, target: Option<string>, desired: Snapshot)
  {
    function Body(): Chat {
      RequestBody(desired.chat, op, target.None?)
    }
  }

  /** The tables, what was exchanged with the target so far, and which caller won the
      right to send an operation's write and has not used it. What the target holds is
      not part of the state: each read may return anything, so writes that are lost,
      commit late or meet foreign edits are all included. */
  datatype World = World(
    db: Db, posts: seq<Post>, receipts: set<(string, string)>, chatsRead: set<string>, claims: map<string, nat>)

  const START := World(EMPTY_DB, [], {}, {}, map[])

  // ----- identities the service derives from a plan -----

  function CreateKeyFor(source: SourceSnapshot): Key {
    CreateKey(if source.identity.candidateId != "" then ByCandidate(source.identity.candidateId)
              else ByContent(source.Business()))
  }

  function PayloadFor(p: Plan): Payload {
    Payload(if p.bindingId == "" then Create else Update, p.bindingId, p.source, p.previous, p.expectedTarget,
            p.expectedConflict, p.desired.target, p.desired.chat, p.desired.archived, p.desired.pinned,
            p.desired.folder, p.parserVersion, p.policyVersion)
  }

  function CreateRequest(inst: Installation, p: Plan, source: SourceSnapshot, operationId: string): Request {
    Request(inst.owner, operationId, CreateKeyFor(source), Create, "", p.id, PayloadFor(p), Some(p.source))
  }

  function UpdateRequest(inst: Installation, p: Plan, operationId: string): Request {
    Request(inst.owner, operationId, UpdateKey(p.bindingId, p.version, p.source), Update, p.bindingId, p.id,
            PayloadFor(p), None)
  }

  function CreatedRecord(o: Operation, bindingId: string, source: SourceSnapshot, actual: Snapshot): VerifiedCreate {
    VerifiedCreate(o.id, bindingId, o.target, o.receipt, source.identity, MappingsFrom(actual.normalized.messages),
                   FollowSource, actual.normalized, actual.conflict)
  }

  function UpdatedBaseline(o: Operation, p: Plan, version: nat, actual: Snapshot): Baseline {
    Baseline(o.id, o.bindingId, version + 1, p.source, actual.normalized, actual.conflict)
  }

  // ----- steps -----

  datatype Action =
    | PutSource(source: SourceSnapshot)
    | SaveCreatePlan(context: Context, snapshot: SourceSnapshot)
    | SaveUpdatePlan(context: Context, snapshot: SourceSnapshot, baselineOp: string, policy: TitlePolicy,
                     actual: Snapshot)
    | Confirm(planId: string, now: int)
    | PrepareCreate(planId: string, operationId: string, now: int)
    | PrepareUpdate(planId: string, operationId: string, now: int)
    | Begin(op: string)
    | Send(op: string, desired: Snapshot)
    | Reply(op: string, chatId: string)
    | RecordReceipt(op: string, chatId: string)
    | RecordUpdate(op: string)
    | FinishNoChange(op: string, now: int)
    | Fail(op: string, code: string)
    | Suspend(op: string, expected: set<Status>, code: string)
    | Resume(op: string)
    | Finalize(op: string, bindingId: string, actual: Snapshot, now: int)
    | Complete(op: string, version: nat, actual: Snapshot, now: int)
    | Read(chatId: string)
    | Crash

  const SETTLEABLE := {Prepared, Applying, Verifying, NeedsReconciliation}
  const SUSPENDABLE := {Applying, Verifying, NeedsReconciliation}

  /** The chat an operation writes to; creates have none yet. */
  function WriteTarget(db: Db, o: Operation): string {
    if o.kind == Update && o.bindingId in db.bindings then db.bindings[o.bindingId].target else ""
  }

  function BeginPatch(db: Db, o: Operation): Patch {
    Patch(WriteTarget(db, o), "", Some(false), "", None)
  }

  function ReceiptPatch(chatId: string): Patch {
    Patch(chatId, chatId, Some(true), "", None)
  }

  function UpdatePatch(op: string): Patch {
    Patch("", op, Some(true), "", None)
  }

  function DonePatch(now: int): Patch {
    Patch("", "", Some(false), "", Some(now))
  }

  function FailPatch(code: string): Patch {
    Patch("", "", Some(false), code, None)
  }

  function ReadbackPatch(code: string): Patch {
    Patch("", "", Some(true), code, None)
  }

  /** An operation with its plan. */
  predicate HasPlan(db: Db, op: string) {
    op in db.ops && db.ops[op].planId in db.plans
  }

  function PlanOf(db: Db, op: string): Plan
    requires HasPlan(db, op)
  {
    db.plans[db.ops[op].planId]
  }

  /** A recorded result of a create. */
  predicate Receipted(db: Db, chatId: string) {
    exists o ::
      o in db.ops && db.ops[o].kind == Create && db.ops[o].target == chatId == db.ops[o].receipt && chatId != ""
  }

  /** The only chats that may be read: managed ones, and recorded results of creates. */
  predicate MayRead(db: Db, chatId: string) {
    (exists b :: b in db.bindings && db.bindings[b].target == chatId) || Receipted(db, chatId)
  }

  predicate CreatePosted(w: World, op: string) {
    exists i :: 0 <= i < |w.posts| && w.posts[i].op == op && w.posts[i].target.None?
  }

  predicate VerifiedRead(db: Db, inst: Installation, op: string, actual: Snapshot, create: bool)
    requires HasPlan(db, op)
  {
    actual.ownerId == inst.account && HasOperationMarker(actual.chat, op, create)
    && MatchesPlanned(actual, PlanOf(db, op))
  }

  /** What must hold when a caller takes a step. */
  ghost predicate Enabled(inst: Installation, w: World, who: nat, a: Action) {
    var db := w.db;
    match a
    case PutSource(_) => true
    case SaveCreatePlan(c, s) => c.ownerId == inst.owner && BuildOk(s, EMPTY_CHAT)
    case SaveUpdatePlan(c, s, o, policy, actual) =>
      && c.ownerId == inst.owner && o in db.baselines && Decoded(actual)
      && db.baselines[o].bindingId in db.bindings && db.baselines[o].source in db.sources
      && actual.chatId == db.bindings[db.baselines[o].bindingId].target
      && (Applicable(UpdateStatus(c, s, db.sources[db.baselines[o].source], db.baselines[o], policy, actual)) ==>
            BuildOk(s, actual.chat))
    case Confirm(_, _) => true
    case PrepareCreate(p, _, _) => p in db.plans && Applicable(db.plans[p].status) && db.plans[p].source in db.sources
    case PrepareUpdate(p, _, _) => p in db.plans && Applicable(db.plans[p].status) && db.plans[p].bindingId != ""
    case Begin(_) => true
    case Send(op, desired) =>
      op in w.claims && w.claims[op] == who && HasPlan(db, op) && MatchesPlanned(desired, PlanOf(db, op))
    case Reply(op, id) => id != "" && CreatePosted(w, op)
    case RecordReceipt(op, id) => (op, id) in w.receipts
    case RecordUpdate(op) => op in db.ops && db.ops[op].kind == Update
    case FinishNoChange(op, _) => HasPlan(db, op) && db.ops[op].kind == Update && PlanOf(db, op).status.NoChange?
    case Fail(_, _) => true
    case Suspend(_, expected, _) => expected <= SUSPENDABLE
    case Resume(_) => true
    case Finalize(op, _, actual, _) =>
      && HasPlan(db, op) && PlanOf(db, op).source in db.sources && Decoded(actual)
      && actual.chatId == db.ops[op].target && VerifiedRead(db, inst, op, actual, true)
    case Complete(op, _, actual, _) =>
      && HasPlan(db, op) && Decoded(actual) && db.ops[op].bindingId in db.bindings
      && actual.chatId == db.bindings[db.ops[op].bindingId].target && VerifiedRead(db, inst, op, actual, false)
    case Read(id) => MayRead(db, id)
    case Crash => true
  }

  /** The write goes out, and with it the right to send it. */
  function Sent(w: World, op: string, desired: Snapshot): World
    requires op in w.db.ops
  {
    var o := w.db.ops[op];
    w.(posts := w.posts + [Post(op, if o.kind == Create then None else Some(WriteTarget(w.db, o)), desired)],
       claims := w.claims - {op})
  }

  /** The tables after a step. */
  ghost function DbAfter(inst: Installation, w: World, who: nat, a: Action): Db
    requires Enabled(inst, w, who, a)
  {
    var db := w.db;
    match a
    case PutSource(s) => Storage.PutSource(db, s)
    case SaveCreatePlan(c, s) => SavePlan(db, inst, CreatePlan(c, s)).db
    case SaveUpdatePlan(c, s, o, policy, actual) =>
      var b := db.baselines[o];
      SavePlan(db, inst, UpdatePlan(c, b.bindingId, s, db.sources[b.source], b, policy, actual)).db
    case Confirm(p, now) => ConfirmPlan(db, inst, p, now).db
    case PrepareCreate(p, op, now) =>
      Storage.PrepareCreate(db, inst, CreateRequest(inst, db.plans[p], db.sources[db.plans[p].source], op), now).db
    case PrepareUpdate(p, op, now) => PrepareBinding(db, inst, UpdateRequest(inst, db.plans[p], op), now).db
    case Begin(op) =>
      if op in db.ops then Transition(db, op, {Prepared}, Applying, BeginPatch(db, db.ops[op])).db else db
    case RecordReceipt(op, id) => Transition(db, op, {Applying}, Verifying, ReceiptPatch(id)).db
    case RecordUpdate(op) => Transition(db, op, {Applying}, Verifying, UpdatePatch(op)).db
    case FinishNoChange(op, now) => Transition(db, op, {Prepared}, Succeeded, DonePatch(now)).db
    case Fail(op, code) => Transition(db, op, SETTLEABLE, Failed, FailPatch(code)).db
    case Suspend(op, expected, code) => Transition(db, op, expected, NeedsReconciliation, ReadbackPatch(code)).db
    case Resume(op) => Transition(db, op, {NeedsReconciliation}, Verifying, ReadbackPatch("")).db
    case Finalize(op, b, actual, now) =>
      FinalizeCreate(db, inst, CreatedRecord(db.ops[op], b, db.sources[PlanOf(db, op).source], actual), now).db
    case Complete(op, version, actual, now) =>
      CompleteUpdate(db, inst, op, UpdatedBaseline(db.ops[op], PlanOf(db, op), version, actual), version, now).db
    case Crash => RecoverInterrupted(db)
    case _ => db
  }

  /** The world after a step: only the caller whose transition to applying succeeded
      holds the claim to send, and sending uses it up. */
  ghost function After(inst: Installation, w: World, who: nat, a: Action): World
    requires Enabled(inst, w, who, a)
  {
    var db := DbAfter(inst, w, who, a);
    match a
    case Begin(op) =>
      if db != w.db then w.(db := db, claims := w.claims[op := who]) else w.(db := db)
    case Send(op, desired) =>
      Sent(w, op, desired)
    case Reply(op, id) => w.(receipts := w.receipts + {(op, id)})
    case Read(id) => w.(chatsRead := w.chatsRead + {id})
    case Crash => w.(db := db, claims := map[])
    case _ => w.(db := db)
  }

  datatype Event = Event(who: nat, action: Action, world: World)

  /** A run: each event is an enabled step from the world before it. */
  ghost predicate IsRun(inst: Installation, start: World, run: seq<Event>)
    decreases |run|
  {
    run == [] ||
    (var before, last := run[..|run| - 1], run[|run| - 1];
     IsRun(inst, start, before)
     && Enabled(inst, WorldOf(start, before), last.who, last.action)
     && last.world == After(inst, WorldOf(start, before), last.who, last.action))
  }

  ghost function WorldOf(start: World, run: seq<Event>): World {
    if run == [] then start else run[|run| - 1].world
  }
}
