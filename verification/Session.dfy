/** One caller's access to the store and the target. Each call here is one step of the
    protocol, recorded in the run so far; between any two of them other callers may
    take steps of their own, or the process may crash. */
module Session {
  import opened Basics
  import opened Domain
  import opened Snapshots
  import opened Builder
  import opened Plans
  import opened Storage
  import opened Protocol
  import opened ProtocolInv
  import opened ProtocolContent
  import opened ProtocolRuns
  import opened ProtocolTheorems
  import ProtocolExchange
  import Client
  import Store

  /** The writes a caller sent in a run. */
  ghost function SentBy(run: seq<Event>, who: nat): seq<Post>
    decreases |run|
  {
    if run == [] then []
    else
      var before, last := SentBy(run[..|run| - 1], who), run[|run| - 1];
      if last.who == who && last.action.Send? && last.world.posts != [] then
        before + [last.world.posts[|last.world.posts| - 1]]
      else before
  }

  /** Only others took steps, and the process did not crash. */
  ghost predicate OthersOnly(was: seq<Event>, now: seq<Event>, me: nat) {
    was <= now && forall i :: |was| <= i < |now| ==> now[i].who != me && !now[i].action.Crash?
  }

  /** What a caller can rely on while others take steps. */
  ghost predicate Steady(w: World, w2: World, me: nat) {
    && Grows(w.db, w2.db) && w.receipts <= w2.receipts && w.chatsRead <= w2.chatsRead && w.posts <= w2.posts
    && forall op :: op in w.claims && w.claims[op] == me ==> op in w2.claims && w2.claims[op] == me
  }

  /** Steps whose only effect is on the tables. */
  predicate Plain(a: Action) {
    !a.Begin? && !a.Send? && !a.Reply? && !a.Read? && !a.Crash?
  }

  lemma Extend(inst: Installation, run: seq<Event>, who: nat, a: Action)
    requires IsRun(inst, START, run) && Enabled(inst, WorldOf(START, run), who, a)
    ensures var e := Event(who, a, After(inst, WorldOf(START, run), who, a));
      IsRun(inst, START, run + [e]) && WorldOf(START, run + [e]) == e.world
      && SentBy(run + [e], who)
        == SentBy(run, who) + (if a.Send? && e.world.posts != [] then [e.world.posts[|e.world.posts| - 1]] else [])
  {
    hide Enabled, After;
    var e := Event(who, a, After(inst, WorldOf(START, run), who, a));
    assert (run + [e])[..|run|] == run;
  }

  lemma ClaimsStay(inst: Installation, w: World, who: nat, a: Action, me: nat)
    requires Inv(inst, w) && Enabled(inst, w, who, a) && who != me && !a.Crash?
    ensures var w2 := After(inst, w, who, a);
      && w.receipts <= w2.receipts && w.chatsRead <= w2.chatsRead && w.posts <= w2.posts
      && forall op :: op in w.claims && w.claims[op] == me ==> op in w2.claims && w2.claims[op] == me
  {
    hide Inv, Decoded, BuildOk, MatchesPlanned, UpdateStatus, MayRead, DbAfter;
    var w2 := After(inst, w, who, a);
    if a.Begin? && a.op in w.claims { NotClaimed(inst, w, who, a.op); }
  }

  /** A claimed operation has left prepared, so nobody else can begin it. */
  lemma NotClaimed(inst: Installation, w: World, who: nat, op: string)
    requires Inv(inst, w) && op in w.claims
    ensures DbAfter(inst, w, who, Begin(op)) == w.db
  {
    assert ProtocolExchange.ClaimRow(w, op);
    hide Schema, Content, Tables, Transition;
    StartedStays(inst, w.db, op);
  }

  lemma StartedStays(inst: Installation, db: Db, op: string)
    requires Tables(inst, db) && op in db.ops && db.ops[op].attempts == 1
    ensures Transition(db, op, {Prepared}, Applying, BeginPatch(db, db.ops[op])).db == db
  {
    hide Tables;
    RowsOf(inst, db, op);
  }

  lemma {:induction false} OthersSteady(inst: Installation, was: seq<Event>, now: seq<Event>, me: nat)
    requires IsRun(inst, START, now) && OthersOnly(was, now, me)
    ensures IsRun(inst, START, was)
    ensures Steady(WorldOf(START, was), WorldOf(START, now), me) && SentBy(now, me) == SentBy(was, me)
    decreases |now|
  {
    hide Inv, Enabled, After, Grows;
    if |was| == |now| {
      assert was == now;
      Same(WorldOf(START, was).db);
    } else {
      var before, last := now[..|now| - 1], now[|now| - 1];
      assert was <= before && forall i :: |was| <= i < |before| ==> before[i] == now[i];
      OthersSteady(inst, was, before, me);
      RunsKeepInv(inst, before);
      StepKeepsInv(inst, WorldOf(START, before), last.who, last.action);
      ClaimsStay(inst, WorldOf(START, before), last.who, last.action, me);
      GrowsTransitive(WorldOf(START, was).db, WorldOf(START, before).db, WorldOf(START, now).db);
    }
  }

  lemma BeginStep(inst: Installation, w: World, me: nat, op: string)
    requires op in w.db.ops
    ensures var t := Transition(w.db, op, {Prepared}, Applying, BeginPatch(w.db, w.db.ops[op]));
      && Enabled(inst, w, me, Begin(op))
      && After(inst, w, me, Begin(op))
        == w.(db := t.db, claims := if t.result.Ok? then w.claims[op := me] else w.claims)
      && (t.result.Ok? ==> t.db.ops[op] == t.result.value)
  {
    BeginChanges(w.db, op);
    hide Transition;
  }

  lemma BeginChanges(db: Db, op: string)
    requires op in db.ops
    ensures var t := Transition(db, op, {Prepared}, Applying, BeginPatch(db, db.ops[op]));
      && (t.result.Ok? <==> t.db != db) && (t.result.Ok? ==> op in t.db.ops && t.db.ops[op] == t.result.value)
  {
    var t := Transition(db, op, {Prepared}, Applying, BeginPatch(db, db.ops[op]));
    if t.result.Ok? { assert t.db.ops[op].attempts == db.ops[op].attempts + 1; }
  }

  lemma SendStep(inst: Installation, w: World, me: nat, op: string, desired: Snapshot)
    requires op in w.claims && w.claims[op] == me && HasPlan(w.db, op) && MatchesPlanned(desired, PlanOf(w.db, op))
    ensures Enabled(inst, w, me, Send(op, desired)) && After(inst, w, me, Send(op, desired)) == Sent(w, op, desired)
  {
    hide MatchesPlanned;
  }

  lemma ReplyStep(inst: Installation, w: World, me: nat, op: string, id: string)
    requires id != "" && CreatePosted(w, op)
    ensures Enabled(inst, w, me, Reply(op, id))
    ensures After(inst, w, me, Reply(op, id)) == w.(receipts := w.receipts + {(op, id)})
  {
    hide CreatePosted;
  }

  lemma ReadStep(inst: Installation, w: World, me: nat, id: string)
    requires MayRead(w.db, id)
    ensures Enabled(inst, w, me, Action.Read(id))
    ensures After(inst, w, me, Action.Read(id)) == w.(chatsRead := w.chatsRead + {id})
  {
    hide MayRead;
  }

  class Session {
    const inst: Installation
    ghost const me: nat
    const store: Store.Connection
    const client: Client.Connection
    ghost var history: seq<Event>
    ghost var calm: bool

    ghost function Here(): World
      reads this
    {
      WorldOf(START, history)
    }

    /** The store is where the run so far led, this caller's writes in the run are
        exactly those its client sent, and its reads are recorded. */
    ghost predicate Valid()
      reads this, store, client
    {
      && store.inst == inst && client.account == inst.account
      && IsRun(inst, START, history) && store.db == Here().db
      && client.posted == SentBy(history, me)
      && (forall id :: id in client.asked ==> id in Here().chatsRead)
    }

    /** A new caller joins a run. */
    constructor (store: Store.Connection, client: Client.Connection, ghost me: nat, ghost run: seq<Event>)
      requires client.account == store.inst.account && client.posted == [] && client.asked == []
      requires IsRun(store.inst, START, run) && store.db == WorldOf(START, run).db && SentBy(run, me) == []
      ensures Valid() && history == run && this.store == store && this.client == client && this.me == me
      ensures inst == store.inst && calm
    {
      this.inst, this.store, this.client := store.inst, store, client;
      this.me, this.history, this.calm := me, run, true;
    }

    lemma Facts()
      requires Valid()
      ensures Schema(store.db) && Tables(inst, store.db) && Content(store.db) && ProtocolExchange.Exchange(Here())
    {
      hide Schema, Tables, Content, ProtocolExchange.Exchange, IsRun;
      RunsKeepInv(inst, history);
    }

    /** Nothing stored at an earlier point of the run was lost since. */
    lemma GrownSince(was: seq<Event>)
      requires Valid() && was <= history
      ensures IsRun(inst, START, was) && Grows(WorldOf(START, was).db, store.db)
    {
      hide IsRun, Grows, SentBy;
      assert history[..|was|] == was;
      RunsOnlyGrow(inst, history, |was|);
    }

    /** Appends a step whose effect on the store and the client has just happened. */
    ghost method Record(a: Action)
      requires store.inst == inst && client.account == inst.account
      requires IsRun(inst, START, history) && Enabled(inst, Here(), me, a)
      requires var w := After(inst, Here(), me, a);
        && store.db == w.db && (forall id :: id in client.asked ==> id in w.chatsRead)
        && client.posted == SentBy(history, me) + (if a.Send? && w.posts != [] then [w.posts[|w.posts| - 1]] else [])
      modifies this`history
      ensures Valid() && Here() == After(inst, old(Here()), me, a) && old(history) <= history
      ensures Grows(old(Here()).db, store.db)
    {
      hide IsRun, Enabled, After, Inv, Grows, SentBy;
      RunsKeepInv(inst, history);
      StepKeepsInv(inst, Here(), me, a);
      Extend(inst, history, me, a);
      history := history + [Event(me, a, After(inst, Here(), me, a))];
    }

    /** Time passes: other callers may take any steps, or the process may crash. The
        body is one that lets nothing happen; callers rely on the contract only. */
    method Pause() returns (crashed: bool)
      requires Valid()
      modifies this`history, this`calm, store
      ensures Valid() && old(history) <= history && (!crashed ==> OthersOnly(old(history), history, me))
      ensures calm ==> old(calm) && !crashed && history == old(history)
    {
      crashed := false;
    }

    /** A pause this caller survives leaves everything it relies on in place. */
    method Elapse() returns (crashed: bool)
      requires Valid()
      modifies this`history, this`calm, store
      ensures Valid() && old(history) <= history
      ensures (!crashed ==> Steady(old(Here()), Here(), me) && Grows(old(store.db), store.db))
      ensures calm ==> old(calm) && !crashed && store.db == old(store.db) && Here() == old(Here())
    {
      hide IsRun, Grows, SentBy;
      ghost var was := history;
      crashed := Pause();
      if !crashed { OthersSteady(inst, was, history, me); }
    }

    // ----- status changes -----

    method Begin(op: string, target: string) returns (r: Result<Operation, Error>)
      requires Valid() && op in store.db.ops && target == WriteTarget(store.db, store.db.ops[op])
      modifies store, this`history
      ensures Valid() && old(history) <= history && Grows(old(store.db), store.db)
      ensures Outcome(store.db, r)
                == Transition(old(store.db), op, {Prepared}, Applying, BeginPatch(old(store.db), old(store.db).ops[op]))
      ensures r.Ok? ==> op in Here().claims && Here().claims[op] == me && r.value == store.db.ops[op]
    {
      hide IsRun, Grows, SentBy, Schema, Tables, Content, ProtocolExchange.Exchange, Enabled, DbAfter, After,
        Transition;
      Facts();
      BeginStep(inst, Here(), me, op);
      r := store.TransitionOperation(op, {Prepared}, Applying, Patch(target, "", Some(false), "", None));
      Record(Action.Begin(op));
    }

    method Move(op: string, expected: set<Status>, next: Status, patch: Patch, ghost a: Action)
      returns (r: Result<Operation, Error>)
      requires Valid() && Enabled(inst, Here(), me, a) && Plain(a)
      requires DbAfter(inst, Here(), me, a) == Transition(store.db, op, expected, next, patch).db
      modifies store, this`history
      ensures Valid() && old(history) <= history && Grows(old(store.db), store.db)
      ensures Outcome(store.db, r) == Transition(old(store.db), op, expected, next, patch)
      ensures Here() == old(Here()).(db := store.db)
    {
      hide IsRun, Grows, SentBy, Schema, Tables, Content, ProtocolExchange.Exchange, Enabled, DbAfter, Transition;
      Facts();
      r := store.TransitionOperation(op, expected, next, patch);
      Record(a);
    }

    method RecordReceipt(op: string, chatId: string) returns (r: Result<Operation, Error>)
      requires Valid() && (op, chatId) in Here().receipts
      modifies store, this`history
      ensures Valid() && old(history) <= history && Grows(old(store.db), store.db)
      ensures Here() == old(Here()).(db := store.db)
      ensures Outcome(store.db, r) == Transition(old(store.db), op, {Applying}, Verifying, ReceiptPatch(chatId))
    {
      hide IsRun, Grows, SentBy, Transition;
      r := Move(op, {Applying}, Verifying, ReceiptPatch(chatId), Action.RecordReceipt(op, chatId));
    }

    method RecordUpdate(op: string) returns (r: Result<Operation, Error>)
      requires Valid() && op in store.db.ops && store.db.ops[op].kind == Update
      modifies store, this`history
      ensures Valid() && old(history) <= history && Grows(old(store.db), store.db)
      ensures Here() == old(Here()).(db := store.db)
      ensures Outcome(store.db, r) == Transition(old(store.db), op, {Applying}, Verifying, UpdatePatch(op))
    {
      hide IsRun, Grows, SentBy, Transition;
      r := Move(op, {Applying}, Verifying, UpdatePatch(op), Action.RecordUpdate(op));
    }

    method FinishNoChange(op: string, now: int) returns (r: Result<Operation, Error>)
      requires Valid() && HasPlan(store.db, op) && store.db.ops[op].kind == Update
      requires PlanOf(store.db, op).status.NoChange?
      modifies store, this`history
      ensures Valid() && old(history) <= history && Grows(old(store.db), store.db)
      ensures Here() == old(Here()).(db := store.db)
      ensures Outcome(store.db, r) == Transition(old(store.db), op, {Prepared}, Succeeded, DonePatch(now))
    {
      hide IsRun, Grows, SentBy, Transition;
      r := Move(op, {Prepared}, Succeeded, DonePatch(now), Action.FinishNoChange(op, now));
    }

    method Fail(op: string, code: string) returns (r: Result<Operation, Error>)
      requires Valid()
      modifies store, this`history
      ensures Valid() && old(history) <= history && Grows(old(store.db), store.db)
      ensures Here() == old(Here()).(db := store.db)
      ensures Outcome(store.db, r) == Transition(old(store.db), op, SETTLEABLE, Failed, FailPatch(code))
    {
      hide IsRun, Grows, SentBy, Transition;
      r := Move(op, SETTLEABLE, Failed, FailPatch(code), Action.Fail(op, code));
    }

    method Suspend(op: string, expected: set<Status>, code: string) returns (r: Result<Operation, Error>)
      requires Valid() && expected <= SUSPENDABLE
      modifies store, this`history
      ensures Valid() && old(history) <= history && Grows(old(store.db), store.db)
      ensures Here() == old(Here()).(db := store.db)
      ensures Outcome(store.db, r) == Transition(old(store.db), op, expected, NeedsReconciliation, ReadbackPatch(code))
    {
      hide IsRun, Grows, SentBy, Transition;
      r := Move(op, expected, NeedsReconciliation, ReadbackPatch(code), Action.Suspend(op, expected, code));
    }

    method Resume(op: string) returns (r: Result<Operation, Error>)
      requires Valid()
      modifies store, this`history
      ensures Valid() && old(history) <= history && Grows(old(store.db), store.db)
      ensures Here() == old(Here()).(db := store.db)
      ensures Outcome(store.db, r) == Transition(old(store.db), op, {NeedsReconciliation}, Verifying, ReadbackPatch(""))
    {
      hide IsRun, Grows, SentBy, Transition;
      r := Move(op, {NeedsReconciliation}, Verifying, ReadbackPatch(""), Action.Resume(op));
    }

    // ----- exchanges with the target -----

    method SendCreate(op: string, desired: Snapshot) returns (r: Result<Snapshot, Client.WriteFault>)
      requires Valid() && op in Here().claims && Here().claims[op] == me && HasPlan(store.db, op)
      requires store.db.ops[op].kind == Create
      requires MatchesPlanned(desired, PlanOf(store.db, op))
      modifies client, this`history
      ensures Valid() && old(history) <= history && client.asked == old(client.asked)
      ensures client.posted == if Blank(op) then old(client.posted) else old(client.posted) + [Post(op, None, desired)]
      ensures Here() == if Blank(op) then old(Here()) else Sent(old(Here()), op, desired)
      ensures r ==
        if Blank(op) then Err(Client.Refused)
        else Client.WriteOutcome(old(client.Coming(0)), inst.account, op, true, "")
      ensures !Blank(op) ==> forall k: nat :: client.Coming(k) == old(client.Coming(k + 1))
    {
      hide IsRun, Grows, SentBy, MatchesPlanned, Enabled, After, Client.WriteOutcome, Blank;
      SendStep(inst, Here(), me, op, desired);
      r := client.Create(op, desired);
      if !Blank(op) { Record(Action.Send(op, desired)); }
    }

    method SendUpdate(id: string, op: string, desired: Snapshot) returns (r: Result<Snapshot, Client.WriteFault>)
      requires Valid() && op in Here().claims && Here().claims[op] == me && HasPlan(store.db, op)
      requires store.db.ops[op].kind != Create
      requires MatchesPlanned(desired, PlanOf(store.db, op)) && id == WriteTarget(store.db, store.db.ops[op])
      modifies client, this`history
      ensures Valid() && old(history) <= history && client.asked == old(client.asked)
      ensures client.posted ==
        if !Client.PathOk(id) || Blank(op) then old(client.posted)
        else old(client.posted) + [Post(op, Some(id), desired)]
      ensures Here() == if !Client.PathOk(id) || Blank(op) then old(Here()) else Sent(old(Here()), op, desired)
      ensures r ==
        if !Client.PathOk(id) || Blank(op) then Err(Client.Refused)
        else Client.WriteOutcome(old(client.Coming(0)), inst.account, op, false, id)
      ensures Client.PathOk(id) && !Blank(op) ==> forall k: nat :: client.Coming(k) == old(client.Coming(k + 1))
    {
      hide IsRun, Grows, SentBy, MatchesPlanned, Enabled, After, Client.WriteOutcome, Blank, Client.PathOk;
      SendStep(inst, Here(), me, op, desired);
      r := client.Update(id, op, desired);
      if Client.PathOk(id) && !Blank(op) { Record(Action.Send(op, desired)); }
    }

    /** The reply to a create names its chat. */
    ghost method NoteReply(op: string, chatId: string)
      requires Valid() && chatId != "" && CreatePosted(Here(), op)
      modifies this`history
      ensures Valid() && old(history) <= history
      ensures Here() == old(Here()).(receipts := old(Here()).receipts + {(op, chatId)})
    {
      hide IsRun, Grows, SentBy, Enabled, After, CreatePosted;
      ReplyStep(inst, Here(), me, op, chatId);
      Record(Action.Reply(op, chatId));
    }

    method Read(id: string) returns (r: Option<Snapshot>)
      requires Valid() && MayRead(store.db, id)
      modifies client, this`history
      ensures Valid() && old(history) <= history && client.posted == old(client.posted)
      ensures client.asked == if Client.PathOk(id) then old(client.asked) + [id] else old(client.asked)
      ensures Here() ==
        if Client.PathOk(id) then old(Here()).(chatsRead := old(Here()).chatsRead + {id}) else old(Here())
      ensures r == if Client.PathOk(id) then Client.ReadOutcome(old(client.Coming(0)), inst.account, id) else None
      ensures Client.PathOk(id) ==> forall k: nat :: client.Coming(k) == old(client.Coming(k + 1))
    {
      hide IsRun, Grows, SentBy, MayRead, Enabled, After, Client.ReadOutcome, Client.PathOk;
      ReadStep(inst, Here(), me, id);
      r := client.Read(id);
      if Client.PathOk(id) { Record(Action.Read(id)); }
    }

    /** Checks the live identity against the installation; nothing managed is touched. */
    method VerifyDownstream() returns (ok: bool)
      requires Valid()
      modifies client
      ensures Valid() && client.posted == old(client.posted) && client.asked == old(client.asked)
      ensures client.wire == old(client.wire)
      ensures ok <==> old(client.identities) != [] && old(client.identities)[0]
    {
      hide IsRun, SentBy;
      ok := client.VerifyIdentity();
    }

    // ----- the other transactions -----

    method PutSource(s: SourceSnapshot)
      requires Valid()
      modifies store, this`history
      ensures Valid() && old(history) <= history && Grows(old(store.db), store.db)
      ensures Here() == old(Here()).(db := store.db)
      ensures store.db == Storage.PutSource(old(store.db), s)
    {
      hide IsRun, Grows, SentBy, Schema, Tables, Content, ProtocolExchange.Exchange, Storage.PutSource;
      Facts();
      store.PutSourceSnapshot(s);
      Record(Action.PutSource(s));
    }

    method SavePlan(p: Plan, ghost a: Action) returns (r: Result<(), Error>)
      requires Valid() && Enabled(inst, Here(), me, a) && Plain(a)
      requires DbAfter(inst, Here(), me, a) == Storage.SavePlan(store.db, inst, p).db
      modifies store, this`history
      ensures Valid() && old(history) <= history && Grows(old(store.db), store.db)
      ensures Here() == old(Here()).(db := store.db)
      ensures Outcome(store.db, r) == Storage.SavePlan(old(store.db), inst, p)
    {
      hide IsRun, Grows, SentBy, Schema, Tables, Content, ProtocolExchange.Exchange, Enabled, DbAfter, Storage.SavePlan;
      Facts();
      r := store.SavePlan(p);
      Record(a);
    }

    method ConfirmPlan(id: string, now: int) returns (r: Result<Plan, Error>)
      requires Valid()
      modifies store, this`history
      ensures Valid() && old(history) <= history && Grows(old(store.db), store.db)
      ensures Here() == old(Here()).(db := store.db)
      ensures Outcome(store.db, r) == Storage.ConfirmPlan(old(store.db), inst, id, now)
    {
      hide IsRun, Grows, SentBy, Schema, Tables, Content, ProtocolExchange.Exchange, Storage.ConfirmPlan;
      Facts();
      r := store.ConfirmPlan(id, now);
      Record(Action.Confirm(id, now));
    }

    method PrepareCreate(q: Request, now: int, ghost a: Action) returns (r: Result<(Operation, bool), Error>)
      requires Valid() && Enabled(inst, Here(), me, a) && Plain(a)
      requires DbAfter(inst, Here(), me, a) == Storage.PrepareCreate(store.db, inst, q, now).db
      modifies store, this`history
      ensures Valid() && old(history) <= history && Grows(old(store.db), store.db)
      ensures Here() == old(Here()).(db := store.db)
      ensures Outcome(store.db, r) == Storage.PrepareCreate(old(store.db), inst, q, now)
    {
      hide IsRun, Grows, SentBy, Schema, Tables, Content, ProtocolExchange.Exchange, Enabled, DbAfter,
        Storage.PrepareCreate;
      Facts();
      r := store.PrepareCreate(q, now);
      Record(a);
    }

    method PrepareUpdate(q: Request, now: int, ghost a: Action) returns (r: Result<(Operation, bool), Error>)
      requires Valid() && Enabled(inst, Here(), me, a) && Plain(a)
      requires DbAfter(inst, Here(), me, a) == PrepareBinding(store.db, inst, q, now).db
      modifies store, this`history
      ensures Valid() && old(history) <= history && Grows(old(store.db), store.db)
      ensures Here() == old(Here()).(db := store.db)
      ensures Outcome(store.db, r) == PrepareBinding(old(store.db), inst, q, now)
    {
      hide IsRun, Grows, SentBy, Schema, Tables, Content, ProtocolExchange.Exchange, Enabled, DbAfter, PrepareBinding;
      Facts();
      r := store.PrepareBindingOperation(q, now);
      Record(a);
    }

    method Finalize(v: VerifiedCreate, now: int, ghost a: Action) returns (r: Result<Binding, Error>)
      requires Valid() && Enabled(inst, Here(), me, a) && Plain(a)
      requires DbAfter(inst, Here(), me, a) == FinalizeCreate(store.db, inst, v, now).db
      modifies store, this`history
      ensures Valid() && old(history) <= history && Grows(old(store.db), store.db)
      ensures Here() == old(Here()).(db := store.db)
      ensures Outcome(store.db, r) == FinalizeCreate(old(store.db), inst, v, now)
    {
      hide IsRun, Grows, SentBy, Schema, Tables, Content, ProtocolExchange.Exchange, Enabled, DbAfter, FinalizeCreate;
      Facts();
      r := store.FinalizeVerifiedCreate(v, now);
      Record(a);
    }

    method Complete(id: string, verified: Baseline, version: nat, now: int, ghost a: Action)
      returns (r: Result<(), Error>)
      requires Valid() && Enabled(inst, Here(), me, a) && Plain(a)
      requires DbAfter(inst, Here(), me, a) == CompleteUpdate(store.db, inst, id, verified, version, now).db
      modifies store, this`history
      ensures Valid() && old(history) <= history && Grows(old(store.db), store.db)
      ensures Here() == old(Here()).(db := store.db)
      ensures Outcome(store.db, r) == CompleteUpdate(old(store.db), inst, id, verified, version, now)
    {
      hide IsRun, Grows, SentBy, Schema, Tables, Content, ProtocolExchange.Exchange, Enabled, DbAfter, CompleteUpdate;
      Facts();
      r := store.CompleteVerifiedUpdate(id, verified, version, now);
      Record(a);
    }

    method GetBindingState(id: string) returns (r: Result<BindingState, Error>)
      requires Valid()
      ensures r == Storage.GetBindingState(store.db, inst, id)
    {
      hide IsRun, SentBy, Schema, Tables, Content, ProtocolExchange.Exchange, Storage.GetBindingState;
      Facts();
      r := store.GetBindingState(id);
    }

    method FindByKey(key: Key) returns (r: Option<Operation>)
      requires Valid()
      ensures r.Some? <==> HasKey(store.db, key)
      ensures r.Some? ==> r.value == store.db.ops[ByKey(store.db, key)]
    {
      hide IsRun, SentBy, Schema, Tables, Content, ProtocolExchange.Exchange;
      Facts();
      r := store.FindByKey(key);
    }
  }
}
