/** Concrete runs: a write that follows a failure, and a create that can never be
    installed because its chat was already named for another. */
module ExampleRuns {
  import opened Basics
  import opened Domain
  import opened ChatGraph
  import opened Snapshots
  import opened Builder
  import opened Plans
  import opened Storage
  import opened Protocol
  import opened ProtocolInv
  import opened ProtocolContent
  import opened ProtocolExchange
  import opened ProtocolRecovery
  import opened ProtocolTheorems
  import opened Examples
  import opened Failures
  import Session
  import ServiceFacts

  // ----- taking steps -----

  lemma Take(inst: Installation, run: seq<Event>, who: nat, a: Action, w2: World) returns (next: seq<Event>)
    requires IsRun(inst, START, run) && Enabled(inst, WorldOf(START, run), who, a)
    requires After(inst, WorldOf(START, run), who, a) == w2
    ensures IsRun(inst, START, next) && WorldOf(START, next) == w2
  {
    hide IsRun, Enabled, After;
    Session.Extend(inst, run, who, a);
    next := run + [Event(who, a, w2)];
  }

  /** A step that changes the tables only. */
  lemma TakePlain(inst: Installation, run: seq<Event>, a: Action, db2: Db) returns (next: seq<Event>)
    requires IsRun(inst, START, run) && Enabled(inst, WorldOf(START, run), 1, a) && Session.Plain(a)
    requires DbAfter(inst, WorldOf(START, run), 1, a) == db2
    ensures IsRun(inst, START, next) && WorldOf(START, next) == WorldOf(START, run).(db := db2)
  {
    hide IsRun, Enabled, DbAfter;
    next := Take(inst, run, 1, a, WorldOf(START, run).(db := db2));
  }

  lemma PutStep(inst: Installation, w: World, s: SourceSnapshot)
    ensures Enabled(inst, w, 1, Action.PutSource(s))
    ensures DbAfter(inst, w, 1, Action.PutSource(s)) == Storage.PutSource(w.db, s)
  {
    hide Storage.PutSource;
  }

  lemma ConfirmStep(inst: Installation, w: World, p: string)
    ensures Enabled(inst, w, 1, Confirm(p, 0)) && DbAfter(inst, w, 1, Confirm(p, 0)) == ConfirmPlan(w.db, inst, p, 0).db
  {
    hide ConfirmPlan;
  }

  lemma ReceiptStep(inst: Installation, w: World, op: string, id: string)
    requires (op, id) in w.receipts
    ensures Enabled(inst, w, 1, RecordReceipt(op, id))
    ensures DbAfter(inst, w, 1, RecordReceipt(op, id))
              == Transition(w.db, op, {Applying}, Verifying, ReceiptPatch(id)).db
  {
    hide Transition;
  }

  // ----- requesting a create -----

  /** A plan for creating `s`, before and after its confirmation at time 0. */
  predicate PlanFor(inst: Installation, s: SourceSnapshot, p: Plan, t: string) {
    && p.id == t && p.ownerId == inst.owner && p.status.Ready? && p.bindingId == "" && p.version == 0 && p.source == s
    && p.previous.None? && p.expiresAt == 1 && p.confirmationRequired && p.confirmedAt.None? && s.Business() == s
  }

  function Confirmed(p: Plan): Plan {
    p.(confirmedAt := Some(0))
  }

  function Row(s: SourceSnapshot, p: Plan, t: string): Operation {
    NewOperation(t, CreateKeyFor(s), Create, "", CreateLock(Alias(s)), t, PayloadFor(Confirmed(p)))
  }

  function Sending(s: SourceSnapshot, p: Plan, t: string): Operation {
    Row(s, p, t).(status := Applying, attempts := 1)
  }

  function Answered(s: SourceSnapshot, p: Plan, t: string): Operation {
    Sending(s, p, t).(status := Verifying, target := "chat", receipt := "chat", needsReadback := true)
  }

  /** Neither the source nor anything by the name `t` is known. */
  predicate Unheard(db: Db, s: SourceSnapshot, t: string) {
    && s !in db.sources && t !in db.plans && t !in db.ops && t !in db.intents
    && !HasKey(db, CreateKeyFor(s)) && !Claimed(db, Alias(s)) && !Locked(db, CreateLock(Alias(s)))
  }

  function WithPlan(db: Db, s: SourceSnapshot, p: Plan, t: string): Db {
    db.(sources := db.sources[s := s], plans := db.plans[t := Confirmed(p)])
  }

  function WithRow(db: Db, s: SourceSnapshot, p: Plan, t: string, row: Operation): Db {
    WithPlan(db, s, p, t).(ops := db.ops[t := row], intents := db.intents[t := Intent(s, Alias(s))])
  }

  lemma PlanStored(inst: Installation, db: Db, s: SourceSnapshot, p: Plan, t: string)
    requires t != "" && Unheard(db, s, t) && PlanFor(inst, s, p, t)
    ensures Storage.PutSource(db, s) == db.(sources := db.sources[s := s])
    ensures ConfirmPlan(SavePlan(Storage.PutSource(db, s), inst, p).db, inst, t, 0).db == WithPlan(db, s, p, t)
  {
    hide HasKey, Claimed, Locked;
    assert p.(ownerId := inst.owner, confirmedAt := None) == p;
    assert db.plans[t := p][t := Confirmed(p)] == db.plans[t := Confirmed(p)];
  }

  lemma PlanARun(inst: Installation, run: seq<Event>, s: SourceSnapshot, t: string) returns (next: seq<Event>, p: Plan)
    requires IsRun(inst, START, run) && t != "" && Unheard(WorldOf(START, run).db, s, t)
    requires BuildOk(s, EMPTY_CHAT) && s.Business() == s && !s.coverage.partial
    ensures PlanFor(inst, s, p, t) && p == CreatePlan(Context(t, inst.owner, 0, 1, false), s)
    ensures IsRun(inst, START, next)
    ensures WorldOf(START, next) == WorldOf(START, run).(db := WithPlan(WorldOf(START, run).db, s, p, t))
  {
    hide IsRun, Enabled, DbAfter, Unheard, WithPlan, SavePlan, ConfirmPlan, Storage.PutSource, BuildOk, Built;
    var w, c := WorldOf(START, run), Context(t, inst.owner, 0, 1, false);
    p := CreatePlan(c, s);
    assert PlanFor(inst, s, p, t);
    hide CreatePlan, PlanFor;
    PlanStored(inst, w.db, s, p, t);
    var db1 := Storage.PutSource(w.db, s);
    var db2 := SavePlan(db1, inst, p).db;
    PutStep(inst, w, s);
    next := TakePlain(inst, run, Action.PutSource(s), db1);
    ServiceFacts.SaveCreateStep(inst, w.(db := db1), 1, c, s);
    next := TakePlain(inst, next, SaveCreatePlan(c, s), db2);
    ConfirmStep(inst, w.(db := db2), t);
    next := TakePlain(inst, next, Confirm(t, 0), ConfirmPlan(db2, inst, t, 0).db);
  }

  lemma Prepares(inst: Installation, db: Db, s: SourceSnapshot, p: Plan, t: string)
    requires !Blank(t) && inst.owner != "" && Unheard(db, s, t) && PlanFor(inst, s, p, t) && Aliasable(s)
    ensures var q := CreateRequest(inst, Confirmed(p), s, t);
      Storage.PrepareCreate(WithPlan(db, s, p, t), inst, q, 0).db == WithRow(db, s, p, t, Row(s, p, t))
  {
    hide PayloadFor, CreateKeyFor, Alias, Aliasable;
    var db1, q := WithPlan(db, s, p, t), CreateRequest(inst, Confirmed(p), s, t);
    assert !HasKey(db1, q.key);
    assert !Claimed(db1, Alias(s));
    assert !Locked(db1, CreateLock(Alias(s)));
    assert Executable(Confirmed(p), 0).None?;
    assert CreateFault(db1, q, 0).None?;
  }

  lemma Begins(db: Db, s: SourceSnapshot, p: Plan, t: string)
    ensures var db1 := WithRow(db, s, p, t, Row(s, p, t));
      Transition(db1, t, {Prepared}, Applying, BeginPatch(db1, db1.ops[t]))
        == Outcome(WithRow(db, s, p, t, Sending(s, p, t)), Ok(Sending(s, p, t)))
  {
    hide PayloadFor;
    assert db.ops[t := Row(s, p, t)][t := Sending(s, p, t)] == db.ops[t := Sending(s, p, t)];
  }

  lemma PlanIsKnown(inst: Installation, db: Db, s: SourceSnapshot, p: Plan, t: string)
    requires PlanFor(inst, s, p, t)
    ensures ServiceFacts.KnowsPlan(WithPlan(db, s, p, t), Confirmed(p)) && Applicable(Confirmed(p).status)
    ensures ServiceFacts.KnowsSource(WithPlan(db, s, p, t), Confirmed(p).source, s) && Confirmed(p).source == s
    ensures Confirmed(p).id == t
  {
  }

  /** Caller 1 plans a create, confirms it and starts it. */
  lemma Start(inst: Installation, run: seq<Event>, s: SourceSnapshot, t: string) returns (next: seq<Event>, p: Plan)
    requires IsRun(inst, START, run) && inst.owner != "" && !Blank(t) && Unheard(WorldOf(START, run).db, s, t)
    requires BuildOk(s, EMPTY_CHAT) && s.Business() == s && !s.coverage.partial && Aliasable(s)
    ensures PlanFor(inst, s, p, t) && p == CreatePlan(Context(t, inst.owner, 0, 1, false), s)
    ensures IsRun(inst, START, next)
    ensures var w := WorldOf(START, run);
      WorldOf(START, next) == w.(db := WithRow(w.db, s, p, t, Sending(s, p, t)), claims := w.claims[t := 1])
  {
    hide IsRun, Enabled, DbAfter, After, Unheard, Storage.PrepareCreate, Transition, WithPlan, PlanFor, CreatePlan,
      ServiceFacts.KnowsPlan, ServiceFacts.KnowsSource, BuildOk, Aliasable, PayloadFor, Alias, CreateKeyFor;
    var w := WorldOf(START, run);
    next, p := PlanARun(inst, run, s, t);
    Prepares(inst, w.db, s, p, t);
    PlanIsKnown(inst, w.db, s, p, t);
    ServiceFacts.PrepareCreateStep(inst, w.(db := WithPlan(w.db, s, p, t)), 1, Confirmed(p), s, t, 0);
    next := TakePlain(inst, next, Action.PrepareCreate(t, t, 0), WithRow(w.db, s, p, t, Row(s, p, t)));
    Begins(w.db, s, p, t);
    Session.BeginStep(inst, WorldOf(START, next), 1, t);
    next := Take(inst, next, 1, Begin(t),
                 w.(db := WithRow(w.db, s, p, t, Sending(s, p, t)), claims := w.claims[t := 1]));
  }

  // ----- a write after a failure -----

  lemma NothingHeard(inst: Installation, s: SourceSnapshot, t: string)
    ensures IsRun(inst, START, []) && WorldOf(START, []) == START && Unheard(START.db, s, t)
  {
  }

  lemma TalkIsRequestable(t: string)
    requires t != "" && !Blank(t)
    ensures var s := Talk(t, "Greeting");
      BuildOk(s, EMPTY_CHAT) && s.Business() == s && !s.coverage.partial && Aliasable(s)
  {
    TalkIsUsable(t, "Greeting");
    hide SourceOk, BuildOk, Blank;
    assert !Blank(SOURCE_TYPE) by { NotBlank(SOURCE_TYPE, 0); }
  }

  lemma NotBlank(s: string, i: nat)
    requires i < |s| && s[i] !in " \t\n\r"
    ensures !Blank(s)
  {
    assert s[i] in s;
  }

  lemma Names()
    ensures "one" != "" && !Blank("one") && "two" != "" && !Blank("two") && "one" != "two"
  {
    assert "one"[0] == 'o' && "two"[0] == 't';
    assert 'o' in "one" && 't' in "two";
  }

  /** Caller 1 starts a create; caller 2, which had found it prepared with a plan that has
      expired since, marks it failed; and caller 1 sends its write: a failed operation
      whose chat may well come into being. */
  lemma {:induction false} FailedThenSent(inst: Installation) returns (run: seq<Event>, fail: Event, send: Event)
    requires inst.owner != ""
    ensures IsRun(inst, START, run + [fail] + [send])
    ensures fail.who == 2 && fail.action == Fail("one", "stale_prepared_operation")
    ensures send.who == 1 && send.action.Send?
    ensures HasFailed(fail.world.db, "one") && !Posted(fail.world, "one")
    ensures HasFailed(send.world.db, "one") && Posted(send.world, "one")
  {
    hide IsRun, Unheard, Blank, HasFailed, Posted, Talk, BuildOk, Aliasable, CreatePlan, PlanFor, PayloadFor;
    Names();
    NothingHeard(inst, Talk("one", "Greeting"), "one");
    TalkIsRequestable("one");
    var p: Plan;
    run, p := Start(inst, [], Talk("one", "Greeting"), "one");
    fail, send := FailThenSend(inst, run, "one", 2, "stale_prepared_operation");
  }

  // ----- a chat named twice -----

  lemma Receives(db: Db, s: SourceSnapshot, p: Plan, t: string)
    requires t in db.ops && db.ops[t] == Sending(s, p, t)
    ensures Transition(db, t, {Applying}, Verifying, ReceiptPatch("chat")).db
              == db.(ops := db.ops[t := Answered(s, p, t)])
  {
    hide PayloadFor, CreateKeyFor, Alias;
  }

  /** Caller 1 sends its create, is answered with the id "chat" and records it. */
  lemma Answer(inst: Installation, run: seq<Event>, s: SourceSnapshot, p: Plan, t: string) returns (next: seq<Event>)
    requires IsRun(inst, START, run) && t in WorldOf(START, run).db.ops
    requires WorldOf(START, run).db.ops[t] == Sending(s, p, t)
    requires t in WorldOf(START, run).claims && WorldOf(START, run).claims[t] == 1
    ensures IsRun(inst, START, next)
    ensures var db := WorldOf(START, run).db; WorldOf(START, next).db == db.(ops := db.ops[t := Answered(s, p, t)])
  {
    hide IsRun, Enabled, DbAfter, After, Transition, PayloadFor, CreateKeyFor, Alias, Posted, CreatePosted,
      PlannedSnapshot;
    var w := WorldOf(START, run);
    var sent := SendNow(inst, run, t);
    var posted := sent.world;
    ServiceFacts.NowPosted(w, t, PlannedSnapshot(PlanOf(w.db, t)));
    Session.ReplyStep(inst, posted, 1, t, "chat");
    var replied := posted.(receipts := posted.receipts + {(t, "chat")});
    next := Take(inst, run + [sent], 1, Reply(t, "chat"), replied);
    Receives(w.db, s, p, t);
    ReceiptStep(inst, replied, t, "chat");
    next := TakePlain(inst, next, RecordReceipt(t, "chat"), w.db.(ops := w.db.ops[t := Answered(s, p, t)]));
  }

  /** A read of "chat" that shows a document. */
  ghost function ReadOf(inst: Installation, chat: Chat): Snapshot
    requires ValidChat(chat)
  {
    var n, e := Normalized(chat), Envelope("chat", inst.account, false, false, "", map[], map[]);
    Snapshot("chat", inst.account, false, false, "", 0, n, chat, Some(e),
             HashRelevant(chat, n, Some(e), inst.account, false, false, ""))
  }

  lemma ReadIsDecoded(inst: Installation, chat: Chat)
    requires ValidChat(chat) && inst.account != ""
    ensures var actual := ReadOf(inst, chat);
      Decoded(actual) && actual.chatId == "chat" && actual.ownerId == inst.account && actual.chat == chat
  {
    hide ValidChat, Normalized;
  }

  lemma ReadMatches(inst: Installation, chat: Chat, p: Plan)
    requires ValidChat(chat) && Comparable(chat, p.desired.chat) == Comparable(p.desired.chat, p.desired.chat)
    requires p.desired.envelope.None? && !p.desired.archived && !p.desired.pinned && p.desired.folder == ""
    ensures MatchesPlanned(ReadOf(inst, chat), Confirmed(p))
  {
    hide ValidChat, Normalized, Comparable;
  }

  lemma DesiredCreate(c: Context, s: SourceSnapshot)
    requires BuildOk(s, EMPTY_CHAT)
    ensures s.messages != []
    ensures var d := CreatePlan(c, s).desired;
      d.chat == BuildChat(s, EMPTY_CHAT) && d.envelope.None? && !d.archived && !d.pinned && d.folder == ""
  {
    hide ValidChat, BuildChat, Normalized;
  }

  lemma ReadIsVerified(inst: Installation, s: SourceSnapshot, p: Plan, t: string)
    requires BuildOk(s, EMPTY_CHAT) && p == CreatePlan(Context(t, inst.owner, 0, 1, false), s) && inst.account != ""
    ensures s.messages != [] && ValidChat(StoredWith(s, t, map[]))
    ensures var actual := ReadOf(inst, StoredWith(s, t, map[]));
      && Decoded(actual) && actual.chatId == "chat" && actual.ownerId == inst.account
      && HasOperationMarker(actual.chat, t, true) && MatchesPlanned(actual, Confirmed(p))
  {
    DesiredCreate(Context(t, inst.owner, 0, 1, false), s);
    StoredIsAccepted(s, t, map[]);
    hide ValidChat, BuildOk, CreatePlan, BuildChat, Normalized, StoredWith, Comparable, ReadOf, MatchesPlanned, Decoded,
      HasOperationMarker;
    ReadIsDecoded(inst, StoredWith(s, t, map[]));
    ReadMatches(inst, StoredWith(s, t, map[]), p);
  }

  lemma SecondUnheard(s: SourceSnapshot, p: Plan, t: string, other: SourceSnapshot, o: string)
    requires o != t && s.shareId != other.shareId && s.sourceType == other.sourceType
    requires s.identity.candidateId == other.identity.candidateId == "" && s.Business() == s
    requires other.Business() == other
    ensures Unheard(WithRow(START.db, s, p, t, Answered(s, p, t)), other, o)
  {
    AliasesDiffer(s, other);
    hide PayloadFor, Alias;
    assert other != s;
  }

  lemma AliasesDiffer(a: SourceSnapshot, b: SourceSnapshot)
    requires a.sourceType == b.sourceType && a.shareId != b.shareId
    ensures Alias(a) != Alias(b)
  {
    var n := |a.sourceType| + 1;
    assert Alias(a)[n..] == a.shareId && Alias(b)[n..] == b.shareId;
  }

  lemma FinalizedRows(db: Db, inst: Installation, v: VerifiedCreate, t: string)
    requires FinalizeFault(db, v).None? && t in db.ops && t != v.operationId
    ensures var db2 := FinalizeCreate(db, inst, v, 0).db;
      v.target in db2.allow && t in db2.ops && db2.ops[t] == db.ops[t] && db2.plans == db.plans
      && db2.sources == db.sources
  {
    hide FinalizeFault, MappingsFrom, PairsToMap;
  }

  /** Both creates were answered with the same id, and the first was installed. */
  lemma InstallFirst(inst: Installation, run: seq<Event>, one: Plan, two: Plan, actual: Snapshot)
    returns (next: seq<Event>)
    requires IsRun(inst, START, run)
    requires var db := WorldOf(START, run).db;
      && db.allow == map[] && db.bindings == map[] && HasPlan(db, "one") && PlanOf(db, "one") == Confirmed(one)
      && db.ops["one"].target == "chat" && db.ops["one"].kind == Create && db.ops["one"].status == Verifying
      && one.source in db.sources && "two" in db.ops
    requires Decoded(actual) && VerifiedRead(WorldOf(START, run).db, inst, "one", actual, true)
    requires actual.chatId == "chat"
    ensures IsRun(inst, START, next)
    ensures var db, db2 := WorldOf(START, run).db, WorldOf(START, next).db;
      "chat" in db2.allow && "two" in db2.ops && db2.ops["two"] == db.ops["two"] && db2.plans == db.plans
      && db2.sources == db.sources
  {
    hide IsRun, Enabled, DbAfter, Schema, Tables, Content, Exchange, Decoded, VerifiedRead, FinalizeCreate,
      FinalizeFault;
    Reached(inst, run);
    var w := WorldOf(START, run);
    FinalizeSucceeds(inst, w.db, "one", "binding", actual);
    ServiceFacts.FinalizeStep(inst, w, 1, "one", "binding", actual, 0);
    var v := CreatedRecord(w.db.ops["one"], "binding", w.db.sources[PlanOf(w.db, "one").source], actual);
    OperationNamed(inst, w.db, "one");
    FinalizedRows(w.db, inst, v, "two");
    next := TakePlain(inst, run, Action.Finalize("one", "binding", actual, 0), FinalizeCreate(w.db, inst, v, 0).db);
  }

  lemma OperationNamed(inst: Installation, db: Db, op: string)
    requires Tables(inst, db) && op in db.ops
    ensures db.ops[op].id == op
  {
    hide Tables;
    RowsOf(inst, db, op);
  }

  lemma RowReplaced(db: Db, s: SourceSnapshot, p: Plan, t: string, was: Operation, row: Operation)
    ensures var db2 := WithRow(db, s, p, t, was); db2.(ops := db2.ops[t := row]) == WithRow(db, s, p, t, row)
  {
    assert db.ops[t := was][t := row] == db.ops[t := row];
  }

  ghost predicate BothAnswered(inst: Installation, db: Db, a: SourceSnapshot, p: Plan, b: SourceSnapshot, q: Plan)
    requires BuildOk(a, EMPTY_CHAT) && BuildOk(b, EMPTY_CHAT)
  {
    && p == CreatePlan(Context("one", inst.owner, 0, 1, false), a)
    && q == CreatePlan(Context("two", inst.owner, 0, 1, false), b)
    && db == WithRow(WithRow(START.db, a, p, "one", Answered(a, p, "one")), b, q, "two", Answered(b, q, "two"))
  }

  /** Two creates of different conversations, both answered with the id "chat". */
  lemma AnswerBoth(inst: Installation, a: SourceSnapshot, b: SourceSnapshot) returns (run: seq<Event>, p: Plan, q: Plan)
    requires inst.owner != "" && a == Talk("one", "Greeting") && b == Talk("two", "Greeting")
    requires BuildOk(a, EMPTY_CHAT) && BuildOk(b, EMPTY_CHAT)
    ensures IsRun(inst, START, run) && BothAnswered(inst, WorldOf(START, run).db, a, p, b, q)
  {
    hide IsRun, Unheard, Blank, BuildOk, Aliasable, CreatePlan, PlanFor, PayloadFor, CreateKeyFor, Alias, WithRow,
      SourceOk;
    Names();
    NothingHeard(inst, a, "one");
    TalkIsRequestable("one");
    TalkIsRequestable("two");
    run, p := Start(inst, [], a, "one");
    StartedRow(START.db, a, p, "one");
    run := Answer(inst, run, a, p, "one");
    RowReplaced(START.db, a, p, "one", Sending(a, p, "one"), Answered(a, p, "one"));
    SecondUnheard(a, p, "one", b, "two");
    var db := WorldOf(START, run).db;
    run, q := Start(inst, run, b, "two");
    StartedRow(db, b, q, "two");
    run := Answer(inst, run, b, q, "two");
    RowReplaced(db, b, q, "two", Sending(b, q, "two"), Answered(b, q, "two"));
  }

  lemma StartedRow(db: Db, s: SourceSnapshot, p: Plan, t: string)
    ensures var db2 := WithRow(db, s, p, t, Sending(s, p, t)); t in db2.ops && db2.ops[t] == Sending(s, p, t)
  {
  }

  /** The rows of the two answered creates. */
  lemma BothRows(inst: Installation, db: Db, a: SourceSnapshot, p: Plan, b: SourceSnapshot, q: Plan)
    requires BuildOk(a, EMPTY_CHAT) && BuildOk(b, EMPTY_CHAT) && BothAnswered(inst, db, a, p, b, q)
    requires a.Business() == a && b.Business() == b
    ensures db.allow == map[] && db.bindings == map[] && p.source == a && q.source == b && a in db.sources
    ensures b in db.sources
    ensures HasPlan(db, "one") && PlanOf(db, "one") == Confirmed(p) && db.ops["one"] == Answered(a, p, "one")
    ensures HasPlan(db, "two") && PlanOf(db, "two") == Confirmed(q) && db.ops["two"] == Answered(b, q, "two")
  {
    hide BuildOk, PayloadFor, CreateKeyFor, Alias, Built;
    assert "one" != "two" by { Names(); }
  }

  lemma BothPlans(inst: Installation, db: Db, a: SourceSnapshot, p: Plan, b: SourceSnapshot, q: Plan)
    requires BuildOk(a, EMPTY_CHAT) && BuildOk(b, EMPTY_CHAT) && BothAnswered(inst, db, a, p, b, q)
    ensures p == CreatePlan(Context("one", inst.owner, 0, 1, false), a)
    ensures q == CreatePlan(Context("two", inst.owner, 0, 1, false), b)
  {
    hide CreatePlan, WithRow;
  }

  lemma TakenFaults(db: Db, v: VerifiedCreate)
    requires v.target in db.allow
    ensures FinalizeFault(db, v).Some?
  {
    hide MappingsOk, MappingsFrom, SameMappings;
    TakenIsNotFree(db, v);
    hide RowsFree;
  }

  /** The target names one chat in its replies to two creates. The first is installed;
      the second is verified, its chat does show its own write, and yet no binding can
      be made of it. */
  lemma {:induction false} ChatNamedTwice(inst: Installation) returns (run: seq<Event>, actual: Snapshot)
    requires inst.owner != "" && inst.account != ""
    ensures IsRun(inst, START, run)
    ensures var db := WorldOf(START, run).db;
      && HasPlan(db, "two") && db.ops["two"].kind == Create && db.ops["two"].status == Verifying
      && db.ops["two"].target in db.allow
      && Decoded(actual) && actual.chatId == db.ops["two"].target && VerifiedRead(db, inst, "two", actual, true)
      && PlanOf(db, "two").source in db.sources
      && forall b ::
           FinalizeFault(db, CreatedRecord(db.ops["two"], b, db.sources[PlanOf(db, "two").source], actual)).Some?
  {
    hide IsRun, BuildOk, BothAnswered, CreatePlan, PayloadFor, CreateKeyFor, Alias, Decoded, MatchesPlanned,
      HasOperationMarker, ReadOf, FinalizeFault, ValidChat, StoredWith, MappingsFrom, Talk, SourceOk;
    var a, b := Talk("one", "Greeting"), Talk("two", "Greeting");
    TalkIsUsable("one", "Greeting");
    TalkIsUsable("two", "Greeting");
    var p, q: Plan;
    run, p, q := AnswerBoth(inst, a, b);
    BothRows(inst, WorldOf(START, run).db, a, p, b, q);
    assert p == CreatePlan(Context("one", inst.owner, 0, 1, false), a)
           && q == CreatePlan(Context("two", inst.owner, 0, 1, false), b) by {
      BothPlans(inst, WorldOf(START, run).db, a, p, b, q);
    }
    ReadIsVerified(inst, a, p, "one");
    ReadIsVerified(inst, b, q, "two");
    actual := ReadOf(inst, StoredWith(b, "two", map[]));
    run := InstallFirst(inst, run, p, q, ReadOf(inst, StoredWith(a, "one", map[])));
    var db := WorldOf(START, run).db;
    forall x
      ensures FinalizeFault(db, CreatedRecord(db.ops["two"], x, db.sources[PlanOf(db, "two").source], actual)).Some?
    {
      TakenFaults(db, CreatedRecord(db.ops["two"], x, db.sources[PlanOf(db, "two").source], actual));
    }
  }
}
