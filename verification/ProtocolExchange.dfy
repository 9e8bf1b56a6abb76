/** What was exchanged with the target, and that every step keeps it in order: each
    operation's write is sent at most once, and only chats this store created are read
    or written. */
module ProtocolExchange {
  import opened Basics
  import opened Snapshots
  import opened Plans
  import opened Storage
  import opened Protocol
  import opened ProtocolInv

  /** A sent write belongs to a started operation, is its plan's document and goes to
      its binding's chat. */
  ghost predicate PostRow(w: World, i: int) {
    0 <= i < |w.posts| ==>
      var p := w.posts[i];
      && HasPlan(w.db, p.op) && p.op !in w.claims && w.db.ops[p.op].attempts == 1
      && MatchesPlanned(p.desired, PlanOf(w.db, p.op))
      && var o := w.db.ops[p.op];
      if o.kind == Create then p.target.None?
      else o.bindingId != "" && o.bindingId in w.db.bindings && p.target == Some(w.db.bindings[o.bindingId].target)
  }

  ghost predicate PostsDistinct(posts: seq<Post>) {
    forall i, j :: 0 <= i < j < |posts| ==> posts[i].op != posts[j].op
  }

  ghost predicate ClaimRow(w: World, op: string) {
    op in w.claims ==> op in w.db.ops && w.db.ops[op].attempts == 1
  }

  ghost predicate ReceiptRow(w: World, r: (string, string)) {
    r in w.receipts ==> r.1 != "" && CreatePosted(w, r.0)
  }

  ghost predicate TargetRow(w: World, o: string) {
    o in w.db.ops && w.db.ops[o].kind == Create && w.db.ops[o].target != "" ==> (o, w.db.ops[o].target) in w.receipts
  }

  /** The chat was named by the reply to a create this store sent. */
  ghost predicate Ours(w: World, id: string) {
    exists op :: (op, id) in w.receipts
  }

  ghost predicate ReadRow(w: World, id: string) {
    id in w.chatsRead ==> Ours(w, id)
  }

  ghost predicate Exchange(w: World) {
    && PostsDistinct(w.posts)
    && (forall i :: PostRow(w, i))
    && (forall c :: ClaimRow(w, c))
    && (forall r :: ReceiptRow(w, r))
    && (forall o :: TargetRow(w, o))
    && (forall id :: ReadRow(w, id))
  }

  // ----- steps that only change the tables -----

  lemma PostKept(w: World, db2: Db, i: int)
    requires Grows(w.db, db2) && PostRow(w, i) && 0 <= i < |w.posts| && OpRow(db2, w.posts[i].op)
    ensures PostRow(w.(db := db2), i)
  {
    hide Grows, OpRow;
    var op := w.posts[i].op;
    GrowsAt(w.db, db2, op);
    GrowsAt(w.db, db2, w.db.ops[op].planId);
    GrowsAt(w.db, db2, w.db.ops[op].bindingId);
    PlannedKept(w.posts[i].desired, PlanOf(w.db, op), db2.plans[w.db.ops[op].planId]);
    AttemptsKept(w.db, db2, op);
  }

  lemma PlannedKept(s: Snapshot, was: Plan, now: Plan)
    requires PlanGrows(was, now)
    ensures MatchesPlanned(s, was) <==> MatchesPlanned(s, now)
  {
  }

  lemma AttemptsKept(db: Db, db2: Db, op: string)
    requires KeptOp(db, db2, op) && op in db.ops && db.ops[op].attempts == 1 && OpRow(db2, op)
    ensures db2.ops[op].attempts == 1
    ensures (db.ops[op].kind == Update ==> db2.ops[op].bindingId == db2.plans[db2.ops[op].planId].bindingId)
    ensures db2.ops[op].kind != Archive
  {
  }

  /** No create learns a target that is not a recorded reply. */
  ghost predicate TargetStep(w: World, db2: Db, o: string) {
    o in db2.ops && db2.ops[o].kind == Create && db2.ops[o].target != "" ==>
      || (o in w.db.ops && w.db.ops[o].kind == Create && w.db.ops[o].target == db2.ops[o].target)
      || (o, db2.ops[o].target) in w.receipts
  }

  lemma ExchangeKept(inst: Installation, w: World, db2: Db)
    requires Exchange(w) && Sound(inst, w.db, db2) && forall o :: TargetStep(w, db2, o)
    ensures Exchange(w.(db := db2))
  {
    hide Tables, Grows, PostRow, OpRow;
    var w2 := w.(db := db2);
    forall i ensures PostRow(w2, i) {
      assert PostRow(w, i);
      if 0 <= i < |w.posts| {
        RowsOf(inst, db2, w.posts[i].op);
        PostKept(w, db2, i);
      } else {
        NoPost(w2, i);
      }
    }
    forall c ensures ClaimRow(w2, c) { ClaimKept(inst, w, db2, c); }
    forall r ensures ReceiptRow(w2, r) { ReceiptKept(w, w2, r); }
    forall o ensures TargetRow(w2, o) { assert TargetRow(w, o) && TargetStep(w, db2, o); }
    forall id ensures ReadRow(w2, id) { assert ReadRow(w, id); assert Ours(w, id) ==> Ours(w2, id); }
  }

  lemma NoPost(w: World, i: int)
    requires !(0 <= i < |w.posts|)
    ensures PostRow(w, i)
  {
  }

  lemma ClaimKept(inst: Installation, w: World, db2: Db, c: string)
    requires Exchange(w) && Sound(inst, w.db, db2)
    ensures ClaimRow(w.(db := db2), c)
  {
    hide Tables, Grows, PostRow, OpRow, PostsDistinct;
    assert ClaimRow(w, c);
    if c in w.claims {
      GrowsAt(w.db, db2, c);
      RowsOf(inst, db2, c);
      AttemptsKept(w.db, db2, c);
    }
  }

  /** Replies keep their posts while posts only grow. */
  lemma ReceiptKept(w: World, w2: World, r: (string, string))
    requires (forall s :: ReceiptRow(w, s)) && w2.receipts == w.receipts && w.posts <= w2.posts
    ensures ReceiptRow(w2, r)
  {
    assert ReceiptRow(w, r);
    if r in w.receipts {
      var i :| 0 <= i < |w.posts| && w.posts[i].op == r.0 && w.posts[i].target.None?;
      assert w2.posts[i] == w.posts[i];
    }
  }

  // ----- steps that exchange something -----

  /** Winning the right to send, before anything was sent. */
  lemma ClaimExchange(w: World, op: string, who: nat)
    requires Exchange(w) && op in w.db.ops && w.db.ops[op].attempts == 1
    requires forall i :: 0 <= i < |w.posts| ==> w.posts[i].op != op
    ensures Exchange(w.(claims := w.claims[op := who]))
  {
    hide MatchesPlanned;
    var w2 := w.(claims := w.claims[op := who]);
    forall i ensures PostRow(w2, i) { assert PostRow(w, i); }
    forall c ensures ClaimRow(w2, c) { assert ClaimRow(w, c); }
    forall r ensures ReceiptRow(w2, r) { ReceiptKept(w, w2, r); }
    forall o ensures TargetRow(w2, o) { assert TargetRow(w, o); }
    forall id ensures ReadRow(w2, id) { assert ReadRow(w, id); assert Ours(w, id) ==> Ours(w2, id); }
  }

  /** Using the right to send. */
  lemma SendExchange(inst: Installation, w: World, op: string, desired: Snapshot)
    requires Exchange(w) && Tables(inst, w.db) && op in w.claims && HasPlan(w.db, op)
    requires MatchesPlanned(desired, PlanOf(w.db, op))
    ensures Exchange(Sent(w, op, desired))
  {
    hide Tables, MatchesPlanned, OpRow;
    var w2 := Sent(w, op, desired);
    assert ClaimRow(w, op);
    RowsOf(inst, w.db, op);
    SentTarget(w.db, op);
    forall i ensures PostRow(w2, i) { assert PostRow(w, i); }
    forall i | 0 <= i < |w.posts| ensures w.posts[i].op != op { assert PostRow(w, i); }
    forall c ensures ClaimRow(w2, c) { assert ClaimRow(w, c); }
    forall r ensures ReceiptRow(w2, r) { ReceiptKept(w, w2, r); }
    forall o ensures TargetRow(w2, o) { assert TargetRow(w, o); }
    forall id ensures ReadRow(w2, id) { assert ReadRow(w, id); assert Ours(w, id) ==> Ours(w2, id); }
  }

  lemma SentTarget(db: Db, op: string)
    requires op in db.ops && OpRow(db, op)
    ensures db.ops[op].kind != Create ==>
      db.ops[op].bindingId != "" && db.ops[op].bindingId in db.bindings
      && WriteTarget(db, db.ops[op]) == db.bindings[db.ops[op].bindingId].target
  {
  }

  lemma ReplyExchange(w: World, op: string, id: string)
    requires Exchange(w) && id != "" && CreatePosted(w, op)
    ensures Exchange(w.(receipts := w.receipts + {(op, id)}))
  {
    hide MatchesPlanned;
    var w2 := w.(receipts := w.receipts + {(op, id)});
    forall i ensures PostRow(w2, i) { assert PostRow(w, i); }
    forall c ensures ClaimRow(w2, c) { assert ClaimRow(w, c); }
    forall r ensures ReceiptRow(w2, r) {
      assert ReceiptRow(w, r);
      assert CreatePosted(w, r.0) ==> CreatePosted(w2, r.0);
      assert CreatePosted(w, op);
    }
    forall o ensures TargetRow(w2, o) { assert TargetRow(w, o); }
    forall x ensures ReadRow(w2, x) { ReadsStay(w, w2, x); }
  }

  lemma ReadsStay(w: World, w2: World, x: string)
    requires ReadRow(w, x) && w2.chatsRead == w.chatsRead && w.receipts <= w2.receipts
    ensures ReadRow(w2, x)
  {
    if x in w.chatsRead {
      var op :| (op, x) in w.receipts;
      assert (op, x) in w2.receipts;
    }
  }

  /** Managed chats and recorded results of creates were named by replies. */
  lemma ReadableIsOurs(inst: Installation, w: World, id: string)
    requires Exchange(w) && Tables(inst, w.db) && MayRead(w.db, id)
    ensures Ours(w, id)
  {
    hide Tables, MatchesPlanned, PostRow;
    if o :| o in w.db.ops && w.db.ops[o].kind == Create && w.db.ops[o].target == id == w.db.ops[o].receipt && id != "" {
      assert TargetRow(w, o);
    } else {
      var b :| b in w.db.bindings && w.db.bindings[b].target == id;
      ManagedIsOurs(inst, w, b);
    }
  }

  lemma ManagedIsOurs(inst: Installation, w: World, b: string)
    requires Exchange(w) && Tables(inst, w.db) && b in w.db.bindings
    ensures (w.db.bindings[b].createdBy, w.db.bindings[b].target) in w.receipts && Ours(w, w.db.bindings[b].target)
  {
    hide Tables, MatchesPlanned, PostRow;
    RowsOf(inst, w.db, b);
    RowsOf(inst, w.db, w.db.bindings[b].createdBy);
    assert TargetRow(w, w.db.bindings[b].createdBy);
  }

  lemma ReadExchange(w: World, id: string)
    requires Exchange(w) && Ours(w, id)
    ensures Exchange(w.(chatsRead := w.chatsRead + {id}))
  {
    hide MatchesPlanned;
    var w2 := w.(chatsRead := w.chatsRead + {id});
    forall i ensures PostRow(w2, i) { assert PostRow(w, i); }
    forall c ensures ClaimRow(w2, c) { assert ClaimRow(w, c); }
    forall r ensures ReceiptRow(w2, r) { ReceiptKept(w, w2, r); }
    forall o ensures TargetRow(w2, o) { assert TargetRow(w, o); }
    forall x ensures ReadRow(w2, x) { assert ReadRow(w, x); assert Ours(w, x) ==> Ours(w2, x); }
  }

  lemma ForgetClaims(w: World)
    requires Exchange(w)
    ensures Exchange(w.(claims := map[]))
  {
    hide MatchesPlanned;
    var w2 := w.(claims := map[]);
    forall i ensures PostRow(w2, i) { assert PostRow(w, i); }
    forall r ensures ReceiptRow(w2, r) { ReceiptKept(w, w2, r); }
    forall o ensures TargetRow(w2, o) { assert TargetRow(w, o); }
    forall x ensures ReadRow(w2, x) { assert ReadRow(w, x); assert Ours(w, x) ==> Ours(w2, x); }
  }
}
