/** Persisted sync plans: what a preview computes, and what makes executing the plan
    later give the planned document. */
module Plans {
  import opened Basics
  import opened Domain
  import opened ChatGraph
  import opened Snapshots
  import opened Builder
  import opened Relinking
  import opened BuildTheorems
  import Diff
  import DiffTheorems

  /** The document a plan intends, with the envelope it was built on. */
  datatype Desired = Desired(
    target: TargetSnapshot, chat: Chat, envelope: Option<Envelope>, archived: bool, pinned: bool, folder: string,
    conflict: ConflictHash)

  /** A stored plan. `source`, `previous` and the target fields are hashes in the
      database and stand here for the content they identify. */
  datatype Plan = Plan(
    id: string, ownerId: string, status: PlanStatus, bindingId: string, version: nat,
    source: SourceSnapshot, previous: Option<SourceSnapshot>,
    baseline: Option<TargetSnapshot>, expectedTarget: Option<TargetSnapshot>, expectedConflict: Option<ConflictHash>,
    desired: Desired, parserVersion: string, policyVersion: string,
    expiresAt: int, confirmationRequired: bool, confirmedAt: Option<int>)
  {
    /** The payload hash: everything but the confirmation. */
    function Payload(): Plan {
      this.(confirmedAt := None)
    }
  }

  /** The last verified state of a managed target. */
  datatype Baseline = Baseline(
    operationId: string, bindingId: string, version: nat, source: SourceSnapshot,
    target: TargetSnapshot, conflict: ConflictHash)

  predicate Applicable(s: PlanStatus) {
    s.Ready? || s.NoChange? || s.NeedsBindingConfirmation?
  }

  function DesiredOf(s: Snapshot): Desired {
    Desired(s.normalized, s.chat, s.envelope, s.archived, s.pinned, s.folder, s.conflict)
  }

  function PlannedSnapshot(p: Plan): Snapshot {
    var d := p.desired;
    Snapshot("", "", d.archived, d.pinned, d.folder, 0, d.target, d.chat, d.envelope, d.conflict)
  }

  predicate MatchesPlanned(actual: Snapshot, p: Plan) {
    && actual.archived == p.desired.archived && actual.pinned == p.desired.pinned && actual.folder == p.desired.folder
    && MatchSnapshot(actual, PlannedSnapshot(p))
  }

  predicate MatchesBaseline(actual: Snapshot, b: Baseline) {
    actual.conflict == b.conflict && actual.normalized == b.target
  }

  predicate VerifiedSameSource(was: Identity, now: Identity) {
    was.evidence.Verified? && now.evidence.Verified? && was.candidateId != "" && was.candidateId == now.candidateId
  }

  // ----- what a preview stores -----

  /** Everything a preview takes from its surroundings. */
  datatype Context = Context(planId: string, ownerId: string, now: int, ttl: nat, stableIds: bool)

  ghost function CreatePlan(c: Context, snapshot: SourceSnapshot): Plan
    requires BuildOk(snapshot, EMPTY_CHAT)
  {
    Plan(c.planId, c.ownerId, if snapshot.coverage.partial then UnsupportedContent else Ready, "", 0,
         snapshot.Business(), None, None, None, None,
         DesiredOf(Built(snapshot, None)), snapshot.parserVersion, POLICY_VERSION, c.now + c.ttl, true, None)
  }

  function UpdateStatus(c: Context, snapshot: SourceSnapshot, previous: SourceSnapshot, b: Baseline,
                        policy: TitlePolicy, actual: Snapshot): PlanStatus
  {
    if !MatchesBaseline(actual, b) then Conflict
    else
      Diff.VerdictOf(Some(previous), snapshot, Some((b.target, actual.normalized)), policy,
        c.stableIds || VerifiedSameSource(previous.identity, snapshot.identity)).status
  }

  ghost function UpdatePlan(c: Context, bindingId: string, snapshot: SourceSnapshot, previous: SourceSnapshot,
                            b: Baseline, policy: TitlePolicy, actual: Snapshot): Plan
    requires Applicable(UpdateStatus(c, snapshot, previous, b, policy, actual)) ==> BuildOk(snapshot, actual.chat)
  {
    var status := UpdateStatus(c, snapshot, previous, b, policy, actual);
    Plan(c.planId, c.ownerId, status, bindingId, b.version,
         snapshot.Business(), Some(previous.Business()),
         Some(actual.normalized), Some(actual.normalized), Some(actual.conflict),
         DesiredOf(if Applicable(status) then Built(snapshot, Some(actual)) else actual),
         snapshot.parserVersion, POLICY_VERSION, c.now + c.ttl, true, None)
  }

  // ----- what an applicable plan intends -----

  /** The plan's document is readable and is the plan's source conversation. */
  ghost predicate PlanMirrors(p: Plan) {
    ValidChat(p.desired.chat) && Mirrors(Normalized(p.desired.chat), p.source)
  }

  lemma MirrorsBusiness(t: TargetSnapshot, s: SourceSnapshot)
    ensures Mirrors(t, s) <==> Mirrors(t, s.Business())
  {
  }

  lemma CreatePlanMirrors(c: Context, snapshot: SourceSnapshot)
    requires BuildOk(snapshot, EMPTY_CHAT)
    ensures PlanMirrors(CreatePlan(c, snapshot))
  {
    CreateRoundTrip(snapshot);
    MirrorsBusiness(Normalized(BuildChat(snapshot, EMPTY_CHAT)), snapshot);
    hide Mirrors, BuildChat, ValidChat, PlanOk, InSourceOrder;
  }

  lemma SortedMember(ms: seq<Message>, m: Message)
    ensures m in ms <==> m in SortByOrder(ms)
  {
    assert m in multiset(ms) <==> m in multiset(SortByOrder(ms));
  }

  lemma Ordered(g: Graph, current: string, k: string) returns (i: nat)
    requires ValidGraph(g, current) && k in g
    ensures i < |Order(g)| && Order(g)[i] == k && k != ""
  {
    OrderIsPreorder(g, current);
    assert k in Elements(Order(g));
    i :| 0 <= i < |Order(g)| && Order(g)[i] == k;
  }

  /** Where a history message shows up in the projection. */
  lemma ProjectedAt(base: Chat, k: string) returns (i: nat)
    requires ValidChat(base) && k in MessagesOf(base)
    ensures i < |Normalized(base).messages| && k != ""
    ensures Normalized(base).messages[i].id == k
    ensures Normalized(base).messages[i].sourceId == MessagesOf(base)[k].ReadMeta().sourceId
  {
    var g := GraphOf(base);
    i := Ordered(g, CurrentOf(base), k);
    hide Linked, Acyclic, ValidView, Order;
    assert Normalized(base).messages[i] == Project(g[k], k, i);
    assert ParseNode(k, MessagesOf(base)[k]).Some?;
  }

  /** A message of a document that mirrors `previous` stands for one of its messages. */
  lemma MirroredKey(base: Chat, previous: SourceSnapshot, k: string) returns (m: Message)
    requires ValidChat(base) && Mirrors(Normalized(base), previous) && k in MessagesOf(base)
    ensures m in previous.messages && Owns(MessagesOf(base), k, m.id) && k != ""
  {
    var i := ProjectedAt(base, k);
    m := SortByOrder(previous.messages)[i];
    assert CopyOf(Normalized(base).messages[i], m, i);
    SortedMember(previous.messages, m);
  }

  lemma OwnerIsTarget(source: SourceSnapshot, msgs: map<string, Node>, k: string, src: string)
    requires ManagedOnce(msgs) && Owns(msgs, k, src) && src != "" && k != ""
    ensures TargetId(source, msgs, src) == k
  {
  }

  predicate HasId(source: SourceSnapshot, id: string) {
    exists l :: l in source.messages && l.id == id
  }

  /** No message of the previous conversation is missing from the new one. */
  predicate Covers(source: SourceSnapshot, previous: SourceSnapshot) {
    forall m :: m in previous.messages ==> HasId(source, m.id)
  }

  /** Then every message of the mirrored document is on the new chain. */
  lemma {:induction false} MirroredOnChain(source: SourceSnapshot, base: Chat, previous: SourceSnapshot, k: string)
    requires PlanOk(source, base) && ValidChat(base) && Mirrors(Normalized(base), previous) && k in MessagesOf(base)
    requires Covers(source, previous)
    ensures k in TargetIds(source, MessagesOf(base))
  {
    var m := MirroredKey(base, previous, k);
    assert HasId(source, m.id);
    var l :| l in source.messages && l.id == m.id;
    SortedMember(source.messages, l);
    OnChain(source, base, l, k);
  }

  lemma OnChain(source: SourceSnapshot, base: Chat, l: Message, k: string)
    requires PlanOk(source, base) && l in SortByOrder(source.messages) && Owns(MessagesOf(base), k, l.id) && k != ""
    ensures k in TargetIds(source, MessagesOf(base))
  {
    var ordered, msgs := SortByOrder(source.messages), MessagesOf(base);
    var j :| 0 <= j < |ordered| && ordered[j] == l;
    assert FitsAt(ordered, j);
    OwnerIsTarget(source, msgs, k, l.id);
    assert TargetIds(source, msgs)[j] == TargetId(source, msgs, ordered[j].id);
  }

  /** An applicable verdict leaves no previous message out. */
  lemma NothingMissing(previous: SourceSnapshot, snapshot: SourceSnapshot,
                       targets: Option<(TargetSnapshot, TargetSnapshot)>, policy: TitlePolicy, stable: bool)
    requires Applicable(Diff.VerdictOf(Some(previous), snapshot, targets, policy, stable).status)
    ensures Covers(snapshot, previous)
  {
    DiffTheorems.ApplicableMeansClean(previous, snapshot, targets, policy, stable);
    var now := Diff.Index(snapshot.messages);
    Diff.CollectEmpty(previous.messages, Diff.ReducedBy(now));
    forall m | m in previous.messages ensures HasId(snapshot, m.id) {
      var i :| 0 <= i < |previous.messages| && previous.messages[i] == m;
      assert Diff.ReducedBy(now)(previous.messages[i]).None?;
      assert now[m.id] in snapshot.messages;
    }
  }

  /** Updating a document that mirrors an earlier state of the conversation gives one
      that mirrors the new state. */
  lemma {:induction false} UpdateMirrors(source: SourceSnapshot, base: Chat, previous: SourceSnapshot)
    requires BuildOk(source, base) && ValidChat(base) && Mirrors(Normalized(base), previous) && Covers(source, previous)
    ensures Mirrors(Normalized(BuildChat(source, base)), source)
  {
    forall k | k in MessagesOf(base) ensures k in TargetIds(source, MessagesOf(base)) {
      MirroredOnChain(source, base, previous, k);
    }
    BuildMirrors(source, base);
  }

  // ----- edits of a mirrored document -----

  /** The history message behind one of the projection. */
  lemma ProjectedFrom(base: Chat, i: nat) returns (k: string)
    requires ValidChat(base) && i < |Normalized(base).messages|
    ensures k in MessagesOf(base) && k != ""
    ensures Normalized(base).messages[i].sourceId == MessagesOf(base)[k].ReadMeta().sourceId
  {
    var g := GraphOf(base);
    hide Linked, Acyclic, ValidView, Order;
    k := Order(g)[i];
    assert Normalized(base).messages[i] == Project(g[k], k, i);
    assert ParseNode(k, MessagesOf(base)[k]).Some?;
  }

  /** Which message of the history stands for source message `l`. */
  lemma MirroredOwner(base: Chat, previous: SourceSnapshot, l: Message) returns (k: string)
    requires ValidChat(base) && Mirrors(Normalized(base), previous) && l in previous.messages
    ensures k in MessagesOf(base) && Owns(MessagesOf(base), k, l.id) && k != ""
  {
    SortedMember(previous.messages, l);
    var ordered, n := SortByOrder(previous.messages), Normalized(base);
    var i :| 0 <= i < |ordered| && ordered[i] == l;
    assert CopyOf(n.messages[i], l, i);
    hide SortByOrder, Mirrors, ValidChat;
    k := ProjectedFrom(base, i);
  }

  lemma MirroredOnce(base: Chat, previous: SourceSnapshot)
    requires ValidChat(base) && Mirrors(Normalized(base), previous) && OrderedOk(SortByOrder(previous.messages))
    ensures ManagedOnce(MessagesOf(base))
  {
    hide ValidChat;
    var msgs, ordered, n := MessagesOf(base), SortByOrder(previous.messages), Normalized(base);
    forall j, k, src | Owns(msgs, j, src) && Owns(msgs, k, src) && src != "" ensures j == k {
      var a := ProjectedAt(base, j);
      var b := ProjectedAt(base, k);
      assert CopyOf(n.messages[a], ordered[a], a) && CopyOf(n.messages[b], ordered[b], b);
      assert FitsAt(ordered, a) && FitsAt(ordered, b);
    }
  }

  lemma MirroredTarget(source: SourceSnapshot, base: Chat, previous: SourceSnapshot, i: nat)
    requires ValidChat(base) && Mirrors(Normalized(base), previous) && ManagedOnce(MessagesOf(base))
    requires Covers(previous, source) && OrderedOk(SortByOrder(source.messages)) && i < |SortByOrder(source.messages)|
    ensures Owns(MessagesOf(base), TargetIds(source, MessagesOf(base))[i], SortByOrder(source.messages)[i].id)
  {
    var ordered, msgs := SortByOrder(source.messages), MessagesOf(base);
    assert FitsAt(ordered, i);
    SortedMember(source.messages, ordered[i]);
    assert HasId(previous, ordered[i].id);
    var l :| l in previous.messages && l.id == ordered[i].id;
    var k := MirroredOwner(base, previous, l);
    OwnerIsTarget(source, msgs, k, l.id);
  }

  lemma MirroredPlanOk(source: SourceSnapshot, base: Chat, previous: SourceSnapshot)
    requires ValidChat(base) && Mirrors(Normalized(base), previous) && SourceOk(source) && SourceOk(previous)
    requires Covers(previous, source)
    ensures PlanOk(source, base)
  {
    MirroredOnce(base, previous);
    var ordered, msgs := SortByOrder(source.messages), MessagesOf(base);
    var ids := TargetIds(source, msgs);
    forall i, j | 0 <= i < j < |ids| ensures ids[i] != ids[j] {
      MirroredTarget(source, base, previous, i);
      MirroredTarget(source, base, previous, j);
      assert FitsAt(ordered, j);
    }
  }

  /** An edit of a mirrored conversation that neither adds nor removes messages can
      always be built. */
  lemma {:induction false} MirroredEditBuilds(source: SourceSnapshot, base: Chat, previous: SourceSnapshot)
    requires ValidChat(base) && Mirrors(Normalized(base), previous) && SourceOk(source) && SourceOk(previous)
    requires Covers(source, previous) && Covers(previous, source)
    ensures BuildOk(source, base)
  {
    MirroredPlanOk(source, base, previous);
    BuildSucceedsIff(source, base);
    var g, ids := GraphOf(base), TargetIds(source, MessagesOf(base));
    forall k | k in g ensures k in ids { MirroredOnChain(source, base, previous, k); }
    MirroredNotEmpty(base, previous);
    hide BuildOk, PlanOk, TargetIds, Mirrors, Covers, SourceOk;
    WithinAttaches(g, CurrentOf(base), ids);
  }

  lemma MirroredNotEmpty(base: Chat, previous: SourceSnapshot)
    requires ValidChat(base)
    ensures MessagesOf(base) != map[] && ValidGraph(GraphOf(base), CurrentOf(base))
  {
    assert CurrentOf(base) in MessagesOf(base);
  }

  /** A chain that takes in a whole history can be attached to it. */
  lemma WithinAttaches(g: Graph, current: string, ids: seq<string>)
    requires ValidGraph(g, current) && ids != [] && forall k :: k in g ==> k in ids
    ensures Attachable(g, ids)
  {
    forall k {:trigger g[k]} | k in g && g[k].parent != "" ensures g[k].parent in ids { assert ParentLinked(g, k); }
    forall c | c in Kids(g, ids[|ids| - 1]) ensures c in ids {
      assert ChildrenLinked(g, ids[|ids| - 1]);
    }
  }

  /** An applicable update plan made from a mirrored baseline mirrors its source. */
  lemma {:induction false} UpdatePlanMirrors(c: Context, bindingId: string, snapshot: SourceSnapshot,
                                             previous: SourceSnapshot, b: Baseline, policy: TitlePolicy,
                                             actual: Snapshot)
    requires Decoded(actual) && Mirrors(b.target, previous)
    requires Applicable(UpdateStatus(c, snapshot, previous, b, policy, actual)) && BuildOk(snapshot, actual.chat)
    ensures PlanMirrors(UpdatePlan(c, bindingId, snapshot, previous, b, policy, actual))
  {
    NothingMissing(previous, snapshot, Some((b.target, actual.normalized)), policy,
      c.stableIds || VerifiedSameSource(previous.identity, snapshot.identity));
    UpdateMirrors(snapshot, actual.chat, previous);
    MirrorsBusiness(Normalized(BuildChat(snapshot, actual.chat)), snapshot);
    hide UpdateStatus, Covers, Mirrors, BuildChat, ValidChat;
  }

  /** What a read that matches a mirroring plan shows is the plan's source. */
  lemma MatchedReadMirrors(actual: Snapshot, p: Plan)
    requires Decoded(actual) && MatchesPlanned(actual, p) && PlanMirrors(p)
    ensures Mirrors(actual.normalized, p.source) && actual.normalized == Normalized(p.desired.chat)
  {
    MatchForcesProjection(actual, PlannedSnapshot(p));
  }

  // ----- rebuilding before the write -----

  lemma SameConflictSameDocument(a: Snapshot, b: Snapshot)
    requires Decoded(a) && Decoded(b) && a.conflict == b.conflict
    ensures a.chat == b.chat && a.archived == b.archived && a.pinned == b.pinned && a.folder == b.folder
    ensures SameEnvelope(a.envelope, b.envelope.value)
  {
  }

  /** Rebuilding an applicable update plan from any later read with the expected
      conflict hash reproduces it, whatever clock-driven members changed: the check
      for a changed payload cannot fail. */
  lemma {:induction false} RebuildMatchesPlan(c: Context, bindingId: string, snapshot: SourceSnapshot,
                                              previous: SourceSnapshot, b: Baseline, policy: TitlePolicy,
                                              actual: Snapshot, later: Snapshot, stored: SourceSnapshot)
    requires Decoded(actual) && Decoded(later) && stored.Business() == snapshot.Business()
    requires Applicable(UpdateStatus(c, snapshot, previous, b, policy, actual)) && BuildOk(snapshot, actual.chat)
    requires UpdatePlan(c, bindingId, snapshot, previous, b, policy, actual).expectedConflict == Some(later.conflict)
    ensures BuildOk(stored, later.chat)
    ensures MatchesPlanned(Built(stored, Some(later)), UpdatePlan(c, bindingId, snapshot, previous, b, policy, actual))
  {
    SameConflictSameDocument(later, actual);
    BuildUsesBusiness(stored, snapshot, later.chat);
  }

  /** Fetch time and diagnostics play no part in building. */
  lemma BuildUsesBusiness(a: SourceSnapshot, b: SourceSnapshot, base: Chat)
    requires a.Business() == b.Business()
    ensures BuildOk(a, base) <==> BuildOk(b, base)
    ensures a.messages != [] ==> BuildChat(a, base) == BuildChat(b, base)
  {
    assert a.messages == b.messages && a.identity == b.identity && a.shareId == b.shareId && a.title == b.title by {
      assert a.Business().messages == a.messages && b.Business().messages == b.messages;
      assert a.Business().identity == a.identity && b.Business().identity == b.identity;
      assert a.Business().shareId == a.shareId && b.Business().shareId == b.shareId;
      assert a.Business().title == a.title && b.Business().title == b.title;
    }
    SameTargetIds(a, b, MessagesOf(base));
  }

  lemma SameTargetIds(a: SourceSnapshot, b: SourceSnapshot, msgs: map<string, Node>)
    requires a.messages == b.messages && a.identity == b.identity && a.shareId == b.shareId
    ensures TargetIds(a, msgs) == TargetIds(b, msgs)
  {
    var ordered := SortByOrder(a.messages);
    forall i | 0 <= i < |ordered| ensures TargetIds(a, msgs)[i] == TargetIds(b, msgs)[i] {
      assert DeterministicId(a, ordered[i].id) == DeterministicId(b, ordered[i].id);
    }
  }
}
