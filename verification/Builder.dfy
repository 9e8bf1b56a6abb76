/** Turning a source snapshot into a chat document, from nothing or on top of the
    document the target holds now. */
module Builder {
  import opened Basics
  import opened Domain
  import opened ChatGraph
  import opened Snapshots
  import Normalize

  // ----- the ordered source -----

  predicate Ascends(s: seq<Message>) {
    forall i, j {:trigger s[i].order, s[j].order} :: 0 <= i < j < |s| ==> s[i].order <= s[j].order
  }

  /** The messages of one order, where they stand. */
  function WithOrder(s: seq<Message>, n: int): seq<Message> {
    if s == [] then [] else (if s[0].order == n then [s[0]] else []) + WithOrder(s[1..], n)
  }

  /** `r` has the messages of `s` in ascending order, and messages of equal order in
      the sequence they had. */
  ghost predicate StableSort(s: seq<Message>, r: seq<Message>) {
    Ascends(r) && forall n :: WithOrder(r, n) == WithOrder(s, n)
  }

  function Insert(m: Message, s: seq<Message>): (r: seq<Message>)
    ensures multiset(r) == multiset{m} + multiset(s)
  {
    if s == [] || m.order <= s[0].order then [m] + s
    else
      assert s == [s[0]] + s[1..];
      [s[0]] + Insert(m, s[1..])
  }

  lemma AscendsFrom(m: Message, s: seq<Message>)
    requires Ascends(s) && (s == [] || m.order <= s[0].order)
    ensures Ascends([m] + s)
  {
    var r := [m] + s;
    forall i, j | 0 <= i < j < |r| ensures r[i].order <= r[j].order {
      assert r[j] == s[j - 1] && (i > 0 ==> r[i] == s[i - 1]);
      assert s[0].order <= s[j - 1].order;
    }
  }

  lemma {:induction false} InsertAscends(m: Message, s: seq<Message>)
    requires Ascends(s)
    ensures Ascends(Insert(m, s))
    ensures |Insert(m, s)| == |s| + 1
    ensures Insert(m, s)[0].order == if s == [] || m.order <= s[0].order then m.order else s[0].order
  {
    if s == [] || m.order <= s[0].order {
      AscendsFrom(m, s);
    } else {
      TailAscends(s);
      InsertAscends(m, s[1..]);
      AscendsFrom(s[0], Insert(m, s[1..]));
    }
  }

  lemma TailAscends(s: seq<Message>)
    requires Ascends(s) && s != []
    ensures Ascends(s[1..]) && (|s| > 1 ==> s[0].order <= s[1].order)
  {
  }

  lemma {:induction false} InsertStable(m: Message, s: seq<Message>, n: int)
    requires Ascends(s)
    ensures WithOrder(Insert(m, s), n) == (if m.order == n then [m] else []) + WithOrder(s, n)
  {
    if s == [] || m.order <= s[0].order {
      assert ([m] + s)[1..] == s;
    } else {
      TailAscends(s);
      InsertStable(m, s[1..], n);
      hide Ascends;
      assert ([s[0]] + Insert(m, s[1..]))[1..] == Insert(m, s[1..]);
    }
  }

  /** The stable sort by message order. */
  function SortByOrder(s: seq<Message>): (r: seq<Message>)
    ensures multiset(r) == multiset(s) && |r| == |s|
    ensures StableSort(s, r)
  {
    if s == [] then []
    else
      assert s == [s[0]] + s[1..];
      var rest := SortByOrder(s[1..]);
      var r := Insert(s[0], rest);
      assert |multiset(r)| == |r| && |multiset(s)| == |s|;
      assert StableSort(s, r) by {
        InsertAscends(s[0], rest);
        forall n ensures WithOrder(r, n) == WithOrder(s, n) { InsertStable(s[0], rest, n); }
      }
      r
  }

  predicate Complete(m: Message) {
    m.id != "" && m.nodeId != "" && m.role != "" && m.parts != []
  }

  predicate KnownRole(m: Message) {
    m.role == "user" || m.role == "assistant"
  }

  /** The message at position `i` is usable next to the ones before it. */
  predicate FitsAt(ordered: seq<Message>, i: nat)
    requires i < |ordered|
  {
    && Complete(ordered[i]) && KnownRole(ordered[i])
    && (forall j :: 0 <= j < i ==> ordered[j].id != ordered[i].id)
    && (forall j :: 0 <= j < i ==> ordered[j].nodeId != ordered[i].nodeId)
    && (i > 0 ==> ordered[i - 1].order != ordered[i].order)
  }

  predicate OrderedOk(ordered: seq<Message>) {
    forall i {:trigger FitsAt(ordered, i)} :: 0 <= i < |ordered| ==> FitsAt(ordered, i)
  }

  /** What the builder asks of a source. */
  predicate SourceOk(source: SourceSnapshot) {
    && source.messages != []
    && (source.identity.candidateId != "" || source.shareId != "")
    && OrderedOk(SortByOrder(source.messages))
  }

  // ----- placing the source in a document -----

  const EMPTY_CHAT := Chat(Absent, Absent, Absent, Absent, Absent, map[])
  const EMPTY_NODE := Node(Absent, Absent, Absent, Absent, Absent, Absent, Absent, Absent, map[])
  const EMPTY_HISTORY := History(Absent, Absent, map[])

  ghost predicate Owns(msgs: map<string, Node>, k: string, src: string) {
    k in msgs && msgs[k].ReadMeta().sourceId == src
  }

  /** No two messages of the document claim the same source message. */
  ghost predicate ManagedOnce(msgs: map<string, Node>) {
    forall j, k, src :: Owns(msgs, j, src) && Owns(msgs, k, src) && src != "" ==> j == k
  }

  /** The digest naming a new target message, as the text it digests. */
  function DeterministicId(source: SourceSnapshot, src: string): string {
    var basis := if source.identity.candidateId != "" then source.identity.candidateId else source.shareId;
    "gpt-owu-gate/message/v1" + [0 as char] + basis + [0 as char] + src
  }

  ghost function TargetId(source: SourceSnapshot, msgs: map<string, Node>, src: string): string {
    if exists k :: k != "" && Owns(msgs, k, src) then
      var k :| k != "" && Owns(msgs, k, src); k
    else
      DeterministicId(source, src)
  }

  ghost function TargetIds(source: SourceSnapshot, msgs: map<string, Node>): (ids: seq<string>)
    ensures |ids| == |source.messages|
  {
    var ordered := SortByOrder(source.messages);
    seq(|ordered|, i requires 0 <= i < |ordered| => TargetId(source, msgs, ordered[i].id))
  }

  function BaseNode(msgs: map<string, Node>, id: string): Node {
    if id in msgs then msgs[id] else EMPTY_NODE
  }

  /** The children a rewritten message keeps; a message that had no list and gets
      no successor is written with a null list. */
  function ChildList(base: Node, ids: seq<string>, i: nat): Field<seq<string>>
    requires i < |ids|
  {
    var kept := match base.children case Present(c) => Without(c, Elements(ids)) case _ => [];
    if i + 1 < |ids| then Present([ids[i + 1]] + kept)
    else if base.children.Present? then Present(kept)
    else Null
  }

  function ChainNode(base: Node, ids: seq<string>, m: Message, i: nat): Node
    requires i < |ids|
  {
    base.(
      id := Present(ids[i]),
      parent := if i == 0 then Null else Present(ids[i - 1]),
      children := ChildList(base, ids, i),
      role := Present(m.role),
      content := Present(Join(m.parts)),
      timestamp := if m.createdAt.Some? then Present(m.createdAt.value) else base.timestamp,
      done := if m.role == "assistant" then Present(true) else base.done,
      meta := Present(Meta(BRIDGE_SCHEMA, m.id, m.nodeId, m.channel, m.parts, map[])))
  }

  function ChainNodes(msgs: map<string, Node>, ids: seq<string>, ordered: seq<Message>): (r: seq<Node>)
    requires |ids| == |ordered|
    ensures |r| == |ids|
  {
    seq(|ids|, i requires 0 <= i < |ids| => ChainNode(BaseNode(msgs, ids[i]), ids, ordered[i], i))
  }

  function PlaceChain(msgs: map<string, Node>, ids: seq<string>, ordered: seq<Message>): (r: map<string, Node>)
    requires |ids| == |ordered|
  {
    Overwrite(msgs, ids, ChainNodes(msgs, ids, ordered))
  }

  function HistoryIn(chat: Chat): History {
    match chat.history case Present(h) => h case _ => EMPTY_HISTORY
  }

  function TitleFor(source: SourceSnapshot): string {
    if source.title == "" then "Imported ChatGPT conversation" else source.title
  }

  function BuildOn(base: Chat, ids: seq<string>, ordered: seq<Message>, title: string): Chat
    requires |ids| == |ordered| > 0
  {
    var msgs := PlaceChain(MessagesOf(base), ids, ordered);
    base.(
      title := Present(title),
      history := Present(HistoryIn(base).(messages := Present(msgs), currentId := Present(ids[|ids| - 1]))),
      active := Present(seq(|ids|, i requires 0 <= i < |ids| => msgs[ids[i]])))
  }

  ghost function BuildChat(source: SourceSnapshot, base: Chat): Chat
    requires source.messages != []
  {
    BuildOn(base, TargetIds(source, MessagesOf(base)), SortByOrder(source.messages), TitleFor(source))
  }

  predicate HistoryUsable(base: Chat) {
    base.history.Absent? ||
    (base.history.Present? && (base.history.value.messages.Absent? || base.history.value.messages.Present?))
  }

  /** The source is usable and every message gets a target id of its own. */
  ghost predicate PlanOk(source: SourceSnapshot, base: Chat) {
    && SourceOk(source) && HistoryUsable(base) && ManagedOnce(MessagesOf(base))
    && Distinct(TargetIds(source, MessagesOf(base)))
  }

  /** When building succeeds. */
  ghost predicate BuildOk(source: SourceSnapshot, base: Chat) {
    PlanOk(source, base) && ValidChat(BuildChat(source, base))
  }

  function BaseOf(current: Option<Snapshot>): Chat {
    match current case Some(s) => s.chat case None => EMPTY_CHAT
  }

  /** The snapshot around a new document: identity, flags and envelope of the
      current one are carried over. */
  function Wrap(current: Option<Snapshot>, chat: Chat, n: TargetSnapshot): Snapshot {
    match current
    case Some(s) =>
      s.(chat := chat, normalized := n,
         conflict := HashRelevant(chat, n, s.envelope, s.ownerId, s.archived, s.pinned, s.folder))
    case None =>
      Snapshot("", "", false, false, "", 0, n, chat, None, HashRelevant(chat, n, None, "", false, false, ""))
  }

  ghost function Built(source: SourceSnapshot, current: Option<Snapshot>): Snapshot
    requires BuildOk(source, BaseOf(current))
  {
    var chat := BuildChat(source, BaseOf(current));
    Wrap(current, chat, Normalized(chat))
  }

  // ----- the algorithm -----

  datatype Fault =
    | NoMessages | NoIdentity | Incomplete | DuplicateId | DuplicateNode | DuplicateOrder | BadRole
    | BadHistory | DuplicateManaged | Collision | BadResult(fault: Normalize.Fault)

  method CheckSource(ordered: seq<Message>) returns (r: Option<Fault>)
    ensures r.None? <==> OrderedOk(ordered)
  {
    var seenSources: set<string>, seenNodes: set<string> := {}, {};
    var i := 0;
    while i < |ordered|
      invariant 0 <= i <= |ordered|
      invariant forall j {:trigger FitsAt(ordered, j)} :: 0 <= j < i ==> FitsAt(ordered, j)
      invariant seenSources == set j | 0 <= j < i :: ordered[j].id
      invariant seenNodes == set j | 0 <= j < i :: ordered[j].nodeId
    {
      var m := ordered[i];
      var fault := if !Complete(m) then Some(Incomplete)
        else if m.id in seenSources then Some(DuplicateId)
        else if m.nodeId in seenNodes then Some(DuplicateNode)
        else if i > 0 && ordered[i - 1].order == m.order then Some(DuplicateOrder)
        else if !KnownRole(m) then Some(BadRole)
        else None;
      assert fault.None? <==> FitsAt(ordered, i);
      if fault.Some? { return fault; }
      seenSources, seenNodes := seenSources + {m.id}, seenNodes + {m.nodeId};
      i := i + 1;
    }
    r := None;
  }

  /** Which target message already stands for which source message. */
  method IndexManaged(msgs: map<string, Node>) returns (ok: bool, bySource: map<string, string>)
    ensures ok <==> ManagedOnce(msgs)
    ensures ok ==> forall src :: src in bySource <==> src != "" && exists k :: Owns(msgs, k, src)
    ensures ok ==> forall src :: src in bySource ==> Owns(msgs, bySource[src], src)
  {
    bySource := map[];
    var todo := msgs.Keys;
    while todo != {}
      invariant todo <= msgs.Keys
      invariant forall src :: src in bySource ==> src != "" && bySource[src] !in todo && Owns(msgs, bySource[src], src)
      invariant forall k :: k in msgs && k !in todo && msgs[k].ReadMeta().sourceId != "" ==>
        msgs[k].ReadMeta().sourceId in bySource && bySource[msgs[k].ReadMeta().sourceId] == k
    {
      var k :| k in todo;
      var src := msgs[k].ReadMeta().sourceId;
      if src != "" {
        if src in bySource {
          assert Owns(msgs, k, src) && Owns(msgs, bySource[src], src);
          return false, map[];
        }
        bySource := bySource[src := k];
      }
      todo := todo - {k};
    }
    ok := true;
  }

  method ChooseIds(source: SourceSnapshot, msgs: map<string, Node>, ordered: seq<Message>,
                   bySource: map<string, string>)
    returns (ids: seq<string>)
    requires ordered == SortByOrder(source.messages) && ManagedOnce(msgs)
    requires forall i :: 0 <= i < |ordered| ==> ordered[i].id != ""
    requires forall src :: src in bySource <==> src != "" && exists k :: Owns(msgs, k, src)
    requires forall src :: src in bySource ==> Owns(msgs, bySource[src], src)
    ensures ids == TargetIds(source, msgs)
  {
    hide SortByOrder, DeterministicId;
    ids := [];
    var i := 0;
    while i < |ordered|
      invariant 0 <= i <= |ordered| && |ids| == i
      invariant forall j :: 0 <= j < i ==> ids[j] == TargetId(source, msgs, ordered[j].id)
    {
      var src := ordered[i].id;
      if src in bySource && bySource[src] != "" {
        assert Owns(msgs, bySource[src], src);
        ids := ids + [bySource[src]];
      } else {
        ids := ids + [DeterministicId(source, src)];
      }
      i := i + 1;
    }
  }

  lemma WriteNothing(msgs: map<string, Node>)
    ensures Overwrite(msgs, [], []) == msgs
  {
  }

  lemma WriteNext(msgs: map<string, Node>, ids: seq<string>, ordered: seq<Message>, i: nat)
    requires i < |ids| == |ordered| && Distinct(ids)
    ensures var nodes := ChainNodes(msgs, ids, ordered); var r := Overwrite(msgs, ids[..i], nodes[..i]);
      r[ids[i] := ChainNode(BaseNode(r, ids[i]), ids, ordered[i], i)] == Overwrite(msgs, ids[..i + 1], nodes[..i + 1])
  {
    hide ChainNode, Overwrite;
    var nodes := ChainNodes(msgs, ids, ordered);
    OverwriteNext(msgs, ids, nodes, i);
    assert nodes[i] == ChainNode(BaseNode(msgs, ids[i]), ids, ordered[i], i);
  }

  /** Writes the chain into the message map, first message first. */
  method WriteChain(msgs: map<string, Node>, ids: seq<string>, ordered: seq<Message>) returns (r: map<string, Node>)
    requires |ids| == |ordered| && Distinct(ids)
    ensures r == PlaceChain(msgs, ids, ordered)
  {
    hide ChainNode, Overwrite, ChainNodes;
    r := msgs;
    ghost var nodes := ChainNodes(msgs, ids, ordered);
    WriteNothing(msgs);
    var i := 0;
    while i < |ids|
      invariant 0 <= i <= |ids| && r == Overwrite(msgs, ids[..i], nodes[..i])
    {
      WriteNext(msgs, ids, ordered, i);
      r := r[ids[i] := ChainNode(BaseNode(r, ids[i]), ids, ordered[i], i)];
      i := i + 1;
    }
    assert ids[..i] == ids && nodes[..i] == nodes;
  }

  method Assemble(base: Chat, ids: seq<string>, ordered: seq<Message>, title: string) returns (chat: Chat)
    requires |ids| == |ordered| > 0 && Distinct(ids)
    ensures chat == BuildOn(base, ids, ordered, title)
  {
    var messages := WriteChain(MessagesOf(base), ids, ordered);
    var active := [];
    var i := 0;
    while i < |ids|
      invariant 0 <= i <= |ids| && |active| == i
      invariant forall j :: 0 <= j < i ==> active[j] == messages[ids[j]]
    {
      active := active + [messages[ids[i]]];
      i := i + 1;
    }
    assert active == seq(|ids|, j requires 0 <= j < |ids| => messages[ids[j]]);
    var history := HistoryIn(base).(messages := Present(messages), currentId := Present(ids[|ids| - 1]));
    chat := base.(title := Present(title), history := Present(history), active := Present(active));
  }

  /** The identities of the chain, or why there are none. */
  method PlanChain(source: SourceSnapshot, base: Chat) returns (r: Result<seq<string>, Fault>)
    ensures r.Ok? <==> PlanOk(source, base)
    ensures r.Ok? ==> r.value == TargetIds(source, MessagesOf(base))
  {
    if source.messages == [] { return Err(NoMessages); }
    if source.identity.candidateId == "" && source.shareId == "" { return Err(NoIdentity); }
    var ordered := SortByOrder(source.messages);
    var fault := CheckSource(ordered);
    if fault.Some? { return Err(fault.value); }
    if !HistoryUsable(base) { return Err(BadHistory); }
    var msgs := MessagesOf(base);
    var once, bySource := IndexManaged(msgs);
    if !once { return Err(DuplicateManaged); }
    forall i | 0 <= i < |ordered| ensures ordered[i].id != "" { assert FitsAt(ordered, i); }
    var ids := ChooseIds(source, msgs, ordered, bySource);
    if !Distinct(ids) { return Err(Collision); }
    r := Ok(ids);
  }

  method BuildSnapshot(source: SourceSnapshot, current: Option<Snapshot>) returns (r: Result<Snapshot, Fault>)
    ensures r.Ok? <==> BuildOk(source, BaseOf(current))
    ensures r.Ok? ==> r.value == Built(source, current)
  {
    var base := BaseOf(current);
    var ids := PlanChain(source, base);
    if ids.Err? { return Err(ids.error); }
    var chat := Assemble(base, ids.value, SortByOrder(source.messages), TitleFor(source));
    var normalized := Normalize.NormalizeChat(chat);
    if normalized.Err? { return Err(BadResult(normalized.error)); }
    r := Ok(Wrap(current, chat, normalized.value));
  }
}
