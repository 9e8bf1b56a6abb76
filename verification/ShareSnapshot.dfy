/** Selecting the visible messages of an accepted conversation. */
module ShareSnapshot {
  import opened Basics
  import opened Domain
  import opened RefTable
  import opened ShareParser

  // ----- classifying one node of the path -----

  datatype Class =
    | NonMessage
    | Internal
    | Broken
    | Blocked(kind: string, count: nat)
    | Visible(id: string, role: string, channel: string, parts: seq<string>, count: nat, createdAt: Option<int>)

  predicate Auxiliary(contentType: string) {
    contentType in {"model_editable_context", "reasoning_recap", "thoughts", "reasoning", "analysis",
                    "tether_browsing_display", "tether_quote"}
  }

  predicate Hidden(message: Members) {
    Get(MembersOf(Get(message, "metadata")), "is_visually_hidden_from_conversation") == Scalar(Json("true"))
  }

  predicate InternalRecipient(message: Members) {
    var r := Get(message, "recipient");
    !r.NullValue? && !(r.Text? && (r.text == "" || r.text == "all"))
  }

  predicate AllText(items: seq<Value>) {
    forall i :: 0 <= i < |items| ==> items[i].Text?
  }

  function TextParts(items: seq<Value>): seq<string>
    requires AllText(items)
  {
    seq(|items|, i requires 0 <= i < |items| => items[i].text)
  }

  function ClassifyContent(message: Members, content: Value, role: string, channel: string, texts: Texts): Class {
    if !content.Object? || TextOf(Get(content.members, "content_type")) != "text" then Blocked("content_type", 0)
    else
      var parts := Get(content.members, "parts");
      if !parts.List? then Blocked("parts", 0)
      else if !AllText(parts.items) then Blocked("parts", |parts.items|)
      else
        Visible(TextOf(Get(message, "id")), role, channel,
                texts.degrade(TextParts(parts.items), MembersOf(Get(message, "metadata"))),
                |parts.items|, texts.time(Get(message, "create_time")))
  }

  /** What the message payload of a node amounts to. */
  function Classify(payload: Value, texts: Texts): Class {
    if payload.NullValue? then NonMessage
    else if !payload.Object? then Broken
    else
      var message := payload.members;
      var role := TextOf(Get(MembersOf(Get(message, "author")), "role"));
      var content, channel := Get(message, "content"), Get(message, "channel");
      if role != "user" && role != "assistant" then Internal
      else if Hidden(message) || InternalRecipient(message) then Internal
      else if Auxiliary(TextOf(Get(MembersOf(content), "content_type"))) then Internal
      else if !channel.NullValue? && !channel.Text? then Blocked("channel", 0)
      else if TextOf(channel) !in {"", "final", "commentary"} then Blocked("channel", 0)
      else ClassifyContent(message, content, role, TextOf(channel), texts)
  }

  predicate Ignored(c: Class) {
    c.NonMessage? || c.Internal?
  }

  // ----- the loop over the path -----

  /** A node of the path: its id and its classified payload. */
  datatype Step = Step(nodeId: string, sort: Class)

  datatype State = State(
    messages: seq<Message>, unsupported: seq<UnsupportedItem>, nonMessage: nat, internal: nat, parts: nat, text: nat)

  const START := State([], [], 0, 0, 0, 0)

  function SizeOf(parts: seq<string>, size: string -> nat): nat {
    if parts == [] then 0 else size(parts[0]) + SizeOf(parts[1..], size)
  }

  predicate Known(messages: seq<Message>, id: string) {
    exists i :: 0 <= i < |messages| && messages[i].id == id
  }

  /** Appends a message and links it to the one before. */
  function Append(messages: seq<Message>, nodeId: string, c: Class): seq<Message>
    requires c.Visible?
  {
    var n := |messages|;
    var linked := if n == 0 then [] else messages[n - 1 := messages[n - 1].(childNodeIds := [nodeId])];
    linked + [Message(c.id, nodeId, c.role, c.channel, c.parts,
                      if n == 0 then "" else messages[n - 1].nodeId, [], n, c.createdAt)]
  }

  function Take(s: State, step: Step, limits: Limits, texts: Texts): Result<State, Fault> {
    match step.sort
    case NonMessage => Ok(s.(nonMessage := s.nonMessage + 1))
    case Internal => Ok(s.(internal := s.internal + 1))
    case Broken => Err(BadMessage)
    case Blocked(kind, count) =>
      if s.parts + count > limits.maxParts && count > 0 then Err(TooLarge)
      else Ok(s.(parts := s.parts + count, unsupported := s.unsupported + [UnsupportedItem(step.nodeId, kind)]))
    case Visible(id, _, _, parts, count, _) =>
      if s.parts + count > limits.maxParts then Err(TooLarge)
      else if s.text + SizeOf(parts, texts.size) > limits.maxText then Err(TooLarge)
      else if id == "" then Err(NoMessageId)
      else if Known(s.messages, id) then Err(DuplicateMessage)
      else Ok(s.(parts := s.parts + count, text := s.text + SizeOf(parts, texts.size),
                 messages := Append(s.messages, step.nodeId, step.sort)))
  }

  function Scan(steps: seq<Step>, limits: Limits, texts: Texts): Result<State, Fault> {
    if steps == [] then Ok(START)
    else
      var before := Scan(steps[..|steps| - 1], limits, texts);
      if before.Err? then before else Take(before.value, steps[|steps| - 1], limits, texts)
  }

  method ScanPath(steps: seq<Step>, limits: Limits, texts: Texts) returns (r: Result<State, Fault>)
    ensures r == Scan(steps, limits, texts)
  {
    r := Ok(START);
    var i := 0;
    while i < |steps|
      invariant 0 <= i <= |steps| && r == Scan(steps[..i], limits, texts)
    {
      assert steps[..i + 1][..i] == steps[..i];
      if r.Ok? { r := Take(r.value, steps[i], limits, texts); }
      i := i + 1;
    }
    assert steps[..i] == steps;
  }

  // ----- what the loop selects -----

  function Pick(steps: seq<Step>, keep: Class -> bool): seq<Step> {
    if steps == [] then []
    else
      var rest, last := Pick(steps[..|steps| - 1], keep), steps[|steps| - 1];
      if keep(last.sort) then rest + [last] else rest
  }

  function Selected(steps: seq<Step>): seq<Step> {
    Pick(steps, (c: Class) => c.Visible?)
  }

  /** The nodes that matter: everything but the ignored ones. */
  function Significant(steps: seq<Step>): seq<Step> {
    Pick(steps, (c: Class) => !Ignored(c))
  }

  /** `m` is the message of `step`, at position `i` of the conversation `all`. */
  predicate MessageAt(m: Message, steps: seq<Step>, i: nat)
    requires i < |steps|
  {
    && steps[i].sort.Visible? && m.nodeId == steps[i].nodeId && m.order == i
    && m.id == steps[i].sort.id && m.role == steps[i].sort.role && m.channel == steps[i].sort.channel
    && m.parts == steps[i].sort.parts && m.createdAt == steps[i].sort.createdAt
    && m.parentNodeId == (if i == 0 then "" else steps[i - 1].nodeId)
    && m.childNodeIds == (if i + 1 < |steps| then [steps[i + 1].nodeId] else [])
  }

  /** The messages are the visible nodes of the path in order, numbered from zero
      and linked as a chain, with distinct non-empty ids. */
  predicate SelectsExactly(messages: seq<Message>, steps: seq<Step>) {
    && |messages| == |Selected(steps)|
    && (forall i :: 0 <= i < |messages| ==> MessageAt(messages[i], Selected(steps), i))
    && (forall i :: 0 <= i < |messages| ==> messages[i].id != "")
    && (forall i, j :: 0 <= i < j < |messages| ==> messages[i].id != messages[j].id)
  }

  lemma AppendSelects(messages: seq<Message>, steps: seq<Step>, step: Step)
    requires SelectsExactly(messages, steps) && step.sort.Visible? && step.sort.id != ""
    requires !Known(messages, step.sort.id)
    ensures SelectsExactly(Append(messages, step.nodeId, step.sort), steps + [step])
  {
    assert (steps + [step])[..|steps|] == steps;
    var was, all := Selected(steps), Selected(steps + [step]);
    assert all == was + [step];
    var n, more := |messages|, Append(messages, step.nodeId, step.sort);
    forall i | 0 <= i < |more|
      ensures MessageAt(more[i], all, i) && more[i].id == (if i < n then messages[i].id else step.sort.id)
    {
      if i < n { assert MessageAt(messages[i], was, i); }
      if i == n && n > 0 { assert MessageAt(messages[n - 1], was, n - 1); }
    }
  }

  /** The state after `steps` accounts for each of them. */
  ghost predicate Accounts(s: State, steps: seq<Step>, limits: Limits) {
    && |s.messages| + |s.unsupported| + s.nonMessage + s.internal == |steps|
    && SelectsExactly(s.messages, steps)
    && s.parts <= limits.maxParts && s.text <= limits.maxText
  }

  lemma TakeAccounts(s: State, steps: seq<Step>, step: Step, limits: Limits, texts: Texts)
    requires Accounts(s, steps, limits) && Take(s, step, limits, texts).Ok?
    ensures Accounts(Take(s, step, limits, texts).value, steps + [step], limits)
  {
    if step.sort.Visible? {
      AppendSelects(s.messages, steps, step);
    } else {
      assert (steps + [step])[..|steps|] == steps;
      assert Selected(steps + [step]) == Selected(steps);
    }
  }

  /** Every node is counted exactly once, and the selected messages are the visible
      nodes of the path. */
  lemma {:induction false} ScanConserves(steps: seq<Step>, limits: Limits, texts: Texts)
    requires Scan(steps, limits, texts).Ok?
    ensures Accounts(Scan(steps, limits, texts).value, steps, limits)
    decreases |steps|
  {
    if steps != [] {
      var before, last := steps[..|steps| - 1], steps[|steps| - 1];
      assert steps == before + [last];
      ScanConserves(before, limits, texts);
      TakeAccounts(Scan(before, limits, texts).value, before, last, limits, texts);
    }
  }

  /** Ignored nodes anywhere on the path change nothing but the exclusion counters:
      not the messages, not the unsupported items, not even which error occurs. */
  lemma {:induction false} IgnoredNodesDoNotMatter(steps: seq<Step>, limits: Limits, texts: Texts)
    ensures var all, core := Scan(steps, limits, texts), Scan(Significant(steps), limits, texts);
      if core.Err? then all == core
      else all.Ok? && core.value == all.value.(nonMessage := 0, internal := 0)
    decreases |steps|
  {
    if steps != [] {
      var before, last := steps[..|steps| - 1], steps[|steps| - 1];
      IgnoredNodesDoNotMatter(before, limits, texts);
      if !Ignored(last.sort) {
        assert Significant(steps)[..|Significant(before)|] == Significant(before);
      }
    }
  }

  // ----- the whole conversation -----

  predicate MappingOk(mapping: Value, limits: Limits) {
    && mapping.Object? && mapping.members != map[] && |mapping.members| <= limits.maxNodes
    && forall id :: id in mapping.members ==> id != "" && IsNode(mapping.members, id)
  }

  /** A linear node repeats the fields of its mapped node that are used. */
  predicate LinearNodeOk(mapping: Members, node: Value) {
    && node.Object? && Get(node.members, "id").Text?
    && var id := TextOf(Get(node.members, "id"));
    && id != "" && IsNode(mapping, id)
    && Get(mapping[id].members, "parent") == Get(node.members, "parent")
    && Get(mapping[id].members, "children") == Get(node.members, "children")
    && Get(mapping[id].members, "message") == Get(node.members, "message")
  }

  predicate LinearOk(mapping: Members, linear: Value, limits: Limits) {
    && linear.List? && linear.items != [] && |linear.items| <= limits.maxNodes
    && forall i :: 0 <= i < |linear.items| ==> LinearNodeOk(mapping, linear.items[i])
  }

  function LinearIds(linear: Value): (r: seq<string>)
    requires linear.List?
    ensures |r| == |linear.items|
  {
    seq(|linear.items|, i requires 0 <= i < |linear.items| => TextOf(Get(MembersOf(linear.items[i]), "id")))
  }

  predicate ChildrenOf(node: Value, id: string, mapping: Members) {
    var cs := Get(MembersOf(node), "children");
    cs.NullValue? || (cs.List? && AllText(cs.items) && forall i :: 0 <= i < |cs.items| ==>
      cs.items[i].text in mapping && TextOf(Get(MembersOf(mapping[cs.items[i].text]), "parent")) == id)
  }

  predicate ListedByParent(node: Value, id: string, mapping: Members) {
    var p := Get(MembersOf(node), "parent");
    p.NullValue? || (p.Text? && p.text != "" && p.text in mapping &&
      var cs := Get(MembersOf(mapping[p.text]), "children");
      cs.List? && AllText(cs.items) && Text(id) in cs.items)
  }

  /** Parent and child references agree in both directions, over the whole mapping. */
  predicate Reciprocal(mapping: Members) {
    forall id :: id in mapping ==> ChildrenOf(mapping[id], id, mapping) && ListedByParent(mapping[id], id, mapping)
  }

  function StepsOf(mapping: Members, ids: seq<string>, texts: Texts): (r: seq<Step>)
    ensures |r| == |ids|
  {
    seq(|ids|, i requires 0 <= i < |ids| =>
      Step(ids[i], Classify(Get(MembersOf(Get(mapping, ids[i])), "message"), texts)))
  }

  predicate OptionalText(conversation: Members, key: string) {
    Get(conversation, key).NullValue? || Get(conversation, key).Text?
  }

  /** What a usable conversation is. */
  ghost predicate Accepted(conversation: Members, limits: Limits, texts: Texts) {
    var mapping, linear, current :=
      Get(conversation, "mapping"),
      Get(conversation, "linear_conversation"),
      TextOf(Get(conversation, "current_node"));
    && MappingOk(mapping, limits) && LinearOk(mapping.members, linear, limits) && current != ""
    && |linear.items| <= limits.maxDepth + 1
    && IsChain(mapping.members, LinearIds(linear), current)
    && Reciprocal(mapping.members)
    && (var s := Scan(StepsOf(mapping.members, LinearIds(linear), texts), limits, texts);
        s.Ok? && s.value.messages != [])
    && OptionalText(conversation, "title") && OptionalText(conversation, "conversation_id")
    && OptionalText(conversation, "backing_conversation_id")
  }

  function SnapshotOf(conversation: Members, s: State, fetchedAt: int, texts: Texts): SourceSnapshot
    requires s.messages != []
  {
    var backing := TextOf(Get(conversation, "backing_conversation_id"));
    SourceSnapshot(
      SOURCE_TYPE, Identity(backing, if backing == "" then Unknown else Candidate),
      TextOf(Get(conversation, "conversation_id")), TextOf(Get(conversation, "title")),
      s.messages, s.messages[|s.messages| - 1].nodeId, texts.time(Get(conversation, "create_time")), fetchedAt,
      PARSER_VERSION,
      Coverage(s.unsupported != [], |s.messages|, s.internal, s.nonMessage, s.unsupported, []))
  }

  method BuildSnapshot(conversation: Members, fetchedAt: int, limits: Limits, texts: Texts)
    returns (r: Result<SourceSnapshot, Fault>)
    ensures r.Ok? <==> Accepted(conversation, limits, texts)
    ensures r.Ok? ==>
      && Selects(PathSteps(conversation, texts), limits, texts)
      && r.value == ParsedAs(conversation, fetchedAt, limits, texts)
  {
    var mapping, linear := Get(conversation, "mapping"), Get(conversation, "linear_conversation");
    if !MappingOk(mapping, limits) { return Err(BadMapping); }
    if !linear.List? { return Err(BadLinear); }
    var current := TextOf(Get(conversation, "current_node"));
    if current == "" { return Err(BadCurrent); }
    if !LinearOk(mapping.members, linear, limits) { return Err(LinearDiffers); }
    var ids := LinearIds(linear);
    var chain := Ancestry(mapping.members, current, limits.maxDepth);
    if chain.None? { return Err(BadChain); }
    if chain.value != ids {
      if IsChain(mapping.members, ids, current) { ChainUnique(mapping.members, ids, chain.value, current); }
      return Err(LinearDiffers);
    }
    if !Reciprocal(mapping.members) { return Err(BadChildren); }
    var s := ScanPath(StepsOf(mapping.members, ids, texts), limits, texts);
    if s.Err? { return Err(s.error); }
    if s.value.messages == [] { return Err(NoMessages); }
    if !OptionalText(conversation, "title") || !OptionalText(conversation, "conversation_id")
      || !OptionalText(conversation, "backing_conversation_id") { return Err(BadText); }
    r := Ok(SnapshotOf(conversation, s.value, fetchedAt, texts));
  }

  function PathSteps(conversation: Members, texts: Texts): seq<Step> {
    var linear := Get(conversation, "linear_conversation");
    if linear.List? then StepsOf(MembersOf(Get(conversation, "mapping")), LinearIds(linear), texts) else []
  }

  /** Fields of a conversation, outside its path, that reach the business hash. */
  predicate SameHeader(a: Members, b: Members) {
    && Get(a, "title") == Get(b, "title") && Get(a, "conversation_id") == Get(b, "conversation_id")
    && Get(a, "backing_conversation_id") == Get(b, "backing_conversation_id")
    && Get(a, "create_time") == Get(b, "create_time")
  }

  function ParsedAs(conversation: Members, fetchedAt: int, limits: Limits, texts: Texts): SourceSnapshot
    requires Selects(PathSteps(conversation, texts), limits, texts)
  {
    SnapshotOf(conversation, Scan(PathSteps(conversation, texts), limits, texts).value, fetchedAt, texts)
  }

  /** The path gave messages. */
  predicate Selects(steps: seq<Step>, limits: Limits, texts: Texts) {
    Scan(steps, limits, texts).Ok? && Scan(steps, limits, texts).value.messages != []
  }

  lemma CountersStayOut(a: Members, b: Members, s: State, t: State, atA: int, atB: int, texts: Texts)
    requires SameHeader(a, b) && s.messages == t.messages != [] && s.unsupported == t.unsupported
    ensures SnapshotOf(a, s, atA, texts).Business() == SnapshotOf(b, t, atB, texts).Business()
  {
  }

  /** Two usable conversations that differ on their paths only in ignored nodes have
      the same business hash; what else differs in the mapping is irrelevant. */
  lemma {:induction false} IgnoredNodesKeepHash(a: Members, b: Members, atA: int, atB: int, limits: Limits,
                                                texts: Texts)
    requires Selects(PathSteps(a, texts), limits, texts) && Selects(PathSteps(b, texts), limits, texts)
    requires SameHeader(a, b) && Significant(PathSteps(a, texts)) == Significant(PathSteps(b, texts))
    ensures ParsedAs(a, atA, limits, texts).Business() == ParsedAs(b, atB, limits, texts).Business()
  {
    var p, q := PathSteps(a, texts), PathSteps(b, texts);
    IgnoredNodesDoNotMatter(p, limits, texts);
    IgnoredNodesDoNotMatter(q, limits, texts);
    CountersStayOut(a, b, Scan(p, limits, texts).value, Scan(q, limits, texts).value, atA, atB, texts);
  }

  /** The linear conversation of an accepted page is the one parent chain from a root
      to the current node, without repeats; its messages are exactly the visible
      nodes of that chain and every node is accounted for once. */
  lemma {:induction false} AcceptedPath(conversation: Members, fetchedAt: int, limits: Limits, texts: Texts,
                                        other: seq<string>)
    requires Accepted(conversation, limits, texts)
    ensures var mapping, ids, steps :=
              MembersOf(Get(conversation, "mapping")),
              LinearIds(Get(conversation, "linear_conversation")),
              PathSteps(conversation, texts);
      var snapshot := ParsedAs(conversation, fetchedAt, limits, texts);
      && Distinct(ids)
      && (IsChain(mapping, other, TextOf(Get(conversation, "current_node"))) ==> other == ids)
      && SelectsExactly(snapshot.messages, steps)
      && var c := snapshot.coverage;
      && c.selected + |c.unsupported| + c.nonMessage + c.internal == |ids|
  {
    var mapping, ids := MembersOf(Get(conversation, "mapping")), LinearIds(Get(conversation, "linear_conversation"));
    var current := TextOf(Get(conversation, "current_node"));
    forall i, j | 0 <= i < j < |ids| ensures ids[i] != ids[j] { ChainDistinct(mapping, ids, current, i, j); }
    if IsChain(mapping, other, current) { ChainUnique(mapping, other, ids, current); }
    ScanConserves(PathSteps(conversation, texts), limits, texts);
  }
}
