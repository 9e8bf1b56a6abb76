/** What building a document guarantees: when it succeeds, what it preserves and
    what the result reads back as. */
module BuildTheorems {
  import opened Basics
  import opened Domain
  import opened ChatGraph
  import opened Builder
  import opened Relinking

  lemma TargetIdFacts(source: SourceSnapshot, msgs: map<string, Node>, src: string)
    ensures TargetId(source, msgs, src) != ""
  {
  }

  /** The ingredients of a build that are usable together. */
  lemma PlanFacts(source: SourceSnapshot, base: Chat)
    requires PlanOk(source, base)
    ensures var ids, ordered := TargetIds(source, MessagesOf(base)), SortByOrder(source.messages);
      |ids| == |ordered| > 0 && Distinct(ids) && "" !in ids && OrderedOk(ordered)
  {
    var ids, ordered := TargetIds(source, MessagesOf(base)), SortByOrder(source.messages);
    forall i | 0 <= i < |ids| ensures ids[i] != "" {
      TargetIdFacts(source, MessagesOf(base), ordered[i].id);
    }
  }

  /** A document to build on: none, or one that could be read. */
  ghost predicate Usable(base: Chat) {
    base == EMPTY_CHAT || ValidChat(base)
  }

  lemma UsableHistoric(base: Chat)
    requires Usable(base)
    ensures Parses(MessagesOf(base)) && Historic(GraphOf(base))
  {
    if base == EMPTY_CHAT { assert Ranked(GraphOf(base), map[]); }
  }

  lemma ParsedAgrees(n: Node, key: string, g: Graph)
    requires key in g && ParseNode(key, n) == Some(g[key])
    ensures Agrees(n, key, g)
  {
  }

  lemma BuiltParts(base: Chat, ids: seq<string>, ordered: seq<Message>, title: string)
    requires |ids| == |ordered| > 0
    ensures var chat := BuildOn(base, ids, ordered, title);
      && MessagesOf(chat) == PlaceChain(MessagesOf(base), ids, ordered)
      && CurrentOf(chat) == ids[|ids| - 1] && TitleOf(chat) == title
      && |ViewIn(chat)| == |ids|
      && forall i :: 0 <= i < |ids| ==> ids[i] in MessagesOf(chat) && ViewIn(chat)[i] == MessagesOf(chat)[ids[i]]
  {
  }

  /** The history the builder writes is the relinked one. */
  lemma BuiltHistory(base: Chat, ids: seq<string>, ordered: seq<Message>, title: string)
    requires |ids| == |ordered| > 0 && Distinct(ids) && "" !in ids && OrderedOk(ordered)
    requires Parses(MessagesOf(base)) && Named(GraphOf(base))
    ensures var chat := BuildOn(base, ids, ordered, title);
      Parses(MessagesOf(chat)) && GraphOf(chat) == Relinked(GraphOf(base), ids, ordered)
      && CurrentOf(chat) == ids[|ids| - 1] && TitleOf(chat) == title
      && Fits(GraphOf(base), ids, GraphOf(chat))
  {
    BuiltParts(base, ids, ordered, title);
    BuiltGraph(MessagesOf(base), ids, ordered);
    RelinkedFits(GraphOf(base), ids, ordered);
  }

  /** The view the builder writes is the chain, message for message. */
  lemma BuiltView(base: Chat, ids: seq<string>, ordered: seq<Message>, title: string)
    requires |ids| == |ordered| > 0 && Distinct(ids) && "" !in ids && OrderedOk(ordered)
    requires Parses(MessagesOf(base)) && Named(GraphOf(base))
    ensures var chat := BuildOn(base, ids, ordered, title);
      Parses(MessagesOf(chat)) && ValidView(ViewIn(chat), GraphOf(chat), CurrentOf(chat))
  {
    var chat := BuildOn(base, ids, ordered, title);
    BuiltHistory(base, ids, ordered, title);
    BuiltParts(base, ids, ordered, title);
    RelinkedFits(GraphOf(base), ids, ordered);
    hide OrderedOk, ParseNode, ChainNode, Chained, Relinked, PlaceChain, Fits, ValidView, BuildOn, Parses;
    ViewOfChain(GraphOf(base), ids, GraphOf(chat), MessagesOf(chat), ViewIn(chat));
  }

  lemma ViewOfChain(g: Graph, ids: seq<string>, h: Graph, msgs: map<string, Node>, view: seq<Node>)
    requires Fits(g, ids, h) && Parses(msgs) && h == ParseAll(msgs) && |view| == |ids|
    requires forall i :: 0 <= i < |ids| ==> ids[i] in msgs && view[i] == msgs[ids[i]]
    ensures ValidView(view, h, ids[|ids| - 1])
  {
    ChainIsPath(g, ids, h);
    forall i | 0 <= i < |ids| ensures Agrees(view[i], ids[i], h) {
      ParsedAgrees(msgs[ids[i]], ids[i], h);
    }
    assert ViewOf(view, ids, h);
  }

  /** Only the shape of the new history decides whether the new document is readable. */
  lemma ValidIffTree(base: Chat, ids: seq<string>, ordered: seq<Message>, title: string)
    requires |ids| == |ordered| > 0 && Distinct(ids) && "" !in ids && OrderedOk(ordered)
    requires Parses(MessagesOf(base)) && Named(GraphOf(base))
    ensures var chat := BuildOn(base, ids, ordered, title);
      Parses(MessagesOf(chat)) && (ValidChat(chat) <==> ValidGraph(GraphOf(chat), CurrentOf(chat)))
  {
    BuiltView(base, ids, ordered, title);
    hide Parses, ParseAll, ValidGraph, ValidView, PlaceChain, OrderedOk, Named;
  }


  /** Building on a readable document succeeds exactly when the chain messages that
      are already there are some of the history, are closed under parents, and the
      last chain message has no other child. Without a document it always does. */
  lemma {:induction false} BuildSucceedsIff(source: SourceSnapshot, base: Chat)
    requires PlanOk(source, base) && Usable(base)
    ensures TargetIds(source, MessagesOf(base)) != [] && Parses(MessagesOf(base))
    ensures BuildOk(source, base) <==> Attachable(GraphOf(base), TargetIds(source, MessagesOf(base)))
  {
    var ids, ordered := TargetIds(source, MessagesOf(base)), SortByOrder(source.messages);
    PlanFacts(source, base);
    UsableHistoric(base);
    BuiltHistory(base, ids, ordered, TitleFor(source));
    ValidIffTree(base, ids, ordered, TitleFor(source));
    BuiltParts(base, ids, ordered, TitleFor(source));
    var g, chat := GraphOf(base), BuildChat(source, base);
    var h := GraphOf(chat);
    RelinkedFits(g, ids, ordered);
    hide ValidChat, ValidGraph, Parses, ParseAll, OrderedOk, BuildOn, Relinked, Fits, TargetIds, Usable, SortByOrder;
    if Attachable(g, ids) { AttachableIsValid(g, ids, h); }
    if ValidGraph(h, CurrentOf(chat)) { ValidIsAttachable(g, ids, h); }
  }

  // ----- what is preserved -----

  /** Nothing outside the chain changes: foreign messages are untouched, unknown
      members survive at every level, receipts and ids at chat level stay. */
  lemma {:induction false} BuildPreserves(source: SourceSnapshot, base: Chat, k: string)
    requires PlanOk(source, base)
    ensures var chat := BuildChat(source, base);
      var ids := TargetIds(source, MessagesOf(base));
      && chat.extra == base.extra && chat.marker == base.marker && chat.id == base.id
      && HistoryIn(chat).extra == HistoryIn(base).extra
      && MessagesOf(chat).Keys == MessagesOf(base).Keys + Elements(ids)
      && (k in MessagesOf(base) && k !in ids ==> MessagesOf(chat)[k] == MessagesOf(base)[k])
      && (k in MessagesOf(base) ==> MessagesOf(chat)[k].extra == MessagesOf(base)[k].extra)
  {
    PlanFacts(source, base);
    var ids, ordered := TargetIds(source, MessagesOf(base)), SortByOrder(source.messages);
    if k in ids {
      var i := IndexOf(ids, k);
      assert ChainNodes(MessagesOf(base), ids, ordered)[i]
               == ChainNode(BaseNode(MessagesOf(base), ids[i]), ids, ordered[i], i);
      assert MessagesOf(BuildChat(source, base))[ids[i]] == ChainNodes(MessagesOf(base), ids, ordered)[i];
    }
  }

  lemma WithoutConcat(a: seq<string>, b: seq<string>, drop: set<string>)
    ensures Without(a + b, drop) == Without(a, drop) + Without(b, drop)
  {
    if a == [] {
      assert a + b == b;
    } else {
      assert (a + b)[1..] == a[1..] + b;
    }
  }

  lemma WithoutTwice(s: seq<string>, drop: set<string>)
    ensures Without(Without(s, drop), drop) == Without(s, drop)
  {
  }

  lemma KeepsForeign(g: Graph, ids: seq<string>, ordered: seq<Message>, k: string)
    requires |ids| == |ordered| && Distinct(ids) && k in g
    ensures k in Relinked(g, ids, ordered)
    ensures Without(Relinked(g, ids, ordered)[k].children, Elements(ids)) == Without(g[k].children, Elements(ids))
  {
    RelinkedAt(g, ids, ordered, k);
    if k in ids {
      var i, chain := IndexOf(ids, k), Elements(ids);
      var kept := Without(g[k].children, chain);
      WithoutTwice(g[k].children, chain);
      if i + 1 < |ids| {
        WithoutConcat([ids[i + 1]], kept, chain);
        WithoutAll([ids[i + 1]], chain);
      }
    }
  }

  /** Every message keeps its foreign children, in the order it had them. */
  lemma {:induction false} BuildKeepsForeignChildren(source: SourceSnapshot, base: Chat, k: string)
    requires BuildOk(source, base) && Usable(base) && k in MessagesOf(base) && Parses(MessagesOf(base))
    ensures var chain := Elements(TargetIds(source, MessagesOf(base)));
      k in GraphOf(BuildChat(source, base)) &&
      Without(GraphOf(BuildChat(source, base))[k].children, chain) == Without(GraphOf(base)[k].children, chain)
  {
    var ids, ordered := TargetIds(source, MessagesOf(base)), SortByOrder(source.messages);
    PlanFacts(source, base);
    UsableHistoric(base);
    BuiltHistory(base, ids, ordered, TitleFor(source));
    KeepsForeign(GraphOf(base), ids, ordered, k);
  }

  // ----- what the result reads back as -----

  /** `m` is the managed copy of source message `s` at position `i`. */
  predicate CopyOf(m: TargetMessage, s: Message, i: nat) {
    m.managed && m.sourceId == s.id && m.role == s.role && m.channel == s.channel && m.parts == s.parts && m.order == i
  }

  /** The target is the source conversation: all messages managed, one for each
      source message, in source order, and the last one current. */
  predicate Mirrors(target: TargetSnapshot, source: SourceSnapshot) {
    var ordered := SortByOrder(source.messages);
    && |target.messages| == |ordered| > 0
    && (forall i :: 0 <= i < |ordered| ==> CopyOf(target.messages[i], ordered[i], i))
    && target.current == target.messages[|ordered| - 1].id
  }

  ghost predicate OnlyNext(h: Graph, ids: seq<string>, i: nat)
    requires i < |ids|
  {
    ids[i] in h && h[ids[i]].children == if i + 1 < |ids| then [ids[i + 1]] else []
  }

  /** In a history that is one chain, the preorder is the chain. */
  lemma {:induction false} ChainTree(h: Graph, ids: seq<string>, t: Tree, i: nat)
    requires i < |ids| && Represents(h, t) && t.id == ids[i]
    requires forall j {:trigger OnlyNext(h, ids, j)} :: 0 <= j < |ids| ==> OnlyNext(h, ids, j)
    ensures Flatten(t) == ids[i..]
    decreases |ids| - i
  {
    assert OnlyNext(h, ids, i);
    if i + 1 < |ids| {
      var kid := t.kids[0];
      assert kid.id == h[t.id].children[0] == ids[i + 1];
      ChainTree(h, ids, kid, i + 1);
      assert t.kids == [kid];
      assert FlattenAll(t.kids) == Flatten(kid) + FlattenAll([]);
    }
    assert ids[i..] == [ids[i]] + ids[i + 1..];
  }

  lemma {:induction false} ChainOrder(g: Graph, ids: seq<string>, h: Graph)
    requires Fits(g, ids, h) && ValidGraph(h, ids[|ids| - 1]) && g.Keys <= Elements(ids)
    requires Named(g) && Linked(g)
    ensures Order(h) == ids
  {
    forall i | 0 <= i < |ids| ensures OnlyNext(h, ids, i) {
      ChainKids(g, ids, h, i);
    }
    var t := RootTree(h);
    assert PlacedAt(g, ids, h, 0);
    ChainTree(h, ids, t, 0);
    assert ids[0..] == ids;
  }

  lemma ChainKids(g: Graph, ids: seq<string>, h: Graph, i: nat)
    requires Fits(g, ids, h) && g.Keys <= Elements(ids) && Named(g) && Linked(g) && i < |ids|
    ensures OnlyNext(h, ids, i)
  {
    assert PlacedAt(g, ids, h, i);
    forall c | c in Kids(g, ids[i]) ensures c in ids {
      var j :| 0 <= j < |g[ids[i]].children| && g[ids[i]].children[j] == c;
      ChildFacts(g, ids[i], j);
    }
    WithoutAll(Kids(g, ids[i]), Elements(ids));
    var children := h[ids[i]].children;
    if i + 1 < |ids| {
      OnlyMember(children, ids[i + 1]);
    }
  }

  /** When nothing but chain messages is in the way, the built document reads back
      as the source conversation: ids, roles, channels and part boundaries intact. */
  lemma {:induction false} BuildMirrors(source: SourceSnapshot, base: Chat)
    requires BuildOk(source, base) && Usable(base)
    requires MessagesOf(base).Keys <= Elements(TargetIds(source, MessagesOf(base)))
    ensures var n := Normalized(BuildChat(source, base));
      Mirrors(n, source) && InSourceOrder(n, source) && n.title == TitleFor(source)
      && forall i :: 0 <= i < |n.messages| ==> n.messages[i].id == TargetIds(source, MessagesOf(base))[i]
  {
    var ids, ordered := TargetIds(source, MessagesOf(base)), SortByOrder(source.messages);
    PlanFacts(source, base);
    UsableHistoric(base);
    BuiltHistory(base, ids, ordered, TitleFor(source));
    var g, chat := GraphOf(base), BuildChat(source, base);
    var h, n := GraphOf(chat), Normalized(chat);
    ChainOrder(g, ids, h);
    forall i | 0 <= i < |ids| ensures CopyOf(n.messages[i], ordered[i], i) && n.messages[i].id == ids[i] {
      assert FitsAt(ordered, i);
      assert h[ids[i]] == Chained(g, ids, ordered, i);
      assert n.messages[i] == Project(h[ids[i]], ids[i], i);
    }
    MirrorsInOrder(n, source);
  }

  /** `t` lists exactly the messages of `source`, in strictly ascending source order. */
  ghost predicate InSourceOrder(t: TargetSnapshot, source: SourceSnapshot) {
    && |t.messages| == |source.messages|
    && exists picked: seq<Message> ::
      && multiset(picked) == multiset(source.messages) && |picked| == |t.messages|
      && (forall i :: 0 <= i < |picked| ==> CopyOf(t.messages[i], picked[i], i))
      && forall i, j :: 0 <= i < j < |picked| ==> picked[i].order < picked[j].order
  }

  /** In a usable source no two messages share an order, so sorting is strict. */
  lemma UsableIsStrict(ordered: seq<Message>, i: nat, j: nat)
    requires Ascends(ordered) && OrderedOk(ordered) && i < j < |ordered|
    ensures ordered[i].order < ordered[j].order
  {
    assert FitsAt(ordered, j);
    assert ordered[i].order <= ordered[j - 1].order <= ordered[j].order;
  }

  lemma MirrorsInOrder(t: TargetSnapshot, source: SourceSnapshot)
    requires Mirrors(t, source) && OrderedOk(SortByOrder(source.messages))
    ensures InSourceOrder(t, source)
  {
    var ordered := SortByOrder(source.messages);
    forall i, j | 0 <= i < j < |ordered| ensures ordered[i].order < ordered[j].order { UsableIsStrict(ordered, i, j); }
  }

  /** Creating from nothing succeeds for every usable source and reads back as it: its
      messages, in strictly ascending source order. */
  lemma {:induction false} CreateRoundTrip(source: SourceSnapshot)
    requires SourceOk(source)
    ensures BuildOk(source, EMPTY_CHAT)
    ensures Mirrors(Normalized(BuildChat(source, EMPTY_CHAT)), source)
    ensures InSourceOrder(Normalized(BuildChat(source, EMPTY_CHAT)), source)
  {
    var ordered, ids := SortByOrder(source.messages), TargetIds(source, map[]);
    forall i, j | 0 <= i < j < |ids| ensures ids[i] != ids[j] {
      assert FitsAt(ordered, j);
      FreshIdsDiffer(source, ordered[i].id, ordered[j].id);
    }
    BuildSucceedsIff(source, EMPTY_CHAT);
    BuildMirrors(source, EMPTY_CHAT);
  }

  /** With digests injective, new target ids differ for different source messages. */
  lemma FreshIdsDiffer(source: SourceSnapshot, a: string, b: string)
    ensures DeterministicId(source, a) == DeterministicId(source, b) <==> a == b
  {
    var p := DeterministicId(source, "");
    assert DeterministicId(source, a) == p + a && DeterministicId(source, b) == p + b;
    assert (p + a)[|p|..] == a && (p + b)[|p|..] == b;
  }
}
