/** The Open WebUI chat document and what it means for its history to be one
    rooted tree with an active branch view. */
module ChatGraph {
  import opened Basics
  import opened Domain

  const BRIDGE_SCHEMA := "1"

  /** Per-message bridge metadata. */
  datatype Meta = Meta(
    schema: string, sourceId: string, nodeId: string, channel: string, parts: seq<string>, extra: map<string, Json>)

  const NO_META := Meta("", "", "", "", [], map[])

  datatype Node = Node(
    id: Field<string>, role: Field<string>, content: Field<string>,
    parent: Field<string>, children: Field<seq<string>>, meta: Field<Meta>,
    timestamp: Field<int>, done: Field<bool>, extra: map<string, Json>)
  {
    function ReadMeta(): Meta {
      match meta
      case Present(m) => m
      case _ => NO_META
    }

    /** The parent id, with "" for none; None when the member is unusable. */
    function ReadParent(): Option<string> {
      match parent
      case Present(p) => Some(p)
      case Malformed(_) => None
      case _ => Some("")
    }
  }

  /** The operation receipt kept at chat level. */
  datatype Marker = Marker(schema: string, createdBy: string, lastOperation: string, extra: map<string, Json>)

  datatype History = History(currentId: Field<string>, messages: Field<map<string, Node>>, extra: map<string, Json>)

  datatype Chat = Chat(
    title: Field<string>, history: Field<History>, active: Field<seq<Node>>,
    marker: Field<Marker>, id: Field<Json>, extra: map<string, Json>)

  // ----- the history as a graph -----

  datatype Parsed = Parsed(parent: string, role: string, content: string, children: seq<string>, meta: Meta)

  type Graph = map<string, Parsed>

  function ParseNode(key: string, n: Node): Option<Parsed> {
    var role, content, children, parent := n.role.Read(""), n.content.Read(""), n.children.Read([]), n.ReadParent();
    if n.id.Read("") != Some(key) || key == "" then None
    else if role.None? || role.value == "" then None
    else if content.None? then None
    else if parent.None? || n.parent == Present("") then None
    else if children.None? || !Distinct(children.value) then None
    else Some(Parsed(parent.value, role.value, content.value, children.value, n.ReadMeta()))
  }

  predicate Parses(msgs: map<string, Node>) {
    forall k :: k in msgs ==> ParseNode(k, msgs[k]).Some?
  }

  function ParseAll(msgs: map<string, Node>): Graph
    requires Parses(msgs)
  {
    map k | k in msgs :: ParseNode(k, msgs[k]).value
  }

  ghost predicate Named(g: Graph) {
    "" !in g && forall k {:trigger g[k]} :: k in g ==> Distinct(g[k].children)
  }

  predicate ParentLinked(g: Graph, k: string)
    requires k in g
  {
    g[k].parent != "" ==> g[k].parent in g && k in g[g[k].parent].children
  }

  predicate ChildrenLinked(g: Graph, k: string)
    requires k in g
  {
    forall c :: c in g[k].children ==> c in g && g[c].parent == k
  }

  /** Parent and child links agree in both directions. */
  ghost predicate Linked(g: Graph) {
    forall k {:trigger ParentLinked(g, k)} {:trigger ChildrenLinked(g, k)} :: k in g ==>
      ParentLinked(g, k) && ChildrenLinked(g, k)
  }

  ghost predicate IsRoot(g: Graph, r: string) {
    r in g && g[r].parent == "" && forall k :: k in g && g[k].parent == "" ==> k == r
  }

  /** A ranking under which every parent precedes its children. */
  ghost predicate Ranked(g: Graph, rank: map<string, nat>) {
    rank.Keys == g.Keys &&
    forall k {:trigger g[k]} :: k in g && g[k].parent != "" ==> g[k].parent in g && rank[g[k].parent] < rank[k]
  }

  ghost predicate Acyclic(g: Graph) {
    exists rank :: Ranked(g, rank)
  }

  /** One rooted tree whose current message is a leaf. */
  ghost predicate ValidGraph(g: Graph, current: string) {
    && Named(g) && Linked(g) && Acyclic(g)
    && (exists r :: IsRoot(g, r))
    && current in g && g[current].children == []
  }

  lemma ChildFacts(g: Graph, id: string, i: nat)
    requires Named(g) && Linked(g) && id in g && i < |g[id].children|
    ensures g[id].children[i] in g[id].children
    ensures g[id].children[i] in g && g[g[id].children[i]].parent == id && id != ""
  {
    assert ChildrenLinked(g, id);
    assert g[id].children[i] in g[id].children;
  }

  // ----- trees and their preorder -----

  datatype Tree = Tree(id: string, kids: seq<Tree>)

  ghost function Flatten(t: Tree): seq<string>
    decreases t, 0
  {
    [t.id] + FlattenAll(t.kids)
  }

  ghost function FlattenAll(ts: seq<Tree>): seq<string>
    decreases ts
  {
    if ts == [] then [] else Flatten(ts[0]) + FlattenAll(ts[1..])
  }

  lemma FlattenAllSnoc(ts: seq<Tree>, t: Tree)
    ensures FlattenAll(ts + [t]) == FlattenAll(ts) + Flatten(t)
  {
    if ts == [] {
      assert ts + [t] == [t];
      assert FlattenAll([t]) == Flatten(t) + FlattenAll([]);
    } else {
      assert (ts + [t])[0] == ts[0] && (ts + [t])[1..] == ts[1..] + [t];
      FlattenAllSnoc(ts[1..], t);
    }
  }

  lemma FlattenAllMember(ts: seq<Tree>, x: string)
    ensures x in FlattenAll(ts) <==> exists i :: 0 <= i < |ts| && x in Flatten(ts[i])
  {
    if ts != [] {
      FlattenAllMember(ts[1..], x);
      if x in FlattenAll(ts[1..]) {
        var i :| 0 <= i < |ts[1..]| && x in Flatten(ts[1..][i]);
        assert x in Flatten(ts[i + 1]);
      }
      if i :| 0 <= i < |ts| && x in Flatten(ts[i]) {
        if i > 0 { assert x in Flatten(ts[1..][i - 1]); }
      }
    }
  }

  /** The tree lists exactly the children the graph records, in the same order. */
  ghost predicate Represents(g: Graph, t: Tree)
    decreases t
  {
    && t.id in g
    && |t.kids| == |g[t.id].children|
    && forall i :: 0 <= i < |t.kids| ==> t.kids[i].id == g[t.id].children[i] && Represents(g, t.kids[i])
  }

  lemma RepresentsUnique(g: Graph, s: Tree, t: Tree)
    requires Represents(g, s) && Represents(g, t) && s.id == t.id
    ensures s == t
    decreases s
  {
    forall i | 0 <= i < |s.kids| ensures s.kids[i] == t.kids[i] {
      RepresentsUnique(g, s.kids[i], t.kids[i]);
    }
    assert s.kids == t.kids;
  }

  ghost function Above(rank: map<string, nat>, n: nat): set<string> {
    set k | k in rank && rank[k] > n
  }

  ghost function TreeAt(g: Graph, rank: map<string, nat>, id: string): (t: Tree)
    requires Named(g) && Linked(g) && Ranked(g, rank) && id in g
    ensures t.id == id && Represents(g, t)
    decreases Above(rank, rank[id])
  {
    Tree(id, seq(|g[id].children|, i requires 0 <= i < |g[id].children| =>
      var c := g[id].children[i];
      ChildFacts(g, id, i);
      assert c in Above(rank, rank[id]) && c !in Above(rank, rank[c]);
      TreeAt(g, rank, c)))
  }

  ghost predicate Below(g: Graph, rank: map<string, nat>, top: string, x: string)
    requires Ranked(g, rank) && top in g
  {
    x in g && (x != top ==> g[x].parent in g && rank[top] < rank[x])
  }

  lemma FlattenBelow(g: Graph, rank: map<string, nat>, t: Tree, x: string)
    requires Named(g) && Linked(g) && Ranked(g, rank) && Represents(g, t) && x in Flatten(t)
    ensures Below(g, rank, t.id, x)
    ensures x != t.id ==> g[x].parent in Flatten(t)
    ensures x != t.id ==> exists i :: 0 <= i < |t.kids| && x in Flatten(t.kids[i])
    decreases t
  {
    if x != t.id {
      FlattenAllMember(t.kids, x);
      var i :| 0 <= i < |t.kids| && x in Flatten(t.kids[i]);
      FlattenBelow(g, rank, t.kids[i], x);
      var c := t.kids[i].id;
      ChildFacts(g, t.id, i);
      if x != c { FlattenAllMember(t.kids, g[x].parent); }
    }
  }

  lemma FlattenCloses(g: Graph, t: Tree, x: string, c: string)
    requires Represents(g, t) && x in Flatten(t) && x in g && c in g[x].children
    ensures c in Flatten(t)
    decreases t
  {
    FlattenAllMember(t.kids, c);
    if x == t.id {
      var i :| 0 <= i < |g[x].children| && g[x].children[i] == c;
      assert c in Flatten(t.kids[i]);
    } else {
      FlattenAllMember(t.kids, x);
      var i :| 0 <= i < |t.kids| && x in Flatten(t.kids[i]);
      FlattenCloses(g, t.kids[i], x, c);
    }
  }

  lemma {:induction false} FlattenCovers(g: Graph, rank: map<string, nat>, t: Tree, k: string)
    requires Named(g) && Linked(g) && Ranked(g, rank) && Represents(g, t) && IsRoot(g, t.id) && k in g
    ensures k in Flatten(t)
    decreases rank[k]
  {
    if k != t.id {
      FlattenCovers(g, rank, t, g[k].parent);
      assert ParentLinked(g, k);
      FlattenCloses(g, t, g[k].parent, k);
    }
  }

  /** Two different children head disjoint subtrees. */
  lemma {:induction false} SubtreesDisjoint(g: Graph, rank: map<string, nat>, s: Tree, t: Tree, x: string)
    requires Named(g) && Linked(g) && Ranked(g, rank) && Represents(g, s) && Represents(g, t)
    requires s.id != t.id && g[s.id].parent == g[t.id].parent != ""
    ensures !(x in Flatten(s) && x in Flatten(t))
    decreases if x in rank then rank[x] else 0
  {
    if x in Flatten(s) && x in Flatten(t) {
      FlattenBelow(g, rank, s, x);
      FlattenBelow(g, rank, t, x);
      var p := g[x].parent;
      if x == s.id {
        FlattenBelow(g, rank, t, p);
        assert false;
      } else if x == t.id {
        FlattenBelow(g, rank, s, p);
        assert false;
      } else {
        assert p in g && rank[p] < rank[x] by { assert ParentLinked(g, x); }
        SubtreesDisjoint(g, rank, s, t, p);
      }
    }
  }

  lemma {:induction false} FlattenDistinct(g: Graph, rank: map<string, nat>, t: Tree)
    requires Named(g) && Linked(g) && Ranked(g, rank) && Represents(g, t)
    ensures Distinct(Flatten(t))
    decreases t, 1
  {
    FlattenAllDistinct(g, rank, t, 0);
    assert t.kids[0..] == t.kids;
    forall x | x in FlattenAll(t.kids) ensures x != t.id {
      FlattenAllMember(t.kids, x);
      var i :| 0 <= i < |t.kids| && x in Flatten(t.kids[i]);
      FlattenBelow(g, rank, t.kids[i], x);
      ChildFacts(g, t.id, i);
    }
    DistinctConcat([t.id], FlattenAll(t.kids));
  }

  lemma {:induction false} FlattenAllDistinct(g: Graph, rank: map<string, nat>, t: Tree, i: nat)
    requires Named(g) && Linked(g) && Ranked(g, rank) && Represents(g, t) && i <= |t.kids|
    ensures Distinct(FlattenAll(t.kids[i..]))
    decreases t, 0, |t.kids| - i
  {
    if i < |t.kids| {
      var kid, rest := t.kids[i], t.kids[i + 1..];
      FlattenDistinct(g, rank, kid);
      FlattenAllDistinct(g, rank, t, i + 1);
      assert t.kids[i..][1..] == rest;
      forall x | x in Flatten(kid) ensures x !in FlattenAll(rest) {
        if x in FlattenAll(rest) {
          FlattenAllMember(rest, x);
          var j :| 0 <= j < |rest| && x in Flatten(rest[j]);
          assert kid.id == g[t.id].children[i] && rest[j].id == g[t.id].children[i + 1 + j];
          ChildFacts(g, t.id, i);
          ChildFacts(g, t.id, i + 1 + j);
          SubtreesDisjoint(g, rank, kid, rest[j], x);
        }
      }
      DistinctConcat(Flatten(kid), FlattenAll(rest));
    }
  }

  ghost function RootTree(g: Graph): (t: Tree)
    requires Named(g) && Linked(g) && Acyclic(g) && exists r :: IsRoot(g, r)
    ensures IsRoot(g, t.id) && Represents(g, t)
  {
    var rank :| Ranked(g, rank);
    var r :| IsRoot(g, r);
    TreeAt(g, rank, r)
  }

  /** The preorder of the history, children in recorded order. */
  ghost function Order(g: Graph): (r: seq<string>)
    requires Named(g) && Linked(g) && Acyclic(g) && exists r :: IsRoot(g, r)
    ensures forall i :: 0 <= i < |r| ==> r[i] in g
  {
    var order := Flatten(RootTree(g));
    assert forall i :: 0 <= i < |order| ==> order[i] in g by {
      var rank :| Ranked(g, rank);
      forall x | x in order ensures x in g { FlattenBelow(g, rank, RootTree(g), x); }
    }
    order
  }

  /** In `order`, position `i` comes after its parent. */
  ghost predicate AfterParent(g: Graph, order: seq<string>, i: nat)
    requires i < |order|
  {
    order[i] in g && g[order[i]].parent in order[..i]
  }

  /** The history is one tree: its preorder starts at the root, lists every
      message once and never lists a message before its parent. */
  lemma {:induction false} OrderIsPreorder(g: Graph, current: string)
    requires ValidGraph(g, current)
    ensures Represents(g, RootTree(g)) && Order(g) == Flatten(RootTree(g))
    ensures Distinct(Order(g)) && Elements(Order(g)) == g.Keys && |Order(g)| == |g|
    ensures IsRoot(g, Order(g)[0])
    ensures forall i :: 0 < i < |Order(g)| ==> AfterParent(g, Order(g), i)
  {
    var rank :| Ranked(g, rank);
    var t := RootTree(g);
    var order := Flatten(t);
    FlattenDistinct(g, rank, t);
    forall k | k in g ensures k in order { FlattenCovers(g, rank, t, k); }
    forall k | k in order ensures k in g { FlattenBelow(g, rank, t, k); }
    assert Elements(order) == g.Keys;
    DistinctSize(order);
    forall i | 0 < i < |order| ensures AfterParent(g, order, i) {
      ParentFirst(g, rank, t, i);
    }
  }

  lemma {:induction false} ParentFirst(g: Graph, rank: map<string, nat>, t: Tree, i: nat)
    requires Named(g) && Linked(g) && Ranked(g, rank) && Represents(g, t) && 0 < i < |Flatten(t)|
    ensures AfterParent(g, Flatten(t), i)
    decreases t
  {
    var order, rest := Flatten(t), FlattenAll(t.kids);
    var n, o := Locate(t.kids, i - 1);
    var kid := t.kids[n];
    var sub := Flatten(kid);
    assert order[i] == rest[i - 1] == sub[o];
    if o == 0 {
      ChildFacts(g, t.id, n);
      assert order[..i][0] == t.id;
    } else {
      ParentFirst(g, rank, kid, o);
      var j :| 0 <= j < o && sub[j] == g[sub[o]].parent;
      assert order[..i][i - o + j] == rest[i - 1 - o + j] == sub[j];
    }
  }

  /** Which subtree position `p` of a forest's preorder falls into. */
  lemma {:induction false} Locate(ts: seq<Tree>, p: nat) returns (n: nat, o: nat)
    requires p < |FlattenAll(ts)|
    ensures n < |ts| && o < |Flatten(ts[n])| && o <= p
    ensures forall q :: 0 <= q <= o ==> p - o + q < |FlattenAll(ts)| && FlattenAll(ts)[p - o + q] == Flatten(ts[n])[q]
    decreases ts
  {
    var first, rest := Flatten(ts[0]), FlattenAll(ts[1..]);
    if p < |first| {
      n, o := 0, p;
    } else {
      var m, r := Locate(ts[1..], p - |first|);
      n, o := m + 1, r;
      forall q | 0 <= q <= o ensures FlattenAll(ts)[p - o + q] == Flatten(ts[n])[q] {
        assert (first + rest)[p - o + q] == rest[p - |first| - o + q];
      }
    }
  }

  // ----- the active branch -----

  /** `path` runs from the root to `last` along parent links. */
  ghost predicate IsPath(g: Graph, path: seq<string>, last: string) {
    && path != [] && path[|path| - 1] == last
    && (forall i :: 0 <= i < |path| ==> path[i] in g)
    && g[path[0]].parent == ""
    && forall i :: 0 < i < |path| ==> g[path[i]].parent == path[i - 1]
  }

  lemma {:induction false} PathUnique(g: Graph, p: seq<string>, q: seq<string>, last: string)
    requires Named(g) && IsPath(g, p, last) && IsPath(g, q, last)
    ensures p == q
    decreases |p|
  {
    var m, n := |p|, |q|;
    assert m > 1 ==> g[last].parent == p[m - 2] && p[m - 2] in g;
    assert n > 1 ==> g[last].parent == q[n - 2] && q[n - 2] in g;
    if m > 1 && n > 1 {
      PathUnique(g, p[..m - 1], q[..n - 1], p[m - 2]);
      assert p == p[..m - 1] + [last] && q == q[..n - 1] + [last];
    }
  }

  /** One entry of the view repeats the history message `key`. */
  predicate Agrees(n: Node, key: string, g: Graph)
    requires key in g
  {
    && n.id.Read("") == Some(key)
    && n.role.Read("") == Some(g[key].role)
    && n.content.Read("") == Some(g[key].content)
    && n.ReadParent() == Some(g[key].parent)
    && n.children.Read([]) == Some(g[key].children)
  }

  ghost predicate ViewOf(view: seq<Node>, path: seq<string>, g: Graph)
    requires forall i :: 0 <= i < |path| ==> path[i] in g
  {
    |view| == |path| && forall i :: 0 <= i < |path| ==> Agrees(view[i], path[i], g)
  }

  ghost predicate ValidView(view: seq<Node>, g: Graph, current: string) {
    exists path :: IsPath(g, path, current) && ViewOf(view, path, g)
  }

  // ----- the document -----

  function MessagesOf(chat: Chat): map<string, Node>
  {
    match chat.history
    case Present(h) => (match h.messages case Present(m) => m case _ => map[])
    case _ => map[]
  }

  function CurrentOf(chat: Chat): string
  {
    match chat.history
    case Present(h) => (match h.currentId case Present(c) => c case _ => "")
    case _ => ""
  }

  function TitleOf(chat: Chat): string {
    match chat.title case Present(t) => t case _ => ""
  }

  function ViewIn(chat: Chat): seq<Node> {
    match chat.active case Present(v) => v case _ => []
  }

  /** What a readable document is. */
  ghost predicate ValidChat(chat: Chat) {
    && chat.title.Read("").Some?
    && chat.history.Present?
    && chat.history.value.messages.Present?
    && Parses(MessagesOf(chat))
    && ValidGraph(ParseAll(MessagesOf(chat)), CurrentOf(chat))
    && chat.active.Read([]).Some?
    && ValidView(ViewIn(chat), ParseAll(MessagesOf(chat)), CurrentOf(chat))
  }

  function GraphOf(chat: Chat): Graph
    requires Parses(MessagesOf(chat))
  {
    ParseAll(MessagesOf(chat))
  }

  predicate IsManaged(m: Meta) {
    m.schema == BRIDGE_SCHEMA && m.sourceId != ""
  }

  /** The projection of one history message. Stored parts count only while they
      still spell the content. */
  function Project(p: Parsed, id: string, order: nat): TargetMessage {
    var managed := IsManaged(p.meta);
    TargetMessage(id, p.meta.sourceId, p.role, p.meta.channel,
      if managed && Join(p.meta.parts) == p.content then p.meta.parts else [p.content],
      managed, order)
  }

  function ProjectAll(g: Graph, order: seq<string>): (r: seq<TargetMessage>)
    requires forall i :: 0 <= i < |order| ==> order[i] in g
    ensures |r| == |order|
    ensures forall i :: 0 <= i < |order| ==> r[i] == Project(g[order[i]], order[i], i)
  {
    seq(|order|, i requires 0 <= i < |order| => Project(g[order[i]], order[i], i))
  }

  ghost function Normalized(chat: Chat): TargetSnapshot
    requires ValidChat(chat)
  {
    var g := GraphOf(chat);
    TargetSnapshot(TitleOf(chat), ProjectAll(g, Order(g)), CurrentOf(chat))
  }
}
