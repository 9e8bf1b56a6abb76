/** Reading a chat document: the history is checked to be one tree by an explicit
    depth-first walk and projected in walk order. */
module Normalize {
  import opened Basics
  import opened Domain
  import opened ChatGraph

  datatype Fault =
    | BadTitle | BadHistory | BadCurrent | BadMessages | BadMessage | RootCount | LinksDisagree
    | CurrentMissing | CurrentNotLeaf | HistoryCycle | Unreachable | ActiveCycle
    | BadView | ViewDisagrees

  /** The state the depth-first walk updates. */
  class Walk {
    const g: Graph
    var order: seq<string>
    var visiting: set<string>
    var visited: set<string>
    ghost var rank: map<string, nat>

    constructor (g: Graph)
      ensures this.g == g && order == [] && visiting == {} && visited == {} && rank == map[]
    {
      this.g := g;
      order, visiting, visited := [], {}, {};
      rank := map[];
    }

    ghost predicate Valid()
      reads this
    {
      Named(g) && Linked(g) && visiting <= visited && Tracked(g, visited, rank, |order|)
    }

    /** Walks the subtree under `id`. Neither early exit is ever taken: a message
        is entered once, from its parent, and no walk re-enters its own path. */
    method Visit(id: string) returns (ok: bool, ghost t: Tree, ghost found: set<string>)
      requires Valid() && id in g && id !in visited
      requires g[id].parent != "" ==> g[id].parent in visited
      modifies this
      ensures ok && Valid()
      ensures t.id == id && Represents(g, t) && found == Elements(Flatten(t))
      ensures order == old(order) + Flatten(t)
      ensures visited == old(visited) + found && visiting == old(visiting)
      ensures Hangs(g, old(visited), id, found)
      decreases g.Keys - visited, 1
    {
      if id in visiting { return false, Tree(id, []), {}; }
      if id in visited { return true, Tree(id, []), {}; }
      ghost var seen, path, prefix := visited, visiting, order;
      TrackedEnter(g, visited, rank, |order|, id);
      visiting := visiting + {id};
      visited := visited + {id};
      rank := rank[id := |order|];
      order := order + [id];
      ghost var kids, list, below;
      ok, kids, list, below := VisitChildren(id, seen);
      if !ok { return false, Tree(id, []), {}; }
      visiting := visiting - {id};
      t, found := PartialClose(g, seen, id, kids, list, below);
    }

    /** The loop over the children of the message just entered. */
    method VisitChildren(id: string, ghost seen: set<string>)
      returns (ok: bool, ghost kids: seq<Tree>, ghost list: seq<string>, ghost below: set<string>)
      requires Valid() && id in g && id !in seen && visited == seen + {id}
      requires ParentClosed(g, seen) && (g[id].parent != "" ==> g[id].parent in seen)
      modifies this
      ensures ok && Valid()
      ensures Partial(g, seen, id, |g[id].children|, kids, list, below)
      ensures order == old(order) + list
      ensures visited == seen + {id} + below && visiting == old(visiting)
      decreases g.Keys - visited, 2
    {
      var children := g[id].children;
      kids, list, below := [], [], {};
      var i := 0;
      while i < |children|
        invariant 0 <= i <= |children|
        invariant Valid()
        invariant Partial(g, seen, id, i, kids, list, below)
        invariant order == old(order) + list
        invariant visited == seen + {id} + below && visiting == old(visiting)
      {
        NextUnseen(g, seen, id, i, kids, list, below);
        ghost var kid, more;
        ok, kid, more := Visit(children[i]);
        if !ok { return; }
        kids, list, below := PartialGrow(g, seen, id, i, kids, list, below, kid, more);
        i := i + 1;
      }
      ok := true;
    }
  }

  ghost predicate SeenAt(g: Graph, visited: set<string>, rank: map<string, nat>, n: nat, k: string)
    requires k in g && visited == rank.Keys && k in visited
  {
    rank[k] < n && (g[k].parent != "" ==> g[k].parent in visited && rank[g[k].parent] < rank[k])
  }

  /** Everything visited was reached through its parent, which came earlier. */
  ghost predicate Tracked(g: Graph, visited: set<string>, rank: map<string, nat>, n: nat) {
    visited <= g.Keys && visited == rank.Keys &&
    forall k {:trigger SeenAt(g, visited, rank, n, k)} :: k in visited ==> SeenAt(g, visited, rank, n, k)
  }

  lemma TrackedEnter(g: Graph, visited: set<string>, rank: map<string, nat>, n: nat, id: string)
    requires Tracked(g, visited, rank, n) && id in g && id !in visited
    requires g[id].parent != "" ==> g[id].parent in visited
    ensures Tracked(g, visited + {id}, rank[id := n], n + 1)
    ensures ParentClosed(g, visited)
  {
    forall k | k in visited + {id} ensures SeenAt(g, visited + {id}, rank[id := n], n + 1, k) {
      assert k in visited ==> SeenAt(g, visited, rank, n, k);
      if k == id && g[id].parent != "" { assert SeenAt(g, visited, rank, n, g[id].parent); }
    }
    forall k | k in visited ensures HasParentIn(g, visited, k) { assert SeenAt(g, visited, rank, n, k); }
  }

  ghost predicate HasParentIn(g: Graph, seen: set<string>, k: string)
    requires k in g
  {
    g[k].parent != "" ==> g[k].parent in seen
  }

  ghost predicate ParentClosed(g: Graph, seen: set<string>) {
    seen <= g.Keys && forall k {:trigger HasParentIn(g, seen, k)} :: k in seen ==> HasParentIn(g, seen, k)
  }

  ghost predicate Hanging(g: Graph, k: string, top: string, found: set<string>)
    requires k in g
  {
    k != top ==> g[k].parent in found
  }

  /** `found` is new and hangs together below `top`. */
  ghost predicate Hangs(g: Graph, seen: set<string>, top: string, found: set<string>) {
    found <= g.Keys && found !! seen &&
    forall k {:trigger Hanging(g, k, top, found)} :: k in found ==> Hanging(g, k, top, found)
  }

  ghost predicate HangingFrom(g: Graph, k: string, id: string, below: set<string>, children: seq<string>, n: nat)
    requires k in g && n <= |children|
  {
    k != id && g[k].parent in below + {id} && (g[k].parent == id ==> k in children[..n])
  }

  /** The part of a walk below `id` once `n` of its children are finished: their
      subtrees, the joint preorder of these, and the messages met. */
  ghost predicate Partial(g: Graph, seen: set<string>, id: string, n: nat, kids: seq<Tree>, list: seq<string>,
                          below: set<string>)
    requires id in g
  {
    var children := g[id].children;
    && |kids| == n <= |children| && list == FlattenAll(kids) && below == Elements(list)
    && (forall j :: 0 <= j < n ==> kids[j].id == children[j] && Represents(g, kids[j]))
    && below <= g.Keys && below !! seen
    && forall k {:trigger HangingFrom(g, k, id, below, children, n)} :: k in below ==>
         HangingFrom(g, k, id, below, children, n)
  }

  lemma NextUnseen(g: Graph, seen: set<string>, id: string, n: nat, kids: seq<Tree>, list: seq<string>,
                   below: set<string>)
    requires Named(g) && Linked(g) && ParentClosed(g, seen) && id in g && id !in seen
    requires g[id].parent != "" ==> g[id].parent in seen
    requires n < |g[id].children| && Partial(g, seen, id, n, kids, list, below)
    ensures g[id].children[n] in g && g[g[id].children[n]].parent == id
    ensures g[id].children[n] !in seen + {id} + below
  {
    ChildFacts(g, id, n);
    var c := g[id].children[n];
    assert c in seen ==> HasParentIn(g, seen, c);
    assert c in below ==> HangingFrom(g, c, id, below, g[id].children, n);
    assert c !in g[id].children[..n];
  }

  lemma PartialGrow(g: Graph, seen: set<string>, id: string, n: nat, kids: seq<Tree>, list: seq<string>,
                    below: set<string>, kid: Tree, more: set<string>)
    returns (kids': seq<Tree>, list': seq<string>, below': set<string>)
    requires id in g && n < |g[id].children| && Partial(g, seen, id, n, kids, list, below)
    requires kid.id == g[id].children[n] && Represents(g, kid) && more == Elements(Flatten(kid))
    requires Hangs(g, seen + {id} + below, kid.id, more) && g[kid.id].parent == id
    ensures Partial(g, seen, id, n + 1, kids', list', below')
    ensures list' == list + Flatten(kid) && below' == below + more
  {
    kids', list', below' := kids + [kid], list + Flatten(kid), below + more;
    FlattenAllSnoc(kids, kid);
    var children := g[id].children;
    assert children[..n + 1] == children[..n] + [kid.id];
    forall k | k in below' ensures HangingFrom(g, k, id, below', children, n + 1) {
      assert k in below ==> HangingFrom(g, k, id, below, children, n);
      assert k in more ==> Hanging(g, k, kid.id, more);
    }
  }

  lemma PartialClose(g: Graph, seen: set<string>, id: string, kids: seq<Tree>, list: seq<string>, below: set<string>)
    returns (t: Tree, found: set<string>)
    requires id in g && id !in seen && Partial(g, seen, id, |g[id].children|, kids, list, below)
    ensures t.id == id && Represents(g, t) && Flatten(t) == [id] + list
    ensures found == Elements(Flatten(t)) == {id} + below && Hangs(g, seen, id, found)
  {
    t, found := Tree(id, kids), {id} + below;
    forall k | k in found ensures Hanging(g, k, id, found) {
      assert k in below ==> HangingFrom(g, k, id, below, g[id].children, |g[id].children|);
    }
  }

  // ----- reading a document -----

  lemma SubsetSize<T>(a: set<T>, b: set<T>)
    requires a <= b && |a| == |b|
    ensures a == b
  {
    assert |b - a| == |b| - |a|;
  }

  /** A walk from the root that saw everything shows the graph is ranked and its
      preorder is the walk order. */
  lemma WalkedOrder(g: Graph, current: string, rank: map<string, nat>, n: nat, t: Tree)
    requires Named(g) && Linked(g) && IsRoot(g, t.id) && Represents(g, t)
    requires Tracked(g, g.Keys, rank, n) && current in g && g[current].children == []
    ensures ValidGraph(g, current) && Order(g) == Flatten(t)
  {
    forall k | k in g ensures g[k].parent != "" ==> g[k].parent in g && rank[g[k].parent] < rank[k] {
      assert SeenAt(g, g.Keys, rank, n, k);
    }
    assert Ranked(g, rank);
    RepresentsUnique(g, t, RootTree(g));
  }

  /** A walk from the root that missed a message met a graph that is no tree. */
  lemma WalkMissed(g: Graph, current: string, t: Tree)
    requires IsRoot(g, t.id) && Represents(g, t) && |Elements(Flatten(t))| != |g|
    ensures !ValidGraph(g, current)
  {
    if ValidGraph(g, current) {
      RepresentsUnique(g, t, RootTree(g));
      OrderIsPreorder(g, current);
    }
  }

  /** Parses every history message and collects the parentless ones. */
  method ParseMessages(msgs: map<string, Node>) returns (ok: bool, g: Graph, roots: seq<string>)
    ensures ok <==> Parses(msgs)
    ensures ok ==> g == ParseAll(msgs) && Distinct(roots)
    ensures ok ==> forall k :: k in roots <==> k in g && g[k].parent == ""
  {
    g, roots := map[], [];
    var todo := msgs.Keys;
    while todo != {}
      invariant todo <= msgs.Keys && g.Keys == msgs.Keys - todo && Distinct(roots)
      invariant forall k :: k in g ==> ParseNode(k, msgs[k]) == Some(g[k])
      invariant forall k :: k in roots <==> k in g && g[k].parent == ""
    {
      var key :| key in todo;
      var parsed := ParseNode(key, msgs[key]);
      if parsed.None? { return false, map[], []; }
      if parsed.value.parent == "" { roots := roots + [key]; }
      g := g[key := parsed.value];
      todo := todo - {key};
    }
    ok := true;
  }

  method CheckLinks(g: Graph) returns (ok: bool)
    ensures ok <==> Linked(g)
  {
    var todo := g.Keys;
    while todo != {}
      invariant todo <= g.Keys
      invariant forall k :: k in g && k !in todo ==> ParentLinked(g, k) && ChildrenLinked(g, k)
    {
      var id :| id in todo;
      if !ParentLinked(g, id) { return false; }
      if !ChildrenLinked(g, id) { return false; }
      todo := todo - {id};
    }
    ok := true;
  }

  /** `up` climbs from `current` along parent links and `id` comes next. */
  ghost predicate Climb(g: Graph, up: seq<string>, id: string, current: string) {
    && (forall i :: 0 <= i < |up| ==> up[i] in g)
    && (forall i :: 0 < i < |up| ==> g[up[i - 1]].parent == up[i])
    && if up == [] then id == current else up[0] == current && g[up[|up| - 1]].parent == id
  }

  lemma ClimbIsPath(g: Graph, up: seq<string>, current: string)
    requires Climb(g, up, "", current) && up != []
    ensures IsPath(g, Reverse(up), current)
  {
    var path := Reverse(up);
    forall i | 0 < i < |path| ensures g[path[i]].parent == path[i - 1] {
      assert g[up[|up| - 1 - i]].parent == up[|up| - i];
    }
  }

  /** Follows parent links from the current message to the root, then reverses. */
  method ActiveBranch(g: Graph, current: string) returns (ok: bool, path: seq<string>)
    requires ValidGraph(g, current)
    ensures ok && IsPath(g, path, current)
  {
    ghost var rank: map<string, nat> :| Ranked(g, rank);
    var seen: set<string> := {};
    var id, up := current, [];
    while id != ""
      invariant (id == "" || id in g) && Climb(g, up, id, current) && (up == [] ==> id != "")
      invariant seen <= g.Keys && (id != "" ==> forall k :: k in seen ==> rank[id] < rank[k])
      decreases if id == "" then 0 else 1 + rank[id]
    {
      if id in seen { return false, []; }
      seen := seen + {id};
      up := up + [id];
      id := g[id].parent;
    }
    ok, path := true, Reverse(up);
    ClimbIsPath(g, up, current);
  }

  lemma NotOneRoot(g: Graph, roots: seq<string>)
    requires Distinct(roots) && |roots| != 1
    requires forall k :: k in roots <==> k in g && g[k].parent == ""
    ensures !exists r :: IsRoot(g, r)
  {
    if r :| IsRoot(g, r) {
      assert r in roots;
      if |roots| > 1 { assert roots[0] in roots && roots[1] in roots; }
    }
  }

  /** Compares the active view with the branch it should repeat. */
  method CheckView(view: seq<Node>, g: Graph, path: seq<string>, current: string) returns (ok: bool)
    requires Named(g) && IsPath(g, path, current)
    ensures ok <==> ValidView(view, g, current)
  {
    if |view| != |path| {
      forall p | IsPath(g, p, current) ensures p == path { PathUnique(g, p, path, current); }
      return false;
    }
    var i := 0;
    while i < |path|
      invariant 0 <= i <= |path|
      invariant forall j :: 0 <= j < i ==> Agrees(view[j], path[j], g)
    {
      if !Agrees(view[i], path[i], g) {
        forall p | IsPath(g, p, current) ensures p == path { PathUnique(g, p, path, current); }
        return false;
      }
      i := i + 1;
    }
    assert ViewOf(view, path, g);
    ok := true;
  }

  /** Walks the checked history from its root. */
  method WalkHistory(g: Graph, current: string, root: string) returns (r: Result<seq<string>, Fault>)
    requires Named(g) && Linked(g) && IsRoot(g, root) && current in g && g[current].children == []
    ensures r.Ok? <==> ValidGraph(g, current)
    ensures r.Ok? ==> r.value == Order(g)
    ensures r.Err? ==> r.error == Unreachable
  {
    var walk := new Walk(g);
    var fine;
    ghost var t, found;
    fine, t, found := walk.Visit(root);
    if !fine { return Err(HistoryCycle); }
    if |walk.visited| != |g| {
      WalkMissed(g, current, t);
      return Err(Unreachable);
    }
    SubsetSize(walk.visited, g.Keys);
    WalkedOrder(g, current, walk.rank, |walk.order|, t);
    r := Ok(walk.order);
  }

  /** The graph half of a document, from the parsed messages to the walk order. */
  method CheckHistory(msgs: map<string, Node>, current: string) returns (r: Result<seq<string>, Fault>)
    ensures r.Ok? <==> Parses(msgs) && ValidGraph(ParseAll(msgs), current)
    ensures r.Ok? ==> r.value == Order(ParseAll(msgs))
    ensures r.Err? ==> r.error != HistoryCycle && r.error != ActiveCycle
  {
    var parses, g, roots := ParseMessages(msgs);
    if !parses { return Err(BadMessage); }
    if |roots| != 1 {
      NotOneRoot(g, roots);
      return Err(RootCount);
    }
    assert IsRoot(g, roots[0]);
    var linked := CheckLinks(g);
    if !linked { return Err(LinksDisagree); }
    if current !in g { return Err(CurrentMissing); }
    if g[current].children != [] { return Err(CurrentNotLeaf); }
    r := WalkHistory(g, current, roots[0]);
  }

  /** Reads a document. It succeeds on exactly the valid ones, the projection lists
      the history in preorder, and neither cycle error can occur. */
  method NormalizeChat(chat: Chat) returns (r: Result<TargetSnapshot, Fault>)
    ensures r.Ok? <==> ValidChat(chat)
    ensures r.Ok? ==> r.value == Normalized(chat)
    ensures r.Err? ==> r.error != HistoryCycle && r.error != ActiveCycle
  {
    hide ValidView, ProjectAll, Linked, Acyclic, ParseNode;
    var title := chat.title.Read("");
    if title.None? { return Err(BadTitle); }
    if chat.history.Absent? || chat.history.Malformed? { return Err(BadHistory); }
    if chat.history.Null? { return Err(BadCurrent); }
    var current := chat.history.value.currentId.Read("");
    if current.None? || current.value == "" { return Err(BadCurrent); }
    var msgs := chat.history.value.messages.Read(map[]);
    if msgs.None? || msgs.value == map[] { return Err(BadMessages); }
    var order := CheckHistory(msgs.value, current.value);
    if order.Err? { return Err(order.error); }
    var g := GraphOf(chat);
    var fine, path := ActiveBranch(g, current.value);
    if !fine { return Err(ActiveCycle); }
    var view := chat.active.Read([]);
    if view.None? { return Err(BadView); }
    fine := CheckView(view.value, g, path, current.value);
    if !fine { return Err(ViewDisagrees); }
    r := Ok(TargetSnapshot(title.value, ProjectAll(g, order.value), current.value));
  }
}
