/** Why and when placing the source chain into an existing history leaves one tree. */
module Relinking {
  import opened Basics
  import opened Domain
  import opened ChatGraph
  import opened Builder

  function Kids(g: Graph, k: string): seq<string> {
    if k in g then g[k].children else []
  }

  /** The chain message at position `i`, as the graph sees it. */
  function Chained(g: Graph, ids: seq<string>, ordered: seq<Message>, i: nat): Parsed
    requires i < |ids| == |ordered|
  {
    var kept := Without(Kids(g, ids[i]), Elements(ids));
    var m := ordered[i];
    Parsed(if i == 0 then "" else ids[i - 1], m.role, Join(m.parts),
           if i + 1 < |ids| then [ids[i + 1]] + kept else kept,
           Meta(BRIDGE_SCHEMA, m.id, m.nodeId, m.channel, m.parts, map[]))
  }

  function ChainOf(g: Graph, ids: seq<string>, ordered: seq<Message>): (r: seq<Parsed>)
    requires |ids| == |ordered|
    ensures |r| == |ids| && forall i :: 0 <= i < |ids| ==> r[i] == Chained(g, ids, ordered, i)
  {
    seq(|ids|, i requires 0 <= i < |ids| => Chained(g, ids, ordered, i))
  }

  function Relinked(g: Graph, ids: seq<string>, ordered: seq<Message>): Graph
    requires |ids| == |ordered|
  {
    Overwrite(g, ids, ChainOf(g, ids, ordered))
  }

  // ----- from documents to graphs -----

  lemma ChainNodeParses(msgs: map<string, Node>, ids: seq<string>, ordered: seq<Message>, i: nat)
    requires Parses(msgs) && |ids| == |ordered| && i < |ids| && Distinct(ids) && "" !in ids && FitsAt(ordered, i)
    ensures ParseNode(ids[i], ChainNode(BaseNode(msgs, ids[i]), ids, ordered[i], i))
         == Some(Chained(ParseAll(msgs), ids, ordered, i))
  {
    var base := BaseNode(msgs, ids[i]);
    var kids := Kids(ParseAll(msgs), ids[i]);
    assert ids[i] in msgs ==> ParseNode(ids[i], msgs[ids[i]]).Some?;
    assert base.children.Present? ==> base.children.value == kids;
    assert !base.children.Present? ==> kids == [];
    assert Distinct(kids);
    WithoutDistinct(kids, Elements(ids));
    if i + 1 < |ids| { DistinctConcat([ids[i + 1]], Without(kids, Elements(ids))); }
  }

  lemma BuiltNode(msgs: map<string, Node>, ids: seq<string>, ordered: seq<Message>, k: string)
    requires Parses(msgs) && |ids| == |ordered| && Distinct(ids) && "" !in ids && OrderedOk(ordered)
    requires k in PlaceChain(msgs, ids, ordered)
    ensures k in Relinked(ParseAll(msgs), ids, ordered)
    ensures ParseNode(k, PlaceChain(msgs, ids, ordered)[k]) == Some(Relinked(ParseAll(msgs), ids, ordered)[k])
  {
    hide ParseNode, ChainNode, Chained, FitsAt;
    var placed, g := PlaceChain(msgs, ids, ordered), Relinked(ParseAll(msgs), ids, ordered);
    if k in ids {
      var i := IndexOf(ids, k);
      assert FitsAt(ordered, i);
      ChainNodeParses(msgs, ids, ordered, i);
      assert placed[ids[i]] == ChainNodes(msgs, ids, ordered)[i];
      assert g[ids[i]] == ChainOf(ParseAll(msgs), ids, ordered)[i];
    } else {
      assert k in msgs && placed[k] == msgs[k];
      assert ParseNode(k, msgs[k]).Some?;
    }
  }

  lemma BuiltGraph(msgs: map<string, Node>, ids: seq<string>, ordered: seq<Message>)
    requires Parses(msgs) && |ids| == |ordered| && Distinct(ids) && "" !in ids && OrderedOk(ordered)
    ensures Parses(PlaceChain(msgs, ids, ordered))
    ensures ParseAll(PlaceChain(msgs, ids, ordered)) == Relinked(ParseAll(msgs), ids, ordered)
  {
    hide ParseNode, ChainNode, Chained, FitsAt;
    var placed, g := PlaceChain(msgs, ids, ordered), Relinked(ParseAll(msgs), ids, ordered);
    forall k | k in placed ensures k in g && ParseNode(k, placed[k]) == Some(g[k]) {
      BuiltNode(msgs, ids, ordered, k);
    }
    assert ParseAll(placed).Keys == g.Keys;
  }

  // ----- when the relinked graph is a tree -----

  /** The chain can be placed: some of it is there (unless nothing is), what is
      there is closed under parents, and its last message has no other child. */
  ghost predicate Attachable(g: Graph, ids: seq<string>)
    requires ids != []
  {
    && (g == map[] || exists k :: k in ids && k in g)
    && (forall k {:trigger g[k]} :: k in ids && k in g && g[k].parent != "" ==> g[k].parent in ids)
    && (forall c :: c in Kids(g, ids[|ids| - 1]) ==> c in ids)
  }

  ghost predicate Historic(g: Graph) {
    Named(g) && Linked(g) && Acyclic(g) && (g == map[] || exists r :: IsRoot(g, r))
  }

  /** A chain without repeats next to the history it goes into. */
  ghost predicate Fits(g: Graph, ids: seq<string>, h: Graph) {
    && Distinct(ids) && "" !in ids && ids != []
    && h.Keys == g.Keys + Elements(ids)
    && (forall k {:trigger h[k]} :: k in g && k !in ids ==> h[k] == g[k])
    && (forall i {:trigger PlacedAt(g, ids, h, i)} :: 0 <= i < |ids| ==> PlacedAt(g, ids, h, i))
  }

  ghost predicate PlacedAt(g: Graph, ids: seq<string>, h: Graph, i: nat)
    requires i < |ids|
  {
    && ids[i] in h && h[ids[i]].parent == (if i == 0 then "" else ids[i - 1])
    && Distinct(h[ids[i]].children)
    && (forall c :: c in h[ids[i]].children <==>
          (i + 1 < |ids| && c == ids[i + 1]) || (c in Kids(g, ids[i]) && c !in ids))
    && (i + 1 == |ids| ==> h[ids[i]].children == Without(Kids(g, ids[i]), Elements(ids)))
  }

  lemma RelinkedAt(g: Graph, ids: seq<string>, ordered: seq<Message>, k: string)
    requires |ids| == |ordered| && Distinct(ids) && k in Relinked(g, ids, ordered)
    ensures k in ids ==> Relinked(g, ids, ordered)[k] == Chained(g, ids, ordered, IndexOf(ids, k))
    ensures k !in ids ==> k in g && Relinked(g, ids, ordered)[k] == g[k]
  {
    if k in ids { assert k == ids[IndexOf(ids, k)]; }
  }

  lemma RelinkedFits(g: Graph, ids: seq<string>, ordered: seq<Message>)
    requires |ids| == |ordered| && Distinct(ids) && "" !in ids && ids != [] && Named(g)
    ensures Fits(g, ids, Relinked(g, ids, ordered))
  {
    var h := Relinked(g, ids, ordered);
    forall i | 0 <= i < |ids| ensures PlacedAt(g, ids, h, i) { RelinkedPlaced(g, ids, ordered, i); }
  }

  lemma RelinkedPlaced(g: Graph, ids: seq<string>, ordered: seq<Message>, i: nat)
    requires |ids| == |ordered| && Distinct(ids) && Named(g) && i < |ids|
    ensures PlacedAt(g, ids, Relinked(g, ids, ordered), i)
  {
    hide Relinked, Chained, Without, Elements, Distinct, Named, Kids;
    RelinkedKey(g, ids, ordered, i);
    ChainedChildren(g, ids, ordered, i);
  }

  lemma RelinkedKey(g: Graph, ids: seq<string>, ordered: seq<Message>, i: nat)
    requires |ids| == |ordered| && Distinct(ids) && i < |ids|
    ensures ids[i] in Relinked(g, ids, ordered) && Relinked(g, ids, ordered)[ids[i]] == Chained(g, ids, ordered, i)
  {
    hide Chained, Distinct, Overwrite;
    assert ChainOf(g, ids, ordered)[i] == Chained(g, ids, ordered, i);
    assert ids[i] in ids;
  }

  lemma ChainedChildren(g: Graph, ids: seq<string>, ordered: seq<Message>, i: nat)
    requires |ids| == |ordered| && Named(g) && i < |ids|
    ensures var node := Chained(g, ids, ordered, i);
      && node.parent == (if i == 0 then "" else ids[i - 1]) && Distinct(node.children)
      && (forall c :: c in node.children <==>
            (i + 1 < |ids| && c == ids[i + 1]) || (c in Kids(g, ids[i]) && c !in ids))
      && (i + 1 == |ids| ==> node.children == Without(Kids(g, ids[i]), Elements(ids)))
  {
    var kids, chain := Kids(g, ids[i]), Elements(ids);
    var kept := Without(kids, chain);
    assert Distinct(kids);
    WithoutDistinct(kids, chain);
    forall c ensures c in kept <==> c in kids && c !in ids { assert c in chain <==> c in ids; }
    if i + 1 < |ids| { DistinctConcat([ids[i + 1]], kept); }
  }

  lemma ChainLinked(g: Graph, ids: seq<string>, h: Graph, i: nat)
    requires Fits(g, ids, h) && Named(g) && Linked(g) && i < |ids|
    ensures ids[i] in h && ParentLinked(h, ids[i]) && ChildrenLinked(h, ids[i])
  {
    assert PlacedAt(g, ids, h, i);
    assert i > 0 ==> PlacedAt(g, ids, h, i - 1);
    assert i + 1 < |ids| ==> PlacedAt(g, ids, h, i + 1);
    forall c | c in h[ids[i]].children ensures c in h && h[c].parent == ids[i] {
      if c !in ids {
        var j :| 0 <= j < |g[ids[i]].children| && g[ids[i]].children[j] == c;
        ChildFacts(g, ids[i], j);
      }
    }
  }

  /** Climbing from a chain message along a parent-closed chain stays on it. */
  lemma {:induction false} RootAbove(g: Graph, rank: map<string, nat>, ids: seq<string>, k: string, r: string)
    requires Ranked(g, rank) && ids != [] && Attachable(g, ids) && k in ids && k in g && IsRoot(g, r)
    ensures r in ids
    decreases rank[k]
  {
    if g[k].parent != "" { RootAbove(g, rank, ids, g[k].parent, r); }
  }

  lemma RootOnChain(g: Graph, ids: seq<string>, k: string)
    requires Historic(g) && ids != [] && Attachable(g, ids) && k in g && g[k].parent == ""
    ensures k in ids
  {
    var rank :| Ranked(g, rank);
    var r :| IsRoot(g, r);
    var c :| c in ids && c in g;
    RootAbove(g, rank, ids, c, r);
  }

  lemma OtherLinked(g: Graph, ids: seq<string>, h: Graph, k: string)
    requires Fits(g, ids, h) && Historic(g) && Attachable(g, ids) && k in g && k !in ids
    ensures h[k] == g[k] && g[k].parent != "" && ParentLinked(h, k) && ChildrenLinked(h, k)
  {
    assert h[k] == g[k];
    if g[k].parent == "" { RootOnChain(g, ids, k); }
    var p := g[k].parent;
    assert ParentLinked(g, k);
    if p in ids {
      assert PlacedAt(g, ids, h, IndexOf(ids, p));
    } else {
      assert h[p] == g[p];
    }
    forall c | c in g[k].children ensures c in h && h[c].parent == k {
      var j :| 0 <= j < |g[k].children| && g[k].children[j] == c;
      ChildFacts(g, k, j);
      assert h[c] == g[c];
    }
  }

  /** Chain messages by position, everything else after them as it was. */
  ghost function NewRank(g: Graph, rank: map<string, nat>, ids: seq<string>): (r: map<string, nat>)
    requires Ranked(g, rank)
    ensures r.Keys == g.Keys + Elements(ids)
  {
    map k | k in g.Keys + Elements(ids) :: if k in ids then IndexOf(ids, k) else |ids| + rank[k]
  }

  lemma IndexOfAt(ids: seq<string>, i: nat)
    requires Distinct(ids) && i < |ids|
    ensures IndexOf(ids, ids[i]) == i
  {
  }

  lemma RelinkedRanked(g: Graph, rank: map<string, nat>, ids: seq<string>, h: Graph)
    requires Fits(g, ids, h) && Historic(g) && Ranked(g, rank) && Attachable(g, ids)
    ensures Ranked(h, NewRank(g, rank, ids))
  {
    var nr := NewRank(g, rank, ids);
    forall k | k in h ensures h[k].parent != "" ==> h[k].parent in h && nr[h[k].parent] < nr[k] {
      if k in ids {
        var i := IndexOf(ids, k);
        assert PlacedAt(g, ids, h, i);
        if i > 0 { IndexOfAt(ids, i - 1); }
      } else {
        OtherLinked(g, ids, h, k);
        assert ParentLinked(g, k);
      }
    }
  }

  lemma ChainIsPath(g: Graph, ids: seq<string>, h: Graph)
    requires Fits(g, ids, h)
    ensures IsPath(h, ids, ids[|ids| - 1])
  {
    forall i | 0 <= i < |ids| ensures ids[i] in h && h[ids[i]].parent == if i == 0 then "" else ids[i - 1] {
      assert PlacedAt(g, ids, h, i);
    }
    assert PlacedAt(g, ids, h, 0);
  }

  /** Placing an attachable chain gives one tree ending in the chain's last message. */
  lemma {:induction false} AttachableIsValid(g: Graph, ids: seq<string>, h: Graph)
    requires Fits(g, ids, h) && Historic(g) && Attachable(g, ids)
    ensures ValidGraph(h, ids[|ids| - 1])
  {
    var last := ids[|ids| - 1];
    var rank :| Ranked(g, rank);
    RelinkedRanked(g, rank, ids, h);
    forall k | k in h
      ensures Distinct(h[k].children) && ParentLinked(h, k) && ChildrenLinked(h, k)
      ensures (h[k].parent == "" ==> k == ids[0])
    {
      if k in ids {
        ChainLinked(g, ids, h, IndexOf(ids, k));
        assert PlacedAt(g, ids, h, IndexOf(ids, k));
      } else {
        OtherLinked(g, ids, h, k);
      }
    }
    assert PlacedAt(g, ids, h, 0);
    assert IsRoot(h, ids[0]);
    assert PlacedAt(g, ids, h, |ids| - 1);
    WithoutAll(Kids(g, last), Elements(ids));
  }

  /** No other chain can be placed. */
  lemma {:induction false} ValidIsAttachable(g: Graph, ids: seq<string>, h: Graph)
    requires Fits(g, ids, h) && Historic(g) && ValidGraph(h, ids[|ids| - 1])
    ensures Attachable(g, ids)
  {
    assert PlacedAt(g, ids, h, 0);
    assert PlacedAt(g, ids, h, |ids| - 1);
    if g != map[] {
      var r, q :| IsRoot(g, r) && IsRoot(h, q);
      assert h[r] == g[r] || r in ids;
      assert r in ids && r in g;
    }
    forall k | k in ids && k in g && g[k].parent != "" ensures g[k].parent in ids {
      var p := g[k].parent;
      assert ParentLinked(g, k);
      assert p !in ids ==> h[p] == g[p];
      assert ChildrenLinked(h, p);
      assert PlacedAt(g, ids, h, IndexOf(ids, k));
      assert h[k].parent == "" || h[k].parent in ids;
    }
    forall c | c in Kids(g, ids[|ids| - 1]) ensures c in ids {
      assert c !in h[ids[|ids| - 1]].children;
    }
  }
}
