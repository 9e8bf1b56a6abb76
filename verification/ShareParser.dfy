/** From a decoded share conversation to a source snapshot: the parent chain of the
    current node, and the messages selected from it. */
module ShareParser {
  import opened Basics
  import opened RefTable

  datatype Limits = Limits(maxNodes: nat, maxDepth: nat, maxParts: nat, maxText: nat)

  /** Text processing that is not looked into: citation rewriting, text size, times. */
  datatype Texts = Texts(
    degrade: (seq<string>, map<string, Value>) -> seq<string>,
    size: string -> nat,
    time: Value -> Option<int>)

  type Members = map<string, Value>

  datatype Fault =
    | BadMapping | BadLinear | BadCurrent | BadNode | LinearDiffers | BadChain | BadChildren
    | BadMessage | TooLarge | NoMessageId | DuplicateMessage | NoMessages | BadText

  // ----- reading members -----

  /** A member, with null for a missing one. */
  function Get(m: Members, key: string): Value {
    if key in m then m[key] else NullValue
  }

  function TextOf(v: Value): string {
    if v.Text? then v.text else ""
  }

  function MembersOf(v: Value): Members {
    if v.Object? then v.members else map[]
  }

  // ----- the parent chain -----

  /** A node of the mapping that is stored under its own id. */
  predicate IsNode(mapping: Members, id: string) {
    id in mapping && mapping[id].Object? && Get(mapping[id].members, "id") == Text(id)
  }

  predicate ParentReadable(mapping: Members, id: string)
    requires IsNode(mapping, id)
  {
    var p := Get(mapping[id].members, "parent");
    p.NullValue? || p.Text?
  }

  /** The parent id, "" at a root. */
  function ParentOf(mapping: Members, id: string): string
    requires IsNode(mapping, id)
  {
    TextOf(Get(mapping[id].members, "parent"))
  }

  /** A node on a parent chain below `above`. */
  ghost predicate LinkAt(mapping: Members, id: string, above: string) {
    id != "" && IsNode(mapping, id) && ParentReadable(mapping, id) && ParentOf(mapping, id) == above
  }

  ghost predicate ChainAt(mapping: Members, chain: seq<string>, i: nat)
    requires i < |chain|
  {
    LinkAt(mapping, chain[i], if i == 0 then "" else chain[i - 1])
  }

  /** `chain` runs from a root to `current` along parent references. */
  ghost predicate IsChain(mapping: Members, chain: seq<string>, current: string) {
    && (forall i {:trigger ChainAt(mapping, chain, i)} :: 0 <= i < |chain| ==> ChainAt(mapping, chain, i))
    && current == if chain == [] then "" else chain[|chain| - 1]
  }

  ghost predicate ClimbAt(mapping: Members, up: seq<string>, next: string, i: nat)
    requires i < |up|
  {
    LinkAt(mapping, up[i], if i + 1 < |up| then up[i + 1] else next)
  }

  /** A climb of parent references from `current`, with `next` to come. */
  ghost predicate IsClimb(mapping: Members, up: seq<string>, current: string, next: string) {
    && (forall i {:trigger ClimbAt(mapping, up, next, i)} :: 0 <= i < |up| ==> ClimbAt(mapping, up, next, i))
    && current == if up == [] then next else up[0]
  }

  lemma ChainPrefix(mapping: Members, chain: seq<string>, current: string, k: nat)
    requires IsChain(mapping, chain, current) && k <= |chain|
    ensures IsChain(mapping, chain[..k], if k == 0 then "" else chain[k - 1])
    ensures k < |chain| ==> LinkAt(mapping, chain[k], if k == 0 then "" else chain[k - 1])
  {
    forall i | 0 <= i < k ensures ChainAt(mapping, chain[..k], i) { assert ChainAt(mapping, chain, i); }
    if k < |chain| { assert ChainAt(mapping, chain, k); }
  }

  lemma ClimbExtend(mapping: Members, up: seq<string>, current: string, next: string)
    requires IsClimb(mapping, up, current, next) && next != "" && IsNode(mapping, next) && ParentReadable(mapping, next)
    ensures IsClimb(mapping, up + [next], current, ParentOf(mapping, next))
  {
    var more := up + [next];
    forall i | 0 <= i < |more| ensures ClimbAt(mapping, more, ParentOf(mapping, next), i) {
      if i < |up| { assert ClimbAt(mapping, up, next, i); }
    }
  }

  lemma {:induction false} ChainUnique(mapping: Members, c: seq<string>, d: seq<string>, current: string)
    requires IsChain(mapping, c, current) && IsChain(mapping, d, current)
    ensures c == d
    decreases |c|
  {
    if c != [] { ChainPrefix(mapping, c, current, |c| - 1); }
    if d != [] { ChainPrefix(mapping, d, current, |d| - 1); }
    if c != [] && d != [] {
      ChainUnique(mapping, c[..|c| - 1], d[..|d| - 1], ParentOf(mapping, current));
      assert c == c[..|c| - 1] + [current] && d == d[..|d| - 1] + [current];
    }
  }

  /** A chain that continues a climb has what is left of it below. */
  lemma {:induction false} ChainAboveClimb(mapping: Members, chain: seq<string>, current: string, up: seq<string>,
                                           next: string, k: nat)
    requires IsChain(mapping, chain, current) && IsClimb(mapping, up, current, next) && k <= |up|
    ensures k <= |chain|
    ensures (if k < |up| then up[k] else next) == (if k < |chain| then chain[|chain| - 1 - k] else "")
    ensures forall i :: 0 <= i < k ==> up[i] == chain[|chain| - 1 - i]
    decreases k
  {
    if k > 0 {
      ChainAboveClimb(mapping, chain, current, up, next, k - 1);
      assert ClimbAt(mapping, up, next, k - 1);
      ChainPrefix(mapping, chain, current, |chain| - k);
    }
  }

  /** No chain visits a node twice. */
  lemma {:induction false} ChainDistinct(mapping: Members, chain: seq<string>, current: string, i: nat, j: nat)
    requires IsChain(mapping, chain, current) && i < j < |chain|
    ensures chain[i] != chain[j]
    decreases i
  {
    ChainPrefix(mapping, chain, current, i);
    ChainPrefix(mapping, chain, current, j);
    ChainPrefix(mapping, chain, current, j - 1);
    if i > 0 { ChainDistinct(mapping, chain, current, i - 1, j - 1); }
  }

  lemma ClimbToChain(mapping: Members, up: seq<string>, current: string)
    requires IsClimb(mapping, up, current, "")
    ensures IsChain(mapping, Reverse(up), current)
  {
    var r := Reverse(up);
    forall i | 0 <= i < |r| ensures ChainAt(mapping, r, i) {
      assert ClimbAt(mapping, up, "", |up| - 1 - i);
    }
  }

  lemma NoRepeat(mapping: Members, chain: seq<string>, current: string, up: seq<string>, next: string)
    requires IsChain(mapping, chain, current) && IsClimb(mapping, up, current, next) && next != ""
    ensures |chain| > |up| && next !in up
    ensures LinkAt(mapping, next, if |chain| == |up| + 1 then "" else chain[|chain| - |up| - 2])
  {
    ChainAboveClimb(mapping, chain, current, up, next, |up|);
    ChainPrefix(mapping, chain, current, |chain| - |up| - 1);
    forall i | 0 <= i < |up| ensures up[i] != next {
      ChainDistinct(mapping, chain, current, |chain| - |up| - 1, |chain| - 1 - i);
    }
  }

  method ReverseInPlace(list: array<string>)
    modifies list
    ensures list[..] == Reverse(old(list[..]))
  {
    ghost var up := list[..];
    var left, right := 0, list.Length - 1;
    while left < right
      invariant 0 <= left <= list.Length == |up| && right == list.Length - 1 - left
      invariant forall k :: left <= k <= right ==> list[k] == up[k]
      invariant forall k :: 0 <= k < list.Length && !(left <= k <= right) ==> list[k] == up[|up| - 1 - k]
    {
      list[left], list[right] := list[right], list[left];
      left, right := left + 1, right - 1;
    }
  }

  /** Walks up from `current`, then reverses the list in place. It finds the parent
      chain exactly when there is one within the depth limit. */
  method Ancestry(mapping: Members, current: string, maxDepth: nat) returns (r: Option<seq<string>>)
    ensures r.Some? ==> IsChain(mapping, r.value, current) && |r.value| <= maxDepth + 1
    ensures r.None? ==> forall chain :: IsChain(mapping, chain, current) ==> |chain| > maxDepth + 1
  {
    var reversed := Climb(mapping, current, maxDepth);
    if reversed.None? { return None; }
    ClimbToChain(mapping, reversed.value, current);
    var up := reversed.value;
    var list := new string[|up|](i requires 0 <= i < |up| => up[i]);
    assert list[..] == up;
    ReverseInPlace(list);
    r := Some(list[..]);
  }

  method Climb(mapping: Members, current: string, maxDepth: nat) returns (r: Option<seq<string>>)
    ensures r.Some? ==> IsClimb(mapping, r.value, current, "") && |r.value| <= maxDepth + 1
    ensures r.None? ==> forall chain :: IsChain(mapping, chain, current) ==> |chain| > maxDepth + 1
  {
    var seen: set<string> := {};
    var reversed: seq<string> := [];
    var id := current;
    while id != ""
      invariant IsClimb(mapping, reversed, current, id) && |reversed| <= maxDepth + 1
      invariant seen == Elements(reversed)
      decreases maxDepth + 1 - |reversed|
    {
      forall chain | IsChain(mapping, chain, current)
        ensures |chain| > |reversed| && id !in reversed && IsNode(mapping, id) && ParentReadable(mapping, id)
      {
        NoRepeat(mapping, chain, current, reversed, id);
      }
      if |reversed| > maxDepth { return None; }
      if id in seen || !IsNode(mapping, id) || !ParentReadable(mapping, id) { return None; }
      seen := seen + {id};
      ClimbExtend(mapping, reversed, current, id);
      reversed := reversed + [id];
      id := ParentOf(mapping, id);
    }
    r := Some(reversed);
  }
}
