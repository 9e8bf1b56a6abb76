/** The memoising, colour-marking decoder of reference tables. */
module RefDecoder {
  import opened Basics
  import opened RefTable

  datatype Fault = OutOfRange | TooDeep | Cyclic | BadEncoding | KeyNotText | NotInteger

  datatype Color = White | Gray | Black

  class Decoder {
    const table: Table
    const maxDepth: nat
    const state: array<Color>
    const memo: array<Value>
    /** Every index whose entry was opened, in order. */
    ghost var expanded: seq<int>

    constructor (table: Table, maxDepth: nat)
      ensures this.table == table && this.maxDepth == maxDepth
      ensures Valid([]) && expanded == [] && fresh(state) && fresh(memo)
    {
      this.table, this.maxDepth := table, maxDepth;
      state := new Color[|table|](i => White);
      memo := new Value[|table|](i => NullValue);
      expanded := [];
    }

    ghost predicate Shape()
    {
      state.Length == memo.Length == |table|
    }

    /** `stack` is the chain of entries being decoded, each referring to the next. */
    ghost predicate Valid(stack: seq<int>)
      reads this, state, memo
    {
      && Shape() && IsWalk(table, stack)
      && (forall i :: 0 <= i < |table| ==> (state[i] == Gray <==> i in stack))
      && (forall i :: 0 <= i < |table| && state[i] == Black ==> Denotes(table, i, memo[i]))
      && Distinct(expanded)
      && (forall i :: 0 <= i < |table| ==> (i in expanded <==> state[i] != White))
    }

    ghost function Whites(): set<int>
      reads this, state
      requires Shape()
    {
      set i | 0 <= i < |table| && state[i] == White
    }

    ghost function Budget(depth: nat): nat {
      if depth > maxDepth then 0 else maxDepth + 1 - depth
    }

    /** A walk from `stack` through `index` that closes a cycle. */
    ghost predicate ClosesCycle(stack: seq<int>, index: int, walk: seq<int>) {
      && stack + [index] <= walk && IsWalk(table, walk)
      && walk[|walk| - 1] in walk[..|walk| - 1]
    }

    method Decode(index: int, depth: nat, ghost stack: seq<int>) returns (r: Result<Value, Fault>, ghost walk: seq<int>)
      requires Valid(stack) && IsWalk(table, stack + [index])
      modifies this, state, memo
      ensures Shape() && Whites() <= old(Whites()) && Distinct(expanded) && old(expanded) <= expanded
      ensures r.Ok? ==> Valid(stack) && Denotes(table, index, r.value)
      ensures Unfold(table, index, Budget(depth)).Some? ==> r.Ok?
      ensures r == Err(Cyclic) ==> ClosesCycle(stack, index, walk)
      decreases Whites(), 1
    {
      walk := stack + [index];
      if index == NULL_REF {
        assert Unfold(table, index, 0) == Some(NullValue);
        return Ok(NullValue), walk;
      }
      if index < 0 || index >= |table| { return Err(OutOfRange), walk; }
      if depth > maxDepth { return Err(TooDeep), walk; }
      if state[index] == Gray {
        GrayCloses(stack, index, Budget(depth));
        return Err(Cyclic), walk;
      }
      if state[index] == Black { return Ok(memo[index]), walk; }
      ghost var whites := Whites();
      state[index] := Gray;
      assert index in whites && index !in Whites();
      expanded := expanded + [index];
      r, walk := Open(index, depth, stack);
      if r.Ok? {
        state[index], memo[index] := Black, r.value;
      }
    }

    /** Re-entering an entry that is being decoded closes a cycle, and then the entry
        has no unfolding. */
    lemma GrayCloses(stack: seq<int>, index: int, n: nat)
      requires IsWalk(table, stack + [index]) && index in stack
      ensures ClosesCycle(stack, index, stack + [index]) && Unfold(table, index, n).None?
    {
      var w := stack + [index];
      assert w[..|w| - 1] == stack;
      var k :| 0 <= k < |stack| && stack[k] == index;
      assert forall j | k < j < |w| :: Refers(table, w[j - 1], w[j]);
      NoCycle(table, w[k..], n);
    }

    /** Decodes the entry at `index`, already marked as open. */
    method Open(index: int, depth: nat, ghost stack: seq<int>) returns (r: Result<Value, Fault>, ghost walk: seq<int>)
      requires Valid(stack + [index]) && InRange(table, index) && index !in stack && depth <= maxDepth
      modifies this, state, memo
      ensures Shape() && Whites() <= old(Whites()) && Distinct(expanded) && old(expanded) <= expanded
      ensures r.Ok? ==> Valid(stack + [index]) && Denotes(table, index, r.value)
      ensures Unfold(table, index, Budget(depth)).Some? ==> r.Ok?
      ensures r == Err(Cyclic) ==> ClosesCycle(stack, index, walk)
      decreases Whites(), 4
    {
      match table[index]
      case Leaf(v) =>
        assert Unfold(table, index, 1) == Some(v);
        r, walk := Ok(v), [];
      case Items(refs) =>
        var items;
        ghost var n;
        items, n, walk := DecodeItems(index, refs, depth, stack);
        if items.Err? { return Err(items.error), walk; }
        assert Unfold(table, index, n + 1) == Some(List(items.value));
        r := Ok(List(items.value));
      case Members(ms) =>
        var members;
        ghost var n;
        members, n, walk := DecodeMembers(index, ms, depth, stack);
        if members.Err? { return Err(members.error), walk; }
        assert Unfold(table, index, n + 1) == Some(Object(members.value));
        r := Ok(Object(members.value));
    }

    method DecodeItems(index: int, refs: seq<Option<int>>, depth: nat, ghost stack: seq<int>)
      returns (r: Result<seq<Value>, Fault>, ghost n: nat, ghost walk: seq<int>)
      requires Valid(stack + [index]) && InRange(table, index) && table[index] == Items(refs) && depth <= maxDepth
      modifies this, state, memo
      ensures Shape() && Whites() <= old(Whites()) && Distinct(expanded) && old(expanded) <= expanded
      ensures r.Ok? ==> Valid(stack + [index]) && UnfoldItems(table, refs, n) == Some(r.value)
      ensures UnfoldItems(table, refs, Budget(depth + 1)).Some? ==> r.Ok?
      ensures r == Err(Cyclic) ==> ClosesCycle(stack, index, walk)
      decreases Whites(), 3
    {
      var list: seq<Value> := [];
      n, walk := 0, [];
      var k := 0;
      while k < |refs|
        invariant 0 <= k <= |refs| && Valid(stack + [index])
        invariant Whites() <= old(Whites()) && old(expanded) <= expanded
        invariant UnfoldItems(table, refs[..k], n) == Some(list)
      {
        if UnfoldItems(table, refs, Budget(depth + 1)).Some? { ItemsReach(table, refs, Budget(depth + 1), k); }
        if refs[k].None? { return Err(NotInteger), n, walk; }
        assert Refers(table, index, refs[k].value);
        var v;
        v, walk := Decode(refs[k].value, depth + 1, stack + [index]);
        if v.Err? { return Err(v.error), n, walk; }
        n := ItemsSnoc(table, refs, k, n, list, v.value);
        list := list + [v.value];
        k := k + 1;
      }
      assert refs[..k] == refs;
      r := Ok(list);
    }

    method DecodeMembers(index: int, ms: seq<Member>, depth: nat, ghost stack: seq<int>)
      returns (r: Result<map<string, Value>, Fault>, ghost n: nat, ghost walk: seq<int>)
      requires Valid(stack + [index]) && InRange(table, index) && table[index] == Members(ms) && depth <= maxDepth
      modifies this, state, memo
      ensures Shape() && Whites() <= old(Whites()) && Distinct(expanded) && old(expanded) <= expanded
      ensures r.Ok? ==> Valid(stack + [index]) && UnfoldMembers(table, ms, n) == Some(r.value)
      ensures UnfoldMembers(table, ms, Budget(depth + 1)).Some? ==> r.Ok?
      ensures r == Err(Cyclic) ==> ClosesCycle(stack, index, walk)
      decreases Whites(), 3
    {
      var built: map<string, Value> := map[];
      n, walk := 0, [];
      var k := 0;
      while k < |ms|
        invariant 0 <= k <= |ms| && Valid(stack + [index])
        invariant Whites() <= old(Whites()) && old(expanded) <= expanded
        invariant UnfoldMembers(table, ms[..k], n) == Some(built)
      {
        var entry;
        entry, walk := DecodeMember(index, ms, k, depth, stack);
        if entry.Err? { return Err(entry.error), n, walk; }
        n := MembersSnoc(table, ms, k, n, built, entry.value.0, entry.value.1);
        built := built[entry.value.0 := entry.value.1];
        k := k + 1;
      }
      assert ms[..k] == ms;
      r := Ok(built);
    }

    /** One pass of the loop over an object's members: the key, then the value. */
    method DecodeMember(index: int, ms: seq<Member>, k: nat, depth: nat, ghost stack: seq<int>)
      returns (r: Result<(string, Value), Fault>, ghost walk: seq<int>)
      requires Valid(stack + [index]) && InRange(table, index) && table[index] == Members(ms) && depth <= maxDepth
      requires k < |ms|
      modifies this, state, memo
      ensures Shape() && Whites() <= old(Whites()) && Distinct(expanded) && old(expanded) <= expanded
      ensures r.Ok? ==> Valid(stack + [index]) && ms[k].key.Some? && ms[k].value.Some?
      ensures r.Ok? ==> Denotes(table, ms[k].key.value, Text(r.value.0)) && Denotes(table, ms[k].value.value, r.value.1)
      ensures UnfoldMembers(table, ms, Budget(depth + 1)).Some? ==> r.Ok?
      ensures r == Err(Cyclic) ==> ClosesCycle(stack, index, walk)
      decreases Whites(), 2
    {
      walk := [];
      ghost var b := Budget(depth + 1);
      if UnfoldMembers(table, ms, b).Some? { MembersReach(table, ms, b, k); }
      if ms[k].key.None? { return Err(BadEncoding), walk; }
      assert Refers(table, index, ms[k].key.value);
      var key;
      key, walk := Decode(ms[k].key.value, depth + 1, stack + [index]);
      if key.Err? { return Err(key.error), walk; }
      if Unfold(table, ms[k].key.value, b).Some? { DenotesOnce(table, ms[k].key.value, key.value, b); }
      if !key.value.Text? { return Err(KeyNotText), walk; }
      if ms[k].value.None? { return Err(NotInteger), walk; }
      assert Refers(table, index, ms[k].value.value);
      var v;
      v, walk := Decode(ms[k].value.value, depth + 1, stack + [index]);
      if v.Err? { return Err(v.error), walk; }
      r := Ok((key.value.text, v.value));
    }
  }

  /** Decoding one index of a fresh table. A result is the unfolding of that index;
      every unfolding within the depth limit is found; a cycle is reported only
      where one is reachable; and no entry is opened twice. */
  method DecodeTable(table: Table, maxDepth: nat, index: int)
    returns (r: Result<Value, Fault>, ghost walk: seq<int>, ghost entered: seq<int>)
    ensures r.Ok? ==> Denotes(table, index, r.value)
    ensures Unfold(table, index, maxDepth + 1).Some? ==> r == Ok(Unfold(table, index, maxDepth + 1).value)
    ensures r == Err(Cyclic) ==>
      |walk| > 1 && walk[0] == index && IsWalk(table, walk) && walk[|walk| - 1] in walk[..|walk| - 1]
    ensures Distinct(entered)
  {
    var d := new Decoder(table, maxDepth);
    r, walk := d.Decode(index, 0, []);
    entered := d.expanded;
    if Unfold(table, index, maxDepth + 1).Some? { DenotesOnce(table, index, r.value, maxDepth + 1); }
  }
}
