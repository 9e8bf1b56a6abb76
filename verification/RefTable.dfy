/** The reference table of a share page: what it denotes. Object members are listed
    in the order the runtime happens to iterate them; every order is some table. */
module RefTable {
  import opened Basics

  datatype Value =
    | NullValue
    | Text(text: string)
    | Scalar(json: Json)
    | List(items: seq<Value>)
    | Object(members: map<string, Value>)

  /** An encoded member: the index its key decodes to and the reference it holds,
      None where the encoding is unusable. */
  datatype Member = Member(key: Option<nat>, value: Option<int>)

  datatype Entry =
    | Leaf(value: Value)
    | Items(refs: seq<Option<int>>)
    | Members(members: seq<Member>)

  type Table = seq<Entry>

  const NULL_REF := -5

  predicate InRange(table: Table, i: int) {
    0 <= i < |table|
  }

  // ----- the unbounded unfolding, cut off at depth n -----

  function Unfold(table: Table, i: int, n: nat): Option<Value>
    decreases n, 0
  {
    if i == NULL_REF then Some(NullValue)
    else if !InRange(table, i) || n == 0 then None
    else match table[i]
      case Leaf(v) => Some(v)
      case Items(refs) =>
        var r := UnfoldItems(table, refs, n - 1);
        if r.Some? then Some(List(r.value)) else None
      case Members(ms) =>
        var r := UnfoldMembers(table, ms, n - 1);
        if r.Some? then Some(Object(r.value)) else None
  }

  function UnfoldItems(table: Table, refs: seq<Option<int>>, n: nat): (r: Option<seq<Value>>)
    decreases n, 1, |refs|
  {
    if refs == [] then Some([])
    else
      var last := refs[|refs| - 1];
      var rest := UnfoldItems(table, refs[..|refs| - 1], n);
      if rest.None? || last.None? then None
      else
        var v := Unfold(table, last.value, n);
        if v.None? then None else Some(rest.value + [v.value])
  }

  function UnfoldMembers(table: Table, ms: seq<Member>, n: nat): (r: Option<map<string, Value>>)
    decreases n, 1, |ms|
  {
    if ms == [] then Some(map[])
    else
      var last := ms[|ms| - 1];
      var rest := UnfoldMembers(table, ms[..|ms| - 1], n);
      if rest.None? || last.key.None? || last.value.None? then None
      else
        var k, v := Unfold(table, last.key.value, n), Unfold(table, last.value.value, n);
        if k.None? || !k.value.Text? || v.None? then None
        else Some(rest.value[k.value.text := v.value])
  }

  lemma {:induction false} UnfoldMonotone(table: Table, i: int, n: nat, m: nat)
    requires n <= m && Unfold(table, i, n).Some?
    ensures Unfold(table, i, m) == Unfold(table, i, n)
    decreases n, 0
  {
    if InRange(table, i) && i != NULL_REF {
      match table[i]
      case Leaf(_) =>
      case Items(refs) => ItemsMonotone(table, refs, n - 1, m - 1);
      case Members(ms) => MembersMonotone(table, ms, n - 1, m - 1);
    }
  }

  lemma {:induction false} ItemsMonotone(table: Table, refs: seq<Option<int>>, n: nat, m: nat)
    requires n <= m && UnfoldItems(table, refs, n).Some?
    ensures UnfoldItems(table, refs, m) == UnfoldItems(table, refs, n)
    decreases n, 1, |refs|
  {
    if refs != [] {
      ItemsMonotone(table, refs[..|refs| - 1], n, m);
      UnfoldMonotone(table, refs[|refs| - 1].value, n, m);
    }
  }

  lemma {:induction false} MembersMonotone(table: Table, ms: seq<Member>, n: nat, m: nat)
    requires n <= m && UnfoldMembers(table, ms, n).Some?
    ensures UnfoldMembers(table, ms, m) == UnfoldMembers(table, ms, n)
    decreases n, 1, |ms|
  {
    if ms != [] {
      var last := ms[|ms| - 1];
      MembersMonotone(table, ms[..|ms| - 1], n, m);
      UnfoldMonotone(table, last.key.value, n, m);
      UnfoldMonotone(table, last.value.value, n, m);
    }
  }

  /** What index `i` denotes, if its unfolding is finite and well-formed. */
  ghost predicate Denotes(table: Table, i: int, v: Value) {
    exists n :: Unfold(table, i, n) == Some(v)
  }

  lemma ItemsSnoc(table: Table, refs: seq<Option<int>>, k: nat, n: nat, vs: seq<Value>, v: Value) returns (m: nat)
    requires k < |refs| && refs[k].Some? && UnfoldItems(table, refs[..k], n) == Some(vs)
    requires Denotes(table, refs[k].value, v)
    ensures UnfoldItems(table, refs[..k + 1], m) == Some(vs + [v])
  {
    var c: nat :| Unfold(table, refs[k].value, c) == Some(v);
    m := if n < c then c else n;
    ItemsMonotone(table, refs[..k], n, m);
    UnfoldMonotone(table, refs[k].value, c, m);
    assert refs[..k + 1][..k] == refs[..k];
  }

  lemma MembersSnoc(table: Table, ms: seq<Member>, k: nat, n: nat, vs: map<string, Value>, key: string, v: Value)
    returns (m: nat)
    requires k < |ms| && ms[k].key.Some? && ms[k].value.Some? && UnfoldMembers(table, ms[..k], n) == Some(vs)
    requires Denotes(table, ms[k].key.value, Text(key)) && Denotes(table, ms[k].value.value, v)
    ensures UnfoldMembers(table, ms[..k + 1], m) == Some(vs[key := v])
  {
    var c: nat :| Unfold(table, ms[k].key.value, c) == Some(Text(key));
    var d: nat :| Unfold(table, ms[k].value.value, d) == Some(v);
    m := if n < c then c else n;
    m := if m < d then d else m;
    MembersMonotone(table, ms[..k], n, m);
    UnfoldMonotone(table, ms[k].key.value, c, m);
    UnfoldMonotone(table, ms[k].value.value, d, m);
    assert ms[..k + 1][..k] == ms[..k];
  }

  lemma DenotesOnce(table: Table, i: int, v: Value, n: nat)
    requires Denotes(table, i, v) && Unfold(table, i, n).Some?
    ensures Unfold(table, i, n) == Some(v)
  {
    var m :| Unfold(table, i, m) == Some(v);
    if n <= m { UnfoldMonotone(table, i, n, m); } else { UnfoldMonotone(table, i, m, n); }
  }

  // ----- references as a graph -----

  /** Entry `i` holds a reference to `j`, as a key or as a value. */
  ghost predicate Refers(table: Table, i: int, j: int) {
    InRange(table, i) &&
    match table[i]
    case Leaf(_) => false
    case Items(refs) => Some(j) in refs
    case Members(ms) =>
      exists k :: 0 <= k < |ms| && ((ms[k].key.Some? && ms[k].key.value == j) || ms[k].value == Some(j))
  }

  ghost predicate IsWalk(table: Table, w: seq<int>) {
    forall k :: 0 < k < |w| ==> Refers(table, w[k - 1], w[k])
  }

  lemma {:induction false} ItemsReach(table: Table, refs: seq<Option<int>>, n: nat, k: nat)
    requires UnfoldItems(table, refs, n).Some? && k < |refs|
    ensures refs[k].Some? && Unfold(table, refs[k].value, n).Some?
    decreases |refs|
  {
    if k < |refs| - 1 { ItemsReach(table, refs[..|refs| - 1], n, k); }
  }

  lemma {:induction false} MembersReach(table: Table, ms: seq<Member>, n: nat, k: nat)
    requires UnfoldMembers(table, ms, n).Some? && k < |ms|
    ensures ms[k].key.Some? && Unfold(table, ms[k].key.value, n).Some? && Unfold(table, ms[k].key.value, n).value.Text?
    ensures ms[k].value.Some? && Unfold(table, ms[k].value.value, n).Some?
    decreases |ms|
  {
    if k < |ms| - 1 { MembersReach(table, ms[..|ms| - 1], n, k); }
  }

  /** References of something that unfolds unfold one level earlier. */
  lemma StepDown(table: Table, i: int, j: int, n: nat)
    requires Unfold(table, i, n).Some? && Refers(table, i, j)
    ensures n > 0 && Unfold(table, j, n - 1).Some?
  {
    match table[i]
    case Items(refs) =>
      var k :| 0 <= k < |refs| && refs[k] == Some(j);
      ItemsReach(table, refs, n - 1, k);
    case Members(ms) =>
      var k :| 0 <= k < |ms| && ((ms[k].key.Some? && ms[k].key.value == j) || ms[k].value == Some(j));
      MembersReach(table, ms, n - 1, k);
  }

  lemma {:induction false} WalkDown(table: Table, w: seq<int>, n: nat)
    requires w != [] && IsWalk(table, w) && Unfold(table, w[0], n).Some?
    ensures |w| - 1 <= n && Unfold(table, w[|w| - 1], n - (|w| - 1)).Some?
    decreases |w|
  {
    if |w| > 1 {
      var up := w[..|w| - 1];
      assert forall k | 0 < k < |up| :: Refers(table, w[k - 1], w[k]);
      WalkDown(table, up, n);
      StepDown(table, w[|w| - 2], w[|w| - 1], n - (|w| - 2));
    }
  }

  /** Nothing that unfolds lies on a cycle. */
  lemma {:induction false} NoCycle(table: Table, w: seq<int>, n: nat)
    requires |w| >= 2 && IsWalk(table, w) && w[|w| - 1] == w[0]
    ensures Unfold(table, w[0], n).None?
    decreases n
  {
    if Unfold(table, w[0], n).Some? {
      WalkDown(table, w, n);
      NoCycle(table, w, n - (|w| - 1));
    }
  }
}
