/** The slot-reserving layout of nested values as a reference table, and the proof
    that decoding it gives the value back. */
module RefEncoder {
  import opened Basics
  import opened RefTable
  import RefDecoder

  /** A nested value whose object members come in some iteration order. */
  datatype Doc =
    | DNull
    | DText(text: string)
    | DScalar(json: Json)
    | DList(items: seq<Doc>)
    | DObject(members: seq<(string, Doc)>)

  function ToValue(d: Doc): Value
    decreases d, 2
  {
    match d
    case DNull => NullValue
    case DText(s) => Text(s)
    case DScalar(j) => Scalar(j)
    case DList(ds) => List(seq(|ds|, i requires 0 <= i < |ds| => ToValue(ds[i])))
    case DObject(ms) => Object(ToMembers(d, |ms|))
  }

  function ToMembers(d: Doc, k: nat): map<string, Value>
    requires d.DObject? && k <= |d.members|
    decreases d, 1, k
  {
    if k == 0 then map[]
    else
      var m := d.members[k - 1];
      assert m in d.members;
      ToMembers(d, k - 1)[m.0 := ToValue(m.1)]
  }

  /** Where a value is found once it was laid out at `base`: null needs no entry. */
  function RefOf(d: Doc, base: nat): int {
    if d.DNull? then NULL_REF else base
  }

  /** The entries of a value laid out from index `base`: a container reserves its own
      slot before its parts. */
  function Layout(d: Doc, base: nat): seq<Entry>
    decreases d, 2
  {
    match d
    case DNull => []
    case DText(s) => [Leaf(Text(s))]
    case DScalar(j) => [Leaf(Scalar(j))]
    case DList(ds) => [Items(ItemRefs(d, |ds|, base + 1))] + ItemLayout(d, |ds|, base + 1)
    case DObject(ms) => [Members(MemberRefs(d, |ms|, base + 1))] + MemberLayout(d, |ms|, base + 1)
  }

  function ItemLayout(d: Doc, k: nat, base: nat): seq<Entry>
    requires d.DList? && k <= |d.items|
    decreases d, 0, k
  {
    if k == 0 then []
    else
      var before := ItemLayout(d, k - 1, base);
      before + Layout(d.items[k - 1], base + |before|)
  }

  function ItemRefs(d: Doc, k: nat, base: nat): (r: seq<Option<int>>)
    requires d.DList? && k <= |d.items|
    ensures |r| == k
    decreases d, 1, k
  {
    if k == 0 then []
    else ItemRefs(d, k - 1, base) + [Some(RefOf(d.items[k - 1], base + |ItemLayout(d, k - 1, base)|))]
  }

  function MemberLayout(d: Doc, k: nat, base: nat): seq<Entry>
    requires d.DObject? && k <= |d.members|
    decreases d, 0, k
  {
    if k == 0 then []
    else
      var before, m := MemberLayout(d, k - 1, base), d.members[k - 1];
      assert m in d.members;
      before + [Leaf(Text(m.0))] + Layout(m.1, base + |before| + 1)
  }

  function MemberRefs(d: Doc, k: nat, base: nat): (r: seq<Member>)
    requires d.DObject? && k <= |d.members|
    ensures |r| == k
    decreases d, 1, k
  {
    if k == 0 then []
    else
      var at := base + |MemberLayout(d, k - 1, base)|;
      MemberRefs(d, k - 1, base) + [Member(Some(at), Some(RefOf(d.members[k - 1].1, at + 1)))]
  }

  /** The value nests no deeper than `n` levels. */
  predicate Within(d: Doc, n: nat)
    decreases d
  {
    match d
    case DNull => true
    case DText(_) => n > 0
    case DScalar(_) => n > 0
    case DList(ds) => n > 0 && forall i :: 0 <= i < |ds| ==> Within(ds[i], n - 1)
    case DObject(ms) => n > 0 && (ms != [] ==> n > 1) && forall m :: m in ms ==> Within(m.1, n - 1)
  }

  /** The table holds the layout at `base`. */
  ghost predicate Holds(table: Table, layout: seq<Entry>, base: nat) {
    base + |layout| <= |table| && table[base..base + |layout|] == layout
  }

  lemma HoldsParts(table: Table, a: seq<Entry>, b: seq<Entry>, base: nat)
    requires Holds(table, a + b, base)
    ensures Holds(table, a, base) && Holds(table, b, base + |a|)
  {
    assert table[base..base + |a + b|][..|a|] == table[base..base + |a|];
    assert table[base..base + |a + b|][|a|..] == table[base + |a|..base + |a| + |b|];
  }

  lemma HoldsHead(table: Table, e: Entry, rest: seq<Entry>, base: nat)
    requires Holds(table, [e] + rest, base)
    ensures base < |table| && table[base] == e && Holds(table, rest, base + 1)
  {
    HoldsParts(table, [e], rest, base);
    assert table[base..base + 1][0] == e;
  }

  /** Wherever a table holds the layout of a value, the value is what it unfolds to. */
  lemma {:induction false} LayoutUnfolds(table: Table, d: Doc, base: nat, n: nat)
    requires Holds(table, Layout(d, base), base) && Within(d, n)
    ensures Unfold(table, RefOf(d, base), n) == Some(ToValue(d))
    decreases d, 1
  {
    match d
    case DNull =>
    case DText(s) => HoldsHead(table, Leaf(Text(s)), [], base);
    case DScalar(j) => HoldsHead(table, Leaf(Scalar(j)), [], base);
    case DList(ds) =>
      HoldsHead(table, Items(ItemRefs(d, |ds|, base + 1)), ItemLayout(d, |ds|, base + 1), base);
      ItemsUnfold(table, d, |ds|, base + 1, n - 1);
    case DObject(ms) =>
      HoldsHead(table, Members(MemberRefs(d, |ms|, base + 1)), MemberLayout(d, |ms|, base + 1), base);
      MembersUnfold(table, d, |ms|, base + 1, n - 1);
  }

  lemma {:induction false} ItemsUnfold(table: Table, d: Doc, k: nat, base: nat, n: nat)
    requires d.DList? && k <= |d.items| && Holds(table, ItemLayout(d, k, base), base)
    requires forall i :: 0 <= i < |d.items| ==> Within(d.items[i], n)
    ensures UnfoldItems(table, ItemRefs(d, k, base), n) == Some(seq(k, i requires 0 <= i < k => ToValue(d.items[i])))
    decreases d, 0, k
  {
    var vs := seq(k, i requires 0 <= i < k => ToValue(d.items[i]));
    if k > 0 {
      var before, item := ItemLayout(d, k - 1, base), d.items[k - 1];
      HoldsParts(table, before, Layout(item, base + |before|), base);
      ItemsUnfold(table, d, k - 1, base, n);
      LayoutUnfolds(table, item, base + |before|, n);
      assert ItemRefs(d, k, base)[..k - 1] == ItemRefs(d, k - 1, base);
      assert vs == seq(k - 1, i requires 0 <= i < k - 1 => ToValue(d.items[i])) + [ToValue(item)];
    } else {
      assert vs == [];
    }
  }

  lemma {:induction false} MembersUnfold(table: Table, d: Doc, k: nat, base: nat, n: nat)
    requires d.DObject? && k <= |d.members| && Holds(table, MemberLayout(d, k, base), base)
    requires (d.members != [] ==> n > 0) && forall m :: m in d.members ==> Within(m.1, n)
    ensures UnfoldMembers(table, MemberRefs(d, k, base), n) == Some(ToMembers(d, k))
    decreases d, 0, k
  {
    if k > 0 {
      var before, m := MemberLayout(d, k - 1, base), d.members[k - 1];
      assert m in d.members;
      var at := base + |before|;
      MemberParts(table, before, m.0, Layout(m.1, at + 1), base);
      MembersUnfold(table, d, k - 1, base, n);
      LayoutUnfolds(table, m.1, at + 1, n);
      assert MemberRefs(d, k, base)[..k - 1] == MemberRefs(d, k - 1, base);
      MembersStep(table, MemberRefs(d, k, base), n, ToMembers(d, k - 1), m.0, ToValue(m.1));
    }
  }

  lemma MemberParts(table: Table, before: seq<Entry>, key: string, layout: seq<Entry>, base: nat)
    requires Holds(table, before + [Leaf(Text(key))] + layout, base)
    ensures Holds(table, before, base) && Holds(table, layout, base + |before| + 1)
    ensures base + |before| < |table| && table[base + |before|] == Leaf(Text(key))
  {
    HoldsParts(table, before + [Leaf(Text(key))], layout, base);
    HoldsParts(table, before, [Leaf(Text(key))], base);
    HoldsHead(table, Leaf(Text(key)), [], base + |before|);
  }

  lemma MembersStep(table: Table, ms: seq<Member>, n: nat, vs: map<string, Value>, key: string, v: Value)
    requires ms != [] && ms[|ms| - 1].key.Some? && ms[|ms| - 1].value.Some?
    requires UnfoldMembers(table, ms[..|ms| - 1], n) == Some(vs)
    requires Unfold(table, ms[|ms| - 1].key.value, n) == Some(Text(key))
    requires Unfold(table, ms[|ms| - 1].value.value, n) == Some(v)
    ensures UnfoldMembers(table, ms, n) == Some(vs[key := v])
  {
  }

  /** Encode, then decode: every value within the depth limit comes back. */
  method RoundTrip(d: Doc, maxDepth: nat) returns (r: Result<Value, RefDecoder.Fault>)
    requires Within(d, maxDepth + 1)
    ensures r == Ok(ToValue(d))
  {
    var table := Layout(d, 0);
    assert table[0..|table|] == table;
    LayoutUnfolds(table, d, 0, maxDepth + 1);
    ghost var walk, entered;
    r, walk, entered := RefDecoder.DecodeTable(table, maxDepth, RefOf(d, 0));
  }
}
