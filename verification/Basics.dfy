/** Small shared datatypes and facts about sequences. */
module Basics {

  datatype Option<+T> = None | Some(value: T)

  datatype Result<+T, +E> = Ok(value: T) | Err(error: E)

  /** A JSON value nobody in this program looks into. */
  datatype Json = Json(text: string)

  /** One member of a JSON object as a typed reader sees it: missing, the literal
      null, of another type, or of the expected type. */
  datatype Field<T> = Absent | Null | Malformed(raw: Json) | Present(value: T)
  {
    /** Decoding into a typed variable: null leaves the zero value in place, a
        missing member or one of another type is an error. */
    function Read(zero: T): Option<T> {
      match this
      case Present(v) => Some(v)
      case Null => Some(zero)
      case _ => None
    }
  }

  predicate Distinct<T(==)>(s: seq<T>) {
    forall i, j :: 0 <= i < j < |s| ==> s[i] != s[j]
  }

  function Elements<T>(s: seq<T>): (r: set<T>) {
    set x | x in s
  }

  /** The sequence without the elements of `drop`, in the same order. */
  function Without<T(==,!new)>(s: seq<T>, drop: set<T>): (r: seq<T>)
    ensures forall x :: x in r <==> x in s && x !in drop
    ensures |r| <= |s|
  {
    if s == [] then []
    else if s[0] in drop then Without(s[1..], drop)
    else [s[0]] + Without(s[1..], drop)
  }

  lemma WithoutDistinct<T(!new)>(s: seq<T>, drop: set<T>)
    requires Distinct(s)
    ensures Distinct(Without(s, drop))
  {
    if s != [] {
      WithoutDistinct(s[1..], drop);
      assert s[0] !in s[1..];
    }
  }

  lemma WithoutAll<T(!new)>(s: seq<T>, drop: set<T>)
    requires forall x :: x in s ==> x in drop
    ensures Without(s, drop) == []
  {
  }

  function IndexOf<T(==)>(s: seq<T>, x: T): (i: nat)
    requires x in s
    ensures i < |s| && s[i] == x
  {
    if s[0] == x then 0 else 1 + IndexOf(s[1..], x)
  }

  function Reverse<T>(s: seq<T>): (r: seq<T>)
    ensures |r| == |s|
    ensures forall i :: 0 <= i < |s| ==> r[i] == s[|s| - 1 - i]
  {
    if s == [] then [] else Reverse(s[1..]) + [s[0]]
  }

  function Join(parts: seq<string>): string {
    if parts == [] then "" else parts[0] + Join(parts[1..])
  }

  lemma DistinctConcat<T>(a: seq<T>, b: seq<T>)
    requires Distinct(a) && Distinct(b) && forall x | x in a :: x !in b
    ensures Distinct(a + b)
  {
    assert forall i | |a| <= i < |a + b| :: (a + b)[i] == b[i - |a|];
    assert forall i | 0 <= i < |a| :: a[i] in a;
  }

  lemma DistinctSize<T>(s: seq<T>)
    requires Distinct(s)
    ensures |Elements(s)| == |s|
  {
    if s != [] {
      DistinctSize(s[1..]);
      assert Elements(s) == {s[0]} + Elements(s[1..]);
    } else {
      assert Elements(s) == {};
    }
  }

  /** The map `m` with `ks[i]` rebound to `vs[i]` for every position. */
  function Overwrite<K, V>(m: map<K, V>, ks: seq<K>, vs: seq<V>): (r: map<K, V>)
    requires |ks| == |vs|
    ensures r.Keys == m.Keys + Elements(ks)
    ensures forall k :: k in m && k !in ks ==> r[k] == m[k]
    ensures Distinct(ks) ==> forall i :: 0 <= i < |ks| ==> r[ks[i]] == vs[i]
  {
    map k | k in m.Keys + Elements(ks) :: if k in ks then vs[IndexOf(ks, k)] else m[k]
  }

  /** Writing one more key changes that key only. */
  lemma OverwriteKeeps<K, V>(m: map<K, V>, ks: seq<K>, vs: seq<V>, n: nat, k: K)
    requires n < |ks| == |vs| && Distinct(ks) && k != ks[n]
    ensures var a, b := Overwrite(m, ks[..n], vs[..n]), Overwrite(m, ks[..n + 1], vs[..n + 1]);
      (k in a <==> k in b) && (k in a ==> a[k] == b[k])
  {
    hide Overwrite;
    assert ks[..n + 1] == ks[..n] + [ks[n]] && vs[..n + 1] == vs[..n] + [vs[n]];
    if k in ks[..n] {
      var i :| 0 <= i < n && ks[i] == k;
      assert ks[..n][i] == k && ks[..n + 1][i] == k;
      assert vs[..n][i] == vs[..n + 1][i];
    }
  }

  lemma OverwriteNext<K, V>(m: map<K, V>, ks: seq<K>, vs: seq<V>, n: nat)
    requires n < |ks| == |vs| && Distinct(ks)
    ensures Overwrite(m, ks[..n], vs[..n])[ks[n] := vs[n]] == Overwrite(m, ks[..n + 1], vs[..n + 1])
    ensures ks[n] in Overwrite(m, ks[..n], vs[..n]) <==> ks[n] in m
    ensures ks[n] in m ==> Overwrite(m, ks[..n], vs[..n])[ks[n]] == m[ks[n]]
  {
    hide Overwrite;
    var a, b := Overwrite(m, ks[..n], vs[..n]), Overwrite(m, ks[..n + 1], vs[..n + 1]);
    assert ks[n] !in ks[..n];
    assert ks[..n + 1][n] == ks[n] && vs[..n + 1][n] == vs[n];
    forall k | k != ks[n] ensures (k in a <==> k in b) && (k in a ==> a[k] == b[k]) { OverwriteKeeps(m, ks, vs, n, k); }
    assert a[ks[n] := vs[n]].Keys == b.Keys;
  }

  lemma OnlyMember<T(!new)>(s: seq<T>, x: T)
    requires Distinct(s) && forall c :: c in s <==> c == x
    ensures s == [x]
  {
    DistinctSize(s);
    assert Elements(s) == {x};
    assert s[0] in s;
  }
}
