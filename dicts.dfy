/** Python's `dict` with string keys, as the language has it since 3.7: an
    insertion-ordered list of entries. Assigning to a key that is present
    replaces its value where it stands; assigning to a new key appends. */
module Dicts {

  type Dict<V> = seq<(string, V)>

  /** `list(d)`: the keys in insertion order. */
  function Keys<V>(d: Dict<V>): (ks: seq<string>)
    ensures |ks| == |d|
    ensures forall i :: 0 <= i < |d| ==> ks[i] == d[i].0
  {
    if d == [] then [] else [d[0].0] + Keys(d[1..])
  }

  /** `k in d` */
  predicate HasKey<V>(d: Dict<V>, k: string)
  {
    k in Keys(d)
  }

  /** No key occurs twice, as in every real dict. */
  ghost predicate DistinctKeys<V>(d: Dict<V>)
  {
    forall i, j :: 0 <= i < j < |d| ==> d[i].0 != d[j].0
  }

  /** `d[k]` for a present key. */
  function Get<V>(d: Dict<V>, k: string): V
    requires HasKey(d, k)
  {
    if d[0].0 == k then d[0].1 else Get(d[1..], k)
  }

  /** The position of a present key. */
  function IndexOf<V>(d: Dict<V>, k: string): (i: nat)
    requires HasKey(d, k)
    ensures i < |d| && d[i].0 == k && d[i].1 == Get(d, k)
  {
    if d[0].0 == k then 0 else 1 + IndexOf(d[1..], k)
  }

  /** `d.get(k, default)` */
  function GetOr<V>(d: Dict<V>, k: string, default: V): V
  {
    if HasKey(d, k) then Get(d, k) else default
  }

  /** `d[k] = v`, as a value: the updated dict. */
  function Put<V>(d: Dict<V>, k: string, v: V): (r: Dict<V>)
    ensures HasKey(r, k) && Get(r, k) == v
    ensures forall j :: j != k ==> HasKey(r, j) == HasKey(d, j)
    ensures forall j :: j != k && HasKey(d, j) ==> Get(r, j) == Get(d, j)
    ensures Keys(r) == if HasKey(d, k) then Keys(d) else Keys(d) + [k]
  {
    if d == [] then
      Cons((k, v), []);
      [(k, v)]
    else if d[0].0 == k then
      PutFront(d, k, v);
      [(k, v)] + d[1..]
    else
      var rest := Put(d[1..], k, v);
      PutBehind(d, k, v, rest);
      [d[0]] + rest
  }

  /** What `Put` promises about its result `r`. */
  ghost predicate IsPut<V>(d: Dict<V>, k: string, v: V, r: Dict<V>)
  {
    && HasKey(r, k) && Get(r, k) == v
    && (forall j :: j != k ==> HasKey(r, j) == HasKey(d, j))
    && (forall j :: j != k && HasKey(d, j) ==> Get(r, j) == Get(d, j))
    && Keys(r) == if HasKey(d, k) then Keys(d) else Keys(d) + [k]
  }

  /** Assigning to the first key replaces its entry in place. */
  lemma PutFront<V>(d: Dict<V>, k: string, v: V)
    requires d != [] && d[0].0 == k
    ensures IsPut(d, k, v, [(k, v)] + d[1..])
  {
    Cons(d[0], d[1..]);
    Cons((k, v), d[1..]);
    assert d == [d[0]] + d[1..];
  }

  /** Assigning to another key keeps the first entry in front. */
  lemma PutBehind<V>(d: Dict<V>, k: string, v: V, rest: Dict<V>)
    requires d != [] && d[0].0 != k && IsPut(d[1..], k, v, rest)
    ensures IsPut(d, k, v, [d[0]] + rest)
  {
    Cons(d[0], d[1..]);
    Cons(d[0], rest);
    assert d == [d[0]] + d[1..];
  }

  /** The keys, membership and reads of a dict with one entry in front. */
  lemma Cons<V>(x: (string, V), rest: Dict<V>)
    ensures Keys([x] + rest) == [x.0] + Keys(rest)
    ensures forall j :: HasKey([x] + rest, j) <==> j == x.0 || HasKey(rest, j)
    ensures forall j :: HasKey([x] + rest, j) ==> Get([x] + rest, j) == if x.0 == j then x.1 else Get(rest, j)
  {
    assert ([x] + rest)[1..] == rest;
  }

  /** `dict(d, **e)`: `d` with every entry of `e` assigned in `e`'s order. */
  function Update<V>(d: Dict<V>, e: Dict<V>): Dict<V>
    decreases e
  {
    if e == [] then d else Update(Put(d, e[0].0, e[0].1), e[1..])
  }

  /** The keys of `dict(d, **e)` are those of either, and a key of `e`
      takes its value from `e`, any other key its value from `d`. */
  lemma {:induction false} UpdateGet<V>(d: Dict<V>, e: Dict<V>, k: string)
    requires DistinctKeys(e)
    decreases e
    ensures HasKey(Update(d, e), k) <==> HasKey(d, k) || HasKey(e, k)
    ensures HasKey(e, k) ==> Get(Update(d, e), k) == Get(e, k)
    ensures !HasKey(e, k) && HasKey(d, k) ==> Get(Update(d, e), k) == Get(d, k)
  {
    if e != [] {
      DistinctTail(e);
      UpdateGet(Put(d, e[0].0, e[0].1), e[1..], k);
    }
  }

  /** Dropping the first entry of a dict keeps its keys distinct, and the
      rest no longer has the first key. */
  lemma DistinctTail<V>(e: Dict<V>)
    requires DistinctKeys(e) && e != []
    ensures DistinctKeys(e[1..]) && !HasKey(e[1..], e[0].0)
    ensures Keys(e) == [e[0].0] + Keys(e[1..])
    ensures forall k :: HasKey(e, k) <==> k == e[0].0 || HasKey(e[1..], k)
    ensures forall k :: HasKey(e, k) && k != e[0].0 ==> Get(e, k) == Get(e[1..], k)
  {
    assert Keys(e) == [e[0].0] + Keys(e[1..]);
    forall i | 0 <= i < |e[1..]| ensures e[1..][i].0 != e[0].0 {
      assert e[1..][i] == e[i + 1];
    }
  }

  /** `dict(d, **e)` keeps `d`'s keys first, in their order. */
  lemma {:induction false} UpdateKeysPrefix<V>(d: Dict<V>, e: Dict<V>)
    decreases e
    ensures |Keys(d)| <= |Keys(Update(d, e))|
    ensures Keys(Update(d, e))[..|Keys(d)|] == Keys(d)
  {
    if e != [] {
      var d' := Put(d, e[0].0, e[0].1);
      UpdateKeysPrefix(d', e[1..]);
      assert Keys(d')[..|Keys(d)|] == Keys(d);
      PrefixOfPrefix(Keys(Update(d, e)), Keys(d'), Keys(d));
    }
  }

  lemma PrefixOfPrefix(a: seq<string>, b: seq<string>, c: seq<string>)
    requires |b| <= |a| && a[..|b|] == b && |c| <= |b| && b[..|c|] == c
    ensures a[..|c|] == c
  {
    assert a[..|c|] == a[..|b|][..|c|];
  }

  /** Assigning keeps the keys distinct. */
  lemma {:induction false} PutDistinct<V>(d: Dict<V>, k: string, v: V)
    requires DistinctKeys(d)
    ensures DistinctKeys(Put(d, k, v))
  {
    var r := Put(d, k, v);
    assert |Keys(r)| == |r|;
    forall i, j | 0 <= i < j < |r| ensures r[i].0 != r[j].0 {
      assert Keys(r)[i] == r[i].0 && Keys(r)[j] == r[j].0;
      if j < |d| {
        assert Keys(d)[i] == d[i].0 && Keys(d)[j] == d[j].0;
      } else {
        assert Keys(r)[j] == k && !HasKey(d, k);
        assert Keys(d)[i] == d[i].0;
      }
    }
  }

  /** In a dict, the entry at each position is what reading its key gives. */
  lemma {:induction false} GetAtIndex<V>(d: Dict<V>, i: int)
    requires DistinctKeys(d) && 0 <= i < |d|
    ensures HasKey(d, d[i].0) && Get(d, d[i].0) == d[i].1
  {
    assert Keys(d)[i] == d[i].0;
    if i > 0 {
      assert d[1..][i - 1] == d[i];
      GetAtIndex(d[1..], i - 1);
    }
  }
}
