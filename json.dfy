/** JSON values as `json.loads` produces them, and Python dicts keyed by strings.
    A dict remembers insertion order, so it is a sequence of (key, value) entries;
    `d[k] = v` on a present key keeps its position, on a new key appends. */
module Json {
  import opened Base

  datatype Value =
    | Null
    | Bool(b: bool)
    | Int(i: int)
    | Str(s: string)
    | Array(items: seq<Value>)
    | Object(entries: seq<(string, Value)>)

  type Dict = seq<(string, Value)>

  /** `list(d.keys())`. */
  function Keys(d: Dict): (ks: seq<string>)
    ensures |ks| == |d|
    ensures forall i :: 0 <= i < |d| ==> ks[i] == d[i].0
  {
    if d == [] then [] else [d[0].0] + Keys(d[1..])
  }

  /** A dict never holds one key twice. */
  predicate UniqueKeys(d: Dict) {
    forall i, j :: 0 <= i < j < |d| ==> d[i].0 != d[j].0
  }

  /** `d.get(k)`: the value stored under `k`, if any. */
  function Get(d: Dict, k: string): (r: Option<Value>)
    ensures r.Some? <==> k in Keys(d)
    ensures r.Some? ==> (k, r.value) in d
  {
    if d == [] then None
    else if d[0].0 == k then Some(d[0].1)
    else Get(d[1..], k)
  }

  /** Overwrites the value of a present key where it stands. */
  function Replace(d: Dict, k: string, v: Value): (r: Dict)
    ensures Keys(r) == Keys(d)
    ensures forall k' :: Get(r, k') == if k' == k && k in Keys(d) then Some(v) else Get(d, k')
  {
    if d == [] then []
    else [(d[0].0, if d[0].0 == k then v else d[0].1)] + Replace(d[1..], k, v)
  }

  /** `d[k] = v`. */
  function Set(d: Dict, k: string, v: Value): (r: Dict)
    ensures Keys(r) == if k in Keys(d) then Keys(d) else Keys(d) + [k]
    ensures forall k' :: Get(r, k') == if k' == k then Some(v) else Get(d, k')
    ensures UniqueKeys(d) ==> UniqueKeys(r)
  {
    if d == [] then [(k, v)]
    else if d[0].0 == k then [(k, v)] + Replace(d[1..], k, v)
    else [d[0]] + Set(d[1..], k, v)
  }

  /** `{**a, **b}`: the entries of `a`, then each entry of `b` set in turn. */
  function Merge(a: Dict, b: Dict): Dict
    decreases |b|
  {
    if b == [] then a else Merge(Set(a, b[0].0, b[0].1), b[1..])
  }

  /** The merged dict holds exactly the keys of both. */
  lemma {:induction false} MergeKeys(a: Dict, b: Dict)
    ensures forall k :: k in Keys(Merge(a, b)) <==> k in Keys(a) || k in Keys(b)
    decreases |b|
  {
    if b != [] {
      MergeKeys(Set(a, b[0].0, b[0].1), b[1..]);
      assert Keys(b) == [b[0].0] + Keys(b[1..]);
    }
  }

  /** Merging keeps the keys of `a` first and in their order. */
  lemma {:induction false} MergeKeepsOrder(a: Dict, b: Dict)
    ensures |a| <= |Merge(a, b)| && Keys(Merge(a, b))[..|a|] == Keys(a)
    decreases |b|
  {
    if b != [] {
      var a' := Set(a, b[0].0, b[0].1);
      MergeKeepsOrder(a', b[1..]);
      assert Keys(a')[..|a|] == Keys(a);
    }
  }

  /** On a key of `b` the merged dict holds `b`'s value (the later mapping wins); on any other key, `a`'s. */
  lemma {:induction false} MergeGet(a: Dict, b: Dict, k: string)
    requires UniqueKeys(b)
    ensures Get(Merge(a, b), k) == if k in Keys(b) then Get(b, k) else Get(a, k)
    decreases |b|
  {
    if b != [] {
      var a' := Set(a, b[0].0, b[0].1);
      assert UniqueKeys(b[1..]);
      MergeGet(a', b[1..], k);
      assert Keys(b) == [b[0].0] + Keys(b[1..]);
    }
  }

  /** Merging keeps a dict a dict. */
  lemma {:induction false} MergeUnique(a: Dict, b: Dict)
    requires UniqueKeys(a)
    ensures UniqueKeys(Merge(a, b))
    decreases |b|
  {
    if b != [] {
      MergeUnique(Set(a, b[0].0, b[0].1), b[1..]);
    }
  }

  /** `x` is `y` with some entries left out and the rest in their order. */
  predicate IsSubsequence<T(==)>(x: seq<T>, y: seq<T>)
    decreases |y|
  {
    if x == [] then true
    else if y == [] then false
    else (x[0] == y[0] && IsSubsequence(x[1..], y[1..])) || IsSubsequence(x, y[1..])
  }
}
