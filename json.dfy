/**
 * The JSON-shaped Python values the service passes around, and Python's
 * `dict` with string keys as an ordered list of entries (Python dicts keep
 * insertion order, and that order is what the service serialises).
 */
module Json {
  import opened Wrappers

  datatype Value =
    | Null                           // Python None / JSON null
    | Bool(b: bool)
    | Num(n: real)
    | Str(s: string)
    | Arr(items: seq<Value>)
    | Obj(entries: seq<(string, Value)>)

  type Dict = seq<(string, Value)>

  /** Python truthiness: None, False, 0, "", [] and {} are false. */
  predicate Truthy(v: Value) {
    match v
    case Null => false
    case Bool(b) => b
    case Num(n) => n != 0.0
    case Str(s) => s != []
    case Arr(items) => items != []
    case Obj(entries) => entries != []
  }

  /** The keys of a dict, in insertion order. */
  function Keys(d: Dict): (ks: seq<string>)
    ensures |ks| == |d|
    ensures forall i :: 0 <= i < |d| ==> ks[i] == d[i].0
  {
    if d == [] then [] else [d[0].0] + Keys(d[1..])
  }

  /** The keys of an entry followed by a dict. */
  lemma KeysCons(e: (string, Value), d: Dict)
    ensures Keys([e] + d) == [e.0] + Keys(d)
  {
    assert ([e] + d)[1..] == d;
  }

  /** A Python dict never holds the same key twice. */
  predicate DistinctKeys(d: Dict) {
    Distinct(Keys(d))
  }

  /** No element occurs twice. */
  predicate Distinct<T(==)>(s: seq<T>) {
    forall i, j :: 0 <= i < j < |s| ==> s[i] != s[j]
  }

  /** `d.get(k)`: the value stored under k, if any. */
  function Get(d: Dict, k: string): (r: Option<Value>)
    ensures r.Some? <==> k in Keys(d)
    ensures r.Some? ==> (k, r.value) in d
  {
    if d == [] then None
    else if d[0].0 == k then Some(d[0].1)
    else Get(d[1..], k)
  }

  /** `d.get(k, default)`; with default None this is `d.get(k)` as a Value. */
  function GetOr(d: Dict, k: string, default: Value): Value {
    Get(d, k).GetOr(default)
  }

  /**
   * `d[k] = v`: an existing key keeps its position and takes the new value,
   * a new key is appended at the end.
   */
  function Set(d: Dict, k: string, v: Value): (r: Dict)
    ensures Get(r, k) == Some(v)
    ensures forall j :: j != k ==> Get(r, j) == Get(d, j)
    ensures Keys(r) == if k in Keys(d) then Keys(d) else Keys(d) + [k]
  {
    if d == [] then [(k, v)]
    else if d[0].0 == k then
      OverwriteHead(d, v);
      [(k, v)] + d[1..]
    else
      var rest := Set(d[1..], k, v);
      SetPastHead(d, k, v, rest);
      [d[0]] + rest
  }

  /** Overwriting the first entry's value keeps the keys and changes only that key's value. */
  lemma OverwriteHead(d: Dict, v: Value)
    requires d != []
    ensures var r := [(d[0].0, v)] + d[1..];
            && Get(r, d[0].0) == Some(v)
            && (forall j :: j != d[0].0 ==> Get(r, j) == Get(d, j))
            && Keys(r) == Keys(d)
  {
    var r := [(d[0].0, v)] + d[1..];
    assert r[1..] == d[1..];
  }

  /** Assigning past a first entry with another key: the entry stays in front of the assigned rest. */
  lemma SetPastHead(d: Dict, k: string, v: Value, rest: Dict)
    requires d != [] && d[0].0 != k
    requires Get(rest, k) == Some(v)
    requires forall j :: j != k ==> Get(rest, j) == Get(d[1..], j)
    requires Keys(rest) == if k in Keys(d[1..]) then Keys(d[1..]) else Keys(d[1..]) + [k]
    ensures var r := [d[0]] + rest;
            && Get(r, k) == Some(v)
            && (forall j :: j != k ==> Get(r, j) == Get(d, j))
            && Keys(r) == if k in Keys(d) then Keys(d) else Keys(d) + [k]
  {
    var r := [d[0]] + rest;
    assert r[1..] == rest;
    KeysCons(d[0], rest);
    assert Keys(d) == [d[0].0] + Keys(d[1..]);
    AppendPastHead(d[0].0, Keys(d[1..]), Keys(rest), k);
  }

  /** The key-order half of SetPastHead, on the key lists alone. */
  lemma AppendPastHead(k0: string, ks: seq<string>, restKeys: seq<string>, k: string)
    requires k0 != k
    requires restKeys == if k in ks then ks else ks + [k]
    ensures [k0] + restKeys == if k in [k0] + ks then [k0] + ks else [k0] + ks + [k]
  {
    assert k in [k0] + ks <==> k in ks;
    assert [k0] + (ks + [k]) == [k0] + ks + [k];
  }

  /** Assigning into a dict never duplicates a key. */
  lemma SetKeepsDistinct(d: Dict, k: string, v: Value)
    requires DistinctKeys(d)
    ensures DistinctKeys(Set(d, k, v))
  {
    var ks := Keys(Set(d, k, v));
    if k !in Keys(d) {
      forall i, j | 0 <= i < j < |ks| ensures ks[i] != ks[j] {
        if j == |ks| - 1 {
          assert ks[i] == Keys(d)[i];
        }
      }
    }
  }

  /** In a dict with distinct keys, every entry is what `get` finds under its key. */
  lemma {:induction false} GetEntry(d: Dict, i: nat)
    requires DistinctKeys(d) && i < |d|
    ensures Get(d, d[i].0) == Some(d[i].1)
  {
    if i > 0 {
      assert Keys(d)[0] != Keys(d)[i];
      assert DistinctKeys(d[1..]) by {
        forall a, b | 0 <= a < b < |d[1..]| ensures Keys(d[1..])[a] != Keys(d[1..])[b] {
          assert Keys(d[1..])[a] == Keys(d)[a + 1] && Keys(d[1..])[b] == Keys(d)[b + 1];
        }
      }
      GetEntry(d[1..], i - 1);
    }
  }

  /** The keys of a concatenation are the keys of its parts, in order. */
  lemma {:induction false} KeysAppend(a: Dict, b: Dict)
    ensures Keys(a + b) == Keys(a) + Keys(b)
  {
    if a != [] {
      assert (a + b)[1..] == a[1..] + b;
      KeysAppend(a[1..], b);
    } else {
      assert a + b == b;
    }
  }
}
