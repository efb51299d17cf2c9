/**
 * Python's JSON-shaped values. A dict keeps its insertion order, so an object is an
 * association list whose keys appear once; assigning to a key replaces it in place or
 * appends it, as Python's `d[k] = v` does.
 */
module Json {
  import opened Wrappers
  import Text

  datatype Value =
    | Null
    | Bool(b: bool)
    | Int(i: int)
    | Real(r: real)
    | Str(s: string)
    | Arr(items: seq<Value>)
    | Obj(fields: Doc)

  /** A dict (a Mongo document, a JSON object): its entries in insertion order. */
  type Doc = seq<(string, Value)>

  function Keys(d: Doc): (ks: seq<string>)
    ensures |ks| == |d|
    ensures forall i :: 0 <= i < |d| ==> ks[i] == d[i].0
  {
    if |d| == 0 then [] else [d[0].0] + Keys(d[1..])
  }

  /** `k in d`. */
  predicate Has(d: Doc, k: string)
  {
    k in Keys(d)
  }

  /** Python dicts never hold a key twice. */
  predicate UniqueKeys(d: Doc)
  {
    forall i, j :: 0 <= i < j < |d| ==> d[i].0 != d[j].0
  }

  /** `d.get(k)`: the value under `k`, or None. */
  function Get(d: Doc, k: string): (r: Option<Value>)
    ensures r.Some? ==> exists i | 0 <= i < |d| :: d[i] == (k, r.value)
  {
    if |d| == 0 then None
    else if d[0].0 == k then Some(d[0].1)
    else Get(d[1..], k)
  }

  /** `d.get(k)` finds a value exactly when `k in d`. */
  lemma {:induction false} GetHas(d: Doc, k: string)
    ensures Get(d, k).Some? <==> Has(d, k)
  {
    if |d| > 0 && d[0].0 != k {
      GetHas(d[1..], k);
      assert Keys(d) == [d[0].0] + Keys(d[1..]);
    }
  }

  /** The value under `k` is the one at the first entry with key `k`. */
  lemma {:induction false} GetAt(d: Doc, i: nat, k: string)
    requires i < |d| && d[i].0 == k
    requires forall j :: 0 <= j < i ==> d[j].0 != k
    ensures Get(d, k) == Some(d[i].1)
  {
    if i > 0 {
      GetAt(d[1..], i - 1, k);
    }
  }

  /** The keys of a four-entry dict, in order. */
  lemma KeysOfFour(d: Doc)
    requires |d| == 4
    ensures Keys(d) == [d[0].0, d[1].0, d[2].0, d[3].0]
  {
  }

  /** `d.get(k, default)`. */
  function GetOr(d: Doc, k: string, default: Value): Value
  {
    Get(d, k).GetOr(default)
  }

  /** Reading `after` gives `v` under `k` and what `before` gives under every other key. */
  ghost predicate ReadsAssigned(before: Doc, after: Doc, k: string, v: Value)
  {
    Get(after, k) == Some(v) && forall k' :: k' != k ==> Get(after, k') == Get(before, k')
  }

  /** The keys of `after` are those of `before`, with `k` appended when it was absent. */
  ghost predicate KeysAssigned(before: Doc, after: Doc, k: string)
  {
    && (Has(before, k) ==> Keys(after) == Keys(before))
    && (!Has(before, k) ==> Keys(after) == Keys(before) + [k])
  }

  /** Overwriting the first entry, which already holds `k`. */
  lemma AssignedHead(e: (string, Value), tail: Doc, k: string, v: Value)
    requires e.0 == k
    ensures ReadsAssigned([e] + tail, [(k, v)] + tail, k, v)
    ensures KeysAssigned([e] + tail, [(k, v)] + tail, k)
  {
    var before, after := [e] + tail, [(k, v)] + tail;
    assert before[1..] == tail && after[1..] == tail;
    assert Keys(after) == Keys(before) by {
      assert Keys(after) == [k] + Keys(tail);
      assert Keys(before) == [k] + Keys(tail);
    }
  }

  /** Reading past a first entry whose key differs from `k`. */
  lemma ReadsAssignedCons(e: (string, Value), before: Doc, after: Doc, k: string, v: Value)
    requires e.0 != k
    requires ReadsAssigned(before, after, k, v)
    ensures ReadsAssigned([e] + before, [e] + after, k, v)
  {
    var b, a := [e] + before, [e] + after;
    assert b[1..] == before && a[1..] == after;
  }

  /** The keys past a first entry whose key differs from `k`. */
  lemma KeysAssignedCons(e: (string, Value), before: Doc, after: Doc, k: string)
    requires e.0 != k
    requires KeysAssigned(before, after, k)
    ensures KeysAssigned([e] + before, [e] + after, k)
  {
    var b, a := [e] + before, [e] + after;
    assert b[1..] == before && a[1..] == after;
    assert Keys(b) == [e.0] + Keys(before);
    assert Keys(a) == [e.0] + Keys(after);
    assert Has(b, k) <==> Has(before, k);
  }

  /** `d[k] = v`: replaces the entry for `k` where it stands, or appends one. */
  function Put(d: Doc, k: string, v: Value): (r: Doc)
    ensures Get(r, k) == Some(v)
    ensures forall k' :: k' != k ==> Get(r, k') == Get(d, k')
    ensures Has(d, k) ==> Keys(r) == Keys(d)
    ensures !Has(d, k) ==> Keys(r) == Keys(d) + [k]
  {
    if |d| == 0 then [(k, v)]
    else if d[0].0 == k then
      AssignedHead(d[0], d[1..], k, v);
      assert [d[0]] + d[1..] == d;
      [(k, v)] + d[1..]
    else
      var rest := Put(d[1..], k, v);
      ReadsAssignedCons(d[0], d[1..], rest, k, v);
      KeysAssignedCons(d[0], d[1..], rest, k);
      assert [d[0]] + d[1..] == d;
      [d[0]] + rest
  }

  /** Three assignments to distinct keys: each key reads its value, every other key is untouched. */
  lemma PutThree(d: Doc, k1: string, v1: Value, k2: string, v2: Value, k3: string, v3: Value)
    requires k1 != k2 && k1 != k3 && k2 != k3
    ensures var r := Put(Put(Put(d, k1, v1), k2, v2), k3, v3);
            Get(r, k1) == Some(v1) && Get(r, k2) == Some(v2) && Get(r, k3) == Some(v3) &&
            forall k :: k != k1 && k != k2 && k != k3 ==> Get(r, k) == Get(d, k)
  {
    var a := Put(d, k1, v1);
    var b := Put(a, k2, v2);
    assert Get(b, k1) == Some(v1);
  }

  /** Assigning the same value twice is assigning it once. */
  lemma {:induction false} PutIdempotent(d: Doc, k: string, v: Value)
    ensures Put(Put(d, k, v), k, v) == Put(d, k, v)
  {
    if |d| > 0 && d[0].0 != k {
      PutIdempotent(d[1..], k, v);
    }
  }

  /** `d.pop(k, None)`: the entries under `k` are dropped, the rest keep their order. */
  function Remove(d: Doc, k: string): (r: Doc)
    ensures !Has(r, k)
    ensures forall k' :: k' != k ==> Get(r, k') == Get(d, k')
    ensures |r| <= |d|
  {
    if |d| == 0 then []
    else if d[0].0 == k then Remove(d[1..], k)
    else [d[0]] + Remove(d[1..], k)
  }

  /** Python truthiness: None, False, 0, 0.0 and empty strings, lists and dicts are false. */
  predicate Truthy(v: Value)
  {
    match v
    case Null => false
    case Bool(b) => b
    case Int(i) => i != 0
    case Real(r) => r != 0.0
    case Str(s) => |s| > 0
    case Arr(items) => |items| > 0
    case Obj(fields) => |fields| > 0
  }

  /**
   * `str(v)` as an f-string renders it. Strings, ints, booleans and None are rendered
   * exactly; floats, lists and dicts by `render`, standing for Python's float repr.
   */
  function Display(v: Value, render: Value -> string): string
  {
    match v
    case Null => "None"
    case Bool(b) => if b then "True" else "False"
    case Int(i) => Text.IntToString(i)
    case Str(s) => s
    case _ => render(v)
  }
}
