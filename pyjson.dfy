/**
 * Python values as the page receives them from `r.json()`, together with the
 * two pieces of Python semantics the page relies on: truth values (for the
 * `or` chains) and `dict.get`.
 */
module PyJson {

  datatype Option<T> = None | Some(value: T)

  /**
   * A decoded JSON value. A JSON number becomes a Python `int` or `float`;
   * both are modelled by one mathematical real, since no part of the page
   * tells them apart. An object becomes a `dict`; it is kept as its members
   * in insertion order.
   */
  datatype Json =
    | Null
    | Bool(b: bool)
    | Num(n: real)
    | Str(s: string)
    | Arr(items: seq<Json>)
    | Obj(members: seq<(string, Json)>)

  /** Python's truth value: None, False, 0, 0.0, "", [] and {} are false. */
  predicate Truthy(v: Json): (r: bool)
    ensures !r <==> v == Null || v == Bool(false) || v == Num(0.0) || v == Str("") || v == Arr([]) || v == Obj([])
  {
    match v
    case Null => false
    case Bool(b) => b
    case Num(n) => n != 0.0
    case Str(s) => s != ""
    case Arr(items) => items != []
    case Obj(ms) => ms != []
  }

  /** `isinstance(v, (int, float))`: numbers, and booleans since `bool` subclasses `int`. */
  predicate IsNumber(v: Json): (r: bool)
    ensures !r <==> v.Null? || v.Str? || v.Arr? || v.Obj?
  {
    v.Num? || v.Bool?
  }

  /** The numeric value Python uses for a number or a boolean (True is 1, False is 0). */
  function NumberValue(v: Json): (r: real)
    requires IsNumber(v)
    ensures v.Num? ==> r == v.n
    ensures v == Bool(true) ==> r == 1.0
    ensures v == Bool(false) ==> r == 0.0
  {
    match v
    case Num(n) => n
    case Bool(b) => if b then 1.0 else 0.0
  }

  /** A dict built by the JSON decoder: no key occurs twice. */
  predicate DistinctKeys<V>(ms: seq<(string, V)>) {
    forall i, j :: 0 <= i < j < |ms| ==> ms[i].0 != ms[j].0
  }

  predicate HasKey<V>(ms: seq<(string, V)>, key: string) {
    exists i :: 0 <= i < |ms| && ms[i].0 == key
  }

  /** The keys of a dict, in insertion order. */
  function Keys<V>(ms: seq<(string, V)>): (r: seq<string>)
    ensures |r| == |ms|
    ensures forall i :: 0 <= i < |ms| ==> r[i] == ms[i].0
  {
    if ms == [] then [] else [ms[0].0] + Keys(ms[1..])
  }

  /**
   * The value a dict stores under `key`, or None when the key is absent. The
   * dict is its members in insertion order; the decoded reply and the page's
   * style table are both looked up with it.
   */
  function Lookup<V>(ms: seq<(string, V)>, key: string): (r: Option<V>)
    ensures r.Some? <==> HasKey(ms, key)
    ensures r.Some? ==> exists i :: 0 <= i < |ms| && ms[i] == (key, r.value)
  {
    if ms == [] then None
    else if ms[0].0 == key then Some(ms[0].1)
    else
      var r := Lookup(ms[1..], key);
      assert r.Some? ==> exists i :: 0 <= i < |ms| - 1 && ms[1..][i] == (key, r.value);
      assert HasKey(ms[1..], key) ==> HasKey(ms, key) by {
        if HasKey(ms[1..], key) {
          var i :| 0 <= i < |ms| - 1 && ms[1..][i].0 == key;
          assert ms[i + 1].0 == key;
        }
      }
      assert HasKey(ms, key) ==> HasKey(ms[1..], key) by {
        if HasKey(ms, key) {
          var i :| 0 <= i < |ms| && ms[i].0 == key;
          assert i != 0 && ms[1..][i - 1].0 == key;
        }
      }
      r
  }

  /** In a decoded dict the value found for a key is the one stored with it. */
  lemma LookupMember<V>(ms: seq<(string, V)>, i: nat)
    requires DistinctKeys(ms)
    requires i < |ms|
    ensures Lookup(ms, ms[i].0) == Some(ms[i].1)
  {
  }

  /** Reading a key with a default for when it is absent. */
  function GetOr(ms: seq<(string, Json)>, key: string, default: Json): (r: Json)
    ensures !HasKey(ms, key) ==> r == default
    ensures HasKey(ms, key) ==> Lookup(ms, key) == Some(r)
  {
    match Lookup(ms, key)
    case Some(v) => v
    case None => default
  }

  /** Reading a key with no default: an absent key reads as None, like a stored null. */
  function Get(ms: seq<(string, Json)>, key: string): (r: Json)
    ensures !HasKey(ms, key) ==> r == Null
    ensures HasKey(ms, key) ==> Lookup(ms, key) == Some(r)
  {
    GetOr(ms, key, Null)
  }

  /**
   * A Python `or` over the operands `vs` in order: the first truthy operand
   * among all but the last, or else the last operand (whatever its truth
   * value).
   */
  function OrChain(vs: seq<Json>): (r: Json)
    requires |vs| > 0
    ensures exists i :: 0 <= i < |vs| && r == vs[i]
                        && (Truthy(r) || i == |vs| - 1)
                        && forall j :: 0 <= j < i ==> !Truthy(vs[j])
  {
    if |vs| == 1 || Truthy(vs[0]) then vs[0]
    else
      var r := OrChain(vs[1..]);
      var i :| 0 <= i < |vs| - 1 && r == vs[1..][i]
               && (Truthy(r) || i == |vs| - 2)
               && forall j :: 0 <= j < i ==> !Truthy(vs[1..][j]);
      assert r == vs[i + 1];
      assert forall j :: 0 <= j < i + 1 ==> !Truthy(vs[j]) by {
        forall j | 0 <= j < i + 1 ensures !Truthy(vs[j]) {
          if j > 0 { assert vs[j] == vs[1..][j - 1]; }
        }
      }
      r
  }

  /** The chain stops at the first truthy operand, or at the last operand when none before it is truthy. */
  lemma OrChainSelects(vs: seq<Json>, k: nat)
    requires k < |vs|
    requires forall j :: 0 <= j < k ==> !Truthy(vs[j])
    requires Truthy(vs[k]) || k == |vs| - 1
    ensures OrChain(vs) == vs[k]
  {
  }

  /** The result of an `or` chain is truthy exactly when some operand is. */
  lemma OrChainTruthy(vs: seq<Json>)
    requires |vs| > 0
    ensures Truthy(OrChain(vs)) <==> exists i :: 0 <= i < |vs| && Truthy(vs[i])
  {
  }
}
