/**
  The values `JSON.parse` produces and the JavaScript built-ins that the
  action applies to them: property reads, `hasOwnProperty`,
  `Object.getOwnPropertyNames`, the conversion of a value to a property key,
  and assignment of a property on a plain object.
 */
module JsValues {
  import opened Wrappers

  /** A parsed JSON value. Numbers are integers. An object lists its own
      properties in the engine's enumeration order; `JSON.parse` gives each
      key one entry, which the type itself does not enforce. */
  datatype Json =
    | Null
    | Bool(b: bool)
    | Num(n: int)
    | Str(s: string)
    | Arr(elems: seq<Json>)
    | Obj(props: seq<(string, Json)>)

  /** The TypeErrors the action can throw on a document of unexpected shape. */
  datatype Fault =
    | ReadOfNull(key: string)      // reading property `key` of null
    | NotCallable(callee: string)  // calling a property that holds no function
    | NullToObject                 // Object.getOwnPropertyNames of null or undefined
    | NoPrimitive                  // string conversion of an object whose own `toString` is not callable

  /** The key that an assignment on a plain object turns into a prototype change. */
  const ProtoKey := "__proto__"

  /** The keys of a property list, in order. */
  function Keys<V>(ps: seq<(string, V)>): seq<string> {
    seq(|ps|, i requires 0 <= i < |ps| => ps[i].0)
  }

  /** No key occurs twice, as in every JavaScript object. */
  predicate DistinctKeys<V>(ps: seq<(string, V)>) {
    forall i, j :: 0 <= i < j < |ps| ==> ps[i].0 != ps[j].0
  }

  /** The value of own property `k`: the first entry with that key. */
  function Lookup<V>(ps: seq<(string, V)>, k: string): (r: Option<V>)
    ensures r.Some? <==> k in Keys(ps)
    ensures r.Some? ==> (k, r.value) in ps
  {
    if ps == [] then None
    else if ps[0].0 == k then
      assert Keys(ps)[0] == k;
      Some(ps[0].1)
    else
      assert Keys(ps) == [ps[0].0] + Keys(ps[1..]);
      Lookup(ps[1..], k)
  }

  lemma KeysCons<V>(p: (string, V), ps: seq<(string, V)>)
    ensures Keys([p] + ps) == [p.0] + Keys(ps)
  {
  }

  /** `obj[k] = v` for a key already present or new: an existing key keeps its
      position and takes the new value, a new key is appended. */
  function Put<V>(ps: seq<(string, V)>, k: string, v: V): (r: seq<(string, V)>)
    ensures Lookup(r, k) == Some(v)
    ensures forall k' :: k' != k ==> Lookup(r, k') == Lookup(ps, k')
    ensures k in Keys(ps) ==> Keys(r) == Keys(ps)
    ensures k !in Keys(ps) ==> Keys(r) == Keys(ps) + [k]
  {
    if ps == [] then
      assert Keys([(k, v)]) == [k];
      [(k, v)]
    else
      var p, rest := ps[0], ps[1..];
      assert ps == [p] + rest;
      KeysCons(p, rest);
      var tail := if p.0 == k then rest else Put(rest, k, v);
      var head := if p.0 == k then (k, v) else p;
      var r := [head] + tail;
      KeysCons(head, tail);
      assert r[0] == head && r[1..] == tail;
      forall k' | k' != k ensures Lookup(r, k') == Lookup(ps, k') {
        if p.0 != k' {
          assert Lookup(r, k') == Lookup(tail, k');
          assert Lookup(ps, k') == Lookup(rest, k');
        }
      }
      r
  }

  /** Assignment `obj[k] = v` on an object created by `{}`. The key
      "__proto__" hits the inherited accessor, which replaces the prototype
      and leaves the own properties as they were. */
  function SetProperty<V>(ps: seq<(string, V)>, k: string, v: V): (r: seq<(string, V)>)
    ensures k == ProtoKey ==> r == ps
    ensures k != ProtoKey ==> Lookup(r, k) == Some(v)
    ensures forall k' :: k' != k ==> Lookup(r, k') == Lookup(ps, k')
    ensures k in Keys(ps) || k == ProtoKey ==> Keys(r) == Keys(ps)
    ensures k !in Keys(ps) && k != ProtoKey ==> Keys(r) == Keys(ps) + [k]
    ensures DistinctKeys(ps) ==> DistinctKeys(r)
  {
    if k == ProtoKey then ps
    else
      var r := Put(ps, k, v);
      assert DistinctKeys(ps) ==> DistinctKeys(r) by {
        if DistinctKeys(ps) {
          forall i, j | 0 <= i < j < |r| ensures r[i].0 != r[j].0 {
            assert Keys(r)[i] == r[i].0 && Keys(r)[j] == r[j].0;
            if k in Keys(ps) {
              assert Keys(ps)[i] == ps[i].0 && Keys(ps)[j] == ps[j].0;
            } else if j < |ps| {
              assert Keys(ps)[i] == ps[i].0 && Keys(ps)[j] == ps[j].0;
            } else {
              assert Keys(ps)[i] == ps[i].0;
            }
          }
        }
      }
      r
  }

  predicate IsDigit(c: char) {
    '0' <= c <= '9'
  }

  /** The number a string of decimal digits denotes. */
  function DecimalValue(s: string): nat
    requires forall i :: 0 <= i < |s| ==> IsDigit(s[i])
  {
    if s == [] then 0
    else
      assert IsDigit(s[|s| - 1]);
      10 * DecimalValue(s[..|s| - 1]) + (s[|s| - 1] as int - '0' as int)
  }

  /** The decimal numeral of `n`, without leading zeros. */
  function NatToDecimal(n: nat): (s: string)
    ensures |s| >= 1
    ensures forall i :: 0 <= i < |s| ==> IsDigit(s[i])
    ensures s[0] == '0' ==> n == 0
    ensures DecimalValue(s) == n
  {
    var d := ['0' + (n % 10) as char];
    if n < 10 then d
    else
      var s := NatToDecimal(n / 10) + d;
      assert s[..|s| - 1] == NatToDecimal(n / 10);
      s
  }

  /** `String(n)` for an integer number. */
  function IntToDecimal(n: int): (s: string)
    ensures |s| >= 1
    ensures s[0] == '-' <==> n < 0
    ensures n >= 0 ==> (forall i :: 0 <= i < |s| ==> IsDigit(s[i])) && DecimalValue(s) == n
    ensures n < 0 ==> (forall i :: 1 <= i < |s| ==> IsDigit(s[i])) && DecimalValue(s[1..]) == -n
  {
    if n < 0 then "-" + NatToDecimal(-n) else NatToDecimal(n)
  }

  /** The own keys of an array or a string of length `n`: its indices, then "length". */
  function IndexedKeys(n: nat): (ks: seq<string>)
    ensures |ks| == n + 1 && ks[n] == "length"
    ensures forall i :: 0 <= i < n ==> ks[i] == NatToDecimal(i)
  {
    seq(n, (i: nat) => NatToDecimal(i)) + ["length"]
  }

  /** A key that is neither an array index nor "length": no array, string,
      number or boolean has it as an own property. */
  predicate NamedKey(k: string) {
    k != "length" && (k == [] || !IsDigit(k[0]))
  }

  /** `Object.getOwnPropertyNames(v)`; `None` stands for `undefined`. */
  function OwnPropertyNames(v: Option<Json>): (r: Result<seq<string>, Fault>)
    ensures r.Failure? <==> v == None || v == Some(Null)
    ensures r.Failure? ==> r.error == NullToObject
    ensures v.Some? && v.value.Obj? ==> r == Success(Keys(v.value.props))
    ensures v.Some? && v.value.Obj? ==> |r.value| == |v.value.props|
  {
    match v
    case None => Failure(NullToObject)
    case Some(Null) => Failure(NullToObject)
    case Some(Bool(_)) => Success([])
    case Some(Num(_)) => Success([])
    case Some(Str(s)) => Success(IndexedKeys(|s|))
    case Some(Arr(es)) => Success(IndexedKeys(|es|))
    case Some(Obj(ps)) => Success(Keys(ps))
  }

  /** `v.hasOwnProperty(k)`. On an object with an own "hasOwnProperty" entry
      that entry shadows the inherited method and is not callable. */
  function HasOwnProperty(v: Json, k: string): (r: Result<bool, Fault>)
    ensures r.Failure? <==> v.Null? || (v.Obj? && "hasOwnProperty" in Keys(v.props))
    ensures r.Success? ==> (r.value <==> k in OwnPropertyNames(Some(v)).value)
  {
    match v
    case Null => Failure(ReadOfNull("hasOwnProperty"))
    case Obj(ps) =>
      if "hasOwnProperty" in Keys(ps) then Failure(NotCallable("hasOwnProperty"))
      else Success(k in Keys(ps))
    case _ => Success(k in OwnPropertyNames(Some(v)).value)
  }

  /** The property names the action reads. No built-in prototype defines
      them, so a read finds nothing but an own entry. */
  predicate ReadKey(k: string) {
    k == "name" || k == "publish" || k == "features" || k == "packages"
  }

  /** `v[k]` for a key the action reads; `None` stands for `undefined`. */
  function Get(v: Json, k: string): (r: Result<Option<Json>, Fault>)
    requires ReadKey(k)
    ensures r.Failure? <==> v.Null?
    ensures r.Success? && r.value.Some? ==> v.Obj? && k in Keys(v.props)
  {
    match v
    case Null => Failure(ReadOfNull(k))
    case Obj(ps) => Success(Lookup(ps, k))
    case _ => Success(None)
  }

  /** `v` is an object with an own `toString` entry, or an array holding
      one at any depth. */
  predicate HidesToString(v: Json) {
    match v
    case Obj(ps) => "toString" in Keys(ps)
    case Arr(es) => exists i :: 0 <= i < |es| && HidesToString(es[i])
    case _ => false
  }

  /** `String(v)`. An object converts through its inherited `toString`
      unless an own `toString` entry hides it; then `valueOf` yields the
      object itself and the conversion throws. An array joins its elements. */
  function ToJsString(v: Json): (r: Result<string, Fault>)
    ensures v.Str? ==> r == Success(v.s)
    ensures v.Num? ==> r == Success(IntToDecimal(v.n))
    ensures r.Failure? <==> HidesToString(v)
    ensures r.Failure? ==> r.error == NoPrimitive
    decreases v, 1
  {
    match v
    case Null => Success("null")
    case Bool(b) => Success(if b then "true" else "false")
    case Num(n) => Success(IntToDecimal(n))
    case Str(s) => Success(s)
    case Arr(es) => Join(es)
    case Obj(ps) => if "toString" in Keys(ps) then Failure(NoPrimitive) else Success("[object Object]")
  }

  /** `Array.prototype.join(",")` over `es`: null elements become "". */
  function Join(es: seq<Json>): (r: Result<string, Fault>)
    ensures r.Failure? <==> exists i :: 0 <= i < |es| && HidesToString(es[i])
    ensures r.Failure? ==> r.error == NoPrimitive
    decreases es, 0
  {
    if es == [] then Success("")
    else
      var first := if es[0].Null? then Success("") else ToJsString(es[0]);
      if first.Failure? then first
      else if |es| == 1 then first
      else
        var rest := Join(es[1..]);
        assert forall i :: 1 <= i < |es| ==> es[i] == es[1..][i - 1];
        assert (exists i :: 0 <= i < |es| && HidesToString(es[i])) <==>
               (exists i :: 0 <= i < |es[1..]| && HidesToString(es[1..][i]));
        if rest.Failure? then rest else Success(first.value + "," + rest.value)
  }

  /** The property key a value converts to when used in `obj[v]`. */
  function ToPropertyKey(v: Option<Json>): (r: Result<string, Fault>)
    ensures v.None? ==> r == Success("undefined")
    ensures v.Some? && v.value.Str? ==> r == Success(v.value.s)
    ensures r.Failure? ==> r.error == NoPrimitive
  {
    match v
    case None => Success("undefined")
    case Some(j) => ToJsString(j)
  }

  /** A named key is never an own property of a value other than an object. */
  lemma NamedKeyNotOwn(v: Json, k: string)
    requires NamedKey(k) && !v.Obj? && !v.Null?
    ensures HasOwnProperty(v, k) == Success(false)
  {
  }
}
