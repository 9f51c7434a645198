/** The JavaScript values the modelled code handles, with the three pieces of
    JavaScript semantics it leans on: truthiness (`a || b`), property access
    (`v.k` and `v?.k`) and `String(v)`; plus the JSON round trip a request
    body makes between the browser and the relay. Numbers are integers here:
    the modelled decisions never look at a fraction or at `NaN`. */
module JsValues {
  import opened Wrappers
  import opened Occurrence

  datatype Js =
    | Undefined
    | Null
    | Bool(b: bool)
    | Num(n: int)
    | Str(s: string)
    | Arr(items: seq<Js>)
    | Obj(fields: map<string, Js>)

  /** `v == undefined` under loose equality: true of `null` and `undefined` only. */
  predicate Nullish(v: Js)
  {
    v.Undefined? || v.Null?
  }

  /** The values `if (v)` accepts: all but `undefined`, `null`, `false`, `0`
      and the empty string (objects and arrays are truthy even when empty). */
  predicate Truthy(v: Js)
  {
    match v
    case Undefined => false
    case Null => false
    case Bool(b) => b
    case Num(n) => n != 0
    case Str(s) => s != ""
    case Arr(_) => true
    case Obj(_) => true
  }

  /** `a || b`: the left operand when it is truthy, otherwise the right one. */
  function Or(a: Js, b: Js): (r: Js)
    ensures Truthy(a) ==> r == a
    ensures !Truthy(a) ==> r == b
  {
    if Truthy(a) then a else b
  }

  /** `v.k`: reading a property of `null` or `undefined` raises a TypeError;
      a key an object lacks, and any key of a primitive or an array, reads as
      `undefined` (the keys read by the modelled code are never `length`). */
  function Prop(v: Js, k: string): (r: Result<Js>)
    ensures r.Err? <==> Nullish(v)
    ensures r.Err? ==> r.fault == TypeError
    ensures r.Ok? && r.value != Undefined ==> v.Obj? && k in v.fields && v.fields[k] == r.value
    ensures v.Obj? && k in v.fields ==> r == Ok(v.fields[k])
  {
    match v
    case Undefined => Err(TypeError)
    case Null => Err(TypeError)
    case Obj(m) => if k in m then Ok(m[k]) else Ok(Undefined)
    case _ => Ok(Undefined)
  }

  /** `v?.k`: optional chaining yields `undefined` on a nullish `v` instead of raising. */
  function OptProp(v: Js, k: string): (r: Js)
    ensures Nullish(v) ==> r == Undefined
    ensures !Nullish(v) ==> Ok(r) == Prop(v, k)
  {
    if Nullish(v) then Undefined else Prop(v, k).value
  }

  /** `String(v)`. An array renders as its items joined by commas, with
      nullish items rendered empty. */
  function ToStr(v: Js): string
    decreases v
  {
    match v
    case Undefined => "undefined"
    case Null => "null"
    case Bool(b) => if b then "true" else "false"
    case Num(n) => Decimal(n)
    case Str(s) => s
    case Obj(_) => "[object Object]"
    case Arr(items) =>
      JoinComma(seq(|items|, i requires 0 <= i < |items| =>
        if Nullish(items[i]) then "" else ToStr(items[i])))
  }

  /** `parts.join(",")`. */
  function JoinComma(parts: seq<string>): string
  {
    if |parts| == 0 then ""
    else if |parts| == 1 then parts[0]
    else parts[0] + "," + JoinComma(parts[1..])
  }

  /** A value JSON can carry: no `undefined` anywhere inside it. */
  predicate IsJson(v: Js)
    decreases v
  {
    match v
    case Undefined => false
    case Arr(items) => forall i :: 0 <= i < |items| ==> IsJson(items[i])
    case Obj(m) => forall k :: k in m ==> IsJson(m[k])
    case _ => true
  }

  /** `JSON.parse(JSON.stringify(v))` for the bodies the browser posts:
      object members whose value is `undefined` vanish and `undefined` array
      items become `null`. */
  function Wire(v: Js): (r: Js)
    decreases v
  {
    match v
    case Obj(m) => Obj(map k | k in m && !m[k].Undefined? :: Wire(m[k]))
    case Arr(items) =>
      Arr(seq(|items|, i requires 0 <= i < |items| =>
        if items[i].Undefined? then Null else Wire(items[i])))
    case _ => v
  }

  /** What survives the wire is plain JSON. */
  lemma {:induction false} WireIsJson(v: Js)
    requires !v.Undefined?
    ensures IsJson(Wire(v))
    decreases v
  {
    match v
    case Obj(m) =>
      var w := Wire(v).fields;
      forall k | k in w
        ensures IsJson(w[k])
      {
        WireIsJson(m[k]);
      }
    case Arr(items) =>
      var w := Wire(v).items;
      forall i | 0 <= i < |w|
        ensures IsJson(w[i])
      {
        if !items[i].Undefined? {
          WireIsJson(items[i]);
        }
      }
    case _ =>
  }

  /** JSON already is what the wire delivers: a second trip changes nothing. */
  lemma {:induction false} WireKeepsJson(v: Js)
    requires IsJson(v)
    ensures Wire(v) == v
    decreases v
  {
    match v
    case Obj(m) =>
      var w := Wire(v).fields;
      forall k | k in m
        ensures k in w && w[k] == m[k]
      {
        WireKeepsJson(m[k]);
      }
      assert w == m;
    case Arr(items) =>
      var w := Wire(v).items;
      forall i | 0 <= i < |items|
        ensures w[i] == items[i]
      {
        WireKeepsJson(items[i]);
      }
      assert w == items;
    case _ =>
  }

  /** Reading a member of an object after the trip: a defined member arrives
      as its own trip, an `undefined` or missing one reads as `undefined`. */
  lemma WireProp(m: map<string, Js>, k: string)
    ensures Prop(Wire(Obj(m)), k) == Ok(if k in m then Wire(m[k]) else Undefined)
  {
  }
}
