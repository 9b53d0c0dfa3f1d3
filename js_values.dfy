/**
 * Dynamically typed JavaScript values as they arrive in a snapshot, with the
 * coercions the client world applies to them: truthiness, `!= null`,
 * property access, `String(v)` and `Object.values`.
 * Numbers are integers here. An object is the list of its property
 * definitions: a name defined twice is one property, enumerated where it was
 * first defined and holding the value defined last.
 */
module JsValues {
  import opened Seqs

  datatype Value =
    | Undefined
    | Null
    | Bool(b: bool)
    | Num(n: int)
    | Str(s: string)
    | Arr(items: seq<Value>)
    | Obj(props: seq<(string, Value)>)

  /** `!v` is false. */
  predicate Truthy(v: Value) {
    match v
    case Undefined => false
    case Null => false
    case Bool(b) => b
    case Num(n) => n != 0
    case Str(s) => s != ""
    case Arr(_) => true
    case Obj(_) => true
  }

  /** `v == null` (loose equality): null or undefined. */
  predicate IsNullish(v: Value) {
    v.Undefined? || v.Null?
  }

  /** `typeof v === 'object'` for a truthy v: every non-null object, arrays included. */
  predicate IsObject(v: Value) {
    v.Arr? || v.Obj?
  }

  /** The value of the last property named `key`, or undefined. */
  function Lookup(props: seq<(string, Value)>, key: string): Value {
    if props == [] then Undefined
    else if props[|props| - 1].0 == key then props[|props| - 1].1
    else Lookup(props[..|props| - 1], key)
  }

  /** `v.key` for the own properties the model knows: only plain objects carry named properties. */
  function Field(v: Value, key: string): Value {
    if v.Obj? then Lookup(v.props, key) else Undefined
  }

  /** The own properties of v as a map, as the spread `{...v}` copies them (later duplicates win). */
  function Spread(v: Value): (m: map<string, Value>)
    ensures forall k :: k in m ==> m[k] == Field(v, k)
    ensures forall k :: k !in m ==> Field(v, k) == Undefined
  {
    if v.Obj? then PropsMap(v.props) else map[]
  }

  function PropsMap(props: seq<(string, Value)>): (m: map<string, Value>)
    ensures forall k :: k in m ==> m[k] == Lookup(props, k)
    ensures forall k :: k !in m ==> Lookup(props, k) == Undefined
  {
    if props == [] then map[]
    else PropsMap(props[..|props| - 1])[props[|props| - 1].0 := props[|props| - 1].1]
  }

  /** The property names of the definitions, repeats included. */
  function Names(props: seq<(string, Value)>): (ns: seq<string>)
    ensures |ns| == |props|
    ensures forall i :: 0 <= i < |props| ==> ns[i] == props[i].0
  {
    seq(|props|, i requires 0 <= i < |props| => props[i].0)
  }

  /** The object's property names in enumeration order: each name once, where it was first defined. */
  function KeysOf(props: seq<(string, Value)>): (ks: seq<string>)
    ensures Distinct(ks)
    ensures forall k :: k in ks <==> k in Names(props)
    ensures forall i, j :: 0 <= i < j < |ks| ==> FirstIndex(Names(props), ks[i]) < FirstIndex(Names(props), ks[j])
  {
    Dedup(Names(props))
  }

  /**
   * `Object.values(v)` for a truthy non-array v, or v itself for an array: an
   * object lists one value per property, the one its name reads.
   */
  function ListOf(v: Value): (r: seq<Value>)
    ensures v.Arr? ==> r == v.items
    ensures v.Obj? ==> |r| == |KeysOf(v.props)| &&
                       forall i :: 0 <= i < |r| ==> r[i] == Field(v, KeysOf(v.props)[i])
  {
    match v
    case Arr(items) => items
    case Obj(props) =>
      var ks := KeysOf(props);
      seq(|ks|, i requires 0 <= i < |ks| => Lookup(props, ks[i]))
    case Str(s) => seq(|s|, i requires 0 <= i < |s| => Str([s[i]]))
    case _ => []
  }

  /** With every name defined once, a name reads the value defined with it. */
  lemma {:induction false} LookupDistinct(props: seq<(string, Value)>, i: nat)
    requires Distinct(Names(props)) && i < |props|
    ensures Lookup(props, props[i].0) == props[i].1
    decreases |props|
  {
    var n := |props| - 1;
    if i < n {
      assert Names(props)[i] != Names(props)[n];
      assert Names(props[..n]) == Names(props)[..n];
      LookupDistinct(props[..n], i);
    }
  }

  /** With every name defined once, Object.values lists the values in definition order. */
  lemma ObjectValuesInOrder(props: seq<(string, Value)>)
    requires Distinct(Names(props))
    ensures |ListOf(Obj(props))| == |props|
    ensures forall i :: 0 <= i < |props| ==> ListOf(Obj(props))[i] == props[i].1
  {
    DedupOfDistinct(Names(props));
    forall i | 0 <= i < |props| ensures ListOf(Obj(props))[i] == props[i].1 {
      LookupDistinct(props, i);
    }
  }

  /** An object whose property is defined twice has one value, the last one defined. */
  lemma DuplicateKeyReadsLast(a: Value, b: Value)
    ensures ListOf(Obj([("e1", a), ("e1", b)])) == [b]
  {
    var props := [("e1", a), ("e1", b)];
    assert Names(props) == ["e1", "e1"];
    assert ["e1", "e1"][..1] == ["e1"] && ["e1"][..0] == [];
    assert KeysOf(props) == ["e1"];
  }

  function DigitChar(d: nat): char
    requires d < 10
  {
    "0123456789"[d]
  }

  function NatToString(n: nat): (s: string)
    ensures |s| > 0
    decreases n
  {
    if n < 10 then [DigitChar(n)] else NatToString(n / 10) + [DigitChar(n % 10)]
  }

  /** `String(n)` for an integer n. */
  function IntToString(n: int): (s: string)
    ensures s != ""
  {
    if n < 0 then "-" + NatToString(-n) else NatToString(n)
  }

  /** `String(v)`. An array joins its elements with "," and writes null and undefined as "". */
  function ToJsString(v: Value): string
    decreases v, 1
  {
    match v
    case Undefined => "undefined"
    case Null => "null"
    case Bool(b) => if b then "true" else "false"
    case Num(n) => IntToString(n)
    case Str(s) => s
    case Obj(_) => "[object Object]"
    case Arr(items) => JoinFrom(v, 0)
  }

  /** The elements of array `v` from `i` on, as `Array.prototype.join` writes them. */
  function JoinFrom(v: Value, i: nat): string
    requires v.Arr? && i <= |v.items|
    decreases v, 0, |v.items| - i
  {
    if i == |v.items| then ""
    else
      var x := v.items[i];
      var s := if IsNullish(x) then "" else ToJsString(x);
      if i + 1 == |v.items| then s else s + "," + JoinFrom(v, i + 1)
  }
}
