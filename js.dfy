/**
 * The slice of JavaScript's value model that the job configuration, the
 * format parser and the run orchestrator depend on: values, truthiness,
 * property reads, default filling and ASCII lower-casing.
 */
module Js {

  datatype Option<+T> = None | Some(value: T)

  datatype Result<+T, +E> = Ok(value: T) | Err(error: E)

  /** A JavaScript value. Numbers are modelled as integers. */
  datatype JsValue =
    | Undefined
    | Null
    | Bool(b: bool)
    | Num(n: int)
    | Str(s: string)
    | Arr(items: seq<JsValue>)
    | Obj(fields: map<string, JsValue>)

  /** What a thrown exception carries. */
  datatype Error =
    | Message(text: string)                          // `throw 'text'` or `new Error('text')`
    | MessageWithCause(text: string, cause: string)  // `new Error('text', { cause })`
    | TypeError                                      // a read through undefined, a missing method, an empty reduce
    | SyntaxError                                    // JSON.parse rejected its input
    | External(detail: string)                       // raised by a collaborator outside this model

  /** JavaScript's `!!v`. */
  predicate Truthy(v: JsValue) {
    match v
    case Undefined => false
    case Null => false
    case Bool(b) => b
    case Num(n) => n != 0
    case Str(s) => s != ""
    case Arr(_) => true
    case Obj(_) => true
  }

  /** `o.k` for a plain object `o`: a missing key reads as undefined. */
  function Prop(o: map<string, JsValue>, k: string): (r: JsValue)
    ensures k !in o ==> r == Undefined
    ensures k in o ==> r == o[k]
  {
    if k in o then o[k] else Undefined
  }

  /**
   * `v.k` for a key that is neither `length` nor an inherited name: None
   * where JavaScript throws (undefined and null), undefined on a primitive.
   */
  function GetProp(v: JsValue, k: string): (r: Option<JsValue>)
    ensures r.None? <==> v.Undefined? || v.Null?
    ensures v.Obj? ==> r == Some(Prop(v.fields, k))
  {
    match v
    case Undefined => None
    case Null => None
    case Obj(m) => Some(Prop(m, k))
    case _ => Some(Undefined)
  }

  /** `delete v.k`: only an object loses the key; other values are left as they are. */
  function DeleteProp(v: JsValue, k: string): (r: JsValue)
    ensures v.Obj? ==> r.Obj? && r.fields.Keys == v.fields.Keys - {k}
    ensures v.Obj? ==> forall j :: j in r.fields ==> r.fields[j] == v.fields[j]
    ensures !v.Obj? ==> r == v
  {
    if v.Obj? then Obj(v.fields - {k}) else v
  }

  /**
   * `objDefault(obj, defs)`: fills the keys `obj` lacks from `defs` and keeps
   * every key `obj` already has.
   */
  function ObjDefault(obj: map<string, JsValue>, defs: map<string, JsValue>): (r: map<string, JsValue>)
    ensures r.Keys == obj.Keys + defs.Keys
    ensures forall k :: k in obj ==> r[k] == obj[k]
    ensures forall k :: k in defs && k !in obj ==> r[k] == defs[k]
  {
    defs + obj
  }

  /** Filling twice with the same defaults changes nothing the first fill did not. */
  lemma ObjDefaultIdempotent(obj: map<string, JsValue>, defs: map<string, JsValue>)
    ensures ObjDefault(ObjDefault(obj, defs), defs) == ObjDefault(obj, defs)
  {
    var once := ObjDefault(obj, defs);
    var twice := ObjDefault(once, defs);
    assert twice.Keys == once.Keys;
    forall k | k in once ensures twice[k] == once[k] { }
  }

  function LowerChar(c: char): char {
    if 'A' <= c <= 'Z' then (c as int + 32) as char else c
  }

  predicate IsUpper(c: char) {
    'A' <= c <= 'Z'
  }

  /** `s.toLowerCase()` on the ASCII letters. */
  function ToLower(s: string): (r: string)
    ensures |r| == |s|
    ensures forall i :: 0 <= i < |s| ==> r[i] == LowerChar(s[i])
    ensures forall i :: 0 <= i < |r| ==> !IsUpper(r[i])
  {
    if s == [] then [] else [LowerChar(s[0])] + ToLower(s[1..])
  }

  /** Lower-casing leaves a string with no upper-case letter as it is. */
  lemma {:induction false} ToLowerFixesLower(s: string)
    requires forall i :: 0 <= i < |s| ==> !IsUpper(s[i])
    ensures ToLower(s) == s
  {
    if s != [] {
      ToLowerFixesLower(s[1..]);
    }
  }
}
