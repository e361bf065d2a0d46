/** The part of JavaScript's value semantics that the issue handlers depend on:
    the values a parsed request body or query string can hold, truthiness
    (`!x`), loose equality with the empty string (`x == ''`), and a mutable
    object whose own properties can be assigned and deleted. */
module Js {

  datatype Option<T> = None | Some(value: T)

  /** A JavaScript value as it can appear in a parsed request body, a query
      string or a stored document. An absent property (`undefined`) is not a
      value here: it is a key missing from the enclosing map.
      A parsed body never holds NaN; an overflowing literal parses to
      Infinity, which, like every non-zero number, is truthy and not loosely
      equal to `''`. Only whether a number is zero matters to the handlers,
      so a `real` stands for it.
      `Date(t)` is a `Date` object built from the opaque timestamp `t`. */
  datatype JsValue =
    | Str(s: string)
    | Bool(b: bool)
    | Num(n: real)
    | Null
    | Date(t: int)
    | Arr(items: seq<JsValue>)
    | Obj(entries: seq<(string, JsValue)>)

  /** `!!v`: the empty string, `false`, `0` and `null` are falsy; every
      object (arrays and dates included) is truthy. */
  predicate Truthy(v: JsValue) {
    match v
    case Str(s) => s != ""
    case Bool(b) => b
    case Num(n) => n != 0.0
    case Null => false
    case Date(_) => true
    case Arr(_) => true
    case Obj(_) => true
  }

  predicate Falsy(v: JsValue) {
    !Truthy(v)
  }

  /** Whether `v` turns into the empty string when it is an element of an
      array being joined (`Array.prototype.join` writes `null` as nothing and
      every other element through `ToString`). */
  predicate JoinsToEmpty(v: JsValue) {
    match v
    case Null => true
    case Str(s) => s == ""
    case Arr(items) => |items| == 0 || (|items| == 1 && JoinsToEmpty(items[0]))
    case _ => false
  }

  /** `v == ''` under JavaScript's loose equality. A string is compared as a
      string; a boolean is converted to a number and a number is compared with
      `Number('')`, which is 0; `null` is loosely equal only to `null` and
      `undefined`; an object is first converted to a primitive: a date and a
      plain object give non-empty strings, an array gives its joined
      elements. */
  predicate LooseEqEmpty(v: JsValue) {
    match v
    case Str(s) => s == ""
    case Bool(b) => !b
    case Num(n) => n == 0.0
    case Null => false
    case Date(_) => false
    case Arr(_) => JoinsToEmpty(v)
    case Obj(_) => false
  }

  /** Reading `m.k`: absence is `undefined`. */
  function Get(m: map<string, JsValue>, k: string): (r: Option<JsValue>)
    ensures r.Some? <==> k in m
    ensures r.Some? ==> r.value == m[k]
  {
    if k in m then Some(m[k]) else None
  }

  /** `!!m.k`: `undefined` is falsy. */
  predicate TruthyProp(m: map<string, JsValue>, k: string) {
    k in m && Truthy(m[k])
  }

  /** `x || ''`, with `undefined` for an absent `x`. */
  function OrEmpty(x: Option<JsValue>): (r: JsValue)
    ensures Truthy(r) || r == Str("")
    ensures x.Some? && Truthy(x.value) ==> r == x.value
    ensures (x.None? || Falsy(x.value)) ==> r == Str("")
  {
    if x.Some? && Truthy(x.value) then x.value else Str("")
  }

  /** Outside arrays, being loosely equal to `''` is exactly being falsy and
      not `null`: `''`, `false` and `0` are, `null` is not. */
  lemma LooseEqEmptyIsFalsyButNotNull(v: JsValue)
    requires !v.Arr?
    ensures LooseEqEmpty(v) <==> Falsy(v) && v != Null
  {
  }

  /** Consequently a truthy value that is not an array is never loosely equal
      to `''`. */
  lemma TruthyNotLooseEqEmpty(v: JsValue)
    requires !v.Arr? && Truthy(v)
    ensures !LooseEqEmpty(v)
  {
    LooseEqEmptyIsFalsyButNotNull(v);
  }

  /** The boundary cases of the loose comparison with `''`. */
  lemma LooseEqEmptyExamples()
    ensures LooseEqEmpty(Str("")) && LooseEqEmpty(Bool(false)) && LooseEqEmpty(Num(0.0))
    ensures !LooseEqEmpty(Null) && !LooseEqEmpty(Str("0")) && !LooseEqEmpty(Str(" "))
    ensures !LooseEqEmpty(Bool(true)) && !LooseEqEmpty(Num(1.0)) && !LooseEqEmpty(Obj([]))
  {
  }

  /** Arrays break the rule: every array is truthy, yet `[]`, `['']`, `[null]`
      and `[[]]` are loosely equal to `''`, while `[0]`, `[false]` and any
      array of two or more elements are not. */
  lemma ArraysTruthyYetLooseEqEmpty()
    ensures Truthy(Arr([])) && LooseEqEmpty(Arr([]))
    ensures Truthy(Arr([Str("")])) && LooseEqEmpty(Arr([Str("")]))
    ensures LooseEqEmpty(Arr([Null])) && LooseEqEmpty(Arr([Arr([])]))
    ensures !LooseEqEmpty(Arr([Num(0.0)])) && !LooseEqEmpty(Arr([Bool(false)]))
    ensures !LooseEqEmpty(Arr([Str(""), Str("")]))
  {
  }

  /** A JavaScript object whose own enumerable properties can be reassigned
      and deleted in place: a parsed request body. */
  class JsObject {
    var props: map<string, JsValue>

    constructor (init: map<string, JsValue>)
      ensures props == init
    {
      props := init;
    }

    /** `o[k] = v` */
    method Assign(k: string, v: JsValue)
      modifies this
      ensures props == old(props)[k := v]
    {
      props := props[k := v];
    }

    /** `delete o[k]` */
    method Delete(k: string)
      modifies this
      ensures props == old(props) - {k}
    {
      props := props - {k};
    }
  }
}
