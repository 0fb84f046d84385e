/**
 * The JavaScript values the proxy passes around: request fields, upstream
 * payloads, response bodies and thrown errors.
 */
module JsValues {
  import opened Wrappers
  import opened Strings

  /**
   * A JavaScript value. Numbers are integers (floating point is not modelled);
   * NaN is kept because `parseInt` produces it. An object keeps its properties
   * in insertion order, as `JSON.stringify` and the template literals see them.
   */
  datatype JsVal =
    | Undefined
    | Null
    | Bool(b: bool)
    | Num(n: int)
    | NaN
    | Str(s: string)
    | Arr(items: seq<JsVal>)
    | Obj(fields: seq<(string, JsVal)>)

  /** JavaScript truthiness, as `if (v)` and `v || d` test it. */
  predicate Truthy(v: JsVal) {
    match v
    case Undefined => false
    case Null => false
    case Bool(b) => b
    case Num(n) => n != 0
    case NaN => false
    case Str(s) => s != ""
    case Arr(_) => true
    case Obj(_) => true
  }

  /** The property names of an object literal, in order. */
  function Keys(fields: seq<(string, JsVal)>): (ks: seq<string>)
    ensures |ks| == |fields|
    ensures forall i :: 0 <= i < |fields| ==> ks[i] == fields[i].0
  {
    if |fields| == 0 then [] else [fields[0].0] + Keys(fields[1..])
  }

  lemma {:induction false} KeysAppend(a: seq<(string, JsVal)>, b: seq<(string, JsVal)>)
    ensures Keys(a + b) == Keys(a) + Keys(b)
  {
    assert |Keys(a + b)| == |Keys(a) + Keys(b)|;
    forall i | 0 <= i < |a + b| ensures Keys(a + b)[i] == (Keys(a) + Keys(b))[i] {
      if i < |a| {
        assert (a + b)[i] == a[i];
      } else {
        assert (a + b)[i] == b[i - |a|];
      }
    }
  }

  /** `o[key]` on an object literal: the first property with that name, or undefined. */
  function Lookup(fields: seq<(string, JsVal)>, key: string): (v: JsVal)
    ensures key !in Keys(fields) ==> v == Undefined
  {
    if |fields| == 0 then Undefined
    else if fields[0].0 == key then fields[0].1
    else Lookup(fields[1..], key)
  }

  /** The property read is the first one with the name. */
  lemma {:induction false} LookupFirst(fields: seq<(string, JsVal)>, key: string, i: nat)
    requires i < |fields| && fields[i].0 == key
    requires forall j :: 0 <= j < i ==> fields[j].0 != key
    ensures Lookup(fields, key) == fields[i].1
  {
    if i > 0 {
      LookupFirst(fields[1..], key, i - 1);
    }
  }

  /** `v?.key`: a property of an object; undefined for every other value. */
  function Prop(v: JsVal, key: string): JsVal {
    if v.Obj? then Lookup(v.fields, key) else Undefined
  }

  /** An array of strings. */
  function StrList(vs: seq<string>): (r: seq<JsVal>)
    ensures |r| == |vs| && forall i :: 0 <= i < |vs| ==> r[i] == Str(vs[i])
  {
    seq(|vs|, i requires 0 <= i < |vs| => Str(vs[i]))
  }

  /** `String(v)`, which is also what a template literal `${v}` produces. */
  function ToStr(v: JsVal): string
    decreases v, 1
  {
    match v
    case Undefined => "undefined"
    case Null => "null"
    case Bool(b) => if b then "true" else "false"
    case Num(n) => IntToString(n)
    case NaN => "NaN"
    case Str(s) => s
    case Arr(items) => Join(seq(|items|, i requires 0 <= i < |items| => ElementStr(items[i])), ',')
    case Obj(_) => "[object Object]"
  }

  /** How `Array.prototype.join` writes one element: null and undefined become "". */
  function ElementStr(v: JsVal): string
    decreases v, 2
  {
    if v == Undefined || v == Null then "" else ToStr(v)
  }

  /** A thrown JavaScript error: its `name`, `message`, optional `statusCode` and
      `details`, and its `stack` (modelled by its first line, "<name>: <message>"). */
  datatype JsError = JsError(name: string, message: string, statusCode: Option<int>, details: JsVal, stack: string)

  /** `new Error(message)` */
  function NewError(message: string): (e: JsError)
    ensures e.name == "Error" && e.message == message && e.statusCode == None && e.details == Undefined
  {
    JsError("Error", message, None, Undefined, "Error: " + message)
  }

  /** The runtime's message for reading a property of null or undefined. */
  function CannotRead(what: string, key: string): string {
    "Cannot read properties of " + what + " (reading '" + key + "')"
  }

  /** The runtime's text for destructuring `key` out of the undefined expression `what`. */
  function CannotDestructure(key: string, what: string): string {
    "Cannot destructure property '" + key + "' of '" + what + "' as it is undefined."
  }

  /** The runtime's text for calling `callee` when it is not a function. */
  function NotAFunction(callee: string): string {
    callee + " is not a function"
  }

  /** A `TypeError` raised by the runtime. */
  function NewTypeError(message: string): (e: JsError)
    ensures e.name == "TypeError" && e.message == message && e.statusCode == None
  {
    JsError("TypeError", message, None, Undefined, "TypeError: " + message)
  }
}
