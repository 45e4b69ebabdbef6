/**
  * The JavaScript values the harness handles: parsed response bodies, payloads,
  * expected codes and messages. Numbers are integers here; NaN, fractions and
  * object identity are not modelled.
  */
module Values {
  import opened Text

  datatype Option<T> = None | Some(value: T)

  /** A value, or the message of the Error that was thrown instead. */
  datatype Result<T> = Ok(value: T) | Err(message: string)

  datatype Value =
    | Undefined
    | Null
    | Bool(b: bool)
    | Num(n: int)
    | Str(s: string)
    | Arr(elems: seq<Value>)
    | Obj(fields: map<string, Value>)

  /** JavaScript truthiness: undefined, null, false, 0 and "" are falsy. */
  predicate Truthy(v: Value)
  {
    match v
    case Undefined => false
    case Null => false
    case Bool(b) => b
    case Num(n) => n != 0
    case Str(s) => s != ""
    case Arr(_) => true
    case Obj(_) => true
  }

  /** `v?.name`: a missing property, or a value that is not an object, gives undefined. */
  function Field(v: Value, name: string): (r: Value)
    ensures !v.Obj? ==> r == Undefined
    ensures v.Obj? && name in v.fields ==> r == v.fields[name]
    ensures v.Obj? && name !in v.fields ==> r == Undefined
  {
    match v
    case Obj(f) => if name in f then f[name] else Undefined
    case _ => Undefined
  }

  /**
    * `a === b`. Two arrays or objects are never the same reference here: every
    * one of them comes from a separate parse or literal.
    */
  predicate StrictEquals(a: Value, b: Value)
  {
    !a.Arr? && !a.Obj? && a == b
  }

  /** `String(v)`, as template literals render it. */
  function ToText(v: Value): string
    decreases v
  {
    match v
    case Undefined => "undefined"
    case Null => "null"
    case Bool(b) => if b then "true" else "false"
    case Num(n) => IntToString(n)
    case Str(s) => s
    case Arr(es) =>
      // Array.prototype.toString: elements joined by ",", null and undefined as ""
      Join(seq(|es|, i requires 0 <= i < |es| =>
                      if es[i].Undefined? || es[i].Null? then "" else ToText(es[i])), ",")
    case Obj(_) => "[object Object]"
  }
}
