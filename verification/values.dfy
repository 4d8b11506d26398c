/** JavaScript values as far as the store inspects them: the store asks of an
    action whether it is a string, of a payload whether it is a function, and of
    every registered handler whether it is a function. Everything else about a
    value is carried along untouched. */
module Values {

  datatype Option<+T> = None | Some(value: T)

  /** Identity of a function value; what the function does is supplied
      separately wherever the model needs it. */
  type FnId = nat

  /** A tagged JavaScript value. Numbers are integers here (floating point and
      NaN are not modelled). */
  datatype Value =
    | VUndefined
    | VNull
    | VBool(b: bool)
    | VNum(n: int)
    | VStr(s: string)
    | VArr(items: seq<Value>)
    | VObj(fields: map<string, Value>)
    | VFn(id: FnId)

  /** The store's state: a plain record from keys to values. */
  type State = map<string, Value>

  /** `typeof v === 'function'` */
  predicate IsFunction(v: Value) {
    v.VFn?
  }

  /** `typeof v === 'string'` */
  predicate IsString(v: Value) {
    v.VStr?
  }
}
