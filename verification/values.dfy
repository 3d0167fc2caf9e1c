/** PHP values as the profiler passes them around. */
module Values {

  /** Identity of a PHP object (its object handle): two handles are equal
      exactly when they denote the same object. */
  type Handle = nat

  /** A PHP value (`mixed`) as far as the profiler handles one: `null`, a string,
      an object (a message bag, a result, a throwable, a model, ...) known only by
      its identity, or an array with string keys (an options array). */
  datatype Value =
    | Null
    | Str(s: string)
    | Obj(handle: Handle)
    | Arr(entries: map<string, Value>)

  /** A VarDumper snapshot of a value, as produced by `cloneVar`. What it holds
      is not part of this model. */
  type Data

  datatype Option<T> = None | Some(value: T)

  /** How a PHP call that may throw ends: with a value, or with a thrown
      object (a `\Throwable`, known by its identity). */
  datatype Fallible<T> = Ok(value: T) | Thrown(error: Handle)
}
