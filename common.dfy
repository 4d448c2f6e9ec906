/** Small value types shared by the modules of the Chargebee payment-gateway model. */
module Common {

  /** A value that may be absent: PHP's `null` or an unset array key. */
  datatype Option<+T> = None | Some(value: T)

  /** The result of a check that either passes or throws an exception carrying `error`. */
  datatype Outcome<+E> = Pass | Fail(error: E)

  /**
   * A scalar stored in an event's `other` array or in a task's custom data.
   * `VNull` is PHP's `null`, for which `isset` is false.
   */
  datatype Value = VNull | VInt(i: int) | VStr(s: string)

  /** A language string reference, as passed to `get_string(identifier, component)`. */
  datatype LangString = LangString(identifier: string, component: string)

  /** PHP's `empty()` on a string: the empty string and "0" are empty. */
  predicate IsEmptyString(s: string) {
    s == "" || s == "0"
  }

  /** PHP's `isset($a[$k])`: the key is present and its value is not `null`. */
  predicate IsSet(a: map<string, Value>, k: string) {
    k in a && a[k] != VNull
  }
}
