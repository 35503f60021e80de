/** Small result types and helpers shared by the whole model. */
module Wrappers {

  /** An optional value; `None` stands for JavaScript's `null`/`undefined`. */
  datatype Option<+T> = None | Some(value: T)

  /** The `{ success: true }` / `{ success: false, error }` objects the
      context providers return to the pages. */
  datatype Outcome = Success | Failure(error: string)

  /** Adds `key: message` to a form's error object when `failed`. */
  function Note<K>(errs: map<K, string>, failed: bool, key: K, message: string): map<K, string> {
    if failed then errs[key := message] else errs
  }
}
