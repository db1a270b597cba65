/** Optional values and caught exceptions, the two shapes JavaScript's
    `null`/`undefined` and `try { … } catch (err: any)` take in this model. */
module Wrappers {

  /** A value that may be missing: `None` stands for JavaScript `null` or `undefined`. */
  datatype Option<+T> = None | Some(value: T) {

    /** The nullish-coalescing operator: `this ?? default`. */
    function GetOr(default: T): (r: T)
      ensures Some? ==> r == value
      ensures None? ==> r == default
    {
      match this
      case Some(v) => v
      case None => default
    }
  }

  /** A value caught by `catch (err: any)`. Anything can be thrown in JavaScript,
      so its `message` property may be absent. */
  datatype Thrown = Thrown(message: Option<string>)
}
