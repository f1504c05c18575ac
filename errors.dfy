/** Error values and option/result wrappers shared by every component.

    Go returns `error` values that are either a package-level sentinel
    (compared with `==` or `errors.Is`) or a `fmt.Errorf("ctx: %w", cause)`
    wrapping of another error.  The model closes that set into a datatype. */
module Errors {

  datatype Option<+T> = None | Some(value: T)

  /** A Go `(value, error)` pair where the error is either nil or not. */
  datatype Result<+T> = Ok(value: T) | Fail(error: Error)

  datatype Error =
    | NotFound                           // cache.NotFound: the key is absent
    | Locked                             // lock.ErrLocked: every attempt found the lock held
    | ContextDone                        // ctx.Err() after cancellation or deadline
    | StoreFailure                       // a transport error of the volatile store client
    | DecodeFailure                      // the stored value does not decode as requested
    | SourceFailure(code: int)           // an error reported by the source store (the DAO)
    | Message(text: string)              // errors.New(text)
    | Wrapped(context: string, cause: Error)  // fmt.Errorf("<context>: %w", cause)

  /** `errors.Is(e, target)`: `e` is `target` or wraps it, at any depth. */
  predicate Is(e: Error, target: Error)
    decreases e
  {
    e == target || (e.Wrapped? && Is(e.cause, target))
  }

  /** The innermost error of a chain of wrappings. */
  function Root(e: Error): (r: Error)
    ensures !r.Wrapped?
    ensures Is(e, r)
    decreases e
  {
    if e.Wrapped? then Root(e.cause) else e
  }

  /** An unwrapped error is `errors.Is` only itself, and a chain of
      wrappings is `errors.Is` exactly the sentinels its root is. */
  lemma {:induction false} IsSentinel(e: Error, target: Error)
    requires !target.Wrapped?
    ensures Is(e, target) <==> Root(e) == target
    decreases e
  {
    if e.Wrapped? {
      IsSentinel(e.cause, target);
    }
  }
}
