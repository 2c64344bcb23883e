/** Go's nil-able values and `error` values, as the rest of the model uses them. */
module Errors {

  /** A Go pointer or an `error` that may be nil. */
  datatype Option<+T> = None | Some(value: T)

  /** A Go `(value, error)` pair in which exactly one side is meaningful. */
  datatype Result<+T> = Ok(value: T) | Err(error: Error)

  /**
   * An `error` value.
   *  - `Plain(text)`: `errors.New(text)`, or `fmt.Errorf` with `%v`, which
   *    keeps only the cause's text;
   *  - `Wrapped(context, cause)`: `fmt.Errorf("<context>%w", cause)`, which
   *    keeps the cause in the chain that `errors.As` walks;
   *  - `Joined(left, right)`: `errors.Join(left, right)`;
   *  - `Skipped(msg)`: a `utils.SkippedError{Msg: msg}`.
   */
  datatype Error =
    | Plain(text: string)
    | Wrapped(context: string, cause: Error)
    | Joined(left: Error, right: Error)
    | Skipped(msg: string)
  {
    /** `err.Error()`. */
    function Message(): (r: string)
      ensures Skipped? ==> r == msg
      ensures Wrapped? ==> r == context + cause.Message()
    {
      match this
      case Plain(t) => t
      case Wrapped(c, e) => c + e.Message()
      case Joined(l, r) => l.Message() + "\n" + r.Message()
      case Skipped(m) => m
    }

    /** The length of `Message()`, counted without building the text. */
    function MessageLength(): (n: nat)
    {
      match this
      case Plain(t) => |t|
      case Wrapped(c, e) => |c| + e.MessageLength()
      case Joined(l, r) => l.MessageLength() + 1 + r.MessageLength()
      case Skipped(m) => |m|
    }

    lemma {:induction false} MessageLengthIsLength()
      ensures MessageLength() == |Message()|
    {
      match this
      case Plain(_) =>
      case Wrapped(_, e) => e.MessageLengthIsLength();
      case Joined(l, r) => l.MessageLengthIsLength(); r.MessageLengthIsLength();
      case Skipped(_) =>
    }

    /** `errors.As(err, &SkippedError{})`: some error in the chain is a SkippedError. */
    predicate IsSkipped()
    {
      match this
      case Plain(_) => false
      case Wrapped(_, e) => e.IsSkipped()
      case Joined(l, r) => l.IsSkipped() || r.IsSkipped()
      case Skipped(_) => true
    }
  }

  /** `fmt.Errorf("<context>%v", err)`: the cause's text only, so the chain is cut. */
  function Describe(context: string, err: Error): (r: Error)
    ensures r.Message() == context + err.Message()
    ensures !r.IsSkipped()
  {
    Plain(context + err.Message())
  }
}
