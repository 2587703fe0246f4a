/** The application's flat set of error kinds, each with a fixed user-facing
    message, and the result types that replace Java's checked exception. */
module SimpleExceptions {

  /** The four error kinds, in declaration order. */
  datatype Error = InsufficientFunds | InvalidAmount | MismatchDenomination | InvalidCommand {

    /** The fixed message that the command loop prints for this error. */
    function Message(): (m: string)
      ensures |m| > |"Sorry - "| && m[..|"Sorry - "|] == "Sorry - "
    {
      match this
      case InsufficientFunds => "Sorry - Insufficient Funds"
      case InvalidAmount => "Sorry - Invalid Amount"
      case MismatchDenomination => "Sorry - Mismatched Denominations"
      case InvalidCommand => "Sorry - Invalid Command"
    }
  }

  /** The exception object: it carries nothing but the message of its error. */
  datatype SimpleException = SimpleException(message: string)

  /** Wraps an error into the exception that reports it. */
  function GetException(e: Error): (x: SimpleException)
    ensures x.message == e.Message()
    ensures forall e' :: e' != e ==> x.message != e'.Message()
  {
    MessagesDistinct();
    SimpleException(e.Message())
  }

  /** No two error kinds share a message, so a message identifies its error. */
  lemma MessagesDistinct()
    ensures forall e: Error, e': Error :: e != e' ==> e.Message() != e'.Message()
  {
    forall e: Error, e': Error | e != e' ensures e.Message() != e'.Message() {
      var m, m' := e.Message(), e'.Message();
      // The ninth character after "Sorry - " is different in all four messages.
      var k := |"Sorry - "| + 8;
      assert m[k] != m'[k];
    }
  }

  /** The outcome of an operation that either produces a value or fails. */
  datatype Result<T> = Success(value: T) | Failure(error: Error)

  /** The outcome of an operation that only changes state or fails. */
  datatype Outcome = Pass | Fail(error: Error)

  /** A value that may be absent: stands for a Java reference that may be null. */
  datatype Option<T> = None | Some(value: T)
}
