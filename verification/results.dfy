/** Failures and step shapes shared by every component.

    The modelled code reports failures by raising Python exceptions. Here a
    failure is an `Error` value naming its reason; `ClassOf` says which
    exception class the code raises for it. An operation that may raise after
    it has already changed some state returns a `Step`: the state it leaves
    behind together with a `Status`. */
module Results {

  datatype Option<+T> = None | Some(value: T)

  /** The Python exception classes the modelled code raises. */
  datatype ExceptionClass =
    | TypeError
    | ValueError
    | IndexError
    | AttributeError
    | AssertionError
    | OSError
    | RaisedByCallback

  /** Every reason the modelled code can fail for. */
  datatype Error =
    | NoSignalsSelected          // the signal list is empty
    | CallbackNotTwoPositional   // the callback fails the two-argument check
    | SignatureUnsupported       // `inspect.signature` does not support the callback's type
    | SignatureUnavailable       // `inspect.signature` finds no signature for the callback
    | UnsupportedSignal          // a signal outside the Windows default set
    | NotMainThread              // a handler is installed off the main thread
    | UncatchableSignal          // the system refuses a handler for the signal
    | HandlerNotInstallable      // `signal.signal` is given `None` to reinstall
    | EmptyHandlerStack          // `_old_handlers[-1]` on an empty list
    | NoBaseline                 // `_old_requested` read before it was set
    | UnexpectedSignal           // a guard handler reached by another signal
    | LimitNotNumeric            // a time limit that is neither int nor float
    | LimitIsNaN                 // a time limit that is NaN
    | CallbackRaised             // the user callback raised

  function ClassOf(e: Error): ExceptionClass
  {
    match e
    case NoSignalsSelected => ValueError
    case CallbackNotTwoPositional => TypeError
    case SignatureUnsupported => TypeError
    case SignatureUnavailable => ValueError
    case UnsupportedSignal => ValueError
    case NotMainThread => ValueError
    case UncatchableSignal => OSError
    case HandlerNotInstallable => TypeError
    case EmptyHandlerStack => IndexError
    case NoBaseline => AttributeError
    case UnexpectedSignal => AssertionError
    case LimitNotNumeric => TypeError
    case LimitIsNaN => ValueError
    case CallbackRaised => RaisedByCallback
  }

  /** The code as written, or with the corrections listed under Findings
      in README.md. */
  datatype Revision = AsWritten | Corrected

  datatype Result<+T> = Ok(value: T) | Err(error: Error)

  /** Whether an operation returned normally or raised. */
  datatype Status = Done | Raised(error: Error)

  /** The state an operation leaves behind, and whether it raised. */
  datatype Step<+S> = Step(after: S, status: Status)

  /** A value an operation returned, and the state it leaves behind. */
  datatype Answer<+S, +V> = Answer(value: V, after: S)
}
