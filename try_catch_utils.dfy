/** The result-normalisation contract of `tryCatch` and `tryCatchAsync`: the
    action runs once, and however it ends, the caller gets back a record
    `{ data, isError, error: { message, stack, name, cause } }` instead of an
    exception. The action itself is not modelled; only how it ended is. */
module TryCatchUtils {
  import opened JsValues

  /** How the call `action()` ended: it returned a value or threw one. */
  datatype Completion = Returned(value: Value) | Threw(exception: Value)

  /** How `await action()` ended: the awaited promise resolved or rejected
      (a synchronous throw from `action()` itself counts as a rejection, since
      it is caught by the same `catch`). */
  datatype Settlement = Resolved(value: Value) | Rejected(reason: Value)

  /** The `error` part of the returned record. `cause` is `Null` or a truthy
      value; the three text fields are null or a non-empty string. */
  datatype ErrorRecord = ErrorRecord(message: Option<string>, stack: Option<string>, name: Option<string>, cause: Value)

  /** The record returned by both normalisers. */
  datatype TryResult = TryResult(data: Value, isError: bool, error: ErrorRecord)

  /** The error record when nothing was captured: every field null. */
  const NoError := ErrorRecord(None, None, None, Null)

  const UnknownErrorMessage := "Unknown error"

  /** The name an `Error` built by `new Error(..)` reports. */
  const ErrorName := "Error"

  /** `new Error('Unknown error')`, built when a non-Error is thrown. Its stack
      trace is engine-generated text, given here as an opaque parameter; it
      has no cause. */
  function UnknownError(synthStack: string): ErrorObject {
    ErrorObject(UnknownErrorMessage, ErrorName, Some(synthStack), Undefined)
  }

  /** The `awaited` value as the synchronous variant would see it: resolving
      is returning, rejecting is throwing. */
  function AsCompletion(s: Settlement): Completion {
    match s
    case Resolved(v) => Returned(v)
    case Rejected(e) => Threw(e)
  }

  /** The four fields read off a captured error, each through `|| null`. */
  function Fields(e: ErrorObject): ErrorRecord {
    ErrorRecord(StringOrNull(Some(e.message)), StringOrNull(e.stack), StringOrNull(Some(e.name)), OrNull(e.cause))
  }

  /** A text field of the record: null or a non-empty string. */
  predicate NullOrNonEmpty(field: Option<string>) {
    field.None? || field.value != ""
  }

  /** The shape every record has: nothing captured means every error field is
      null; a capture means `data` kept its initial null; no field is ever a
      falsy value other than null. */
  predicate WellFormed(r: TryResult) {
    && (r.isError || r.error == NoError)
    && (r.isError ==> r.data == Null)
    && NullOrNonEmpty(r.error.message)
    && NullOrNonEmpty(r.error.stack)
    && NullOrNonEmpty(r.error.name)
    && (r.error.cause == Null || Truthy(r.error.cause))
  }

  /** The record built from the locals `data` and `currentError` once the
      try/catch is over. Each error field is read with optional chaining, so
      a null `currentError` gives undefined, which `|| null` turns into null. */
  function Shape(data: Value, currentError: Option<ErrorObject>): (r: TryResult)
    ensures r.data == data
    ensures r.isError <==> currentError.Some?
    ensures currentError.None? ==> r.error == NoError
    ensures currentError.Some? ==> r.error == Fields(currentError.value)
  {
    TryResult(
      data,
      currentError.Some?,
      ErrorRecord(
        message := StringOrNull(if currentError.Some? then Some(currentError.value.message) else None),
        stack := StringOrNull(if currentError.Some? then currentError.value.stack else None),
        name := StringOrNull(if currentError.Some? then Some(currentError.value.name) else None),
        cause := OrNull(if currentError.Some? then currentError.value.cause else Undefined)))
  }

  /** The normalisation contract, by cases on how the action ended. */
  function Normalise(c: Completion, synthStack: string): (r: TryResult)
    ensures WellFormed(r)
    ensures r.isError <==> c.Threw?
  {
    match c
    case Returned(v) => TryResult(v, false, NoError)
    case Threw(Err(e)) => TryResult(Null, true, Fields(e))
    case Threw(_) => TryResult(Null, true, Fields(UnknownError(synthStack)))
  }

  /** `tryCatch(action)`: `currentError` and `data` start null, the action's
      return value or the caught error is stored in them, and the record is
      shaped from them. */
  method TryCatch(action: Completion, synthStack: string) returns (result: TryResult)
    ensures result == Normalise(action, synthStack)
  {
    var currentError: Option<ErrorObject> := None;
    var data: Value := Null;
    match action {
      case Returned(v) =>
        data := v;
      case Threw(e) =>
        if e.Err? {
          currentError := Some(e.error);
        } else {
          currentError := Some(UnknownError(synthStack));
        }
    }
    result := Shape(data, currentError);
  }

  /** `tryCatchAsync(action)`: the same steps after the single `await`. The
      record is the one `tryCatch` gives when resolving is read as returning
      and rejecting as throwing. */
  method TryCatchAsync(awaited: Settlement, synthStack: string) returns (result: TryResult)
    ensures result == Normalise(AsCompletion(awaited), synthStack)
  {
    var currentError: Option<ErrorObject> := None;
    var data: Value := Null;
    match awaited {
      case Resolved(v) =>
        data := v;
      case Rejected(e) =>
        if e.Err? {
          currentError := Some(e.error);
        } else {
          currentError := Some(UnknownError(synthStack));
        }
    }
    result := Shape(data, currentError);
  }

  /** On a normal return `data` is the returned value, whatever it is (null,
      undefined, a callable, even an Error object), and nothing is reported
      as an error. */
  lemma ReturnKeepsData(v: Value, synthStack: string)
    ensures Normalise(Returned(v), synthStack).data == v
    ensures !Normalise(Returned(v), synthStack).isError
    ensures Normalise(Returned(v), synthStack).error == NoError
  {
  }

  /** A thrown Error is the source of every field: `data` is null, `isError`
      is true, truthy fields are copied and falsy ones become null. A truthy
      cause is handed over as it is, so a nested Error in it keeps even its
      empty fields. */
  lemma ThrownErrorCopied(e: ErrorObject, synthStack: string)
    ensures var r := Normalise(Threw(Err(e)), synthStack);
      && r.data == Null
      && r.isError
      && (r.error.message == None <==> e.message == "")
      && (e.message != "" ==> r.error.message == Some(e.message))
      && (r.error.name == None <==> e.name == "")
      && (e.name != "" ==> r.error.name == Some(e.name))
      && (r.error.stack == None <==> (e.stack == None || e.stack == Some("")))
      && (e.stack != None && e.stack != Some("") ==> r.error.stack == e.stack)
      && (r.error.cause == Null <==> !Truthy(e.cause))
      && (Truthy(e.cause) ==> r.error.cause == e.cause)
  {
  }

  /** A thrown non-Error is replaced by `new Error('Unknown error')`: the
      record is fixed apart from the synthesised stack, and the payload has no
      influence on it at all. */
  lemma NonErrorPayloadDiscarded(p: Value, q: Value, synthStack: string)
    requires !p.Err? && !q.Err?
    ensures Normalise(Threw(p), synthStack) == Normalise(Threw(q), synthStack)
    ensures Normalise(Threw(p), synthStack) ==
      TryResult(Null, true, ErrorRecord(Some(UnknownErrorMessage), StringOrNull(Some(synthStack)), Some(ErrorName), Null))
  {
  }

  /** No state is carried between calls: the record depends only on how the
      action ended, and the only thing that can tell two calls on equal
      endings apart is the stack of a synthesised error. */
  lemma OnlySynthesisedStackVaries(c: Completion, stackA: string, stackB: string)
    ensures var a, b := Normalise(c, stackA), Normalise(c, stackB);
      && a.data == b.data
      && a.isError == b.isError
      && a.error.message == b.error.message
      && a.error.name == b.error.name
      && a.error.cause == b.error.cause
    ensures c.Returned? || c.exception.Err? ==> Normalise(c, stackA) == Normalise(c, stackB)
  {
  }

  /** Every well-formed record is produced by some ending of the action, so
      `WellFormed` describes the possible records exactly (with the
      `ensures WellFormed(r)` of `Normalise`). */
  lemma WellFormedIsReachable(r: TryResult, synthStack: string)
    requires WellFormed(r)
    ensures exists c :: Normalise(c, synthStack) == r
  {
    if r.isError {
      var e := ErrorObject(
        if r.error.message.Some? then r.error.message.value else "",
        if r.error.name.Some? then r.error.name.value else "",
        r.error.stack,
        r.error.cause);
      assert Normalise(Threw(Err(e)), synthStack) == r;
    } else {
      assert Normalise(Returned(r.data), synthStack) == r;
    }
  }

  /** `isError` tells whether the catch branch ran, not whether a message is
      present: a message implies an error, but `throw new Error('')` gives an
      error with a null message. */
  lemma IsErrorWithoutMessage(synthStack: string)
    ensures forall c :: Normalise(c, synthStack).error.message.Some? ==> Normalise(c, synthStack).isError
    ensures exists c :: Normalise(c, synthStack).isError && Normalise(c, synthStack).error.message == None
  {
    var empty := Threw(Err(ErrorObject("", ErrorName, Some(synthStack), Undefined)));
    assert Normalise(empty, synthStack).error.message == None;
  }

  /** `throw new Error(message, { cause: root })` with a non-empty message
      keeps the message and hands `root` over as the cause. */
  lemma ErrorWithCauseScenario(message: string, root: ErrorObject, stack: string)
    requires message != "" && stack != ""
    ensures Normalise(Threw(Err(ErrorObject(message, ErrorName, Some(stack), Err(root)))), stack) ==
      TryResult(Null, true, ErrorRecord(Some(message), Some(stack), Some(ErrorName), Err(root)))
  {
  }

  /** `Promise.reject('oops')` awaited gives the synthesised unknown error. */
  lemma StringRejectionScenario(synthStack: string)
    requires synthStack != ""
    ensures Normalise(AsCompletion(Rejected(Str("oops"))), synthStack) ==
      TryResult(Null, true, ErrorRecord(Some(UnknownErrorMessage), Some(synthStack), Some(ErrorName), Null))
  {
  }
}
