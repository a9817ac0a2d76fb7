# try: a model of the try/catch result normaliser

The repository offers two helpers, `tryCatch` and `tryCatchAsync`. Each runs an
action once and always returns a record
`{ data, isError, error: { message, stack, name, cause } }`, so no exception
thrown by the action escapes to the caller. This project models that contract in Dafny and proves
what it promises.

- `JsValues` (`js_values.dfy`) models the JavaScript values involved. It covers
  ToBoolean truthiness and the `x || null` fallback applied to every error
  field.
- `TryCatchUtils` (`try_catch_utils.dfy`) models the two helpers.
  - How the action ended is a `Completion`: `Returned(v)` or `Threw(x)`.
  - How the awaited promise settled is a `Settlement`: `Resolved(v)` or
    `Rejected(x)`.
  - `instanceof Error` is the test `x.Err?` on the thrown value.
  - The methods `TryCatch` and `TryCatchAsync` follow the source step by step.
    They set the locals `currentError` and `data`, choose the error in the
    catch branch, and then build the record with the pure function `Shape`.
  - Both methods are proved equal to `Normalise`, a definition of the contract
    by cases.
  - `WellFormed` describes the records that can come out. Together with
    `WellFormedIsReachable`, it describes them exactly.

The stack of the synthesised `new Error('Unknown error')` is text generated by
the engine. It is the parameter `synthStack`; its text is never inspected, and only
`|| null` tests whether it is empty.

One might expect `isError` to hold iff `error.message` is non-null. The
code does not do this: `isError` is `currentError instanceof Error`, so
`throw new Error('')` gives `isError` true with a null message.
`IsErrorWithoutMessage` proves this.

## Model

| member | source | states |
|---|---|---|
| JsValues.OrNull | src/try-catch-utils.ts:22 | `v \|\| null` is null or the original truthy value; every truthy value passes through unchanged. |
| JsValues.StringOrNull | src/try-catch-utils.ts:19-21 | `s \|\| null` on a `string \| undefined` is null or a non-empty string equal to the input; every non-empty string is kept. |
| TryCatchUtils.Shape | src/try-catch-utils.ts:15-24 | The record keeps `data` as given, and `isError` holds iff an error was captured. With no capture, optional chaining makes all four fields null. With a capture, the fields are that error's fields, each passed through `\|\| null`. |
| TryCatchUtils.Normalise | src/try-catch-utils.ts:1-25 | Every record is well-formed: with no error, every error field is null; with an error, `data` is null; no field holds a falsy value other than null. `isError` holds exactly when the action threw. |
| TryCatchUtils.TryCatch | src/try-catch-utils.ts:1-25 | The step-by-step updates of `currentError` and `data`, followed by the record shaping, give exactly the contract's record for how the action ended. |
| TryCatchUtils.TryCatchAsync | src/try-catch-utils.ts:27-51 | After the `await`, the record is the one `tryCatch` gives when resolving is read as returning and rejecting as throwing. |
| TryCatchUtils.ReturnKeepsData | src/try-catch-utils.ts:5-6 | On a normal return, `data` is the returned value, whatever it is (null, undefined, a callable, an Error object), `isError` is false, and all four error fields are null. |
| TryCatchUtils.ThrownErrorCopied | src/try-catch-utils.ts:7-9 | A thrown Error gives null `data` and true `isError`. Each of message, name, stack and cause is copied when truthy and is null exactly when falsy. A truthy cause, including a nested Error, is passed through without being normalised. |
| TryCatchUtils.NonErrorPayloadDiscarded | src/try-catch-utils.ts:10-12 | Any two non-Error thrown values give the same record: message "Unknown error", name "Error", cause null and the synthesised stack. The payload has no influence on the record. |
| TryCatchUtils.OnlySynthesisedStackVaries | src/try-catch-utils.ts:2-3 | No state carries over between calls. Equal endings give records that agree on everything except the stack of a synthesised error, and they are fully equal when no error had to be synthesised. |
| TryCatchUtils.WellFormedIsReachable | src/try-catch-utils.ts:15-24 | Every well-formed record is produced by some ending of the action, so the well-formed records are exactly the possible results. |
| TryCatchUtils.IsErrorWithoutMessage | src/try-catch-utils.ts:17-19 | A non-null message implies `isError`, but the converse fails: some thrown Error (one with an empty message) gives `isError` true with a null message. |
| TryCatchUtils.ErrorWithCauseScenario | test/try-catch.test.ts:51-62 | `throw new Error(message, { cause: root })` with any non-empty message (the test uses 'Top level error') gives null data, true `isError`, that message, name "Error", its stack, and `root` as the cause. |
| TryCatchUtils.StringRejectionScenario | test/async-try-catch.test.ts:45-53 | A promise rejected with a string gives null data, true `isError`, message "Unknown error", name "Error", the synthesised stack and a null cause. |

## Left out

- Promise scheduling, delayed resolution and actions that never settle are not modelled. They are host-runtime concurrency; only the settled outcome of `await action()` is modelled.
- A synchronous throw from `action()` in `tryCatchAsync` is not a separate case. It is caught by the same `catch`, so it is modelled as a rejection.
- Stack-trace text is not modelled. It is engine-generated, so a caught Error's stack is whatever it holds and the synthesised stack is an opaque parameter.
- `instanceof` and prototype chains are not modelled, including custom subclasses and errors from other realms. They collapse into the choice between the `Err` variant and any other value.
- Getters on an Error that compute or throw are not modelled. Fields are plain data, and `message` and `name` are strings as TypeScript types them.
- Negative zero is not a separate value: `Num` holds a real, so -0 and 0 are one value. Both are falsy, so `|| null` treats them alike.
- Object identity, which the tests check with `toBe`, is modelled as structural equality of values.
- The action's own side effects are not modelled, and neither are the test harness and the `fetch` network test. The tests' concrete scenarios appear only as the lemmas listed above.
