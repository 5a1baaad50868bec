# Console-to-pino logging adapter, modelled in Dafny

The backend's logging module replaces the six console methods (`log`,
`info`, `warn`, `error`, `trace`, `debug`) with adapters that send every call
to a pino logger. Each adapter first normalises its variadic arguments with
`getLogParams`. That gives one structured "merging object" and one message
string:

- string arguments are joined into the message, one space apart, with
  leading whitespace trimmed;
- non-error objects are collected, in order, into `objects`, which is left
  out when there are none;
- the last `Error` argument becomes `err`;
- when the global `LOG_CONTEXT` flag is set, best-effort lookups of the
  tenant, app, identity and correlation id are attached.

`disableLogger` puts back the six console functions captured when the module
loaded.

Files:

- `wrappers.dfy`: `Option` (JavaScript's `undefined`) and `Result` (a call
  that returns or throws).
- `js_values.dfy`: argument values with their `typeof` tag and
  `instanceof Error` test, the ECMAScript whitespace set, and `trimStart`.
- `log_context.dfy`: the context store's possible answers and the three
  accessors that turn a throw into `undefined`.
- `log_params.dfy`: the three argument tests and the `forEach` fold, exactly
  as written. It also holds independent reference definitions (string texts
  joined by `" "`, the object filter, the last error found by scanning from
  the end), the proof that the fold computes them, and `getLogParams`.
- `log_params_properties.dfy`: the tests are independent, order is kept, the
  message stays trimmed, the last error wins, and worked examples.
- `console_overrides.dfy`: the adapters and level routing. It also models
  the console bindings, pino's record list and `disableLogger` as a small
  state machine.
- `console_overrides_properties.dfy`: install then restore is the identity,
  and calls reach pino exactly while the adapters are bound. Also the
  zero-argument `trace` and a failing context store.

Three points about the code's behaviour:

- The three tests are applied independently rather than as an if/else
  chain. Still, they never overlap: `typeof` string; `typeof` object,
  non-null, not an `Error`; and `instanceof Error`. So each argument feeds at
  most one bucket (`ClassificationIsExclusive`).
- Arrays and boxed strings count as objects.
- The correlation id lookup is not guarded, unlike the other three.

Determinism of the adapters holds by construction: they are pure functions
of their arguments and the ambient state.

## Model

| member | source | states |
|---|---|---|
| JsValues.TrimStart | packages/backend-core/src/logging/pino/logger.ts:89 | `trimStart` never lengthens a string and its result is empty or starts with a non-whitespace character |
| JsValues.TrimStartDropsOnlyWhitespace | packages/backend-core/src/logging/pino/logger.ts:89 | `trimStart` returns a suffix of its input, and every character it drops is whitespace |
| JsValues.TrimStartUnique | packages/backend-core/src/logging/pino/logger.ts:89 | those three properties pin `trimStart` down: any trimmed suffix preceded only by whitespace is its result |
| JsValues.TrimStartAbsorbs | packages/backend-core/src/logging/pino/logger.ts:87-90 | trimming the message after every step equals trimming once at the end: `(x.trimStart() + y).trimStart() == (x + y).trimStart()` |
| LogParams.IsPlainObject | packages/backend-core/src/logging/pino/logger.ts:66-68 | the `typeof`/null/`instanceof` test accepts exactly the non-error objects (arrays and boxed strings included), never `null`, a string or an error |
| LogParams.IsError | packages/backend-core/src/logging/pino/logger.ts:70-72 | the `instanceof Error` test accepts exactly the error objects |
| LogParams.IsMessage | packages/backend-core/src/logging/pino/logger.ts:74-76 | the `typeof` test accepts exactly the primitive strings |
| LogParams.StringsMembers | packages/backend-core/src/logging/pino/logger.ts:88-90 | a text is a message fragment exactly when some string argument carries it |
| LogParams.PlainObjectsMembers | packages/backend-core/src/logging/pino/logger.ts:91-93 | a value is collected into `objects` exactly when it is an argument and a non-error object |
| LogParams.LastErrorIndex | packages/backend-core/src/logging/pino/logger.ts:94-96 | the chosen index holds an error and no later argument is one; there is none exactly when no argument is an error |
| LogParams.LastErrorAppend | packages/backend-core/src/logging/pino/logger.ts:94-96 | last-wins across a concatenation: the second part's last error if it has one, else the first part's |
| LogParams.ForEachMessage | packages/backend-core/src/logging/pino/logger.ts:85-90 | after the loop the message is the trimmed start message followed by every string argument, each after one space, trimmed at the front |
| LogParams.ForEachObjects | packages/backend-core/src/logging/pino/logger.ts:91-93 | after the loop `objects` is the starting list followed by the object arguments in argument order |
| LogParams.ForEachErr | packages/backend-core/src/logging/pino/logger.ts:94-95 | after the loop `error` is the last error argument, or stays as it was when there is none |
| LogParams.FoldMatchesReference | packages/backend-core/src/logging/pino/logger.ts:83-97 | from the empty state the loop yields the trimmed single-space join of the strings, the ordered object filter and the last error |
| LogParams.GetLogParams | packages/backend-core/src/logging/pino/logger.ts:82-120 | the message is the trimmed join of the string arguments; `objects` is the ordered object filter, absent when empty; `err` is the last error; context fields are set only when `LOG_CONTEXT` is set, each from its accessor, identity fields absent when there is no identity |
| LogContext.BestEffort | packages/backend-core/src/logging/pino/logger.ts:160-188 | each of `getTenantId`, `getAppId` and `getIdentity` turns a throwing store into `undefined` and passes a returned value through unchanged |
| LogParamsProperties.ClassificationIsExclusive | packages/backend-core/src/logging/pino/logger.ts:66-76 | no argument passes two of the three tests; those passing none are exactly null, undefined, numbers, bigints, booleans, symbols and functions |
| LogParamsProperties.StringsAppend | packages/backend-core/src/logging/pino/logger.ts:87-90 | message fragments of a concatenated argument list are the fragments of each part, in order |
| LogParamsProperties.PlainObjectsAppend | packages/backend-core/src/logging/pino/logger.ts:91-93 | objects of a concatenated argument list are the objects of each part, in order |
| LogParamsProperties.ArgumentOrderKept | packages/backend-core/src/logging/pino/logger.ts:87-97 | an argument between two runs lands between their fragments or objects; an error placed last is the recorded one |
| LogParamsProperties.NonStringKeepsMessage | packages/backend-core/src/logging/pino/logger.ts:88-90 | inserting a non-string argument anywhere leaves the message unchanged (errors and objects never reach the message) |
| LogParamsProperties.NonObjectKeepsObjects | packages/backend-core/src/logging/pino/logger.ts:91-93 | inserting a string, error or primitive anywhere leaves `objects` unchanged |
| LogParamsProperties.NonErrorKeepsErr | packages/backend-core/src/logging/pino/logger.ts:94-96 | inserting a non-error anywhere leaves `err` unchanged |
| LogParamsProperties.DroppedArgumentIgnored | packages/backend-core/src/logging/pino/logger.ts:87-97 | null, undefined, numbers, booleans and the other primitives are dropped: the result is as if they were absent |
| LogParamsProperties.MessageTrimmedAtEveryStep | packages/backend-core/src/logging/pino/logger.ts:89 | after every prefix of the arguments the message is empty or starts with non-whitespace |
| LogParamsProperties.MessageKeepsInnerWhitespace | packages/backend-core/src/logging/pino/logger.ts:89 | the joined strings are some whitespace followed by the message, so inner and trailing whitespace survive |
| LogParamsProperties.OnlyStrings | packages/backend-core/src/logging/pino/logger.ts:82-119 | a call of strings only collects every text in order and records neither objects nor an error |
| LogParamsProperties.TwoErrorsLastWins | packages/backend-core/src/logging/pino/logger.ts:94-95 | with errors `e1, e2` in that order, `err` is `e2` |
| LogParamsProperties.SingleObject | packages/backend-core/src/logging/pino/logger.ts:82-120 | one object and no text gives an empty message, `objects == [obj]` and no error |
| LogParamsProperties.MixedCall | packages/backend-core/src/logging/pino/logger.ts:82-120 | `("User logged in", {…}, new Error())` gives that message, the one object and that error |
| LogParamsProperties.TotalContextFailure | packages/backend-core/src/logging/pino/logger.ts:99-117 | when every guarded lookup throws and no correlation id is set, the payload is still built, with no context field |
| ConsoleOverrides.FreshRef | packages/backend-core/src/logging/pino/logger.ts:148 | the new error's reference differs from every reference among the arguments |
| ConsoleOverrides.RunAdapter | packages/backend-core/src/logging/pino/logger.ts:122-156 | `log` and `info` go to `info`; `warn`, `error`, `debug` and `trace` go to the same-named level; the pair from `getLogParams` is forwarded unchanged, except that `trace` keeps the caller's error or else attaches a new error that is none of the arguments |
| ConsoleOverrides.Load | packages/backend-core/src/logging/pino/logger.ts:10-17 | the originals captured are the bindings before the module ran, and afterwards every entry point is bound to its own adapter |
| ConsoleOverrides.DisableLogger | packages/backend-core/src/logging/pino/logger.ts:45-52 | every entry point gets its captured original back; the originals and everything already logged are unchanged |
| ConsoleOverrides.Call | packages/backend-core/src/logging/pino/logger.ts:122-156 | a console call changes no binding and adds exactly one entry, to pino or to the original functions, keeping earlier entries |
| ConsoleOverridesProperties.RestoreAfterInstall | packages/backend-core/src/logging/pino/logger.ts:45-52 | loading the module then disabling the logger leaves all six bindings equal to those before loading |
| ConsoleOverridesProperties.DisableLoggerIdempotent | packages/backend-core/src/logging/pino/logger.ts:45-52 | disabling twice is disabling once |
| ConsoleOverridesProperties.InstalledCallReachesPino | packages/backend-core/src/logging/pino/logger.ts:122-156 | while an adapter is bound, a call appends exactly its record to pino and reaches no original function |
| ConsoleOverridesProperties.DisabledCallBypassesPino | packages/backend-core/src/logging/pino/logger.ts:45-52 | after disabling, a call adds nothing to pino and reaches the original function of its entry point |
| ConsoleOverridesProperties.TraceWithoutArguments | packages/backend-core/src/logging/pino/logger.ts:144-151 | `console.trace()` logs at trace level with an empty message, no objects and a new error |
| ConsoleOverridesProperties.AdaptersSurviveContextFailure | packages/backend-core/src/logging/pino/logger.ts:160-188 | every adapter still produces its record when the context store throws, with no context field |

## Left out

- Pino construction and options (lines 21-43): level from the environment, upper-cased level labels, empty bindings and the pino-pretty transport in development. These configure an external library; the sink is modelled as a list of `(level, payload, message)` records.
- The timestamp (line 31): it reads the clock and only shapes pino's output.
- The internals of `context.getTenantId`, `context.getAppId`, `context.getIdentity` and `correlation.getId`: those modules are not part of this model. Their answers are inputs (`ContextStore`).
- LogParams.GetLogParams: assumes `correlation.getId` never throws; it returns a value or `undefined`. Unlike the other three lookups, the source does not wrap it in `try` (line 109). If it did throw, every adapter call would throw too, and this is the only way a console call can raise. The model does not cover that path.
- The members of the identity-type enumeration: they belong to the shared types package and are kept opaque.
- Sink I/O, asynchronous transport and what the original console functions print: a reached original is only recorded as a `NativeCall`.
- The stack trace of the error that `trace` creates: only its presence is modelled, together with its distinctness from the call's arguments.
- ConsoleOverrides.FreshRef: the new error of `trace` is distinct from the arguments of the same call, not from every object in the process. It can equal an error logged by an earlier call, and two `console.trace()` calls give equal records. In JavaScript, `new Error()` differs from every existing object. The world keeps no allocation counter.
- Strings that are not valid Unicode: `Str` holds Unicode scalar values, while JavaScript strings are UTF-16 code units. A string with a lone surrogate therefore cannot be an argument here. On every string the model can represent, the fold behaves as in the source.
- Numeric values: a number is dropped whatever it is, so `Num` carries no value.
- A function whose prototype chain includes `Error.prototype`: `typeof` of such a value is "function", yet it is an `Error` instance. In the model every error is an ordinary object.
- A payload key holding `undefined` and an absent key are not distinguished. Both are `None`, and pino's JSON output drops both alike.
- Concurrent calls of `disableLogger` and the adapters: the model is sequential.
