# Kairo-Expo core logic, modelled in Dafny

Kairo-Expo is a mobile-app scaffold (a counter demo). Most of it is UI and SDK glue. This project models the small parts that are real logic:

- **Result algebra** (`src/core/utils/result.ts`): the `Ok | Err` union, with its constructors, tests and combinators. It is module `Results`, with the functor laws for `map` and `mapErr`.
- **Error classification** (`src/core/error/appError.ts`, `src/core/error/errorMapper.ts`): the ten-code `AppError` and its predicates, the `toJSON`/`fromJSON` pair, and the classifier. The classifier turns an HTTP client failure, or any thrown value, into an `AppError`. These are modules `AppErrors` and `ErrorMapper`. The failure shape they read is module `Transport`. The untyped JavaScript values they handle are module `JsValue`. The status switch follows the status codes of section 15 of RFC 9110.
- **Counter** (`src/features/counter/...`): the pure entity functions are module `CounterEntity`. The store is module `CounterStore`: a class `Store` with three mutable fields and six actions. Each action passes a partial record to the store's `set`, which merges it shallowly. The same behaviour is also given as values (`CounterState`, `Step`, `Run`), so that properties of action sequences can be proved. The unit tests' expectations are the methods of `CounterStoreScenarios`.
- **Logger** (`src/core/utils/logger.ts`): module `Logging`. The level ranking, the configuration defaults, `shouldLog` and `formatMessage`. The four level methods each return the console call they make, or None. `formatMessage` is paired with a parser, `ParseLine`, and the round trip is proved in both directions.

`Options` (an Option type) and `Text` (substring search, `indexOf`, ASCII `toUpperCase`) are helpers.

Parameters and abstractions:
- The clock reading inside `formatMessage` is the `timestamp` parameter.
- The development flag `isDev` that defaults `enabled` is a constructor parameter.
- JavaScript numbers are mathematical integers.
- `null` for the store's error is `None`.
- An absent `data` is `JsValue.Undefined`.

## Model

| member | source | states |
|---|---|---|
| `Results.MakeOk` | src/core/utils/result.ts:13-15 | `ok(v)` is tagged ok and carries exactly `v` |
| `Results.MakeErr` | src/core/utils/result.ts:17-19 | `err(e)` is tagged err and carries exactly `e` |
| `Results.TagTests` | src/core/utils/result.ts:21-27 | `isOk` holds of `ok(x)` and not of `err(e)`; `isErr` the reverse |
| `Results.TagsComplement` | src/core/utils/result.ts:21-27 | `isOk` and `isErr` are exact complements on every result |
| `Results.Unwrap` | src/core/utils/result.ts:29-34 | returns normally only on an Ok (precondition), and then gives back the carried value |
| `Results.UnwrapOr` | src/core/utils/result.ts:36-41 | the carried value on Ok, the default on Err |
| `Results.UnwrapOrCases` | src/core/utils/result.ts:36-41 | `unwrapOr(ok(x), d) == x` and `unwrapOr(err(e), d) == d` |
| `Results.UnwrapIsUnwrapOr` | src/core/utils/result.ts:29-41 | where `unwrap` returns, it agrees with `unwrapOr` for any default |
| `Results.Map` | src/core/utils/result.ts:43-51 | keeps the tag; applies `f` to a success value; passes an error through unchanged |
| `Results.MapIdentity` | src/core/utils/result.ts:43-51 | functor identity: `map(r, id) == r` |
| `Results.MapCompose` | src/core/utils/result.ts:43-51 | functor composition: `map(map(r, f), g) == map(r, g∘f)` |
| `Results.MapErr` | src/core/utils/result.ts:53-61 | keeps the tag; applies `f` to an error; passes a success value through unchanged |
| `Results.MapErrIdentity` | src/core/utils/result.ts:53-61 | `mapErr(r, id) == r` |
| `Results.MapErrCompose` | src/core/utils/result.ts:53-61 | `mapErr(mapErr(r, f), g) == mapErr(r, g∘f)` |
| `Results.MapMapErrCommute` | src/core/utils/result.ts:43-61 | `map` and `mapErr` commute |
| `JsValue.Or` | src/core/error/errorMapper.ts:23 | `a \|\| b` is `a` when `a` is truthy and `b` otherwise, so it is truthy iff either operand is |
| `JsValue.Get` | src/core/error/errorMapper.ts:23 | `data?.message` is the object's own field when present, otherwise `undefined` |
| `JsValue.FalsyValues` | src/core/error/errorMapper.ts:23 | the values `\|\|` skips are exactly `undefined`, `null`, `false`, `0` and `""` |
| `JsValue.TruthyTextNonEmpty` | src/core/error/appError.ts:46 | the `Error` constructor's string conversion of a truthy non-array value is non-empty |
| `JsValue.EmptyArrayTruthyButBlank` | src/core/error/appError.ts:46 | `[]` is truthy yet converts to "" |
| `JsValue.TextExamples` | src/core/error/appError.ts:46 | `String()` gives "42" and "-7" for numbers, "a,b" and ",1" for arrays, "[object Object]" for an object |
| `Text.Includes` | src/core/error/errorMapper.ts:10 | `message.includes(sub)` holds iff some position of `message` starts a copy of `sub` |
| `Text.Upper` | src/core/utils/logger.ts:36 | `toUpperCase` keeps the length and maps each character independently |
| `AppErrors.CodeOfText` | src/core/error/appError.ts:4-26 | a string reads as a code only if it is that code's enum value |
| `AppErrors.CodeTextRoundTrip` | src/core/error/appError.ts:4-26 | every enum value reads back as its own code, so the ten values are distinct |
| `AppErrors.NewAppError` | src/core/error/appError.ts:37-55 | the code defaults to `UNKNOWN`; status, payload and cause are copied from the options, and are absent without them |
| `AppErrors.ToJson` | src/core/error/appError.ts:99-107 | the JSON record's `name` is always "AppError" |
| `AppErrors.FromJson` | src/core/error/appError.ts:112-117 | an error read from JSON has no original error |
| `AppErrors.JsonRoundTrip` | src/core/error/appError.ts:99-117 | `fromJSON(toJSON(e))` keeps message, code, status and payload, and drops only `originalError` |
| `AppErrors.JsonRoundTripBack` | src/core/error/appError.ts:99-117 | `toJSON(fromJSON(j))` is `j` with its name set to "AppError" |
| `AppErrors.CategoryCodes` | src/core/error/appError.ts:60-94 | `isNetworkError` iff NETWORK_ERROR or TIMEOUT; `isServerError` iff SERVER_ERROR; `isAuthError` iff UNAUTHORIZED or FORBIDDEN, so not TOKEN_EXPIRED; `isValidationError` iff VALIDATION_ERROR; `isRetryable` iff a network code or SERVER_ERROR with status 503 or 504 |
| `AppErrors.RetryableClassified` | src/core/error/appError.ts:60-94 | retryable implies network or server error; every network error is retryable; a server error is retryable iff its status is 503 or 504 |
| `AppErrors.CategoriesDisjoint` | src/core/error/appError.ts:60-83 | network, server, auth and validation are pairwise disjoint; `TOKEN_EXPIRED`, `NOT_FOUND`, `CONFLICT` and `UNKNOWN` are in none of them and are not retryable |
| `AppErrors.IsAppErrorKinds` | src/core/error/appError.ts:123-125 | `isAppError` holds of a thrown `AppError` and of no client failure, other `Error` or plain value |
| `ErrorMapper.CodeForStatus` | src/core/error/errorMapper.ts:25-70 | 400 → validation, 401 → unauthorized, 403 → forbidden, 404 → not found, 500/502/503/504 → server error, each iff; every other status → unknown |
| `ErrorMapper.TimeoutSignalCases` | src/core/error/errorMapper.ts:10 | the timeout sign holds iff the code is "ECONNABORTED" or "timeout" occurs somewhere in the message |
| `ErrorMapper.StatusClasses` | src/core/error/errorMapper.ts:25-70 | client-error codes come only from 4xx statuses, `SERVER_ERROR` only from 5xx; the status switch never yields network, timeout, token-expired or conflict |
| `ErrorMapper.WithFallback` | src/core/error/errorMapper.ts:34-58 | a non-empty message is kept; an empty one becomes the branch's fallback on 401/403/404/5xx and stays "" on 400 and the default branch |
| `ErrorMapper.ResponseMessage` | src/core/error/errorMapper.ts:23 | the body's non-empty string `message`, else the client's non-empty message, else "An error occurred"; never empty |
| `ErrorMapper.FallbacksUnreachable` | src/core/error/errorMapper.ts:23-70 | the per-status fallback messages never apply |
| `ErrorMapper.ResponseMessageAsWritten` | src/core/error/errorMapper.ts:23-70 | as written: when the body's `message` is a string or falsy, the result agrees with `ResponseMessage`; when it is truthy and not a string, the result is `String(message)` |
| `ErrorMapper.BlankMessageFromArrayBody` | src/core/error/errorMapper.ts:23 | as written, a body `{"message": []}` yields an empty message |
| `ErrorMapper.MapAxiosError` | src/core/error/errorMapper.ts:7-71 | no response: timeout ("Request timeout. Please try again.") iff "ECONNABORTED" or "timeout" in the message, else network error ("Network error. Please check your connection."), with no status and no payload. With a response: the status's code, that status, that payload and the response message. Always keeps the failure as cause, with a non-empty message |
| `ErrorMapper.ClassifierRange` | src/core/error/errorMapper.ts:7-71 | the classifier never produces `TOKEN_EXPIRED` or `CONFLICT` |
| `ErrorMapper.MappedRetryable` | src/core/error/errorMapper.ts:7-71 | a classified failure is retryable iff no response arrived or the status was 503 or 504 |
| `ErrorMapper.MappedNetworkError` | src/core/error/errorMapper.ts:9-19 | a classified failure is a network error iff no response arrived |
| `ErrorMapper.TimeoutMessageExample` | src/core/error/errorMapper.ts:9-14 | no response with "timeout of 5000ms exceeded" gives `TIMEOUT` without status |
| `ErrorMapper.NetworkErrorExample` | src/core/error/errorMapper.ts:16-18 | no response, code "ERR_NETWORK", message "Network Error" gives `NETWORK_ERROR` |
| `ErrorMapper.StatusExamples` | src/core/error/errorMapper.ts:25-70 | 404 gives `NOT_FOUND` with status 404; 418 and 409 give `UNKNOWN` |
| `ErrorMapper.MapError` | src/core/error/errorMapper.ts:76-98 | an `AppError` is returned as is. A client failure is classified. A plain `Error` gives `UNKNOWN` with its message, as cause. Any other value gives `UNKNOWN`, "An unexpected error occurred", with that value as payload |
| `ErrorMapper.MapErrorIdempotent` | src/core/error/errorMapper.ts:76-80 | mapping an already mapped error changes nothing |
| `Logging.RankValues` | src/core/utils/logger.ts:10-15 | `LOG_LEVELS`: debug 0, info 1, warn 2, error 3 |
| `Logging.RankTotalOrder` | src/core/utils/logger.ts:10-15 | ranks are distinct and order debug < info < warn < error |
| `Logging.ResolveConfig` | src/core/utils/logger.ts:20-25 | given fields are kept; `enabled` defaults to the development flag and `minLevel` to debug |
| `Logging.FormatMessage` | src/core/utils/logger.ts:34-37 | the line is nine characters longer than its parts and ends with the message |
| `Logging.UpperNames` | src/core/utils/logger.ts:36 | the level appears as DEBUG, INFO, WARN or ERROR |
| `Logging.FormatParseRoundTrip` | src/core/utils/logger.ts:34-37 | `[ts] [LEVEL] [tag] message` reads back to exactly its parts when `ts` and `tag` hold no `]` |
| `Logging.ParseFormatRoundTrip` | src/core/utils/logger.ts:34-37 | every line the parser accepts is the formatted line of the parts it returns |
| `Logging.Logger.constructor` | src/core/utils/logger.ts:20-25 | the configuration is the resolved partial configuration, fixed for the logger's life |
| `Logging.ShouldLogIff` | src/core/utils/logger.ts:27-32 | `shouldLog(level)` holds iff enabled and the level's rank is at least the minimum's |
| `Logging.Logger.Debug` | src/core/utils/logger.ts:39-43 | writes to `console.log`, with the formatted debug line and the extra arguments, iff `shouldLog('debug')` |
| `Logging.Logger.Info` | src/core/utils/logger.ts:45-49 | writes to `console.info` iff `shouldLog('info')` |
| `Logging.Logger.Warn` | src/core/utils/logger.ts:51-55 | writes to `console.warn` iff `shouldLog('warn')` |
| `Logging.Logger.Error` | src/core/utils/logger.ts:57-61 | writes to `console.error` iff `shouldLog('error')` |
| `Logging.DisabledLogsNothing` | src/core/utils/logger.ts:27-32 | with `enabled` false no level is logged |
| `Logging.ShouldLogMonotone` | src/core/utils/logger.ts:10-32 | if a level is logged, every higher-ranked level is logged |
| `Logging.EnabledThreshold` | src/core/utils/logger.ts:27-32 | when enabled, a level is logged iff its rank is at least the minimum's; error always is |
| `Logging.DefaultsPassEverything` | src/core/utils/logger.ts:20-32 | with the default configuration every level is logged iff the development flag is set |
| `CounterEntity.CreateCounter` | src/features/counter/domain/entities/counter.ts:5-7 | the counter holds the given value, or 0 when none is given |
| `CounterEntity.IncrementCounter` | src/features/counter/domain/entities/counter.ts:9-11 | the value grows |
| `CounterEntity.DecrementCounter` | src/features/counter/domain/entities/counter.ts:13-15 | the value shrinks, with no lower bound |
| `CounterEntity.ResetCounter` | src/features/counter/domain/entities/counter.ts:17-19 | the same counter as `createCounter()`, whatever came before |
| `CounterEntity.SetCounterValue` | src/features/counter/domain/entities/counter.ts:21-23 | the same counter as `createCounter(v)` |
| `CounterEntity.StepByOne` | src/features/counter/domain/entities/counter.ts:9-15 | increment adds exactly 1, decrement subtracts exactly 1 |
| `CounterEntity.IncrementDecrementInverse` | src/features/counter/domain/entities/counter.ts:9-15 | increment and decrement undo each other in either order |
| `CounterStore.Merge` | src/features/counter/presentation/stores/useCounterStore.ts:23 | `set(patch)` overwrites exactly the fields present in the patch |
| `CounterStore.PatchFields` | src/features/counter/presentation/stores/useCounterStore.ts:26-31 | the patch of inc, dec and setValue names only the value, setLoading only the flag, setError only the error; reset's patch is `initialState` itself |
| `CounterStore.Step` | src/features/counter/presentation/stores/useCounterStore.ts:26-31 | each action changes only its own field(s); reset gives the initial state |
| `CounterStore.IncDecNet` | src/features/counter/presentation/stores/useCounterStore.ts:26-27 | a run of increments and decrements moves the value by #inc − #dec and leaves loading flag and error alone |
| `CounterStore.IncDecFromInitial` | src/features/counter/presentation/stores/useCounterStore.ts:17-27 | from the initial state such a run ends at value #inc − #dec, not loading, no error |
| `CounterStore.ResetRestores` | src/features/counter/presentation/stores/useCounterStore.ts:28 | after any actions, a reset restores (0, false, null) |
| `CounterStore.ValueChangesOnlyByValueActions` | src/features/counter/presentation/stores/useCounterStore.ts:26-31 | only inc, dec, reset and setValue change the value |
| `CounterStore.AgreesWithEntity` | src/features/counter/presentation/stores/useCounterStore.ts:26-29 | the store's value arithmetic is the counter entity's |
| `CounterStore.Store.constructor` | src/features/counter/presentation/stores/useCounterStore.ts:17-24 | the store starts at (0, false, null) |
| `CounterStore.Store.Set` | src/features/counter/presentation/stores/useCounterStore.ts:23 | the fields become the shallow merge of the old state and the patch |
| `CounterStore.Store.Inc` | src/features/counter/presentation/stores/useCounterStore.ts:26 | value becomes old + 1; loading flag and error unchanged |
| `CounterStore.Store.Dec` | src/features/counter/presentation/stores/useCounterStore.ts:27 | value becomes old − 1; loading flag and error unchanged |
| `CounterStore.Store.Reset` | src/features/counter/presentation/stores/useCounterStore.ts:28 | all three fields return to (0, false, null) in one update |
| `CounterStore.Store.SetValue` | src/features/counter/presentation/stores/useCounterStore.ts:29 | value becomes `v`; the rest unchanged |
| `CounterStore.Store.SetLoading` | src/features/counter/presentation/stores/useCounterStore.ts:30 | only the loading flag changes |
| `CounterStore.Store.SetError` | src/features/counter/presentation/stores/useCounterStore.ts:31 | only the error changes, including back to null |
| `CounterStoreScenarios.InitializesWithDefaults` | __tests__/features/counter/presentation/useCounterStore.test.ts:8-13 | a new store reads (0, false, null) |
| `CounterStoreScenarios.IncrementsValue` | __tests__/features/counter/presentation/useCounterStore.test.ts:15-21 | 1 after one increment, 2 after two |
| `CounterStoreScenarios.DecrementsValue` | __tests__/features/counter/presentation/useCounterStore.test.ts:23-27 | setValue(5) then dec gives 4 |
| `CounterStoreScenarios.AllowsNegativeValues` | __tests__/features/counter/presentation/useCounterStore.test.ts:29-32 | one dec from the start gives −1 |
| `CounterStoreScenarios.ResetsToInitialState` | __tests__/features/counter/presentation/useCounterStore.test.ts:34-44 | after setValue, setError and setLoading, reset gives (0, false, null) |
| `CounterStoreScenarios.SetsValueDirectly` | __tests__/features/counter/presentation/useCounterStore.test.ts:46-49 | setValue(42) gives 42 |
| `CounterStoreScenarios.SetsLoadingState` | __tests__/features/counter/presentation/useCounterStore.test.ts:51-57 | the loading flag follows setLoading both ways |
| `CounterStoreScenarios.SetsErrorState` | __tests__/features/counter/presentation/useCounterStore.test.ts:59-65 | the error follows setError, including back to null |
| `CounterStoreScenarios.ErrorKeepsValue` | src/features/counter/presentation/stores/useCounterStore.ts:29-31 | setError after setValue(5) leaves the value 5 |

## Left out

- `tryCatch` (src/core/utils/result.ts:63-72) is asynchronous (Promise-based) and is not modelled.
- Results.Unwrap: the throwing path on an `Err` is modelled as the precondition `IsOk`, not as an exception.
- ErrorMapper.MapAxiosError: uses the corrected message choice of `ResponseMessage`. The source's choice is modelled separately as `ResponseMessageAsWritten` (see Findings). The two differ only when the body's `message` is a truthy value that is not a string.
- `JsValue.Get` models only an object's own data fields. Built-in properties such as an array's `length` are not modelled; the source reads only `message`.
- Numbers are unbounded integers: floating point, `NaN` and `-0` are not modelled.
- The `Error` base class's `stack` and the prototype-chain fix in the `AppError` constructor are not modelled. `instanceof` is the constructor of the `Thrown` value.
- The store's subscription and notification machinery (zustand's `create`, `subscribe`, the React hook) is not modelled; only the shallow-merge `set` is.
- Logger: console output is returned as an `Emission` value, not performed. The `new Date().toISOString()` clock reading is a parameter. The shared `logger` instance and `createLogger(tag)` are not modelled: they fix a tag and forward to the level methods.
- Text.Upper maps ASCII letters only; it is applied only to the four lower-case ASCII level names.
- src/core/network/httpClient.ts is not part of this model. It is an HTTP client with interceptors; its only logic, wrapping a failure as `err(mapError(e))`, is `Results.MakeErr` of `ErrorMapper.MapError`.
- src/core/storage/keyValueStorage.ts, src/core/error/errorReporter.ts, the UI components, the configuration, i18n and build files are not part of this model. They are wrappers over foreign SDKs, or presentation.
- The counter repository interface (src/features/counter/domain/repositories/counterRepository.ts) has no implementation and is not modelled.

## Findings

| source | as written | input that shows it | evidently intended | confidence | as-written member | corrected member |
|---|---|---|---|---|---|---|
| src/core/error/errorMapper.ts:23 | the message is `data?.message \|\| error.message \|\| 'An error occurred'` over an untyped body, so any truthy `message` is kept and then converted to a string by the `Error` constructor | a 400 response whose body is `{"message": []}`: `[]` is truthy, so it is chosen, and it converts to "", leaving the `AppError` with an empty message | use the body's `message` only when it is a non-empty string, so the message is never empty | not executed; medium | `ErrorMapper.ResponseMessageAsWritten`, `ErrorMapper.BlankMessageFromArrayBody` | `ErrorMapper.ResponseMessage` |
