# micro-logger-logrus, modelled in Dafny

This project models the adapter that lets the micro `logger` facade be backed by logrus. The
adapter, `logrusLogger`, holds an `Options` record and a handle on a logrus `*Logger` or
`*Entry`. The model covers:

- **Level translation.** `loggerToLogrusLevel` and `logrusToLoggerLevel` are total switches
  between the facade's six levels and logrus's levels. Each falls back to Info.
- **Construction and `Init`.** `NewLogger` builds the default options. `Init` then:
  - applies its option functions;
  - reads the formatter, hooks, report-caller flag and exit function out of the option bag;
  - dispatches on what is stored under `loggerKey`. A full logger is adopted and its settings
    are copied back into the options. An entry is adopted with its parent's settings. Nothing
    stored (or a nil interface) builds a fresh logger from the options. Anything else is an
    error.
- **Gating and fields.** `V` asks the handle's logger whether a level is enabled and is true
  when there is no logger or entry. `Log`/`Logf` delegate exactly when `V` holds. `Fields`
  turns alternating keys and values into a map and wraps a derived entry in a new adapter.
- **options.go.** The `Options` record and the option constructors, each storing under its own
  key.

Files and modules:

- `go.dfy` (`Go`): opaque Go values. These are `io.Writer`, `func(int)` and `interface{}`
  values.
- `facade.dfy` (`Facade`): the facade's `logger.Level`.
- `logrus_lib.dfy` (`Logrus`): a surrogate for the logrus library.
  - `Level`, `Formatter`, `LevelHooks`.
  - `Logger` and `Entry` classes, with the setters, `WithFields`, `Log` and `Logf` that the
    adapter calls.
  - A logger or entry only records the calls it receives.
  - `IsLevelEnabled`'s ordering is a parameter, `gate: (configured, requested) -> bool`.
- `levels.dfy` (`Levels`): the two translators and their round trips.
- `options.dfy` (`LogrusOptions`): options.go, plus the facade option record it relies on.
  - The option bag (a `context.Context` in the source) is a record with one `Option` slot per
    key.
  - `SetOption` overwrites one slot, so a later store under a key wins.
- `adapter.dfy` (`LogrusAdapter`): logrus.go.
  - `LogrusLogger` is a class with `handle` and `opts` fields.
  - `Init` changes them in place.
  - Pure functions (`Merged`, `Adopt`, `Configure`, `FieldMap`) state what `Init` and `Fields`
    compute.
- `scenarios.dfy` (`Scenarios`): clients that use only the contracts. They follow the
  situations set up in logrus_test.go.

Three behaviours of the source are easy to miss:

- **Failed `Init` is not side-effect free.** On an unsupported type under `loggerKey`, `Init`
  returns the error after it has already changed `opts`. It has applied the option functions
  and the bag's formatter, hooks, caller flag and exit function (logrus.go:36-51). It leaves
  the handle as it was, which is a previous handle if `Init` ran before. `LogrusLogger.Init`
  states exactly this.
- **A supplied logger keeps winning.** The logger stored under `loggerKey` stays in the bag. So
  every later `Init` adopts it again and overrides a `WithLevel` passed to that `Init`
  (`Scenarios.SuppliedLoggerScenario`).
- **Bag options take effect at `Init`.** `NewLogger` does not read the bag. A formatter, hooks,
  caller flag or exit function given to `NewLogger` takes effect only at the next `Init`, even
  an `Init` without arguments.

## Model

| member | source | states |
|---|---|---|
| `Levels.LoggerToLogrusLevel` | logrus.go:193-210 | total; the result is always one of the six recognised logrus levels, never Panic; an unlisted facade level goes to Info |
| `Levels.LogrusToLoggerLevel` | logrus.go:212-229 | total; the result is always one of the six listed facade levels; Panic and any unlisted logrus level go to Info |
| `Levels.LoggerLevelRoundTrip` | logrus.go:193-229 | for each of Trace, Debug, Info, Warn, Error, Fatal, facade → logrus → facade is the identity |
| `Levels.LogrusLevelRoundTrip` | logrus.go:193-229 | for each of the six recognised logrus levels, logrus → facade → logrus is the identity |
| `Levels.SixWayCorrespondence` | logrus.go:193-229 | the forward map is injective on the six facade levels and reaches every one of the six logrus levels |
| `Levels.UnlistedTranslatesAsInfo` | logrus.go:207-208 | an unlisted facade level is translated exactly as Info is |
| `LogrusOptions.Store` | options.go:18-52 | storing a setting makes its own key's lookup find it and leaves the lookup of every other key unchanged |
| `LogrusOptions.WithTextTextFormatter` | options.go:20-22 | stores the text formatter under `formatterKey` |
| `LogrusOptions.WithJSONFormatter` | options.go:24-26 | stores the JSON formatter under the same `formatterKey` |
| `LogrusOptions.WithLevelHooks` | options.go:30-32 | stores the hooks under `hooksKey` |
| `LogrusOptions.ReportCaller` | options.go:38-40 | stores `true`, never `false`, under `reportCallerKey` |
| `LogrusOptions.WithExitFunc` | options.go:44-46 | stores the exit function under `exitKey` |
| `LogrusOptions.WithLogger` | options.go:50-52 | stores its argument under `loggerKey` |
| `LogrusOptions.OneFormatterSlot` | options.go:18-26 | text and JSON formatter options share one slot: whichever is applied last is the one found |
| `LogrusOptions.UntouchedKeyKeepsValue` | options.go:18-48 | keys are independent: any run of options none of which stores under key k leaves the lookup of k as it was |
| `LogrusOptions.LastStoreWins` | logrus.go:36-38 | after a run of options, a key's lookup finds what the last option storing under that key stored |
| `LogrusOptions.LevelKeptWithoutWithLevel` | logrus.go:36-38 | options without a `WithLevel` leave the level unchanged |
| `LogrusOptions.LastLevelWins` | logrus.go:36-38 | the level after a run of options is the one given by the last `WithLevel` |
| `LogrusAdapter.LastWithLoggerIsDispatched` | logrus.go:53 | `Init` dispatches on the argument of the last `WithLogger` applied |
| `LogrusAdapter.OtherOptionsKeepDispatch` | logrus.go:36-53 | options that do not store under `loggerKey` never change what `Init` dispatches on |
| `LogrusAdapter.AdoptionIsAuthoritative` | logrus.go:54-72 | after adopting a logger, all six settings depend on the logger alone and not on the options they replace (no mix of the two sources); the bag is kept |
| `LogrusAdapter.AdoptedOptionsReflectLogger` | logrus.go:56-61 | the adopted options, configured back into logrus settings, equal the logger's own settings when its level is recognised; a Panic or unlisted level is reported as Info |
| `LogrusAdapter.ConfigureThenAdopt` | logrus.go:56-80 | building a logger from options whose level is listed and adopting it back gives the same options |
| `LogrusAdapter.ReportCallerOnlyTurnsOn` | logrus.go:46-48 | the merged report-caller flag is on exactly when it was on or the bag holds `true`; a stored `false` never clears it |
| `LogrusAdapter.ReportCallerSlotStaysTrue` | options.go:38-40 | once `ReportCaller()` is applied, and while it is the only option storing under its key, the slot holds `true` |
| `LogrusAdapter.ReportCallerOptionTakesEffect` | logrus.go:46-48 | passing `ReportCaller()` (to `NewLogger` or `Init`) makes `Init` turn caller reporting on |
| `LogrusAdapter.LastFormatterOptionWins` | logrus.go:40-42 | the formatter `Init` settles on before dispatch is the one stored by the last formatter option |
| `LogrusAdapter.NewLoggerDefersBag` | logrus.go:181-191 | `NewLogger` starts from a text formatter, no hooks, no caller report and `os.Exit`, whatever options it gets |
| `LogrusAdapter.ConstructorFormatterReachesInit` | logrus.go:35-42 | a formatter given to `NewLogger` is the one a following `Init` without options settles on |
| `LogrusAdapter.FieldMapKeys` | logrus.go:103-107 | a string is a key of the built map exactly when it stands at some even position of the list |
| `LogrusAdapter.FieldMapLastWins` | logrus.go:103-107 | each key maps to the value after its last occurrence: a later duplicate wins |
| `LogrusAdapter.LogrusLogger.V` | logrus.go:89-97 | true when the handle is neither a logger nor an entry; otherwise the gate applied to the handle's (or the entry's parent's) configured level and the translated requested level |
| `LogrusAdapter.LogrusLogger.String` | logrus.go:99-101 | the name is `"logrus"` |
| `LogrusAdapter.LogrusLogger.Options` | logrus.go:175-178 | returns the facade part of the options only; formatter, hooks, caller flag and exit function are not returned |
| `LogrusAdapter.LogrusLogger.ReadBag` | logrus.go:40-51 | the options after the typed bag lookups are `BagOverrides` of the options before |
| `LogrusAdapter.LogrusLogger.Init` | logrus.go:35-87 | a logger under `loggerKey` becomes the handle, and all six settings come from it; an entry becomes the handle, and the settings come from its parent; nothing or nil gives a fresh handle configured from the merged options (translated level, output, formatter, hooks, caller flag, exit function); any other type gives `InvalidLogrusType`, the handle is unchanged and the options are left merged |
| `LogrusAdapter.BuildLogger` | logrus.go:73-81 | a fresh logger whose six settings are those configured from the options and which has received no calls |
| `LogrusAdapter.LogrusLogger.Fields` | logrus.go:103-109 | a fresh adapter with the same options around a fresh entry of the handle's logger, carrying the handle's fields overridden by the built map; the receiver is unchanged |
| `LogrusAdapter.LogrusLogger.Log` | logrus.go:159-165 | the handle receives exactly one call, at the translated level, when `V` holds, and nothing otherwise |
| `LogrusAdapter.LogrusLogger.Logf` | logrus.go:167-173 | as `Log`, for a format and its arguments |
| `LogrusAdapter.NewLogger` | logrus.go:180-191 | a fresh adapter with no handle and the default options with the facade options applied |
| `Scenarios.SetLevelScenario` | logrus_test.go:114-127 | after `Init(WithLevel(Debug))` a Debug call is gated on Debug; after `Init(WithLevel(Info))` it is gated on Info: re-initialising replaces the handle |
| `Scenarios.SuppliedLoggerScenario` | logrus_test.go:80-90 | with a logger supplied, `Init` succeeds; the reported level is the logger's own, a `WithLevel` passed to `Init` notwithstanding, and `V` is the logger's level check |
| `Scenarios.InvalidTypeScenario` | logrus.go:82-83 | an unsupported type under `loggerKey` makes `Init` fail with `InvalidLogrusType` carrying the type, and no handle is set |
| `Scenarios.FieldsScenario` | logrus_test.go:14-25 | after `Fields("key", "val")`, the new entry carries exactly `key = val`, and an Info call reaches it exactly when Info is enabled at level Trace |

## Left out

- Logrus internals are not modelled. This covers what a logger does with a call it receives:
  its own level check, formatting, writing to `Out` and running hooks. A logger or entry only
  records the calls it receives.
- The adapter's `ExitFunc` is only stored and handed on. The adapter sends Fatal through
  `Log`/`Logf` (logrus.go:164, logrus.go:172), never through logrus's own `Fatal`, so whether
  the exit function ever runs is logrus's business and is not modelled.
- `IsLevelEnabled`'s concrete ordering is left out. It is the `gate` parameter, a relation
  between the configured and the requested level.
- The forwarders `Trace`, `Tracef`, `Debug`, `Debugf`, `Info`, `Infof`, `Warn`, `Warnf`, `Error`,
  `Errorf`, `Fatal` and `Fatalf` (logrus.go:111-157) are left out. Each is `Log` or `Logf` with
  a fixed level.
- The `context.Context` argument of every logging call is left out. The adapter never uses it.
- `fmt` formatting of arguments is left out. A call records its arguments, or its format and
  arguments, unformatted.
- The `%T` text of the `Init` error is left out. The error is a distinct result carrying the
  offending type's name.
- The facade's `logger.Options`, `logger.Option`, `logger.NewOptions` and `logger.SetOption` are
  not part of this model.
  - They are represented by a record holding the level, the output and a typed option bag.
  - The record's options are `WithLevel`, `WithOutput` and `SetOption`.
  - `NewOptions` is taken to start from level Info, `os.Stderr` and an empty bag.
  - The facade's other options (name, fields, caller skip, …) are not represented.
  - An option is any function on `logger.Options` (logrus.go:37), so one could replace
    `Context` and with it the whole bag, including a stored logger. Such an option is not
    representable here. That is why keys stay independent in `UntouchedKeyKeepsValue` and
    `OtherOptionsKeepDispatch`.
- Typed nil pointers stored under a key are left out. A nil `*logrus.Logger` would be accepted
  by the type switch and then dereferenced. A `WithLogger(nil)` interface is modelled, as
  `Prebuilt.Nil`.
- Calling `Log`, `Logf` or `Fields` before `Init` is excluded by a precondition. With no
  handle, the source dereferences a nil interface and panics.
- Odd-length input to `Fields`, and a non-string key, are excluded by a precondition. The
  source panics on both.
- Logrus's `WithFields` drops certain values, such as function-typed ones. The surrogate keeps
  every field.
- `logrus.LevelHooks` is a Go map, shared by reference, and it is modelled as a value.
  - One map can be held at once by the caller of `WithLevelHooks`, the bag, the adapter's
    options and the built logger (options.go:31, logrus.go:44, logrus.go:78).
  - On adoption, the adapter's options hold the adopted logger's own map (logrus.go:59,
    logrus.go:69).
  - Changes made to that map elsewhere are not reflected in the model. Examples are the caller
    adding to its map or `AddHook` on an adopted logger. Such changes only affect which hooks
    run, and running hooks is left out.
- `NewLogger` and `logrus.New` allocate a new `TextFormatter` on each call. Both take the one
  text formatter of the environment parameter. The same parameter supplies `os.Stderr` and
  `os.Exit`.
- The process-wide `logger.DefaultLogger` is left out, along with the package-level `logger.Info`
  and `logger.Init` helpers the tests go through. They belong to the facade.
- Concurrency is left out. The adapter is sequential, and thread safety is logrus's concern.
