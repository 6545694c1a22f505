# gentools decorator synthesis, modelled in Dafny

gentools generates Go "middleware" for an interface: a wrapper type that holds
the real implementation (`next`) and adds one concern around each call.
This project models how two of its generators build each wrapper:

- `logen` logs a non-nil trailing `error`, through go-kit's `log` or through `zap`;
- `tracegen` opens an OpenCensus span for methods whose first parameter is a `context.Context`.

Given one interface method's signature, the generator decides which Go
statements the wrapper gets and in what order. The model covers that logic.

The Go syntax the generators emit is a small datatype slice (`GoAst`): type expressions,
expressions, statements, fields and declarations. Two queries give meaning to where
code sits. `Occurs` says where a sub-expression appears. `Unguarded` says where it
appears outside the body of an `if <guard> { … }` (the guard itself is always evaluated, so a use there counts). With them, "the logger is only called when
the error is non-nil" is a statement about the generated tree.

The shared `astgen` machinery is reduced to what its callers rely on (`AstGen`):
- a per-method signature record;
- an output file whose import table hands out `alias1`, `alias2`, … in first-use order;
- a method builder that appends statements.

Where the source mutates an object (the tracegen model, the method builders, the
import table, the invocation builders), the model is a class with `modifies`
clauses. The statements each builder produces are specified by pure functions.
The properties are lemmas about those functions.

Modules: `Wrappers`, `GoAst`, `AstGen`, `LogenNames` (logen's command-line side),
`Logen` (shared builders of cmd/logen/main.go), `LogenZap`, `LogenKitLog`,
`LogenBuilder` (the per-method logging builder), `Tracegen`.

Three behaviours of the code worth noting:
- The return builder always emits a `return` statement. For a method without results it is a bare `return`, not no statement.
- logen's forwarding call never spreads a variadic argument. Only tracegen's does; `Tracegen.OnlyTracegenSpreads` states the difference. For a method `M(xs ...string)`, logen therefore emits `m.next.M(xs)`, which passes a slice where strings are expected.
- A third positional argument selects the logger only when there are exactly three arguments. With more, the default is kept.

## Model

| member | source | states |
|---|---|---|
| `LogenNames.IsLoggerSupported` | cmd/logen/main.go:22-35 | true exactly when the name is in the supported list, i.e. is `go_kit_log` or `zap` |
| `LogenNames.ParseArgs` | cmd/logen/main.go:54-76 | fewer than two arguments fails; a failing absolute-path lookup fails with its cause; exactly three arguments with an unsupported third fails naming it; otherwise succeeds with the absolute directory, the interface name and the third argument when there are exactly three, else the default `go_kit_log` |
| `LogenNames.ToSnakeCase` | cmd/logen/main.go:419-431 | the loop computes the snake-case specification `SnakeCase` of its input |
| `LogenNames.SnakeLength` | cmd/logen/main.go:419-431 | output length is input length plus the number of word boundaries |
| `LogenNames.SnakeAt` | cmd/logen/main.go:423-428 | input rune i appears lower-cased at position i plus the boundaries up to i, with an `_` right before it at every boundary |
| `LogenNames.SnakeLowerCase` | cmd/logen/main.go:427 | no upper-case letter is left in the output |
| `LogenNames.SnakeDropsToLower` | cmd/logen/main.go:419-431 | for an input without underscores, deleting the output's underscores gives the lower-cased input |
| `LogenNames.Filename` | cmd/logen/main.go:136-138 | `logging_` + snake case of the interface name + `.go`, with the resulting length and no upper-case letter |
| `Logen.ContextArgName` | cmd/logen/main.go:313-328 | (first parameter's first name, true) iff there is a first parameter of type `<contextAlias>.Context`; ("", false) otherwise |
| `Logen.MethodInvocation.constructor` | cmd/logen/main.go:339-341 | a new builder for the given method, receiver unset |
| `Logen.MethodInvocation.SetReceiver` | cmd/logen/main.go:335-337 | sets the receiver |
| `Logen.MethodInvocation.Build` | cmd/logen/main.go:343-373 | its loops produce `Invocation(receiver, method)` |
| `Logen.InvocationCaptures` | cmd/logen/main.go:343-373 | with results: one `:=` whose left side is the results' first names in order and whose right side is exactly the delegate call; without: a bare statement holding exactly that call |
| `Logen.DelegateCallForwards` | cmd/logen/main.go:349-360 | the call is `<receiver>.<Method>` with the parameters' first names in order and no spread |
| `Logen.ReturnResults.constructor` | cmd/logen/main.go:379-381 | a builder for the given method |
| `Logen.ReturnResults.Build` | cmd/logen/main.go:383-392 | its loop produces `ReturnOf(method)` |
| `Logen.ReturnListsResults` | cmd/logen/main.go:383-392 | always a `return`, listing the results' first names in declared order, empty exactly when there are no results |
| `Logen.ReturnMatchesCapture` | cmd/logen/main.go:343-392 | the return lists exactly the variables the invocation captured |
| `Logen.StartTimeRecorder` | cmd/logen/main.go:402-417 | defines `_start` alone from `<timeAlias>.Now()` with no arguments |
| `Logen.ErrorLoggingConstructorShape` | cmd/logen/main.go:173-252 | `NewErrorLogging<I>` takes `next`, `logger` and variadic `fields`, returns the interface type; body installs the default provider, uses `fields[0]` only under `len(fields) > 0`, then returns |
| `Logen.ContextFieldsSlotsSpec` | cmd/logen/zap.go:32-78 | both slots are empty iff there is no context parameter; otherwise `_more := m.fields(ctx, err)`, context first, then an append that occurs only under `len(_more) > 0` |
| `LogenZap.GetZapLoggerInfo` | cmd/logen/zap.go:9-27 | imports `go.uber.org/zap` then `go.uber.org/zap/zapcore`; name `zap`, logger type `*<zap>.Logger`, field type `<zapcore>.Field` |
| `LogenZap.ZapImportedBeforeCore` | cmd/logen/zap.go:10-11 | on a file importing neither, `zap` takes the slot right before `zapcore` |
| `LogenZap.ConditionalLogMessageStatementZap` | cmd/logen/zap.go:29-138 | a single `if err != nil` holding the shared four-statement skeleton, zap base fields and the `Error` log call |
| `LogenZap.ZapFieldsAndCall` | cmd/logen/zap.go:80-122 | exactly two base fields, `String("method", <quoted method>)` then `Error(err)`; the log call is `m.logger.Error("<method> failed", _fields...)` with the message first |
| `LogenZap.ZapGuards` | cmd/logen/zap.go:51-77 | the logger is used, never outside `if err != nil`, and the append never outside `len(_more) > 0` |
| `LogenKitLog.ConditionalLogMessageStatementKitLog` | cmd/logen/gokitlog.go:9-106 | a single `if err != nil` holding the shared four-statement skeleton, go-kit base fields and the `Log` call |
| `LogenKitLog.KitLogFieldsAndCall` | cmd/logen/gokitlog.go:60-91 | four base fields of `[]interface{}`: `"method"`, quoted method, `"error"`, `err.Error()`; the log call is `m.logger.Log(_fields...)` with no message |
| `LogenKitLog.KitLogGuards` | cmd/logen/gokitlog.go:33-106 | the logger is used, never outside `if err != nil`, and the append never outside `len(_more) > 0` |
| `LogenBuilder.LoggingBodyOrder` | cmd/logen/main.go:272-311 | the body is the invocation, at most one log statement, then the return; the log statement is present iff the last result is `error` and the logger is `go_kit_log` or `zap`, and is that backend's statement guarded on the last result's name |
| `LogenBuilder.LoggingOnlyOnError` | cmd/logen/main.go:291-303 | the logger appears in the body iff the last result is `error` and the backend is supported, and then only under `if <err> != nil` |
| `LogenBuilder.BackendsShareSkeleton` | cmd/logen/zap.go:124-137 | the two backends' guard statements share the condition and the context-fields slots and differ in the log call |
| `LogenBuilder.LoggingMethodBuilder.constructor` | cmd/logen/main.go:261-270 | a fresh method builder named after the method, receiver `m` of the struct, empty body |
| `LogenBuilder.LoggingMethodBuilder.Build` | cmd/logen/main.go:272-311 | sets the signature with anonymous results and appends exactly `LoggingBody` to the method |
| `AstGen.AliasNameInjective` | cmd/mongen/examples/examplesmws/monitoring_go_kit_service.go:5-8 | distinct import slots get distinct aliases |
| `AstGen.AliasesDistinct` | cmd/mongen/examples/examplesmws/monitoring_go_kit_service.go:5-8 | two different packages of one file never share an alias |
| `AstGen.AliasStable` | cmd/mongen/examples/examplesmws/monitoring_go_kit_service.go:5-8 | importing a package never changes the alias of one imported earlier |
| `AstGen.File.AddImport` | cmd/tracegen/model.go:56-62 | registers the package on first use only and returns its first-use alias |
| `Tracegen.TraceModel.constructor` | cmd/tracegen/model.go:24-44 | imports the interface's package before the trace package, appends the struct with field `next` of type `<sourceAlias>.<I>` and then the constructor |
| `Tracegen.NewModelAliases` | cmd/tracegen/model.go:35-36 | in a fresh run the interface's package is `alias1` and the trace package `alias2` |
| `Tracegen.TraceModel.AddImport` | cmd/tracegen/model.go:56-62 | returns the table's alias; overwrites the context alias iff the location is `context`; the trace package keeps its alias; nothing else changes |
| `Tracegen.TraceModel.AddMethod` | cmd/tracegen/model.go:64-70 | keeps the trace package imported under its recorded alias, and appends the tracing method whose span is started through that alias with the name `path.Interface.Method` |
| `Tracegen.FullMethodName` | cmd/tracegen/model.go:65 | the path, interface and method joined by dots |
| `Tracegen.TraceModel.ResolveInterfaceType` | cmd/tracegen/model.go:72-78 | imports the location and yields `<alias>.<name>` |
| `Tracegen.TracingConstructorShape` | cmd/tracegen/model.go:92-138 | `NewTracing<I>` takes only `next`, returns the interface type, body `return &tracing<I>{next}` |
| `Tracegen.TracingMethodBuilder.constructor` | cmd/tracegen/model.go:148-158 | a fresh method builder named after the method, receiver `m` of the struct, empty body |
| `Tracegen.TracingMethodBuilder.Build` | cmd/tracegen/model.go:159-198 | sets the signature with anonymous results and appends exactly `TracingBody` to the method |
| `Tracegen.TracingBodySpans` | cmd/tracegen/model.go:169-198 | span start then `defer _span.End()` precede the delegate call iff the first parameter is `<contextAlias>.Context`; 3 statements then, 1 otherwise |
| `Tracegen.EndSpanStmt` | cmd/tracegen/model.go:200-209 | `defer _span.End()`: a deferred call of `End` on `_span` with no arguments and no spread |
| `Tracegen.TraceMethodInvocation` | cmd/tracegen/model.go:211-239 | `ctx, _span := <trace>.StartSpan(ctx, <quoted full name>)`: the context is passed in and rebound |
| `Tracegen.MethodInvocation.constructor` | cmd/tracegen/model.go:250-252 | a new builder for the given method, receiver unset |
| `Tracegen.MethodInvocation.SetReceiver` | cmd/tracegen/model.go:246-248 | sets the receiver |
| `Tracegen.MethodInvocation.Build` | cmd/tracegen/model.go:254-279 | its loop produces `TraceInvocation(receiver, method)`, tracking whether some parameter is variadic |
| `Tracegen.TraceInvocationForwards` | cmd/tracegen/model.go:254-279 | arguments are the parameter names in order; spread iff some parameter is an ellipsis; `return <call>` with results, the bare call without |
| `Tracegen.OnlyTracegenSpreads` | cmd/tracegen/model.go:257-270 | for a variadic method tracegen spreads the forwarded arguments and logen's call (cmd/logen/main.go:354-360) does not |

## Left out

- `main()` plumbing is not modelled: the go/build lookups `dirToImport` and `importToDir`, directory and file creation, printing and `flag.Usage`. `filepath.Abs` is the `abs` parameter of `ParseArgs`.
- Flag parsing (`-h`) is not modelled. `ParseArgs` receives the positional arguments, and errors are kinds rather than message texts.
- `WriteSource` and the `go/format` rendering are not modelled. The generated-file banner is not represented.
- logen's own model file is not part of this model. That covers its `newModel`, its `AddImport`, the go-kit `loggerInfo` and `fieldsFuncType`; the provider type is a parameter of `ErrorLoggingConstructor`.
- `pkg/astgen`, `pkg/resolution` and `pkg/transformation` are not part of this model. Interface resolution and `ProcessInterface` are left out.
- Only what callers rely on from astgen is modelled: the file's import table, its declaration list and the method builder's statement list. Every parameter and result is assumed to carry a name (`MethodConfig.Named`).
- `AstGen.File.AddImport`: the requested package name is ignored; every alias is first-use numbered, as the generated example shows.
- Declarations appended to the file are built when appended rather than when the file is rendered. The struct's `next` field is therefore part of the struct value from the start.
- `Tracegen.TraceModel.AddMethod`: its error result (always nil) is not modelled.
- Go's `%q` is modelled as wrapping in double quotes without escaping. Unicode letter and digit classes and lower-casing are ASCII only.
- The ellipsis position of tracegen's call is a boolean spread flag, assuming a parsed variadic parameter always has a position.
- Identifier texts such as `return nil`, `_more...`, `_fields...` and `&errorLogging<I>{…}` are kept as opaque identifier strings.
- The monitoring generator (mongen) is not modelled; its builder is not among the modelled files. Only its example output's alias numbering is cited.
