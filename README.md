# goa dispatch layer and result objects, in Dafny

goa is a thin MVC layer over Express. Its two core pieces are modelled here.

- **src/goa.js**
  - `parseRequest` merges the query string, the body, the route-path parameters and the route's static parameters into one parameter bag. The `controller` and `action` keys are protected.
  - `middleware` builds the per-request handler. It obtains a controller from the application's controller factory through a one-shot latch (`controllerHandled`). It calls the named action method, else `handleUnknownAction`, else fails. It turns what the action passes to its `send` callback into calls on the response or on Express's `next`.
  - `createApplication` validates its arguments. It wraps every HTTP verb method of the Express application so that a trailing static-parameters object selects the controller and action, and the dispatch handler is appended to the route.
- **src/results.js**: the seven result kinds (Action, Empty, Json, File, View, Error, Redirect). Each constructor normalises its options with `createOptions`. Each `execute` makes a short, ordered sequence of calls on the response.

## Layout

| file | module | what it holds |
|---|---|---|
| `jsvalues.dfy` | `JsValues` | JavaScript values: truthiness, `||`, `typeof`, property lookup, `String(v)` |
| `framework.dfy` | `Framework` | the Express side: `Response` records every `res.*` call, every `next(err)` and every completion-callback call in one ordered log |
| `results.dfy` | `Results` | options objects (shared by reference, as a class), `createOptions`, the constructors, `applyCommonOptions` and each `execute` |
| `results_properties.dfy` | `ResultProperties` | what each result kind promises about the calls it makes |
| `params.dfy` | `Params` | `parseRequest` and its precedence rules |
| `dispatch.dfy` | `Dispatch` | the request handler: a class whose methods are the callbacks and promise settlements the outside world can fire |
| `dispatch_properties.dfy` | `DispatchProperties` | failures, messages, action selection and the latch |
| `application.dfy` | `Application` | `createApplication`: validation, the verb-wrapping loop and the wrapper itself |

Asynchrony is modelled as the environment calling the handler's methods in any order. Each method's precondition says that the callback or promise it stands for exists. A factory or action is given by what it does synchronously when called: at most one call of its callback, then a throw or a return, with or without a thenable. Any later call of a callback is one more method call on the handler. "## Left out" says what this limit costs.

## Behaviour of the code worth knowing

- **Nothing in the handler makes `next` and a response exclusive.** The latch guards only controller creation.
  - An action that calls `send` with a result synchronously and then throws produces a response and a `next` (`DispatchProperties.SendThenThrowDoesBoth`).
  - `send` may be called any number of times.
  - The completion callback stays callable afterwards only where an `execute` keeps it: `render` hands it to the template engine, and a custom result's `execute` may hold on to it. The other built-in results drop it, and ErrorResult calls it once at once (`Dispatch.KeepsCompletion`).
- **`get` as a settings getter depends only on the argument count.** The comment at src/goa.js:120-121 describes the case as "trying to get a setting". The test at src/goa.js:122 checks only that there is exactly one argument, so `app.get({...})` reads a setting too.
- **Routing values may be missing.** index.d.ts:87-90 declares `controller` and `action` as strings. The merged values can still be `undefined`, and the error messages then read `"undefined"` (`DispatchProperties.CreationMessages`).
- **Signals after the callback are ignored.** A factory that calls its callback and also returns a promise that rejects has the rejection ignored by the latch. `Dispatch.RequestHandler.FactorySettled` states this: after the latch has fired, nothing changes.
- **`null` or `undefined` static parameters throw.** `typeof null === 'object'`, so a route registered with `null` as its last argument takes `null` as its static parameters. `app.middleware(undefined)` does the same with `undefined`. Every request through such a handler throws a TypeError when `parseRequest` reads `params.controller` (`Application.App.StartRequest`).

## Model

| member | source | states |
|---|---|---|
| Params.ParseRequest | src/goa.js:3-14 | the merged keys are exactly the keys of all four sources plus `controller` and `action`; those two come from the static value if truthy, else the path parameter; every other key takes its value from static > path > body > query |
| Params.RoutingIgnoresBodyAndQuery | src/goa.js:9-12 | two requests with the same path parameters get the same merged `controller` and `action`, whatever their bodies and query strings hold |
| Params.StaticRoutingWins | src/goa.js:10-11 | a truthy static `controller`/`action` is the merged value |
| Params.PathBeatsBody | src/goa.js:5-8 | a non-routing key in both the body and the path parameters, and not static, resolves to the path parameter |
| Dispatch.ControllerOutcome | src/goa.js:30-73 | a truthy factory error fails with that error; a missing controller fails with `Unable to create controller "<c>"`; else the action method named by `String(action)` runs if it is a function, else `handleUnknownAction` if it is one, else the handler fails with `Unable to find action method "<a>" on controller "<c>"`; a run method is always a function of the controller |
| Dispatch.SendEvents | src/goa.js:36-49 | `send` without a result calls `next` once with `Action "<c>.<a>" does not return a result object`; with a built-in result it makes exactly that result's `execute` calls, completed by the dispatch callback; with another object having `execute`, a truthy completion error goes to `next` and otherwise the value is sent |
| Dispatch.SignalEvents | src/goa.js:30-73 | everything the latch's first signal causes: one `next` with the failure; for a selected action without a synchronous `send`, only its exception (if any) to `next`; an exception thrown by the action is always the last `next` |
| Dispatch.FirstSignal | src/goa.js:77-82 | the first signal the latch sees during the factory call is its synchronous callback, else the exception it threw, else none |
| Dispatch.RequestHandler.constructor | src/goa.js:17-20 | the handler starts with the merged parameters, the merged controller name, and the merged action or else the default action; nothing has been called yet |
| Dispatch.RequestHandler.InvokeFactory | src/goa.js:76-90 | the factory is called with the merged controller name; the call appends exactly the events of the first signal (the synchronous callback, else the thrown exception); a throw after the callback changes nothing; only a returned thenable is subscribed to |
| Dispatch.RequestHandler.FactorySettled | src/goa.js:84-90 | a settlement of the factory's promise is fed to the latch as `(null, controller)` or `(reason)`; after the latch has fired it changes nothing |
| Dispatch.RequestHandler.HandleController | src/goa.js:23-29 | the first call fires the latch and appends that signal's events; every later call leaves the log and the handler's state unchanged |
| Dispatch.RequestHandler.Decide | src/goa.js:30-73 | the latch's decision appends exactly the signal's events: one `next` on failure, else the selected action's synchronous `send` effects, then its exception (if it threw) to `next` |
| Dispatch.RequestHandler.RunAction | src/goa.js:35-54 | the named method is called with the merged parameter bag; the call makes the effects of its synchronous `send`, reports what it threw and subscribes to a returned thenable |
| Dispatch.RequestHandler.SendResult | src/goa.js:36-49 | each call of `send` appends exactly `SendEvents` for the value sent; the completion callback stays callable afterwards only when the `execute` keeps it |
| Dispatch.RequestHandler.ExecuteDone | src/goa.js:42-49 | the completion is callable only after a result that keeps it (a view or a custom result); each call appends `next(err)` for a truthy error, otherwise `send(value)` |
| Dispatch.RequestHandler.ActionRejected | src/goa.js:52-54 | the rejection of the action's thenable appends `next(reason)` and nothing else |
| DispatchProperties.CreationFailure | src/goa.js:30-33 | a factory error or a missing controller ends the request with exactly one `next` (the error, else the creation error), and no action method runs |
| DispatchProperties.FalsyThrowIsCreationFailure | src/goa.js:77-82 | a factory that throws a falsy value without calling its callback is reported as `Unable to create controller "<c>"` |
| DispatchProperties.ActionNotFound | src/goa.js:63-73 | with neither the action nor `handleUnknownAction` a function, the request ends with one `next` carrying the not-found error, and no method runs |
| DispatchProperties.ActionSelection | src/goa.js:57-67 | the named action is preferred over `handleUnknownAction`, which runs only when the named action is not a function |
| DispatchProperties.UnknownActionReportsRequestedName | src/goa.js:36-40 | when `handleUnknownAction` runs and sends no result, the error names the requested action |
| DispatchProperties.SyncThrowForwarded | src/goa.js:57-71 | an exception thrown by the action method is passed to `next`, as the last event of that signal |
| DispatchProperties.CompletionExclusive | src/goa.js:42-49 | the dispatch completion calls `next` if and only if the error is truthy, and sends the value if and only if it is not |
| DispatchProperties.OneTerminalCall | src/results.js:4-118 | every built-in `execute` makes exactly one call other than `status`/`set`, and makes it last |
| DispatchProperties.ErrorResultNeverSends | src/results.js:102-105 | an ErrorResult sent back by an action ends in `next(error)` and never sends a body |
| DispatchProperties.CreationMessages | src/goa.js:31 | the creation error for controller `foo` is `Unable to create controller "foo"`, and `"undefined"` is named when no controller is given |
| DispatchProperties.NotFoundMessageText | src/goa.js:73 | the not-found error for action `bar` on controller `foo` is `Unable to find action method "bar" on controller "foo"` |
| DispatchProperties.SendThenThrowDoesBoth | src/goa.js:36-71 | an action that sends a result and then throws produces both `send` and `next` |
| DispatchProperties.FactoryAskedForRoutedController | src/goa.js:78 | two requests with the same path parameters ask the factory for the same controller, the one the routing picks, whatever their bodies and query strings hold |
| DispatchProperties.ActionReceivesMergedParams | src/goa.js:36 | for a route registered with `{controller: 'whatever', action: 'index'}` and a request with no parameters, the action is called with exactly `{controller: 'whatever', action: 'index'}` |
| DispatchProperties.LatchScenario | src/goa.js:23-29 | callback, then promise resolution, then a second callback with an error: the action runs once and the log holds exactly its one response |
| Results.NormalizeOptions | src/results.js:15-17 | the given status stays when truthy; a truthy default takes its place only when the given status is falsy; no other property changes or is added |
| Results.CreateOptions | src/results.js:13-20 | a number becomes a fresh `{status: n}`, nothing becomes a fresh `{}`, an object is normalised in place and returned itself |
| Results.CreateActionKind | src/results.js:22-28 | content is the given content or `''`; the options are `options \|\| {}` normalised, with `contentType` overwritten by the positional content type or `text/plain` |
| Results.CreateAction | src/results.js:22-28 | as `CreateActionKind`, for a plain ActionResult |
| Results.CreateEmpty | src/results.js:36-40 | empty content, and options exactly `{status: 204, contentType: <given or text/plain>}` |
| Results.CreateJson | src/results.js:42-46 | the content type is `application/json` whatever the options say; falsy JSON becomes `''` |
| Results.CreateFile | src/results.js:48-52 | the file is kept and the options are normalised without a default status |
| Results.CreateView | src/results.js:83-88 | a params producer is called once, at construction, and its value is kept |
| Results.CreateError | src/results.js:96-100 | the error defaults to `Error('An error occurred')`, the status to 500 |
| Results.CreateRedirect | src/results.js:108-112 | the status defaults to 302 |
| Results.CommonEvents | src/results.js:4-11 | `status(s)` is called if and only if `s` is truthy, `set('Content-Type', t)` if and only if `t` is truthy, each at most once, status first, nothing else |
| Results.ApplyCommonOptions | src/results.js:4-11 | appends exactly `CommonEvents` of the options |
| Results.Finish | src/goa.js:42-49 | the completion's one call: the caller's callback with both arguments, or for the dispatch callback `next(err)` if and only if `err` is truthy and otherwise `send(value)`, never both |
| Dispatch.KeepsCompletion | src/results.js:90-93 | a built-in result keeps the completion callback if and only if its own call is `render`, which hands the callback on; a custom result's `execute` may keep it too |
| Results.Complete | src/goa.js:42-49 | the completion callback appends one call: the caller's callback, or for the dispatch callback `next(err)` on a truthy error and otherwise `send(value)` |
| Results.WordPrefixLength | src/results.js:58 | the length of the longest prefix of word characters: all characters before it are word characters and the one at it is not |
| Results.SchemeOf | src/results.js:58 | a captured scheme is a non-empty run of word characters that, followed by `://`, starts the reference |
| Results.FileCall | src/results.js:57-79 | FileResult's own call is a proxy of this file, `download(file, fileName)` with a truthy `fileName`, or `sendFile(file, options)` |
| Results.OwnCall | src/results.js:30-117 | each kind's own call is neither `status` nor `set`; file calls come exactly from FileResult, render exactly from ViewResult, redirect exactly from RedirectResult; the caller's callback or `next` is called exactly by ErrorResult (`next` only on a truthy error); a body is sent only by ActionResult or by an ErrorResult with a falsy error |
| Results.ExecuteEvents | src/results.js:22-118 | an `execute` is the common-options calls followed by exactly one call of the result's own |
| Results.SendOrProxyFile | src/results.js:57-79 | FileResult's own call is proxy, download or sendFile, as `FileCall` selects |
| Results.ExecuteOwnCall | src/results.js:30-117 | each kind's own call after the common options: send, the file call, render, the completion with the error, or redirect with the status |
| Results.Execute | src/results.js:30-117 | `execute` appends exactly `ExecuteEvents` of the result and its options as they are when it runs |
| ResultProperties.SchemeOfMatches | src/results.js:58-61 | the `^(\w+)://` test matches exactly the references made of a non-empty run of word characters followed by `://`, and captures that run |
| ResultProperties.FileCallBranches | src/results.js:57-79 | exactly one branch is taken: a scheme proxies (https only for `https`), else a truthy `fileName` downloads, else the file is sent with the options |
| ResultProperties.NumberOptions | src/results.js:14-17 | `createOptions(n, d)` is `{status: n}`, with the default used only when `n` is 0 |
| ResultProperties.NormalizeOptionsIdempotent | src/results.js:15-17 | filling in the default a second time changes nothing |
| ResultProperties.ActionExecute | src/results.js:22-34 | an ActionResult sets the content type it was built with, then sends its content exactly once, as the last call |
| ResultProperties.JsonExecute | src/results.js:42-46 | JsonResult sets `Content-Type: application/json` right before the one `send`; falsy JSON is sent as `''` |
| ResultProperties.EmptyExecute | src/results.js:36-40 | EmptyResult calls exactly `status(204)`, the content type, `send('')` |
| ResultProperties.ErrorExecute | src/results.js:96-106 | ErrorResult sets the given status, else 500, first, and ends with `next(error)`; no body is sent |
| ResultProperties.RedirectExecute | src/results.js:108-118 | RedirectResult calls `status(s)` first and `redirect(s, url)` last, with the same `s`: the given status, else 302 |
| ResultProperties.ViewExecute | src/results.js:83-94 | ViewResult applies the common options and then renders once, with the parameters fixed at construction |
| Application.RouteCall | src/goa.js:119-136 | `get` with one argument reads a setting; otherwise an object-typed last argument becomes the static parameters and every other argument is passed on in order, followed by the dispatch handler; with no arguments, `undefined` and the handler are passed |
| Application.App.Invoke | src/goa.js:119-136 | a call of a wrapped verb appends exactly `RouteCall` of its arguments and leaves the application's properties alone |
| Application.StaticParamsOf | src/goa.js:8-11 | the static parameters spread by the handler: an object's own fields; nothing for an error object, a number or a boolean; `undefined` and `null` throw when `params.controller` is read |
| Application.App.StartRequest | src/goa.js:16-20 | a request starts a fresh handler over the merged parameters, with the merged controller name and the action defaulting to the application's default action; `undefined` or `null` static parameters throw a TypeError naming the value |
| Application.ValidationError | src/goa.js:95-106 | `createApplication` fails if and only if the options or `options.express` are missing (checked first) or the factory is not a function, with those exact messages |
| Application.WrapVerbs | src/goa.js:113-137 | after the wrapping loop no listed name still holds a framework function; a property changes only if it is listed and was a framework function, and then becomes the wrapper around that function; no property is added or removed |
| Application.InstalledMembers | src/goa.js:113-140 | the finished application has the original properties plus `del`, `middleware` and `express`; `del` is the wrapped `delete`; every original property is as the wrapping loop left it |
| Application.WrapStep | src/goa.js:113-117 | each turn of the wrapping loop wraps the verb if it is one of the framework's functions, and leaves it otherwise |
| Application.CreateApplication | src/goa.js:94-143 | fails exactly as `ValidationError` says; otherwise every verb and `all` that is a framework function is wrapped, `del` aliases `delete`, `middleware` and `express` are set, and the default action is the given one or `index` |

## Left out

- Network proxying of remote files (`http.get`/`https.get`, piping, `res.statusCode`, the `Content-Disposition` header set inside the pipe): network I/O. The model records only that the proxy branch was taken and over which protocol.
- Express itself (route registration, `app.set`, template rendering, file streaming, JSON encoding in `res.send`): a foreign library. Its calls are logged, not executed.
- The `onComplete` secondary callback of `send`: the code's `send` takes one parameter and never calls it.
- `http.METHODS`: environment-provided. The verb list is a parameter, lower-cased and sorted as the code makes it.
- Promise scheduling and timers: these are represented as the order in which the environment calls the handler's methods.
- Numbers are integers: NaN, `-0`, fractions and their truthiness are not modelled.
- Arrays and functions as values, and property lookup through the prototype chain: a controller is given by its own properties, and an inherited method is not seen.
- Options that are truthy but neither a number nor an object (a string, `true`): `createOptions` would return them as they are. Such options are not modelled.
- A controller that is a truthy primitive: property reads on it go through its prototype (a string controller has a `toString` method that would run as an action). The model's controller has its own properties only.
- An `execute` property that is truthy but not a function: src/goa.js:42 would throw a TypeError, which the model does not represent.
- `req.params` missing: spreading it adds nothing, and the model's empty path parameters give the same merge. The code throws a TypeError only when a static routing value is falsy, because only then is `req.params.controller` (or `.action`) read. The model does not represent that TypeError.
- Exceptions thrown by a result's `execute` while inside the action's call: the model's `execute` never throws.
- A factory or action is limited to at most one synchronous call of its callback before it returns or throws. An action that calls `send` twice synchronously, or a `render` that calls back synchronously, and then throws, makes the code log the second effect before `next(thrown)`. The model can log that second effect only after the throw, as a later method call on the handler.
- Application.CreateApplication: assumes that `express()` returns a fresh application whose only function-valued properties are the framework's own, and that the verb list is duplicate-free and lacks `all`, as `http.METHODS` is.
- Results.Execute: for an ErrorResult whose `execute` is called directly with `ToCaller`, the caller's completion callback is assumed to exist. Without one, the code would throw a TypeError.
- Application.App.StartRequest: the TypeError message is the one V8 produces. Other engines word it differently. A string passed as static parameters (spread into index keys `"0"`, `"1"`, ...) is not modelled, and the precondition excludes it.
- Application.StaticParamsOf: a string passed as static parameters, which would spread into index keys, is not modelled. The precondition excludes strings for that reason.
