/** `createApplication` (src/goa.js): argument validation, and the wrapping
    of the framework's verb methods so that a route registration takes a
    trailing static-parameters object and gets the dispatch handler appended. */
module Application {
  import opened JsValues
  import opened Framework
  import opened Params
  import opened Dispatch

  /** An argument passed to a wrapped verb method, or a handler passed on to
      the framework. */
  datatype RouteArg =
    | Fn(id: string)                   // a function of the caller's (a route handler)
    | DispatchFn(actionParams: JsVal)  // the dispatch handler built for these static parameters
    | Value(v: JsVal)                  // anything that is not a function (a path, an object, ...)

  /** `typeof arg` */
  function TypeOfArg(a: RouteArg): string {
    if a.Value? then TypeOf(a.v) else "function"
  }

  /** A property of the application object. */
  datatype AppMember =
    | Native(id: string)                         // one of the framework's own functions
    | Plain(v: JsVal)                            // a property that is not a function
    | VerbWrapper(verb: string, parent: string)  // the wrapper installed around the framework's `parent`
    | MiddlewareFactory                          // `app.middleware`
    | ExpressFunction                            // `app.express`

  /** A call the wrapper makes into the framework. */
  datatype AppCall =
    | Registered(parent: string, handlers: seq<RouteArg>)  // parent.apply(app, handlers)
    | SettingRead(name: RouteArg)                          // app.set(name), the settings getter

  function Lookup(members: map<string, AppMember>, k: string): AppMember {
    if k in members then members[k] else Plain(Undefined)
  }

  /** The last argument is taken as the static parameters when its `typeof`
      is 'object' (which includes `null`). */
  predicate EndsWithStaticParams(args: seq<RouteArg>) {
    |args| > 0 && TypeOfArg(args[|args| - 1]) == "object"
  }

  /** The static parameters the wrapper binds the dispatch handler to. */
  function StaticParamsArg(args: seq<RouteArg>): JsVal {
    if EndsWithStaticParams(args) then args[|args| - 1].v else Obj(map[])
  }

  /** What one call of a wrapped verb method does: `get` with exactly one
      argument reads a setting; any other call registers the arguments minus
      an object-typed last one (a missing last argument reads as `undefined`
      and is passed on), followed by the dispatch handler. */
  function RouteCall(verb: string, parent: string, args: seq<RouteArg>): (c: AppCall)
    ensures verb == "get" && |args| == 1 ==> c == SettingRead(args[0])
    ensures !(verb == "get" && |args| == 1) ==>
      && c.Registered? && c.parent == parent && |c.handlers| > 0
      && c.handlers[|c.handlers| - 1] == DispatchFn(StaticParamsArg(args))
      && (EndsWithStaticParams(args) ==> c.handlers[..|c.handlers| - 1] + [args[|args| - 1]] == args)
      && (!EndsWithStaticParams(args) && |args| > 0 ==> c.handlers[..|c.handlers| - 1] == args)
      && (|args| == 0 ==> c.handlers == [Value(Undefined), DispatchFn(Obj(map[]))])
  {
    if verb == "get" && |args| == 1 then SettingRead(args[0])
    else
      var last := if |args| > 0 then args[|args| - 1] else Value(Undefined);
      var rest := if |args| > 0 then args[..|args| - 1] else [];
      if TypeOfArg(last) == "object" then Registered(parent, rest + [DispatchFn(last.v)])
      else Registered(parent, rest + [last] + [DispatchFn(Obj(map[]))])
  }

  /** The static parameters a dispatch handler spreads, or `None` when reading
      `params.controller` from them throws (they are `undefined` or `null`).
      An error object, a number and a boolean have no own enumerable
      properties, so they spread to nothing. */
  function StaticParamsOf(actionParams: JsVal): (r: Option<map<string, JsVal>>)
    requires !actionParams.Str?
    ensures r.None? <==> actionParams == Undefined || actionParams == Null
    ensures actionParams.Obj? ==> r == Some(actionParams.fields)
    ensures actionParams.ErrorObj? || actionParams.Num? || actionParams.Bool? ==> r == Some(map[])
  {
    match actionParams
    case Obj(fields) => Some(fields)
    case ErrorObj(_, _) => Some(map[])
    case Num(_) => Some(map[])
    case Bool(_) => Some(map[])
    case Null => None
    case Undefined => None
  }

  /** The TypeError V8 raises when `params.controller` is read from a
      nullish value. */
  function ControllerReadError(actionParams: JsVal): JsVal {
    ErrorObj("TypeError", "Cannot read properties of " + ToString(actionParams) + " (reading 'controller')")
  }

  datatype RequestStart = Started(handler: RequestHandler) | Threw(error: JsVal)

  /** The framework's application object, with goa's additions. */
  class App {
    var members: map<string, AppMember>
    /** Calls the wrappers have made into the framework, in order. */
    var calls: seq<AppCall>
    const defaultAction: JsVal

    constructor (members0: map<string, AppMember>, defaultAction: JsVal)
      ensures members == members0 && calls == [] && this.defaultAction == defaultAction
    {
      members := members0;
      calls := [];
      this.defaultAction := defaultAction;
    }

    /** Call `app[name](...args)` where `app[name]` is a verb wrapper. */
    method Invoke(name: string, args: seq<RouteArg>)
      requires name in members && members[name].VerbWrapper?
      modifies this
      ensures members == old(members)
      ensures calls == old(calls) + [RouteCall(old(members)[name].verb, old(members)[name].parent, args)]
    {
      var wrapper := members[name];
      if wrapper.verb == "get" && |args| == 1 {
        calls := calls + [SettingRead(args[0])];
        return;
      }
      var handlers := args;
      var actionParams: RouteArg;
      if |handlers| > 0 {
        actionParams := handlers[|handlers| - 1];
        handlers := handlers[..|handlers| - 1];
      } else {
        actionParams := Value(Undefined);
      }
      var staticParams: JsVal;
      if TypeOfArg(actionParams) != "object" {
        handlers := handlers + [actionParams];
        staticParams := Obj(map[]);
      } else {
        staticParams := actionParams.v;
      }
      handlers := handlers + [DispatchFn(staticParams)];
      calls := calls + [Registered(wrapper.parent, handlers)];
    }

    /** A request reaches the dispatch handler bound to `actionParams`, as
        registered by a verb wrapper or built by `app.middleware(actionParams)`. */
    method StartRequest(actionParams: JsVal, req: Request, res: Response) returns (r: RequestStart)
      requires !actionParams.Str?
      ensures actionParams == Undefined || actionParams == Null <==> r.Threw?
      ensures r.Threw? ==> r.error == ControllerReadError(actionParams)
      ensures r.Started? ==>
        var h := r.handler;
        && fresh(h) && h.Valid() && h.res == res
        && h.params == ParseRequest(req, StaticParamsOf(actionParams).value)
        && h.controllerName == RoutingValue(req, StaticParamsOf(actionParams).value, "controller")
        && h.action == Or(RoutingValue(req, StaticParamsOf(actionParams).value, "action"), defaultAction)
        && !h.factoryCalled && !h.controllerHandled
    {
      var staticParams := StaticParamsOf(actionParams);
      if staticParams.None? {
        r := Threw(ControllerReadError(actionParams));
        return;
      }
      var h := new RequestHandler(req, staticParams.value, defaultAction, res);
      r := Started(h);
    }
  }

  /** What `createApplication` does: return the application or throw. */
  datatype Creation = Created(app: App) | Refused(error: JsVal)

  /** What `express()` returns: the application object's own properties. */
  datatype ExpressFn = ExpressFn(appMembers: map<string, AppMember>)

  /** The options object given to `createApplication`, or `None` if falsy. */
  datatype AppOptions = AppOptions(express: Option<ExpressFn>, defaultAction: JsVal)

  /** The error `createApplication` throws, if any: the framework is checked
      first, the controller factory second. */
  function ValidationError(factoryIsFunction: bool, options: Option<AppOptions>): (e: Option<JsVal>)
    ensures e.None? <==> options.Some? && options.value.express.Some? && factoryIsFunction
    ensures options.None? || options.value.express.None? ==> e == Some(NewError("options.express is required"))
    ensures options.Some? && options.value.express.Some? && !factoryIsFunction ==>
      e == Some(NewError("A controller factory function must be given"))
  {
    if options.None? || options.value.express.None? then Some(NewError("options.express is required"))
    else if !factoryIsFunction then Some(NewError("A controller factory function must be given"))
    else None
  }

  /** The application's properties after each of `methods` that was one of
      the framework's functions has been replaced by its wrapper. */
  function WrapVerbs(initial: map<string, AppMember>, methods: seq<string>): (m: map<string, AppMember>)
    ensures m.Keys == initial.Keys
    ensures forall k :: k in m && k in methods ==> !m[k].Native?
    ensures forall k :: k in m && m[k] != initial[k] ==>
      k in methods && initial[k].Native? && m[k] == VerbWrapper(k, initial[k].id)
  {
    map k | k in initial :: if k in methods && initial[k].Native? then VerbWrapper(k, initial[k].id) else initial[k]
  }

  predicate Distinct(s: seq<string>) {
    forall i, j :: 0 <= i < j < |s| ==> s[i] != s[j]
  }

  /** One turn of the wrapping loop: a method not yet visited still holds
      the framework's own property, and wrapping it (when it is a function)
      extends the wrapped prefix by one. */
  lemma WrapStep(initial: map<string, AppMember>, methods: seq<string>, i: nat)
    requires Distinct(methods) && i < |methods|
    ensures Lookup(WrapVerbs(initial, methods[..i]), methods[i]) == Lookup(initial, methods[i])
    ensures var m := methods[i];
            WrapVerbs(initial, methods[..i + 1]) ==
              if Lookup(initial, m).Native? then WrapVerbs(initial, methods[..i])[m := VerbWrapper(m, initial[m].id)]
              else WrapVerbs(initial, methods[..i])
  {
    var m := methods[i];
    assert m !in methods[..i];
    assert methods[..i + 1] == methods[..i] + [m];
    var before := WrapVerbs(initial, methods[..i]);
    var after := WrapVerbs(initial, methods[..i + 1]);
    if Lookup(initial, m).Native? {
      assert after == before[m := VerbWrapper(m, initial[m].id)];
    } else {
      assert after == before;
    }
  }

  /** The application's properties once `createApplication` is done: the
      wrapped methods, `del` as an alias of the wrapped `delete`, and the
      `middleware` and `express` properties. */
  function InstalledMembers(initial: map<string, AppMember>, methods: seq<string>): (m: map<string, AppMember>)
    ensures m.Keys == initial.Keys + {"del", "middleware", "express"}
    ensures m["middleware"] == MiddlewareFactory && m["express"] == ExpressFunction
    ensures "delete" in methods && Lookup(initial, "delete").Native? ==>
      m["del"] == VerbWrapper("delete", initial["delete"].id)
    ensures forall k :: k in initial && k != "del" && k != "middleware" && k != "express" ==>
      m[k] == WrapVerbs(initial, methods)[k]
  {
    var wrapped := WrapVerbs(initial, methods);
    wrapped["del" := Lookup(wrapped, "delete")]["middleware" := MiddlewareFactory]["express" := ExpressFunction]
  }

  /** Only the framework's own functions and plain values are on a fresh
      application object. */
  predicate FrameworkOnly(members: map<string, AppMember>) {
    forall k :: k in members ==> members[k].Native? || members[k].Plain?
  }

  /** `createApplication(controllerFactory, options)`; `verbs` is the
      environment's list of HTTP methods, lower-cased and sorted. */
  method CreateApplication(factoryIsFunction: bool, options: Option<AppOptions>, verbs: seq<string>)
    returns (r: Creation)
    requires Distinct(verbs) && "all" !in verbs
    requires options.Some? && options.value.express.Some? ==> FrameworkOnly(options.value.express.value.appMembers)
    ensures r.Refused? <==> ValidationError(factoryIsFunction, options).Some?
    ensures r.Refused? ==> r.error == ValidationError(factoryIsFunction, options).value
    ensures r.Created? ==>
      var app := r.app;
      && fresh(app) && app.calls == []
      && app.defaultAction == Or(options.value.defaultAction, Str("index"))
      && app.members == InstalledMembers(options.value.express.value.appMembers, verbs + ["all"])
  {
    if options.None? || options.value.express.None? {
      return Refused(NewError("options.express is required"));
    }
    var defaultAction := Or(options.value.defaultAction, Str("index"));
    if !factoryIsFunction {
      return Refused(NewError("A controller factory function must be given"));
    }
    var initial := options.value.express.value.appMembers;
    var app := new App(initial, defaultAction);
    var methods := verbs + ["all"];
    assert Distinct(methods);
    var i := 0;
    while i < |methods|
      invariant 0 <= i <= |methods|
      invariant app.calls == [] && app.defaultAction == defaultAction
      invariant app.members == WrapVerbs(initial, methods[..i])
    {
      var m := methods[i];
      var parent := Lookup(app.members, m);
      WrapStep(initial, methods, i);
      // the only functions on a fresh application are the framework's own
      if parent.Native? {
        app.members := app.members[m := VerbWrapper(m, parent.id)];
      }
      i := i + 1;
    }
    assert methods[..i] == methods;
    app.members := app.members["del" := Lookup(app.members, "delete")];
    app.members := app.members["middleware" := MiddlewareFactory];
    app.members := app.members["express" := ExpressFunction];
    r := Created(app);
  }
}
