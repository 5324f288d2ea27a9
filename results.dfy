/** The result objects an action hands back (src/results.js): seven kinds of
    result, the normalisation of their constructor options, and the ordered
    calls each `execute` makes on the response. */
module Results {
  import opened JsValues
  import opened Framework

  /** A plain JavaScript object that is shared by reference: the options
      object a caller passes to a result constructor is the very object the
      result keeps, and the constructors write into it. */
  class JsObject {
    var props: map<string, JsVal>

    constructor (props0: map<string, JsVal>)
      ensures props == props0
    {
      props := props0;
    }
  }

  /** The `options` argument of a result constructor: a bare status number, an
      options object, or nothing (`undefined`, `null` or another falsy value). */
  datatype OptionsArg = NumberArg(n: int) | ObjectArg(obj: JsObject) | NoOptions

  /** The `params` argument of a view result: a producer function (shown by the
      value it returns when called) or the parameters themselves. */
  datatype ViewParamsArg = Producer(produces: JsVal) | Given(value: JsVal)

  /** ActionResult and its two subclasses, which share its `execute`. */
  datatype ActionKind = PlainAction | EmptyAction | JsonAction

  datatype Result =
    | ActionResult(kind: ActionKind, content: JsVal, options: JsObject)
    | FileResult(file: string, options: JsObject)
    | ViewResult(view: JsVal, params: JsVal, options: JsObject)
    | ErrorResult(error: JsVal, options: JsObject)
    | RedirectResult(url: JsVal, options: JsObject)

  /** Who receives the completion callback passed to `execute`: a callback of
      the caller's own (recorded as it is called), or the callback the request
      handler builds (src/goa.js:42-49), which forwards a truthy error to `next`
      and otherwise sends the value as the response body. */
  datatype Completion = ToCaller | ToDispatcher

  /** The properties an options argument starts out with, before defaults. */
  function GivenProps(arg: OptionsArg): map<string, JsVal>
    reads if arg.ObjectArg? then {arg.obj} else {}
  {
    match arg
    case NumberArg(n) => map["status" := Num(n)]
    case ObjectArg(obj) => obj.props
    case NoOptions => map[]
  }

  /** The options after `createOptions` fills in a default status: the given
      status stays when it is truthy, the default takes its place only when the
      given one is falsy, and no other property changes. */
  function NormalizeOptions(given: map<string, JsVal>, defaultStatus: JsVal): (o: map<string, JsVal>)
    ensures Get(o, "status") ==
      (if Truthy(Get(given, "status")) || !Truthy(defaultStatus) then Get(given, "status") else defaultStatus)
    ensures given.Keys <= o.Keys <= given.Keys + {"status"}
    ensures forall k :: k in o && k != "status" ==> o[k] == given[k]
  {
    if Truthy(defaultStatus) && !Truthy(Get(given, "status")) then given["status" := defaultStatus] else given
  }

  /** `createOptions(options, defaultStatus)`: a number becomes a fresh
      `{status: n}`, an object is used (and updated) in place, and nothing
      becomes a fresh `{}`. */
  method CreateOptions(arg: OptionsArg, defaultStatus: JsVal) returns (o: JsObject)
    modifies if arg.ObjectArg? then {arg.obj} else {}
    ensures arg.ObjectArg? ==> o == arg.obj
    ensures !arg.ObjectArg? ==> fresh(o)
    ensures o.props == NormalizeOptions(old(GivenProps(arg)), defaultStatus)
  {
    match arg {
      case NumberArg(n) =>
        o := new JsObject(map["status" := Num(n)]);
      case ObjectArg(obj) =>
        o := obj;
      case NoOptions =>
        o := new JsObject(map[]);
    }
    if Truthy(defaultStatus) && !Truthy(Get(o.props, "status")) {
      o.props := o.props["status" := defaultStatus];
    }
  }

  /** ActionResult's `options = options || {}`: a status of 0 is falsy and is
      replaced by an empty object before `createOptions` sees it. */
  function ActionGivenProps(arg: OptionsArg): map<string, JsVal>
    reads if arg.ObjectArg? then {arg.obj} else {}
  {
    if arg.NumberArg? && arg.n == 0 then map[] else GivenProps(arg)
  }

  /** The constructor shared by ActionResult, EmptyResult and JsonResult. */
  method CreateActionKind(kind: ActionKind, content: JsVal, contentType: JsVal, options: OptionsArg)
    returns (r: Result)
    modifies if options.ObjectArg? then {options.obj} else {}
    ensures r.ActionResult? && r.kind == kind
    ensures r.content == Or(content, Str(""))
    ensures options.ObjectArg? ==> r.options == options.obj
    ensures !options.ObjectArg? ==> fresh(r.options)
    ensures r.options.props == old(ActionGivenProps(options))["contentType" := Or(contentType, Str("text/plain"))]
  {
    var opts := options;
    if opts.NumberArg? && opts.n == 0 {
      opts := NoOptions;
    }
    var o := CreateOptions(opts, Undefined);
    o.props := o.props["contentType" := Or(contentType, Str("text/plain"))];
    r := ActionResult(kind, Or(content, Str("")), o);
  }

  /** `new ActionResult(content, contentType, options)` */
  method CreateAction(content: JsVal, contentType: JsVal, options: OptionsArg) returns (r: Result)
    modifies if options.ObjectArg? then {options.obj} else {}
    ensures r.ActionResult? && r.kind == PlainAction
    ensures r.content == Or(content, Str(""))
    ensures options.ObjectArg? ==> r.options == options.obj
    ensures !options.ObjectArg? ==> fresh(r.options)
    ensures r.options.props == old(ActionGivenProps(options))["contentType" := Or(contentType, Str("text/plain"))]
  {
    r := CreateActionKind(PlainAction, content, contentType, options);
  }

  /** `new EmptyResult(contentType)`: empty content, status 204. */
  method CreateEmpty(contentType: JsVal) returns (r: Result)
    ensures r.ActionResult? && r.kind == EmptyAction
    ensures r.content == Str("")
    ensures fresh(r.options)
    ensures r.options.props == map["status" := Num(204), "contentType" := Or(contentType, Str("text/plain"))]
  {
    var literal := new JsObject(map["status" := Num(204)]);
    r := CreateActionKind(EmptyAction, Str(""), contentType, ObjectArg(literal));
  }

  /** `new JsonResult(json, options)`: the content type is always
      application/json, whatever the options say. */
  method CreateJson(json: JsVal, options: OptionsArg) returns (r: Result)
    modifies if options.ObjectArg? then {options.obj} else {}
    ensures r.ActionResult? && r.kind == JsonAction
    ensures r.content == Or(json, Str(""))
    ensures options.ObjectArg? ==> r.options == options.obj
    ensures !options.ObjectArg? ==> fresh(r.options)
    ensures r.options.props == old(ActionGivenProps(options))["contentType" := Str("application/json")]
  {
    r := CreateActionKind(JsonAction, json, Str("application/json"), options);
  }

  /** `new FileResult(file, options)` */
  method CreateFile(file: string, options: OptionsArg) returns (r: Result)
    modifies if options.ObjectArg? then {options.obj} else {}
    ensures r == FileResult(file, r.options)
    ensures options.ObjectArg? ==> r.options == options.obj
    ensures !options.ObjectArg? ==> fresh(r.options)
    ensures r.options.props == old(GivenProps(options))
  {
    var o := CreateOptions(options, Undefined);
    r := FileResult(file, o);
  }

  /** `new ViewResult(view, params, options)`: a params producer is called
      here, once, and the result keeps what it returned. */
  method CreateView(view: JsVal, params: ViewParamsArg, options: OptionsArg) returns (r: Result)
    modifies if options.ObjectArg? then {options.obj} else {}
    ensures r == ViewResult(view, if params.Producer? then params.produces else params.value, r.options)
    ensures options.ObjectArg? ==> r.options == options.obj
    ensures !options.ObjectArg? ==> fresh(r.options)
    ensures r.options.props == old(GivenProps(options))
  {
    var p := if params.Producer? then params.produces else params.value;
    var o := CreateOptions(options, Undefined);
    r := ViewResult(view, p, o);
  }

  /** `new ErrorResult(err, options)`: the error defaults to
      `Error('An error occurred')`, the status to 500. */
  method CreateError(err: JsVal, options: OptionsArg) returns (r: Result)
    modifies if options.ObjectArg? then {options.obj} else {}
    ensures r == ErrorResult(Or(err, NewError("An error occurred")), r.options)
    ensures options.ObjectArg? ==> r.options == options.obj
    ensures !options.ObjectArg? ==> fresh(r.options)
    ensures r.options.props == NormalizeOptions(old(GivenProps(options)), Num(500))
  {
    var o := CreateOptions(options, Num(500));
    r := ErrorResult(Or(err, NewError("An error occurred")), o);
  }

  /** `new RedirectResult(url, options)`: the status defaults to 302. */
  method CreateRedirect(url: JsVal, options: OptionsArg) returns (r: Result)
    modifies if options.ObjectArg? then {options.obj} else {}
    ensures r == RedirectResult(url, r.options)
    ensures options.ObjectArg? ==> r.options == options.obj
    ensures !options.ObjectArg? ==> fresh(r.options)
    ensures r.options.props == NormalizeOptions(old(GivenProps(options)), Num(302))
  {
    var o := CreateOptions(options, Num(302));
    r := RedirectResult(url, o);
  }

  // ---------------------------------------------------------------------------
  // execute

  /** The calls `applyCommonOptions` makes: `status(s)` exactly when the status
      is truthy, the Content-Type header exactly when the content type is
      truthy, and the status call first. */
  function CommonEvents(props: map<string, JsVal>): (e: seq<Event>)
    ensures |e| == (if Truthy(Get(props, "status")) then 1 else 0) + (if Truthy(Get(props, "contentType")) then 1 else 0)
    ensures Truthy(Get(props, "status")) <==> (|e| > 0 && e[0] == StatusSet(Get(props, "status")))
    ensures Truthy(Get(props, "contentType")) <==>
      (|e| > 0 && e[|e| - 1] == HeaderSet("Content-Type", Get(props, "contentType")))
    ensures forall i :: 0 <= i < |e| ==>
      e[i] == StatusSet(Get(props, "status")) || e[i] == HeaderSet("Content-Type", Get(props, "contentType"))
  {
    var status := Get(props, "status");
    var contentType := Get(props, "contentType");
    (if Truthy(status) then [StatusSet(status)] else [])
    + (if Truthy(contentType) then [HeaderSet("Content-Type", contentType)] else [])
  }

  method ApplyCommonOptions(res: Response, options: JsObject)
    modifies res
    ensures res.events == old(res.events) + CommonEvents(options.props)
  {
    var status := Get(options.props, "status");
    if Truthy(status) {
      res.Status(status);
    }
    var contentType := Get(options.props, "contentType");
    if Truthy(contentType) {
      res.Set("Content-Type", contentType);
    }
  }

  /** The call made when an `execute` invokes its completion callback: the
      caller's own callback, or for the dispatch callback either `next` or
      `send`, never both. */
  function Finish(k: Completion, err: JsVal, value: JsVal): (e: Event)
    ensures e.CallbackCalled? <==> k == ToCaller
    ensures e.NextCalled? <==> k == ToDispatcher && Truthy(err)
    ensures e.BodySent? <==> k == ToDispatcher && !Truthy(err)
    ensures e.NextCalled? ==> e.err == err
    ensures e.CallbackCalled? ==> e.err == err && e.value == value
    ensures e.BodySent? ==> e.body == value
  {
    match k
    case ToCaller => CallbackCalled(err, value)
    case ToDispatcher => if Truthy(err) then NextCalled(err) else BodySent(value)
  }

  method Complete(k: Completion, err: JsVal, value: JsVal, res: Response)
    modifies res
    ensures res.events == old(res.events) + [Finish(k, err, value)]
  {
    match k
    case ToCaller =>
      res.Callback(err, value);
    case ToDispatcher =>
      if Truthy(err) {
        res.Next(err);
      } else {
        res.Send(value);
      }
  }

  predicate IsWordChar(c: char) {
    ('a' <= c <= 'z') || ('A' <= c <= 'Z') || ('0' <= c <= '9') || c == '_'
  }

  /** Length of the longest prefix of `s` made of `\w` characters. */
  function WordPrefixLength(s: string): (n: nat)
    ensures n <= |s|
    ensures forall i :: 0 <= i < n ==> IsWordChar(s[i])
    ensures n < |s| ==> !IsWordChar(s[n])
  {
    if |s| == 0 || !IsWordChar(s[0]) then 0 else 1 + WordPrefixLength(s[1..])
  }

  /** The first group of `/^(\w+):\/\//.exec(file)`, if it matches. */
  function SchemeOf(file: string): (r: Option<string>)
    ensures r.Some? ==>
      && r.value != "" && |r.value| + 3 <= |file|
      && (forall i :: 0 <= i < |r.value| ==> IsWordChar(r.value[i]))
      && file[..|r.value| + 3] == r.value + "://"
  {
    var n := WordPrefixLength(file);
    if n > 0 && n + 3 <= |file| && file[n..n + 3] == "://" then Some(file[..n]) else None
  }

  /** The one call FileResult's `execute` makes after the common options. */
  function FileCall(file: string, props: map<string, JsVal>): (e: Event)
    ensures (e.Proxied? && e.remote == file) || e == Downloaded(file, Get(props, "fileName")) || e == FileSent(file, props)
    ensures e.Downloaded? ==> Truthy(e.fileName)
  {
    match SchemeOf(file)
    case Some(scheme) => Proxied(if scheme == "https" then Https else Http, file)
    case None =>
      if Truthy(Get(props, "fileName")) then Downloaded(file, Get(props, "fileName"))
      else FileSent(file, props)
  }

  /** The one call an `execute` makes of its own once the common options
      are applied, given the result's options as they are when it runs. */
  function OwnCall(r: Result, props: map<string, JsVal>, k: Completion): (e: Event)
    ensures !e.StatusSet? && !e.HeaderSet?
    ensures (e.Proxied? || e.Downloaded? || e.FileSent?) <==> r.FileResult?
    ensures e.Rendered? <==> r.ViewResult?
    ensures e.Redirected? <==> r.RedirectResult?
    ensures e.CallbackCalled? <==> r.ErrorResult? && k == ToCaller
    ensures e.NextCalled? <==> r.ErrorResult? && k == ToDispatcher && Truthy(r.error)
    ensures e.BodySent? ==> r.ActionResult? || (r.ErrorResult? && k == ToDispatcher)
  {
    match r
    case ActionResult(_, content, _) => BodySent(content)
    case FileResult(file, _) => FileCall(file, props)
    case ViewResult(view, params, _) => Rendered(view, params)
    case ErrorResult(error, _) => Finish(k, error, Undefined)
    case RedirectResult(url, _) => Redirected(Get(props, "status"), url)
  }

  /** The calls `execute` makes: the common options first, then exactly one
      call of its own. */
  function ExecuteEvents(r: Result, props: map<string, JsVal>, k: Completion): (e: seq<Event>)
    ensures |e| == |CommonEvents(props)| + 1
    ensures e[..|e| - 1] == CommonEvents(props)
    ensures e[|e| - 1] == OwnCall(r, props, k)
  {
    CommonEvents(props) + [OwnCall(r, props, k)]
  }

  /** FileResult's own call: a `scheme://` reference is proxied (over https
      only for the scheme `https`), otherwise a file name makes it a download,
      otherwise the file is sent. */
  method SendOrProxyFile(file: string, options: JsObject, res: Response)
    modifies res
    ensures res.events == old(res.events) + [FileCall(file, options.props)]
  {
    var fileName := Get(options.props, "fileName");
    var scheme := SchemeOf(file);
    if scheme.Some? {
      if scheme.value == "https" {
        res.Proxy(Https, file);
      } else {
        res.Proxy(Http, file);
      }
    } else if Truthy(fileName) {
      res.Download(file, fileName);
    } else {
      res.SendFile(file, options.props);
    }
  }

  /** What each kind of result does after `applyCommonOptions`. */
  method ExecuteOwnCall(r: Result, res: Response, k: Completion)
    modifies res
    ensures res.events == old(res.events) + [OwnCall(r, r.options.props, k)]
  {
    match r {
      case ActionResult(_, content, _) =>
        res.Send(content);
      case FileResult(file, options) =>
        SendOrProxyFile(file, options, res);
      case ViewResult(view, params, _) =>
        res.Render(view, params);
      case ErrorResult(error, _) =>
        Complete(k, error, Undefined, res);
      case RedirectResult(url, options) =>
        res.Redirect(Get(options.props, "status"), url);
    }
  }

  /** `result.execute(res, callback)`, for each kind of result. */
  method Execute(r: Result, res: Response, k: Completion)
    modifies res
    ensures res.events == old(res.events) + ExecuteEvents(r, r.options.props, k)
  {
    ApplyCommonOptions(res, r.options);
    ExecuteOwnCall(r, res, k);
  }
}
