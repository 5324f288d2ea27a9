/** What the request handler promises: failures reach `next` once with the
    exact messages, the dispatch completion never sends a body after an
    error, and the latch ignores every controller signal after the first. */
module DispatchProperties {
  import opened JsValues
  import opened Framework
  import opened Results
  import opened Params
  import opened Dispatch

  /** A factory error or a missing controller ends the request with exactly
      one `next`: the error itself, else a creation error naming the
      controller. No action method runs. */
  lemma CreationFailure(controllerName: JsVal, action: JsVal, sig: Signal, props: map<string, JsVal>)
    requires Truthy(sig.err) || sig.controller.None?
    ensures SelectedRun(controllerName, action, sig) == None
    ensures SignalEvents(controllerName, action, sig, props) ==
      [NextCalled(Or(sig.err, NewError(CreateFailedMessage(controllerName))))]
  {
  }

  /** A factory that throws a falsy value without calling its callback is
      reported as a controller that could not be created. */
  lemma FalsyThrowIsCreationFailure(controllerName: JsVal, action: JsVal, run: FactoryRun, props: map<string, JsVal>)
    requires run.callback.None? && run.exit.FactoryThrows? && !Truthy(run.exit.error)
    ensures FirstSignal(run).Some?
    ensures SignalEvents(controllerName, action, FirstSignal(run).value, props) ==
      [NextCalled(NewError(CreateFailedMessage(controllerName)))]
  {
  }

  /** With neither the named action nor `handleUnknownAction` on the
      controller, the request ends with one `next` naming both. */
  lemma ActionNotFound(controllerName: JsVal, action: JsVal, err: JsVal, c: Controller, props: map<string, JsVal>)
    requires !Truthy(err) && !IsMethod(c, ToString(action)) && !IsMethod(c, UnknownActionName)
    ensures SelectedRun(controllerName, action, Signal(err, Some(c))) == None
    ensures SignalEvents(controllerName, action, Signal(err, Some(c)), props) ==
      [NextCalled(NewError(NotFoundMessage(action, controllerName)))]
  {
  }

  /** The named action wins over `handleUnknownAction`, which is used only
      when the named action is not a method. */
  lemma ActionSelection(controllerName: JsVal, action: JsVal, err: JsVal, c: Controller)
    requires !Truthy(err) && (IsMethod(c, ToString(action)) || IsMethod(c, UnknownActionName))
    ensures var name := if IsMethod(c, ToString(action)) then ToString(action) else UnknownActionName;
            SelectedRun(controllerName, action, Signal(err, Some(c))) == Some(c.members[name].run)
  {
  }

  /** When `handleUnknownAction` runs and sends no result, the error names
      the action that was requested, not `handleUnknownAction`. */
  lemma UnknownActionReportsRequestedName(controllerName: JsVal, action: JsVal, c: Controller, props: map<string, JsVal>)
    requires !IsMethod(c, ToString(action)) && IsMethod(c, UnknownActionName)
    requires c.members[UnknownActionName].run == ActionRun(Some(NoResult), Returns(false))
    ensures SignalEvents(controllerName, action, Signal(Null, Some(c)), props) ==
      [NextCalled(NewError(NoResultMessage(controllerName, action)))]
  {
  }

  /** An action that throws synchronously has its exception forwarded to
      `next` as the last thing the handler does for that signal. */
  lemma SyncThrowForwarded(controllerName: JsVal, action: JsVal, sig: Signal, props: map<string, JsVal>)
    requires SelectedRun(controllerName, action, sig).Some?
    requires SelectedRun(controllerName, action, sig).value.exit.Throws?
    ensures var e := SignalEvents(controllerName, action, sig, props);
            |e| > 0 && e[|e| - 1] == NextCalled(SelectedRun(controllerName, action, sig).value.exit.error)
  {
  }

  /** The completion handed to `execute`: a truthy error goes to `next` and
      nothing is sent; otherwise the value is sent and `next` is not called. */
  lemma CompletionExclusive(err: JsVal, value: JsVal)
    ensures Finish(ToDispatcher, err, value).NextCalled? <==> Truthy(err)
    ensures Finish(ToDispatcher, err, value).BodySent? <==> !Truthy(err)
    ensures Truthy(err) ==> Finish(ToDispatcher, err, value) == NextCalled(err)
  {
  }

  /** A call that ends what an `execute` does. */
  predicate Terminal(e: Event) {
    !e.StatusSet? && !e.HeaderSet?
  }

  /** Every built-in result's `execute` makes exactly one terminal call, and
      makes it last; everything before it sets the status or a header. */
  lemma OneTerminalCall(r: Result, props: map<string, JsVal>, k: Completion)
    ensures var e := ExecuteEvents(r, props, k);
            && |e| > 0 && Terminal(e[|e| - 1])
            && (forall i :: 0 <= i < |e| - 1 ==> !Terminal(e[i]))
  {
    var e := ExecuteEvents(r, props, k);
    var common := CommonEvents(props);
    assert e[..|e| - 1] == common;
    forall i | 0 <= i < |e| - 1 ensures !Terminal(e[i]) {
      assert e[i] == common[i];
    }
  }

  /** An ErrorResult sent back by an action ends the request in `next` with
      its error, and no body is sent. */
  lemma ErrorResultNeverSends(err: JsVal, o: JsObject, props: map<string, JsVal>)
    ensures var e := SendEvents(Null, Null, Builtin(ErrorResult(Or(err, NewError("An error occurred")), o)), props);
            && e[|e| - 1] == NextCalled(Or(err, NewError("An error occurred")))
            && (forall i :: 0 <= i < |e| ==> !e[i].BodySent?)
  {
  }

  /** The creation error for a controller `foo`, and for a request that
      names no controller. */
  lemma CreationMessages()
    ensures CreateFailedMessage(Str("foo")) == "Unable to create controller \"foo\""
    ensures CreateFailedMessage(Undefined) == "Unable to create controller \"undefined\""
  {
  }

  /** The not-found error for an action `bar` on a controller `foo`. */
  lemma NotFoundMessageText()
    ensures NotFoundMessage(Str("bar"), Str("foo")) == "Unable to find action method \"bar\" on controller \"foo\""
  {
  }

  /** The handler does not make `next` and a response exclusive: an action
      that sends a result synchronously and then throws produces both. */
  lemma SendThenThrowDoesBoth(c: Controller)
    requires c.members == map["bar" := Method(ActionRun(Some(Custom(Some(DoneArgs(Null, Str("ok"))))),
                                                           Throws(NewError("late"))))]
    ensures SignalEvents(Str("foo"), Str("bar"), Signal(Null, Some(c)), map[]) ==
      [BodySent(Str("ok")), NextCalled(NewError("late"))]
  {
  }

  /** A factory calls its callback with a controller, then returns a promise
      that resolves to a controller as well; afterwards the callback is called
      once more with an error. Only the first signal has an effect: the action
      runs once and the request ends with its one response. */
  method LatchScenario(req: Request, c: Controller) returns (events: seq<Event>)
    requires req.params == map["controller" := Str("foo"), "action" := Str("bar")]
    requires c.members == map["bar" := Method(ActionRun(Some(Custom(Some(DoneArgs(Null, Str("ok"))))),
                                                           Returns(false)))]
    ensures events == [BodySent(Str("ok"))]
  {
    var res := new Response();
    var h := new RequestHandler(req, map[], Str("index"), res);
    assert h.action == Str("bar") && h.controllerName == Str("foo");
    h.InvokeFactory(FactoryRun(Some(Signal(Null, Some(c))), FactoryReturns(true)));
    h.FactorySettled(Resolved(Some(c)));
    h.HandleController(NewError("too late"), None);
    events := res.events;
  }

  /** The factory is asked for the controller the routing picked: two
      requests with the same path parameters ask for the same controller,
      whatever their bodies and query strings hold. */
  method FactoryAskedForRoutedController(req1: Request, req2: Request, actionParams: map<string, JsVal>,
                                          run1: FactoryRun, run2: FactoryRun)
    returns (asked1: JsVal, asked2: JsVal)
    requires req1.params == req2.params
    ensures asked1 == asked2 == RoutingValue(req1, actionParams, "controller")
  {
    var res1 := new Response();
    var h1 := new RequestHandler(req1, actionParams, Str("index"), res1);
    h1.InvokeFactory(run1);
    asked1 := h1.factoryName.value;
    var res2 := new Response();
    var h2 := new RequestHandler(req2, actionParams, Str("index"), res2);
    h2.InvokeFactory(run2);
    asked2 := h2.factoryName.value;
    RoutingIgnoresBodyAndQuery(req1, req2, actionParams);
  }

  /** A route registered with `{controller: 'whatever', action: 'index'}`
      and a request with no parameters of its own: the action method is
      called with exactly those two parameters. */
  method ActionReceivesMergedParams(c: Controller) returns (args: map<string, JsVal>)
    requires c.members == map["index" := Method(ActionRun(None, Returns(false)))]
    ensures args == map["controller" := Str("whatever"), "action" := Str("index")]
  {
    var req := Request(map[], map[], map[]);
    var staticParams := map["controller" := Str("whatever"), "action" := Str("index")];
    var res := new Response();
    var h := new RequestHandler(req, staticParams, Str("index"), res);
    h.InvokeFactory(FactoryRun(Some(Signal(Null, Some(c))), FactoryReturns(false)));
    assert h.action == Str("index");
    args := h.actionArgs.value;
    assert args.Keys == staticParams.Keys;
  }
}
