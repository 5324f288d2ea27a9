/** The per-request handler built by `middleware` (src/goa.js): merge the
    parameters, obtain a controller from the factory through a one-shot latch,
    pick the action method, and turn what the action sends back into calls on
    the response or on `next`.

    Asynchrony is modelled as the environment calling the handler's methods:
    every invocation of a callback the handler handed out (the factory's
    callback, the action's `send`, the completion given to `execute`) and every
    settlement of a promise it subscribed to is one method call, in whatever
    order the environment chooses. What a factory or an action does
    synchronously when it is called is given as data. */
module Dispatch {
  import opened JsValues
  import opened Framework
  import opened Results
  import opened Params

  /** The arguments an `execute` passes to its completion callback. */
  datatype DoneArgs = DoneArgs(err: JsVal, value: JsVal)

  /** What an action passes to its `send` callback. */
  datatype Sent =
    | NoResult                           // a falsy value, or an object without a truthy `execute`
    | Builtin(result: Result)            // one of the result objects
    | Custom(completes: Option<DoneArgs>) // another object with an `execute`, which calls its
                                         // completion synchronously with these arguments, or not

  /** How an action method's call ends: by throwing, or by returning a value
      that is or is not a thenable. */
  datatype ActionExit = Throws(error: JsVal) | Returns(thenable: bool)

  /** What an action method does synchronously when called: possibly call
      `send` once, then end. Later calls of `send` are method calls on the
      handler. */
  datatype ActionRun = ActionRun(send: Option<Sent>, exit: ActionExit)

  /** A property of a controller: a method with its behaviour, or a value that
      is not a function. */
  datatype Member = Method(run: ActionRun) | Property(value: JsVal)

  /** A controller object, given by its own properties. */
  datatype Controller = Controller(members: map<string, Member>)

  /** One call of the factory's callback `(err, controller)`; a missing or
      falsy controller is `None`. */
  datatype Signal = Signal(err: JsVal, controller: Option<Controller>)

  /** How the factory call itself ends. */
  datatype FactoryExit = FactoryThrows(error: JsVal) | FactoryReturns(thenable: bool)

  /** What the controller factory does synchronously: possibly call its
      callback once, then end. */
  datatype FactoryRun = FactoryRun(callback: Option<Signal>, exit: FactoryExit)

  /** The settlement of a promise the factory returned. */
  datatype Settlement = Resolved(controller: Option<Controller>) | Rejected(reason: JsVal)

  /** The decision the latch takes on the first signal. */
  datatype Outcome = Failed(error: JsVal) | Runs(name: string)

  const UnknownActionName: string := "handleUnknownAction"

  /** `typeof controller[name] === 'function'` */
  predicate IsMethod(c: Controller, name: string) {
    name in c.members && c.members[name].Method?
  }

  function CreateFailedMessage(controllerName: JsVal): string {
    "Unable to create controller \"" + ToString(controllerName) + "\""
  }

  function NotFoundMessage(action: JsVal, controllerName: JsVal): string {
    "Unable to find action method \"" + ToString(action) + "\" on controller \"" + ToString(controllerName) + "\""
  }

  function NoResultMessage(controllerName: JsVal, action: JsVal): string {
    "Action \"" + ToString(controllerName) + "." + ToString(action) + "\" does not return a result object"
  }

  /** What the handler does with the first controller signal: a factory error
      or a missing controller fails (the error itself, else a creation error
      naming the controller) and no action runs; otherwise the named action
      method runs if there is one, else `handleUnknownAction` if there is one,
      else the handler fails with an error naming both. */
  function ControllerOutcome(controllerName: JsVal, action: JsVal, sig: Signal): (o: Outcome)
    ensures o.Runs? ==> !Truthy(sig.err) && sig.controller.Some? && IsMethod(sig.controller.value, o.name)
    ensures Truthy(sig.err) ==> o == Failed(sig.err)
    ensures !Truthy(sig.err) && sig.controller.None? ==>
      o == Failed(NewError(CreateFailedMessage(controllerName)))
    ensures !Truthy(sig.err) && sig.controller.Some? ==>
      var c := sig.controller.value;
      && (IsMethod(c, ToString(action)) ==> o == Runs(ToString(action)))
      && (!IsMethod(c, ToString(action)) && IsMethod(c, UnknownActionName) ==> o == Runs(UnknownActionName))
      && (!IsMethod(c, ToString(action)) && !IsMethod(c, UnknownActionName) ==>
            o == Failed(NewError(NotFoundMessage(action, controllerName))))
  {
    if Truthy(sig.err) then Failed(sig.err)
    else if sig.controller.None? then Failed(NewError(CreateFailedMessage(controllerName)))
    else if IsMethod(sig.controller.value, ToString(action)) then Runs(ToString(action))
    else if IsMethod(sig.controller.value, UnknownActionName) then Runs(UnknownActionName)
    else Failed(NewError(NotFoundMessage(action, controllerName)))
  }

  /** Whether the `execute` of the sent value keeps the completion callback
      to call later: `render` hands it to the template engine, and another
      object's `execute` may hold on to it. The other built-in results drop it
      (ErrorResult calls it at once). */
  predicate KeepsCompletion(s: Sent): (b: bool)
    ensures s.Builtin? ==> forall props :: b <==> OwnCall(s.result, props, ToDispatcher).Rendered?
  {
    s.Custom? || (s.Builtin? && s.result.ViewResult?)
  }

  /** The options object an execute will read, if the sent value is a result. */
  function SentObjects(s: Sent): set<object> {
    if s.Builtin? then {s.result.options} else {}
  }

  function SentProps(s: Sent): map<string, JsVal>
    reads SentObjects(s)
  {
    if s.Builtin? then s.result.options.props else map[]
  }

  /** The calls the `send` callback makes: without a result, one `next` with
      an error naming the controller and the requested action; otherwise the
      result's `execute`, whose completion forwards a truthy error to `next`
      and otherwise sends the value. */
  function SendEvents(controllerName: JsVal, action: JsVal, s: Sent, props: map<string, JsVal>): (e: seq<Event>)
    ensures s.NoResult? ==> e == [NextCalled(NewError(NoResultMessage(controllerName, action)))]
    ensures s.Builtin? ==> e == ExecuteEvents(s.result, props, ToDispatcher)
    ensures s.Custom? && s.completes.Some? && Truthy(s.completes.value.err) ==>
      e == [NextCalled(s.completes.value.err)]
    ensures s.Custom? && s.completes.Some? && !Truthy(s.completes.value.err) ==>
      e == [BodySent(s.completes.value.value)]
    ensures s.Custom? && s.completes.None? ==> e == []
  {
    match s
    case NoResult => [NextCalled(NewError(NoResultMessage(controllerName, action)))]
    case Builtin(r) => ExecuteEvents(r, props, ToDispatcher)
    case Custom(d) => if d.Some? then [Finish(ToDispatcher, d.value.err, d.value.value)] else []
  }

  /** The action run the latch selects for a signal, if any. */
  function SelectedRun(controllerName: JsVal, action: JsVal, sig: Signal): Option<ActionRun> {
    var o := ControllerOutcome(controllerName, action, sig);
    if o.Runs? then Some(sig.controller.value.members[o.name].run) else None
  }

  function SignalObjects(controllerName: JsVal, action: JsVal, sig: Signal): set<object> {
    var run := SelectedRun(controllerName, action, sig);
    if run.Some? && run.value.send.Some? then SentObjects(run.value.send.value) else {}
  }

  /** The options the result sent synchronously by the selected action holds,
      read when its `execute` runs. */
  function SignalProps(controllerName: JsVal, action: JsVal, sig: Signal): map<string, JsVal>
    reads SignalObjects(controllerName, action, sig)
  {
    var run := SelectedRun(controllerName, action, sig);
    if run.Some? && run.value.send.Some? then SentProps(run.value.send.value) else map[]
  }

  /** Everything the handler does on the first controller signal: one `next`
      on failure; otherwise what the action's synchronous `send` (if any)
      causes, then one `next` if the action threw. `props` are the options of
      the result that is sent, as `execute` reads them. */
  function SignalEvents(controllerName: JsVal, action: JsVal, sig: Signal, props: map<string, JsVal>): (e: seq<Event>)
    ensures ControllerOutcome(controllerName, action, sig).Failed? ==>
      e == [NextCalled(ControllerOutcome(controllerName, action, sig).error)]
    ensures var run := SelectedRun(controllerName, action, sig);
      run.Some? && run.value.exit.Throws? ==> |e| > 0 && e[|e| - 1] == NextCalled(run.value.exit.error)
    ensures var run := SelectedRun(controllerName, action, sig);
      run.Some? && run.value.send.None? ==> e == (if run.value.exit.Throws? then [NextCalled(run.value.exit.error)] else [])
  {
    match ControllerOutcome(controllerName, action, sig)
    case Failed(e) => [NextCalled(e)]
    case Runs(m) =>
      var run := sig.controller.value.members[m].run;
      (if run.send.Some? then SendEvents(controllerName, action, run.send.value, props) else [])
      + (if run.exit.Throws? then [NextCalled(run.exit.error)] else [])
  }

  /** The first signal the latch sees during the factory call: the callback,
      if the factory called it, else the exception, if it threw. */
  function FirstSignal(run: FactoryRun): (r: Option<Signal>)
    ensures r.Some? <==> run.callback.Some? || run.exit.FactoryThrows?
    ensures run.callback.Some? ==> r == run.callback
    ensures run.callback.None? && run.exit.FactoryThrows? ==> r == Some(Signal(run.exit.error, None))
  {
    if run.callback.Some? then run.callback
    else if run.exit.FactoryThrows? then Some(Signal(run.exit.error, None))
    else None
  }

  class RequestHandler {
    const params: map<string, JsVal>
    const controllerName: JsVal
    const action: JsVal
    const res: Response
    /** The factory has been called (its callback exists). */
    var factoryCalled: bool
    /** The controller name the factory was called with. */
    var factoryName: Option<JsVal>
    /** The factory returned a thenable that has not settled yet. */
    var factoryThenable: bool
    /** `controllerHandled`: the one-shot latch. */
    var controllerHandled: bool
    /** The controller method `runAction` called, if any. */
    var ranMethod: Option<string>
    /** The parameter bag that method was called with. */
    var actionArgs: Option<map<string, JsVal>>
    /** The action returned a thenable that has not settled yet. */
    var actionThenable: bool
    /** Some `execute` holds on to the completion callback. */
    var completionIssued: bool

    /** The order in which the handler's states can be reached. */
    ghost predicate Valid()
      reads this
    {
      && (controllerHandled ==> factoryCalled)
      && factoryName == (if factoryCalled then Some(controllerName) else None)
      && actionArgs == (if ranMethod.Some? then Some(params) else None)
      && (factoryThenable ==> factoryCalled)
      && (ranMethod.Some? ==> controllerHandled)
      && (actionThenable ==> ranMethod.Some?)
      && (completionIssued ==> ranMethod.Some?)
    }

    /** The latch has fired on `sig`: the action it selected (if any) has
        been called, and what that call left behind is recorded. */
    ghost predicate Dispatched(sig: Signal)
      reads this
    {
      var selected := SelectedRun(controllerName, action, sig);
      && controllerHandled
      && ranMethod == (if selected.Some? then Some(ControllerOutcome(controllerName, action, sig).name) else None)
      && actionArgs == (if selected.Some? then Some(params) else None)
      && actionThenable == (selected.Some? && selected.value.exit == Returns(true))
      && completionIssued == (selected.Some? && selected.value.send.Some? && KeepsCompletion(selected.value.send.value))
    }

    /** Entry of the handler: merge the parameters and fix the controller
        name and the action (the merged action, else the default action). */
    constructor (req: Request, actionParams: map<string, JsVal>, defaultAction: JsVal, res: Response)
      ensures Valid()
      ensures params == ParseRequest(req, actionParams)
      ensures controllerName == RoutingValue(req, actionParams, "controller")
      ensures action == Or(RoutingValue(req, actionParams, "action"), defaultAction)
      ensures this.res == res
      ensures !factoryCalled && !factoryThenable && !controllerHandled
      ensures ranMethod == None && !actionThenable && !completionIssued
      ensures factoryName == None && actionArgs == None
    {
      params := ParseRequest(req, actionParams);
      controllerName := ParseRequest(req, actionParams)["controller"];
      action := Or(ParseRequest(req, actionParams)["action"], defaultAction);
      this.res := res;
      factoryCalled, factoryThenable, controllerHandled := false, false, false;
      ranMethod, actionThenable, completionIssued := None, false, false;
      factoryName, actionArgs := None, None;
    }

    /** Call the controller factory with the controller name: a synchronous
        callback goes through the latch, a thrown exception is fed to the
        latch as an error, and a returned thenable is subscribed to. */
    method InvokeFactory(run: FactoryRun)
      requires Valid() && !factoryCalled
      modifies this, res
      ensures Valid() && factoryCalled && factoryName == Some(controllerName)
      ensures factoryThenable == (run.exit == FactoryReturns(true))
      ensures FirstSignal(run).None? ==>
        && !controllerHandled && ranMethod == None && !actionThenable && !completionIssued
        && res.events == old(res.events)
      ensures FirstSignal(run).Some? ==>
        && Dispatched(FirstSignal(run).value)
        && res.events == old(res.events) + SignalEvents(controllerName, action, FirstSignal(run).value,
             old(SignalProps(controllerName, action, FirstSignal(run).value)))
    {
      factoryCalled, factoryName := true, Some(controllerName);
      if run.callback.Some? {
        HandleController(run.callback.value.err, run.callback.value.controller);
      }
      ghost var afterCallback := res.events;
      match run.exit {
        case FactoryThrows(e) =>
          // after a synchronous callback the latch has fired already
          HandleController(e, None);
          assert run.callback.Some? ==> res.events == afterCallback;
        case FactoryReturns(thenable) =>
          factoryThenable := thenable;
      }
    }

    /** The promise the factory returned settles: a resolution feeds
        `(null, controller)` to the latch, a rejection `(reason)`. */
    method FactorySettled(s: Settlement)
      requires Valid() && factoryThenable
      modifies this, res
      ensures Valid() && !factoryThenable && factoryCalled
      ensures var sig := if s.Resolved? then Signal(Null, s.controller) else Signal(s.reason, None);
        && (old(controllerHandled) ==>
              && res.events == old(res.events)
              && controllerHandled && ranMethod == old(ranMethod)
              && actionThenable == old(actionThenable) && completionIssued == old(completionIssued))
        && (!old(controllerHandled) ==>
              && Dispatched(sig)
              && res.events == old(res.events) + SignalEvents(controllerName, action, sig, old(SignalProps(controllerName, action, sig))))
    {
      factoryThenable := false;
      match s {
        case Resolved(c) =>
          HandleController(Null, c);
        case Rejected(reason) =>
          HandleController(reason, None);
      }
    }

    /** `handleController(err, controller)`, the factory's callback. Only its
        first invocation has any effect. */
    method HandleController(err: JsVal, controller: Option<Controller>)
      requires Valid() && factoryCalled
      modifies this, res
      ensures Valid()
      ensures factoryCalled && factoryThenable == old(factoryThenable)
      ensures old(controllerHandled) ==>
        && res.events == old(res.events)
        && controllerHandled && ranMethod == old(ranMethod)
        && actionThenable == old(actionThenable) && completionIssued == old(completionIssued)
      ensures !old(controllerHandled) ==>
        && Dispatched(Signal(err, controller))
        && res.events == old(res.events) + SignalEvents(controllerName, action, Signal(err, controller),
             old(SignalProps(controllerName, action, Signal(err, controller))))
    {
      if controllerHandled {
        return;
      }
      controllerHandled := true;
      Decide(err, controller);
    }

    /** What the latch does when it fires: fail on a factory error or a
        missing controller, else run the named action, else
        `handleUnknownAction`, else fail naming both; an exception thrown by
        the action is caught and passed to `next`. */
    method Decide(err: JsVal, controller: Option<Controller>)
      requires Valid() && controllerHandled && ranMethod.None? && !actionThenable && !completionIssued
      modifies this, res
      ensures Valid()
      ensures factoryCalled == old(factoryCalled) && factoryThenable == old(factoryThenable)
      ensures Dispatched(Signal(err, controller))
      ensures res.events == old(res.events) + SignalEvents(controllerName, action, Signal(err, controller),
             old(SignalProps(controllerName, action, Signal(err, controller))))
    {
      if Truthy(err) || controller.None? {
        res.Next(if Truthy(err) then err else NewError(CreateFailedMessage(controllerName)));
        return;
      }
      var c := controller.value;
      var thrown: Option<JsVal> := None;
      if IsMethod(c, ToString(action)) {
        thrown := RunAction(c, ToString(action));
      } else if IsMethod(c, UnknownActionName) {
        thrown := RunAction(c, UnknownActionName);
      } else {
        res.Next(NewError(NotFoundMessage(action, controllerName)));
        return;
      }
      // the catch around the action call
      if thrown.Some? {
        res.Next(thrown.value);
      }
    }

    /** `runAction(name)`: call the method with the parameters and `send`, and
        subscribe to a returned thenable's rejection. Reports what it threw. */
    method RunAction(c: Controller, name: string) returns (thrown: Option<JsVal>)
      requires Valid() && controllerHandled && ranMethod.None? && IsMethod(c, name)
      modifies this, res
      ensures Valid()
      ensures factoryCalled == old(factoryCalled) && factoryThenable == old(factoryThenable)
      ensures controllerHandled && ranMethod == Some(name) && actionArgs == Some(params)
      ensures var run := c.members[name].run;
        && thrown == (if run.exit.Throws? then Some(run.exit.error) else None)
        && actionThenable == (run.exit == Returns(true))
        && completionIssued == (run.send.Some? && KeepsCompletion(run.send.value))
        && res.events == old(res.events) +
             (if run.send.Some? then SendEvents(controllerName, action, run.send.value, old(SentProps(run.send.value))) else [])
    {
      var run := c.members[name].run;
      ranMethod, actionArgs := Some(name), Some(params);
      if run.send.Some? {
        SendResult(run.send.value);
      }
      match run.exit {
        case Throws(e) =>
          thrown := Some(e);
        case Returns(thenable) =>
          thrown := None;
          actionThenable := thenable;
      }
    }

    /** The `send` callback handed to the action. */
    method SendResult(s: Sent)
      requires Valid() && ranMethod.Some?
      modifies this, res
      ensures Valid()
      ensures factoryCalled == old(factoryCalled) && factoryThenable == old(factoryThenable)
      ensures controllerHandled == old(controllerHandled) && ranMethod == old(ranMethod)
      ensures actionThenable == old(actionThenable)
      ensures completionIssued == (old(completionIssued) || KeepsCompletion(s))
      ensures res.events == old(res.events) + SendEvents(controllerName, action, s, old(SentProps(s)))
    {
      if s.NoResult? {
        res.Next(NewError(NoResultMessage(controllerName, action)));
        return;
      }
      match s {
        case Builtin(r) =>
          Execute(r, res, ToDispatcher);
          if r.ViewResult? {
            completionIssued := true;
          }
        case Custom(d) =>
          completionIssued := true;
          if d.Some? {
            Complete(ToDispatcher, d.value.err, d.value.value, res);
          }
      }
    }

    /** The completion callback handed to `execute`, called later (for
        instance by the template engine after `render`). */
    method ExecuteDone(err: JsVal, value: JsVal)
      requires Valid() && completionIssued
      modifies res
      ensures res.events == old(res.events) + [if Truthy(err) then NextCalled(err) else BodySent(value)]
    {
      Complete(ToDispatcher, err, value, res);
    }

    /** The thenable the action returned rejects: the reason goes to `next`. */
    method ActionRejected(reason: JsVal)
      requires Valid() && actionThenable
      modifies this, res
      ensures Valid() && !actionThenable
      ensures factoryCalled == old(factoryCalled) && factoryThenable == old(factoryThenable)
      ensures controllerHandled == old(controllerHandled) && ranMethod == old(ranMethod)
      ensures completionIssued == old(completionIssued)
      ensures res.events == old(res.events) + [NextCalled(reason)]
    {
      actionThenable := false;
      res.Next(reason);
    }
  }
}
