/** The parameter merger (`parseRequest` in src/goa.js): one flat bag built
    from the query string, the body, the route-path parameters and the
    route's static parameters, with the routing keys protected. */
module Params {
  import opened JsValues

  /** The three request sources. An absent body spreads like an empty one. */
  datatype Request = Request(query: map<string, JsVal>, body: map<string, JsVal>, params: map<string, JsVal>)

  /** Where a routing key (`controller` or `action`) comes from: the static
      value when it is truthy, else the route-path parameter, whatever it is. */
  function RoutingValue(req: Request, staticParams: map<string, JsVal>, key: string): JsVal {
    Or(Get(staticParams, key), Get(req.params, key))
  }

  /** The value an ordinary key takes: static parameters win over path
      parameters, which win over the body, which wins over the query string. */
  function Precedence(req: Request, staticParams: map<string, JsVal>, key: string): JsVal {
    if key in staticParams then staticParams[key]
    else if key in req.params then req.params[key]
    else if key in req.body then req.body[key]
    else Get(req.query, key)
  }

  function ParseRequest(req: Request, staticParams: map<string, JsVal>): (r: map<string, JsVal>)
    ensures r.Keys == req.query.Keys + req.body.Keys + req.params.Keys + staticParams.Keys + {"controller", "action"}
    ensures r["controller"] == RoutingValue(req, staticParams, "controller")
    ensures r["action"] == RoutingValue(req, staticParams, "action")
    ensures forall k :: k in r && k != "controller" && k != "action" ==> r[k] == Precedence(req, staticParams, k)
  {
    var spread := req.query + req.body + req.params + staticParams;
    assert forall k :: k in spread ==> spread[k] == Precedence(req, staticParams, k);
    spread["controller" := RoutingValue(req, staticParams, "controller")]
          ["action" := RoutingValue(req, staticParams, "action")]
  }

  /** A client cannot choose the controller or the action: whatever the body
      and the query string hold, the merged routing keys are the same. */
  lemma RoutingIgnoresBodyAndQuery(req1: Request, req2: Request, staticParams: map<string, JsVal>)
    requires req1.params == req2.params
    ensures ParseRequest(req1, staticParams)["controller"] == ParseRequest(req2, staticParams)["controller"]
    ensures ParseRequest(req1, staticParams)["action"] == ParseRequest(req2, staticParams)["action"]
  {
  }

  /** Truthy static routing values always win. */
  lemma StaticRoutingWins(req: Request, staticParams: map<string, JsVal>, key: string)
    requires key == "controller" || key == "action"
    requires key in staticParams && Truthy(staticParams[key])
    ensures ParseRequest(req, staticParams)[key] == staticParams[key]
  {
  }

  /** A key of the body that the path parameters also carry resolves to the
      path parameter's value (unless it is a routing key or static). */
  lemma PathBeatsBody(req: Request, staticParams: map<string, JsVal>, key: string)
    requires key in req.body && key in req.params && key !in staticParams
    requires key != "controller" && key != "action"
    ensures ParseRequest(req, staticParams)[key] == req.params[key]
  {
  }
}
