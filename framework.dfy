/** The web framework's side of the boundary, seen only through the calls made
    on it. The response object, the framework's `next` callback and the
    completion callback a caller hands to a result's `execute` are recorded in
    one ordered log, so that properties about the order of calls can be stated.
    What the framework does with each call (status line, headers, template
    rendering, file streaming, JSON encoding) is not modelled. */
module Framework {
  import opened JsValues

  /** Transport chosen by a file result that proxies a remote URL. */
  datatype Protocol = Http | Https

  /** One call, in the order it was made. */
  datatype Event =
    | StatusSet(code: JsVal)                          // res.status(code)
    | HeaderSet(name: string, value: JsVal)           // res.set(name, value)
    | BodySent(body: JsVal)                           // res.send(body)
    | Redirected(code: JsVal, url: JsVal)             // res.redirect(code, url)
    | Rendered(view: JsVal, params: JsVal)            // res.render(view, params, callback)
    | Downloaded(file: string, fileName: JsVal)       // res.download(file, fileName)
    | FileSent(file: string, options: map<string, JsVal>) // res.sendFile(file, options)
    | Proxied(protocol: Protocol, remote: string)      // http.get / https.get of a remote file
    | CallbackCalled(err: JsVal, value: JsVal)        // the completion callback given to execute
    | NextCalled(err: JsVal)                          // the framework's next(err)

  /** The response object together with the callbacks around it. */
  class Response {
    var events: seq<Event>

    constructor ()
      ensures events == []
    {
      events := [];
    }

    method Status(code: JsVal)
      modifies this
      ensures events == old(events) + [StatusSet(code)]
    {
      events := events + [StatusSet(code)];
    }

    method Set(name: string, value: JsVal)
      modifies this
      ensures events == old(events) + [HeaderSet(name, value)]
    {
      events := events + [HeaderSet(name, value)];
    }

    method Send(body: JsVal)
      modifies this
      ensures events == old(events) + [BodySent(body)]
    {
      events := events + [BodySent(body)];
    }

    method Redirect(code: JsVal, url: JsVal)
      modifies this
      ensures events == old(events) + [Redirected(code, url)]
    {
      events := events + [Redirected(code, url)];
    }

    method Render(view: JsVal, params: JsVal)
      modifies this
      ensures events == old(events) + [Rendered(view, params)]
    {
      events := events + [Rendered(view, params)];
    }

    method Download(file: string, fileName: JsVal)
      modifies this
      ensures events == old(events) + [Downloaded(file, fileName)]
    {
      events := events + [Downloaded(file, fileName)];
    }

    method SendFile(file: string, options: map<string, JsVal>)
      modifies this
      ensures events == old(events) + [FileSent(file, options)]
    {
      events := events + [FileSent(file, options)];
    }

    method Proxy(protocol: Protocol, url: string)
      modifies this
      ensures events == old(events) + [Proxied(protocol, url)]
    {
      events := events + [Proxied(protocol, url)];
    }

    method Callback(err: JsVal, value: JsVal)
      modifies this
      ensures events == old(events) + [CallbackCalled(err, value)]
    {
      events := events + [CallbackCalled(err, value)];
    }

    method Next(err: JsVal)
      modifies this
      ensures events == old(events) + [NextCalled(err)]
    {
      events := events + [NextCalled(err)];
    }
  }
}
