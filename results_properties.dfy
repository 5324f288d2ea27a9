/** What the result objects promise, stated over the calls their `execute`
    makes once they have been built by their constructors. */
module ResultProperties {
  import opened JsValues
  import opened Framework
  import opened Results

  /** The scheme test of FileResult matches exactly the references that start
      with a non-empty run of word characters followed by `://`, and the
      captured scheme is that run. */
  lemma {:induction false} SchemeOfMatches(file: string, scheme: string)
    ensures SchemeOf(file) == Some(scheme) <==>
      && scheme != ""
      && (forall i :: 0 <= i < |scheme| ==> IsWordChar(scheme[i]))
      && |scheme| + 3 <= |file|
      && file[..|scheme| + 3] == scheme + "://"
  {
    var n := WordPrefixLength(file);
    if SchemeOf(file) == Some(scheme) {
      assert scheme == file[..n];
      assert file[..n + 3] == file[..n] + file[n..n + 3];
    }
    if && scheme != ""
       && (forall i :: 0 <= i < |scheme| ==> IsWordChar(scheme[i]))
       && |scheme| + 3 <= |file|
       && file[..|scheme| + 3] == scheme + "://"
    {
      var m := |scheme|;
      assert forall i :: 0 <= i < m ==> file[i] == scheme[i] by {
        forall i | 0 <= i < m ensures file[i] == scheme[i] {
          assert file[i] == file[..m + 3][i];
        }
      }
      assert file[m] == file[..m + 3][m] == ':';
      assert n == m;
      assert file[n..n + 3] == file[..m + 3][m..m + 3] == "://";
      assert file[..n] == file[..m + 3][..m] == scheme;
    }
  }

  /** FileResult's `execute` takes exactly one of its three branches. */
  lemma FileCallBranches(file: string, props: map<string, JsVal>)
    ensures FileCall(file, props).Proxied? <==> SchemeOf(file).Some?
    ensures FileCall(file, props) == Proxied(Https, file) <==> SchemeOf(file) == Some("https")
    ensures FileCall(file, props) == Proxied(Http, file) <==> SchemeOf(file).Some? && SchemeOf(file) != Some("https")
    ensures FileCall(file, props).Downloaded? <==> SchemeOf(file).None? && Truthy(Get(props, "fileName"))
    ensures FileCall(file, props).Downloaded? ==> FileCall(file, props) == Downloaded(file, Get(props, "fileName"))
    ensures FileCall(file, props) == FileSent(file, props) <==>
      SchemeOf(file).None? && !Truthy(Get(props, "fileName"))
  {
  }

  /** `createOptions(n, d)` for a bare number keeps `n` as the status unless
      it is 0, in which case the default (if any) is used. */
  lemma NumberOptions(n: int, defaultStatus: JsVal)
    ensures NormalizeOptions(GivenProps(NumberArg(n)), defaultStatus) ==
      map["status" := if n == 0 && Truthy(defaultStatus) then defaultStatus else Num(n)]
  {
  }

  /** Filling in the default status a second time changes nothing. */
  lemma NormalizeOptionsIdempotent(given: map<string, JsVal>, defaultStatus: JsVal)
    ensures NormalizeOptions(NormalizeOptions(given, defaultStatus), defaultStatus)
      == NormalizeOptions(given, defaultStatus)
  {
  }

  /** An ActionResult's content type is the positional argument or
      text/plain, whatever `options.contentType` said, and `execute` ends by
      sending the content once, right after setting that header. */
  lemma ActionExecute(content: JsVal, contentType: JsVal, given: map<string, JsVal>,
                      o: JsObject, kind: ActionKind, k: Completion)
    ensures var props := given["contentType" := Or(contentType, Str("text/plain"))];
            var e := ExecuteEvents(ActionResult(kind, Or(content, Str("")), o), props, k);
            && |e| >= 2
            && e[|e| - 2] == HeaderSet("Content-Type", Or(contentType, Str("text/plain")))
            && e[|e| - 1] == BodySent(Or(content, Str("")))
            && (forall i :: 0 <= i < |e| - 1 ==> !e[i].BodySent?)
  {
  }

  /** JsonResult always sets Content-Type to application/json before the one
      `send`, and a falsy JSON value is sent as ''. */
  lemma JsonExecute(json: JsVal, given: map<string, JsVal>, o: JsObject, k: Completion)
    ensures var props := given["contentType" := Str("application/json")];
            var e := ExecuteEvents(ActionResult(JsonAction, Or(json, Str("")), o), props, k);
            && |e| >= 2
            && e[|e| - 2] == HeaderSet("Content-Type", Str("application/json"))
            && e[|e| - 1] == BodySent(if Truthy(json) then json else Str(""))
  {
  }

  /** EmptyResult's `execute`: status 204, the content type, then `send('')`. */
  lemma EmptyExecute(contentType: JsVal, o: JsObject, k: Completion)
    ensures ExecuteEvents(ActionResult(EmptyAction, Str(""), o),
                          map["status" := Num(204), "contentType" := Or(contentType, Str("text/plain"))], k)
      == [StatusSet(Num(204)), HeaderSet("Content-Type", Or(contentType, Str("text/plain"))), BodySent(Str(""))]
  {
  }

  /** ErrorResult's `execute` under the request handler: the status (the given
      one, else 500) is set first and the error goes to `next`; no body is
      ever sent. */
  lemma ErrorExecute(err: JsVal, given: map<string, JsVal>, o: JsObject)
    ensures var error := Or(err, NewError("An error occurred"));
            var props := NormalizeOptions(given, Num(500));
            var e := ExecuteEvents(ErrorResult(error, o), props, ToDispatcher);
            && e[0] == StatusSet(Or(Get(given, "status"), Num(500)))
            && e[|e| - 1] == NextCalled(error)
            && (forall i :: 0 <= i < |e| ==> !e[i].BodySent?)
  {
  }

  /** RedirectResult's `execute` calls `status(s)` first and `redirect(s, url)`
      last, with the same `s`: the given status, else 302. */
  lemma RedirectExecute(url: JsVal, given: map<string, JsVal>, o: JsObject, k: Completion)
    ensures var s := Or(Get(given, "status"), Num(302));
            var e := ExecuteEvents(RedirectResult(url, o), NormalizeOptions(given, Num(302)), k);
            e[0] == StatusSet(s) && e[|e| - 1] == Redirected(s, url)
  {
  }

  /** ViewResult's `execute` applies the common options and then asks for the
      template exactly once, with the parameters fixed at construction. */
  lemma ViewExecute(view: JsVal, params: JsVal, props: map<string, JsVal>, o: JsObject, k: Completion)
    ensures var e := ExecuteEvents(ViewResult(view, params, o), props, k);
            && e[|e| - 1] == Rendered(view, params)
            && (forall i :: 0 <= i < |e| - 1 ==> !e[i].Rendered? && !e[i].BodySent?)
  {
  }
}
