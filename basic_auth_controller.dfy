/**
 * The BasicAuth controller's create operation: the request it hands to
 * fetch, the classification of the response, and the rebuilding of a
 * BasicAuth from the parsed body. The response and JSON.parse are inputs.
 */
module BasicAuthController {
  import opened Wrappers
  import opened JsValues
  import opened BasicAuthModel

  const JsonContentType := "application/json; charset=utf-8"

  datatype Header = Header(name: string, value: string)

  /** The arguments of `fetch(url, {method, headers, body})`, the method as `verb`; a None body is `undefined`. */
  datatype Request = Request(url: string, verb: string, headers: seq<Header>, body: Option<Json<JsValue>>)

  /** What the code reads of a fetch Response; `text` is what `response.text()` resolves with. */
  datatype Response = Response(ok: bool, status: nat, statusText: string, text: string)

  /** A `Headers` object, which `append` extends in place. */
  class Headers {
    var entries: seq<Header>

    constructor ()
      ensures entries == []
    {
      entries := [];
    }

    method Append(name: string, value: string)
      modifies this
      ensures entries == old(entries) + [Header(name, value)]
    {
      entries := entries + [Header(name, value)];
    }
  }

  /** `JSON.stringify(v)`: a string for every value here except `undefined`, for which it is `undefined`. */
  function Stringify(v: JsValue): (r: Option<Json<JsValue>>)
    ensures r.Some? <==> v != Undefined
    ensures r.Some? ==> r.value.of == v
  {
    if v.Undefined? then None else Some(Stringified(v))
  }

  /**
   * The request createBasicAuth makes: a POST of the serialised argument to
   * the basicauths collection, with a JSON content type exactly when there
   * is a string body.
   */
  predicate IsCreateRequest(req: Request, apiUrl: string, basicAuth: JsValue) {
    && req.url == apiUrl + "/basicauths"
    && req.verb == "POST"
    && req.body == Stringify(basicAuth)
    && req.headers == (if req.body.Some? then [Header("Content-Type", JsonContentType)] else [])
  }

  method PrepareRequest(apiUrl: string, basicAuth: JsValue) returns (req: Request)
    ensures IsCreateRequest(req, apiUrl, basicAuth)
  {
    var url := apiUrl + "/basicauths";
    var formData := Stringify(basicAuth);
    var headers := new Headers();
    if formData.Some? {
      headers.Append("Content-Type", JsonContentType);
    }
    req := Request(url, "POST", headers.entries, formData);
  }

  /** `response.status + ': ' + response.statusText`. */
  function StatusLine(response: Response): (s: string)
    ensures var k := |NumberToString(response.status)|;
      && |s| == k + 2 + |response.statusText|
      && AllDigits(s[..k])
      && s[k..k + 2] == ": "
      && s[k + 2..] == response.statusText
  {
    NumberToString(response.status) + ": " + response.statusText
  }

  /** The rejection for an empty body carries the status code and text, and both can be read back. */
  lemma StatusLineNamesStatus(response: Response)
    ensures var m := StatusLine(response);
      var k := |NumberToString(response.status)|;
      && k + 2 <= |m|
      && AllDigits(m[..k])
      && DigitsValue(m[..k]) == response.status
      && m[k..k + 2] == ": "
      && m[k + 2..] == response.statusText
  {
    var m := StatusLine(response);
    var k := |NumberToString(response.status)|;
    assert m[..k] == NumberToString(response.status);
    DigitsValueOfNumberToString(response.status);
  }

  /**
   * The first `.then`: an empty body rejects with the status line whatever
   * `ok` says; otherwise the parsed body (`parse` is JSON.parse) resolves
   * when `ok` and is the rejection, unwrapped, when not.
   */
  function Classify(response: Response, parse: string -> JsValue): (r: Result<JsValue, Rejection>)
    ensures r.Success? <==> response.text != "" && response.ok
    ensures r.Success? ==> r.value == parse(response.text)
    ensures r.Failure? ==> r.error.Thrown?
    ensures r.Failure? && response.text == "" ==> r.error.value == Str(StatusLine(response))
    ensures r.Failure? && response.text != "" ==> r.error.value == parse(response.text)
  {
    if response.text == "" then
      Failure(Thrown(Str(StatusLine(response))))
    else
      var result := parse(response.text);
      if response.ok then Success(result) else Failure(Thrown(result))
  }

  /**
   * The second `.then`: a new BasicAuth from the response's tenantId and
   * principal and the argument's credentials, then created and updated, and
   * the response's credentials when they are truthy.
   */
  function Rebuild(data: JsValue, basicAuth: JsValue): (r: Result<BasicAuth, Rejection>)
    ensures IsNullish(data) || IsNullish(basicAuth) ==> r == Failure(TypeError)
    ensures !IsNullish(data) && !IsNullish(basicAuth) ==>
      var made := New(Field(data, "tenantId"), Field(data, "principal"), Field(basicAuth, "credentials"));
      && (r.Success? <==> made.Success?)
      && (made.Failure? ==> r == Failure(Error(made.error)))
    ensures r.Success? ==>
      var served := Field(data, "credentials");
      && Str(r.value.tenantId) == Field(data, "tenantId")
      && r.value.principal == DefaultNull(Field(data, "principal"))
      && r.value.created == Some(DateFrom(Field(data, "created")))
      && r.value.updated == Some(DateFrom(Field(data, "updated")))
      && r.value.credentials == if Truthy(served) then served else DefaultNull(Field(basicAuth, "credentials"))
  {
    if IsNullish(data) || IsNullish(basicAuth) then
      // `data.tenantId` or `basicAuth.credentials` throws
      Failure(TypeError)
    else
      match New(Field(data, "tenantId"), Field(data, "principal"), Field(basicAuth, "credentials"))
      case Failure(message) => Failure(Error(message))
      case Success(result) =>
        var result := result.(created := Some(DateFrom(Field(data, "created"))));
        var result := result.(updated := Some(DateFrom(Field(data, "updated"))));
        // credentials are only in the response when the server generated them
        var result := if Truthy(Field(data, "credentials")) then result.(credentials := Field(data, "credentials")) else result;
        Success(result)
  }

  /** `createBasicAuth(basicAuth)`, with `apiUrl`, the fetch response and JSON.parse as inputs. */
  method CreateBasicAuth(apiUrl: string, basicAuth: JsValue, response: Response, parse: string -> JsValue)
    returns (x: Exchange<Request, BasicAuth>)
    ensures x.request.Some? && IsCreateRequest(x.request.value, apiUrl, basicAuth)
    ensures response.text == "" ==> x.outcome == Failure(Thrown(Str(StatusLine(response))))
    ensures response.text != "" && !response.ok ==> x.outcome == Failure(Thrown(parse(response.text)))
    ensures response.text != "" && response.ok ==> x.outcome == Rebuild(parse(response.text), basicAuth)
  {
    var req := PrepareRequest(apiUrl, basicAuth);
    var outcome := match Classify(response, parse)
      case Failure(e) => Failure(e)
      case Success(data) => Rebuild(data, basicAuth);
    x := Exchange(Some(req), outcome);
  }

  /** A BasicAuth object as JSON.stringify and property reads see it, before any dates are set. */
  function ToJs(b: BasicAuth): JsValue
    requires b.created.None? && b.updated.None?
  {
    Obj(map["tenantId" := Str(b.tenantId), "principal" := b.principal, "credentials" := b.credentials])
  }

  /**
   * When the server echoes a constructed BasicAuth back with two dates, the
   * result is that BasicAuth with those dates, whatever its credentials.
   */
  lemma RebuildEcho(tenantId: JsValue, principal: JsValue, credentials: JsValue, created: JsValue, updated: JsValue)
    requires New(tenantId, principal, credentials).Success?
    ensures var b := New(tenantId, principal, credentials).value;
      var data := Obj(ToJs(b).props + map["created" := created, "updated" := updated]);
      Rebuild(data, ToJs(b)) == Success(b.(created := Some(DateFrom(created)), updated := Some(DateFrom(updated))))
  {
  }

  /** Falsy server credentials (empty, null, missing, false, 0) do not overwrite the ones that were sent. */
  lemma EmptyServerCredentialsKeepInput(data: JsValue, basicAuth: JsValue)
    requires !IsNullish(data) && !Truthy(Field(data, "credentials"))
    requires Rebuild(data, basicAuth).Success?
    ensures Rebuild(data, basicAuth).value.credentials == DefaultNull(Field(basicAuth, "credentials"))
  {
  }
}
