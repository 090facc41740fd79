/** The `api_call` tool of tools.py, which differs from the one in
    caldera_agent.py: it authenticates with a KEY header, always takes the
    body from the runtime state, never attaches the file to a PUT, catches
    nothing and returns the raw response text. Also the `Context` record. */
module Tools {
  import opened Wrappers
  import opened Text
  import opened Json
  import opened Http
  import CalderaApiCall

  /** The per-method table: only POST attaches the file; POST, PUT and
      PATCH pass the JSON body; GET, DELETE and HEAD pass neither. */
  function Shape(m: Method, hasFile: bool): RequestShape {
    match m
    case Get => RequestShape(false, false)
    case Delete => RequestShape(false, false)
    case Head => RequestShape(false, false)
    case Post => RequestShape(hasFile, true)
    case Put => RequestShape(false, true)
    case Patch => RequestShape(false, true)
  }

  lemma ShapeTable(m: Method, hasFile: bool)
    ensures Shape(m, hasFile).file <==> hasFile && m == Post
    ensures Shape(m, hasFile).json <==> m in {Post, Put, Patch}
    ensures m in {Get, Delete, Head} ==> Shape(m, hasFile) == RequestShape(false, false)
  {
  }

  /** The two tables differ only for a PUT with a payload: there the
      caldera_agent.py tool sends the file and no JSON, this one the JSON
      body and no file. */
  lemma ShapesDiffer(m: Method, hasFile: bool)
    ensures Shape(m, hasFile) != CalderaApiCall.Shape(m, hasFile) <==> m == Put && hasFile
    ensures m == Put && hasFile ==>
              Shape(m, hasFile) == RequestShape(false, true) &&
              CalderaApiCall.Shape(m, hasFile) == RequestShape(true, false)
  {
  }

  /** f"{os.getenv('CALDERA_API_TOKEN')}": an unset variable renders as "None". */
  function AuthHeaders(token: Option<string>): (h: seq<(string, string)>)
    ensures |h| == 1 && h[0].0 == "KEY"
    ensures token.Some? ==> h[0].1 == token.value
    ensures token.None? ==> h[0].1 == "None"
  {
    [("KEY", if token.Some? then token.value else "None")]
  }

  function BuildRequest(m: Method, apiPath: string, params: Json, payload: Option<string>,
                        body: Json, token: Option<string>): (req: Request)
    ensures req.verb == m && req.url == FullUrl(apiPath) && req.params == params
    ensures req.headers == AuthHeaders(token)
    ensures req.file.Some? <==> Shape(m, HasFile(payload)).file
    ensures req.file.Some? ==> req.file == payload
    ensures req.json == (if Shape(m, HasFile(payload)).json then Some(body) else None)
    ensures req.timeout.None?
  {
    var shape := Shape(m, HasFile(payload));
    Request(m, FullUrl(apiPath), params, AuthHeaders(token),
            if shape.file then payload else None,
            if shape.json then Some(body) else None,
            None)
  }

  /** The tool: open the payload (which raises when it is missing), read
      runtime.state["body"] (which raises when it is absent), then dispatch;
      whatever the client raises propagates, and a response of any status
      gives back its whole text. The `body` argument is never used. */
  function ApiCall(reqType: string, apiPath: string, params: Json, payload: Option<string>,
                   body: Json, state: map<string, Json>, token: Option<string>,
                   fileExists: string -> bool, send: Request -> Outcome): (r: Result<string, Exception>)
    ensures HasFile(payload) && !fileExists(payload.value)
            ==> r == Failure(FileNotFoundError(payload.value))
    ensures (!HasFile(payload) || fileExists(payload.value)) && "body" !in state
            ==> r == Failure(KeyError("body"))
    ensures (!HasFile(payload) || fileExists(payload.value)) && "body" in state
            && ParseMethod(reqType).None?
            ==> r == Success("Unsupported request type: " + Lower(reqType))
  {
    if HasFile(payload) && !fileExists(payload.value) then Failure(FileNotFoundError(payload.value))
    else if "body" !in state then Failure(KeyError("body"))
    else
      match ParseMethod(reqType)
      case None => Success("Unsupported request type: " + Lower(reqType))
      case Some(m) =>
        match send(BuildRequest(m, apiPath, params, payload, state["body"], token))
        case Response(_, text) => Success(text)
        case Raised(e) => Failure(e)
  }

  /** For a supported method, exactly the request built from the state's
      body is made, and the result is the client's answer passed through:
      the full text of a response whatever its status, or the exception. */
  lemma SupportedCall(reqType: string, apiPath: string, params: Json, payload: Option<string>,
                      body: Json, state: map<string, Json>, token: Option<string>,
                      fileExists: string -> bool, send: Request -> Outcome)
    requires !HasFile(payload) || fileExists(payload.value)
    requires "body" in state && ParseMethod(reqType).Some?
    ensures var req := BuildRequest(ParseMethod(reqType).value, apiPath, params, payload, state["body"], token);
            && (send(req).Response? ==> ApiCall(reqType, apiPath, params, payload, body, state, token, fileExists, send)
                                         == Success(send(req).text))
            && (send(req).Raised? ==> ApiCall(reqType, apiPath, params, payload, body, state, token, fileExists, send)
                                       == Failure(send(req).e))
  {
  }

  /** The explicit body argument has no effect on anything the tool does. */
  lemma BodyArgumentIgnored(reqType: string, apiPath: string, params: Json, payload: Option<string>,
                            body1: Json, body2: Json, state: map<string, Json>, token: Option<string>,
                            fileExists: string -> bool, send: Request -> Outcome)
    ensures ApiCall(reqType, apiPath, params, payload, body1, state, token, fileExists, send)
         == ApiCall(reqType, apiPath, params, payload, body2, state, token, fileExists, send)
  {
  }

  /** Request types that differ only in letter case give the same result. */
  lemma ApiCallCaseInsensitive(t1: string, t2: string, apiPath: string, params: Json,
                               payload: Option<string>, body: Json, state: map<string, Json>,
                               token: Option<string>, fileExists: string -> bool, send: Request -> Outcome)
    requires Lower(t1) == Lower(t2)
    ensures ApiCall(t1, apiPath, params, payload, body, state, token, fileExists, send)
         == ApiCall(t2, apiPath, params, payload, body, state, token, fileExists, send)
  {
    assert ParseMethod(t1) == ParseMethod(t2);
  }

  /** The record tools.py declares for the arguments of one call. */
  datatype Context = Context(apiPath: string, body: Json, payload: string, params: Json, reqType: string)
}
