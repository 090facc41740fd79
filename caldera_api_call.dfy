/** The `api_call` tool of caldera_agent.py: lower-case the request type,
    build the URL, pick the arguments each method sends, make one call and
    turn its response or exception into a tagged, truncated text. */
module CalderaApiCall {
  import opened Wrappers
  import opened Text
  import opened Json
  import opened Http

  /** How many characters of the response text the summary keeps. */
  const ExcerptLength: nat := 1200

  /** Seconds every call waits for the service. */
  const Timeout: nat := 60

  /** The per-method table: GET, DELETE and HEAD send neither file nor JSON;
      POST sends both; PUT sends the file when there is one and the JSON
      body otherwise; PATCH sends the JSON body only. */
  function Shape(m: Method, hasFile: bool): RequestShape {
    match m
    case Get => RequestShape(false, false)
    case Delete => RequestShape(false, false)
    case Head => RequestShape(false, false)
    case Post => RequestShape(hasFile, true)
    case Put => RequestShape(hasFile, !hasFile)
    case Patch => RequestShape(false, true)
  }

  /** The decision table stated per part, for every method and payload. */
  lemma ShapeTable(m: Method, hasFile: bool)
    ensures Shape(m, hasFile).file <==> hasFile && (m == Post || m == Put)
    ensures Shape(m, hasFile).json <==> m == Post || m == Patch || (m == Put && !hasFile)
    ensures m == Put ==> Shape(m, hasFile).file != Shape(m, hasFile).json
    ensures m in {Get, Delete, Head} ==> Shape(m, hasFile) == RequestShape(false, false)
  {
  }

  /** `runtime.state.get("body", body)`: the state's "body" entry wins over
      the explicit argument. */
  function EffectiveBody(state: map<string, Json>, body: Json): (r: Json)
    ensures "body" in state ==> r == state["body"]
    ensures "body" !in state ==> r == body
  {
    if "body" in state then state["body"] else body
  }

  /** The request a supported method makes. */
  function BuildRequest(m: Method, apiPath: string, params: Json, payload: Option<string>,
                        body: Json, secretKey: string): (req: Request)
    ensures req.verb == m && req.url == FullUrl(apiPath) && req.params == params
    ensures req.headers == [("Authorization", "Bearer " + secretKey)]
    ensures req.file.Some? <==> Shape(m, HasFile(payload)).file
    ensures req.file.Some? ==> req.file == payload
    ensures req.json == (if Shape(m, HasFile(payload)).json then Some(body) else None)
    ensures req.timeout == Some(Timeout)
  {
    var shape := Shape(m, HasFile(payload));
    Request(m, FullUrl(apiPath), params, [("Authorization", "Bearer " + secretKey)],
            if shape.file then payload else None,
            if shape.json then Some(body) else None,
            Some(Timeout))
  }

  /** What happens before the try block and in the dispatch chain. */
  datatype Dispatch =
    | OpenFailed(path: string)   // open(payload, 'rb') raised, outside the try
    | Unsupported(text: string)  // the else branch: no request is made
    | Send(req: Request)

  function Prepare(reqType: string, apiPath: string, params: Json, payload: Option<string>,
                   body: Json, state: map<string, Json>, secretKey: string,
                   fileExists: string -> bool): (d: Dispatch)
    ensures d.OpenFailed? <==> HasFile(payload) && !fileExists(payload.value)
    ensures d.OpenFailed? ==> d.path == payload.value
    ensures d.Unsupported? <==> !d.OpenFailed? && ParseMethod(reqType).None?
    ensures d.Unsupported? ==> d.text == "Unsupported request type: " + Lower(reqType)
    ensures d.Send? ==> ParseMethod(reqType) == Some(d.req.verb)
    ensures d.Send? ==> d.req == BuildRequest(d.req.verb, apiPath, params, payload,
                                              EffectiveBody(state, body), secretKey)
  {
    if HasFile(payload) && !fileExists(payload.value) then OpenFailed(payload.value)
    else
      match ParseMethod(reqType)
      case None => Unsupported("Unsupported request type: " + Lower(reqType))
      case Some(m) => Send(BuildRequest(m, apiPath, params, payload, EffectiveBody(state, body), secretKey))
  }

  const SuccessMarker: string := "\U{2705} **SUCCESS "

  /** The first line of a summary of a response with the given status. */
  function StatusLine(status: int): string {
    if status == 200 then SuccessMarker + IntToString(status) + "**"
    else "\U{26A0}\U{FE0F}  **" + IntToString(status) + "**"
  }

  /** The status line followed by the excerpt in a code fence. */
  function Fenced(head: string, content: string): string {
    head + "\n```\n" + content + "\n```"
  }

  /** The text the except clauses produce for an exception. */
  function ErrorText(e: Exception, payload: Option<string>): string {
    match e
    case FileNotFoundError(_) => "\U{274C} **File not found**: " + PayloadStr(payload)
    case RequestException(status, _) =>
      "\U{274C} **HTTP " + (if status.Some? then IntToString(status.value) else "ERROR") + "**: " + Message(e)
    case _ => "\U{274C} **Error**: " + Message(e)
  }

  /** The text api_call returns for the outcome of its one request. */
  function Summarise(o: Outcome, payload: Option<string>): (r: string)
    ensures o.Response? ==> r == Fenced(StatusLine(o.status), Take(o.text, ExcerptLength))
    ensures o.Raised? ==> r == ErrorText(o.e, payload)
  {
    match o
    case Response(status, text) => Fenced(StatusLine(status), Take(text, ExcerptLength))
    case Raised(e) => ErrorText(e, payload)
  }

  /** The summary of a response carries the success marker exactly when the
      status is 200, and the excerpt it fences is a prefix of the response
      text of at most 1200 characters. */
  lemma SummaryOfResponse(status: int, text: string, payload: Option<string>)
    ensures StartsWith(Summarise(Response(status, text), payload), SuccessMarker) <==> status == 200
    ensures Summarise(Response(status, text), payload)
            == StatusLine(status) + "\n```\n" + Take(text, ExcerptLength) + "\n```"
    ensures |Take(text, ExcerptLength)| <= 1200 && Take(text, ExcerptLength) <= text
  {
    if status != 200 {
      var r := Summarise(Response(status, text), payload);
      assert r[0] == '\U{26A0}' != SuccessMarker[0];
    }
  }

  /** The except clauses: no exception is reported as a success; a
      requests exception is tagged HTTP with its response's status, or
      ERROR when it has none, and ends with its message; any other
      exception is tagged Error. */
  lemma SummaryOfException(e: Exception, payload: Option<string>)
    ensures !StartsWith(Summarise(Raised(e), payload), SuccessMarker)
    ensures e.RequestException? ==>
              var r := Summarise(Raised(e), payload);
              var code := if e.responseStatus.Some? then IntToString(e.responseStatus.value) else "ERROR";
              && StartsWith(r, "\U{274C} **HTTP ")
              && Contains(r, code)
              && |Message(e)| <= |r| && r[|r| - |Message(e)|..] == Message(e)
    ensures e.KeyError? || e.OtherException? ==>
              Summarise(Raised(e), payload) == "\U{274C} **Error**: " + Message(e)
    ensures e.FileNotFoundError? ==>
              Summarise(Raised(e), payload) == "\U{274C} **File not found**: " + PayloadStr(payload)
  {
    var r := Summarise(Raised(e), payload);
    assert r[0] == '\U{274C}' != SuccessMarker[0];
    if e.RequestException? {
      var code := if e.responseStatus.Some? then IntToString(e.responseStatus.value) else "ERROR";
      assert r == "\U{274C} **HTTP " + code + ("**: " + Message(e));
      ContainsInfix(r, "\U{274C} **HTTP ", code, "**: " + Message(e));
    }
  }

  /** The status line always shows the status code. */
  lemma StatusLineShowsStatus(status: int)
    ensures Contains(StatusLine(status), IntToString(status))
  {
    if status != 200 {
      assert Contains(StatusLine(status)[1..], IntToString(status)) by {
        ContainsInfix(StatusLine(status)[1..], "\U{FE0F}  **", IntToString(status), "**");
      }
    } else {
      ContainsInfix(StatusLine(status), SuccessMarker, IntToString(status), "**");
    }
  }

  /** The tool as written: a missing payload file raises FileNotFoundError
      out of the function, every other outcome is returned as text. */
  function ApiCall(reqType: string, apiPath: string, params: Json, payload: Option<string>,
                   body: Json, state: map<string, Json>, secretKey: string,
                   fileExists: string -> bool, send: Request -> Outcome): (r: Result<string, Exception>)
    ensures r.Failure? <==> HasFile(payload) && !fileExists(payload.value)
  {
    match Prepare(reqType, apiPath, params, payload, body, state, secretKey, fileExists)
    case OpenFailed(p) => Failure(FileNotFoundError(p))
    case Unsupported(text) => Success(text)
    case Send(req) => Success(Summarise(send(req), payload))
  }

  /** For a supported request type, with the payload present or absent,
      exactly the request BuildRequest makes with the effective body is sent,
      and its outcome is summarised. */
  lemma SupportedCall(reqType: string, apiPath: string, params: Json, payload: Option<string>,
                      body: Json, state: map<string, Json>, secretKey: string,
                      fileExists: string -> bool, send: Request -> Outcome)
    requires !HasFile(payload) || fileExists(payload.value)
    requires ParseMethod(reqType).Some?
    ensures var req := BuildRequest(ParseMethod(reqType).value, apiPath, params, payload,
                                    EffectiveBody(state, body), secretKey);
            ApiCall(reqType, apiPath, params, payload, body, state, secretKey, fileExists, send)
            == Success(Summarise(send(req), payload))
  {
  }

  /** Request types that differ only in letter case give the same result. */
  lemma ApiCallCaseInsensitive(t1: string, t2: string, apiPath: string, params: Json,
                               payload: Option<string>, body: Json, state: map<string, Json>,
                               secretKey: string, fileExists: string -> bool, send: Request -> Outcome)
    requires Lower(t1) == Lower(t2)
    ensures ApiCall(t1, apiPath, params, payload, body, state, secretKey, fileExists, send)
         == ApiCall(t2, apiPath, params, payload, body, state, secretKey, fileExists, send)
  {
    assert ParseMethod(t1) == ParseMethod(t2);
  }

  /** An unsupported request type returns the fixed text and makes no
      request: the result is the same whatever the client would answer. */
  lemma UnsupportedSendsNothing(reqType: string, apiPath: string, params: Json,
                                payload: Option<string>, body: Json, state: map<string, Json>,
                                secretKey: string, fileExists: string -> bool,
                                send1: Request -> Outcome, send2: Request -> Outcome)
    requires ParseMethod(reqType).None?
    requires !HasFile(payload) || fileExists(payload.value)
    ensures ApiCall(reqType, apiPath, params, payload, body, state, secretKey, fileExists, send1)
         == ApiCall(reqType, apiPath, params, payload, body, state, secretKey, fileExists, send2)
         == Success("Unsupported request type: " + Lower(reqType))
  {
  }

  /** The except FileNotFoundError clause cannot see the payload's open: a
      POST naming a file that does not exist raises instead of returning
      the "File not found" text. */
  lemma MissingPayloadRaises(send: Request -> Outcome)
    ensures ApiCall("POST", "api/v2/objectives", JObj([]), Some("/tmp/payload.bin"), JObj([]),
                    map[], "", _ => false, send)
         == Failure(FileNotFoundError("/tmp/payload.bin"))
  {
  }

  /** The tool with the payload's open inside the try block, as the
      FileNotFoundError clause evidently intends. */
  function ApiCallIntended(reqType: string, apiPath: string, params: Json, payload: Option<string>,
                           body: Json, state: map<string, Json>, secretKey: string,
                           fileExists: string -> bool, send: Request -> Outcome): (r: string)
    ensures HasFile(payload) && !fileExists(payload.value)
            ==> r == "\U{274C} **File not found**: " + payload.value
    ensures !(HasFile(payload) && !fileExists(payload.value))
            ==> Success(r) == ApiCall(reqType, apiPath, params, payload, body, state, secretKey, fileExists, send)
  {
    match Prepare(reqType, apiPath, params, payload, body, state, secretKey, fileExists)
    case OpenFailed(_) => ErrorText(FileNotFoundError(PayloadStr(payload)), payload)
    case Unsupported(text) => text
    case Send(req) => Summarise(send(req), payload)
  }
}
