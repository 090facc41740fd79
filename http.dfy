/** What the two `api_call` tools hand to the HTTP client, and what comes
    back. The client itself is not modelled: a call is a function from the
    request to an outcome, passed in by the caller. */
module Http {
  import opened Wrappers
  import opened Text
  import opened Json

  /** The six request types both tools accept. */
  datatype Method = Get | Post | Put | Delete | Patch | Head

  /** The lower-case spelling each branch of the dispatch compares against. */
  function Name(m: Method): string {
    match m
    case Get => "get"
    case Post => "post"
    case Put => "put"
    case Delete => "delete"
    case Patch => "patch"
    case Head => "head"
  }

  /** `req_type.lower()` followed by the if/elif chain: the method the string
      names, or None for any other string. */
  function ParseMethod(reqType: string): (r: Option<Method>)
    ensures r.Some? ==> Lower(reqType) == Name(r.value)
    ensures r.None? ==> forall m :: Lower(reqType) != Name(m)
  {
    var t := Lower(reqType);
    if t == "get" then Some(Get)
    else if t == "post" then Some(Post)
    else if t == "put" then Some(Put)
    else if t == "delete" then Some(Delete)
    else if t == "patch" then Some(Patch)
    else if t == "head" then Some(Head)
    else None
  }

  /** Every method is recognised under its own name, its upper-case name and
      any other spelling that lower-cases to it, and only under those. */
  lemma ParseMethodCaseInsensitive(m: Method, reqType: string)
    ensures ParseMethod(reqType) == Some(m) <==> Lower(reqType) == Name(m)
  {
    if Lower(reqType) == Name(m) {
      match m
      case Get => assert Lower(reqType) == "get";
      case Post => assert Lower(reqType) == "post";
      case Put => assert Lower(reqType) == "put";
      case Delete => assert Lower(reqType) == "delete";
      case Patch => assert Lower(reqType) == "patch";
      case Head => assert Lower(reqType) == "head";
    }
  }

  /** "GET", "get" and "Get" take the same branch. */
  lemma SpellingsOfGet()
    ensures ParseMethod("GET") == ParseMethod("get") == ParseMethod("Get") == Some(Get)
  {
    assert Lower("GET") == "get";
    assert Lower("Get") == "get";
    assert Lower("get") == "get";
  }

  /** The fixed service address of both tools; `.strip()` leaves it unchanged. */
  const BaseUrl: string := "http://12.1.0.15:8888"

  /** f"{url}/{api_path.strip()}": the fixed address, "/", then the path
      without its surrounding whitespace (and with nothing else removed). */
  function FullUrl(apiPath: string): (r: string)
    ensures BaseUrl + "/" <= r
    ensures exists i, j :: 0 <= i <= j <= |apiPath| && r == BaseUrl + "/" + apiPath[i..j]
                           && (forall k :: 0 <= k < i ==> IsSpace(apiPath[k]))
                           && (forall k :: j <= k < |apiPath| ==> IsSpace(apiPath[k]))
                           && (i < j ==> !IsSpace(apiPath[i]) && !IsSpace(apiPath[j - 1]))
  {
    BaseUrl + "/" + Strip(apiPath)
  }

  /** Which optional parts a request carries besides its query parameters
      and its headers, which every supported method sends. */
  datatype RequestShape = RequestShape(file: bool, json: bool)

  /** The arguments of one `requests.<method>(...)` call. `file` is the path
      of the payload attached as the multipart field "file"; `json` is the
      value passed as `json=` (JNull stands for Python's None); `verb` is
      the method called. */
  datatype Request = Request(
    verb: Method,
    url: string,
    params: Json,
    headers: seq<(string, string)>,
    file: Option<string>,
    json: Option<Json>,
    timeout: Option<nat>)

  /** The exceptions the model distinguishes. */
  datatype Exception =
    | FileNotFoundError(path: string)
    | KeyError(key: string)
    | RequestException(responseStatus: Option<int>, message: string)
    | OtherException(message: string)

  /** str(e). The FileNotFoundError text is never shown by the tools. */
  function Message(e: Exception): string {
    match e
    case FileNotFoundError(p) => "[Errno 2] No such file or directory: '" + p + "'"
    case KeyError(k) => "'" + k + "'"
    case RequestException(_, msg) => msg
    case OtherException(msg) => msg
  }

  /** What the client call gives back: a response, or a raised exception. */
  datatype Outcome = Response(status: int, text: string) | Raised(e: Exception)

  /** A payload argument is used only when it is truthy: not None and not "". */
  predicate HasFile(payload: Option<string>) {
    payload.Some? && payload.value != ""
  }

  /** f"{payload}" and f"{payload or 'none'}" both need None rendered. */
  function PayloadStr(payload: Option<string>): string {
    if payload.Some? then payload.value else "None"
  }
}
