# caldera-agent core, modelled in Dafny

The repository wires an LLM agent to the REST API of a Caldera server. Under
the agent framework sits a small set of deterministic rules. This project
models them and proves properties about them:

- **`api_call` of caldera_agent.py** (`CalderaApiCall`, with `Http`):
  - lower-cases the request type and builds `http://12.1.0.15:8888/<stripped path>`;
  - picks what each method sends (query parameters, a multipart file, a JSON body; PUT sends one or the other);
  - prefers the runtime state's "body" over the argument;
  - turns the response or the exception into a tagged text holding at most 1200 characters of the response.
- **`api_call` of tools.py** (`Tools`): the second version of the tool.
  - It authenticates with a `KEY` header.
  - It never attaches a file to a PUT.
  - It always reads the body from the runtime state.
  - It catches nothing and returns the raw response text.
  - The `Context` record is `Tools.Context`.
- **`format_swagger_context`** (`SwaggerContext`): the endpoint listing put in the agent's prompt.
  - A header with the version and the total number of paths.
  - At most 20 lines from the first 12 paths, each with an upper-cased method, the path padded to 25 and a summary cut to 80 characters.
  - The three fixed examples.
  - The exceptions a malformed spec raises.
- **`ChatBot` and `history_to_messages`** (`ChatSessions`):
  - a class whose `sessions` map holds one history per user;
  - the memory note, when the last answer mentions `api_call`;
  - one `{human, ai}` item appended per answered turn and none on failure;
  - the flattening of a history into alternating human and AI messages.
- **`load_caldera_spec`** (`LoadSpec`, `LoadSpecProperties`): normalises an already parsed spec.
  - When "servers" is absent, it synthesises one server from the OpenAPI 2.0 `host`, `basePath` and `schemes` fields, or from `CALDERA_WEB_URL`.
  - It gives every operation object a "responses" member.
- **The planner and controller tools of oapi_agent.py** (`OapiAgent`):
  - the planner's `"- " + "- ".join(...)` endpoint text;
  - the controller's `re.findall` extraction of `METHOD /route` pairs and the query-string cut;
  - the spec-name templates, where `{...}` becomes `.*` and matching is anchored only at the start;
  - the docs accumulation, and the ValueError on the first endpoint nothing matches;
  - the controller's base URL.

Python values are modelled as follows:
- JSON values are `Json.Json`. A dict is an ordered sequence of pairs, because iteration order matters: it decides which 12 paths are listed and where an assignment appends a key.
- HTTP is a parameter `send: Request -> Outcome`.
- File existence is a parameter `fileExists: string -> bool`.
- The agent's `run` is a parameter `string -> AgentRun`.
- `yaml.dump` is a parameter `dump: Json -> string`.
- Environment variables and the secret key are `Option<string>`/`string` parameters.
- Python 3.12 is the version modelled. For example, slicing a dict summary raises `KeyError` in `SwaggerContext.LineFor`, because slices are hashable from 3.12 on.
- Loops in the source are `while` loops in methods. Each method is proved equal to a function that specifies it, and the properties are lemmas about those functions.

Facts about the code that the model keeps:
- In caldera_agent.py the payload file is opened before the `try`, so a missing file raises out of the tool (see Findings).
- The tools.py version catches nothing.
- tools.py authenticates with a `KEY: <token>` header, caldera_agent.py with `Authorization: Bearer <token>`.
- Both tools take the body from the runtime state: caldera_agent.py when the state has one, tools.py always.

## Model

| member | source | states |
|---|---|---|
| Http.ParseMethod | caldera_agent.py:89-106 | the dispatch chain picks a method exactly when the lower-cased request type is that method's name, and falls to the else branch otherwise |
| Http.ParseMethodCaseInsensitive | caldera_agent.py:71 | a method is recognised under every spelling that lower-cases to its name, and under no other |
| Http.SpellingsOfGet | caldera_agent.py:71 | example of the case-insensitive dispatch: "GET", "get" and "Get" all take the GET branch |
| Http.FullUrl | caldera_agent.py:72-74 | the URL begins with the fixed base and "/", and what follows is a slice of the path with only whitespace cut from either end and no whitespace at its own ends |
| Text.Strip | caldera_agent.py:73 | str.strip() gives a slice s[i..j] of the input with only whitespace before i and after j, and the slice neither starts nor ends with whitespace |
| Text.SliceBetweenSpace | caldera_agent.py:73 | a prefix of a suffix of s, with whitespace outside both cuts, is a slice of s with whitespace on both sides |
| Text.LStripDropsSpace | caldera_agent.py:73 | everything str.strip() drops at the front is whitespace |
| Text.RStripDropsSpace | caldera_agent.py:73 | everything str.strip() drops at the back is whitespace |
| Text.Lower | caldera_agent.py:71 | lower() maps each character to its lower-case form, keeping the length |
| Text.Take | caldera_agent.py:108 | `text[:1200]` is a prefix of the text, of length min(1200, len(text)) |
| Text.PadRightFacts | caldera_agent.py:42 | `{path:<25}` is the path followed by spaces up to width 25, unchanged when it is already 25 or longer |
| CalderaApiCall.Shape | caldera_agent.py:89-104 | which of the file and the JSON body each method sends; stated per part by ShapeTable |
| CalderaApiCall.ShapeTable | caldera_agent.py:89-104 | only POST and PUT attach the file, and only when there is one; POST, PATCH and a PUT without a file send the JSON body; a PUT sends exactly one of the two; GET, DELETE and HEAD send neither |
| CalderaApiCall.EffectiveBody | caldera_agent.py:83 | the runtime state's "body" wins over the argument when present |
| CalderaApiCall.BuildRequest | caldera_agent.py:77-104 | the request has the parsed method, the full URL, the params, the Bearer header, the file and JSON parts chosen by the table, and the 60-second timeout |
| CalderaApiCall.Prepare | caldera_agent.py:71-106 | a missing payload file fails at the open before anything else; otherwise an unknown type gives "Unsupported request type: <lower-cased type>" and no request, and a known type gives exactly the request BuildRequest makes with the effective body |
| CalderaApiCall.Summarise | caldera_agent.py:108-119 | one outcome becomes text: a response as in SummaryOfResponse, an exception as in SummaryOfException |
| CalderaApiCall.StatusLine | caldera_agent.py:109-112 | the first line of a summary, SUCCESS for 200 and a warning otherwise; see StatusLineShowsStatus |
| CalderaApiCall.ErrorText | caldera_agent.py:114-119 | the text of the three except clauses; stated by SummaryOfException |
| CalderaApiCall.SummaryOfResponse | caldera_agent.py:108-112 | the summary starts with the SUCCESS marker if and only if the status is 200, and fences a prefix of the response of at most 1200 characters |
| CalderaApiCall.SummaryOfException | caldera_agent.py:114-119 | an exception never gives the SUCCESS marker; a requests exception gives "❌ **HTTP " with its response status, or ERROR when there is none, and ends with its message; any other exception gives "❌ **Error**: <message>"; FileNotFoundError gives "❌ **File not found**: <payload>" |
| CalderaApiCall.StatusLineShowsStatus | caldera_agent.py:109-112 | the status line shows the status code for 200 and for every other status |
| CalderaApiCall.ApiCall | caldera_agent.py:71-119 | the tool as written raises exactly when a truthy payload names a missing file; its other results are stated by SupportedCall and UnsupportedSendsNothing |
| CalderaApiCall.SupportedCall | caldera_agent.py:71-119 | for a supported type and an openable payload, the result is the summary of the outcome of exactly the request BuildRequest makes with the effective body |
| CalderaApiCall.ApiCallCaseInsensitive | caldera_agent.py:71 | request types that lower-case alike give the same result |
| CalderaApiCall.UnsupportedSendsNothing | caldera_agent.py:105-106 | an unsupported type returns the fixed text whatever the client would answer, so no request is made |
| CalderaApiCall.MissingPayloadRaises | caldera_agent.py:80-115 | a POST naming a missing payload raises FileNotFoundError instead of returning the "File not found" text |
| CalderaApiCall.ApiCallIntended | caldera_agent.py:80-119 | with the open inside the try, a missing payload gives "❌ **File not found**: <payload>", and every other input gives what the tool as written returns |
| Tools.Shape | tools.py:27-38 | which of the file and the JSON body each method sends in tools.py; stated per part by ShapeTable |
| Tools.ShapeTable | tools.py:27-38 | only POST attaches the file; POST, PUT and PATCH send the JSON body; GET, DELETE and HEAD send neither |
| Tools.ShapesDiffer | tools.py:31-32 | the two tools' tables differ exactly for a PUT with a payload: file and no JSON in caldera_agent.py, JSON and no file here |
| Tools.AuthHeaders | tools.py:21 | one `KEY` header holding the token, rendered "None" when the variable is unset |
| Tools.BuildRequest | tools.py:17-38 | the request has the parsed method, the full URL, the params, the KEY header, the parts chosen by this tool's table, and no timeout |
| Tools.ApiCall | tools.py:17-42 | a missing payload raises FileNotFoundError first; otherwise a state without "body" raises KeyError("body"); otherwise an unknown type gives the Unsupported text |
| Tools.SupportedCall | tools.py:25-42 | for a known type, exactly the request built from the state's body is made, and the raw text of a response of any status, or the client's exception, is passed through |
| Tools.BodyArgumentIgnored | tools.py:25 | the explicit body argument never affects the result |
| Tools.ApiCallCaseInsensitive | tools.py:17 | request types that lower-case alike give the same result |
| SwaggerContext.Header | caldera_agent.py:34-37 | the listing's header with the version and the path count; see HeaderShowsTotal |
| SwaggerContext.Version | caldera_agent.py:34 | `spec['info']['version']` or its KeyError/TypeError; see FormatErrors |
| SwaggerContext.PathCount | caldera_agent.py:36 | `len(spec.get('paths', {}))` or its TypeError; see FormatFacts and FormatErrors |
| SwaggerContext.LineFor | caldera_agent.py:41-42 | one operation's line or the exception its lookup and slice raise; see LineForFacts |
| SwaggerContext.RenderLine | caldera_agent.py:42 | the f-string of one line: method, the path padded to 25, a bar, then the summary |
| SwaggerContext.LineForFacts | caldera_agent.py:41-42 | a line shows the upper-cased method and at most 80 characters of the summary, "No description" when there is none; a non-dict operation or a non-string summary raises |
| SwaggerContext.TakeLinesFacts | caldera_agent.py:40-45 | the inner loop keeps its lines in order and stops at the remaining budget |
| SwaggerContext.TakeLinesAll | caldera_agent.py:40-45 | when every result within the budget succeeds, the loop shows min(budget, operations) lines |
| SwaggerContext.TakeLinesFails | caldera_agent.py:40-45 | the first failing operation within the budget is the exception raised |
| SwaggerContext.OpLinesFacts | caldera_agent.py:40-45 | one path item shows one line per operation, in order, until the 20-line budget is spent |
| SwaggerContext.GatherFacts | caldera_agent.py:39-47 | the outer loop shows min(budget, lines available) lines, every one of them yielded by some path item |
| SwaggerContext.ValuesPrefix | caldera_agent.py:40-45 | lines the first results hold are the start of the successful lines, in order |
| SwaggerContext.GatherPrefix | caldera_agent.py:39-47 | the outer loop's lines are a prefix of all the lines the path items yield, item after item, operation after operation |
| SwaggerContext.EntryLinesInOrder | caldera_agent.py:39-47 | the outer loop shows exactly the first min(budget, operations) lines of the path items, in iteration order |
| SwaggerContext.Gather | caldera_agent.py:39-47 | the outer loop on path items with a line budget; see GatherFacts and GatherPrefix |
| SwaggerContext.EntryLines | caldera_agent.py:39-47 | the lines the path items yield under the 20-line limit; see EntryLinesFacts and EntryLinesInOrder |
| SwaggerContext.EntryLinesFacts | caldera_agent.py:39-47 | the listing shows min(20, operations of the paths) lines, each naming one of the paths and with a summary of at most 80 characters |
| SwaggerContext.OperationLine | caldera_agent.py:41-42 | the loop body computes the line of operation j |
| SwaggerContext.OperationLines | caldera_agent.py:40-45 | the inner loop over one path item's operations gives exactly the lines the specification function gives for the remaining budget |
| SwaggerContext.AddPathLines | caldera_agent.py:39-47 | the outer loop appends to the context exactly the rendered lines of the path items, or raises the first exception |
| SwaggerContext.FormatSwaggerContext | caldera_agent.py:33-55 | the method computes the specified listing, errors included |
| SwaggerContext.Format | caldera_agent.py:33-55 | the whole listing or its exception; see FormatFacts, ShownInOrder and FormatErrors |
| SwaggerContext.FormatFacts | caldera_agent.py:33-55 | a listing is header + lines + examples; the header's count is the number of all paths; at most 12 paths are looked at, in order; min(20, their operations) lines are shown, each naming one of them with a summary of at most 80 characters |
| SwaggerContext.ShownInOrder | caldera_agent.py:38-47 | the listing shows exactly the first min(20, operations) lines of the first 12 paths, in iteration order |
| SwaggerContext.HeaderShowsTotal | caldera_agent.py:34-36 | the header starts with the version and shows "(<total> total)" |
| SwaggerContext.FormatErrors | caldera_agent.py:34-39 | a missing "info" or "version" raises KeyError; a non-dict info or a null "paths" raises TypeError; a string or list "paths" raises AttributeError |
| ChatSessions.MemoryContext | caldera_agent.py:168-173 | the memory note of a turn or the TypeError of the `in` test; see MemoryNoteWhen |
| ChatSessions.Output | caldera_agent.py:181 | `result["output"]`, or the message of the exception it raises; see StringOutputIsError |
| ChatSessions.Answer | caldera_agent.py:179-181 | the agent's response, or the message of what the run or the lookup raised; see ExchangeOfAnswer |
| ChatSessions.FullMessage | caldera_agent.py:175 | the message the agent runs on: the memory note, a blank line, then the user's message |
| ChatSessions.Exchange | caldera_agent.py:165-189 | one chat turn on a history: the reply and the new history; see ExchangeFacts and ExchangeOfAnswer |
| ChatSessions.Mentions | caldera_agent.py:172 | `"api_call" in last` is substring search on a str, membership on a list, key membership on a dict, and TypeError on anything else |
| ChatSessions.MemoryNoteWhen | caldera_agent.py:169-173 | the memory note is added exactly when the last answer mentions api_call |
| ChatSessions.ExchangeFacts | caldera_agent.py:165-189 | a turn raises only where the memory test raises, and then changes nothing; otherwise every earlier item is kept, exactly one {human, ai} item is appended when the agent answers and none when it fails, and history_length is the length afterwards |
| ChatSessions.ExchangeOfAnswer | caldera_agent.py:177-189 | the reply is the agent's output with the turn appended, or "❌ Error: <message>" with the history unchanged |
| ChatSessions.StringOutputIsError | caldera_agent.py:179-181 | a run returning a bare string makes `result["output"]` fail, so the reply is the error text and nothing is appended |
| ChatSessions.ItemMessages | caldera_agent.py:193-197 | one item yields one message per present key, the human one first and the AI one last, each carrying that key's content |
| ChatSessions.Messages | caldera_agent.py:191-198 | history_to_messages on a history; see MessagesConcat and MessagesOfTurns |
| ChatSessions.MessagesConcat | caldera_agent.py:191-198 | flattening distributes over concatenation of histories |
| ChatSessions.MessagesOfTurns | caldera_agent.py:191-198 | a history made by chat flattens to two messages per item, the human one at 2k and the AI one at 2k+1 |
| ChatSessions.LastSix | caldera_agent.py:178 | `history[-6:]` is the suffix of length min(6, len) |
| ChatSessions.HistoryToMessages | caldera_agent.py:191-198 | the loop builds exactly the flattened messages of the history |
| ChatSessions.AddMemoryContext | caldera_agent.py:168-173 | the memory step computes the specified note or raises the TypeError of the `in` test |
| ChatSessions.ChatBot.constructor | caldera_agent.py:157-158 | a new bot has no sessions |
| ChatSessions.ChatBot.GetSession | caldera_agent.py:160-163 | an unseen user gets an empty history; a known user's sessions are left unchanged; the returned history is the stored one |
| ChatSessions.ChatBot.Chat | caldera_agent.py:165-189 | the user's history becomes the one the turn specifies, the reply is the turn's reply, no other user's history changes, and every stored history stays well formed |
| LoadSpec.ServerUrl | load_spec.py:25-32 | the synthesised server url; see HostWithSchemes, HostWithoutSchemes and NoHost |
| LoadSpec.WithServers | load_spec.py:24-33 | the spec with "servers" in place; see ExistingServersKept, ServerSynthesised and ServersKeepPaths |
| LoadSpec.NormaliseSpec | load_spec.py:21-39 | the whole normalisation or its exception; see LoadSpecProperties |
| LoadSpec.Scheme | load_spec.py:29 | the first listed scheme, or "https" when CALDERA_WEB_URL starts with "https" and "http" otherwise |
| LoadSpec.DefaultResponses | load_spec.py:38-39 | a dict operation without "responses" gets it appended last with the value {}, every other member kept; an existing value is kept; a non-dict entry is untouched |
| LoadSpec.DefaultOperations | load_spec.py:37-39 | every operation of a path item is defaulted in place, order kept |
| LoadSpec.DefaultPaths | load_spec.py:36-39 | the loop succeeds exactly when every path item is a dict, then defaults each one in place; otherwise it raises on the first one that is not |
| LoadSpec.DefaultPathsFailureStays | load_spec.py:36-37 | once a path item raises, the loop raises that exception |
| LoadSpec.SetFirstGet | load_spec.py:33 | assigning an existing key replaces its value and leaves the other keys alone |
| LoadSpec.GetAppend | load_spec.py:33 | assigning a new key appends it and leaves the other keys alone |
| LoadSpec.SetDefaultResponses | load_spec.py:37-39 | the inner loop computes the specified operations |
| LoadSpec.SetDefaultResponsesInPaths | load_spec.py:36-39 | the outer loop computes the specified paths or raises the specified exception |
| LoadSpec.LoadCalderaSpec | load_spec.py:21-39 | the method computes the specified normalisation |
| LoadSpec.HostWithSchemes | load_spec.py:25-30 | a truthy host with schemes gives `<first scheme>://<host><basePath>`, basePath defaulting to "" |
| LoadSpec.HostWithoutSchemes | load_spec.py:28-30 | a truthy host without schemes gives https exactly when CALDERA_WEB_URL starts with "https", http otherwise |
| LoadSpec.NoHost | load_spec.py:31-32 | a missing or empty host gives CALDERA_WEB_URL itself, None when unset |
| LoadSpecProperties.ExistingServersKept | load_spec.py:24 | existing servers are kept as they were |
| LoadSpecProperties.ServerSynthesised | load_spec.py:24-33 | without servers, exactly one server with the synthesised url is added, and no other key |
| LoadSpecProperties.OtherMembersKept | load_spec.py:21-39 | every member other than "servers" and "paths" is unchanged |
| LoadSpecProperties.ResponsesDefaulted | load_spec.py:36-39 | afterwards every dict operation under every path has "responses"; one that lacked it has it appended last with the value {} and its other members unchanged; existing values, non-dict entries, routes, methods and order are unchanged |
| LoadSpecProperties.ServersKeepPaths | load_spec.py:24-33 | the servers step leaves "paths" as it was |
| LoadSpecProperties.PathsNotObjectRaises | load_spec.py:36 | whenever the servers step succeeds, a "paths" value that is not a dict raises |
| LoadSpecProperties.PathItemNotObjectRaises | load_spec.py:36-37 | whenever the servers step succeeds and "paths" is a dict, the load raises exactly when some path item is not a dict, naming the first |
| OapiAgent.PlannerEndpoints | oapi_agent.py:36-42 | the planner's endpoint text; see PlannerListsEvery |
| OapiAgent.PlannerListsEvery | oapi_agent.py:36-42 | the planner text is "- <name> <description>" for every endpoint in order, and just "- " when there are none |
| OapiAgent.JoinBullets | oapi_agent.py:42 | `"- " + "- ".join(ds)` puts "- " before every item |
| OapiAgent.BulletsContain | oapi_agent.py:42 | every item appears in the text with its "- " bullet |
| OapiAgent.FirstPrefix | oapi_agent.py:69 | the alternation takes the first listed method name the text starts with |
| OapiAgent.TokenEndFacts | oapi_agent.py:69 | `\S+` takes only non-whitespace and stops at the first whitespace or at the end |
| OapiAgent.RouteAt | oapi_agent.py:69 | the route group is a slice of the plan; it is non-empty exactly when "/" and a non-whitespace character follow, and then it is "/" and every non-whitespace character up to the next whitespace or the end |
| OapiAgent.MatchAt | oapi_agent.py:69-70 | a match starts exactly at a word boundary where one of the five names is followed by whitespace |
| OapiAgent.FindAll | oapi_agent.py:69-70 | `re.findall` of the pattern from a position on; see FindAllExtracted, FindAllEmpty and FindAllLeftmost |
| OapiAgent.FindAllExtracted | oapi_agent.py:69-70 | every extracted pair is one of GET, POST, PATCH, DELETE, PUT with an empty or "/"-led whitespace-free route |
| OapiAgent.FindAllEmpty | oapi_agent.py:69-70 | findall gives nothing from i on exactly when no position from i on starts a match |
| OapiAgent.FindAllLeftmost | oapi_agent.py:69-70 | findall takes the leftmost match first and resumes scanning where it ends |
| OapiAgent.RouteWithQuery | oapi_agent.py:69-70 | example: in "GET /a?b" the route group takes the query string too |
| OapiAgent.CutQuery | oapi_agent.py:72 | `route.split("?")[0]` is the longest prefix without "?" |
| OapiAgent.CutQueryExample | oapi_agent.py:72 | example: "/a?b" is cut to "/a" |
| OapiAgent.QueryStringCut | oapi_agent.py:69-74 | example: the plan "GET /a?b" is looked up as "GET /a" |
| OapiAgent.EndpointNames | oapi_agent.py:69-74 | the "<METHOD> <route>" names, each route cut at "?"; see NoEndpoints and QueryStringCut |
| OapiAgent.NoEndpoints | oapi_agent.py:69-74 | the controller gets no endpoint exactly when no position of the plan starts a match |
| OapiAgent.HeadNotExtracted | oapi_agent.py:69-70 | example: the plan "HEAD /x" yields no endpoint, HEAD not being among the alternatives |
| OapiAgent.CloseBrace | oapi_agent.py:79 | the lazy `\{.*?\}` ends at the first "}" with no newline before it |
| OapiAgent.Template | oapi_agent.py:79 | `re.sub("\\{.*?\\}", ".*", name)`; see TemplatePlain and TemplateOneHole |
| OapiAgent.Matches | oapi_agent.py:80 | `regex.match` of a compiled name, anchored at the start only; see LitsMatch, HoleSpans and MatchExtends |
| OapiAgent.TemplatePlain | oapi_agent.py:79 | a spec name without "{" compiles to its own characters |
| OapiAgent.TemplateOneHole | oapi_agent.py:79 | "a{b}c" compiles to the characters of a, one hole, then c's template |
| OapiAgent.CloseBraceAt | oapi_agent.py:79 | the placeholder closes at the first "}" |
| OapiAgent.LitsMatch | oapi_agent.py:80 | a literal name matches exactly the endpoint names it is a prefix of |
| OapiAgent.LitsThen | oapi_agent.py:80 | literal text in front of a pattern matches the same text in front of a match |
| OapiAgent.HoleSpans | oapi_agent.py:79-80 | a hole swallows any text without a newline, "/" included |
| OapiAgent.MatchExtends | oapi_agent.py:80 | only the start is anchored: a match stays a match whatever follows |
| OapiAgent.PlaceholderSpansSegments | oapi_agent.py:79-80 | a name ending in a placeholder matches its literal part followed by any further segments |
| OapiAgent.AnyMatch | oapi_agent.py:77-81 | found_match after the inner loop; see AnyMatchExists |
| OapiAgent.DocsFor | oapi_agent.py:78-82 | the docs the inner loop adds for one endpoint; see DocsForStep and DocsForBlocks |
| OapiAgent.Lookup | oapi_agent.py:75-84 | the docs of all endpoints or the first ValueError; see LookupSucceeds, LookupFails, LookupFailsFirst and LookupConcat |
| OapiAgent.DocsForStep | oapi_agent.py:78-82 | one more spec endpoint updates found_match and the docs by that endpoint alone |
| OapiAgent.AnyMatchExists | oapi_agent.py:77-81 | found_match ends true exactly when some spec endpoint matches |
| OapiAgent.DocsForEmpty | oapi_agent.py:78-82 | an endpoint adds docs exactly when something matches |
| OapiAgent.Blocks | oapi_agent.py:82 | each spec endpoint contributes its block when it matches and nothing otherwise |
| OapiAgent.DocsForBlocks | oapi_agent.py:78-82 | an endpoint's docs are one block per matching spec endpoint, in spec order |
| OapiAgent.LookupFailureStays | oapi_agent.py:83-84 | once an endpoint fails, the raise ends the lookup with that error |
| OapiAgent.LookupSucceeds | oapi_agent.py:75-84 | the lookup succeeds exactly when every extracted endpoint matches |
| OapiAgent.AllMatchEvery | oapi_agent.py:75-84 | every name matching, stated item by item |
| OapiAgent.LookupFails | oapi_agent.py:76-84 | the lookup raises exactly when some extracted endpoint matches nothing |
| OapiAgent.LookupFailsFirst | oapi_agent.py:83-84 | the ValueError names the first extracted endpoint that matches nothing, as "<name> endpoint does not exist." |
| OapiAgent.DocsOf | oapi_agent.py:76-82 | the docs of each extracted endpoint, in plan order |
| OapiAgent.LookupConcat | oapi_agent.py:75-84 | a successful lookup is the docs of every endpoint, in plan order then spec order |
| OapiAgent.ControllerDocs | oapi_agent.py:68-84 | the controller computes the lookup of the endpoints extracted from the plan |
| OapiAgent.GatherDocs | oapi_agent.py:75-84 | the outer loop computes the lookup: all docs, or the first endpoint's ValueError |
| OapiAgent.ScanSpec | oapi_agent.py:77-82 | the inner loop computes found_match and the docs blocks of one endpoint |
| OapiAgent.BaseUrl | oapi_agent.py:66 | the first server's url; IndexError without servers, KeyError without "url", TypeError on a non-dict server |
| OapiAgent.BaseUrlOfLoadedSpec | oapi_agent.py:66 | for a spec loaded without servers, the base URL is the one the loader synthesised |

## Left out

- HTTP traffic, the live spec fetch and its fallback spec, reading the spec file, and `reduce_openapi_spec` are left out. The client is the parameter `send`, and the loader starts from the parsed spec.
- File handles are not modelled. The payload file's existence is the parameter `fileExists`. Neither tool closes the payload file handle, and the model says nothing about it.
- The LLM, the agent executors, the controller agent creation and the planner chain are foreign calls. The agent's run is the parameter `run`.
- The Rich console output of `api_call` (lines 85-86) and the CLI loops are left out as I/O.
- Python exception messages are modelled only where they reach a returned value: `result["output"]` in `Output`, with Python 3.12 wording.
- Lists and dicts rendered inside f-strings are not modelled. Such a value is reported as an error of its own:
  - `UnrenderedValue` for a URL built by `LoadSpec.ServerUrl`;
  - `Unrendered` for a list or dict version in `SwaggerContext.Version`;
  - `Unrendered` for a list summary in `SwaggerContext.LineFor`.
- Floating-point numbers are not modelled: a JSON number is an integer.
- Letter case is ASCII only: `lower()`, `upper()` and `\w` treat non-ASCII letters as non-letters.
- Broken module wiring is modelled as intended, with the values as parameters:
  - tools.py uses `os.getenv` without importing `os`;
  - oapi_agent.py uses `re` and `yaml` without importing them;
  - caldera_agent.py assigns `SECRET_KEY` after its main block.
- OapiAgent.Matches: regex metacharacters other than `{...}` in a spec name (such as ".") are matched literally, while the source does not escape them.
- OapiAgent.FindAll: only the regex features the pattern uses are modelled, on ASCII word characters for `\b`.
- ChatSessions.ChatBot.Chat: the session dict aliasing of the source (`session["history"]` is the stored list) is modelled by storing the updated history back in the map.
- ChatSessions.ChatBot.Chat: the messages `history_to_messages` builds from the last six items are computed and discarded, as in the source. The validation LangChain's `HumanMessage`/`AIMessage` constructors apply to non-string content is not modelled. Such a failure would end in the except clause, and its message is not known.
- SwaggerContext.AddPathLines: each path item's lines are appended to the context in one step rather than one by one. The resulting text is the same.
- OapiAgent.ScanSpec: the inner loop of the controller is a method of its own, called by `GatherDocs`.

## Findings

| source | as written | input that shows it | evidently intended | confidence | as-written member | corrected member |
|---|---|---|---|---|---|---|
| caldera_agent.py:80 | the payload is opened before the `try` at line 88, so `except FileNotFoundError` at line 114 never sees a missing file and the error leaves the tool | req_type "POST", payload "/tmp/payload.bin" with no such file | the tool returns "❌ **File not found**: /tmp/payload.bin" | not executed | CalderaApiCall.MissingPayloadRaises | CalderaApiCall.ApiCallIntended |
