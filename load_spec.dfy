/** `load_caldera_spec` of load_spec.py, after the spec file is parsed and
    before the result is reduced: when the spec has no "servers" member (an
    OpenAPI 2.0 Swagger Object), it gets a single server whose URL is built
    from "host", "basePath" and "schemes"; then every operation object under
    "paths" gets a "responses" member if it has none. The value of the
    CALDERA_WEB_URL environment variable is a parameter. */
module LoadSpec {
  import opened Wrappers
  import opened Text
  import opened Json

  /** The exceptions the normalisation can raise, one per Python error. */
  datatype LoadError =
    | SchemesNotSubscriptable    // schemes[0] on a number or a boolean: TypeError
    | SchemesKeyError            // schemes[0] on a dict: KeyError
    | UnrenderedValue            // a list or dict inside the URL's f-string (not modelled)
    | PathsNotObject             // .items() on a "paths" value that is not a dict
    | OperationsNotObject(route: string)  // .items() on a path item that is not a dict

  /** `os.getenv("CALDERA_WEB_URL", "")`. */
  function EnvOr(env: Option<string>, default: string): string {
    if env.Some? then env.value else default
  }

  /** `schemes[0] if schemes else ("https" if ... else "http")`. */
  function Scheme(schemes: Json, env: Option<string>): (r: Result<Json, LoadError>)
    ensures !Truthy(schemes) ==> r == Success(JStr(if StartsWith(EnvOr(env, ""), "https") then "https" else "http"))
    ensures schemes.JArr? && schemes.items != [] ==> r == Success(schemes.items[0])
  {
    if !Truthy(schemes) then
      Success(JStr(if StartsWith(EnvOr(env, ""), "https") then "https" else "http"))
    else
      match schemes
      case JArr(xs) => Success(xs[0])
      case JStr(s) => Success(JStr([s[0]]))
      case JObj(_) => Failure(SchemesKeyError)
      case _ => Failure(SchemesNotSubscriptable)
  }

  /** The "url" of the synthesised server. */
  function ServerUrl(spec: seq<(string, Json)>, env: Option<string>): Result<Json, LoadError> {
    var host := GetOr(spec, "host", JNull);
    var base := GetOr(spec, "basePath", JStr(""));
    var schemes := GetOr(spec, "schemes", JArr([]));
    if Truthy(host) then
      match Scheme(schemes, env)
      case Failure(e) => Failure(e)
      case Success(scheme) =>
        if Str(scheme).Some? && Str(host).Some? && Str(base).Some?
        then Success(JStr(Str(scheme).value + "://" + Str(host).value + Str(base).value))
        else Failure(UnrenderedValue)
    else if env.Some? then Success(JStr(env.value))
    else Success(JNull)
  }

  /** A truthy host with listed schemes: `<first scheme>://<host><basePath>`,
      the base path defaulting to "". */
  lemma HostWithSchemes(spec: seq<(string, Json)>, env: Option<string>, host: string, scheme: string)
    requires Get(spec, "host") == Some(JStr(host)) && host != ""
    requires Get(spec, "schemes").Some? && Get(spec, "schemes").value.JArr?
    requires Get(spec, "schemes").value.items != [] && Get(spec, "schemes").value.items[0] == JStr(scheme)
    ensures !Has(spec, "basePath") ==> ServerUrl(spec, env) == Success(JStr(scheme + "://" + host))
    ensures forall base :: Get(spec, "basePath") == Some(JStr(base))
              ==> ServerUrl(spec, env) == Success(JStr(scheme + "://" + host + base))
  {
    if !Has(spec, "basePath") {
      assert scheme + "://" + host + "" == scheme + "://" + host;
    }
  }

  /** A truthy host and no schemes: https when CALDERA_WEB_URL starts with
      "https", http otherwise (also when it is unset). */
  lemma HostWithoutSchemes(spec: seq<(string, Json)>, env: Option<string>, host: string)
    requires Get(spec, "host") == Some(JStr(host)) && host != ""
    requires !Has(spec, "schemes") && !Has(spec, "basePath")
    ensures env.Some? && StartsWith(env.value, "https") ==> ServerUrl(spec, env) == Success(JStr("https://" + host))
    ensures !(env.Some? && StartsWith(env.value, "https")) ==> ServerUrl(spec, env) == Success(JStr("http://" + host))
  {
    assert GetOr(spec, "schemes", JArr([])) == JArr([]);
    assert GetOr(spec, "basePath", JStr("")) == JStr("");
    var scheme := if env.Some? && StartsWith(env.value, "https") then "https" else "http";
    assert Scheme(JArr([]), env) == Success(JStr(scheme));
    assert scheme + "://" + host + "" == scheme + "://" + host;
    if env.Some? && StartsWith(env.value, "https") {
      assert "https" + "://" + host == "https://" + host;
    } else {
      assert "http" + "://" + host == "http://" + host;
    }
  }

  /** A missing or empty host: the URL is CALDERA_WEB_URL itself, None when unset. */
  lemma NoHost(spec: seq<(string, Json)>, env: Option<string>)
    requires !Has(spec, "host") || Get(spec, "host") == Some(JStr(""))
    ensures ServerUrl(spec, env) == Success(if env.Some? then JStr(env.value) else JNull)
  {
  }

  /** `spec["servers"] = [{"url": url}]` when "servers" is absent. */
  function WithServers(spec: seq<(string, Json)>, env: Option<string>): Result<seq<(string, Json)>, LoadError> {
    if Has(spec, "servers") then Success(spec)
    else
      match ServerUrl(spec, env)
      case Failure(e) => Failure(e)
      case Success(url) => Success(spec + [("servers", JArr([JObj([("url", url)])]))])
  }

  /** `docs.setdefault("responses", {})` on a dict, nothing on anything else. */
  function DefaultResponses(docs: Json): (r: Json)
    ensures docs.JObj? ==> r.JObj? && Has(r.fields, "responses")
    ensures docs.JObj? && Has(docs.fields, "responses") ==> r == docs
    ensures docs.JObj? && !Has(docs.fields, "responses") ==>
              && Keys(r.fields) == Keys(docs.fields) + ["responses"]
              && Get(r.fields, "responses") == Some(JObj([]))
              && forall key :: key != "responses" ==> Get(r.fields, key) == Get(docs.fields, key)
    ensures !docs.JObj? ==> r == docs
  {
    if docs.JObj? && !Has(docs.fields, "responses")
    then
      var r := JObj(docs.fields + [("responses", JObj([]))]);
      assert Keys(r.fields)[|docs.fields|] == "responses";
      assert forall key :: key != "responses" ==> Get(r.fields, key) == Get(docs.fields, key) by {
        forall key | key != "responses" ensures Get(r.fields, key) == Get(docs.fields, key) {
          GetAppend(docs.fields, "responses", JObj([]), key);
        }
      }
      GetAppend(docs.fields, "responses", JObj([]), "responses");
      r
    else docs
  }

  /** The inner loop over one path item's operations. */
  function DefaultOperations(ops: seq<(string, Json)>): (r: seq<(string, Json)>)
    ensures |r| == |ops|
    ensures forall k :: 0 <= k < |ops| ==> r[k] == (ops[k].0, DefaultResponses(ops[k].1))
  {
    seq(|ops|, k requires 0 <= k < |ops| => (ops[k].0, DefaultResponses(ops[k].1)))
  }

  /** The outer loop over the path items, stopping at the first that is not
      a dict. */
  function DefaultPaths(paths: seq<(string, Json)>): (r: Result<seq<(string, Json)>, LoadError>)
    ensures r.Success? <==> forall k :: 0 <= k < |paths| ==> paths[k].1.JObj?
    ensures r.Success? ==> |r.value| == |paths|
    ensures r.Success? ==> forall k :: 0 <= k < |paths| ==>
              r.value[k] == (paths[k].0, JObj(DefaultOperations(paths[k].1.fields)))
    ensures r.Failure? ==> exists k :: (0 <= k < |paths| && !paths[k].1.JObj?
              && r.error == OperationsNotObject(paths[k].0)
              && forall k' :: 0 <= k' < k ==> paths[k'].1.JObj?)
  {
    if paths == [] then Success([])
    else
      match DefaultPaths(paths[..|paths| - 1])
      case Failure(e) => Failure(e)
      case Success(done) =>
        var (route, ops) := paths[|paths| - 1];
        if ops.JObj? then Success(done + [(route, JObj(DefaultOperations(ops.fields)))])
        else Failure(OperationsNotObject(route))
  }

  /** One more iteration of the outer loop, on a path item that is a dict. */
  lemma DefaultPathsStep(paths: seq<(string, Json)>, i: nat, done: seq<(string, Json)>)
    requires i < |paths| && paths[i].1.JObj?
    requires DefaultPaths(paths[..i]) == Success(done)
    ensures DefaultPaths(paths[..i + 1])
            == Success(done + [(paths[i].0, JObj(DefaultOperations(paths[i].1.fields)))])
  {
    assert paths[..i + 1][..i] == paths[..i];
  }

  /** Once a prefix of the path items fails, the whole loop fails the same way. */
  lemma {:induction false} DefaultPathsFailureStays(paths: seq<(string, Json)>, n: nat)
    requires n <= |paths| && DefaultPaths(paths[..n]).Failure?
    ensures DefaultPaths(paths) == DefaultPaths(paths[..n])
  {
    if n < |paths| {
      var init := paths[..|paths| - 1];
      assert init[..n] == paths[..n];
      DefaultPathsFailureStays(init, n);
    } else {
      assert paths[..n] == paths;
    }
  }

  /** The member stored under key replaced by v (the first one, as lookups use). */
  function SetFirst(fields: seq<(string, Json)>, key: string, v: Json): (r: seq<(string, Json)>)
    ensures Keys(r) == Keys(fields)
  {
    if fields == [] then []
    else if fields[0].0 == key then [(key, v)] + fields[1..]
    else [fields[0]] + SetFirst(fields[1..], key, v)
  }

  lemma {:induction false} SetFirstGet(fields: seq<(string, Json)>, key: string, v: Json, other: string)
    ensures Has(fields, key) ==> Get(SetFirst(fields, key, v), key) == Some(v)
    ensures other != key ==> Get(SetFirst(fields, key, v), other) == Get(fields, other)
  {
    if fields != [] && fields[0].0 != key {
      assert Has(fields, key) ==> Has(fields[1..], key) by {
        if Has(fields, key) {
          var i :| 0 <= i < |fields| && Keys(fields)[i] == key;
          assert Keys(fields[1..])[i - 1] == key;
        }
      }
      SetFirstGet(fields[1..], key, v, other);
    }
  }

  lemma {:induction false} GetAppend(fields: seq<(string, Json)>, key: string, v: Json, other: string)
    ensures !Has(fields, key) ==> Get(fields + [(key, v)], key) == Some(v)
    ensures other != key ==> Get(fields + [(key, v)], other) == Get(fields, other)
    ensures Keys(fields + [(key, v)]) == Keys(fields) + [key]
  {
    KeysAppend(fields, key, v);
    if fields != [] {
      assert (fields + [(key, v)])[1..] == fields[1..] + [(key, v)];
      assert !Has(fields, key) ==> !Has(fields[1..], key);
      GetAppend(fields[1..], key, v, other);
    }
  }

  lemma KeysAppend(fields: seq<(string, Json)>, key: string, v: Json)
    ensures Keys(fields + [(key, v)]) == Keys(fields) + [key]
  {
    assert forall i :: 0 <= i < |fields| ==> Keys(fields + [(key, v)])[i] == (Keys(fields) + [key])[i];
  }

  /** The whole normalisation, as a function of the parsed spec. */
  function NormaliseSpec(spec: seq<(string, Json)>, env: Option<string>): Result<seq<(string, Json)>, LoadError> {
    match WithServers(spec, env)
    case Failure(e) => Failure(e)
    case Success(fields) =>
      match GetOr(fields, "paths", JObj([]))
      case JObj(paths) =>
        (match DefaultPaths(paths)
         case Failure(e) => Failure(e)
         case Success(newPaths) =>
           Success(if Has(fields, "paths") then SetFirst(fields, "paths", JObj(newPaths)) else fields))
      case _ => Failure(PathsNotObject)
  }

  /** The inner loop: `for method, docs in ops.items()` with setdefault. */
  method SetDefaultResponses(ops: seq<(string, Json)>) returns (newOps: seq<(string, Json)>)
    ensures newOps == DefaultOperations(ops)
  {
    newOps := [];
    var j := 0;
    while j < |ops|
      invariant 0 <= j <= |ops|
      invariant newOps == DefaultOperations(ops[..j])
    {
      var (verb, docs) := ops[j];
      if docs.JObj? && !Has(docs.fields, "responses") {
        docs := JObj(docs.fields + [("responses", JObj([]))]);
      }
      newOps := newOps + [(verb, docs)];
      j := j + 1;
    }
    assert ops[..j] == ops;
  }

  /** The outer loop: `for route, ops in spec.get("paths", {}).items()`. */
  method SetDefaultResponsesInPaths(paths: seq<(string, Json)>)
    returns (r: Result<seq<(string, Json)>, LoadError>)
    ensures r == DefaultPaths(paths)
  {
    var newPaths: seq<(string, Json)> := [];
    var i := 0;
    while i < |paths|
      invariant 0 <= i <= |paths|
      invariant DefaultPaths(paths[..i]) == Success(newPaths)
    {
      var (route, ops) := paths[i];
      if !ops.JObj? {
        assert paths[..i + 1][..i] == paths[..i];
        DefaultPathsFailureStays(paths, i + 1);
        return Failure(OperationsNotObject(route));
      }
      var newOps := SetDefaultResponses(ops.fields);
      DefaultPathsStep(paths, i, newPaths);
      newPaths := newPaths + [(route, JObj(newOps))];
      i := i + 1;
    }
    assert paths[..i] == paths;
    return Success(newPaths);
  }

  /** load_caldera_spec on an already parsed spec: the two in-place updates
      of the source, done by loops that rebuild the members they change. */
  method LoadCalderaSpec(spec: seq<(string, Json)>, env: Option<string>)
    returns (r: Result<seq<(string, Json)>, LoadError>)
    ensures r == NormaliseSpec(spec, env)
  {
    var fields := spec;
    if !Has(fields, "servers") {
      var url := ServerUrl(spec, env);
      if url.Failure? {
        return Failure(url.error);
      }
      fields := fields + [("servers", JArr([JObj([("url", url.value)])]))];
    }
    assert WithServers(spec, env) == Success(fields);
    var paths := GetOr(fields, "paths", JObj([]));
    if !paths.JObj? {
      return Failure(PathsNotObject);
    }
    var newPaths := SetDefaultResponsesInPaths(paths.fields);
    if newPaths.Failure? {
      return Failure(newPaths.error);
    }
    if Has(fields, "paths") {
      fields := SetFirst(fields, "paths", JObj(newPaths.value));
    }
    return Success(fields);
  }
}

module LoadSpecProperties {
  import opened Wrappers
  import opened Json
  import opened LoadSpec

  /** A spec that has a "servers" member keeps it as it was. */
  lemma ExistingServersKept(spec: seq<(string, Json)>, env: Option<string>)
    requires Has(spec, "servers")
    requires NormaliseSpec(spec, env).Success?
    ensures Get(NormaliseSpec(spec, env).value, "servers") == Get(spec, "servers")
  {
    var paths := GetOr(spec, "paths", JObj([]));
    if Has(spec, "paths") {
      SetFirstGet(spec, "paths", JObj(DefaultPaths(paths.fields).value), "servers");
    }
  }

  /** A spec without "servers" ends up with exactly one server, whose "url"
      is the synthesised one; no other member is added. */
  lemma ServerSynthesised(spec: seq<(string, Json)>, env: Option<string>)
    requires !Has(spec, "servers")
    requires NormaliseSpec(spec, env).Success?
    ensures ServerUrl(spec, env).Success?
    ensures Get(NormaliseSpec(spec, env).value, "servers")
            == Some(JArr([JObj([("url", ServerUrl(spec, env).value)])]))
    ensures Keys(NormaliseSpec(spec, env).value) == Keys(spec) + ["servers"]
  {
    var servers := JArr([JObj([("url", ServerUrl(spec, env).value)])]);
    var fields := spec + [("servers", servers)];
    GetAppend(spec, "servers", servers, "paths");
    var paths := GetOr(fields, "paths", JObj([]));
    if Has(fields, "paths") {
      SetFirstGet(fields, "paths", JObj(DefaultPaths(paths.fields).value), "servers");
    }
  }

  /** Every member other than "servers" and "paths" is left as it was. */
  lemma OtherMembersKept(spec: seq<(string, Json)>, env: Option<string>, key: string)
    requires key != "servers" && key != "paths"
    requires NormaliseSpec(spec, env).Success?
    ensures Get(NormaliseSpec(spec, env).value, key) == Get(spec, key)
  {
    var fields := if Has(spec, "servers") then spec
                  else spec + [("servers", JArr([JObj([("url", ServerUrl(spec, env).value)])]))];
    if !Has(spec, "servers") {
      GetAppend(spec, "servers", JArr([JObj([("url", ServerUrl(spec, env).value)])]), key);
      GetAppend(spec, "servers", JArr([JObj([("url", ServerUrl(spec, env).value)])]), "paths");
    }
    var paths := GetOr(fields, "paths", JObj([]));
    if Has(fields, "paths") {
      SetFirstGet(fields, "paths", JObj(DefaultPaths(paths.fields).value), key);
    }
  }

  /** After normalisation every operation that is a dict, under every path,
      has a "responses" member; an existing one is untouched; one that was
      missing is appended last with the value {} and every other member of
      the operation is kept; entries that are not dicts, the routes and the
      methods, and their order, are all unchanged. */
  lemma ResponsesDefaulted(spec: seq<(string, Json)>, env: Option<string>, paths: seq<(string, Json)>)
    requires Get(spec, "paths") == Some(JObj(paths))
    requires NormaliseSpec(spec, env).Success?
    ensures var out := Get(NormaliseSpec(spec, env).value, "paths");
      && out.Some? && out.value.JObj? && |out.value.fields| == |paths|
      && forall k :: 0 <= k < |paths| ==>
           && paths[k].1.JObj?
           && out.value.fields[k].0 == paths[k].0
           && out.value.fields[k].1.JObj?
           && var before := paths[k].1.fields;
              var after := out.value.fields[k].1.fields;
              && |after| == |before|
              && forall m :: 0 <= m < |before| ==>
                   && after[m].0 == before[m].0
                   && (before[m].1.JObj? ==> after[m].1.JObj? && Has(after[m].1.fields, "responses"))
                   && (before[m].1.JObj? && Has(before[m].1.fields, "responses") ==> after[m].1 == before[m].1)
                   && (before[m].1.JObj? && !Has(before[m].1.fields, "responses") ==>
                         && Keys(after[m].1.fields) == Keys(before[m].1.fields) + ["responses"]
                         && Get(after[m].1.fields, "responses") == Some(JObj([]))
                         && forall key :: key != "responses" ==> Get(after[m].1.fields, key) == Get(before[m].1.fields, key))
                   && (!before[m].1.JObj? ==> after[m].1 == before[m].1)
  {
    var fields := if Has(spec, "servers") then spec
                  else spec + [("servers", JArr([JObj([("url", ServerUrl(spec, env).value)])]))];
    if !Has(spec, "servers") {
      GetAppend(spec, "servers", JArr([JObj([("url", ServerUrl(spec, env).value)])]), "paths");
    }
    assert Get(fields, "paths") == Some(JObj(paths));
    SetFirstGet(fields, "paths", JObj(DefaultPaths(paths).value), "paths");
  }

  /** A "paths" member that is not a dict makes the load raise, once the
      servers are in place (with or without a synthesised one). */
  lemma PathsNotObjectRaises(spec: seq<(string, Json)>, env: Option<string>)
    requires WithServers(spec, env).Success?
    requires Get(spec, "paths").Some? && !Get(spec, "paths").value.JObj?
    ensures NormaliseSpec(spec, env) == Failure(PathsNotObject)
  {
    ServersKeepPaths(spec, env);
  }

  /** Adding the synthesised server leaves the "paths" member as it was. */
  lemma ServersKeepPaths(spec: seq<(string, Json)>, env: Option<string>)
    requires WithServers(spec, env).Success?
    ensures Get(WithServers(spec, env).value, "paths") == Get(spec, "paths")
  {
    if !Has(spec, "servers") {
      GetAppend(spec, "servers", JArr([JObj([("url", ServerUrl(spec, env).value)])]), "paths");
    }
  }

  /** With "paths" a dict and the servers in place, the load raises
      exactly when one of its path items is not a dict, naming the first
      such route. */
  lemma PathItemNotObjectRaises(spec: seq<(string, Json)>, env: Option<string>, paths: seq<(string, Json)>)
    requires WithServers(spec, env).Success?
    requires Get(spec, "paths") == Some(JObj(paths))
    ensures NormaliseSpec(spec, env).Failure? <==> exists k :: 0 <= k < |paths| && !paths[k].1.JObj?
    ensures NormaliseSpec(spec, env).Failure? ==>
              exists k :: 0 <= k < |paths| && NormaliseSpec(spec, env).error == OperationsNotObject(paths[k].0)
                          && !paths[k].1.JObj? && forall k' :: 0 <= k' < k ==> paths[k'].1.JObj?
  {
    ServersKeepPaths(spec, env);
    assert GetOr(WithServers(spec, env).value, "paths", JObj([])) == JObj(paths);
    assert NormaliseSpec(spec, env).Failure? <==> DefaultPaths(paths).Failure?;
  }
}
