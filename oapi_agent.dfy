/** The planner and controller tools of oapi_agent.py: the endpoint list the
    planner is shown, and the controller's lookup, which extracts
    "METHOD /route" pairs from a plan, cuts their query strings, matches
    each against the spec's endpoint names (where a `{...}` placeholder
    matches any text and only the start is anchored), and gathers the docs
    of every match or fails on the first endpoint nothing matches. */
module OapiAgent {
  import opened Wrappers
  import opened Text
  import opened Json
  import LoadSpec
  import LoadSpecProperties

  /** An entry of the reduced spec's endpoint list: (name, description, docs). */
  datatype Endpoint = Endpoint(name: string, description: Option<string>, docs: Json)

  /** The exceptions the controller tool can raise. */
  datatype ControllerError =
    | IndexError            // servers[0] of an empty server list
    | KeyError(key: string) // servers[0]["url"] missing
    | TypeError             // servers[0] is not a dict
    | ValueError(message: string)

  // ---------------------------------------------------------------------
  // The planner's endpoint list

  /** f"{name} {description}", where a missing description renders as "None". */
  function Describe(e: Endpoint): string {
    e.name + " " + (if e.description.Some? then e.description.value else "None")
  }

  /** "- " + "- ".join(endpoint_descriptions). */
  function PlannerEndpoints(es: seq<Endpoint>): string {
    "- " + Join("- ", seq(|es|, k requires 0 <= k < |es| => Describe(es[k])))
  }

  /** Every string preceded by "- ", all concatenated. */
  function Bullets(ds: seq<string>): string {
    if ds == [] then [] else "- " + ds[0] + Bullets(ds[1..])
  }

  lemma {:induction false} JoinBullets(ds: seq<string>)
    requires ds != []
    ensures "- " + Join("- ", ds) == Bullets(ds)
  {
    if |ds| > 1 {
      JoinBullets(ds[1..]);
      calc {
        "- " + Join("- ", ds);
        "- " + (ds[0] + "- " + Join("- ", ds[1..]));
        "- " + ds[0] + ("- " + Join("- ", ds[1..]));
        "- " + ds[0] + Bullets(ds[1..]);
      }
    }
  }

  lemma {:induction false} BulletsContain(ds: seq<string>, k: nat)
    requires k < |ds|
    ensures Contains(Bullets(ds), "- " + ds[k])
  {
    if k == 0 {
      ContainsInfix(Bullets(ds), [], "- " + ds[0], Bullets(ds[1..]));
    } else {
      BulletsContain(ds[1..], k - 1);
      ContainsSuffix("- " + ds[0], Bullets(ds[1..]), "- " + ds[k]);
    }
  }

  lemma {:induction false} ContainsSuffix(p: string, s: string, sub: string)
    requires Contains(s, sub)
    ensures Contains(p + s, sub)
  {
    if p == [] {
      assert p + s == s;
    } else {
      assert (p + s)[1..] == p[1..] + s;
      ContainsSuffix(p[1..], s, sub);
    }
  }

  /** The planner is shown every endpoint as a "- <name> <description>"
      item, in the order of the list; with no endpoints it sees "- ". */
  lemma PlannerListsEvery(es: seq<Endpoint>)
    ensures es == [] ==> PlannerEndpoints(es) == "- "
    ensures es != [] ==> PlannerEndpoints(es) == Bullets(seq(|es|, k requires 0 <= k < |es| => Describe(es[k])))
    ensures forall k :: 0 <= k < |es| ==> Contains(PlannerEndpoints(es), "- " + Describe(es[k]))
  {
    var ds := seq(|es|, k requires 0 <= k < |es| => Describe(es[k]));
    if es != [] {
      JoinBullets(ds);
      forall k | 0 <= k < |es| ensures Contains(PlannerEndpoints(es), "- " + Describe(es[k])) {
        BulletsContain(ds, k);
      }
    }
  }

  // ---------------------------------------------------------------------
  // Extraction: re.findall(r"\b(GET|POST|PATCH|DELETE|PUT)\s+(/\S+)*", plan)

  /** What `\w` matches, on ASCII. */
  predicate IsWordChar(c: char) {
    ('a' <= c <= 'z') || ('A' <= c <= 'Z') || ('0' <= c <= '9') || c == '_'
  }

  /** The alternatives of the method group, in the pattern's order. */
  const Verbs: seq<string> := ["GET", "POST", "PATCH", "DELETE", "PUT"]

  /** The first of vs that t starts with. */
  function FirstPrefix(vs: seq<string>, t: string): (r: Option<string>)
    ensures r.Some? ==> r.value in vs && r.value <= t
    ensures r.None? ==> forall v :: v in vs ==> !(v <= t)
  {
    if vs == [] then None
    else if vs[0] <= t then Some(vs[0])
    else
      assert forall v :: v in vs ==> v == vs[0] || v in vs[1..];
      FirstPrefix(vs[1..], t)
  }

  /** The method alternative that matches at position i, if any. */
  function VerbAt(s: string, i: nat): Option<string>
    requires i <= |s|
  {
    FirstPrefix(Verbs, s[i..])
  }

  /** Where a run of whitespace starting at j ends (`\s+` is greedy). */
  function SpaceEnd(s: string, j: nat): (k: nat)
    requires j <= |s|
    ensures j <= k <= |s|
    decreases |s| - j
  {
    if j < |s| && IsSpace(s[j]) then SpaceEnd(s, j + 1) else j
  }

  /** Where a run of non-whitespace starting at j ends (`\S+` is greedy). */
  function TokenEnd(s: string, j: nat): (k: nat)
    requires j <= |s|
    ensures j <= k <= |s|
    decreases |s| - j
  {
    if j < |s| && !IsSpace(s[j]) then TokenEnd(s, j + 1) else j
  }

  lemma {:induction false} TokenEndFacts(s: string, j: nat)
    requires j <= |s|
    ensures forall m :: j <= m < TokenEnd(s, j) ==> !IsSpace(s[m])
    ensures TokenEnd(s, j) == |s| || IsSpace(s[TokenEnd(s, j)])
    decreases |s| - j
  {
    if j < |s| && !IsSpace(s[j]) {
      TokenEndFacts(s, j + 1);
    }
  }

  /** A pair findall can give: one of the five method names, and a route
      that is empty or "/" followed by non-space characters. */
  predicate Extracted(p: (string, string)) {
    && p.0 in Verbs
    && (p.1 == [] || (|p.1| >= 2 && p.1[0] == '/' && forall m :: 0 <= m < |p.1| ==> !IsSpace(p.1[m])))
  }

  /** The route group `(/\S+)*` at k: "/" and every non-space character
      after it, or nothing when "/" and at least one more non-space
      character do not follow. */
  function RouteAt(s: string, k: nat): (r: string)
    requires k <= |s|
    ensures k + |r| <= |s| && r == s[k..k + |r|]
    ensures r == [] || (|r| >= 2 && r[0] == '/' && forall m :: 0 <= m < |r| ==> !IsSpace(r[m]))
    ensures r != [] <==> k + 1 < |s| && s[k] == '/' && !IsSpace(s[k + 1])
    ensures r != [] ==> k + |r| == |s| || IsSpace(s[k + |r|])
  {
    if k + 1 < |s| && s[k] == '/' && !IsSpace(s[k + 1]) then
      var e := TokenEnd(s, k + 1);
      TokenEndFacts(s, k + 1);
      assert forall m :: 0 <= m < e - k ==> s[k..e][m] == s[k + m];
      s[k..e]
    else []
  }

  /** One match: the two groups and where the match ends. */
  datatype Found = Found(verb: string, route: string, end: nat)

  /** The match starting at i, if there is one: a method name that starts
      at a word boundary and is followed by whitespace, then the route. */
  function MatchAt(s: string, i: nat): (r: Option<Found>)
    requires i < |s|
    ensures r.Some? <==> (i == 0 || !IsWordChar(s[i - 1])) && VerbAt(s, i).Some?
                         && i + |VerbAt(s, i).value| < |s| && IsSpace(s[i + |VerbAt(s, i).value|])
    ensures r.Some? ==> r.value.verb == VerbAt(s, i).value && i < r.value.end <= |s|
    ensures r.Some? ==> Extracted((r.value.verb, r.value.route))
  {
    if i > 0 && IsWordChar(s[i - 1]) then None
    else
      match VerbAt(s, i)
      case None => None
      case Some(v) =>
        var j := i + |v|;
        var k := SpaceEnd(s, j);
        if k == j then None
        else
          var route := RouteAt(s, k);
          Some(Found(v, route, k + |route|))
  }

  /** All non-overlapping matches from position i on, as (method, route). */
  function FindAll(s: string, i: nat): seq<(string, string)>
    requires i <= |s|
    decreases |s| - i
  {
    if i == |s| then []
    else
      match MatchAt(s, i)
      case Some(f) => [(f.verb, f.route)] + FindAll(s, f.end)
      case None => FindAll(s, i + 1)
  }

  /** findall finds nothing from i on exactly when no position from i on
      starts a match. */
  lemma {:induction false} FindAllEmpty(s: string, i: nat)
    requires i <= |s|
    ensures FindAll(s, i) == [] <==> forall p :: i <= p < |s| ==> MatchAt(s, p).None?
    decreases |s| - i
  {
    if i < |s| && MatchAt(s, i).None? {
      FindAllEmpty(s, i + 1);
    }
  }

  /** findall takes the leftmost match first and resumes where it ends. */
  lemma {:induction false} FindAllLeftmost(s: string, i: nat, p: nat)
    requires i <= p < |s| && MatchAt(s, p).Some?
    requires forall q :: i <= q < p ==> MatchAt(s, q).None?
    ensures FindAll(s, i) == [(MatchAt(s, p).value.verb, MatchAt(s, p).value.route)]
                             + FindAll(s, MatchAt(s, p).value.end)
    decreases p - i
  {
    if i < p {
      FindAllLeftmost(s, i + 1, p);
    }
  }

  /** Only the five method names are extracted (never HEAD), each with an
      empty route or a whitespace-free one starting with "/". */
  lemma {:induction false} FindAllExtracted(s: string, i: nat)
    requires i <= |s|
    ensures forall k :: 0 <= k < |FindAll(s, i)| ==> Extracted(FindAll(s, i)[k])
    decreases |s| - i
  {
    if i < |s| {
      match MatchAt(s, i)
      case Some(f) =>
        FindAllExtracted(s, f.end);
      case None =>
        FindAllExtracted(s, i + 1);
    }
  }

  /** route.split("?")[0]: the route up to its first "?". */
  function CutQuery(route: string): (r: string)
    ensures r <= route && '?' !in r
    ensures |r| < |route| ==> route[|r|] == '?'
  {
    if route == [] || route[0] == '?' then []
    else
      var rest := CutQuery(route[1..]);
      assert |rest| < |route| - 1 ==> route[|rest| + 1] == '?';
      [route[0]] + rest
  }

  /** The endpoint names the controller looks up: "<METHOD> <route>". */
  function EndpointNames(plan: string): seq<string> {
    var ps := FindAll(plan, 0);
    seq(|ps|, k requires 0 <= k < |ps| => ps[k].0 + " " + CutQuery(ps[k].1))
  }

  /** The whole route, query string included, is what the route group takes. */
  lemma RouteWithQuery()
    ensures FindAll("GET /a?b", 0) == [("GET", "/a?b")]
  {
    var s := "GET /a?b";
    assert VerbAt(s, 0) == Some("GET");
    assert SpaceEnd(s, 3) == 4 by {
      assert SpaceEnd(s, 4) == 4;
    }
    assert RouteAt(s, 4) == "/a?b" by {
      assert TokenEnd(s, 8) == 8;
      assert TokenEnd(s, 7) == 8;
      assert TokenEnd(s, 6) == 8;
      assert TokenEnd(s, 5) == 8;
      assert s[4] == '/' && s[5] == 'a' && s[4..8] == "/a?b";
    }
    assert MatchAt(s, 0) == Some(Found("GET", "/a?b", 8));
    assert FindAll(s, 8) == [];
  }

  lemma CutQueryExample()
    ensures CutQuery("/a?b") == "/a" && "GET" + " " + "/a" == "GET /a"
  {
    assert CutQuery("?b") == [];
    assert CutQuery("a?b") == "a";
  }

  /** A route with a query string is looked up without it. */
  lemma QueryStringCut()
    ensures EndpointNames("GET /a?b") == ["GET /a"]
  {
    RouteWithQuery();
    CutQueryExample();
    var names := EndpointNames("GET /a?b");
    assert |names| == 1 && names[0] == "GET" + " " + "/a";
  }

  /** The controller gets no endpoint exactly when no position of the plan
      starts a match. */
  lemma NoEndpoints(plan: string)
    ensures EndpointNames(plan) == [] <==> forall p :: 0 <= p < |plan| ==> MatchAt(plan, p).None?
  {
    FindAllEmpty(plan, 0);
  }

  /** HEAD is not among the alternatives: a plan naming only a HEAD
      request yields no endpoint at all. */
  lemma HeadNotExtracted()
    ensures EndpointNames("HEAD /x") == []
  {
    var s := "HEAD /x";
    assert FindAll(s, 7) == [];
    assert VerbAt(s, 6).None? && FindAll(s, 6) == [];
    assert VerbAt(s, 5).None? && FindAll(s, 5) == [];
    assert IsWordChar(s[3]) && FindAll(s, 4) == [];
    assert IsWordChar(s[2]) && FindAll(s, 3) == [];
    assert IsWordChar(s[1]) && FindAll(s, 2) == [];
    assert IsWordChar(s[0]) && FindAll(s, 1) == [];
    assert VerbAt(s, 0).None? && FindAll(s, 0) == [];
  }

  // ---------------------------------------------------------------------
  // Matching: re.compile(re.sub("\\{.*?\\}", ".*", name)).match(endpoint)

  /** A compiled spec name: literal characters and `.*` holes. */
  datatype Piece = Lit(c: char) | Hole

  /** The index of the first "}" in t, if no newline comes before it. */
  function CloseBrace(t: string): (r: Option<nat>)
    ensures r.Some? ==> r.value < |t| && t[r.value] == '}' && '}' !in t[..r.value] && '\n' !in t[..r.value]
  {
    if t == [] || t[0] == '\n' then None
    else if t[0] == '}' then Some(0)
    else match CloseBrace(t[1..])
      case None => None
      case Some(k) => assert t[1..][..k] == t[1..k + 1]; Some(k + 1)
  }

  /** Each "{...}" (the shortest, on one line) becomes a hole; every other
      character stands for itself. */
  function Template(name: string): seq<Piece> {
    if name == [] then []
    else if name[0] == '{' && CloseBrace(name[1..]).Some? then
      [Hole] + Template(name[CloseBrace(name[1..]).value + 2..])
    else [Lit(name[0])] + Template(name[1..])
  }

  /** The pieces of a name without placeholders. */
  function Lits(t: string): (r: seq<Piece>)
    ensures |r| == |t| && forall k :: 0 <= k < |t| ==> r[k] == Lit(t[k])
  {
    seq(|t|, k requires 0 <= k < |t| => Lit(t[k]))
  }

  /** Pattern.match: the pattern matches some prefix of s (a hole matches
      any run of characters other than a newline). */
  predicate Matches(pat: seq<Piece>, s: string)
    decreases |s|, |pat|
  {
    if pat == [] then true
    else
      match pat[0]
      case Lit(c) => s != [] && s[0] == c && Matches(pat[1..], s[1..])
      case Hole => Matches(pat[1..], s) || (s != [] && s[0] != '\n' && Matches(pat, s[1..]))
  }

  /** A name without "{" compiles to its own characters. */
  lemma {:induction false} TemplatePlain(t: string)
    requires '{' !in t
    ensures Template(t) == Lits(t)
  {
    if t != [] {
      TemplatePlain(t[1..]);
    }
  }

  /** A name with one placeholder compiles to its text around one hole. */
  lemma {:induction false} TemplateOneHole(a: string, b: string, c: string)
    requires '{' !in a && '}' !in b && '\n' !in b
    ensures Template(a + "{" + b + "}" + c) == Lits(a) + [Hole] + Template(c)
  {
    var n := a + "{" + b + "}" + c;
    if a == [] {
      assert n[1..] == b + "}" + c;
      CloseBraceAt(b, c);
      assert n[|b| + 2..] == c;
    } else {
      assert n[0] == a[0] && n[1..] == a[1..] + "{" + b + "}" + c;
      TemplateOneHole(a[1..], b, c);
      assert Lits(a) == [Lit(a[0])] + Lits(a[1..]);
    }
  }

  lemma {:induction false} CloseBraceAt(b: string, c: string)
    requires '}' !in b && '\n' !in b
    ensures CloseBrace(b + "}" + c) == Some(|b|)
  {
    if b != [] {
      assert (b + "}" + c)[1..] == b[1..] + "}" + c;
      CloseBraceAt(b[1..], c);
    }
  }

  /** Literal pieces match exactly the strings they are a prefix of. */
  lemma {:induction false} LitsMatch(t: string, s: string)
    ensures Matches(Lits(t), s) <==> t <= s
  {
    if t != [] && s != [] {
      assert Lits(t)[1..] == Lits(t[1..]);
      LitsMatch(t[1..], s[1..]);
    }
  }

  /** Literal text in front of a pattern matches the same text in front. */
  lemma {:induction false} LitsThen(a: string, rest: seq<Piece>, s: string)
    requires Matches(rest, s)
    ensures Matches(Lits(a) + rest, a + s)
  {
    if a == [] {
      assert Lits(a) + rest == rest && a + s == s;
    } else {
      assert (Lits(a) + rest)[0] == Lit(a[0]);
      assert (Lits(a) + rest)[1..] == Lits(a[1..]) + rest;
      assert (a + s)[1..] == a[1..] + s;
      LitsThen(a[1..], rest, s);
    }
  }

  /** A hole swallows any text without a newline, "/" included. */
  lemma {:induction false} HoleSpans(rest: seq<Piece>, a: string, b: string)
    requires '\n' !in a && Matches(rest, b)
    ensures Matches([Hole] + rest, a + b)
  {
    assert ([Hole] + rest)[1..] == rest;
    if a == [] {
      assert a + b == b;
    } else {
      assert (a + b)[1..] == a[1..] + b;
      HoleSpans(rest, a[1..], b);
    }
  }

  /** Only the start is anchored: a match stays a match whatever follows. */
  lemma {:induction false} MatchExtends(pat: seq<Piece>, s: string, t: string)
    requires Matches(pat, s)
    ensures Matches(pat, s + t)
    decreases |s|, |pat|
  {
    if pat != [] {
      match pat[0]
      case Lit(c) =>
        assert (s + t)[1..] == s[1..] + t;
        MatchExtends(pat[1..], s[1..], t);
      case Hole =>
        if Matches(pat[1..], s) {
          MatchExtends(pat[1..], s, t);
        } else {
          assert (s + t)[1..] == s[1..] + t;
          MatchExtends(pat, s[1..], t);
        }
    }
  }

  /** A name ending in a placeholder matches its text before the
      placeholder followed by anything on one line, further "/" segments
      included. */
  lemma PlaceholderSpansSegments(a: string, b: string, rest: string)
    requires '{' !in a && '}' !in b && '\n' !in b && '\n' !in rest
    ensures Matches(Template(a + "{" + b + "}"), a + rest)
  {
    assert a + "{" + b + "}" == a + "{" + b + "}" + "";
    TemplateOneHole(a, b, "");
    assert Template("") == [];
    HoleSpans([], rest, "");
    assert rest + "" == rest;
    assert Lits(a) + [Hole] + [] == Lits(a) + [Hole];
    LitsThen(a, [Hole], rest);
  }

  // ---------------------------------------------------------------------
  // The lookup loop

  /** f"== Docs for {endpoint_name} == \n{yaml.dump(docs)}\n". */
  function Block(name: string, docs: Json, dump: Json -> string): string {
    "== Docs for " + name + " == \n" + dump(docs) + "\n"
  }

  /** Whether some spec endpoint's name matches name. */
  predicate AnyMatch(name: string, es: seq<Endpoint>) {
    es != [] && (AnyMatch(name, es[..|es| - 1]) || Matches(Template(es[|es| - 1].name), name))
  }

  /** The docs blocks of the spec endpoints matching name, in spec order. */
  function DocsFor(name: string, es: seq<Endpoint>, dump: Json -> string): string {
    if es == [] then [] else DocsFor(name, es[..|es| - 1], dump) + BlockOf(name, es[|es| - 1], dump)
  }

  /** What one spec endpoint adds to the docs of name. */
  function BlockOf(name: string, e: Endpoint, dump: Json -> string): string {
    if Matches(Template(e.name), name) then Block(name, e.docs, dump) else []
  }

  /** The text handed to the controller agent, or the error raised for the
      first endpoint nothing matches. */
  function Lookup(names: seq<string>, es: seq<Endpoint>, dump: Json -> string): Result<string, ControllerError> {
    if names == [] then Success([])
    else
      match Lookup(names[..|names| - 1], es, dump)
      case Failure(e) => Failure(e)
      case Success(docs) =>
        var name := names[|names| - 1];
        if AnyMatch(name, es) then Success(docs + DocsFor(name, es, dump))
        else Failure(ValueError(name + " endpoint does not exist."))
  }

  /** One more spec endpoint: the found flag and the docs of the inner loop. */
  lemma DocsForStep(name: string, es: seq<Endpoint>, j: nat, dump: Json -> string)
    requires j < |es|
    ensures AnyMatch(name, es[..j + 1]) == (AnyMatch(name, es[..j]) || Matches(Template(es[j].name), name))
    ensures DocsFor(name, es[..j + 1], dump) == DocsFor(name, es[..j], dump) + BlockOf(name, es[j], dump)
  {
    assert es[..j + 1][..j] == es[..j];
  }

  /** found_match ends true exactly when some spec endpoint matches. */
  lemma {:induction false} AnyMatchExists(name: string, es: seq<Endpoint>)
    ensures AnyMatch(name, es) <==> exists k :: 0 <= k < |es| && Matches(Template(es[k].name), name)
  {
    if es != [] {
      var front := es[..|es| - 1];
      AnyMatchExists(name, front);
      if AnyMatch(name, front) {
        var k :| 0 <= k < |front| && Matches(Template(front[k].name), name);
        assert es[k] == front[k];
      }
      if exists k :: 0 <= k < |es| && Matches(Template(es[k].name), name) {
        var k :| 0 <= k < |es| && Matches(Template(es[k].name), name);
        if k < |front| {
          assert front[k] == es[k];
        }
      }
    }
  }

  /** Docs are added exactly when some spec endpoint matches. */
  lemma {:induction false} DocsForEmpty(name: string, es: seq<Endpoint>, dump: Json -> string)
    ensures DocsFor(name, es, dump) == [] <==> !AnyMatch(name, es)
  {
    if es != [] {
      DocsForEmpty(name, es[..|es| - 1], dump);
      var e := es[|es| - 1];
      assert Matches(Template(e.name), name) ==> |BlockOf(name, e, dump)| > 0;
    }
  }

  /** What each spec endpoint adds to the docs of name, in spec order. */
  function Blocks(name: string, es: seq<Endpoint>, dump: Json -> string): (bs: seq<string>)
    ensures |bs| == |es| && forall k :: 0 <= k < |es| ==> bs[k] == BlockOf(name, es[k], dump)
  {
    if es == [] then []
    else
      var bs := Blocks(name, es[..|es| - 1], dump);
      assert forall k :: 0 <= k < |es| - 1 ==> es[..|es| - 1][k] == es[k];
      bs + [BlockOf(name, es[|es| - 1], dump)]
  }

  /** The docs are one block per matching spec endpoint, in spec order. */
  lemma {:induction false} DocsForBlocks(name: string, es: seq<Endpoint>, dump: Json -> string)
    ensures DocsFor(name, es, dump) == Concat(Blocks(name, es, dump))
  {
    if es != [] {
      var front := es[..|es| - 1];
      DocsForBlocks(name, front, dump);
      ConcatAppend(Blocks(name, front, dump), BlockOf(name, es[|es| - 1], dump));
    }
  }

  /** Once a prefix of the names fails, the whole lookup fails the same way. */
  lemma {:induction false} LookupFailureStays(names: seq<string>, n: nat, es: seq<Endpoint>, dump: Json -> string)
    requires n <= |names| && Lookup(names[..n], es, dump).Failure?
    ensures Lookup(names, es, dump) == Lookup(names[..n], es, dump)
    decreases |names| - n
  {
    if n < |names| {
      assert names[..n + 1][..n] == names[..n];
      LookupFailureStays(names, n + 1, es, dump);
    } else {
      assert names[..n] == names;
    }
  }

  /** Whether every name matches some spec endpoint. */
  predicate AllMatch(names: seq<string>, es: seq<Endpoint>) {
    names == [] || (AllMatch(names[..|names| - 1], es) && AnyMatch(names[|names| - 1], es))
  }

  /** The lookup succeeds exactly when every extracted endpoint matches. */
  lemma {:induction false} LookupSucceeds(names: seq<string>, es: seq<Endpoint>, dump: Json -> string)
    ensures Lookup(names, es, dump).Success? <==> AllMatch(names, es)
  {
    if names != [] {
      LookupSucceeds(names[..|names| - 1], es, dump);
    }
  }

  /** AllMatch says that each name matches. */
  lemma {:induction false} AllMatchEvery(names: seq<string>, es: seq<Endpoint>)
    ensures AllMatch(names, es) <==> forall i :: 0 <= i < |names| ==> AnyMatch(names[i], es)
  {
    if names != [] {
      var front := names[..|names| - 1];
      AllMatchEvery(front, es);
      assert forall i :: 0 <= i < |front| ==> front[i] == names[i];
      if AllMatch(names, es) {
        forall i | 0 <= i < |names| ensures AnyMatch(names[i], es) {
          if i < |front| {
            assert AnyMatch(front[i], es);
          }
        }
      } else if !AllMatch(front, es) {
        var i :| 0 <= i < |front| && !AnyMatch(front[i], es);
        assert !AnyMatch(names[i], es);
      }
    }
  }

  /** The lookup fails exactly when some extracted endpoint matches nothing. */
  lemma LookupFails(names: seq<string>, es: seq<Endpoint>, dump: Json -> string)
    ensures Lookup(names, es, dump).Failure? <==> exists i :: 0 <= i < |names| && !AnyMatch(names[i], es)
  {
    LookupSucceeds(names, es, dump);
    AllMatchEvery(names, es);
  }

  /** The error a failed lookup raises names the first extracted endpoint
      that matches nothing. */
  lemma {:induction false} LookupFailsFirst(names: seq<string>, es: seq<Endpoint>, dump: Json -> string)
    requires Lookup(names, es, dump).Failure?
    ensures exists i :: 0 <= i < |names| && !AnyMatch(names[i], es)
                        && (forall j :: 0 <= j < i ==> AnyMatch(names[j], es))
                        && Lookup(names, es, dump).error == ValueError(names[i] + " endpoint does not exist.")
  {
    var front := names[..|names| - 1];
    var last := names[|names| - 1];
    assert forall i :: 0 <= i < |front| ==> front[i] == names[i];
    if Lookup(front, es, dump).Failure? {
      LookupFailsFirst(front, es, dump);
      var i :| 0 <= i < |front| && !AnyMatch(front[i], es)
               && (forall j :: 0 <= j < i ==> AnyMatch(front[j], es))
               && Lookup(front, es, dump).error == ValueError(front[i] + " endpoint does not exist.");
      assert !AnyMatch(names[i], es);
    } else {
      LookupFails(front, es, dump);
      assert forall j :: 0 <= j < |front| ==> AnyMatch(names[j], es);
    }
  }

  /** The docs of each extracted endpoint, in plan order. */
  function DocsOf(names: seq<string>, es: seq<Endpoint>, dump: Json -> string): (ds: seq<string>)
    ensures |ds| == |names| && forall i :: 0 <= i < |names| ==> ds[i] == DocsFor(names[i], es, dump)
  {
    if names == [] then []
    else
      var ds := DocsOf(names[..|names| - 1], es, dump);
      assert forall i :: 0 <= i < |names| - 1 ==> names[..|names| - 1][i] == names[i];
      ds + [DocsFor(names[|names| - 1], es, dump)]
  }

  /** A lookup that succeeds is the docs of each endpoint in plan order. */
  lemma {:induction false} LookupConcat(names: seq<string>, es: seq<Endpoint>, dump: Json -> string)
    requires Lookup(names, es, dump).Success?
    ensures Lookup(names, es, dump).value == Concat(DocsOf(names, es, dump))
  {
    if names != [] {
      var front := names[..|names| - 1];
      LookupConcat(front, es, dump);
      ConcatAppend(DocsOf(front, es, dump), DocsFor(names[|names| - 1], es, dump));
    }
  }

  /** The controller tool up to creating the controller agent: the docs
      text of every endpoint the plan mentions, or the ValueError raised for
      the first endpoint the spec does not have. */
  method ControllerDocs(plan: string, es: seq<Endpoint>, dump: Json -> string)
    returns (r: Result<string, ControllerError>)
    ensures r == Lookup(EndpointNames(plan), es, dump)
  {
    var names := EndpointNames(plan);
    r := GatherDocs(names, es, dump);
  }

  /** The loops over the extracted names and, for each, the spec endpoints. */
  method GatherDocs(names: seq<string>, es: seq<Endpoint>, dump: Json -> string)
    returns (r: Result<string, ControllerError>)
    ensures r == Lookup(names, es, dump)
  {
    var docs := "";
    var i := 0;
    while i < |names|
      invariant 0 <= i <= |names|
      invariant Lookup(names[..i], es, dump) == Success(docs)
    {
      var name := names[i];
      var found, blocks := ScanSpec(name, es, dump);
      assert names[..i + 1][..i] == names[..i];
      if !found {
        LookupFailureStays(names, i + 1, es, dump);
        return Failure(ValueError(name + " endpoint does not exist."));
      }
      docs := docs + blocks;
      i := i + 1;
    }
    assert names[..i] == names;
    return Success(docs);
  }

  /** The inner loop over the spec endpoints for one extracted name: whether
      any of them matches, and the docs blocks of those that do. */
  method ScanSpec(name: string, es: seq<Endpoint>, dump: Json -> string)
    returns (found: bool, blocks: string)
    ensures found == AnyMatch(name, es)
    ensures blocks == DocsFor(name, es, dump)
  {
    found := false;
    blocks := "";
    var j := 0;
    while j < |es|
      invariant 0 <= j <= |es|
      invariant found == AnyMatch(name, es[..j])
      invariant blocks == DocsFor(name, es[..j], dump)
    {
      var e := es[j];
      DocsForStep(name, es, j, dump);
      if Matches(Template(e.name), name) {
        found := true;
        blocks := blocks + Block(name, e.docs, dump);
      } else {
        assert DocsFor(name, es[..j + 1], dump) == DocsFor(name, es[..j], dump) + [];
      }
      j := j + 1;
    }
    assert es[..j] == es;
  }

  // ---------------------------------------------------------------------
  // The controller's base URL

  /** api_spec.servers[0]["url"]. */
  function BaseUrl(servers: seq<Json>): (r: Result<Json, ControllerError>)
    ensures servers == [] ==> r == Failure(IndexError)
    ensures servers != [] && servers[0].JObj? && Has(servers[0].fields, "url")
            ==> r == Success(Get(servers[0].fields, "url").value)
    ensures servers != [] && servers[0].JObj? && !Has(servers[0].fields, "url") ==> r == Failure(KeyError("url"))
    ensures servers != [] && !servers[0].JObj? ==> r == Failure(TypeError)
  {
    if servers == [] then Failure(IndexError)
    else
      match servers[0]
      case JObj(fs) => if Has(fs, "url") then Success(Get(fs, "url").value) else Failure(KeyError("url"))
      case _ => Failure(TypeError)
  }

  /** For a spec that had no servers, the controller's base URL is the one
      the loader synthesised from host, basePath and schemes. */
  lemma BaseUrlOfLoadedSpec(spec: seq<(string, Json)>, env: Option<string>)
    requires !Has(spec, "servers") && LoadSpec.NormaliseSpec(spec, env).Success?
    ensures Get(LoadSpec.NormaliseSpec(spec, env).value, "servers").Some?
    ensures Get(LoadSpec.NormaliseSpec(spec, env).value, "servers").value.JArr?
    ensures BaseUrl(Get(LoadSpec.NormaliseSpec(spec, env).value, "servers").value.items)
            == Success(LoadSpec.ServerUrl(spec, env).value)
  {
    LoadSpecProperties.ServerSynthesised(spec, env);
    assert Keys([("url", LoadSpec.ServerUrl(spec, env).value)]) == ["url"];
  }
}
