/** `format_swagger_context` of caldera_agent.py: the endpoint listing put
    at the top of the agent's prompt. It shows at most 20 endpoint lines, all
    taken from the first 12 paths, each summary cut to 80 characters, and
    reports the total number of paths in its header. */
module SwaggerContext {
  import opened Wrappers
  import opened Text
  import opened Json

  /** The exceptions the formatter can raise on a malformed spec. */
  datatype FormatError =
    | KeyError(key: string)  // spec['info'] or spec['info']['version'] missing, or a dict summary sliced
    | TypeError              // subscripting, len() or slicing a value that does not support it
    | AttributeError         // .items() or .get() on a value that is not a dict
    | Unrendered             // a list or dict inside an f-string (not modelled)

  const MaxPaths: nat := 12
  const MaxLines: nat := 20
  const MaxSummary: nat := 80

  const Examples: seq<string> := [
    "/api/v2/agents/{paw} \U{2192} params={'paw': 'abc123'}",
    "/api/v2/operations \U{2192} params={'limit': 10}",
    "POST /api/v2/objectives \U{2192} body={'name': 'test'}"
  ]

  function Header(version: string, total: nat): string {
    "\U{1F525} LIVE Caldera API v" + version + " - http://12.1.0.15:8888\n    \n\U{1F4CB} KEY ENDPOINTS ("
    + NatToString(total) + " total):\n"
  }

  const Footer: string := "\n\U{1F4A1} EXAMPLES:\n" + Join("\n", Examples)

  /** One endpoint line: upper-cased method, path, summary. */
  datatype Line = Line(verb: string, path: string, summary: string)

  /** f"  {method.upper()} {path:<25} | {summary}\n". */
  function RenderLine(l: Line): string {
    Concat(["  ", l.verb, " ", PadRight(l.path, 25), " | ", l.summary, "\n"])
  }

  function RenderLines(ls: seq<Line>): string {
    if ls == [] then "" else RenderLines(ls[..|ls| - 1]) + RenderLine(ls[|ls| - 1])
  }

  /** spec['info']['version'] as the f-string renders it. */
  function Version(spec: seq<(string, Json)>): Result<string, FormatError> {
    match Get(spec, "info")
    case None => Failure(KeyError("info"))
    case Some(JObj(info)) =>
      (match Get(info, "version")
       case None => Failure(KeyError("version"))
       case Some(v) => if Str(v).Some? then Success(Str(v).value) else Failure(Unrendered))
    case Some(_) => Failure(TypeError)
  }

  /** len(spec.get('paths', {})). */
  function PathCount(spec: seq<(string, Json)>): Result<nat, FormatError> {
    match GetOr(spec, "paths", JObj([]))
    case JObj(fs) => Success(|fs|)
    case JArr(xs) => Success(|xs|)
    case JStr(s) => Success(|s|)
    case _ => Failure(TypeError)
  }

  /** The line for one operation: `details.get('summary', 'No description')[:80]`. */
  function LineFor(path: string, op: (string, Json)): Result<Line, FormatError> {
    match op.1
    case JObj(details) =>
      (match GetOr(details, "summary", JStr("No description"))
       case JStr(s) => Success(Line(Upper(op.0), path, Take(s, MaxSummary)))
       case JArr(_) => Failure(Unrendered)
       case JObj(_) => Failure(KeyError("slice(None, 80, None)"))
       case _ => Failure(TypeError))
    case _ => Failure(AttributeError)
  }

  /** A line shows the upper-cased method and at most the first 80
      characters of the summary, "No description" when there is none; the
      operation must be a dict and its summary a string. */
  lemma LineForFacts(path: string, op: (string, Json))
    ensures var r := LineFor(path, op);
      && (r.Success? <==> op.1.JObj? && GetOr(op.1.fields, "summary", JStr("No description")).JStr?)
      && (r.Success? ==> r.value.verb == Upper(op.0) && r.value.path == path)
      && (r.Success? ==> |r.value.summary| <= MaxSummary && r.value.summary
                         == Take(GetOr(op.1.fields, "summary", JStr("No description")).s, MaxSummary))
      && (op.1.JObj? && !Has(op.1.fields, "summary") ==> r == Success(Line(Upper(op.0), path, "No description")))
      && (op.1.JObj? && GetOr(op.1.fields, "summary", JStr("No description")).JObj?
          ==> r == Failure(KeyError("slice(None, 80, None)")))
  {
  }

  /** Keeps each line's result, or the first failure. */
  function Prepend(ls: seq<Line>, r: Result<seq<Line>, FormatError>): Result<seq<Line>, FormatError> {
    match r
    case Success(rest) => Success(ls + rest)
    case Failure(e) => Failure(e)
  }

  function Min(a: nat, b: nat): nat { if a <= b then a else b }

  /** The inner loop on the lines of one path item's operations, in order:
      the first failure is raised, and no line is looked at once `budget`
      lines have been added. */
  function TakeLines(rs: seq<Result<Line, FormatError>>, budget: nat): (r: Result<seq<Line>, FormatError>)
    ensures r.Success? ==> |r.value| <= budget
  {
    if rs == [] || budget == 0 then Success([])
    else
      match rs[0]
      case Failure(e) => Failure(e)
      case Success(l) => Prepend([l], TakeLines(rs[1..], budget - 1))
  }

  /** The line of every operation of a path item. */
  function OpResults(path: string, ops: seq<(string, Json)>): (rs: seq<Result<Line, FormatError>>)
    ensures |rs| == |ops|
  {
    if ops == [] then [] else [LineFor(path, ops[0])] + OpResults(path, ops[1..])
  }

  lemma {:induction false} OpResultsAt(path: string, ops: seq<(string, Json)>, k: nat)
    requires k < |ops|
    ensures OpResults(path, ops)[k] == LineFor(path, ops[k])
  {
    if k > 0 {
      OpResultsAt(path, ops[1..], k - 1);
    }
  }

  /** The lines one path item adds with `budget` lines left before the limit of 20. */
  function OpLines(path: string, ops: seq<(string, Json)>, budget: nat): Result<seq<Line>, FormatError> {
    TakeLines(OpResults(path, ops), budget)
  }

  /** Taking lines keeps them in order and stops at the budget. */
  lemma {:induction false} TakeLinesFacts(rs: seq<Result<Line, FormatError>>, budget: nat)
    requires TakeLines(rs, budget).Success?
    ensures var ls := TakeLines(rs, budget).value;
      && |ls| == Min(budget, |rs|)
      && forall m :: 0 <= m < |ls| ==> rs[m] == Success(ls[m])
  {
    if rs != [] && budget != 0 {
      TakeLinesFacts(rs[1..], budget - 1);
      var ls := TakeLines(rs, budget).value;
      forall m | 0 <= m < |ls| ensures rs[m] == Success(ls[m]) {
        if m > 0 {
          assert ls[m] == TakeLines(rs[1..], budget - 1).value[m - 1];
        }
      }
    }
  }

  /** The inner loop shows one line per operation, in order, until the
      budget is spent. */
  lemma OpLinesFacts(path: string, ops: seq<(string, Json)>, budget: nat)
    requires OpLines(path, ops, budget).Success?
    ensures var ls := OpLines(path, ops, budget).value;
      && |ls| == Min(budget, |ops|)
      && forall m :: 0 <= m < |ls| ==> Success(ls[m]) == LineFor(path, ops[m])
  {
    TakeLinesFacts(OpResults(path, ops), budget);
    forall m | 0 <= m < |OpLines(path, ops, budget).value|
      ensures Success(OpLines(path, ops, budget).value[m]) == LineFor(path, ops[m])
    {
      OpResultsAt(path, ops, m);
    }
  }

  /** What each path item yields: its operations' lines, or AttributeError
      when it is not a dict. */
  function ItemResults(ps: seq<(string, Json)>): (items: seq<Result<seq<Result<Line, FormatError>>, FormatError>>)
    ensures |items| == |ps|
  {
    if ps == [] then []
    else [if ps[0].1.JObj? then Success(OpResults(ps[0].0, ps[0].1.fields)) else Failure(AttributeError)]
         + ItemResults(ps[1..])
  }

  lemma {:induction false} ItemResultsAt(ps: seq<(string, Json)>, k: nat)
    requires k < |ps|
    ensures ItemResults(ps)[k]
            == if ps[k].1.JObj? then Success(OpResults(ps[k].0, ps[k].1.fields)) else Failure(AttributeError)
  {
    if k > 0 {
      ItemResultsAt(ps[1..], k - 1);
    }
  }

  /** The outer loop on the path items, with `budget` lines left. */
  function Gather(items: seq<Result<seq<Result<Line, FormatError>>, FormatError>>, budget: nat)
    : Result<seq<Line>, FormatError>
  {
    if items == [] || budget == 0 then Success([])
    else
      match items[0]
      case Failure(e) => Failure(e)
      case Success(rs) =>
        (match TakeLines(rs, budget)
         case Failure(e) => Failure(e)
         case Success(ls) => Prepend(ls, Gather(items[1..], budget - |ls|)))
  }

  /** The lines the path items yield with `budget` lines left. */
  function EntryLines(paths: seq<(string, Json)>, budget: nat): Result<seq<Line>, FormatError> {
    Gather(ItemResults(paths), budget)
  }

  /** How many lines the items could yield at most. */
  function Count(items: seq<Result<seq<Result<Line, FormatError>>, FormatError>>): nat {
    if items == [] then 0
    else (if items[0].Success? then |items[0].value| else 0) + Count(items[1..])
  }

  /** How many operations the path items that are dicts hold. */
  function TotalOps(paths: seq<(string, Json)>): nat {
    if paths == [] then 0
    else (if paths[0].1.JObj? then |paths[0].1.fields| else 0) + TotalOps(paths[1..])
  }

  lemma {:induction false} CountItems(paths: seq<(string, Json)>)
    ensures Count(ItemResults(paths)) == TotalOps(paths)
  {
    if paths != [] {
      assert ItemResults(paths)[1..] == ItemResults(paths[1..]);
      CountItems(paths[1..]);
    }
  }

  /** The outer loop shows as many lines as the budget allows and the items
      hold, and every line it shows is one the items yield. */
  lemma {:induction false} GatherFacts(items: seq<Result<seq<Result<Line, FormatError>>, FormatError>>, budget: nat,
                                       P: Line -> bool)
    requires Gather(items, budget).Success?
    requires forall k, m ::
               (0 <= k < |items| && items[k].Success? && 0 <= m < |items[k].value| && items[k].value[m].Success?)
               ==> P(items[k].value[m].value)
    ensures var ls := Gather(items, budget).value;
      && |ls| == Min(budget, Count(items))
      && forall l :: l in ls ==> P(l)
  {
    if items != [] && budget != 0 {
      var rs := items[0].value;
      var ls := TakeLines(rs, budget).value;
      TakeLinesFacts(rs, budget);
      forall k, m | 0 <= k < |items[1..]| && items[1..][k].Success? && 0 <= m < |items[1..][k].value|
                    && items[1..][k].value[m].Success?
        ensures P(items[1..][k].value[m].value)
      {
        assert items[1..][k] == items[k + 1];
      }
      GatherFacts(items[1..], budget - |ls|, P);
      forall l | l in ls ensures P(l) {
        var m :| 0 <= m < |ls| && ls[m] == l;
        assert items[0].value[m].Success?;
      }
    }
  }

  /** The outer loop shows as many lines as the budget allows and the path
      items hold; every line names one of the path items and has a summary
      of at most 80 characters. */
  lemma EntryLinesFacts(paths: seq<(string, Json)>, budget: nat)
    requires EntryLines(paths, budget).Success?
    ensures var ls := EntryLines(paths, budget).value;
      && |ls| == Min(budget, TotalOps(paths))
      && forall l :: l in ls ==> l.path in Keys(paths) && |l.summary| <= MaxSummary
  {
    var items := ItemResults(paths);
    var P := (l: Line) => l.path in Keys(paths) && |l.summary| <= MaxSummary;
    forall k, m | 0 <= k < |items| && items[k].Success? && 0 <= m < |items[k].value| && items[k].value[m].Success?
      ensures P(items[k].value[m].value)
    {
      ItemResultsAt(paths, k);
      OpResultsAt(paths[k].0, paths[k].1.fields, m);
      LineForFacts(paths[k].0, paths[k].1.fields[m]);
      assert Keys(paths)[k] == paths[k].0;
    }
    GatherFacts(items, budget, P);
    CountItems(paths);
  }

  /** The lines of the successful results, in order. */
  function Values(rs: seq<Result<Line, FormatError>>): (ls: seq<Line>)
    ensures |ls| <= |rs|
  {
    if rs == [] then [] else (if rs[0].Success? then [rs[0].value] else []) + Values(rs[1..])
  }

  /** Every line the items yield, item after item and operation after
      operation, in iteration order. */
  function Flatten(items: seq<Result<seq<Result<Line, FormatError>>, FormatError>>): seq<Line> {
    if items == [] then [] else (if items[0].Success? then Values(items[0].value) else []) + Flatten(items[1..])
  }

  /** Lines that the first results hold begin the successful lines. */
  lemma {:induction false} ValuesPrefix(rs: seq<Result<Line, FormatError>>, ls: seq<Line>)
    requires |ls| <= |rs|
    requires forall m :: 0 <= m < |ls| ==> rs[m] == Success(ls[m])
    ensures ls <= Values(rs)
  {
    if ls != [] {
      ValuesPrefix(rs[1..], ls[1..]);
    }
  }

  /** The outer loop's lines are the first lines the items yield, in order. */
  lemma {:induction false} GatherPrefix(items: seq<Result<seq<Result<Line, FormatError>>, FormatError>>, budget: nat)
    requires Gather(items, budget).Success?
    ensures Gather(items, budget).value <= Flatten(items)
  {
    if items != [] && budget != 0 {
      var rs := items[0].value;
      var ls := TakeLines(rs, budget).value;
      var rest := Gather(items[1..], budget - |ls|).value;
      assert Gather(items, budget).value == ls + rest;
      assert Flatten(items) == Values(rs) + Flatten(items[1..]);
      TakeLinesFacts(rs, budget);
      ValuesPrefix(rs, ls);
      if |ls| < budget {
        assert |ls| == |rs|;
        assert ls == Values(rs);
        GatherPrefix(items[1..], budget - |ls|);
      } else {
        assert rest == [];
      }
      PrefixConcat(ls, rest, Values(rs), Flatten(items[1..]));
    }
  }

  /** a + b begins A + B when a begins A, and b begins B unless it is empty
      or a is all of A. */
  lemma PrefixConcat(a: seq<Line>, b: seq<Line>, A: seq<Line>, B: seq<Line>)
    requires a <= A && (b == [] || (a == A && b <= B))
    ensures a + b <= A + B
  {
    assert (a + b)[..|a|] == a;
  }

  /** The outer loop shows exactly the first min(budget, lines available)
      lines of the path items, in iteration order. */
  lemma EntryLinesInOrder(paths: seq<(string, Json)>, budget: nat)
    requires EntryLines(paths, budget).Success?
    ensures Min(budget, TotalOps(paths)) <= |Flatten(ItemResults(paths))|
    ensures EntryLines(paths, budget).value == Flatten(ItemResults(paths))[..Min(budget, TotalOps(paths))]
  {
    GatherPrefix(ItemResults(paths), budget);
    EntryLinesFacts(paths, budget);
  }

  /** The first 12 path items, in iteration order (`list(...)[:12]`). */
  function FirstPaths(spec: seq<(string, Json)>): seq<(string, Json)> {
    match GetOr(spec, "paths", JObj([]))
    case JObj(fs) => fs[..Min(MaxPaths, |fs|)]
    case _ => []
  }

  /** The lines the listing shows. */
  function ShownLines(spec: seq<(string, Json)>): Result<seq<Line>, FormatError> {
    match GetOr(spec, "paths", JObj([]))
    case JObj(_) => EntryLines(FirstPaths(spec), MaxLines)
    case _ => Failure(AttributeError)
  }

  /** The whole text, as a function of the spec. */
  function Format(spec: seq<(string, Json)>): Result<string, FormatError> {
    match Version(spec)
    case Failure(e) => Failure(e)
    case Success(version) =>
      match PathCount(spec)
      case Failure(e) => Failure(e)
      case Success(total) =>
        match ShownLines(spec)
        case Failure(e) => Failure(e)
        case Success(lines) => Success(Header(version, total) + RenderLines(lines) + Footer)
  }

  lemma {:induction false} RenderLinesConcat(a: seq<Line>, b: seq<Line>)
    ensures RenderLines(a + b) == RenderLines(a) + RenderLines(b)
  {
    if b != [] {
      var b' := b[..|b| - 1];
      assert (a + b)[..|a + b| - 1] == a + b';
      RenderLinesConcat(a, b');
    } else {
      assert a + b == a;
    }
  }

  lemma AppendLines(context: string, a: seq<Line>, b: seq<Line>)
    ensures context + RenderLines(a + b) == context + RenderLines(a) + RenderLines(b)
  {
    RenderLinesConcat(a, b);
    ConcatAssoc(context, RenderLines(a), RenderLines(b));
  }

  lemma PrependAssoc(a: seq<Line>, b: seq<Line>, r: Result<seq<Line>, FormatError>)
    ensures Prepend(a, Prepend(b, r)) == Prepend(a + b, r)
  {
    if r.Success? {
      assert a + (b + r.value) == (a + b) + r.value;
    }
  }

  lemma PrependNothing(r: Result<seq<Line>, FormatError>)
    ensures Prepend([], r) == r
  {
    if r.Success? {
      assert [] + r.value == r.value;
    }
  }

  /** The lines taken when the first ones all succeed and the budget or
      the results run out. */
  lemma {:induction false} TakeLinesAll(rs: seq<Result<Line, FormatError>>, budget: nat, ls: seq<Line>)
    requires |ls| == Min(budget, |rs|)
    requires forall m :: 0 <= m < |ls| ==> rs[m] == Success(ls[m])
    ensures TakeLines(rs, budget) == Success(ls)
  {
    if rs != [] && budget != 0 {
      TakeLinesAll(rs[1..], budget - 1, ls[1..]);
      assert [ls[0]] + ls[1..] == ls;
    }
  }

  /** The first failing result within the budget is the failure. */
  lemma {:induction false} TakeLinesFails(rs: seq<Result<Line, FormatError>>, budget: nat, j: nat)
    requires j < |rs| && j < budget && rs[j].Failure?
    requires forall m :: 0 <= m < j ==> rs[m].Success?
    ensures TakeLines(rs, budget) == Failure(rs[j].error)
  {
    if j > 0 {
      TakeLinesFails(rs[1..], budget - 1, j - 1);
    }
  }

  /** The line of operation j, as the inner loop makes it. */
  method OperationLine(path: string, ops: seq<(string, Json)>, j: nat) returns (line: Result<Line, FormatError>)
    requires j < |ops|
    ensures line == OpResults(path, ops)[j]
  {
    line := LineFor(path, ops[j]);
    OpResultsAt(path, ops, j);
  }

  /** The inner loop of format_swagger_context over one path item's
      operations: it makes each operation's line and counts it, and stops
      once 20 lines are shown in all. */
  method OperationLines(shown: nat, path: string, ops: seq<(string, Json)>) returns (r: Result<seq<Line>, FormatError>)
    requires shown < MaxLines
    ensures r == OpLines(path, ops, MaxLines - shown)
  {
    ghost var rs := OpResults(path, ops);
    var lines: seq<Line> := [];
    var count := shown;
    var j := 0;
    while j < |ops| && count < MaxLines
      invariant 0 <= j <= |ops| && j == |lines|
      invariant count == shown + j <= MaxLines
      invariant forall m :: 0 <= m < j ==> rs[m] == Success(lines[m])
    {
      var line := OperationLine(path, ops, j);
      if line.Failure? {
        TakeLinesFails(rs, MaxLines - shown, j);
        return Failure(line.error);
      }
      lines := lines + [line.value];
      count := count + 1;
      j := j + 1;
    }
    TakeLinesAll(rs, MaxLines - shown, lines);
    r := Success(lines);
  }

  /** Format in terms of the lines shown. */
  lemma FormatOfLines(spec: seq<(string, Json)>, version: string, total: nat)
    requires Version(spec) == Success(version) && PathCount(spec) == Success(total)
    requires GetOr(spec, "paths", JObj([])).JObj?
    ensures EntryLines(FirstPaths(spec), MaxLines).Failure? ==>
              Format(spec) == Failure(EntryLines(FirstPaths(spec), MaxLines).error)
    ensures EntryLines(FirstPaths(spec), MaxLines).Success? ==>
              Format(spec) == Success(Header(version, total) + RenderLines(EntryLines(FirstPaths(spec), MaxLines).value) + Footer)
  {
  }

  /** The outer loop as it runs: from path item i on, with `lines` shown so
      far, until the items run out or 20 lines are shown. */
  function Walk(items: seq<Result<seq<Result<Line, FormatError>>, FormatError>>, i: nat, lines: seq<Line>)
    : Result<seq<Line>, FormatError>
    requires i <= |items| && |lines| < MaxLines
    decreases |items| - i
  {
    if i == |items| then Success(lines)
    else
      match items[i]
      case Failure(e) => Failure(e)
      case Success(rs) =>
        (match TakeLines(rs, MaxLines - |lines|)
         case Failure(e) => Failure(e)
         case Success(ls) => if |lines| + |ls| >= MaxLines then Success(lines + ls) else Walk(items, i + 1, lines + ls))
  }

  /** The loop's walk from item i shows the lines already shown, then what
      the remaining items yield. */
  lemma {:induction false} WalkGather(items: seq<Result<seq<Result<Line, FormatError>>, FormatError>>, i: nat,
                                      lines: seq<Line>)
    requires i <= |items| && |lines| < MaxLines
    ensures Walk(items, i, lines) == Prepend(lines, Gather(items[i..], MaxLines - |lines|))
    decreases |items| - i
  {
    if i == |items| {
      assert items[i..] == [];
      assert lines + [] == lines;
    } else {
      assert items[i..][0] == items[i];
      assert items[i..][1..] == items[i + 1..];
      if items[i].Success? && TakeLines(items[i].value, MaxLines - |lines|).Success? {
        var ls := TakeLines(items[i].value, MaxLines - |lines|).value;
        if |lines| + |ls| >= MaxLines {
          assert Gather(items[i + 1..], 0) == Success([]);
          assert lines + ls + [] == lines + ls;
        } else {
          WalkGather(items, i + 1, lines + ls);
        }
        PrependAssoc(lines, ls, Gather(items[i + 1..], MaxLines - |lines| - |ls|));
      }
    }
  }

  /** The outer loop of format_swagger_context: the lines of each path item
      in turn are added to the context, until 20 are shown. */
  method AddPathLines(context: string, ps: seq<(string, Json)>) returns (r: Result<string, FormatError>)
    ensures EntryLines(ps, MaxLines).Failure? ==> r == Failure(EntryLines(ps, MaxLines).error)
    ensures EntryLines(ps, MaxLines).Success? ==> r == Success(context + RenderLines(EntryLines(ps, MaxLines).value))
  {
    ghost var items := ItemResults(ps);
    assert items[0..] == items;
    WalkGather(items, 0, []);
    PrependNothing(Gather(items, MaxLines));
    var ctx := context;
    ghost var lines: seq<Line> := [];
    var shown := 0;
    var i := 0;
    while i < |ps|
      invariant 0 <= i <= |ps|
      invariant shown == |lines| < MaxLines
      invariant Walk(items, 0, []) == Walk(items, i, lines)
      invariant ctx == context + RenderLines(lines)
    {
      var (path, methods) := ps[i];
      ItemResultsAt(ps, i);
      if !methods.JObj? {
        return Failure(AttributeError);
      }
      var added := OperationLines(shown, path, methods.fields);
      if added.Failure? {
        return Failure(added.error);
      }
      AppendLines(context, lines, added.value);
      ctx := ctx + RenderLines(added.value);
      lines := lines + added.value;
      shown := shown + |added.value|;
      if shown >= MaxLines {
        return Success(ctx);
      }
      i := i + 1;
    }
    return Success(ctx);
  }

  /** format_swagger_context: the header, the lines of the first 12 paths
      until 20 are shown, then the examples. */
  method FormatSwaggerContext(spec: seq<(string, Json)>) returns (r: Result<string, FormatError>)
    ensures r == Format(spec)
  {
    var version := Version(spec);
    if version.Failure? {
      return Failure(version.error);
    }
    var total := PathCount(spec);
    if total.Failure? {
      return Failure(total.error);
    }
    var context := Header(version.value, total.value);
    var pathsValue := GetOr(spec, "paths", JObj([]));
    if !pathsValue.JObj? {
      return Failure(AttributeError);
    }
    var ps := pathsValue.fields[..Min(MaxPaths, |pathsValue.fields|)];
    assert ps == FirstPaths(spec);
    FormatOfLines(spec, version.value, total.value);
    var listed := AddPathLines(context, ps);
    if listed.Failure? {
      return Failure(listed.error);
    }
    context := listed.value + Footer;
    return Success(context);
  }

  /** A listing that succeeds is the header with the version and the
      number of paths, the lines, then the examples. It shows 20 lines, or
      every operation of the first 12 paths when they have fewer, and each
      line names one of those paths and a summary of at most 80 characters. */
  lemma FormatFacts(spec: seq<(string, Json)>)
    requires Format(spec).Success?
    ensures Version(spec).Success? && PathCount(spec).Success? && ShownLines(spec).Success?
    ensures GetOr(spec, "paths", JObj([])).JObj?
    ensures Format(spec).value
            == Header(Version(spec).value, PathCount(spec).value) + RenderLines(ShownLines(spec).value) + Footer
    ensures PathCount(spec).value == |GetOr(spec, "paths", JObj([])).fields|
    ensures |FirstPaths(spec)| <= MaxPaths && FirstPaths(spec) <= GetOr(spec, "paths", JObj([])).fields
    ensures |ShownLines(spec).value| == Min(MaxLines, TotalOps(FirstPaths(spec)))
    ensures forall l :: l in ShownLines(spec).value ==>
              l.path in Keys(FirstPaths(spec)) && |l.summary| <= MaxSummary
  {
    EntryLinesFacts(FirstPaths(spec), MaxLines);
  }

  /** The listing's lines are the first min(20, operations) lines of the
      first 12 paths, in iteration order. */
  lemma ShownInOrder(spec: seq<(string, Json)>)
    requires ShownLines(spec).Success?
    ensures Min(MaxLines, TotalOps(FirstPaths(spec))) <= |Flatten(ItemResults(FirstPaths(spec)))|
    ensures ShownLines(spec).value
            == Flatten(ItemResults(FirstPaths(spec)))[..Min(MaxLines, TotalOps(FirstPaths(spec)))]
  {
    EntryLinesInOrder(FirstPaths(spec), MaxLines);
  }

  /** The header reports the total number of paths, after the version. */
  lemma {:induction false} HeaderShowsTotal(version: string, total: nat)
    ensures StartsWith(Header(version, total), "\U{1F525} LIVE Caldera API v" + version)
    ensures Contains(Header(version, total), "(" + NatToString(total) + " total)")
  {
    var front := "\U{1F525} LIVE Caldera API v" + version + " - http://12.1.0.15:8888\n    \n\U{1F4CB} KEY ENDPOINTS ";
    assert Header(version, total) == front + ("(" + NatToString(total) + " total)") + ":\n";
    ContainsInfix(Header(version, total), front, "(" + NatToString(total) + " total)", ":\n");
  }

  /** The errors a malformed spec raises, in the order the function meets
      them: the info entry, its version, the size of the paths entry, then
      a paths entry that is not a dict. */
  lemma FormatErrors(spec: seq<(string, Json)>)
    ensures !Has(spec, "info") ==> Format(spec) == Failure(KeyError("info"))
    ensures Has(spec, "info") && !Get(spec, "info").value.JObj? ==> Format(spec) == Failure(TypeError)
    ensures Has(spec, "info") && Get(spec, "info").value.JObj? && !Has(Get(spec, "info").value.fields, "version")
            ==> Format(spec) == Failure(KeyError("version"))
    ensures Version(spec).Success? && GetOr(spec, "paths", JObj([])).JNull?
            ==> Format(spec) == Failure(TypeError)
    ensures Version(spec).Success? && (GetOr(spec, "paths", JObj([])).JStr? || GetOr(spec, "paths", JObj([])).JArr?)
            ==> Format(spec) == Failure(AttributeError)
  {
  }
}
