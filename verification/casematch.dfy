/**
 * The decision engine of the store-backed generation: a case selected by
 * metadata, else the first rule, over the loaded cases of the method, that
 * the request's JSON satisfies.  Rule variables are JSONPaths read from the
 * request; numeric strings are read as 64-bit integers.
 */
module CaseMatch {
  import opened Wrappers
  import opened Types
  import opened Metadata
  import opened Settings
  import opened Decimal
  import opened RulePath

  /** A compiled rule: its source text and the variables it reads. */
  datatype Expression = Expression(rule: string, vars: seq<string>)

  /** A loaded case: its rule, the compiled rule when there is one, and its body. */
  datatype CaseRuleBody = CaseRuleBody(rule: string, expression: Option<Expression>, body: string)

  /** method -> tested app -> case name -> case. */
  type CaseTable = map<string, map<string, map<string, CaseRuleBody>>>

  /** A JSON node found by a JSONPath: a string node, or any other node with its value. */
  datatype JsonNode = JString(s: string) | JOther(value: string)

  /** The value bound to a rule variable. */
  datatype Param = PInt64(i: int) | PUint64(u: nat) | PString(s: string) | PValue(value: string)

  /** What evaluating a rule gives: an error, a boolean, or a value of another type. */
  datatype Evaluated = EvalErr | EvalBool(b: bool) | EvalNonBool

  /** What the proxy hands the matchers. */
  datatype ReqMeta = ReqMeta(fullMethodName: string, testedAppName: string, md: MD)

  /** A body matcher's answer; `Crash` is the panic of an unchecked type assertion. */
  datatype Verdict = Hit(resp: Msg) | Miss | Crash

  /**
   * The foreign libraries: the JSONPath query (an error yields no node), the
   * rule evaluator, the JSON decoder into the output type, the proto decoder
   * of the request and its JSON encoder.
   */
  datatype Engine = Engine(
    jsonPath: (string, string) -> seq<JsonNode>,
    evaluate: (Expression, map<string, Param>) -> Evaluated,
    decodeOut: (MessageType, string) -> Option<Msg>,
    decodeIn: (MessageType, Bytes) -> Option<Msg>,
    toJson: Msg -> Option<string>)

  /** The numeric-string coercion of getValue. */
  function Coerce(node: JsonNode): (p: Param)
    ensures node.JOther? ==> p == PValue(node.value)
    ensures node.JString? ==> (p.PInt64? <==> ParseInt64(node.s).Some?)
    ensures node.JString? && p.PInt64? ==> ParseInt64(node.s) == Some(p.i)
    ensures node.JString? ==> (p.PUint64? <==> ParseInt64(node.s).None? && ParseUint64(node.s).Some?)
    ensures node.JString? && p.PUint64? ==> ParseUint64(node.s) == Some(p.u) && Int64Max < p.u <= Uint64Max
    ensures node.JString? && p.PString? ==> ParseInt64(node.s).None? && ParseUint64(node.s).None? && p.s == node.s
  {
    match node
    case JOther(v) => PValue(v)
    case JString(s) =>
      match ParseInt64(s)
      case Some(i) => PInt64(i)
      case None =>
        match ParseUint64(s)
        case Some(u) => UintOnlyRange(s); PUint64(u)
        case None => PString(s)
  }

  /** An int64 rendered as a decimal string is read back as that int64. */
  lemma CoerceInt64(n: int)
    requires Int64Min <= n <= Int64Max
    ensures Coerce(JString(FormatInt(n))) == PInt64(n)
  {
    ParseFormatInt(n);
  }

  /** A uint64 beyond int64 rendered as a decimal string is read back as that uint64. */
  lemma CoerceUint64(n: nat)
    requires Int64Max < n <= Uint64Max
    ensures Coerce(JString(FormatNat(n))) == PUint64(n)
  {
    ParseFormatUint(n);
    DigitsValueOfFormat(n);
    var s := FormatNat(n);
    assert s[0] != '+' && s[0] != '-';
  }

  /**
   * getValue: the variable names a JSONPath (with the magic dots restored);
   * exactly one node must match.
   */
  function GetValue(engine: Engine, name: string, js: string): (r: Option<Param>)
    ensures r.None? <==> |engine.jsonPath(RestorePath(name), js)| != 1
    ensures r.Some? ==> r.value == Coerce(engine.jsonPath(RestorePath(name), js)[0])
  {
    var nodes := engine.jsonPath(RestorePath(name), js);
    if |nodes| != 1 then None else Some(Coerce(nodes[0]))
  }

  /** The value a variable is bound to: "" when getValue fails, evaluation goes on. */
  function Bound(engine: Engine, name: string, js: string): (p: Param)
    ensures GetValue(engine, name, js).None? ==> p == PString("")
    ensures GetValue(engine, name, js).Some? ==> p == GetValue(engine, name, js).value
  {
    match GetValue(engine, name, js)
    case None => PString("")
    case Some(v) => v
  }

  /** The parameters of a rule: every variable bound. */
  function Params(engine: Engine, vars: seq<string>, js: string): (ps: map<string, Param>)
    ensures ps.Keys == set k | k in vars
    ensures forall k :: k in ps ==> ps[k] == Bound(engine, k, js)
  {
    if vars == [] then map[]
    else Params(engine, vars[..|vars| - 1], js)[vars[|vars| - 1] := Bound(engine, vars[|vars| - 1], js)]
  }

  /** A candidate: a compiled rule and the body it answers with. */
  datatype ExpressionBody = ExpressionBody(expression: Expression, body: string)

  function Eval(engine: Engine, c: ExpressionBody, js: string): Evaluated
  {
    engine.evaluate(c.expression, Params(engine, c.expression.vars, js))
  }

  /** A candidate the search moves past: its evaluation failed or was false. */
  predicate Skipped(engine: Engine, c: ExpressionBody, js: string)
  {
    Eval(engine, c, js) == EvalErr || Eval(engine, c, js) == EvalBool(false)
  }

  datatype Outcome = Found(body: string) | NotFound | Panicked

  /** match: the first candidate that is not skipped decides. */
  function Scan(engine: Engine, cands: seq<ExpressionBody>, js: string): (r: Outcome)
    ensures r == NotFound <==> forall i :: 0 <= i < |cands| ==> Skipped(engine, cands[i], js)
  {
    if cands == [] then NotFound
    else
      var e := Eval(engine, cands[0], js);
      if e == EvalBool(true) then Found(cands[0].body)
      else if e.EvalBool? || e.EvalErr? then
        var rest := Scan(engine, cands[1..], js);
        assert forall i :: 1 <= i < |cands| ==> cands[i] == cands[1..][i - 1];
        rest
      else Panicked
  }

  /** Candidate `k` decides: every earlier one is skipped and `k` is not. */
  predicate DecidesAt(engine: Engine, cands: seq<ExpressionBody>, js: string, k: int)
  {
    0 <= k < |cands| && !Skipped(engine, cands[k], js) &&
    forall i :: 0 <= i < k ==> Skipped(engine, cands[i], js)
  }

  /** The first deciding candidate answers with its body if true, and panics if not boolean. */
  lemma {:induction false} ScanDecides(engine: Engine, cands: seq<ExpressionBody>, js: string, k: int)
    requires DecidesAt(engine, cands, js, k)
    ensures Eval(engine, cands[k], js) == EvalBool(true) ==> Scan(engine, cands, js) == Found(cands[k].body)
    ensures Eval(engine, cands[k], js) != EvalBool(true) ==> Scan(engine, cands, js) == Panicked
    ensures Eval(engine, cands[k], js) != EvalBool(true) ==> Eval(engine, cands[k], js) == EvalNonBool
  {
    if k > 0 {
      assert DecidesAt(engine, cands[1..], js, k - 1) by {
        assert forall i :: 0 <= i < k - 1 ==> cands[1..][i] == cands[i + 1];
      }
      ScanDecides(engine, cands[1..], js, k - 1);
    }
  }

  /** matchByMetadata: a custom body, else the case named in the metadata for this app and method. */
  function ByMetadata(conf: ProxyConf, cases: Option<CaseTable>, app: string, methodName: string, md: MD)
    : (r: Option<string>)
    ensures conf.customCaseKey != "" && First(md, conf.customCaseKey) != "" ==> r == Some(First(md, conf.customCaseKey))
    ensures (conf.customCaseKey == "" || First(md, conf.customCaseKey) == "") && First(md, conf.caseKey) == "" ==> r.None?
    ensures (conf.customCaseKey == "" || First(md, conf.customCaseKey) == "") && (cases.None? || cases.value == map[]) ==> r.None?
    ensures (conf.customCaseKey == "" || First(md, conf.customCaseKey) == "") && r.Some? ==>
      cases.Some? && methodName in cases.value && app in cases.value[methodName] &&
      First(md, conf.caseKey) in cases.value[methodName][app] &&
      r.value == cases.value[methodName][app][First(md, conf.caseKey)].body
  {
    if conf.customCaseKey != "" && First(md, conf.customCaseKey) != "" then Some(First(md, conf.customCaseKey))
    else
      var caseK := First(md, conf.caseKey);
      if caseK == "" then None
      else if cases.None? || cases.value == map[] then None
      else
        var t := cases.value;
        if methodName in t && app in t[methodName] && caseK in t[methodName][app] then Some(t[methodName][app][caseK].body)
        else None
  }

  /** A stored case named in the metadata is found, whatever its rule. */
  lemma ByMetadataFindsCase(conf: ProxyConf, t: CaseTable, app: string, methodName: string, md: MD)
    requires conf.customCaseKey == "" || First(md, conf.customCaseKey) == ""
    requires First(md, conf.caseKey) != ""
    requires methodName in t && app in t[methodName] && First(md, conf.caseKey) in t[methodName][app]
    ensures ByMetadata(conf, Some(t), app, methodName, md) == Some(t[methodName][app][First(md, conf.caseKey)].body)
  {
  }

  /** GetMockResponseByMeta: the metadata match decoded into the method's output type. */
  function ByMetaSpec(conf: ProxyConf, cases: Option<CaseTable>, desc: Option<MethodDesc>, engine: Engine, meta: ReqMeta)
    : (r: Option<Msg>)
    ensures desc.None? ==> r.None?
    ensures r.Some? ==> (ByMetadata(conf, cases, meta.testedAppName, meta.fullMethodName, meta.md).Some? &&
      Some(r.value) == engine.decodeOut(desc.value.output, ByMetadata(conf, cases, meta.testedAppName, meta.fullMethodName, meta.md).value))
  {
    if desc.None? then None
    else match ByMetadata(conf, cases, meta.testedAppName, meta.fullMethodName, meta.md)
      case None => None
      case Some(body) => engine.decodeOut(desc.value.output, body)
  }

  /** Called without metadata, as the older proxy calls it, the metadata matcher never matches. */
  lemma NoMetadataNoMatch(conf: ProxyConf, cases: Option<CaseTable>, desc: Option<MethodDesc>, engine: Engine, meta: ReqMeta)
    requires meta.md == map[]
    ensures ByMetaSpec(conf, cases, desc, engine, meta).None?
  {
    assert First(meta.md, conf.customCaseKey) == "";
    assert First(meta.md, conf.caseKey) == "";
  }

  /** strings.Replace(js, "\\", "", -1): every backslash removed. */
  function StripBackslashes(s: string): (r: string)
    ensures '\\' !in r
    ensures forall c :: c in r <==> c in s && c != '\\'
    ensures forall c :: c != '\\' ==> multiset(r)[c] == multiset(s)[c]
    ensures '\\' !in s ==> r == s
    ensures |r| <= |s|
  {
    if s == [] then []
    else
      assert s == [s[0]] + s[1..];
      (if s[0] == '\\' then [] else [s[0]]) + StripBackslashes(s[1..])
  }

  /** Removing backslashes works piece by piece: the pieces keep their order. */
  lemma {:induction false} StripConcat(a: string, b: string)
    ensures StripBackslashes(a + b) == StripBackslashes(a) + StripBackslashes(b)
    decreases |a|
  {
    if a == [] {
      assert a + b == b;
    } else {
      assert (a + b)[0] == a[0] && (a + b)[1..] == a[1..] + b;
      StripConcat(a[1..], b);
    }
  }

  /** The request decoded and encoded as JSON, with every backslash removed. */
  function RequestJson(engine: Engine, desc: MethodDesc, req: Bytes): (r: Option<string>)
    ensures r.Some? ==> '\\' !in r.value
    ensures r.Some? <==> engine.decodeIn(desc.input, req).Some? && engine.toJson(engine.decodeIn(desc.input, req).value).Some?
  {
    match engine.decodeIn(desc.input, req)
    case None => None
    case Some(in_) =>
      match engine.toJson(in_)
      case None => None
      case Some(raw) => Some(StripBackslashes(raw))
  }

  /** GetMockResponseByBody, given the candidates in the order they were gathered. */
  function ByBodySpec(desc: Option<MethodDesc>, engine: Engine, cands: seq<ExpressionBody>, req: Bytes): (r: Verdict)
    ensures desc.None? ==> r == Miss
    ensures cands == [] ==> r == Miss
    ensures r == Crash ==> (desc.Some? && RequestJson(engine, desc.value, req).Some? &&
      exists k :: DecidesAt(engine, cands, RequestJson(engine, desc.value, req).value, k))
  {
    if desc.None? then Miss
    else match RequestJson(engine, desc.value, req)
      case None => Miss
      case Some(js) =>
        match Scan(engine, cands, js)
        case NotFound => Miss
        case Panicked => PanicWitness(engine, cands, js); Crash
        case Found(body) =>
          match engine.decodeOut(desc.value.output, body)
          case None => Miss
          case Some(m) => Hit(m)
  }

  /** A search that panics has a deciding candidate. */
  lemma {:induction false} PanicWitness(engine: Engine, cands: seq<ExpressionBody>, js: string)
    requires Scan(engine, cands, js) == Panicked
    ensures exists k :: DecidesAt(engine, cands, js, k)
  {
    if Eval(engine, cands[0], js) == EvalNonBool {
      assert DecidesAt(engine, cands, js, 0);
    } else {
      PanicWitness(engine, cands[1..], js);
      var k :| DecidesAt(engine, cands[1..], js, k);
      assert forall i :: 0 <= i < k ==> cands[1..][i] == cands[i + 1];
      assert DecidesAt(engine, cands, js, k + 1);
    }
  }

  /** A hit is the body of the first candidate whose rule holds, every earlier one failing or false. */
  lemma ByBodyHit(desc: Option<MethodDesc>, engine: Engine, cands: seq<ExpressionBody>, req: Bytes, k: int)
    requires desc.Some? && RequestJson(engine, desc.value, req).Some?
    requires var js := RequestJson(engine, desc.value, req).value;
      DecidesAt(engine, cands, js, k) && Eval(engine, cands[k], js) == EvalBool(true)
    ensures ByBodySpec(desc, engine, cands, req) ==
      (match engine.decodeOut(desc.value.output, cands[k].body) case Some(m) => Hit(m) case None => Miss)
  {
    ScanDecides(engine, cands, RequestJson(engine, desc.value, req).value, k);
  }

  /**
   * getExpressions: the compiled rules of the method's cases, of every app
   * when `app` is "" and of that app only otherwise.
   */
  ghost predicate Candidate(cases: Option<CaseTable>, methodName: string, app: string, eb: ExpressionBody)
  {
    cases.Some? && methodName in cases.value &&
    exists a, n :: a in cases.value[methodName] && (app == "" || a == app) && n in cases.value[methodName][a] &&
      cases.value[methodName][a][n].expression == Some(eb.expression) && cases.value[methodName][a][n].body == eb.body
  }

  /** Every candidate gathered, and nothing else. */
  ghost predicate Gathered(cases: Option<CaseTable>, methodName: string, app: string, list: seq<ExpressionBody>)
  {
    forall eb :: eb in list <==> Candidate(cases, methodName, app, eb)
  }

  /** The candidates of the cases of one app, in some order. */
  method CasesOf(table: map<string, CaseRuleBody>) returns (res: seq<ExpressionBody>)
    ensures forall eb :: eb in res <==> exists n :: n in table && table[n].expression == Some(eb.expression) && table[n].body == eb.body
  {
    res := [];
    var left := table.Keys;
    while left != {}
      invariant left <= table.Keys
      invariant forall eb :: eb in res <==> exists n :: n in table.Keys - left && table[n].expression == Some(eb.expression) && table[n].body == eb.body
      decreases left
    {
      var n :| n in left;
      left := left - {n};
      var c := table[n];
      if c.expression.Some? {
        res := res + [ExpressionBody(c.expression.value, c.body)];
      }
    }
  }

  method GetExpressions(cases: Option<CaseTable>, methodName: string, app: string) returns (res: seq<ExpressionBody>)
    ensures Gathered(cases, methodName, app, res)
  {
    res := [];
    if cases.None? || methodName !in cases.value {
      return;
    }
    var byApp := cases.value[methodName];
    if app != "" {
      if app in byApp {
        res := CasesOf(byApp[app]);
      }
      return;
    }
    var left := byApp.Keys;
    while left != {}
      invariant left <= byApp.Keys
      invariant forall eb :: eb in res <==> exists a, n :: (a in byApp.Keys - left && n in byApp[a] &&
        byApp[a][n].expression == Some(eb.expression) && byApp[a][n].body == eb.body)
      decreases left
    {
      var a :| a in left;
      left := left - {a};
      var more := CasesOf(byApp[a]);
      res := res + more;
    }
  }

  /** The parameters of one rule, bound one variable at a time. */
  method BuildParameters(engine: Engine, exp: Expression, js: string) returns (ps: map<string, Param>)
    ensures ps == Params(engine, exp.vars, js)
  {
    ps := map[];
    var i := 0;
    while i < |exp.vars|
      invariant 0 <= i <= |exp.vars|
      invariant ps == Params(engine, exp.vars[..i], js)
    {
      ParamsStep(engine, exp.vars, i, js);
      ps := ps[exp.vars[i] := Bound(engine, exp.vars[i], js)];
      i := i + 1;
    }
    assert exp.vars[..i] == exp.vars;
  }

  /** One more variable bound on top of the earlier ones. */
  lemma ParamsStep(engine: Engine, vars: seq<string>, i: nat, js: string)
    requires i < |vars|
    ensures Params(engine, vars[..i + 1], js) == Params(engine, vars[..i], js)[vars[i] := Bound(engine, vars[i], js)]
  {
    assert vars[..i + 1][..i] == vars[..i];
  }

  /** match: try each candidate in turn. */
  method MatchRules(engine: Engine, cands: seq<ExpressionBody>, js: string) returns (r: Outcome)
    ensures r == Scan(engine, cands, js)
  {
    var i := 0;
    while i < |cands|
      invariant 0 <= i <= |cands|
      invariant Scan(engine, cands[i..], js) == Scan(engine, cands, js)
    {
      var ps := BuildParameters(engine, cands[i].expression, js);
      var result := engine.evaluate(cands[i].expression, ps);
      assert cands[i..][0] == cands[i] && cands[i..][1..] == cands[i + 1..];
      if result == EvalErr {
        i := i + 1;
        continue;
      }
      if !result.EvalBool? {
        return Panicked;
      }
      if result.b {
        return Found(cands[i].body);
      }
      i := i + 1;
    }
    r := NotFound;
  }
}
