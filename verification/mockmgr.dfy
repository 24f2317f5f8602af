/**
 * The case manager of the store-backed generation.  It rebuilds a snapshot
 * of methods, routes and cases from the store (reloadCases), keeps the
 * previous snapshot when a rebuild fails, and writes and deletes cases in
 * the store.
 */
module MockMgr {
  import opened Wrappers
  import opened Types
  import opened Settings
  import opened Store
  import opened RulePath
  import opened CaseMatch
  import Director

  /* Store keys. */
  const AllUpstreamsKey := "fht-grpc-mock-all_upstreams"
  const AllTestedAppKey := "fht-grpc-mock-all_tested_app"

  function App2MethodsKey(app: string): (k: string)
    ensures k == "fht-grpc-mock-app2methods_" + app
  {
    "fht-grpc-mock-app2methods_" + app
  }

  function Method2CasesKey(app: string, fullMethod: string): (k: string)
    ensures k == "fht-grpc-mock-app_method2cases_" + app + "_" + fullMethod
  {
    "fht-grpc-mock-app_method2cases_" + app + "_" + fullMethod
  }

  function CaseBodyKey(app: string, fullMethod: string, caseName: string): (k: string)
    ensures k == "fht-grpc-mock-case_" + app + "_" + fullMethod + "_" + caseName
  {
    "fht-grpc-mock-case_" + app + "_" + fullMethod + "_" + caseName
  }

  /** Underscores are not escaped: two different cases can share one body key. */
  lemma CaseKeysCollide(app: string, m1: string, c1: string, m2: string, c2: string)
    requires app == "a" && m1 == "/s/m" && c1 == "x_y" && m2 == "/s/m_x" && c2 == "y"
    ensures (m1, c1) != (m2, c2)
    ensures CaseBodyKey(app, m1, c1) == CaseBodyKey(app, m2, c2)
  {
    assert m1 + "_" + c1 == m2 + "_" + c2;
    assert "fht-grpc-mock-case_" + app + "_" + m1 + "_" + c1 == "fht-grpc-mock-case_" + app + "_" + (m1 + "_" + c1);
    assert "fht-grpc-mock-case_" + app + "_" + m2 + "_" + c2 == "fht-grpc-mock-case_" + app + "_" + (m2 + "_" + c2);
  }

  /** The reflection service every reflecting server also lists. */
  const ReflectionService := "grpc.reflection.v1alpha.ServerReflection"

  /** parser.Parser on an endpoint: its services, or a failure. */
  type Parser = string -> Option<seq<ServiceDesc>>

  /** What the first phase of a reload gathers from the upstreams. */
  datatype Catalog = Catalog(
    ss: map<string, map<string, ServiceDesc>>,
    methods: map<string, MethodDesc>,
    endPoint2Methods: map<string, seq<string>>,
    routes: map<string, Conn>)

  const EmptyCatalog := Catalog(map[], map[], map[], map[])

  /** Methods and routes name the same methods. */
  predicate Aligned(c: Catalog)
  {
    c.methods.Keys == c.routes.Keys
  }

  /** Record the methods of one service of endpoint `ep`. */
  function AddMethods(c: Catalog, ep: string, ms: seq<MethodDesc>): (r: Catalog)
    ensures r.ss == c.ss
    ensures r.methods.Keys == c.methods.Keys + MethodNames(ms)
    ensures r.routes.Keys == c.routes.Keys + MethodNames(ms)
    ensures forall m :: m in c.routes && c.routes[m] == Conn(ep) ==> r.routes[m] == Conn(ep)
    ensures forall i :: 0 <= i < |ms| ==> r.routes[ms[i].fullName] == Conn(ep)
    ensures Aligned(c) ==> Aligned(r)
    decreases |ms|
  {
    if ms == [] then c
    else
      var m := ms[0];
      var listed := if ep in c.endPoint2Methods then c.endPoint2Methods[ep] else [];
      var r := AddMethods(Catalog(c.ss, c.methods[m.fullName := m], c.endPoint2Methods[ep := listed + [m.fullName]],
                                  c.routes[m.fullName := Conn(ep)]), ep, ms[1..]);
      assert forall i :: 1 <= i < |ms| ==> ms[i] == ms[1..][i - 1];
      MethodNamesCons(ms);
      r
  }

  /** The full names of a list of methods. */
  function MethodNames(ms: seq<MethodDesc>): set<string>
  {
    set i | 0 <= i < |ms| :: ms[i].fullName
  }

  lemma MethodNamesCons(ms: seq<MethodDesc>)
    requires ms != []
    ensures MethodNames(ms) == {ms[0].fullName} + MethodNames(ms[1..])
  {
    forall x | x in MethodNames(ms)
      ensures x in {ms[0].fullName} + MethodNames(ms[1..])
    {
      var i :| 0 <= i < |ms| && ms[i].fullName == x;
      if i > 0 {
        assert ms[1..][i - 1] == ms[i];
      }
    }
    forall x | x in MethodNames(ms[1..])
      ensures x in MethodNames(ms)
    {
      var i :| 0 <= i < |ms[1..]| && ms[1..][i].fullName == x;
      assert ms[i + 1] == ms[1..][i];
    }
  }

  /** Record the services of endpoint `ep`, skipping the reflection service. */
  function AddServices(c: Catalog, ep: string, svcs: seq<ServiceDesc>): (r: Catalog)
    ensures c.ss.Keys <= r.ss.Keys <= c.ss.Keys + {ep}
    ensures forall e :: e in r.ss && e != ep ==> r.ss[e] == c.ss[e]
    ensures (forall e :: e in c.ss ==> ReflectionService !in c.ss[e]) ==> forall e :: e in r.ss ==> ReflectionService !in r.ss[e]
    ensures Aligned(c) ==> Aligned(r)
    decreases |svcs|
  {
    if svcs == [] then c
    else if svcs[0].fullName == ReflectionService then AddServices(c, ep, svcs[1..])
    else
      var s := svcs[0];
      var inner := if ep in c.ss then c.ss[ep] else map[];
      var c1 := c.(ss := c.ss[ep := inner[s.fullName := s]]);
      var c2 := AddMethods(c1, ep, s.methods);
      assert c2.ss == c1.ss && c1.ss.Keys == c.ss.Keys + {ep};
      assert forall e :: e in c1.ss && e != ep ==> c1.ss[e] == c.ss[e];
      assert (forall e :: e in c.ss ==> ReflectionService !in c.ss[e]) ==> forall e :: e in c2.ss ==> ReflectionService !in c2.ss[e];
      assert Aligned(c) ==> Aligned(c1);
      AddServices(c2, ep, svcs[1..])
  }

  /** The first phase of reloadCases: every upstream in store order; one that fails to parse is skipped. */
  function ScanUpstreams(c: Catalog, eps: seq<string>, parse: Parser): (r: Catalog)
    ensures (forall e :: e in c.ss ==> ReflectionService !in c.ss[e]) ==> forall e :: e in r.ss ==> ReflectionService !in r.ss[e]
    ensures Aligned(c) ==> Aligned(r)
    decreases |eps|
  {
    if eps == [] then c
    else match parse(eps[0])
      case None => ScanUpstreams(c, eps[1..], parse)
      case Some(svcs) => ScanUpstreams(AddServices(c, eps[0], svcs), eps[1..], parse)
  }

  /** Scanning a list of upstreams is scanning its two halves in turn. */
  lemma {:induction false} ScanConcat(c: Catalog, a: seq<string>, b: seq<string>, parse: Parser)
    ensures ScanUpstreams(c, a + b, parse) == ScanUpstreams(ScanUpstreams(c, a, parse), b, parse)
    decreases |a|
  {
    if a != [] {
      assert (a + b)[0] == a[0] && (a + b)[1..] == a[1..] + b;
      match parse(a[0])
      case None => ScanConcat(c, a[1..], b, parse);
      case Some(svcs) => ScanConcat(AddServices(c, a[0], svcs), a[1..], b, parse);
    } else {
      assert a + b == b;
    }
  }

  /** An upstream that fails to parse contributes nothing: the reload goes on as if it were not listed. */
  lemma ParseFailureSkipped(c: Catalog, a: seq<string>, ep: string, b: seq<string>, parse: Parser)
    requires parse(ep).None?
    ensures ScanUpstreams(c, a + [ep] + b, parse) == ScanUpstreams(c, a + b, parse)
  {
    ScanConcat(c, a + [ep], b, parse);
    ScanConcat(c, a, [ep], parse);
    ScanConcat(c, a, b, parse);
  }

  /** The services of an endpoint without the reflection service. */
  function Stripped(svcs: seq<ServiceDesc>): (r: seq<ServiceDesc>)
    ensures forall s :: s in r <==> s in svcs && s.fullName != ReflectionService
  {
    if svcs == [] then []
    else (if svcs[0].fullName == ReflectionService then [] else [svcs[0]]) + Stripped(svcs[1..])
  }

  lemma {:induction false} AddServicesStripped(c: Catalog, ep: string, svcs: seq<ServiceDesc>)
    ensures AddServices(c, ep, svcs) == AddServices(c, ep, Stripped(svcs))
    decreases |svcs|
  {
    if svcs != [] {
      var rest := Stripped(svcs[1..]);
      if svcs[0].fullName == ReflectionService {
        assert Stripped(svcs) == rest;
        AddServicesStripped(c, ep, svcs[1..]);
      } else {
        var s := svcs[0];
        assert Stripped(svcs) == [s] + rest;
        assert ([s] + rest)[0] == s && ([s] + rest)[1..] == rest;
        var inner := if ep in c.ss then c.ss[ep] else map[];
        var c1 := c.(ss := c.ss[ep := inner[s.fullName := s]]);
        AddServicesStripped(AddMethods(c1, ep, s.methods), ep, svcs[1..]);
      }
    }
  }

  /** The reflection service contributes nothing: scanning with it removed from every answer gives the same catalog. */
  lemma {:induction false} ReflectionIgnored(c: Catalog, eps: seq<string>, parse: Parser)
    ensures ScanUpstreams(c, eps, parse) ==
      ScanUpstreams(c, eps, ep => if parse(ep).Some? then Some(Stripped(parse(ep).value)) else None)
    decreases |eps|
  {
    var stripped: Parser := ep => if parse(ep).Some? then Some(Stripped(parse(ep).value)) else None;
    if eps != [] {
      match parse(eps[0])
      case None => ReflectionIgnored(c, eps[1..], parse);
      case Some(svcs) =>
        AddServicesStripped(c, eps[0], svcs);
        ReflectionIgnored(AddServices(c, eps[0], svcs), eps[1..], parse);
    }
  }

  /** The last upstream to declare a method is the one it is routed to. */
  lemma LastUpstreamWins(c: Catalog, a: seq<string>, ep: string, parse: Parser, s: ServiceDesc, i: int)
    requires parse(ep).Some? && s in parse(ep).value && s.fullName != ReflectionService
    requires 0 <= i < |s.methods|
    ensures var r := ScanUpstreams(c, a + [ep], parse);
      s.methods[i].fullName in r.routes && r.routes[s.methods[i].fullName] == Conn(ep)
  {
    ScanConcat(c, a, [ep], parse);
    var c0 := ScanUpstreams(c, a, parse);
    assert [ep][1..] == [];
    LastServiceWins(c0, ep, parse(ep).value, s, i);
  }

  /** Within one endpoint every method of a listed service ends up routed to it. */
  lemma {:induction false} LastServiceWins(c: Catalog, ep: string, svcs: seq<ServiceDesc>, s: ServiceDesc, i: int)
    requires s in svcs && s.fullName != ReflectionService && 0 <= i < |s.methods|
    ensures var r := AddServices(c, ep, svcs);
      s.methods[i].fullName in r.routes && r.routes[s.methods[i].fullName] == Conn(ep)
    decreases |svcs|
  {
    var m := s.methods[i].fullName;
    if svcs[0] == s {
      var inner := if ep in c.ss then c.ss[ep] else map[];
      var c1 := c.(ss := c.ss[ep := inner[s.fullName := s]]);
      AddServicesKeepsRoute(AddMethods(c1, ep, s.methods), ep, svcs[1..], m);
    } else if svcs[0].fullName == ReflectionService {
      LastServiceWins(c, ep, svcs[1..], s, i);
    } else {
      var t := svcs[0];
      var inner := if ep in c.ss then c.ss[ep] else map[];
      var c1 := c.(ss := c.ss[ep := inner[t.fullName := t]]);
      LastServiceWins(AddMethods(c1, ep, t.methods), ep, svcs[1..], s, i);
    }
  }

  /** Later services of the same endpoint keep a route to that endpoint. */
  lemma {:induction false} AddServicesKeepsRoute(c: Catalog, ep: string, svcs: seq<ServiceDesc>, m: string)
    requires m in c.routes && c.routes[m] == Conn(ep)
    ensures m in AddServices(c, ep, svcs).routes && AddServices(c, ep, svcs).routes[m] == Conn(ep)
    decreases |svcs|
  {
    if svcs != [] {
      if svcs[0].fullName == ReflectionService {
        AddServicesKeepsRoute(c, ep, svcs[1..], m);
      } else {
        var t := svcs[0];
        var inner := if ep in c.ss then c.ss[ep] else map[];
        var c1 := c.(ss := c.ss[ep := inner[t.fullName := t]]);
        AddServicesKeepsRoute(AddMethods(c1, ep, t.methods), ep, svcs[1..], m);
      }
    }
  }

  /** Every recorded descriptor is recorded under its own full name. */
  predicate Named(c: Catalog)
  {
    forall m :: m in c.methods ==> c.methods[m].fullName == m
  }

  /** The catalog after recording the first method of a service, as AddMethods does. */
  function RecordFirst(c: Catalog, ep: string, ms: seq<MethodDesc>): (r: Catalog)
    requires ms != []
    ensures AddMethods(c, ep, ms) == AddMethods(r, ep, ms[1..])
    ensures r.methods == c.methods[ms[0].fullName := ms[0]]
  {
    var m := ms[0];
    var listed := if ep in c.endPoint2Methods then c.endPoint2Methods[ep] else [];
    Catalog(c.ss, c.methods[m.fullName := m], c.endPoint2Methods[ep := listed + [m.fullName]], c.routes[m.fullName := Conn(ep)])
  }

  /** Methods the service does not declare keep their descriptor. */
  lemma {:induction false} AddMethodsKeeps(c: Catalog, ep: string, ms: seq<MethodDesc>, m: string)
    requires m in c.methods && m !in MethodNames(ms)
    ensures m in AddMethods(c, ep, ms).methods && AddMethods(c, ep, ms).methods[m] == c.methods[m]
    decreases |ms|
  {
    if ms != [] {
      MethodNamesCons(ms);
      AddMethodsKeeps(RecordFirst(c, ep, ms), ep, ms[1..], m);
    }
  }

  /** Method i of the service is recorded with its own descriptor unless a later method of the same name replaces it. */
  lemma {:induction false} AddMethodsRecords(c: Catalog, ep: string, ms: seq<MethodDesc>, i: nat)
    requires i < |ms| && forall j :: i < j < |ms| ==> ms[j].fullName != ms[i].fullName
    ensures ms[i].fullName in AddMethods(c, ep, ms).methods && AddMethods(c, ep, ms).methods[ms[i].fullName] == ms[i]
    decreases i
  {
    var c1 := RecordFirst(c, ep, ms);
    if i == 0 {
      AddMethodsKeeps(c1, ep, ms[1..], ms[0].fullName);
    } else {
      assert ms[1..][i - 1] == ms[i];
      forall j | i - 1 < j < |ms[1..]|
        ensures ms[1..][j].fullName != ms[1..][i - 1].fullName
      {
        assert ms[1..][j] == ms[j + 1];
      }
      AddMethodsRecords(c1, ep, ms[1..], i - 1);
    }
  }

  /** Recording keeps every descriptor under its own name. */
  lemma {:induction false} AddMethodsNamed(c: Catalog, ep: string, ms: seq<MethodDesc>)
    requires Named(c)
    ensures Named(AddMethods(c, ep, ms))
    decreases |ms|
  {
    if ms != [] {
      AddMethodsNamed(RecordFirst(c, ep, ms), ep, ms[1..]);
    }
  }

  /** A method no listed service declares keeps its descriptor. */
  lemma {:induction false} AddServicesKeepsMethod(c: Catalog, ep: string, svcs: seq<ServiceDesc>, m: string)
    requires m in c.methods
    requires forall j :: 0 <= j < |svcs| && svcs[j].fullName != ReflectionService ==> m !in MethodNames(svcs[j].methods)
    ensures m in AddServices(c, ep, svcs).methods && AddServices(c, ep, svcs).methods[m] == c.methods[m]
    decreases |svcs|
  {
    if svcs != [] {
      assert forall j :: 0 <= j < |svcs[1..]| ==> svcs[1..][j] == svcs[j + 1];
      if svcs[0].fullName == ReflectionService {
        AddServicesKeepsMethod(c, ep, svcs[1..], m);
      } else {
        var s := svcs[0];
        var inner := if ep in c.ss then c.ss[ep] else map[];
        var c1 := c.(ss := c.ss[ep := inner[s.fullName := s]]);
        AddMethodsKeeps(c1, ep, s.methods, m);
        AddServicesKeepsMethod(AddMethods(c1, ep, s.methods), ep, svcs[1..], m);
      }
    }
  }

  /**
   * Method i of service k of an endpoint is recorded with its own descriptor
   * when no later method of that service and no later service of the
   * endpoint declares the same name.
   */
  lemma {:induction false} AddServicesRecords(c: Catalog, ep: string, svcs: seq<ServiceDesc>, k: nat, i: nat)
    requires k < |svcs| && svcs[k].fullName != ReflectionService && i < |svcs[k].methods|
    requires forall j :: i < j < |svcs[k].methods| ==> svcs[k].methods[j].fullName != svcs[k].methods[i].fullName
    requires forall j :: k < j < |svcs| && svcs[j].fullName != ReflectionService ==>
      svcs[k].methods[i].fullName !in MethodNames(svcs[j].methods)
    ensures var r := AddServices(c, ep, svcs);
      svcs[k].methods[i].fullName in r.methods && r.methods[svcs[k].methods[i].fullName] == svcs[k].methods[i]
    decreases k
  {
    assert forall j :: 0 <= j < |svcs[1..]| ==> svcs[1..][j] == svcs[j + 1];
    var s := svcs[0];
    var inner := if ep in c.ss then c.ss[ep] else map[];
    var c1 := c.(ss := c.ss[ep := inner[s.fullName := s]]);
    if k == 0 {
      AddMethodsRecords(c1, ep, s.methods, i);
      AddServicesKeepsMethod(AddMethods(c1, ep, s.methods), ep, svcs[1..], s.methods[i].fullName);
    } else if s.fullName == ReflectionService {
      AddServicesRecords(c, ep, svcs[1..], k - 1, i);
    } else {
      AddServicesRecords(AddMethods(c1, ep, s.methods), ep, svcs[1..], k - 1, i);
    }
  }

  /** The last upstream to declare a method is the one whose descriptor is recorded for it. */
  lemma LastUpstreamRecords(c: Catalog, a: seq<string>, ep: string, parse: Parser, k: nat, i: nat)
    requires parse(ep).Some? && k < |parse(ep).value|
    requires var s := parse(ep).value[k]; s.fullName != ReflectionService && i < |s.methods|
    requires var svcs := parse(ep).value;
      forall j :: i < j < |svcs[k].methods| ==> svcs[k].methods[j].fullName != svcs[k].methods[i].fullName
    requires var svcs := parse(ep).value;
      forall j :: k < j < |svcs| && svcs[j].fullName != ReflectionService ==>
        svcs[k].methods[i].fullName !in MethodNames(svcs[j].methods)
    ensures var d := parse(ep).value[k].methods[i]; var r := ScanUpstreams(c, a + [ep], parse);
      d.fullName in r.methods && r.methods[d.fullName] == d
  {
    ScanConcat(c, a, [ep], parse);
    assert [ep][1..] == [];
    AddServicesRecords(ScanUpstreams(c, a, parse), ep, parse(ep).value, k, i);
  }

  /** Every descriptor a scan records is filed under its own name. */
  lemma {:induction false} ScanNamed(c: Catalog, eps: seq<string>, parse: Parser)
    requires Named(c)
    ensures Named(ScanUpstreams(c, eps, parse))
    decreases |eps|
  {
    if eps != [] {
      match parse(eps[0])
      case None => ScanNamed(c, eps[1..], parse);
      case Some(svcs) =>
        AddServicesNamed(c, eps[0], svcs);
        ScanNamed(AddServices(c, eps[0], svcs), eps[1..], parse);
    }
  }

  lemma {:induction false} AddServicesNamed(c: Catalog, ep: string, svcs: seq<ServiceDesc>)
    requires Named(c)
    ensures Named(AddServices(c, ep, svcs))
    decreases |svcs|
  {
    if svcs != [] {
      if svcs[0].fullName == ReflectionService {
        AddServicesNamed(c, ep, svcs[1..]);
      } else {
        var s := svcs[0];
        var inner := if ep in c.ss then c.ss[ep] else map[];
        var c1 := c.(ss := c.ss[ep := inner[s.fullName := s]]);
        AddMethodsNamed(c1, ep, s.methods);
        AddServicesNamed(AddMethods(c1, ep, s.methods), ep, svcs[1..]);
      }
    }
  }

  /** What getCaseBody decodes from a stored case: its rule and its body. */
  datatype StoredCase = StoredCase(rule: string, body: string)

  datatype ReloadErr = StoreFailed(cause: StoreErr) | CaseUndecodable(key: string) | RuleInvalid(rule: string)

  /**
   * The foreign parts of a reload: the JSON decoder of stored cases and the
   * rule compiler (which reads the rule with its dots hidden).
   */
  datatype Loader = Loader(decodeCase: string -> Option<StoredCase>, compile: string -> Option<Expression>)

  /** Load one case: read and decode its body, compile its rule if it has one. */
  function LoadCase(st: Store, ld: Loader, app: string, m: string, name: string): (r: Result<CaseRuleBody, ReloadErr>)
    ensures r.Ok? ==> (r.value.expression.Some? <==> r.value.rule != "")
    ensures r.Ok? ==> (Get(st, CaseBodyKey(app, m, name)).Ok? &&
      ld.decodeCase(Get(st, CaseBodyKey(app, m, name)).value) == Some(StoredCase(r.value.rule, r.value.body)))
  {
    match Get(st, CaseBodyKey(app, m, name))
    case Err(e) => Err(StoreFailed(e))
    case Ok(raw) =>
      match ld.decodeCase(raw)
      case None => Err(CaseUndecodable(CaseBodyKey(app, m, name)))
      case Some(sc) =>
        if sc.rule == "" then Ok(CaseRuleBody(sc.rule, None, sc.body))
        else match ld.compile(EscapePath(sc.rule))
          case None => Err(RuleInvalid(sc.rule))
          case Some(e) => Ok(CaseRuleBody(sc.rule, Some(e), sc.body))
  }

  /** t[m][app][name] := c, creating the inner maps as needed. */
  function Put3(t: CaseTable, m: string, app: string, name: string, c: CaseRuleBody): (r: CaseTable)
    ensures m in r && app in r[m] && name in r[m][app] && r[m][app][name] == c
    ensures forall m', a, n :: m' in t && a in t[m'] && n in t[m'][a] && (m', a, n) != (m, app, name) ==>
      m' in r && a in r[m'] && n in r[m'][a] && r[m'][a][n] == t[m'][a][n]
    ensures forall m', a, n :: m' in r && a in r[m'] && n in r[m'][a] ==>
      (m', a, n) == (m, app, name) || (m' in t && a in t[m'] && n in t[m'][a])
  {
    var byApp := if m in t then t[m] else map[];
    var byName := if app in byApp then byApp[app] else map[];
    t[m := byApp[app := byName[name := c]]]
  }

  /** Every entry of `t` is what loading that case from the store gives. */
  ghost predicate Sound(st: Store, ld: Loader, t: CaseTable)
  {
    forall m, a, n :: m in t && a in t[m] && n in t[m][a] ==> LoadCase(st, ld, a, m, n) == Ok(t[m][a][n])
  }

  ghost predicate Has(t: CaseTable, m: string, app: string, name: string)
  {
    m in t && app in t[m] && name in t[m][app]
  }

  /** Load the listed cases of one app and method. */
  function LoadNames(t: CaseTable, st: Store, ld: Loader, app: string, m: string, names: seq<string>)
    : (r: Result<CaseTable, ReloadErr>)
    ensures r.Ok? ==> forall m', a, n :: Has(t, m', a, n) ==> Has(r.value, m', a, n)
    ensures r.Ok? ==> forall n :: n in names ==> Has(r.value, m, app, n)
    ensures Sound(st, ld, t) && r.Ok? ==> Sound(st, ld, r.value)
    decreases |names|
  {
    if names == [] then Ok(t)
    else match LoadCase(st, ld, app, m, names[0])
      case Err(e) => Err(e)
      case Ok(c) => LoadNames(Put3(t, m, app, names[0], c), st, ld, app, m, names[1..])
  }

  /** Load the cases of every listed method of one app. */
  function LoadMethods(t: CaseTable, st: Store, ld: Loader, app: string, ms: seq<string>)
    : (r: Result<CaseTable, ReloadErr>)
    ensures r.Ok? ==> forall m', a, n :: Has(t, m', a, n) ==> Has(r.value, m', a, n)
    ensures r.Ok? ==> forall m, n :: (m in ms && Members(st, Method2CasesKey(app, m)).Ok? &&
      n in Members(st, Method2CasesKey(app, m)).value) ==> Has(r.value, m, app, n)
    ensures Sound(st, ld, t) && r.Ok? ==> Sound(st, ld, r.value)
    decreases |ms|
  {
    if ms == [] then Ok(t)
    else match Members(st, Method2CasesKey(app, ms[0]))
      case Err(e) => Err(StoreFailed(e))
      case Ok(names) =>
        match LoadNames(t, st, ld, app, ms[0], names)
        case Err(e) => Err(e)
        case Ok(t1) => LoadMethods(t1, st, ld, app, ms[1..])
  }

  /** The second phase of reloadCases: every case of every listed app, or the first failure. */
  function LoadApps(t: CaseTable, st: Store, ld: Loader, apps: seq<string>): (r: Result<CaseTable, ReloadErr>)
    ensures r.Ok? ==> forall m', a, n :: Has(t, m', a, n) ==> Has(r.value, m', a, n)
    ensures r.Ok? ==> forall a, m, n :: a in apps && Listed(st, a, m, n) ==> Has(r.value, m, a, n)
    ensures Sound(st, ld, t) && r.Ok? ==> Sound(st, ld, r.value)
    decreases |apps|
  {
    if apps == [] then Ok(t)
    else match Members(st, App2MethodsKey(apps[0]))
      case Err(e) => Err(StoreFailed(e))
      case Ok(ms) =>
        match LoadMethods(t, st, ld, apps[0], ms)
        case Err(e) => Err(e)
        case Ok(t1) => LoadApps(t1, st, ld, apps[1..])
  }

  /** The store lists case `n` under method `m` of app `a`. */
  predicate Listed(st: Store, a: string, m: string, n: string)
  {
    Members(st, App2MethodsKey(a)).Ok? && m in Members(st, App2MethodsKey(a)).value &&
    Members(st, Method2CasesKey(a, m)).Ok? && n in Members(st, Method2CasesKey(a, m)).value
  }

  /** A listed case that fails to load fails the whole method. */
  lemma {:induction false} LoadNamesFails(t: CaseTable, st: Store, ld: Loader, app: string, m: string, names: seq<string>, n: string)
    requires n in names && LoadCase(st, ld, app, m, n).Err?
    ensures LoadNames(t, st, ld, app, m, names).Err?
    decreases |names|
  {
    if names[0] != n {
      match LoadCase(st, ld, app, m, names[0])
      case Err(_) =>
      case Ok(c) => LoadNamesFails(Put3(t, m, app, names[0], c), st, ld, app, m, names[1..], n);
    }
  }

  lemma {:induction false} LoadMethodsFails(t: CaseTable, st: Store, ld: Loader, app: string, ms: seq<string>, m: string, n: string)
    requires m in ms && Members(st, Method2CasesKey(app, m)).Ok? && n in Members(st, Method2CasesKey(app, m)).value
    requires LoadCase(st, ld, app, m, n).Err?
    ensures LoadMethods(t, st, ld, app, ms).Err?
    decreases |ms|
  {
    match Members(st, Method2CasesKey(app, ms[0]))
    case Err(_) =>
    case Ok(names) =>
      if ms[0] == m {
        LoadNamesFails(t, st, ld, app, m, names, n);
      } else {
        match LoadNames(t, st, ld, app, ms[0], names)
        case Err(_) =>
        case Ok(t1) => LoadMethodsFails(t1, st, ld, app, ms[1..], m, n);
      }
  }

  lemma {:induction false} LoadAppsFails(t: CaseTable, st: Store, ld: Loader, apps: seq<string>, a: string, m: string, n: string)
    requires a in apps && Listed(st, a, m, n) && LoadCase(st, ld, a, m, n).Err?
    ensures LoadApps(t, st, ld, apps).Err?
    decreases |apps|
  {
    match Members(st, App2MethodsKey(apps[0]))
    case Err(_) =>
    case Ok(ms) =>
      if apps[0] == a {
        LoadMethodsFails(t, st, ld, a, ms, m, n);
      } else {
        match LoadMethods(t, st, ld, apps[0], ms)
        case Err(_) =>
        case Ok(t1) => LoadAppsFails(t1, st, ld, apps[1..], a, m, n);
      }
  }

  /** The snapshot a reload publishes. */
  datatype Snapshot = Snapshot(
    ss: map<string, map<string, ServiceDesc>>,
    methods: map<string, MethodDesc>,
    endPoint2Methods: map<string, seq<string>>,
    cases: CaseTable)

  /** reloadCases: the route map it hands the director (if it gets that far) and the snapshot (if it succeeds). */
  datatype Reloaded = Reloaded(routes: Option<map<string, Conn>>, snapshot: Option<Snapshot>)

  function ReloadSpec(st: Store, parse: Parser, ld: Loader): (r: Reloaded)
    ensures r.snapshot.Some? ==> r.routes.Some?
    ensures r.routes.Some? <==> Members(st, AllUpstreamsKey).Ok?
  {
    match Members(st, AllUpstreamsKey)
    case Err(_) => Reloaded(None, None)
    case Ok(eps) =>
      var c := ScanUpstreams(EmptyCatalog, eps, parse);
      match Members(st, AllTestedAppKey)
      case Err(_) => Reloaded(Some(c.routes), None)
      case Ok(apps) =>
        match LoadApps(map[], st, ld, apps)
        case Err(_) => Reloaded(Some(c.routes), None)
        case Ok(t) => Reloaded(Some(c.routes), Some(Snapshot(c.ss, c.methods, c.endPoint2Methods, t)))
  }

  /**
   * A successful reload holds exactly what the store says: every listed case,
   * each one as loading it gives (compiled exactly when it has a rule); its
   * methods are its routes; the reflection service is never recorded.
   */
  lemma ReloadSound(st: Store, parse: Parser, ld: Loader)
    requires ReloadSpec(st, parse, ld).snapshot.Some?
    ensures var r := ReloadSpec(st, parse, ld); var s := r.snapshot.value;
      Sound(st, ld, s.cases) &&
      (forall a, m, n :: a in Members(st, AllTestedAppKey).value && Listed(st, a, m, n) ==> Has(s.cases, m, a, n)) &&
      s.methods.Keys == r.routes.value.Keys &&
      (forall m :: m in s.methods ==> s.methods[m].fullName == m) &&
      (forall e :: e in s.ss ==> ReflectionService !in s.ss[e])
  {
    ScanNamed(EmptyCatalog, Members(st, AllUpstreamsKey).value, parse);
  }

  /** A listed case whose body cannot be loaded fails the reload, but the routes are published all the same. */
  lemma ReloadFailsOnListedCase(st: Store, parse: Parser, ld: Loader, a: string, m: string, n: string)
    requires Members(st, AllUpstreamsKey).Ok? && Members(st, AllTestedAppKey).Ok?
    requires a in Members(st, AllTestedAppKey).value && Listed(st, a, m, n) && LoadCase(st, ld, a, m, n).Err?
    ensures ReloadSpec(st, parse, ld).snapshot.None?
    ensures ReloadSpec(st, parse, ld).routes == Some(ScanUpstreams(EmptyCatalog, Members(st, AllUpstreamsKey).value, parse).routes)
  {
    LoadAppsFails(map[], st, ld, Members(st, AllTestedAppKey).value, a, m, n);
  }

  /** A listed name whose body key is gone reads as "", which does not decode: every reload fails from then on. */
  lemma DanglingNameFailsReload(st: Store, parse: Parser, ld: Loader, a: string, m: string, n: string)
    requires Members(st, AllUpstreamsKey).Ok? && Members(st, AllTestedAppKey).Ok?
    requires a in Members(st, AllTestedAppKey).value && Listed(st, a, m, n)
    requires CaseBodyKey(a, m, n) !in st.strs && CaseBodyKey(a, m, n) !in st.down
    requires ld.decodeCase("").None?
    ensures ReloadSpec(st, parse, ld).snapshot.None?
  {
    ReloadFailsOnListedCase(st, parse, ld, a, m, n);
  }

  /** The first phase of reloadCases, loop by loop. */
  method ScanUpstreamsLoop(eps: seq<string>, parse: Parser) returns (c: Catalog)
    ensures c == ScanUpstreams(EmptyCatalog, eps, parse)
  {
    c := EmptyCatalog;
    var i := 0;
    while i < |eps|
      invariant 0 <= i <= |eps|
      invariant ScanUpstreams(c, eps[i..], parse) == ScanUpstreams(EmptyCatalog, eps, parse)
    {
      assert eps[i..][0] == eps[i] && eps[i..][1..] == eps[i + 1..];
      var svcs := parse(eps[i]);
      if svcs.Some? {
        c := AddServicesLoop(c, eps[i], svcs.value);
      }
      i := i + 1;
    }
  }

  /** The services of one endpoint, loop by loop. */
  method AddServicesLoop(c0: Catalog, ep: string, svcs: seq<ServiceDesc>) returns (c: Catalog)
    ensures c == AddServices(c0, ep, svcs)
  {
    c := c0;
    var j := 0;
    while j < |svcs|
      invariant 0 <= j <= |svcs|
      invariant AddServices(c, ep, svcs[j..]) == AddServices(c0, ep, svcs)
    {
      var s := svcs[j];
      assert svcs[j..][0] == s && svcs[j..][1..] == svcs[j + 1..];
      if s.fullName != ReflectionService {
        var inner := if ep in c.ss then c.ss[ep] else map[];
        c := c.(ss := c.ss[ep := inner[s.fullName := s]]);
        c := AddMethodsLoop(c, ep, s.methods);
      }
      j := j + 1;
    }
  }

  /** The methods of one service, loop by loop. */
  method AddMethodsLoop(c0: Catalog, ep: string, ms: seq<MethodDesc>) returns (c: Catalog)
    ensures c == AddMethods(c0, ep, ms)
  {
    c := c0;
    var k := 0;
    while k < |ms|
      invariant 0 <= k <= |ms|
      invariant AddMethods(c, ep, ms[k..]) == AddMethods(c0, ep, ms)
    {
      var m := ms[k];
      assert ms[k..][0] == m && ms[k..][1..] == ms[k + 1..];
      var listed := if ep in c.endPoint2Methods then c.endPoint2Methods[ep] else [];
      c := Catalog(c.ss, c.methods[m.fullName := m], c.endPoint2Methods[ep := listed + [m.fullName]],
                   c.routes[m.fullName := Conn(ep)]);
      k := k + 1;
    }
  }

  /** The second phase of reloadCases, loop by loop; the first failure aborts. */
  method LoadAppsLoop(st: Store, ld: Loader, apps: seq<string>) returns (r: Result<CaseTable, ReloadErr>)
    ensures r == LoadApps(map[], st, ld, apps)
  {
    var t: CaseTable := map[];
    var i := 0;
    while i < |apps|
      invariant 0 <= i <= |apps|
      invariant LoadApps(t, st, ld, apps[i..]) == LoadApps(map[], st, ld, apps)
    {
      var app := apps[i];
      assert apps[i..][0] == app && apps[i..][1..] == apps[i + 1..];
      var ms := Members(st, App2MethodsKey(app));
      if ms.Err? {
        return Err(StoreFailed(ms.error));
      }
      ghost var t0 := t;
      var j := 0;
      while j < |ms.value|
        invariant 0 <= j <= |ms.value|
        invariant LoadMethods(t, st, ld, app, ms.value[j..]) == LoadMethods(t0, st, ld, app, ms.value)
      {
        var m := ms.value[j];
        assert ms.value[j..][0] == m && ms.value[j..][1..] == ms.value[j + 1..];
        var names := Members(st, Method2CasesKey(app, m));
        if names.Err? {
          return Err(StoreFailed(names.error));
        }
        ghost var t1 := t;
        var k := 0;
        while k < |names.value|
          invariant 0 <= k <= |names.value|
          invariant LoadNames(t, st, ld, app, m, names.value[k..]) == LoadNames(t1, st, ld, app, m, names.value)
        {
          var n := names.value[k];
          assert names.value[k..][0] == n && names.value[k..][1..] == names.value[k + 1..];
          var c := LoadCase(st, ld, app, m, n);
          if c.Err? {
            return Err(c.error);
          }
          t := Put3(t, m, app, n, c.value);
          k := k + 1;
        }
        j := j + 1;
      }
      i := i + 1;
    }
    r := Ok(t);
  }

  /** What SetCases rejects a batch for. */
  datatype SetErr = FieldsEmpty | MethodUnsupported(app: string, name: string, methodName: string)
                  | BodyIllegal(app: string, name: string, methodName: string)

  /** GetMethodDesc on a snapshot: nothing before the first successful reload. */
  function MethodOf(snap: Option<Snapshot>, name: string): (r: Option<MethodDesc>)
    ensures r.Some? <==> snap.Some? && name in snap.value.methods
    ensures r.Some? ==> r.value == snap.value.methods[name]
  {
    if snap.Some? && name in snap.value.methods then Some(snap.value.methods[name]) else None
  }

  /** GetCases on a snapshot: nothing before the first successful reload. */
  function CasesOfSnapshot(snap: Option<Snapshot>): (r: Option<CaseTable>)
    ensures r.None? <==> snap.None?
    ensures r.Some? ==> r.value == snap.value.cases
  {
    if snap.Some? then Some(snap.value.cases) else None
  }

  /** Why a case is refused, if it is. */
  function Check(cs: Case, snap: Option<Snapshot>, engine: Engine): (r: Option<SetErr>)
    ensures r.None? <==> (cs.body != "" && cs.name != "" && cs.methodName != "" && cs.testedAppName != "" &&
      MethodOf(snap, cs.methodName).Some? && engine.decodeOut(MethodOf(snap, cs.methodName).value.output, cs.body).Some?)
  {
    if cs.body == "" || cs.name == "" || cs.methodName == "" || cs.testedAppName == "" then Some(FieldsEmpty)
    else match MethodOf(snap, cs.methodName)
      case None => Some(MethodUnsupported(cs.testedAppName, cs.name, cs.methodName))
      case Some(desc) =>
        if engine.decodeOut(desc.output, cs.body).None? then Some(BodyIllegal(cs.testedAppName, cs.name, cs.methodName))
        else None
  }

  /** The validation pass of SetCases: the first refused case decides. */
  function Validate(cases: seq<Case>, snap: Option<Snapshot>, engine: Engine): (r: Option<SetErr>)
    ensures r.None? <==> forall i :: 0 <= i < |cases| ==> Check(cases[i], snap, engine).None?
    ensures r.Some? ==> exists i :: 0 <= i < |cases| && Check(cases[i], snap, engine) == r
  {
    if cases == [] then None
    else if Check(cases[0], snap, engine).Some? then Check(cases[0], snap, engine)
    else
      var r := Validate(cases[1..], snap, engine);
      assert forall i :: 1 <= i < |cases| ==> cases[i] == cases[1..][i - 1];
      r
  }

  /** The case's name, method and app are listed, and its body key is set. */
  predicate Written(st: Store, cs: Case)
  {
    var app := cs.testedAppName;
    AllTestedAppKey in st.sets && app in st.sets[AllTestedAppKey] &&
    App2MethodsKey(app) in st.sets && cs.methodName in st.sets[App2MethodsKey(app)] &&
    Method2CasesKey(app, cs.methodName) in st.sets && cs.name in st.sets[Method2CasesKey(app, cs.methodName)] &&
    CaseBodyKey(app, cs.methodName, cs.name) in st.strs
  }

  /** Writes of one case never undo what an earlier write listed or set. */
  predicate Grows(st: Store, st': Store)
  {
    st'.down == st.down &&
    (forall k :: k in st.sets ==> k in st'.sets && forall m :: m in st.sets[k] ==> m in st'.sets[k]) &&
    (forall k :: k in st.strs ==> k in st'.strs)
  }

  /** The write pass for one case: SADD app, SADD method, SADD name, SET body; a failed step skips the rest. */
  function WriteCase(st: Store, cs: Case, encode: Case -> string): (r: Store)
    ensures Grows(st, r)
    ensures st.down == {} ==> Written(r, cs) && r.strs[CaseBodyKey(cs.testedAppName, cs.methodName, cs.name)] == encode(cs)
  {
    var app := cs.testedAppName;
    match Add(st, AllTestedAppKey, app)
    case Err(_) => st
    case Ok(st1) =>
      match Add(st1, App2MethodsKey(app), cs.methodName)
      case Err(_) => st1
      case Ok(st2) =>
        match Add(st2, Method2CasesKey(app, cs.methodName), cs.name)
        case Err(_) => st2
        case Ok(st3) =>
          match Put(st3, CaseBodyKey(app, cs.methodName, cs.name), encode(cs))
          case Err(_) => st3
          case Ok(st4) => st4
  }

  function WriteAll(st: Store, cases: seq<Case>, encode: Case -> string): (r: Store)
    ensures Grows(st, r)
    decreases |cases|
  {
    if cases == [] then st else WriteAll(WriteCase(st, cases[0], encode), cases[1..], encode)
  }

  lemma {:induction false} WrittenStays(st: Store, cases: seq<Case>, encode: Case -> string, cs: Case)
    requires Written(st, cs)
    ensures Written(WriteAll(st, cases, encode), cs)
  {
    var r := WriteAll(st, cases, encode);
    assert Grows(st, r);
  }

  /** With every key reachable, each case of an accepted batch ends up listed and stored. */
  lemma {:induction false} WriteAllStores(st: Store, cases: seq<Case>, encode: Case -> string)
    requires st.down == {}
    ensures forall i :: 0 <= i < |cases| ==> Written(WriteAll(st, cases, encode), cases[i])
  {
    forall i | 0 <= i < |cases|
      ensures Written(WriteAll(st, cases, encode), cases[i])
    {
      WrittenAt(st, cases, encode, i);
    }
  }

  lemma {:induction false} WrittenAt(st: Store, cases: seq<Case>, encode: Case -> string, i: nat)
    requires st.down == {} && i < |cases|
    ensures Written(WriteAll(st, cases, encode), cases[i])
    decreases i
  {
    var st1 := WriteCase(st, cases[0], encode);
    var tail := cases[1..];
    assert WriteAll(st, cases, encode) == WriteAll(st1, tail, encode);
    if i == 0 {
      WrittenStays(st1, tail, encode, cases[0]);
    } else {
      assert tail[i - 1] == cases[i];
      WrittenAt(st1, tail, encode, i - 1);
    }
  }

  /** The DelCases pass: DEL body, SREM name; the error kept is the one of the last command run. */
  function DelAll(st: Store, cases: seq<Case>, err: Option<StoreErr>): (r: (Store, Option<StoreErr>))
    ensures r.0.down == st.down && Shrinks(st, r.0)
    ensures forall k :: k in st.down && k in st.strs ==> k in r.0.strs && r.0.strs[k] == st.strs[k]
    ensures forall k :: k !in DelKeys(cases) ==> (k in r.0.strs <==> k in st.strs) && (k in r.0.sets <==> k in st.sets)
    ensures forall k :: k !in DelKeys(cases) && k in st.strs ==> r.0.strs[k] == st.strs[k]
    ensures forall k :: k !in DelKeys(cases) && k in st.sets ==> r.0.sets[k] == st.sets[k]
    ensures cases == [] ==> r == (st, err)
    decreases |cases|
  {
    if cases == [] then (st, err)
    else
      var cs := cases[0];
      match Delete(st, CaseBodyKey(cs.testedAppName, cs.methodName, cs.name))
      case Err(e) => DelAll(st, cases[1..], Some(e))
      case Ok(st1) =>
        match Remove(st1, Method2CasesKey(cs.testedAppName, cs.methodName), cs.name)
        case Err(e) => DelAll(st1, cases[1..], Some(e))
        case Ok(st2) => DelAll(st2, cases[1..], None)
  }

  /** The keys the delete pass touches: each case's body key and the listing of its method. */
  function DelKeys(cases: seq<Case>): set<string>
    decreases |cases|
  {
    if cases == [] then {}
    else
      var cs := cases[0];
      {CaseBodyKey(cs.testedAppName, cs.methodName, cs.name), Method2CasesKey(cs.testedAppName, cs.methodName)}
      + DelKeys(cases[1..])
  }

  /** Deleting never adds: no key appears and no set gains a member. */
  predicate Shrinks(st: Store, st': Store)
  {
    st'.down == st.down &&
    (forall k :: k in st'.strs ==> k in st.strs) &&
    (forall k :: k in st'.sets ==> k in st.sets && forall m :: m in st'.sets[k] ==> m in st.sets[k])
  }

  /** The case is gone: its body key is unset and its name is not listed under its method. */
  predicate Deleted(st: Store, cs: Case)
  {
    var listing := Method2CasesKey(cs.testedAppName, cs.methodName);
    CaseBodyKey(cs.testedAppName, cs.methodName, cs.name) !in st.strs &&
    (listing in st.sets ==> cs.name !in st.sets[listing])
  }

  lemma {:induction false} DeletedStays(st: Store, cases: seq<Case>, err: Option<StoreErr>, cs: Case)
    requires Deleted(st, cs)
    ensures Deleted(DelAll(st, cases, err).0, cs)
  {
    var r := DelAll(st, cases, err).0;
    assert Shrinks(st, r);
  }

  /**
   * With every key reachable, each case of the batch is deleted (its body
   * unset, its name unlisted) and the reported error is nil.
   */
  lemma {:induction false} DelAllDeletes(st: Store, cases: seq<Case>, err: Option<StoreErr>)
    requires st.down == {}
    ensures forall i :: 0 <= i < |cases| ==> Deleted(DelAll(st, cases, err).0, cases[i])
    ensures cases != [] ==> DelAll(st, cases, err).1 == None
  {
    forall i | 0 <= i < |cases|
      ensures Deleted(DelAll(st, cases, err).0, cases[i])
    {
      DeletedAt(st, cases, err, i);
    }
    if cases != [] {
      DelLastDecides(st, cases, err);
    }
  }

  lemma {:induction false} DeletedAt(st: Store, cases: seq<Case>, err: Option<StoreErr>, i: nat)
    requires st.down == {} && i < |cases|
    ensures Deleted(DelAll(st, cases, err).0, cases[i])
    decreases i
  {
    var cs := cases[0];
    var st1 := Delete(st, CaseBodyKey(cs.testedAppName, cs.methodName, cs.name)).value;
    var st2 := Remove(st1, Method2CasesKey(cs.testedAppName, cs.methodName), cs.name).value;
    var tail := cases[1..];
    assert DelAll(st, cases, err) == DelAll(st2, tail, None);
    if i == 0 {
      assert Deleted(st2, cs);
      DeletedStays(st2, tail, None, cs);
    } else {
      assert tail[i - 1] == cases[i];
      DeletedAt(st2, tail, None, i - 1);
    }
  }

  /** Only the last case decides the error: a failure on an earlier case is reported as success. */
  lemma {:induction false} DelLastDecides(st: Store, cases: seq<Case>, err: Option<StoreErr>)
    requires cases != []
    requires var cs := cases[|cases| - 1];
      CaseBodyKey(cs.testedAppName, cs.methodName, cs.name) !in st.down &&
      Method2CasesKey(cs.testedAppName, cs.methodName) !in st.down
    ensures DelAll(st, cases, err).1 == None
    decreases |cases|
  {
    var cs := cases[0];
    if |cases| > 1 {
      assert cases[1..][|cases[1..]| - 1] == cases[|cases| - 1];
      match Delete(st, CaseBodyKey(cs.testedAppName, cs.methodName, cs.name))
      case Err(e) => DelLastDecides(st, cases[1..], Some(e));
      case Ok(st1) =>
        match Remove(st1, Method2CasesKey(cs.testedAppName, cs.methodName), cs.name)
        case Err(e) => DelLastDecides(st1, cases[1..], Some(e));
        case Ok(st2) => DelLastDecides(st2, cases[1..], None);
    }
  }

  /** A batch whose first case could not be deleted, and whose last one could, reports success while the first body stays. */
  lemma DelMasksFailure(st: Store, cases: seq<Case>)
    requires |cases| >= 2
    requires var c0 := cases[0]; var k0 := CaseBodyKey(c0.testedAppName, c0.methodName, c0.name);
      k0 in st.down && k0 in st.strs
    requires var cs := cases[|cases| - 1];
      CaseBodyKey(cs.testedAppName, cs.methodName, cs.name) !in st.down &&
      Method2CasesKey(cs.testedAppName, cs.methodName) !in st.down
    ensures var c0 := cases[0]; var k0 := CaseBodyKey(c0.testedAppName, c0.methodName, c0.name);
      var r := DelAll(st, cases, None);
      r.1 == None && k0 in r.0.strs && r.0.strs[k0] == st.strs[k0]
  {
    DelLastDecides(st, cases, None);
  }

  /** The case manager: the store it reads and writes, the snapshot it serves, the director it feeds. */
  class CaseMgr {
    const conf: ProxyConf
    var store: Store
    var snapshot: Option<Snapshot>
    const director: Director.GrpcManager
    const parse: Parser
    const loader: Loader
    const engine: Engine
    const encode: Case -> string

    /**
     * NewCaseMgr: one reload at start; when it fails nothing is stored and
     * the manager serves nothing until a later reload succeeds.
     */
    constructor (conf: ProxyConf, store: Store, director: Director.GrpcManager, parse: Parser, loader: Loader,
                 engine: Engine, encode: Case -> string)
      modifies director
      ensures this.conf == conf && this.store == store && this.director == director
      ensures this.parse == parse && this.loader == loader && this.engine == engine && this.encode == encode
      ensures snapshot == ReloadSpec(store, parse, loader).snapshot
      ensures var routes := ReloadSpec(store, parse, loader).routes;
        director.method2Cli == (if routes.Some? then routes else old(director.method2Cli))
    {
      this.conf := conf;
      this.store := store;
      this.director := director;
      this.parse := parse;
      this.loader := loader;
      this.engine := engine;
      this.encode := encode;
      new;
      var res := ReloadCases();
      snapshot := res;
    }

    /** reloadCases: publishes the routes once the upstreams are scanned, then loads the cases. */
    method ReloadCases() returns (res: Option<Snapshot>)
      modifies director
      ensures res == ReloadSpec(store, parse, loader).snapshot
      ensures var routes := ReloadSpec(store, parse, loader).routes;
        director.method2Cli == (if routes.Some? then routes else old(director.method2Cli))
    {
      var eps := Members(store, AllUpstreamsKey);
      if eps.Err? {
        return None;
      }
      var c := ScanUpstreamsLoop(eps.value, parse);
      director.SetMethod2CliAtomic(c.routes);
      var apps := Members(store, AllTestedAppKey);
      if apps.Err? {
        return None;
      }
      var t := LoadAppsLoop(store, loader, apps.value);
      if t.Err? {
        return None;
      }
      res := Some(Snapshot(c.ss, c.methods, c.endPoint2Methods, t.value));
    }

    /** One round of the background reload: a failed reload keeps the previous snapshot. */
    method Refresh()
      modifies this, director
      ensures store == old(store)
      ensures var r := ReloadSpec(store, parse, loader);
        snapshot == (if r.snapshot.Some? then r.snapshot else old(snapshot))
    {
      var res := ReloadCases();
      if res.Some? {
        snapshot := res;
      }
    }

    function GetCases(): (r: Option<CaseTable>)
      reads this
      ensures r == CasesOfSnapshot(snapshot)
    {
      CasesOfSnapshot(snapshot)
    }

    function GetMethodDesc(name: string): (r: Option<MethodDesc>)
      reads this
      ensures r == MethodOf(snapshot, name)
    {
      MethodOf(snapshot, name)
    }

    /** SetCases: validate the whole batch, then write each case, skipping a case at its first failed write. */
    method SetCases(cases: seq<Case>) returns (err: Option<SetErr>)
      modifies this
      ensures snapshot == old(snapshot)
      ensures err == Validate(cases, snapshot, engine)
      ensures err.Some? ==> store == old(store)
      ensures err.None? ==> store == WriteAll(old(store), cases, encode)
    {
      var i := 0;
      while i < |cases|
        invariant 0 <= i <= |cases|
        invariant Validate(cases, snapshot, engine) == Validate(cases[i..], snapshot, engine)
      {
        assert cases[i..][0] == cases[i] && cases[i..][1..] == cases[i + 1..];
        var e := Check(cases[i], snapshot, engine);
        if e.Some? {
          return e;
        }
        i := i + 1;
      }
      i := 0;
      while i < |cases|
        invariant 0 <= i <= |cases|
        invariant WriteAll(store, cases[i..], encode) == WriteAll(old(store), cases, encode)
        invariant snapshot == old(snapshot)
      {
        var cs := cases[i];
        assert cases[i..][0] == cs && cases[i..][1..] == cases[i + 1..];
        store := WriteCase(store, cs, encode);
        i := i + 1;
      }
      err := None;
    }

    /** DelCases: delete each case's body and unlist its name; the error of the last command run is returned. */
    method DelCases(cases: seq<Case>) returns (err: Option<StoreErr>)
      modifies this
      ensures snapshot == old(snapshot)
      ensures (store, err) == DelAll(old(store), cases, None)
      ensures old(store).down == {} ==> forall i :: 0 <= i < |cases| ==> Deleted(store, cases[i])
    {
      if store.down == {} {
        DelAllDeletes(store, cases, None);
      }
      err := None;
      var i := 0;
      while i < |cases|
        invariant 0 <= i <= |cases|
        invariant DelAll(store, cases[i..], err) == DelAll(old(store), cases, None)
        invariant snapshot == old(snapshot)
      {
        var cs := cases[i];
        assert cases[i..][0] == cs && cases[i..][1..] == cases[i + 1..];
        var d := Delete(store, CaseBodyKey(cs.testedAppName, cs.methodName, cs.name));
        if d.Err? {
          err := Some(d.error);
          i := i + 1;
          continue;
        }
        store := d.value;
        var r := Remove(store, Method2CasesKey(cs.testedAppName, cs.methodName), cs.name);
        if r.Err? {
          err := Some(r.error);
          i := i + 1;
          continue;
        }
        store := r.value;
        err := None;
        i := i + 1;
      }
      assert cases[i..] == [];
    }

    /** GetMockResponseByMeta. */
    method GetMockResponseByMeta(meta: ReqMeta) returns (matched: bool, resp: Option<Msg>)
      ensures resp == ByMetaSpec(conf, GetCases(), GetMethodDesc(meta.fullMethodName), engine, meta)
      ensures matched <==> resp.Some?
    {
      var desc := GetMethodDesc(meta.fullMethodName);
      if desc.None? {
        return false, None;
      }
      var body := ByMetadata(conf, GetCases(), meta.testedAppName, meta.fullMethodName, meta.md);
      if body.Some? {
        resp := engine.decodeOut(desc.value.output, body.value);
        return resp.Some?, resp;
      }
      return false, None;
    }

    /** GetMockResponseByBody, over the candidates of the loaded cases in the order they are gathered. */
    method GetMockResponseByBody(req: Bytes, meta: ReqMeta) returns (v: Verdict)
      ensures exists list :: (Gathered(GetCases(), meta.fullMethodName, meta.testedAppName, list) &&
        v == ByBodySpec(GetMethodDesc(meta.fullMethodName), engine, list, req))
    {
      var desc := GetMethodDesc(meta.fullMethodName);
      var cands := GetExpressions(GetCases(), meta.fullMethodName, meta.testedAppName);
      v := Miss;
      if desc.Some? {
        var js := RequestJson(engine, desc.value, req);
        if js.Some? {
          var outcome := MatchRules(engine, cands, js.value);
          match outcome
          case NotFound =>
          case Panicked => v := Crash;
          case Found(body) =>
            var m := engine.decodeOut(desc.value.output, body);
            if m.Some? {
              v := Hit(m.value);
            }
        }
      }
      assert v == ByBodySpec(GetMethodDesc(meta.fullMethodName), engine, cands, req);
    }
  }
}
