/**
 * The upstream registry of the in-memory generation: upstream name -> client
 * and method full name -> the client that serves it.
 */
module DialManager {
  import opened Wrappers
  import opened Types

  /** RpcClientConf: a name plus the zrpc settings (reduced to the endpoints). */
  datatype UpstreamConf = UpstreamConf(name: string, endpoints: seq<string>)

  /** RpcClient: the configuration, the dialled connection and the services found by reflection. */
  datatype RpcClient = RpcClient(conf: UpstreamConf, conn: Conn, services: seq<ServiceDesc>)

  datatype DialError = ErrNotFound | UpstreamNotFound | DialFailed(upstream: string) | ParseFailed(upstream: string)

  /** zrpc.NewClient and parser.Parser, which talk to the network. */
  type Dialer = UpstreamConf -> Option<Conn>
  type Reflector = Conn -> Option<seq<ServiceDesc>>

  datatype Registry = Registry(upstreams: map<string, RpcClient>, methodClient: map<string, RpcClient>)

  /** `services` declare a method called `m`. */
  ghost predicate Exports(services: seq<ServiceDesc>, m: string)
  {
    exists i, j :: 0 <= i < |services| && 0 <= j < |services[i].methods| && services[i].methods[j].fullName == m
  }

  /** `methods` include one called `m`. */
  ghost predicate Declares(methods: seq<MethodDesc>, m: string)
  {
    exists j :: 0 <= j < |methods| && methods[j].fullName == m
  }

  lemma DeclaresTail(methods: seq<MethodDesc>)
    requires methods != []
    ensures forall x :: Declares(methods, x) <==> x == methods[0].fullName || Declares(methods[1..], x)
  {
    forall x | Declares(methods, x)
      ensures x == methods[0].fullName || Declares(methods[1..], x)
    {
      var j :| 0 <= j < |methods| && methods[j].fullName == x;
      if j > 0 {
        assert methods[1..][j - 1] == methods[j];
      }
    }
    forall x | Declares(methods[1..], x) ensures Declares(methods, x)
    {
      var j :| 0 <= j < |methods[1..]| && methods[1..][j].fullName == x;
      assert methods[j + 1] == methods[1..][j];
    }
  }

  /** Routes every method of `methods` to `client`. */
  function RouteMethods(routes: map<string, RpcClient>, methods: seq<MethodDesc>, client: RpcClient): (r: map<string, RpcClient>)
    ensures forall m :: Declares(methods, m) ==> m in r && r[m] == client
    ensures forall m :: !Declares(methods, m) ==> (m in r <==> m in routes) && (m in routes ==> r[m] == routes[m])
    decreases |methods|
  {
    if methods == [] then routes
    else
      DeclaresTail(methods);
      RouteMethods(routes[methods[0].fullName := client], methods[1..], client)
  }

  /** Routes every method of every service to `client`, overwriting earlier owners. */
  function RouteServices(routes: map<string, RpcClient>, services: seq<ServiceDesc>, client: RpcClient): (r: map<string, RpcClient>)
    ensures forall m :: Exports(services, m) ==> m in r && r[m] == client
    ensures forall m :: !Exports(services, m) ==> (m in r <==> m in routes) && (m in routes ==> r[m] == routes[m])
    decreases |services|
  {
    if services == [] then routes
    else
      var r0 := RouteMethods(routes, services[0].methods, client);
      var r := RouteServices(r0, services[1..], client);
      assert forall m :: Exports(services, m) <==> Declares(services[0].methods, m) || Exports(services[1..], m)
      by {
        forall m ensures Exports(services, m) ==> Declares(services[0].methods, m) || Exports(services[1..], m)
        {
          if Exports(services, m) {
            var i, j :| 0 <= i < |services| && 0 <= j < |services[i].methods| && services[i].methods[j].fullName == m;
            if i > 0 {
              assert services[1..][i - 1] == services[i];
            }
          }
        }
        forall m | Exports(services[1..], m) ensures Exports(services, m)
        {
          var i, j :| 0 <= i < |services[1..]| && 0 <= j < |services[1..][i].methods| && services[1..][i].methods[j].fullName == m;
          assert services[i + 1] == services[1..][i];
        }
      }
      r
  }

  datatype AddOutcome = AddOutcome(registry: Registry, err: Option<DialError>)

  /** AddUpstream over a batch: stops at the first dial or parse failure, keeping what came before. */
  function AddAll(reg: Registry, confs: seq<UpstreamConf>, dial: Dialer, reflect: Reflector): (o: AddOutcome)
    ensures o.err == None ==> reg.upstreams.Keys <= o.registry.upstreams.Keys
    decreases |confs|
  {
    if confs == [] then AddOutcome(reg, None)
    else
      var conf := confs[0];
      match dial(conf)
      case None => AddOutcome(reg, Some(DialFailed(conf.name)))
      case Some(conn) =>
        match reflect(conn)
        case None => AddOutcome(reg, Some(ParseFailed(conf.name)))
        case Some(services) =>
          var client := RpcClient(conf, conn, services);
          AddAll(Registry(reg.upstreams[conf.name := client], RouteServices(reg.methodClient, services, client)),
                 confs[1..], dial, reflect)
  }

  /** The upstream dials and its services can be listed. */
  predicate Connects(conf: UpstreamConf, dial: Dialer, reflect: Reflector)
  {
    dial(conf).Some? && reflect(dial(conf).value).Some?
  }

  /** The client AddUpstream builds for a conf that connects. */
  function ClientOf(conf: UpstreamConf, dial: Dialer, reflect: Reflector): (c: RpcClient)
    requires Connects(conf, dial, reflect)
    ensures c.conf == conf
  {
    var conn := dial(conf).value;
    RpcClient(conf, conn, reflect(conn).value)
  }

  /** The registry after the first `k` upstreams of a batch, all of which connect. */
  lemma {:induction false} NoRollback(reg: Registry, confs: seq<UpstreamConf>, k: nat, dial: Dialer, reflect: Reflector)
    requires k < |confs|
    requires forall i :: 0 <= i < k ==> Connects(confs[i], dial, reflect)
    requires !Connects(confs[k], dial, reflect)
    ensures AddAll(reg, confs, dial, reflect).err.Some?
    ensures AddAll(reg, confs[..k], dial, reflect).err == None
    ensures AddAll(reg, confs, dial, reflect).registry == AddAll(reg, confs[..k], dial, reflect).registry
    ensures forall i :: 0 <= i < k ==> confs[i].name in AddAll(reg, confs, dial, reflect).registry.upstreams
    decreases k
  {
    if k == 0 {
    } else {
      var c := ClientOf(confs[0], dial, reflect);
      var reg' := Registry(reg.upstreams[confs[0].name := c], RouteServices(reg.methodClient, c.services, c));
      assert confs[1..][..k - 1] == confs[..k][1..];
      NoRollback(reg', confs[1..], k - 1, dial, reflect);
      assert confs[..k][0] == confs[0];
      assert confs[0].name in reg'.upstreams;
      forall i | 1 <= i < k
        ensures confs[i].name in AddAll(reg, confs, dial, reflect).registry.upstreams
      {
        assert confs[1..][i - 1] == confs[i];
      }
    }
  }

  /**
   * One upstream that connects is registered under its name, replacing any
   * namesake, and its client takes over every method it exports.
   */
  lemma AddOne(reg: Registry, conf: UpstreamConf, dial: Dialer, reflect: Reflector)
    requires Connects(conf, dial, reflect)
    ensures var c := ClientOf(conf, dial, reflect);
      AddAll(reg, [conf], dial, reflect) ==
        AddOutcome(Registry(reg.upstreams[conf.name := c], RouteServices(reg.methodClient, c.services, c)), None)
  {
    assert [conf][0] == conf && [conf][1..] == [];
  }

  /** The registry one connecting upstream leaves behind. */
  function Registered(reg: Registry, conf: UpstreamConf, dial: Dialer, reflect: Reflector): (r: Registry)
    requires Connects(conf, dial, reflect)
    ensures conf.name in r.upstreams && r.upstreams[conf.name] == ClientOf(conf, dial, reflect)
    ensures forall n :: n != conf.name ==> (n in r.upstreams <==> n in reg.upstreams)
    ensures forall n :: n != conf.name && n in reg.upstreams ==> r.upstreams[n] == reg.upstreams[n]
  {
    var c := ClientOf(conf, dial, reflect);
    Registry(reg.upstreams[conf.name := c], RouteServices(reg.methodClient, c.services, c))
  }

  /** A batch succeeds exactly when every upstream in it dials and can be listed. */
  lemma {:induction false} AddAllSucceeds(reg: Registry, confs: seq<UpstreamConf>, dial: Dialer, reflect: Reflector)
    ensures AddAll(reg, confs, dial, reflect).err == None <==> forall i :: 0 <= i < |confs| ==> Connects(confs[i], dial, reflect)
    decreases |confs|
  {
    if confs != [] {
      assert forall i :: 1 <= i < |confs| ==> confs[i] == confs[1..][i - 1];
      if Connects(confs[0], dial, reflect) {
        AddAllSucceeds(Registered(reg, confs[0], dial, reflect), confs[1..], dial, reflect);
        assert forall i :: 0 <= i < |confs[1..]| ==> confs[1..][i] == confs[i + 1];
      }
    }
  }

  /** A batch is its first part followed, when that part succeeds, by the rest on the registry it left. */
  lemma {:induction false} AddAllConcat(reg: Registry, a: seq<UpstreamConf>, b: seq<UpstreamConf>, dial: Dialer, reflect: Reflector)
    ensures var o := AddAll(reg, a, dial, reflect);
      AddAll(reg, a + b, dial, reflect) == if o.err == None then AddAll(o.registry, b, dial, reflect) else o
    decreases |a|
  {
    if a == [] {
      assert a + b == b;
    } else {
      assert (a + b)[0] == a[0] && (a + b)[1..] == a[1..] + b;
      if Connects(a[0], dial, reflect) {
        AddAllConcat(Registered(reg, a[0], dial, reflect), a[1..], b, dial, reflect);
      }
    }
  }

  /** After a successful batch, one more upstream that connects is added as AddOne adds it. */
  lemma AddLast(reg: Registry, a: seq<UpstreamConf>, conf: UpstreamConf, dial: Dialer, reflect: Reflector)
    requires AddAll(reg, a, dial, reflect).err == None && Connects(conf, dial, reflect)
    ensures AddAll(reg, a + [conf], dial, reflect) ==
      AddOutcome(Registered(AddAll(reg, a, dial, reflect).registry, conf, dial, reflect), None)
  {
    AddAllConcat(reg, a, [conf], dial, reflect);
    AddOne(AddAll(reg, a, dial, reflect).registry, conf, dial, reflect);
  }

  /** An upstream name no conf of a connecting batch carries keeps its client. */
  lemma {:induction false} AddAllKeepsUpstream(reg: Registry, confs: seq<UpstreamConf>, dial: Dialer, reflect: Reflector, n: string)
    requires forall i :: 0 <= i < |confs| ==> Connects(confs[i], dial, reflect) && confs[i].name != n
    requires n in reg.upstreams
    ensures var r := AddAll(reg, confs, dial, reflect).registry; n in r.upstreams && r.upstreams[n] == reg.upstreams[n]
    decreases |confs|
  {
    if confs != [] {
      assert forall i :: 0 <= i < |confs[1..]| ==> confs[1..][i] == confs[i + 1];
      AddAllKeepsUpstream(Registered(reg, confs[0], dial, reflect), confs[1..], dial, reflect, n);
    }
  }

  /** A method no upstream of a connecting batch exports keeps its route. */
  lemma {:induction false} AddAllKeepsRoute(reg: Registry, confs: seq<UpstreamConf>, dial: Dialer, reflect: Reflector, m: string)
    requires forall i :: 0 <= i < |confs| ==>
      Connects(confs[i], dial, reflect) && !Exports(ClientOf(confs[i], dial, reflect).services, m)
    requires m in reg.methodClient
    ensures var r := AddAll(reg, confs, dial, reflect).registry; m in r.methodClient && r.methodClient[m] == reg.methodClient[m]
    decreases |confs|
  {
    if confs != [] {
      assert forall i :: 0 <= i < |confs[1..]| ==> confs[1..][i] == confs[i + 1];
      AddAllKeepsRoute(Registered(reg, confs[0], dial, reflect), confs[1..], dial, reflect, m);
    }
  }

  /** The batch up to upstream k, then the rest. */
  lemma SplitAt(reg: Registry, confs: seq<UpstreamConf>, k: nat, dial: Dialer, reflect: Reflector)
    requires k < |confs| && forall i :: 0 <= i < |confs| ==> Connects(confs[i], dial, reflect)
    ensures var mid := Registered(AddAll(reg, confs[..k], dial, reflect).registry, confs[k], dial, reflect);
      AddAll(reg, confs, dial, reflect) == AddAll(mid, confs[k + 1..], dial, reflect)
  {
    assert confs == confs[..k] + [confs[k]] + confs[k + 1..];
    AddAllConcat(reg, confs[..k] + [confs[k]], confs[k + 1..], dial, reflect);
    AddAllSucceeds(reg, confs[..k], dial, reflect);
    AddLast(reg, confs[..k], confs[k], dial, reflect);
  }

  /** In a batch that connects, each upstream is registered under its name unless a later one takes that name. */
  lemma AddAllRegisters(reg: Registry, confs: seq<UpstreamConf>, k: nat, dial: Dialer, reflect: Reflector)
    requires k < |confs| && forall i :: 0 <= i < |confs| ==> Connects(confs[i], dial, reflect)
    requires forall j :: k < j < |confs| ==> confs[j].name != confs[k].name
    ensures AddAll(reg, confs, dial, reflect).err == None
    ensures var r := AddAll(reg, confs, dial, reflect).registry;
      confs[k].name in r.upstreams && r.upstreams[confs[k].name] == ClientOf(confs[k], dial, reflect)
  {
    AddAllSucceeds(reg, confs, dial, reflect);
    SplitAt(reg, confs, k, dial, reflect);
    var mid := Registered(AddAll(reg, confs[..k], dial, reflect).registry, confs[k], dial, reflect);
    var tail := confs[k + 1..];
    assert forall i :: 0 <= i < |tail| ==> tail[i] == confs[k + 1 + i];
    AddAllKeepsUpstream(mid, tail, dial, reflect, confs[k].name);
  }

  /** In a batch that connects, a method is routed to the last upstream that exports it. */
  lemma AddAllRoutes(reg: Registry, confs: seq<UpstreamConf>, k: nat, m: string, dial: Dialer, reflect: Reflector)
    requires k < |confs| && forall i :: 0 <= i < |confs| ==> Connects(confs[i], dial, reflect)
    requires Exports(ClientOf(confs[k], dial, reflect).services, m)
    requires forall j :: k < j < |confs| ==> !Exports(ClientOf(confs[j], dial, reflect).services, m)
    ensures AddAll(reg, confs, dial, reflect).err == None
    ensures var r := AddAll(reg, confs, dial, reflect).registry;
      m in r.methodClient && r.methodClient[m] == ClientOf(confs[k], dial, reflect)
  {
    AddAllSucceeds(reg, confs, dial, reflect);
    SplitAt(reg, confs, k, dial, reflect);
    var mid := Registered(AddAll(reg, confs[..k], dial, reflect).registry, confs[k], dial, reflect);
    var tail := confs[k + 1..];
    assert forall i :: 0 <= i < |tail| ==> tail[i] == confs[k + 1 + i];
    AddAllKeepsRoute(mid, tail, dial, reflect, m);
  }

  /** DelUpstream: forgets the upstream but leaves its routes. */
  function Removed(reg: Registry, name: string): (o: AddOutcome)
    ensures name !in reg.upstreams ==> o == AddOutcome(reg, Some(ErrNotFound))
    ensures name in reg.upstreams ==> o.err == None && name !in o.registry.upstreams
    ensures o.registry.methodClient == reg.methodClient
    ensures forall n :: n != name && n in reg.upstreams ==> n in o.registry.upstreams && o.registry.upstreams[n] == reg.upstreams[n]
    ensures o.registry.upstreams.Keys <= reg.upstreams.Keys
  {
    if name !in reg.upstreams then AddOutcome(reg, Some(ErrNotFound))
    else AddOutcome(Registry(reg.upstreams - {name}, reg.methodClient), None)
  }

  /** The first method called `m` among the services, searched in order. */
  function FindMethod(services: seq<ServiceDesc>, m: string): (r: Option<MethodDesc>)
    ensures r.Some? ==> r.value.fullName == m && exists i :: 0 <= i < |services| && r.value in services[i].methods
    ensures r.None? <==> !Exports(services, m)
  {
    if services == [] then None
    else
      match FindIn(services[0].methods, m)
      case Some(d) => Some(d)
      case None =>
        var r := FindMethod(services[1..], m);
        assert r.Some? ==> services[1..][0] == services[1] && exists i :: 0 <= i < |services[1..]| && r.value in services[1..][i].methods;
        assert !Exports(services, m) <==> !Exports(services[1..], m) by {
          if Exports(services, m) {
            var i, j :| 0 <= i < |services| && 0 <= j < |services[i].methods| && services[i].methods[j].fullName == m;
            assert i > 0;
            assert services[1..][i - 1] == services[i];
          }
          if Exports(services[1..], m) {
            var i, j :| 0 <= i < |services[1..]| && 0 <= j < |services[1..][i].methods| && services[1..][i].methods[j].fullName == m;
            assert services[i + 1] == services[1..][i];
          }
        }
        if r.Some? then
          var i :| 0 <= i < |services[1..]| && r.value in services[1..][i].methods;
          assert services[i + 1] == services[1..][i];
          r
        else r
  }

  function FindIn(methods: seq<MethodDesc>, m: string): (r: Option<MethodDesc>)
    ensures r.Some? ==> r.value.fullName == m && r.value in methods
    ensures r.None? <==> !Declares(methods, m)
  {
    if methods == [] then None
    else if methods[0].fullName == m then Some(methods[0])
    else FindIn(methods[1..], m)
  }

  /** The routing answer MethodDetail gives. */
  function Detail(reg: Registry, m: string): (r: Result<MethodDesc, DialError>)
    ensures r.Ok? ==> m in reg.methodClient && r.value.fullName == m
    ensures m !in reg.methodClient ==> r == Err(ErrNotFound)
    ensures m in reg.methodClient && Exports(reg.methodClient[m].services, m) ==> r.Ok?
  {
    if m !in reg.methodClient then Err(ErrNotFound)
    else match FindMethod(reg.methodClient[m].services, m)
      case Some(d) => Ok(d)
      case None => Err(ErrNotFound)
  }

  /** `resp[svc]` lists `m`. */
  predicate Listed(resp: map<string, seq<string>>, svc: string, m: string)
  {
    svc in resp && m in resp[svc]
  }

  /** `services` declare method `m` under service `svc`. */
  ghost predicate Offers(services: seq<ServiceDesc>, svc: string, m: string)
  {
    exists i, j :: 0 <= i < |services| && 0 <= j < |services[i].methods| &&
      services[i].fullName == svc && services[i].methods[j].fullName == m
  }

  function Append(resp: map<string, seq<string>>, svc: string, m: string): (r: map<string, seq<string>>)
    ensures forall s, x :: Listed(r, s, x) <==> Listed(resp, s, x) || (s == svc && x == m)
  {
    resp[svc := (if svc in resp then resp[svc] else []) + [m]]
  }

  /** Appends each method's full name under the service's full name. */
  function GroupMethods(resp: map<string, seq<string>>, svc: string, methods: seq<MethodDesc>): (r: map<string, seq<string>>)
    ensures forall s, x :: Listed(r, s, x) <==> Listed(resp, s, x) || (s == svc && Declares(methods, x))
    decreases |methods|
  {
    if methods == [] then resp
    else
      DeclaresTail(methods);
      GroupMethods(Append(resp, svc, methods[0].fullName), svc, methods[1..])
  }

  function GroupServices(resp: map<string, seq<string>>, services: seq<ServiceDesc>): (r: map<string, seq<string>>)
    ensures forall s, x :: Listed(r, s, x) <==> Listed(resp, s, x) || Offers(services, s, x)
    decreases |services|
  {
    if services == [] then resp
    else
      var r := GroupServices(GroupMethods(resp, services[0].fullName, services[0].methods), services[1..]);
      assert forall s, x :: Offers(services, s, x) <==>
        (s == services[0].fullName && Declares(services[0].methods, x)) || Offers(services[1..], s, x)
      by {
        forall s, x | Offers(services, s, x)
          ensures (s == services[0].fullName && Declares(services[0].methods, x)) || Offers(services[1..], s, x)
        {
          var i, j :| 0 <= i < |services| && 0 <= j < |services[i].methods| &&
            services[i].fullName == s && services[i].methods[j].fullName == x;
          if i > 0 {
            assert services[1..][i - 1] == services[i];
          }
        }
        forall s, x | Offers(services[1..], s, x) ensures Offers(services, s, x)
        {
          var i, j :| 0 <= i < |services[1..]| && 0 <= j < |services[1..][i].methods| &&
            services[1..][i].fullName == s && services[1..][i].methods[j].fullName == x;
          assert services[i + 1] == services[1..][i];
        }
      }
      r
  }

  class Manager {
    var upstreams: map<string, RpcClient>
    var methodClient: map<string, RpcClient>

    function State(): Registry
      reads this
    {
      Registry(upstreams, methodClient)
    }

    constructor ()
      ensures upstreams == map[] && methodClient == map[]
    {
      upstreams := map[];
      methodClient := map[];
    }

    method AddUpstream(confs: seq<UpstreamConf>, dial: Dialer, reflect: Reflector) returns (err: Option<DialError>)
      modifies this
      ensures AddOutcome(State(), err) == AddAll(old(State()), confs, dial, reflect)
    {
      var i := 0;
      while i < |confs|
        invariant i <= |confs|
        invariant AddAll(State(), confs[i..], dial, reflect) == AddAll(old(State()), confs, dial, reflect)
      {
        var upstream := confs[i];
        assert confs[i..][0] == upstream && confs[i..][1..] == confs[i + 1..];
        var conn := dial(upstream);
        if conn.None? {
          return Some(DialFailed(upstream.name));
        }
        var services := reflect(conn.value);
        if services.None? {
          return Some(ParseFailed(upstream.name));
        }
        var client := RpcClient(upstream, conn.value, services.value);
        ghost var ups0, routes0 := upstreams, methodClient;
        var k := 0;
        while k < |services.value|
          invariant k <= |services.value|
          invariant RouteServices(methodClient, services.value[k..], client) ==
                    RouteServices(routes0, services.value, client)
          invariant upstreams == ups0
        {
          var svc := services.value[k];
          assert services.value[k..][0] == svc && services.value[k..][1..] == services.value[k + 1..];
          var j := 0;
          ghost var before := methodClient;
          while j < |svc.methods|
            invariant j <= |svc.methods|
            invariant RouteMethods(methodClient, svc.methods[j..], client) == RouteMethods(before, svc.methods, client)
            invariant upstreams == ups0
          {
            assert svc.methods[j..][0] == svc.methods[j] && svc.methods[j..][1..] == svc.methods[j + 1..];
            methodClient := methodClient[svc.methods[j].fullName := client];
            j := j + 1;
          }
          k := k + 1;
        }
        upstreams := upstreams[upstream.name := client];
        i := i + 1;
      }
      err := None;
    }

    method DelUpstream(name: string) returns (err: Option<DialError>)
      modifies this
      ensures AddOutcome(State(), err) == Removed(old(State()), name)
    {
      if name !in upstreams {
        return Some(ErrNotFound);
      }
      upstreams := upstreams - {name};
      err := None;
    }

    /** Upstream: the stored configuration, or an error for an unknown name. */
    method Upstream(name: string) returns (r: Result<UpstreamConf, DialError>)
      ensures r.Ok? <==> name in upstreams
      ensures r.Ok? ==> r.value == upstreams[name].conf && r.value.name == upstreams[name].conf.name
      ensures r.Err? ==> r.error == UpstreamNotFound
    {
      if name !in upstreams {
        return Err(UpstreamNotFound);
      }
      r := Ok(upstreams[name].conf);
    }

    /** Upstreams: the configuration of every registered upstream, in map iteration order. */
    method Upstreams() returns (confs: seq<UpstreamConf>)
      ensures |confs| == |upstreams|
      ensures forall n :: n in upstreams ==> upstreams[n].conf in confs
      ensures forall i :: 0 <= i < |confs| ==> exists n :: n in upstreams && upstreams[n].conf == confs[i]
    {
      var left := upstreams.Keys;
      confs := [];
      while left != {}
        invariant left <= upstreams.Keys
        invariant |confs| + |left| == |upstreams|
        invariant forall n :: n in upstreams && n !in left ==> upstreams[n].conf in confs
        invariant forall i :: 0 <= i < |confs| ==> exists n :: n in upstreams && upstreams[n].conf == confs[i]
      {
        var n :| n in left;
        confs := confs + [upstreams[n].conf];
        left := left - {n};
      }
    }

    /** Methods: method full names grouped by service full name, over all registered upstreams. */
    method Methods() returns (resp: map<string, seq<string>>)
      ensures forall svc, m :: Listed(resp, svc, m) <==>
        exists n :: n in upstreams && Offers(upstreams[n].services, svc, m)
    {
      var left := upstreams.Keys;
      resp := map[];
      while left != {}
        invariant left <= upstreams.Keys
        invariant forall svc, m :: Listed(resp, svc, m) <==>
          exists n :: n in upstreams && n !in left && Offers(upstreams[n].services, svc, m)
      {
        var n :| n in left;
        var services := upstreams[n].services;
        ghost var before := resp;
        var i := 0;
        while i < |services|
          invariant i <= |services|
          invariant GroupServices(resp, services[i..]) == GroupServices(before, services)
        {
          assert services[i..][0] == services[i] && services[i..][1..] == services[i + 1..];
          var methods := services[i].methods;
          var j := 0;
          ghost var mid := resp;
          while j < |methods|
            invariant j <= |methods|
            invariant GroupMethods(resp, services[i].fullName, methods[j..]) == GroupMethods(mid, services[i].fullName, methods)
          {
            assert methods[j..][0] == methods[j] && methods[j..][1..] == methods[j + 1..];
            resp := Append(resp, services[i].fullName, methods[j].fullName);
            j := j + 1;
          }
          i := i + 1;
        }
        left := left - {n};
      }
    }

    /** MethodDetail: the descriptor of `m` held by the client that routes it. */
    method MethodDetail(m: string) returns (r: Result<MethodDesc, DialError>)
      ensures r == Detail(State(), m)
    {
      if m !in methodClient {
        return Err(ErrNotFound);
      }
      var services := methodClient[m].services;
      var i := 0;
      while i < |services|
        invariant i <= |services|
        invariant FindMethod(services[i..], m) == FindMethod(services, m)
      {
        assert services[i..][0] == services[i] && services[i..][1..] == services[i + 1..];
        var methods := services[i].methods;
        var j := 0;
        while j < |methods|
          invariant j <= |methods|
          invariant FindIn(methods[j..], m) == FindIn(methods, m)
        {
          assert methods[j..][0] == methods[j] && methods[j..][1..] == methods[j + 1..];
          if methods[j].fullName == m {
            return Ok(methods[j]);
          }
          j := j + 1;
        }
        i := i + 1;
      }
      r := Err(ErrNotFound);
    }

    /** UpstreamClient: the connection of the client routing `m`, by exact key. */
    method UpstreamClient(m: string) returns (r: Result<Conn, DialError>)
      ensures r.Ok? <==> m in methodClient
      ensures r.Ok? ==> r.value == methodClient[m].conn
      ensures r.Err? ==> r.error == ErrNotFound
    {
      if m !in methodClient {
        return Err(ErrNotFound);
      }
      r := Ok(methodClient[m].conn);
    }
  }
}
