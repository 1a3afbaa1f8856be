/**
 The Go configuration build: middleware configurations, to which the middleware that high-level
 routes refer to by default is added, and routes, which are expanded and normalised in a second pass.
 Go's map iteration order is arbitrary; the build is described by relations that hold for every order.
 */
module RouteClosure {
  import opened Bytes
  import opened Text
  import opened BusSelection
  import opened RoutePlans

  datatype Payload = Payload(format: string, typ: string)

  // interfaceType is msg_type of topics and service_type of services; labels are the names and
  // addresses that a binding may be called after.
  datatype Route = Route(
    enabled: Option<bool>,
    name: string,
    data: string,
    dataFormat: string,
    typ: string,
    transport: string,
    middleware: string,
    middlewares: seq<string>,
    adapter: string,
    messageType: string,
    interfaceType: string,
    rosType: string,
    payload: Payload,
    metadata: map<string, string>,
    securityProfile: string,
    labels: seq<string>,
    bindings: seq<Route>,
    routes: seq<Route>)

  datatype Middleware = Middleware(enabled: Option<bool>, transport: string, name: string)

  datatype Config = Config(
    middleware: map<string, Middleware>,
    topics: map<string, Route>,
    topicRoutes: map<string, Route>,
    services: map<string, Route>,
    serviceRoutes: map<string, Route>)

  datatype Bus = Bus(transport: TransportKind, name: string)

  predicate Enabled(flag: Option<bool>) {
    flag.None? || flag.value
  }

  // ----- Names

  predicate IsAlphanumeric(c: char) {
    'a' <= c <= 'z' || 'A' <= c <= 'Z' || '0' <= c <= '9'
  }

  function TrimUnderscores(s: string): string
    decreases |s|
  {
    if s != "" && s[0] == '_' then TrimUnderscores(s[1..])
    else if s != "" && s[|s| - 1] == '_' then TrimUnderscores(s[..|s| - 1])
    else s
  }

  function RouteName(value: string): string {
    TrimUnderscores(seq(|value|, i requires 0 <= i < |value| => if IsAlphanumeric(value[i]) then value[i] else '_'))
  }

  // ----- Routes

  function TypeOf(kind: Kind, r: Route): string {
    match kind
    case Topic => FirstNonBlank([r.payload.typ, r.typ, r.messageType, r.interfaceType, r.rosType])
    case Service => FirstNonBlank([r.payload.typ, r.typ, r.interfaceType, r.messageType, r.rosType])
  }

  predicate IsHighLevel(r: Route) {
    && FirstNonBlank([r.data, r.dataFormat, r.typ, r.payload.format, r.payload.typ, r.messageType, r.interfaceType, r.rosType, r.middleware]) != ""
    && r.transport == "" && r.bindings == [] && r.routes == []
  }

  function Bindings(r: Route): seq<Route> {
    if r.bindings != [] then r.bindings else r.routes
  }

  // One of a route's `middlewares`.
  function Single(r: Route, middleware: string): Route {
    r.(middleware := middleware, middlewares := [], bindings := [], routes := [])
  }

  function Merge(base: Route, b: Route): Route {
    base.(enabled := if b.enabled.Some? then b.enabled else base.enabled,
          name := DefaultString(b.name, base.name),
          data := DefaultString(b.data, base.data),
          dataFormat := DefaultString(b.dataFormat, base.dataFormat),
          typ := DefaultString(b.typ, base.typ),
          transport := DefaultString(b.transport, base.transport),
          middleware := DefaultString(b.middleware, base.middleware),
          adapter := DefaultString(b.adapter, base.adapter),
          messageType := DefaultString(b.messageType, base.messageType),
          interfaceType := DefaultString(b.interfaceType, base.interfaceType),
          rosType := DefaultString(b.rosType, base.rosType),
          payload := if b.payload.typ != "" || b.payload.format != "" then b.payload else base.payload,
          metadata := base.metadata + b.metadata,
          securityProfile := DefaultString(b.securityProfile, base.securityProfile),
          labels := seq(|base.labels|, i requires 0 <= i < |base.labels| =>
                          if i < |b.labels| then DefaultString(b.labels[i], base.labels[i]) else base.labels[i]))
  }

  // A binding that gives nothing, for labels as many as given.
  ghost predicate GivesNothing(b: Route, labels: nat) {
    && b.enabled.None? && Blank(b.name) && Blank(b.data) && Blank(b.dataFormat) && Blank(b.typ) && Blank(b.transport)
    && Blank(b.middleware) && Blank(b.adapter) && Blank(b.messageType) && Blank(b.interfaceType) && Blank(b.rosType)
    && b.payload == Payload("", "") && b.metadata == map[] && Blank(b.securityProfile)
    && forall i :: 0 <= i < |b.labels| && i < labels ==> Blank(b.labels[i])
  }

  ghost predicate GivesEverything(b: Route, labels: nat) {
    && b.enabled.Some? && !Blank(b.name) && !Blank(b.data) && !Blank(b.dataFormat) && !Blank(b.typ) && !Blank(b.transport)
    && !Blank(b.middleware) && !Blank(b.adapter) && !Blank(b.messageType) && !Blank(b.interfaceType) && !Blank(b.rosType)
    && b.payload != Payload("", "") && !Blank(b.securityProfile)
    && |b.labels| == labels && forall i :: 0 <= i < labels ==> !Blank(b.labels[i])
  }

  /** Merging a binding that gives nothing changes nothing; one that gives everything replaces all but the
      nested lists and the metadata, where its entries win; and merging twice is merging the merged. */
  lemma MergeLaws(base: Route, b: Route, c: Route)
    requires |base.labels| == |b.labels| == |c.labels|
    ensures GivesNothing(b, |base.labels|) ==> Merge(base, b) == base
    ensures GivesEverything(b, |base.labels|) ==>
              Merge(base, b) == b.(metadata := base.metadata + b.metadata, middlewares := base.middlewares,
                                   bindings := base.bindings, routes := base.routes)
    ensures Merge(Merge(base, b), c) == Merge(base, Merge(b, c))
  {
    hide Blank;
    assert base.metadata + map[] == base.metadata;
    assert (base.metadata + b.metadata) + c.metadata == base.metadata + (b.metadata + c.metadata);
    LabelLaws(base, b, c);
  }

  lemma LabelLaws(base: Route, b: Route, c: Route)
    requires |base.labels| == |b.labels| == |c.labels|
    ensures GivesNothing(b, |base.labels|) ==> Merge(base, b).labels == base.labels
    ensures GivesEverything(b, |base.labels|) ==> Merge(base, b).labels == b.labels
    ensures Merge(Merge(base, b), c).labels == Merge(base, Merge(b, c)).labels
  {
    hide Blank;
  }

  /** A name made of a middleware's has only letters, digits and inner underscores, and a name of that
      kind stays. */
  ghost predicate ProperRouteName(s: string) {
    && (forall i :: 0 <= i < |s| ==> IsAlphanumeric(s[i]) || s[i] == '_')
    && (s != "" ==> s[0] != '_' && s[|s| - 1] != '_')
  }

  lemma {:induction false} TrimmedUnderscores(s: string)
    ensures var t := TrimUnderscores(s);
            && (t != "" ==> t[0] != '_' && t[|t| - 1] != '_')
            && forall c :: c in t ==> c in s
    decreases |s|
  {
    if s != "" && s[0] == '_' {
      TrimmedUnderscores(s[1..]);
    } else if s != "" && s[|s| - 1] == '_' {
      TrimmedUnderscores(s[..|s| - 1]);
    }
  }

  lemma RouteNameShape(value: string)
    ensures ProperRouteName(RouteName(value))
    ensures ProperRouteName(value) ==> RouteName(value) == value
  {
    var s := seq(|value|, i requires 0 <= i < |value| => if IsAlphanumeric(value[i]) then value[i] else '_');
    TrimmedUnderscores(s);
    var t := RouteName(value);
    forall i | 0 <= i < |t|
      ensures IsAlphanumeric(t[i]) || t[i] == '_'
    {
      assert t[i] in t;
    }
    if ProperRouteName(value) {
      assert s == value;
    }
  }

  // What expandMiddleware may put under a key.
  ghost predicate Yields(routes: map<string, Route>, key: string, item: Route) {
    exists name :: name in routes && YieldsFrom(routes[name], name, key, item)
  }

  ghost predicate YieldsFrom(r: Route, name: string, key: string, item: Route) {
    if r.middlewares == [] then key == name && item == r
    else exists i :: 0 <= i < |r.middlewares| && key == name + "_" + RouteName(r.middlewares[i]) && item == Single(r, r.middlewares[i])
  }

  // A possible result of expandMiddleware: when two items have one key, either may stay.
  ghost predicate Expansion(routes: map<string, Route>, out: map<string, Route>) {
    && (forall key :: key in out ==> Yields(routes, key, out[key]))
    && (forall key, item :: Yields(routes, key, item) ==> key in out)
  }

  ghost predicate NoCollision(routes: map<string, Route>) {
    forall key, x, y :: Yields(routes, key, x) && Yields(routes, key, y) ==> x == y
  }

  method ExpandMiddleware(routes: map<string, Route>) returns (expanded: map<string, Route>)
    ensures Expansion(routes, expanded)
  {
    hide RouteName, Single;
    expanded := map[];
    var rest := routes.Keys;
    while rest != {}
      invariant rest <= routes.Keys
      invariant forall key :: key in expanded ==> Yields(routes, key, expanded[key])
      invariant forall name, key, item :: name in routes && name !in rest && YieldsFrom(routes[name], name, key, item) ==> key in expanded
      decreases |rest|
    {
      var name :| name in rest;
      var route := routes[name];
      if |route.middlewares| == 0 {
        assert YieldsFrom(route, name, name, route);
        expanded := expanded[name := route];
      } else {
        for i := 0 to |route.middlewares|
          invariant forall key :: key in expanded ==> Yields(routes, key, expanded[key])
          invariant forall other, key, item :: other in routes && other !in rest && YieldsFrom(routes[other], other, key, item) ==> key in expanded
          invariant forall j :: 0 <= j < i ==> name + "_" + RouteName(route.middlewares[j]) in expanded
        {
          var key, item := name + "_" + RouteName(route.middlewares[i]), Single(route, route.middlewares[i]);
          assert YieldsFrom(route, name, key, item);
          expanded := expanded[key := item];
        }
      }
      rest := rest - {name};
    }
  }

  // ----- First pass: the middleware routes refer to

  // The plan by which a route refers to default middleware, if it does.
  function Reference(kind: Kind, r: Route): Option<Plan> {
    if !IsHighLevel(r) || r.middleware == "" then None
    else
      var data := FirstNonBlank([r.data, r.dataFormat, r.payload.format]);
      match ExecutionPlan(kind, r.middleware, FormatFor(kind, data, TypeOf(kind, r)))
      case Failure(_) => None
      case Success(plan) => Some(plan)
  }

  ghost predicate Refers(kind: Kind, expanded: map<string, Route>, runtime: string) {
    exists key :: key in expanded && Reference(kind, expanded[key]).Some?
                  && Reference(kind, expanded[key]).value.RuntimeMiddlewareName() == runtime
  }

  // The default buses by name.  Merging a binding keeps the nested lists, so it never refers to anything.
  method AddReferences(kind: Kind, routes: map<string, Route>, seen: map<string, TransportKind>)
    returns (out: map<string, TransportKind>, ghost expanded: map<string, Route>)
    requires forall n :: n in seen ==> seen[n] == RuntimeTransport(n)
    ensures Expansion(routes, expanded)
    ensures forall n :: n in out <==> n in seen || Refers(kind, expanded, n)
    ensures forall n :: n in out ==> out[n] == RuntimeTransport(n)
  {
    hide Expansion, FormatFor, RuntimeTransport, Blank, NormalizeRouteMiddlewareProtocol, IsNativeDds, PlanOf, IsHighLevel, TypeOf;
    out := seen;
    var items := ExpandMiddleware(routes);
    expanded := items;
    var rest := items.Keys;
    while rest != {}
      invariant rest <= items.Keys
      invariant forall n :: n in out ==> n in seen || Refers(kind, items, n)
      invariant forall n :: n in seen ==> n in out
      invariant forall key :: key in items && key !in rest && Reference(kind, items[key]).Some? ==>
                  Reference(kind, items[key]).value.RuntimeMiddlewareName() in out
      invariant forall n :: n in out ==> out[n] == RuntimeTransport(n)
      decreases |rest|
    {
      var key :| key in rest;
      var route := items[key];
      out := AddReference(kind, route, out);
      for i := 0 to |Bindings(route)|
        invariant forall n :: n in out ==> n in seen || Refers(kind, items, n)
        invariant forall n :: n in seen ==> n in out
        invariant forall k :: k in items && (k !in rest || k == key) && Reference(kind, items[k]).Some? ==>
                    Reference(kind, items[k]).value.RuntimeMiddlewareName() in out
        invariant forall n :: n in out ==> out[n] == RuntimeTransport(n)
      {
        MergedBindingRefersToNothing(kind, route, Bindings(route)[i]);
        out := AddReference(kind, Merge(route, Bindings(route)[i]), out);
      }
      rest := rest - {key};
    }
  }

  method AddReference(kind: Kind, route: Route, seen: map<string, TransportKind>) returns (out: map<string, TransportKind>)
    requires forall n :: n in seen ==> seen[n] == RuntimeTransport(n)
    ensures out == match Reference(kind, route)
                   case None => seen
                   case Some(plan) => seen[plan.RuntimeMiddlewareName() := RuntimeTransport(plan.RuntimeMiddlewareName())]
  {
    hide FormatFor, RuntimeTransport, Blank, NormalizeRouteMiddlewareProtocol, IsNativeDds, PlanOf;
    out := seen;
    if !IsHighLevel(route) || route.middleware == "" {
      return;
    }
    var data := FirstNonBlank([route.data, route.dataFormat, route.payload.format]);
    var plan := ExecutionPlan(kind, route.middleware, FormatFor(kind, data, TypeOf(kind, route)));
    if plan.Failure? {
      return;
    }
    ExecutionPlanAgrees(kind, route.middleware, FormatFor(kind, data, TypeOf(kind, route)));
    out := out[plan.value.RuntimeMiddlewareName() := plan.value.transport];
  }

  lemma ExecutionPlanAgrees(kind: Kind, protocol: string, data: string)
    requires ExecutionPlan(kind, protocol, data).Success?
    ensures var p := ExecutionPlan(kind, protocol, data).value;
            && !Blank(p.transportName) && NormalizeServiceTransport(p.transportName) == Success(p.transport)
            && !Blank(p.RuntimeMiddlewareName()) && RuntimeTransport(p.RuntimeMiddlewareName()) == p.transport
  {
    hide PlanOf, NormalizeServiceTransport, RuntimeTransport, NormalizeRouteMiddlewareProtocol, Token, Blank;
    PlanAgrees(kind, NormalizeRouteMiddlewareProtocol(protocol).value, IsNativeDds(kind, Format(kind, data)));
  }

  /** Go's merged binding routes keep the list they come from, so the first pass passes them over. */
  lemma MergedBindingRefersToNothing(kind: Kind, route: Route, binding: Route)
    requires Bindings(route) != []
    ensures Reference(kind, Merge(route, binding)) == None
  {
  }

  // ----- The bus map

  // A configured middleware that is not disabled.
  predicate Explicit(c: Config, name: string) {
    name in c.middleware && Enabled(c.middleware[name].enabled)
  }

  function ExplicitTransport(c: Config, name: string): Result<TransportKind>
    requires name in c.middleware
  {
    NormalizeServiceTransport(DefaultString(c.middleware[name].transport, name))
  }

  // The expansions the first pass went through.
  datatype Expansions = Expansions(topics: map<string, Route>, topicRoutes: map<string, Route>,
                                   services: map<string, Route>, serviceRoutes: map<string, Route>)
  {
    ghost predicate Of(c: Config) {
      && Expansion(c.topics, topics) && Expansion(c.topicRoutes, topicRoutes)
      && Expansion(c.services, services) && Expansion(c.serviceRoutes, serviceRoutes)
    }

    ghost predicate Referred(runtime: string) {
      || Refers(Topic, topics, runtime) || Refers(Topic, topicRoutes, runtime)
      || Refers(Service, services, runtime) || Refers(Service, serviceRoutes, runtime)
    }
  }

  ghost predicate Buses(c: Config, e: Expansions, buses: map<string, Bus>) {
    && e.Of(c)
    && (forall n :: n in buses <==> Explicit(c, n) || e.Referred(n))
    && (forall n :: n in buses ==>
          if Explicit(c, n) then Success(buses[n].transport) == ExplicitTransport(c, n) && buses[n].name == c.middleware[n].name
          else buses[n] == Bus(RuntimeTransport(n), n))
  }

  method MiddlewareConfigs(c: Config) returns (r: Result<map<string, Bus>>, ghost e: Expansions)
    ensures r.Success? ==> Buses(c, e, r.value)
    ensures r.Failure? ==> exists n :: Explicit(c, n) && ExplicitTransport(c, n).Failure?
  {
    hide NormalizeServiceTransport, RuntimeTransport, DefaultString, Expansion, Refers;
    e := Expansions(map[], map[], map[], map[]);
    var configs: map<string, Bus> := map[];
    var rest := c.middleware.Keys;
    while rest != {}
      invariant rest <= c.middleware.Keys
      invariant forall n :: n in configs <==> Explicit(c, n) && n !in rest
      invariant forall n :: n in configs ==> Success(configs[n].transport) == ExplicitTransport(c, n) && configs[n].name == c.middleware[n].name
      decreases |rest|
    {
      var name :| name in rest;
      rest := rest - {name};
      if !Enabled(c.middleware[name].enabled) {
        continue;
      }
      var transport := ExplicitTransport(c, name);
      if transport.Failure? {
        assert Explicit(c, name);
        r := Failure(transport.error);
        return;
      }
      configs := configs[name := Bus(transport.value, c.middleware[name].name)];
    }
    ghost var e1, e2, e3, e4;
    var seen: map<string, TransportKind> := map[];
    seen, e1 := AddReferences(Topic, c.topics, seen);
    seen, e2 := AddReferences(Topic, c.topicRoutes, seen);
    seen, e3 := AddReferences(Service, c.services, seen);
    seen, e4 := AddReferences(Service, c.serviceRoutes, seen);
    e := Expansions(e1, e2, e3, e4);
    configs := WithReferences(configs, seen);
    r := Success(configs);
  }

  // The referenced buses that are not configured.
  method WithReferences(explicit: map<string, Bus>, seen: map<string, TransportKind>) returns (configs: map<string, Bus>)
    ensures forall n :: n in configs <==> n in explicit || n in seen
    ensures forall n :: n in configs ==> configs[n] == if n in explicit then explicit[n] else Bus(seen[n], n)
  {
    configs := explicit;
    var refs := seen.Keys;
    while refs != {}
      invariant refs <= seen.Keys
      invariant forall n :: n in configs <==> n in explicit || (n in seen && n !in refs)
      invariant forall n :: n in configs ==> configs[n] == if n in explicit then explicit[n] else Bus(seen[n], n)
      decreases |refs|
    {
      var name :| name in refs;
      refs := refs - {name};
      if name in configs {
        continue;
      }
      configs := configs[name := Bus(seen[name], name)];
    }
  }

  // ----- Second pass: expansion and normalisation

  function PutExecutionMetadata(metadata: map<string, string>, plan: Plan): map<string, string> {
    metadata
    + (if plan.logicalProtocol != "" then map["middleware.family" := plan.logicalProtocol] else map[])
    + (if plan.RuntimeMiddlewareName() != "" then map["middleware.runtime" := plan.RuntimeMiddlewareName()] else map[])
    + (if plan.implementation != "" then map["middleware.implementation" := plan.implementation, "implementation" := plan.implementation] else map[])
    + (if plan.implementation == "rmw_cyclonedds" then map["rmw_implementation" := "rmw_cyclonedds_cpp"]
       else if plan.implementation == "rmw_fastrtps" then map["rmw_implementation" := "rmw_fastrtps_cpp"] else map[])
  }

  function ValueAt(metadata: map<string, string>, key: string): string {
    if key in metadata then metadata[key] else ""
  }

  function RouteAdapter(adapter: string, metadata: map<string, string>): string {
    Token(FirstNonBlank([adapter, ValueAt(metadata, "adapter"), ValueAt(metadata, "ros2.adapter")]))
  }

  function Normalized(kind: Kind, r: Route): Result<Route> {
    if !IsHighLevel(r) then Success(r)
    else
      var data := FirstNonBlank([r.data, r.dataFormat, r.payload.format]);
      var typ := TypeOf(kind, r);
      var format := FormatFor(kind, data, typ);
      var plan :- ExecutionPlan(kind, r.middleware, format);
      var payload := Payload(if r.payload.format == "" then format else r.payload.format,
                             if r.payload.typ == "" then typ else r.payload.typ);
      var metadata := PutExecutionMetadata(r.metadata, plan);
      var wraps := if kind.Topic? then plan.transportName == "ros2_topic" && payload.format == "protobuf"
                   else plan.transportName == "ros2_service" && payload.format == "protobuf_rpc";
      Success(r.(transport := plan.transportName,
                 middleware := if plan.middlewareName != "" then plan.middlewareName else r.middleware,
                 payload := payload,
                 messageType := if kind.Topic? && payload.format == "ros2_msg" && r.messageType == "" then payload.typ else r.messageType,
                 interfaceType := if kind.Service? && payload.format == "ros2_srv" && r.interfaceType == "" then payload.typ else r.interfaceType,
                 metadata := metadata,
                 adapter := if wraps && RouteAdapter(r.adapter, metadata) == "" then "ros2_proto_envelope" else r.adapter))
  }

  // routeMetadata and putSecurityMetadata.
  function RouteMetadata(metadata: map<string, string>, middleware: string, source: string, profile: string): map<string, string> {
    var named := metadata + if Blank(middleware) then map[] else map["middleware" := Trim(middleware)];
    var sourced := if Blank(source) then named
                   else named + map["source_name" := Trim(source)]
                        + if Blank(ValueAt(named, "logical_route")) then map["logical_route" := Trim(source)] else map[];
    sourced + if Blank(profile) then map[] else map["security.profile" := Trim(profile)]
  }

  function Finished(r: Route, name: string): Route {
    r.(metadata := RouteMetadata(r.metadata, r.middleware, name, r.securityProfile))
  }

  function BindingName(r: Route, index: nat): string {
    var parts := NonBlank([r.name, r.middleware, r.transport] + r.labels);
    if parts == [] then "binding_" + Decimal(index) else Join(parts, "_")
  }

  function NonBlank(values: seq<string>): seq<string> {
    if values == [] then [] else (if Blank(values[0]) then [] else [Trim(values[0])]) + NonBlank(values[1..])
  }

  lemma WrittenEntries(metadata: map<string, string>, p: Plan)
    ensures var m := PutExecutionMetadata(metadata, p);
            && (p.logicalProtocol != "" ==> ValueAt(m, "middleware.family") == p.logicalProtocol)
            && (p.RuntimeMiddlewareName() != "" ==> ValueAt(m, "middleware.runtime") == p.RuntimeMiddlewareName())
            && (p.implementation != "" ==>
                  ValueAt(m, "middleware.implementation") == p.implementation && ValueAt(m, "implementation") == p.implementation)
  {
    hide Plan.RuntimeMiddlewareName;
  }

  lemma WrittenRmw(metadata: map<string, string>, p: Plan)
    ensures ValueAt(PutExecutionMetadata(metadata, p), "rmw_implementation")
         == if p.implementation == "rmw_cyclonedds" then "rmw_cyclonedds_cpp"
            else if p.implementation == "rmw_fastrtps" then "rmw_fastrtps_cpp"
            else ValueAt(metadata, "rmw_implementation")
  {
    hide Plan.RuntimeMiddlewareName;
  }

  const EXECUTION_KEYS := ["middleware.family", "middleware.runtime", "middleware.implementation", "implementation", "rmw_implementation"]

  lemma OthersKept(metadata: map<string, string>, p: Plan, key: string)
    requires key !in EXECUTION_KEYS
    ensures var m := PutExecutionMetadata(metadata, p);
            (key in m <==> key in metadata) && ValueAt(m, key) == ValueAt(metadata, key)
  {
    hide Plan.RuntimeMiddlewareName;
  }

  lemma RmwNames(kind: Kind, protocol: Protocol, native: bool)
    ensures var p := PlanOf(kind, protocol, native);
            && p.logicalProtocol == p.middlewareName != "" && p.RuntimeMiddlewareName() != ""
            && if p.transport.Ros2? && p.middlewareName in ["cyclonedds", "fastdds"]
               then p.implementation in ["rmw_cyclonedds", "rmw_fastrtps"]
               else p.implementation !in ["rmw_cyclonedds", "rmw_fastrtps"]
    ensures var p := PlanOf(kind, protocol, native);
            p.middlewareName in ["cyclonedds", "fastdds"] ==> p.implementation != ""
  {
    RuntimeName(kind, protocol, native);
    hide Blank;
  }

  /** What the execution plan leaves in the metadata: how the middleware runs, with rmw_implementation
      exactly for DDS over ROS2; every other entry stays. */
  lemma ExecutionMetadata(metadata: map<string, string>, kind: Kind, protocol: Protocol, native: bool)
    ensures var p := PlanOf(kind, protocol, native);
            var m := PutExecutionMetadata(metadata, p);
            && ValueAt(m, "middleware.family") == p.middlewareName
            && ValueAt(m, "middleware.runtime") == p.RuntimeMiddlewareName()
            && (p.middlewareName in ["cyclonedds", "fastdds"] ==>
                  ValueAt(m, "middleware.implementation") == p.implementation && ValueAt(m, "implementation") == p.implementation)
            && ValueAt(m, "rmw_implementation") == (if p.transport.Ros2? && p.middlewareName in ["cyclonedds", "fastdds"]
                                                    then p.implementation + "_cpp" else ValueAt(metadata, "rmw_implementation"))
            && forall key :: key !in EXECUTION_KEYS ==> (key in m <==> key in metadata) && ValueAt(m, key) == ValueAt(metadata, key)
  {
    hide PlanOf, PutExecutionMetadata, ValueAt, Plan.RuntimeMiddlewareName;
    var p := PlanOf(kind, protocol, native);
    RmwNames(kind, protocol, native);
    WrittenEntries(metadata, p);
    WrittenRmw(metadata, p);
    assert "rmw_cyclonedds" + "_cpp" == "rmw_cyclonedds_cpp" && "rmw_fastrtps" + "_cpp" == "rmw_fastrtps_cpp";
    forall key | key !in EXECUTION_KEYS
      ensures var m := PutExecutionMetadata(metadata, p); (key in m <==> key in metadata) && ValueAt(m, key) == ValueAt(metadata, key)
    {
      OthersKept(metadata, p, key);
    }
  }

  const ROUTE_KEYS := ["middleware", "source_name", "logical_route", "security.profile"]

  lemma OtherEntriesKept(metadata: map<string, string>, middleware: string, source: string, profile: string, key: string)
    requires key !in ROUTE_KEYS
    ensures var m := RouteMetadata(metadata, middleware, source, profile);
            (key in m <==> key in metadata) && ValueAt(m, key) == ValueAt(metadata, key)
  {
    hide Blank, Trim;
  }

  /** What finishing leaves in the metadata: names that are not blank, without surrounding space; a logical
      route that is there stays, and so does every other entry. */
  lemma RouteMetadataKeeps(metadata: map<string, string>, middleware: string, source: string, profile: string)
    ensures var m := RouteMetadata(metadata, middleware, source, profile);
            && ValueAt(m, "middleware") == (if Blank(middleware) then ValueAt(metadata, "middleware") else Trim(middleware))
            && ValueAt(m, "source_name") == (if Blank(source) then ValueAt(metadata, "source_name") else Trim(source))
            && ValueAt(m, "security.profile") == (if Blank(profile) then ValueAt(metadata, "security.profile") else Trim(profile))
            && ValueAt(m, "logical_route") == (if !Blank(source) && Blank(ValueAt(metadata, "logical_route")) then Trim(source)
                                               else ValueAt(metadata, "logical_route"))
    ensures forall key :: key !in ROUTE_KEYS ==>
              var m := RouteMetadata(metadata, middleware, source, profile);
              (key in m <==> key in metadata) && ValueAt(m, key) == ValueAt(metadata, key)
  {
    hide Blank, Trim;
    forall key | key !in ROUTE_KEYS
      ensures var m := RouteMetadata(metadata, middleware, source, profile);
              (key in m <==> key in metadata) && ValueAt(m, key) == ValueAt(metadata, key)
    {
      OtherEntriesKept(metadata, middleware, source, profile, key);
    }
  }

  /** Bindings without any name are told apart by their place; a binding with a name is called after it. */
  lemma BindingNames(r: Route, q: Route, i: nat, j: nat)
    ensures NonBlank([r.name, r.middleware, r.transport] + r.labels) == [] && NonBlank([q.name, q.middleware, q.transport] + q.labels) == [] ==>
              (BindingName(r, i) == BindingName(q, j) <==> i == j)
    ensures !Blank(r.name) ==> Trim(r.name) <= BindingName(r, i)
  {
    hide Blank, Trim, Decimal, DecimalValue;
    DecimalReadsBack(i);
    DecimalReadsBack(j);
    assert ("binding_" + Decimal(i))[8..] == Decimal(i) && ("binding_" + Decimal(j))[8..] == Decimal(j);
    if !Blank(r.name) {
      var values := [r.name, r.middleware, r.transport] + r.labels;
      assert NonBlank(values) == [Trim(r.name)] + NonBlank(values[1..]);
    }
  }

  function BoundRoute(r: Route, binding: Route): Route {
    Merge(r.(bindings := [], routes := []), binding)
  }

  /** A binding stands for its route with the nested lists dropped and its own entries put over it. */
  lemma BoundRouteLaws(r: Route, b: Route)
    requires |r.labels| == |b.labels|
    ensures Bindings(BoundRoute(r, b)) == []
    ensures GivesNothing(b, |r.labels|) ==> BoundRoute(r, b) == r.(bindings := [], routes := [])
    ensures GivesEverything(b, |r.labels|) ==>
              BoundRoute(r, b) == b.(metadata := r.metadata + b.metadata, middlewares := r.middlewares, bindings := [], routes := [])
  {
    hide Blank, GivesNothing, GivesEverything, Merge;
    MergeLaws(r.(bindings := [], routes := []), b, b);
    MergeKeepsLists(r.(bindings := [], routes := []), b);
  }

  lemma MergeKeepsLists(r: Route, b: Route)
    ensures Merge(r, b).bindings == r.bindings && Merge(r, b).routes == r.routes && Merge(r, b).middlewares == r.middlewares
  {
  }

  function BoundKey(m: Route, name: string, index: nat): string {
    name + "_" + RouteName(BindingName(m, index))
  }

  lemma {:induction false} DecimalAlphanumeric(n: nat)
    ensures Decimal(n) != "" && forall i :: 0 <= i < |Decimal(n)| ==> IsAlphanumeric(Decimal(n)[i])
  {
    hide Decimal, DecimalValue;
    DecimalReadsBack(n);
    forall i | 0 <= i < |Decimal(n)|
      ensures IsAlphanumeric(Decimal(n)[i])
    {
      assert Decimal(n)[i] in Decimal(n);
    }
  }

  lemma UnnamedProper(index: nat)
    ensures ProperRouteName("binding_" + Decimal(index))
  {
    hide Decimal;
    DecimalAlphanumeric(index);
    var s := "binding_" + Decimal(index);
    assert s[|s| - 1] == Decimal(index)[|Decimal(index)| - 1];
  }

  /** Bindings of one route get one key exactly when they have one name, for names that need no cleaning;
      the place tells unnamed bindings apart.  And the bindings of two routes are told apart by these. */
  lemma BoundKeysApart(m: Route, q: Route, name: string, other: string, i: nat, j: nat)
    ensures ProperRouteName(BindingName(m, i)) && ProperRouteName(BindingName(q, j)) ==>
              (BoundKey(m, name, i) == BoundKey(q, name, j) <==> BindingName(m, i) == BindingName(q, j))
    ensures NonBlank([m.name, m.middleware, m.transport] + m.labels) == [] && NonBlank([q.name, q.middleware, q.transport] + q.labels) == [] ==>
              (BoundKey(m, name, i) == BoundKey(q, name, j) <==> i == j)
    ensures BoundKey(m, name, i) == BoundKey(m, other, i) <==> name == other
  {
    hide ProperRouteName, RouteName, NonBlank, Decimal;
    RouteNameShape(BindingName(m, i));
    RouteNameShape(BindingName(q, j));
    UnnamedProper(i);
    UnnamedProper(j);
    BindingNames(m, q, i, j);
    SamePrefix(name + "_", RouteName(BindingName(m, i)), RouteName(BindingName(q, j)));
    SameSuffix(name, other, "_" + RouteName(BindingName(m, i)));
    assert name + "_" + RouteName(BindingName(m, i)) == name + ("_" + RouteName(BindingName(m, i)));
    assert other + "_" + RouteName(BindingName(m, i)) == other + ("_" + RouteName(BindingName(m, i)));
  }

  lemma SamePrefix(p: string, a: string, b: string)
    ensures p + a == p + b <==> a == b
  {
    assert (p + a)[|p|..] == a && (p + b)[|p|..] == b;
  }

  lemma SameSuffix(a: string, b: string, s: string)
    ensures a + s == b + s <==> a == b
  {
    if a + s == b + s {
      assert |a| == |b| && (a + s)[..|a|] == a && (b + s)[..|b|] == b;
    }
  }

  function FinishedBinding(m: Route, name: string, index: nat): Route {
    var f := Finished(m, name);
    f.(metadata := f.metadata["logical_route" := name]["binding_name" := BindingName(m, index)])
  }

  /** A finished binding is told apart by its own name, and belongs to the route it was listed under. */
  lemma FinishedBindingNames(m: Route, name: string, index: nat)
    ensures var f := FinishedBinding(m, name, index);
            && ValueAt(f.metadata, "logical_route") == name && ValueAt(f.metadata, "binding_name") == BindingName(m, index)
            && f == Finished(m, name).(metadata := f.metadata)
            && forall key :: key !in ["logical_route", "binding_name"] ==> ValueAt(f.metadata, key) == ValueAt(Finished(m, name).metadata, key)
  {
    hide Finished, BindingName;
  }

  /** A middleware's configured transport decides, its name only where none is configured. */
  lemma ExplicitTransportGiven(c: Config, name: string)
    requires name in c.middleware
    ensures !Blank(c.middleware[name].transport) ==> ExplicitTransport(c, name) == NormalizeServiceTransport(c.middleware[name].transport)
    ensures Blank(c.middleware[name].transport) ==> ExplicitTransport(c, name) == NormalizeServiceTransport(name)
  {
    hide Blank, NormalizeServiceTransport;
  }

  ghost predicate Produces(kind: Kind, r: Route, name: string, key: string, item: Route) {
    if Bindings(r) == [] then
      Normalized(kind, r).Success? && key == name && item == Finished(Normalized(kind, r).value, name)
    else exists i :: 0 <= i < |Bindings(r)| && ProducesBinding(kind, r, i, name, key, item)
  }

  ghost predicate ProducesBinding(kind: Kind, r: Route, i: nat, name: string, key: string, item: Route)
    requires i < |Bindings(r)|
  {
    var m := Normalized(kind, BoundRoute(r, Bindings(r)[i]));
    m.Success? && key == BoundKey(m.value, name, i) && item == FinishedBinding(m.value, name, i)
  }

  // Everything the route gives has a place in out.
  ghost predicate Covered(kind: Kind, r: Route, name: string, out: map<string, Route>) {
    && (Bindings(r) == [] ==> Normalized(kind, r).Success? && name in out)
    && forall i :: 0 <= i < |Bindings(r)| ==>
         var m := Normalized(kind, BoundRoute(r, Bindings(r)[i]));
         m.Success? && BoundKey(m.value, name, i) in out
  }

  // A possible result of the second pass over expanded routes.
  ghost predicate Normalisation(kind: Kind, e: map<string, Route>, out: map<string, Route>) {
    && (forall key :: key in out ==> exists name :: name in e && Produces(kind, e[name], name, key, out[key]))
    && (forall name :: name in e ==> Covered(kind, e[name], name, out))
  }

  // A route, or one of its bindings, has no plan.
  ghost predicate Unplannable(kind: Kind, r: Route) {
    if Bindings(r) == [] then Normalized(kind, r).Failure?
    else exists i :: 0 <= i < |Bindings(r)| && Normalized(kind, BoundRoute(r, Bindings(r)[i])).Failure?
  }

  method ExpandRoute(kind: Kind, name: string, route: Route, before: map<string, Route>) returns (r: Result<map<string, Route>>)
    ensures r.Success? ==>
              && Covered(kind, route, name, r.value) && before.Keys <= r.value.Keys
              && forall key :: key in r.value ==> (key in before && r.value[key] == before[key]) || Produces(kind, route, name, key, r.value[key])
    ensures r.Failure? <==> Unplannable(kind, route)
  {
    hide Normalized, Finished, FinishedBinding, BoundRoute, BoundKey;
    var out := before;
    var bindings := Bindings(route);
    if |bindings| == 0 {
      var normalized := Normalized(kind, route);
      if normalized.Failure? {
        return Failure(normalized.error);
      }
      return Success(out[name := Finished(normalized.value, name)]);
    }
    for i := 0 to |bindings|
      invariant before.Keys <= out.Keys
      invariant forall key :: key in out ==> (key in before && out[key] == before[key]) || Produces(kind, route, name, key, out[key])
      invariant forall j :: 0 <= j < i ==>
                  var m := Normalized(kind, BoundRoute(route, bindings[j]));
                  m.Success? && BoundKey(m.value, name, j) in out
    {
      var merged := Normalized(kind, BoundRoute(route, bindings[i]));
      if merged.Failure? {
        return Failure(merged.error);
      }
      var key, item := BoundKey(merged.value, name, i), FinishedBinding(merged.value, name, i);
      assert ProducesBinding(kind, route, i, name, key, item);
      out := out[key := item];
    }
    return Success(out);
  }

  lemma CoveredStays(kind: Kind, r: Route, name: string, out: map<string, Route>, more: map<string, Route>)
    requires Covered(kind, r, name, out) && out.Keys <= more.Keys
    ensures Covered(kind, r, name, more)
  {
    hide Normalized, BoundRoute, BoundKey;
  }

  lemma CoveredPlannable(kind: Kind, r: Route, name: string, out: map<string, Route>)
    requires Covered(kind, r, name, out)
    ensures !Unplannable(kind, r)
  {
    hide Normalized, BoundRoute, BoundKey;
  }

  method ExpandRoutes(kind: Kind, routes: map<string, Route>) returns (r: Result<map<string, Route>>)
    ensures r.Success? ==> Normalisation(kind, routes, r.value)
    ensures r.Failure? <==> exists name :: name in routes && Unplannable(kind, routes[name])
  {
    hide Covered, Produces, Unplannable;
    var out: map<string, Route> := map[];
    var rest := routes.Keys;
    while rest != {}
      invariant rest <= routes.Keys
      invariant forall key :: key in out ==> exists name :: name in routes && Produces(kind, routes[name], name, key, out[key])
      invariant forall name :: name in routes && name !in rest ==> Covered(kind, routes[name], name, out)
      decreases |rest|
    {
      var name :| name in rest;
      var next := ExpandRoute(kind, name, routes[name], out);
      if next.Failure? {
        return Failure(next.error);
      }
      forall other | other in routes && other !in rest
        ensures Covered(kind, routes[other], other, next.value)
      {
        CoveredStays(kind, routes[other], other, out, next.value);
      }
      out := next.value;
      rest := rest - {name};
    }
    forall name | name in routes
      ensures !Unplannable(kind, routes[name])
    {
      CoveredPlannable(kind, routes[name], name, out);
    }
    return Success(out);
  }

  // ----- Endpoints

  // What the build asks of code outside this model: compatibility errors, and the metadata that codecs,
  // adapters and options add.
  datatype Surroundings = Surroundings(
    compatible: (Kind, string, Route, TransportKind) -> bool,
    added: (Kind, Route) -> map<string, string>)
  {
    ghost predicate Lawful() {
      forall kind, r :: "middleware.runtime" !in added(kind, r)
    }
  }

  datatype Channel = Channel(transport: TransportKind, metadata: map<string, string>)

  const INCOMPATIBLE := "route format requires an adapter"

  // The channel or server endpoint of a normalised route.
  function ChannelOf(w: Surroundings, kind: Kind, name: string, r: Route): Result<Channel> {
    var transport :- NormalizeServiceTransport(DefaultString(r.transport, if kind.Topic? then "nats_topic" else "nats_rpc"));
    if !w.compatible(kind, name, r, transport) then Failure(INCOMPATIBLE)
    else Success(Channel(transport, RouteMetadata(r.metadata, r.middleware, name, r.securityProfile) + w.added(kind, r)))
  }

  lemma NatsNames()
    ensures Token("nats_topic") == "nats_topic" && Token("nats_rpc") == "nats_rpc"
  {
    ProperName("nats_topic");
    ProperName("nats_rpc");
  }

  /** A channel has the transport its route names, and NATS where it names none. */
  lemma ChannelTransport(w: Surroundings, kind: Kind, name: string, r: Route)
    requires ChannelOf(w, kind, name, r).Success?
    ensures var t := ChannelOf(w, kind, name, r).value.transport;
            if Blank(r.transport) then t == Nats else NormalizeServiceTransport(r.transport) == Success(t)
  {
    hide Blank, Token, RouteMetadata;
    NatsNames();
  }

  ghost predicate Channels(w: Surroundings, kind: Kind, all: map<string, Route>, out: map<string, Channel>) {
    && (forall k :: k in out <==> k in all && Enabled(all[k].enabled))
    && (forall k :: k in out ==> ChannelOf(w, kind, k, all[k]) == Success(out[k]))
  }

  // The routes of one kind, as one build may give them: expanded, normalised, and bound to channels.
  datatype Built = Built(expanded: map<string, Route>, all: map<string, Route>, channels: map<string, Channel>) {
    ghost predicate Of(w: Surroundings, kind: Kind, routes: map<string, Route>) {
      Expansion(routes, expanded) && Normalisation(kind, expanded, all) && Channels(w, kind, all, channels)
    }
  }

  // A possible expansion has a route without plan, or an enabled one without channel.
  ghost predicate Unbuildable(w: Surroundings, kind: Kind, routes: map<string, Route>) {
    exists e :: Expansion(routes, e)
                && ((exists name :: name in e && Unplannable(kind, e[name]))
                    || (exists all :: Normalisation(kind, e, all) && Channelless(w, kind, all)))
  }

  ghost predicate Channelless(w: Surroundings, kind: Kind, all: map<string, Route>) {
    exists k :: k in all && Enabled(all[k].enabled) && ChannelOf(w, kind, k, all[k]).Failure?
  }

  method BuildRoutes(w: Surroundings, kind: Kind, a: map<string, Route>, b: map<string, Route>) returns (r: Result<Built>)
    ensures r.Success? ==> r.value.Of(w, kind, a + b)
    ensures r.Failure? ==> Unbuildable(w, kind, a + b)
  {
    hide Expansion, Normalisation, ChannelOf, Unplannable;
    var expanded := ExpandMiddleware(a + b);
    var all := ExpandRoutes(kind, expanded);
    if all.Failure? {
      return Failure(all.error);
    }
    var channels: map<string, Channel> := map[];
    var rest := all.value.Keys;
    while rest != {}
      invariant rest <= all.value.Keys
      invariant forall k :: k in channels <==> k in all.value && k !in rest && Enabled(all.value[k].enabled)
      invariant forall k :: k in channels ==> ChannelOf(w, kind, k, all.value[k]) == Success(channels[k])
      decreases |rest|
    {
      var name :| name in rest;
      rest := rest - {name};
      if !Enabled(all.value[name].enabled) {
        continue;
      }
      var channel := ChannelOf(w, kind, name, all.value[name]);
      if channel.Failure? {
        assert Channelless(w, kind, all.value);
        return Failure(channel.error);
      }
      channels := channels[name := channel.value];
    }
    return Success(Built(expanded, all.value, channels));
  }

  datatype Fabric = Fabric(buses: map<string, Bus>, topics: Built, services: Built)

  ghost predicate BuildOf(w: Surroundings, c: Config, e: Expansions, f: Fabric) {
    && Buses(c, e, f.buses)
    && f.topics.Of(w, Topic, c.topics + c.topicRoutes)
    && f.services.Of(w, Service, c.services + c.serviceRoutes)
  }

  method Build(w: Surroundings, c: Config) returns (r: Result<Fabric>, ghost e: Expansions)
    ensures r.Success? ==> BuildOf(w, c, e, r.value)
    ensures r.Failure? ==>
              || (exists n :: Explicit(c, n) && ExplicitTransport(c, n).Failure?)
              || Unbuildable(w, Topic, c.topics + c.topicRoutes)
              || Unbuildable(w, Service, c.services + c.serviceRoutes)
  {
    hide Buses, Built.Of, Unbuildable;
    var buses;
    buses, e := MiddlewareConfigs(c);
    if buses.Failure? {
      r := Failure(buses.error);
      return;
    }
    var topics := BuildRoutes(w, Topic, c.topics, c.topicRoutes);
    if topics.Failure? {
      r := Failure(topics.error);
      return;
    }
    var services := BuildRoutes(w, Service, c.services, c.serviceRoutes);
    if services.Failure? {
      r := Failure(services.error);
      return;
    }
    r := Success(Fabric(buses.value, topics.value, services.value));
  }

  // ----- Closure

  lemma EmptyMiddleware(kind: Kind, data: string)
    ensures ExecutionPlan(kind, "", data).Failure?
  {
  }

  /** Both passes compute one plan for a high-level route. */
  lemma PassesAgree(kind: Kind, r: Route)
    requires IsHighLevel(r) && Normalized(kind, r).Success?
    ensures Reference(kind, r).Some?
    ensures var plan, n := Reference(kind, r).value, Normalized(kind, r).value;
            && n.transport == plan.transportName && n.enabled == r.enabled
            && "middleware.runtime" in n.metadata && n.metadata["middleware.runtime"] == plan.RuntimeMiddlewareName()
            && !Blank(plan.transportName) && NormalizeServiceTransport(plan.transportName) == Success(plan.transport)
            && RuntimeTransport(plan.RuntimeMiddlewareName()) == plan.transport
  {
    hide FormatFor, FirstNonBlank, NormalizeRouteMiddlewareProtocol, IsNativeDds, PlanOf, Format, Blank, RuntimeTransport,
         NormalizeServiceTransport, RouteAdapter, TypeOf, Contains;
    var data := FirstNonBlank([r.data, r.dataFormat, r.payload.format]);
    var format := FormatFor(kind, data, TypeOf(kind, r));
    EmptyMiddleware(kind, format);
    ExecutionPlanAgrees(kind, r.middleware, format);
    BlankEmpty();
  }

  lemma BlankEmpty()
    ensures Blank("")
  {
  }

  lemma ChannelKeepsRuntime(w: Surroundings, kind: Kind, name: string, r: Route)
    requires w.Lawful() && ChannelOf(w, kind, name, r).Success? && "middleware.runtime" in r.metadata
    requires !Blank(r.transport)
    ensures var ch := ChannelOf(w, kind, name, r).value;
            && "middleware.runtime" in ch.metadata && ch.metadata["middleware.runtime"] == r.metadata["middleware.runtime"]
            && NormalizeServiceTransport(r.transport) == Success(ch.transport)
  {
  }

  lemma RuntimeUntouched(metadata: map<string, string>, middleware: string, source: string, profile: string)
    ensures var m := RouteMetadata(metadata, middleware, source, profile);
            && ("middleware.runtime" in m <==> "middleware.runtime" in metadata)
            && ("middleware.runtime" in metadata ==> m["middleware.runtime"] == metadata["middleware.runtime"])
  {
  }

  // The item that stayed under a key of the merged routes was met in the first pass too.
  lemma MetBefore(kind: Kind, a: map<string, Route>, b: map<string, Route>, ea: map<string, Route>, eb: map<string, Route>,
                  expanded: map<string, Route>, key: string)
    requires Expansion(a, ea) && Expansion(b, eb) && Expansion(a + b, expanded) && NoCollision(a) && NoCollision(b) && key in expanded
    ensures (key in ea && ea[key] == expanded[key]) || (key in eb && eb[key] == expanded[key])
  {
    hide YieldsFrom;
    var item := expanded[key];
    var name :| name in a + b && YieldsFrom((a + b)[name], name, key, item);
    if name in b {
      assert Yields(b, key, item) && Yields(b, key, eb[key]);
    } else {
      assert Yields(a, key, item) && Yields(a, key, ea[key]);
    }
  }

  // No binding's route takes the name of another route.
  ghost predicate KeepsName(kind: Kind, expanded: map<string, Route>, key: string) {
    forall name, i :: name in expanded && 0 <= i < |Bindings(expanded[name])| ==>
      var m := Normalized(kind, BoundRoute(expanded[name], Bindings(expanded[name])[i]));
      m.Success? ==> BoundKey(m.value, name, i) != key
  }

  lemma OwnProduct(kind: Kind, expanded: map<string, Route>, all: map<string, Route>, key: string)
    requires Normalisation(kind, expanded, all) && key in all && key in expanded && Bindings(expanded[key]) == []
    requires KeepsName(kind, expanded, key)
    ensures Normalized(kind, expanded[key]).Success? && all[key] == Finished(Normalized(kind, expanded[key]).value, key)
  {
    hide Normalized, Finished, FinishedBinding, BoundRoute, BoundKey;
    var name :| name in expanded && Produces(kind, expanded[name], name, key, all[key]);
    assert Bindings(expanded[name]) == [];
  }

  function RoutesOf(f: Fabric, kind: Kind): Built {
    if kind.Topic? then f.topics else f.services
  }

  ghost predicate NoCollisions(c: Config, kind: Kind) {
    if kind.Topic? then NoCollision(c.topics) && NoCollision(c.topicRoutes) else NoCollision(c.services) && NoCollision(c.serviceRoutes)
  }

  // The first pass refers to what the second makes of a route without bindings.
  lemma ReferredBefore(w: Surroundings, c: Config, e: Expansions, f: Fabric, kind: Kind, key: string)
    requires BuildOf(w, c, e, f) && NoCollisions(c, kind)
    requires var b := RoutesOf(f, kind); key in b.expanded && Reference(kind, b.expanded[key]).Some?
    ensures e.Referred(Reference(kind, RoutesOf(f, kind).expanded[key]).value.RuntimeMiddlewareName())
  {
    hide Reference, Expansion, NoCollision, Normalisation, Channels;
    if kind.Topic? {
      MetBefore(kind, c.topics, c.topicRoutes, e.topics, e.topicRoutes, f.topics.expanded, key);
    } else {
      MetBefore(kind, c.services, c.serviceRoutes, e.services, e.serviceRoutes, f.services.expanded, key);
    }
  }

  /** Closure: when a build succeeds, the channel of every enabled high-level route without bindings names
      a bus that exists and has its plan's transport, which is that bus's transport too, unless an enabled
      middleware of that name is configured with another one. */
  lemma Closure(w: Surroundings, c: Config, e: Expansions, f: Fabric, kind: Kind, key: string)
    requires w.Lawful() && BuildOf(w, c, e, f) && NoCollisions(c, kind)
    requires var b := RoutesOf(f, kind);
             && key in b.channels && key in b.expanded && IsHighLevel(b.expanded[key]) && KeepsName(kind, b.expanded, key)
    ensures var b := RoutesOf(f, kind);
            && Reference(kind, b.expanded[key]).Some?
            && var plan := Reference(kind, b.expanded[key]).value;
               var runtime := plan.RuntimeMiddlewareName();
            && "middleware.runtime" in b.channels[key].metadata && b.channels[key].metadata["middleware.runtime"] == runtime
            && b.channels[key].transport == plan.transport
            && runtime in f.buses
            && (f.buses[runtime].transport == plan.transport <==>
                  (Explicit(c, runtime) ==> ExplicitTransport(c, runtime) == Success(plan.transport)))
  {
    hide Normalized, RouteMetadata, Reference, Expansion, Normalisation, NoCollisions, KeepsName, ChannelOf, Blank, RuntimeTransport, NormalizeServiceTransport,
         Surroundings.Lawful, Expansions.Of, Expansions.Referred, ExplicitTransport;
    var b := RoutesOf(f, kind);
    var x := b.expanded[key];
    OwnProduct(kind, b.expanded, b.all, key);
    PassesAgree(kind, x);
    var n := Normalized(kind, x).value;
    RuntimeUntouched(n.metadata, n.middleware, key, n.securityProfile);
    ChannelKeepsRuntime(w, kind, key, b.all[key]);
    ReferredBefore(w, c, e, f, kind, key);
  }

  // ----- Routes with bindings

  // The route of binding i of a route, and the key it is stored under once normalised to m.
  function BindingOf(e: map<string, Route>, name: string, i: nat): Route
    requires name in e && i < |Bindings(e[name])|
  {
    BoundRoute(e[name], Bindings(e[name])[i])
  }

  // No other route and no other binding takes this binding's key.
  ghost predicate KeepsBindingName(kind: Kind, e: map<string, Route>, name: string, i: nat, key: string) {
    && (forall other :: other in e && Bindings(e[other]) == [] ==> other != key)
    && (forall other, j: nat :: other in e && j < |Bindings(e[other])| && (other != name || j != i) ==>
          var m := Normalized(kind, BindingOf(e, other, j));
          m.Success? ==> BoundKey(m.value, other, j) != key)
  }

  lemma OwnBinding(kind: Kind, e: map<string, Route>, all: map<string, Route>, name: string, i: nat)
    requires Normalisation(kind, e, all) && name in e && i < |Bindings(e[name])|
    requires var m := Normalized(kind, BindingOf(e, name, i));
             m.Success? ==> KeepsBindingName(kind, e, name, i, BoundKey(m.value, name, i))
    ensures var m := Normalized(kind, BindingOf(e, name, i));
            && m.Success?
            && var key := BoundKey(m.value, name, i);
            key in all && all[key] == FinishedBinding(m.value, name, i)
  {
    hide Normalized, Finished, FinishedBinding, BoundRoute, BoundKey;
    assert Covered(kind, e[name], name, all);
    var m := Normalized(kind, BindingOf(e, name, i));
    var key := BoundKey(m.value, name, i);
    var other :| other in e && Produces(kind, e[other], other, key, all[key]);
    assert Bindings(e[other]) != [];
    var j: nat :| j < |Bindings(e[other])| && ProducesBinding(kind, e[other], j, other, key, all[key]);
    assert Normalized(kind, BindingOf(e, other, j)).Success?;
  }

  /** Exactly when a binding route gets its bus: in every build, the channel of an enabled high-level binding
      names its plan's runtime and has its plan's transport, and the bus it names exists if and only if an
      enabled middleware has that name or some route without bindings refers to it. */
  lemma BindingClosure(w: Surroundings, c: Config, e: Expansions, f: Fabric, kind: Kind, name: string, i: nat)
    requires w.Lawful() && BuildOf(w, c, e, f)
    requires var x := RoutesOf(f, kind).expanded;
             && name in x && i < |Bindings(x[name])| && IsHighLevel(BindingOf(x, name, i))
             && var m := Normalized(kind, BindingOf(x, name, i));
             m.Success? ==> KeepsBindingName(kind, x, name, i, BoundKey(m.value, name, i))
    ensures var b := RoutesOf(f, kind);
            var bound := BindingOf(b.expanded, name, i);
            && Normalized(kind, bound).Success? && Reference(kind, bound).Some?
            && var key := BoundKey(Normalized(kind, bound).value, name, i);
               var plan := Reference(kind, bound).value;
               var runtime := plan.RuntimeMiddlewareName();
            && (key in b.channels <==> Enabled(bound.enabled))
            && (key in b.channels ==>
                  && "middleware.runtime" in b.channels[key].metadata && b.channels[key].metadata["middleware.runtime"] == runtime
                  && b.channels[key].transport == plan.transport)
            && (runtime in f.buses <==> Explicit(c, runtime) || e.Referred(runtime))
            && (runtime in f.buses ==>
                  (f.buses[runtime].transport == plan.transport <==>
                     (Explicit(c, runtime) ==> ExplicitTransport(c, runtime) == Success(plan.transport))))
  {
    hide Normalized, RouteMetadata, Reference, Expansion, Normalisation, KeepsBindingName, ChannelOf, Blank, RuntimeTransport, NormalizeServiceTransport,
         Surroundings.Lawful, Expansions.Of, Expansions.Referred, ExplicitTransport, BoundRoute, IsHighLevel, BoundKey, BindingName;
    var b := RoutesOf(f, kind);
    var bound := BindingOf(b.expanded, name, i);
    OwnBinding(kind, b.expanded, b.all, name, i);
    PassesAgree(kind, bound);
    var m := Normalized(kind, bound).value;
    var key := BoundKey(m, name, i);
    RuntimeUntouched(m.metadata, m.middleware, name, m.securityProfile);
    if key in b.channels {
      ChannelKeepsRuntime(w, kind, key, b.all[key]);
    }
  }

  // A route of the configuration refers to this name by default; it has no bindings then.
  ghost predicate SomeRouteNames(kind: Kind, routes: map<string, Route>, runtime: string) {
    exists key, item :: Yields(routes, key, item) && Bindings(item) == [] && Reference(kind, item).Some?
                        && Reference(kind, item).value.RuntimeMiddlewareName() == runtime
  }

  lemma RefersExactly(kind: Kind, routes: map<string, Route>, expanded: map<string, Route>, runtime: string)
    requires Expansion(routes, expanded) && NoCollision(routes)
    ensures Refers(kind, expanded, runtime) <==> SomeRouteNames(kind, routes, runtime)
  {
    hide Yields;
    if Refers(kind, expanded, runtime) {
      var key :| key in expanded && Reference(kind, expanded[key]).Some?
                 && Reference(kind, expanded[key]).value.RuntimeMiddlewareName() == runtime;
      assert Yields(routes, key, expanded[key]);
    }
    if SomeRouteNames(kind, routes, runtime) {
      var key, item :| Yields(routes, key, item) && Bindings(item) == [] && Reference(kind, item).Some?
                       && Reference(kind, item).value.RuntimeMiddlewareName() == runtime;
      assert expanded[key] == item;
    }
  }

  /** Whatever order the first pass goes in, the names it finds are those of the configured routes without
      bindings, as long as no two items of one map share an expanded name. */
  lemma ReferredExactly(c: Config, e: Expansions, runtime: string)
    requires e.Of(c) && NoCollisions(c, Topic) && NoCollisions(c, Service)
    ensures e.Referred(runtime) <==>
              || SomeRouteNames(Topic, c.topics, runtime) || SomeRouteNames(Topic, c.topicRoutes, runtime)
              || SomeRouteNames(Service, c.services, runtime) || SomeRouteNames(Service, c.serviceRoutes, runtime)
  {
    hide Expansion, NoCollision, Refers, SomeRouteNames;
    RefersExactly(Topic, c.topics, e.topics, runtime);
    RefersExactly(Topic, c.topicRoutes, e.topicRoutes, runtime);
    RefersExactly(Service, c.services, e.services, runtime);
    RefersExactly(Service, c.serviceRoutes, e.serviceRoutes, runtime);
  }

  lemma BindingsRefer(kind: Kind, routes: map<string, Route>, expanded: map<string, Route>, n: string)
    requires Expansion(routes, expanded) && forall r :: r in routes.Values ==> r.middlewares == [] && Bindings(r) != []
    ensures !Refers(kind, expanded, n)
  {
  }

  const Plain := Route(None, "", "", "", "", "", "", [], "", "", "", "", Payload("", ""), map[], "", [], [], [])

  lemma ExpandsToItself(routes: map<string, Route>)
    requires forall r :: r in routes.Values ==> r.middlewares == []
    ensures Expansion(routes, routes)
  {
  }

  const Anything := Surroundings((kind, name, r, transport) => true, (kind, r) => map[])

  const CycloneBinding := Plain.(middleware := "cyclonedds")

  const BindingRoute := Plain.(bindings := [CycloneBinding])

  lemma BindingIsHighLevel()
    ensures BoundRoute(BindingRoute, CycloneBinding) == CycloneBinding
    ensures IsHighLevel(CycloneBinding) && Normalized(Topic, CycloneBinding).Success?
  {
    hide IsNativeDds, PlanOf, FormatFor, RouteAdapter;
    ProperName("cyclonedds");
    BlankEmpty();
    var none: map<string, string> := map[];
    assert none + none == none;
  }

  // The channel the binding ends up with.
  lemma BindingChannel(m: Route, key: string) returns (ch: Channel)
    requires Success(m) == Normalized(Topic, CycloneBinding)
    ensures Success(ch) == ChannelOf(Anything, Topic, key, FinishedBinding(m, "t", 0)) && "middleware.runtime" in ch.metadata
  {
    hide Normalized, RouteMetadata, Blank, NormalizeServiceTransport, BindingName, IsHighLevel, Reference;
    var item := FinishedBinding(m, "t", 0);
    BindingIsHighLevel();
    PassesAgree(Topic, CycloneBinding);
    RuntimeUntouched(m.metadata, m.middleware, "t", m.securityProfile);
    ch := ChannelOf(Anything, Topic, key, item).value;
    ChannelKeepsRuntime(Anything, Topic, key, item);
  }

  lemma OneTopic(topics: map<string, Route>)
    requires topics == map["t" := BindingRoute]
    ensures NoCollision(topics) && NoCollision(map[])
  {
  }

  lemma NothingBuilt(kind: Kind)
    ensures Expansion(map[], map[]) && Built(map[], map[], map[]).Of(Anything, kind, map[])
  {
    ExpandsToItself(map[]);
  }

  // The topic's channel, and the build that gives it.
  lemma BindingBuilt(topics: map<string, Route>) returns (b: Built, key: string)
    requires topics == map["t" := BindingRoute]
    ensures Expansion(topics, topics) && b.Of(Anything, Topic, topics) && b.expanded == topics
    ensures Normalized(Topic, CycloneBinding).Success? && key == BoundKey(Normalized(Topic, CycloneBinding).value, "t", 0)
    ensures key in b.channels && "middleware.runtime" in b.channels[key].metadata
  {
    hide Normalized, FinishedBinding, BoundKey, BoundRoute, ChannelOf, Expansion, Normalisation;
    ExpandsToItself(topics);
    BindingIsHighLevel();
    var m := Normalized(Topic, CycloneBinding).value;
    key := BoundKey(m, "t", 0);
    var ch := BindingChannel(m, key);
    var all := map[key := FinishedBinding(m, "t", 0)];
    OneNormalisation(topics, m, all);
    ItemEnabled(m);
    b := Built(topics, all, map[key := ch]);
  }

  /** An instance of the condition failing: one topic with one high-level binding over CycloneDDS builds
      without error, no middleware and no route has its runtime's name, and its channel names no bus. */
  lemma BindingHasNoBus() returns (c: Config, e: Expansions, f: Fabric, key: string)
    ensures Anything.Lawful() && BuildOf(Anything, c, e, f) && NoCollisions(c, Topic)
    ensures "t" in f.topics.expanded && |Bindings(f.topics.expanded["t"])| == 1 && IsHighLevel(BindingOf(f.topics.expanded, "t", 0))
    ensures var m := Normalized(Topic, BindingOf(f.topics.expanded, "t", 0)); m.Success? && key == BoundKey(m.value, "t", 0)
    ensures forall n :: !Explicit(c, n) && !e.Referred(n)
    ensures key in f.topics.channels && "middleware.runtime" in f.topics.channels[key].metadata
    ensures f.topics.channels[key].metadata["middleware.runtime"] !in f.buses
  {
    hide Built.Of, Expansion, Refers, NoCollision, Normalized, BoundRoute, BoundKey, IsHighLevel;
    var topics := map["t" := BindingRoute];
    c := Config(map[], topics, map[], map[], map[]);
    e := Expansions(topics, map[], map[], map[]);
    var b;
    b, key := BindingBuilt(topics);
    BindingIsHighLevel();
    assert Bindings(BindingRoute) == [CycloneBinding];
    assert BindingOf(topics, "t", 0) == CycloneBinding;
    NothingBuilt(Service);
    OneTopic(topics);
    f := Fabric(map[], b, Built(map[], map[], map[]));
    assert c.topics + c.topicRoutes == topics && c.services + c.serviceRoutes == map[];
    forall n
      ensures !e.Referred(n)
    {
      BindingsRefer(Topic, topics, topics, n);
      BindingsRefer(Topic, map[], map[], n);
      BindingsRefer(Service, map[], map[], n);
    }
  }

  lemma ItemEnabled(m: Route)
    requires Success(m) == Normalized(Topic, CycloneBinding)
    ensures FinishedBinding(m, "t", 0).enabled == None
  {
    hide FormatFor, PlanOf, RouteMetadata, BindingName, IsNativeDds, RouteAdapter;
  }

  lemma OneNormalisation(topics: map<string, Route>, m: Route, all: map<string, Route>)
    requires Success(m) == Normalized(Topic, CycloneBinding) && topics == map["t" := BindingRoute]
    requires all == map[BoundKey(m, "t", 0) := FinishedBinding(m, "t", 0)]
    ensures Normalisation(Topic, topics, all)
  {
    hide Normalized, FinishedBinding, BoundKey, BoundRoute;
    BindingIsHighLevel();
    var key := BoundKey(m, "t", 0);
    assert Bindings(BindingRoute) == [CycloneBinding];
    assert ProducesBinding(Topic, BindingRoute, 0, "t", key, all[key]);
    assert Produces(Topic, topics["t"], "t", key, all[key]);
  }
}
