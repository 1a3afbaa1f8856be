/** Which buses the C++ fabric creates, and which bus it later looks up for an endpoint. */
module BusSelection {
  import opened Bytes
  import opened Text

  datatype TransportKind = InProcess | Nats | CycloneDds | FastDds | Ros2 | Zenoh | Grpc | Mqtt

  datatype Endpoint = Endpoint(transport: TransportKind, address: string, metadata: map<string, string>)

  datatype BusConfig = BusConfig(transport: TransportKind)

  // std::map as the sequence of its entries in key order.
  type Table = seq<(string, BusConfig)>

  datatype PubSubRoute = PubSubRoute(name: string, publisher: Endpoint, subscriber: Endpoint, enabled: bool)
  datatype RpcRoute = RpcRoute(name: string, client: Endpoint, server: Endpoint, enabled: bool)

  // ----- Endpoints

  function Lower(c: char): char {
    if c == '-' then '_' else LowerChar(c)
  }

  function NormalizedMetadataToken(metadata: map<string, string>, key: string): string {
    if key !in metadata then ""
    else seq(|metadata[key]|, i requires 0 <= i < |metadata[key]| => Lower(metadata[key][i]))
  }

  function Adapter(e: Endpoint): string {
    var adapter := NormalizedMetadataToken(e.metadata, "adapter");
    if adapter == "" then NormalizedMetadataToken(e.metadata, "ros2.adapter") else adapter
  }

  predicate UsesRos2RuntimeBus(e: Endpoint) {
    e.transport.Ros2? && (Adapter(e) == "ros2_proto_envelope" || Adapter(e) == "ros2_typed_mapper")
  }

  predicate HasUnsupportedRos2RuntimeAdapter(e: Endpoint) {
    e.transport.Ros2? && Adapter(e) != "" && Adapter(e) != "ros2_proto_envelope" && Adapter(e) != "ros2_typed_mapper"
  }

  // A ROS2 endpoint with an adapter either uses the runtime bus or has an unsupported adapter.
  lemma AdapterCases(e: Endpoint)
    ensures UsesRos2RuntimeBus(e) || HasUnsupportedRos2RuntimeAdapter(e) <==> e.transport.Ros2? && Adapter(e) != ""
    ensures !(UsesRos2RuntimeBus(e) && HasUnsupportedRos2RuntimeAdapter(e))
  {
    hide NormalizedMetadataToken;
  }

  predicate UsesRuntimeBus(e: Endpoint) {
    !e.transport.InProcess? && (e.transport.Ros2? ==> UsesRos2RuntimeBus(e))
  }

  // ----- Creation

  predicate IsExplicitMiddlewareForEndpoint(name: string, e: Endpoint) {
    if "middleware.runtime" in e.metadata then e.metadata["middleware.runtime"] == name
    else "middleware" in e.metadata && e.metadata["middleware"] == name
  }

  // The first entry of a transport.
  function FirstOf(table: Table, transport: TransportKind): Option<string> {
    if table == [] then None
    else if table[0].1.transport == transport then Some(table[0].0)
    else FirstOf(table[1..], transport)
  }

  predicate UsesRos2RuntimeBusName(name: string, table: Table, e: Endpoint) {
    && UsesRos2RuntimeBus(e)
    && (IsExplicitMiddlewareForEndpoint(name, e)
        || ("middleware" !in e.metadata && "middleware.runtime" !in e.metadata && FirstOf(table, Ros2) == Some(name)))
  }

  predicate PubSubNeeds(name: string, table: Table, r: PubSubRoute) {
    r.enabled && (UsesRos2RuntimeBusName(name, table, r.publisher) || UsesRos2RuntimeBusName(name, table, r.subscriber))
  }

  predicate RpcNeeds(name: string, table: Table, r: RpcRoute) {
    r.enabled && (UsesRos2RuntimeBusName(name, table, r.client) || UsesRos2RuntimeBusName(name, table, r.server))
  }

  predicate ShouldCreate(name: string, table: Table, pubsub: seq<PubSubRoute>, rpc: seq<RpcRoute>, config: BusConfig) {
    if config.transport.InProcess? then false
    else if !config.transport.Ros2? then true
    else (exists r :: r in pubsub && PubSubNeeds(name, table, r)) || (exists r :: r in rpc && RpcNeeds(name, table, r))
  }

  method IsDefaultRos2RuntimeBusName(name: string, middleware: Table) returns (r: bool)
    ensures r == (FirstOf(middleware, Ros2) == Some(name))
  {
    for i := 0 to |middleware|
      invariant FirstOf(middleware, Ros2) == FirstOf(middleware[i..], Ros2)
    {
      assert middleware[i..][1..] == middleware[i + 1..];
      if middleware[i].1.transport.Ros2? {
        return middleware[i].0 == name;
      }
    }
    return false;
  }

  method UsesName(name: string, middleware: Table, e: Endpoint) returns (r: bool)
    ensures r == UsesRos2RuntimeBusName(name, middleware, e)
  {
    if !UsesRos2RuntimeBus(e) {
      return false;
    }
    var isDefault := IsDefaultRos2RuntimeBusName(name, middleware);
    return IsExplicitMiddlewareForEndpoint(name, e)
           || ("middleware" !in e.metadata && "middleware.runtime" !in e.metadata && isDefault);
  }

  method ShouldCreateMiddlewareBus(name: string, middleware: Table, pubsub: seq<PubSubRoute>, rpc: seq<RpcRoute>, config: BusConfig)
    returns (r: bool)
    ensures r == ShouldCreate(name, middleware, pubsub, rpc, config)
  {
    if config.transport.InProcess? {
      return false;
    }
    if !config.transport.Ros2? {
      return true;
    }
    for i := 0 to |pubsub|
      invariant forall j :: 0 <= j < i ==> !PubSubNeeds(name, middleware, pubsub[j])
    {
      if !pubsub[i].enabled {
        continue;
      }
      var publisher := UsesName(name, middleware, pubsub[i].publisher);
      var subscriber := UsesName(name, middleware, pubsub[i].subscriber);
      if publisher || subscriber {
        assert PubSubNeeds(name, middleware, pubsub[i]);
        return true;
      }
    }
    for i := 0 to |rpc|
      invariant forall j :: 0 <= j < i ==> !RpcNeeds(name, middleware, rpc[j])
    {
      if !rpc[i].enabled {
        continue;
      }
      var client := UsesName(name, middleware, rpc[i].client);
      var server := UsesName(name, middleware, rpc[i].server);
      if client || server {
        assert RpcNeeds(name, middleware, rpc[i]);
        return true;
      }
    }
    return false;
  }

  // ----- Lookup

  // BusNameFor: None where it throws.
  function BusName(table: Table, e: Endpoint): Option<string> {
    if "middleware.runtime" in e.metadata && e.metadata["middleware.runtime"] != "" then Some(e.metadata["middleware.runtime"])
    else if "middleware" in e.metadata && e.metadata["middleware"] != "" then Some(e.metadata["middleware"])
    else FirstOf(table, e.transport)
  }

  const UNSUPPORTED_ADAPTER := "C++ ROS2 runtime adapter is not implemented"
  const NOT_CONNECTED := "middleware bus is not connected"
  const NO_MIDDLEWARE := "no middleware configured for endpoint"
  const NOT_REGISTERED := "communication middleware is not registered"

  // The name of the bus an endpoint is bound to; None for an endpoint that needs none.
  function Bound(created: set<string>, table: Table, e: Endpoint): Result<Option<string>> {
    if HasUnsupportedRos2RuntimeAdapter(e) then Failure(UNSUPPORTED_ADAPTER)
    else if !UsesRuntimeBus(e) then Success(None)
    else match BusName(table, e)
         case None => Failure(NO_MIDDLEWARE)
         case Some(name) => if name in created then Success(Some(name)) else Failure(NOT_CONNECTED)
  }

  predicate Unique(table: Table) {
    forall i, j :: 0 <= i < j < |table| ==> table[i].0 != table[j].0
  }

  // The buses that exist once the fabric is built.
  ghost function Created(table: Table, pubsub: seq<PubSubRoute>, rpc: seq<RpcRoute>): set<string> {
    set i | 0 <= i < |table| && ShouldCreate(table[i].0, table, pubsub, rpc, table[i].1) :: table[i].0
  }

  class CommunicationFabric {
    var buses: set<string>
    var busConfigs: Table
    var pubsubRoutes: map<string, PubSubRoute>
    var rpcRoutes: map<string, RpcRoute>

    // A bus object is its name here; the registry knows the transports in registered.
    constructor (buses: set<string>, middleware: Table, pubsub: seq<PubSubRoute>, rpc: seq<RpcRoute>)
      ensures this.buses == buses && busConfigs == middleware
      ensures pubsubRoutes == LastPubSub(pubsub) && rpcRoutes == LastRpc(rpc)
    {
      this.buses := buses;
      this.busConfigs := middleware;
      this.pubsubRoutes := map[];
      this.rpcRoutes := map[];
      new;
      for i := 0 to |pubsub|
        invariant this.buses == buses && busConfigs == middleware && rpcRoutes == map[]
        invariant pubsubRoutes == LastPubSub(pubsub[..i])
      {
        assert pubsub[..i + 1][..i] == pubsub[..i];
        if pubsub[i].enabled {
          pubsubRoutes := pubsubRoutes[pubsub[i].name := pubsub[i]];
        }
      }
      assert pubsub[..|pubsub|] == pubsub;
      for i := 0 to |rpc|
        invariant this.buses == buses && busConfigs == middleware && pubsubRoutes == LastPubSub(pubsub)
        invariant rpcRoutes == LastRpc(rpc[..i])
      {
        assert rpc[..i + 1][..i] == rpc[..i];
        if rpc[i].enabled {
          rpcRoutes := rpcRoutes[rpc[i].name := rpc[i]];
        }
      }
      assert rpc[..|rpc|] == rpc;
    }

    method BindEndpoint(e: Endpoint) returns (r: Result<Option<string>>)
      ensures r == Bound(buses, busConfigs, e)
    {
      if HasUnsupportedRos2RuntimeAdapter(e) {
        return Failure(UNSUPPORTED_ADAPTER);
      }
      if !UsesRuntimeBus(e) {
        return Success(None);
      }
      var name := BusNameFor(e);
      if name.None? {
        return Failure(NO_MIDDLEWARE);
      }
      if name.value !in buses {
        return Failure(NOT_CONNECTED);
      }
      return Success(name);
    }

    method BusNameFor(e: Endpoint) returns (name: Option<string>)
      ensures name == BusName(busConfigs, e)
    {
      if "middleware.runtime" in e.metadata && e.metadata["middleware.runtime"] != "" {
        return Some(e.metadata["middleware.runtime"]);
      }
      if "middleware" in e.metadata && e.metadata["middleware"] != "" {
        return Some(e.metadata["middleware"]);
      }
      for i := 0 to |busConfigs|
        invariant FirstOf(busConfigs, e.transport) == FirstOf(busConfigs[i..], e.transport)
      {
        assert busConfigs[i..][1..] == busConfigs[i + 1..];
        if busConfigs[i].1.transport == e.transport {
          return Some(busConfigs[i].0);
        }
      }
      return None;
    }
  }

  // Of the enabled routes of one name the last stays.
  function LastPubSub(routes: seq<PubSubRoute>): map<string, PubSubRoute> {
    if routes == [] then map[]
    else
      var before, r := LastPubSub(routes[..|routes| - 1]), routes[|routes| - 1];
      if r.enabled then before[r.name := r] else before
  }

  function LastRpc(routes: seq<RpcRoute>): map<string, RpcRoute> {
    if routes == [] then map[]
    else
      var before, r := LastRpc(routes[..|routes| - 1]), routes[|routes| - 1];
      if r.enabled then before[r.name := r] else before
  }

  method FromConfigs(middleware: Table, pubsub: seq<PubSubRoute>, rpc: seq<RpcRoute>, registered: set<TransportKind>)
    returns (r: Result<CommunicationFabric>)
    ensures match r
            case Success(fabric) =>
              && fabric.buses == Created(middleware, pubsub, rpc) && fabric.busConfigs == middleware
              && fabric.pubsubRoutes == LastPubSub(pubsub) && fabric.rpcRoutes == LastRpc(rpc)
            case Failure(e) =>
              && e == NOT_REGISTERED
              && exists i :: 0 <= i < |middleware| && ShouldCreate(middleware[i].0, middleware, pubsub, rpc, middleware[i].1)
                             && middleware[i].1.transport !in registered
  {
    hide ShouldCreate;
    var buses: set<string> := {};
    for i := 0 to |middleware|
      invariant buses == set j | 0 <= j < i && ShouldCreate(middleware[j].0, middleware, pubsub, rpc, middleware[j].1) :: middleware[j].0
    {
      var (name, config) := middleware[i];
      var create := ShouldCreateMiddlewareBus(name, middleware, pubsub, rpc, config);
      if !create {
        continue;
      }
      if config.transport !in registered {
        return Failure(NOT_REGISTERED);
      }
      buses := buses + {name};
    }
    var fabric := new CommunicationFabric(buses, middleware, pubsub, rpc);
    return Success(fabric);
  }

  // ----- Creation and lookup

  // An enabled route has this endpoint.
  ghost predicate Routed(pubsub: seq<PubSubRoute>, rpc: seq<RpcRoute>, e: Endpoint) {
    || (exists r :: r in pubsub && r.enabled && (r.publisher == e || r.subscriber == e))
    || (exists r :: r in rpc && r.enabled && (r.client == e || r.server == e))
  }

  // The endpoint itself makes the fabric create the bus it will be looked up under: the bus is not a
  // ROS2 one, or the endpoint is one, and what its metadata names is not blank.
  predicate SelfSufficient(e: Endpoint, name: string, config: BusConfig) {
    || !config.transport.Ros2?
    || (&& e.transport.Ros2?
        && (if "middleware.runtime" in e.metadata then e.metadata["middleware.runtime"] == name
            else "middleware" in e.metadata ==> e.metadata["middleware"] == name))
  }

  lemma CreatedAt(table: Table, pubsub: seq<PubSubRoute>, rpc: seq<RpcRoute>, i: nat)
    requires Unique(table) && i < |table|
    ensures table[i].0 in Created(table, pubsub, rpc) <==> ShouldCreate(table[i].0, table, pubsub, rpc, table[i].1)
  {
  }

  /** The buses created and the buses looked up agree: an endpoint of an enabled route, whose bus is
      configured and not in-process, is bound to that bus in every fabric it can appear in, exactly when it
      is self-sufficient.  Otherwise a fabric with this one route never creates the bus it asks for. */
  lemma LookupFindsBus(table: Table, i: nat, e: Endpoint)
    requires Unique(table) && i < |table| && !table[i].1.transport.InProcess?
    requires UsesRuntimeBus(e) && BusName(table, e) == Some(table[i].0)
    ensures (forall pubsub, rpc :: Routed(pubsub, rpc, e) ==> Bound(Created(table, pubsub, rpc), table, e) == Success(Some(table[i].0)))
            <==> SelfSufficient(e, table[i].0, table[i].1)
  {
    hide Adapter, Created;
    var name := table[i].0;
    if SelfSufficient(e, name, table[i].1) {
      forall pubsub, rpc | Routed(pubsub, rpc, e)
        ensures name in Created(table, pubsub, rpc)
      {
        CreatedAt(table, pubsub, rpc, i);
        SufficientCreates(table, pubsub, rpc, i, e);
      }
    } else {
      var local := Endpoint(InProcess, "", map[]);
      var pubsub := [PubSubRoute("", e, local, true)];
      assert pubsub[0] in pubsub;
      assert Routed(pubsub, [], e);
      CreatedAt(table, pubsub, [], i);
      OnlyRoute(table, i, e, local);
      assert Bound(Created(table, pubsub, []), table, e) == Failure(NOT_CONNECTED);
    }
  }

  lemma SufficientCreates(table: Table, pubsub: seq<PubSubRoute>, rpc: seq<RpcRoute>, i: nat, e: Endpoint)
    requires i < |table| && !table[i].1.transport.InProcess? && UsesRuntimeBus(e) && BusName(table, e) == Some(table[i].0)
    requires SelfSufficient(e, table[i].0, table[i].1) && Routed(pubsub, rpc, e)
    ensures ShouldCreate(table[i].0, table, pubsub, rpc, table[i].1)
  {
  }

  lemma OnlyRoute(table: Table, i: nat, e: Endpoint, local: Endpoint)
    requires i < |table| && !SelfSufficient(e, table[i].0, table[i].1) && local.transport.InProcess?
    ensures !ShouldCreate(table[i].0, table, [PubSubRoute("", e, local, true)], [], table[i].1)
  {
  }

  /** With only non-blank middleware metadata, what remains is the transport: the lookup of a ROS2 bus is
      certain exactly for endpoints of transport ROS2. */
  lemma NonBlankMetadata(table: Table, i: nat, e: Endpoint)
    requires i < |table| && BusName(table, e) == Some(table[i].0)
    requires "middleware.runtime" in e.metadata ==> e.metadata["middleware.runtime"] != ""
    requires "middleware" in e.metadata ==> e.metadata["middleware"] != ""
    ensures SelfSufficient(e, table[i].0, table[i].1) <==> (table[i].1.transport.Ros2? ==> e.transport.Ros2?)
  {
  }
}
