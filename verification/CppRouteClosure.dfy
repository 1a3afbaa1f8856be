/** The same closure in the C++ configuration loader, which works on YAML nodes. */
module CppRouteClosure {
  import opened Bytes
  import opened Text
  import opened BusSelection
  import opened RoutePlans
  import RC = RouteClosure

  type Scalars = map<string, string>

  // A route node: scalar entries, and the entries that are maps or sequences.
  datatype Node = Node(
    scalars: Scalars,
    enabled: Option<bool>,
    payload: Option<Scalars>,
    contract: Option<Scalars>,
    metadata: Option<Scalars>,
    middlewares: Option<seq<string>>,
    bindings: Option<seq<Node>>,
    routes: Option<seq<Node>>)
  {
    function Scalar(key: string): string {
      if key in scalars then scalars[key] else ""
    }

    function Section(kind: Kind): Option<Scalars> {
      if kind.Topic? then payload else contract
    }

    function Bindings(): Option<seq<Node>> {
      if bindings.Some? then bindings else routes
    }
  }

  function Entry(section: Option<Scalars>, key: string): string {
    if section.Some? && key in section.value then section.value[key] else ""
  }

  function FirstNonEmpty(values: seq<string>): string {
    if values == [] then "" else if values[0] != "" then values[0] else FirstNonEmpty(values[1..])
  }

  // MergedNode: the base's nested lists are dropped, the binding's entries win.
  function MergedNode(base: Node, binding: Node): Node {
    Node(base.scalars + binding.scalars,
         if binding.enabled.Some? then binding.enabled else base.enabled,
         if binding.payload.Some? then binding.payload else base.payload,
         if binding.contract.Some? then binding.contract else base.contract,
         if binding.metadata.None? then base.metadata
         else if base.metadata.None? then binding.metadata
         else Some(base.metadata.value + binding.metadata.value),
         if binding.middlewares.Some? then binding.middlewares else base.middlewares,
         binding.bindings,
         binding.routes)
  }

  const Nothing := Node(map[], None, None, None, None, None, None, None)

  /** Merging an empty binding drops the nested lists and nothing else; merging into an empty base gives
      the binding; and merging twice is merging the merged. */
  lemma MergedNodeLaws(base: Node, b: Node, c: Node)
    ensures MergedNode(base, Nothing) == base.(bindings := None, routes := None)
    ensures MergedNode(Nothing, b) == b
    ensures MergedNode(MergedNode(base, b), c) == MergedNode(base, MergedNode(b, c))
    ensures forall key :: MergedNode(base, b).Scalar(key) == if key in b.scalars then b.Scalar(key) else base.Scalar(key)
  {
    assert base.scalars + map[] == base.scalars && map[] + b.scalars == b.scalars;
    assert (base.scalars + b.scalars) + c.scalars == base.scalars + (b.scalars + c.scalars);
    if base.metadata.Some? && b.metadata.Some? && c.metadata.Some? {
      assert (base.metadata.value + b.metadata.value) + c.metadata.value == base.metadata.value + (b.metadata.value + c.metadata.value);
    }
  }

  function Single(route: Node, middleware: string): Node {
    route.(scalars := route.scalars["middleware" := middleware], middlewares := None, bindings := None, routes := None)
  }

  predicate IsHighLevel(n: Node) {
    && (n.Scalar("data") != "" || n.Scalar("data_format") != "" || n.Scalar("type") != "" || n.Scalar("middleware") != ""
        || Entry(n.payload, "type") != "" || Entry(n.contract, "type") != "" || n.Scalar("message_type") != "" || n.Scalar("service_type") != "")
    && n.Scalar("transport") == ""
    && n.Bindings().None?
  }

  // ----- Plans

  // No trimming here, and a default format for no data at all.
  function CppFormat(kind: Kind, data: string): string {
    var t := Lowered(data);
    match kind
    case Topic =>
      if t in ["proto", "protobuf", "protobuf_message"] then "protobuf"
      else if t in ["msg", "ros2_msg", "rosidl_msg"] then "ros2_msg"
      else if t in ["dds_idl", "omg_idl", "omg_dds_idl", "ddsidl", "omgidl"] then "dds_idl"
      else if t in ["bytes", "raw", "cdr", "cdr_bytes", ""] then "bytes"
      else t
    case Service =>
      if t in ["proto", "protobuf", "protobuf_rpc", "request_reply", "request_response"] then "protobuf_rpc"
      else if t in ["srv", "ros2_srv", "rosidl_srv"] then "ros2_srv"
      else if t in ["dds_idl", "omg_idl", "omg_dds_idl", "ddsidl", "omgidl", "dds_idl_rpc", "omg_idl_rpc", "omg_dds_rpc_idl"] then "dds_idl_rpc"
      else if t == "json" then "json_rpc"
      else if t in ["bytes", "raw", "cdr", "cdr_bytes", ""] then "bytes_rpc"
      else t
  }

  function CppInferred(kind: Kind, typ: string): string {
    if Contains(typ, if kind.Topic? then "/msg/" else "/srv/") then (if kind.Topic? then "ros2_msg" else "ros2_srv")
    else if Contains(typ, "::") then (if kind.Topic? then "dds_idl" else "dds_idl_rpc")
    else if typ == "" then ""
    else if kind.Topic? then "protobuf" else "protobuf_rpc"
  }

  function CppFormatFor(kind: Kind, data: string, typ: string): string {
    if Lowered(data) != "" then CppFormat(kind, data)
    else if CppInferred(kind, typ) != "" then CppInferred(kind, typ)
    else CppFormat(kind, data)
  }

  predicate CppIsNativeDds(kind: Kind, format: string) {
    Lowered(format) in if kind.Topic? then ["protobuf", "dds_idl"] else ["protobuf_rpc", "dds_idl_rpc"]
  }

  function CppProtocol(value: string): Result<Protocol> {
    var t := Lowered(value);
    if t in ["nats", "nats_topic", "nats_rpc"] then Success(NatsProtocol)
    else if t in ["cyclonedds", "cyclone_dds"] then Success(CycloneProtocol)
    else if t in ["fastdds", "fast_dds", "fastrtps", "fast_rtps"] then Success(FastProtocol)
    else if t in ["ros2", "ros2_topic", "ros2_service"] then Success(Ros2Protocol)
    else if t == "" then Failure(MIDDLEWARE_REQUIRED)
    else Failure(MIDDLEWARE_UNSUPPORTED)
  }

  function CppExecutionPlan(kind: Kind, protocol: string, data: string): Result<Plan> {
    var p :- CppProtocol(protocol);
    Success(PlanOf(kind, p, CppIsNativeDds(kind, CppFormat(kind, data))))
  }

  function CppTransport(value: string): Result<TransportKind> {
    var t := Lowered(value);
    if t in ["ros2", "ros2_topic", "ros2_service"] then Success(Ros2)
    else if t in ["nats", "nats_topic", "nats_rpc"] then Success(Nats)
    else if t in ["dds", "cyclonedds", "cyclone_dds", "dds_topic", "cyclonedds_topic", "dds_rpc", "cyclonedds_rpc"] then Success(CycloneDds)
    else if t in ["fastdds", "fast_dds", "fastrtps", "fast_rtps", "fastdds_topic", "fastdds_rpc"] then Success(FastDds)
    else if t == "zenoh" then Success(Zenoh)
    else if t == "grpc" then Success(Grpc)
    else if t == "mqtt" then Success(Mqtt)
    else if t == "" || t == "in_process" then Success(InProcess)
    else Failure(UNSUPPORTED_TRANSPORT)
  }

  // ----- Agreement with the Go plans

  predicate Trimmed(s: string) {
    Trim(s) == s
  }

  lemma TrimmedToken(s: string)
    requires Trimmed(s)
    ensures Token(s) == Lowered(s) && (Blank(s) <==> s == "") && (Lowered(s) == "" <==> s == "")
  {
  }

  lemma ProtocolsAgree(v: string)
    requires Trimmed(v)
    ensures NormalizeRouteMiddlewareProtocol(v) == CppProtocol(v)
  {
    hide Token, Lowered, Trimmed;
    TrimmedToken(v);
  }

  /** Both languages give a trimmed transport name the same meaning, except that only C++ has a
      default for none. */
  lemma TransportsAgree(v: string)
    requires Trimmed(v)
    ensures CppTransport(v) == if v == "" then Success(InProcess) else NormalizeServiceTransport(v)
  {
    hide Token, Lowered, Trimmed;
    TrimmedToken(v);
  }

  lemma FormatsAgree(kind: Kind, data: string)
    requires Trimmed(data)
    ensures data != "" ==> CppFormat(kind, data) == Format(kind, data)
    ensures data == "" ==> CppFormat(kind, data) == (if kind.Topic? then "bytes" else "bytes_rpc") && Format(kind, data) == ""
  {
    hide Token, Lowered, Trimmed;
    TrimmedToken(data);
  }

  lemma NativesAgree(kind: Kind, data: string)
    requires Trimmed(data)
    ensures CppIsNativeDds(kind, CppFormat(kind, data)) == IsNativeDds(kind, Format(kind, data))
  {
    hide Token, Trimmed, Format, CppFormat;
    FormatsAgree(kind, data);
    FormatTwice(kind, data);
    FormatLowered(kind, data);
    EmptyIsNotNative(kind);
  }

  lemma FormatLowered(kind: Kind, data: string)
    ensures Lowered(Format(kind, data)) == Format(kind, data)
  {
    hide Format, Lowered;
    FormatToken(kind, data);
    LoweredTwice(Trim(Format(kind, data)));
  }

  lemma EmptyIsNotNative(kind: Kind)
    ensures !IsNativeDds(kind, "") && !CppIsNativeDds(kind, if kind.Topic? then "bytes" else "bytes_rpc")
  {
  }

  lemma TokenTrimmed(s: string)
    requires Token(s) == s
    ensures Trimmed(s)
  {
    TrimmedShortens(s, IsSpace);
  }

  lemma InferredAgrees(kind: Kind, typ: string)
    requires Trimmed(typ)
    ensures CppInferred(kind, typ) == Inferred(kind, typ) && Token(Inferred(kind, typ)) == Inferred(kind, typ)
  {
    hide Token, Contains, Blank;
    TrimmedToken(typ);
    FormatNames();
    TokenTwice("");
    TrimmedToken("");
  }

  lemma BytesFormat(kind: Kind)
    ensures var f := if kind.Topic? then "bytes" else "bytes_rpc"; CppFormat(kind, f) == f
  {
  }

  // The formats may differ by C++'s default, but not in whether they are native.
  lemma NativeFormatsAgree(kind: Kind, data: string, typ: string)
    requires Trimmed(data) && Trimmed(typ)
    ensures CppIsNativeDds(kind, CppFormat(kind, CppFormatFor(kind, data, typ)))
         == IsNativeDds(kind, Format(kind, FormatFor(kind, data, typ)))
  {
    hide Token, Trimmed, Format, CppFormat, IsNativeDds, CppIsNativeDds, Inferred, CppInferred, Blank, Lowered;
    TrimmedToken(data);
    InferredAgrees(kind, typ);
    FormatsAgree(kind, data);
    var f := if data != "" then Format(kind, data) else Inferred(kind, typ);
    FormatToken(kind, data);
    TokenTrimmed(f);
    NativesAgree(kind, f);
    BytesFormat(kind);
    EmptyIsNotNative(kind);
    FormatTwice(kind, data);
  }

  /** Both languages run a high-level route with trimmed entries by the same plan. */
  lemma PlansAgree(kind: Kind, v: string, data: string, typ: string)
    requires Trimmed(v) && Trimmed(data) && Trimmed(typ)
    ensures CppExecutionPlan(kind, v, CppFormatFor(kind, data, typ)) == ExecutionPlan(kind, v, FormatFor(kind, data, typ))
  {
    hide Trimmed, CppFormatFor, FormatFor, CppFormat, Format, CppIsNativeDds, IsNativeDds, CppProtocol, NormalizeRouteMiddlewareProtocol, PlanOf;
    ProtocolsAgree(v);
    NativeFormatsAgree(kind, data, typ);
  }

  /** Only Go trims: the same name with a space before it is a plan in Go and an error in C++. */
  lemma SpacedNameDiffers(kind: Kind, data: string)
    ensures ExecutionPlan(kind, " nats", data).Success? && CppExecutionPlan(kind, " nats", data).Failure?
  {
    hide Token, Lowered;
    SpacedNats();
  }

  lemma SpacedNats()
    ensures Token(" nats") == "nats" && Lowered(" nats") == " nats"
  {
    ProperName("nats");
    assert " nats"[1..] == "nats";
  }

  function TypeOf(kind: Kind, n: Node): string {
    match kind
    case Topic =>
      FirstNonEmpty([Entry(n.payload, "type"), n.Scalar("type"), n.Scalar("message_type"), n.Scalar("msg_type"), n.Scalar("ros_message_type")])
    case Service =>
      FirstNonEmpty([Entry(n.contract, "type"), n.Scalar("type"), n.Scalar("service_type"), n.Scalar("message_type"), n.Scalar("ros_service_type")])
  }

  function DataOf(kind: Kind, n: Node): string {
    FirstNonEmpty([n.Scalar("data"), n.Scalar("data_format"), Entry(n.Section(kind), "format")])
  }

  // ----- First pass

  // The plan of a node that refers to default middleware; a failure stops the loader.
  function Reference(kind: Kind, n: Node): Result<Option<Plan>> {
    if !IsHighLevel(n) || n.Scalar("middleware") == "" then Success(None)
    else
      var plan :- CppExecutionPlan(kind, n.Scalar("middleware"), CppFormatFor(kind, DataOf(kind, n), TypeOf(kind, n)));
      Success(Some(plan))
  }

  function Singles(route: Node): seq<Node>
    requires route.middlewares.Some?
  {
    seq(|route.middlewares.value|, i requires 0 <= i < |route.middlewares.value| => Single(route, route.middlewares.value[i]))
  }

  function Merged(route: Node): seq<Node>
    requires route.Bindings().Some?
  {
    seq(|route.Bindings().value|, i requires 0 <= i < |route.Bindings().value| => MergedNode(route, route.Bindings().value[i]))
  }

  // The nodes a route stands for, as the first pass looks at them: bindings come first.
  function Considered(route: Node): seq<Node> {
    if route.Bindings().Some? then Merged(route) else if route.middlewares.Some? then Singles(route) else [route]
  }

  // The nodes the second pass adds: `middlewares` come first.
  function Added(route: Node): seq<Node> {
    if route.middlewares.Some? then Singles(route) else if route.Bindings().Some? then Merged(route) else [route]
  }

  type Table = map<string, TransportKind>

  ghost predicate Supplied(kind: Kind, n: Node, table: Table) {
    Reference(kind, n).Success?
    && (Reference(kind, n).value.Some? ==> Reference(kind, n).value.value.RuntimeMiddlewareName() in table)
  }

  // What was there stays, and what is new has the transport its name stands for.
  ghost predicate Extends(before: Table, after: Table) {
    forall n :: (n in before ==> n in after && after[n] == before[n]) && (n in after && n !in before ==> after[n] == RuntimeTransport(n))
  }

  method Consider(kind: Kind, n: Node, table: Table) returns (r: Result<Table>)
    ensures match Reference(kind, n)
            case Failure(e) => r == Failure(e)
            case Success(None) => r == Success(table)
            case Success(Some(plan)) =>
              var runtime := plan.RuntimeMiddlewareName();
              r == Success(if runtime in table then table else table[runtime := RuntimeTransport(runtime)])
  {
    hide CppExecutionPlan, CppFormatFor, IsHighLevel, TypeOf, DataOf, Blank, RuntimeTransport;
    if !IsHighLevel(n) {
      return Success(table);
    }
    var protocol := n.Scalar("middleware");
    if protocol == "" {
      return Success(table);
    }
    var plan := CppExecutionPlan(kind, protocol, CppFormatFor(kind, DataOf(kind, n), TypeOf(kind, n)));
    if plan.Failure? {
      return Failure(plan.error);
    }
    CppPlanAgrees(kind, protocol, CppFormatFor(kind, DataOf(kind, n), TypeOf(kind, n)));
    var runtime := plan.value.RuntimeMiddlewareName();
    if plan.value.transport.InProcess? || runtime == "" || runtime in table {
      return Success(table);
    }
    return Success(table[runtime := plan.value.transport]);
  }

  lemma ExtendsLaws(a: Table, b: Table, c: Table)
    ensures Extends(a, a)
    ensures Extends(a, b) && Extends(b, c) ==> Extends(a, c)
  {
  }

  lemma SuppliedStays(kind: Kind, n: Node, a: Table, b: Table)
    requires Supplied(kind, n, a) && Extends(a, b)
    ensures Supplied(kind, n, b)
  {
  }

  lemma CppPlanAgrees(kind: Kind, protocol: string, data: string)
    requires CppExecutionPlan(kind, protocol, data).Success?
    ensures var p := CppExecutionPlan(kind, protocol, data).value;
            && p.transportName != "" && CppTransport(p.transportName) == Success(p.transport) && !p.transport.InProcess?
            && p.RuntimeMiddlewareName() != "" && RuntimeTransport(p.RuntimeMiddlewareName()) == p.transport
  {
    hide RuntimeTransport, CppProtocol, CppFormat, CppIsNativeDds, Token, NormalizeServiceTransport, PlanOf, CppTransport, Plan.RuntimeMiddlewareName, Blank;
    var q, native := CppProtocol(protocol).value, CppIsNativeDds(kind, CppFormat(kind, data));
    PlanAgrees(kind, q, native);
    CppTransportName(kind, q, native);
    BlankNothing();
  }

  lemma BlankNothing()
    ensures Blank("")
  {
  }

  lemma CppTransportName(kind: Kind, protocol: Protocol, native: bool)
    ensures var p := PlanOf(kind, protocol, native);
            p.transportName != "" && CppTransport(p.transportName) == Success(p.transport) && !p.transport.InProcess?
  {
    LoweredName(kind, protocol, native);
    hide Lowered;
  }

  lemma LoweredName(kind: Kind, protocol: Protocol, native: bool)
    ensures Lowered(PlanOf(kind, protocol, native).transportName) == PlanOf(kind, protocol, native).transportName
  {
  }

  // Some node that route i stands for refers to this name.
  ghost predicate Named(kind: Kind, routes: seq<(string, Node)>, name: string) {
    exists i, j :: 0 <= i < |routes| && 0 <= j < |Considered(routes[i].1)| && RefersTo(kind, Considered(routes[i].1)[j], name)
  }

  predicate RefersTo(kind: Kind, n: Node, name: string) {
    Reference(kind, n).Success? && Reference(kind, n).value.Some? && Reference(kind, n).value.value.RuntimeMiddlewareName() == name
  }

  // One node's contribution.
  lemma ConsiderLaws(kind: Kind, n: Node, before: Table, after: Table)
    requires match Reference(kind, n)
             case Failure(_) => false
             case Success(None) => after == before
             case Success(Some(plan)) =>
               var runtime := plan.RuntimeMiddlewareName();
               after == if runtime in before then before else before[runtime := RuntimeTransport(runtime)]
    ensures Extends(before, after) && Supplied(kind, n, after)
    ensures forall name :: name in after ==> name in before || RefersTo(kind, n, name)
  {
    hide Reference, RuntimeTransport;
  }

  method AddReferencedDefaultMiddleware(kind: Kind, routes: seq<(string, Node)>, table: Table) returns (r: Result<Table>)
    ensures r.Success? ==> Extends(table, r.value)
    ensures r.Success? ==> forall i, n :: 0 <= i < |routes| && n in Considered(routes[i].1) ==> Supplied(kind, n, r.value)
    ensures r.Success? ==> forall name :: name in r.value ==> name in table || Named(kind, routes, name)
    ensures r.Failure? ==> exists i, j :: 0 <= i < |routes| && 0 <= j < |Considered(routes[i].1)| && Reference(kind, Considered(routes[i].1)[j]).Failure?
  {
    hide Extends, Supplied, Considered, Reference, RefersTo;
    var out := table;
    ExtendsLaws(table, table, table);
    for i := 0 to |routes|
      invariant Extends(table, out)
      invariant forall name :: name in out ==> name in table || Named(kind, routes, name)
      invariant forall j, n :: 0 <= j < i && n in Considered(routes[j].1) ==> Supplied(kind, n, out)
    {
      var nodes := Considered(routes[i].1);
      for j := 0 to |nodes|
        invariant Extends(table, out)
        invariant forall name :: name in out ==> name in table || Named(kind, routes, name)
        invariant forall k, n :: 0 <= k < i && n in Considered(routes[k].1) ==> Supplied(kind, n, out)
        invariant forall k :: 0 <= k < j ==> Supplied(kind, nodes[k], out)
      {
        var next := Consider(kind, nodes[j], out);
        if next.Failure? {
          return Failure(next.error);
        }
        ConsiderLaws(kind, nodes[j], out, next.value);
        ExtendsLaws(table, out, next.value);
        forall n | Supplied(kind, n, out)
          ensures Supplied(kind, n, next.value)
        {
          SuppliedStays(kind, n, out, next.value);
        }
        out := next.value;
      }
    }
    return Success(out);
  }

  // ----- Second pass

  function WithExecutionMetadata(metadata: Option<Scalars>, plan: Plan): Scalars {
    RC.PutExecutionMetadata(if metadata.Some? then metadata.value else map[], plan)
  }

  function WithDefault(section: Scalars, key: string, value: string): Scalars {
    if key in section then section else section[key := value]
  }

  // Whether the node or its metadata names an adapter.
  predicate HasAdapter(n: Node) {
    n.Scalar("adapter") != "" || Entry(n.metadata, "adapter") != "" || Entry(n.metadata, "ros2.adapter") != ""
  }

  function WithPlan(kind: Kind, n: Node, plan: Plan, section: Scalars): Node {
    n.(scalars := n.scalars["transport" := plan.transportName]
                  + (if plan.middlewareName != "" then map["middleware" := plan.middlewareName] else map[]),
       payload := if kind.Topic? then Some(section) else n.payload,
       contract := if kind.Service? then Some(section) else n.contract,
       metadata := Some(WithExecutionMetadata(n.metadata, plan)))
  }

  function WithType(kind: Kind, n: Node, section: Scalars): Node
    requires "format" in section && "type" in section
  {
    var key := if kind.Topic? then "message_type" else "service_type";
    if section["format"] == (if kind.Topic? then "ros2_msg" else "ros2_srv") && n.Scalar(key) == ""
    then n.(scalars := n.scalars[key := section["type"]]) else n
  }

  function Normalized(kind: Kind, n: Node): Result<Node> {
    if !IsHighLevel(n) then Success(n)
    else
      var typ := TypeOf(kind, n);
      var format := CppFormatFor(kind, DataOf(kind, n), typ);
      var plan :- CppExecutionPlan(kind, n.Scalar("middleware"), format);
      var given := n.Section(kind);
      var section := WithDefault(WithDefault(if given.Some? then given.value else map[], "format", format), "type", typ);
      var typed := WithType(kind, WithPlan(kind, n, plan, section), section);
      var wraps := if kind.Topic? then plan.transportName == "ros2_topic" && section["format"] == "protobuf"
                   else plan.transportName == "ros2_service" && section["format"] == "protobuf_rpc";
      Success(if wraps && !HasAdapter(typed) then typed.(scalars := typed.scalars["adapter" := "ros2_proto_envelope"]) else typed)
  }

  // As in the Go model: compatibility errors, and what codecs, adapters and options add to the metadata.
  datatype Surroundings = Surroundings(
    compatible: (Kind, string, Node, TransportKind) -> bool,
    added: (Kind, string, Node) -> Scalars)
  {
    ghost predicate Lawful() {
      forall kind, name, n :: "middleware.runtime" !in added(kind, name, n)
    }
  }

  datatype Channel = Channel(name: string, transport: TransportKind, metadata: Scalars)

  // AddTopicRoute and AddServiceRoute: the channel or server endpoint, if the node is enabled.
  function ChannelOf(w: Surroundings, kind: Kind, name: string, node: Node): Result<Option<Channel>> {
    var n :- Normalized(kind, node);
    if n.enabled == Some(false) then Success(None)
    else
      var transport :- CppTransport(if n.Scalar("transport") == "" then (if kind.Topic? then "nats_topic" else "nats_rpc") else n.Scalar("transport"));
      if !w.compatible(kind, name, n, transport) then Failure(RC.INCOMPATIBLE)
      else
        var metadata := (if n.metadata.Some? then n.metadata.value else map[])
                        + (if n.Scalar("middleware") != "" then map["middleware" := n.Scalar("middleware")] else map[])
                        + w.added(kind, name, n);
        Success(Some(Channel(name, transport, metadata)))
  }

  function NodeName(name: string, route: Node, j: nat): string
    requires j < |Added(route)|
  {
    if route.middlewares.Some? then name + "_" + RC.RouteName(route.middlewares.value[j]) else name
  }

  // Node j of route i gave its channel.
  ghost predicate AddedTo(w: Surroundings, kind: Kind, routes: seq<(string, Node)>, i: nat, j: nat, out: seq<Channel>)
    requires i < |routes| && j < |Added(routes[i].1)|
  {
    var ch := ChannelOf(w, kind, NodeName(routes[i].0, routes[i].1, j), Added(routes[i].1)[j]);
    ch.Success? && (ch.value.Some? ==> ch.value.value in out)
  }

  ghost predicate ComesFrom(w: Surroundings, kind: Kind, routes: seq<(string, Node)>, ch: Channel) {
    exists i, j :: 0 <= i < |routes| && 0 <= j < |Added(routes[i].1)|
                   && ChannelOf(w, kind, NodeName(routes[i].0, routes[i].1, j), Added(routes[i].1)[j]) == Success(Some(ch))
  }

  lemma AddedToStays(w: Surroundings, kind: Kind, routes: seq<(string, Node)>, i: nat, j: nat, out: seq<Channel>, more: seq<Channel>)
    requires i < |routes| && j < |Added(routes[i].1)| && AddedTo(w, kind, routes, i, j, out)
    ensures AddedTo(w, kind, routes, i, j, out + more)
  {
  }

  method ExpandRoutes(w: Surroundings, kind: Kind, routes: seq<(string, Node)>) returns (r: Result<seq<Channel>>)
    ensures r.Success? ==> forall i, j :: 0 <= i < |routes| && 0 <= j < |Added(routes[i].1)| ==> AddedTo(w, kind, routes, i, j, r.value)
    ensures r.Success? ==> forall ch :: ch in r.value ==> ComesFrom(w, kind, routes, ch)
    ensures r.Failure? ==> exists i, j :: 0 <= i < |routes| && 0 <= j < |Added(routes[i].1)|
                                          && ChannelOf(w, kind, NodeName(routes[i].0, routes[i].1, j), Added(routes[i].1)[j]).Failure?
  {
    hide ChannelOf, Added, NodeName;
    var out: seq<Channel> := [];
    for i := 0 to |routes|
      invariant forall k, l :: 0 <= k < i && 0 <= l < |Added(routes[k].1)| ==> AddedTo(w, kind, routes, k, l, out)
      invariant forall ch :: ch in out ==> ComesFrom(w, kind, routes, ch)
    {
      var (name, route) := routes[i];
      var nodes := Added(route);
      for j := 0 to |nodes|
        invariant forall k, l :: 0 <= k < i && 0 <= l < |Added(routes[k].1)| ==> AddedTo(w, kind, routes, k, l, out)
        invariant forall l :: 0 <= l < j ==> AddedTo(w, kind, routes, i, l, out)
        invariant forall ch :: ch in out ==> ComesFrom(w, kind, routes, ch)
      {
        var channel := ChannelOf(w, kind, NodeName(name, route, j), nodes[j]);
        if channel.Failure? {
          return Failure(channel.error);
        }
        var more := if channel.value.Some? then [channel.value.value] else [];
        forall k, l | 0 <= k < |routes| && 0 <= l < |Added(routes[k].1)| && AddedTo(w, kind, routes, k, l, out)
          ensures AddedTo(w, kind, routes, k, l, out + more)
        {
          AddedToStays(w, kind, routes, k, l, out, more);
        }
        out := out + more;
      }
    }
    return Success(out);
  }

  // ----- The loader

  datatype Loaded = Loaded(middleware: Table, topics: seq<Channel>, services: seq<Channel>)

  ghost predicate LoadedFrom(w: Surroundings, configured: Table, topics: seq<(string, Node)>, services: seq<(string, Node)>, l: Loaded) {
    && Extends(configured, l.middleware)
    && (forall name :: name in l.middleware ==> name in configured || Named(Topic, topics, name) || Named(Service, services, name))
    && (forall i, n :: 0 <= i < |topics| && n in Considered(topics[i].1) ==> Supplied(Topic, n, l.middleware))
    && (forall i, n :: 0 <= i < |services| && n in Considered(services[i].1) ==> Supplied(Service, n, l.middleware))
    && (forall i, j :: 0 <= i < |topics| && 0 <= j < |Added(topics[i].1)| ==> AddedTo(w, Topic, topics, i, j, l.topics))
    && (forall i, j :: 0 <= i < |services| && 0 <= j < |Added(services[i].1)| ==> AddedTo(w, Service, services, i, j, l.services))
    && (forall ch :: ch in l.topics ==> ComesFrom(w, Topic, topics, ch))
    && (forall ch :: ch in l.services ==> ComesFrom(w, Service, services, ch))
  }

  // A node without plan, or without channel.
  ghost predicate Unloadable(w: Surroundings, kind: Kind, routes: seq<(string, Node)>) {
    || (exists i, j :: 0 <= i < |routes| && 0 <= j < |Considered(routes[i].1)| && Reference(kind, Considered(routes[i].1)[j]).Failure?)
    || (exists i, j :: 0 <= i < |routes| && 0 <= j < |Added(routes[i].1)|
                       && ChannelOf(w, kind, NodeName(routes[i].0, routes[i].1, j), Added(routes[i].1)[j]).Failure?)
  }

  method Load(w: Surroundings, configured: Table, topics: seq<(string, Node)>, services: seq<(string, Node)>) returns (r: Result<Loaded>)
    ensures r.Success? ==> LoadedFrom(w, configured, topics, services, r.value)
    ensures r.Failure? ==> Unloadable(w, Topic, topics) || Unloadable(w, Service, services)
  {
    hide Extends, Supplied, Considered, Added, AddedTo, ComesFrom, ChannelOf, Reference, NodeName, Named;
    var first := AddReferencedDefaultMiddleware(Topic, topics, configured);
    if first.Failure? {
      return Failure(first.error);
    }
    var second := AddReferencedDefaultMiddleware(Service, services, first.value);
    if second.Failure? {
      return Failure(second.error);
    }
    ExtendsLaws(configured, first.value, second.value);
    forall n | Supplied(Topic, n, first.value)
      ensures Supplied(Topic, n, second.value)
    {
      SuppliedStays(Topic, n, first.value, second.value);
    }
    var channels := ExpandRoutes(w, Topic, topics);
    if channels.Failure? {
      return Failure(channels.error);
    }
    var servers := ExpandRoutes(w, Service, services);
    if servers.Failure? {
      return Failure(servers.error);
    }
    return Success(Loaded(second.value, channels.value, servers.value));
  }

  // ----- Closure

  /** Both passes compute one plan for a high-level node. */
  lemma PassesAgree(kind: Kind, n: Node)
    requires IsHighLevel(n) && Normalized(kind, n).Success?
    ensures Reference(kind, n).Success? && Reference(kind, n).value.Some?
    ensures var plan, m := Reference(kind, n).value.value, Normalized(kind, n).value;
            && m.Scalar("transport") == plan.transportName && m.metadata.Some? && m.enabled == n.enabled
            && "middleware.runtime" in m.metadata.value && m.metadata.value["middleware.runtime"] == plan.RuntimeMiddlewareName()
            && plan.transportName != "" && CppTransport(plan.transportName) == Success(plan.transport)
            && RuntimeTransport(plan.RuntimeMiddlewareName()) == plan.transport
  {
    hide CppFormatFor, CppExecutionPlan, RuntimeTransport, CppTransport, TypeOf, DataOf, HasAdapter, Blank, WithExecutionMetadata, Plan.RuntimeMiddlewareName;
    var format := CppFormatFor(kind, DataOf(kind, n), TypeOf(kind, n));
    NoMiddleware(kind, format);
    CppPlanAgrees(kind, n.Scalar("middleware"), format);
    RuntimeWritten(n.metadata, CppExecutionPlan(kind, n.Scalar("middleware"), format).value);
  }

  lemma RuntimeWritten(metadata: Option<Scalars>, plan: Plan)
    requires plan.RuntimeMiddlewareName() != ""
    ensures var m := WithExecutionMetadata(metadata, plan);
            "middleware.runtime" in m && m["middleware.runtime"] == plan.RuntimeMiddlewareName()
  {
    hide Plan.RuntimeMiddlewareName;
  }

  lemma NoMiddleware(kind: Kind, data: string)
    ensures CppExecutionPlan(kind, "", data).Failure?
  {
    assert Lowered("") == "";
  }

  lemma ChannelKeepsRuntime(w: Surroundings, kind: Kind, name: string, node: Node)
    requires w.Lawful() && IsHighLevel(node) && ChannelOf(w, kind, name, node).Success? && ChannelOf(w, kind, name, node).value.Some?
    ensures Reference(kind, node).Success? && Reference(kind, node).value.Some?
    ensures var plan, ch := Reference(kind, node).value.value, ChannelOf(w, kind, name, node).value.value;
            && "middleware.runtime" in ch.metadata && ch.metadata["middleware.runtime"] == plan.RuntimeMiddlewareName()
            && ch.transport == plan.transport && RuntimeTransport(plan.RuntimeMiddlewareName()) == plan.transport
  {
    hide Normalized, Reference, CppTransport, IsHighLevel, RuntimeTransport, Blank;
    PassesAgree(kind, node);
  }

  /** The two passes look at the same nodes of a route that does not carry both lists. */
  lemma SameNodes(route: Node)
    requires route.middlewares.None? || route.Bindings().None?
    ensures Considered(route) == Added(route)
  {
  }

  // A configured middleware, or a node that the first pass looks at, has this name.
  ghost predicate Known(configured: Table, topics: seq<(string, Node)>, services: seq<(string, Node)>, runtime: string) {
    runtime in configured || Named(Topic, topics, runtime) || Named(Service, services, runtime)
  }

  lemma TableExactly(w: Surroundings, configured: Table, topics: seq<(string, Node)>, services: seq<(string, Node)>, l: Loaded, runtime: string)
    requires LoadedFrom(w, configured, topics, services, l)
    ensures runtime in l.middleware <==> Known(configured, topics, services, runtime)
  {
    hide Considered, Reference, Added, AddedTo, ComesFrom, RuntimeTransport;
    if Named(Topic, topics, runtime) {
      var i, j :| 0 <= i < |topics| && 0 <= j < |Considered(topics[i].1)| && RefersTo(Topic, Considered(topics[i].1)[j], runtime);
      assert Supplied(Topic, Considered(topics[i].1)[j], l.middleware);
    }
    if Named(Service, services, runtime) {
      var i, j :| 0 <= i < |services| && 0 <= j < |Considered(services[i].1)| && RefersTo(Service, Considered(services[i].1)[j], runtime);
      assert Supplied(Service, Considered(services[i].1)[j], l.middleware);
    }
  }

  function RoutesOf(kind: Kind, topics: seq<(string, Node)>, services: seq<(string, Node)>): seq<(string, Node)> {
    if kind.Topic? then topics else services
  }

  /** Exactly when a channel gets its middleware: after loading, the channel of every enabled high-level node,
      of whatever route, has its plan's runtime name and transport, and the middleware it names exists if and
      only if one of that name is configured or a node that the first pass looks at refers to it; its
      transport is then the plan's too, unless it was configured with another. */
  lemma Closure(w: Surroundings, configured: Table, topics: seq<(string, Node)>, services: seq<(string, Node)>, l: Loaded,
                kind: Kind, i: nat, j: nat)
    requires w.Lawful() && LoadedFrom(w, configured, topics, services, l)
    requires var routes := RoutesOf(kind, topics, services);
             i < |routes| && j < |Added(routes[i].1)| && IsHighLevel(Added(routes[i].1)[j])
    ensures var routes := RoutesOf(kind, topics, services);
            var name, node := NodeName(routes[i].0, routes[i].1, j), Added(routes[i].1)[j];
            && ChannelOf(w, kind, name, node).Success?
            && (ChannelOf(w, kind, name, node).value.Some? <==> node.enabled != Some(false))
            && (node.enabled != Some(false) ==>
                  && Reference(kind, node).Success? && Reference(kind, node).value.Some?
                  && var plan, ch := Reference(kind, node).value.value, ChannelOf(w, kind, name, node).value.value;
                     var runtime := plan.RuntimeMiddlewareName();
                  && ch in (if kind.Topic? then l.topics else l.services)
                  && "middleware.runtime" in ch.metadata && ch.metadata["middleware.runtime"] == runtime
                  && ch.transport == plan.transport
                  && (runtime in l.middleware <==> Known(configured, topics, services, runtime))
                  && (runtime in l.middleware ==>
                        (l.middleware[runtime] == plan.transport <==> (runtime in configured ==> configured[runtime] == plan.transport))))
  {
    hide ChannelOf, Reference, IsHighLevel, RuntimeTransport, NodeName, Added, Considered, Surroundings.Lawful, ComesFrom, Known, Supplied;
    var routes := RoutesOf(kind, topics, services);
    var name, node := NodeName(routes[i].0, routes[i].1, j), Added(routes[i].1)[j];
    assert AddedTo(w, kind, routes, i, j, if kind.Topic? then l.topics else l.services);
    EnabledChannel(w, kind, name, node);
    if node.enabled != Some(false) {
      ChannelKeepsRuntime(w, kind, name, node);
      TableExactly(w, configured, topics, services, l, Reference(kind, node).value.value.RuntimeMiddlewareName());
    }
  }

  lemma EnabledChannel(w: Surroundings, kind: Kind, name: string, node: Node)
    requires IsHighLevel(node) && ChannelOf(w, kind, name, node).Success?
    ensures ChannelOf(w, kind, name, node).value.Some? <==> node.enabled != Some(false)
  {
    hide Normalized, Reference, CppTransport, RuntimeTransport, Blank;
    PassesAgree(kind, node);
  }

  /** For a route that carries only one of the two lists, or none, the condition always holds. */
  lemma OneListCloses(configured: Table, topics: seq<(string, Node)>, services: seq<(string, Node)>, kind: Kind, i: nat, j: nat)
    requires var routes := RoutesOf(kind, topics, services);
             && i < |routes| && j < |Added(routes[i].1)| && (routes[i].1.middlewares.None? || routes[i].1.Bindings().None?)
             && Reference(kind, Added(routes[i].1)[j]).Success? && Reference(kind, Added(routes[i].1)[j]).value.Some?
    ensures var routes := RoutesOf(kind, topics, services);
            Known(configured, topics, services, Reference(kind, Added(routes[i].1)[j]).value.value.RuntimeMiddlewareName())
  {
    hide Reference, Added, Considered;
    var routes := RoutesOf(kind, topics, services);
    SameNodes(routes[i].1);
    assert RefersTo(kind, Considered(routes[i].1)[j], Reference(kind, Added(routes[i].1)[j]).value.value.RuntimeMiddlewareName());
  }

  const Bare := Node(map[], None, None, None, None, None, None, None)

  const BothLists := Bare.(middlewares := Some(["cyclonedds"]), bindings := Some([]))

  const CycloneNode := Bare.(scalars := map["middleware" := "cyclonedds"])

  const Anything := Surroundings((kind, name, n, transport) => true, (kind, name, n) => map[])

  lemma CycloneNodeChannel(name: string) returns (ch: Channel)
    ensures ChannelOf(Anything, Topic, name, CycloneNode) == Success(Some(ch)) && "middleware.runtime" in ch.metadata
  {
    hide CppFormatFor, CppIsNativeDds, PlanOf, HasAdapter, TypeOf, DataOf, CppTransport, RuntimeTransport, Blank;
    assert Lowered("cyclonedds") == "cyclonedds";
    assert IsHighLevel(CycloneNode) && Normalized(Topic, CycloneNode).Success?;
    PassesAgree(Topic, CycloneNode);
    hide Normalized, Reference, Lowered;
    ch := ChannelOf(Anything, Topic, name, CycloneNode).value.value;
    ChannelKeepsRuntime(Anything, Topic, name, CycloneNode);
  }

  /** An instance of the condition failing: of a route that carries both lists the first pass looks at the
      bindings, here none, the second at `middlewares`, and the channel names a middleware that does not
      exist. */
  lemma BothListsEscape() returns (topics: seq<(string, Node)>, l: Loaded, ch: Channel)
    ensures Anything.Lawful() && LoadedFrom(Anything, map[], topics, [], l)
    ensures ch in l.topics && "middleware.runtime" in ch.metadata && ch.metadata["middleware.runtime"] !in l.middleware
    ensures forall runtime :: !Known(map[], topics, [], runtime)
  {
    hide ChannelOf, NodeName;
    topics := [("t", BothLists)];
    assert Added(BothLists) == [CycloneNode] && Considered(BothLists) == [];
    var name := NodeName("t", BothLists, 0);
    ch := CycloneNodeChannel(name);
    l := Loaded(map[], [ch], []);
    assert AddedTo(Anything, Topic, topics, 0, 0, l.topics);
    assert ComesFrom(Anything, Topic, topics, ch);
  }
}
