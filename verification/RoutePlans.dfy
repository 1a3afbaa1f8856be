/** The execution plans of high-level routes, as the Go configuration code computes them. */
module RoutePlans {
  import opened Bytes
  import opened Text
  import opened BusSelection

  datatype Kind = Topic | Service

  // ----- Text

  function Lowered(s: string): string {
    seq(|s|, i requires 0 <= i < |s| => Lower(s[i]))
  }

  // normalizeToken and normalizeDataFormat: trimmed, in lower case, with underscores.
  function Token(value: string): string {
    Lowered(Trim(value))
  }

  function DefaultString(value: string, fallback: string): string {
    if Blank(value) then fallback else value
  }

  predicate Contains(s: string, part: string) {
    (|part| <= |s| && s[..|part|] == part) || (s != "" && Contains(s[1..], part))
  }

  ghost predicate OccursAt(s: string, part: string, i: nat) {
    i + |part| <= |s| && s[i..i + |part|] == part
  }

  lemma {:induction false} ContainsExactly(s: string, part: string)
    ensures Contains(s, part) <==> exists i: nat :: OccursAt(s, part, i)
    decreases |s|
  {
    if |part| <= |s| && s[..|part|] == part {
      assert OccursAt(s, part, 0);
    } else if s != "" {
      var t := s[1..];
      ContainsExactly(t, part);
      if i: nat :| OccursAt(t, part, i) {
        assert t[i..i + |part|] == s[i + 1..i + 1 + |part|];
        assert OccursAt(s, part, i + 1);
      }
      if i: nat :| OccursAt(s, part, i) {
        assert i > 0 && t[i - 1..i - 1 + |part|] == s[i..i + |part|];
        assert OccursAt(t, part, i - 1);
      }
    }
  }

  // ----- Formats

  function Format(kind: Kind, data: string): string {
    var t := Token(data);
    match kind
    case Topic =>
      if t in ["proto", "protobuf", "protobuf_message"] then "protobuf"
      else if t in ["msg", "ros2_msg", "rosidl_msg"] then "ros2_msg"
      else if t in ["dds_idl", "omg_idl", "omg_dds_idl", "ddsidl", "omgidl"] then "dds_idl"
      else if t == "json" then "json"
      else if t in ["bytes", "raw", "cdr", "cdr_bytes"] then "bytes"
      else t
    case Service =>
      if t in ["proto", "protobuf", "protobuf_rpc", "request_reply", "request_response"] then "protobuf_rpc"
      else if t in ["srv", "ros2_srv", "rosidl_srv"] then "ros2_srv"
      else if t in ["dds_idl", "omg_idl", "omg_dds_idl", "ddsidl", "omgidl", "dds_idl_rpc", "omg_idl_rpc", "omg_dds_rpc_idl"] then "dds_idl_rpc"
      else if t == "json" then "json_rpc"
      else if t in ["bytes", "raw", "cdr", "cdr_bytes"] then "bytes_rpc"
      else t
  }

  function Inferred(kind: Kind, typ: string): string {
    if Contains(typ, if kind.Topic? then "/msg/" else "/srv/") then (if kind.Topic? then "ros2_msg" else "ros2_srv")
    else if Contains(typ, "::") then (if kind.Topic? then "dds_idl" else "dds_idl_rpc")
    else if !Blank(typ) then (if kind.Topic? then "protobuf" else "protobuf_rpc")
    else ""
  }

  function FormatFor(kind: Kind, data: string, typ: string): string {
    if !Blank(data) then Format(kind, data)
    else if Inferred(kind, typ) != "" then Inferred(kind, typ)
    else Format(kind, data)
  }

  predicate IsNativeDds(kind: Kind, format: string) {
    match kind
    case Topic => Format(kind, format) in ["protobuf", "dds_idl"]
    case Service => Format(kind, format) in ["protobuf_rpc", "dds_idl_rpc"]
  }

  // ----- Plans

  datatype Plan = Plan(
    transport: TransportKind,
    transportName: string,
    middlewareName: string,
    runtimeName: string,
    logicalProtocol: string,
    implementation: string)
  {
    function RuntimeMiddlewareName(): string {
      if !Blank(runtimeName) then runtimeName else middlewareName
    }
  }

  datatype Protocol = NatsProtocol | CycloneProtocol | FastProtocol | Ros2Protocol

  const MIDDLEWARE_REQUIRED := "high-level route middleware is required; use nats, cyclonedds, fastdds, or ros2"
  const MIDDLEWARE_UNSUPPORTED := "unsupported high-level route middleware"

  function NormalizeRouteMiddlewareProtocol(value: string): Result<Protocol> {
    var t := Token(value);
    if t in ["nats", "nats_topic", "nats_rpc"] then Success(NatsProtocol)
    else if t in ["cyclonedds", "cyclone_dds"] then Success(CycloneProtocol)
    else if t in ["fastdds", "fast_dds", "fastrtps", "fast_rtps"] then Success(FastProtocol)
    else if t in ["ros2", "ros2_topic", "ros2_service"] then Success(Ros2Protocol)
    else if t == "" then Failure(MIDDLEWARE_REQUIRED)
    else Failure(MIDDLEWARE_UNSUPPORTED)
  }

  // The plan of a protocol, over native DDS or over the ROS2 middleware.
  function PlanOf(kind: Kind, protocol: Protocol, native: bool): Plan {
    var ros2Name := if kind.Topic? then "ros2_topic" else "ros2_service";
    match protocol
    case CycloneProtocol =>
      if native then Plan(CycloneDds, if kind.Topic? then "cyclonedds_topic" else "cyclonedds_rpc", "cyclonedds", "cyclonedds", "cyclonedds", "native_cyclonedds")
      else Plan(Ros2, ros2Name, "cyclonedds", "cyclonedds__rmw", "cyclonedds", "rmw_cyclonedds")
    case FastProtocol =>
      if native then Plan(FastDds, if kind.Topic? then "fastdds_topic" else "fastdds_rpc", "fastdds", "fastdds", "fastdds", "native_fastdds")
      else Plan(Ros2, ros2Name, "fastdds", "fastdds__rmw", "fastdds", "rmw_fastrtps")
    case Ros2Protocol => Plan(Ros2, ros2Name, "ros2", "", "ros2", "")
    case NatsProtocol => Plan(Nats, if kind.Topic? then "nats_topic" else "nats_rpc", "nats", "", "nats", "")
  }

  function ExecutionPlan(kind: Kind, protocol: string, data: string): Result<Plan> {
    var p :- NormalizeRouteMiddlewareProtocol(protocol);
    Success(PlanOf(kind, p, IsNativeDds(kind, Format(kind, data))))
  }

  const UNSUPPORTED_TRANSPORT := "unsupported communication middleware"

  function NormalizeServiceTransport(value: string): Result<TransportKind> {
    var t := Token(value);
    if t in ["nats", "nats_rpc", "nats_topic"] then Success(Nats)
    else if t in ["dds", "cyclonedds", "cyclone_dds", "dds_topic", "cyclonedds_topic", "dds_rpc", "cyclonedds_rpc"] then Success(CycloneDds)
    else if t in ["fastdds", "fast_dds", "fastrtps", "fast_rtps", "fastdds_topic", "fastdds_rpc"] then Success(FastDds)
    else if t in ["ros2_topic", "ros2_service", "ros2"] then Success(Ros2)
    else if t == "in_process" then Success(InProcess)
    else if t == "zenoh" then Success(Zenoh)
    else if t == "grpc" then Success(Grpc)
    else if t == "mqtt" then Success(Mqtt)
    else Failure(UNSUPPORTED_TRANSPORT)
  }

  // The transport behind a runtime middleware name.
  function RuntimeTransport(name: string): TransportKind {
    if name == "cyclonedds" then CycloneDds
    else if name == "fastdds" then FastDds
    else if name == "nats" then Nats
    else Ros2
  }

  lemma ProperName(s: string)
    requires s != "" && !IsSpace(s[0]) && !IsSpace(s[|s| - 1])
    requires forall i :: 0 <= i < |s| ==> Lower(s[i]) == s[i]
    ensures !Blank(s) && Token(s) == s
  {
  }

  lemma TransportName(kind: Kind, protocol: Protocol, native: bool)
    ensures var p := PlanOf(kind, protocol, native);
            !Blank(p.transportName) && Token(p.transportName) == p.transportName
  {
    ProperName(PlanOf(kind, protocol, native).transportName);
  }

  lemma RuntimeName(kind: Kind, protocol: Protocol, native: bool)
    ensures var p := PlanOf(kind, protocol, native);
            !Blank(p.middlewareName) && (p.runtimeName != "" ==> !Blank(p.runtimeName)) && Blank("")
  {
  }

  /** A plan's parts agree: its transport name means its transport, and its runtime name, which is never
      blank, determines the transport. */
  lemma PlanAgrees(kind: Kind, protocol: Protocol, native: bool)
    ensures var p := PlanOf(kind, protocol, native);
            && !Blank(p.transportName) && NormalizeServiceTransport(p.transportName) == Success(p.transport)
            && !Blank(p.RuntimeMiddlewareName()) && RuntimeTransport(p.RuntimeMiddlewareName()) == p.transport
  {
    hide Token, Blank;
    TransportName(kind, protocol, native);
    RuntimeName(kind, protocol, native);
  }

  // ----- What a plan keeps of its configuration

  // A DDS plan's names: the middleware's own, and a suffix or prefix for how it runs.
  ghost predicate NamedAfterMiddleware(kind: Kind, p: Plan) {
    && p.logicalProtocol == p.middlewareName
    && p.transportName == (if p.transport.Ros2? then "ros2" else p.middlewareName)
                          + (if kind.Topic? then "_topic" else if p.transport.Ros2? then "_service" else "_rpc")
    && (p.middlewareName in ["nats", "ros2"] ==> p.runtimeName == "" && p.implementation == "")
    && (p.middlewareName in ["cyclonedds", "fastdds"] ==>
          && p.runtimeName == p.middlewareName + (if p.transport.Ros2? then "__rmw" else "")
          && (!p.transport.Ros2? ==> p.implementation == "native_" + p.middlewareName)
          && (p.transport.Ros2? ==> p.implementation == "rmw_" + (if p.middlewareName == "fastdds" then "fastrtps" else "cyclonedds")))
  }

  /** A plan keeps the configured middleware: its middleware name means the transport that the configured
      name means, and it runs on that transport or, exactly for the ROS2 names and for non-native formats
      of the DDS names, on ROS2. */
  lemma PlanKeepsMiddleware(kind: Kind, v: string, data: string)
    requires ExecutionPlan(kind, v, data).Success?
    ensures var p, t := ExecutionPlan(kind, v, data).value, NormalizeServiceTransport(v);
            && NormalizeServiceTransport(p.middlewareName) == t
            && t.Success? && t.value in {Nats, CycloneDds, FastDds, Ros2}
            && p.transport == (if t.value.Nats? || IsNativeDds(kind, Format(kind, data)) then t.value else Ros2)
            && NamedAfterMiddleware(kind, p)
  {
    hide Token, IsNativeDds, Format, NamedAfterMiddleware;
    MiddlewareNames();
    PlanNames(kind, NormalizeRouteMiddlewareProtocol(v).value, IsNativeDds(kind, Format(kind, data)));
  }

  lemma PlanNames(kind: Kind, protocol: Protocol, native: bool)
    ensures NamedAfterMiddleware(kind, PlanOf(kind, protocol, native))
  {
    assert "ros2" + "_topic" == "ros2_topic" && "ros2" + "_service" == "ros2_service";
    if protocol.Ros2Protocol? || protocol.NatsProtocol? {
      assert "nats" + "_topic" == "nats_topic" && "nats" + "_rpc" == "nats_rpc";
    } else if native {
      assert "cyclonedds" + "_topic" == "cyclonedds_topic" && "cyclonedds" + "_rpc" == "cyclonedds_rpc";
      assert "fastdds" + "_topic" == "fastdds_topic" && "fastdds" + "_rpc" == "fastdds_rpc";
      assert "native_" + "cyclonedds" == "native_cyclonedds" && "native_" + "fastdds" == "native_fastdds";
    } else {
      assert "cyclonedds" + "__rmw" == "cyclonedds__rmw" && "fastdds" + "__rmw" == "fastdds__rmw";
      assert "rmw_" + "cyclonedds" == "rmw_cyclonedds" && "rmw_" + "fastrtps" == "rmw_fastrtps";
    }
  }

  lemma MiddlewareNames()
    ensures Token("nats") == "nats" && Token("cyclonedds") == "cyclonedds"
    ensures Token("fastdds") == "fastdds" && Token("ros2") == "ros2"
  {
    ProperName("nats");
    ProperName("cyclonedds");
    ProperName("fastdds");
    ProperName("ros2");
  }

  function Underscored(s: string): string {
    seq(|s|, i requires 0 <= i < |s| => if s[i] == '-' then '_' else s[i])
  }

  /** Names are read the same with hyphens as with underscores. */
  lemma HyphensAreUnderscores(s: string)
    ensures Token(Underscored(s)) == Token(s)
  {
    TrimOfLowered(s);
    TrimOfLowered(Underscored(s));
    assert Lowered(Underscored(s)) == Lowered(s);
  }

  lemma LoweredTwice(s: string)
    ensures Lowered(Lowered(s)) == Lowered(s)
  {
  }

  lemma {:induction false} TrimOfLowered(s: string)
    ensures Trim(Lowered(s)) == Lowered(Trim(s))
    decreases |s|
  {
    if s != "" {
      assert IsSpace(s[0]) <==> IsSpace(Lower(s[0]));
      assert IsSpace(s[|s| - 1]) <==> IsSpace(Lower(s[|s| - 1]));
      if IsSpace(s[0]) {
        TrimOfLowered(s[1..]);
        assert Lowered(s)[1..] == Lowered(s[1..]);
      } else if IsSpace(s[|s| - 1]) {
        TrimOfLowered(s[..|s| - 1]);
        assert Lowered(s)[..|s| - 1] == Lowered(s[..|s| - 1]);
      }
    }
  }

  lemma TokenTwice(s: string)
    ensures Token(Token(s)) == Token(s)
  {
    TrimOfLowered(Trim(s));
    TrimmedTwice(s, IsSpace);
    LoweredTwice(Trim(s));
  }

  lemma FormatNames()
    ensures forall f :: f in ["protobuf", "ros2_msg", "dds_idl", "bytes", "protobuf_rpc", "ros2_srv", "dds_idl_rpc", "json_rpc", "bytes_rpc"] ==>
      Token(f) == f
  {
    forall f | f in ["protobuf", "ros2_msg", "dds_idl", "bytes", "protobuf_rpc", "ros2_srv", "dds_idl_rpc", "json_rpc", "bytes_rpc"]
      ensures Token(f) == f
    {
      ProperName(f);
    }
  }

  lemma FormatToken(kind: Kind, data: string)
    ensures Token(Format(kind, data)) == Format(kind, data)
  {
    hide Token;
    TokenTwice(data);
    FormatNames();
  }

  /** A normalised format is its own normal form. */
  lemma FormatTwice(kind: Kind, data: string)
    ensures Format(kind, Format(kind, data)) == Format(kind, data)
  {
    hide Token;
    FormatToken(kind, data);
  }
}
