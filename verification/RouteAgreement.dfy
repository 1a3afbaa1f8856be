/**
 One configuration entry in both languages: the plan a high-level route refers to, and what
 normalising gives it, are the same in the Go build and in the C++ loader.
 */
module RouteAgreement {
  import opened Bytes
  import opened Text
  import opened BusSelection
  import opened RoutePlans
  import Go = RouteClosure
  import Cpp = CppRouteClosure

  // The Go route that a node without bindings is decoded into.
  function GoRoute(kind: Kind, n: Cpp.Node): Go.Route {
    Go.Route(
      n.enabled,
      n.Scalar("name"),
      n.Scalar("data"),
      n.Scalar("data_format"),
      n.Scalar("type"),
      n.Scalar("transport"),
      n.Scalar("middleware"),
      if n.middlewares.Some? then n.middlewares.value else [],
      n.Scalar("adapter"),
      n.Scalar("message_type"),
      n.Scalar(if kind.Topic? then "msg_type" else "service_type"),
      n.Scalar(if kind.Topic? then "ros_message_type" else "ros_service_type"),
      Go.Payload(Cpp.Entry(n.Section(kind), "format"), Cpp.Entry(n.Section(kind), "type")),
      if n.metadata.Some? then n.metadata.value else map[],
      n.Scalar("security_profile"),
      [], [], [])
  }

  ghost predicate TrimmedEntries(entries: Cpp.Scalars) {
    forall key :: key in entries ==> Cpp.Trimmed(entries[key])
  }

  // No entry has space around it, and none of the payload's is empty.
  ghost predicate Tidy(kind: Kind, n: Cpp.Node) {
    && TrimmedEntries(n.scalars)
    && (n.metadata.Some? ==> TrimmedEntries(n.metadata.value))
    && (n.Section(kind).Some? ==>
          TrimmedEntries(n.Section(kind).value) && forall key :: key in n.Section(kind).value ==> n.Section(kind).value[key] != "")
  }

  lemma TrimmedScalar(n: Cpp.Node, key: string)
    requires TrimmedEntries(n.scalars)
    ensures Cpp.Trimmed(n.Scalar(key))
  {
  }

  lemma TrimmedEntry(section: Option<Cpp.Scalars>, key: string)
    requires section.Some? ==> TrimmedEntries(section.value)
    ensures Cpp.Trimmed(Cpp.Entry(section, key))
  {
  }

  // On trimmed values the two choices of a first value are one.
  lemma {:induction false} FirstAgrees(values: seq<string>)
    requires forall i :: 0 <= i < |values| ==> Cpp.Trimmed(values[i])
    ensures FirstNonBlank(values) == Cpp.FirstNonEmpty(values) && Cpp.Trimmed(Cpp.FirstNonEmpty(values))
  {
    if values != [] {
      Cpp.TrimmedToken(values[0]);
      FirstAgrees(values[1..]);
    }
  }

  lemma TypesAgree(kind: Kind, n: Cpp.Node)
    requires Tidy(kind, n)
    ensures Go.TypeOf(kind, GoRoute(kind, n)) == Cpp.TypeOf(kind, n) && Cpp.Trimmed(Cpp.TypeOf(kind, n))
  {
    hide Cpp.Trimmed, FirstNonBlank, Cpp.FirstNonEmpty;
    TrimmedEntry(n.Section(kind), "type");
    TrimmedScalar(n, "type");
    TrimmedScalar(n, "message_type");
    TrimmedScalar(n, "service_type");
    TrimmedScalar(n, "msg_type");
    TrimmedScalar(n, "ros_message_type");
    TrimmedScalar(n, "ros_service_type");
    FirstAgrees(if kind.Topic?
                then [Cpp.Entry(n.payload, "type"), n.Scalar("type"), n.Scalar("message_type"), n.Scalar("msg_type"), n.Scalar("ros_message_type")]
                else [Cpp.Entry(n.contract, "type"), n.Scalar("type"), n.Scalar("service_type"), n.Scalar("message_type"), n.Scalar("ros_service_type")]);
  }

  function GoData(r: Go.Route): string {
    FirstNonBlank([r.data, r.dataFormat, r.payload.format])
  }

  lemma DataAgrees(kind: Kind, n: Cpp.Node)
    requires Tidy(kind, n)
    ensures GoData(GoRoute(kind, n)) == Cpp.DataOf(kind, n) && Cpp.Trimmed(Cpp.DataOf(kind, n))
  {
    hide Cpp.Trimmed, FirstNonBlank, Cpp.FirstNonEmpty;
    TrimmedEntry(n.Section(kind), "format");
    TrimmedScalar(n, "data");
    TrimmedScalar(n, "data_format");
    FirstAgrees([n.Scalar("data"), n.Scalar("data_format"), Cpp.Entry(n.Section(kind), "format")]);
  }

  lemma {:induction false} FirstFound(values: seq<string>, v: string)
    requires v in values && !Blank(v)
    ensures FirstNonBlank(values) != ""
  {
    if values[0] == v || !Blank(values[0]) {
      Cpp.BlankNothing();
    } else {
      FirstFound(values[1..], v);
    }
  }

  // With a middleware, a node and its route are high-level alike.
  lemma HighLevelAgrees(kind: Kind, n: Cpp.Node)
    requires Tidy(kind, n) && n.Bindings().None? && n.Scalar("middleware") != ""
    ensures Go.IsHighLevel(GoRoute(kind, n)) == Cpp.IsHighLevel(n)
  {
    hide Cpp.Trimmed, Blank, FirstNonBlank;
    var r := GoRoute(kind, n);
    TrimmedScalar(n, "middleware");
    Cpp.TrimmedToken(r.middleware);
    FirstFound([r.data, r.dataFormat, r.typ, r.payload.format, r.payload.typ, r.messageType, r.interfaceType, r.rosType, r.middleware], r.middleware);
  }

  /** Both first passes refer to the same middleware by the same plan; where C++ stops with an error,
      Go refers to nothing. */
  lemma ReferencesAgree(kind: Kind, n: Cpp.Node)
    requires Tidy(kind, n) && n.Bindings().None?
    ensures Go.Reference(kind, GoRoute(kind, n)) == match Cpp.Reference(kind, n) case Success(plan) => plan case Failure(_) => None
  {
    hide Cpp.Trimmed, FirstNonBlank, Go.TypeOf, Cpp.TypeOf, Cpp.DataOf, Go.IsHighLevel, Cpp.IsHighLevel,
         Cpp.CppFormatFor, FormatFor, ExecutionPlan, Cpp.CppExecutionPlan;
    if n.Scalar("middleware") != "" {
      HighLevelAgrees(kind, n);
      TypesAgree(kind, n);
      DataAgrees(kind, n);
      TrimmedScalar(n, "middleware");
      Cpp.PlansAgree(kind, n.Scalar("middleware"), Cpp.DataOf(kind, n), Cpp.TypeOf(kind, n));
    }
  }

  // ----- The second pass

  // What both languages fill in.
  datatype Filled = Filled(transport: string, middleware: string, metadata: Cpp.Scalars, adapter: string)

  function GoFilled(r: Go.Route): Filled {
    Filled(r.transport, r.middleware, r.metadata, r.adapter)
  }

  function CppFilled(n: Cpp.Node): Filled {
    Filled(n.Scalar("transport"), n.Scalar("middleware"), if n.metadata.Some? then n.metadata.value else map[], n.Scalar("adapter"))
  }

  lemma AdapterKept(metadata: Option<Cpp.Scalars>, plan: Plan, key: string)
    requires key == "adapter" || key == "ros2.adapter"
    ensures Go.ValueAt(Cpp.WithExecutionMetadata(metadata, plan), key) == Cpp.Entry(metadata, key)
  {
    hide Plan.RuntimeMiddlewareName;
  }

  lemma TokenOfNothing(s: string)
    requires Cpp.Trimmed(s)
    ensures Token(s) == "" <==> s == ""
  {
    Cpp.TrimmedToken(s);
  }

  lemma FirstOfThree(a: string, b: string, c: string)
    ensures Cpp.FirstNonEmpty([a, b, c]) == if a != "" then a else if b != "" then b else c
  {
    assert [a, b, c][1..] == [b, c] && [b, c][1..] == [c] && [c][1..] == [];
    assert Cpp.FirstNonEmpty([c]) == c;
    assert Cpp.FirstNonEmpty([b, c]) == if b != "" then b else c;
  }

  // Both languages see an adapter, or both see none.
  lemma AdaptersAgree(n: Cpp.Node, plan: Plan)
    requires TrimmedEntries(n.scalars) && (n.metadata.Some? ==> TrimmedEntries(n.metadata.value))
    ensures Go.RouteAdapter(n.Scalar("adapter"), Cpp.WithExecutionMetadata(n.metadata, plan)) == "" <==> !Cpp.HasAdapter(n)
  {
    hide Cpp.Trimmed, Token, FirstNonBlank, Cpp.FirstNonEmpty, Cpp.WithExecutionMetadata, Go.ValueAt, Cpp.Entry;
    AdapterKept(n.metadata, plan, "adapter");
    AdapterKept(n.metadata, plan, "ros2.adapter");
    var a, b, c := n.Scalar("adapter"), Cpp.Entry(n.metadata, "adapter"), Cpp.Entry(n.metadata, "ros2.adapter");
    TrimmedScalar(n, "adapter");
    TrimmedEntry(n.metadata, "adapter");
    TrimmedEntry(n.metadata, "ros2.adapter");
    FirstAgrees([a, b, c]);
    TokenOfNothing(Cpp.FirstNonEmpty([a, b, c]));
    FirstOfThree(a, b, c);
  }

  // A protobuf payload over a ROS2 transport is wrapped.
  predicate Wraps(kind: Kind, plan: Plan, format: string) {
    if kind.Topic? then plan.transportName == "ros2_topic" && format == "protobuf"
    else plan.transportName == "ros2_service" && format == "protobuf_rpc"
  }

  function FilledBy(kind: Kind, n: Cpp.Node, plan: Plan, format: string): Filled {
    Filled(plan.transportName, plan.middlewareName, Cpp.WithExecutionMetadata(n.metadata, plan),
           if Wraps(kind, plan, format) && !Cpp.HasAdapter(n) then "ros2_proto_envelope" else n.Scalar("adapter"))
  }

  function Given(n: Cpp.Node, kind: Kind, otherwise: string): string {
    if Cpp.Entry(n.Section(kind), "format") == "" then otherwise else Cpp.Entry(n.Section(kind), "format")
  }

  lemma PlanHasMiddleware(kind: Kind, v: string, data: string)
    requires ExecutionPlan(kind, v, data).Success?
    ensures ExecutionPlan(kind, v, data).value.middlewareName != ""
  {
    hide Token, IsNativeDds, Format;
  }

  lemma GoFills(kind: Kind, n: Cpp.Node)
    requires Tidy(kind, n) && Go.IsHighLevel(GoRoute(kind, n))
    ensures var format := FormatFor(kind, GoData(GoRoute(kind, n)), Go.TypeOf(kind, GoRoute(kind, n)));
            var plan := ExecutionPlan(kind, n.Scalar("middleware"), format);
            var filled := Go.Normalized(kind, GoRoute(kind, n));
            && (plan.Success? <==> filled.Success?)
            && (plan.Success? ==> GoFilled(filled.value) == FilledBy(kind, n, plan.value, Given(n, kind, format)))
  {
    hide Cpp.Trimmed, FirstNonBlank, Go.TypeOf, Go.IsHighLevel, FormatFor, ExecutionPlan, Go.PutExecutionMetadata, Go.RouteAdapter, Cpp.HasAdapter;
    var format := FormatFor(kind, GoData(GoRoute(kind, n)), Go.TypeOf(kind, GoRoute(kind, n)));
    var plan := ExecutionPlan(kind, n.Scalar("middleware"), format);
    if plan.Success? {
      PlanHasMiddleware(kind, n.Scalar("middleware"), format);
      AdaptersAgree(n, plan.value);
    }
  }

  lemma AdapterStays(n: Cpp.Node, m: Cpp.Node, plan: Plan)
    requires m.Scalar("adapter") == n.Scalar("adapter") && m.metadata == Some(Cpp.WithExecutionMetadata(n.metadata, plan))
    ensures Cpp.HasAdapter(m) == Cpp.HasAdapter(n)
  {
    hide Cpp.WithExecutionMetadata;
    AdapterKept(n.metadata, plan, "adapter");
    AdapterKept(n.metadata, plan, "ros2.adapter");
  }

  // The node before an adapter is added, and the format it was given.
  lemma CppPlanned(kind: Kind, n: Cpp.Node) returns (m: Cpp.Node, format: string)
    requires Tidy(kind, n) && Cpp.IsHighLevel(n)
    requires Cpp.CppExecutionPlan(kind, n.Scalar("middleware"), Cpp.CppFormatFor(kind, Cpp.DataOf(kind, n), Cpp.TypeOf(kind, n))).Success?
    ensures var plan := Cpp.CppExecutionPlan(kind, n.Scalar("middleware"), Cpp.CppFormatFor(kind, Cpp.DataOf(kind, n), Cpp.TypeOf(kind, n))).value;
            && format == Given(n, kind, Cpp.CppFormatFor(kind, Cpp.DataOf(kind, n), Cpp.TypeOf(kind, n)))
            && Cpp.Normalized(kind, n)
               == Success(if Wraps(kind, plan, format) && !Cpp.HasAdapter(m) then m.(scalars := m.scalars["adapter" := "ros2_proto_envelope"]) else m)
            && m.Scalar("transport") == plan.transportName
            && (plan.middlewareName != "" ==> m.Scalar("middleware") == plan.middlewareName)
            && m.Scalar("adapter") == n.Scalar("adapter") && m.metadata == Some(Cpp.WithExecutionMetadata(n.metadata, plan))
  {
    hide Cpp.Trimmed, Cpp.DataOf, Cpp.TypeOf, Cpp.IsHighLevel, Cpp.CppFormatFor, Cpp.CppExecutionPlan, Cpp.WithExecutionMetadata, Cpp.HasAdapter;
    var plan := Cpp.CppExecutionPlan(kind, n.Scalar("middleware"), Cpp.CppFormatFor(kind, Cpp.DataOf(kind, n), Cpp.TypeOf(kind, n))).value;
    var given := n.Section(kind);
    var section := Cpp.WithDefault(Cpp.WithDefault(if given.Some? then given.value else map[], "format",
                                                   Cpp.CppFormatFor(kind, Cpp.DataOf(kind, n), Cpp.TypeOf(kind, n))),
                                   "type", Cpp.TypeOf(kind, n));
    format := section["format"];
    m := Cpp.WithType(kind, Cpp.WithPlan(kind, n, plan, section), section);
    PlanFills(kind, n, plan, section);
    hide Cpp.WithType, Cpp.WithPlan;
  }

  lemma PlanFills(kind: Kind, n: Cpp.Node, plan: Plan, section: Cpp.Scalars)
    requires "format" in section && "type" in section
    ensures var m := Cpp.WithType(kind, Cpp.WithPlan(kind, n, plan, section), section);
            && m.Scalar("transport") == plan.transportName
            && (plan.middlewareName != "" ==> m.Scalar("middleware") == plan.middlewareName)
            && m.Scalar("adapter") == n.Scalar("adapter") && m.metadata == Some(Cpp.WithExecutionMetadata(n.metadata, plan))
  {
    hide Cpp.WithExecutionMetadata;
  }

  lemma CppFills(kind: Kind, n: Cpp.Node)
    requires Tidy(kind, n) && Cpp.IsHighLevel(n)
    ensures var format := Cpp.CppFormatFor(kind, Cpp.DataOf(kind, n), Cpp.TypeOf(kind, n));
            var plan := Cpp.CppExecutionPlan(kind, n.Scalar("middleware"), format);
            var filled := Cpp.Normalized(kind, n);
            && (plan.Success? <==> filled.Success?)
            && (plan.Success? && plan.value.middlewareName != "" ==>
                  CppFilled(filled.value) == FilledBy(kind, n, plan.value, Given(n, kind, format)))
  {
    hide Cpp.Trimmed, Cpp.DataOf, Cpp.TypeOf, Cpp.IsHighLevel, Cpp.CppFormatFor, Cpp.CppExecutionPlan, Cpp.WithExecutionMetadata,
         Cpp.HasAdapter, Wraps, Tidy, Given;
    var plan := Cpp.CppExecutionPlan(kind, n.Scalar("middleware"), Cpp.CppFormatFor(kind, Cpp.DataOf(kind, n), Cpp.TypeOf(kind, n)));
    if plan.Success? {
      hide Cpp.Normalized;
      var m, format := CppPlanned(kind, n);
      AdapterStays(n, m, plan.value);
    }
  }

  // Go's format may be none where C++ has a default, which is not wrapped either.
  lemma WrapsAgree(kind: Kind, plan: Plan, n: Cpp.Node, data: string, typ: string)
    requires Cpp.Trimmed(data) && Cpp.Trimmed(typ)
    ensures Wraps(kind, plan, Given(n, kind, FormatFor(kind, data, typ)))
       <==> Wraps(kind, plan, Given(n, kind, Cpp.CppFormatFor(kind, data, typ)))
  {
    hide Cpp.Trimmed, Format, Cpp.CppFormat, Inferred, Cpp.CppInferred, Blank, Lowered, Cpp.Entry;
    Cpp.TrimmedToken(data);
    Cpp.InferredAgrees(kind, typ);
    Cpp.FormatsAgree(kind, data);
  }

  /** Both second passes fill in the same transport, middleware, metadata and adapter, or both fail. */
  lemma NormalizedAgree(kind: Kind, n: Cpp.Node)
    requires Tidy(kind, n) && Cpp.IsHighLevel(n) && n.Scalar("middleware") != ""
    ensures var go, cpp := Go.Normalized(kind, GoRoute(kind, n)), Cpp.Normalized(kind, n);
            && (go.Success? <==> cpp.Success?)
            && (go.Success? ==> GoFilled(go.value) == CppFilled(cpp.value))
  {
    hide Cpp.Trimmed, Go.TypeOf, Cpp.TypeOf, Cpp.DataOf, GoData, Cpp.IsHighLevel, Go.IsHighLevel, Go.Normalized, Cpp.Normalized,
         FormatFor, Cpp.CppFormatFor, ExecutionPlan, Cpp.CppExecutionPlan, Cpp.HasAdapter, Wraps, Cpp.WithExecutionMetadata;
    NoBindings(n);
    HighLevelAgrees(kind, n);
    TypesAgree(kind, n);
    DataAgrees(kind, n);
    TrimmedScalar(n, "middleware");
    var data, typ := Cpp.DataOf(kind, n), Cpp.TypeOf(kind, n);
    var plan := ExecutionPlan(kind, n.Scalar("middleware"), FormatFor(kind, data, typ));
    Cpp.PlansAgree(kind, n.Scalar("middleware"), data, typ);
    GoFills(kind, n);
    CppFills(kind, n);
    if plan.Success? {
      PlanHasMiddleware(kind, n.Scalar("middleware"), FormatFor(kind, data, typ));
      WrapsAgree(kind, plan.value, n, data, typ);
    }
  }

  lemma NoBindings(n: Cpp.Node)
    requires Cpp.IsHighLevel(n)
    ensures n.Bindings().None?
  {
  }

  // ----- One of several middlewares, and adapters at run time

  /** A node for one of its `middlewares` is decoded into the route for it, and refers to that one. */
  lemma SinglesAgree(kind: Kind, n: Cpp.Node, middleware: string)
    ensures Go.Single(GoRoute(kind, n), middleware) == GoRoute(kind, Cpp.Single(n, middleware))
    ensures var plan := Go.Reference(kind, Go.Single(GoRoute(kind, n), middleware));
            plan.Some? ==> NormalizeServiceTransport(plan.value.middlewareName) == NormalizeServiceTransport(middleware)
  {
    hide NormalizeServiceTransport, FormatFor, FirstNonBlank, Go.TypeOf, Go.IsHighLevel, ExecutionPlan;
    var r := Go.Single(GoRoute(kind, n), middleware);
    var format := FormatFor(kind, GoData(r), Go.TypeOf(kind, r));
    if ExecutionPlan(kind, middleware, format).Success? {
      PlanKeepsMiddleware(kind, middleware, format);
    }
  }

  lemma {:induction false} TokenIs(metadata: Cpp.Scalars, key: string)
    requires TrimmedEntries(metadata)
    ensures NormalizedMetadataToken(metadata, key) == Token(Go.ValueAt(metadata, key))
  {
    if key in metadata {
      Cpp.TrimmedToken(metadata[key]);
    } else {
      Cpp.BlankNothing();
    }
  }

  /** The C++ fabric reads the adapter from the metadata as the Go configuration does. */
  lemma AdapterReadAlike(e: Endpoint)
    requires TrimmedEntries(e.metadata)
    ensures Adapter(e) == Go.RouteAdapter("", e.metadata)
  {
    hide NormalizedMetadataToken, Token, Cpp.Trimmed, FirstNonBlank, Cpp.FirstNonEmpty;
    var a, b := Go.ValueAt(e.metadata, "adapter"), Go.ValueAt(e.metadata, "ros2.adapter");
    TokenIs(e.metadata, "adapter");
    TokenIs(e.metadata, "ros2.adapter");
    NothingTrimmed();
    FirstAgrees(["", a, b]);
    FirstOfThree("", a, b);
    TokenOfNothing(a);
    TokenOfNothing(b);
  }

  lemma NothingTrimmed()
    ensures Cpp.Trimmed("")
  {
  }

  /** The items of a list of middlewares have the same names in both languages. */
  lemma NamesAgree(kind: Kind, n: Cpp.Node, name: string, j: nat)
    requires n.middlewares.Some? && j < |n.middlewares.value|
    ensures Cpp.Added(n)[j] == Cpp.Single(n, n.middlewares.value[j])
    ensures Go.YieldsFrom(GoRoute(kind, n), name, Cpp.NodeName(name, n, j), GoRoute(kind, Cpp.Added(n)[j]))
  {
    hide Go.RouteName;
    var m := n.middlewares.value[j];
    SinglesAgree(kind, n, m);
    assert GoRoute(kind, n).middlewares[j] == m;
  }

  /** A C++ channel has the transport its normalised node names, and NATS where it names none; for tidy
      entries Go gives it the same. */
  lemma ChannelTransportsAgree(w: Cpp.Surroundings, kind: Kind, name: string, node: Cpp.Node)
    requires Cpp.ChannelOf(w, kind, name, node).Success? && Cpp.ChannelOf(w, kind, name, node).value.Some?
    ensures var t, given := Cpp.ChannelOf(w, kind, name, node).value.value.transport, Cpp.Normalized(kind, node).value.Scalar("transport");
            && (given == "" ==> t == Nats)
            && (given != "" && Cpp.Trimmed(given) ==> NormalizeServiceTransport(given) == Success(t))
  {
    hide Cpp.Normalized, Cpp.Trimmed, Cpp.CppTransport, NormalizeServiceTransport;
    var given := Cpp.Normalized(kind, node).value.Scalar("transport");
    NatsTransports();
    if given != "" && Cpp.Trimmed(given) {
      Cpp.TransportsAgree(given);
    }
  }

  lemma NatsTransports()
    ensures Cpp.CppTransport("nats_topic") == Success(Nats) && Cpp.CppTransport("nats_rpc") == Success(Nats)
  {
    Go.NatsNames();
    ProperName("nats_topic");
    ProperName("nats_rpc");
    Cpp.TokenTrimmed("nats_topic");
    Cpp.TokenTrimmed("nats_rpc");
    Cpp.TrimmedToken("nats_topic");
    Cpp.TrimmedToken("nats_rpc");
    hide Token, Lowered, Cpp.Trimmed;
  }
}
