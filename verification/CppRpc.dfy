/**
 RequestViaPairedChannels of the C++ bus: every call subscribes for itself, pairs by its own probe, and
 takes the first reply that arrives since it subscribed.  Calls are not serialised.
 */
module CppRpc {
  import opened Bytes
  import opened RpcFrames

  // A request or reply in transit, with the position of the request among those published.
  datatype Item = Item(position: nat, bytes: Bytes)

  datatype Phase =
    | Idle
    | Pairing
    | Paired
    | Published(own: nat)
    | Replied(own: nat, source: nat, bytes: Bytes)
    | TimedOut(own: nat)
    | Failed
  {
    predicate Active() {
      Pairing? || Paired? || Published?
    }

    // Not yet published.
    predicate Early() {
      Idle? || Pairing? || Paired?
    }

    predicate HasPaired() {
      Paired? || Published? || Replied? || TimedOut?
    }
  }

  // RpcRequestState, and where its call stands.
  datatype Call = Call(payload: Bytes, frame: Bytes, phase: Phase, hasHandshake: bool, response: Option<Item>)

  datatype State = State(
    calls: seq<Call>,
    published: seq<nat>,
    requests: seq<Item>,
    replies: seq<Item>,
    probes: set<Bytes>,
    received: set<Bytes>,
    acks: set<Bytes>)

  datatype Move = Subscribe | SendProbe | Pair | Publish | Return | GiveUp | Fail

  datatype Action =
    | Step(c: nat, move: Move)
    | ProbeArrives(frame: Bytes)
    | ForeignProbe(frame: Bytes)
    | AckArrives(c: nat, frame: Bytes)
    | RequestArrives
    | ReplyArrives
    | LoseRequest
    | LoseReply

  type Handler = Bytes -> Bytes

  predicate MoveEnabled(k: Call, move: Move) {
    match move
    case Subscribe => k.phase.Idle?
    case SendProbe => k.phase.Pairing? && !k.hasHandshake
    case Pair => k.phase.Pairing? && k.hasHandshake
    case Publish => k.phase.Paired?
    case Return => k.phase.Published? && k.response.Some?
    case GiveUp => k.phase.Published? && k.response.None?
    case Fail => k.phase.Pairing? || k.phase.Paired?
  }

  predicate Enabled(s: State, a: Action) {
    match a
    case Step(c, move) => c < |s.calls| && MoveEnabled(s.calls[c], move)
    case ProbeArrives(frame) => frame in s.probes
    // another client's probe: nonces are distinct
    case ForeignProbe(frame) => forall c :: 0 <= c < |s.calls| ==> s.calls[c].frame != frame
    case AckArrives(c, frame) => c < |s.calls| && frame in s.acks
    case RequestArrives => s.requests != []
    case ReplyArrives => s.replies != []
    case LoseRequest => s.requests != []
    case LoseReply => s.replies != []
  }

  function With(s: State, c: nat, k: Call): State
    requires c < |s.calls|
  {
    s.(calls := s.calls[c := k])
  }

  // The response subscription of a call: the first reply while it is active.
  function Heard(k: Call, x: Item): Call {
    if k.phase.Active() && k.response.None? then k.(response := Some(x)) else k
  }

  function ServerHears(s: State, frame: Bytes): State {
    s.(received := s.received + {frame},
       acks := s.acks + if IsProbeFrame(frame) then {AckFrameForProbe(frame)} else {})
  }

  function Next(h: Handler, s: State, a: Action): State
    requires Enabled(s, a)
  {
    match a
    case Step(c, move) =>
      var k := s.calls[c];
      (match move
       case Subscribe => With(s, c, k.(phase := Pairing))
       case SendProbe => s.(probes := s.probes + {k.frame})
       case Pair => With(s, c, k.(phase := Paired))
       case Publish =>
         With(s, c, k.(phase := Published(|s.published|))).(published := s.published + [c],
                                                            requests := s.requests + [Item(|s.published|, k.payload)])
       case Return => With(s, c, k.(phase := Replied(k.phase.own, k.response.value.position, k.response.value.bytes)))
       case GiveUp => With(s, c, k.(phase := TimedOut(k.phase.own)))
       case Fail => With(s, c, k.(phase := Failed)))
    case ProbeArrives(frame) => ServerHears(s, frame)
    case ForeignProbe(frame) => ServerHears(s, frame)
    case AckArrives(c, frame) =>
      if s.calls[c].phase.Active() && frame == AckFrameForProbe(s.calls[c].frame)
      then With(s, c, s.calls[c].(hasHandshake := true)) else s
    case RequestArrives =>
      s.(requests := s.requests[1..], replies := s.replies + [Item(s.requests[0].position, h(s.requests[0].bytes))])
    case ReplyArrives =>
      s.(replies := s.replies[1..],
         calls := seq(|s.calls|, c requires 0 <= c < |s.calls| => Heard(s.calls[c], s.replies[0])))
    case LoseRequest => s.(requests := s.requests[1..])
    case LoseReply => s.(replies := s.replies[1..])
  }

  predicate Started(s: State) {
    && (forall c :: 0 <= c < |s.calls| ==>
          && s.calls[c] == Call(s.calls[c].payload, s.calls[c].frame, Idle, false, None) && IsProbeFrame(s.calls[c].frame))
    && s == State(s.calls, [], [], [], {}, {}, {})
  }

  // ----- Invariants

  predicate IsRequest(s: State, x: Item) {
    x.position < |s.published| && s.published[x.position] < |s.calls| && x.bytes == s.calls[s.published[x.position]].payload
  }

  predicate IsReply(h: Handler, s: State, x: Item) {
    x.position < |s.published| && s.published[x.position] < |s.calls| && x.bytes == h(s.calls[s.published[x.position]].payload)
  }

  ghost predicate Transit(h: Handler, s: State) {
    && (forall x :: x in s.requests ==> IsRequest(s, x))
    && (forall x :: x in s.replies ==> IsReply(h, s, x))
    && (forall c :: 0 <= c < |s.calls| && s.calls[c].response.Some? ==> IsReply(h, s, s.calls[c].response.value))
    && (forall c :: 0 <= c < |s.calls| && s.calls[c].phase.Replied? ==>
          IsReply(h, s, Item(s.calls[c].phase.source, s.calls[c].phase.bytes)))
    && (forall c :: 0 <= c < |s.calls| && s.calls[c].phase.Idle? ==> s.calls[c].response == None && !s.calls[c].hasHandshake)
    && (forall c :: 0 <= c < |s.calls| && s.calls[c].phase.Published? ==> s.calls[c].phase.own < |s.published|)
  }

  ghost predicate Acknowledged(s: State, ack: Bytes) {
    exists p :: p in s.received && IsProbeFrame(p) && ack == AckFrameForProbe(p)
  }

  // A call counts as paired, and so publishes, only once a server has received its own probe.
  ghost predicate Pairings(s: State) {
    && (forall a :: a in s.acks ==> Acknowledged(s, a))
    && (forall c :: 0 <= c < |s.calls| ==> IsProbeFrame(s.calls[c].frame))
    && (forall c :: 0 <= c < |s.calls| && s.calls[c].hasHandshake ==> s.calls[c].frame in s.received)
    && (forall c :: 0 <= c < |s.calls| && s.calls[c].phase.HasPaired() ==> s.calls[c].hasHandshake)
  }

  // Payloads and published positions stay what they are.
  lemma ItemsStay(h: Handler, s: State, a: Action)
    requires Enabled(s, a)
    ensures forall x :: IsReply(h, s, x) ==> IsReply(h, Next(h, s, a), x)
    ensures forall x :: IsRequest(s, x) ==> IsRequest(Next(h, s, a), x)
  {
    hide IsProbeFrame, AckFrameForProbe;
  }

  lemma NewItems(h: Handler, s: State, a: Action)
    requires Enabled(s, a)
    ensures a.Step? && a.move.Publish? ==> IsRequest(Next(h, s, a), Item(|s.published|, s.calls[a.c].payload))
    ensures forall x :: IsRequest(s, x) ==> IsReply(h, s, Item(x.position, h(x.bytes)))
  {
    hide IsProbeFrame, AckFrameForProbe;
  }

  lemma TransitStep(h: Handler, s: State, a: Action)
    requires Transit(h, s) && Enabled(s, a)
    ensures Transit(h, Next(h, s, a))
  {
    hide IsProbeFrame, AckFrameForProbe, IsRequest, IsReply;
    ItemsStay(h, s, a);
    NewItems(h, s, a);
    if a.ReplyArrives? {
      assert s.replies[0] in s.replies;
    } else if a.RequestArrives? {
      assert s.requests[0] in s.requests;
    }
  }

  lemma PairingsStep(h: Handler, s: State, a: Action)
    requires Pairings(s) && Enabled(s, a)
    ensures Pairings(Next(h, s, a))
  {
    hide IsProbeFrame, AckFrameForProbe;
    var t := Next(h, s, a);
    forall ack | Acknowledged(s, ack)
      ensures Acknowledged(t, ack)
    {
      var p :| p in s.received && IsProbeFrame(p) && ack == AckFrameForProbe(p);
      assert p in t.received;
    }
    if a.AckArrives? && a.frame == AckFrameForProbe(s.calls[a.c].frame) {
      var p :| p in s.received && IsProbeFrame(p) && a.frame == AckFrameForProbe(p);
      AckIdentifiesProbe(p, s.calls[a.c].frame);
    }
  }

  // ----- Runs

  ghost predicate Runs(h: Handler, s: State, actions: seq<Action>, t: State)
    decreases |actions|
  {
    if actions == [] then s == t
    else Enabled(s, actions[0]) && Runs(h, Next(h, s, actions[0]), actions[1..], t)
  }

  lemma {:induction false} RunsInv(h: Handler, s: State, actions: seq<Action>, t: State)
    requires Transit(h, s) && Pairings(s) && Runs(h, s, actions, t)
    ensures Transit(h, t) && Pairings(t)
    decreases |actions|
  {
    hide Transit, Pairings, Next, Enabled;
    if actions != [] {
      TransitStep(h, s, actions[0]);
      PairingsStep(h, s, actions[0]);
      RunsInv(h, Next(h, s, actions[0]), actions[1..], t);
    }
  }

  lemma StartedInv(h: Handler, s: State)
    requires Started(s)
    ensures Transit(h, s) && Pairings(s)
  {
    hide IsProbeFrame;
  }

  /** In any run, a call that has published has had its own probe received by a server, and what a call
      returns is the handler's answer to some published request. */
  lemma PairedBeforePublished(h: Handler, s0: State, actions: seq<Action>, s: State, c: nat)
    requires Started(s0) && Runs(h, s0, actions, s) && c < |s.calls|
    ensures s.calls[c].phase.Published? || s.calls[c].phase.Replied? || s.calls[c].phase.TimedOut? ==> s.calls[c].frame in s.received
    ensures s.calls[c].phase.Replied? ==>
              var p := s.calls[c].phase;
              p.source < |s.published| && s.published[p.source] < |s.calls| && p.bytes == h(s.calls[s.published[p.source]].payload)
  {
    hide Started, Runs;
    StartedInv(h, s0);
    RunsInv(h, s0, actions, s);
  }

  lemma {:induction false} AnsweredRuns(h: Handler, s: State, actions: seq<Action>, t: State)
    requires forall c :: 0 <= c < |s.calls| && s.calls[c].phase.TimedOut? ==> s.calls[c].response == None
    requires Runs(h, s, actions, t)
    ensures forall c :: 0 <= c < |t.calls| && t.calls[c].phase.TimedOut? ==> t.calls[c].response == None
    decreases |actions|
  {
    hide IsProbeFrame, AckFrameForProbe;
    if actions != [] {
      AnsweredRuns(h, Next(h, s, actions[0]), actions[1..], t);
    }
  }

  /** No call times out that has heard a reply. */
  lemma TimedOutUnanswered(h: Handler, s0: State, actions: seq<Action>, s: State, c: nat)
    requires Started(s0) && Runs(h, s0, actions, s) && c < |s.calls| && s.calls[c].phase.TimedOut?
    ensures s.calls[c].response == None
  {
    hide Runs, IsProbeFrame;
    AnsweredRuns(h, s0, actions, s);
  }

  // ----- Exactly when a call gets its own reply

  // No other call will publish any more.
  ghost predicate OthersPast(s: State, c: nat) {
    forall d :: 0 <= d < |s.calls| && d != c ==> !s.calls[d].phase.Early()
  }

  // A reply that is not the one to call c's request.
  predicate Foreign(s: State, c: nat, x: Item)
    requires c < |s.calls|
  {
    s.calls[c].phase.Published? ==> x.position != s.calls[c].phase.own
  }

  // Call c can return no reply but its own.  Before it publishes, nothing may be held or outstanding, and
  // no other call may publish any more.
  ghost predicate Certain(s: State, c: nat) {
    && c < |s.calls|
    && var k := s.calls[c];
    match k.phase
    case Replied(own, source, _) => source == own
    case TimedOut(_) => true
    case Failed => true
    case _ =>
      if k.response.Some? then !Foreign(s, c, k.response.value)
      else
        && OthersPast(s, c)
        && (forall x :: x in s.requests ==> !Foreign(s, c, x))
        && (forall x :: x in s.replies ==> !Foreign(s, c, x))
  }

  // Before it publishes everything is foreign to a call.
  lemma CertainEarly(s: State, c: nat)
    requires c < |s.calls| && s.calls[c].phase.Early()
    ensures Certain(s, c) <==> s.calls[c].response.None? && s.requests == [] && s.replies == [] && OthersPast(s, c)
  {
    if s.requests != [] {
      assert s.requests[0] in s.requests;
    }
    if s.replies != [] {
      assert s.replies[0] in s.replies;
    }
  }

  lemma CertainMoved(h: Handler, s: State, d: nat, move: Move, c: nat)
    requires Certain(s, c) && Enabled(s, Step(d, move))
    ensures Certain(Next(h, s, Step(d, move)), c)
  {
    var t := Next(h, s, Step(d, move));
    if s.calls[c].phase.Early() {
      CertainEarly(s, c);
    }
    if s.calls[c].response.None? && t.calls[c].phase.Active() {
      assert OthersPast(s, c);
      assert OthersPast(t, c);
    }
  }

  lemma CertainStep(h: Handler, s: State, a: Action, c: nat)
    requires Certain(s, c) && Enabled(s, a)
    ensures Certain(Next(h, s, a), c)
  {
    hide IsProbeFrame, AckFrameForProbe;
    if a.Step? {
      CertainMoved(h, s, a.c, a.move, c);
    } else {
      CertainNetwork(h, s, a, c);
    }
  }

  lemma CertainNetwork(h: Handler, s: State, a: Action, c: nat)
    requires Certain(s, c) && Enabled(s, a) && !a.Step?
    ensures Certain(Next(h, s, a), c)
  {
    hide IsProbeFrame, AckFrameForProbe;
    var t := Next(h, s, a);
    assert forall d :: 0 <= d < |s.calls| ==> t.calls[d].phase == s.calls[d].phase;
    assert OthersPast(s, c) ==> OthersPast(t, c);
    if a.ReplyArrives? {
      assert s.replies[0] in s.replies;
    } else if a.RequestArrives? {
      var x := s.requests[0];
      assert x in s.requests;
      assert Foreign(t, c, Item(x.position, h(x.bytes))) <==> Foreign(s, c, x);
    }
    assert forall x :: x in t.requests ==> x in s.requests;
    assert forall x :: Foreign(t, c, x) <==> Foreign(s, c, x);
  }

  lemma {:induction false} CertainRuns(h: Handler, s: State, actions: seq<Action>, t: State, c: nat)
    requires Certain(s, c) && Runs(h, s, actions, t)
    ensures Certain(t, c)
    decreases |actions|
  {
    hide Certain, Next, Enabled;
    if actions != [] {
      CertainStep(h, s, actions[0], c);
      CertainRuns(h, Next(h, s, actions[0]), actions[1..], t, c);
    }
  }

  lemma {:induction false} RunsConcat(h: Handler, s: State, first: seq<Action>, t: State, later: seq<Action>, u: State)
    requires Runs(h, s, first, t) && Runs(h, t, later, u)
    ensures Runs(h, s, first + later, u)
    decreases |first|
  {
    hide Next, Enabled;
    if first == [] {
      assert first + later == later;
    } else {
      assert (first + later)[1..] == first[1..] + later;
      RunsConcat(h, Next(h, s, first[0]), first[1..], t, later, u);
    }
  }

  // States passed one after another make a run.
  lemma {:induction false} TraceRuns(h: Handler, states: seq<State>, actions: seq<Action>)
    requires |states| == |actions| + 1
    requires forall i :: 0 <= i < |actions| ==> Enabled(states[i], actions[i]) && states[i + 1] == Next(h, states[i], actions[i])
    ensures Runs(h, states[0], actions, states[|actions|])
    decreases |actions|
  {
    hide Next, Enabled;
    if actions != [] {
      TraceRuns(h, states[1..], actions[1..]);
    }
  }

  // Call d pairs, and nothing else changes for the other calls or on the request and reply topics.
  ghost predicate OnlyPaired(s: State, t: State, d: nat) {
    && d < |s.calls| == |t.calls| && t.calls == s.calls[d := s.calls[d].(phase := Paired, hasHandshake := t.calls[d].hasHandshake)]
    && t.published == s.published && t.requests == s.requests && t.replies == s.replies
  }

  lemma Shakes(h: Handler, s: State, d: nat) returns (actions: seq<Action>, t: State)
    requires d < |s.calls| && s.calls[d].phase.Pairing? && !s.calls[d].hasHandshake && IsProbeFrame(s.calls[d].frame)
    ensures Runs(h, s, actions, t) && |t.calls| == |s.calls| && OnlyPaired(s, t, d)
  {
    hide IsProbeFrame, AckFrameForProbe, Runs;
    var frame := s.calls[d].frame;
    var ack := AckFrameForProbe(frame);
    var s1 := Next(h, s, Step(d, SendProbe));
    var s2 := Next(h, s1, ProbeArrives(frame));
    var s3 := Next(h, s2, AckArrives(d, ack));
    t := Next(h, s3, Step(d, Pair));
    actions := [Step(d, SendProbe), ProbeArrives(frame), AckArrives(d, ack), Step(d, Pair)];
    TraceRuns(h, [s, s1, s2, s3, t], actions);
  }

  lemma Pairs(h: Handler, s: State, d: nat) returns (actions: seq<Action>, t: State)
    requires d < |s.calls| && s.calls[d].phase.Early() && IsProbeFrame(s.calls[d].frame)
    requires s.calls[d].phase.Idle? ==> !s.calls[d].hasHandshake
    ensures Runs(h, s, actions, t) && |t.calls| == |s.calls| && OnlyPaired(s, t, d)
  {
    hide IsProbeFrame, AckFrameForProbe, Runs;
    if s.calls[d].phase.Paired? {
      actions, t := [], s;
      TraceRuns(h, [s], []);
    } else if s.calls[d].phase.Pairing? && s.calls[d].hasHandshake {
      actions, t := [Step(d, Pair)], Next(h, s, Step(d, Pair));
      TraceRuns(h, [s, t], actions);
    } else if s.calls[d].phase.Pairing? {
      actions, t := Shakes(h, s, d);
    } else {
      var s1 := Next(h, s, Step(d, Subscribe));
      TraceRuns(h, [s, s1], [Step(d, Subscribe)]);
      var rest;
      rest, t := Shakes(h, s1, d);
      RunsConcat(h, s, [Step(d, Subscribe)], s1, rest, t);
      actions := [Step(d, Subscribe)] + rest;
    }
  }

  // A call that holds a reply goes on to return it.
  lemma Finishes(h: Handler, s: State, c: nat) returns (actions: seq<Action>, t: State)
    requires c < |s.calls| && s.calls[c].phase.Active() && s.calls[c].response.Some? && IsProbeFrame(s.calls[c].frame)
    ensures Runs(h, s, actions, t) && c < |t.calls|
    ensures var own := if s.calls[c].phase.Published? then s.calls[c].phase.own else |s.published|;
            t.calls[c].phase == Replied(own, s.calls[c].response.value.position, s.calls[c].response.value.bytes)
  {
    hide IsProbeFrame, AckFrameForProbe, Runs;
    if s.calls[c].phase.Published? {
      actions, t := [Step(c, Return)], Next(h, s, Step(c, Return));
      TraceRuns(h, [s, t], actions);
    } else {
      var first, s1 := Pairs(h, s, c);
      var s2 := Next(h, s1, Step(c, Publish));
      t := Next(h, s2, Step(c, Return));
      TraceRuns(h, [s1, s2, t], [Step(c, Publish), Step(c, Return)]);
      RunsConcat(h, s, first, s1, [Step(c, Publish), Step(c, Return)], t);
      actions := first + [Step(c, Publish), Step(c, Return)];
    }
  }

  ghost predicate ForeignOutstanding(s: State, c: nat)
    requires c < |s.calls|
  {
    (exists x :: x in s.requests && Foreign(s, c, x)) || (exists x :: x in s.replies && Foreign(s, c, x))
  }

  // The state after a foreign reply has reached call c.
  ghost predicate Reached(s: State, t: State, c: nat) {
    && c < |s.calls| == |t.calls| && t.published == s.published
    && t.calls[c] == s.calls[c].(response := t.calls[c].response)
    && t.calls[c].response.Some? && Foreign(t, c, t.calls[c].response.value)
  }

  // What comes before the first foreign item is lost, and that item arrives.
  lemma {:induction false} Fetches(h: Handler, s: State, c: nat) returns (actions: seq<Action>, t: State)
    requires c < |s.calls| && s.calls[c].phase.Active() && s.calls[c].response.None? && ForeignOutstanding(s, c)
    ensures Runs(h, s, actions, t) && Reached(s, t, c)
    decreases |s.requests| + |s.replies|
  {
    hide IsProbeFrame, AckFrameForProbe, Runs;
    if s.replies != [] && Foreign(s, c, s.replies[0]) {
      actions, t := [ReplyArrives], Next(h, s, ReplyArrives);
      TraceRuns(h, [s, t], actions);
    } else if s.replies == [] && Foreign(s, c, s.requests[0]) {
      var s1 := Next(h, s, RequestArrives);
      actions, t := [RequestArrives, ReplyArrives], Next(h, s1, ReplyArrives);
      TraceRuns(h, [s, s1, t], actions);
    } else {
      var a := if s.replies != [] then LoseReply else LoseRequest;
      var s1 := Next(h, s, a);
      StillOutstanding(h, s, c);
      TraceRuns(h, [s, s1], [a]);
      var rest;
      rest, t := Fetches(h, s1, c);
      RunsConcat(h, s, [a], s1, rest, t);
      actions := [a] + rest;
    }
  }

  lemma StillOutstanding(h: Handler, s: State, c: nat)
    requires c < |s.calls| && ForeignOutstanding(s, c)
    requires if s.replies != [] then !Foreign(s, c, s.replies[0]) else !Foreign(s, c, s.requests[0])
    ensures var a := if s.replies != [] then LoseReply else LoseRequest;
            Enabled(s, a) && ForeignOutstanding(Next(h, s, a), c)
  {
    if x :| x in s.replies && Foreign(s, c, x) {
      assert x in s.replies[1..];
    } else {
      var x :| x in s.requests && Foreign(s, c, x);
      if s.replies == [] {
        assert x in s.requests[1..];
      }
    }
  }

  // Another call pairs and publishes.
  lemma OtherPublishes(h: Handler, s: State, c: nat, d: nat) returns (actions: seq<Action>, t: State)
    requires c < |s.calls| && d < |s.calls| && c != d && s.calls[d].phase.Early() && IsProbeFrame(s.calls[d].frame)
    requires s.calls[d].phase.Idle? ==> !s.calls[d].hasHandshake
    ensures Runs(h, s, actions, t) && |t.calls| == |s.calls| && t.calls[c] == s.calls[c]
    ensures t.published == s.published + [d] && t.requests == s.requests + [Item(|s.published|, s.calls[d].payload)] && t.replies == s.replies
  {
    hide IsProbeFrame, AckFrameForProbe, Runs;
    var first, s1 := Pairs(h, s, d);
    t := Next(h, s1, Step(d, Publish));
    TraceRuns(h, [s1, t], [Step(d, Publish)]);
    RunsConcat(h, s, first, s1, [Step(d, Publish)], t);
    actions := first + [Step(d, Publish)];
  }

  // An active call with nothing held that is not certain: a foreign reply can reach it.
  lemma Exposed(h: Handler, s: State, c: nat) returns (actions: seq<Action>, t: State)
    requires Transit(h, s) && Pairings(s) && c < |s.calls| && s.calls[c].phase.Active() && s.calls[c].response.None? && !Certain(s, c)
    ensures Runs(h, s, actions, t) && c < |t.calls| && t.calls[c] == s.calls[c].(response := t.calls[c].response)
    ensures t.calls[c].response.Some? && Foreign(t, c, t.calls[c].response.value) && |s.published| <= |t.published|
    ensures t.calls[c].response.value.position < |t.published|
  {
    hide IsProbeFrame, AckFrameForProbe, Runs;
    if ForeignOutstanding(s, c) {
      actions, t := Fetches(h, s, c);
      RunsInv(h, s, actions, t);
    } else {
      var d :| 0 <= d < |s.calls| && d != c && s.calls[d].phase.Early();
      var first, s1 := OtherPublishes(h, s, c, d);
      var x := Item(|s.published|, s.calls[d].payload);
      assert x in s1.requests && Foreign(s1, c, x);
      var rest;
      rest, t := Fetches(h, s1, c);
      RunsConcat(h, s, first, s1, rest, t);
      actions := first + rest;
      RunsInv(h, s, actions, t);
    }
  }

  // A call that is not certain can return a reply that is not its own.
  lemma Misled(h: Handler, s: State, c: nat) returns (actions: seq<Action>, t: State)
    requires Transit(h, s) && Pairings(s) && c < |s.calls| && !Certain(s, c)
    ensures Runs(h, s, actions, t) && c < |t.calls| && t.calls[c].phase.Replied? && t.calls[c].phase.source != t.calls[c].phase.own
  {
    hide IsProbeFrame, AckFrameForProbe, Runs;
    if s.calls[c].phase.Replied? {
      actions, t := [], s;
      TraceRuns(h, [s], []);
    } else if s.calls[c].response.Some? {
      actions, t := Finishes(h, s, c);
    } else {
      var before, s1 := [], s;
      TraceRuns(h, [s], []);
      if s.calls[c].phase.Idle? {
        before, s1 := [Step(c, Subscribe)], Next(h, s, Step(c, Subscribe));
        TraceRuns(h, [s, s1], before);
        SubscribedUncertain(h, s, c);
        RunsInv(h, s, before, s1);
      }
      var middle, s2 := Exposed(h, s1, c);
      RunsInv(h, s1, middle, s2);
      var last;
      last, t := Finishes(h, s2, c);
      RunsConcat(h, s1, middle, s2, last, t);
      RunsConcat(h, s, before, s1, middle + last, t);
      actions := before + (middle + last);
    }
  }

  lemma SubscribedUncertain(h: Handler, s: State, c: nat)
    requires c < |s.calls| && s.calls[c].phase.Idle? && s.calls[c].response.None? && !Certain(s, c)
    ensures !Certain(Next(h, s, Step(c, Subscribe)), c)
  {
    var t := Next(h, s, Step(c, Subscribe));
    CertainEarly(s, c);
    CertainEarly(t, c);
    if OthersPast(t, c) {
      assert forall d :: 0 <= d < |s.calls| && d != c ==> t.calls[d] == s.calls[d];
    }
  }

  /** At any moment of any run, all continuations considered, a call is certain to return its own reply, if
      any, exactly when Certain holds: for a call that has not published, exactly when it holds no reply,
      nothing is outstanding, and every other call is past its publication.  A held reply counts because,
      unlike the Go session, which drains before it publishes, a call keeps what reaches it while it pairs. */
  lemma OwnReplyExactly(h: Handler, s0: State, before: seq<Action>, s: State, c: nat)
    requires Started(s0) && Runs(h, s0, before, s) && c < |s.calls|
    ensures (forall actions, t :: Runs(h, s, actions, t) && c < |t.calls| && t.calls[c].phase.Replied?
                                  ==> t.calls[c].phase.source == t.calls[c].phase.own)
            <==> Certain(s, c)
    ensures s.calls[c].phase.Early() ==>
              (Certain(s, c) <==> s.calls[c].response.None? && s.requests == [] && s.replies == [] && OthersPast(s, c))
  {
    hide Runs, Started, Transit, Pairings, Next, Enabled, OthersPast;
    StartedInv(h, s0);
    RunsInv(h, s0, before, s);
    if s.calls[c].phase.Early() {
      CertainEarly(s, c);
    }
    if Certain(s, c) {
      forall actions, t | Runs(h, s, actions, t) && c < |t.calls| && t.calls[c].phase.Replied?
        ensures t.calls[c].phase.source == t.calls[c].phase.own
      {
        CertainRuns(h, s, actions, t, c);
      }
    } else {
      var actions, t := Misled(h, s, c);
      assert Runs(h, s, actions, t);
    }
  }

  /** Overlapping calls cross, from the very start: of any two calls, one can return the other's reply. */
  lemma CallsCross(h: Handler, s0: State, c: nat, d: nat) returns (actions: seq<Action>, t: State)
    requires Started(s0) && c < |s0.calls| && d < |s0.calls| && c != d
    ensures Runs(h, s0, actions, t) && c < |t.calls| && t.calls[c].phase == Replied(1, 0, h(s0.calls[d].payload))
  {
    hide IsProbeFrame, AckFrameForProbe, Runs;
    var s1 := Next(h, s0, Step(c, Subscribe));
    TraceRuns(h, [s0, s1], [Step(c, Subscribe)]);
    var middle, s2 := OtherPublishes(h, s1, c, d);
    var s3 := Next(h, s2, RequestArrives);
    var s4 := Next(h, s3, ReplyArrives);
    TraceRuns(h, [s2, s3, s4], [RequestArrives, ReplyArrives]);
    var last;
    last, t := Finishes(h, s4, c);
    RunsConcat(h, s2, [RequestArrives, ReplyArrives], s4, last, t);
    RunsConcat(h, s1, middle, s2, [RequestArrives, ReplyArrives] + last, t);
    RunsConcat(h, s0, [Step(c, Subscribe)], s1, middle + ([RequestArrives, ReplyArrives] + last), t);
    actions := [Step(c, Subscribe)] + (middle + ([RequestArrives, ReplyArrives] + last));
  }
}
