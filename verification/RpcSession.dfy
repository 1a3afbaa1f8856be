/**
 One client session of the Go topic RPC adapter with any number of concurrent callers, as a system of
 atomic steps.  The network may lose messages and duplicate or reorder control frames; requests and
 replies keep their order, and the server answers each request at most once.
 */
module RpcSession {
  import opened Bytes
  import opened RpcFrames

  const CAPACITY: nat := 8

  // A request or reply in transit, with the position of the request among those published.
  datatype Item = Item(position: nat, bytes: Bytes)

  datatype Outcome =
    | Reply(own: nat, source: nat, bytes: Bytes)
    | TimedOut(own: nat)
    | Failed

  // Where requestWithSession stands.
  datatype Pc =
    | Start
    | Enter
    | WaitReady
    | Settle
    | Probe
    | AwaitAck
    | Go
    | Send
    | Await(own: nat)
    | Ended(outcome: Outcome)
  {
    predicate Inside() {
      !Start? && !Ended?
    }

    predicate BeforeProbe() {
      Start? || Enter? || WaitReady? || Settle?
    }

    predicate Pairing() {
      WaitReady? || Settle? || Probe? || AwaitAck?
    }

    predicate Ready() {
      Go? || Send? || Await?
    }

    // The position at which the call published its request.
    function Position(): Option<nat> {
      match this
      case Await(own) => Some(own)
      case Ended(Reply(own, _, _)) => Some(own)
      case Ended(TimedOut(own)) => Some(own)
      case _ => None
    }
  }

  datatype Caller = Caller(payload: Bytes, frame: Bytes, pc: Pc)

  datatype State = State(
    callers: seq<Caller>,
    holder: Option<nat>,
    readyChecked: bool,
    readySucceeded: bool,
    responseCh: seq<Item>,
    handshakeCh: seq<Bytes>,
    published: seq<nat>,
    requests: seq<Item>,
    replies: seq<Item>,
    probes: set<Bytes>,
    received: set<Bytes>,
    acks: set<Bytes>,
    provedBy: Option<nat>)

  // A step of one caller.
  datatype Move =
    | Lock
    | EnterReady
    | EnterUnready
    | BeaconSeen
    | BeaconMissed
    | DiscardAck
    | BeginProbe
    | PublishProbe
    | TakeAck
    | Tick
    | DiscardReply
    | DrainEnds
    | Publish
    | TakeReply
    | GiveUp
    | Fail

  datatype Action =
    | Call(c: nat, move: Move)
    | ProbeArrives(frame: Bytes)
    | ForeignProbe(frame: Bytes)
    | AckArrives(frame: Bytes)
    | RequestArrives
    | ReplyArrives
    | LoseRequest(i: nat)
    | LoseReply(i: nat)

  type Handler = Bytes -> Result<Bytes>

  // A send to a buffered channel with a default branch.
  function Offered<T>(channel: seq<T>, x: T): seq<T> {
    if |channel| < CAPACITY then channel + [x] else channel
  }

  function Without<T>(s: seq<T>, i: nat): seq<T>
    requires i < |s|
  {
    s[..i] + s[i + 1..]
  }

  predicate At(s: State, c: nat, pc: Pc) {
    c < |s.callers| && s.callers[c].pc == pc
  }

  function Turn(s: State, c: nat, pc: Pc): State
    requires c < |s.callers|
  {
    s.(callers := s.callers[c := s.callers[c].(pc := pc)])
  }

  // The call returns and its deferred unlock runs.
  function Return(s: State, c: nat, outcome: Outcome): State
    requires c < |s.callers|
  {
    Turn(s, c, Ended(outcome)).(holder := None)
  }

  predicate MoveEnabled(s: State, pc: Pc, move: Move) {
    match move
    case Lock => pc.Start? && s.holder == None
    case EnterReady => pc.Enter? && (s.readySucceeded || s.readyChecked)
    case EnterUnready => pc.Enter? && !(s.readySucceeded || s.readyChecked)
    case BeaconSeen => pc.WaitReady?
    case BeaconMissed => pc.WaitReady?
    // drainBytes receives until nothing is ready
    case DiscardAck => pc.Settle? && s.handshakeCh != []
    case BeginProbe => pc.Settle? && s.handshakeCh == []
    case PublishProbe => pc.Probe?
    case TakeAck => pc.AwaitAck? && s.handshakeCh != []
    case Tick => pc.AwaitAck?
    case DiscardReply => pc.Go? && s.responseCh != []
    case DrainEnds => pc.Go? && s.responseCh == []
    case Publish => pc.Send?
    case TakeReply => pc.Await? && s.responseCh != []
    case GiveUp => pc.Await?
    // an error of PreparePublish, of the ready subscription, of a publication, a pairing timeout or
    // a cancelled context
    case Fail => (pc.Pairing() && !pc.Settle?) || pc.Send? || (pc.Enter? && !(s.readySucceeded || s.readyChecked))
  }

  predicate Enabled(s: State, a: Action) {
    match a
    case Call(c, move) => c < |s.callers| && MoveEnabled(s, s.callers[c].pc, move)
    case ProbeArrives(frame) => frame in s.probes
    // another client's probe: nonces are distinct
    case ForeignProbe(frame) => forall c :: 0 <= c < |s.callers| ==> s.callers[c].frame != frame
    case AckArrives(frame) => frame in s.acks
    case RequestArrives => s.requests != []
    case ReplyArrives => s.replies != []
    case LoseRequest(i) => i < |s.requests|
    case LoseReply(i) => i < |s.replies|
  }

  // The server's probe handler.
  function ServerHears(s: State, frame: Bytes): State {
    s.(received := s.received + {frame},
       acks := s.acks + if IsProbeFrame(frame) then {AckFrameForProbe(frame)} else {})
  }

  // What one caller's step makes of the state, its own place included.
  function Moved(s: State, c: nat, move: Move): State
    requires c < |s.callers| && MoveEnabled(s, s.callers[c].pc, move)
  {
    match move
    case Lock => Turn(s, c, Enter).(holder := Some(c))
    case EnterReady => Turn(s, c, Go)
    case EnterUnready => Turn(s, c, WaitReady)
    case BeaconSeen => Turn(s, c, Settle)
    case BeaconMissed => Turn(s, c, Go).(readyChecked := true)
    case DiscardAck => s.(handshakeCh := s.handshakeCh[1..])
    case BeginProbe => Turn(s, c, Probe)
    case PublishProbe => Turn(s, c, AwaitAck).(probes := s.probes + {s.callers[c].frame})
    case TakeAck =>
      if s.handshakeCh[0] == AckFrameForProbe(s.callers[c].frame)
      then Turn(s, c, Go).(handshakeCh := s.handshakeCh[1..], readySucceeded := true, provedBy := Some(c))
      else Turn(s, c, Probe).(handshakeCh := s.handshakeCh[1..])
    case Tick => Turn(s, c, Probe)
    case DiscardReply => s.(responseCh := s.responseCh[1..])
    case DrainEnds => Turn(s, c, Send)
    case Publish =>
      Turn(s, c, Await(|s.published|)).(published := s.published + [c],
                                        requests := s.requests + [Item(|s.published|, s.callers[c].payload)])
    case TakeReply =>
      Return(s, c, Reply(s.callers[c].pc.own, s.responseCh[0].position, s.responseCh[0].bytes)).(responseCh := s.responseCh[1..])
    case GiveUp => Return(s, c, TimedOut(s.callers[c].pc.own))
    case Fail => Return(s, c, Failed)
  }

  function Next(h: Handler, s: State, a: Action): State
    requires Enabled(s, a)
  {
    match a
    case Call(c, move) => Moved(s, c, move)
    case ProbeArrives(frame) => ServerHears(s, frame)
    case ForeignProbe(frame) => ServerHears(s, frame)
    case AckArrives(frame) => s.(handshakeCh := Offered(s.handshakeCh, frame))
    case RequestArrives =>
      var request, response := s.requests[0], h(s.requests[0].bytes);
      s.(requests := s.requests[1..],
         replies := s.replies + if response.Success? then [Item(request.position, response.value)] else [])
    case ReplyArrives => s.(replies := s.replies[1..], responseCh := Offered(s.responseCh, s.replies[0]))
    case LoseRequest(i) => s.(requests := Without(s.requests, i))
    case LoseReply(i) => s.(replies := Without(s.replies, i))
  }

  // Distinct nonces give every call its own probe frame.
  predicate Started(s: State) {
    && (forall c :: 0 <= c < |s.callers| ==> s.callers[c].pc == Start && IsProbeFrame(s.callers[c].frame))
    && (forall c, d :: 0 <= c < d < |s.callers| ==> s.callers[c].frame != s.callers[d].frame)
    && s == State(s.callers, None, false, false, [], [], [], [], [], {}, {}, {}, None)
  }

  // ----- Invariants

  // Mutual exclusion: a call past Lock and not yet returned is the holder of requestMu.
  ghost predicate Mutex(s: State) {
    && (s.holder.Some? ==> s.holder.value < |s.callers|)
    && forall c :: 0 <= c < |s.callers| ==> (s.callers[c].pc.Inside() <==> s.holder == Some(c))
  }

  ghost predicate Flags(s: State) {
    && !(s.readyChecked && s.readySucceeded)
    && (s.published != [] ==> s.readyChecked || s.readySucceeded)
    && forall c :: 0 <= c < |s.callers| ==>
         && (s.callers[c].pc.Pairing() ==> !s.readyChecked && !s.readySucceeded)
         && (s.callers[c].pc.Ready() ==> s.readyChecked || s.readySucceeded)
  }

  ghost predicate Acknowledged(s: State, ack: Bytes) {
    exists p :: p in s.received && IsProbeFrame(p) && ack == AckFrameForProbe(p)
  }

  // Only received probes are acknowledged.
  ghost predicate Acks(s: State) {
    && (forall a :: a in s.acks ==> Acknowledged(s, a))
    && (forall a :: a in s.handshakeCh ==> Acknowledged(s, a))
  }

  // A call's own frame is out only once the call has sent it.
  ghost predicate Frames(s: State) {
    && (forall c :: 0 <= c < |s.callers| ==> IsProbeFrame(s.callers[c].frame))
    && (forall c, d :: 0 <= c < d < |s.callers| ==> s.callers[c].frame != s.callers[d].frame)
    && (forall c :: 0 <= c < |s.callers| && s.callers[c].frame in s.received ==> s.callers[c].frame in s.probes)
    && (forall c :: 0 <= c < |s.callers| && s.callers[c].pc.BeforeProbe() ==> s.callers[c].frame !in s.probes)
  }

  // The session counts as paired once a server has received the pairing call's own probe.
  ghost predicate Paired(s: State) {
    && (s.readySucceeded <==> s.provedBy.Some?)
    && (s.provedBy.Some? ==> s.provedBy.value < |s.callers| && s.callers[s.provedBy.value].frame in s.received)
  }

  // Each caller publishes at most once, and an awaiting caller published last.
  ghost predicate Positions(s: State) {
    && (forall p :: 0 <= p < |s.published| ==>
          s.published[p] < |s.callers| && s.callers[s.published[p]].pc.Position() == Some(p))
    && (forall c :: 0 <= c < |s.callers| && s.callers[c].pc.Position().Some? ==>
          var p := s.callers[c].pc.Position().value;
          p < |s.published| && s.published[p] == c)
    && (forall c :: 0 <= c < |s.callers| && s.callers[c].pc.Await? ==> s.callers[c].pc.own == |s.published| - 1)
  }

  predicate IsRequest(s: State, x: Item) {
    x.position < |s.published| && s.published[x.position] < |s.callers|
    && x.bytes == s.callers[s.published[x.position]].payload
  }

  predicate IsReply(h: Handler, s: State, x: Item) {
    x.position < |s.published| && s.published[x.position] < |s.callers|
    && h(s.callers[s.published[x.position]].payload) == Success(x.bytes)
  }

  predicate Ascending(items: seq<Item>) {
    forall i, j :: 0 <= i < j < |items| ==> items[i].position < items[j].position
  }

  // Everything in transit, oldest first.
  function Pipeline(s: State): seq<Item> {
    s.responseCh + s.replies + s.requests
  }

  ghost predicate Transit(h: Handler, s: State) {
    && (forall x :: x in s.responseCh ==> IsReply(h, s, x))
    && (forall x :: x in s.replies ==> IsReply(h, s, x))
    && (forall x :: x in s.requests ==> IsRequest(s, x))
    && Ascending(Pipeline(s))
  }

  predicate TimedOutAt(s: State, p: nat) {
    p < |s.published| && At(s, s.published[p], Ended(TimedOut(p)))
  }

  // A call at or before position p timed out.
  ghost predicate TimedOutBy(s: State, p: nat) {
    exists q :: 0 <= q <= p && TimedOutAt(s, q)
  }

  // Something still in transit is being awaited, or is left over from a timeout.
  ghost predicate Explained(s: State, p: nat) {
    (p < |s.published| && At(s, s.published[p], Await(p))) || TimedOutBy(s, p)
  }

  // A returned reply answers this call's request, or an earlier one after a timeout.
  ghost predicate Correlated(h: Handler, s: State, c: nat)
    requires c < |s.callers|
  {
    s.callers[c].pc.Ended? && s.callers[c].pc.outcome.Reply? ==>
      var r := s.callers[c].pc.outcome;
      && IsReply(h, s, Item(r.source, r.bytes))
      && r.source <= r.own
      && (r.source < r.own ==> TimedOutBy(s, r.source))
  }

  ghost predicate Correlation(h: Handler, s: State) {
    && (forall x :: x in Pipeline(s) ==> Explained(s, x.position))
    && (forall c :: 0 <= c < |s.callers| ==> Correlated(h, s, c))
  }

  ghost predicate Inv(h: Handler, s: State) {
    Mutex(s) && Flags(s) && Acks(s) && Frames(s) && Paired(s) && Positions(s) && Transit(h, s) && Correlation(h, s)
  }

  // ----- Every step keeps the invariants

  // t's callers are s's, up to the place where caller c stands.
  ghost predicate OnlyTurned(s: State, t: State, c: nat) {
    && c < |s.callers| && |t.callers| == |s.callers|
    && t.callers[c] == s.callers[c].(pc := t.callers[c].pc)
    && forall d :: 0 <= d < |s.callers| && d != c ==> t.callers[d] == s.callers[d]
  }

  lemma TurnsOne(s: State, c: nat, move: Move)
    requires c < |s.callers| && MoveEnabled(s, s.callers[c].pc, move)
    ensures OnlyTurned(s, Moved(s, c, move), c)
  {
  }

  lemma MovesHolder(s: State, c: nat, move: Move)
    requires c < |s.callers| && MoveEnabled(s, s.callers[c].pc, move)
    ensures var t := Moved(s, c, move);
            if move.Lock? then s.holder == None && t.holder == Some(c) && t.callers[c].pc.Inside()
            else s.callers[c].pc.Inside() && t.holder == if t.callers[c].pc.Inside() then s.holder else None
  {
  }

  lemma MutexStep(h: Handler, s: State, a: Action)
    requires Mutex(s) && Enabled(s, a)
    ensures Mutex(Next(h, s, a))
  {
    hide IsProbeFrame, AckFrameForProbe, Offered, Without, Moved;
    if a.Call? {
      TurnsOne(s, a.c, a.move);
      MovesHolder(s, a.c, a.move);
    }
  }

  lemma MovesFlags(s: State, c: nat, move: Move)
    requires c < |s.callers| && MoveEnabled(s, s.callers[c].pc, move)
    ensures var t := Moved(s, c, move);
            && (s.readyChecked ==> t.readyChecked) && (s.readySucceeded ==> t.readySucceeded)
            && (!s.readyChecked && t.readyChecked ==> s.callers[c].pc.Pairing())
            && (!s.readySucceeded && t.readySucceeded ==> s.callers[c].pc.Pairing())
            && (t.callers[c].pc.Ready() ==> s.callers[c].pc.Ready() || t.readyChecked || t.readySucceeded)
            && (t.callers[c].pc.Pairing() ==>
                  (s.callers[c].pc.Pairing() || (!s.readyChecked && !s.readySucceeded))
                  && t.readyChecked == s.readyChecked && t.readySucceeded == s.readySucceeded)
            && (!t.callers[c].pc.Pairing() ==> !((t.readyChecked && !s.readyChecked) && (t.readySucceeded && !s.readySucceeded)))
            && (t.published != s.published ==> s.callers[c].pc.Ready())
  {
  }

  lemma FlagsStep(h: Handler, s: State, a: Action)
    requires Mutex(s) && Flags(s) && Enabled(s, a)
    ensures Flags(Next(h, s, a))
  {
    hide IsProbeFrame, AckFrameForProbe, Offered, Without, Moved;
    if a.Call? {
      TurnsOne(s, a.c, a.move);
      MovesFlags(s, a.c, a.move);
    }
  }

  lemma MovesFrames(s: State, c: nat, move: Move)
    requires c < |s.callers| && MoveEnabled(s, s.callers[c].pc, move)
    ensures var t := Moved(s, c, move);
            && t.received == s.received && t.acks == s.acks
            && (t.handshakeCh == s.handshakeCh || t.handshakeCh == [] || (s.handshakeCh != [] && t.handshakeCh == s.handshakeCh[1..]))
            && t.probes == s.probes + (if move.PublishProbe? then {s.callers[c].frame} else {})
            && (t.callers[c].pc.BeforeProbe() ==> s.callers[c].pc.BeforeProbe() && !move.PublishProbe?)
  {
    hide AckFrameForProbe;
  }

  // Only a matching acknowledgement makes the session paired.
  lemma MovesPaired(s: State, c: nat, move: Move)
    requires c < |s.callers| && MoveEnabled(s, s.callers[c].pc, move)
    ensures var t := Moved(s, c, move);
            if move.TakeAck? && s.handshakeCh[0] == AckFrameForProbe(s.callers[c].frame) then t.readySucceeded && t.provedBy == Some(c)
               else t.readySucceeded == s.readySucceeded && t.provedBy == s.provedBy
  {
    hide AckFrameForProbe;
  }

  lemma AcksStep(h: Handler, s: State, a: Action)
    requires Acks(s) && Enabled(s, a)
    ensures Acks(Next(h, s, a))
  {
    hide IsProbeFrame, AckFrameForProbe, Without, Moved;
    var t := Next(h, s, a);
    if a.Call? {
      MovesFrames(s, a.c, a.move);
    }
    forall ack | Acknowledged(s, ack)
      ensures Acknowledged(t, ack)
    {
      var p :| p in s.received && IsProbeFrame(p) && ack == AckFrameForProbe(p);
      assert p in t.received;
    }
  }

  lemma FramesStep(h: Handler, s: State, a: Action)
    requires Frames(s) && Enabled(s, a)
    ensures Frames(Next(h, s, a))
  {
    hide IsProbeFrame, AckFrameForProbe, Offered, Without, Moved;
    if a.Call? {
      TurnsOne(s, a.c, a.move);
      MovesFrames(s, a.c, a.move);
    }
  }

  // An acknowledgement that matches was sent for the caller's own probe.
  lemma OwnProbe(s: State, c: nat, ack: Bytes)
    requires Frames(s) && c < |s.callers| && Acknowledged(s, ack) && ack == AckFrameForProbe(s.callers[c].frame)
    ensures s.callers[c].frame in s.received
  {
    hide IsProbeFrame, AckFrameForProbe;
    var p :| p in s.received && IsProbeFrame(p) && ack == AckFrameForProbe(p);
    AckIdentifiesProbe(p, s.callers[c].frame);
  }

  lemma PairedStep(h: Handler, s: State, a: Action)
    requires Acks(s) && Frames(s) && Paired(s) && Enabled(s, a)
    ensures Paired(Next(h, s, a))
  {
    hide IsProbeFrame, AckFrameForProbe, Offered, Without, Moved;
    if a.Call? {
      TurnsOne(s, a.c, a.move);
      MovesFrames(s, a.c, a.move);
      MovesPaired(s, a.c, a.move);
      if a.move.TakeAck? && s.handshakeCh[0] == AckFrameForProbe(s.callers[a.c].frame) {
        OwnProbe(s, a.c, s.handshakeCh[0]);
      }
    }
  }

  lemma MovesPositions(s: State, c: nat, move: Move)
    requires c < |s.callers| && MoveEnabled(s, s.callers[c].pc, move)
    ensures var t := Moved(s, c, move);
            if move.Publish? then
              && t.published == s.published + [c] && s.callers[c].pc == Send && t.callers[c].pc == Await(|s.published|)
            else
              && t.published == s.published && t.callers[c].pc.Position() == s.callers[c].pc.Position()
              && !t.callers[c].pc.Await?
  {
  }

  lemma PositionsTurned(s: State, t: State, c: nat)
    requires Positions(s) && OnlyTurned(s, t, c) && t.published == s.published
    requires t.callers[c].pc.Position() == s.callers[c].pc.Position() && !t.callers[c].pc.Await?
    ensures Positions(t)
  {
  }

  lemma PositionsPublished(s: State, t: State, c: nat)
    requires Mutex(s) && Positions(s) && OnlyTurned(s, t, c)
    requires t.published == s.published + [c] && s.callers[c].pc == Send && t.callers[c].pc == Await(|s.published|)
    ensures Positions(t)
  {
    forall p | 0 <= p < |t.published|
      ensures t.published[p] < |t.callers| && t.callers[t.published[p]].pc.Position() == Some(p)
    {
      if p < |s.published| {
        assert s.callers[s.published[p]].pc.Position() == Some(p);
        assert t.published[p] == s.published[p] != c;
      }
    }
    forall d | 0 <= d < |t.callers| && t.callers[d].pc.Position().Some?
      ensures var p := t.callers[d].pc.Position().value; p < |t.published| && t.published[p] == d
      ensures t.callers[d].pc.Await? ==> t.callers[d].pc.own == |t.published| - 1
    {
      if d != c {
        assert s.callers[d].pc == t.callers[d].pc;
      }
    }
  }

  lemma PositionsStep(h: Handler, s: State, a: Action)
    requires Mutex(s) && Positions(s) && Enabled(s, a)
    ensures Positions(Next(h, s, a))
  {
    if a.Call? {
      hide Moved, Positions, Mutex, MoveEnabled, OnlyTurned;
      var t := Moved(s, a.c, a.move);
      TurnsOne(s, a.c, a.move);
      MovesPositions(s, a.c, a.move);
      TurnedWithin(s, t, a.c);
      if a.move.Publish? {
        PositionsPublished(s, t, a.c);
      } else {
        PositionsTurned(s, t, a.c);
      }
    } else {
      hide IsProbeFrame, AckFrameForProbe, Offered, Without;
    }
  }

  lemma TurnedWithin(s: State, t: State, c: nat)
    requires OnlyTurned(s, t, c)
    ensures c < |s.callers| == |t.callers|
  {
  }

  // q is p with items removed or their bytes replaced.
  ghost predicate Thinned(p: seq<Item>, q: seq<Item>) {
    && (Ascending(p) ==> Ascending(q))
    && forall x :: x in q ==> exists y :: y in p && y.position == x.position
  }

  lemma ThinnedWithout(p: seq<Item>, i: nat)
    requires i < |p|
    ensures Thinned(p, Without(p, i))
  {
  }

  lemma ThinnedSuffix(p: seq<Item>, i: nat)
    requires i <= |p|
    ensures Thinned(p, p[i..])
  {
  }

  lemma ThinnedReplaced(p: seq<Item>, i: nat, x: Item)
    requires i < |p| && x.position == p[i].position
    ensures Thinned(p, p[i := x])
  {
  }

  lemma ThinnedSelf(p: seq<Item>)
    ensures Thinned(p, p)
  {
  }

  // What a caller's step does to what is in transit.
  lemma MovesTransit(s: State, c: nat, move: Move)
    requires c < |s.callers| && MoveEnabled(s, s.callers[c].pc, move)
    ensures var t := Moved(s, c, move);
            && t.replies == s.replies
            && t.responseCh == (if move.DiscardReply? || move.TakeReply? then s.responseCh[1..] else s.responseCh)
            && t.requests == s.requests + if move.Publish? then [Item(|s.published|, s.callers[c].payload)] else []
  {
  }

  lemma PipelineMoved(s: State, c: nat, move: Move)
    requires c < |s.callers| && MoveEnabled(s, s.callers[c].pc, move)
    ensures var t := Moved(s, c, move);
            if move.Publish? then Pipeline(t) == Pipeline(s) + [Item(|s.published|, s.callers[c].payload)]
            else Thinned(Pipeline(s), Pipeline(t))
  {
    hide Moved, Thinned, MoveEnabled, Ascending;
    var p, q := Pipeline(s), Pipeline(Moved(s, c, move));
    MovesTransit(s, c, move);
    if move.DiscardReply? || move.TakeReply? {
      assert s.responseCh != [] by {
        Takes(s, s.callers[c].pc, move);
      }
      assert q == p[1..];
      ThinnedSuffix(p, 1);
    } else if !move.Publish? {
      assert q == p;
      ThinnedSelf(p);
    }
  }

  lemma Takes(s: State, pc: Pc, move: Move)
    requires MoveEnabled(s, pc, move) && (move.DiscardReply? || move.TakeReply?)
    ensures s.responseCh != []
  {
  }

  // The steps of the network and the server, on the three queues.
  lemma RequestAnswered(ch: seq<Item>, replies: seq<Item>, requests: seq<Item>, answer: seq<Item>)
    requires requests != []
    requires answer == [] || (|answer| == 1 && answer[0].position == requests[0].position)
    ensures Thinned(ch + replies + requests, ch + (replies + answer) + requests[1..])
  {
    hide Thinned, Ascending;
    var p, q, k := ch + replies + requests, ch + (replies + answer) + requests[1..], |ch| + |replies|;
    if answer == [] {
      assert q == Without(p, k);
      ThinnedWithout(p, k);
    } else {
      assert q == p[k := answer[0]];
      ThinnedReplaced(p, k, answer[0]);
    }
  }

  lemma ReplyOffered(ch: seq<Item>, replies: seq<Item>, requests: seq<Item>)
    requires replies != []
    ensures Thinned(ch + replies + requests, Offered(ch, replies[0]) + replies[1..] + requests)
  {
    hide Thinned, Ascending;
    var p, q := ch + replies + requests, Offered(ch, replies[0]) + replies[1..] + requests;
    if |ch| < CAPACITY {
      assert q == p;
      ThinnedSelf(p);
    } else {
      assert q == Without(p, |ch|);
      ThinnedWithout(p, |ch|);
    }
  }

  lemma OneLost(before: seq<Item>, queue: seq<Item>, rest: seq<Item>, i: nat)
    requires i < |queue|
    ensures Thinned(before + queue + rest, before + Without(queue, i) + rest)
  {
    hide Thinned, Ascending;
    assert before + Without(queue, i) + rest == Without(before + queue + rest, |before| + i);
    ThinnedWithout(before + queue + rest, |before| + i);
  }

  lemma PipelineNetwork(h: Handler, s: State, a: Action)
    requires !a.Call? && Enabled(s, a)
    ensures Thinned(Pipeline(s), Pipeline(Next(h, s, a)))
  {
    hide Thinned, Ascending, IsProbeFrame, AckFrameForProbe, Offered, Without;
    match a {
      case RequestArrives =>
        var response := h(s.requests[0].bytes);
        RequestAnswered(s.responseCh, s.replies, s.requests,
                        if response.Success? then [Item(s.requests[0].position, response.value)] else []);
      case ReplyArrives =>
        ReplyOffered(s.responseCh, s.replies, s.requests);
      case LoseRequest(i) =>
        OneLost(s.responseCh + s.replies, s.requests, [], i);
        assert s.responseCh + s.replies + s.requests + [] == s.responseCh + s.replies + s.requests;
        assert s.responseCh + s.replies + Without(s.requests, i) + [] == s.responseCh + s.replies + Without(s.requests, i);
      case LoseReply(i) =>
        OneLost(s.responseCh, s.replies, s.requests, i);
      case _ =>
        ThinnedSelf(Pipeline(s));
    }
  }

  // Payloads and published positions stay what they are.
  lemma PublishedStays(h: Handler, s: State, a: Action)
    requires Mutex(s) && Positions(s) && Enabled(s, a)
    ensures var t := Next(h, s, a);
            && |s.published| <= |t.published| && t.published[..|s.published|] == s.published
            && |t.callers| == |s.callers|
            && (forall d :: 0 <= d < |s.callers| ==> t.callers[d].payload == s.callers[d].payload && t.callers[d].frame == s.callers[d].frame)
            && (forall d :: 0 <= d < |s.callers| && s.callers[d].pc.Ended? ==> t.callers[d].pc == s.callers[d].pc)
  {
    hide IsProbeFrame, AckFrameForProbe, Offered, Without, Moved;
    if a.Call? {
      TurnsOne(s, a.c, a.move);
      MovesPositions(s, a.c, a.move);
      MovesHolder(s, a.c, a.move);
    }
  }

  lemma ItemsStay(h: Handler, s: State, a: Action, x: Item)
    requires Mutex(s) && Positions(s) && Enabled(s, a)
    ensures var t := Next(h, s, a);
            && (IsReply(h, s, x) ==> IsReply(h, t, x))
            && (IsRequest(s, x) ==> IsRequest(t, x))
  {
    hide Next, Positions, Mutex, Enabled;
    PublishedStays(h, s, a);
    var t := Next(h, s, a);
    assert forall p :: 0 <= p < |s.published| ==> t.published[p] == t.published[..|s.published|][p];
  }

  // Where the queues' items come from.
  lemma QueuesStep(h: Handler, s: State, a: Action)
    requires Enabled(s, a)
    ensures var t := Next(h, s, a);
            && (forall x :: x in t.responseCh ==> x in s.responseCh || x in s.replies)
            && (forall x :: x in t.replies ==> x in s.replies || exists r :: r in s.requests && r.position == x.position && h(r.bytes) == Success(x.bytes))
            && (forall x :: x in t.requests ==> x in s.requests || (a.Call? && a.move.Publish? && x == Item(|s.published|, s.callers[a.c].payload)))
  {
    hide Moved, IsProbeFrame, AckFrameForProbe;
    if a.Call? {
      MovesTransit(s, a.c, a.move);
    } else if a.RequestArrives? {
      assert s.requests[0] in s.requests;
    }
  }

  lemma TransitStep(h: Handler, s: State, a: Action)
    requires Mutex(s) && Positions(s) && Transit(h, s) && Enabled(s, a)
    ensures Transit(h, Next(h, s, a))
  {
    var t := Next(h, s, a);
    assert Ascending(Pipeline(t)) by {
      hide Next, Moved, Positions, Mutex, Pipeline, Ascending, Enabled, MoveEnabled;
      if a.Call? {
        PipelineMoved(s, a.c, a.move);
        AscendingPublished(h, s, a.c);
      } else {
        PipelineNetwork(h, s, a);
      }
    }
    hide Next, Positions, Mutex, Pipeline, Ascending, IsReply, IsRequest;
    QueuesStep(h, s, a);
    forall x
      ensures IsReply(h, s, x) ==> IsReply(h, t, x)
      ensures IsRequest(s, x) ==> IsRequest(t, x)
      ensures IsRequest(s, x) && h(x.bytes).Success? ==> IsReply(h, s, Item(x.position, h(x.bytes).value))
    {
      ItemsStay(h, s, a, x);
    }
  }

  lemma AscendingPublished(h: Handler, s: State, c: nat)
    requires Transit(h, s) && c < |s.callers|
    ensures Ascending(Pipeline(s) + [Item(|s.published|, s.callers[c].payload)])
  {
    forall x | x in Pipeline(s)
      ensures x.position < |s.published|
    {
    }
  }

  lemma TimeoutsStay(h: Handler, s: State, a: Action, p: nat)
    requires Mutex(s) && Positions(s) && Enabled(s, a) && TimedOutBy(s, p)
    ensures TimedOutBy(Next(h, s, a), p)
  {
    hide Next, Positions, Mutex, Enabled;
    PublishedStays(h, s, a);
    var t := Next(h, s, a);
    var q :| 0 <= q <= p && TimedOutAt(s, q);
    assert t.published[q] == t.published[..|s.published|][q];
    assert TimedOutAt(t, q);
  }

  // The reply a waiting call takes answers its own request, or an earlier one after a timeout; and
  // what then remains in transit is explained by that timeout.
  lemma TakenExplained(h: Handler, s: State, c: nat)
    requires Positions(s) && Transit(h, s) && Correlation(h, s)
    requires c < |s.callers| && s.callers[c].pc.Await? && s.responseCh != []
    ensures var x, own := s.responseCh[0], s.callers[c].pc.own;
            && IsReply(h, s, x) && x.position <= own
            && (x.position < own ==> TimedOutBy(s, x.position))
            && (forall y :: y in Pipeline(s)[1..] ==> TimedOutBy(s, y.position))
  {
    hide Ascending, IsReply, IsRequest, TimedOutAt;
    var line, x, own := Pipeline(s), s.responseCh[0], s.callers[c].pc.own;
    assert line[0] == x && x in line && x in s.responseCh;
    assert IsReply(h, s, x);
    Within(h, s, x);
    assert Explained(s, x.position);
    forall y | y in line[1..]
      ensures TimedOutBy(s, y.position)
    {
      var j :| 1 <= j < |line| && line[j] == y;
      After(line, j);
      assert y in line;
      Within(h, s, y);
      assert TimedOutBy(s, x.position);
    }
  }

  lemma Within(h: Handler, s: State, x: Item)
    requires Transit(h, s) && x in Pipeline(s)
    ensures x.position < |s.published|
  {
  }

  lemma After(line: seq<Item>, j: nat)
    requires Ascending(line) && 1 <= j < |line|
    ensures line[0].position < line[j].position
  {
  }

  lemma MovesOutcome(s: State, c: nat, move: Move)
    requires c < |s.callers| && MoveEnabled(s, s.callers[c].pc, move)
    ensures var pc, was := Moved(s, c, move).callers[c].pc, s.callers[c].pc;
            && (move.TakeReply? ==> was.Await? && s.responseCh != [] && pc == Ended(Reply(was.own, s.responseCh[0].position, s.responseCh[0].bytes)))
            && (move.GiveUp? ==> was.Await? && pc == Ended(TimedOut(was.own)))
            && (!move.TakeReply? ==> !(pc.Ended? && pc.outcome.Reply?))
            && (move.Fail? ==> pc == Ended(Failed))
            && (!move.TakeReply? && !move.GiveUp? ==> !was.Await?)
  {
    hide AckFrameForProbe;
  }

  // A place in the queue stays explained, unless a call takes a reply.
  lemma ExplainedStays(h: Handler, s: State, a: Action, p: nat)
    requires Mutex(s) && Positions(s) && Enabled(s, a) && Explained(s, p)
    requires a.Call? ==> !a.move.TakeReply?
    ensures Explained(Next(h, s, a), p)
  {
    hide Moved, Positions, Mutex, MoveEnabled, IsProbeFrame, AckFrameForProbe;
    var t := Next(h, s, a);
    PublishedStays(h, s, a);
    if TimedOutBy(s, p) {
      TimeoutsStay(h, s, a, p);
    } else {
      assert t.published[p] == t.published[..|s.published|][p];
      if a.Call? {
        TurnsOne(s, a.c, a.move);
        MovesOutcome(s, a.c, a.move);
        if a.c == s.published[p] {
          assert TimedOutAt(t, p);
        }
      }
    }
  }

  lemma PipelineExplained(h: Handler, s: State, a: Action)
    requires Mutex(s) && Positions(s) && Transit(h, s) && Correlation(h, s) && Enabled(s, a)
    ensures forall x :: x in Pipeline(Next(h, s, a)) ==> Explained(Next(h, s, a), x.position)
  {
    hide Moved, Positions, Mutex, MoveEnabled, Pipeline, Transit, Ascending, Explained, Correlated, IsProbeFrame, AckFrameForProbe;
    var t := Next(h, s, a);
    if a.Call? {
      PipelineMoved(s, a.c, a.move);
      MovesOutcome(s, a.c, a.move);
    } else {
      PipelineNetwork(h, s, a);
    }
    forall x | x in Pipeline(t)
      ensures Explained(t, x.position)
    {
      if a.Call? && a.move.TakeReply? {
        TakenExplained(h, s, a.c);
        TakenLine(s, a.c);
        TimeoutsStay(h, s, a, x.position);
        TimedOutExplains(t, x.position);
      } else if a.Call? && a.move.Publish? && x == Item(|s.published|, s.callers[a.c].payload) {
        PublishedExplained(s, a.c);
      } else {
        var y :| y in Pipeline(s) && y.position == x.position;
        ExplainedStays(h, s, a, y.position);
      }
    }
  }

  lemma TakenLine(s: State, c: nat)
    requires c < |s.callers| && MoveEnabled(s, s.callers[c].pc, TakeReply)
    ensures Pipeline(Moved(s, c, TakeReply)) == Pipeline(s)[1..]
  {
  }

  lemma TimedOutExplains(s: State, p: nat)
    requires TimedOutBy(s, p)
    ensures Explained(s, p)
  {
  }

  lemma PublishedExplained(s: State, c: nat)
    requires c < |s.callers| && MoveEnabled(s, s.callers[c].pc, Publish)
    ensures Explained(Moved(s, c, Publish), |s.published|)
  {
  }

  lemma CorrelationStep(h: Handler, s: State, a: Action)
    requires Mutex(s) && Positions(s) && Transit(h, s) && Correlation(h, s) && Enabled(s, a)
    ensures Correlation(h, Next(h, s, a))
  {
    hide Moved, Positions, Mutex, MoveEnabled, Pipeline, Transit, Ascending, Explained, TimedOutBy, IsReply, IsProbeFrame, AckFrameForProbe;
    var t := Next(h, s, a);
    PipelineExplained(h, s, a);
    PublishedStays(h, s, a);
    if a.Call? {
      TurnsOne(s, a.c, a.move);
      MovesOutcome(s, a.c, a.move);
    }
    forall d | 0 <= d < |t.callers|
      ensures Correlated(h, t, d)
    {
      if t.callers[d].pc.Ended? && t.callers[d].pc.outcome.Reply? {
        var r := t.callers[d].pc.outcome;
        if s.callers[d].pc == t.callers[d].pc {
          assert Correlated(h, s, d);
        } else {
          TakenExplained(h, s, d);
        }
        ItemsStay(h, s, a, Item(r.source, r.bytes));
        if r.source < r.own {
          TimeoutsStay(h, s, a, r.source);
        }
      }
    }
  }

  lemma InvStep(h: Handler, s: State, a: Action)
    requires Inv(h, s) && Enabled(s, a)
    ensures Inv(h, Next(h, s, a))
  {
    hide Mutex, Flags, Acks, Frames, Paired, Positions, Transit, Correlation, Next, Enabled;
    MutexStep(h, s, a);
    FlagsStep(h, s, a);
    AcksStep(h, s, a);
    FramesStep(h, s, a);
    PairedStep(h, s, a);
    PositionsStep(h, s, a);
    TransitStep(h, s, a);
    CorrelationStep(h, s, a);
  }

  lemma InvStart(h: Handler, s: State)
    requires Started(s)
    ensures Inv(h, s)
  {
  }

  // ----- Runs

  ghost predicate Runs(h: Handler, s: State, actions: seq<Action>, t: State)
    decreases |actions|
  {
    if actions == [] then s == t
    else Enabled(s, actions[0]) && Runs(h, Next(h, s, actions[0]), actions[1..], t)
  }

  lemma {:induction false} RunsInv(h: Handler, s: State, actions: seq<Action>, t: State)
    requires Inv(h, s) && Runs(h, s, actions, t)
    ensures Inv(h, t)
    decreases |actions|
  {
    hide Inv, Next, Enabled;
    if actions != [] {
      InvStep(h, s, actions[0]);
      RunsInv(h, Next(h, s, actions[0]), actions[1..], t);
    }
  }

  // What no step undoes.
  ghost predicate Kept(s: State, t: State) {
    && (s.readyChecked ==> t.readyChecked) && (s.readySucceeded ==> t.readySucceeded)
    && |t.callers| == |s.callers|
    && forall c :: 0 <= c < |s.callers| ==>
         && t.callers[c].payload == s.callers[c].payload && t.callers[c].frame == s.callers[c].frame
         && (s.callers[c].pc.Ended? ==> t.callers[c].pc == s.callers[c].pc)
  }

  lemma KeptStep(h: Handler, s: State, a: Action)
    requires Inv(h, s) && Enabled(s, a)
    ensures Kept(s, Next(h, s, a))
  {
    hide Moved, IsProbeFrame, AckFrameForProbe, Mutex, Positions;
    PublishedStays(h, s, a);
    if a.Call? {
      MovesFlags(s, a.c, a.move);
    }
  }

  lemma {:induction false} RunsKept(h: Handler, s: State, actions: seq<Action>, t: State)
    requires Inv(h, s) && Runs(h, s, actions, t)
    ensures Kept(s, t)
    decreases |actions|
  {
    hide Inv, Next, Enabled;
    if actions != [] {
      KeptStep(h, s, actions[0]);
      InvStep(h, s, actions[0]);
      RunsKept(h, Next(h, s, actions[0]), actions[1..], t);
    }
  }

  /** requestMu: in any run at most one call is past its lock, and at most one request is in flight. */
  lemma OneInFlight(h: Handler, s0: State, actions: seq<Action>, s: State, c: nat, d: nat)
    requires Started(s0) && Runs(h, s0, actions, s) && c < |s.callers| && d < |s.callers|
    requires s.callers[c].pc.Inside() && s.callers[d].pc.Inside()
    ensures c == d && s.holder == Some(c)
    ensures s.callers[c].pc.Await? ==> s.callers[c].pc.own == |s.published| - 1
  {
    InvStart(h, s0);
    RunsInv(h, s0, actions, s);
  }

  /** Handshake soundness.  Take any moment s of a run and any later moment t.  The flags are never both
      set and never cleared; nothing is published before one of them holds; and when the session counts
      as paired at t, the call that paired it has had its own probe received by a server, after that
      call began to probe. */
  lemma HandshakeSound(h: Handler, s0: State, before: seq<Action>, s: State, after: seq<Action>, t: State)
    requires Started(s0) && Runs(h, s0, before, s) && Runs(h, s, after, t)
    ensures !(s.readyChecked && s.readySucceeded)
    ensures (s.readyChecked ==> t.readyChecked) && (s.readySucceeded ==> t.readySucceeded)
    ensures s.published != [] ==> s.readyChecked || s.readySucceeded
    ensures |t.callers| == |s.callers| == |s0.callers|
    ensures t.readySucceeded ==>
              && t.provedBy.Some? && t.provedBy.value < |t.callers|
              && var c := t.provedBy.value;
              && t.callers[c].frame == s0.callers[c].frame && t.callers[c].frame in t.received
              && (s.callers[c].pc.BeforeProbe() ==> s0.callers[c].frame !in s.received)
  {
    InvStart(h, s0);
    RunsInv(h, s0, before, s);
    RunsInv(h, s, after, t);
    RunsKept(h, s0, before, s);
    RunsKept(h, s, after, t);
  }

  /** Correlation: a reply taken in any run is the handler's answer to a request of this session, its
      own or an earlier one; and to its own unless an earlier call had timed out by that request. */
  lemma RepliesCorrelate(h: Handler, s0: State, actions: seq<Action>, s: State, c: nat)
    requires Started(s0) && Runs(h, s0, actions, s)
    requires c < |s.callers| && s.callers[c].pc.Ended? && s.callers[c].pc.outcome.Reply?
    ensures var r := s.callers[c].pc.outcome;
            && r.source <= r.own < |s.published|
            && s.published[r.source] < |s.callers| && h(s.callers[s.published[r.source]].payload) == Success(r.bytes)
            && (r.source < r.own ==> TimedOutBy(s, r.source))
            && ((forall q :: 0 <= q < r.own ==> !TimedOutAt(s, q)) ==> h(s.callers[c].payload) == Success(r.bytes))
  {
    hide Runs, Mutex, Flags, Acks, Frames, Paired, Positions, Transit, Correlation, Started;
    InvStart(h, s0);
    RunsInv(h, s0, actions, s);
    CorrelatedReply(h, s, c);
  }

  lemma CorrelatedReply(h: Handler, s: State, c: nat)
    requires Positions(s) && Correlation(h, s)
    requires c < |s.callers| && s.callers[c].pc.Ended? && s.callers[c].pc.outcome.Reply?
    ensures var r := s.callers[c].pc.outcome;
            && r.source <= r.own < |s.published|
            && s.published[r.source] < |s.callers| && h(s.callers[s.published[r.source]].payload) == Success(r.bytes)
            && (r.source < r.own ==> TimedOutBy(s, r.source))
            && ((forall q :: 0 <= q < r.own ==> !TimedOutAt(s, q)) ==> h(s.callers[c].payload) == Success(r.bytes))
  {
    hide TimedOutAt;
    assert Correlated(h, s, c);
    assert s.callers[c].pc.Position().Some?;
  }

  // ----- What draining discards

  // Some item of this queue has this position.
  predicate Holds(items: seq<Item>, position: nat) {
    exists x :: x in items && x.position == position
  }

  // The replies of `drained`, buffered before call c finished its drain, cannot reach it any more: up to
  // then they are nowhere but in the channel, afterwards nowhere at all.
  ghost predicate Discarded(s: State, c: nat, drained: set<nat>) {
    && c < |s.callers|
    && (forall p :: p in drained ==> p < |s.published|)
    && match s.callers[c].pc
       case Ended(Reply(_, source, _)) => source !in drained
       case Ended(_) => true
       case Send => forall x :: x in Pipeline(s) ==> x.position !in drained
       case Await(_) => forall x :: x in Pipeline(s) ==> x.position !in drained
       case _ => forall x :: (x in s.replies || x in s.requests) ==> x.position !in drained
  }

  // The way to the publication leads through an empty channel.
  lemma MovesDrained(s: State, c: nat, move: Move)
    requires c < |s.callers| && MoveEnabled(s, s.callers[c].pc, move)
    ensures var pc := Moved(s, c, move).callers[c].pc;
            && (pc.Send? ==> s.callers[c].pc.Go? && s.responseCh == [])
            && (pc.Await? ==> s.callers[c].pc.Send?)
            && (pc.Ended? ==> s.callers[c].pc.Await? || move.Fail?)
            && !s.callers[c].pc.Ended?
  {
    hide AckFrameForProbe;
  }

  lemma DiscardedMoved(s: State, c: nat, move: Move, drained: set<nat>)
    requires Discarded(s, c, drained) && MoveEnabled(s, s.callers[c].pc, move)
    ensures Discarded(Moved(s, c, move), c, drained)
  {
    hide Moved, MoveEnabled;
    TurnsOne(s, c, move);
    MovesDrained(s, c, move);
    MovesTransit(s, c, move);
    MovesPositions(s, c, move);
    MovesOutcome(s, c, move);
    if s.responseCh != [] {
      assert s.responseCh[0] in s.responseCh;
    }
  }

  lemma DiscardedNetwork(h: Handler, s: State, a: Action, c: nat, drained: set<nat>)
    requires Discarded(s, c, drained) && !a.Call? && Enabled(s, a)
    ensures Discarded(Next(h, s, a), c, drained)
  {
    hide IsProbeFrame, AckFrameForProbe;
    QueuesStep(h, s, a);
    var t := Next(h, s, a);
    assert t.callers == s.callers && t.published == s.published;
  }

  lemma DiscardedOther(h: Handler, s: State, a: Action, c: nat, drained: set<nat>)
    requires Discarded(s, c, drained) && a.Call? && a.c != c && Enabled(s, a)
    ensures Discarded(Next(h, s, a), c, drained)
  {
    hide Moved, IsProbeFrame, AckFrameForProbe;
    TurnsOne(s, a.c, a.move);
    MovesPositions(s, a.c, a.move);
    MovesTransit(s, a.c, a.move);
  }

  lemma DiscardedStep(h: Handler, s: State, a: Action, c: nat, drained: set<nat>)
    requires Discarded(s, c, drained) && Enabled(s, a)
    ensures Discarded(Next(h, s, a), c, drained)
  {
    hide Moved, Discarded, IsProbeFrame, AckFrameForProbe;
    if !a.Call? {
      DiscardedNetwork(h, s, a, c, drained);
    } else if a.c == c {
      DiscardedMoved(s, c, a.move, drained);
    } else {
      DiscardedOther(h, s, a, c, drained);
    }
  }

  lemma {:induction false} DiscardedRuns(h: Handler, s: State, actions: seq<Action>, t: State, c: nat, drained: set<nat>)
    requires Discarded(s, c, drained) && Runs(h, s, actions, t)
    ensures Discarded(t, c, drained)
    decreases |actions|
  {
    hide Next, Enabled, Discarded;
    if actions != [] {
      DiscardedStep(h, s, actions[0], c, drained);
      DiscardedRuns(h, Next(h, s, actions[0]), actions[1..], t, c, drained);
    }
  }

  // In an ascending pipeline what is buffered is in no other queue.
  lemma BufferedOnce(h: Handler, s: State, x: Item, y: Item)
    requires Transit(h, s) && x in s.responseCh && (y in s.replies || y in s.requests)
    ensures x.position != y.position && x.position < |s.published|
  {
    hide IsReply, IsRequest, Ascending;
    var line := Pipeline(s);
    var i :| 0 <= i < |s.responseCh| && s.responseCh[i] == x;
    assert line[i] == x && x in line;
    Within(h, s, x);
    if y in s.replies {
      var j :| 0 <= j < |s.replies| && s.replies[j] == y;
      assert line[|s.responseCh| + j] == y;
      Apart(line, i, |s.responseCh| + j);
    } else {
      var j :| 0 <= j < |s.requests| && s.requests[j] == y;
      assert line[|s.responseCh| + |s.replies| + j] == y;
      Apart(line, i, |s.responseCh| + |s.replies| + j);
    }
  }

  lemma Apart(line: seq<Item>, i: nat, j: nat)
    requires Ascending(line) && i < j < |line|
    ensures line[i].position < line[j].position
  {
  }

  /** Draining works: in every run, no reply that is buffered at any moment before a call has finished its
      drain is ever returned by that call. */
  lemma DrainedNeverReturned(h: Handler, s0: State, before: seq<Action>, s: State, after: seq<Action>, t: State, c: nat)
    requires Started(s0) && Runs(h, s0, before, s) && Runs(h, s, after, t)
    requires c < |s.callers| && !s.callers[c].pc.Send? && !s.callers[c].pc.Await? && !s.callers[c].pc.Ended?
    ensures c < |t.callers|
    ensures t.callers[c].pc.Ended? && t.callers[c].pc.outcome.Reply? ==> !Holds(s.responseCh, t.callers[c].pc.outcome.source)
  {
    hide Runs, Started, Mutex, Flags, Acks, Frames, Paired, Positions, Transit, Correlation;
    InvStart(h, s0);
    RunsInv(h, s0, before, s);
    var drained := set x | x in s.responseCh :: x.position;
    forall x, y | x in s.responseCh && (y in s.replies || y in s.requests)
      ensures x.position != y.position
    {
      BufferedOnce(h, s, x, y);
    }
    forall p | p in drained
      ensures p < |s.published|
    {
      var x :| x in s.responseCh && x.position == p;
      assert x in Pipeline(s);
      Within(h, s, x);
    }
    DiscardedRuns(h, s, after, t, c, drained);
  }

  // ----- Channel capacity

  ghost predicate Bounded(s: State) {
    |s.responseCh| <= 8 && |s.handshakeCh| <= 8
  }

  lemma BoundedStep(h: Handler, s: State, a: Action)
    requires Bounded(s) && Enabled(s, a)
    ensures Bounded(Next(h, s, a))
    ensures a.ReplyArrives? && |s.responseCh| < 8 ==> Next(h, s, a).responseCh == s.responseCh + [s.replies[0]]
    ensures a.AckArrives? && |s.handshakeCh| < 8 ==> Next(h, s, a).handshakeCh == s.handshakeCh + [a.frame]
  {
    hide Moved, IsProbeFrame, AckFrameForProbe;
    if a.Call? {
      MovesTransit(s, a.c, a.move);
      MovesFrames(s, a.c, a.move);
    }
  }

  /** The session's channels never hold more than eight items, and drop one only when they hold eight. */
  lemma {:induction false} ChannelsBounded(h: Handler, s: State, actions: seq<Action>, t: State)
    requires Bounded(s) && Runs(h, s, actions, t)
    ensures Bounded(t)
    ensures t.replies != [] && |t.responseCh| < 8 ==> Next(h, t, ReplyArrives).responseCh == t.responseCh + [t.replies[0]]
    decreases |actions|
  {
    hide Next, Enabled;
    if actions != [] {
      BoundedStep(h, s, actions[0]);
      ChannelsBounded(h, Next(h, s, actions[0]), actions[1..], t);
    } else if t.replies != [] {
      ReplyEnabled(t);
      BoundedStep(h, t, ReplyArrives);
    }
  }

  lemma ReplyEnabled(s: State)
    requires s.replies != []
    ensures Enabled(s, ReplyArrives)
  {
  }

  // ----- Exactly when a call gets its own reply

  // An answerable request of an earlier call, or its reply, is still on its way.
  ghost predicate Outstanding(h: Handler, s: State) {
    s.responseCh != [] || s.replies != [] || exists x :: x in s.requests && h(x.bytes).Success?
  }

  ghost predicate OwnOnly(h: Handler, s: State, c: nat) {
    && c < |s.callers|
    && match s.callers[c].pc
       case Send => !Outstanding(h, s)
       case Await(own) =>
         && (forall x :: x in s.responseCh ==> x.position == own)
         && (forall x :: x in s.replies ==> x.position == own)
         && (forall x :: x in s.requests && h(x.bytes).Success? ==> x.position == own)
       case Ended(Reply(own, source, _)) => source == own
       case Ended(_) => true
       case _ => false
  }

  lemma OwnOnlyMoved(h: Handler, s: State, c: nat, move: Move)
    requires Positions(s) && OwnOnly(h, s, c) && MoveEnabled(s, s.callers[c].pc, move)
    ensures OwnOnly(h, Moved(s, c, move), c)
  {
  }

  lemma OwnOnlyNetwork(h: Handler, s: State, a: Action, c: nat)
    requires OwnOnly(h, s, c) && !a.Call? && Enabled(s, a)
    ensures OwnOnly(h, Next(h, s, a), c)
  {
  }

  lemma OwnOnlyStep(h: Handler, s: State, a: Action, c: nat)
    requires Mutex(s) && Positions(s) && OwnOnly(h, s, c) && Enabled(s, a)
    ensures OwnOnly(h, Next(h, s, a), c)
  {
    hide Moved, Positions, IsProbeFrame, AckFrameForProbe;
    if !a.Call? {
      OwnOnlyNetwork(h, s, a, c);
    } else if a.c == c {
      OwnOnlyMoved(h, s, c, a.move);
    } else {
      TurnsOne(s, a.c, a.move);
      MovesHolder(s, a.c, a.move);
      assert s.callers[c].pc.Ended?;
    }
  }

  lemma {:induction false} OwnOnlyRuns(h: Handler, s: State, actions: seq<Action>, t: State, c: nat)
    requires Inv(h, s) && OwnOnly(h, s, c) && Runs(h, s, actions, t)
    ensures OwnOnly(h, t, c)
    decreases |actions|
  {
    hide Next, Enabled, OwnOnly, Mutex, Flags, Acks, Frames, Paired, Positions, Transit, Correlation;
    if actions != [] {
      InvStep(h, s, actions[0]);
      OwnOnlyStep(h, s, actions[0], c);
      OwnOnlyRuns(h, Next(h, s, actions[0]), actions[1..], t, c);
    }
  }

  lemma {:induction false} RunsConcat(h: Handler, s: State, first: seq<Action>, t: State, later: seq<Action>, u: State)
    requires Runs(h, s, first, t) && Runs(h, t, later, u)
    ensures Runs(h, s, first + later, u)
    decreases |first|
  {
    hide Next, Enabled;
    if first == [] {
      assert first + later == later;
    } else {
      assert (first + later)[1..] == first[1..] + later;
      RunsConcat(h, Next(h, s, first[0]), first[1..], t, later, u);
    }
  }

  lemma RunsNone(h: Handler, s: State)
    ensures Runs(h, s, [], s)
  {
  }

  lemma RunsCons(h: Handler, s: State, a: Action, rest: seq<Action>, t: State)
    requires Enabled(s, a) && Runs(h, Next(h, s, a), rest, t)
    ensures Runs(h, s, [a] + rest, t)
  {
  }

  // Call c waits, and the first thing that will reach it, if nothing more is lost, is not its own reply.
  ghost predicate OlderFirst(h: Handler, s: State, c: nat) {
    && c < |s.callers| && s.callers[c].pc.Await?
    && var own := s.callers[c].pc.own;
    if s.responseCh != [] then s.responseCh[0].position < own
    else if s.replies != [] then s.replies[0].position < own
    else exists x :: x in s.requests && h(x.bytes).Success? && x.position < own
  }

  // The server answers and the network delivers until the older reply is taken.
  lemma OlderTaken(h: Handler, s: State, c: nat) returns (actions: seq<Action>, t: State)
    requires OlderFirst(h, s, c) && Ascending(s.requests)
    ensures Runs(h, s, actions, t)
    ensures c < |t.callers| && t.callers[c].pc.Ended? && t.callers[c].pc.outcome.Reply?
            && t.callers[c].pc.outcome.source < t.callers[c].pc.outcome.own
    decreases |s.requests|, |s.replies|, |s.responseCh| == 0
  {
    hide Runs, IsProbeFrame, AckFrameForProbe;
    if s.responseCh != [] {
      t := Next(h, s, Call(c, TakeReply));
      RunsNone(h, t);
      RunsCons(h, s, Call(c, TakeReply), [], t);
      actions := [Call(c, TakeReply)] + [];
    } else {
      var a := if s.replies != [] then ReplyArrives else RequestArrives;
      var n := Next(h, s, a);
      var rest;
      OlderArrives(h, s, c);
      rest, t := OlderTaken(h, n, c);
      RunsCons(h, s, a, rest, t);
      actions := [a] + rest;
    }
  }

  lemma OlderArrives(h: Handler, s: State, c: nat)
    requires OlderFirst(h, s, c) && Ascending(s.requests) && s.responseCh == []
    ensures var a := if s.replies != [] then ReplyArrives else RequestArrives;
            && Enabled(s, a) && OlderFirst(h, Next(h, s, a), c) && Ascending(Next(h, s, a).requests)
            && |Next(h, s, a).requests| <= |s.requests|
            && (s.replies == [] ==> |Next(h, s, a).requests| < |s.requests|)
            && (s.replies != [] ==> |Next(h, s, a).replies| < |s.replies|)
  {
  }

  /** A call about to publish is certain to get its own reply, if any, exactly when nothing answerable is
      outstanding at that moment.  Draining the response channel does not establish that: the late
      reply to a call that timed out may still be on its way. */
  lemma OwnReplyExactly(h: Handler, s0: State, before: seq<Action>, s: State, c: nat)
    requires Started(s0) && Runs(h, s0, before, s) && At(s, c, Send)
    ensures (forall actions, t :: Runs(h, s, actions, t) && c < |t.callers| && t.callers[c].pc.Ended? && t.callers[c].pc.outcome.Reply?
                                  ==> t.callers[c].pc.outcome.source == t.callers[c].pc.outcome.own)
            <==> !Outstanding(h, s)
  {
    hide Runs, Mutex, Flags, Acks, Frames, Paired, Positions, Correlation, Started, Outstanding, Next, Enabled, Transit;
    InvStart(h, s0);
    RunsInv(h, s0, before, s);
    if Outstanding(h, s) {
      var actions, t := OlderReachable(h, s, c);
      assert Runs(h, s, actions, t);
    } else {
      forall actions, t | Runs(h, s, actions, t) && c < |t.callers| && t.callers[c].pc.Ended? && t.callers[c].pc.outcome.Reply?
        ensures t.callers[c].pc.outcome.source == t.callers[c].pc.outcome.own
      {
        OwnOnlyRuns(h, s, actions, t, c);
      }
    }
  }

  lemma OlderReachable(h: Handler, s: State, c: nat) returns (actions: seq<Action>, t: State)
    requires Transit(h, s) && At(s, c, Send) && Outstanding(h, s)
    ensures Runs(h, s, actions, t)
    ensures c < |t.callers| && t.callers[c].pc.Ended? && t.callers[c].pc.outcome.Reply?
            && t.callers[c].pc.outcome.source < t.callers[c].pc.outcome.own
  {
    hide Runs, IsProbeFrame, AckFrameForProbe;
    var a := Call(c, Publish);
    var n := Next(h, s, a);
    PublishedOlder(h, s, c);
    var rest;
    rest, t := OlderTaken(h, n, c);
    RunsCons(h, s, a, rest, t);
    actions := [a] + rest;
  }

  lemma PublishedOlder(h: Handler, s: State, c: nat)
    requires Transit(h, s) && At(s, c, Send) && Outstanding(h, s)
    ensures var n := Moved(s, c, Publish);
            OlderFirst(h, n, c) && Ascending(n.requests)
  {
    hide Ascending, IsReply, IsRequest;
    var n := Moved(s, c, Publish);
    assert Ascending(n.requests) by {
      var line := Pipeline(s) + [Item(|s.published|, s.callers[c].payload)];
      AscendingPublished(h, s, c);
      ThinnedSuffix(line, |s.responseCh| + |s.replies|);
      assert n.requests == line[|s.responseCh| + |s.replies|..];
    }
    forall x | x in Pipeline(s)
      ensures x.position < |s.published|
    {
      Within(h, s, x);
    }
    if s.responseCh != [] {
      assert s.responseCh[0] in s.responseCh;
    } else if s.replies != [] {
      assert s.replies[0] in s.replies;
    } else {
      var x :| x in s.requests && h(x.bytes).Success?;
      assert x in n.requests;
    }
  }

  // Two calls on one session in a network that carries no control frames.
  function Scene(p0: Pc, p1: Pc, holder: Option<nat>, checked: bool, responseCh: seq<Item>, published: seq<nat>,
                 requests: seq<Item>, replies: seq<Item>): State {
    State([Caller([1], ProbeFrame(0), p0), Caller([2], ProbeFrame(1), p1)],
          holder, checked, false, responseCh, [], published, requests, replies, {}, {}, {}, None)
  }

  function Echo(x: Bytes): Result<Bytes> {
    Success(x)
  }

  const First: Item := Item(0, [1])
  const Second: Item := Item(1, [2])

  // The first call finds no server,
  lemma FirstEnters()
    ensures Runs(Echo, Scene(Start, Start, None, false, [], [], [], []),
                 [Call(0, Lock), Call(0, EnterUnready), Call(0, BeaconMissed)],
                 Scene(Go, Start, Some(0), true, [], [], [], []))
  {
    hide ProbeFrame;
  }

  // publishes and gives up;
  lemma FirstGivesUp()
    ensures Runs(Echo, Scene(Go, Start, Some(0), true, [], [], [], []),
                 [Call(0, DrainEnds), Call(0, Publish), Call(0, GiveUp)],
                 Scene(Ended(TimedOut(0)), Start, None, true, [], [0], [First], []))
  {
    hide ProbeFrame;
  }

  // the second drains the channel and publishes;
  lemma SecondPublishes()
    ensures Runs(Echo, Scene(Ended(TimedOut(0)), Start, None, true, [], [0], [First], []),
                 [Call(1, Lock), Call(1, EnterReady), Call(1, DrainEnds), Call(1, Publish)],
                 Scene(Ended(TimedOut(0)), Await(1), Some(1), true, [], [0, 1], [First, Second], []))
  {
    hide ProbeFrame;
  }

  // and the reply to the first request comes first.
  lemma SecondTakes()
    ensures Runs(Echo, Scene(Ended(TimedOut(0)), Await(1), Some(1), true, [], [0, 1], [First, Second], []),
                 [RequestArrives, ReplyArrives, Call(1, TakeReply)],
                 Scene(Ended(TimedOut(0)), Ended(Reply(1, 0, [1])), None, true, [], [0, 1], [Second], []))
  {
    hide ProbeFrame;
  }

  /** The late reply of a call that timed out goes to the next call: with an echo server the second call
      returns the first one's payload. */
  lemma LateReplyMisdelivered() returns (s0: State, actions: seq<Action>, s: State)
    ensures Started(s0) && Runs(Echo, s0, actions, s) && |s.callers| == 2
    ensures s.callers[1].pc == Ended(Reply(1, 0, [1])) && Echo(s.callers[1].payload) == Success([2])
  {
    hide Runs, ProbeFrame, IsProbeFrame;
    ProbesDistinct(0, 1);
    ProbesDistinct(1, 0);
    FirstEnters();
    FirstGivesUp();
    SecondPublishes();
    SecondTakes();
    s0 := Scene(Start, Start, None, false, [], [], [], []);
    var s1 := Scene(Go, Start, Some(0), true, [], [], [], []);
    var s2 := Scene(Ended(TimedOut(0)), Start, None, true, [], [0], [First], []);
    var s3 := Scene(Ended(TimedOut(0)), Await(1), Some(1), true, [], [0, 1], [First, Second], []);
    s := Scene(Ended(TimedOut(0)), Ended(Reply(1, 0, [1])), None, true, [], [0, 1], [Second], []);
    var a1 := [Call(0, Lock), Call(0, EnterUnready), Call(0, BeaconMissed)];
    var a2 := [Call(0, DrainEnds), Call(0, Publish), Call(0, GiveUp)];
    var a3 := [Call(1, Lock), Call(1, EnterReady), Call(1, DrainEnds), Call(1, Publish)];
    var a4 := [RequestArrives, ReplyArrives, Call(1, TakeReply)];
    RunsConcat(Echo, s0, a1, s1, a2, s2);
    RunsConcat(Echo, s0, a1 + a2, s2, a3, s3);
    RunsConcat(Echo, s0, a1 + a2 + a3, s3, a4, s);
    actions := a1 + a2 + a3 + a4;
  }
}
