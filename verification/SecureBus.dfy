/**
 SecureMessageBus of the Go library, and every run of several of them over an inner bus that may drop
 and reorder messages but neither duplicates nor alters them.
 */
module SecureBus {
  import opened Bytes
  import opened Words
  import opened Text
  import opened Gcm
  import opened SecurityModel
  import opened GoSecurityCodec
  import RW = ReplayWindow

  datatype Direction = Publication | Request | Response {
    function Text(): Bytes {
      match this
      case Publication => Ascii("publish")
      case Request => Ascii("rpc_request")
      case Response => Ascii("rpc_response")
    }
  }

  // What every codec of a route shares.
  datatype Setting = Setting(crypto: Crypto, binding: SecurityBinding, limit: nat) {
    ghost predicate Valid() {
      && crypto.Lawful() && limit >= 1
      && binding.profile.KeysUnderOwnIds() && binding.profile.encryptKeyId in binding.profile.keys
      && 1 <= |binding.profile.encryptKeyId| <= 255
    }
  }

  // One codec's state.
  datatype Node = Node(senderId: nat, sequence: nat, calls: seq<RW.Call>)

  function Counted(node: Node): Node {
    node.(sequence := (node.sequence + 1) % U64)
  }

  // What one codec makes of a message, and its state afterwards.
  ghost function Received(st: Setting, node: Node, wire: Bytes, direction: Direction): Result<Bytes>
    requires st.crypto.Lawful()
  {
    match Opened(st.crypto, st.binding, wire, direction.Text())
    case Failure(e) => Failure(e)
    case Success(o) => Judged(o, o.sequence !in RW.Window(st.limit, node.calls, o.senderId))
  }

  function Recorded(st: Setting, node: Node, wire: Bytes, direction: Direction): Node
    requires st.crypto.Lawful()
  {
    match Opened(st.crypto, st.binding, wire, direction.Text())
    case Failure(e) => node
    case Success(o) => node.(calls := node.calls + [RW.Call(o.senderId, o.sequence)])
  }

  function Wire(st: Setting, node: Node, payload: Bytes, direction: Direction, nonce: Nonce): Result<Bytes>
    requires st.crypto.Lawful()
  {
    Sealed(st.crypto, st.binding, payload, direction.Text(), node.senderId, node.sequence, nonce)
  }

  // Numbers from 1 on: what every sender that has not wrapped presents.
  ghost predicate AllPositive(calls: seq<RW.Call>) {
    forall i :: 0 <= i < |calls| ==> calls[i].sequence >= 1
  }

  // ----- The bus object.  The inner bus is the caller: it takes the returned wire bytes and hands in
  // the bytes it delivers.

  class SecureMessageBus {
    const codec: SecurityCodec

    ghost predicate Valid()
      reads codec, codec.replayWindow
    {
      codec.Valid()
    }

    ghost function View(): Node
      reads codec, codec.replayWindow
    {
      Node(codec.senderId, codec.sequence, codec.replayWindow.history)
    }

    ghost function Shared(): Setting {
      Setting(codec.crypto, codec.binding, codec.replayWindow.limit)
    }

    // What the codec gives for a message now.
    ghost function Given(wire: Bytes, direction: Direction): Result<Bytes>
      requires Valid()
      reads codec, codec.replayWindow
    {
      match Opened(codec.crypto, codec.binding, wire, direction.Text())
      case Failure(e) => Failure(e)
      case Success(o) => Judged(o, o.sequence !in codec.replayWindow.SeenBy(o.senderId))
    }

    // While all numbers were positive, that depends on the calls so far alone.
    lemma GivenIsReceived(wire: Bytes, direction: Direction)
      requires Valid() && AllPositive(View().calls)
      ensures Given(wire, direction) == Received(Shared(), View(), wire, direction)
    {
      hide Opened, RW.Window, Direction.Text;
      var result := Opened(codec.crypto, codec.binding, wire, direction.Text());
      if result.Success? {
        var id, w := result.value.senderId, codec.replayWindow;
        RW.StoredWindow(w.limit, w.history, id, w.SeenBy(id));
      }
    }

    constructor (crypto: Crypto, binding: SecurityBinding, randomId: nat)
      requires crypto.Lawful() && randomId < U64
      ensures Valid() && fresh(codec) && fresh(codec.replayWindow)
      ensures View().sequence == 0 && View().calls == []
      ensures Shared().crypto == crypto && Shared().binding == binding
    {
      codec := new SecurityCodec(crypto, binding, randomId);
    }

    method Publish(payload: Bytes, nonce: Nonce) returns (r: Result<Bytes>)
      requires Valid()
      modifies codec
      ensures Valid() && View() == Counted(old(View()))
      ensures r == Wire(Shared(), View(), payload, Publication, nonce)
    {
      r := codec.Encrypt(payload, Ascii("publish"), nonce);
    }

    /** The callback that Subscribe installs; its result is what the handler is given. */
    method OnMessage(payload: Bytes) returns (r: Result<Bytes>)
      requires Valid()
      modifies codec.replayWindow
      ensures Valid() && View() == Recorded(Shared(), old(View()), payload, Publication)
      ensures r == old(Given(payload, Publication))
    {
      r := codec.Decrypt(payload, Ascii("publish"));
    }

    method StartRequest(payload: Bytes, nonce: Nonce) returns (r: Result<Bytes>)
      requires Valid()
      modifies codec
      ensures Valid() && View() == Counted(old(View()))
      ensures r == Wire(Shared(), View(), payload, Request, nonce)
    {
      r := codec.Encrypt(payload, Ascii("rpc_request"), nonce);
    }

    method FinishRequest(encryptedResponse: Bytes) returns (r: Result<Bytes>)
      requires Valid()
      modifies codec.replayWindow
      ensures Valid() && View() == Recorded(Shared(), old(View()), encryptedResponse, Response)
      ensures r == old(Given(encryptedResponse, Response))
    {
      r := codec.Decrypt(encryptedResponse, Ascii("rpc_response"));
    }

    /** The callback that HandleRequest installs. */
    method OnRequest(encryptedRequest: Bytes, handler: Bytes -> Result<Bytes>, nonce: Nonce) returns (r: Result<Bytes>)
      requires Valid()
      modifies codec, codec.replayWindow
      ensures Valid()
      ensures var request := old(Given(encryptedRequest, Request));
              var heard := Recorded(Shared(), old(View()), encryptedRequest, Request);
              if request.Failure? then r == Failure(request.error) && View() == heard
              else match handler(request.value)
                   case Failure(e) => r == Failure(e) && View() == heard
                   case Success(response) => View() == Counted(heard) && r == Wire(Shared(), View(), response, Response, nonce)
    {
      hide Opened, Sealed, Ascii, RW.Window;
      var request := codec.Decrypt(encryptedRequest, Ascii("rpc_request"));
      if request.Failure? {
        return Failure(request.error);
      }
      var response := handler(request.value);
      if response.Failure? {
        return Failure(response.error);
      }
      r := codec.Encrypt(response.value, Ascii("rpc_response"), nonce);
    }
  }

  // ----- Runs of several buses

  datatype Message = Message(sender: nat, direction: Direction, payload: Bytes, replyTo: Option<nat>,
                             sequence: nat, nonce: Nonce, wire: Bytes)

  // inbox holds what each delivery, of a message to a node, gave the application.
  datatype State = State(nodes: seq<Node>, sent: seq<Message>, inbox: map<(nat, nat), Result<Bytes>>)

  datatype Action =
    | Send(node: nat, direction: Direction, payload: Bytes, nonce: Nonce)
    | Deliver(node: nat, index: nat)
    | Serve(node: nat, index: nat, nonce: Nonce)
    | Garbage(node: nat, wire: Bytes, direction: Direction)

  datatype System = System(st: Setting, handler: (nat, Bytes) -> Result<Bytes>)

  ghost function Emit(y: System, s: State, n: nat, direction: Direction, payload: Bytes, replyTo: Option<nat>, nonce: Nonce): State
    requires y.st.crypto.Lawful() && n < |s.nodes|
  {
    var node := Counted(s.nodes[n]);
    var wire := Wire(y.st, node, payload, direction, nonce);
    if wire.Failure? then s.(nodes := s.nodes[n := node])
    else s.(nodes := s.nodes[n := node],
            sent := s.sent + [Message(n, direction, payload, replyTo, node.sequence, nonce, wire.value)])
  }

  ghost function Hear(y: System, s: State, n: nat, index: nat): State
    requires y.st.crypto.Lawful() && n < |s.nodes| && index < |s.sent|
  {
    var m := s.sent[index];
    s.(nodes := s.nodes[n := Recorded(y.st, s.nodes[n], m.wire, m.direction)],
       inbox := s.inbox[(n, index) := Received(y.st, s.nodes[n], m.wire, m.direction)])
  }

  // The inner bus delivers each message to each node at most once, unaltered, in any order or never.
  ghost predicate Enabled(y: System, s: State, a: Action)
    requires y.st.crypto.Lawful()
  {
    match a
    case Send(n, direction, _, _) => n < |s.nodes| && direction != Response
    case Deliver(n, i) => n < |s.nodes| && i < |s.sent| && (n, i) !in s.inbox && s.sent[i].direction != Request
    case Serve(n, i, _) => n < |s.nodes| && i < |s.sent| && (n, i) !in s.inbox && s.sent[i].direction == Request
    case Garbage(n, wire, direction) => n < |s.nodes| && Opened(y.st.crypto, y.st.binding, wire, direction.Text()).Failure?
  }

  ghost function Next(y: System, s: State, a: Action): State
    requires y.st.crypto.Lawful() && Enabled(y, s, a)
  {
    match a
    case Send(n, direction, payload, nonce) => Emit(y, s, n, direction, payload, None, nonce)
    case Deliver(n, i) => Hear(y, s, n, i)
    case Serve(n, i, nonce) =>
      var heard := Hear(y, s, n, i);
      var request := heard.inbox[(n, i)];
      if request.Failure? then heard
      else (match y.handler(n, request.value)
            case Failure(_) => heard
            case Success(response) => Emit(y, heard, n, Response, response, Some(i), nonce))
    case Garbage(n, wire, direction) => s.(nodes := s.nodes[n := Recorded(y.st, s.nodes[n], wire, direction)])
  }

  ghost predicate Started(s: State) {
    && s.sent == [] && s.inbox == map[]
    && (forall n :: 0 <= n < |s.nodes| ==> s.nodes[n].senderId < U64 && s.nodes[n].sequence == 0 && s.nodes[n].calls == [])
    && (forall m, n :: 0 <= m < n < |s.nodes| ==> s.nodes[m].senderId != s.nodes[n].senderId)
  }

  // A run: the states passed through, one more than the actions.
  ghost predicate Run(y: System, states: seq<State>, actions: seq<Action>) {
    && y.st.Valid()
    && |states| == |actions| + 1
    && Started(states[0])
    && forall k :: 0 <= k < |actions| ==>
         Enabled(y, states[k], actions[k]) && states[k + 1] == Next(y, states[k], actions[k])
  }

  // ----- The invariant

  ghost predicate Faithful(y: System, s: State, i: nat)
    requires y.st.crypto.Lawful() && i < |s.sent|
  {
    var m := s.sent[i];
    && m.sender < |s.nodes|
    && 1 <= m.sequence <= s.nodes[m.sender].sequence
    && Success(m.wire) == Sealed(y.st.crypto, y.st.binding, m.payload, m.direction.Text(),
                                 s.nodes[m.sender].senderId, m.sequence, m.nonce)
  }

  // A response carries what the server's handler makes of the request's plaintext, which fitted.
  ghost predicate Answers(y: System, s: State, i: nat)
    requires i < |s.sent|
  {
    var m := s.sent[i];
    && (m.direction == Response <==> m.replyTo.Some?)
    && (m.replyTo.Some? ==>
          && m.replyTo.value < i
          && s.sent[m.replyTo.value].direction == Request
          && |s.sent[m.replyTo.value].payload| < U32
          && y.handler(m.sender, s.sent[m.replyTo.value].payload) == Success(m.payload))
  }

  ghost predicate HeardFrom(s: State, n: nat, c: RW.Call) {
    exists i :: 0 <= i < |s.sent| && (n, i) in s.inbox && s.sent[i].sender < |s.nodes|
                && c == RW.Call(s.nodes[s.sent[i].sender].senderId, s.sent[i].sequence)
  }

  // What a delivery gave: the plaintext sent, its number recorded, unless that is too long for the
  // envelope's length field.
  ghost predicate Transparent(s: State, n: nat, i: nat)
    requires i < |s.sent| && (n, i) in s.inbox
  {
    var m := s.sent[i];
    if |m.payload| < U32 then
      && s.inbox[(n, i)] == Success(m.payload)
      && n < |s.nodes| && m.sender < |s.nodes|
      && RW.Call(s.nodes[m.sender].senderId, m.sequence) in s.nodes[n].calls
    else s.inbox[(n, i)].Failure?
  }

  ghost predicate Senders(s: State) {
    && (forall n :: 0 <= n < |s.nodes| ==> s.nodes[n].senderId < U64 && s.nodes[n].sequence < U64)
    && (forall m, n :: 0 <= m < n < |s.nodes| ==> s.nodes[m].senderId != s.nodes[n].senderId)
  }

  ghost predicate Log(y: System, s: State)
    requires y.st.crypto.Lawful()
  {
    && (forall i :: 0 <= i < |s.sent| ==> Faithful(y, s, i) && Answers(y, s, i))
    && (forall i, j :: 0 <= i < j < |s.sent| && s.sent[i].sender == s.sent[j].sender ==> s.sent[i].sequence != s.sent[j].sequence)
  }

  ghost predicate Heard(s: State) {
    forall n, c :: 0 <= n < |s.nodes| && c in s.nodes[n].calls ==> HeardFrom(s, n, c)
  }

  ghost predicate Inbox(s: State) {
    forall k :: k in s.inbox ==> k.1 < |s.sent| && Transparent(s, k.0, k.1)
  }

  ghost predicate Inv(y: System, s: State) {
    y.st.Valid() && Senders(s) && Log(y, s) && Heard(s) && Inbox(s)
  }

  // t differs from s in what node n has heard, a call c or nothing, from message index.
  ghost predicate HeardMore(s: State, t: State, n: nat, index: nat, calls: seq<RW.Call>) {
    && n < |s.nodes| && t.sent == s.sent && t.nodes == s.nodes[n := s.nodes[n].(calls := s.nodes[n].calls + calls)]
    && t.inbox.Keys == s.inbox.Keys + {(n, index)}
    && forall k :: k in s.inbox && k != (n, index) ==> t.inbox[k] == s.inbox[k]
  }

  lemma HeardMoreLog(y: System, s: State, t: State, n: nat, index: nat, calls: seq<RW.Call>)
    requires y.st.crypto.Lawful() && Senders(s) && Log(y, s) && HeardMore(s, t, n, index, calls)
    ensures Senders(t) && Log(y, t)
  {
    hide Sealed;
    forall i | 0 <= i < |t.sent|
      ensures Faithful(y, t, i) && Answers(y, t, i)
    {
      assert Faithful(y, s, i) && Answers(y, s, i);
    }
  }

  lemma HeardMoreHeard(s: State, t: State, n: nat, index: nat, calls: seq<RW.Call>)
    requires Heard(s) && HeardMore(s, t, n, index, calls)
    requires index < |s.sent| && s.sent[index].sender < |s.nodes|
    requires forall c :: c in calls ==> c == RW.Call(s.nodes[s.sent[index].sender].senderId, s.sent[index].sequence)
    ensures Heard(t)
  {
  }

  lemma HeardMoreInbox(s: State, t: State, n: nat, index: nat, calls: seq<RW.Call>)
    requires Inbox(s) && HeardMore(s, t, n, index, calls)
    requires index < |s.sent| && Transparent(t, n, index)
    ensures Inbox(t)
  {
  }

  // t differs from s in one more message, sent by node n under its next number.
  ghost predicate SentMore(y: System, s: State, t: State, n: nat, m: Message)
    requires y.st.crypto.Lawful()
  {
    && n < |s.nodes| && t == State(s.nodes[n := s.nodes[n].(sequence := s.nodes[n].sequence + 1)], s.sent + [m], s.inbox)
    && m.sender == n && m.sequence == s.nodes[n].sequence + 1
    && Success(m.wire) == Sealed(y.st.crypto, y.st.binding, m.payload, m.direction.Text(),
                                 s.nodes[n].senderId, m.sequence, m.nonce)
  }

  lemma SentMoreLog(y: System, s: State, t: State, n: nat, m: Message)
    requires y.st.crypto.Lawful() && Senders(s) && Log(y, s) && SentMore(y, s, t, n, m)
    requires Answers(y, t, |s.sent|) && m.sequence < U64
    ensures Senders(t) && Log(y, t)
  {
    hide Sealed, Direction.Text;
    forall i | 0 <= i < |t.sent|
      ensures Faithful(y, t, i) && Answers(y, t, i)
    {
      if i < |s.sent| {
        assert Faithful(y, s, i) && Answers(y, s, i);
      }
    }
    forall i, j | 0 <= i < j < |t.sent| && t.sent[i].sender == t.sent[j].sender
      ensures t.sent[i].sequence != t.sent[j].sequence
    {
      assert Faithful(y, s, i);
    }
  }

  lemma SentMoreHeard(y: System, s: State, t: State, n: nat, m: Message)
    requires y.st.crypto.Lawful() && Heard(s) && Inbox(s) && SentMore(y, s, t, n, m)
    ensures Heard(t) && Inbox(t)
  {
    hide Sealed, Direction.Text;
    forall r, c | 0 <= r < |t.nodes| && c in t.nodes[r].calls
      ensures HeardFrom(t, r, c)
    {
      assert c in s.nodes[r].calls && HeardFrom(s, r, c);
      var i :| 0 <= i < |s.sent| && (r, i) in s.inbox && s.sent[i].sender < |s.nodes|
               && c == RW.Call(s.nodes[s.sent[i].sender].senderId, s.sent[i].sequence);
      assert t.sent[i] == s.sent[i];
    }
    forall k | k in t.inbox
      ensures k.1 < |t.sent| && Transparent(t, k.0, k.1)
    {
      assert Transparent(s, k.0, k.1);
    }
  }

  lemma EmitKeeps(y: System, s: State, n: nat, direction: Direction, payload: Bytes, replyTo: Option<nat>, nonce: Nonce)
    requires Inv(y, s) && n < |s.nodes| && s.nodes[n].sequence + 1 < U64
    requires direction == Response <==> replyTo.Some?
    requires replyTo.Some? ==>
               && replyTo.value < |s.sent| && s.sent[replyTo.value].direction == Request
               && |s.sent[replyTo.value].payload| < U32
               && y.handler(n, s.sent[replyTo.value].payload) == Success(payload)
    ensures Inv(y, Emit(y, s, n, direction, payload, replyTo, nonce))
  {
    hide Sealed, Direction.Text, Log, Heard, Inbox;
    var t := Emit(y, s, n, direction, payload, replyTo, nonce);
    var node := Counted(s.nodes[n]);
    OpenedOfSealed(y.st.crypto, y.st.binding, payload, direction.Text(), node.senderId, node.sequence, nonce);
    var m := t.sent[|s.sent|];
    SentMoreLog(y, s, t, n, m);
    SentMoreHeard(y, s, t, n, m);
  }

  // A message not yet delivered to a node is new to that node's replay window.
  lemma NewToWindow(y: System, s: State, n: nat, index: nat)
    requires Inv(y, s) && n < |s.nodes| && index < |s.sent| && (n, index) !in s.inbox
    ensures AllPositive(s.nodes[n].calls)
    ensures var m := s.sent[index];
            Faithful(y, s, index) && m.sequence !in RW.Window(y.st.limit, s.nodes[n].calls, s.nodes[m.sender].senderId)
  {
    hide RW.Window, Sealed, Direction.Text;
    var m := s.sent[index];
    assert Faithful(y, s, index);
    var c := RW.Call(s.nodes[m.sender].senderId, m.sequence);
    assert c in s.nodes[n].calls ==> HeardFrom(s, n, c);
    RW.FreshAccepted(y.st.limit, s.nodes[n].calls, c);
    forall k | 0 <= k < |s.nodes[n].calls|
      ensures s.nodes[n].calls[k].sequence >= 1
    {
      var c := s.nodes[n].calls[k];
      assert c in s.nodes[n].calls && HeardFrom(s, n, c);
      var i :| 0 <= i < |s.sent| && s.sent[i].sender < |s.nodes|
               && c == RW.Call(s.nodes[s.sent[i].sender].senderId, s.sent[i].sequence);
      assert Faithful(y, s, i);
    }
  }

  // What a first delivery gives and records.
  lemma FirstDelivery(y: System, s: State, n: nat, index: nat)
    requires Inv(y, s) && n < |s.nodes| && index < |s.sent| && (n, index) !in s.inbox
    ensures var m := s.sent[index];
            && m.sender < |s.nodes|
            && if |m.payload| < U32 then
                 && Received(y.st, s.nodes[n], m.wire, m.direction) == Success(m.payload)
                 && Recorded(y.st, s.nodes[n], m.wire, m.direction)
                    == s.nodes[n].(calls := s.nodes[n].calls + [RW.Call(s.nodes[m.sender].senderId, m.sequence)])
               else
                 && Received(y.st, s.nodes[n], m.wire, m.direction).Failure?
                 && Recorded(y.st, s.nodes[n], m.wire, m.direction) == s.nodes[n]
  {
    hide Sealed, RW.Window, Direction.Text, Opened;
    var m := s.sent[index];
    NewToWindow(y, s, n, index);
    OpenedOfSealed(y.st.crypto, y.st.binding, m.payload, m.direction.Text(), s.nodes[m.sender].senderId, m.sequence, m.nonce);
  }

  lemma HearKeeps(y: System, s: State, n: nat, index: nat)
    requires Inv(y, s) && n < |s.nodes| && index < |s.sent| && (n, index) !in s.inbox
    ensures Inv(y, Hear(y, s, n, index))
  {
    hide Received, Recorded, Senders, Log, Heard, Inbox;
    var t := Hear(y, s, n, index);
    var m := s.sent[index];
    FirstDelivery(y, s, n, index);
    var calls := if |m.payload| < U32 then [RW.Call(s.nodes[m.sender].senderId, m.sequence)] else [];
    assert s.nodes[n].calls + [] == s.nodes[n].calls;
    assert HeardMore(s, t, n, index, calls);
    HeardMoreLog(y, s, t, n, index, calls);
    HeardMoreHeard(s, t, n, index, calls);
    HeardMoreInbox(s, t, n, index, calls);
  }

  // No counter wrapped from s to t.
  ghost predicate NoWrap(s: State, t: State) {
    |s.nodes| == |t.nodes| && forall n :: 0 <= n < |s.nodes| ==> s.nodes[n].sequence <= t.nodes[n].sequence
  }

  lemma SendCounts(y: System, s: State, n: nat, direction: Direction, payload: Bytes, nonce: Nonce)
    requires Inv(y, s) && Enabled(y, s, Send(n, direction, payload, nonce)) && NoWrap(s, Next(y, s, Send(n, direction, payload, nonce)))
    ensures s.nodes[n].sequence + 1 < U64
  {
    hide Wire, Log, Heard, Inbox;
    assert Next(y, s, Send(n, direction, payload, nonce)).nodes[n] == Counted(s.nodes[n]);
  }

  lemma ServeCounts(y: System, s: State, n: nat, i: nat, nonce: Nonce)
    requires Inv(y, s) && Enabled(y, s, Serve(n, i, nonce)) && NoWrap(s, Next(y, s, Serve(n, i, nonce)))
    requires var request := Hear(y, s, n, i).inbox[(n, i)];
             request.Success? && y.handler(n, request.value).Success?
    ensures Hear(y, s, n, i).nodes[n].sequence + 1 < U64
  {
    hide Wire, Log, Heard, Inbox, Received, Opened, Direction.Text;
    assert Next(y, s, Serve(n, i, nonce)).nodes[n].sequence == Counted(s.nodes[n]).sequence;
  }

  lemma StepKeeps(y: System, s: State, a: Action)
    requires Inv(y, s) && Enabled(y, s, a) && NoWrap(s, Next(y, s, a))
    ensures Inv(y, Next(y, s, a))
  {
    hide Sealed, Received, Recorded, Opened, Direction.Text;
    match a
    case Send(n, direction, payload, nonce) =>
      SendCounts(y, s, n, direction, payload, nonce);
      EmitKeeps(y, s, n, direction, payload, None, nonce);
    case Deliver(n, i) =>
      HearKeeps(y, s, n, i);
    case Serve(n, i, nonce) =>
      HearKeeps(y, s, n, i);
      var heard := Hear(y, s, n, i);
      var request := heard.inbox[(n, i)];
      assert Transparent(heard, n, i);
      if request.Success? && y.handler(n, request.value).Success? {
        var response := y.handler(n, request.value).value;
        ServeCounts(y, s, n, i, nonce);
        EmitKeeps(y, heard, n, Response, response, Some(i), nonce);
      }
    case Garbage(n, wire, direction) =>
      GarbageIgnored(y, s, n, wire, direction);
  }

  lemma GarbageIgnored(y: System, s: State, n: nat, wire: Bytes, direction: Direction)
    requires y.st.Valid() && Enabled(y, s, Garbage(n, wire, direction))
    ensures Next(y, s, Garbage(n, wire, direction)) == s
  {
  }

  // Every node sends fewer than 2^64 messages.
  ghost predicate Unwrapped(states: seq<State>) {
    forall k :: 0 <= k < |states| - 1 ==> NoWrap(states[k], states[k + 1])
  }

  lemma {:induction false} InvAlong(y: System, states: seq<State>, actions: seq<Action>, k: nat)
    requires Run(y, states, actions) && Unwrapped(states) && k <= |actions|
    ensures Inv(y, states[k])
  {
    hide Inv, Next, Enabled;
    if k == 0 {
      InvAtStart(y, states[0]);
    } else {
      InvAlong(y, states, actions, k - 1);
      assert Enabled(y, states[k - 1], actions[k - 1]) && states[k] == Next(y, states[k - 1], actions[k - 1]);
      assert NoWrap(states[k - 1], states[k]);
      StepKeeps(y, states[k - 1], actions[k - 1]);
    }
  }

  lemma InvAtStart(y: System, s: State)
    requires y.st.Valid() && Started(s)
    ensures Inv(y, s)
  {
  }

  /** Over whole runs in which no sender's counter wraps, every delivery gave the plaintext that was sent: a
      failure exactly when that does not fit the envelope's length field. */
  lemma BusTransparent(y: System, states: seq<State>, actions: seq<Action>, n: nat, i: nat)
    requires Run(y, states, actions) && Unwrapped(states)
    requires (n, i) in states[|actions|].inbox
    ensures var last := states[|actions|];
            && i < |last.sent|
            && if |last.sent[i].payload| < U32 then last.inbox[(n, i)] == Success(last.sent[i].payload)
               else last.inbox[(n, i)].Failure?
  {
    InvAlong(y, states, actions, |actions|);
    assert Transparent(states[|actions|], n, i);
  }

  /** A secured RPC is the handler on plaintexts: whoever receives the response to request j reads what
      the responding server's handler returns for the plaintext of j. */
  lemma RpcTransparent(y: System, states: seq<State>, actions: seq<Action>, n: nat, i: nat)
    requires Run(y, states, actions) && Unwrapped(states)
    requires var last := states[|actions|];
             i < |last.sent| && (n, i) in last.inbox && last.sent[i].direction == Response
    ensures var last := states[|actions|];
            var answer := last.sent[i];
            && answer.replyTo.Some? && answer.replyTo.value < i && last.sent[answer.replyTo.value].direction == Request
            && var result := y.handler(answer.sender, last.sent[answer.replyTo.value].payload);
            result.Success? && if |result.value| < U32 then last.inbox[(n, i)] == result else last.inbox[(n, i)].Failure?
  {
    var last := states[|actions|];
    InvAlong(y, states, actions, |actions|);
    assert Transparent(last, n, i);
    assert Answers(y, last, i);
  }

  /** A message delivered a second time is refused for as long as fewer than `limit` larger numbers of
      its sender have reached the receiver, and accepted again from then on. */
  lemma DuplicateRefusedExactly(y: System, states: seq<State>, actions: seq<Action>, n: nat, i: nat)
    requires Run(y, states, actions) && Unwrapped(states)
    requires var last := states[|actions|];
             i < |last.sent| && |last.sent[i].payload| < U32 && (n, i) in last.inbox
    ensures var last := states[|actions|];
            var m := last.sent[i];
            && n < |last.nodes| && m.sender < |last.nodes|
            && var larger := RW.Above(RW.Presented(last.nodes[n].calls, last.nodes[m.sender].senderId), m.sequence);
            Received(y.st, last.nodes[n], m.wire, m.direction) == (
              if |larger| < y.st.limit then Failure(REPLAY_REJECTED) else Success(m.payload))
  {
    hide RW.Window, Sealed, Opened, Direction.Text;
    var last := states[|actions|];
    var m := last.sent[i];
    InvAlong(y, states, actions, |actions|);
    assert Transparent(last, n, i);
    assert Faithful(y, last, i);
    var id := last.nodes[m.sender].senderId;
    OpenedOfSealed(y.st.crypto, y.st.binding, m.payload, m.direction.Text(), id, m.sequence, m.nonce);
    RW.ForgottenExactly(y.st.limit, last.nodes[n].calls, id, m.sequence);
  }
}
