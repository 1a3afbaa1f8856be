/**
 The session table of the Go topic RPC adapter: sessionFor and CloseClient, interleaved at every
 mutex, subscription and publication they perform.
 */
module SessionTable {
  import opened Bytes
  import opened Text

  // ----- Keys

  function Strings(options: seq<(string, string)>): seq<string> {
    seq(|options|, i requires 0 <= i < |options| => options[i].0 + "=" + options[i].1)
  }

  // qos holds the options in ascending order of their names.
  datatype Topic = Topic(name: string, typeName: string, qos: seq<(string, string)>) {
    function Key(): string {
      Join([name, typeName] + Strings(qos), "\U{1F}")
    }
  }

  datatype Binding = Binding(standard: string, request: Topic, response: Topic)

  type Key = string

  function SessionKey(clientId: string, binding: Binding): Key {
    Join([clientId, binding.standard, binding.request.Key(), binding.response.Key()], "\0")
  }

  predicate HasPrefix(s: string, prefix: string) {
    |prefix| <= |s| && s[..|prefix|] == prefix
  }

  // The keys CloseClient collects.
  predicate OfClient(key: Key, clientId: string) {
    HasPrefix(key, clientId + "\0")
  }

  /** CloseClient's prefix test picks exactly the client's own keys: "%T:%p" never contains a NUL. */
  lemma PrefixExact(clientId: string, other: string, binding: Binding)
    requires '\0' !in clientId && '\0' !in other
    ensures OfClient(SessionKey(clientId, binding), other) <==> clientId == other
  {
    var parts := [clientId, binding.standard, binding.request.Key(), binding.response.Key()];
    var rest := Join(parts[1..], "\0");
    assert SessionKey(clientId, binding) == clientId + "\0" + rest;
    var key, prefix := clientId + "\0" + rest, other + "\0";
    assert prefix[|other|] == '\0' && forall i :: 0 <= i < |other| ==> prefix[i] == other[i];
    assert key[|clientId|] == '\0' && forall i :: 0 <= i < |clientId| ==> key[i] == clientId[i];
    if HasPrefix(key, prefix) {
      assert forall i :: 0 <= i < |prefix| ==> key[i] == key[..|prefix|][i];
      assert |other| == |clientId|;
    }
    if clientId == other {
      assert key[..|prefix|] == prefix;
    }
  }

  /** Two bindings share a session key exactly when client, standard and both topic keys agree. */
  lemma SessionKeyExact(clientId: string, b: Binding, other: string, d: Binding)
    requires Free([clientId, b.standard, b.request.Key(), b.response.Key()], '\0')
    requires Free([other, d.standard, d.request.Key(), d.response.Key()], '\0')
    ensures SessionKey(clientId, b) == SessionKey(other, d) <==>
              clientId == other && b.standard == d.standard && b.request.Key() == d.request.Key() && b.response.Key() == d.response.Key()
  {
    var x, y := [clientId, b.standard, b.request.Key(), b.response.Key()], [other, d.standard, d.request.Key(), d.response.Key()];
    JoinOneToOne(x, y, '\0');
    assert x == y <==> x[0] == y[0] && x[1] == y[1] && x[2] == y[2] && x[3] == y[3];
  }

  // Names without "=" keep an option's name and value apart.
  lemma OptionExact(p: (string, string), q: (string, string))
    requires '=' !in p.0 && '=' !in q.0
    ensures p.0 + "=" + p.1 == q.0 + "=" + q.1 <==> p == q
  {
    if p.0 + "=" + p.1 == q.0 + "=" + q.1 {
      SplitAtFirst(p.0, q.0, p.1, q.1, '=');
    }
  }

  lemma OptionsExact(p: seq<(string, string)>, q: seq<(string, string)>)
    requires forall i :: 0 <= i < |p| ==> '=' !in p[i].0
    requires forall i :: 0 <= i < |q| ==> '=' !in q[i].0
    ensures Strings(p) == Strings(q) <==> p == q
  {
    if Strings(p) == Strings(q) {
      assert |p| == |Strings(p)| == |q|;
      forall i | 0 <= i < |p|
        ensures p[i] == q[i]
      {
        assert Strings(p)[i] == Strings(q)[i];
        OptionExact(p[i], q[i]);
      }
    }
  }

  // What a topic key keeps apart: parts without its separator, option names without "=".
  ghost predicate Separable(t: Topic) {
    && Free([t.name, t.typeName] + Strings(t.qos), '\U{1F}')
    && forall i :: 0 <= i < |t.qos| ==> '=' !in t.qos[i].0
  }

  /** A topic key identifies name, type and options. */
  lemma TopicKeyExact(t: Topic, u: Topic)
    requires Separable(t) && Separable(u)
    ensures t.Key() == u.Key() <==> t == u
  {
    var x, y := [t.name, t.typeName] + Strings(t.qos), [u.name, u.typeName] + Strings(u.qos);
    JoinOneToOne(x, y, '\U{1F}');
    OptionsExact(t.qos, u.qos);
    if x == y {
      assert x[0] == y[0] && x[1] == y[1] && x[2..] == y[2..];
      assert x[2..] == Strings(t.qos) && y[2..] == Strings(u.qos);
    }
  }

  // ----- Sessions and threads

  // A subscription of a session, and how often its unsubscribe function has been called.
  datatype Subscription = Never | Open | Unsubscribed(times: nat)

  function Unsubscribe(sub: Subscription): Subscription {
    match sub
    case Never => Never
    case Open => Unsubscribed(1)
    case Unsubscribed(n) => Unsubscribed(n + 1)
  }

  datatype Session = Session(key: Key, closed: bool, response: Subscription, ack: Subscription)

  datatype Stage = Mark | UnsubResponse | UnsubAck

  datatype Outcome = Got(key: Key, sid: nat) | Failed | Swept(clientId: string)

  // sid is the index of a session object.  Closing runs session.close() on each of todo in turn.
  datatype Thread =
    | Lookup(key: Key)
    | SubResponse(key: Key, sid: nat)
    | SubAck(key: Key, sid: nat)
    | PrepareRequest(key: Key, sid: nat)
    | PrepareProbe(key: Key, sid: nat)
    | Insert(key: Key, sid: nat)
    | Sweep(clientId: string)
    | Closing(todo: seq<nat>, stage: Stage, outcome: Outcome)
    | Done(outcome: Outcome)

  datatype State = State(table: map<Key, nat>, sessions: seq<Session>, threads: seq<Thread>)

  // What the environment decides: whether the call of this step fails, and Go's map iteration order.
  datatype Choice = Choice(ok: bool, order: seq<Key>)

  predicate Distinct<T(==)>(s: seq<T>) {
    forall i, j :: 0 <= i < j < |s| ==> s[i] != s[j]
  }

  // order visits each key of the client once.
  predicate Visits(table: map<Key, nat>, clientId: string, order: seq<Key>) {
    && Distinct(order)
    && (forall k :: k in order ==> k in table && OfClient(k, clientId))
    && (forall k :: k in table && OfClient(k, clientId) ==> k in order)
  }

  predicate Enabled(s: State, t: nat, c: Choice) {
    && t < |s.threads|
    && !s.threads[t].Done?
    && (s.threads[t].Sweep? ==> Visits(s.table, s.threads[t].clientId, c.order))
    && (s.threads[t].Closing? && s.threads[t].todo != [] ==> s.threads[t].todo[0] < |s.sessions|)
    && (s.threads[t].SubResponse? || s.threads[t].SubAck? ==> s.threads[t].sid < |s.sessions|)
  }

  function At(s: State, t: nat, th: Thread): State
    requires t < |s.threads|
  {
    s.(threads := s.threads[t := th])
  }

  function Update(s: State, sid: nat, x: Session): State
    requires sid < |s.sessions|
  {
    s.(sessions := s.sessions[sid := x])
  }

  function Collected(table: map<Key, nat>, order: seq<Key>): seq<nat>
    requires forall k :: k in order ==> k in table
  {
    seq(|order|, i requires 0 <= i < |order| => table[order[i]])
  }

  function Next(s: State, t: nat, c: Choice): State
    requires Enabled(s, t, c)
  {
    match s.threads[t]
    case Lookup(key) =>
      if key in s.table then At(s, t, Done(Got(key, s.table[key])))
      else At(s.(sessions := s.sessions + [Session(key, false, Never, Never)]), t, SubResponse(key, |s.sessions|))
    case SubResponse(key, sid) =>
      if c.ok then At(Update(s, sid, s.sessions[sid].(response := Open)), t, SubAck(key, sid))
      else At(s, t, Done(Failed))
    case SubAck(key, sid) =>
      if c.ok then At(Update(s, sid, s.sessions[sid].(ack := Open)), t, PrepareRequest(key, sid))
      else At(Update(s, sid, s.sessions[sid].(response := Unsubscribe(s.sessions[sid].response))), t, Done(Failed))
    case PrepareRequest(key, sid) =>
      At(s, t, if c.ok then PrepareProbe(key, sid) else Closing([sid], Mark, Failed))
    case PrepareProbe(key, sid) =>
      At(s, t, if c.ok then Insert(key, sid) else Closing([sid], Mark, Failed))
    case Insert(key, sid) =>
      if key in s.table then At(s, t, Closing([sid], Mark, Got(key, s.table[key])))
      else At(s.(table := s.table[key := sid]), t, Done(Got(key, sid)))
    case Sweep(clientId) =>
      At(s.(table := map k | k in s.table && !OfClient(k, clientId) :: s.table[k]), t,
         Closing(Collected(s.table, c.order), Mark, Swept(clientId)))
    case Closing(todo, stage, outcome) =>
      if todo == [] then At(s, t, Done(outcome))
      else
        var sid, x := todo[0], s.sessions[todo[0]];
        match stage
        case Mark =>
          if x.closed then At(s, t, Closing(todo[1..], Mark, outcome))
          else At(Update(s, sid, x.(closed := true)), t, Closing(todo, UnsubResponse, outcome))
        case UnsubResponse =>
          At(Update(s, sid, x.(response := Unsubscribe(x.response))), t, Closing(todo, UnsubAck, outcome))
        case UnsubAck =>
          At(Update(s, sid, x.(ack := Unsubscribe(x.ack))), t, Closing(todo[1..], Mark, outcome))
  }

  // ----- The invariant

  predicate Owns(th: Thread, sid: nat) {
    match th
    case SubResponse(_, id) => id == sid
    case SubAck(_, id) => id == sid
    case PrepareRequest(_, id) => id == sid
    case PrepareProbe(_, id) => id == sid
    case Insert(_, id) => id == sid
    case Closing(todo, _, _) => sid in todo
    case _ => false
  }

  predicate Live(x: Session) {
    !x.closed && x.response == Open && x.ack == Open
  }

  predicate Released(sub: Subscription) {
    sub == Never || sub == Unsubscribed(1)
  }

  predicate Dead(x: Session) {
    Released(x.response) && Released(x.ack)
  }

  // The session as the thread that works on it left it.
  predicate Expected(th: Thread, sid: nat, x: Session)
    requires Owns(th, sid)
  {
    match th
    case SubResponse(key, _) => x == Session(key, false, Never, Never)
    case SubAck(key, _) => x == Session(key, false, Open, Never)
    case PrepareRequest(key, _) => x == Session(key, false, Open, Open)
    case PrepareProbe(key, _) => x == Session(key, false, Open, Open)
    case Insert(key, _) => x == Session(key, false, Open, Open)
    case Closing(todo, stage, _) =>
      if sid != todo[0] || stage.Mark? then Live(x)
      else if stage.UnsubResponse? then x.closed && x.response == Open && x.ack == Open
      else x.closed && x.response == Unsubscribed(1) && x.ack == Open
  }

  ghost predicate OwnedBy(s: State, th: Thread) {
    && (th.Closing? ==> Distinct(th.todo))
    && (forall sid: nat :: Owns(th, sid) ==> sid < |s.sessions| && Expected(th, sid, s.sessions[sid]))
  }

  ghost predicate Owned(s: State) {
    forall t :: 0 <= t < |s.threads| ==> OwnedBy(s, s.threads[t])
  }

  ghost predicate Apart(s: State) {
    && (forall t, u, sid: nat :: 0 <= t < |s.threads| && 0 <= u < |s.threads| && Owns(s.threads[t], sid) && Owns(s.threads[u], sid) ==> t == u)
    && (forall t, k :: 0 <= t < |s.threads| && k in s.table ==> !Owns(s.threads[t], s.table[k]))
  }

  ghost predicate Tabled(s: State) {
    forall k :: k in s.table ==> s.table[k] < |s.sessions| && s.sessions[s.table[k]] == Session(k, false, Open, Open)
  }

  ghost predicate IsOwned(s: State, sid: nat) {
    exists t :: 0 <= t < |s.threads| && Owns(s.threads[t], sid)
  }

  ghost predicate IsTabled(s: State, sid: nat) {
    exists k :: k in s.table && s.table[k] == sid
  }

  ghost predicate Accounted(s: State) {
    forall sid: nat :: sid < |s.sessions| ==> IsOwned(s, sid) || IsTabled(s, sid) || Dead(s.sessions[sid])
  }

  ghost predicate Inv(s: State) {
    Owned(s) && Apart(s) && Tabled(s) && Accounted(s)
  }

  lemma OwnedAt(s: State, t: nat, sid: nat)
    requires Owned(s) && t < |s.threads| && Owns(s.threads[t], sid)
    ensures sid < |s.sessions| && Expected(s.threads[t], sid, s.sessions[sid])
  {
    assert OwnedBy(s, s.threads[t]);
  }

  lemma NotTabled(s: State, t: nat, sid: nat)
    requires Apart(s) && t < |s.threads| && Owns(s.threads[t], sid)
    ensures !IsTabled(s, sid)
  {
  }

  // What a step of thread t may do: work on a session of its own, create one, take over tabled ones,
  // hand one to the table, or let go of dead ones.
  ghost predicate Shape(s: State, n: State, t: nat)
    requires t < |s.threads| == |n.threads|
  {
    var old_, new_ := s.threads[t], n.threads[t];
    && (forall u :: 0 <= u < |s.threads| && u != t ==> n.threads[u] == s.threads[u])
    && |s.sessions| <= |n.sessions|
    && (forall sid: nat :: sid < |s.sessions| ==> n.sessions[sid] == s.sessions[sid] || Owns(old_, sid))
    && (forall sid: nat :: |s.sessions| <= sid < |n.sessions| ==> Owns(new_, sid))
    && (forall sid: nat :: Owns(new_, sid) ==> Owns(old_, sid) || sid >= |s.sessions| || IsTabled(s, sid))
    && (forall k :: k in n.table ==>
          && !Owns(new_, n.table[k])
          && if k in s.table then n.table[k] == s.table[k]
             else Owns(old_, n.table[k]) && n.table[k] < |n.sessions| && n.sessions[n.table[k]] == Session(k, false, Open, Open))
    && (forall k :: k in s.table && k !in n.table ==> Owns(new_, s.table[k]))
    && (forall sid: nat :: Owns(old_, sid) && sid < |s.sessions| ==> Owns(new_, sid) || IsTabled(n, sid) || Dead(n.sessions[sid]))
    && OwnedBy(n, new_)
  }

  // A step that works on one session the thread owns, and may let go of it once it is dead.
  lemma WorkShape(s: State, n: State, t: nat, sid: nat, x: Session)
    requires Inv(s) && t < |s.threads| == |n.threads| && sid < |s.sessions| == |n.sessions| && Owns(s.threads[t], sid)
    requires n == State(s.table, s.sessions[sid := x], s.threads[t := n.threads[t]])
    requires var old_, new_ := s.threads[t], n.threads[t];
             && (new_.Closing? ==> Distinct(new_.todo))
             && (forall id: nat :: Owns(new_, id) ==> Owns(old_, id) && id < |n.sessions| && Expected(new_, id, n.sessions[id]))
             && (forall id: nat :: Owns(old_, id) && !Owns(new_, id) ==> id == sid && Dead(x))
    ensures Shape(s, n, t)
  {
  }

  lemma LookupShape(s: State, t: nat, c: Choice)
    requires Inv(s) && Enabled(s, t, c) && s.threads[t].Lookup?
    ensures Shape(s, Next(s, t, c), t)
  {
    assert forall k :: k in s.table ==> s.table[k] < |s.sessions|;
  }

  lemma SubscribeShape(s: State, t: nat, c: Choice)
    requires Inv(s) && Enabled(s, t, c) && (s.threads[t].SubResponse? || s.threads[t].SubAck?)
    ensures Shape(s, Next(s, t, c), t)
  {
    var n, sid := Next(s, t, c), s.threads[t].sid;
    OwnedAt(s, t, sid);
    assert n.sessions == s.sessions[sid := n.sessions[sid]];
    WorkShape(s, n, t, sid, n.sessions[sid]);
  }

  lemma PrepareShape(s: State, t: nat, c: Choice)
    requires Inv(s) && Enabled(s, t, c) && (s.threads[t].PrepareRequest? || s.threads[t].PrepareProbe?)
    ensures Shape(s, Next(s, t, c), t)
  {
    var n, sid := Next(s, t, c), s.threads[t].sid;
    OwnedAt(s, t, sid);
    assert s.sessions == s.sessions[sid := s.sessions[sid]];
    WorkShape(s, n, t, sid, s.sessions[sid]);
  }

  lemma InsertShape(s: State, t: nat, c: Choice)
    requires Inv(s) && Enabled(s, t, c) && s.threads[t].Insert?
    ensures Shape(s, Next(s, t, c), t)
  {
    var n, key, sid := Next(s, t, c), s.threads[t].key, s.threads[t].sid;
    OwnedAt(s, t, sid);
    forall k | k in s.table
      ensures s.table[k] != sid
    {
      assert !Owns(s.threads[t], s.table[k]);
    }
    if key in s.table {
      assert s.sessions == s.sessions[sid := s.sessions[sid]];
      WorkShape(s, n, t, sid, s.sessions[sid]);
    } else {
      assert n.table[key] == sid;
      assert IsTabled(n, sid);
    }
  }

  lemma CollectedOwned(s: State, clientId: string, order: seq<Key>)
    requires Tabled(s) && Visits(s.table, clientId, order)
    ensures var todo := Collected(s.table, order);
            && Distinct(todo)
            && (forall sid :: sid in todo ==> sid < |s.sessions| && Live(s.sessions[sid]) && IsTabled(s, sid))
            && (forall k :: k in s.table && OfClient(k, clientId) ==> s.table[k] in todo)
            && (forall k :: k in s.table && !OfClient(k, clientId) ==> s.table[k] !in todo)
  {
    hide OfClient;
    var todo := Collected(s.table, order);
    forall i, j | 0 <= i < j < |todo|
      ensures todo[i] != todo[j]
    {
      assert order[i] in order && order[j] in order;
    }
    forall sid | sid in todo
      ensures sid < |s.sessions| && Live(s.sessions[sid]) && IsTabled(s, sid)
      ensures OfClient(s.sessions[sid].key, clientId)
    {
      var i :| 0 <= i < |todo| && todo[i] == sid;
      assert order[i] in order;
    }
    forall k | k in s.table && OfClient(k, clientId)
      ensures s.table[k] in todo
    {
      var i :| 0 <= i < |order| && order[i] == k;
      assert todo[i] == s.table[k];
    }
  }

  lemma SweepShape(s: State, t: nat, c: Choice)
    requires Inv(s) && Enabled(s, t, c) && s.threads[t].Sweep?
    ensures Shape(s, Next(s, t, c), t)
  {
    hide OfClient, Collected;
    CollectedOwned(s, s.threads[t].clientId, c.order);
    hide Visits;
  }

  lemma ClosedShape(s: State, t: nat, c: Choice)
    requires Inv(s) && Enabled(s, t, c) && s.threads[t].Closing? && s.threads[t].todo == []
    ensures Shape(s, Next(s, t, c), t)
  {
  }

  lemma ClosingShape(s: State, t: nat, c: Choice)
    requires Inv(s) && Enabled(s, t, c) && s.threads[t].Closing?
    ensures Shape(s, Next(s, t, c), t)
  {
    hide Shape;
    var n, old_ := Next(s, t, c), s.threads[t];
    if old_.todo == [] {
      ClosedShape(s, t, c);
    } else {
      var first, rest := old_.todo[0], old_.todo[1..];
      assert old_.todo == [first] + rest;
      assert Owns(old_, first) && Expected(old_, first, s.sessions[first]);
      assert n.sessions == s.sessions[first := n.sessions[first]];
      forall sid | sid in rest
        ensures sid < |s.sessions| && sid != first && Live(s.sessions[sid])
      {
        assert Owns(old_, sid);
        OwnedAt(s, t, sid);
      }
      WorkShape(s, n, t, first, n.sessions[first]);
    }
  }

  // The other threads' sessions are untouched and remain theirs.
  lemma OthersKeep(s: State, n: State, t: nat, u: nat, sid: nat)
    requires t < |s.threads| == |n.threads| && u < |n.threads| && u != t
    requires Inv(s) && Shape(s, n, t) && Owns(n.threads[u], sid)
    ensures sid < |s.sessions| <= |n.sessions| && n.sessions[sid] == s.sessions[sid] && n.threads[u] == s.threads[u]
    ensures !Owns(n.threads[t], sid) && !IsTabled(s, sid) && Expected(n.threads[u], sid, n.sessions[sid])
  {
    hide Expected;
    assert n.threads[u] == s.threads[u];
    OwnedAt(s, u, sid);
    assert !Owns(s.threads[t], sid);
    NotTabled(s, u, sid);
  }

  lemma ShapeKeepsOwned(s: State, n: State, t: nat)
    requires t < |s.threads| == |n.threads|
    requires Inv(s) && Shape(s, n, t)
    ensures Owned(n)
  {
    forall u | 0 <= u < |n.threads|
      ensures OwnedBy(n, n.threads[u])
    {
      if u != t {
        assert n.threads[u] == s.threads[u] && OwnedBy(s, s.threads[u]);
        forall sid: nat | Owns(n.threads[u], sid)
          ensures sid < |n.sessions| && Expected(n.threads[u], sid, n.sessions[sid])
        {
          OthersKeep(s, n, t, u, sid);
        }
      }
    }
  }

  lemma ShapeKeepsApart(s: State, n: State, t: nat)
    requires t < |s.threads| == |n.threads|
    requires Inv(s) && Shape(s, n, t)
    ensures Apart(n) && Tabled(n)
  {
    hide Expected;
    forall u, sid: nat | 0 <= u < |n.threads| && u != t && Owns(n.threads[u], sid)
      ensures !Owns(n.threads[t], sid) && !IsTabled(s, sid) && Owns(s.threads[u], sid) && !Owns(s.threads[t], sid)
    {
      OthersKeep(s, n, t, u, sid);
    }
    forall u, k | 0 <= u < |n.threads| && k in n.table
      ensures !Owns(n.threads[u], n.table[k])
    {
    }
    forall k | k in n.table
      ensures n.table[k] < |n.sessions| && n.sessions[n.table[k]] == Session(k, false, Open, Open)
    {
    }
  }

  lemma ShapeKeepsAccounted(s: State, n: State, t: nat)
    requires t < |s.threads| == |n.threads|
    requires Inv(s) && Shape(s, n, t)
    ensures Accounted(n)
  {
  }

  lemma ShapeStep(s: State, t: nat, c: Choice)
    requires Inv(s) && Enabled(s, t, c)
    ensures |Next(s, t, c).threads| == |s.threads| && Shape(s, Next(s, t, c), t)
  {
    hide Shape, Inv, OfClient, Visits;
    match s.threads[t] {
      case Lookup(_) => LookupShape(s, t, c);
      case SubResponse(_, _) => SubscribeShape(s, t, c);
      case SubAck(_, _) => SubscribeShape(s, t, c);
      case PrepareRequest(_, _) => PrepareShape(s, t, c);
      case PrepareProbe(_, _) => PrepareShape(s, t, c);
      case Insert(_, _) => InsertShape(s, t, c);
      case Sweep(_) => SweepShape(s, t, c);
      case Closing(_, _, _) => ClosingShape(s, t, c);
    }
  }

  lemma InvStep(s: State, t: nat, c: Choice)
    requires Inv(s) && Enabled(s, t, c)
    ensures Inv(Next(s, t, c))
  {
    hide Shape, Next, Enabled, Owned, Apart, Tabled, Accounted;
    ShapeStep(s, t, c);
    InRange(s, t, c);
    ShapeKeepsOwned(s, Next(s, t, c), t);
    ShapeKeepsApart(s, Next(s, t, c), t);
    ShapeKeepsAccounted(s, Next(s, t, c), t);
  }

  lemma InRange(s: State, t: nat, c: Choice)
    requires Enabled(s, t, c)
    ensures t < |s.threads|
  {
  }

  // No step of a thread is blocked by an inconsistent state: whatever the environment answers, it goes on.
  lemma NeverStuck(s: State, t: nat, c: Choice)
    requires Inv(s) && t < |s.threads| && !s.threads[t].Done?
    requires s.threads[t].Sweep? ==> Visits(s.table, s.threads[t].clientId, c.order)
    ensures Enabled(s, t, c)
  {
    hide Visits;
    var th := s.threads[t];
    if th.SubResponse? || th.SubAck? {
      OwnedAt(s, t, th.sid);
    } else if th.Closing? && th.todo != [] {
      OwnedAt(s, t, th.todo[0]);
    }
  }

  // ----- Runs

  ghost predicate Runs(s: State, schedule: seq<(nat, Choice)>, e: State)
    decreases |schedule|
  {
    if schedule == [] then s == e
    else Enabled(s, schedule[0].0, schedule[0].1) && Runs(Next(s, schedule[0].0, schedule[0].1), schedule[1..], e)
  }

  // Each thread is one call, of sessionFor or of CloseClient, not begun.
  predicate NotBegun(th: Thread) {
    th.Lookup? || th.Sweep?
  }

  predicate Started(s: State) {
    s.table == map[] && s.sessions == [] && forall t :: 0 <= t < |s.threads| ==> NotBegun(s.threads[t])
  }

  // No call is in progress.
  predicate Quiet(s: State) {
    forall t :: 0 <= t < |s.threads| ==> NotBegun(s.threads[t]) || s.threads[t].Done?
  }

  lemma {:induction false} RunsInv(s: State, schedule: seq<(nat, Choice)>, e: State)
    requires Inv(s) && Runs(s, schedule, e)
    ensures Inv(e)
    decreases |schedule|
  {
    hide Inv, Next, Enabled;
    if schedule != [] {
      InvStep(s, schedule[0].0, schedule[0].1);
      RunsInv(Next(s, schedule[0].0, schedule[0].1), schedule[1..], e);
    }
  }

  lemma InvStart(s: State)
    requires Started(s)
    ensures Inv(s)
  {
    forall t, sid: nat | 0 <= t < |s.threads|
      ensures !Owns(s.threads[t], sid)
    {
      assert NotBegun(s.threads[t]);
    }
  }

  /** Table safety under every interleaving: a tabled session is open, not closed, and its key's own;
      nothing is unsubscribed twice; and when no call is in progress, the open subscriptions are exactly
      those of the tabled sessions. */
  lemma TableSafe(s0: State, schedule: seq<(nat, Choice)>, s: State)
    requires Started(s0) && Runs(s0, schedule, s)
    ensures forall k :: k in s.table ==> s.table[k] < |s.sessions| && s.sessions[s.table[k]] == Session(k, false, Open, Open)
    ensures forall k, l :: k in s.table && l in s.table && s.table[k] == s.table[l] ==> k == l
    ensures forall sid: nat :: sid < |s.sessions| ==>
              && (s.sessions[sid].response == Open || Released(s.sessions[sid].response))
              && (s.sessions[sid].ack == Open || Released(s.sessions[sid].ack))
    ensures Quiet(s) ==> forall sid: nat :: sid < |s.sessions| ==>
              && (s.sessions[sid].response == Open <==> IsTabled(s, sid))
              && (s.sessions[sid].ack == Open <==> IsTabled(s, sid))
  {
    InvStart(s0);
    RunsInv(s0, schedule, s);
    forall sid: nat | sid < |s.sessions|
      ensures IsTabled(s, sid) ==> Live(s.sessions[sid])
      ensures !IsTabled(s, sid) ==> IsOwned(s, sid) || Dead(s.sessions[sid])
      ensures IsOwned(s, sid) ==> !Quiet(s) && !IsTabled(s, sid)
                                  && (s.sessions[sid].response == Open || Released(s.sessions[sid].response))
                                  && (s.sessions[sid].ack == Open || Released(s.sessions[sid].ack))
    {
      if IsOwned(s, sid) {
        var t :| 0 <= t < |s.threads| && Owns(s.threads[t], sid);
        OwnedAt(s, t, sid);
        NotTabled(s, t, sid);
      }
    }
  }

  /** The step in which CloseClient collects removes exactly its client's entries, and takes on exactly
      their sessions. */
  lemma SweepExact(s: State, t: nat, c: Choice)
    requires Inv(s) && Enabled(s, t, c) && s.threads[t].Sweep?
    ensures var n := Next(s, t, c);
            && (forall k :: k in n.table <==> k in s.table && !OfClient(k, s.threads[t].clientId))
            && (forall k :: k in n.table ==> n.table[k] == s.table[k])
            && (forall sid: nat :: sid in n.threads[t].todo <==> IsTabled(s, sid) && !IsTabled(n, sid))
  {
    hide OfClient, Collected;
    CollectedOwned(s, s.threads[t].clientId, c.order);
  }

  // The session is on t's list, or closed and both its subscriptions cancelled once.
  ghost predicate ClosedBy(s: State, t: nat, sid: nat) {
    && t < |s.threads| && sid < |s.sessions|
    && if s.threads[t].Closing? then sid in s.threads[t].todo || Shut(s.sessions[sid])
       else s.threads[t].Done? && Shut(s.sessions[sid])
  }

  predicate Shut(x: Session) {
    x.closed && x.response == Unsubscribed(1) && x.ack == Unsubscribed(1)
  }

  // A shut session is nobody's, so no step touches it again.
  lemma ShutStays(s: State, t: nat, c: Choice, sid: nat)
    requires Inv(s) && Enabled(s, t, c) && sid < |s.sessions| && Shut(s.sessions[sid])
    ensures var n := Next(s, t, c);
            sid < |n.sessions| && Shut(n.sessions[sid]) && !IsTabled(s, sid)
  {
    hide Next;
    ShapeStep(s, t, c);
    if Owns(s.threads[t], sid) {
      OwnedAt(s, t, sid);
    }
  }

  lemma ClosedByStep(s: State, u: nat, c: Choice, t: nat, sid: nat)
    requires Inv(s) && Enabled(s, u, c) && ClosedBy(s, t, sid)
    ensures ClosedBy(Next(s, u, c), t, sid)
  {
    if Shut(s.sessions[sid]) {
      hide Shape, Inv;
      ShutStays(s, u, c, sid);
    } else {
      OwnedAt(s, t, sid);
      if u == t {
        assert s.threads[t].todo == [s.threads[t].todo[0]] + s.threads[t].todo[1..];
      }
    }
  }

  lemma {:induction false} RunsClosedBy(s: State, schedule: seq<(nat, Choice)>, e: State, t: nat, sid: nat)
    requires Inv(s) && Runs(s, schedule, e) && ClosedBy(s, t, sid)
    ensures ClosedBy(e, t, sid) && Inv(e)
    decreases |schedule|
  {
    hide Inv, Next, Enabled, ClosedBy;
    if schedule != [] {
      InvStep(s, schedule[0].0, schedule[0].1);
      ClosedByStep(s, schedule[0].0, schedule[0].1, t, sid);
      RunsClosedBy(Next(s, schedule[0].0, schedule[0].1), schedule[1..], e, t, sid);
    }
  }

  /** Whatever runs beside it, once a CloseClient that collected a session has returned, that session is
      closed, both its subscriptions were cancelled exactly once, and it is in the table no more. */
  lemma CloseClientCloses(s: State, t: nat, c: Choice, key: Key, schedule: seq<(nat, Choice)>, e: State)
    requires Inv(s) && Enabled(s, t, c) && s.threads[t].Sweep?
    requires key in s.table && OfClient(key, s.threads[t].clientId)
    requires Runs(Next(s, t, c), schedule, e) && t < |e.threads| && e.threads[t].Done?
    ensures var sid := s.table[key];
            sid < |e.sessions| && Shut(e.sessions[sid]) && !IsTabled(e, sid)
  {
    hide OfClient, Collected;
    var n, sid := Next(s, t, c), s.table[key];
    CollectedOwned(s, s.threads[t].clientId, c.order);
    InvStep(s, t, c);
    RunsClosedBy(n, schedule, e, t, sid);
    hide Visits;
  }

  // A call of sessionFor for this client that has not decided yet.
  predicate Pending(th: Thread, clientId: string) {
    match th
    case Lookup(key) => OfClient(key, clientId)
    case SubResponse(key, _) => OfClient(key, clientId)
    case SubAck(key, _) => OfClient(key, clientId)
    case PrepareRequest(key, _) => OfClient(key, clientId)
    case PrepareProbe(key, _) => OfClient(key, clientId)
    case Insert(key, _) => OfClient(key, clientId)
    case _ => false
  }

  predicate HoldsNone(table: map<Key, nat>, clientId: string) {
    forall k :: k in table ==> !OfClient(k, clientId)
  }

  // Nothing of the client is in the table or on its way there.
  ghost predicate Settled(s: State, clientId: string) {
    HoldsNone(s.table, clientId) && forall u :: 0 <= u < |s.threads| ==> !Pending(s.threads[u], clientId)
  }

  lemma SettledStep(s: State, t: nat, c: Choice, clientId: string)
    requires Settled(s, clientId) && Enabled(s, t, c)
    ensures Settled(Next(s, t, c), clientId)
  {
    hide OfClient, Visits, Collected;
    OthersStay(s, t, c);
    assert !Pending(s.threads[t], clientId);
  }

  lemma {:induction false} RunsSettled(s: State, schedule: seq<(nat, Choice)>, e: State, clientId: string)
    requires Settled(s, clientId) && Runs(s, schedule, e)
    ensures Settled(e, clientId)
    decreases |schedule|
  {
    hide Settled, Next, Enabled;
    if schedule != [] {
      SettledStep(s, schedule[0].0, schedule[0].1, clientId);
      RunsSettled(Next(s, schedule[0].0, schedule[0].1), schedule[1..], e, clientId);
    }
  }

  lemma {:induction false} RunsConcat(s: State, first: seq<(nat, Choice)>, m: State, later: seq<(nat, Choice)>, e: State)
    requires Runs(s, first, m) && Runs(m, later, e)
    ensures Runs(s, first + later, e)
    decreases |first|
  {
    hide Next, Enabled;
    if first == [] {
      assert first + later == later;
    } else {
      assert (first + later)[1..] == first[1..] + later;
      RunsConcat(Next(s, first[0].0, first[0].1), first[1..], m, later, e);
    }
  }

  lemma RunsOne(s: State, t: nat, c: Choice)
    requires Enabled(s, t, c)
    ensures Runs(s, [(t, c)], Next(s, t, c))
  {
    hide Next, Enabled;
    assert [(t, c)][1..] == [];
    assert Runs(Next(s, t, c), [], Next(s, t, c));
  }

  const Fine := Choice(true, [])

  /** A call finds the tabled session of its key and opens nothing; only a call whose key is absent makes
      a session. */
  lemma LookupReuses(s: State, t: nat, c: Choice)
    requires Enabled(s, t, c) && s.threads[t].Lookup?
    ensures var n, key := Next(s, t, c), s.threads[t].key;
            && n.table == s.table
            && (n.sessions == s.sessions <==> key in s.table)
            && (key in s.table <==> n.threads[t].Done?)
            && (key in s.table ==> n.threads[t] == Done(Got(key, s.table[key])))
  {
  }

  // How far a pending call still has to go.
  function StepsLeft(th: Thread): nat {
    match th
    case Lookup(_) => 6
    case SubResponse(_, _) => 5
    case SubAck(_, _) => 4
    case PrepareRequest(_, _) => 3
    case PrepareProbe(_, _) => 2
    case Insert(_, _) => 1
    case _ => 0
  }

  lemma GoesOn(s: State, u: nat)
    requires Inv(s) && u < |s.threads| && StepsLeft(s.threads[u]) >= 1 && s.threads[u].key !in s.table
    ensures Enabled(s, u, Fine)
    ensures var n, key := Next(s, u, Fine), s.threads[u].key;
            && |n.threads| == |s.threads| && (forall v :: 0 <= v < |s.threads| && v != u ==> n.threads[v] == s.threads[v])
            && if StepsLeft(s.threads[u]) == 1 then key in n.table
               else StepsLeft(n.threads[u]) == StepsLeft(s.threads[u]) - 1 && n.threads[u].key == key && n.table == s.table
  {
    NeverStuck(s, u, Fine);
  }

  // Left alone and with every call succeeding, a pending call inserts its session.
  lemma {:induction false} Inserts(s: State, u: nat) returns (schedule: seq<(nat, Choice)>, e: State)
    requires Inv(s) && u < |s.threads| && StepsLeft(s.threads[u]) >= 1 && s.threads[u].key !in s.table
    ensures Runs(s, schedule, e) && Inv(e) && s.threads[u].key in e.table
    ensures |e.threads| == |s.threads| && forall v :: 0 <= v < |s.threads| && v != u ==> e.threads[v] == s.threads[v]
    decreases StepsLeft(s.threads[u])
  {
    hide Inv, Next, Enabled, Runs;
    GoesOn(s, u);
    var n := Next(s, u, Fine);
    InvStep(s, u, Fine);
    RunsOne(s, u, Fine);
    if StepsLeft(s.threads[u]) == 1 {
      schedule, e := [(u, Fine)], n;
    } else {
      var rest;
      rest, e := Inserts(n, u);
      RunsConcat(s, [(u, Fine)], n, rest, e);
      schedule := [(u, Fine)] + rest;
    }
  }

  function StageLeft(stage: Stage): nat {
    match stage
    case Mark => 3
    case UnsubResponse => 2
    case UnsubAck => 1
  }

  lemma ClosesOn(s: State, t: nat)
    requires Inv(s) && t < |s.threads| && s.threads[t].Closing?
    ensures Enabled(s, t, Fine)
    ensures var n, was := Next(s, t, Fine), s.threads[t];
            && |n.threads| == |s.threads| && n.table == s.table
            && if was.todo == [] then n.threads[t].Done?
               else n.threads[t].Closing? && (|n.threads[t].todo| < |was.todo|
                      || (n.threads[t].todo == was.todo && StageLeft(n.threads[t].stage) < StageLeft(was.stage)))
  {
    NeverStuck(s, t, Fine);
  }

  // Left alone, CloseClient returns, and the table is what it was.
  lemma {:induction false} Returns(s: State, t: nat) returns (schedule: seq<(nat, Choice)>, e: State)
    requires Inv(s) && t < |s.threads| && s.threads[t].Closing?
    ensures Runs(s, schedule, e) && t < |e.threads| && e.threads[t].Done? && e.table == s.table
    decreases |s.threads[t].todo|, StageLeft(s.threads[t].stage)
  {
    hide Inv, Next, Enabled, Runs;
    ClosesOn(s, t);
    var n := Next(s, t, Fine);
    InvStep(s, t, Fine);
    RunsOne(s, t, Fine);
    if s.threads[t].todo == [] {
      schedule, e := [(t, Fine)], n;
    } else {
      var rest;
      rest, e := Returns(n, t);
      RunsConcat(s, [(t, Fine)], n, rest, e);
      schedule := [(t, Fine)] + rest;
    }
  }

  /** Exactly when a closed client stays out of the table: after CloseClient has collected, the table is
      certain to hold none of the client's sessions once CloseClient has returned if and only if no call of
      sessionFor for that client is still undecided (or yet to begin). */
  lemma ClientGoneExactly(s: State, t: nat, c: Choice)
    requires Inv(s) && Enabled(s, t, c) && s.threads[t].Sweep?
    ensures var n, clientId := Next(s, t, c), s.threads[t].clientId;
            (forall schedule, e :: Runs(n, schedule, e) && t < |e.threads| && e.threads[t].Done? ==> HoldsNone(e.table, clientId))
            <==> (forall u :: 0 <= u < |n.threads| ==> !Pending(n.threads[u], clientId))
  {
    hide Runs, Inv, OfClient, Visits, Collected;
    var n, clientId := Next(s, t, c), s.threads[t].clientId;
    InvStep(s, t, c);
    if u :| 0 <= u < |n.threads| && Pending(n.threads[u], clientId) {
      var first, m := Inserts(n, u);
      var later, e := Returns(m, t);
      RunsConcat(n, first, m, later, e);
      assert Runs(n, first + later, e) && !HoldsNone(e.table, clientId);
    } else {
      forall schedule, e | Runs(n, schedule, e)
        ensures HoldsNone(e.table, clientId)
      {
        RunsSettled(n, schedule, e, clientId);
      }
    }
  }

  // ----- One session per key

  function Outcomes(th: Thread): Option<Outcome> {
    match th
    case Closing(_, _, outcome) => Some(outcome)
    case Done(outcome) => Some(outcome)
    case _ => None
  }

  // Some CloseClient of the key's client has collected.
  ghost predicate SweptKey(s: State, key: Key) {
    exists t :: 0 <= t < |s.threads| && Outcomes(s.threads[t]).Some? && Outcomes(s.threads[t]).value.Swept?
                && OfClient(key, Outcomes(s.threads[t]).value.clientId)
  }

  ghost predicate Agreed(s: State) {
    forall t :: 0 <= t < |s.threads| && Outcomes(s.threads[t]).Some? && Outcomes(s.threads[t]).value.Got? ==>
      var got := Outcomes(s.threads[t]).value;
      SweptKey(s, got.key) || (got.key in s.table && s.table[got.key] == got.sid)
  }

  lemma SweptStays(s: State, t: nat, c: Choice, key: Key)
    requires Enabled(s, t, c) && SweptKey(s, key)
    ensures SweptKey(Next(s, t, c), key)
  {
    hide OfClient, Visits, Collected;
    var n := Next(s, t, c);
    var u :| 0 <= u < |s.threads| && Outcomes(s.threads[u]).Some? && Outcomes(s.threads[u]).value.Swept?
             && OfClient(key, Outcomes(s.threads[u]).value.clientId);
    assert Outcomes(n.threads[u]) == Outcomes(s.threads[u]);
  }

  // An entry of the table stays until its client is swept.
  lemma EntryStays(s: State, t: nat, c: Choice, key: Key)
    requires Enabled(s, t, c) && key in s.table
    ensures var n := Next(s, t, c);
            (key in n.table && n.table[key] == s.table[key]) || SweptKey(n, key)
  {
    hide OfClient, Visits, Collected;
    var n := Next(s, t, c);
    if s.threads[t].Sweep? && OfClient(key, s.threads[t].clientId) {
      assert Outcomes(n.threads[t]) == Some(Swept(s.threads[t].clientId));
    }
  }

  // Where a new result comes from.
  lemma ResultFrom(s: State, t: nat, c: Choice)
    requires Enabled(s, t, c)
    ensures var n := Next(s, t, c);
            var was, now := Outcomes(s.threads[t]), Outcomes(n.threads[t]);
            now.Some? && now.value.Got? && now != was ==> now.value.key in n.table && n.table[now.value.key] == now.value.sid
  {
  }

  lemma AgreedStep(s: State, t: nat, c: Choice)
    requires Agreed(s) && Enabled(s, t, c)
    ensures Agreed(Next(s, t, c))
  {
    hide SweptKey, Enabled, OfClient;
    var n := Next(s, t, c);
    ResultFrom(s, t, c);
    OthersStay(s, t, c);
    forall u | 0 <= u < |n.threads| && Outcomes(n.threads[u]).Some? && Outcomes(n.threads[u]).value.Got?
      ensures var got := Outcomes(n.threads[u]).value;
              SweptKey(n, got.key) || (got.key in n.table && n.table[got.key] == got.sid)
    {
      var got := Outcomes(n.threads[u]).value;
      if Outcomes(s.threads[u]) == Outcomes(n.threads[u]) {
        if SweptKey(s, got.key) {
          SweptStays(s, t, c, got.key);
        } else {
          EntryStays(s, t, c, got.key);
        }
      }
    }
  }

  lemma OthersStay(s: State, t: nat, c: Choice)
    requires Enabled(s, t, c)
    ensures t < |s.threads| == |Next(s, t, c).threads|
    ensures forall u :: 0 <= u < |s.threads| && u != t ==> Next(s, t, c).threads[u] == s.threads[u]
  {
  }

  lemma {:induction false} RunsAgreed(s: State, schedule: seq<(nat, Choice)>, e: State)
    requires Agreed(s) && Runs(s, schedule, e)
    ensures Agreed(e)
    decreases |schedule|
  {
    hide Agreed, Next, Enabled;
    if schedule != [] {
      AgreedStep(s, schedule[0].0, schedule[0].1);
      RunsAgreed(Next(s, schedule[0].0, schedule[0].1), schedule[1..], e);
    }
  }

  /** However many calls of sessionFor race for one key, all that return a session return the same one,
      the tabled one, as long as no CloseClient of that client has collected. */
  lemma OneSessionPerKey(s0: State, schedule: seq<(nat, Choice)>, s: State, t: nat, u: nat, key: Key, a: nat, b: nat)
    requires Started(s0) && Runs(s0, schedule, s) && t < |s.threads| && u < |s.threads|
    requires s.threads[t] == Done(Got(key, a)) && s.threads[u] == Done(Got(key, b)) && !SweptKey(s, key)
    ensures a == b && key in s.table && s.table[key] == a
  {
    hide Runs, SweptKey;
    assert Agreed(s0) by {
      forall r | 0 <= r < |s0.threads|
        ensures Outcomes(s0.threads[r]) == None
      {
        assert NotBegun(s0.threads[r]);
      }
    }
    RunsAgreed(s0, schedule, s);
    assert Outcomes(s.threads[t]) == Some(Got(key, a)) && Outcomes(s.threads[u]) == Some(Got(key, b));
  }
}
