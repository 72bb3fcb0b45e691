/** The socket service of the live-event pages: one connection, a registry of listener
    callbacks for six server events, acknowledged requests and fixed local replies.

    The connection library is abstracted to a socket value with a `connected` flag; the
    server's side shows up only as the broadcasts and acknowledgements it delivers, which
    are methods here. Callbacks are opaque ids, and every call of one is recorded in `calls`;
    every packet the service sends is recorded in `emitted`. */
module SocketModel {
  import opened Wrappers

  type CbId = nat

  /** A `callback` argument: absent (`undefined`, `null` or another falsy value), a function,
      or a truthy value that is not a function. */
  datatype Arg = NoArg | Fn(id: CbId) | NotFn

  /** How a call of the service ends: normally, or with a `TypeError` thrown to the caller. */
  datatype Outcome = Returned | ThrewTypeError

  /** The request bodies the helpers send. */
  datatype Payload =
    | RoomRef(eventId: string)
    | ChatPost(eventId: string, message: string)
    | QuestionPost(eventId: string, question: string)
    | AnswerPost(eventId: string, questionId: string, answer: string)

  /** What a callback is called with: a reply object `{success, message?}`, a server
      acknowledgement or a server broadcast (both opaque). */
  datatype Value =
    | Reply(success: bool, message: Option<string>)
    | ServerAck(response: nat)
    | Broadcast(data: nat)

  datatype Call = Call(cb: CbId, arg: Value)

  /** One packet sent on the socket; `ack` is the caller's callback when the packet carries
      an acknowledgement handler, `None` when it carries none. */
  datatype Emission = Emission(name: string, data: Payload, ack: Option<Arg>)

  datatype Socket = Socket(connected: bool, token: string)

  /** The whole observable state of the service. */
  datatype Snapshot = Snapshot(
    socket: Option<Socket>,
    callbacks: map<string, seq<CbId>>,
    emitted: seq<Emission>,
    calls: seq<Call>)

  /** The keys of `eventCallbacks`, in declaration order. */
  const EventNames: seq<string> :=
    ["newChatMessage", "chatHistory", "newQuestion", "questionAnswered", "qnaHistory", "socketError"]

  const KnownEvents: set<string> := set n | n in EventNames

  /** Names that a plain JavaScript object inherits from `Object.prototype`: looking one up
      in `eventCallbacks` yields a truthy value that is not an array. */
  const InheritedKeys: set<string> := {
    "constructor", "hasOwnProperty", "isPrototypeOf", "propertyIsEnumerable",
    "toLocaleString", "toString", "valueOf", "__proto__",
    "__defineGetter__", "__defineSetter__", "__lookupGetter__", "__lookupSetter__"
  }

  const NotConnectedToServer := Reply(false, Some("Not connected to server."))
  const LeaveOk := Reply(true, None)
  const LeaveNotConnected := Reply(false, Some("Not connected."))

  /** The registry always has exactly the six known names as keys. */
  predicate Registry(cbs: map<string, seq<CbId>>) {
    cbs.Keys == KnownEvents
  }

  function EmptyCallbacks(): (r: map<string, seq<CbId>>)
    ensures Registry(r)
    ensures forall n :: n in r ==> r[n] == []
  {
    map n | n in KnownEvents :: []
  }

  /** The service as constructed: no socket and six empty lists. */
  function Initial(): (r: Snapshot)
    ensures Registry(r.callbacks) && r.socket.None?
  {
    Snapshot(None, EmptyCallbacks(), [], [])
  }

  predicate IsConnected(st: Snapshot) {
    st.socket.Some? && st.socket.value.connected
  }

  /** `list.filter(cb => cb !== callback)`. */
  function Without(l: seq<CbId>, callback: CbId): seq<CbId> {
    if l == [] then [] else (if l[0] == callback then [] else [l[0]]) + Without(l[1..], callback)
  }

  /** The filter removes every copy of the callback and keeps every other entry. */
  lemma {:induction false} WithoutFilters(l: seq<CbId>, callback: CbId)
    ensures callback !in Without(l, callback)
    ensures forall x :: x in Without(l, callback) <==> x in l && x != callback
    ensures |Without(l, callback)| == |l| - multiset(l)[callback]
  {
    if l != [] {
      WithoutFilters(l[1..], callback);
      assert l == [l[0]] + l[1..];
    }
  }

  /** The filtered list keeps the others in their order: filtering distributes over `+`. */
  lemma {:induction false} WithoutConcat(a: seq<CbId>, b: seq<CbId>, callback: CbId)
    ensures Without(a + b, callback) == Without(a, callback) + Without(b, callback)
  {
    if a == [] {
      assert a + b == b;
    } else {
      var h := if a[0] == callback then [] else [a[0]];
      assert (a + b)[0] == a[0] && (a + b)[1..] == a[1..] + b;
      assert Without(a + b, callback) == h + Without(a[1..] + b, callback);
      WithoutConcat(a[1..], b, callback);
      assert Without(a, callback) == h + Without(a[1..], callback);
    }
  }

  /** Filtering a callback that is not registered leaves the list as it is. */
  lemma {:induction false} WithoutAbsent(l: seq<CbId>, callback: CbId)
    requires callback !in l
    ensures Without(l, callback) == l
  {
    if l != [] {
      assert l[0] != callback;
      WithoutAbsent(l[1..], callback);
    }
  }

  /** The calls `forEach` makes: one per registered callback, in registration order, all with
      the same data. */
  function Invocations(l: seq<CbId>, data: nat): (r: seq<Call>)
    ensures |r| == |l|
    ensures forall i :: 0 <= i < |l| ==> r[i] == Call(l[i], Broadcast(data))
  {
    if l == [] then [] else Invocations(l[..|l| - 1], data) + [Call(l[|l| - 1], Broadcast(data))]
  }

  /** The callbacks among `l` that throw, in the order they ran; each is caught and logged. */
  function Failing(l: seq<CbId>, throwing: set<CbId>): (r: seq<CbId>)
    ensures |r| <= |l|
    ensures forall x :: x in r <==> x in l && x in throwing
  {
    if l == [] then []
    else Failing(l[..|l| - 1], throwing) + (if l[|l| - 1] in throwing then [l[|l| - 1]] else [])
  }

  // ---- The operations, as functions of the state ----

  /** `connect()`: nothing when a connected socket exists or when the store holds no token;
      otherwise a new, not yet connected socket authenticated with the token. */
  function ConnectSpec(st: Snapshot, token: Option<string>): (r: Snapshot)
    ensures IsConnected(st) ==> r == st
    ensures (token.None? || token == Some("")) ==> r == st
    ensures !IsConnected(st) && token.Some? && token.value != "" ==>
              r == st.(socket := Some(Socket(false, token.value)))
  {
    if IsConnected(st) then st
    else if token.None? || token.value == "" then st
    else st.(socket := Some(Socket(false, token.value)))
  }

  /** `disconnect()`: with a socket, no socket and six empty lists; without one, nothing. */
  function DisconnectSpec(st: Snapshot): (r: Snapshot)
    ensures st.socket.None? ==> r == st
    ensures st.socket.Some? ==> r.socket.None? && Registry(r.callbacks)
    ensures st.socket.Some? ==> forall n :: n in r.callbacks ==> r.callbacks[n] == []
    ensures r.emitted == st.emitted && r.calls == st.calls
  {
    if st.socket.Some? then st.(socket := None, callbacks := EmptyCallbacks()) else st
  }

  /** `emitWithAck(name, data, callback)`. Connected: one packet whose acknowledgement is
      delivered later. Not connected: nothing sent, and a function callback is called once
      with the fixed reply. */
  function EmitWithAckSpec(st: Snapshot, name: string, data: Payload, callback: Arg): (r: Snapshot)
    ensures r.socket == st.socket && r.callbacks == st.callbacks
    ensures IsConnected(st) ==> r.calls == st.calls && r.emitted == st.emitted + [Emission(name, data, Some(callback))]
    ensures !IsConnected(st) ==> r.emitted == st.emitted
    ensures !IsConnected(st) && callback.Fn? ==> r.calls == st.calls + [Call(callback.id, NotConnectedToServer)]
    ensures !IsConnected(st) && !callback.Fn? ==> r == st
  {
    if IsConnected(st) then st.(emitted := st.emitted + [Emission(name, data, Some(callback))])
    else if callback.Fn? then st.(calls := st.calls + [Call(callback.id, NotConnectedToServer)])
    else st
  }

  /** The server acknowledges packet `i`: the handler passes the response on unchanged to a
      function callback and ignores anything else. */
  function DeliverAckSpec(st: Snapshot, i: nat, response: nat): (r: Snapshot)
    requires i < |st.emitted|
    ensures r.socket == st.socket && r.callbacks == st.callbacks && r.emitted == st.emitted
    ensures st.emitted[i].ack.Some? && st.emitted[i].ack.value.Fn? ==>
              r.calls == st.calls + [Call(st.emitted[i].ack.value.id, ServerAck(response))]
    ensures !(st.emitted[i].ack.Some? && st.emitted[i].ack.value.Fn?) ==> r == st
  {
    match st.emitted[i].ack
    case Some(Fn(id)) => st.(calls := st.calls + [Call(id, ServerAck(response))])
    case _ => st
  }

  /** `leaveEventRoom` / `leaveEventQnaRoom`: a packet without acknowledgement when connected,
      then a local reply to any truthy callback without waiting for the server. */
  function LeaveSpec(st: Snapshot, name: string, eventId: string, callback: Arg): (r: Snapshot)
    ensures r.socket == st.socket && r.callbacks == st.callbacks
    ensures IsConnected(st) ==> r.emitted == st.emitted + [Emission(name, RoomRef(eventId), None)]
    ensures !IsConnected(st) ==> r.emitted == st.emitted
    ensures callback.Fn? ==>
              r.calls == st.calls + [Call(callback.id, if IsConnected(st) then LeaveOk else LeaveNotConnected)]
    ensures !callback.Fn? ==> r.calls == st.calls
  {
    var sent := if IsConnected(st) then st.(emitted := st.emitted + [Emission(name, RoomRef(eventId), None)]) else st;
    var reply := if IsConnected(st) then LeaveOk else LeaveNotConnected;
    if callback.Fn? then sent.(calls := sent.calls + [Call(callback.id, reply)]) else sent
  }

  /** A truthy callback that is not a function is still called, which throws. */
  function LeaveOutcome(callback: Arg): Outcome {
    if callback.NotFn? then ThrewTypeError else Returned
  }

  /** `on(name, callback)`: a known name and a function append it at the end of that list;
      anything else leaves every list as it is. */
  function OnSpec(st: Snapshot, name: string, callback: Arg): (r: Snapshot)
    requires Registry(st.callbacks)
    ensures Registry(r.callbacks)
    ensures r.socket == st.socket && r.emitted == st.emitted && r.calls == st.calls
    ensures name in KnownEvents && callback.Fn? ==> r.callbacks[name] == st.callbacks[name] + [callback.id]
    ensures forall n :: n in KnownEvents && (n != name || !callback.Fn?) ==> r.callbacks[n] == st.callbacks[n]
  {
    if name in st.callbacks && callback.Fn? then
      st.(callbacks := st.callbacks[name := st.callbacks[name] + [callback.id]])
    else st
  }

  /** `on` throws when the name is inherited from `Object.prototype` and the callback is a
      function: the guard passes and `push` is not a function of the inherited value. */
  function OnOutcome(st: Snapshot, name: string, callback: Arg): (o: Outcome)
    ensures o == ThrewTypeError <==> name !in st.callbacks && name in InheritedKeys && callback.Fn?
  {
    if name !in st.callbacks && name in InheritedKeys && callback.Fn? then ThrewTypeError else Returned
  }

  /** `off(name, callback)`: every occurrence of the callback leaves that list, the others
      stay in order and no other name changes. An unknown name is a no-op. */
  function OffSpec(st: Snapshot, name: string, callback: Arg): (r: Snapshot)
    requires Registry(st.callbacks)
    ensures Registry(r.callbacks)
    ensures r.socket == st.socket && r.emitted == st.emitted && r.calls == st.calls
    ensures name in KnownEvents && callback.Fn? ==>
              r.callbacks[name] == Without(st.callbacks[name], callback.id)
    ensures forall n :: n in KnownEvents && (n != name || !callback.Fn?) ==> r.callbacks[n] == st.callbacks[n]
  {
    if name in st.callbacks && callback.Fn? then
      st.(callbacks := st.callbacks[name := Without(st.callbacks[name], callback.id)])
    else st
  }

  /** `off` and `triggerEventCallbacks` both look the name up and call a list method on what
      they find (`filter`, `forEach`), so, like `on`, each throws on an inherited name. */
  function LookupOutcome(st: Snapshot, name: string): (o: Outcome)
    ensures o == ThrewTypeError <==> name !in st.callbacks && name in InheritedKeys
  {
    if name !in st.callbacks && name in InheritedKeys then ThrewTypeError else Returned
  }

  /** `triggerEventCallbacks(name, data)`: every callback registered under the name runs once,
      in order, with the data; a throwing one is caught and the rest still run. */
  function TriggerSpec(st: Snapshot, name: string, data: nat): (r: Snapshot)
    ensures r.socket == st.socket && r.callbacks == st.callbacks && r.emitted == st.emitted
    ensures name !in st.callbacks ==> r == st
    ensures name in st.callbacks ==> r.calls == st.calls + Invocations(st.callbacks[name], data)
  {
    if name in st.callbacks then st.(calls := st.calls + Invocations(st.callbacks[name], data)) else st
  }

  // ---- Properties relating several operations ----

  /** `off` undoes `on` for a callback that was not yet registered under that name. */
  lemma OffUndoesOn(st: Snapshot, name: string, id: CbId)
    requires Registry(st.callbacks) && name in KnownEvents && id !in st.callbacks[name]
    ensures OffSpec(OnSpec(st, name, Fn(id)), name, Fn(id)) == st
  {
    var l := st.callbacks[name];
    var on := st.(callbacks := st.callbacks[name := l + [id]]);
    assert OnSpec(st, name, Fn(id)) == on;
    WithoutAppended(l, id);
    assert OffSpec(on, name, Fn(id)) == st.(callbacks := st.callbacks[name := l]);
    assert st.callbacks[name := l] == st.callbacks;
  }

  /** Removing a callback just appended to a list that did not hold it gives the list back. */
  lemma WithoutAppended(l: seq<CbId>, id: CbId)
    requires id !in l
    ensures Without(l + [id], id) == l
  {
    WithoutConcat(l, [id], id);
    WithoutAbsent(l, id);
    assert Without([id], id) == [];
  }

  /** Registering the same function twice and removing it once removes both registrations. */
  lemma OffRemovesEveryCopy(st: Snapshot, name: string, id: CbId)
    requires Registry(st.callbacks) && name in KnownEvents
    ensures var twice := OnSpec(OnSpec(st, name, Fn(id)), name, Fn(id));
            OffSpec(twice, name, Fn(id)).callbacks[name] == Without(st.callbacks[name], id)
  {
    var l := st.callbacks[name];
    WithoutConcat(l + [id], [id], id);
    WithoutConcat(l, [id], id);
  }

  /** A broadcast after registering reaches each registered function once, in order. */
  lemma TriggerAfterOn(st: Snapshot, name: string, id: CbId, data: nat)
    requires Registry(st.callbacks) && name in KnownEvents
    ensures var r := TriggerSpec(OnSpec(st, name, Fn(id)), name, data);
            r.calls == st.calls + Invocations(st.callbacks[name], data) + [Call(id, Broadcast(data))]
  {
    var l := st.callbacks[name];
    assert (l + [id])[..|l|] == l;
  }

  /** After `disconnect`, a broadcast reaches nobody. */
  lemma DisconnectSilences(st: Snapshot, name: string, data: nat)
    requires Registry(st.callbacks) && st.socket.Some?
    ensures TriggerSpec(DisconnectSpec(st), name, data).calls == st.calls
  {
    var r := DisconnectSpec(st);
    if name in r.callbacks {
      assert r.callbacks[name] == [];
    }
  }

  /** `disconnect` twice is `disconnect` once. */
  lemma DisconnectIdempotent(st: Snapshot)
    ensures DisconnectSpec(DisconnectSpec(st)) == DisconnectSpec(st)
  {
  }

  /** A reconnect after `disconnect` starts from empty lists: registrations do not survive. */
  lemma ReconnectStartsEmpty(st: Snapshot, token: string)
    requires st.socket.Some? && token != ""
    ensures var r := ConnectSpec(DisconnectSpec(st), Some(token));
            r.socket == Some(Socket(false, token)) && r.callbacks == EmptyCallbacks()
  {
  }

  /** The class that holds the state; each method's effect is the function of the same name. */
  class SocketService {
    var socket: Option<Socket>
    var eventCallbacks: map<string, seq<CbId>>
    var emitted: seq<Emission>
    var calls: seq<Call>

    function State(): Snapshot
      reads this
    {
      Snapshot(socket, eventCallbacks, emitted, calls)
    }

    predicate Valid()
      reads this
    {
      Registry(eventCallbacks)
    }

    constructor ()
      ensures Valid() && State() == Initial()
    {
      socket := None;
      eventCallbacks := EmptyCallbacks();
      emitted := [];
      calls := [];
    }

    /** `connect()`; `token` is the one the auth store holds. */
    method Connect(token: Option<string>)
      requires Valid()
      modifies this
      ensures Valid() && State() == ConnectSpec(old(State()), token)
    {
      if socket.Some? && socket.value.connected {
        return;
      }
      if token.None? || token.value == "" {
        return;
      }
      socket := Some(Socket(false, token.value));
    }

    /** The connection library reports that the socket connected or lost its connection. */
    method SetConnected(b: bool)
      requires Valid() && socket.Some?
      modifies this
      ensures Valid() && State() == old(State()).(socket := Some(old(socket.value).(connected := b)))
    {
      socket := Some(socket.value.(connected := b));
    }

    /** `disconnect()`: the loop over `Object.keys(eventCallbacks)` empties each list. */
    method Disconnect()
      requires Valid()
      modifies this
      ensures Valid() && State() == DisconnectSpec(old(State()))
    {
      if socket.Some? {
        socket := None;
        var i := 0;
        while i < |EventNames|
          invariant 0 <= i <= |EventNames|
          invariant Registry(eventCallbacks)
          invariant socket.None? && emitted == old(emitted) && calls == old(calls)
          invariant forall k :: 0 <= k < i ==> eventCallbacks[EventNames[k]] == []
        {
          eventCallbacks := eventCallbacks[EventNames[i] := []];
          i := i + 1;
        }
        assert eventCallbacks == EmptyCallbacks();
      }
    }

    method EmitWithAck(name: string, data: Payload, callback: Arg)
      requires Valid()
      modifies this
      ensures Valid() && State() == EmitWithAckSpec(old(State()), name, data, callback)
    {
      if socket.Some? && socket.value.connected {
        emitted := emitted + [Emission(name, data, Some(callback))];
      } else if callback.Fn? {
        calls := calls + [Call(callback.id, NotConnectedToServer)];
      }
    }

    /** The acknowledgement of packet `i` arrives with `response`. */
    method DeliverAck(i: nat, response: nat)
      requires Valid() && i < |emitted|
      modifies this
      ensures Valid() && State() == DeliverAckSpec(old(State()), i, response)
    {
      if emitted[i].ack.Some? && emitted[i].ack.value.Fn? {
        calls := calls + [Call(emitted[i].ack.value.id, ServerAck(response))];
      }
    }

    method JoinEventRoom(eventId: string, callback: Arg)
      requires Valid()
      modifies this
      ensures Valid() && State() == EmitWithAckSpec(old(State()), "joinEventRoom", RoomRef(eventId), callback)
    {
      EmitWithAck("joinEventRoom", RoomRef(eventId), callback);
    }

    method SendChatMessage(eventId: string, message: string, callback: Arg)
      requires Valid()
      modifies this
      ensures Valid() && State() == EmitWithAckSpec(old(State()), "sendChatMessage", ChatPost(eventId, message), callback)
    {
      EmitWithAck("sendChatMessage", ChatPost(eventId, message), callback);
    }

    method JoinEventQnaRoom(eventId: string, callback: Arg)
      requires Valid()
      modifies this
      ensures Valid() && State() == EmitWithAckSpec(old(State()), "joinEventQnaRoom", RoomRef(eventId), callback)
    {
      EmitWithAck("joinEventQnaRoom", RoomRef(eventId), callback);
    }

    method SubmitQuestion(eventId: string, question: string, callback: Arg)
      requires Valid()
      modifies this
      ensures Valid() && State() == EmitWithAckSpec(old(State()), "submitQuestion", QuestionPost(eventId, question), callback)
    {
      EmitWithAck("submitQuestion", QuestionPost(eventId, question), callback);
    }

    method AnswerQuestion(eventId: string, questionId: string, answer: string, callback: Arg)
      requires Valid()
      modifies this
      ensures Valid()
      ensures State() == EmitWithAckSpec(old(State()), "answerQuestion", AnswerPost(eventId, questionId, answer), callback)
    {
      EmitWithAck("answerQuestion", AnswerPost(eventId, questionId, answer), callback);
    }

    method Leave(name: string, eventId: string, callback: Arg) returns (outcome: Outcome)
      requires Valid()
      modifies this
      ensures Valid() && State() == LeaveSpec(old(State()), name, eventId, callback)
      ensures outcome == LeaveOutcome(callback)
    {
      var reply := LeaveNotConnected;
      if socket.Some? && socket.value.connected {
        emitted := emitted + [Emission(name, RoomRef(eventId), None)];
        reply := LeaveOk;
      }
      outcome := Returned;
      if callback.Fn? {
        calls := calls + [Call(callback.id, reply)];
      } else if callback.NotFn? {
        outcome := ThrewTypeError;
      }
    }

    method LeaveEventRoom(eventId: string, callback: Arg) returns (outcome: Outcome)
      requires Valid()
      modifies this
      ensures Valid() && State() == LeaveSpec(old(State()), "leaveEventRoom", eventId, callback)
      ensures outcome == LeaveOutcome(callback)
    {
      outcome := Leave("leaveEventRoom", eventId, callback);
    }

    method LeaveEventQnaRoom(eventId: string, callback: Arg) returns (outcome: Outcome)
      requires Valid()
      modifies this
      ensures Valid() && State() == LeaveSpec(old(State()), "leaveEventQnaRoom", eventId, callback)
      ensures outcome == LeaveOutcome(callback)
    {
      outcome := Leave("leaveEventQnaRoom", eventId, callback);
    }

    method On(name: string, callback: Arg) returns (outcome: Outcome)
      requires Valid()
      modifies this
      ensures Valid() && State() == OnSpec(old(State()), name, callback)
      ensures outcome == OnOutcome(old(State()), name, callback)
    {
      outcome := Returned;
      if name in eventCallbacks && callback.Fn? {
        eventCallbacks := eventCallbacks[name := eventCallbacks[name] + [callback.id]];
      } else if name in InheritedKeys && callback.Fn? {
        outcome := ThrewTypeError;
      }
    }

    method Off(name: string, callback: Arg) returns (outcome: Outcome)
      requires Valid()
      modifies this
      ensures Valid() && State() == OffSpec(old(State()), name, callback)
      ensures outcome == LookupOutcome(old(State()), name)
    {
      outcome := Returned;
      if name in eventCallbacks {
        if callback.Fn? {
          eventCallbacks := eventCallbacks[name := Without(eventCallbacks[name], callback.id)];
        }
      } else if name in InheritedKeys {
        outcome := ThrewTypeError;
      }
    }

    /** `triggerEventCallbacks(name, data)`; `throwing` are the callbacks that throw when run,
      and `errors` the ones whose error was caught and logged, in order. */
    method Trigger(name: string, data: nat, throwing: set<CbId>) returns (outcome: Outcome, errors: seq<CbId>)
      requires Valid()
      modifies this
      ensures Valid() && State() == TriggerSpec(old(State()), name, data)
      ensures outcome == LookupOutcome(old(State()), name)
      ensures name in old(eventCallbacks) ==> errors == Failing(old(eventCallbacks)[name], throwing)
      ensures name !in old(eventCallbacks) ==> errors == []
    {
      outcome, errors := Returned, [];
      if name in eventCallbacks {
        var list := eventCallbacks[name];
        var log := calls;
        var i := 0;
        while i < |list|
          invariant 0 <= i <= |list|
          invariant log == old(calls) + Invocations(list[..i], data)
          invariant errors == Failing(list[..i], throwing)
        {
          assert list[..i + 1][..i] == list[..i];
          log := log + [Call(list[i], Broadcast(data))];
          if list[i] in throwing {
            errors := errors + [list[i]];
          }
          i := i + 1;
        }
        assert list[..|list|] == list;
        calls := log;
      } else if name in InheritedKeys {
        outcome := ThrewTypeError;
      }
    }

    /** The socket delivers a server broadcast; only the six application events are
        forwarded to the registry. */
    method Receive(name: string, data: nat, throwing: set<CbId>) returns (errors: seq<CbId>)
      requires Valid() && socket.Some?
      modifies this
      ensures Valid()
      ensures name in KnownEvents ==> State() == TriggerSpec(old(State()), name, data)
      ensures name in KnownEvents ==> name in old(eventCallbacks) &&
                                      errors == Failing(old(eventCallbacks)[name], throwing)
      ensures name !in KnownEvents ==> State() == old(State()) && errors == []
    {
      errors := [];
      if name in KnownEvents {
        var outcome;
        outcome, errors := Trigger(name, data, throwing);
      }
    }
  }
}
