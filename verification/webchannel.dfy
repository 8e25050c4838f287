/**
 * The client side of static/qwebchannel.js: a channel numbers the requests it
 * sends and keeps their reply callbacks by number, dispatches incoming
 * messages by type, and holds the published objects with their properties and
 * signal connections. The transport is the `sent` log; JavaScript callbacks
 * are named by datatypes, and what a user callback does is recorded in the
 * `calls` log. Messages arrive already parsed.
 */
module WebChannel {
  import opened Wrappers

  // ---------------------------------------------------------------------------
  // Protocol

  const INIT := 1
  const SIGNAL := 2
  const PROPERTY_UPDATE := 3
  const INVOKE_METHOD := 4
  const CONNECT_TO_SIGNAL := 5
  const DISCONNECT_FROM_SIGNAL := 6
  const SET_PROPERTY := 7
  const RESPONSE := 8

  /** The JavaScript values the model passes around; `==` on them is `===`. */
  datatype Value = Undefined | Null | Bool(b: bool) | Num(n: int) | Str(s: string)

  /** A request the channel sends; its `type` field is `Kind`. */
  datatype Request =
    | Init
    | InvokeMethod(obj: string, methodName: string, args: seq<Value>)
    | ConnectToSignal(obj: string, signal: string)
    | DisconnectFromSignal(obj: string, signal: string)
    | SetProperty(obj: string, property: string, value: Value)

  function Kind(req: Request): (r: int)
    ensures r in {INIT, INVOKE_METHOD, CONNECT_TO_SIGNAL, DISCONNECT_FROM_SIGNAL, SET_PROPERTY}
    ensures r == CONNECT_TO_SIGNAL <==> req.ConnectToSignal?
    ensures r == DISCONNECT_FROM_SIGNAL <==> req.DisconnectFromSignal?
  {
    match req
    case Init => INIT
    case InvokeMethod(_, _, _) => INVOKE_METHOD
    case ConnectToSignal(_, _) => CONNECT_TO_SIGNAL
    case DisconnectFromSignal(_, _) => DISCONNECT_FROM_SIGNAL
    case SetProperty(_, _, _) => SET_PROPERTY
  }

  /** A request as it went over the transport, with the `id` the channel gave it. */
  datatype Sent = Sent(id: nat, request: Request)

  /** A reply callback: a function of the page, identified by a handle; the empty
      `function() {}`; or the callback of a method call, which settles its Promise. */
  datatype Callback = UserFn(handle: nat) | Ignore | MethodReply

  /** A signal connection: a function of the page, or the connection a property makes to
      its notify signal, which stores the first argument as the property's value. */
  datatype Listener = Handler(handle: nat) | Backing(property: string)

  /** One invocation of a page function with its arguments. */
  datatype Call = Call(handle: nat, args: seq<Value>)

  /** A published object: its signals, the connection list of each signal that has one
      (`__objectSignals__`), and the backing value of each property. */
  datatype QObject = QObject(signals: set<string>, connections: map<string, seq<Listener>>, props: map<string, Value>)

  datatype Channel = Channel(
    execId: nat,
    execCallbacks: map<nat, Callback>,
    sent: seq<Sent>,
    objects: map<string, QObject>,
    calls: seq<Call>,
    errors: nat)  // lines written to console.error

  /** A property update for one object: signals to emit and property values to store, each in
      the order `for ... in` visits them. */
  datatype Update = Update(obj: string, signals: seq<(string, seq<Value>)>, properties: seq<(string, Value)>)

  /** An incoming message: `type` and the fields each type reads. */
  datatype Message = Message(kind: int, obj: string, signal: string, args: seq<Value>, id: int, data: Value, updates: seq<Update>)

  /** Every callback waits under a number already handed out, and the numbers on the wire
      are the ones handed out, in increasing order. */
  predicate WellFormed(ch: Channel) {
    && (forall id :: id in ch.execCallbacks ==> id < ch.execId)
    && (forall i :: 0 <= i < |ch.sent| ==> ch.sent[i].id < ch.execId)
    && (forall i, j :: 0 <= i < j < |ch.sent| ==> ch.sent[i].id < ch.sent[j].id)
  }

  /** A channel right after construction, before the init request. */
  function Fresh(objects: map<string, QObject>): (r: Channel)
    ensures WellFormed(r)
  {
    Channel(0, map[], [], objects, [], 0)
  }

  // ---------------------------------------------------------------------------
  // QWebChannel.send / handleResponse / onmessage

  /** `send(data, callback)`; `cb` is None when `callback` is not a function. */
  function Send(ch: Channel, req: Request, cb: Option<Callback>): (r: Channel)
    ensures cb.None? ==> r == ch.(errors := ch.errors + 1)
    ensures cb.Some? ==>
              && r.execId == ch.execId + 1
              && r.sent == ch.sent + [Sent(ch.execId, req)]
              && r.execCallbacks.Keys == ch.execCallbacks.Keys + {ch.execId}
              && r.execCallbacks[ch.execId] == cb.value
              && (forall id :: id in ch.execCallbacks && id != ch.execId ==> r.execCallbacks[id] == ch.execCallbacks[id])
              && r.objects == ch.objects && r.calls == ch.calls && r.errors == ch.errors
    ensures WellFormed(ch) ==> WellFormed(r)
    ensures WellFormed(ch) && cb.Some? ==> ch.execId !in ch.execCallbacks
  {
    match cb
    case None => ch.(errors := ch.errors + 1)
    case Some(f) =>
      ch.(execId := ch.execId + 1,
          execCallbacks := ch.execCallbacks[ch.execId := f],
          sent := ch.sent + [Sent(ch.execId, req)])
  }

  /** Calling a reply callback with the response data. */
  function Reply(ch: Channel, cb: Callback, data: Value): (r: Channel)
    ensures cb.UserFn? ==> r == ch.(calls := ch.calls + [Call(cb.handle, [data])])
    ensures !cb.UserFn? ==> r == ch
  {
    match cb
    case UserFn(h) => ch.(calls := ch.calls + [Call(h, [data])])
    case _ => ch
  }

  /** `handleResponse`: the callback waiting under `id` is called once and forgotten. */
  function HandleResponse(ch: Channel, id: int, data: Value): (r: Channel)
    ensures id < 0 || id !in ch.execCallbacks ==> r == ch
    ensures id >= 0 && id in ch.execCallbacks ==>
              && r == Reply(ch, ch.execCallbacks[id], data).(execCallbacks := ch.execCallbacks - {id})
              && id !in r.execCallbacks
    ensures WellFormed(ch) ==> WellFormed(r)
  {
    if id >= 0 && id in ch.execCallbacks then
      var r := Reply(ch, ch.execCallbacks[id], data);
      r.(execCallbacks := r.execCallbacks - {id})
    else ch
  }

  /** A second response with the same id does nothing: each callback runs at most once. */
  lemma ResponseHandledOnce(ch: Channel, id: int, first: Value, second: Value)
    ensures var once := HandleResponse(ch, id, first);
      HandleResponse(once, id, second) == once
  {
  }

  /** The `onmessage` handler: type 2 goes to `handleSignal`, 8 to `handleResponse`, 3 to
      `handlePropertyUpdate`, and any other type is reported and changes nothing else. */
  function OnMessage(ch: Channel, m: Message): (r: Channel)
    ensures m.kind !in {SIGNAL, RESPONSE, PROPERTY_UPDATE} ==> r == ch.(errors := ch.errors + 1)
    ensures m.kind == RESPONSE ==> r == HandleResponse(ch, m.id, m.data)
    ensures m.kind == SIGNAL ==> r == HandleSignal(ch, m.obj, m.signal, m.args)
    ensures m.kind == PROPERTY_UPDATE ==> r == HandlePropertyUpdate(ch, m.updates)
    ensures WellFormed(ch) ==> WellFormed(r)
  {
    if m.kind == SIGNAL then HandleSignal(ch, m.obj, m.signal, m.args)
    else if m.kind == RESPONSE then HandleResponse(ch, m.id, m.data)
    else if m.kind == PROPERTY_UPDATE then HandlePropertyUpdate(ch, m.updates)
    else ch.(errors := ch.errors + 1)
  }

  /** Messages the server sends never carry the request types, so none of them reaches a
      handler. */
  lemma RequestKindsRejected(ch: Channel, m: Message)
    requires m.kind in {INIT, INVOKE_METHOD, CONNECT_TO_SIGNAL, DISCONNECT_FROM_SIGNAL, SET_PROPERTY}
    ensures OnMessage(ch, m).sent == ch.sent && OnMessage(ch, m).errors == ch.errors + 1
  {
  }

  // ---------------------------------------------------------------------------
  // QObject.createMethod

  /** The arguments a method call sends: exactly `count` of them, the given ones first and
      `undefined` for the missing ones. */
  function NormalizeArgs(args: seq<Value>, count: nat): (r: seq<Value>)
    ensures |r| == count
    ensures forall i :: 0 <= i < count && i < |args| ==> r[i] == args[i]
    ensures forall i :: |args| <= i < count ==> r[i] == Undefined
  {
    seq(count, i requires 0 <= i < count => if i < |args| then args[i] else Undefined)
  }

  /** The loop of `createMethod` that builds `newArgs`. */
  method NormalizeLoop(args: seq<Value>, count: nat) returns (newArgs: seq<Value>)
    ensures newArgs == NormalizeArgs(args, count)
  {
    newArgs := [];
    var i := 0;
    while i < count
      invariant 0 <= i <= count
      invariant newArgs == NormalizeArgs(args, i)
    {
      if i < |args| {
        newArgs := newArgs + [args[i]];
      } else {
        newArgs := newArgs + [Undefined];
      }
      i := i + 1;
    }
  }

  /** Normalising is idempotent, and arguments past the declared ones are dropped. */
  lemma NormalizeIdempotent(args: seq<Value>, extra: seq<Value>, count: nat)
    ensures NormalizeArgs(NormalizeArgs(args, count), count) == NormalizeArgs(args, count)
    ensures |args| >= count ==> NormalizeArgs(args + extra, count) == args[..count]
  {
    if |args| >= count {
      assert NormalizeArgs(args + extra, count) == args[..count] by {
        forall i | 0 <= i < count
          ensures NormalizeArgs(args + extra, count)[i] == args[..count][i]
        {
          assert (args + extra)[i] == args[i];
        }
      }
    }
  }

  /** Calling a method: one InvokeMethod request with the normalised arguments. */
  function CallMethod(ch: Channel, obj: string, methodName: string, paramCount: nat, args: seq<Value>): (r: Channel)
    ensures r.execId == ch.execId + 1
    ensures r.sent == ch.sent + [Sent(ch.execId, InvokeMethod(obj, methodName, NormalizeArgs(args, paramCount)))]
    ensures |r.sent[|r.sent| - 1].request.args| == paramCount
    ensures WellFormed(ch) ==> WellFormed(r)
  {
    Send(ch, InvokeMethod(obj, methodName, NormalizeArgs(args, paramCount)), Some(MethodReply))
  }

  // ---------------------------------------------------------------------------
  // QObject.createProperty: the setter

  /** The same object with one property's backing value replaced. */
  function WithProp(o: QObject, name: string, v: Value): (r: QObject)
    ensures r.signals == o.signals && r.connections == o.connections
    ensures r.props == o.props[name := v]
  {
    o.(props := o.props[name := v])
  }

  /** Assigning `value` to property `name` of `obj`. A name that is not a property of the
      object is a plain JavaScript field, outside the model. */
  function SetProp(ch: Channel, obj: string, name: string, v: Value): (r: Channel)
    requires obj in ch.objects
    ensures r.objects.Keys == ch.objects.Keys
    ensures forall k :: k in r.objects ==> r.objects[k].signals == ch.objects[k].signals
    ensures name !in ch.objects[obj].props || ch.objects[obj].props[name] == v ==> r == ch
    ensures name in ch.objects[obj].props && ch.objects[obj].props[name] != v ==>
              && r.objects == ch.objects[obj := WithProp(ch.objects[obj], name, v)]
              && r.sent == ch.sent + [Sent(ch.execId, SetProperty(obj, name, v))]
              && r.execId == ch.execId + 1
    ensures WellFormed(ch) ==> WellFormed(r)
  {
    var o := ch.objects[obj];
    if name !in o.props || o.props[name] == v then ch
    else
      Send(ch.(objects := ch.objects[obj := WithProp(o, name, v)]), SetProperty(obj, name, v), Some(Ignore))
  }

  /** Writing a property twice with the same value sends one SetProperty. */
  lemma SetPropTwiceIsOnce(ch: Channel, obj: string, name: string, v: Value)
    requires obj in ch.objects
    ensures var once := SetProp(ch, obj, name, v);
      SetProp(once, obj, name, v) == once
  {
  }

  // ---------------------------------------------------------------------------
  // QObject.createSignal: connect, disconnect, emitted

  /** The same object with one signal's connection list replaced. */
  function WithConnections(o: QObject, signal: string, ls: seq<Listener>): (r: QObject)
    ensures r.signals == o.signals && r.props == o.props
    ensures r.connections == o.connections[signal := ls]
  {
    o.(connections := o.connections[signal := ls])
  }

  /** `connect` as the file has it: ConnectToSignal is sent when the signal has no connection
      list yet, and a list emptied by `disconnect` still counts as one. `cb` is None when the
      callback is not a function. */
  function ConnectAsWritten(ch: Channel, obj: string, signal: string, cb: Option<Listener>): (r: Channel)
    requires obj in ch.objects
    ensures r.objects.Keys == ch.objects.Keys
    ensures cb.None? ==> r == ch.(errors := ch.errors + 1)
    ensures cb.Some? && signal in ch.objects[obj].connections ==> r.sent == ch.sent
    ensures cb.Some? && signal !in ch.objects[obj].connections ==>
              r.sent == ch.sent + [Sent(ch.execId, ConnectToSignal(obj, signal))]
    ensures cb.Some? ==>
              && signal in r.objects[obj].connections
              && r.objects[obj].connections[signal] ==
                 (if signal in ch.objects[obj].connections then ch.objects[obj].connections[signal] else []) + [cb.value]
    ensures WellFormed(ch) ==> WellFormed(r)
  {
    match cb
    case None => ch.(errors := ch.errors + 1)
    case Some(f) =>
      var o := ch.objects[obj];
      if signal in o.connections then
        ch.(objects := ch.objects[obj := WithConnections(o, signal, o.connections[signal] + [f])])
      else
        Send(ch.(objects := ch.objects[obj := WithConnections(o, signal, [f])]), ConnectToSignal(obj, signal), Some(Ignore))
  }

  /** `connect` with the subscription counted by listeners: ConnectToSignal is sent whenever
      the signal has no listener, including after `disconnect` emptied its list. */
  function Connect(ch: Channel, obj: string, signal: string, cb: Option<Listener>): (r: Channel)
    requires obj in ch.objects
    ensures r.objects.Keys == ch.objects.Keys
    ensures cb.None? ==> r == ch.(errors := ch.errors + 1)
    ensures cb.Some? && HasListeners(ch.objects[obj], signal) ==> r.sent == ch.sent
    ensures cb.Some? && !HasListeners(ch.objects[obj], signal) ==>
              r.sent == ch.sent + [Sent(ch.execId, ConnectToSignal(obj, signal))]
    ensures cb.Some? ==>
              && signal in r.objects[obj].connections
              && r.objects[obj].connections[signal] ==
                 (if signal in ch.objects[obj].connections then ch.objects[obj].connections[signal] else []) + [cb.value]
    ensures WellFormed(ch) ==> WellFormed(r)
  {
    match cb
    case None => ch.(errors := ch.errors + 1)
    case Some(f) =>
      var o := ch.objects[obj];
      var before := if signal in o.connections then o.connections[signal] else [];
      var ch1 := ch.(objects := ch.objects[obj := WithConnections(o, signal, before + [f])]);
      if HasListeners(o, signal) then ch1
      else Send(ch1, ConnectToSignal(obj, signal), Some(Ignore))
  }

  predicate HasListeners(o: QObject, signal: string) {
    signal in o.connections && o.connections[signal] != []
  }

  /** Index of the first occurrence of `x` in `xs` (`indexOf`, with None for -1). */
  function IndexOf(xs: seq<Listener>, x: Listener): (r: Option<nat>)
    ensures r.Some? ==> r.value < |xs| && xs[r.value] == x && x !in xs[..r.value]
    ensures r.None? ==> x !in xs
  {
    if |xs| == 0 then None
    else if xs[0] == x then Some(0)
    else match IndexOf(xs[1..], x)
      case None => None
      case Some(i) =>
        assert xs[..i + 1] == [xs[0]] + xs[1..][..i];
        Some(i + 1)
  }

  /** `xs` without its element at `i` (`splice(i, 1)`). */
  function RemoveAt(xs: seq<Listener>, i: nat): (r: seq<Listener>)
    requires i < |xs|
    ensures |r| == |xs| - 1
    ensures multiset(r) == multiset(xs) - multiset{xs[i]}
    ensures forall k :: 0 <= k < i ==> r[k] == xs[k]
    ensures forall k :: i <= k < |r| ==> r[k] == xs[k + 1]
  {
    assert xs == xs[..i] + [xs[i]] + xs[i + 1..];
    xs[..i] + xs[i + 1..]
  }

  /** `disconnect`: the first occurrence of `cb` leaves the list, and DisconnectFromSignal is
      sent when the list becomes empty. The emptied list stays. */
  function Disconnect(ch: Channel, obj: string, signal: string, cb: Listener): (r: Channel)
    requires obj in ch.objects
    ensures r.objects.Keys == ch.objects.Keys
    ensures signal !in ch.objects[obj].connections || cb !in ch.objects[obj].connections[signal] ==> r == ch
    ensures signal in ch.objects[obj].connections && cb in ch.objects[obj].connections[signal] ==>
              && var before := ch.objects[obj].connections[signal];
                 && signal in r.objects[obj].connections
                 && var after := r.objects[obj].connections[signal];
                    && after == RemoveAt(before, IndexOf(before, cb).value)
                    && multiset(after) == multiset(before) - multiset{cb}
                    && (after == [] ==> r.sent == ch.sent + [Sent(ch.execId, DisconnectFromSignal(obj, signal))])
                    && (after != [] ==> r.sent == ch.sent)
    ensures WellFormed(ch) ==> WellFormed(r)
  {
    var o := ch.objects[obj];
    if signal !in o.connections then ch
    else
      var ls := o.connections[signal];
      match IndexOf(ls, cb)
      case None => ch
      case Some(i) => Unlisten(ch, obj, signal, RemoveAt(ls, i))
  }

  /** Storing the shortened list, and telling the server when it is empty. */
  function Unlisten(ch: Channel, obj: string, signal: string, rest: seq<Listener>): (r: Channel)
    requires obj in ch.objects
    ensures r.objects.Keys == ch.objects.Keys
    ensures signal in r.objects[obj].connections && r.objects[obj].connections[signal] == rest
    ensures rest == [] ==> r.sent == ch.sent + [Sent(ch.execId, DisconnectFromSignal(obj, signal))]
    ensures rest != [] ==> r.sent == ch.sent
    ensures WellFormed(ch) ==> WellFormed(r)
  {
    var ch1 := ch.(objects := ch.objects[obj := WithConnections(ch.objects[obj], signal, rest)]);
    if rest == [] then Send(ch1, DisconnectFromSignal(obj, signal), Some(Ignore)) else ch1
  }

  /** Whether the server was last told to forward `signal` of `obj`: the latest
      ConnectToSignal or DisconnectFromSignal for the pair on the wire. */
  function Subscribed(sent: seq<Sent>, obj: string, signal: string): (r: bool)
    decreases |sent|
  {
    if |sent| == 0 then false
    else
      var req := sent[|sent| - 1].request;
      if req == ConnectToSignal(obj, signal) then true
      else if req == DisconnectFromSignal(obj, signal) then false
      else Subscribed(sent[..|sent| - 1], obj, signal)
  }

  /** The server forwards a signal exactly when the page listens to it. */
  predicate InSync(ch: Channel, obj: string, signal: string)
    requires obj in ch.objects
  {
    Subscribed(ch.sent, obj, signal) <==> HasListeners(ch.objects[obj], signal)
  }

  lemma SubscribedSnoc(sent: seq<Sent>, s: Sent, obj: string, signal: string)
    ensures Subscribed(sent + [s], obj, signal) ==
      if s.request == ConnectToSignal(obj, signal) then true
      else if s.request == DisconnectFromSignal(obj, signal) then false
      else Subscribed(sent, obj, signal)
  {
    assert (sent + [s])[..|sent|] == sent;
  }

  /** With the corrected `connect`, connecting keeps server and page in step. */
  lemma ConnectKeepsSync(ch: Channel, obj: string, signal: string, cb: Listener)
    requires obj in ch.objects && InSync(ch, obj, signal)
    ensures var r := Connect(ch, obj, signal, Some(cb));
      InSync(r, obj, signal) && Subscribed(r.sent, obj, signal)
  {
    var r := Connect(ch, obj, signal, Some(cb));
    if !HasListeners(ch.objects[obj], signal) {
      SubscribedSnoc(ch.sent, Sent(ch.execId, ConnectToSignal(obj, signal)), obj, signal);
    }
  }

  /** Disconnecting keeps server and page in step. */
  lemma DisconnectKeepsSync(ch: Channel, obj: string, signal: string, cb: Listener)
    requires obj in ch.objects && InSync(ch, obj, signal)
    ensures InSync(Disconnect(ch, obj, signal, cb), obj, signal)
  {
    var o := ch.objects[obj];
    if signal in o.connections && cb in o.connections[signal] {
      var r := Disconnect(ch, obj, signal, cb);
      var after := r.objects[obj].connections[signal];
      if after == [] {
        SubscribedSnoc(ch.sent, Sent(ch.execId, DisconnectFromSignal(obj, signal)), obj, signal);
      } else {
        assert |multiset(after)| > 0;
      }
    }
  }

  /** As written, connect f, disconnect f, connect g leaves g listening while the server was
      last told to stop forwarding the signal. */
  lemma ReconnectIsNeverSent(objects: map<string, QObject>, obj: string, signal: string, f: nat, g: nat)
    requires obj in objects && signal !in objects[obj].connections
    ensures var ch1 := ConnectAsWritten(Fresh(objects), obj, signal, Some(Handler(f)));
      var ch2 := Disconnect(ch1, obj, signal, Handler(f));
      var ch3 := ConnectAsWritten(ch2, obj, signal, Some(Handler(g)));
      && ch3.objects[obj].connections[signal] == [Handler(g)]
      && ch3.sent == [Sent(0, ConnectToSignal(obj, signal)), Sent(1, DisconnectFromSignal(obj, signal))]
      && !Subscribed(ch3.sent, obj, signal)
  {
    var ch1 := ConnectAsWritten(Fresh(objects), obj, signal, Some(Handler(f)));
    assert ch1.objects[obj].connections[signal] == [Handler(f)];
    var ch2 := Disconnect(ch1, obj, signal, Handler(f));
    assert ch2.objects[obj].connections[signal] == [];
    var s1 := [Sent(0, ConnectToSignal(obj, signal))];
    SubscribedSnoc(s1, Sent(1, DisconnectFromSignal(obj, signal)), obj, signal);
  }

  /** The same sequence with the corrected `connect` subscribes again. */
  lemma ReconnectIsSent(objects: map<string, QObject>, obj: string, signal: string, f: nat, g: nat)
    requires obj in objects && signal !in objects[obj].connections
    ensures var ch1 := Connect(Fresh(objects), obj, signal, Some(Handler(f)));
      var ch2 := Disconnect(ch1, obj, signal, Handler(f));
      var ch3 := Connect(ch2, obj, signal, Some(Handler(g)));
      && ch3.objects[obj].connections[signal] == [Handler(g)]
      && ch3.sent[2] == Sent(2, ConnectToSignal(obj, signal))
      && Subscribed(ch3.sent, obj, signal)
  {
    var ch0 := Fresh(objects);
    assert InSync(ch0, obj, signal);
    ConnectKeepsSync(ch0, obj, signal, Handler(f));
    var ch1 := Connect(ch0, obj, signal, Some(Handler(f)));
    assert ch1.objects[obj].connections[signal] == [Handler(f)];
    DisconnectKeepsSync(ch1, obj, signal, Handler(f));
    var ch2 := Disconnect(ch1, obj, signal, Handler(f));
    assert ch2.objects[obj].connections[signal] == [];
    ConnectKeepsSync(ch2, obj, signal, Handler(g));
  }

  /** Running one listener with the signal's arguments. */
  function Notify(ch: Channel, obj: string, l: Listener, args: seq<Value>): (r: Channel)
    requires obj in ch.objects
    ensures r.sent == ch.sent && r.execId == ch.execId && r.execCallbacks == ch.execCallbacks && r.errors == ch.errors
    ensures r.objects.Keys == ch.objects.Keys
    ensures forall k :: k in r.objects ==> r.objects[k].signals == ch.objects[k].signals && r.objects[k].connections == ch.objects[k].connections
    ensures l.Handler? ==> r.calls == ch.calls + [Call(l.handle, args)]
    ensures l.Backing? ==> r.calls == ch.calls
  {
    match l
    case Handler(h) => ch.(calls := ch.calls + [Call(h, args)])
    case Backing(p) =>
      var first := if |args| > 0 then args[0] else Undefined;
      ch.(objects := ch.objects[obj := WithProp(ch.objects[obj], p, first)])
  }

  /** Running a connection list in order. */
  function NotifyAll(ch: Channel, obj: string, ls: seq<Listener>, args: seq<Value>): (r: Channel)
    requires obj in ch.objects
    ensures r.sent == ch.sent && r.execId == ch.execId && r.execCallbacks == ch.execCallbacks && r.errors == ch.errors
    ensures r.objects.Keys == ch.objects.Keys
    ensures forall k :: k in r.objects ==> r.objects[k].signals == ch.objects[k].signals && r.objects[k].connections == ch.objects[k].connections
    decreases |ls|
  {
    if |ls| == 0 then ch
    else Notify(NotifyAll(ch, obj, ls[..|ls| - 1], args), obj, ls[|ls| - 1], args)
  }

  /** The page functions among `ls`, front to back, each called with `args`. */
  function HandlerCalls(ls: seq<Listener>, args: seq<Value>): (r: seq<Call>)
    decreases |ls|
  {
    if |ls| == 0 then []
    else (if ls[0].Handler? then [Call(ls[0].handle, args)] else []) + HandlerCalls(ls[1..], args)
  }

  lemma {:induction false} HandlerCallsSnoc(ls: seq<Listener>, l: Listener, args: seq<Value>)
    ensures HandlerCalls(ls + [l], args) == HandlerCalls(ls, args) + (if l.Handler? then [Call(l.handle, args)] else [])
    decreases |ls|
  {
    if |ls| > 0 {
      assert (ls + [l])[1..] == ls[1..] + [l];
      HandlerCallsSnoc(ls[1..], l, args);
    }
  }

  /** Listeners run in list order: the page functions are called in the order they were
      connected. */
  lemma {:induction false} NotifyAllInOrder(ch: Channel, obj: string, ls: seq<Listener>, args: seq<Value>)
    requires obj in ch.objects
    ensures NotifyAll(ch, obj, ls, args).calls == ch.calls + HandlerCalls(ls, args)
    decreases |ls|
  {
    if |ls| > 0 {
      var init := ls[..|ls| - 1];
      NotifyAllInOrder(ch, obj, init, args);
      HandlerCallsSnoc(init, ls[|ls| - 1], args);
      assert init + [ls[|ls| - 1]] == ls;
    }
  }

  /** `signal.emitted(...args)`: every connection of the signal, in order. */
  function Emitted(ch: Channel, obj: string, signal: string, args: seq<Value>): (r: Channel)
    requires obj in ch.objects
    ensures signal !in ch.objects[obj].connections ==> r == ch
    ensures signal in ch.objects[obj].connections ==>
              r.calls == ch.calls + HandlerCalls(ch.objects[obj].connections[signal], args)
    ensures r.sent == ch.sent && r.execId == ch.execId && r.execCallbacks == ch.execCallbacks && r.errors == ch.errors
    ensures r.objects.Keys == ch.objects.Keys
    ensures forall k :: k in r.objects ==> r.objects[k].signals == ch.objects[k].signals
  {
    var o := ch.objects[obj];
    if signal in o.connections then
      NotifyAllInOrder(ch, obj, o.connections[signal], args);
      NotifyAll(ch, obj, o.connections[signal], args)
    else ch
  }

  /** `signalEmitted`: only a name that is a signal of the object is emitted. */
  function SignalEmitted(ch: Channel, obj: string, name: string, args: seq<Value>): (r: Channel)
    requires obj in ch.objects
    ensures name !in ch.objects[obj].signals ==> r == ch
    ensures name in ch.objects[obj].signals ==> r == Emitted(ch, obj, name, args)
    ensures r.sent == ch.sent && r.execId == ch.execId && r.execCallbacks == ch.execCallbacks
    ensures r.objects.Keys == ch.objects.Keys
    ensures forall k :: k in r.objects ==> r.objects[k].signals == ch.objects[k].signals
  {
    if name in ch.objects[obj].signals then Emitted(ch, obj, name, args) else ch
  }

  /** `handleSignal`: a signal of an unknown object is ignored. */
  function HandleSignal(ch: Channel, obj: string, name: string, args: seq<Value>): (r: Channel)
    ensures obj !in ch.objects ==> r == ch
    ensures obj in ch.objects ==> r == SignalEmitted(ch, obj, name, args)
    ensures r.sent == ch.sent && r.execId == ch.execId && r.execCallbacks == ch.execCallbacks
    ensures WellFormed(ch) ==> WellFormed(r)
  {
    if obj in ch.objects then SignalEmitted(ch, obj, name, args) else ch
  }

  // ---------------------------------------------------------------------------
  // Property updates

  /** The property assignments of `propertyUpdate`, in order. */
  function SetProps(ch: Channel, obj: string, props: seq<(string, Value)>): (r: Channel)
    requires obj in ch.objects
    ensures r.objects.Keys == ch.objects.Keys
    ensures forall k :: k in r.objects ==> r.objects[k].signals == ch.objects[k].signals
    ensures WellFormed(ch) ==> WellFormed(r)
    decreases |props|
  {
    if |props| == 0 then ch
    else
      var (name, v) := props[|props| - 1];
      SetProp(SetProps(ch, obj, props[..|props| - 1]), obj, name, v)
  }

  /** The signal emissions of `propertyUpdate`, in order. */
  function EmitAll(ch: Channel, obj: string, signals: seq<(string, seq<Value>)>): (r: Channel)
    requires obj in ch.objects
    ensures r.sent == ch.sent && r.execId == ch.execId && r.execCallbacks == ch.execCallbacks
    ensures r.objects.Keys == ch.objects.Keys
    ensures forall k :: k in r.objects ==> r.objects[k].signals == ch.objects[k].signals
    decreases |signals|
  {
    if |signals| == 0 then ch
    else
      var (name, args) := signals[|signals| - 1];
      SignalEmitted(EmitAll(ch, obj, signals[..|signals| - 1]), obj, name, args)
  }

  /** `propertyUpdate`: the values are assigned through the setter, then the signals are
      emitted. */
  function PropertyUpdate(ch: Channel, u: Update): (r: Channel)
    requires u.obj in ch.objects
    ensures r.objects.Keys == ch.objects.Keys
    ensures WellFormed(ch) ==> WellFormed(r)
  {
    EmitAll(SetProps(ch, u.obj, u.properties), u.obj, u.signals)
  }

  /** `handlePropertyUpdate`: the updates in order, skipping unknown objects. */
  function HandlePropertyUpdate(ch: Channel, updates: seq<Update>): (r: Channel)
    ensures r.objects.Keys == ch.objects.Keys
    ensures (forall k :: 0 <= k < |updates| ==> updates[k].obj !in ch.objects) ==> r == ch
    ensures WellFormed(ch) ==> WellFormed(r)
    decreases |updates|
  {
    if |updates| == 0 then ch
    else
      var before := HandlePropertyUpdate(ch, updates[..|updates| - 1]);
      var u := updates[|updates| - 1];
      if u.obj in before.objects then PropertyUpdate(before, u) else before
  }

  /** A property value the server pushes goes through the setter, so a changed value is sent
      straight back to the server as a SetProperty request. */
  lemma UpdateIsEchoed(ch: Channel, obj: string, name: string, v: Value)
    requires obj in ch.objects && name in ch.objects[obj].props && ch.objects[obj].props[name] != v
    ensures var r := HandlePropertyUpdate(ch, [Update(obj, [], [(name, v)])]);
      && r.sent == ch.sent + [Sent(ch.execId, SetProperty(obj, name, v))]
      && name in r.objects[obj].props && r.objects[obj].props[name] == v
  {
    var u := Update(obj, [], [(name, v)]);
    assert [u][..0] == [];
    assert u.properties[..0] == [];
    assert SetProps(ch, obj, u.properties[..0]) == ch;
    var set1 := SetProps(ch, obj, u.properties);
    assert set1 == SetProp(ch, obj, name, v);
    assert PropertyUpdate(ch, u) == set1;
  }
}
