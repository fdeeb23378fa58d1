/**
 * aragundu.js: the TCP front end. Each editor connection numbers its requests; a request
 * too far ahead of the ones served so far is parked in `waitingOrders`, any other one is
 * served at once. Serving echoes a body without an `attu` command, or dispatches the
 * command (`new instance`, `populate breakpoints`) and answers with the request's number.
 * The server keeps the list of connected sockets and the inspector clients it opened.
 */
module Aragundu {
  import opened Base
  import Dict
  import opened JsString
  import opened JsValue
  import opened Inspector
  import opened Util

  const NEW_INSTANCE := "new instance"
  const POPULATE_BREAKPOINTS := "populate breakpoints"
  const RES_UNKNOWN := "req unknown to aragundu"
  const RES_HI := "chittam maha prabhu"
  /** An echoed body containing this is answered with `ECHO_SUP`. */
  const ECHO_HINT := "orai"
  const ECHO_SUP := "sup?"

  /** The first frame written to every new connection: `[0, 'chittam maha prabhu']`. */
  const GREETING: Value := Arr([Num(0), Str(RES_HI)])
  /** The default echo payload `['ex', "echo 'teehe'"]`. */
  const ECHO_DEFAULT: Value := Arr([Str("ex"), Str("echo 'teehe'")])

  /** One `data` event: the payload `JSON.parse` produced, or the error it threw. */
  datatype Payload = Parsed(data: Value) | Unparseable(error: Value)

  /** The commands of `serveOrder`, chosen by strict equality on `attu`. */
  datatype Command = NewInstance | PopulateBreakpoints | Unknown

  function CommandOf(attu: Value): (c: Command)
    ensures c == NewInstance <==> attu == Str(NEW_INSTANCE)
    ensures c == PopulateBreakpoints <==> attu == Str(POPULATE_BREAKPOINTS)
  {
    if attu == Str(NEW_INSTANCE) then NewInstance
    else if attu == Str(POPULATE_BREAKPOINTS) then PopulateBreakpoints
    else Unknown
  }

  /** `sendBreakpoints`: a fixed success object, whatever the request. */
  function SendBreakpoints(): (r: Props)
    ensures Dict.Unique(r) && Dict.Keys(r) == {"status", "yay"}
    ensures Field(r, "status") == Str(STATUS_SUCCESS) && Field(r, "yay") == Str("yoho")
  {
    var r: Props := [("status", Str(STATUS_SUCCESS)), ("yay", Str("yoho"))];
    assert r[0].0 in Dict.Keys(r) && r[1].0 in Dict.Keys(r);
    assert r[1..] == [("yay", Str("yoho"))];
    r
  }

  /** What a handler answers, and the client `newCDPInstance` stores, if any. */
  datatype Handled = Handled(reply: Props, stored: Option<Client>)

  /**
   * `newCDPInstance(options)` as a value, the specification `Server.NewCDPInstance` is
   * proved against, once `CDP(options)` has settled as `connect` and `Debugger.enable` as
   * `enable`: `None` when it throws (a connect rejection with a falsy
   * reason leaves `client` undefined). A client is stored exactly when the reply is a
   * success, and then the reply names it by its `webSocketUrl`.
   */
  function NewInstanceOutcome(connect: Outcome<Client>, enable: Outcome<Value>): (h: Option<Handled>)
    ensures h.None? <==> connect.Rejected? && !Truthy(connect.reason)
    ensures h.Some? ==> (h.value.stored.Some? <==> Field(h.value.reply, "status") == Str(STATUS_SUCCESS))
    ensures h.Some? && h.value.stored.Some? ==>
      connect == Resolved(h.value.stored.value) &&
      Field(h.value.reply, "debSocket") == Str(h.value.stored.value.webSocketUrl)
    ensures connect.Rejected? && Truthy(connect.reason) ==> h == Some(Handled(SendFail(connect.reason), None))
    ensures connect.Resolved? && enable.Rejected? && Truthy(enable.reason) ==> h == Some(Handled(SendFail(enable.reason), None))
    ensures connect.Resolved? && !(enable.Rejected? && Truthy(enable.reason)) ==>
      h == Some(Handled([("status", Str(STATUS_SUCCESS)), ("debSocket", Str(connect.value.webSocketUrl))], Some(connect.value)))
  {
    var c := On(connect);
    if Truthy(c.Err()) then Some(Handled(SendFail(c.Err()), None))
    else if c.Data().None? then None
    else
      var client := c.Data().value;
      var e := On(enable);
      if Truthy(e.Err()) then Some(Handled(SendFail(e.Err()), None))
      else
        var reply: Props := [("status", Str(STATUS_SUCCESS)), ("debSocket", Str(client.webSocketUrl))];
        assert reply[1..] == [("debSocket", Str(client.webSocketUrl))];
        assert Dict.Get(reply, "debSocket") == Some(Str(client.webSocketUrl));
        Some(Handled(reply, Some(client)))
  }

  /** How one `data` event is handled. */
  datatype Reaction =
    | Refused(error: Value)
      // unparseable: a bare `errHndlr(e)` object is written
    | Buffered(key: string, order: Value)
      // parked in `waitingOrders[key]`
    | Echoed(seqValue: Value, msg: Value)
      // `[seq, msg]` is written
    | Dispatched(seqValue: Value, command: Command, request: Value, reply: Props, stored: Option<Client>)
      // the handler ran on `request`; `[seq, reply]` is written
    | Crashed
      // a `TypeError` escaped the handler: nothing is written and nothing changes

  predicate Served(r: Reaction)
  {
    r.Echoed? || r.Dispatched?
  }

  /** The echo branch of `serveOrder`: `body.includes('orai')` picks the payload, and throws
      unless the body is a string or an array. */
  function EchoSpec(body: Value, seqValue: Value): (r: Reaction)
    ensures r.Crashed? <==> !(body.Str? || body.Arr?)
    ensures r.Echoed? ==> r.seqValue == seqValue && (r.msg == Str(ECHO_SUP) <==> IncludesValue(body, ECHO_HINT) == Some(true))
    ensures !r.Crashed? ==> r.Echoed?
    ensures IncludesValue(body, ECHO_HINT) == Some(true) ==> r == Echoed(seqValue, Str(ECHO_SUP))
    ensures IncludesValue(body, ECHO_HINT) == Some(false) ==> r == Echoed(seqValue, ECHO_DEFAULT)
  {
    match IncludesValue(body, ECHO_HINT)
    case None => Crashed
    case Some(hit) => Echoed(seqValue, if hit then Str(ECHO_SUP) else ECHO_DEFAULT)
  }

  /** The command branch of `serveOrder` as a value (the specification of
      `Connection.Dispatch`): `attu` is deleted from the body, which is then the
      request the handler chosen by `attu` sees. */
  function DispatchSpec(body: Props, seqValue: Value, connect: Outcome<Client>, enable: Outcome<Value>): (r: Reaction)
    ensures r.Dispatched? || r.Crashed?
    ensures r.Dispatched? ==>
      r.seqValue == seqValue && r.request == Obj(Dict.Delete(body, "attu")) &&
      "attu" !in Dict.Keys(r.request.props) && r.command == CommandOf(Field(body, "attu"))
    ensures r.Dispatched? && r.command == PopulateBreakpoints ==> r.reply == SendBreakpoints() && r.stored == None
    ensures r.Dispatched? && r.command == Unknown ==> r.reply == SendFail(Str(RES_UNKNOWN)) && r.stored == None
    ensures r.Crashed? <==> CommandOf(Field(body, "attu")) == NewInstance && NewInstanceOutcome(connect, enable).None?
    ensures r.Dispatched? && r.command == NewInstance ==> NewInstanceOutcome(connect, enable) == Some(Handled(r.reply, r.stored))
  {
    var request := Obj(Dict.Delete(body, "attu"));
    match CommandOf(Field(body, "attu"))
    case NewInstance =>
      (match NewInstanceOutcome(connect, enable)
       case None => Crashed
       case Some(h) => Dispatched(seqValue, NewInstance, request, h.reply, h.stored))
    case PopulateBreakpoints => Dispatched(seqValue, PopulateBreakpoints, request, SendBreakpoints(), None)
    case Unknown => Dispatched(seqValue, Unknown, request, SendFail(Str(RES_UNKNOWN)), None)
  }

  /** `attu` names no array or string element. */
  lemma AttuIsNoIndex()
    ensures ArrayIndex("attu") == None
  {
    assert !IsDigit("attu"[0]);
  }

  /** Whether `serveOrder` takes the command branch: `data[1]` and `data[1].attu` are truthy,
      which only an object body can be. */
  predicate HasCommand(body: Value)
    ensures HasCommand(body) ==> body.Obj?
  {
    AttuIsNoIndex();
    Truthy(body) && Truthy(Access(body, "attu").value)
  }

  /** `serveOrder(data)` on a parsed payload whose `data[0]` is `seqValue`, as a value: the
      specification `Connection.ServeOrder` is proved against. */
  function ServeOrderSpec(data: Value, seqValue: Value, connect: Outcome<Client>, enable: Outcome<Value>): (r: Reaction)
    requires data != Undefined && data != Null
    ensures !r.Buffered? && !r.Refused?
    ensures Served(r) ==> r.seqValue == seqValue
  {
    var body := Access(data, "1").value;
    if HasCommand(body) then DispatchSpec(body.props, seqValue, connect, enable)
    else EchoSpec(body, seqValue)
  }

  /**
   * The `data` handler: a request whose `parseInt(data[0])` exceeds `servings + 1` is
   * parked under `String(data[0])`; any other one, a stale, repeated or unnumbered one
   * included, is served. This is the specification of one event; `Connection.OnData` is
   * the handler itself, updating the connection's fields, and is proved equal to it.
   */
  function React(servings: nat, payload: Payload, connect: Outcome<Client>, enable: Outcome<Value>): (r: Reaction)
    ensures payload.Unparseable? ==> r == Refused(payload.error)
    ensures r.Refused? ==> payload.Unparseable?
    ensures r.Buffered? <==>
      payload.Parsed? && Access(payload.data, "0").Some? &&
      ParseIntValue(Access(payload.data, "0").value).Some? &&
      servings + 1 < ParseIntValue(Access(payload.data, "0").value).value
    ensures r.Buffered? ==> r.order == payload.data && r.key == ToJsString(Access(payload.data, "0").value)
    ensures Served(r) ==> payload.Parsed? && Access(payload.data, "0") == Some(r.seqValue)
    ensures payload.Parsed? && Access(payload.data, "0").None? ==> r == Crashed
    ensures payload.Parsed? && Access(payload.data, "0").Some? && !r.Buffered? ==>
      r == ServeOrderSpec(payload.data, Access(payload.data, "0").value, connect, enable)
  {
    match payload
    case Unparseable(e) => Refused(e)
    case Parsed(data) =>
      match Access(data, "0")
      case None => Crashed
      case Some(seqValue) =>
        var n := ParseIntValue(seqValue);
        if n.Some? && servings + 1 < n.value then Buffered(ToJsString(seqValue), data)
        else ServeOrderSpec(data, seqValue, connect, enable)
  }

  /** The frames a reaction writes to its socket. */
  function Written(r: Reaction): (w: seq<Value>)
    ensures |w| <= 1
    ensures w == [] <==> r.Buffered? || r.Crashed?
    ensures r.Refused? ==> w == [Obj(SendFail(r.error))]
    ensures Served(r) ==> |w| == 1 && w[0].Arr? && |w[0].items| == 2 && w[0].items[0] == r.seqValue
    ensures r.Echoed? ==> w[0].items[1] == r.msg
    ensures r.Dispatched? ==> w[0].items[1] == Obj(r.reply)
  {
    match r
    case Refused(e) => [Obj(SendFail(e))]
    case Echoed(s, msg) => [Arr([s, msg])]
    case Dispatched(s, _, _, reply, _) => [Arr([s, Obj(reply)])]
    case _ => []
  }

  /** A connection's state: requests served, requests parked, frames written. */
  datatype ConnState = ConnState(servings: nat, waiting: map<string, Value>, writes: seq<Value>)

  /** The state after a reaction. `flushWaiting` only logs, so nothing is ever taken out of
      `waiting`, and `servings` counts served requests whatever their number. */
  function Next(s: ConnState, r: Reaction): (t: ConnState)
    ensures s.waiting.Keys <= t.waiting.Keys
    ensures t.servings == s.servings + (if Served(r) then 1 else 0)
    ensures t.writes == s.writes + Written(r)
    ensures !r.Buffered? ==> t.waiting == s.waiting
    ensures r.Buffered? ==> t.waiting == s.waiting[r.key := r.order]
  {
    match r
    case Buffered(key, order) => s.(waiting := s.waiting[key := order])
    case Echoed(_, _) => s.(servings := s.servings + 1, writes := s.writes + Written(r))
    case Dispatched(_, _, _, _, _) => s.(servings := s.servings + 1, writes := s.writes + Written(r))
    case _ => s.(writes := s.writes + Written(r))
  }

  /** One event as the editor and the inspector produce it. */
  datatype Event = Event(payload: Payload, connect: Outcome<Client>, enable: Outcome<Value>)

  function Step(s: ConnState, e: Event): ConnState
  {
    Next(s, React(s.servings, e.payload, e.connect, e.enable))
  }

  /** A connection's state after a sequence of events. */
  function Run(s: ConnState, events: seq<Event>): ConnState
    decreases |events|
  {
    if events == [] then s else Run(Step(s, events[0]), events[1..])
  }

  /** The buffer never drains: every key parked stays parked, over any run. */
  lemma {:induction false} RunKeepsWaiting(s: ConnState, events: seq<Event>)
    ensures s.waiting.Keys <= Run(s, events).waiting.Keys
    decreases |events|
  {
    if events != [] {
      RunKeepsWaiting(Step(s, events[0]), events[1..]);
    }
  }

  /** Nothing but served requests moves `servings`, and each moves it by one: a run never
      lowers it, and adds at most one per event. */
  lemma {:induction false} RunServingsBounds(s: ConnState, events: seq<Event>)
    ensures s.servings <= Run(s, events).servings <= s.servings + |events|
    decreases |events|
  {
    if events != [] {
      RunServingsBounds(Step(s, events[0]), events[1..]);
    }
  }

  /** A request `[n, body]` numbered at or behind the next expected number goes to
      `serveOrder`, which picks its branch by `body` alone. */
  lemma NumberedServed(servings: nat, n: int, body: Value, connect: Outcome<Client>, enable: Outcome<Value>)
    requires n <= servings + 1
    ensures HasCommand(body) ==>
      React(servings, Parsed(Arr([Num(n), body])), connect, enable) == DispatchSpec(body.props, Num(n), connect, enable)
    ensures !HasCommand(body) ==>
      React(servings, Parsed(Arr([Num(n), body])), connect, enable) == EchoSpec(body, Num(n))
  {
    NumberedAccess(n, body);
  }

  /** Any parsed request that is not parked goes to `serveOrder`, whatever `data[0]` is (a
      number at or behind the next expected one, a numeric string, or text `parseInt` reads
      as NaN) and whatever else the array holds; the branch is picked by `data[1]`. */
  lemma UnparkedServed(servings: nat, data: Value, connect: Outcome<Client>, enable: Outcome<Value>)
    requires Access(data, "0").Some?
    requires ParseIntValue(Access(data, "0").value).None? ||
             ParseIntValue(Access(data, "0").value).value <= servings + 1
    ensures var sv := Access(data, "0").value;
      var body := Access(data, "1").value;
      React(servings, Parsed(data), connect, enable) ==
        if HasCommand(body) then DispatchSpec(body.props, sv, connect, enable) else EchoSpec(body, sv)
  {
  }

  /** The frame written for a served request is `[data[0], reply]`: both read back by index. */
  lemma ServedFrame(s: ConnState, data: Value, connect: Outcome<Client>, enable: Outcome<Value>)
    requires Served(React(s.servings, Parsed(data), connect, enable))
    ensures var r := React(s.servings, Parsed(data), connect, enable);
      var t := Next(s, r);
      |t.writes| == |s.writes| + 1 &&
      Access(t.writes[|s.writes|], "0") == Access(data, "0") &&
      Access(t.writes[|s.writes|], "1") == Some(if r.Echoed? then r.msg else Obj(r.reply))
  {
    var r := React(s.servings, Parsed(data), connect, enable);
    var f := Written(r)[0];
    assert Next(s, r).writes[|s.writes|] == f;
    AccessIndex(f.items, 0);
    AccessIndex(f.items, 1);
    assert NatToString(0) == "0" && NatToString(1) == "1";
  }

  /** Reading `data[0]` and `data[1]` of a request `[n, body]`, and `parseInt(data[0])`. */
  lemma NumberedAccess(n: int, body: Value)
    ensures Access(Arr([Num(n), body]), "0") == Some(Num(n))
    ensures Access(Arr([Num(n), body]), "1") == Some(body)
    ensures ParseIntValue(Num(n)) == Some(n)
  {
    AccessIndex([Num(n), body], 0);
    AccessIndex([Num(n), body], 1);
    assert NatToString(0) == "0" && NatToString(1) == "1";
    ParseIntValueOfNum(n);
  }

  /** A numbered `populate breakpoints` request at or behind the next expected number is
      served again however stale it is: the reply is written and `servings` moves on. */
  lemma StaleRequestServed(s: ConnState, n: int, body: Props, connect: Outcome<Client>, enable: Outcome<Value>)
    requires n <= s.servings + 1
    requires Field(body, "attu") == Str(POPULATE_BREAKPOINTS)
    ensures var t := Next(s, React(s.servings, Parsed(Arr([Num(n), Obj(body)])), connect, enable));
      t.servings == s.servings + 1 && t.waiting == s.waiting &&
      t.writes == s.writes + [Arr([Num(n), Obj(SendBreakpoints())])]
  {
    NumberedServed(s.servings, n, Obj(body), connect, enable);
    assert HasCommand(Obj(body));
  }

  /** A numbered request more than one ahead is parked under its number and not answered. */
  lemma AheadRequestParked(s: ConnState, n: int, body: Value, connect: Outcome<Client>, enable: Outcome<Value>)
    requires n > s.servings + 1
    ensures var t := Next(s, React(s.servings, Parsed(Arr([Num(n), body])), connect, enable));
      t == s.(waiting := s.waiting[IntToString(n) := Arr([Num(n), body])])
  {
    NumberedAccess(n, body);
  }

  /** An unparseable payload gets a bare fail object and changes nothing else. */
  lemma UnparseableRefused(s: ConnState, e: Value, connect: Outcome<Client>, enable: Outcome<Value>)
    ensures Next(s, React(s.servings, Unparseable(e), connect, enable)) ==
      s.(writes := s.writes + [Obj(SendFail(e))])
  {
  }

  /** A string body is echoed with its own number: `sup?` exactly when it contains `orai`. */
  lemma StringBodyEchoed(servings: nat, n: int, body: string, connect: Outcome<Client>, enable: Outcome<Value>)
    requires n <= servings + 1
    ensures React(servings, Parsed(Arr([Num(n), Str(body)])), connect, enable) ==
      Echoed(Num(n), if Includes(body, ECHO_HINT) then Str(ECHO_SUP) else ECHO_DEFAULT)
  {
    NumberedServed(servings, n, Str(body), connect, enable);
  }

  /** An object body without a truthy `attu` is not echoed: `includes` is not defined on it,
      so the handler throws and nothing is answered. */
  lemma ObjectBodyWithoutCommandCrashes(servings: nat, n: int, body: Props, connect: Outcome<Client>, enable: Outcome<Value>)
    requires n <= servings + 1
    requires !Truthy(Field(body, "attu"))
    ensures React(servings, Parsed(Arr([Num(n), Obj(body)])), connect, enable) == Crashed
  {
    NumberedServed(servings, n, Obj(body), connect, enable);
    assert !HasCommand(Obj(body)) by {
      assert Access(Obj(body), "attu") == Some(Field(body, "attu"));
    }
  }

  /** Any other command is answered with `req unknown to aragundu`, tagged with its number. */
  lemma UnknownCommandRefused(servings: nat, n: int, body: Props, connect: Outcome<Client>, enable: Outcome<Value>)
    requires n <= servings + 1
    requires Truthy(Field(body, "attu")) && CommandOf(Field(body, "attu")) == Unknown
    ensures React(servings, Parsed(Arr([Num(n), Obj(body)])), connect, enable) ==
      Dispatched(Num(n), Unknown, Obj(Dict.Delete(body, "attu")), SendFail(Str(RES_UNKNOWN)), None)
  {
    NumberedServed(servings, n, Obj(body), connect, enable);
    assert HasCommand(Obj(body));
  }

  /** The server-wide tables after a reaction: a client `newCDPInstance` stored is keyed by
      its `webSocketUrl`. */
  function StoredIn(m: map<string, Client>, r: Reaction): (m': map<string, Client>)
    ensures r.Dispatched? && r.stored.Some? ==>
      var c := r.stored.value;
      m'.Keys == m.Keys + {c.webSocketUrl} && m'[c.webSocketUrl] == c
    ensures !(r.Dispatched? && r.stored.Some?) ==> m'.Keys == m.Keys
    ensures forall k | k in m && !(r.Dispatched? && r.stored.Some? && k == r.stored.value.webSocketUrl) ::
      k in m' && m'[k] == m[k]
  {
    if r.Dispatched? && r.stored.Some? then m[r.stored.value.webSocketUrl := r.stored.value] else m
  }

  class Server {
    /** `clients`: the connected sockets, in connection order. */
    var clients: seq<Socket>
    /** `CDPInstances`: the inspector clients opened by `new instance`, by `webSocketUrl`. */
    var cdpInstances: map<string, Client>

    constructor ()
      ensures clients == [] && cdpInstances == map[]
    {
      clients, cdpInstances := [], map[];
    }

    /** `pesarattuHandler(socket)`: the socket joins `clients` and its connection starts
        with nothing served or parked and the greeting written. */
    method Accept(socket: Socket) returns (c: Connection)
      modifies this`clients
      ensures clients == old(clients) + [socket]
      ensures fresh(c) && c.server == this && c.socket == socket
      ensures c.State() == ConnState(0, map[], [GREETING])
    {
      clients := clients + [socket];
      c := new Connection(this, socket);
    }

    /** The `close` handler: `clients.splice(clients.indexOf(socket), 1)`. */
    method Close(socket: Socket)
      modifies this`clients
      ensures clients == SpliceOne(old(clients), IndexOfElement(old(clients), socket))
    {
      var i := IndexOfElement(clients, socket);
      clients := SpliceOne(clients, i);
    }

    /** `newCDPInstance(options)` on the server's table; `options` goes to the inspector
        client untouched. Proved to return `NewInstanceOutcome`. */
    method NewCDPInstance(options: Value, connect: Outcome<Client>, enable: Outcome<Value>) returns (h: Option<Handled>)
      modifies this`cdpInstances
      ensures h == NewInstanceOutcome(connect, enable)
      ensures h.Some? && h.value.stored.Some? ==>
        cdpInstances == old(cdpInstances)[h.value.stored.value.webSocketUrl := h.value.stored.value]
      ensures !(h.Some? && h.value.stored.Some?) ==> cdpInstances == old(cdpInstances)
    {
      var c := On(connect);
      if Truthy(c.Err()) {
        return Some(Handled(SendFail(c.Err()), None));
      }
      if c.Data().None? {
        return None;
      }
      var client := c.Data().value;
      var e := On(enable);
      if Truthy(e.Err()) {
        return Some(Handled(SendFail(e.Err()), None));
      }
      cdpInstances := cdpInstances[client.webSocketUrl := client];
      var reply: Props := [("status", Str(STATUS_SUCCESS)), ("debSocket", Str(client.webSocketUrl))];
      h := Some(Handled(reply, Some(client)));
    }
  }

  /** Closing a connected socket removes its first entry and keeps the others in order. */
  lemma ClosePresent(clients: seq<Socket>, socket: Socket)
    requires socket in clients
    ensures var i := IndexOfElement(clients, socket);
      SpliceOne(clients, i) == clients[..i] + clients[i + 1..] && socket !in clients[..i]
    ensures multiset(SpliceOne(clients, IndexOfElement(clients, socket))) == multiset(clients) - multiset{socket}
  {
    var i := IndexOfElement(clients, socket);
    var r := clients[..i] + clients[i + 1..];
    assert SpliceOne(clients, i) == r;
    calc {
      multiset(clients);
      { assert clients == clients[..i] + [socket] + clients[i + 1..]; }
      multiset(clients[..i]) + multiset{socket} + multiset(clients[i + 1..]);
      multiset(r) + multiset{socket};
    }
  }

  /** Closing a socket that is not in the list removes the last client (`splice(-1, 1)`). */
  lemma CloseAbsentDropsLast(clients: seq<Socket>, socket: Socket)
    requires socket !in clients && clients != []
    ensures SpliceOne(clients, IndexOfElement(clients, socket)) == clients[..|clients| - 1]
  {
  }

  class Connection {
    const server: Server
    const socket: Socket
    /** `servings`: how many requests were served. */
    var servings: nat
    /** `waitingOrders`: parked requests by `String(seq)`. */
    var waitingOrders: map<string, Value>
    /** What was written to the socket, in order. */
    var writes: seq<Value>

    function State(): ConnState
      reads this
    {
      ConnState(servings, waitingOrders, writes)
    }

    constructor (server: Server, socket: Socket)
      ensures this.server == server && this.socket == socket
      ensures State() == ConnState(0, map[], [GREETING])
    {
      this.server := server;
      this.socket := socket;
      servings, waitingOrders, writes := 0, map[], [GREETING];
    }

    /** The `data` handler, run to completion: `connect` and `enable` are how the inspector
        calls of a `new instance` command settle. Proved to follow `React` and `Next`. */
    method OnData(payload: Payload, connect: Outcome<Client>, enable: Outcome<Value>) returns (reaction: Reaction)
      modifies this, server`cdpInstances
      ensures reaction == React(old(servings), payload, connect, enable)
      ensures State() == Next(old(State()), reaction)
      ensures server.cdpInstances == StoredIn(old(server.cdpInstances), reaction)
    {
      match payload
      case Unparseable(e) =>
        reaction := Refused(e);
        writes := writes + [Obj(SendFail(e))];
      case Parsed(data) =>
        var first := Access(data, "0");
        if first.None? {
          return Crashed;
        }
        var seqValue := first.value;
        var n := ParseIntValue(seqValue);
        if n.Some? && servings + 1 < n.value {
          reaction := Buffered(ToJsString(seqValue), data);
          waitingOrders := waitingOrders[ToJsString(seqValue) := data];
          return;
        }
        reaction := ServeOrder(data, seqValue, connect, enable);
        if Served(reaction) {
          servings := servings + 1;
        }
    }

    /** `serveOrder(data)` on the connection's socket; proved to follow `ServeOrderSpec`. */
    method ServeOrder(data: Value, seqValue: Value, connect: Outcome<Client>, enable: Outcome<Value>) returns (reaction: Reaction)
      requires data != Undefined && data != Null
      modifies this`writes, server`cdpInstances
      ensures reaction == ServeOrderSpec(data, seqValue, connect, enable)
      ensures writes == old(writes) + Written(reaction)
      ensures server.cdpInstances == StoredIn(old(server.cdpInstances), reaction)
    {
      var body := Access(data, "1").value;
      if !HasCommand(body) {
        var hit := IncludesValue(body, ECHO_HINT);
        if hit.None? {
          return Crashed;
        }
        reaction := Echoed(seqValue, if hit.value then Str(ECHO_SUP) else ECHO_DEFAULT);
        writes := writes + [Arr([seqValue, reaction.msg])];
        return;
      }
      reaction := Dispatch(body.props, seqValue, connect, enable);
    }

    /** The command branch of `serveOrder`; proved to follow `DispatchSpec`. */
    method Dispatch(body: Props, seqValue: Value, connect: Outcome<Client>, enable: Outcome<Value>) returns (reaction: Reaction)
      modifies this`writes, server`cdpInstances
      ensures reaction == DispatchSpec(body, seqValue, connect, enable)
      ensures writes == old(writes) + Written(reaction)
      ensures server.cdpInstances == StoredIn(old(server.cdpInstances), reaction)
    {
      var request := Obj(Dict.Delete(body, "attu"));
      var command := CommandOf(Field(body, "attu"));
      var reply: Props;
      var stored: Option<Client> := None;
      if command == NewInstance {
        var h := server.NewCDPInstance(request, connect, enable);
        if h.None? {
          return Crashed;
        }
        reply, stored := h.value.reply, h.value.stored;
      } else if command == PopulateBreakpoints {
        reply := SendBreakpoints();
      } else {
        reply := SendFail(Str(RES_UNKNOWN));
      }
      reaction := Dispatched(seqValue, command, request, reply, stored);
      writes := writes + [Arr([seqValue, Obj(reply)])];
    }
  }
}
