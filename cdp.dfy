/**
 * cdp.js, the stateful part: the module-level tables of connected inspector clients,
 * spawned processes, editor sockets, script-id-to-URL maps and breakpoints, and the
 * exported operations `startDebug`, `setBP` and `removeBP` that read and update them.
 */
module Cdp {
  import opened Base
  import Dict
  import opened JsString
  import opened JsValue
  import opened Inspector
  import opened Util
  import opened CdpBreakpoints
  import opened CdpInspect

  const NODE_INSPECT := "node-inspect"
  const NOT_ACTIVE := "instance not active"
  const NOT_FOUND := "Breakpoint not found"
  const NOT_POSSIBLE := "not possible"
  /** The key the first `addSocketToInstance` of an instance stores the socket under. */
  const FIRST_SOCKET_KEY := "socUrl"

  /** A `debugging` entry: the spawned process (by identity) and the configured type. */
  datatype Spawned = Spawned(process: nat, kind: Value)

  /** The table key an operation's `data.instance` selects: the property key `String(instance)`. */
  function InstanceKey(data: Props): string
  {
    ToJsString(Field(data, "instance"))
  }

  /**
   * `addSocketToInstance` on one instance's entry: with no table yet the socket is stored
   * under the literal key "socUrl"; otherwise it is added under its socket URL unless that
   * key is taken. Entries already there are never changed.
   */
  function WithSocket(table: Option<Dict.Table<Socket>>, soc: Socket): (t: Dict.Table<Socket>)
    ensures table.None? ==> t == [(FIRST_SOCKET_KEY, soc)]
    ensures table.Some? ==> |table.value| <= |t| <= |table.value| + 1 && t[..|table.value|] == table.value
    ensures table.Some? ==> Dict.Keys(t) == Dict.Keys(table.value) + {GetSocketURL(soc)}
    ensures table.Some? && |t| > |table.value| ==> t[|table.value|] == (GetSocketURL(soc), soc)
    ensures table.Some? && Dict.Unique(table.value) ==> Dict.Unique(t)
  {
    match table
    case None => [(FIRST_SOCKET_KEY, soc)]
    case Some(existing) =>
      var url := GetSocketURL(soc);
      if url in Dict.Keys(existing) then existing
      else
        assert Dict.Unique(existing) ==> Dict.Unique(Dict.Set(existing, url, soc)) by {
          if Dict.Unique(existing) { Dict.SetUnique(existing, url, soc); }
        }
        Dict.Set(existing, url, soc)
  }

  /** Registering a socket is a no-op only once its URL is a key of the instance's table. */
  lemma WithSocketIdempotent(t: Dict.Table<Socket>, soc: Socket)
    requires GetSocketURL(soc) in Dict.Keys(t)
    ensures WithSocket(Some(t), soc) == t
  {
  }

  /** A socket URL ends in a digit of its port, so it is never the literal key "socUrl". */
  lemma SocketURLIsNotFirstKey(soc: Socket)
    ensures GetSocketURL(soc) != FIRST_SOCKET_KEY
  {
    var u := GetSocketURL(soc);
    var rest := u[|soc.remoteFamily + soc.remoteAddress|..];
    assert u[|u| - 1] == rest[|rest| - 1];
    assert IsDigit(u[|u| - 1]);
    assert !IsDigit(FIRST_SOCKET_KEY[|FIRST_SOCKET_KEY| - 1]);
  }

  /** The same socket registered twice from scratch is stored twice, under "socUrl" and
      under its URL; a third registration changes nothing. */
  lemma {:induction false} SecondRegistrationDuplicates(soc: Socket)
    ensures WithSocket(Some(WithSocket(None, soc)), soc) == [(FIRST_SOCKET_KEY, soc), (GetSocketURL(soc), soc)]
    ensures WithSocket(Some(WithSocket(Some(WithSocket(None, soc)), soc)), soc) == WithSocket(Some(WithSocket(None, soc)), soc)
  {
    SocketURLIsNotFirstKey(soc);
    var first := WithSocket(None, soc);
    assert Dict.Keys(first) == {FIRST_SOCKET_KEY} by { Dict.KeysCons(first); }
    var second := WithSocket(Some(first), soc);
    assert second == first + [(GetSocketURL(soc), soc)];
    WithSocketIdempotent(second, soc);
  }

  /** How an instance that is not active yet will be attached: the options for the inspector
      client, the arguments a `node-inspect` instance is spawned with, and its configured type. */
  datatype Plan = Plan(target: ConnectOptions, spawnArgs: Option<seq<string>>, kind: Value)

  /** `config.instances[instance]`: `None` when reading it throws (no loaded config or no
      `instances`); a missing entry reads as `undefined`. */
  function ConfigEntry(config: Value, key: string): (e: Option<Value>)
    ensures e.None? <==> Access(config, "instances").None? || Access(Access(config, "instances").value, key).None?
    ensures e.Some? ==> e == Access(Access(config, "instances").value, key)
  {
    match Access(config, "instances")
    case None => None
    case Some(all) => Access(all, key)
  }

  /**
   * What `startDebug` reads from `config.instances[instance]` before connecting; `None` when
   * a property access on the way throws a `TypeError`: no loaded config, no `instances`, no
   * entry for the instance (its `type` is then read from `undefined`), or a `node-inspect`
   * entry whose `command` is not a string.
   */
  function PlanFor(config: Value, key: string): (p: Option<Plan>)
    ensures ConfigEntry(config, key).None? ==> p.None?
    ensures var e := ConfigEntry(config, key);
      e.Some? && Access(e.value, "type").None? ==> p.None?
    ensures var e := ConfigEntry(config, key);
      e.Some? && Access(e.value, "type").Some? && Access(e.value, "type").value != Str(NODE_INSPECT) ==>
        p == Some(Plan(NoOptions, None, Access(e.value, "type").value))
    ensures var e := ConfigEntry(config, key);
      e.Some? && Access(e.value, "type") == Some(Str(NODE_INSPECT)) ==>
        (p.Some? <==> Access(e.value, "command").Some? && Access(e.value, "command").value.Str?)
    ensures var e := ConfigEntry(config, key);
      e.Some? && Access(e.value, "type") == Some(Str(NODE_INSPECT)) &&
      Access(e.value, "command").Some? && Access(e.value, "command").value.Str? ==>
        var args := SpawnArgs(Access(e.value, "command").value.s);
        p == Some(Plan(InspectTarget(InspectArg(args)), Some(args), Str(NODE_INSPECT)))
    ensures p.Some? ==> (p.value.spawnArgs.Some? <==> p.value.kind == Str(NODE_INSPECT))
    ensures p.Some? && p.value.spawnArgs.Some? ==> p.value.target == InspectTarget(InspectArg(p.value.spawnArgs.value))
    ensures p.Some? && p.value.spawnArgs.None? ==> p.value.target == NoOptions
  {
    match ConfigEntry(config, key)
    case None => None
    case Some(options) =>
      match Access(options, "type")
      case None => None
      case Some(kind) =>
        if kind == Str(NODE_INSPECT) then
          match Access(options, "command")
          case Some(Str(c)) =>
            var args := SpawnArgs(c);
            Some(Plan(InspectTarget(InspectArg(args)), Some(args), kind))
          case _ => None
        else Some(Plan(NoOptions, None, kind))
  }

  /** A `node-inspect` entry is spawned with the arguments of its command and attached at
      the target its inspect flag names. */
  lemma PlanForCommand(key: string, c: string)
    ensures var options := Obj([("type", Str(NODE_INSPECT)), ("command", Str(c))]);
      PlanFor(Obj([("instances", Obj([(key, options)]))]), key) ==
        Some(Plan(InspectTarget(InspectArg(SpawnArgs(c))), Some(SpawnArgs(c)), Str(NODE_INSPECT)))
  {
    var props: Props := [("type", Str(NODE_INSPECT)), ("command", Str(c))];
    var options := Obj(props);
    var all := Obj([(key, options)]);
    var config := Obj([("instances", all)]);
    assert Access(config, "instances") == Some(all);
    assert Access(all, key) == Some(options);
    assert Access(options, "type") == Some(Str(NODE_INSPECT));
    assert props[1..] == [("command", Str(c))];
    assert Dict.Get(props, "command") == Some(Str(c));
  }

  /** So a command `node --inspect=PORT app` is spawned with `[--inspect=PORT, app]` and
      attached at `localhost:PORT`. */
  lemma PlanForNodeInspect(key: string, port: string, app: string)
    requires ' ' !in port && '=' !in port && ':' !in port && ' ' !in app
    ensures var options := Obj([("type", Str(NODE_INSPECT)), ("command", Str(NODE + " " + (INSPECT + "=" + port) + " " + app))]);
      PlanFor(Obj([("instances", Obj([(key, options)]))]), key) ==
        Some(Plan(HostPort(INSPECT_ADDR, Str(port)), Some([INSPECT + "=" + port, app]), Str(NODE_INSPECT)))
  {
    var flag := INSPECT + "=" + port;
    assert ' ' !in flag by {
      assert forall i | 0 <= i < |flag| :: flag[i] in INSPECT || flag[i] == '=' || flag[i] in port;
    }
    var c := NODE + " " + flag + " " + app;
    assert SpawnArgs(c) == [flag, app] by { SpawnArgsOfTwo(flag, app); }
    assert InspectArg([flag, app]) == flag by { assert StartsWith(flag, INSPECT); }
    assert InspectTarget(flag) == HostPort(INSPECT_ADDR, Str(port)) by {
      PlainInspectFlags();
      PortOnlyFlag(INSPECT, port);
    }
    PlanForCommand(key, c);
  }

  datatype Tables = Tables(instances: map<string, Client>, debugging: map<string, Spawned>,
                            sockets: map<string, Dict.Table<Socket>>, scriptMappings: map<string, ScriptMap>,
                            breakpoints: map<string, Bucket>)

  /**
   * How `startDebug` for an instance that is not active changes the tables `t` into `u` and
   * what it replies: a spawned instance is recorded in `debugging` at once; `keepTrying`'s
   * outcome `connected` decides whether a client is there; a truthy error from it or from
   * `enable` fails the request, and only when both succeed is the client stored, the socket
   * registered and an absent bucket created. The script map is reset once a client is there.
   */
  ghost predicate ConnectEffect(t: Tables, u: Tables, soc: Socket, key: string, reply: Props, plan: Plan, process: nat,
                                attempt: nat -> Outcome<Client>, enable: Outcome<Value>, r: Outcome<Props>)
    requires Dict.Unique(reply)
  {
    u.debugging == (if plan.spawnArgs.Some? then t.debugging[key := Spawned(process, plan.kind)] else t.debugging) &&
    ClientEffect(t, u, soc, key, reply, attempt, enable, r)
  }

  /** The part of `ConnectEffect` from the connection attempts on; `debugging` is not touched. */
  ghost predicate ClientEffect(t: Tables, u: Tables, soc: Socket, key: string, reply: Props,
                               attempt: nat -> Outcome<Client>, enable: Outcome<Value>, r: Outcome<Props>)
    requires Dict.Unique(reply)
  {
    var connected := attempt(RetryCalls(attempt) - 1);
    (connected.Rejected? ==>
       r == (if Truthy(connected.reason) then Resolved(SendFail(connected.reason)) else Rejected(TypeError)) &&
       u.instances == t.instances && u.sockets == t.sockets &&
       u.scriptMappings == t.scriptMappings && u.breakpoints == t.breakpoints) &&
    (connected.Resolved? ==> u.scriptMappings == t.scriptMappings[key := map[]]) &&
    (connected.Resolved? && enable.Rejected? && Truthy(enable.reason) ==>
       r == Resolved(SendFail(enable.reason)) &&
       u.instances == t.instances && u.sockets == t.sockets && u.breakpoints == t.breakpoints) &&
    (connected.Resolved? && !(enable.Rejected? && Truthy(enable.reason)) ==>
       r == Resolved(SendSuccess(reply)) &&
       u.instances == t.instances[key := connected.value] &&
       u.sockets == t.sockets[key := WithSocket(if key in t.sockets then Some(t.sockets[key]) else None, soc)] &&
       u.breakpoints == (if key in t.breakpoints then t.breakpoints else t.breakpoints[key := []]))
  }

  class Gateway {
    /** `CDPInstances`: the connected client of every active instance. */
    var instances: map<string, Client>
    /** `debugging`: what was spawned for an instance. */
    var debugging: map<string, Spawned>
    /** `sockets`: the editor sockets registered with an instance. */
    var sockets: map<string, Dict.Table<Socket>>
    /** `scriptMappings`: per instance, script id to URL. */
    var scriptMappings: map<string, ScriptMap>
    /** `breakpoints`: per instance, the stored breakpoints by id. */
    var breakpoints: map<string, Bucket>

    /** Every active instance has a script map, a socket table and a bucket; tables hold each
        key once and buckets keep each breakpoint under its own id. */
    predicate Valid()
      reads this
    {
      instances.Keys <= scriptMappings.Keys && instances.Keys <= sockets.Keys && instances.Keys <= breakpoints.Keys &&
      (forall k | k in sockets :: Dict.Unique(sockets[k])) &&
      (forall k | k in breakpoints :: Dict.Unique(breakpoints[k]) && KeyedById(breakpoints[k]))
    }

    /** The five tables as one value. */
    function State(): Tables
      reads this
    {
      Tables(instances, debugging, sockets, scriptMappings, breakpoints)
    }

    /** All tables start empty. */
    constructor ()
      ensures Valid()
      ensures instances == map[] && debugging == map[] && sockets == map[]
      ensures scriptMappings == map[] && breakpoints == map[]
    {
      instances, debugging, sockets, scriptMappings, breakpoints := map[], map[], map[], map[], map[];
    }

    /** `rememberBP`: the breakpoint is stored under its id, replacing one with the same id in
        place; other instances' buckets are untouched. */
    method RememberBP(key: string, bp: Breakpoint)
      requires Valid() && key in breakpoints
      modifies this`breakpoints
      ensures Valid()
      ensures breakpoints == old(breakpoints)[key := Dict.Set(old(breakpoints)[key], bp.breakpointId, bp)]
      ensures Dict.Get(breakpoints[key], bp.breakpointId) == Some(bp)
    {
      Dict.SetUnique(breakpoints[key], bp.breakpointId, bp);
      SetKeyed(breakpoints[key], bp);
      Dict.GetSet(breakpoints[key], bp.breakpointId, bp, bp.breakpointId);
      breakpoints := breakpoints[key := Dict.Set(breakpoints[key], bp.breakpointId, bp)];
    }

    /** `forgetBPById`: the id is no longer a key of the instance's bucket. */
    method ForgetBPById(key: string, id: string)
      requires Valid() && key in breakpoints
      modifies this`breakpoints
      ensures Valid()
      ensures breakpoints == old(breakpoints)[key := Dict.Delete(old(breakpoints)[key], id)]
      ensures id !in Dict.Keys(breakpoints[key])
    {
      Dict.DeleteUnique(breakpoints[key], id);
      DeleteKeyed(breakpoints[key], id);
      breakpoints := breakpoints[key := Dict.Delete(breakpoints[key], id)];
    }

    /** `addSocketToInstance`. */
    method AddSocketToInstance(soc: Socket, key: string)
      requires Valid()
      modifies this`sockets
      ensures Valid()
      ensures sockets == old(sockets)[key := WithSocket(if key in old(sockets) then Some(old(sockets)[key]) else None, soc)]
    {
      var t := WithSocket(if key in sockets then Some(sockets[key]) else None, soc);
      sockets := sockets[key := t];
    }

    /** The `Debugger.scriptParsed` handler: the script id now maps to its URL. */
    method OnScriptParsed(key: string, scriptId: string, url: string)
      requires Valid() && key in scriptMappings
      modifies this`scriptMappings
      ensures scriptMappings == old(scriptMappings)[key := old(scriptMappings)[key][scriptId := url]]
      ensures Valid()
    {
      scriptMappings := scriptMappings[key := scriptMappings[key][scriptId := url]];
    }

    /**
     * `setBP(data)`. `reply` is the outcome of `Debugger.setBreakpointByUrl`, which is sent
     * (`request`) only for an active instance, with `instance` deleted from the data. A
     * truthy error is passed on; a reply without locations fails as "not possible"; otherwise
     * the breakpoint, its locations resolved to URLs, is remembered and returned.
     */
    method SetBP(data: Props, reply: Outcome<SetBreakpointReply>) returns (r: Props, request: Option<Props>)
      requires Valid()
      modifies this`breakpoints
      ensures Valid()
      ensures InstanceKey(data) !in instances ==> r == SendFail(Str(NOT_ACTIVE)) && request == None
      ensures InstanceKey(data) in instances ==> request == Some(Dict.Delete(data, "instance"))
      ensures reply.Rejected? && Truthy(reply.reason) && InstanceKey(data) in instances ==>
        r == SendFail(reply.reason)
      ensures ((reply.Rejected? && !Truthy(reply.reason)) ||
               (reply.Resolved? && (reply.value.locations.None? || |reply.value.locations.value| == 0))) &&
              InstanceKey(data) in instances ==>
        r == SendFail(Obj([("err", Str(NOT_POSSIBLE)), ("instance", Field(data, "instance")),
                           ("data", Obj(Dict.Delete(data, "instance")))]))
      ensures var key := InstanceKey(data);
        if key in instances && reply.Resolved? && reply.value.locations.Some? && |reply.value.locations.value| > 0
        then
          var bp := Breakpoint(reply.value.breakpointId, LocationsWithUrls(scriptMappings[key], reply.value.locations.value));
          r == SendSuccess(BreakpointProps(bp)) &&
          breakpoints == old(breakpoints)[key := Dict.Set(old(breakpoints)[key], bp.breakpointId, bp)]
        else breakpoints == old(breakpoints)
    {
      var key := InstanceKey(data);
      var requestData := Dict.Delete(data, "instance");
      if key !in instances {
        return SendFail(Str(NOT_ACTIVE)), None;
      }
      request := Some(requestData);
      var settled := On(reply);
      if Truthy(settled.Err()) {
        return SendFail(settled.Err()), request;
      }
      if settled.Data().None? || settled.Data().value.locations.None? || |settled.Data().value.locations.value| == 0 {
        r := SendFail(Obj([("err", Str(NOT_POSSIBLE)), ("instance", Field(data, "instance")),
                           ("data", Obj(requestData))]));
        return;
      }
      var raw := settled.Data().value;
      var bp := Breakpoint(raw.breakpointId, LocationsWithUrls(scriptMappings[key], raw.locations.value));
      RememberBP(key, bp);
      r := SendSuccess(BreakpointProps(bp));
    }

    /**
     * `removeBP(data)`: the first stored breakpoint at `data`'s line and URL is looked up;
     * its id is sent to `Debugger.removeBreakpoint` (`removeRequest`), whose outcome is
     * `reply`. A truthy error is passed on and nothing is forgotten; otherwise the id is
     * forgotten and the breakpoint returned.
     */
    method RemoveBP(data: Props, reply: Outcome<Value>) returns (r: Props, removeRequest: Option<string>)
      requires Valid()
      modifies this`breakpoints
      ensures Valid()
      ensures InstanceKey(data) !in instances ==>
        r == SendFail(Str(NOT_ACTIVE)) && removeRequest == None && breakpoints == old(breakpoints)
      ensures var key := InstanceKey(data);
        key in instances ==>
          var found := GetBPByLoc(old(breakpoints)[key], Dict.Delete(data, "instance"));
          (found.None? ==> r == SendFail(Str(NOT_FOUND)) && removeRequest == None && breakpoints == old(breakpoints)) &&
          (found.Some? ==> removeRequest == Some(found.value.breakpointId)) &&
          (found.Some? && reply.Rejected? && Truthy(reply.reason) ==>
             r == SendFail(reply.reason) && breakpoints == old(breakpoints)) &&
          (found.Some? && !(reply.Rejected? && Truthy(reply.reason)) ==>
             r == SendSuccess(BreakpointProps(found.value)) &&
             breakpoints == old(breakpoints)[key := Dict.Delete(old(breakpoints)[key], found.value.breakpointId)] &&
             |breakpoints[key]| < |old(breakpoints)[key]|)
    {
      var key := InstanceKey(data);
      var loc := Dict.Delete(data, "instance");
      if key !in instances {
        return SendFail(Str(NOT_ACTIVE)), None;
      }
      var found := GetBPByLoc(breakpoints[key], loc);
      if found.None? {
        return SendFail(Str(NOT_FOUND)), None;
      }
      var bp := found.value;
      removeRequest := Some(bp.breakpointId);
      var settled := On(reply);
      if Truthy(settled.Err()) {
        return SendFail(settled.Err()), removeRequest;
      }
      FoundIsStored(breakpoints[key], loc);
      ForgetBPById(key, bp.breakpointId);
      r := SendSuccess(BreakpointProps(bp));
    }

    /**
     * `startDebug(soc, data)`. An active instance only gains the socket. Otherwise the
     * instance's config entry is read (`PlanFor`), a `node-inspect` one is spawned as
     * `process` and recorded in `debugging`, and `keepTrying` connects, the `k`-th attempt
     * settling as `attempt(k)`; `enable` is the outcome of `Debugger.enable`. A truthy
     * error from either fails the request; the client is stored, the socket registered and
     * the bucket created (if absent) only after both succeeded. The script map is reset as
     * soon as a client is there. `Rejected(TypeError)` is a request that throws.
     */
    method StartDebug(soc: Socket, data: Props, config: Value, process: nat,
                      attempt: nat -> Outcome<Client>, enable: Outcome<Value>)
      returns (r: Outcome<Props>, spawnArgs: Option<seq<string>>, target: Option<ConnectOptions>)
      requires Valid()
      modifies this`scriptMappings, this`instances, this`sockets, this`breakpoints, this`debugging
      ensures Valid()
      ensures var key := InstanceKey(data);
        key in old(instances) ==>
          r == Resolved(SendSuccess([("instance", Field(data, "instance"))])) &&
          spawnArgs == None && target == None &&
          sockets == old(sockets)[key := WithSocket(Some(old(sockets)[key]), soc)] &&
          instances == old(instances) && debugging == old(debugging) &&
          scriptMappings == old(scriptMappings) && breakpoints == old(breakpoints)
      ensures var key := InstanceKey(data);
        key !in old(instances) && PlanFor(config, key).None? ==>
          r == Rejected(TypeError) && spawnArgs == None && target == None &&
          instances == old(instances) && debugging == old(debugging) && sockets == old(sockets) &&
          scriptMappings == old(scriptMappings) && breakpoints == old(breakpoints)
      ensures var key := InstanceKey(data);
        key !in old(instances) && PlanFor(config, key).Some? ==>
          target == Some(PlanFor(config, key).value.target) && spawnArgs == PlanFor(config, key).value.spawnArgs &&
          ConnectEffect(old(this.State()), this.State(), soc, key, [("instance", Field(data, "instance"))],
                        PlanFor(config, key).value, process, attempt, enable, r)
    {
      var key := InstanceKey(data);
      var reply: Props := [("instance", Field(data, "instance"))];
      assert Dict.Unique(reply);
      spawnArgs, target := None, None;
      if key in instances {
        AddSocketToInstance(soc, key);
        return Resolved(SendSuccess(reply)), spawnArgs, target;
      }
      var plan := PlanFor(config, key);
      if plan.None? {
        return Rejected(TypeError), spawnArgs, target;
      }
      spawnArgs, target := plan.value.spawnArgs, Some(plan.value.target);
      r := Connect(soc, key, reply, plan.value, process, attempt, enable);
    }

    /** The part of `startDebug` from spawning to the reply. */
    method Connect(soc: Socket, key: string, reply: Props, plan: Plan, process: nat,
                   attempt: nat -> Outcome<Client>, enable: Outcome<Value>) returns (r: Outcome<Props>)
      requires Valid() && Dict.Unique(reply) && key !in instances
      modifies this`scriptMappings, this`instances, this`sockets, this`breakpoints, this`debugging
      ensures Valid()
      ensures ConnectEffect(old(this.State()), this.State(), soc, key, reply, plan, process, attempt, enable, r)
    {
      if plan.spawnArgs.Some? {
        debugging := debugging[key := Spawned(process, plan.kind)];
      }
      r := ConnectClient(soc, key, reply, attempt, enable);
    }

    /** `keepTrying` the connection, then attach the client. */
    method ConnectClient(soc: Socket, key: string, reply: Props,
                         attempt: nat -> Outcome<Client>, enable: Outcome<Value>) returns (r: Outcome<Props>)
      requires Valid() && Dict.Unique(reply)
      modifies this`scriptMappings, this`instances, this`sockets, this`breakpoints
      ensures Valid()
      ensures ClientEffect(old(this.State()), this.State(), soc, key, reply, attempt, enable, r)
    {
      var connected, calls, waited := KeepTrying(attempt);
      var settled := On(connected);
      if Truthy(settled.Err()) {
        return Resolved(SendFail(settled.Err()));
      }
      if settled.Data().None? {
        return Rejected(TypeError);
      }
      r := Attach(soc, key, reply, settled.Data().value, enable);
    }

    /** The part of `startDebug` after a client is connected. */
    method Attach(soc: Socket, key: string, reply: Props, client: Client, enable: Outcome<Value>) returns (r: Outcome<Props>)
      requires Valid() && Dict.Unique(reply)
      modifies this`scriptMappings, this`instances, this`sockets, this`breakpoints
      ensures Valid()
      ensures scriptMappings == old(scriptMappings)[key := map[]]
      ensures enable.Rejected? && Truthy(enable.reason) ==>
        r == Resolved(SendFail(enable.reason)) &&
        instances == old(instances) && sockets == old(sockets) && breakpoints == old(breakpoints)
      ensures !(enable.Rejected? && Truthy(enable.reason)) ==>
        r == Resolved(SendSuccess(reply)) &&
        instances == old(instances)[key := client] &&
        sockets == old(sockets)[key := WithSocket(if key in old(sockets) then Some(old(sockets)[key]) else None, soc)] &&
        breakpoints == (if key in old(breakpoints) then old(breakpoints) else old(breakpoints)[key := []])
    {
      scriptMappings := scriptMappings[key := map[]];
      var enabled := On(enable);
      if Truthy(enabled.Err()) {
        return Resolved(SendFail(enabled.Err()));
      }
      AddSocketToInstance(soc, key);
      if key !in breakpoints {
        breakpoints := breakpoints[key := []];
      }
      instances := instances[key := client];
      r := Resolved(SendSuccess(reply));
    }
  }
}
