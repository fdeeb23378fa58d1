/**
 * cdp.js, start-up string logic: the argument list cut from a configured command, the
 * first `--inspect`/`--inspect-brk` flag in it, and the inspector host and port read from
 * that flag with `split('=')` and `split(':')`.
 */
module CdpInspect {
  import opened JsString
  import opened JsValue

  const NODE := "node"
  const INSPECT := "--inspect"
  const INSPECT_BRK := "--inspect-brk"
  const INSPECT_PORT := 9229
  const INSPECT_ADDR := "localhost"

  /** The options given to the inspector client: `{}` for instances that are not spawned,
      `{host, port}` otherwise (the port a number when defaulted, else a string). */
  datatype ConnectOptions = NoOptions | HostPort(host: string, port: Value)

  /** `options.command.substring(CONST_node.length + 1).split(' ')`: the first five characters
      are dropped whatever they are, and the rest is cut at every single space. */
  function SpawnArgs(command: string): (args: seq<string>)
    ensures |args| >= 1 && forall i | 0 <= i < |args| :: ' ' !in args[i]
    ensures |command| >= |NODE| + 1 ==> Join(args, ' ') == command[|NODE| + 1..]
    ensures |command| <= |NODE| + 1 ==> args == [""]
  {
    Split(Substring(command, |NODE| + 1), ' ')
  }

  /** The predicate `find` applies; testing `--inspect-brk` first changes nothing, since every
      argument starting with it also starts with `--inspect`. */
  predicate IsInspectFlag(a: string)
    ensures IsInspectFlag(a) <==> StartsWith(a, INSPECT)
  {
    assert StartsWith(a, INSPECT_BRK) ==> a[..|INSPECT|] == INSPECT_BRK[..|INSPECT|];
    StartsWith(a, INSPECT_BRK) || StartsWith(a, INSPECT)
  }

  function FindFlagFrom(args: seq<string>, from: nat): (r: nat)
    requires from <= |args|
    ensures from <= r <= |args|
    ensures forall j | from <= j < r :: !IsInspectFlag(args[j])
    ensures r < |args| ==> IsInspectFlag(args[r])
    decreases |args| - from
  {
    if from == |args| then from
    else if IsInspectFlag(args[from]) then from
    else FindFlagFrom(args, from + 1)
  }

  /** `args.find(flag) || ''`: the first argument starting with `--inspect`, or "". */
  function InspectArg(args: seq<string>): (a: string)
    ensures (forall i | 0 <= i < |args| :: !StartsWith(args[i], INSPECT)) ==> a == ""
    ensures forall i | 0 <= i < |args| && StartsWith(args[i], INSPECT) ::
      (forall j | 0 <= j < i :: !StartsWith(args[j], INSPECT)) ==> a == args[i]
  {
    var i := FindFlagFrom(args, 0);
    if i < |args| then args[i] else ""
  }

  /**
   * The `CDPOptions` of a spawned instance: with no `=` in the flag, `localhost` and 9229;
   * with `=` but no `:`, `localhost` and the text from the first `=` up to the next one;
   * with a `:`, the text before the first `:` as host (so it still starts with the flag and
   * its `=`) and the text from that `:` up to the next one as port.
   */
  function InspectTarget(arg: string): (o: ConnectOptions)
    ensures o.HostPort?
    ensures '=' !in arg ==> o == HostPort(INSPECT_ADDR, Num(INSPECT_PORT))
    ensures '=' in arg && ':' !in arg ==>
      o.host == INSPECT_ADDR && o.port.Str? && PieceAt(arg, '=', IndexOf(arg, '=') + 1, o.port.s)
    ensures '=' in arg && ':' in arg ==>
      o.host == arg[..IndexOf(arg, ':')] && o.port.Str? && PieceAt(arg, ':', IndexOf(arg, ':') + 1, o.port.s)
  {
    var eqs := Split(arg, '=');
    var colons := Split(arg, ':');
    if |eqs| > 1 then
      if |colons| > 1 then
        SplitFirst(arg, ':');
        SplitSecond(arg, ':');
        HostPort(colons[0], Str(colons[1]))
      else
        SplitSecond(arg, '=');
        HostPort(INSPECT_ADDR, Str(eqs[1]))
    else HostPort(INSPECT_ADDR, Num(INSPECT_PORT))
  }

  /** The flag names hold none of the characters the target is cut at. */
  lemma PlainInspectFlags()
    ensures '=' !in INSPECT && ':' !in INSPECT && ' ' !in INSPECT
    ensures '=' !in INSPECT_BRK && ':' !in INSPECT_BRK && ' ' !in INSPECT_BRK
  {
  }

  /** `FLAG=PORT` with no `:` anywhere: host `localhost`, the port the text PORT. */
  lemma PortOnlyFlag(flag: string, port: string)
    requires '=' !in flag && ':' !in flag
    requires '=' !in port && ':' !in port
    ensures InspectTarget(flag + "=" + port) == HostPort(INSPECT_ADDR, Str(port))
  {
    var arg := flag + "=" + port;
    assert arg == flag + ['='] + port;
    SplitCons(flag, '=', port);
    assert ':' !in arg by {
      assert forall i | 0 <= i < |arg| :: arg[i] in flag || arg[i] == '=' || arg[i] in port;
    }
  }

  /** `FLAG=HOST:PORT`: the host is `FLAG=HOST`, prefix included, the port PORT. */
  lemma HostPortFlag(flag: string, host: string, port: string)
    requires ':' !in flag && ':' !in host && ':' !in port
    ensures InspectTarget(flag + "=" + host + ":" + port) == HostPort(flag + "=" + host, Str(port))
  {
    var head := flag + "=" + host;
    var arg := head + ":" + port;
    assert arg == head + [':'] + port;
    assert ':' !in head by {
      assert forall i | 0 <= i < |head| :: head[i] in flag || head[i] == '=' || head[i] in host;
    }
    SplitCons(head, ':', port);
    assert arg[|flag|] == '=';
  }

  /** `node A B` with A and B free of spaces gives the arguments `[A, B]`. */
  lemma SpawnArgsOfTwo(a: string, b: string)
    requires ' ' !in a && ' ' !in b
    ensures SpawnArgs(NODE + " " + a + " " + b) == [a, b]
  {
    var command := NODE + " " + a + " " + b;
    var rest := a + [' '] + b;
    assert command[|NODE| + 1..] == rest;
    SplitCons(a, ' ', b);
  }

  /** For the command `node --inspect=9230 app.js` the flag found is `--inspect=9230` ... */
  lemma ScenarioFlag()
    ensures InspectArg(["--inspect=9230", "app.js"]) == "--inspect=9230"
  {
    assert StartsWith("--inspect=9230", INSPECT);
  }

  /** ... and the target `localhost` with port "9230". */
  lemma ScenarioTarget()
    ensures InspectTarget("--inspect=9230") == HostPort(INSPECT_ADDR, Str("9230"))
  {
    PortOnlyFlag(INSPECT, "9230");
    assert INSPECT + "=" + "9230" == "--inspect=9230";
  }
}
