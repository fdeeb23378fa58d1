/**
 * util.js: result builders, the promise-to-pair adapter `on`, the socket key, the
 * message frame, the bounded retry combinator and the command-line options.
 */
module Util {
  import opened Base
  import Dict
  import opened JsString
  import opened JsValue

  const STATUS_FAIL := "fail"
  const STATUS_SUCCESS := "success"

  /** A connected TCP socket; `id` stands for its object identity. */
  datatype Socket = Socket(id: nat, remoteFamily: string, remoteAddress: string, remotePort: nat)

  /** `getSocketURL`: family, address and port run together, the port in decimal. */
  function GetSocketURL(s: Socket): (u: string)
    ensures StartsWith(u, s.remoteFamily + s.remoteAddress)
    ensures ParseInt(u[|s.remoteFamily + s.remoteAddress|..]) == Some(s.remotePort)
    ensures var rest := u[|s.remoteFamily + s.remoteAddress|..];
      rest != [] && AllDigits(rest) && (rest[0] == '0' ==> rest == "0")
  {
    var u := s.remoteFamily + s.remoteAddress + NatToString(s.remotePort);
    assert u[|s.remoteFamily + s.remoteAddress|..] == NatToString(s.remotePort);
    ParseIntOfNatToString(s.remotePort);
    u
  }

  /** Two sockets from the same family and address have the same key only if their ports agree. */
  lemma SocketURLDeterminesPort(a: Socket, b: Socket)
    requires a.remoteFamily == b.remoteFamily && a.remoteAddress == b.remoteAddress
    requires GetSocketURL(a) == GetSocketURL(b)
    ensures a.remotePort == b.remotePort
  {
    var p := a.remoteFamily + a.remoteAddress;
    assert GetSocketURL(a)[|p|..] == NatToString(a.remotePort);
    assert GetSocketURL(b)[|p|..] == NatToString(b.remotePort);
    NatToStringInjective(a.remotePort, b.remotePort);
  }

  /** The key is not injective: distinct remotes can share one. */
  lemma SocketURLCollision()
    ensures GetSocketURL(Socket(1, "IPv4", "10.0.0.1", 1234)) == GetSocketURL(Socket(2, "IPv4", "10.0.0.11", 234))
  {
    assert NatToString(1234) == "1234";
    assert NatToString(234) == "234";
  }

  /** `sendFail(e)`: exactly `{status: 'fail', err: e}`. */
  function SendFail(e: Value): (r: Props)
    ensures Dict.Keys(r) == {"status", "err"} && Dict.Unique(r)
    ensures Field(r, "status") == Str(STATUS_FAIL) && Field(r, "err") == e
  {
    var r: Props := [("status", Str(STATUS_FAIL)), ("err", e)];
    assert Dict.Keys(r) == {"status", "err"} by {
      assert r[0].0 == "status" && r[1].0 == "err";
    }
    r
  }

  /** Object spread: copies the entries of `src` into `t` in order, as `{...t, ...src}`. */
  function Spread(t: Props, src: Props): Props
    decreases src
  {
    if src == [] then t else Spread(Dict.Set(t, src[0].0, src[0].1), src[1..])
  }

  /** Spreading adds exactly the source's keys and keeps keys unique. */
  lemma {:induction false} SpreadKeys(t: Props, src: Props)
    requires Dict.Unique(t)
    ensures Dict.Keys(Spread(t, src)) == Dict.Keys(t) + Dict.Keys(src)
    ensures Dict.Unique(Spread(t, src))
    decreases src
  {
    if src != [] {
      Dict.SetUnique(t, src[0].0, src[0].1);
      Dict.KeysCons(src);
      SpreadKeys(Dict.Set(t, src[0].0, src[0].1), src[1..]);
    }
  }

  /** Spreading keeps the target's first key in first place. */
  lemma {:induction false} SpreadFirst(t: Props, src: Props)
    requires t != []
    ensures Spread(t, src) != [] && Spread(t, src)[0].0 == t[0].0
    decreases src
  {
    if src != [] {
      var t' := Dict.Set(t, src[0].0, src[0].1);
      assert t'[0].0 == t[0].0;
      SpreadFirst(t', src[1..]);
    }
  }

  /** Every source key ends with its source value; every other key keeps the target's. */
  lemma {:induction false} SpreadGet(t: Props, src: Props, k: string)
    requires Dict.Unique(src)
    ensures Dict.Get(Spread(t, src), k) == if k in Dict.Keys(src) then Dict.Get(src, k) else Dict.Get(t, k)
    decreases src
  {
    if src != [] {
      var (k0, v0) := src[0];
      Dict.KeysCons(src);
      assert Dict.Unique(src[1..]);
      SpreadGet(Dict.Set(t, k0, v0), src[1..], k);
      Dict.GetSet(t, k0, v0, k);
      if k in Dict.Keys(src[1..]) {
        var j :| 0 <= j < |src[1..]| && src[1..][j].0 == k;
        assert src[j + 1].0 == k;
      }
    }
  }

  /** `sendSuccess(m)`: `{status: 'success', ...m}`. Every field of `m` keeps its value, and
      `m`'s own `status`, when it has one, wins over 'success' because the spread is last. */
  function SendSuccess(m: Props): (r: Props)
    requires Dict.Unique(m)
    ensures Dict.Keys(r) == Dict.Keys(m) + {"status"} && Dict.Unique(r)
    ensures r != [] && r[0].0 == "status"
    ensures forall k | k in Dict.Keys(m) :: Field(r, k) == Field(m, k)
    ensures "status" !in Dict.Keys(m) ==> Field(r, "status") == Str(STATUS_SUCCESS)
  {
    var base: Props := [("status", Str(STATUS_SUCCESS))];
    SpreadKeys(base, m);
    SpreadFirst(base, m);
    assert Dict.Keys(base) == {"status"} by { assert base[0].0 == "status"; }
    assert forall k | k in Dict.Keys(m) :: Field(Spread(base, m), k) == Field(m, k) by {
      forall k | k in Dict.Keys(m) ensures Field(Spread(base, m), k) == Field(m, k) {
        SpreadGet(base, m, k);
      }
    }
    assert "status" !in Dict.Keys(m) ==> Field(Spread(base, m), "status") == Str(STATUS_SUCCESS) by {
      SpreadGet(base, m, "status");
    }
    Spread(base, m)
  }

  /** The array `on(p)` settles to: `[null, d]` or `[e]`. */
  datatype Settled<T> = Pair(first: Value, second: T) | Single(first: Value)
  {
    /** `const [err, x] = ...`: the first slot. */
    function Err(): Value { first }
    /** ... and the second slot, `None` for `undefined`. */
    function Data(): Option<T> { if Pair? then Some(second) else None }
  }

  /** `on(p)` never rejects: it settles to `[null, d]` when `p` fulfils with `d` and to `[e]`
      when `p` rejects with `e`, so callers test the first slot for truthiness. */
  function On<T>(p: Outcome<T>): (r: Settled<T>)
    ensures p.Resolved? ==> r.Err() == Null && r.Data() == Some(p.value)
    ensures p.Rejected? ==> r.Err() == p.reason && r.Data() == None
    ensures Truthy(r.Err()) <==> p.Rejected? && Truthy(p.reason)
  {
    match p
    case Resolved(d) => Pair(Null, d)
    case Rejected(e) => Single(e)
  }

  /** `sendMsg` frames every unsolicited message as `[0, msg]`. */
  function SendMsgFrame(msg: Value): (f: Value)
    ensures f.Arr? && |f.items| == 2
    ensures Access(f, "0") == Some(Num(0)) && Access(f, "1") == Some(msg)
  {
    var f := Arr([Num(0), msg]);
    AccessIndex([Num(0), msg], 0);
    AccessIndex([Num(0), msg], 1);
    f
  }

  const RC_PATH := "rcPath="
  const LOG_PATH := "logPath="
  const PORT := "port="
  const DEFAULT_PORT := 8080

  /** `argv.find(a => a.startsWith(prefix))` from position `from` on. */
  function FindFrom(argv: seq<string>, prefix: string, from: nat): (r: Option<nat>)
    requires from <= |argv|
    ensures r.Some? ==> from <= r.value < |argv| && StartsWith(argv[r.value], prefix)
    ensures r.Some? ==> forall j | from <= j < r.value :: !StartsWith(argv[j], prefix)
    ensures r.None? ==> forall j | from <= j < |argv| :: !StartsWith(argv[j], prefix)
    decreases |argv| - from
  {
    if from == |argv| then None
    else if StartsWith(argv[from], prefix) then Some(from)
    else FindFrom(argv, prefix, from + 1)
  }

  /** `(argv.find(a => a.startsWith(prefix)) || '').substring(prefix.length)`: what follows the
      prefix in the first argument that has it, and "" when none has it. */
  function ArgValue(argv: seq<string>, prefix: string): (v: string)
    ensures (forall i | 0 <= i < |argv| :: !StartsWith(argv[i], prefix)) ==> v == ""
    ensures forall i | 0 <= i < |argv| && StartsWith(argv[i], prefix) ::
      (forall j | 0 <= j < i :: !StartsWith(argv[j], prefix)) ==> v == argv[i][|prefix|..]
  {
    var found := match FindFrom(argv, prefix, 0) case Some(i) => argv[i] case None => "";
    Substring(found, |prefix|)
  }

  function ConfigPath(argv: seq<string>): string { ArgValue(argv, RC_PATH) }

  function LogPath(argv: seq<string>): string { ArgValue(argv, LOG_PATH) }

  /** `socketPort`: the text after `port=` in the first argument that starts with it, or the
      number 8080 when there is no such argument or nothing follows the prefix. */
  function SocketPort(argv: seq<string>): (p: Value)
    ensures (forall i | 0 <= i < |argv| :: !StartsWith(argv[i], PORT)) ==> p == Num(DEFAULT_PORT)
    ensures forall i | 0 <= i < |argv| && StartsWith(argv[i], PORT) ::
      (forall j | 0 <= j < i :: !StartsWith(argv[j], PORT)) ==>
        p == if argv[i] == PORT then Num(DEFAULT_PORT) else Str(argv[i][|PORT|..])
  {
    var v := ArgValue(argv, PORT);
    if v == "" then Num(DEFAULT_PORT) else Str(v)
  }

  const MAX_RETRIES := 10
  const RETRY_DELAY := 500

  /** The calls `keepTrying` makes when the `k`-th call (from 0) is reached. */
  function CallsFrom<T>(attempt: nat -> Outcome<T>, k: nat): (n: nat)
    requires k <= MAX_RETRIES
    ensures k + 1 <= n <= MAX_RETRIES + 1
    ensures forall j | k <= j < n - 1 :: attempt(j).Rejected?
    ensures attempt(n - 1).Resolved? || n == MAX_RETRIES + 1
    decreases MAX_RETRIES - k
  {
    if attempt(k).Resolved? || k == MAX_RETRIES then k + 1 else CallsFrom(attempt, k + 1)
  }

  /** How many times `keepTrying` calls its getter: up to the first success, at most 1 + 10. */
  function RetryCalls<T>(attempt: nat -> Outcome<T>): (n: nat)
    ensures 1 <= n <= MAX_RETRIES + 1
    ensures forall j | 0 <= j < n - 1 :: attempt(j).Rejected?
    ensures attempt(n - 1).Resolved? || n == MAX_RETRIES + 1
  {
    CallsFrom(attempt, 0)
  }

  /**
   * `keepTrying(getter)`: the initial call, then `MAX_RETRIES` links each of which calls the
   * getter again if the previous one failed and, if that retry fails too, waits
   * `RETRY_DELAY` before passing the failure on. `attempt(k)` is how the `k`-th call settles.
   * It settles like the last call it makes; `waited` is the total delay. (`promisify` then
   * turns a rejection whose reason is falsy into a resolution with `undefined`; the one
   * caller, `startDebug`, reaches the same `TypeError` either way.)
   */
  method KeepTrying<T>(attempt: nat -> Outcome<T>) returns (r: Outcome<T>, calls: nat, waited: nat)
    ensures calls == RetryCalls(attempt)
    ensures r == attempt(calls - 1)
    ensures r.Rejected? ==> calls == MAX_RETRIES + 1 && waited == MAX_RETRIES * RETRY_DELAY
    ensures r.Resolved? ==> waited == (if calls >= 2 then calls - 2 else 0) * RETRY_DELAY
  {
    r := attempt(0);
    calls := 1;
    waited := 0;
    var i := 0;
    while i < MAX_RETRIES
      invariant 0 <= i <= MAX_RETRIES
      invariant 1 <= calls <= i + 1
      invariant r == attempt(calls - 1)
      invariant forall j | 0 <= j < calls - 1 :: attempt(j).Rejected?
      invariant r.Rejected? ==> calls == i + 1 && waited == i * RETRY_DELAY
      invariant r.Resolved? ==> waited == (if calls >= 2 then calls - 2 else 0) * RETRY_DELAY
    {
      if r.Rejected? {
        r := attempt(calls);
        calls := calls + 1;
        if r.Rejected? {
          waited := waited + RETRY_DELAY;
        }
      }
      i := i + 1;
    }
  }
}
