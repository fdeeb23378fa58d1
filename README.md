# aragundu, modelled in Dafny

aragundu is the server side of the Pesarattu editor debugger. An editor connects over TCP
and sends numbered requests `[seq, body]`. The server sequences them per connection and
dispatches commands. `cdp.js` keeps, per debug instance, the connected inspector client,
the sockets interested in it, a script-id-to-URL map and the breakpoints set through it
(`startDebug`, `setBP`, `removeBP`). `util.js` supplies the reply builders, the
promise-to-pair adapter `on`, the bounded retry `keepTrying` and the command-line options.

The model follows the three source files:

- `util.dfy` (module `Util`) covers util.js. Its pure helpers are functions with contracts.
  `keepTrying` is a method with a loop over attempt outcomes.
- `cdp_breakpoints.dfy` (module `CdpBreakpoints`) and `cdp_inspect.dfy` (module `CdpInspect`)
  hold the pure parts of cdp.js:
  - URL resolution, the breakpoint record and the first-match lookup `getBPByLoc`;
  - the spawn arguments and the inspector host/port read from the `--inspect` flag.
- `cdp.dfy` (module `Cdp`) holds the rest of cdp.js. Class `Gateway` carries the five
  module-level tables as fields, and its methods are the operations that update them.
- `aragundu.dfy` (module `Aragundu`) covers aragundu.js:
  - class `Server` for the `clients` list and the `CDPInstances` table;
  - class `Connection` for each connection's `servings`, `waitingOrders` and the frames
    written to its socket;
  - the pure functions `React`/`Next`, the specification the `data` handler is proved
    against.
- Support modules give the JavaScript semantics the code relies on:
  - `Dict`: objects as insertion-ordered tables, so lodash `find` sees insertion order;
  - `JsString`: `parseInt`, `split`, `startsWith`, `substring`, `includes`;
  - `JsValue`: values, truthiness, `String(v)`, property access that throws on
    `null`/`undefined`, `indexOf`, `splice`;
  - `Inspector`: the shapes the inspector client returns.

Calls into the inspector client are not modelled; their outcome is a parameter of the
operation that makes them. This covers connect, `Debugger.enable`,
`Debugger.setBreakpointByUrl` and `Debugger.removeBreakpoint`.

- An outcome is `Resolved(value)` or `Rejected(reason)`.
- `on(p)` turns it into the pair `[null, value]` or `[reason]`. Callers test the first slot
  for truthiness, so a rejection with a falsy reason is read as success. Where the resolved
  value is then used, it is `undefined`:
  - `setBP` replies with the "not possible" failure (cdp.js:49-50);
  - the connects in `startDebug` and `newCDPInstance` throw on `client.webSocketUrl`
    (cdp.js:220, aragundu.js:45);
  - `removeBreakpoint` and both `Debugger.enable` calls use no value, so there the falsy
    rejection passes as success.
- A request that throws, for example by reading a property of `undefined`, is
  `Rejected(TypeError)` in cdp.js and `Crashed` in aragundu.js.
- JSON parsing is an input (`Payload`). JSON output is kept as values.
- `JSON.stringify` of `sendMsg` frames is not modelled.

Some behaviours of the code are easy to miss; the model follows the code in each:

- `flushWaiting` only logs, so parked requests are never served, not even once the requests
  before them have been.
- A request numbered at or below `servings + 1` is served again, side effects included,
  however stale it is.
- aragundu.js routes only `new instance` and `populate breakpoints`. Every other command,
  `debug`, `setBP`, `removeBP` and `resume` included, is answered with
  `req unknown to aragundu`. The cdp.js operations are modelled on their own.
  Neither aragundu.js nor cdp.js implements `resume`.
- For `--inspect=HOST:PORT` the host is `--inspect=HOST`, flag prefix included.
- The first `addSocketToInstance` for an instance stores the socket under the literal key
  `socUrl`. The same socket registered a second time is therefore stored again under its URL.
- A body without a command that is an object, `null` or a number is not echoed: `includes`
  throws on it. Only string and array bodies can be echoed.
- Closing a socket that is not in `clients` removes the last client, because
  `splice(-1, 1)` counts from the end.

`errHndlr` in aragundu.js builds the same object as `sendFail` in util.js. Both are
`Util.SendFail`.

## Model

| member | source | states |
|---|---|---|
| Util.SendFail | util.js:49-52 | the reply has exactly the keys `status` and `err`, each once; status is "fail" and err is the given error |
| Util.SendSuccess | util.js:53-56 | status comes first and every field of the message is kept with its value; status is "success" unless the message brings its own |
| Util.SpreadGet | util.js:55 | after an object spread, a key of the source reads the source's value and any other key reads the target's |
| Util.SpreadKeys | util.js:55 | the spread's keys are the union of both objects' keys, each once |
| Util.On | util.js:57-63 | a resolution gives `[null, value]`, a rejection gives `[reason]`; the first slot is truthy exactly for a rejection with a truthy reason |
| Util.SendMsgFrame | util.js:65-67 | every frame is the two-element array `[0, msg]`: index 0 reads 0 and index 1 reads the message |
| Util.GetSocketURL | util.js:45 | the key is the family, then the address, then the port's canonical decimal spelling: nonempty digits with no leading zero that `parseInt` reads back as `remotePort` |
| Util.SocketURLDeterminesPort | util.js:45 | two sockets with the same family and address get the same key only when their ports agree |
| Util.SocketURLCollision | util.js:45 | distinct remotes (10.0.0.1:1234 and 10.0.0.11:234) get the same key |
| Util.FindFrom | util.js:12 | the first argv entry from a position that starts with the prefix, or none |
| Util.ArgValue | util.js:11-16 | the option is the remainder after the prefix of the first entry starting with it, and "" when there is none |
| Util.SocketPort | util.js:17-20 | the port is 8080 when no entry starts with `port=` or the remainder is empty, else the remainder as a string |
| Util.RetryCalls | util.js:83-96 | 1 to 11 calls are made; every call before the last failed; the last succeeded or was the 11th |
| Util.KeepTrying | util.js:83-96 | makes exactly `RetryCalls` calls and settles like the last one. A rejection means 11 calls and 10 delays of 500. A success after k calls follows k-2 delays, none if k is 1 or 2 |
| CdpBreakpoints.AddUrlToLocation | cdp.js:105-108 | the location keeps its fields and gains the script's URL exactly when the script id is mapped; an unknown id gives no URL and no failure |
| CdpBreakpoints.LocationsWithUrls | cdp.js:110-111 | every location is resolved, in the same order |
| CdpBreakpoints.BreakpointProps | cdp.js:52-54 | the breakpoint object has exactly the keys `breakpointId` and `locations`, each once; `breakpointId` reads its id and `locations` is the array of its (URL-resolved) locations, one per location in order |
| CdpBreakpoints.FirstAt | cdp.js:84-90 | the first position from `from` whose breakpoint has a location at the line and URL; none earlier has one |
| CdpBreakpoints.GetBPByLoc | cdp.js:84-90 | nothing exactly when no breakpoint has a location at the request's `lineNumber` and `url` (strict equality); otherwise the first one in bucket order that does |
| CdpBreakpoints.SetThenRemoveRestores | cdp.js:52-83 | a breakpoint stored under a fresh id where none matched is the one found at its location, and forgetting its id gives back the original bucket |
| CdpBreakpoints.OlderMatchWins | cdp.js:84-90 | once a breakpoint matches a location, storing another one under a fresh id does not change what the lookup returns |
| CdpBreakpoints.FirstAtExtends | cdp.js:84-90 | appending entries does not move an existing first match |
| CdpBreakpoints.SetKeyed | cdp.js:59-60 | `rememberBP` keeps every breakpoint stored under its own id |
| CdpBreakpoints.DeleteKeyed | cdp.js:57 | `forgetBPById` keeps every remaining breakpoint under its own id |
| CdpBreakpoints.FoundIsStored | cdp.js:69-81 | the breakpoint the lookup finds is stored under its id, so forgetting that id removes an entry |
| CdpInspect.SpawnArgs | cdp.js:153 | the arguments hold no space, rejoin with spaces to the command minus its first five characters, and are `[""]` for a command of five characters or fewer |
| CdpInspect.IsInspectFlag | cdp.js:186-188 | the flag test holds exactly for arguments starting with `--inspect`, so testing `--inspect-brk` first changes nothing |
| CdpInspect.InspectArg | cdp.js:184-188 | the first argument starting with `--inspect`, or "" when there is none |
| CdpInspect.InspectTarget | cdp.js:190-201 | without `=`: localhost and port 9229. With `=` but no `:`: localhost and, as a string, the text from the first `=` up to the next `=` or the end. With both: the host is the text before the first `:`, and the port the text from that `:` up to the next `:` or the end |
| CdpInspect.PortOnlyFlag | cdp.js:190-201 | any `FLAG=PORT` with no `:` and no further `=` (`--inspect=9230`, `--inspect-port=9230`) gives localhost and the string PORT |
| CdpInspect.HostPortFlag | cdp.js:190-201 | any `FLAG=HOST:PORT` with one `:` gives host `FLAG=HOST`, prefix included, and port PORT |
| CdpInspect.SpawnArgsOfTwo | cdp.js:153 | the command `node A B` gives the arguments `[A, B]` |
| CdpInspect.ScenarioFlag | cdp.js:184-188 | for `["--inspect=9230", "app.js"]` the flag found is `--inspect=9230` |
| CdpInspect.ScenarioTarget | cdp.js:190-201 | `--inspect=9230` targets localhost with port "9230" |
| Cdp.WithSocket | cdp.js:96-103 | the first registration stores the socket under "socUrl". Later ones keep every existing entry, add the socket's URL as a key, append at most one entry and keep keys distinct |
| Cdp.WithSocketIdempotent | cdp.js:100-102 | once the socket's URL is a key, registering it again changes nothing |
| Cdp.SocketURLIsNotFirstKey | cdp.js:97-99 | no socket's URL is the literal key "socUrl", since a URL ends in a digit |
| Cdp.SecondRegistrationDuplicates | cdp.js:98-102 | every socket registered twice from scratch is stored twice, under "socUrl" and under its URL; a third registration changes nothing |
| Cdp.ConfigEntry | cdp.js:149 | reading `config.instances[instance]` throws exactly when the config or its `instances` is `undefined`/`null`; otherwise it is that property, `undefined` when there is no entry |
| Cdp.PlanFor | cdp.js:149-201 | it throws when the entry cannot be read, when its `type` cannot be read (a missing entry included), and for a `node-inspect` entry exactly when `command` is not a string. Such an entry with command C is spawned with `SpawnArgs(C)` and targets the host/port of their first inspect flag; any other readable type connects with no options |
| Cdp.PlanForCommand | cdp.js:152-201 | a `node-inspect` entry is spawned with its command's arguments and attached at the target of their inspect flag |
| Cdp.PlanForNodeInspect | cdp.js:152-201 | the command `node --inspect=PORT app` is spawned as `[--inspect=PORT, app]` and attached at localhost:PORT |
| Cdp.Gateway.constructor | cdp.js:28-32 | all five tables start empty, and the table invariant holds |
| Cdp.Gateway.RememberBP | cdp.js:59-60 | only the instance's bucket changes; the breakpoint is stored under its id and reads back |
| Cdp.Gateway.ForgetBPById | cdp.js:57 | only the instance's bucket changes, and the id is no longer in it |
| Cdp.Gateway.AddSocketToInstance | cdp.js:96-103 | only the instance's socket table changes, as `WithSocket` says |
| Cdp.Gateway.OnScriptParsed | cdp.js:224-226 | the instance's script map gains the script id with its URL, nothing else changes, and `Valid()` is kept |
| Cdp.Gateway.SetBP | cdp.js:37-55 | an inactive instance fails with "instance not active" and sends nothing. A truthy error comes back as the failure. A reply without locations fails as "not possible", with the instance and the data minus `instance`. Only on success is the resolved breakpoint stored under its id and returned, and only then does the store change |
| Cdp.Gateway.RemoveBP | cdp.js:62-83 | an inactive instance fails with "instance not active", and no match fails with "Breakpoint not found"; a truthy error fails with that error; in these cases the store is unchanged. Otherwise the first matching breakpoint's id is removed from its bucket and that breakpoint is returned |
| Cdp.Gateway.StartDebug | cdp.js:139-239 | an active instance only gains the socket and gets success `{instance}`. An unreadable config entry throws and changes nothing. Otherwise the plan's target is used and the rest is `ConnectEffect` |
| Cdp.Gateway.Connect | cdp.js:179-239 | a spawned instance is recorded in `debugging` at once, then `ClientEffect` holds |
| Cdp.Gateway.ConnectClient | cdp.js:216-239 | a truthy connect error fails, and a falsy one throws; neither changes a table. With a client the script map is reset. A truthy enable error then fails without storing. Otherwise the client is stored, the socket registered and an absent bucket created while an existing one is kept |
| Cdp.Gateway.Attach | cdp.js:223-238 | the script map is reset to empty. A truthy enable error fails and leaves the client, socket and breakpoint tables alone. Otherwise the client is stored, the socket registered and the bucket created only if absent |
| Aragundu.CommandOf | aragundu.js:88-92 | `new instance` and `populate breakpoints` are chosen by strict equality on `attu`; everything else is unknown |
| Aragundu.SendBreakpoints | aragundu.js:54-56 | exactly `{status: "success", yay: "yoho"}` |
| Aragundu.NewInstanceOutcome | aragundu.js:40-52 | it throws exactly on a connect rejection with a falsy reason. A truthy connect or enable error is the failure. Otherwise the connected client is stored and the reply is exactly `{status: 'success', debSocket: webSocketUrl}`; a client is stored exactly when the reply is a success |
| Aragundu.EchoSpec | aragundu.js:73-79 | the echo throws exactly for bodies that are neither strings nor arrays; with the request's seq it replies `sup?` when the body includes `orai` and `['ex', "echo 'teehe'"]` when it does not |
| Aragundu.DispatchSpec | aragundu.js:80-94 | the handler sees the body with `attu` deleted and is chosen by `attu`. `new instance` replies and stores what `newCDPInstance` does, and only it can throw. `populate breakpoints` gives the fixed success and an unknown command gives `req unknown to aragundu` |
| Aragundu.HasCommand | aragundu.js:73 | only an object body can take the command branch |
| Aragundu.ServeOrderSpec | aragundu.js:71-95 | serving never parks or refuses, and every reply is tagged with the request's own seq |
| Aragundu.React | aragundu.js:97-114 | an unparseable payload is refused. A request is parked exactly when `parseInt(data[0])` is a number above `servings + 1`, under `String(data[0])`. Every other parsed request goes to `serveOrder` (`ServeOrderSpec`), and its served reply carries `data[0]`; a request whose `data[0]` cannot be read throws |
| Aragundu.Written | aragundu.js:78-102 | at most one frame per event, none exactly for parked or crashed requests. A refusal writes `sendFail(e)`; a served request writes the pair `[seq, msg]` for an echo and `[seq, reply]` for a command |
| Aragundu.Next | aragundu.js:105-113 | parked keys are never removed; `servings` grows by one exactly for served requests; frames are appended; only parking changes the buffer |
| Aragundu.RunKeepsWaiting | aragundu.js:66-70 | over any sequence of events, every parked key stays parked: the buffer never drains |
| Aragundu.RunServingsBounds | aragundu.js:107-112 | over any run `servings` never decreases and grows by at most one per event |
| Aragundu.UnparkedServed | aragundu.js:107-111 | any parsed request whose `parseInt(data[0])` is NaN or at most `servings + 1` is served, its branch chosen by `data[1]` alone, whatever `data[0]` is and whatever else the array holds |
| Aragundu.ServedFrame | aragundu.js:78-94 | the frame a served request adds is the last write, and reads back `data[0]` at index 0 and the message or reply at index 1 |
| Aragundu.NumberedServed | aragundu.js:107-111 | a request `[n, body]` with n at most `servings + 1` is served, its branch chosen by the body alone |
| Aragundu.StaleRequestServed | aragundu.js:107-112 | a `populate breakpoints` request numbered at or behind the next expected one is answered again, and `servings` grows by one |
| Aragundu.AheadRequestParked | aragundu.js:105-110 | a request numbered above `servings + 1` is parked under its number, unanswered, and nothing else changes |
| Aragundu.UnparseableRefused | aragundu.js:98-103 | an unparseable payload writes a bare `{status: "fail", err}` and changes nothing else |
| Aragundu.StringBodyEchoed | aragundu.js:73-79 | a string body is echoed with its seq, as `sup?` exactly when it contains `orai` |
| Aragundu.ObjectBodyWithoutCommandCrashes | aragundu.js:73-75 | an object body without a truthy `attu` makes the handler throw |
| Aragundu.UnknownCommandRefused | aragundu.js:84-94 | an unknown command is answered `req unknown to aragundu` with its seq, and its handler would see the body without `attu` |
| Aragundu.StoredIn | aragundu.js:50 | a stored client is readable under its `webSocketUrl`, which is the only key that can appear; every other key keeps its client |
| Aragundu.Server.constructor | aragundu.js:36-37 | no clients and no inspector instances |
| Aragundu.Server.Accept | aragundu.js:58-64 | the socket is appended to `clients`. The new connection has served nothing, parked nothing and written only `[0, 'chittam maha prabhu']` |
| Aragundu.Server.Close | aragundu.js:116-119 | `clients` becomes the `splice` of the found position |
| Aragundu.Server.NewCDPInstance | aragundu.js:40-52 | returns `NewInstanceOutcome`, and stores the client under its URL exactly when it reports one stored |
| Aragundu.ClosePresent | aragundu.js:116-119 | closing a listed socket removes its first entry, keeps the others in order, and removes one copy from the multiset |
| Aragundu.CloseAbsentDropsLast | aragundu.js:116-119 | closing a socket that is not listed removes the last client |
| Aragundu.Connection.constructor | aragundu.js:61-64 | a new connection has served nothing, parked nothing and written the greeting |
| Aragundu.Connection.OnData | aragundu.js:97-114 | the reaction is `React` of the old count, and the new state is `Next` of the old. Inspector clients change only as `StoredIn` says |
| Aragundu.Connection.ServeOrder | aragundu.js:71-95 | the reaction is `ServeOrderSpec`, its frame is appended and the server's clients change as `StoredIn` says |
| Aragundu.Connection.Dispatch | aragundu.js:80-94 | the reaction is `DispatchSpec`, its frame is appended and the server's clients change as `StoredIn` says |
| Dict.Get | cdp.js:38 | finds a key exactly when it is in the table, and returns a value stored under it |
| Dict.Set | cdp.js:59-60 | assignment adds the key. A new key is appended; an existing one is replaced in place and every other entry is kept |
| Dict.Delete | cdp.js:57 | `delete` removes exactly the key: an absent key changes nothing, and in a table with unique keys the one entry under the key is cut out and the others keep their order |
| Dict.DeleteSetFresh | cdp.js:57-60 | assigning a fresh key and deleting it gives back the table |
| Dict.GetSet | cdp.js:59-60 | assignment changes what the assigned key reads and nothing else |
| Dict.GetDelete | cdp.js:57 | after deletion the key reads nothing and every other key reads as before |
| JsString.Split | cdp.js:153 | `split` gives pieces free of the separator that rejoin to the input, more than one exactly when the separator occurs |
| JsString.SplitCons | cdp.js:191-199 | a piece without the separator, then the separator, splits off as the first piece |
| JsString.ParseInt | aragundu.js:107 | a nonempty string of decimal digits parses to its value, leading zeros included |
| JsString.ParseIntOfIntToString | aragundu.js:107 | `parseInt(String(n))` reads back n for every integer |
| JsValue.Access | aragundu.js:73 | reading a property throws exactly on `undefined` and `null` |
| JsValue.IncludesValue | aragundu.js:75 | `includes` is defined exactly on strings (a substring test) and arrays (an element test) |
| JsValue.IndexOfElement | aragundu.js:117 | the first position of the element, or -1 exactly when it is absent |
| JsValue.SpliceOne | aragundu.js:118 | `splice(start, 1)` removes the element at start, counting from the end when start is negative, and changes nothing past the end |

## Left out

- Process spawning, the instance log file, and the `close`/`error` notifications of the child
  process are left out as operating-system I/O. `StartDebug` takes the process identity as a
  parameter and records it.
- The "spawned with these params" message is not modelled. It is a `sendMsg` of a
  `JSON.stringify` text, and the model has no JSON output.
- The inspector client library is not modelled. The outcomes of connect,
  `Debugger.enable`, `setBreakpointByUrl` and `removeBreakpoint` are parameters, and so is
  the order in which client events arrive.
- The `paused` broadcast is not modelled. As written, `curry(paused)(instance)` binds the
  instance to the sockets parameter, and `sockets[instance].entries` is undefined on a plain
  object. It has no coherent behaviour to state.
- Loading the config with `require` is not modelled, nor is redirecting stdout and stderr to
  the log file; both are filesystem and process I/O. The loaded config is a parameter of
  `StartDebug`.
- The TCP server and `socket.write` are not modelled. Writes are recorded as a sequence of
  values, and `JSON.parse` is an input.
- Concurrency is not modelled. The `data` handler awaits `serveOrder` before incrementing
  `servings`, so overlapping events could interleave. Each event is modelled as running to
  completion.
- Util.KeepTrying: counts the delays instead of timing them.
- Util.KeepTrying: a rejection is returned as it is. `promisify` would turn a falsy-reason
  rejection into a resolution with `undefined`, but `startDebug` throws the same `TypeError`
  either way.
- Numbers are integers. Floating-point values, NaN and `Infinity` as request numbers are not
  modelled; a `parseInt` that reads no digits is NaN.
- Strings are sequences of characters. UTF-16 indexing and surrogate pairs are not modelled.
- Properties inherited from `Object.prototype` are not modelled. Keys such as `toString` are
  treated as absent from the module-level tables.
- Object key order follows insertion, which is what lodash `find` sees. JavaScript would list
  array-index-like keys (such as "12") first. A breakpoint id or socket URL of that form is not
  modelled.
- In-place mutation is modelled on values. This covers `addUrlToLocation` writing
  `location.url`, `delete data.instance` and `delete data[1].attu`. The caller's objects
  themselves are not aliased or updated.
- The `resume` command and breakpoint enumeration are not modelled: neither aragundu.js nor
  cdp.js implements them. constants.js holds only literal constants.
- `CDPInstances` in aragundu.js is an array used as a dictionary, and is modelled as a map.
  A `webSocketUrl` that looks like an array index would change the array's length; that is
  not modelled.
- The configuration-path and log-path options are `Util.ConfigPath` and `Util.LogPath`.
  Both are `Util.ArgValue`, whose row states their contract.
