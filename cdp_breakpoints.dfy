/**
 * cdp.js, the pure part of breakpoint bookkeeping: resolving locations to URLs through the
 * script map, the breakpoint record, matching a request location, and the first-match
 * lookup `getBPByLoc` over an instance's bucket (a table in insertion order).
 */
module CdpBreakpoints {
  import opened Base
  import Dict
  import opened JsValue
  import opened Inspector

  /** A resolved location; `url` is `None` when the script id was not (yet) mapped. */
  datatype Location = Location(scriptId: string, lineNumber: int, columnNumber: int, url: Option<string>)

  datatype Breakpoint = Breakpoint(breakpointId: string, locations: seq<Location>)

  /** An instance's breakpoints by `breakpointId`, in insertion order. */
  type Bucket = Dict.Table<Breakpoint>

  /** An instance's script ids and the URLs they were parsed from. */
  type ScriptMap = map<string, string>

  /** `addUrlToLocation`: the location gains `url = scriptMappings[instance][scriptId]`, which is
      `undefined` for an unknown script id; nothing fails. */
  function AddUrlToLocation(scripts: ScriptMap, loc: RawLocation): (l: Location)
    ensures l.scriptId == loc.scriptId && l.lineNumber == loc.lineNumber && l.columnNumber == loc.columnNumber
    ensures l.url.Some? <==> loc.scriptId in scripts
    ensures loc.scriptId in scripts ==> l.url.value == scripts[loc.scriptId]
  {
    Location(loc.scriptId, loc.lineNumber, loc.columnNumber,
             if loc.scriptId in scripts then Some(scripts[loc.scriptId]) else None)
  }

  /** `getLocationsWithUrls`: every location resolved, in the same order. */
  function LocationsWithUrls(scripts: ScriptMap, locs: seq<RawLocation>): (r: seq<Location>)
    ensures |r| == |locs|
    ensures forall i | 0 <= i < |locs| :: r[i] == AddUrlToLocation(scripts, locs[i])
  {
    seq(|locs|, i requires 0 <= i < |locs| => AddUrlToLocation(scripts, locs[i]))
  }

  /** The value of a location's `url` property. */
  function UrlValue(url: Option<string>): Value
  {
    match url
    case Some(u) => Str(u)
    case None => Undefined
  }

  function LocationValue(l: Location): Value
  {
    Obj([("scriptId", Str(l.scriptId)), ("lineNumber", Num(l.lineNumber)),
         ("columnNumber", Num(l.columnNumber)), ("url", UrlValue(l.url))])
  }

  /** The breakpoint as the object `sendSuccess(bp)` spreads. */
  function BreakpointProps(bp: Breakpoint): (p: Props)
    ensures Dict.Unique(p) && Dict.Keys(p) == {"breakpointId", "locations"}
    ensures Field(p, "breakpointId") == Str(bp.breakpointId)
    ensures var l := Field(p, "locations");
      l.Arr? && |l.items| == |bp.locations| &&
      forall i | 0 <= i < |bp.locations| :: l.items[i] == LocationValue(bp.locations[i])
  {
    var p: Props := [("breakpointId", Str(bp.breakpointId)),
                     ("locations", Arr(seq(|bp.locations|, i requires 0 <= i < |bp.locations| =>
                                          LocationValue(bp.locations[i]))))];
    assert p[0].0 in Dict.Keys(p) && p[1].0 in Dict.Keys(p);
    assert p[1..] == [p[1]];
    p
  }

  /** `b.locations.some(l => l.lineNumber === line && l.url === url)`: strict equality, so a
      line sent as a string never matches. */
  predicate AtLocation(bp: Breakpoint, line: Value, url: Value)
  {
    exists i | 0 <= i < |bp.locations| :: HasLocation(bp, i, line, url)
  }

  predicate HasLocation(bp: Breakpoint, i: nat, line: Value, url: Value)
    requires i < |bp.locations|
  {
    Num(bp.locations[i].lineNumber) == line && UrlValue(bp.locations[i].url) == url
  }

  /** lodash `find` over the bucket from position `from`: the first matching position. */
  function FirstAt(bucket: Bucket, line: Value, url: Value, from: nat): (i: nat)
    requires from <= |bucket|
    ensures from <= i <= |bucket|
    ensures forall j | from <= j < i :: !AtLocation(bucket[j].1, line, url)
    ensures i < |bucket| ==> AtLocation(bucket[i].1, line, url)
    decreases |bucket| - from
  {
    if from == |bucket| then from
    else if AtLocation(bucket[from].1, line, url) then from
    else FirstAt(bucket, line, url, from + 1)
  }

  /**
   * `getBPByLoc(instance, loc)`: the first breakpoint, in bucket order, with a location at
   * `loc.lineNumber` and `loc.url`; nothing when none has one.
   */
  function GetBPByLoc(bucket: Bucket, loc: Props): (r: Option<Breakpoint>)
    ensures r.None? <==> forall j | 0 <= j < |bucket| :: !AtLocation(bucket[j].1, Field(loc, "lineNumber"), Field(loc, "url"))
    ensures r.Some? ==> exists i | 0 <= i < |bucket| ::
      bucket[i].1 == r.value && AtLocation(r.value, Field(loc, "lineNumber"), Field(loc, "url")) &&
      forall j | 0 <= j < i :: !AtLocation(bucket[j].1, Field(loc, "lineNumber"), Field(loc, "url"))
  {
    var line, url := Field(loc, "lineNumber"), Field(loc, "url");
    var i := FirstAt(bucket, line, url, 0);
    if i < |bucket| then Some(bucket[i].1) else None
  }

  /** A breakpoint stored under a fresh id is found again at one of its own locations, as
      long as no earlier breakpoint sits there, and deleting that id restores the bucket. */
  lemma SetThenRemoveRestores(bucket: Bucket, bp: Breakpoint, loc: Props)
    requires bp.breakpointId !in Dict.Keys(bucket)
    requires GetBPByLoc(bucket, loc) == None
    requires AtLocation(bp, Field(loc, "lineNumber"), Field(loc, "url"))
    ensures GetBPByLoc(Dict.Set(bucket, bp.breakpointId, bp), loc) == Some(bp)
    ensures Dict.Delete(Dict.Set(bucket, bp.breakpointId, bp), bp.breakpointId) == bucket
  {
    var after := Dict.Set(bucket, bp.breakpointId, bp);
    assert after == bucket + [(bp.breakpointId, bp)];
    assert after[|bucket|].1 == bp;
    assert forall j | 0 <= j < |bucket| :: after[j] == bucket[j];
    Dict.DeleteSetFresh(bucket, bp.breakpointId, bp);
  }

  /** First match wins: once an older breakpoint sits at a location, a new one stored at the
      same location is never the one found there. */
  lemma {:induction false} OlderMatchWins(bucket: Bucket, bp: Breakpoint, loc: Props)
    requires bp.breakpointId !in Dict.Keys(bucket)
    requires GetBPByLoc(bucket, loc).Some?
    ensures GetBPByLoc(Dict.Set(bucket, bp.breakpointId, bp), loc) == GetBPByLoc(bucket, loc)
  {
    var line, url := Field(loc, "lineNumber"), Field(loc, "url");
    var after := Dict.Set(bucket, bp.breakpointId, bp);
    assert after == bucket + [(bp.breakpointId, bp)];
    FirstAtExtends(bucket, [(bp.breakpointId, bp)], line, url, 0);
  }

  /** Appending entries does not move a match that already exists. */
  lemma {:induction false} FirstAtExtends(bucket: Bucket, more: Bucket, line: Value, url: Value, from: nat)
    requires from <= |bucket|
    requires FirstAt(bucket, line, url, from) < |bucket|
    ensures FirstAt(bucket + more, line, url, from) == FirstAt(bucket, line, url, from)
    decreases |bucket| - from
  {
    assert (bucket + more)[from] == bucket[from];
    if !AtLocation(bucket[from].1, line, url) {
      FirstAtExtends(bucket, more, line, url, from + 1);
    }
  }

  /** Every breakpoint is stored under its own `breakpointId`, as `rememberBP` does. */
  predicate KeyedById(bucket: Bucket)
  {
    forall j | 0 <= j < |bucket| :: bucket[j].0 == bucket[j].1.breakpointId
  }

  /** `rememberBP` keeps every breakpoint under its own id. */
  lemma SetKeyed(bucket: Bucket, bp: Breakpoint)
    requires KeyedById(bucket)
    ensures KeyedById(Dict.Set(bucket, bp.breakpointId, bp))
  {
    var r := Dict.Set(bucket, bp.breakpointId, bp);
    if bp.breakpointId !in Dict.Keys(bucket) {
      assert r == bucket + [(bp.breakpointId, bp)];
      assert forall j | 0 <= j < |bucket| :: r[j] == bucket[j];
    }
  }

  /** `forgetBPById` keeps every remaining breakpoint under its own id. */
  lemma DeleteKeyed(bucket: Bucket, id: string)
    requires KeyedById(bucket)
    ensures KeyedById(Dict.Delete(bucket, id))
  {
    var r := Dict.Delete(bucket, id);
    forall j | 0 <= j < |r| ensures r[j].0 == r[j].1.breakpointId {
      assert r[j] in bucket;
    }
  }

  /** In a bucket keyed by id, the breakpoint the lookup finds is stored under its id, so
      forgetting that id really removes an entry. */
  lemma FoundIsStored(bucket: Bucket, loc: Props)
    requires KeyedById(bucket)
    requires GetBPByLoc(bucket, loc).Some?
    ensures GetBPByLoc(bucket, loc).value.breakpointId in Dict.Keys(bucket)
    ensures |Dict.Delete(bucket, GetBPByLoc(bucket, loc).value.breakpointId)| < |bucket|
  {
    var bp := GetBPByLoc(bucket, loc).value;
    var i :| 0 <= i < |bucket| && bucket[i].1 == bp;
    assert bucket[i].0 == bp.breakpointId;
    Dict.DeleteShrinks(bucket, bp.breakpointId);
  }
}
