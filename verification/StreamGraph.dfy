/** The go2rtc alias graph that the importer follows: which camera source an input finally reads,
    and which aliases a camera entry holds open. */
module StreamGraph {
  import opened Common
  import opened FrigateConfig

  const MAX_SOURCES := 8
  const RELAY_PORT := 8554

  /** Aliases followed so far; one step past the limit is still looked at, and refused. */
  type Trail = t: seq<string> | |t| <= MAX_SOURCES + 1 witness []

  /** A source with its credentials taken apart. `wrapper` holds FFmpeg conversion options. */
  datatype Resolved = Resolved(uri: Url, username: string, password: string, wrapper: Option<string>)

  predicate IsText(j: Json) {
    j.Text? || j.Media?
  }

  function Parsed(j: Json): Source
    requires IsText(j)
  {
    match j
    case Media(source) => source
    case Text(s) => Source(false, None, false, Name(s))
  }

  /** A stream value is a list of fallbacks, or one source on its own. */
  function Fallbacks(j: Json): seq<Json> {
    if j.List? then j.items else [j]
  }

  predicate Rtsp(u: Url) {
    u.scheme == "rtsp" || u.scheme == "rtsps"
  }

  /** The URL addresses Frigate's own go2rtc server. A port of zero counts as absent. */
  predicate AtRelay(u: Url) {
    && u.host in {"localhost", "127.0.0.1", "::1"}
    && (if u.port.Some? && u.port.value != 0 then u.port.value else 554) == RELAY_PORT
  }

  function RelayLink(alias: string): Json {
    Media(Source(false, None, false,
                 Link(Url("rtsp", "127.0.0.1", Some(RELAY_PORT), alias, "", "", "", "", false))))
  }

  /** The same address without credentials. */
  function Bare(u: Url): Url {
    u.(username := "", password := "", port := if u.port == Some(0) then None else u.port)
  }

  /** `resolve_source` */
  function ResolveSource(value: Json, streams: map<string, Json>, trail: Trail := []): Result<Resolved>
    decreases MAX_SOURCES + 1 - |trail|
  {
    if !IsText(value) || |trail| > MAX_SOURCES then Err("unsupported_source") else
    var source := Parsed(value);
    var wrapper := if source.ffmpeg then source.options else None;
    if source.templated then Err("unresolved_secret")
    else if source.target.Name? then Err("unsupported_source")
    else
      var u := source.target.url;
      if AtRelay(u) then
        if u.path in trail then Err("relay_cycle") else
        var sources := Fallbacks(At(streams, u.path));
        if |sources| != 1 then Err("multiple_source_fallbacks") else
        match ResolveSource(sources[0], streams, trail + [u.path])
        case Err(code) => Err(code)
        case Ok(r) =>
          if wrapper.Some? && r.wrapper.Some? then Err("unsupported_source")
          else Ok(r.(wrapper := if wrapper.Some? then wrapper else r.wrapper))
      else if !Rtsp(u) || u.host == "" || u.fragment != "" then Err("unsupported_source")
      else if u.secretText then Err("unsupported_secret_query")
      else Ok(Resolved(Bare(u), u.username, u.password, wrapper))
  }

  /** The alias that a source reads through Frigate, if it reads one that exists. */
  function AliasOf(value: Json, streams: map<string, Json>): Option<string>
    requires IsText(value)
  {
    match Parsed(value).target
    case Name(name) => if name in streams then Some(name) else None
    case Link(u) => if Rtsp(u) && AtRelay(u) && u.path in streams then Some(u.path) else None
  }

  /** The `visit` step of `_media_aliases`: every alias read from one value. */
  function Visit(value: Json, streams: map<string, Json>, trail: Trail): Result<set<string>>
    decreases MAX_SOURCES + 1 - |trail|, 0
  {
    if !IsText(value) || |trail| > MAX_SOURCES then Err("unsafe_handoff_source") else
    match AliasOf(value, streams)
    case None => Ok({})
    case Some(alias) =>
      if alias in trail then Err("relay_cycle")
      else Joined({alias}, VisitAll(Fallbacks(streams[alias]), streams, trail + [alias]))
  }

  function VisitAll(values: seq<Json>, streams: map<string, Json>, trail: Trail): Result<set<string>>
    decreases MAX_SOURCES + 1 - |trail|, |values|
  {
    if values == [] then Ok({}) else
    match Visit(values[0], streams, trail)
    case Err(code) => Err(code)
    case Ok(found) => Joined(found, VisitAll(values[1..], streams, trail))
  }

  function Joined(found: set<string>, rest: Result<set<string>>): Result<set<string>> {
    match rest
    case Ok(more) => Ok(found + more)
    case Err(code) => Err(code)
  }

  lemma JoinedTwice(found: set<string>, more: set<string>, rest: Result<set<string>>)
    ensures Joined(found, Joined(more, rest)) == Joined(found + more, rest)
  {
    if rest.Ok? {
      assert found + (more + rest.value) == found + more + rest.value;
    }
  }

  /** `visit` as the importer runs it, adding to the set of aliases found so far. */
  method Collect(value: Json, streams: map<string, Json>, trail: Trail, found: set<string>)
    returns (r: Result<set<string>>)
    ensures r == Joined(found, Visit(value, streams, trail))
    decreases MAX_SOURCES + 1 - |trail|
  {
    if !IsText(value) || |trail| > MAX_SOURCES {
      return Err("unsafe_handoff_source");
    }
    var next := AliasOf(value, streams);
    if next.None? {
      assert found + {} == found;
      return Ok(found);
    }
    if next.value in trail {
      return Err("relay_cycle");
    }
    var sources, longer := Fallbacks(streams[next.value]), trail + [next.value];
    var all := found + {next.value};
    JoinedTwice(found, {next.value}, VisitAll(sources, streams, longer));
    for i := 0 to |sources|
      invariant Joined(found + {next.value}, VisitAll(sources, streams, longer))
             == Joined(all, VisitAll(sources[i..], streams, longer))
    {
      var one := Collect(sources[i], streams, longer, all);
      assert sources[i..][0] == sources[i] && sources[i..][1..] == sources[i + 1..];
      if one.Err? {
        return one;
      }
      JoinedTwice(all, Visit(sources[i], streams, longer).value, VisitAll(sources[i + 1..], streams, longer));
      all := one.value;
    }
    assert sources[|sources|..] == [] && all + {} == all;
    return Ok(all);
  }

  // ----- what a walk sees, and when it is refused

  /** Reading `value` opens the aliases of `path` one after the other and arrives at `end`. */
  ghost predicate Walk(value: Json, streams: map<string, Json>, path: seq<string>, end: Json)
    decreases |path|
  {
    if path == [] then end == value else
    && IsText(value)
    && AliasOf(value, streams) == Some(path[0])
    && exists source :: source in Fallbacks(streams[path[0]]) && Walk(source, streams, path[1..], end)
  }

  /** A value met after following `path`: it is a string, not too deep, and closes no cycle. */
  predicate Acceptable(end: Json, streams: map<string, Json>, path: seq<string>) {
    && IsText(end)
    && |path| <= MAX_SOURCES
    && (AliasOf(end, streams).Some? ==> AliasOf(end, streams).value !in path)
  }

  ghost predicate Reachable(value: Json, streams: map<string, Json>, alias: string) {
    exists path, end :: Walk(value, streams, path, end) && IsText(end) && AliasOf(end, streams) == Some(alias)
  }

  lemma {:induction false} VisitAllMember(values: seq<Json>, streams: map<string, Json>, trail: Trail, i: nat)
    requires VisitAll(values, streams, trail).Ok? && i < |values|
    ensures Visit(values[i], streams, trail).Ok?
    ensures Visit(values[i], streams, trail).value <= VisitAll(values, streams, trail).value
  {
    if i > 0 {
      VisitAllMember(values[1..], streams, trail, i - 1);
    }
  }

  lemma {:induction false} VisitAllOrigin(values: seq<Json>, streams: map<string, Json>, trail: Trail, alias: string)
    returns (i: nat)
    requires VisitAll(values, streams, trail).Ok? && alias in VisitAll(values, streams, trail).value
    ensures i < |values| && Visit(values[i], streams, trail).Ok? && alias in Visit(values[i], streams, trail).value
  {
    if alias in Visit(values[0], streams, trail).value {
      i := 0;
    } else {
      var j := VisitAllOrigin(values[1..], streams, trail, alias);
      i := j + 1;
    }
  }

  lemma {:induction false} VisitAllRefusal(values: seq<Json>, streams: map<string, Json>, trail: Trail)
    returns (i: nat)
    requires VisitAll(values, streams, trail).Err?
    ensures i < |values| && Visit(values[i], streams, trail).Err?
  {
    if Visit(values[0], streams, trail).Err? {
      i := 0;
    } else {
      var j := VisitAllRefusal(values[1..], streams, trail);
      i := j + 1;
    }
  }

  lemma {:induction false} VisitedIsWalked(value: Json, streams: map<string, Json>, trail: Trail, alias: string)
    returns (path: seq<string>, end: Json)
    requires Visit(value, streams, trail).Ok? && alias in Visit(value, streams, trail).value
    ensures Walk(value, streams, path, end) && IsText(end) && AliasOf(end, streams) == Some(alias)
    decreases MAX_SOURCES + 1 - |trail|
  {
    var first := AliasOf(value, streams).value;
    if alias == first {
      path, end := [], value;
    } else {
      var sources := Fallbacks(streams[first]);
      var i := VisitAllOrigin(sources, streams, trail + [first], alias);
      var rest, last := VisitedIsWalked(sources[i], streams, trail + [first], alias);
      path, end := [first] + rest, last;
      assert path[1..] == rest && sources[i] in sources;
    }
  }

  lemma {:induction false} WalkedIsVisited(
    value: Json, streams: map<string, Json>, trail: Trail, path: seq<string>, end: Json)
    requires Visit(value, streams, trail).Ok? && Walk(value, streams, path, end)
    ensures Acceptable(end, streams, trail + path)
    ensures AliasOf(end, streams).Some? ==> AliasOf(end, streams).value in Visit(value, streams, trail).value
    decreases |path|
  {
    if path == [] {
      assert trail + path == trail;
    } else {
      var source :| source in Fallbacks(streams[path[0]]) && Walk(source, streams, path[1..], end);
      var sources := Fallbacks(streams[path[0]]);
      var i :| 0 <= i < |sources| && sources[i] == source;
      VisitAllMember(sources, streams, trail + [path[0]], i);
      WalkedIsVisited(source, streams, trail + [path[0]], path[1..], end);
      assert trail + [path[0]] + path[1..] == trail + path;
    }
  }

  lemma {:induction false} RefusalHasAWalk(value: Json, streams: map<string, Json>, trail: Trail)
    returns (path: seq<string>, end: Json)
    requires Visit(value, streams, trail).Err?
    ensures Walk(value, streams, path, end) && !Acceptable(end, streams, trail + path)
    decreases MAX_SOURCES + 1 - |trail|
  {
    path, end := [], value;
    assert trail + path == trail;
    if Acceptable(value, streams, trail) {
      var alias := AliasOf(value, streams).value;
      var sources := Fallbacks(streams[alias]);
      var i := VisitAllRefusal(sources, streams, trail + [alias]);
      var rest, last := RefusalHasAWalk(sources[i], streams, trail + [alias]);
      path, end := [alias] + rest, last;
      assert path[1..] == rest && sources[i] in sources;
      assert trail + [alias] + rest == trail + path;
    }
  }

  /** A visit succeeds exactly when no walk meets a non-string, a cycle or more than the allowed depth,
      and then it returns exactly the aliases that can be reached. */
  lemma VisitIsReachability(value: Json, streams: map<string, Json>)
    ensures Visit(value, streams, []).Ok? <==>
            forall path, end :: Walk(value, streams, path, end) ==> Acceptable(end, streams, path)
    ensures Visit(value, streams, []).Ok? ==>
            forall alias :: alias in Visit(value, streams, []).value <==> Reachable(value, streams, alias)
  {
    if Visit(value, streams, []).Err? {
      var path, end := RefusalHasAWalk(value, streams, []);
      assert [] + path == path;
    } else {
      forall path, end | Walk(value, streams, path, end)
        ensures Acceptable(end, streams, path)
        ensures AliasOf(end, streams).Some? ==> AliasOf(end, streams).value in Visit(value, streams, []).value
      {
        WalkedIsVisited(value, streams, [], path, end);
        assert [] + path == path;
      }
      forall alias | alias in Visit(value, streams, []).value ensures Reachable(value, streams, alias) {
        var path, end := VisitedIsWalked(value, streams, [], alias);
      }
    }
  }

  // ----- overwriting aliases that a value does not read

  /** `changed` differs from `streams` only on the aliases in `hidden`. */
  ghost predicate DiffersOnlyOn(streams: map<string, Json>, changed: map<string, Json>, hidden: set<string>) {
    && changed.Keys == streams.Keys
    && forall alias | alias in streams && alias !in hidden :: changed[alias] == streams[alias]
  }

  /** Everything that reading a value opens, alias by alias and fallback by fallback. */
  datatype Feed = End(value: Json) | Via(alias: string, feeds: seq<Feed>)

  ghost function Expand(value: Json, streams: map<string, Json>, depth: nat): Feed
    decreases depth
  {
    if depth == 0 || !IsText(value) || AliasOf(value, streams).None? then End(value) else
    var alias := AliasOf(value, streams).value;
    var sources := Fallbacks(streams[alias]);
    Via(alias, seq(|sources|, i requires 0 <= i < |sources| => Expand(sources[i], streams, depth - 1)))
  }

  lemma {:induction false} ExpandUnaffected(
    value: Json, streams: map<string, Json>, changed: map<string, Json>, hidden: set<string>, trail: Trail, depth: nat)
    requires DiffersOnlyOn(streams, changed, hidden)
    requires Visit(value, streams, trail).Ok? && Visit(value, streams, trail).value !! hidden
    ensures Expand(value, changed, depth) == Expand(value, streams, depth)
    decreases depth
  {
    if depth > 0 && AliasOf(value, streams).Some? {
      var alias := AliasOf(value, streams).value;
      var sources := Fallbacks(streams[alias]);
      forall i | 0 <= i < |sources|
        ensures Expand(sources[i], changed, depth - 1) == Expand(sources[i], streams, depth - 1)
      {
        VisitAllMember(sources, streams, trail + [alias], i);
        ExpandUnaffected(sources[i], streams, changed, hidden, trail + [alias], depth - 1);
      }
    }
  }

  // ----- which overwritten aliases can change a resolution

  /** `changed` agrees with `streams` outside `hidden`; in it, aliases may be changed, added or removed. */
  ghost predicate AgreeOutside(streams: map<string, Json>, changed: map<string, Json>, hidden: set<string>) {
    forall alias | alias !in hidden :: (alias in changed <==> alias in streams) && At(changed, alias) == At(streams, alias)
  }

  /** The aliases that resolution asks for, by links of any scheme and whether or not they exist. */
  function Followed(value: Json, streams: map<string, Json>, trail: Trail := []): set<string>
    decreases MAX_SOURCES + 1 - |trail|
  {
    if !IsText(value) || |trail| > MAX_SOURCES then {} else
    var source := Parsed(value);
    if source.templated || source.target.Name? || !AtRelay(source.target.url) || source.target.url.path in trail then {} else
    var alias := source.target.url.path;
    var sources := Fallbacks(At(streams, alias));
    {alias} + if |sources| == 1 then Followed(sources[0], streams, trail + [alias]) else {}
  }

  /** Every link that resolution follows uses RTSP. */
  predicate FollowsByRtsp(value: Json, streams: map<string, Json>, trail: Trail := [])
    decreases MAX_SOURCES + 1 - |trail|
  {
    if !IsText(value) || |trail| > MAX_SOURCES then true else
    var source := Parsed(value);
    if source.templated || source.target.Name? || !AtRelay(source.target.url) || source.target.url.path in trail then true else
    var alias := source.target.url.path;
    var sources := Fallbacks(At(streams, alias));
    Rtsp(source.target.url) && (|sources| == 1 ==> FollowsByRtsp(sources[0], streams, trail + [alias]))
  }

  lemma {:induction false} UnfollowedIsIgnored(
    value: Json, streams: map<string, Json>, changed: map<string, Json>, hidden: set<string>, trail: Trail)
    requires AgreeOutside(streams, changed, hidden) && Followed(value, streams, trail) !! hidden
    ensures ResolveSource(value, changed, trail) == ResolveSource(value, streams, trail)
    decreases MAX_SOURCES + 1 - |trail|
  {
    if IsText(value) && |trail| <= MAX_SOURCES && !Parsed(value).templated && Parsed(value).target.Link?
       && AtRelay(Parsed(value).target.url) && Parsed(value).target.url.path !in trail
    {
      var alias := Parsed(value).target.url.path;
      assert alias in Followed(value, streams, trail);
      var sources := Fallbacks(At(streams, alias));
      if |sources| == 1 {
        UnfollowedIsIgnored(sources[0], streams, changed, hidden, trail + [alias]);
      }
    }
  }

  function Overwritten(streams: map<string, Json>, hidden: set<string>, value: Json): map<string, Json> {
    streams + map alias | alias in hidden :: value
  }

  /** Two stream values that end every resolution, each in its own way. */
  predicate DeadEnd(value: Json, code: string) {
    (value == List([]) && code == "multiple_source_fallbacks") || (value == Text("off") && code == "unsupported_source")
  }

  lemma {:induction false} FollowedIsNoticed(
    value: Json, streams: map<string, Json>, hidden: set<string>, dead: Json, code: string, trail: Trail)
    requires DeadEnd(dead, code) && !(Followed(value, streams, trail) !! hidden)
    ensures ResolveSource(value, Overwritten(streams, hidden, dead), trail) == Err(code)
    decreases MAX_SOURCES + 1 - |trail|
  {
    var alias := Parsed(value).target.url.path;
    var sources := Fallbacks(At(streams, alias));
    if alias !in hidden && |sources| == 1 {
      FollowedIsNoticed(sources[0], streams, hidden, dead, code, trail + [alias]);
    }
  }

  /** Exactly which aliases a resolution depends on: no change of the aliases in `hidden` can alter what the
      value resolves to if and only if resolution follows none of them. */
  lemma IgnoredIffUnfollowed(value: Json, streams: map<string, Json>, hidden: set<string>)
    ensures Followed(value, streams) !! hidden <==>
            forall changed | AgreeOutside(streams, changed, hidden) ::
              ResolveSource(value, changed) == ResolveSource(value, streams)
    ensures hidden <= streams.Keys ==>
              (Followed(value, streams) !! hidden <==>
               forall changed | DiffersOnlyOn(streams, changed, hidden) ::
                 ResolveSource(value, changed) == ResolveSource(value, streams))
  {
    forall changed | AgreeOutside(streams, changed, hidden) && Followed(value, streams) !! hidden
      ensures ResolveSource(value, changed) == ResolveSource(value, streams)
    {
      UnfollowedIsIgnored(value, streams, changed, hidden, []);
    }
    forall changed | DiffersOnlyOn(streams, changed, hidden) && hidden <= streams.Keys
      ensures AgreeOutside(streams, changed, hidden)
    {
    }
    if !(Followed(value, streams) !! hidden) {
      var a, b := Overwritten(streams, hidden, List([])), Overwritten(streams, hidden, Text("off"));
      FollowedIsNoticed(value, streams, hidden, List([]), "multiple_source_fallbacks", []);
      FollowedIsNoticed(value, streams, hidden, Text("off"), "unsupported_source", []);
      assert ResolveSource(value, a).code[0] == 'm' && ResolveSource(value, b).code[0] == 'u';
      assert AgreeOutside(streams, a, hidden) && AgreeOutside(streams, b, hidden);
      if hidden <= streams.Keys {
        assert DiffersOnlyOn(streams, a, hidden) && DiffersOnlyOn(streams, b, hidden);
      }
    }
  }

  /** A value whose visited aliases avoid the hidden ones, and that is resolved through RTSP links only, does
      not follow them. */
  lemma {:induction false} VisitedByRtsp(
    value: Json, streams: map<string, Json>, hidden: set<string>, trail: Trail, visited: Trail)
    requires hidden <= streams.Keys && FollowsByRtsp(value, streams, trail)
    requires Visit(value, streams, visited).Ok? && Visit(value, streams, visited).value !! hidden
    ensures Followed(value, streams, trail) !! hidden
    decreases MAX_SOURCES + 1 - |trail|
  {
    if |trail| <= MAX_SOURCES && !Parsed(value).templated && Parsed(value).target.Link?
       && AtRelay(Parsed(value).target.url) && Parsed(value).target.url.path !in trail
    {
      var alias := Parsed(value).target.url.path;
      var sources := Fallbacks(At(streams, alias));
      if alias in streams {
        assert AliasOf(value, streams) == Some(alias);
        if |sources| == 1 {
          VisitAllMember(sources, streams, visited + [alias], 0);
          VisitedByRtsp(sources[0], streams, hidden, trail + [alias], visited + [alias]);
        }
      }
    }
  }

  // ----- camera entries

  /** Python's `mapping.get(key, default)`; anything but a mapping is malformed. */
  function Field(j: Json, key: string, default: Json): Result<Json> {
    if !j.Obj? then Err("malformed") else Ok(if key in j.fields then j.fields[key] else default)
  }

  function Inputs(camera: Json): Result<seq<Json>> {
    var ffmpeg := Field(camera, "ffmpeg", Obj(map[]));
    if ffmpeg.Err? then Err(ffmpeg.code) else
    var inputs := Field(ffmpeg.value, "inputs", List([]));
    if inputs.Err? || !inputs.value.List? then Err("malformed") else Ok(inputs.value.items)
  }

  function LiveNames(camera: Json): Result<set<string>> {
    var live := Field(camera, "live", Obj(map[]));
    if live.Err? then Err(live.code) else
    var names := Field(live.value, "streams", Obj(map[]));
    if names.Err? || !names.value.Obj? then Err("malformed")
    else Ok(set view | view in names.value.fields && names.value.fields[view].Text? :: names.value.fields[view].s)
  }

  function Paths(items: seq<Json>): set<Json>
    requires forall item | item in items :: item.Obj?
  {
    set item | item in items :: Field(item, "path", Text("")).value
  }

  /** The values that a camera entry starts reading from. */
  function Roots(camera: Json, streams: map<string, Json>): Result<set<Json>> {
    var inputs, live := Inputs(camera), LiveNames(camera);
    if inputs.Err? || live.Err? || exists item | item in inputs.value :: !item.Obj? then Err("malformed")
    else Ok(Paths(inputs.value) + (set name | name in live.value && name in streams :: RelayLink(name)))
  }

  /** Every alias read from some value of `roots`. */
  function Opened(roots: set<Json>, streams: map<string, Json>): set<string> {
    set value, alias | value in roots && Visit(value, streams, []).Ok? && alias in Visit(value, streams, []).value :: alias
  }

  predicate AllVisited(roots: set<Json>, streams: map<string, Json>) {
    forall value | value in roots :: Visit(value, streams, []).Ok?
  }

  lemma OpenedGrows(roots: set<Json>, streams: map<string, Json>, value: Json)
    requires Visit(value, streams, []).Ok?
    ensures Opened(roots + {value}, streams) == Opened(roots, streams) + Visit(value, streams, []).value
  {
    var more := roots + {value};
    forall alias | alias in Visit(value, streams, []).value ensures alias in Opened(more, streams) {
      assert value in more;
    }
    forall alias | alias in Opened(roots, streams) ensures alias in Opened(more, streams) {
      var v :| v in roots && Visit(v, streams, []).Ok? && alias in Visit(v, streams, []).value;
      assert v in more;
    }
  }

  /** `_media_aliases`: all aliases an entry reads, or a refusal. */
  function MediaAliases(camera: Json, streams: map<string, Json>): Result<set<string>> {
    var roots := Roots(camera, streams);
    if roots.Err? then Err(roots.code)
    else if !AllVisited(roots.value, streams) then Err("unsafe_handoff_source")
    else Ok(Opened(roots.value, streams))
  }

  method CollectMediaAliases(camera: Json, streams: map<string, Json>) returns (r: Result<set<string>>)
    ensures r.Ok? <==> MediaAliases(camera, streams).Ok?
    ensures r.Ok? ==> r == MediaAliases(camera, streams)
  {
    hide Visit, RelayLink;
    var inputs, live := Inputs(camera), LiveNames(camera);
    if inputs.Err? || live.Err? {
      return Err("malformed");
    }
    var found: set<string> := {};
    ghost var seen: set<Json> := {};
    for i := 0 to |inputs.value|
      invariant forall item | item in inputs.value[..i] :: item.Obj?
      invariant seen == Paths(inputs.value[..i])
      invariant AllVisited(seen, streams) && found == Opened(seen, streams)
    {
      var item := inputs.value[i];
      assert inputs.value[..i + 1] == inputs.value[..i] + [item] && item in inputs.value;
      if !item.Obj? {
        return Err("malformed");
      }
      var path := Field(item, "path", Text("")).value;
      assert Paths(inputs.value[..i + 1]) == seen + {path};
      var more := Collect(path, streams, [], found);
      if more.Err? {
        assert Roots(camera, streams).Ok? ==> path in Roots(camera, streams).value;
        return more;
      }
      OpenedGrows(seen, streams, path);
      found, seen := more.value, seen + {path};
    }
    assert inputs.value[..|inputs.value|] == inputs.value;
    var names := live.value;
    while names != {}
      invariant names <= live.value
      invariant seen == Paths(inputs.value) + (set name | name in live.value - names && name in streams :: RelayLink(name))
      invariant AllVisited(seen, streams) && found == Opened(seen, streams)
      decreases names
    {
      var name :| name in names;
      if name in streams {
        var more := Collect(RelayLink(name), streams, [], found);
        if more.Err? {
          assert RelayLink(name) in Roots(camera, streams).value;
          return more;
        }
        OpenedGrows(seen, streams, RelayLink(name));
        found, seen := more.value, seen + {RelayLink(name)};
      }
      assert live.value - (names - {name}) == (live.value - names) + {name};
      names := names - {name};
    }
    assert live.value - names == live.value;
    assert seen == Roots(camera, streams).value;
    return Ok(found);
  }

  /** The entry that `_release_reader` makes up to ask what one alias reads. */
  function FeedEntry(sources: seq<Json>): Json {
    Obj(map["ffmpeg" := Obj(map["inputs" := List(seq(|sources|, i requires 0 <= i < |sources| =>
                                                       Obj(map["path" := sources[i]])))])])
  }

  /** Nothing but the entry under `key` and the aliases themselves reads any of `aliases`. */
  predicate OnlyReadBy(key: string, aliases: set<string>, cameras: map<string, Json>, streams: map<string, Json>) {
    && (forall name | name in cameras && name != key ::
          MediaAliases(cameras[name], streams).Ok? && MediaAliases(cameras[name], streams).value !! aliases)
    && (forall alias | alias in streams && alias !in aliases ::
          var read := MediaAliases(FeedEntry(Fallbacks(streams[alias])), streams);
          read.Ok? && read.value !! aliases)
  }

  lemma FeedRoots(sources: seq<Json>, streams: map<string, Json>, source: Json)
    requires source in sources
    ensures Roots(FeedEntry(sources), streams).Ok? && source in Roots(FeedEntry(sources), streams).value
  {
    var items := Inputs(FeedEntry(sources)).value;
    var i :| 0 <= i < |sources| && sources[i] == source;
    assert items[i] in items && Field(items[i], "path", Text("")).value == source;
    assert forall item | item in items :: item.Obj?;
  }

  lemma VisitedByEntry(camera: Json, streams: map<string, Json>, value: Json, hidden: set<string>)
    requires MediaAliases(camera, streams).Ok? && MediaAliases(camera, streams).value !! hidden
    requires value in Roots(camera, streams).value
    ensures Visit(value, streams, []).Ok? && Visit(value, streams, []).value !! hidden
  {
    forall alias | alias in Visit(value, streams, []).value ensures alias !in hidden {
      assert alias in MediaAliases(camera, streams).value;
    }
  }

  /** Overwriting private aliases is invisible to every other camera: what it reads opens the same aliases
      and ends at the same sources, fallback by fallback, at any depth. */
  lemma PrivateAliasesAreInvisible(
    key: string, aliases: set<string>, cameras: map<string, Json>, streams: map<string, Json>,
    changed: map<string, Json>, name: string, value: Json, depth: nat)
    requires OnlyReadBy(key, aliases, cameras, streams) && DiffersOnlyOn(streams, changed, aliases)
    requires name in cameras && name != key && value in Roots(cameras[name], streams).value
    ensures Expand(value, changed, depth) == Expand(value, streams, depth)
  {
    VisitedByEntry(cameras[name], streams, value, aliases);
    ExpandUnaffected(value, streams, changed, aliases, [], depth);
  }

  lemma FallbackVisited(
    key: string, aliases: set<string>, cameras: map<string, Json>, streams: map<string, Json>, alias: string, source: Json)
    requires OnlyReadBy(key, aliases, cameras, streams)
    requires alias in streams && alias !in aliases && source in Fallbacks(streams[alias])
    ensures Visit(source, streams, []).Ok? && Visit(source, streams, []).value !! aliases
  {
    FeedRoots(Fallbacks(streams[alias]), streams, source);
    VisitedByEntry(FeedEntry(Fallbacks(streams[alias])), streams, source, aliases);
  }

  /** And to every other alias. */
  lemma PrivateAliasesFeedNoOther(
    key: string, aliases: set<string>, cameras: map<string, Json>, streams: map<string, Json>,
    changed: map<string, Json>, alias: string, depth: nat)
    requires OnlyReadBy(key, aliases, cameras, streams) && DiffersOnlyOn(streams, changed, aliases)
    requires alias in streams && alias !in aliases
    ensures Expand(RelayLink(alias), changed, depth) == Expand(RelayLink(alias), streams, depth)
  {
    hide OnlyReadBy;
    var sources := Fallbacks(streams[alias]);
    if depth > 0 {
      forall i | 0 <= i < |sources|
        ensures Expand(sources[i], changed, depth - 1) == Expand(sources[i], streams, depth - 1)
      {
        FallbackVisited(key, aliases, cameras, streams, alias, sources[i]);
        ExpandUnaffected(sources[i], streams, changed, aliases, [], depth - 1);
      }
      assert changed[alias] == streams[alias];
    }
  }

  /** The importer's own resolution of another camera's source: under the release guards, no overwriting of
      the private aliases changes it if and only if it follows none of them, and it can follow one only
      through a relay link of another scheme than RTSP. */
  lemma PrivateAliasesResolveAsBefore(
    key: string, aliases: set<string>, cameras: map<string, Json>, streams: map<string, Json>, name: string, value: Json)
    requires OnlyReadBy(key, aliases, cameras, streams) && aliases <= streams.Keys
    requires name in cameras && name != key && value in Roots(cameras[name], streams).value
    ensures Followed(value, streams) !! aliases <==>
            forall changed | DiffersOnlyOn(streams, changed, aliases) ::
              ResolveSource(value, changed) == ResolveSource(value, streams)
    ensures FollowsByRtsp(value, streams) ==> Followed(value, streams) !! aliases
  {
    IgnoredIffUnfollowed(value, streams, aliases);
    VisitedByEntry(cameras[name], streams, value, aliases);
    if FollowsByRtsp(value, streams) {
      VisitedByRtsp(value, streams, aliases, [], []);
    }
  }

  /** The same for its resolution of another alias. */
  lemma OtherAliasesResolveAsBefore(
    key: string, aliases: set<string>, cameras: map<string, Json>, streams: map<string, Json>, alias: string)
    requires OnlyReadBy(key, aliases, cameras, streams) && aliases <= streams.Keys
    requires alias in streams && alias !in aliases
    ensures Followed(RelayLink(alias), streams) !! aliases <==>
            forall changed | DiffersOnlyOn(streams, changed, aliases) ::
              ResolveSource(RelayLink(alias), changed) == ResolveSource(RelayLink(alias), streams)
    ensures FollowsByRtsp(RelayLink(alias), streams) ==> Followed(RelayLink(alias), streams) !! aliases
  {
    IgnoredIffUnfollowed(RelayLink(alias), streams, aliases);
    var sources := Fallbacks(streams[alias]);
    assert [] + [alias] == [alias];
    if FollowsByRtsp(RelayLink(alias), streams) && |sources| == 1 {
      FallbackVisited(key, aliases, cameras, streams, alias, sources[0]);
      VisitedByRtsp(sources[0], streams, aliases, [alias], []);
    }
  }

  /** An input that the release guard does not follow makes an entry that reads nothing. */
  lemma ReadsNothing(value: Json, streams: map<string, Json>)
    requires Visit(value, streams, []) == Ok({})
    ensures Roots(FeedEntry([value]), streams) == Ok({value}) && MediaAliases(FeedEntry([value]), streams) == Ok({})
  {
    hide Visit;
    var items := Inputs(FeedEntry([value])).value;
    assert LiveNames(FeedEntry([value])).value == {};
    FeedRoots([value], streams, value);
    forall root | root in Roots(FeedEntry([value]), streams).value ensures root == value {
      assert forall item | item in items :: item == items[0];
    }
    assert Roots(FeedEntry([value]), streams).value == {value};
    assert Opened({value}, streams) == {};
  }

  /** The link through one alias to a camera, by another scheme than RTSP. */
  const OTHER_LINK :=
    Media(Source(false, None, false, Link(Url("http", "localhost", Some(RELAY_PORT), "x", "", "", "", "", false))))

  lemma OtherLinkResolves(host: string)
    requires host != ""
    ensures var streams := map["x" := CameraLink(host)];
            && Visit(OTHER_LINK, streams, []) == Ok({}) && !FollowsByRtsp(OTHER_LINK, streams)
            && (!AtRelay(CameraLink(host).source.target.url) ==>
                ResolveSource(OTHER_LINK, streams).Ok? && ResolveSource(OTHER_LINK, streams).value.uri.host == host)
  {
    var streams := map["x" := CameraLink(host)];
    assert Fallbacks(streams["x"]) == [CameraLink(host)] && [] + ["x"] == ["x"];
    if !AtRelay(CameraLink(host).source.target.url) {
      assert ResolveSource(CameraLink(host), streams, ["x"]).value.uri.host == host;
    }
  }

  /** A link that reaches the relay by another scheme is followed by resolution and not by the release
      guard, so the guard can pass and the resolved source still change. */
  lemma OtherSchemeEscapesTheGuard()
    returns (cameras: map<string, Json>, streams: map<string, Json>, changed: map<string, Json>, value: Json)
    ensures OnlyReadBy("a", {"x"}, cameras, streams) && DiffersOnlyOn(streams, changed, {"x"})
    ensures "b" in cameras && Roots(cameras["b"], streams).Ok? && value in Roots(cameras["b"], streams).value
    ensures ResolveSource(value, changed) != ResolveSource(value, streams)
    ensures !FollowsByRtsp(value, streams)
  {
    value := OTHER_LINK;
    streams, changed := map["x" := CameraLink("cam")], map["x" := CameraLink("parked")];
    cameras := map["b" := FeedEntry([value])];
    OtherLinkResolves("cam");
    OtherLinkResolves("parked");
    ReadsNothing(value, streams);
    hide MediaAliases, Roots, FeedEntry, Visit, ResolveSource, FollowsByRtsp, CameraLink;
  }

  function CameraLink(host: string): Json {
    Media(Source(false, None, false, Link(Url("rtsp", host, None, "main", "", "", "", "", false))))
  }
}
