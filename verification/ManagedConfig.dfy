/** Inspection of a camera entry, and the managed entry and streams that replace its sources. */
module ManagedConfig {
  import opened Common
  import opened FrigateConfig
  import opened StreamGraph

  const CAMADMIRAL_PORT := 18554

  /** What identifies a camera source: its normalised address without credentials. The digest that the
      importer stores is injective in it. */
  datatype SourceId = SourceId(host: string, port: nat, path: string, query: string)

  datatype LiveSpec = LiveSpec(source: SourceId, wrapper: Option<string>)

  /** The result of inspecting one entry. `roles` keeps its insertion order. */
  datatype Plan = Plan(
    sources: map<SourceId, Resolved>,
    roles: seq<(string, SourceId)>,
    live: map<string, LiveSpec>)

  datatype Stream = Stream(uuid: string, key: string, roles: seq<string>)

  /** A camera of the repository, as its consumer inventory lists it. */
  datatype CameraView = CameraView(enabled: bool, streams: seq<Stream>)

  /** The relay that serves managed streams: `camadmiral:<password>@<host>:18554`. */
  datatype Relay = Relay(host: string, password: string)

  function StripDots(host: string): string {
    if host != "" && host[|host| - 1] == '.' then StripDots(host[..|host| - 1]) else host
  }

  /** `_rtsp_source_key`; RTSPS addresses have none. */
  function IdOf(u: Url): Result<SourceId> {
    if u.scheme != "rtsp" || u.host == "" then Err("unsupported_source")
    else Ok(SourceId(StripDots(u.host), if u.port.Some? && u.port.value != 0 then u.port.value else 554, u.path, u.query))
  }

  function RelayUrl(relay: Relay, stream: Stream): Url {
    Url("rtsp", relay.host, Some(CAMADMIRAL_PORT), stream.key, "", "", "camadmiral", relay.password, false)
  }

  /** A stream value with one source, converted when there is a wrapper. */
  function Feeding(u: Url, wrapper: Option<string>): Json {
    List([Media(Source(wrapper.Some?, wrapper, false, Link(u)))])
  }

  /** The stream of each role; a later stream takes a role over. */
  function RoleStreams(streams: seq<Stream>): map<string, Stream> {
    if streams == [] then map[]
    else
      var last := streams[|streams| - 1];
      RoleStreams(streams[..|streams| - 1]) + map role | role in last.roles :: last
  }

  function StreamsById(streams: seq<Stream>): map<string, Stream> {
    if streams == [] then map[]
    else StreamsById(streams[..|streams| - 1])[streams[|streams| - 1].uuid := streams[|streams| - 1]]
  }

  function RoleOf(roles: seq<(string, SourceId)>, source: SourceId): Option<string> {
    if roles == [] then None
    else if roles[0].1 == source then Some(roles[0].0)
    else RoleOf(roles[1..], source)
  }

  /** The stream that stands for an original source: the current stream of its role, else the stream it
      was mapped to. */
  function StreamFor(view: CameraView, plan: Plan, mapped: map<SourceId, string>, source: SourceId): Option<Stream> {
    var role := RoleOf(plan.roles, source);
    if role.Some? then
      if role.value in RoleStreams(view.streams) then Some(RoleStreams(view.streams)[role.value]) else None
    else if source in mapped && mapped[source] in StreamsById(view.streams) then
      Some(StreamsById(view.streams)[mapped[source]])
    else None
  }

  // ----- inspect_camera

  /** `live[alias]` records what the single source of the alias resolves to. */
  predicate Inspected(alias: string, spec: LiveSpec, streams: map<string, Json>) {
    && alias in streams && |Fallbacks(streams[alias])| == 1
    && var source := ResolveSource(Fallbacks(streams[alias])[0], streams);
       source.Ok? && IdOf(source.value.uri) == Ok(spec.source) && spec.wrapper == source.value.wrapper
  }

  function SetRole(roles: seq<(string, SourceId)>, role: string, source: SourceId): (r: seq<(string, SourceId)>)
    ensures forall pair | pair in r :: pair in roles || pair == (role, source)
    ensures (role, source) in r
  {
    if roles == [] then [(role, source)]
    else if roles[0].0 == role then [(role, source)] + roles[1..]
    else [roles[0]] + SetRole(roles[1..], role, source)
  }

  function RolesOf(item: Json): Result<seq<Json>> {
    var roles := Field(item, "roles", List([]));
    if roles.Err? || !roles.value.List? then Err("malformed") else Ok(roles.value.items)
  }

  predicate AgreeOnAccount(sources: map<SourceId, Resolved>) {
    forall a, b | a in sources && b in sources ::
      && sources[a].username == sources[b].username
      && sources[a].password == sources[b].password
      && sources[a].uri.host == sources[b].uri.host
  }

  /** The role table of `inspect_camera`: every role reads a known source, and there is a role. */
  predicate RolesKnown(plan: Plan) {
    forall pair | pair in plan.roles :: pair.1 in plan.sources
  }

  predicate SourcesKeyed(plan: Plan) {
    forall id | id in plan.sources :: IdOf(plan.sources[id].uri) == Ok(id)
  }

  predicate LiveInspected(plan: Plan, streams: map<string, Json>) {
    forall alias | alias in plan.live ::
      Inspected(alias, plan.live[alias], streams) && plan.live[alias].source in plan.sources
  }

  method InspectInputs(inputs: seq<Json>, streams: map<string, Json>) returns (r: Result<Plan>)
    ensures r.Ok? ==> RolesKnown(r.value) && r.value.live == map[]
    ensures r.Ok? ==> forall pair | pair in r.value.roles :: pair.0 in {"record", "detect"}
    ensures r.Ok? ==> SourcesKeyed(r.value)
  {
    var plan := Plan(map[], [], map[]);
    for i := 0 to |inputs|
      invariant RolesKnown(plan) && plan.live == map[]
      invariant forall pair | pair in plan.roles :: pair.0 in {"record", "detect"}
      invariant SourcesKeyed(plan)
    {
      var duties := RolesOf(inputs[i]);
      if duties.Err? || "path" !in inputs[i].fields {
        return Err("unsupported_source");
      }
      var source := ResolveSource(inputs[i].fields["path"], streams);
      if source.Err? {
        return Err(source.code);
      }
      if source.value.wrapper.Some? {
        return Err("transcoded_capture_source");
      }
      var id := IdOf(source.value.uri);
      if id.Err? {
        return Err(id.code);
      }
      plan := plan.(sources := plan.sources[id.value := source.value]);
      for j := 0 to |duties.value|
        invariant RolesKnown(plan) && plan.live == map[] && id.value in plan.sources
        invariant forall pair | pair in plan.roles :: pair.0 in {"record", "detect"}
        invariant SourcesKeyed(plan)
      {
        if duties.value[j] in {Text("record"), Text("detect")} {
          plan := plan.(roles := SetRole(plan.roles, duties.value[j].s, id.value));
        }
      }
    }
    return Ok(plan);
  }

  predicate HasRole(roles: seq<(string, SourceId)>, role: string) {
    exists pair | pair in roles :: pair.0 == role
  }

  function SourceOfRole(roles: seq<(string, SourceId)>, role: string): (id: SourceId)
    requires HasRole(roles, role)
    ensures (role, id) in roles
  {
    if roles[0].0 == role then roles[0].1
    else
      assert exists pair | pair in roles[1..] :: pair.0 == role;
      SourceOfRole(roles[1..], role)
  }

  /** An entry without live streams is shown through the alias named like the camera. */
  function LiveAliases(key: string, names: set<string>): set<string> {
    if names == {} then {key} else names
  }

  method InspectLive(plan: Plan, names: set<string>, streams: map<string, Json>) returns (r: Result<Plan>)
    requires names <= streams.Keys && plan.live == map[]
    requires RolesKnown(plan) && SourcesKeyed(plan)
    ensures r.Ok? ==> RolesKnown(r.value) && r.value.roles == plan.roles && SourcesKeyed(r.value)
    ensures r.Ok? ==> r.value.live.Keys == names && LiveInspected(r.value, streams)
  {
    var result := plan;
    var rest := names;
    while rest != {}
      invariant rest <= names && result.live.Keys == names - rest
      invariant LiveInspected(result, streams) && SourcesKeyed(result)
      invariant RolesKnown(result) && result.roles == plan.roles
      decreases rest
    {
      var alias :| alias in rest;
      var sources := Fallbacks(streams[alias]);
      if |sources| != 1 {
        return Err("multiple_source_fallbacks");
      }
      var source := ResolveSource(sources[0], streams);
      if source.Err? {
        return Err(source.code);
      }
      var id := IdOf(source.value.uri);
      if id.Err? {
        return Err(id.code);
      }
      if id.value !in result.sources {
        result := result.(sources := result.sources[id.value := source.value.(wrapper := None)]);
      }
      result := result.(live := result.live[alias := LiveSpec(id.value, source.value.wrapper)]);
      rest := rest - {alias};
    }
    return Ok(result);
  }

  /** A single assigned role serves the other purpose as well. */
  method CompleteRoles(plan: Plan) returns (r: Plan)
    requires RolesKnown(plan) && plan.roles != []
    requires forall pair | pair in plan.roles :: pair.0 in {"record", "detect"}
    ensures r == plan.(roles := r.roles) && plan.roles <= r.roles
    ensures RolesKnown(r) && HasRole(r.roles, "record") && HasRole(r.roles, "detect")
  {
    r := plan;
    assert plan.roles[0] in plan.roles;
    if !HasRole(r.roles, "record") {
      r := r.(roles := r.roles + [("record", SourceOfRole(r.roles, "detect"))]);
      assert r.roles[|r.roles| - 1] in r.roles && plan.roles[0] in r.roles;
    } else if !HasRole(r.roles, "detect") {
      ghost var pair :| pair in plan.roles && pair.0 == "record";
      r := r.(roles := r.roles + [("detect", SourceOfRole(r.roles, "record"))]);
      assert r.roles[|r.roles| - 1] in r.roles && pair in r.roles;
    }
  }

  /** `inspect_camera`: sources, roles and live aliases of one entry, or the reason it is refused. */
  method InspectCamera(key: string, effective: Json, streams: map<string, Json>) returns (r: Result<Plan>)
    ensures r.Ok? ==> LiveInspected(r.value, streams) && SourcesKeyed(r.value)
    ensures r.Ok? ==> RolesKnown(r.value) && HasRole(r.value.roles, "record") && HasRole(r.value.roles, "detect")
    ensures r.Ok? ==> |r.value.sources| <= MAX_SOURCES && AgreeOnAccount(r.value.sources)
    ensures r.Ok? ==> LiveNames(effective).Ok?
    ensures r.Ok? ==> r.value.live.Keys == LiveAliases(key, LiveNames(effective).value) * streams.Keys
  {
    var inputs, live := Inputs(effective), LiveNames(effective);
    if inputs.Err? || live.Err? {
      return Err("malformed");
    }
    var inspected := InspectInputs(inputs.value, streams);
    if inspected.Err? {
      return inspected;
    }
    if inspected.value.roles == [] {
      return Err("missing_stream_roles");
    }
    var plan := CompleteRoles(inspected.value);
    inspected := InspectLive(plan, LiveAliases(key, live.value) * streams.Keys, streams);
    if inspected.Err? {
      return inspected;
    }
    plan := inspected.value;
    if |plan.sources| > MAX_SOURCES {
      return Err("too_many_sources");
    }
    if !AgreeOnAccount(plan.sources) {
      return Err("different_stream_credentials");
    }
    return Ok(plan);
  }

  // ----- build_managed

  /** What build_managed reads from a row: the original entry, its aliases and the inspection plan. */
  datatype Migration = Migration(
    original: Json,
    originalStreams: map<string, Json>,
    releasedStreams: map<string, Json>,
    plan: Plan,
    mapped: map<SourceId, string>,
    aliases: map<string, string>)
  {
    function Originals(): map<string, Json> {
      releasedStreams + originalStreams
    }
  }

  function HasText(items: seq<Json>, s: string): bool {
    Text(s) in items
  }

  /** One input that keeps a single capture role, and the audio role if it is the first to ask. */
  function InputFor(item: Json, duties: seq<Json>, role: string, alias: string): Json
    requires item.Obj?
  {
    var first := if HasText(duties, "record") then "record" else "detect";
    var roles := [Text(role)] + if HasText(duties, "audio") && role == first then [Text("audio")] else [];
    var moved := item.fields["path" := RelayLink(alias)]["roles" := List(roles)];
    Obj(if "input_args" in moved then moved else moved["input_args" := Text("preset-rtsp-restream")])
  }

  /** A combined input is split so that each role can follow its own stream. */
  function Split(item: Json, aliases: map<string, string>): Result<seq<Json>>
    requires "record" in aliases && "detect" in aliases
  {
    var duties := RolesOf(item);
    if duties.Err? then Err(duties.code)
    else if !HasText(duties.value, "record") && !HasText(duties.value, "detect") then Err("unsupported_input_roles")
    else Ok((if HasText(duties.value, "record") then [InputFor(item, duties.value, "record", aliases["record"])] else [])
            + (if HasText(duties.value, "detect") then [InputFor(item, duties.value, "detect", aliases["detect"])] else []))
  }

  function SplitAll(items: seq<Json>, aliases: map<string, string>): Result<seq<Json>>
    requires "record" in aliases && "detect" in aliases
  {
    if items == [] then Ok([]) else
    var before := SplitAll(items[..|items| - 1], aliases);
    var last := Split(items[|items| - 1], aliases);
    if before.Err? then before else if last.Err? then last else Ok(before.value + last.value)
  }

  /** The entry with only its inputs replaced. */
  function WithInputs(original: Json, inputs: seq<Json>): Json
    requires original.Obj? && Field(original, "ffmpeg", Obj(map[])).value.Obj?
  {
    var ffmpeg := Field(original, "ffmpeg", Obj(map[])).value;
    Obj(original.fields["ffmpeg" := Obj(ffmpeg.fields["inputs" := List(inputs)])])
  }

  /** The entry that build_managed returns for a migration. */
  predicate ManagedEntry(t: Migration, managed: Json) {
    && Inputs(t.original).Ok? && "record" in t.aliases && "detect" in t.aliases
    && var inputs := SplitAll(Inputs(t.original).value, t.aliases);
       inputs.Ok? && managed == WithInputs(t.original, inputs.value)
  }

  /** The value that a live or released alias gets: the relay URL of the stream standing for its source. */
  predicate Serves(view: CameraView, t: Migration, relay: Relay, source: SourceId, wrapper: Option<string>, value: Json) {
    var stream := StreamFor(view, t.plan, t.mapped, source);
    stream.Some? && value == Feeding(RelayUrl(relay, stream.value), wrapper)
  }

  predicate ManagedLive(view: CameraView, t: Migration, relay: Relay, alias: string, value: Json) {
    alias in t.plan.live && Serves(view, t, relay, t.plan.live[alias].source, t.plan.live[alias].wrapper, value)
  }

  predicate ManagedReleased(view: CameraView, t: Migration, relay: Relay, alias: string, value: Json) {
    var source := ResolveSource(RelayLink(alias), t.Originals());
    && source.Ok? && IdOf(source.value.uri).Ok?
    && Serves(view, t, relay, IdOf(source.value.uri).value, source.value.wrapper, value)
  }

  predicate ManagedRole(view: CameraView, relay: Relay, role: string, value: Json) {
    role in RoleStreams(view.streams) && value == Feeding(RelayUrl(relay, RoleStreams(view.streams)[role]), None)
  }

  /** The streams that build_managed returns: role aliases, then live aliases over them, then the rest of
      the released aliases. */
  predicate ManagedStreams(view: CameraView, t: Migration, relay: Relay, streams: map<string, Json>) {
    && "record" in t.aliases && "detect" in t.aliases
    && streams.Keys == {t.aliases["record"], t.aliases["detect"]} + t.plan.live.Keys + t.releasedStreams.Keys
    && (forall alias | alias in t.plan.live :: ManagedLive(view, t, relay, alias, streams[alias]))
    && (forall alias | alias in t.releasedStreams && alias !in t.plan.live
                       && alias != t.aliases["record"] && alias != t.aliases["detect"] ::
          ManagedReleased(view, t, relay, alias, streams[alias]))
    && (t.aliases["detect"] !in t.plan.live ==> ManagedRole(view, relay, "detect", streams[t.aliases["detect"]]))
    && (t.aliases["record"] !in t.plan.live && t.aliases["record"] != t.aliases["detect"] ==>
          ManagedRole(view, relay, "record", streams[t.aliases["record"]]))
  }

  /** There is one answer to what the streams should be. */
  lemma ManagedStreamsAreUnique(view: CameraView, t: Migration, relay: Relay, streams: map<string, Json>, others: map<string, Json>)
    requires ManagedStreams(view, t, relay, streams) && ManagedStreams(view, t, relay, others)
    ensures streams == others
  {
    hide RoleStreams, Feeding, RelayUrl, ResolveSource, StreamFor, IdOf;
    forall alias | alias in streams ensures streams[alias] == others[alias] {
      if alias in t.plan.live {
        assert ManagedLive(view, t, relay, alias, streams[alias]) && ManagedLive(view, t, relay, alias, others[alias]);
      } else if alias !in {t.aliases["record"], t.aliases["detect"]} {
        assert ManagedReleased(view, t, relay, alias, streams[alias]) && ManagedReleased(view, t, relay, alias, others[alias]);
      }
    }
  }

  predicate LiveServed(view: CameraView, t: Migration, alias: string)
    requires alias in t.plan.live
  {
    StreamFor(view, t.plan, t.mapped, t.plan.live[alias].source).Some?
  }

  predicate ReleasedServed(view: CameraView, t: Migration, alias: string) {
    var source := ResolveSource(RelayLink(alias), t.Originals());
    && source.Ok? && IdOf(source.value.uri).Ok?
    && StreamFor(view, t.plan, t.mapped, IdOf(source.value.uri).value).Some?
  }

  /** When there is a managed configuration at all. */
  predicate Buildable(view: CameraView, t: Migration) {
    && "record" in t.aliases && "detect" in t.aliases
    && view.enabled && RoleStreams(view.streams).Keys == {"record", "detect"}
    && (forall alias | alias in t.plan.live :: LiveServed(view, t, alias))
    && (forall alias | alias in t.releasedStreams && alias !in t.plan.live
                       && alias != t.aliases["record"] && alias != t.aliases["detect"] :: ReleasedServed(view, t, alias))
    && Inputs(t.original).Ok? && SplitAll(Inputs(t.original).value, t.aliases).Ok?
  }

  /** The values of the live aliases. */
  method ManageLive(view: CameraView, t: Migration, relay: Relay) returns (r: Result<map<string, Json>>)
    ensures r.Ok? <==> forall alias | alias in t.plan.live :: LiveServed(view, t, alias)
    ensures r.Ok? ==> r.value.Keys == t.plan.live.Keys
    ensures r.Ok? ==> forall alias | alias in r.value :: ManagedLive(view, t, relay, alias, r.value[alias])
  {
    var streams: map<string, Json> := map[];
    var rest := t.plan.live.Keys;
    while rest != {}
      invariant rest <= t.plan.live.Keys && streams.Keys == t.plan.live.Keys - rest
      invariant forall alias | alias in streams :: ManagedLive(view, t, relay, alias, streams[alias]) && LiveServed(view, t, alias)
      decreases rest
    {
      var alias :| alias in rest;
      var spec := t.plan.live[alias];
      var stream := StreamFor(view, t.plan, t.mapped, spec.source);
      if stream.None? {
        assert !LiveServed(view, t, alias);
        return Err("live_stream_disabled");
      }
      streams := streams[alias := Feeding(RelayUrl(relay, stream.value), spec.wrapper)];
      rest := rest - {alias};
    }
    return Ok(streams);
  }

  method ReplaceReleased(view: CameraView, t: Migration, relay: Relay, alias: string) returns (r: Result<Json>)
    ensures r.Ok? <==> ReleasedServed(view, t, alias)
    ensures r.Ok? ==> ManagedReleased(view, t, relay, alias, r.value)
  {
    var source := ResolveSource(RelayLink(alias), t.Originals());
    if source.Err? {
      return Err(source.code);
    }
    var id := IdOf(source.value.uri);
    if id.Err? {
      return Err(id.code);
    }
    var stream := StreamFor(view, t.plan, t.mapped, id.value);
    if stream.None? {
      return Err("stream_roles_missing");
    }
    return Ok(Feeding(RelayUrl(relay, stream.value), source.value.wrapper));
  }

  /** The values of the released aliases that are not taken already. */
  method ManageReleased(view: CameraView, t: Migration, relay: Relay, missing: set<string>)
    returns (r: Result<map<string, Json>>)
    ensures r.Ok? <==> forall alias | alias in missing :: ReleasedServed(view, t, alias)
    ensures r.Ok? ==> r.value.Keys == missing
    ensures r.Ok? ==> forall alias | alias in r.value :: ManagedReleased(view, t, relay, alias, r.value[alias])
  {
    var streams: map<string, Json> := map[];
    var rest := missing;
    while rest != {}
      invariant rest <= missing && streams.Keys == missing - rest
      invariant forall alias | alias in streams ::
                  ManagedReleased(view, t, relay, alias, streams[alias]) && ReleasedServed(view, t, alias)
      decreases rest
    {
      var alias :| alias in rest;
      var value := ReplaceReleased(view, t, relay, alias);
      if value.Err? {
        return Err(value.code);
      }
      streams := streams[alias := value.value];
      rest := rest - {alias};
    }
    return Ok(streams);
  }

  lemma {:induction false} SplitStops(items: seq<Json>, i: nat, aliases: map<string, string>)
    requires "record" in aliases && "detect" in aliases && i <= |items| && SplitAll(items[..i], aliases).Err?
    ensures SplitAll(items, aliases).Err?
    decreases |items|
  {
    if i < |items| {
      assert items[..|items| - 1][..i] == items[..i];
      SplitStops(items[..|items| - 1], i, aliases);
    } else {
      assert items[..i] == items;
    }
  }

  method ManageInputs(items: seq<Json>, aliases: map<string, string>) returns (r: Result<seq<Json>>)
    requires "record" in aliases && "detect" in aliases
    ensures r.Ok? <==> SplitAll(items, aliases).Ok?
    ensures r.Ok? ==> r == SplitAll(items, aliases)
  {
    var split: seq<Json> := [];
    for i := 0 to |items|
      invariant SplitAll(items[..i], aliases) == Ok(split)
    {
      var parts := Split(items[i], aliases);
      assert items[..i + 1][..i] == items[..i];
      if parts.Err? {
        SplitStops(items, i + 1, aliases);
        return Err(parts.code);
      }
      split := split + parts.value;
    }
    assert items[..|items|] == items;
    return Ok(split);
  }

  /** Role aliases, live aliases over them, and the rest of the released aliases together. */
  lemma StreamsJoined(view: CameraView, t: Migration, relay: Relay, base: map<string, Json>, live: map<string, Json>,
                      released: map<string, Json>)
    requires "record" in t.aliases && "detect" in t.aliases && RoleStreams(view.streams).Keys == {"record", "detect"}
    requires base == map[t.aliases["record"] := Feeding(RelayUrl(relay, RoleStreams(view.streams)["record"]), None)]
                        [t.aliases["detect"] := Feeding(RelayUrl(relay, RoleStreams(view.streams)["detect"]), None)]
    requires live.Keys == t.plan.live.Keys && released.Keys == t.releasedStreams.Keys - (base + live).Keys
    requires forall alias | alias in live :: ManagedLive(view, t, relay, alias, live[alias])
    requires forall alias | alias in released :: ManagedReleased(view, t, relay, alias, released[alias])
    ensures ManagedStreams(view, t, relay, base + live + released)
  {
    hide RoleStreams, Feeding, RelayUrl, ManagedLive, ManagedReleased;
  }

  /** `build_managed` */
  method BuildManaged(view: CameraView, t: Migration, relay: Relay)
    returns (r: Result<(Json, map<string, Json>)>)
    requires "record" in t.aliases && "detect" in t.aliases
    ensures r.Ok? <==> Buildable(view, t)
    ensures r.Ok? ==> ManagedEntry(t, r.value.0) && ManagedStreams(view, t, relay, r.value.1)
  {
    hide RoleStreams, Feeding, RelayUrl, ManagedLive, ManagedReleased, ManagedStreams, SplitAll, LiveServed, ReleasedServed;
    var current := RoleStreams(view.streams);
    if !view.enabled || current.Keys != {"record", "detect"} {
      return Err("stream_roles_missing");
    }
    var base := map[t.aliases["record"] := Feeding(RelayUrl(relay, current["record"]), None)]
                   [t.aliases["detect"] := Feeding(RelayUrl(relay, current["detect"]), None)];
    var live := ManageLive(view, t, relay);
    if live.Err? {
      return Err(live.code);
    }
    var released := ManageReleased(view, t, relay, t.releasedStreams.Keys - (base + live.value).Keys);
    if released.Err? {
      return Err(released.code);
    }
    StreamsJoined(view, t, relay, base, live.value, released.value);
    var inputs := Inputs(t.original);
    if inputs.Err? {
      return Err(inputs.code);
    }
    var split := ManageInputs(inputs.value, t.aliases);
    if split.Err? {
      return Err(split.code);
    }
    return Ok((WithInputs(t.original, split.value), base + live.value + released.value));
  }

  // ----- the managed configuration preserves meaning

  lemma {:induction false} ResolveWithShorterTrail(value: Json, streams: map<string, Json>, trail: Trail, head: string)
    requires |trail| <= MAX_SOURCES
    requires ResolveSource(value, streams, [head] + trail).Ok?
    ensures ResolveSource(value, streams, trail) == ResolveSource(value, streams, [head] + trail)
    decreases MAX_SOURCES - |trail|
  {
    var source := Parsed(value);
    if AtRelay(source.target.url) {
      var alias := source.target.url.path;
      assert alias !in [head] + trail;
      var sources := Fallbacks(At(streams, alias));
      assert [head] + trail + [alias] == [head] + (trail + [alias]);
      ResolveWithShorterTrail(sources[0], streams, trail + [alias], head);
    }
  }

  /** A managed value resolves in one step, to the relay itself. */
  lemma FeedResolves(alias: string, streams: map<string, Json>, u: Url, wrapper: Option<string>)
    requires alias in streams && streams[alias] == Feeding(u, wrapper)
    requires Rtsp(u) && !AtRelay(u) && u.host != "" && u.fragment == "" && !u.secretText
    ensures ResolveSource(RelayLink(alias), streams) == Ok(Resolved(Bare(u), u.username, u.password, wrapper))
    ensures Visit(RelayLink(alias), streams, []) == Ok({alias})
  {
    var feed := Fallbacks(streams[alias])[0];
    assert ResolveSource(feed, streams, [alias]) == Ok(Resolved(Bare(u), u.username, u.password, wrapper));
    assert [] + [alias] == [alias];
    assert Fallbacks(streams[alias])[1..] == [] && Visit(feed, streams, [alias]) == Ok({});
    var none: set<string> := {};
    assert none + none == none && {alias} + none == {alias};
    assert VisitAll(Fallbacks(streams[alias]), streams, [alias]) == Ok(none);
  }

  /** A resolution that succeeds somewhere down a chain succeeds alike on its own. */
  lemma {:induction false} ResolvesAlone(value: Json, streams: map<string, Json>, trail: Trail)
    requires |trail| <= MAX_SOURCES && ResolveSource(value, streams, trail).Ok?
    ensures ResolveSource(value, streams) == ResolveSource(value, streams, trail)
    decreases |trail|
  {
    if trail != [] {
      assert [trail[0]] + trail[1..] == trail;
      ResolveWithShorterTrail(value, streams, trail[1..], trail[0]);
      ResolvesAlone(value, streams, trail[1..]);
    }
  }

  lemma LinkResolves(alias: string, streams: map<string, Json>)
    requires alias in streams && |Fallbacks(streams[alias])| == 1 && ResolveSource(RelayLink(alias), streams).Ok?
    ensures ResolveSource(RelayLink(alias), streams) == ResolveSource(Fallbacks(streams[alias])[0], streams)
  {
    assert [] + [alias] == [alias];
    ResolvesAlone(Fallbacks(streams[alias])[0], streams, [alias]);
  }

  /** What the inspection noted of a live alias is what the alias resolves to. */
  lemma LiveWasInspected(alias: string, live: LiveSpec, streams: map<string, Json>)
    requires Inspected(alias, live, streams) && ResolveSource(RelayLink(alias), streams).Ok?
    ensures var before := ResolveSource(RelayLink(alias), streams).value;
            IdOf(before.uri) == Ok(live.source) && before.wrapper == live.wrapper
  {
    LinkResolves(alias, streams);
  }

  /** `after` is the relay URL of the stream that stands for the source that `before` names, with the same
      conversion. */
  predicate Rerouted(view: CameraView, t: Migration, relay: Relay, before: Result<Resolved>, after: Result<Resolved>) {
    && before.Ok? && IdOf(before.value.uri).Ok?
    && var stream := StreamFor(view, t.plan, t.mapped, IdOf(before.value.uri).value);
    && stream.Some?
    && after == Ok(Resolved(Bare(RelayUrl(relay, stream.value)), "camadmiral", relay.password, before.value.wrapper))
  }

  /** What an alias meant before the takeover: a live alias was inspected in the streams Frigate used then, a
      released one is resolved among the recorded originals. */
  function Meaning(t: Migration, alias: string, before: map<string, Json>): Result<Resolved> {
    if alias !in t.plan.live then ResolveSource(RelayLink(alias), t.Originals())
    else if |Fallbacks(At(before, alias))| == 1 then ResolveSource(Fallbacks(At(before, alias))[0], before)
    else Err("multiple_source_fallbacks")
  }

  /** Each live or released alias meant, before the takeover, some camera source. Under the managed streams it
      resolves to the relay URL of the stream that stands for that source, with the same conversion, and it
      reads no other Frigate alias. */
  lemma ManagedAliasKeepsItsMeaning(view: CameraView, t: Migration, relay: Relay, streams: map<string, Json>, alias: string,
                                    before: map<string, Json>)
    requires ManagedStreams(view, t, relay, streams) && relay.host != ""
    requires alias in t.plan.live || alias in t.releasedStreams
    requires alias != t.aliases["record"] && alias != t.aliases["detect"]
    requires alias in t.plan.live ==> Inspected(alias, t.plan.live[alias], before)
    ensures Rerouted(view, t, relay, Meaning(t, alias, before), ResolveSource(RelayLink(alias), streams))
    ensures alias in t.plan.live && ResolveSource(RelayLink(alias), before).Ok? ==>
              Meaning(t, alias, before) == ResolveSource(RelayLink(alias), before)
    ensures Visit(RelayLink(alias), streams, []) == Ok({alias})
  {
    hide ResolveSource, Visit, Feeding, StreamFor;
    if alias in t.plan.live {
      assert ManagedLive(view, t, relay, alias, streams[alias]);
      if ResolveSource(RelayLink(alias), before).Ok? {
        LinkResolves(alias, before);
      }
    } else {
      assert ManagedReleased(view, t, relay, alias, streams[alias]);
    }
    var was := Meaning(t, alias, before).value;
    var stream := StreamFor(view, t.plan, t.mapped, IdOf(was.uri).value).value;
    FeedResolves(alias, streams, RelayUrl(relay, stream), was.wrapper);
  }

  /** Some streams of a configuration: what resolves among them resolves alike in all of it. */
  predicate PartOf(part: map<string, Json>, whole: map<string, Json>) {
    forall alias | alias in part :: alias in whole && whole[alias] == part[alias]
  }

  lemma {:induction false} ResolvesInWhole(value: Json, part: map<string, Json>, whole: map<string, Json>, trail: Trail)
    requires PartOf(part, whole) && ResolveSource(value, part, trail).Ok?
    ensures ResolveSource(value, whole, trail) == ResolveSource(value, part, trail)
    decreases MAX_SOURCES + 1 - |trail|
  {
    if AtRelay(Parsed(value).target.url) {
      var alias := Parsed(value).target.url.path;
      assert alias in part;
      ResolvesInWhole(Fallbacks(part[alias])[0], part, whole, trail + [alias]);
    }
  }

  /** The saved streams before a takeover: each live alias as inspected, the originals recorded as they are,
      and none of the new role aliases. */
  predicate TakenFrom(t: Migration, base: map<string, Json>) {
    && "record" in t.aliases && "detect" in t.aliases && t.aliases["record"] !in base && t.aliases["detect"] !in base
    && PartOf(t.Originals(), base)
    && forall alias | alias in t.plan.live :: Inspected(alias, t.plan.live[alias], base)
  }

  /** What is read through a managed alias at any depth: it meant a camera source, and its managed value serves
      the stream of that source. */
  lemma ManagedValue(view: CameraView, t: Migration, relay: Relay, managed: map<string, Json>, base: map<string, Json>,
                     alias: string, trail: Trail)
    requires ManagedStreams(view, t, relay, managed) && TakenFrom(t, base) && alias in managed && alias in base
    requires |trail| <= MAX_SOURCES && |Fallbacks(base[alias])| == 1
    requires ResolveSource(Fallbacks(base[alias])[0], base, trail).Ok?
    ensures var was := ResolveSource(Fallbacks(base[alias])[0], base, trail).value;
            IdOf(was.uri).Ok? && Serves(view, t, relay, IdOf(was.uri).value, was.wrapper, managed[alias])
  {
    hide StreamFor, Feeding, RelayUrl, Serves, IdOf, ResolveSource, RelayLink;
    ResolvesAlone(Fallbacks(base[alias])[0], base, trail);
    if alias in t.plan.live {
      assert ManagedLive(view, t, relay, alias, managed[alias]) && Inspected(alias, t.plan.live[alias], base);
    } else {
      assert ManagedReleased(view, t, relay, alias, managed[alias]);
      ResolvesInWhole(RelayLink(alias), t.Originals(), base, []);
      LinkResolves(alias, base);
    }
  }

  lemma FeedServes(streams: map<string, Json>, u: Url, wrapper: Option<string>, trail: Trail)
    requires Rtsp(u) && !AtRelay(u) && u.host != "" && u.fragment == "" && !u.secretText && |trail| <= MAX_SOURCES
    ensures ResolveSource(Feeding(u, wrapper).items[0], streams, trail) == Ok(Resolved(Bare(u), u.username, u.password, wrapper))
  {
  }

  /** A takeover rewrites streams that other entries and aliases may read. Whatever value resolved before, it
      resolves afterwards to the same source, if it follows no managed alias, and otherwise to the relay URL of
      the stream that stands for its source, with the same conversion. */
  lemma {:induction false} ReadersKeepTheirSource(
    view: CameraView, t: Migration, relay: Relay, managed: map<string, Json>, base: map<string, Json>, value: Json, trail: Trail)
    requires ManagedStreams(view, t, relay, managed) && relay.host != "" && TakenFrom(t, base)
    requires ResolveSource(value, base, trail).Ok?
    ensures var before, after := ResolveSource(value, base, trail), ResolveSource(value, base + managed, trail);
            if Followed(value, base, trail) !! managed.Keys then after == before else Rerouted(view, t, relay, before, after)
    decreases MAX_SOURCES + 1 - |trail|
  {
    hide ManagedStreams, TakenFrom, StreamFor, IdOf;
    if AtRelay(Parsed(value).target.url) {
      var alias := Parsed(value).target.url.path;
      var sources := Fallbacks(At(base, alias));
      assert alias in base;
      if alias in managed {
        ManagedValue(view, t, relay, managed, base, alias, trail + [alias]);
        var was := ResolveSource(sources[0], base, trail + [alias]).value;
        var stream := StreamFor(view, t.plan, t.mapped, IdOf(was.uri).value).value;
        FeedServes(base + managed, RelayUrl(relay, stream), was.wrapper, trail + [alias]);
      } else {
        ReadersKeepTheirSource(view, t, relay, managed, base, sources[0], trail + [alias]);
      }
    }
  }

  /** The role aliases serve the current stream of their role. */
  lemma RoleAliasServesItsRole(view: CameraView, t: Migration, relay: Relay, streams: map<string, Json>, role: string)
    requires ManagedStreams(view, t, relay, streams) && relay.host != ""
    requires role in {"record", "detect"} && t.aliases["record"] != t.aliases["detect"]
    requires t.aliases[role] !in t.plan.live
    ensures role in RoleStreams(view.streams)
    ensures ResolveSource(RelayLink(t.aliases[role]), streams)
         == Ok(Resolved(Bare(RelayUrl(relay, RoleStreams(view.streams)[role])), "camadmiral", relay.password, None))
    ensures Visit(RelayLink(t.aliases[role]), streams, []) == Ok({t.aliases[role]})
  {
    assert ManagedRole(view, relay, role, streams[t.aliases[role]]);
    FeedResolves(t.aliases[role], streams, RelayUrl(relay, RoleStreams(view.streams)[role]), None);
  }

  /** How many inputs carry a role. */
  function Carrying(items: seq<Json>, role: string): nat {
    if items == [] then 0
    else Carrying(items[..|items| - 1], role)
         + (if RolesOf(items[|items| - 1]).Ok? && HasText(RolesOf(items[|items| - 1]).value, role) then 1 else 0)
  }

  lemma {:induction false} CarryingConcat(a: seq<Json>, b: seq<Json>, role: string)
    ensures Carrying(a + b, role) == Carrying(a, role) + Carrying(b, role)
  {
    if b == [] {
      assert a + b == a;
    } else {
      assert (a + b)[..|a + b| - 1] == a + b[..|b| - 1];
      CarryingConcat(a, b[..|b| - 1], role);
    }
  }

  lemma CarryingOne(item: Json, role: string)
    ensures Carrying([item], role) == if RolesOf(item).Ok? && HasText(RolesOf(item).value, role) then 1 else 0
  {
    assert [item][..0] == [];
  }

  lemma RolesDiffer()
    ensures "record" != "detect" && "record" != "audio" && "detect" != "audio"
  {
    assert "record"[0] == 'r' && "detect"[0] == 'd' && "audio"[0] == 'a';
  }

  /** What a split input carries. */
  lemma InputCarries(item: Json, duties: seq<Json>, own: string, alias: string, role: string)
    requires item.Obj? && own in {"record", "detect"} && role in {"record", "detect", "audio"}
    ensures Carrying([InputFor(item, duties, own, alias)], role)
         == if role == own || (role == "audio" && HasText(duties, "audio")
                               && own == (if HasText(duties, "record") then "record" else "detect")) then 1 else 0
  {
    var part := InputFor(item, duties, own, alias);
    var audio := HasText(duties, "audio") && own == (if HasText(duties, "record") then "record" else "detect");
    CarryingOne(part, role);
    RolesDiffer();
    assert RolesOf(part) == Ok([Text(own)] + if audio then [Text("audio")] else []);
    assert HasText(RolesOf(part).value, role) <==> Text(role) == Text(own) || (audio && Text(role) == Text("audio"));
  }

  lemma SplitConserves(item: Json, aliases: map<string, string>, role: string)
    requires "record" in aliases && "detect" in aliases && Split(item, aliases).Ok?
    requires role in {"record", "detect", "audio"}
    ensures Carrying(Split(item, aliases).value, role) == Carrying([item], role)
  {
    var duties := RolesOf(item).value;
    var a := if HasText(duties, "record") then [InputFor(item, duties, "record", aliases["record"])] else [];
    var b := if HasText(duties, "detect") then [InputFor(item, duties, "detect", aliases["detect"])] else [];
    assert Split(item, aliases).value == a + b;
    CarryingConcat(a, b, role);
    CarryingOne(item, role);
    InputCarries(item, duties, "record", aliases["record"], role);
    InputCarries(item, duties, "detect", aliases["detect"], role);
    RolesDiffer();
  }

  /** Splitting conserves who records, who detects and who listens. */
  lemma {:induction false} SplitAllConserves(items: seq<Json>, aliases: map<string, string>, role: string)
    requires "record" in aliases && "detect" in aliases && SplitAll(items, aliases).Ok?
    requires role in {"record", "detect", "audio"}
    ensures Carrying(SplitAll(items, aliases).value, role) == Carrying(items, role)
  {
    if items != [] {
      var last := items[|items| - 1];
      SplitAllConserves(items[..|items| - 1], aliases, role);
      SplitConserves(last, aliases, role);
      CarryingConcat(SplitAll(items[..|items| - 1], aliases).value, Split(last, aliases).value, role);
      assert items == items[..|items| - 1] + [last];
      CarryingConcat(items[..|items| - 1], [last], role);
    }
  }

  /** An input made from `item`: it keeps one capture role, read through that role's alias, and every
      other setting is untouched. */
  predicate MadeFor(item: Json, part: Json, role: string, aliases: map<string, string>)
    requires "record" in aliases && "detect" in aliases && role in {"record", "detect"}
  {
    && item.Obj? && part.Obj?
    && RolesOf(part).Ok? && RolesOf(part).value in {[Text(role)], [Text(role), Text("audio")]}
    && At(part.fields, "path") == RelayLink(aliases[role])
    && part.fields - {"path", "roles", "input_args"} == item.fields - {"path", "roles", "input_args"}
    && At(part.fields, "input_args")
       == (if "input_args" in item.fields then item.fields["input_args"] else Text("preset-rtsp-restream"))
  }

  predicate MadeFrom(item: Json, part: Json, aliases: map<string, string>)
    requires "record" in aliases && "detect" in aliases
  {
    MadeFor(item, part, "record", aliases) || MadeFor(item, part, "detect", aliases)
  }

  lemma InputIsMadeFor(item: Json, duties: seq<Json>, role: string, aliases: map<string, string>)
    requires "record" in aliases && "detect" in aliases && role in {"record", "detect"} && item.Obj?
    ensures MadeFor(item, InputFor(item, duties, role, aliases[role]), role, aliases)
  {
    var part := InputFor(item, duties, role, aliases[role]);
    assert part.fields - {"path", "roles", "input_args"} == item.fields - {"path", "roles", "input_args"};
    assert RolesOf(part).value == [Text(role)] || RolesOf(part).value == [Text(role), Text("audio")];
  }

  /** Every input of the managed entry is made from one of the original's, and every setting outside the
      inputs is the original's. */
  lemma {:induction false} SplitAllKeepsSettings(items: seq<Json>, aliases: map<string, string>)
    requires "record" in aliases && "detect" in aliases && SplitAll(items, aliases).Ok?
    ensures forall part | part in SplitAll(items, aliases).value :: exists item | item in items :: MadeFrom(item, part, aliases)
  {
    if items != [] {
      var last := items[|items| - 1];
      SplitAllKeepsSettings(items[..|items| - 1], aliases);
      InputIsMadeFor(last, RolesOf(last).value, "record", aliases);
      InputIsMadeFor(last, RolesOf(last).value, "detect", aliases);
      var before := SplitAll(items[..|items| - 1], aliases).value;
      forall part | part in SplitAll(items, aliases).value
        ensures exists item | item in items :: MadeFrom(item, part, aliases)
      {
        if part in before {
          var item :| item in items[..|items| - 1] && MadeFrom(item, part, aliases);
          assert item in items;
        } else {
          assert part in Split(last, aliases).value && MadeFrom(last, part, aliases);
          assert last in items;
        }
      }
    }
  }

  lemma ManagedEntryKeepsSettings(t: Migration, managed: Json)
    requires ManagedEntry(t, managed)
    ensures managed.Obj? && managed.fields - {"ffmpeg"} == t.original.fields - {"ffmpeg"}
    ensures "ffmpeg" in managed.fields && managed.fields["ffmpeg"].Obj?
    ensures managed.fields["ffmpeg"].fields - {"inputs"} == Field(t.original, "ffmpeg", Obj(map[])).value.fields - {"inputs"}
    ensures Inputs(managed).Ok?
    ensures forall role | role in {"record", "detect", "audio"} ::
              Carrying(Inputs(managed).value, role) == Carrying(Inputs(t.original).value, role)
    ensures forall part | part in Inputs(managed).value ::
              exists item | item in Inputs(t.original).value :: MadeFrom(item, part, t.aliases)
  {
    SplitAllKeepsSettings(Inputs(t.original).value, t.aliases);
    forall role | role in {"record", "detect", "audio"}
      ensures Carrying(Inputs(managed).value, role) == Carrying(Inputs(t.original).value, role)
    {
      SplitAllConserves(Inputs(t.original).value, t.aliases, role);
    }
  }
}
