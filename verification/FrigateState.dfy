/** What the reconciler wants of Frigate, when it is content, and what one request can change. */
module FrigateState {
  import opened Common
  import opened FrigateConfig

  /** A camera as Frigate should have it: its entry, its two stream aliases, and the hash of both. */
  datatype Desired = Desired(entry: Json, streams: map<string, Json>, digest: string)

  /** A selected camera that no import holds. `desired` is the error of building it, or None without roles. */
  datatype Selected = Selected(uuid: string, key: string, enabled: bool, desired: Result<Option<Desired>>)

  /** A row of `frigate_bindings`. */
  datatype Binding = Binding(key: string, digest: string, appliedDigest: Option<string>, applied: bool, enabledApplied: bool)

  const PREFIX := "camadmiral_"

  predicate Owned(name: string) {
    PREFIX <= name
  }

  function Field(j: Json, name: string): Json {
    if j.Obj? then At(j.fields, name) else Null
  }

  lemma MergeField(current: Json, update: Json, name: string)
    requires current.Obj? && update.Obj? && name in update.fields && update.fields[name] != DELETE
    ensures var merged := Merge(current, update);
            && name in merged.fields
            && Field(merged, name) ==
               if Field(current, name).Obj? && update.fields[name].Obj? then Merge(Field(current, name), update.fields[name])
               else update.fields[name]
  {
  }

  lemma MergeKeeps(current: Json, update: Json, name: string)
    requires current.Obj? && update.Obj? && name !in update.fields
    ensures Field(Merge(current, update), name) == Field(current, name)
  {
  }

  function Aliases(key: string): set<string> {
    {key + "_record", key + "_detect"}
  }

  /** The aliases of different keys are different. */
  lemma AliasesApart(a: string, b: string)
    requires a != b
    ensures Aliases(a) !! Aliases(b)
  {
    var ar, ad, br, bd := a + "_record", a + "_detect", b + "_record", b + "_detect";
    assert ar[|a|..] == "_record" && ad[|a|..] == "_detect" && br[|b|..] == "_record" && bd[|b|..] == "_detect";
    assert ar[..|a|] == a && ad[..|a|] == a && br[..|b|] == b && bd[..|b|] == b;
    assert ar[|ar| - 1] == 'd' && br[|br| - 1] == 'd' && ad[|ad| - 1] == 't' && bd[|bd| - 1] == 't';
    assert |ar| == |a| + 7 && |br| == |b| + 7 && |ad| == |a| + 7 && |bd| == |b| + 7;
  }

  lemma AliasesOwned(key: string)
    requires Owned(key)
    ensures forall alias | alias in Aliases(key) :: Owned(alias)
  {
  }

  ghost predicate Wanted(c: Selected) {
    c.enabled && c.desired.Ok? && c.desired.value.Some?
  }

  /** A camera with its own key; what is desired of it has an entry and exactly its aliases. */
  ghost predicate WellFormed(c: Selected) {
    && Owned(c.key)
    && (c.desired.Ok? && c.desired.value.Some? ==>
          var d := c.desired.value.value;
          d.entry.Obj? && d.streams.Keys == Aliases(c.key) && forall alias | alias in d.streams :: d.streams[alias].List?)
  }

  ghost predicate Distinct(cameras: seq<Selected>) {
    && (forall i, j | 0 <= i < j < |cameras| :: cameras[i].uuid != cameras[j].uuid && cameras[i].key != cameras[j].key)
    && (forall i | 0 <= i < |cameras| :: WellFormed(cameras[i]))
  }

  // ----- comparing

  /** Paths and roles of the inputs: what `raw_paths` shows of them. */
  function Paths(inputs: Json): Json {
    if inputs.List? then List(seq(|inputs.items|, i requires 0 <= i < |inputs.items| =>
      Obj(map["path" := Field(inputs.items[i], "path"), "roles" := Field(inputs.items[i], "roles")]))) else Null
  }

  /** `_owned_camera_mismatch`, without the name of the difference. */
  predicate EntryMatches(actual: Json, expected: Json) {
    && actual.Obj?
    && Field(actual, "friendly_name") == Field(expected, "friendly_name")
    && Field(actual, "detect").Obj?
    && (Field(expected, "detect").Obj? ==>
          forall f | f in Field(expected, "detect").fields :: Field(Field(actual, "detect"), f) == Field(expected, "detect").fields[f])
    && Field(actual, "live").Obj?
    && Field(Field(actual, "live"), "streams") == Field(Field(expected, "live"), "streams")
    && Paths(Field(Field(actual, "ffmpeg"), "inputs")) == Paths(Field(Field(expected, "ffmpeg"), "inputs"))
    && "fps" !in Field(actual, "detect").fields
  }

  /** `_actual_matches` */
  predicate Matches(d: Desired, key: string, config: Config, runtime: set<string>) {
    && EntryMatches(At(config.cameras, key), d.entry)
    && (forall alias | alias in d.streams :: At(config.streams, alias) == d.streams[alias])
    && d.streams.Keys <= runtime
  }

  /** The reconciler has nothing to change for this camera, apart from whether an enable is still owed. */
  ghost predicate Quiet(c: Selected, config: Config, runtime: set<string>, bindings: map<string, Binding>, retired: map<string, Json>) {
    if !c.enabled then
      c.uuid !in bindings || !At(config.cameras, c.key).Obj? || Field(At(config.cameras, c.key), "enabled") == Bool(false)
    else
      && Wanted(c) && c.uuid in bindings && c.key !in retired
      && bindings[c.uuid].appliedDigest == Some(c.desired.value.value.digest)
      && Matches(c.desired.value.value, c.key, config, runtime)
  }

  /** No enable is owed either. */
  ghost predicate Settled(c: Selected, config: Config, runtime: set<string>, bindings: map<string, Binding>, retired: map<string, Json>) {
    Quiet(c, config, runtime, bindings, retired) && (c.enabled ==> bindings[c.uuid].enabledApplied)
  }

  // ----- what a request can change

  function WithCamera(config: Config, key: string, update: Json): Config {
    config.(cameras := Merge(Obj(config.cameras), Obj(map[key := update])).fields)
  }

  function WithStreams(config: Config, update: map<string, Json>): Config {
    config.(streams := Merge(Obj(config.streams), Obj(update)).fields)
  }

  /** Everything beside one camera and some aliases stays: entries, saved aliases, and those of them that run. */
  ghost predicate Beside(c0: Config, r0: set<string>, c1: Config, r1: set<string>, key: string, aliases: set<string>) {
    && (forall k | k != key :: (k in c0.cameras <==> k in c1.cameras) && (k in c0.cameras ==> c0.cameras[k] == c1.cameras[k]))
    && (forall a | a !in aliases :: (a in c0.streams <==> a in c1.streams) && (a in c0.streams ==> c0.streams[a] == c1.streams[a]))
    && (forall a | a !in aliases && a in c0.streams && a in r0 :: a in r1)
  }

  lemma BesideNothing(c: Config, r: set<string>, key: string, aliases: set<string>)
    ensures Beside(c, r, c, r, key, aliases)
  {
  }

  lemma BesideTwice(c0: Config, r0: set<string>, c1: Config, r1: set<string>, c2: Config, r2: set<string>, key: string, aliases: set<string>)
    requires Beside(c0, r0, c1, r1, key, aliases) && Beside(c1, r1, c2, r2, key, aliases)
    ensures Beside(c0, r0, c2, r2, key, aliases)
  {
  }

  lemma CameraPut(c: Config, r: set<string>, key: string, update: Json, aliases: set<string>)
    ensures Beside(c, r, WithCamera(c, key, update), r, key, aliases)
  {
  }

  lemma StreamsPut(c: Config, r: set<string>, key: string, update: map<string, Json>, aliases: set<string>)
    requires update.Keys <= aliases
    ensures Beside(c, r, WithStreams(c, update), r, key, aliases)
  {
  }

  /** A camera elsewhere notices nothing. */
  lemma QuietBeside(c: Selected, c0: Config, r0: set<string>, c1: Config, r1: set<string>, bindings: map<string, Binding>,
                    retired: map<string, Json>, key: string)
    requires Beside(c0, r0, c1, r1, key, Aliases(key)) && WellFormed(c) && c.key != key
    requires Quiet(c, c0, r0, bindings, retired)
    ensures Quiet(c, c1, r1, bindings, retired)
  {
    AliasesApart(c.key, key);
    hide EntryMatches, Aliases;
    assert At(c1.cameras, c.key) == At(c0.cameras, c.key);
    if c.enabled {
      var d := c.desired.value.value;
      forall alias | alias in d.streams ensures At(c1.streams, alias) == d.streams[alias] && alias in r1 {
        assert alias in Aliases(c.key) && alias !in Aliases(key);
        assert alias in c0.streams;
      }
    }
  }
}
