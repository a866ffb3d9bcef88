/** What the takeover journal records, and why it always suffices to undo a takeover exactly. */
module TakeoverState {
  import opened Common
  import opened FrigateConfig
  import opened StreamGraph
  import opened ManagedConfig

  datatype Phase = Preparing | Releasing | Paused | Applying | Active | Restored

  /** A row of an import job; the journal stores the same record. A field that a row may lack is `Null`,
      `None` or empty. */
  datatype Row = Row(
    original: Json,
    originalStreams: map<string, Json>,
    plan: Plan,
    camera: Option<string>,
    mapped: map<SourceId, string>,
    created: bool,
    candidate: Option<string>,
    importJob: Option<nat>,
    phase: Phase,
    handoff: bool,
    releaseRequired: bool,
    pausedCamera: Json,
    releasedStreams: map<string, Json>,
    pausedStreams: map<string, Json>,
    managedCamera: Json,
    managedStreams: map<string, Json>,
    aliases: map<string, string>)
  {
    function Originals(): map<string, Json> {
      releasedStreams + originalStreams
    }

    function AsMigration(): Migration {
      Migration(original, originalStreams, releasedStreams, plan, mapped, aliases)
    }
  }

  /** The unusable feed that a released alias gets. */
  const HANDOFF_URL := Url("rtsp", "127.0.0.1", Some(1), "camadmiral-handoff", "", "", "", "", false)
  const HANDOFF_FEED := List([Media(Source(false, None, false, Link(HANDOFF_URL)))])

  /** Every alias of the set on the unusable feed. */
  function Parked(aliases: set<string>): map<string, Json> {
    map alias | alias in aliases :: HANDOFF_FEED
  }

  /** What releasing aliases does to anything that resolved before: nothing, or, exactly if it follows one of
      them, it ends at the unusable feed. */
  lemma {:induction false} ParkedOutcome(value: Json, streams: map<string, Json>, aliases: set<string>, trail: Trail)
    requires ResolveSource(value, streams, trail).Ok?
    ensures var before, after := ResolveSource(value, streams, trail), ResolveSource(value, streams + Parked(aliases), trail);
            if Followed(value, streams, trail) !! aliases then after == before
            else after.Ok? && after.value.uri == HANDOFF_URL && after.value.wrapper in {None, before.value.wrapper}
    decreases MAX_SOURCES + 1 - |trail|
  {
    if AtRelay(Parsed(value).target.url) {
      var alias := Parsed(value).target.url.path;
      if alias in aliases {
        assert ResolveSource(HANDOFF_FEED.items[0], streams + Parked(aliases), trail + [alias])
            == Ok(Resolved(HANDOFF_URL, "", "", None));
      } else {
        ParkedOutcome(Fallbacks(At(streams, alias))[0], streams, aliases, trail + [alias]);
      }
    }
  }

  function ImportAlias(camera: string, role: string): string {
    "camadmiral_" + camera + "_import_" + role
  }

  // ----- writing to Frigate

  /** One `config/set` request for one camera entry and some streams. */
  function Put(config: Config, key: string, entry: Json, streams: map<string, Json>): Config {
    Config(Merge(Obj(config.cameras), Obj(map[key := entry])).fields, Merge(Obj(config.streams), Obj(streams)).fields)
  }

  predicate PutRejected(config: Config, key: string, entry: Json, streams: map<string, Json>) {
    Rejects(Obj(config.cameras), Obj(map[key := entry])) || Rejects(Obj(config.streams), Obj(streams))
  }

  function Pause(original: Json): Json
    requires original.Obj?
  {
    Obj(original.fields["enabled" := Bool(false)])
  }

  /** `_camera_write`: delete the temporary flag when the desired entry relies on the default. */
  function CameraWrite(handoff: bool, desired: Json, current: Json): Json
    requires desired.Obj?
  {
    if handoff && "enabled" !in desired.fields && current.Obj? && "enabled" in current.fields then
      Obj(desired.fields["enabled" := DELETE])
    else desired
  }

  function Cleared(aliases: set<string>): map<string, Json> {
    map alias | alias in aliases :: DELETE
  }

  function RestoreStreams(row: Row, configured: map<string, Json>): map<string, Json> {
    Cleared(row.aliases.Values * configured.Keys) + row.Originals()
  }

  /** The request that puts the original back. */
  function RestorePut(row: Row, key: string, config: Config): Config
    requires row.original.Obj?
  {
    Put(config, key, CameraWrite(row.handoff, row.original, At(config.cameras, key)), RestoreStreams(row, config.streams))
  }

  /** What `restore` accepts for an alias that the managed configuration owns. */
  predicate OwnedOk(row: Row, alias: string, actual: Json, configured: Json)
    requires alias in row.managedStreams
  {
    || (row.handoff && actual == row.pausedCamera && configured == At(row.pausedStreams, alias))
    || configured == row.managedStreams[alias]
    || configured == At(row.Originals(), alias)
  }

  /** What `restore` accepts for a released alias. */
  predicate ReleasedOk(row: Row, alias: string, configured: Json)
    requires alias in row.releasedStreams
  {
    || configured == At(row.pausedStreams, alias)
    || configured == row.releasedStreams[alias]
    || configured == At(row.managedStreams, alias)
  }

  predicate EntryOk(row: Row, actual: Json) {
    actual == row.original || actual == row.managedCamera || actual == row.pausedCamera
  }

  /** The conflict guards of `restore`. */
  predicate GuardsPass(row: Row, key: string, config: Config) {
    var actual := At(config.cameras, key);
    && EntryOk(row, actual)
    && (forall alias | alias in row.managedStreams :: OwnedOk(row, alias, actual, At(config.streams, alias)))
    && (forall alias | alias in row.releasedStreams :: ReleasedOk(row, alias, At(config.streams, alias)))
  }

  // ----- entries that a takeover writes

  /** An entry with no empty string in a mapping, and with inputs of its own. */
  predicate Restorable(entry: Json) {
    && entry.Obj? && Clean(entry)
    && "ffmpeg" in entry.fields && entry.fields["ffmpeg"].Obj? && "inputs" in entry.fields["ffmpeg"].fields
    && !entry.fields["ffmpeg"].fields["inputs"].Obj?
    && ("enabled" in entry.fields ==> !entry.fields["enabled"].Obj?)
  }

  /** Two entries that differ at most in their inputs and in the `enabled` flag. */
  predicate Variant(a: Json, b: Json) {
    && Restorable(a) && Restorable(b)
    && a.fields - {"enabled", "ffmpeg"} == b.fields - {"enabled", "ffmpeg"}
    && a.fields["ffmpeg"].fields - {"inputs"} == b.fields["ffmpeg"].fields - {"inputs"}
  }

  lemma VariantCovers(from: Json, to: Json)
    requires Variant(from, to)
    ensures Covered(Obj(from.fields - {"enabled"}), to)
    ensures "enabled" in to.fields ==> Covered(from, to)
  {
    forall k | k in from.fields && k != "enabled"
      ensures k in to.fields && (from.fields[k].Obj? && to.fields[k].Obj? ==> Covered(from.fields[k], to.fields[k]))
    {
      if k == "ffmpeg" {
        var a, b := from.fields[k], to.fields[k];
        forall f | f in a.fields
          ensures f in b.fields && (a.fields[f].Obj? && b.fields[f].Obj? ==> Covered(a.fields[f], b.fields[f]))
        {
          if f != "inputs" {
            assert f in a.fields - {"inputs"} && f in b.fields - {"inputs"};
            if a.fields[f].Obj? { CoversItself(a.fields[f]); }
          }
        }
      } else {
        assert k in from.fields - {"enabled", "ffmpeg"} && k in to.fields - {"enabled", "ffmpeg"};
        if from.fields[k].Obj? { CoversItself(from.fields[k]); }
      }
    }
  }

  lemma FieldOfMerge(current: Json, update: Json, k: string)
    requires current.Obj? && update.Obj?
    ensures k in Merge(current, update).fields <==>
            if k in update.fields then update.fields[k] != DELETE else k in current.fields
    ensures k in Merge(current, update).fields ==>
            Merge(current, update).fields[k]
            == if k !in update.fields then current.fields[k]
               else if k in current.fields && current.fields[k].Obj? && update.fields[k].Obj? then
                 Merge(current.fields[k], update.fields[k])
               else update.fields[k]
  {
  }

  /** Deleting a key while writing others is writing the others with the key gone before. */
  lemma MergeDropsFirst(current: Json, desired: Json, key: string)
    requires current.Obj? && desired.Obj? && key in current.fields && key !in desired.fields
    ensures Merge(current, Obj(desired.fields[key := DELETE])) == Merge(Obj(current.fields - {key}), desired)
  {
    hide *;
    var update, rest := Obj(desired.fields[key := DELETE]), Obj(current.fields - {key});
    forall k ensures k in Merge(current, update).fields <==> k in Merge(rest, desired).fields {
      FieldOfMerge(current, update, k);
      FieldOfMerge(rest, desired, k);
    }
    forall k | k in Merge(rest, desired).fields
      ensures Merge(current, update).fields[k] == Merge(rest, desired).fields[k]
    {
      FieldOfMerge(current, update, k);
      FieldOfMerge(rest, desired, k);
    }
    assert Merge(current, update).fields == Merge(rest, desired).fields;
  }

  lemma MergeDeletes(current: Json, desired: Json, key: string)
    requires current.Obj? && desired.Obj? && Clean(desired) && key in current.fields && key !in desired.fields
    requires Covered(Obj(current.fields - {key}), desired)
    ensures Merge(current, Obj(desired.fields[key := DELETE])) == desired
  {
    MergeDropsFirst(current, desired, key);
    MergeLeavesUpdateIffCovered(Obj(current.fields - {key}), desired);
  }

  lemma DeletionAccepted(current: Json, desired: Json, key: string)
    requires current.Obj? && desired.Obj? && Clean(desired) && key in current.fields && key !in desired.fields
    ensures !Rejects(current, Obj(desired.fields[key := DELETE]))
  {
    forall k | k in desired.fields && desired.fields[k].Obj? ensures !Rejects(At(current.fields, k), desired.fields[k]) {
      CleanIsNeverRejected(At(current.fields, k), desired.fields[k]);
    }
  }

  /** Writing one variant over another leaves exactly the one written. */
  lemma VariantWrite(handoff: bool, from: Json, to: Json)
    requires Variant(from, to)
    requires "enabled" in from.fields && "enabled" !in to.fields ==> handoff
    ensures Merge(from, CameraWrite(handoff, to, from)) == to && !Rejects(from, CameraWrite(handoff, to, from))
  {
    VariantCovers(from, to);
    if "enabled" in from.fields && "enabled" !in to.fields {
      MergeDeletes(from, to, "enabled");
      DeletionAccepted(from, to, "enabled");
    } else {
      if "enabled" !in from.fields {
        assert from.fields - {"enabled"} == from.fields;
      }
      MergeLeavesUpdateIffCovered(from, to);
      CleanIsNeverRejected(from, to);
    }
  }

  /** A stream value that a merge replaces as a whole. */
  predicate StreamValue(v: Json) {
    v != DELETE && v != Null && !v.Obj?
  }

  predicate StreamsOk(streams: map<string, Json>) {
    forall alias | alias in streams :: StreamValue(streams[alias])
  }

  lemma PutEntryMerges(cameras: map<string, Json>, key: string, entry: Json)
    requires key in cameras && cameras[key].Obj? && entry.Obj?
    ensures Merge(Obj(cameras), Obj(map[key := entry])) == Obj(cameras[key := Merge(cameras[key], entry)])
  {
    hide Merge;
    var merged, result := Merge(Obj(cameras), Obj(map[key := entry])).fields, Merge(cameras[key], entry);
    forall k ensures k in merged <==> k in cameras {
      FieldOfMerge(Obj(cameras), Obj(map[key := entry]), k);
    }
    forall k | k in merged ensures merged[k] == cameras[key := result][k] {
      FieldOfMerge(Obj(cameras), Obj(map[key := entry]), k);
    }
    assert merged == cameras[key := result];
  }

  lemma PutEntryAccepted(cameras: map<string, Json>, key: string, entry: Json)
    requires key in cameras && entry.Obj? && !Rejects(cameras[key], entry)
    ensures !Rejects(Obj(cameras), Obj(map[key := entry]))
  {
    assert At(cameras, key) == cameras[key];
  }

  lemma PutEntry(cameras: map<string, Json>, key: string, entry: Json, result: Json)
    requires key in cameras && cameras[key].Obj? && entry.Obj?
    requires Merge(cameras[key], entry) == result && !Rejects(cameras[key], entry)
    ensures Merge(Obj(cameras), Obj(map[key := entry])) == Obj(cameras[key := result])
    ensures !Rejects(Obj(cameras), Obj(map[key := entry]))
  {
    PutEntryMerges(cameras, key, entry);
    PutEntryAccepted(cameras, key, entry);
  }

  lemma PutStreams(configured: map<string, Json>, streams: map<string, Json>, cleared: set<string>)
    requires StreamsOk(streams) && cleared !! streams.Keys && cleared <= configured.Keys
    ensures Merge(Obj(configured), Obj(Cleared(cleared) + streams)) == Obj(configured + streams - cleared)
    ensures !Rejects(Obj(configured), Obj(Cleared(cleared) + streams))
  {
    var update := Cleared(cleared) + streams;
    assert forall alias | alias in update :: update[alias] == if alias in streams then streams[alias] else DELETE;
    assert Merge(Obj(configured), Obj(update)).fields == configured + streams - cleared;
  }

  lemma PutStreamsOnly(configured: map<string, Json>, streams: map<string, Json>)
    requires StreamsOk(streams)
    ensures Merge(Obj(configured), Obj(streams)) == Obj(configured + streams)
    ensures !Rejects(Obj(configured), Obj(streams))
  {
    PutStreams(configured, streams, {});
    assert Cleared({}) + streams == streams && configured + streams - {} == configured + streams;
  }

  // ----- what a row has to record

  /** The configuration before the takeover: a restorable entry, ordinary stream values, and none of the
      aliases that an import creates. */
  predicate Importable(base: Config, key: string) {
    && key in base.cameras && Restorable(base.cameras[key])
    && StreamsOk(base.streams)
  }

  function PausedConfig(row: Row, base: Config, key: string): Config {
    Config(base.cameras[key := row.pausedCamera], base.streams + row.pausedStreams)
  }

  function ManagedConfigOf(row: Row, base: Config, key: string): Config {
    Config(base.cameras[key := row.managedCamera], base.streams + row.managedStreams)
  }

  /** `part` agrees with the original configuration. */
  predicate From(part: map<string, Json>, base: map<string, Json>) {
    forall alias | alias in part :: alias in base && base[alias] == part[alias]
  }

  /** The row recorded the original entry and its live aliases as they were. */
  predicate Snapshot(row: Row, base: Config, key: string) {
    && key in base.cameras && row.original == base.cameras[key]
    && From(row.originalStreams, base.streams)
    && row.plan.live.Keys == row.originalStreams.Keys
  }

  /** Streams and aliases left from an earlier attempt touch nothing else of the original configuration. */
  predicate LeftoversOk(row: Row, base: Config, touched: set<string>) {
    && (forall alias | alias in row.managedStreams && alias in base.streams :: alias in touched)
    && row.aliases.Values !! base.streams.Keys
  }

  predicate HandoffRecorded(row: Row, base: Config, key: string) {
    if row.handoff then
      && row.original.Obj? && row.pausedCamera == Pause(row.original)
      && From(row.releasedStreams, base.streams)
      && row.originalStreams.Keys <= row.releasedStreams.Keys
      && row.pausedStreams == Parked(row.releasedStreams.Keys)
    else
      row.releasedStreams == map[] && row.pausedStreams == map[] && row.pausedCamera == Null
  }

  predicate ManagedRecorded(row: Row) {
    && row.camera.Some?
    && row.aliases == map["record" := ImportAlias(row.camera.value, "record"), "detect" := ImportAlias(row.camera.value, "detect")]
    && Variant(row.original, row.managedCamera)
    && At(row.managedCamera.fields, "enabled") == At(row.original.fields, "enabled")
    && ("enabled" in row.managedCamera.fields <==> "enabled" in row.original.fields)
    && StreamsOk(row.managedStreams)
    && row.managedStreams.Keys == row.aliases.Values + row.Originals().Keys
  }

  /** Everything a pending row records is true of the original configuration. */
  predicate Recorded(row: Row, base: Config, key: string) {
    && Snapshot(row, base, key)
    && HandoffRecorded(row, base, key)
    && LeftoversOk(row, base, row.Originals().Keys)
    && (row.phase in {Applying, Active} ==> ManagedRecorded(row))
    && row.phase != Preparing
    && (row.phase in {Releasing, Paused} ==> row.handoff)
  }

  /** How far an active journal entry can be trusted: what it says is saved; or a restore wrote the original
      back and its journal entry is still there; or a synchronisation saved new streams that are not journaled. */
  datatype Doubt = Settled | Undone | Unsynced(streams: map<string, Json>)

  /** The row with the streams that are really saved. */
  function Seen(row: Row, doubt: Doubt): Row {
    if doubt.Unsynced? then row.(managedStreams := doubt.streams) else row
  }

  /** The row covers what is saved: the whole configuration is the original, the paused or the managed
      one. An active row is managed, unless there is a doubt; a restored one is the original. */
  predicate Admits(row: Row, base: Config, key: string, config: Config, doubt: Doubt) {
    match row.phase
    case Preparing => false
    case Releasing => doubt.Settled? && (config == base || config == PausedConfig(row, base, key))
    case Paused => doubt.Settled? && (config == base || config == PausedConfig(row, base, key))
    case Applying =>
      && doubt.Settled?
      && (|| config == base
          || (row.handoff && config == PausedConfig(row, base, key))
          || config == ManagedConfigOf(row, base, key))
    case Active => config == if doubt.Undone? then base else ManagedConfigOf(Seen(row, doubt), base, key)
    case Restored => !doubt.Unsynced? && config == base
  }

  /** A journal row that covers the saved configuration, and whose released aliases nobody else reads. */
  predicate Covers(row: Row, base: Config, key: string, config: Config, doubt: Doubt) {
    && Recorded(row, base, key) && Admits(row, base, key, config, doubt)
    && (doubt.Unsynced? ==> Recorded(Seen(row, doubt), base, key))
    && (row.handoff ==> OnlyReadBy(key, row.releasedStreams.Keys, base.cameras, base.streams))
  }

  lemma CoversOriginal(row: Row, base: Config, key: string, config: Config, doubt: Doubt)
    requires Covers(row, base, key, config, doubt)
    ensures row.phase == Active ==> Covers(row, base, key, base, Undone)
    ensures row.phase != Active ==> Covers(row, base, key, base, doubt)
  {
    hide OnlyReadBy, Recorded;
  }

  lemma CoversRestored(row: Row, base: Config, key: string, doubt: Doubt, camera: Option<string>)
    requires Covers(row, base, key, base, doubt) && !doubt.Unsynced?
    ensures Covers(row.(camera := camera, phase := Restored), base, key, base, doubt)
  {
    hide OnlyReadBy;
  }

  /** The alias holds its original, its paused or its managed value; the managed value can be a leftover. */
  lemma AdmittedStream(row: Row, base: Config, key: string, config: Config, alias: string)
    requires Recorded(row, base, key) && (Admits(row, base, key, config, Settled) || config == base)
    requires alias in row.managedStreams || alias in row.releasedStreams
    ensures alias in row.managedStreams ==> OwnedOk(row, alias, At(config.cameras, key), At(config.streams, alias))
    ensures alias in row.releasedStreams ==> ReleasedOk(row, alias, At(config.streams, alias))
  {
    hide Variant, OnlyReadBy, StreamsOk, Pause;
    if config == base {
      assert alias in base.streams <==> alias in row.Originals();
    } else if config == ManagedConfigOf(row, base, key) && row.phase in {Applying, Active} {
      assert At(config.streams, alias) == row.managedStreams[alias];
    } else {
      assert config == PausedConfig(row, base, key) && row.handoff;
      assert alias in row.Originals() <==> alias in row.releasedStreams;
    }
  }

  lemma AdmitsEntry(row: Row, base: Config, key: string, config: Config)
    requires Recorded(row, base, key) && (Admits(row, base, key, config, Settled) || config == base)
    ensures EntryOk(row, At(config.cameras, key))
  {
    hide Variant, StreamsOk, Pause, From;
  }

  /** Under the journal's cover no guard of `restore` objects. */
  lemma GuardsAccept(row: Row, base: Config, key: string, config: Config)
    requires Recorded(row, base, key) && (Admits(row, base, key, config, Settled) || config == base)
    ensures GuardsPass(row, key, config)
  {
    AdmitsEntry(row, base, key, config);
    hide OwnedOk, ReleasedOk, Recorded, Admits, EntryOk;
    forall alias | alias in row.managedStreams || alias in row.releasedStreams
      ensures alias in row.managedStreams ==> OwnedOk(row, alias, At(config.cameras, key), At(config.streams, alias))
      ensures alias in row.releasedStreams ==> ReleasedOk(row, alias, At(config.streams, alias))
    {
      AdmittedStream(row, base, key, config, alias);
    }
  }

  lemma PauseIsVariant(original: Json)
    requires Restorable(original)
    ensures Variant(original, Pause(original)) && Variant(Pause(original), original) && Variant(original, original)
  {
    var paused := Pause(original);
    assert forall k | k in paused.fields :: paused.fields[k] == if k == "enabled" then Bool(false) else original.fields[k];
    assert paused.fields - {"enabled", "ffmpeg"} == original.fields - {"enabled", "ffmpeg"};
  }

  lemma AdmittedEntry(row: Row, base: Config, key: string, config: Config)
    requires Importable(base, key) && Recorded(row, base, key) && (Admits(row, base, key, config, Settled) || config == base)
    ensures key in config.cameras && config.cameras[key].Obj? && Variant(config.cameras[key], row.original)
    ensures "enabled" in config.cameras[key].fields && "enabled" !in row.original.fields ==> row.handoff
    ensures config.cameras[key := row.original] == base.cameras
  {
    PauseIsVariant(row.original);
    if row.phase in {Applying, Active} {
      VariantBack(row.original, row.managedCamera);
    }
    hide Variant, StreamsOk, From, Clean;
  }

  lemma VariantBack(a: Json, b: Json)
    requires Variant(a, b)
    ensures Variant(b, a) && b.Obj?
  {
  }

  /** Writing the original values back over an overlay, and clearing the names that were not there, undoes it. */
  lemma OverlayUndone(base: map<string, Json>, overlay: map<string, Json>, originals: map<string, Json>, added: set<string>)
    requires From(originals, base) && added !! base.Keys && overlay.Keys <= added + originals.Keys
    ensures base + overlay + originals - added * (base + overlay).Keys == base
  {
    var back := base + overlay + originals - added * (base + overlay).Keys;
    assert back.Keys == base.Keys;
    forall alias | alias in back ensures back[alias] == base[alias] {
    }
  }

  lemma AdmittedStreams(row: Row, base: Config, key: string, config: Config)
    requires Recorded(row, base, key) && (Admits(row, base, key, config, Settled) || config == base)
    ensures config.streams + row.Originals() - row.aliases.Values * config.streams.Keys == base.streams
  {
    var originals := row.Originals();
    assert From(originals, base.streams);
    if config == base {
      OverlayUndone(base.streams, map[], originals, row.aliases.Values);
      assert base.streams + map[] == base.streams;
    } else if config == PausedConfig(row, base, key) {
      OverlayUndone(base.streams, row.pausedStreams, originals, row.aliases.Values);
    } else {
      OverlayUndone(base.streams, row.managedStreams, originals, row.aliases.Values);
    }
  }

  lemma OriginalsAreBase(row: Row, base: Config, key: string)
    requires Importable(base, key) && Recorded(row, base, key)
    ensures row.original.Obj? && From(row.Originals(), base.streams) && StreamsOk(row.Originals())
    ensures row.aliases.Values !! row.Originals().Keys
  {
    hide Clean, Variant;
  }

  /** Writing the original back over any covered configuration restores the whole original configuration,
      with the temporary flag and the import aliases gone, and Frigate does not refuse the request. */
  lemma RestoreIsExact(row: Row, base: Config, key: string, config: Config)
    requires Importable(base, key) && Recorded(row, base, key) && (Admits(row, base, key, config, Settled) || config == base)
    ensures RestorePut(row, key, config) == base
    ensures !PutRejected(config, key, CameraWrite(row.handoff, row.original, At(config.cameras, key)),
                         RestoreStreams(row, config.streams))
  {
    hide Merge, Rejects, Clean, Covered, Recorded, Admits, Importable, Variant, StreamsOk, From;
    AdmittedEntry(row, base, key, config);
    OriginalsAreBase(row, base, key);
    var current := config.cameras[key];
    VariantWrite(row.handoff, current, row.original);
    PutEntry(config.cameras, key, CameraWrite(row.handoff, row.original, current), row.original);
    AdmittedStreams(row, base, key, config);
    PutStreams(config.streams, row.Originals(), row.aliases.Values * config.streams.Keys);
  }

  /** Pausing saves exactly the paused configuration. */
  lemma PauseIsExact(row: Row, base: Config, key: string)
    requires Importable(base, key) && Snapshot(row, base, key) && HandoffRecorded(row, base, key) && row.handoff
    ensures Put(base, key, row.pausedCamera, row.pausedStreams) == PausedConfig(row, base, key)
    ensures !PutRejected(base, key, row.pausedCamera, row.pausedStreams)
  {
    hide Merge, Rejects, Clean, Covered;
    PauseIsVariant(row.original);
    VariantWrite(false, row.original, row.pausedCamera);
    PutEntry(base.cameras, key, row.pausedCamera, row.pausedCamera);
    PutStreamsOnly(base.streams, row.pausedStreams);
  }

  /** The entry that is saved when the managed one is written. */
  function Expected(row: Row): Json {
    if row.handoff then row.pausedCamera else row.original
  }

  /** Applying saves exactly the managed configuration, from the original or from the paused one. */
  lemma ApplyIsExact(row: Row, base: Config, key: string, config: Config)
    requires Importable(base, key) && Recorded(row, base, key) && row.phase == Applying
    requires config == if row.handoff then PausedConfig(row, base, key) else base
    ensures row.managedCamera.Obj?
    ensures Put(config, key, CameraWrite(row.handoff, row.managedCamera, Expected(row)), row.managedStreams)
         == ManagedConfigOf(row, base, key)
    ensures !PutRejected(config, key, CameraWrite(row.handoff, row.managedCamera, Expected(row)), row.managedStreams)
  {
    hide Merge, Rejects, Clean, Covered;
    PauseIsVariant(row.original);
    var current := Expected(row);
    assert config.cameras[key] == current && Variant(current, row.managedCamera);
    VariantWrite(row.handoff, current, row.managedCamera);
    PutEntry(config.cameras, key, CameraWrite(row.handoff, row.managedCamera, current), row.managedCamera);
    PutStreamsOnly(config.streams, row.managedStreams);
    OverlayReplaced(base.streams, row.pausedStreams, row.managedStreams);
    assert config.cameras[key := row.managedCamera] == base.cameras[key := row.managedCamera];
  }

  lemma OverlayReplaced(base: map<string, Json>, first: map<string, Json>, second: map<string, Json>)
    requires first.Keys <= second.Keys
    ensures base + first + second == base + second
  {
  }

  // ----- the whole durable state

  /** The adopted camera that a pending handoff answers for. */
  function ClaimOf(row: Row, adopted: map<string, string>): set<string> {
    if !row.handoff || !row.created then {}
    else if row.camera.Some? then {row.camera.value}
    else if row.candidate.Some? && row.candidate.value in adopted then {adopted[row.candidate.value]}
    else {}
  }

  /** Frigate, the journal row of the camera, its jobs and the adopted cameras by candidate. `pending` is the
      camera adopted while its handoff was journaled. */
  datatype World = World(
    config: Config,
    link: Option<Row>,
    jobs: map<nat, Row>,
    adopted: map<string, string>,
    pending: Option<string>,
    doubt: Doubt)

  /** The row with the adopted camera of its candidate, if it names none itself. */
  function WithCamera(row: Row, adopted: map<string, string>): Row {
    if row.handoff && row.created && row.camera.None? && row.candidate.Some? && row.candidate.value in adopted then
      row.(camera := Some(adopted[row.candidate.value]))
    else row
  }

  lemma WithCameraNames(row: Row, adopted: map<string, string>)
    ensures Names(WithCamera(row, adopted), row, adopted)
    ensures ClaimOf(row, adopted) ==
            if row.handoff && row.created && WithCamera(row, adopted).camera.Some? then {WithCamera(row, adopted).camera.value} else {}
  {
    if row.camera.None? && row.handoff && row.created {
    } else {
      assert WithCamera(row, adopted) == row;
    }
  }

  /** The aliases that a job's entry reads or shows, in the original configuration. */
  function Touched(row: Row, base: Config): set<string> {
    var read := MediaAliases(row.original, base.streams);
    (if read.Ok? then read.value else {}) + row.originalStreams.Keys
  }

  /** What is known of any job row, whatever became of it. */
  predicate JobOk(row: Row, base: Config) {
    && row.original.Obj?
    && row.plan.live.Keys == row.originalStreams.Keys
    && (forall alias | alias in row.originalStreams :: row.originalStreams[alias] != Null)
    && LeftoversOk(row, base, Touched(row, base))
    && (row.releaseRequired && row.camera.None? ==> row.created)
  }

  /** The journal covers the saved configuration, and a pending handoff answers for the camera it adopted. */
  predicate Fits(w: World, base: Config, key: string) {
    && Importable(base, key)
    && (forall job | job in w.jobs :: JobOk(w.jobs[job], base))
    && (if w.link.Some? then Covers(w.link.value, base, key, w.config, w.doubt) else w.config == base && w.doubt.Settled?)
    && (w.pending.Some? ==> w.link.Some? && w.pending.value in ClaimOf(w.link.value, w.adopted))
  }

  /** Write-ahead safety: whatever is saved that is not the original is covered by the journal. Only streams
      that a synchronisation has not journaled yet can stop a restore. */
  lemma ChangedIsJournaled(w: World, base: Config, key: string)
    requires Fits(w, base, key)
    ensures w.config != base ==>
              && w.link.Some? && w.link.value.original == base.cameras[key]
              && (w.config == PausedConfig(w.link.value, base, key)
                  || w.config == ManagedConfigOf(Seen(w.link.value, w.doubt), base, key))
    ensures w.link.Some? ==> EntryOk(w.link.value, At(w.config.cameras, key))
    ensures w.link.Some? && SyncedEnough(w.link.value, w.doubt) ==> GuardsPass(w.link.value, key, w.config)
  {
    hide OnlyReadBy, JobOk, OwnedOk, ReleasedOk;
    if w.link.Some? {
      GuardsHold(w.link.value, base, key, w.config, w.doubt);
    }
  }

  /** Each stream that is not journaled is saved as the journal has it or as the original. */
  predicate SyncedEnough(row: Row, doubt: Doubt) {
    doubt.Unsynced? ==> forall alias | alias in doubt.streams ::
      doubt.streams[alias] == At(row.managedStreams, alias) || doubt.streams[alias] == At(row.Originals(), alias)
  }

  /** The world once `restore` has written. */
  function Undo(w: World, base: Config): World {
    w.(config := base, doubt := if w.link.Some? && w.link.value.phase == Active then Undone else w.doubt)
  }

  /** The camera adopted during a handoff is one that the journal answers for. */
  lemma PendingIsClaimed(w: World, base: Config, key: string)
    requires Fits(w, base, key) && w.pending.Some?
    ensures w.link.Some? && w.pending.value in ClaimOf(w.link.value, w.adopted)
  {
    hide JobOk, Covers, Importable, ClaimOf;
  }

  /** The row with the camera of its handoff named. */
  predicate Names(named: Row, row: Row, adopted: map<string, string>) {
    && named == row.(camera := named.camera) && (row.camera.Some? ==> named == row)
    && ClaimOf(named, adopted) == ClaimOf(row, adopted)
  }

  /** The request of `restore` leaves exactly the original configuration, under the journal's cover. */
  lemma RestoreSteps(w: World, base: Config, key: string, named: Row)
    requires Fits(w, base, key) && w.link.Some? && Names(named, w.link.value, w.adopted)
    ensures named.original.Obj?
    ensures var entry := CameraWrite(named.handoff, named.original, At(w.config.cameras, key));
            var streams := RestoreStreams(named, w.config.streams);
            Put(w.config, key, entry, streams) == base && !PutRejected(w.config, key, entry, streams)
    ensures Fits(Undo(w, base), base, key)
  {
    hide Importable, JobOk, Covers;
    RestoreCovers(named, w.link.value, base, key, w.config, w.doubt);
  }

  /** So does the journal entry that says so. */
  lemma RestoreRecorded(w: World, base: Config, key: string, named: Row)
    requires Fits(w, base, key) && w.link.Some? && Names(named, w.link.value, w.adopted)
    ensures Fits(Undo(w, base).(link := Some(named.(phase := Restored))), base, key)
  {
    hide Importable, JobOk, Covers;
    RestoreCovers(named, w.link.value, base, key, w.config, w.doubt);
  }

  lemma RestoredIsOriginal(w: World, base: Config, key: string)
    requires Fits(w, base, key) && w.link.Some? && w.link.value.phase == Restored
    ensures w.config == base && Fits(w.(link := None, pending := None, doubt := Settled), base, key)
  {
    hide Importable, JobOk, Recorded, OnlyReadBy;
  }

  /** The early exit of `restore` is taken only when nothing was written, and drops no claim. */
  lemma UntouchedIsOriginal(w: World, base: Config, key: string)
    requires Fits(w, base, key) && w.link.Some? && !w.link.value.handoff
    requires forall alias | alias in w.link.value.aliases.Values :: alias !in w.config.streams
    ensures w.config == base && ClaimOf(w.link.value, w.adopted) == {}
    ensures Fits(w.(link := None, pending := None, doubt := Settled), base, key)
  {
    hide OnlyReadBy, JobOk, Importable;
    var row := Seen(w.link.value, w.doubt);
    if row.phase in {Applying, Active} {
      assert row.aliases["record"] in row.aliases.Values && row.aliases["record"] in row.managedStreams;
    }
  }

  lemma CoversIsWithin(row: Row, base: Config, key: string, config: Config, doubt: Doubt)
    requires Covers(row, base, key, config, doubt)
    ensures var seen := Seen(row, doubt);
            Recorded(seen, base, key) && (Admits(seen, base, key, config, Settled) || config == base)
  {
    hide OnlyReadBy, Recorded;
  }

  /** What `restore` relies on at its start. */
  lemma GuardsHold(row: Row, base: Config, key: string, config: Config, doubt: Doubt)
    requires Importable(base, key) && Covers(row, base, key, config, doubt)
    ensures EntryOk(row, At(config.cameras, key))
    ensures SyncedEnough(row, doubt) ==> GuardsPass(row, key, config)
  {
    CoversIsWithin(row, base, key, config, doubt);
    AdmitsEntry(Seen(row, doubt), base, key, config);
    if SyncedEnough(row, doubt) {
      if doubt.Unsynced? {
        UnsyncedGuards(row, base, key, config, doubt);
      } else {
        GuardsAccept(row, base, key, config);
      }
    }
  }

  lemma UnsyncedGuards(row: Row, base: Config, key: string, config: Config, doubt: Doubt)
    requires Importable(base, key) && Covers(row, base, key, config, doubt) && doubt.Unsynced? && SyncedEnough(row, doubt)
    ensures GuardsPass(row, key, config)
  {
    var seen := Seen(row, doubt);
    CoversIsWithin(row, base, key, config, doubt);
    AdmitsEntry(seen, base, key, config);
    ManagedOwnsReleased(row, base, key);
    hide OnlyReadBy, Variant, StreamsOk, EntryOk, ImportAlias, HandoffRecorded;
    assert config.streams == base.streams + doubt.streams && doubt.streams.Keys == row.managedStreams.Keys;
    forall alias | alias in row.releasedStreams ensures At(row.Originals(), alias) == row.releasedStreams[alias] {
      ReleasedIsOriginal(row, base, key);
    }
  }

  lemma ReleasedIsOriginal(row: Row, base: Config, key: string)
    requires Recorded(row, base, key)
    ensures forall alias | alias in row.releasedStreams :: At(row.Originals(), alias) == row.releasedStreams[alias]
  {
    hide Variant, StreamsOk, ImportAlias;
  }

  lemma ManagedOwnsReleased(row: Row, base: Config, key: string)
    requires Recorded(row, base, key) && row.phase == Active
    ensures row.releasedStreams.Keys <= row.managedStreams.Keys
  {
    hide Variant, StreamsOk, ImportAlias, From;
  }

  /** And when it writes, with the camera of the handoff named. */
  lemma RestoreCovers(named: Row, row: Row, base: Config, key: string, config: Config, doubt: Doubt)
    requires Importable(base, key) && Covers(row, base, key, config, doubt)
    requires named == row.(camera := named.camera) && (row.camera.Some? ==> named == row)
    ensures named.original.Obj?
    ensures Put(config, key, CameraWrite(named.handoff, named.original, At(config.cameras, key)),
                RestoreStreams(named, config.streams)) == base
    ensures !PutRejected(config, key, CameraWrite(named.handoff, named.original, At(config.cameras, key)),
                         RestoreStreams(named, config.streams))
    ensures Covers(row, base, key, base, if row.phase == Active then Undone else doubt)
    ensures Covers(named.(phase := Restored), base, key, base, if row.phase == Active then Undone else doubt)
  {
    CoversIsWithin(row, base, key, config, doubt);
    NamedIsRecorded(named, row, base, key, config, doubt);
    hide OnlyReadBy, Recorded, RestoreStreams, Row.Originals, Put, PutRejected, CameraWrite, Importable;
    RestoreIsExact(Seen(named, doubt), base, key, config);
    CoversOriginal(row, base, key, config, doubt);
    CoversRestored(row, base, key, if row.phase == Active then Undone else doubt, named.camera);
  }

  lemma NamedIsRecorded(named: Row, row: Row, base: Config, key: string, config: Config, doubt: Doubt)
    requires Covers(row, base, key, config, doubt)
    requires named == row.(camera := named.camera) && (row.camera.Some? ==> named == row)
    ensures var seen := Seen(named, doubt);
            && Recorded(seen, base, key) && (Admits(seen, base, key, config, Settled) || config == base)
            && seen.original == named.original && seen.handoff == named.handoff
            && RestoreStreams(seen, config.streams) == RestoreStreams(named, config.streams)
  {
    CoversIsWithin(row, base, key, config, doubt);
    if doubt.Unsynced? {
      UnsyncedHasCamera(row, base, key, config, doubt);
    } else {
      NamedRecord(named, row, base, key);
      NamedAdmits(named, row, base, key, config);
    }
    hide OnlyReadBy, Recorded, Covers, Admits;
  }

  lemma UnsyncedHasCamera(row: Row, base: Config, key: string, config: Config, doubt: Doubt)
    requires Covers(row, base, key, config, doubt) && doubt.Unsynced?
    ensures row.camera.Some?
  {
    hide OnlyReadBy, From, LeftoversOk, HandoffRecorded, Variant;
  }

  lemma NamedAdmits(named: Row, row: Row, base: Config, key: string, config: Config)
    requires named == row.(camera := named.camera)
    ensures Admits(row, base, key, config, Settled) == Admits(named, base, key, config, Settled)
  {
  }

  lemma NamedRecord(named: Row, row: Row, base: Config, key: string)
    requires Recorded(row, base, key) && named == row.(camera := named.camera) && (row.camera.Some? ==> named == row)
    ensures Recorded(named, base, key)
  {
    hide From;
    if row.camera.None? {
      assert row.phase !in {Applying, Active};
      assert named.Originals() == row.Originals();
    }
  }
}
