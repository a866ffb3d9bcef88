/** The forward steps of a takeover, and what each of them keeps. */
module TakeoverSteps {
  import opened Common
  import opened FrigateConfig
  import opened StreamGraph
  import opened ManagedConfig
  import opened TakeoverState

  /** The original configuration holds no import alias of a camera that is not linked elsewhere. */
  ghost predicate AliasesFree(base: Config, linkedElsewhere: set<string>) {
    forall camera, role :: camera !in linkedElsewhere ==> ImportAlias(camera, role) !in base.streams
  }

  // ----- _check_original

  function UsesPaused(row: Row): bool {
    row.handoff && row.phase in {Paused, Applying}
  }

  /** No other entry shows a live alias of the row, or is named like one. */
  predicate LiveUnshared(row: Row, key: string, cameras: map<string, Json>) {
    forall name | name in cameras && name != key ::
      && LiveNames(cameras[name]).Ok?
      && LiveNames(cameras[name]).value !! row.plan.live.Keys
      && name !in row.plan.live
  }

  predicate OriginalSeen(row: Row, key: string, config: Config) {
    && At(config.cameras, key) == (if UsesPaused(row) then row.pausedCamera else row.original)
    && LiveUnshared(row, key, config.cameras)
    && (forall alias | alias in row.originalStreams ::
          At(config.streams, alias)
          == if UsesPaused(row) && alias in row.releasedStreams then At(row.pausedStreams, alias) else row.originalStreams[alias])
    && (UsesPaused(row) ==> forall alias | alias in row.pausedStreams :: At(config.streams, alias) == row.pausedStreams[alias])
  }

  /** A row that a new attempt starts from. */
  function Renewed(row: Row): Row {
    row.(handoff := false, pausedCamera := Null, releasedStreams := map[], pausedStreams := map[], phase := Preparing)
  }

  // ----- the row in memory between steps

  /** Checked and not yet written (`Preparing`), or released and paused, with the journal saying so. */
  ghost predicate Ready(w: World, row: Row, base: Config, key: string, candidate: string) {
    && JobOk(row, base) && Snapshot(row, base, key) && HandoffRecorded(row, base, key)
    && (row.camera.None? ==> candidate !in w.adopted)
    && row.candidate == Some(candidate)
    && if row.handoff then ReadyPaused(w, row, base, key, candidate) else w.link.None? && row.phase == Preparing
  }

  ghost predicate ReadyPaused(w: World, row: Row, base: Config, key: string, candidate: string) {
    && w.link.Some? && w.link.value.phase == Paused && row.phase == Paused
    && w.config == PausedConfig(row, base, key)
    && OnlyReadBy(key, row.releasedStreams.Keys, base.cameras, base.streams)
    && row.releasedStreams.Keys == Touched(row, base)
    && (w.pending.Some? ==> row.created && row.camera == w.pending)
    && (row.camera.None? ==> row.created && w.link.value.handoff && w.link.value.created
                             && w.link.value.camera.None? && w.link.value.candidate == Some(candidate))
  }

  lemma CheckedIsReady(w: World, row: Row, base: Config, key: string, candidate: string)
    requires Fits(w, base, key) && w.link.None? && JobOk(row, base) && row == Renewed(row)
    requires OriginalSeen(row, key, w.config)
    requires (row.camera.None? ==> candidate !in w.adopted) && row.candidate == Some(candidate)
    ensures Ready(w, row, base, key, candidate)
  {
    hide OnlyReadBy, LiveUnshared, LeftoversOk, Touched;
  }

  lemma JobKeepsReady(w: World, row: Row, base: Config, key: string, candidate: string, job: nat)
    requires Fits(w, base, key) && JobOk(row, base)
    ensures Fits(w.(jobs := w.jobs[job := row]), base, key)
    ensures Ready(w, row, base, key, candidate) ==> Ready(w.(jobs := w.jobs[job := row]), row, base, key, candidate)
  {
    hide JobOk, Covers, OnlyReadBy, Importable, Snapshot, HandoffRecorded, ClaimOf;
  }

  // ----- _release_reader

  /** The row as the release journals it. */
  function Released(row: Row, streams: map<string, Json>, aliases: set<string>): Row
    requires row.original.Obj? && aliases <= streams.Keys
  {
    var released := map alias | alias in aliases :: streams[alias];
    row.(handoff := true, releaseRequired := true, phase := Releasing, pausedCamera := Pause(row.original),
         releasedStreams := released, pausedStreams := Parked(aliases), aliases := map[])
  }

  lemma ReadAliasesExist(camera: Json, streams: map<string, Json>)
    requires MediaAliases(camera, streams).Ok?
    ensures MediaAliases(camera, streams).value <= streams.Keys
  {
    forall alias | alias in MediaAliases(camera, streams).value ensures alias in streams {
      var value :| value in Roots(camera, streams).value && Visit(value, streams, []).Ok?
                   && alias in Visit(value, streams, []).value;
      var path, end := VisitedIsWalked(value, streams, [], alias);
    }
  }

  lemma ReleasedRecords(row: Row, base: Config, key: string)
    requires JobOk(row, base) && Snapshot(row, base, key)
    requires row.camera.None? ==> row.created
    requires MediaAliases(row.original, base.streams).Ok?
    ensures row.original.Obj? && Touched(row, base) <= base.streams.Keys
    ensures var journaled := Released(row, base.streams, Touched(row, base));
            && JobOk(journaled, base) && Snapshot(journaled, base, key) && HandoffRecorded(journaled, base, key)
            && Recorded(journaled, base, key) && Recorded(journaled.(phase := Paused), base, key)
  {
    hide OnlyReadBy, MediaAliases, Recorded;
    ReadAliasesExist(row.original, base.streams);
    var journaled := Released(row, base.streams, Touched(row, base));
    assert journaled.Originals().Keys == Touched(row, base);
    assert journaled.aliases.Values == {};
    assert From(journaled.releasedStreams, base.streams);
    ReleasedIsRecorded(journaled, base, key);
  }

  lemma ReleasedIsRecorded(row: Row, base: Config, key: string)
    requires Snapshot(row, base, key) && HandoffRecorded(row, base, key) && LeftoversOk(row, base, row.Originals().Keys)
    requires row.phase == Releasing && row.handoff
    ensures Recorded(row, base, key) && Recorded(row.(phase := Paused), base, key)
  {
    hide From;
    assert row.(phase := Paused).Originals() == row.Originals();
  }

  /** A journal row, and a configuration that it admits. */
  lemma Journaled(w: World, base: Config, key: string, row: Row, config: Config)
    requires Fits(w, base, key) && (w.pending.Some? ==> w.pending.value in ClaimOf(row, w.adopted))
    requires Covers(row, base, key, config, w.doubt)
    ensures Fits(w.(link := Some(row), config := config), base, key)
  {
    hide JobOk, Covers, Importable, ClaimOf;
  }

  /** Releasing journals the original first, then pauses the entry; both leave the journal in cover. */
  lemma ReleaseSteps(w: World, row: Row, base: Config, key: string)
    requires Fits(w, base, key) && w.link.None? && JobOk(row, base) && Snapshot(row, base, key)
    requires row.camera.None? ==> row.created
    requires MediaAliases(row.original, base.streams).Ok?
    requires OnlyReadBy(key, Touched(row, base), base.cameras, base.streams)
    ensures row.original.Obj? && w.config == base && Touched(row, base) <= base.streams.Keys
    ensures var journaled := Released(row, base.streams, Touched(row, base));
            && Fits(w.(link := Some(journaled)), base, key)
            && Put(base, key, journaled.pausedCamera, journaled.pausedStreams) == PausedConfig(journaled, base, key)
            && !PutRejected(base, key, journaled.pausedCamera, journaled.pausedStreams)
            && Fits(w.(link := Some(journaled), config := PausedConfig(journaled, base, key)), base, key)
  {
    hide OnlyReadBy, MediaAliases, Put, PutRejected, Recorded, JobOk, Importable, Covers, Snapshot, HandoffRecorded;
    assert w.config == base && w.pending.None?;
    ReleasedRecords(row, base, key);
    var journaled := Released(row, base.streams, Touched(row, base));
    assert Covers(journaled, base, key, base, w.doubt)
        && Covers(journaled, base, key, PausedConfig(journaled, base, key), w.doubt) by {
      ReleasedCovers(row, base, key, w.doubt);
    }
    Journaled(w, base, key, journaled, base);
    Journaled(w, base, key, journaled, PausedConfig(journaled, base, key));
    FitsImportable(w, base, key);
    PauseIsExact(journaled, base, key);
  }

  lemma FitsImportable(w: World, base: Config, key: string)
    requires Fits(w, base, key)
    ensures Importable(base, key)
  {
    hide JobOk, Covers, Importable, ClaimOf;
  }

  lemma ReleasedCovers(row: Row, base: Config, key: string, doubt: Doubt)
    requires doubt.Settled?
    requires JobOk(row, base) && Snapshot(row, base, key)
    requires row.camera.None? ==> row.created
    requires MediaAliases(row.original, base.streams).Ok?
    requires OnlyReadBy(key, Touched(row, base), base.cameras, base.streams)
    ensures row.original.Obj? && Touched(row, base) <= base.streams.Keys
    ensures var journaled := Released(row, base.streams, Touched(row, base));
            && Covers(journaled, base, key, base, doubt)
            && Covers(journaled, base, key, PausedConfig(journaled, base, key), doubt)
            && Covers(journaled.(phase := Paused), base, key, PausedConfig(journaled, base, key), doubt)
  {
    hide OnlyReadBy, MediaAliases, JobOk, Snapshot, LeftoversOk, HandoffRecorded, Recorded;
    ReleasedRecords(row, base, key);
    assert Released(row, base.streams, Touched(row, base)).releasedStreams.Keys == Touched(row, base);
  }

  /** Once the old reader is gone, the paused row is journaled and the attempt can go on. */
  lemma PausedIsReady(w: World, row: Row, base: Config, key: string, candidate: string)
    requires Fits(w, base, key) && w.link.None? && Ready(w, row, base, key, candidate) && !row.handoff
    requires row.camera.None? ==> row.created
    requires MediaAliases(row.original, base.streams).Ok?
    requires OnlyReadBy(key, Touched(row, base), base.cameras, base.streams)
    ensures row.original.Obj? && Touched(row, base) <= base.streams.Keys
    ensures var paused := Released(row, base.streams, Touched(row, base)).(phase := Paused);
            var next := w.(link := Some(paused), config := PausedConfig(paused, base, key));
            Fits(next, base, key) && Ready(next, paused, base, key, candidate)
  {
    hide OnlyReadBy, MediaAliases, JobOk, Importable, Covers, Snapshot, HandoffRecorded;
    ReleasedRecords(row, base, key);
    var paused := Released(row, base.streams, Touched(row, base)).(phase := Paused);
    ReleasedCovers(row, base, key, w.doubt);
    Journaled(w, base, key, paused, PausedConfig(paused, base, key));
    assert paused.releasedStreams.Keys == Touched(row, base) == Touched(paused, base);
    PausedRecords(row, base, key);
  }

  lemma PausedRecords(row: Row, base: Config, key: string)
    requires JobOk(row, base) && Snapshot(row, base, key)
    requires row.camera.None? ==> row.created
    requires MediaAliases(row.original, base.streams).Ok?
    ensures row.original.Obj? && Touched(row, base) <= base.streams.Keys
    ensures var paused := Released(row, base.streams, Touched(row, base)).(phase := Paused);
            JobOk(paused, base) && Snapshot(paused, base, key) && HandoffRecorded(paused, base, key)
  {
    hide MediaAliases, From, Recorded;
    ReleasedRecords(row, base, key);
  }

  // ----- adopting and naming the camera

  /** The row with the repository camera that takes the entry over. */
  function Named(row: Row, camera: string, mapped: map<SourceId, string>): Row {
    row.(camera := Some(camera), mapped := mapped)
  }

  lemma NamingKeepsHandoff(row: Row, base: Config, key: string, camera: string, mapped: map<SourceId, string>)
    requires HandoffRecorded(row, base, key)
    ensures HandoffRecorded(Named(row, camera, mapped), base, key)
  {
  }

  /** Adopting while the handoff is journaled: the journal already answers for the new camera, and still
      does once it names it. */
  lemma AdoptSteps(w: World, row: Row, base: Config, key: string, candidate: string, camera: string, mapped: map<SourceId, string>)
    requires Fits(w, base, key) && Ready(w, row, base, key, candidate)
    requires row.camera.None? && row.created
    ensures var next := w.(adopted := w.adopted[candidate := camera], pending := if row.handoff then Some(camera) else None);
            && Fits(next, base, key)
            && Ready(next, Named(row, camera, mapped), base, key, candidate)
            && JobOk(Named(row, camera, mapped), base)
  {
    hide OnlyReadBy, MediaAliases, Importable, Covers, HandoffRecorded;
    assert HandoffRecorded(Named(row, camera, mapped), base, key) by {
      NamingKeepsHandoff(row, base, key, camera, mapped);
    }
    if row.handoff {
      assert camera in ClaimOf(w.link.value, w.adopted[candidate := camera]);
    }
  }

  /** A ready row that names its camera can be journaled again. */
  lemma SaveReady(w: World, row: Row, base: Config, key: string, candidate: string)
    requires Fits(w, base, key) && Ready(w, row, base, key, candidate) && row.handoff && row.camera.Some?
    ensures Fits(w.(link := Some(row)), base, key)
    ensures Ready(w.(link := Some(row)), row, base, key, candidate)
  {
    hide OnlyReadBy, MediaAliases, Importable, Snapshot, HandoffRecorded;
    ReadyIsRecorded(w, row, base, key, candidate);
    assert w.link.Some? && w.config == PausedConfig(row, base, key);
    assert Covers(row, base, key, w.config, w.doubt) by {
      hide Recorded;
    }
    assert w.pending.Some? ==> w.pending.value in ClaimOf(row, w.adopted);
    Journaled(w, base, key, row, w.config);
    assert w.(link := Some(row), config := w.config) == w.(link := Some(row));
  }

  lemma ReadyIsRecorded(w: World, row: Row, base: Config, key: string, candidate: string)
    requires Ready(w, row, base, key, candidate) && row.handoff
    ensures Recorded(row, base, key)
  {
    hide OnlyReadBy, MediaAliases, ManagedRecorded;
    assert row.originalStreams.Keys <= Touched(row, base);
    assert row.Originals().Keys == Touched(row, base);
  }

  // ----- applying

  function AliasesOf(camera: string): map<string, string> {
    map["record" := ImportAlias(camera, "record"), "detect" := ImportAlias(camera, "detect")]
  }

  lemma AliasesDiffer(camera: string)
    ensures ImportAlias(camera, "record") != ImportAlias(camera, "detect")
    ensures AliasesOf(camera).Values == {ImportAlias(camera, "record"), ImportAlias(camera, "detect")}
  {
    var a, b := ImportAlias(camera, "record"), ImportAlias(camera, "detect");
    assert |a| == |b| && a[|a| - 1] == 'd' && b[|b| - 1] == 't';
    var m := AliasesOf(camera);
    RolesDiffer();
    assert m["record"] == a && m["detect"] == b;
    assert a in m.Values && b in m.Values;
  }

  /** The row as it is journaled before the managed configuration is written. */
  function ApplyingRow(row: Row, managed: Json, streams: map<string, Json>): Row
    requires row.camera.Some?
  {
    row.(aliases := AliasesOf(row.camera.value), phase := Applying, managedCamera := managed, managedStreams := streams)
  }

  lemma ManagedIsVariant(original: Json, t: Migration, managed: Json)
    requires Restorable(original) && t.original == original && ManagedEntry(t, managed)
    ensures Variant(original, managed)
    ensures "enabled" in managed.fields <==> "enabled" in original.fields
    ensures At(managed.fields, "enabled") == At(original.fields, "enabled")
  {
    var inputs := SplitAll(Inputs(original).value, t.aliases).value;
    var ffmpeg := original.fields["ffmpeg"].fields;
    assert managed == WithInputs(original, inputs);
    assert managed.fields["ffmpeg"].fields == ffmpeg["inputs" := List(inputs)];
    assert managed.fields - {"enabled", "ffmpeg"} == original.fields - {"enabled", "ffmpeg"};
    assert managed.fields["ffmpeg"].fields - {"inputs"} == ffmpeg - {"inputs"};
    assert Clean(managed.fields["ffmpeg"]) by {
      assert Clean(original.fields["ffmpeg"]);
    }
  }

  lemma ManagedStreamsAreValues(view: CameraView, t: Migration, relay: Relay, streams: map<string, Json>)
    requires ManagedStreams(view, t, relay, streams)
    ensures StreamsOk(streams)
  {
    hide ResolveSource, StreamFor, RoleStreams, RelayUrl;
    forall alias | alias in streams ensures StreamValue(streams[alias]) {
      if alias in t.plan.live {
        assert ManagedLive(view, t, relay, alias, streams[alias]);
      } else if alias == t.aliases["detect"] || alias == t.aliases["record"] {
      } else {
        assert ManagedReleased(view, t, relay, alias, streams[alias]);
      }
    }
  }

  lemma ManagedKeys(row: Row, base: Config, key: string, streams: map<string, Json>, view: CameraView, relay: Relay)
    requires Snapshot(row, base, key) && HandoffRecorded(row, base, key) && row.camera.Some?
    requires ManagedStreams(view, row.AsMigration().(aliases := AliasesOf(row.camera.value)), relay, streams)
    ensures streams.Keys == AliasesOf(row.camera.value).Values + row.Originals().Keys
  {
    hide ManagedLive, ManagedReleased, ManagedRole, From, HandoffRecorded;
    AliasesDiffer(row.camera.value);
    OriginalsKeys(row, base, key);
  }

  lemma AppliedRecords(row: Row, base: Config, key: string, managed: Json, streams: map<string, Json>)
    requires Snapshot(row, base, key) && HandoffRecorded(row, base, key) && row.camera.Some?
    requires Variant(row.original, managed) && StreamsOk(streams)
    requires "enabled" in managed.fields <==> "enabled" in row.original.fields
    requires At(managed.fields, "enabled") == At(row.original.fields, "enabled")
    requires streams.Keys == AliasesOf(row.camera.value).Values + row.Originals().Keys
    requires AliasesOf(row.camera.value).Values !! base.streams.Keys
    ensures Recorded(ApplyingRow(row, managed, streams), base, key)
  {
    hide OnlyReadBy, Variant, From, StreamsOk, HandoffRecorded, ImportAlias, Snapshot, At;
    AppliedKeepsOriginal(row, base, key, managed, streams);
  }

  lemma AppliedKeepsOriginal(row: Row, base: Config, key: string, managed: Json, streams: map<string, Json>)
    requires row.camera.Some? && Snapshot(row, base, key) && HandoffRecorded(row, base, key)
    ensures Snapshot(ApplyingRow(row, managed, streams), base, key) && HandoffRecorded(ApplyingRow(row, managed, streams), base, key)
  {
  }

  lemma OriginalsKeys(row: Row, base: Config, key: string)
    requires Snapshot(row, base, key) && HandoffRecorded(row, base, key)
    ensures row.Originals().Keys == row.plan.live.Keys + row.releasedStreams.Keys
  {
  }

  lemma FreshAliases(base: Config, linkedElsewhere: set<string>, camera: string)
    requires AliasesFree(base, linkedElsewhere) && camera !in linkedElsewhere
    ensures AliasesOf(camera).Values !! base.streams.Keys
  {
    hide ImportAlias;
    AliasesDiffer(camera);
  }

  lemma ReadyTouches(w: World, row: Row, base: Config, key: string, candidate: string)
    requires Ready(w, row, base, key, candidate)
    ensures row.Originals().Keys <= Touched(row, base)
  {
    hide OnlyReadBy, MediaAliases, JobOk, From;
  }

  lemma ApplyingJobs(row: Row, base: Config, key: string, managed: Json, streams: map<string, Json>)
    requires JobOk(row, base) && row.camera.Some? && row.Originals().Keys <= Touched(row, base)
    requires streams.Keys == AliasesOf(row.camera.value).Values + row.Originals().Keys
    requires AliasesOf(row.camera.value).Values !! base.streams.Keys
    ensures JobOk(ApplyingRow(row, managed, streams), base)
    ensures JobOk(ApplyingRow(row, managed, streams).(phase := Active), base)
  {
    hide MediaAliases, ImportAlias;
    assert Touched(ApplyingRow(row, managed, streams), base) == Touched(row, base);
  }

  lemma ApplyingRecords(w: World, row: Row, base: Config, key: string, candidate: string, managed: Json,
                        streams: map<string, Json>, view: CameraView, relay: Relay, linkedElsewhere: set<string>)
    requires Fits(w, base, key) && Ready(w, row, base, key, candidate)
    requires row.camera.Some? && row.camera.value !in linkedElsewhere && AliasesFree(base, linkedElsewhere)
    requires var t := row.AsMigration().(aliases := AliasesOf(row.camera.value));
             ManagedEntry(t, managed) && ManagedStreams(view, t, relay, streams)
    ensures Recorded(ApplyingRow(row, managed, streams), base, key)
    ensures Recorded(ApplyingRow(row, managed, streams).(phase := Active), base, key)
    ensures JobOk(ApplyingRow(row, managed, streams), base) && JobOk(ApplyingRow(row, managed, streams).(phase := Active), base)
  {
    var t := row.AsMigration().(aliases := AliasesOf(row.camera.value));
    FitsImportable(w, base, key);
    ReadyTouches(w, row, base, key, candidate);
    hide OnlyReadBy, MediaAliases, ManagedEntry, ManagedStreams, Variant, StreamsOk, Restorable, JobOk, Recorded, Touched,
         Covers, AliasesFree, AliasesOf, HandoffRecorded, At, From, Row.Originals;
    ManagedIsVariant(row.original, t, managed);
    ManagedStreamsAreValues(view, t, relay, streams);
    ManagedKeys(row, base, key, streams, view, relay);
    FreshAliases(base, linkedElsewhere, row.camera.value);
    AppliedRecords(row, base, key, managed, streams);
    ApplyingJobs(row, base, key, managed, streams);
    ActiveRecords(ApplyingRow(row, managed, streams), base, key);
  }

  lemma ActiveRecords(row: Row, base: Config, key: string)
    requires Recorded(row, base, key) && row.phase == Applying
    ensures Recorded(row.(phase := Active), base, key)
  {
    hide OnlyReadBy, Variant, From, StreamsOk, ImportAlias;
  }

  lemma ApplyingCovers(w: World, row: Row, base: Config, key: string, candidate: string, managed: Json, streams: map<string, Json>)
    requires Fits(w, base, key) && Ready(w, row, base, key, candidate) && row.camera.Some?
    requires Recorded(ApplyingRow(row, managed, streams), base, key)
    requires Recorded(ApplyingRow(row, managed, streams).(phase := Active), base, key)
    ensures var applying := ApplyingRow(row, managed, streams);
            var after := ManagedConfigOf(applying, base, key);
            && w.config == (if row.handoff then PausedConfig(applying, base, key) else base)
            && Covers(applying, base, key, w.config, w.doubt)
            && Covers(applying, base, key, after, w.doubt)
            && Covers(applying.(phase := Active), base, key, after, w.doubt)
            && (w.pending.Some? ==> w.pending.value in ClaimOf(applying, w.adopted))
            && ClaimOf(applying.(phase := Active), w.adopted) == ClaimOf(applying, w.adopted)
  {
    hide OnlyReadBy, MediaAliases, Importable, JobOk, Recorded, Snapshot, HandoffRecorded, AliasesOf;
  }

  /** The row that is journaled before the managed configuration is written covers what is saved now, what
      will be saved, and the finished takeover. */
  lemma ApplySteps(w: World, row: Row, base: Config, key: string, candidate: string, managed: Json,
                   streams: map<string, Json>, view: CameraView, relay: Relay, linkedElsewhere: set<string>)
    requires Fits(w, base, key) && Ready(w, row, base, key, candidate)
    requires row.camera.Some? && row.camera.value !in linkedElsewhere && AliasesFree(base, linkedElsewhere)
    requires var t := row.AsMigration().(aliases := AliasesOf(row.camera.value));
             ManagedEntry(t, managed) && ManagedStreams(view, t, relay, streams)
    ensures managed.Obj?
    ensures var applying := ApplyingRow(row, managed, streams);
            var after := ManagedConfigOf(applying, base, key);
            var written := CameraWrite(row.handoff, managed, Expected(row));
            && JobOk(applying, base) && JobOk(applying.(phase := Active), base)
            && Fits(w.(link := Some(applying)), base, key)
            && Put(w.config, key, written, streams) == after && !PutRejected(w.config, key, written, streams)
            && Fits(w.(link := Some(applying), config := after), base, key)
            && Fits(w.(link := Some(applying.(phase := Active)), config := after), base, key)
  {
    var applying := ApplyingRow(row, managed, streams);
    var after := ManagedConfigOf(applying, base, key);
    ApplyingRecords(w, row, base, key, candidate, managed, streams, view, relay, linkedElsewhere);
    ApplyingCovers(w, row, base, key, candidate, managed, streams);
    FitsImportable(w, base, key);
    hide OnlyReadBy, MediaAliases, Importable, JobOk, Recorded, Ready, Fits, Covers, ManagedEntry, ManagedStreams, ClaimOf,
         Put, PutRejected, CameraWrite, PausedConfig, ManagedConfigOf;
    ApplyIsExact(applying, base, key, w.config);
    Journaled(w, base, key, applying, w.config);
    assert w.(link := Some(applying), config := w.config) == w.(link := Some(applying));
    Journaled(w, base, key, applying, after);
    Journaled(w, base, key, applying.(phase := Active), after);
  }

  // ----- sync_imported

  /** The guard under which `sync_imported` writes streams. */
  predicate SyncAllowed(row: Row, configured: map<string, Json>, desired: map<string, Json>) {
    forall alias | alias in row.managedStreams ::
      At(configured, alias) == row.managedStreams[alias] || At(configured, alias) == At(desired, alias)
  }

  /** What an entry says of its inputs; nothing at all is `Null`. */
  function RawInputs(entry: Json): Json {
    if entry.Obj? && At(entry.fields, "ffmpeg").Obj? then At(At(entry.fields, "ffmpeg").fields, "inputs") else Null
  }

  /** The row once new streams are journaled. */
  function Synced(row: Row, desired: map<string, Json>): Row {
    row.(managedStreams := desired)
  }

  /** What one pass over an active takeover leaves: the entry and everything but its managed streams as they were,
      streams that somebody else changed included; completed, the journal has exactly what is saved. */
  predicate Passed(before: World, after: World, base: Config, key: string, desired: map<string, Json>, done: bool) {
    && before.link.Some?
    && var row := Synced(before.link.value, desired);
    && (after == before || after.config == Config(before.config.cameras, before.config.streams + desired))
    && after.link in {before.link, Some(row)} && (after.doubt == Undone ==> before.doubt == Undone)
    && (done ==> after.doubt == Settled && after.link == Some(row) && after.config == ManagedConfigOf(row, base, key))
    && (!SyncAllowed(before.link.value, before.config.streams, desired) ==> !done && after == before)
  }

  lemma SyncedIsRecorded(row: Row, base: Config, key: string, view: CameraView, relay: Relay, desired: map<string, Json>)
    requires Recorded(row, base, key) && row.phase == Active
    requires ManagedStreams(view, row.AsMigration(), relay, desired)
    ensures Recorded(Synced(row, desired), base, key)
    ensures desired.Keys == row.managedStreams.Keys && StreamsOk(desired)
  {
    var t := row.AsMigration();
    ManagedStreamsAreValues(view, t, relay, desired);
    assert t == row.AsMigration().(aliases := AliasesOf(row.camera.value));
    assert Snapshot(row, base, key) && HandoffRecorded(row, base, key);
    ManagedKeys(row, base, key, desired, view, relay);
    hide ManagedStreams, Variant, From, HandoffRecorded, ImportAlias;
  }

  /** Where a restore has put the original back, the role aliases are missing and no streams are written. */
  lemma UndoneIsNotSynced(row: Row, base: Config, key: string, desired: map<string, Json>)
    requires Recorded(row, base, key) && row.phase == Active
    requires desired.Keys == row.managedStreams.Keys && StreamsOk(desired)
    ensures !SyncAllowed(row, base.streams, desired)
  {
    var alias := row.aliases["record"];
    assert alias in row.aliases.Values && alias in row.managedStreams && alias !in base.streams;
  }

  lemma SyncCovers(row: Row, base: Config, key: string, config: Config, doubt: Doubt, view: CameraView, relay: Relay,
                   desired: map<string, Json>)
    requires Covers(row, base, key, config, doubt) && row.phase == Active
    requires ManagedStreams(view, row.AsMigration(), relay, desired) && SyncAllowed(row, config.streams, desired)
    ensures desired.Keys == row.managedStreams.Keys
    ensures var after := Config(config.cameras, config.streams + desired);
            && after == ManagedConfigOf(Synced(row, desired), base, key)
            && Merge(Obj(config.streams), Obj(desired)) == Obj(after.streams) && !Rejects(Obj(config.streams), Obj(desired))
            && Covers(row, base, key, after, Unsynced(desired))
            && Covers(Synced(row, desired), base, key, after, Settled)
    ensures desired == row.managedStreams ==> config == ManagedConfigOf(row, base, key)
  {
    hide OnlyReadBy, Recorded, ManagedStreams, StreamsOk, Merge, Rejects, SyncAllowed;
    SyncedIsRecorded(row, base, key, view, relay, desired);
    if doubt.Undone? {
      UndoneIsNotSynced(row, base, key, desired);
    }
    PutStreamsOnly(config.streams, desired);
    ActiveIsSeen(row, base, key, config, doubt);
    OverlayReplaced(base.streams, Seen(row, doubt).managedStreams, desired);
    if desired == row.managedStreams {
      SameStreams(row, base.streams, Seen(row, doubt).managedStreams);
    }
  }

  /** Where nothing else is wanted than is journaled, nothing else is saved. */
  lemma SameStreams(row: Row, base: map<string, Json>, seen: map<string, Json>)
    requires seen.Keys == row.managedStreams.Keys && SyncAllowed(row, base + seen, row.managedStreams)
    ensures seen == row.managedStreams
  {
    forall alias | alias in seen ensures seen[alias] == row.managedStreams[alias] {
      assert At(base + seen, alias) == seen[alias];
    }
  }

  lemma ActiveIsSeen(row: Row, base: Config, key: string, config: Config, doubt: Doubt)
    requires Covers(row, base, key, config, doubt) && row.phase == Active && !doubt.Undone?
    ensures Seen(row, doubt).managedStreams.Keys == row.managedStreams.Keys
    ensures config.cameras == base.cameras[key := row.managedCamera]
    ensures config.streams == base.streams + Seen(row, doubt).managedStreams
  {
    hide Variant, From, HandoffRecorded, ImportAlias, OnlyReadBy;
  }

  /** A pass that is allowed leaves the streams it wants, in an entry that stays the managed one. Until it is
      journaled the saved streams are in doubt; once it is, the journal covers them. */
  lemma SyncSteps(w: World, base: Config, key: string, view: CameraView, relay: Relay, desired: map<string, Json>)
    requires Fits(w, base, key) && w.link.Some? && w.link.value.phase == Active
    requires ManagedStreams(view, w.link.value.AsMigration(), relay, desired)
    requires SyncAllowed(w.link.value, w.config.streams, desired)
    ensures var after, row := Config(w.config.cameras, w.config.streams + desired), Synced(w.link.value, desired);
            && desired.Keys == w.link.value.managedStreams.Keys
            && Merge(Obj(w.config.streams), Obj(desired)) == Obj(after.streams) && !Rejects(Obj(w.config.streams), Obj(desired))
            && after == ManagedConfigOf(row, base, key)
            && Fits(w.(config := after, doubt := Unsynced(desired)), base, key)
            && Fits(w.(config := after, doubt := Settled, link := Some(row)), base, key)
    ensures desired == w.link.value.managedStreams ==>
              w.config == ManagedConfigOf(w.link.value, base, key) && Fits(w.(doubt := Settled), base, key)
  {
    hide Importable, JobOk, Covers, ManagedStreams, SyncAllowed, Merge, Rejects;
    var row := w.link.value;
    SyncCovers(row, base, key, w.config, w.doubt, view, relay, desired);
    if desired == row.managedStreams {
      assert Synced(row, desired) == row;
    }
  }
}
