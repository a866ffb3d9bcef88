/** Where the promises of the takeover stop: exact conditions for the cases that the journal does not cover. */
module TakeoverLimits {
  import opened Common
  import opened FrigateConfig
  import opened StreamGraph
  import opened ManagedConfig
  import opened TakeoverState
  import opened TakeoverSteps

  /** Pausing an entry saves what the journal recorded exactly when no mapping in it holds an empty string;
      otherwise the merge drops a key and every later conflict guard refuses the entry. */
  lemma PauseIsSavedIffClean(original: Json)
    requires original.Obj?
    ensures Merge(original, Pause(original)) == Pause(original) <==> Clean(Pause(original))
  {
    var paused := Pause(original);
    var merged := Merge(original, paused).fields;
    forall k | k in original.fields && k != "enabled" && original.fields[k].Obj?
      ensures Merge(original.fields[k], original.fields[k]) == original.fields[k] <==> Clean(original.fields[k])
    {
      RewriteIsHarmlessIffClean(original.fields[k]);
    }
    if Clean(paused) {
      forall k | k in original.fields && k != "enabled" && original.fields[k].Obj?
        ensures Covered(original.fields[k], original.fields[k])
      {
        CoversItself(original.fields[k]);
      }
      MergeLeavesUpdateIffCovered(original, paused);
    }
    if Merge(original, paused) == paused {
      forall k | k in paused.fields ensures paused.fields[k] != DELETE && Clean(paused.fields[k]) {
        assert k in merged && merged[k] == paused.fields[k];
      }
    }
  }

  /** Writing the original over the managed entry restores it exactly when the original has inputs of its
      own; otherwise the inputs that the takeover added stay behind. */
  lemma RestoredFromManagedIffOwnInputs(original: Json, inputs: seq<Json>)
    requires original.Obj? && Clean(original) && Field(original, "ffmpeg", Obj(map[])).value.Obj?
    ensures Merge(WithInputs(original, inputs), original) == original <==>
            "ffmpeg" in original.fields && "inputs" in original.fields["ffmpeg"].fields
  {
    hide Merge, Clean;
    var managed := WithInputs(original, inputs);
    MergeLeavesUpdateIffCovered(managed, original);
    forall k | k in original.fields && original.fields[k].Obj? ensures Covered(original.fields[k], original.fields[k]) {
      CoversItself(original.fields[k]);
    }
    if "ffmpeg" in original.fields {
      var ffmpeg := original.fields["ffmpeg"];
      forall f | f in ffmpeg.fields && ffmpeg.fields[f].Obj? ensures Covered(ffmpeg.fields[f], ffmpeg.fields[f]) {
        CoversItself(ffmpeg.fields[f]);
      }
    }
  }

  /** A live alias that the saved configuration lacks is recorded as nothing, and writing nothing back
      leaves a key where there was none. */
  lemma UnsavedAliasIsNotRestored(streams: map<string, Json>, alias: string, managed: Json)
    requires alias !in streams
    ensures var after := Merge(Obj(streams[alias := managed]), Obj(map[alias := At(streams, alias)]));
            after != Obj(streams) && alias in after.fields
  {
  }

  // ----- sync_imported

  /** `sync_imported` writes the new streams first and journals them afterwards. Between the two, a restore
      is still possible exactly when each new value is the journaled or the original one; or the parked one,
      should the managed entry be the paused one. */
  lemma SyncCutShort(w: World, base: Config, key: string)
    requires Fits(w, base, key) && w.link.Some? && w.doubt.Unsynced?
    ensures var row, streams := w.link.value, w.doubt.streams;
            GuardsPass(row, key, w.config) <==>
            forall alias | alias in streams ::
              || streams[alias] == At(row.managedStreams, alias) || streams[alias] == At(row.Originals(), alias)
              || (row.handoff && row.managedCamera == row.pausedCamera && streams[alias] == At(row.pausedStreams, alias))
  {
    var row, streams := w.link.value, w.doubt.streams;
    UnsyncedEntry(row, base, key, w.config, w.doubt);
    UnsyncedIsActive(w, base, key);
    ReleasedIsOriginal(row, base, key);
    ManagedOwnsReleased(row, base, key);
    hide Fits, Row.Originals;
    forall alias | alias in row.managedStreams
      ensures OwnedOk(row, alias, row.managedCamera, At(w.config.streams, alias)) <==>
              || streams[alias] == row.managedStreams[alias] || streams[alias] == At(row.Originals(), alias)
              || (row.handoff && row.managedCamera == row.pausedCamera && streams[alias] == At(row.pausedStreams, alias))
    {
    }
  }

  lemma UnsyncedEntry(row: Row, base: Config, key: string, config: Config, doubt: Doubt)
    requires Covers(row, base, key, config, doubt) && doubt.Unsynced?
    ensures Recorded(row, base, key) && At(config.cameras, key) == row.managedCamera && doubt.streams.Keys == row.managedStreams.Keys
    ensures forall alias | alias in doubt.streams :: At(config.streams, alias) == doubt.streams[alias]
  {
    hide OnlyReadBy, Variant, From, HandoffRecorded, ImportAlias;
  }

  /** The next synchronisation closes the gap if and only if it wants each changed stream as written; then the
      journal covers what is saved again, and no guard of `restore` objects. */
  lemma SyncHealsIffUnchanged(w: World, base: Config, key: string, view: CameraView, relay: Relay, desired: map<string, Json>)
    requires Fits(w, base, key) && w.link.Some? && w.doubt.Unsynced?
    requires ManagedStreams(view, w.link.value.AsMigration(), relay, desired)
    ensures var row, written := w.link.value, w.doubt.streams;
            SyncAllowed(row, w.config.streams, desired) <==>
            forall alias | alias in written :: written[alias] == At(row.managedStreams, alias) || written[alias] == At(desired, alias)
    ensures SyncAllowed(w.link.value, w.config.streams, desired) ==>
              var healed := w.(config := Config(w.config.cameras, w.config.streams + desired), doubt := Settled,
                               link := Some(Synced(w.link.value, desired)));
              Fits(healed, base, key) && GuardsPass(healed.link.value, key, healed.config)
  {
    UnsyncedEntry(w.link.value, base, key, w.config, w.doubt);
    hide Fits, ManagedStreams, GuardsPass;
    if SyncAllowed(w.link.value, w.config.streams, desired) {
      UnsyncedIsActive(w, base, key);
      SyncSteps(w, base, key, view, relay, desired);
      ChangedIsJournaled(w.(config := Config(w.config.cameras, w.config.streams + desired), doubt := Settled,
                            link := Some(Synced(w.link.value, desired))), base, key);
    }
  }

  lemma UnsyncedIsActive(w: World, base: Config, key: string)
    requires Fits(w, base, key) && w.link.Some? && w.doubt.Unsynced?
    ensures w.link.value.phase == Active
  {
    hide OnlyReadBy, JobOk, Importable, Recorded;
  }

  // ----- restoring an active takeover

  /** A restore of an active takeover that is cut short after its write leaves the entry original while the
      journal still says active, so a retried job reports a takeover that is no longer there. The entry
      is the managed one only if the two do not differ. */
  lemma CutShortRestoreLooksActive(w: World, base: Config, key: string, named: Row)
    requires Fits(w, base, key) && w.link.Some? && w.link.value.phase == Active && w.doubt.Settled?
    requires Names(named, w.link.value, w.adopted)
    ensures Fits(Undo(w, base), base, key) && Undo(w, base).link.value.phase == Active
    ensures At(Undo(w, base).config.cameras, key) == w.link.value.managedCamera <==>
            w.link.value.managedCamera == w.link.value.original
  {
    RestoreSteps(w, base, key, named);
    hide OnlyReadBy, JobOk, Importable, ManagedRecorded, HandoffRecorded;
  }
}
