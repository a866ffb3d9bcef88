/** The reconciler, the full sync and the removal of a camera, over one Frigate target. Frigate is its saved
    configuration, the streams that run and the cameras whose workers run; nobody else edits the owned names. */
module FrigateSync {
  import opened Common
  import opened FrigateConfig
  import opened FrigateState

  /** What the reconciler knows of Frigate: a copy read earlier. */
  datatype View = View(config: Config, runtime: set<string>, running: set<string>)

  /** The copy is right about one camera. */
  ghost predicate Current(view: View, config: Config, runtime: set<string>, key: string, aliases: set<string>) {
    && (key in view.config.cameras <==> key in config.cameras)
    && (key in config.cameras ==> view.config.cameras[key] == config.cameras[key])
    && (forall a | a in aliases :: (a in view.config.streams <==> a in config.streams)
                                   && (a in config.streams ==> view.config.streams[a] == config.streams[a]))
    && (forall a | a in aliases && a in config.streams && a in view.runtime :: a in runtime)
  }

  lemma CurrentBeside(view: View, c0: Config, r0: set<string>, c1: Config, r1: set<string>, key: string, other: string)
    requires Current(view, c0, r0, other, Aliases(other)) && Beside(c0, r0, c1, r1, key, Aliases(key)) && key != other
    ensures Current(view, c1, r1, other, Aliases(other))
  {
    AliasesApart(key, other);
    hide Aliases;
  }

  lemma CurrentNow(config: Config, runtime: set<string>, running: set<string>, key: string)
    ensures Current(View(config, runtime, running), config, runtime, key, Aliases(key))
  {
  }

  /** What matches in a copy that is right matches in fact. */
  lemma MatchesInFact(d: Desired, c: Selected, view: View, config: Config, runtime: set<string>)
    requires WellFormed(c) && Wanted(c) && c.desired.value.value == d && Current(view, config, runtime, c.key, Aliases(c.key))
    ensures Matches(d, c.key, view.config, view.runtime) ==> Matches(d, c.key, config, runtime)
  {
    hide EntryMatches, Aliases;
    assert At(view.config.cameras, c.key) == At(config.cameras, c.key);
    if Matches(d, c.key, view.config, view.runtime) {
      forall alias | alias in d.streams ensures At(config.streams, alias) == d.streams[alias] && alias in runtime {
        assert alias in Aliases(c.key) && alias in view.config.streams;
      }
    }
  }

  /** What a completed write leaves saved: the merged entry, enabled again if that was owed, and the aliases. */
  ghost function Wrote(config: Config, c: Selected, d: Desired, view: View, restore: Option<Json>, owed: bool): Config
    requires d.entry.Obj? && (restore.Some? ==> restore.value.Obj?)
  {
    var update := UpdateFor(d.entry, c.key in view.config.cameras, At(view.config.cameras, c.key), restore);
    var merged := WithCamera(config, c.key, update);
    WithStreams(if owed then WithCamera(merged, c.key, Obj(map["enabled" := Bool(true)])) else merged, d.streams)
  }

  ghost predicate SameBut<T>(before: map<string, T>, after: map<string, T>, key: string) {
    forall k | k != key :: (k in before <==> k in after) && (k in before ==> before[k] == after[k])
  }

  lemma EntryIsThere(d: Desired, key: string, config: Config, runtime: set<string>)
    ensures Matches(d, key, config, runtime) ==> key in config.cameras
  {
  }

  /** The update of an entry: `enabled` is left to its own request, a stray `detect.fps` is deleted, and a
      retired camera gets its former values back. */
  function UpdateFor(entry: Json, exists_: bool, saved: Json, restore: Option<Json>): (r: Json)
    requires entry.Obj? && (restore.Some? ==> restore.value.Obj?)
    ensures r.Obj?
  {
    var kept := if exists_ then entry.fields - {"enabled"} else entry.fields;
    var detect := if exists_ && Field(saved, "detect").Obj? && "fps" in Field(saved, "detect").fields && Field(entry, "detect").Obj?
      then kept["detect" := Obj(Field(entry, "detect").fields["fps" := DELETE])] else kept;
    Obj(if restore.Some? then (detect + restore.value.fields)["enabled" := Bool(true)] else detect)
  }

  // ----- over all cameras

  /** The binding of a camera has its key, and restore values are mappings. */
  ghost predicate Consistent(c: Selected, bindings: map<string, Binding>, retired: map<string, Json>) {
    (c.uuid in bindings ==> bindings[c.uuid].key == c.key) && forall k | k in retired :: retired[k].Obj?
  }

  ghost predicate AllConsistent(cameras: seq<Selected>, bindings: map<string, Binding>, retired: map<string, Json>) {
    forall i | 0 <= i < |cameras| :: Consistent(cameras[i], bindings, retired)
  }

  ghost function Keys(cameras: seq<Selected>): set<string> {
    set c | c in cameras :: c.key
  }

  ghost function AllAliases(cameras: seq<Selected>): set<string> {
    set c, a | c in cameras && a in Aliases(c.key) :: a
  }

  /** Only these entries and these aliases differ. */
  ghost predicate Elsewhere(c0: Config, c1: Config, keys: set<string>, aliases: set<string>) {
    && (forall k | k !in keys :: (k in c0.cameras <==> k in c1.cameras) && (k in c0.cameras ==> c0.cameras[k] == c1.cameras[k]))
    && (forall a | a !in aliases :: (a in c0.streams <==> a in c1.streams) && (a in c0.streams ==> c0.streams[a] == c1.streams[a]))
  }

  ghost predicate Same(before: map<string, Json>, after: map<string, Json>, keys: set<string>) {
    forall k | k !in keys :: (k in after <==> k in before) && (k in after ==> after[k] == before[k])
  }

  lemma ElsewhereNothing(c: Config, retired: map<string, Json>, keys: set<string>, aliases: set<string>)
    ensures Elsewhere(c, c, keys, aliases) && Same(retired, retired, keys)
  {
  }

  lemma Apart(cameras: seq<Selected>, i: nat, j: nat)
    requires Distinct(cameras) && i < |cameras| && j < |cameras| && i != j
    ensures cameras[i].uuid != cameras[j].uuid && cameras[i].key != cameras[j].key
    ensures WellFormed(cameras[i]) && WellFormed(cameras[j])
  {
    hide WellFormed;
  }

  /** Work on one camera leaves the others, and what the copy says of them, as they were. */
  lemma OthersHold(other: Selected, c: Selected, view: View, after: View, c0: Config, r0: set<string>, c1: Config, r1: set<string>,
                   b0: map<string, Binding>, b1: map<string, Binding>, t0: map<string, Json>, t1: map<string, Json>)
    requires Beside(c0, r0, c1, r1, c.key, Aliases(c.key)) && other.key != c.key && other.uuid != c.uuid && WellFormed(other)
    requires SameBut(b0, b1, c.uuid) && SameBut(t0, t1, c.key)
    requires after == view || (after.config == c1 && after.runtime == r1)
             || after == view.(config := view.config.(cameras := c1.cameras))
    ensures Current(view, c0, r0, other.key, Aliases(other.key)) ==> Current(after, c1, r1, other.key, Aliases(other.key))
    ensures Quiet(other, c0, r0, b0, t0) ==> Quiet(other, c1, r1, b1, t1)
    ensures Settled(other, c0, r0, b0, t0) ==> Settled(other, c1, r1, b1, t1)
    ensures other.uuid in b0 <==> other.uuid in b1
    ensures other.uuid in b0 ==> b0[other.uuid] == b1[other.uuid]
  {
    if Current(view, c0, r0, other.key, Aliases(other.key)) {
      CurrentBeside(view, c0, r0, c1, r1, c.key, other.key);
      CopiesAgree(view, after, c1, r1, other.key);
    }
    if Quiet(other, c0, r0, b0, t0) {
      QuietBeside(other, c0, r0, c1, r1, b0, t0, c.key);
      QuietSame(other, c1, r1, b0, b1, t0, t1);
    }
    hide Beside, Current, Matches, Aliases;
  }

  lemma CopiesAgree(view: View, after: View, config: Config, runtime: set<string>, key: string)
    requires Current(view, config, runtime, key, Aliases(key))
    requires after == view || (after.config == config && after.runtime == runtime)
             || after == view.(config := view.config.(cameras := config.cameras))
    ensures Current(after, config, runtime, key, Aliases(key))
  {
    hide Aliases;
  }

  lemma QuietSame(c: Selected, config: Config, runtime: set<string>, b0: map<string, Binding>, b1: map<string, Binding>,
                  t0: map<string, Json>, t1: map<string, Json>)
    requires Quiet(c, config, runtime, b0, t0)
    requires (c.uuid in b0 <==> c.uuid in b1) && (c.uuid in b0 ==> b0[c.uuid] == b1[c.uuid]) && (c.key in t0 <==> c.key in t1)
    ensures Quiet(c, config, runtime, b1, t1)
  {
    hide Matches;
  }

  lemma TouchesOwn(cameras: seq<Selected>, i: nat, c: Config, c0: Config, r0: set<string>, c1: Config, r1: set<string>,
                   t: map<string, Json>, t0: map<string, Json>, t1: map<string, Json>)
    requires i < |cameras| && Beside(c0, r0, c1, r1, cameras[i].key, Aliases(cameras[i].key)) && SameBut(t0, t1, cameras[i].key)
    requires Elsewhere(c, c0, Keys(cameras), AllAliases(cameras)) && Same(t, t0, Keys(cameras))
    ensures Elsewhere(c, c1, Keys(cameras), AllAliases(cameras)) && Same(t, t1, Keys(cameras))
  {
    assert cameras[i] in cameras && cameras[i].key in Keys(cameras);
    assert Aliases(cameras[i].key) <= AllAliases(cameras);
    hide Keys, AllAliases, Aliases;
  }

  ghost predicate SameBindings(before: map<string, Binding>, after: map<string, Binding>, uuid: string) {
    after == before || after == before - {uuid}
  }

  // ----- retirement

  /** `_is_retired_camera` */
  predicate IsRetired(camera: Json) {
    && Field(camera, "enabled") == Bool(false)
    && Field(Field(camera, "record"), "enabled") == Bool(false)
    && Field(Field(camera, "ui"), "dashboard") == Bool(false)
  }

  /** A setting as an update that brings it back: absent settings are deleted. */
  function Setting(section: Json, name: string): Json {
    if section.Obj? && name in section.fields then section.fields[name] else DELETE
  }

  function RestoreOf(saved: Json): Json {
    Obj(map["record" := Obj(map["enabled" := Setting(Field(saved, "record"), "enabled")]),
            "ui" := Obj(map["dashboard" := Setting(Field(saved, "ui"), "dashboard")])])
  }

  /** `remember_retired_frigate_camera`: the first values stay. */
  function Remembered(retired: map<string, Json>, key: string, saved: Json): map<string, Json> {
    if key in retired then retired else retired[key := RestoreOf(saved)]
  }

  const RETIRE_RECORD := Obj(map["record" := Obj(map["enabled" := Bool(false)])])
  const RETIRE_REST := Obj(map["enabled" := Bool(false), "ui" := Obj(map["dashboard" := Bool(false)])])

  /** Retiring an entry and restoring it later brings the recording and dashboard settings back as they were,
      whatever else the update carries. */
  lemma RestoreUndoesRetirement(saved: Json, entry: Json)
    requires saved.Obj? && entry.Obj? && "record" !in entry.fields && "ui" !in entry.fields
    requires "record" in saved.fields ==> saved.fields["record"].Obj?
    requires "ui" in saved.fields ==> saved.fields["ui"].Obj?
    ensures var retired := Merge(Merge(saved, RETIRE_RECORD), RETIRE_REST);
            var back := Merge(retired, UpdateFor(entry, true, retired, Some(RestoreOf(saved))));
            && IsRetired(retired)
            && Setting(Field(back, "record"), "enabled") == Setting(Field(saved, "record"), "enabled")
            && Setting(Field(back, "ui"), "dashboard") == Setting(Field(saved, "ui"), "dashboard")
            && Field(back, "enabled") == Bool(true)
  {
    RestoreIsMapping(saved);
    hide IsRetired, UpdateFor, RestoreOf, Merge;
    var one := Merge(saved, RETIRE_RECORD);
    var two := Merge(one, RETIRE_REST);
    var update := UpdateFor(entry, true, two, Some(RestoreOf(saved)));
    var back := Merge(two, update);
    RetireRecord(saved);
    RetireRest(one);
    RetiredIs(two);
    RestoreUpdate(entry, two, saved);
    MergeSection(two, update, "record", "enabled", Setting(Field(saved, "record"), "enabled"));
    MergeSection(two, update, "ui", "dashboard", Setting(Field(saved, "ui"), "dashboard"));
    MergeScalar(two, update, "enabled");
  }

  lemma RetireRecord(saved: Json)
    requires saved.Obj? && ("record" in saved.fields ==> saved.fields["record"].Obj?)
    ensures var one := Merge(saved, RETIRE_RECORD);
            && Field(one, "record").Obj? && Setting(Field(one, "record"), "enabled") == Bool(false)
            && Field(one, "ui") == Field(saved, "ui") && ("ui" in one.fields <==> "ui" in saved.fields)
  {
  }

  lemma RetireRest(one: Json)
    requires one.Obj? && ("ui" in one.fields ==> one.fields["ui"].Obj?)
    ensures var two := Merge(one, RETIRE_REST);
            && Field(two, "record") == Field(one, "record") && Field(two, "enabled") == Bool(false)
            && Field(two, "ui").Obj? && Setting(Field(two, "ui"), "dashboard") == Bool(false)
  {
    hide Merge;
    var hidden := Obj(map["dashboard" := Bool(false)]);
    MergeField(one, RETIRE_REST, "enabled");
    MergeField(one, RETIRE_REST, "ui");
    MergeKeeps(one, RETIRE_REST, "record");
    if Field(one, "ui").Obj? {
      MergeField(Field(one, "ui"), hidden, "dashboard");
    }
  }

  lemma RetiredIs(two: Json)
    requires Field(two, "enabled") == Bool(false)
    requires Field(two, "record").Obj? && Setting(Field(two, "record"), "enabled") == Bool(false)
    requires Field(two, "ui").Obj? && Setting(Field(two, "ui"), "dashboard") == Bool(false)
    ensures IsRetired(two)
  {
  }

  lemma RestoreUpdate(entry: Json, two: Json, saved: Json)
    requires entry.Obj?
    ensures var update := UpdateFor(entry, true, two, Some(RestoreOf(saved)));
            && "enabled" in update.fields && update.fields["enabled"] == Bool(true)
            && "record" in update.fields
            && update.fields["record"] == Obj(map["enabled" := Setting(Field(saved, "record"), "enabled")])
            && "ui" in update.fields
            && update.fields["ui"] == Obj(map["dashboard" := Setting(Field(saved, "ui"), "dashboard")])
  {
  }

  lemma MergeSection(current: Json, update: Json, section: string, name: string, value: Json)
    requires current.Obj? && update.Obj? && section in update.fields && update.fields[section] == Obj(map[name := value])
    requires Field(current, section).Obj? && name in Field(current, section).fields && !Field(current, section).fields[name].Obj?
    ensures Setting(Field(Merge(current, update), section), name) == value
  {
  }

  lemma MergeScalar(current: Json, update: Json, name: string)
    requires current.Obj? && update.Obj? && name in update.fields && update.fields[name].Bool?
    ensures Field(Merge(current, update), name) == update.fields[name]
  {
  }

  /** Which restore values may have been added: those of the entries as they were first seen. */
  ghost predicate FirstSeen(t0: map<string, Json>, t1: map<string, Json>, c0: Config, stale: set<string>) {
    && (forall k | k in t0 :: k in t1 && t1[k] == t0[k])
    && (forall k | k in t1 && k !in t0 :: k in stale && t1[k] == RestoreOf(At(c0.cameras, k)))
  }

  lemma FirstSeenNothing(t: map<string, Json>, c: Config, stale: set<string>)
    ensures FirstSeen(t, t, c, stale)
  {
  }

  lemma FirstSeenMore(t: map<string, Json>, t0: map<string, Json>, t1: map<string, Json>, c: Config, stale: set<string>, key: string,
                      saved: Json)
    requires FirstSeen(t, t0, c, stale) && key in stale && saved == At(c.cameras, key)
    requires t1 == t0 || t1 == Remembered(t0, key, saved)
    ensures FirstSeen(t, t1, c, stale)
  {
    hide RestoreOf;
  }

  lemma FirstSeenWider(t0: map<string, Json>, t1: map<string, Json>, c: Config, stale: set<string>, more: set<string>)
    requires FirstSeen(t0, t1, c, stale) && stale <= more
    ensures FirstSeen(t0, t1, c, more)
  {
    hide RestoreOf;
  }

  lemma KeepsMembers(t0: map<string, Json>, t1: map<string, Json>, key: string, saved: Json)
    requires t1 == t0 || t1 == Remembered(t0, key, saved)
    ensures forall k | k in t0 :: k in t1
  {
    hide RestoreOf;
  }

  lemma StillConsistent(cameras: seq<Selected>, bindings: map<string, Binding>, t0: map<string, Json>, t1: map<string, Json>,
                        c0: Config, desiredCameras: set<string>)
    requires AllConsistent(cameras, bindings, t0) && FirstSeen(t0, t1, c0, c0.cameras.Keys - desiredCameras)
    ensures AllConsistent(cameras, bindings, t1)
  {
    hide RestoreOf;
    forall i | 0 <= i < |cameras| ensures Consistent(cameras[i], bindings, t1) {
      assert Consistent(cameras[i], bindings, t0);
      forall k | k in t1 ensures t1[k].Obj? {
        RestoreIsMapping(At(c0.cameras, k));
      }
    }
  }

  lemma RestoreIsMapping(saved: Json)
    ensures RestoreOf(saved).Obj?
  {
  }

  predicate StaleCamera(k: string, config: Config, retired: map<string, Json>, desired: set<string>) {
    k in config.cameras && Owned(k) && k !in desired && !(k in retired && IsRetired(config.cameras[k]))
  }

  predicate StaleStream(a: string, config: Config, desired: set<string>) {
    a in config.streams && Owned(a) && a !in desired
  }

  // ----- frames of a sync

  lemma PutElsewhere(c0: Config, c: Config, key: string, update: Json)
    requires Elsewhere(c0, c, {key}, {})
    ensures Elsewhere(c0, WithCamera(c, key, update), {key}, {})
  {
  }

  lemma DeleteElsewhere(c: Config, stale: set<string>)
    ensures Elsewhere(c, WithStreams(c, map a | a in stale :: DELETE), {}, stale)
  {
  }

  lemma ElsewhereMore(c: Config, c0: Config, c1: Config, keys: set<string>, aliases: set<string>, key: string)
    requires Elsewhere(c, c0, keys, aliases) && Elsewhere(c0, c1, {key}, {}) && key in keys
    ensures Elsewhere(c, c1, keys, aliases)
  {
  }

  lemma ElsewhereAt(c0: Config, c1: Config, key: string, k: string)
    requires Elsewhere(c0, c1, {key}, {}) && k != key
    ensures At(c1.cameras, k) == At(c0.cameras, k)
  {
  }

  lemma ElsewhereWider(c0: Config, c1: Config, keys: set<string>, aliases: set<string>, keys': set<string>, aliases': set<string>)
    requires Elsewhere(c0, c1, keys, aliases) && keys <= keys' && aliases <= aliases'
    ensures Elsewhere(c0, c1, keys', aliases')
  {
  }

  lemma ElsewhereJoined(c0: Config, c1: Config, c2: Config, key: string, aliases: set<string>, dropped: set<string>)
    requires Elsewhere(c0, c1, {key}, aliases) && Elsewhere(c1, c2, {}, dropped) && dropped <= aliases
    ensures Elsewhere(c0, c2, {key}, aliases)
    ensures key in c2.cameras <==> key in c1.cameras
  {
  }

  /** Only owned and undesired names changed. */
  ghost predicate OwnOnly(c0: Config, c1: Config, desiredCameras: set<string>, desiredStreams: set<string>) {
    && (forall k | !Owned(k) || k in desiredCameras ::
          (k in c0.cameras <==> k in c1.cameras) && (k in c0.cameras ==> c0.cameras[k] == c1.cameras[k]))
    && (forall a | !Owned(a) || a in desiredStreams ::
          (a in c0.streams <==> a in c1.streams) && (a in c0.streams ==> c0.streams[a] == c1.streams[a]))
  }

  lemma OwnRetired(c0: Config, c1: Config, stale: set<string>, desiredCameras: set<string>, desiredStreams: set<string>)
    requires Elsewhere(c0, c1, stale, {}) && forall k | k in stale :: Owned(k) && k !in desiredCameras
    ensures OwnOnly(c0, c1, desiredCameras, desiredStreams)
    ensures forall a :: a in c0.streams <==> a in c1.streams
  {
  }

  lemma OwnDropped(c0: Config, c1: Config, c2: Config, stale: set<string>, desiredCameras: set<string>, desiredStreams: set<string>)
    requires OwnOnly(c0, c1, desiredCameras, desiredStreams) && Elsewhere(c1, c2, {}, stale)
    requires forall a | a in stale :: Owned(a) && a !in desiredStreams
    ensures OwnOnly(c0, c2, desiredCameras, desiredStreams)
  {
  }

  lemma KeysAreOwned(cameras: seq<Selected>)
    requires Distinct(cameras)
    ensures forall k | k in Keys(cameras) :: Owned(k)
    ensures forall a | a in AllAliases(cameras) :: Owned(a)
  {
    forall c | c in cameras ensures Owned(c.key) && forall a | a in Aliases(c.key) :: Owned(a) {
      var i :| 0 <= i < |cameras| && cameras[i] == c;
      assert WellFormed(cameras[i]);
      AliasesOwned(c.key);
    }
    hide Aliases;
  }

  /** Reconciling desired cameras makes nothing stale. */
  lemma StaysClean(c1: Config, t1: map<string, Json>, c2: Config, t2: map<string, Json>, cameras: seq<Selected>,
                   desiredCameras: set<string>, desiredStreams: set<string>)
    requires forall k :: !StaleCamera(k, c1, t1, desiredCameras)
    requires forall a :: !StaleStream(a, c1, desiredStreams)
    requires Elsewhere(c1, c2, Keys(cameras), AllAliases(cameras)) && Same(t1, t2, Keys(cameras))
    requires Keys(cameras) <= desiredCameras && AllAliases(cameras) <= desiredStreams
    ensures forall k :: !StaleCamera(k, c2, t2, desiredCameras)
    ensures forall a :: !StaleStream(a, c2, desiredStreams)
  {
    hide Keys, AllAliases, Owned, IsRetired;
    forall k ensures !StaleCamera(k, c2, t2, desiredCameras) {
      assert !StaleCamera(k, c1, t1, desiredCameras);
    }
    forall a ensures !StaleStream(a, c2, desiredStreams) {
      assert !StaleStream(a, c1, desiredStreams);
    }
  }

  /** What the cleanup and the reconciliation together leave alone. */
  lemma SyncFrame(c0: Config, c1: Config, c2: Config, t0: map<string, Json>, t1: map<string, Json>, t2: map<string, Json>,
                  cameras: seq<Selected>, desiredCameras: set<string>, desiredStreams: set<string>)
    requires OwnOnly(c0, c1, desiredCameras, desiredStreams) && FirstSeen(t0, t1, c0, c0.cameras.Keys - desiredCameras)
    requires (c2 == c1 && t2 == t1) || (Elsewhere(c1, c2, Keys(cameras), AllAliases(cameras)) && Same(t1, t2, Keys(cameras)))
    requires (forall k | k in Keys(cameras) :: Owned(k)) && (forall a | a in AllAliases(cameras) :: Owned(a))
    requires Keys(cameras) <= desiredCameras && forall k | k in t2 :: k in t1
    ensures forall k | !Owned(k) || (k in desiredCameras && k !in Keys(cameras)) ::
              (k in c2.cameras <==> k in c0.cameras) && (k in c2.cameras ==> c2.cameras[k] == c0.cameras[k])
    ensures forall a | !Owned(a) || (a in desiredStreams && a !in AllAliases(cameras)) ::
              (a in c2.streams <==> a in c0.streams) && (a in c2.streams ==> c2.streams[a] == c0.streams[a])
    ensures forall k | k in t0 && k !in Keys(cameras) :: k in t2 && t2[k] == t0[k]
    ensures forall k | k in t2 && k !in t0 :: t2[k] == RestoreOf(At(c0.cameras, k))
  {
    hide Keys, AllAliases, RestoreOf, Owned;
  }

  class Target {
    // Frigate
    var config: Config
    var runtime: set<string>
    var running: set<string>
    // the repository
    var bindings: map<string, Binding>
    var retired: map<string, Json>
    // configuration, runtime-stream and restart requests so far
    ghost var calls: nat

    // ----- requests; each can be refused, and each can take effect and be reported as failed

    method Ask() returns (ok: bool) {
      ok := *;
    }

    method SomeRunning() returns (s: set<string>) {
      s := *;
    }

    method PutCamera(key: string, update: Json) returns (ok: bool)
      modifies `config, `running, `calls
      ensures calls == old(calls) + 1
      ensures config == old(config) || config == WithCamera(old(config), key, update)
      ensures ok ==> config == WithCamera(old(config), key, update)
    {
      calls := calls + 1;
      var taken := Ask();
      if taken && !Rejects(Obj(config.cameras), Obj(map[key := update])) {
        config := WithCamera(config, key, update);
        running := SomeRunning();
        ok := Ask();
      } else {
        ok := false;
      }
    }

    method PutStreams(update: map<string, Json>) returns (ok: bool)
      modifies `config, `calls
      ensures calls == old(calls) + 1
      ensures config == old(config) || config == WithStreams(old(config), update)
      ensures ok ==> config == WithStreams(old(config), update)
    {
      calls := calls + 1;
      var taken := Ask();
      if taken && !Rejects(Obj(config.streams), Obj(update)) {
        config := WithStreams(config, update);
        ok := Ask();
      } else {
        ok := false;
      }
    }

    method SetRuntime(alias: string) returns (ok: bool)
      modifies `runtime, `calls
      ensures calls == old(calls) + 1 && (runtime == old(runtime) || runtime == old(runtime) + {alias})
    {
      calls := calls + 1;
      var taken := Ask();
      if taken {
        runtime := runtime + {alias};
      }
      ok := Ask();
    }

    method DeleteRuntime(alias: string) returns (ok: bool)
      modifies `runtime, `calls
      ensures calls == old(calls) + 1 && (runtime == old(runtime) || runtime == old(runtime) - {alias})
    {
      calls := calls + 1;
      var taken := Ask();
      if taken {
        runtime := runtime - {alias};
      }
      ok := Ask();
    }

    /** After a restart the saved aliases run. */
    method Restart() returns (ok: bool)
      modifies `runtime, `running, `calls
      ensures calls == old(calls) + 1 && (runtime == old(runtime) || runtime == config.streams.Keys)
    {
      calls := calls + 1;
      var taken := Ask();
      if taken {
        runtime := config.streams.Keys;
        running := SomeRunning();
      }
      ok := Ask();
    }

    /** A fresh copy; workers come and go meanwhile. */
    method Read() returns (view: View)
      modifies `running
      ensures view == View(config, runtime, running)
    {
      running := SomeRunning();
      view := View(config, runtime, running);
    }

    /** `_wait_for_camera_state`: reads only, until the camera matches and runs or the time is over. */
    method Await(d: Desired, key: string) returns (view: Option<View>)
      modifies `running
      ensures view.Some? ==> view.value == View(config, runtime, running) && Matches(d, key, config, runtime) && key in running
    {
      var rounds: nat := *;
      while rounds > 0 {
        running := SomeRunning();
        var reached := Ask();
        if reached && Matches(d, key, config, runtime) && key in running {
          return Some(View(config, runtime, running));
        }
        rounds := rounds - 1;
      }
      return None;
    }

    // ----- one camera

    /** `record_frigate_attempt` */
    method RecordAttempt(uuid: string, key: string, digest: string)
      modifies `bindings
      ensures uuid in bindings && bindings == old(bindings)[uuid := bindings[uuid]]
      ensures bindings[uuid] == if uuid in old(bindings) then old(bindings)[uuid].(key := key, digest := digest, applied := false)
                                else Binding(key, digest, None, false, true)
    {
      bindings := bindings[uuid := if uuid in bindings then bindings[uuid].(key := key, digest := digest, applied := false)
                                   else Binding(key, digest, None, false, true)];
    }

    /** `complete_frigate_attempt` */
    method Complete(uuid: string, digest: Option<string>)
      requires uuid in bindings
      modifies `bindings
      ensures bindings == old(bindings)[uuid :=
                if digest.Some? then old(bindings)[uuid].(applied := true, appliedDigest := digest) else old(bindings)[uuid].(applied := false)]
    {
      bindings := bindings[uuid :=
        if digest.Some? then bindings[uuid].(applied := true, appliedDigest := digest) else bindings[uuid].(applied := false)];
    }

    /** A camera that is disabled in CamAdmiral: its entry, if there is one, must be disabled. */
    method Disable(c: Selected, view: View) returns (ok: bool, after: View)
      requires WellFormed(c) && !c.enabled && Current(view, config, runtime, c.key, Aliases(c.key))
      requires c.uuid in bindings ==> bindings[c.uuid].key == c.key
      modifies `config, `running, `bindings, `calls
      ensures Beside(old(config), old(runtime), config, runtime, c.key, Aliases(c.key))
      ensures forall u | u != c.uuid :: (u in bindings <==> u in old(bindings)) && (u in bindings ==> bindings[u] == old(bindings)[u])
      ensures c.uuid in bindings <==> c.uuid in old(bindings)
      ensures c.uuid in bindings ==> bindings[c.uuid].key == c.key
      ensures ok ==> Quiet(c, config, runtime, bindings, retired)
      ensures old(Quiet(c, config, runtime, bindings, retired)) ==>
                ok && calls == old(calls) && config == old(config) && bindings == old(bindings)
      ensures calls != old(calls) ==> c.uuid in bindings && !bindings[c.uuid].enabledApplied && (ok <==> bindings[c.uuid].applied)
      ensures after == view || after == view.(config := view.config.(cameras := config.cameras))
    {
      hide Merge, Aliases;
      BesideNothing(config, runtime, c.key, Aliases(c.key));
      after := view;
      if c.uuid !in bindings {
        return true, view;
      }
      var actual := At(view.config.cameras, c.key);
      if !actual.Obj? || Field(actual, "enabled") == Bool(false) {
        return true, view;
      }
      var binding := bindings[c.uuid];
      bindings := bindings[c.uuid := binding.(enabledApplied := false)];
      RecordAttempt(c.uuid, c.key, binding.digest);
      CameraPut(config, runtime, c.key, Obj(map["enabled" := Bool(false)]), Aliases(c.key));
      var taken := PutCamera(c.key, Obj(map["enabled" := Bool(false)]));
      var verified := At(config.cameras, c.key);
      if !taken || !verified.Obj? || Field(verified, "enabled") != Bool(false) {
        Complete(c.uuid, None);
        return false, view;
      }
      Complete(c.uuid, Some(if binding.appliedDigest.Some? then binding.appliedDigest.value else binding.digest));
      return true, view.(config := view.config.(cameras := config.cameras));
    }

    /** The requests that put the desired entry and streams in place. */
    method Write(c: Selected, d: Desired, view: View, restore: Option<Json>, owed: bool, allowRestart: bool, quirk: bool)
      returns (written: bool)
      requires WellFormed(c) && Wanted(c) && c.desired.value.value == d
      requires restore.Some? ==> restore.value.Obj?
      modifies `config, `runtime, `running, `calls
      ensures Beside(old(config), old(runtime), config, runtime, c.key, Aliases(c.key))
      ensures written ==> config == Wrote(old(config), c, d, view, restore, owed)
    {
      hide Merge, Aliases, Beside;
      var exists_ := c.key in view.config.cameras;
      var update := UpdateFor(d.entry, exists_, At(view.config.cameras, c.key), restore);
      ghost var c0, r0 := config, runtime;
      CameraPut(config, runtime, c.key, update, Aliases(c.key));
      BesideNothing(config, runtime, c.key, Aliases(c.key));
      written := PutCamera(c.key, update);
      if !written {
        return;
      }
      if owed {
        ghost var c1 := config;
        CameraPut(config, runtime, c.key, Obj(map["enabled" := Bool(true)]), Aliases(c.key));
        BesideNothing(config, runtime, c.key, Aliases(c.key));
        written := PutCamera(c.key, Obj(map["enabled" := Bool(true)]));
        BesideTwice(c0, r0, c1, r0, config, runtime, c.key, Aliases(c.key));
        if !written {
          return;
        }
      }
      ghost var c2 := config;
      StreamsPut(config, runtime, c.key, d.streams, Aliases(c.key));
      BesideNothing(config, runtime, c.key, Aliases(c.key));
      written := PutStreams(d.streams);
      BesideTwice(c0, r0, c2, r0, config, runtime, c.key, Aliases(c.key));
      if written {
        written := StartStreams(c, d, ((quirk && !exists_ && |view.config.cameras| == 1) || restore.Some?) && allowRestart, c0, r0);
      }
    }

    /** The runtime streams, and the restart that some changes need. */
    method StartStreams(c: Selected, d: Desired, restart: bool, ghost c0: Config, ghost r0: set<string>) returns (started: bool)
      requires d.streams.Keys == Aliases(c.key) && Beside(c0, r0, config, runtime, c.key, Aliases(c.key))
      modifies `runtime, `running, `calls
      ensures Beside(c0, r0, config, runtime, c.key, Aliases(c.key))
    {
      hide Aliases;
      var rest := d.streams.Keys;
      while rest != {}
        invariant rest <= d.streams.Keys && Beside(c0, r0, config, runtime, c.key, Aliases(c.key))
        decreases rest
      {
        var alias :| alias in rest;
        rest := rest - {alias};
        started := SetRuntime(alias);
        if !started {
          return;
        }
      }
      if restart {
        started := Restart();
        return;
      }
      return true;
    }

    /** A camera that is enabled in CamAdmiral. */
    method Enable(c: Selected, view: View, allowRestart: bool, quirk: bool) returns (ok: bool, after: View)
      requires WellFormed(c) && c.enabled && Current(view, config, runtime, c.key, Aliases(c.key))
      requires c.uuid in bindings ==> bindings[c.uuid].key == c.key
      requires forall k | k in retired :: retired[k].Obj?
      modifies `config, `runtime, `running, `bindings, `retired, `calls
      ensures Beside(old(config), old(runtime), config, runtime, c.key, Aliases(c.key))
      ensures SameBut(old(bindings), bindings, c.uuid) && SameBut(old(retired), retired, c.key)
      ensures retired.Keys <= old(retired).Keys
      ensures c.uuid in bindings ==> bindings[c.uuid].key == c.key
      ensures forall k | k in retired :: retired[k].Obj?
      ensures ok ==> Quiet(c, config, runtime, bindings, retired)
      ensures old(Settled(c, config, runtime, bindings, retired)) && view.config == old(config) && view.runtime == old(runtime) ==>
                && calls == old(calls) && config == old(config) && runtime == old(runtime)
                && Settled(c, config, runtime, bindings, retired)
      ensures after == view || (after.config == config && after.runtime == runtime)
    {
      hide Merge, Aliases, Matches, Beside, Current;
      BesideNothing(config, runtime, c.key, Aliases(c.key));
      if c.desired.Err? || c.desired.value.None? {
        return false, view;
      }
      var d := c.desired.value.value;
      MatchesInFact(d, c, view, config, runtime);
      EntryIsThere(d, c.key, view.config, view.runtime);
      var conflict := c.key in view.config.cameras || exists alias | alias in d.streams :: alias in view.config.streams || alias in view.runtime;
      if c.uuid !in bindings && c.key !in retired && conflict {
        return false, view;
      }
      if c.key in retired && !allowRestart {
        return false, view;
      }
      var matches := Matches(d, c.key, view.config, view.runtime);
      if c.uuid in bindings && c.key !in retired && bindings[c.uuid].enabledApplied
         && bindings[c.uuid].appliedDigest == Some(d.digest) && matches && c.key in view.running {
        if !bindings[c.uuid].applied {
          Complete(c.uuid, Some(d.digest));
        }
        return true, view;
      }
      var binding := if c.uuid in bindings then Some(bindings[c.uuid]) else None;
      RecordAttempt(c.uuid, c.key, d.digest);
      if c.key in view.config.cameras && matches && c.key !in view.running && c.key !in retired {
        var verified := Await(d, c.key);
        Complete(c.uuid, if verified.Some? then Some(d.digest) else None);
        return verified.Some?, if verified.Some? then verified.value else view;
      }
      ok, after := Apply(c, d, view, binding, allowRestart, quirk);
    }

    /** The full path: write, start, restart where needed, and verify. */
    method Apply(c: Selected, d: Desired, view: View, binding: Option<Binding>, allowRestart: bool, quirk: bool)
      returns (ok: bool, after: View)
      requires WellFormed(c) && Wanted(c) && c.desired.value.value == d
      requires c.uuid in bindings && bindings[c.uuid].key == c.key && forall k | k in retired :: retired[k].Obj?
      modifies `config, `runtime, `running, `bindings, `retired, `calls
      ensures Beside(old(config), old(runtime), config, runtime, c.key, Aliases(c.key))
      ensures SameBut(old(bindings), bindings, c.uuid) && SameBut(old(retired), retired, c.key)
      ensures retired.Keys <= old(retired).Keys
      ensures c.uuid in bindings && bindings[c.uuid].key == c.key
      ensures forall k | k in retired :: retired[k].Obj?
      ensures ok ==> Quiet(c, config, runtime, bindings, retired)
      ensures ok ==> config == Wrote(old(config), c, d, view, if c.key in old(retired) then Some(old(retired)[c.key]) else None,
                                     c.key in view.config.cameras && binding.Some? && !binding.value.enabledApplied)
      ensures ok ==> bindings[c.uuid].enabledApplied && c.key !in retired
      ensures after == view || (after.config == config && after.runtime == runtime)
    {
      hide Merge, Aliases, Matches, Beside;
      after := view;
      var restore := if c.key in retired then Some(retired[c.key]) else None;
      var owed := c.key in view.config.cameras && binding.Some? && !binding.value.enabledApplied;
      ok := Write(c, d, view, restore, owed, allowRestart, quirk);
      var verified: Option<View> := None;
      if ok {
        verified := Await(d, c.key);
      }
      if verified.None? {
        Complete(c.uuid, None);
        return false, view;
      }
      Complete(c.uuid, Some(d.digest));
      bindings := bindings[c.uuid := bindings[c.uuid].(enabledApplied := true)];
      retired := retired - {c.key};
      return true, verified.value;
    }

    // ----- all cameras

    method Visit(c: Selected, view: View, allowRestart: bool, quirk: bool) returns (ok: bool, after: View)
      requires WellFormed(c) && Current(view, config, runtime, c.key, Aliases(c.key)) && Consistent(c, bindings, retired)
      modifies `config, `runtime, `running, `bindings, `retired, `calls
      ensures Beside(old(config), old(runtime), config, runtime, c.key, Aliases(c.key)) && Consistent(c, bindings, retired)
      ensures SameBut(old(bindings), bindings, c.uuid) && SameBut(old(retired), retired, c.key)
      ensures retired.Keys <= old(retired).Keys
      ensures ok ==> Quiet(c, config, runtime, bindings, retired)
      ensures old(Settled(c, config, runtime, bindings, retired)) && view.config == old(config) && view.runtime == old(runtime) ==>
                && calls == old(calls) && config == old(config) && runtime == old(runtime)
                && Settled(c, config, runtime, bindings, retired) && after.config == config && after.runtime == runtime
      ensures after == view || (after.config == config && after.runtime == runtime)
              || after == view.(config := view.config.(cameras := config.cameras))
    {
      hide Beside, Current, Matches, EntryMatches, Aliases;
      if c.enabled {
        ok, after := Enable(c, view, allowRestart, quirk);
      } else {
        ok, after := Disable(c, view);
      }
    }

    ghost predicate AllSettled(cameras: seq<Selected>)
      reads this
    {
      forall i | 0 <= i < |cameras| :: Settled(cameras[i], config, runtime, bindings, retired)
    }

    /** No enabled camera waits for an enable request that CamAdmiral still owes it. */
    static ghost predicate NoneOwed(cameras: seq<Selected>, bindings: map<string, Binding>) {
      forall i | 0 <= i < |cameras| && cameras[i].enabled && cameras[i].uuid in bindings :: bindings[cameras[i].uuid].enabledApplied
    }

    ghost predicate AllQuiet(cameras: seq<Selected>)
      reads this
    {
      forall i | 0 <= i < |cameras| :: Quiet(cameras[i], config, runtime, bindings, retired)
    }

    /** `reconcile_frigate`. When nothing is pending, Frigate agrees with every camera; when all is settled, the
        run asks nothing of Frigate but reads. */
    method Reconcile(cameras: seq<Selected>, allowRestart: bool, quirk: bool) returns (applied: nat, pending: nat)
      requires Distinct(cameras) && AllConsistent(cameras, bindings, retired)
      modifies `config, `runtime, `running, `bindings, `retired, `calls
      ensures AllConsistent(cameras, bindings, retired) && applied + pending == |cameras|
      ensures pending == 0 ==> AllQuiet(cameras)
      ensures old(AllSettled(cameras)) ==>
                calls == old(calls) && config == old(config) && runtime == old(runtime) && AllSettled(cameras)
      ensures Elsewhere(old(config), config, Keys(cameras), AllAliases(cameras))
      ensures Same(old(retired), retired, Keys(cameras)) && retired.Keys <= old(retired).Keys
    {
      hide Beside, Current, Quiet, Settled, Aliases, Elsewhere, Keys, AllAliases, SameBut, WellFormed;
      applied, pending := 0, 0;
      var view := Read();
      ghost var settled := AllSettled(cameras);
      forall i | 0 <= i < |cameras| ensures Current(view, config, runtime, cameras[i].key, Aliases(cameras[i].key)) {
        CurrentNow(config, runtime, running, cameras[i].key);
      }
      ElsewhereNothing(config, retired, Keys(cameras), AllAliases(cameras));
      for i := 0 to |cameras|
        invariant AllConsistent(cameras, bindings, retired) && applied + pending == i
        invariant forall j | i <= j < |cameras| :: Current(view, config, runtime, cameras[j].key, Aliases(cameras[j].key))
        invariant pending == 0 ==> forall j | 0 <= j < i :: Quiet(cameras[j], config, runtime, bindings, retired)
        invariant settled ==> calls == old(calls) && config == old(config) && runtime == old(runtime) && AllSettled(cameras)
                              && view.config == config && view.runtime == runtime
        invariant Elsewhere(old(config), config, Keys(cameras), AllAliases(cameras))
        invariant Same(old(retired), retired, Keys(cameras)) && retired.Keys <= old(retired).Keys
      {
        ghost var v0, c0, r0, b0, t0 := view, config, runtime, bindings, retired;
        var ok;
        ok, view := Visit(cameras[i], view, allowRestart, quirk);
        if ok {
          applied := applied + 1;
        } else {
          pending := pending + 1;
        }
        forall j | 0 <= j < |cameras| && j != i
          ensures Consistent(cameras[j], bindings, retired)
          ensures Current(v0, c0, r0, cameras[j].key, Aliases(cameras[j].key)) ==>
                    Current(view, config, runtime, cameras[j].key, Aliases(cameras[j].key))
          ensures Quiet(cameras[j], c0, r0, b0, t0) ==> Quiet(cameras[j], config, runtime, bindings, retired)
          ensures Settled(cameras[j], c0, r0, b0, t0) ==> Settled(cameras[j], config, runtime, bindings, retired)
        {
          Apart(cameras, i, j);
          OthersHold(cameras[j], cameras[i], v0, view, c0, r0, config, runtime, b0, bindings, t0, retired);
        }
        TouchesOwn(cameras, i, old(config), c0, r0, config, runtime, old(retired), t0, retired);
      }
    }

    /** The reconciler is a fixpoint: once nothing is pending and no enable is owed, no later run over the same
        cameras issues a configuration, runtime-stream or restart request, however often and in whatever mode
        it is called. */
    method ReconcileAgain(cameras: seq<Selected>, runs: seq<(bool, bool)>)
      requires Distinct(cameras) && AllConsistent(cameras, bindings, retired)
      requires AllQuiet(cameras) && NoneOwed(cameras, bindings)
      modifies `config, `runtime, `running, `bindings, `retired, `calls
      ensures calls == old(calls) && config == old(config) && runtime == old(runtime)
      ensures AllQuiet(cameras) && NoneOwed(cameras, bindings) && AllConsistent(cameras, bindings, retired)
    {
      assert AllSettled(cameras);
      hide Quiet, Consistent;
      for i := 0 to |runs|
        invariant AllSettled(cameras) && AllConsistent(cameras, bindings, retired)
        invariant calls == old(calls) && config == old(config) && runtime == old(runtime)
      {
        var _, _ := Reconcile(cameras, runs[i].0, runs[i].1);
      }
    }

    // ----- retirement

    /** `_retire_camera`. The first values seen are remembered before anything is written, and stay. */
    method Retire(key: string) returns (ok: bool)
      modifies `config, `running, `retired, `calls
      ensures Elsewhere(old(config), config, {key}, {})
      ensures retired == old(retired) || retired == Remembered(old(retired), key, At(old(config).cameras, key))
      ensures ok ==> key in retired && IsRetired(At(config.cameras, key))
    {
      hide Merge, IsRetired, RestoreOf;
      ElsewhereNothing(config, retired, {key}, {});
      ok := Ask();
      if !ok {
        return;
      }
      var saved := At(config.cameras, key);
      retired := Remembered(retired, key, saved);
      ghost var c0 := config;
      PutElsewhere(c0, config, key, Obj(map["record" := Obj(map["enabled" := Bool(false)])]));
      ok := PutCamera(key, Obj(map["record" := Obj(map["enabled" := Bool(false)])]));
      if !ok {
        return;
      }
      PutElsewhere(c0, config, key, Obj(map["enabled" := Bool(false), "ui" := Obj(map["dashboard" := Bool(false)])]));
      ok := PutCamera(key, Obj(map["enabled" := Bool(false), "ui" := Obj(map["dashboard" := Bool(false)])]));
      ok := ok && IsRetired(At(config.cameras, key));
    }

    /** Retire every stale camera, up to the first failure. */
    method RetireAll(stale: set<string>) returns (ok: bool)
      modifies `config, `running, `retired, `calls
      ensures Elsewhere(old(config), config, stale, {})
      ensures FirstSeen(old(retired), retired, old(config), stale)
      ensures ok ==> forall k | k in stale :: k in retired && IsRetired(At(config.cameras, k))
    {
      hide Elsewhere, IsRetired, RestoreOf, FirstSeen;
      var rest := stale;
      ok := true;
      ElsewhereNothing(config, retired, stale, {});
      FirstSeenNothing(retired, config, stale);
      while rest != {}
        invariant rest <= stale && Elsewhere(old(config), config, stale, {})
        invariant forall k | k in rest :: At(config.cameras, k) == At(old(config).cameras, k)
        invariant FirstSeen(old(retired), retired, old(config), stale)
        invariant forall k | k in stale - rest :: k in retired && IsRetired(At(config.cameras, k))
        decreases rest
      {
        var key :| key in rest;
        ghost var c0, t0 := config, retired;
        rest := rest - {key};
        ok := Retire(key);
        ElsewhereMore(old(config), c0, config, stale, {}, key);
        FirstSeenMore(old(retired), t0, retired, old(config), stale, key, At(c0.cameras, key));
        forall k | k in stale && k != key ensures At(config.cameras, k) == At(c0.cameras, k) {
          ElsewhereAt(c0, config, key, k);
        }
        KeepsMembers(t0, retired, key, At(c0.cameras, key));
        if !ok {
          return;
        }
      }
    }

    // ----- full sync

    /** The saved configuration of the streams loses the stale ones, and this is checked. */
    method DropStreams(stale: set<string>) returns (ok: bool)
      modifies `config, `calls
      ensures Elsewhere(old(config), config, {}, stale)
      ensures ok ==> stale !! config.streams.Keys
    {
      hide Merge;
      DeleteElsewhere(config, stale);
      ElsewhereNothing(config, map[], {}, stale);
      if stale == {} {
        return true;
      }
      ok := PutStreams(map a | a in stale :: DELETE);
      if ok {
        ok := stale !! config.streams.Keys;
      }
    }

    /** Running streams are deleted one by one; errors count only if a stream is still there at the end. */
    method DropRuntime(stale: set<string>) returns (ok: bool)
      modifies `runtime, `calls
      ensures runtime <= old(runtime) && old(runtime) - stale <= runtime
      ensures ok ==> stale !! runtime
    {
      var rest := stale * runtime;
      while rest != {}
        invariant rest <= stale && runtime <= old(runtime) && old(runtime) - stale <= runtime
        decreases rest
      {
        var alias :| alias in rest;
        rest := rest - {alias};
        var _ := DeleteRuntime(alias);
      }
      ok := stale !! runtime;
    }

    /** `full_sync_frigate`, up to the reconciliation. */
    method Clean(desiredCameras: set<string>, desiredStreams: set<string>) returns (ok: bool, restartRecommended: bool)
      modifies `config, `runtime, `running, `retired, `calls
      ensures OwnOnly(old(config), config, desiredCameras, desiredStreams)
      ensures FirstSeen(old(retired), retired, old(config), old(config).cameras.Keys - desiredCameras)
      ensures ok ==> (forall k :: !StaleCamera(k, config, retired, desiredCameras)) && forall a :: !StaleStream(a, config, desiredStreams)
      ensures ok && !restartRecommended ==> forall a | a in runtime && Owned(a) :: a in desiredStreams
    {
      hide Elsewhere, IsRetired, FirstSeen, OwnOnly;
      var staleCameras := set k | k in config.cameras && StaleCamera(k, config, retired, desiredCameras);
      var staleStreams := set a | a in config.streams && StaleStream(a, config, desiredStreams);
      var staleRuntime := set a | a in runtime && Owned(a) && a !in desiredStreams;
      var staleWorkers := set k | k in running && Owned(k) && k !in desiredCameras && !IsRetired(At(config.cameras, k));
      restartRecommended := staleCameras != {} || staleWorkers != {};
      ghost var c0 := config;
      ok := RetireAll(staleCameras);
      ghost var c1 := config;
      OwnRetired(c0, c1, staleCameras, desiredCameras, desiredStreams);
      FirstSeenWider(old(retired), retired, c0, staleCameras, c0.cameras.Keys - desiredCameras);
      if !ok {
        return;
      }
      ok := DropStreams(staleStreams);
      OwnDropped(c0, c1, config, staleStreams, desiredCameras, desiredStreams);
      if !ok {
        return;
      }
      if !restartRecommended {
        ok := DropRuntime(staleStreams + staleRuntime);
        if !ok {
          return;
        }
      }
      // the final check reads everything again
      var cameras := set k | k in config.cameras && StaleCamera(k, config, retired, desiredCameras);
      var streams := set a | a in config.streams && StaleStream(a, config, desiredStreams);
      ok := cameras == {} && streams == {};
      if ok {
        forall k ensures !StaleCamera(k, config, retired, desiredCameras) {
          assert k !in cameras;
        }
        forall a ensures !StaleStream(a, config, desiredStreams) {
          assert a !in streams;
        }
      }
    }

    /** `full_sync_frigate`. Only owned names and the selected cameras are touched. Afterwards no undesired owned
        alias is saved, and every undesired owned camera is retired with the values first seen. */
    method FullSync(cameras: seq<Selected>, desiredCameras: set<string>, desiredStreams: set<string>, quirk: bool)
      returns (result: Result<nat>)
      requires Distinct(cameras) && AllConsistent(cameras, bindings, retired)
      requires Keys(cameras) <= desiredCameras && AllAliases(cameras) <= desiredStreams
      modifies `config, `runtime, `running, `bindings, `retired, `calls
      ensures forall k | !Owned(k) || (k in desiredCameras && k !in Keys(cameras)) ::
                (k in config.cameras <==> k in old(config).cameras) && (k in config.cameras ==> config.cameras[k] == old(config).cameras[k])
      ensures forall a | !Owned(a) || (a in desiredStreams && a !in AllAliases(cameras)) ::
                (a in config.streams <==> a in old(config).streams) && (a in config.streams ==> config.streams[a] == old(config).streams[a])
      ensures forall k | k in old(retired) && k !in Keys(cameras) :: k in retired && retired[k] == old(retired)[k]
      ensures forall k | k in retired && k !in old(retired) :: retired[k] == RestoreOf(At(old(config).cameras, k))
      ensures result.Ok? ==> (forall k :: !StaleCamera(k, config, retired, desiredCameras)) && forall a :: !StaleStream(a, config, desiredStreams)
    {
      hide AllConsistent, Elsewhere, Distinct, IsRetired, FirstSeen, OwnOnly, Same, AllQuiet, AllSettled, RestoreOf, Keys, AllAliases,
        StaleCamera, StaleStream;
      ghost var c0, t0 := config, retired;
      var cleaned, restartRecommended := Clean(desiredCameras, desiredStreams);
      ghost var c1, t1 := config, retired;
      if !cleaned {
        KeysAreOwned(cameras);
        SyncFrame(c0, c1, c1, t0, t1, t1, cameras, desiredCameras, desiredStreams);
        return Err("cleanup_failed");
      }
      StillConsistent(cameras, bindings, t0, retired, c0, desiredCameras);
      var applied, pending := Reconcile(cameras, !restartRecommended, quirk);
      KeysAreOwned(cameras);
      SyncFrame(c0, c1, config, t0, t1, retired, cameras, desiredCameras, desiredStreams);
      StaysClean(c1, t1, config, retired, cameras, desiredCameras, desiredStreams);
      return Ok(pending);
    }

    /** `remove_frigate_camera`. Success leaves none of the camera's aliases and no entry that is not retired;
        whatever happens, only its own owned names are touched. */
    method RemoveCamera(uuid: string, imported: map<string, string>) returns (result: Result<()>)
      modifies `config, `runtime, `running, `bindings, `retired, `calls
      ensures result.Ok? ==> uuid !in bindings
      ensures result.Ok? && uuid in old(bindings) ==>
                var key := old(bindings)[uuid].key;
                Aliases(key) !! config.streams.Keys && (key in config.cameras ==> key in retired && IsRetired(config.cameras[key]))
      ensures uuid !in old(bindings) ==> config == old(config) && runtime == old(runtime)
      ensures uuid in old(bindings) ==>
                var key := old(bindings)[uuid].key;
                && Elsewhere(old(config), config, {key}, Aliases(key))
                && (!Owned(key) || (key in imported && imported[key] == uuid) ==> config == old(config) && result.Err?)
                && FirstSeen(old(retired), retired, old(config), {key})
      ensures SameBindings(old(bindings), bindings, uuid)
    {
      hide IsRetired, Aliases, RestoreOf;
      if uuid !in bindings {
        return Ok(());
      }
      var key := bindings[uuid].key;
      ElsewhereNothing(config, retired, {key}, Aliases(key));
      FirstSeenNothing(retired, config, {key});
      if key in imported && imported[key] == uuid {
        return Err("import_restore_required");
      }
      if !Owned(key) {
        return Err("ownership_verification_failed");
      }
      var erased := Erase(key);
      if !erased {
        return Err("cleanup_failed");
      }
      bindings := bindings - {uuid};
      return Ok(());
    }

    /** Retire the entry, delete its aliases, and read everything again to check. */
    method Erase(key: string) returns (ok: bool)
      modifies `config, `runtime, `running, `retired, `calls
      ensures Elsewhere(old(config), config, {key}, Aliases(key)) && FirstSeen(old(retired), retired, old(config), {key})
      ensures ok ==> Aliases(key) !! config.streams.Keys && (key in config.cameras ==> key in retired && IsRetired(config.cameras[key]))
      ensures ok && key !in old(config).cameras && key !in old(running) ==> Aliases(key) !! runtime
    {
      hide IsRetired, Aliases, RestoreOf, Elsewhere, FirstSeen, Merge;
      ElsewhereNothing(config, retired, {key}, Aliases(key));
      FirstSeenNothing(retired, config, {key});
      var aliases := Aliases(key);
      var configured := set a | a in aliases && a in config.streams;
      var live := set a | a in aliases && a in runtime;
      var cameraExists := key in config.cameras;
      var restartRecommended := cameraExists || key in running;
      ghost var c0 := config;
      if cameraExists {
        ghost var t0 := retired;
        ok := Retire(key);
        FirstSeenMore(t0, t0, retired, c0, {key}, key, At(c0.cameras, key));
        ElsewhereWider(c0, config, {key}, {}, {key}, aliases);
        if !ok {
          return;
        }
      }
      ghost var c1 := config;
      ok := DropStreams(configured);
      ElsewhereJoined(c0, c1, config, key, aliases, configured);
      if !ok {
        return;
      }
      if !restartRecommended {
        ok := DropRuntime(live);
        if !ok {
          return;
        }
      }
      ok := aliases !! config.streams.Keys && (key in config.cameras ==> cameraExists && IsRetired(config.cameras[key]));
    }
  }
}
