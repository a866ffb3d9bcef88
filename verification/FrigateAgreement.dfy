/** Whether the entry that the reconciler writes is one that its own comparison accepts. */
module FrigateAgreement {
  import opened Common
  import opened FrigateConfig
  import opened FrigateState
  import opened FrigateSync

  /** The streams that carry the roles of a camera, and what its entry shows. */
  datatype Roles = Roles(name: string, record: string, detect: string, width: nat, height: nat)

  function RelayPath(alias: string): Json {
    Media(Source(false, None, false, Link(Url("rtsp", "127.0.0.1", Some(8554), alias, "", "", "", "", false))))
  }

  function Input(alias: string, roles: seq<Json>): Json {
    Obj(map["path" := RelayPath(alias), "input_args" := Text("preset-rtsp-restream"), "roles" := List(roles)])
  }

  /** One input for both roles if one stream carries both. */
  function InputsFor(key: string, roles: Roles): Json {
    if roles.record == roles.detect then List([Input(key + "_record", [Text("record"), Text("detect")])])
    else List([Input(key + "_record", [Text("record")]), Input(key + "_detect", [Text("detect")])])
  }

  function LiveFor(key: string): Json {
    Obj(map["Record" := Text(key + "_record"), "Detect" := Text(key + "_detect")])
  }

  /** The entry that `desired_camera` asks for. */
  function EntryFor(key: string, roles: Roles): (entry: Json)
    ensures entry.Obj?
  {
    Obj(map[
      "enabled" := Bool(true),
      "friendly_name" := Text(roles.name),
      "ffmpeg" := Obj(map["inputs" := InputsFor(key, roles)]),
      "detect" := Obj(map["width" := Num(roles.width), "height" := Num(roles.height)]),
      "live" := Obj(map["streams" := LiveFor(key)])])
  }

  /** Every live stream name of the saved entry is one that CamAdmiral writes. */
  predicate OnlyOwnLive(saved: Json) {
    var streams := Field(Field(saved, "live"), "streams");
    streams.Obj? ==> streams.fields.Keys <= {"Record", "Detect"}
  }

  // ----- fields of a merge

  /** Merging two text values into a mapping gives exactly those two if and only if nothing else was there. */
  lemma MergeTexts(current: Json, update: Json)
    requires current.Obj? && update.Obj? && forall k | k in update.fields :: update.fields[k].Text? && update.fields[k] != DELETE
    ensures Merge(current, update) == update <==> current.fields.Keys <= update.fields.Keys
  {
    assert Clean(update);
    MergeLeavesUpdateIffCovered(current, update);
  }

  // ----- the parts of an entry

  lemma UpdateParts(key: string, roles: Roles, saved: Json, restore: Option<Json>)
    requires roles.name != "" && (restore.Some? ==> restore.value.Obj? && restore.value.fields.Keys <= {"record", "ui"})
    ensures var update := UpdateFor(EntryFor(key, roles), true, saved, restore).fields;
            && "friendly_name" in update && update["friendly_name"] == Text(roles.name)
            && "ffmpeg" in update && update["ffmpeg"] == Obj(map["inputs" := InputsFor(key, roles)])
            && "live" in update && update["live"] == Obj(map["streams" := LiveFor(key)])
            && "detect" in update
            && update["detect"] == Obj(
                 if Field(saved, "detect").Obj? && "fps" in Field(saved, "detect").fields
                 then map["width" := Num(roles.width), "height" := Num(roles.height), "fps" := DELETE]
                 else map["width" := Num(roles.width), "height" := Num(roles.height)])
  {
    hide InputsFor, LiveFor;
  }

  lemma DetectAgrees(saved: Json, width: int, height: int)
    ensures var update := Obj(if saved.Obj? && "fps" in saved.fields
                              then map["width" := Num(width), "height" := Num(height), "fps" := DELETE]
                              else map["width" := Num(width), "height" := Num(height)]);
            var after := if saved.Obj? then Merge(saved, update) else update;
            && after.Obj? && "fps" !in after.fields
            && Field(after, "width") == Num(width) && Field(after, "height") == Num(height)
  {
  }

  lemma LiveAgrees(saved: Json, key: string)
    ensures var update := Obj(map["streams" := LiveFor(key)]);
            var after := if saved.Obj? then Merge(saved, update) else update;
            && after.Obj?
            && (Field(after, "streams") == LiveFor(key) <==>
                  (Field(saved, "streams").Obj? ==> Field(saved, "streams").fields.Keys <= {"Record", "Detect"}))
  {
    var update := Obj(map["streams" := LiveFor(key)]);
    assert LiveFor(key) != DELETE;
    if saved.Obj? {
      hide Merge;
      MergeField(saved, update, "streams");
      if Field(saved, "streams").Obj? {
        assert key + "_record" != "" && key + "_detect" != "";
        MergeTexts(Field(saved, "streams"), LiveFor(key));
      }
    }
  }

  lemma InputsAgree(saved: Json, inputs: Json)
    requires inputs.List?
    ensures var update := Obj(map["inputs" := inputs]);
            var after := if saved.Obj? then Merge(saved, update) else update;
            Field(after, "inputs") == inputs
  {
    if saved.Obj? {
      MergeField(saved, Obj(map["inputs" := inputs]), "inputs");
    }
  }

  /** The comparison of an entry looks at four parts. */
  lemma EntryMatchesParts(actual: Json, key: string, roles: Roles)
    requires actual.Obj? && Field(actual, "friendly_name") == Text(roles.name)
    requires Field(actual, "detect").Obj? && "fps" !in Field(actual, "detect").fields
    requires Field(Field(actual, "detect"), "width") == Num(roles.width) && Field(Field(actual, "detect"), "height") == Num(roles.height)
    requires Field(actual, "live").Obj? && Field(Field(actual, "ffmpeg"), "inputs") == InputsFor(key, roles)
    ensures EntryMatches(actual, EntryFor(key, roles)) <==> Field(Field(actual, "live"), "streams") == LiveFor(key)
  {
    hide Paths, InputsFor, LiveFor;
  }

  /** What the reconciler writes over a saved entry passes its own comparison if and only if the saved entry
      shows no live stream under another name; otherwise the camera stays pending however often it is tried. */
  lemma WrittenEntryAgreesIff(saved: Json, key: string, roles: Roles, restore: Option<Json>)
    requires saved.Obj? && roles.name != ""
    requires restore.Some? ==> restore.value.Obj? && restore.value.fields.Keys <= {"record", "ui"}
    ensures EntryMatches(Merge(saved, UpdateFor(EntryFor(key, roles), true, saved, restore)), EntryFor(key, roles)) <==> OnlyOwnLive(saved)
  {
    var update := UpdateFor(EntryFor(key, roles), true, saved, restore);
    var after := Merge(saved, update);
    UpdateParts(key, roles, saved, restore);
    hide Merge, UpdateFor, InputsFor, LiveFor, EntryMatches, EntryFor;
    MergeField(saved, update, "friendly_name");
    MergeField(saved, update, "ffmpeg");
    MergeField(saved, update, "detect");
    MergeField(saved, update, "live");
    assert InputsFor(key, roles).List? by { InputsAreList(key, roles); }
    InputsAgree(Field(saved, "ffmpeg"), InputsFor(key, roles));
    DetectAgrees(Field(saved, "detect"), roles.width, roles.height);
    LiveAgrees(Field(saved, "live"), key);
    EntryMatchesParts(after, key, roles);
  }

  lemma InputsAreList(key: string, roles: Roles)
    ensures InputsFor(key, roles).List?
  {
  }

  /** A new entry always agrees. */
  lemma NewEntryAgrees(key: string, roles: Roles)
    ensures EntryMatches(UpdateFor(EntryFor(key, roles), false, Null, None), EntryFor(key, roles))
  {
    EntryMatchesParts(EntryFor(key, roles), key, roles);
    hide EntryMatches;
  }

  /** The entry after the reconciler wrote it again and again. */
  function After(saved: Json, key: string, roles: Roles, attempts: nat): (after: Json)
    requires saved.Obj?
    ensures after.Obj?
  {
    if attempts == 0 then saved
    else
      var before := After(saved, key, roles, attempts - 1);
      Merge(before, UpdateFor(EntryFor(key, roles), true, before, None))
  }

  /** A live stream of another name never goes away: no number of attempts makes the written entry pass the
      comparison, and so the camera never settles. */
  lemma {:induction false} ForeignLiveNeverSettles(saved: Json, key: string, roles: Roles, attempts: nat)
    requires saved.Obj? && roles.name != "" && !OnlyOwnLive(saved)
    ensures !OnlyOwnLive(After(saved, key, roles, attempts))
    ensures attempts > 0 ==> !EntryMatches(After(saved, key, roles, attempts), EntryFor(key, roles))
  {
    hide UpdateFor, EntryFor, EntryMatches, Merge, OnlyOwnLive;
    if attempts > 0 {
      ForeignLiveNeverSettles(saved, key, roles, attempts - 1);
      ForeignLiveStays(After(saved, key, roles, attempts - 1), key, roles);
    }
  }

  lemma ForeignLiveStays(saved: Json, key: string, roles: Roles)
    requires saved.Obj? && roles.name != "" && !OnlyOwnLive(saved)
    ensures var after := Merge(saved, UpdateFor(EntryFor(key, roles), true, saved, None));
            !OnlyOwnLive(after) && !EntryMatches(after, EntryFor(key, roles))
  {
    WrittenEntryAgreesIff(saved, key, roles, None);
    UpdateParts(key, roles, saved, None);
    LiveIsMapping(key);
    hide UpdateFor, EntryFor, EntryMatches, Merge, LiveFor;
    var update := UpdateFor(EntryFor(key, roles), true, saved, None);
    var live := Field(saved, "live");
    var streams := Field(live, "streams");
    var name :| name in streams.fields && name !in {"Record", "Detect"};
    MergeField(saved, update, "live");
    MergeField(live, Obj(map["streams" := LiveFor(key)]), "streams");
    NameStays(streams, key, name);
  }

  lemma LiveIsMapping(key: string)
    ensures LiveFor(key).Obj? && Obj(map["streams" := LiveFor(key)]) != DELETE
  {
  }

  lemma NameStays(streams: Json, key: string, name: string)
    requires streams.Obj? && name in streams.fields && name !in {"Record", "Detect"}
    ensures name in Merge(streams, LiveFor(key)).fields
  {
  }
}
