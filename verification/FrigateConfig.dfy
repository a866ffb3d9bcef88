/** Saved Frigate configuration and the mapping merge behind `PUT /api/config/set`. */
module FrigateConfig {
  import opened Common

  /** RFC 3986 section 3 components of a source URL, already parsed. `secretText` says whether the
      path or the query carries a credential pattern that the importer refuses. */
  datatype Url = Url(
    scheme: string, host: string, port: Option<nat>, path: string, query: string,
    fragment: string, username: string, password: string, secretText: bool)

  /** What a go2rtc source string points at, once an `ffmpeg:` prefix and its options are removed. */
  datatype Target = Name(name: string) | Link(url: Url)

  /** A go2rtc source string: `templated` says that braces remain in it. */
  datatype Source = Source(ffmpeg: bool, options: Option<string>, templated: bool, target: Target)

  /** A value of the YAML configuration. Strings that name media are kept parsed, as `Media`. */
  datatype Json =
    | Null
    | Bool(b: bool)
    | Num(n: int)
    | Text(s: string)
    | Media(source: Source)
    | List(items: seq<Json>)
    | Obj(fields: map<string, Json>)

  /** The saved configuration of Frigate: camera entries and go2rtc stream aliases. */
  datatype Config = Config(cameras: map<string, Json>, streams: map<string, Json>)

  /** In a merge update, the empty string deletes a key. */
  const DELETE := Text("")

  /** Python's `mapping.get(key)`. */
  function At(m: map<string, Json>, key: string): Json {
    if key in m then m[key] else Null
  }

  /** The recursive mapping merge: mappings merge, lists and scalars are replaced, `DELETE` removes. */
  function Merge(current: Json, update: Json): (r: Json)
    requires current.Obj? && update.Obj?
    ensures r.Obj?
    decreases update
  {
    Obj(map k | k in current.fields.Keys + update.fields.Keys && !(k in update.fields && update.fields[k] == DELETE) ::
          if k !in update.fields then current.fields[k]
          else if k in current.fields && current.fields[k].Obj? && update.fields[k].Obj? then
            Merge(current.fields[k], update.fields[k])
          else update.fields[k])
  }

  /** Frigate refuses to delete a key that is not there, at any depth. */
  predicate Rejects(current: Json, update: Json)
    requires update.Obj?
    decreases update
  {
    var present := if current.Obj? then current.fields else map[];
    exists k | k in update.fields ::
      || (update.fields[k] == DELETE && k !in present)
      || (update.fields[k].Obj? && Rejects(At(present, k), update.fields[k]))
  }

  /** No mapping inside holds an empty string, so merging the value deletes nothing. */
  predicate Clean(j: Json) {
    j.Obj? ==> forall k | k in j.fields :: j.fields[k] != DELETE && Clean(j.fields[k])
  }

  /** Every mapping key of `current` is also given by `update`, level by level. */
  predicate Covered(current: Json, update: Json)
    requires current.Obj? && update.Obj?
    decreases current
  {
    forall k | k in current.fields ::
      && k in update.fields
      && (current.fields[k].Obj? && update.fields[k].Obj? ==> Covered(current.fields[k], update.fields[k]))
  }

  lemma {:induction false} CleanIsNeverRejected(current: Json, update: Json)
    requires update.Obj? && Clean(update)
    ensures !Rejects(current, update)
    decreases update
  {
    var present := if current.Obj? then current.fields else map[];
    forall k | k in update.fields && update.fields[k].Obj?
      ensures !Rejects(At(present, k), update.fields[k])
    {
      CleanIsNeverRejected(At(present, k), update.fields[k]);
    }
  }

  /** Writing a clean mapping leaves exactly that mapping if and only if it covers what was saved. */
  lemma {:induction false} MergeLeavesUpdateIffCovered(current: Json, update: Json)
    requires current.Obj? && update.Obj? && Clean(update)
    ensures Merge(current, update) == update <==> Covered(current, update)
    decreases update
  {
    var merged := Merge(current, update).fields;
    assert merged.Keys == current.fields.Keys + update.fields.Keys;
    forall k | k in current.fields && k in update.fields && current.fields[k].Obj? && update.fields[k].Obj?
      ensures merged[k] == update.fields[k] <==> Covered(current.fields[k], update.fields[k])
    {
      MergeLeavesUpdateIffCovered(current.fields[k], update.fields[k]);
    }
    if Merge(current, update) == update {
      assert current.fields.Keys <= update.fields.Keys;
      assert forall k | k in current.fields :: merged[k] == update.fields[k];
    }
    if Covered(current, update) {
      assert merged.Keys == update.fields.Keys;
      assert merged == update.fields;
    }
  }

  lemma {:induction false} CoversItself(j: Json)
    requires j.Obj?
    ensures Covered(j, j)
  {
    forall k | k in j.fields && j.fields[k].Obj? ensures Covered(j.fields[k], j.fields[k]) {
      CoversItself(j.fields[k]);
    }
  }

  /** Saving a mapping over itself is harmless exactly when it holds no empty string. */
  lemma {:induction false} RewriteIsHarmlessIffClean(j: Json)
    requires j.Obj?
    ensures Merge(j, j) == j <==> Clean(j)
  {
    var merged := Merge(j, j).fields;
    forall k | k in j.fields && j.fields[k].Obj?
      ensures Merge(j.fields[k], j.fields[k]) == j.fields[k] <==> Clean(j.fields[k])
    {
      RewriteIsHarmlessIffClean(j.fields[k]);
    }
    if Clean(j) {
      assert merged == j.fields;
    }
    if Merge(j, j) == j {
      forall k | k in j.fields ensures j.fields[k] != DELETE && Clean(j.fields[k]) {
        assert k in merged && merged[k] == j.fields[k];
      }
    }
  }
}
