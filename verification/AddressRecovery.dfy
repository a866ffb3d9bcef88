/** `recover_inventory_addresses`: move the saved sources of cameras that were found at a new address, all of
    them or none. */
module AddressRecovery {
  import opened Common
  import opened FrigateConfig

  const FAST_RETRY := 10
  const FAST_RETRIES := 4

  datatype Kind = Onvif | Manual | Catalog
  datatype StreamId = StreamId(camera: string, token: string)
  datatype Stream = Stream(kind: Kind, enabled: bool, source: Option<Url>)
  type Table = map<StreamId, Stream>
  type Sources = map<StreamId, Url>

  datatype Candidate = Candidate(address: string, endpoint: string, mac: string, online: bool, conflict: bool)

  /** What the inventory and an ONVIF inspection say about the camera of one adoption. */
  datatype Sighting = Sighting(camera: string, candidate: Option<Candidate>, credentials: bool,
                               profiles: Result<map<string, Url>>)

  datatype Plan = Plan(camera: string, address: string, updates: map<string, Url>, previous: map<string, Url>)

  datatype Status = Desired | Applied | Failed
  datatype Revision = Revision(sources: Sources, status: Status)

  /** Raised: a repository call failed while the batch was being undone or completed. */
  datatype Outcome = Idle | Recovered | RolledBack | Raised

  // ----- the new source of a stream

  /** `_replace_host`: user information, a fragment and port 0 are dropped on the way. */
  function ReplaceHost(url: Url, address: string): Url {
    url.(host := address, username := "", password := "", fragment := "",
         port := if url.port == Some(0) then None else url.port)
  }

  /** Replacing the host back is no way to undo a move: it works exactly for plain sources. */
  lemma ReplacedBack(url: Url, address: string)
    ensures ReplaceHost(ReplaceHost(url, address), url.host) == url <==>
            url.username == "" && url.password == "" && url.fragment == "" && url.port != Some(0)
    ensures ReplaceHost(url, address).scheme == url.scheme && ReplaceHost(url, address).path == url.path
            && ReplaceHost(url, address).query == url.query
  {
  }

  // ----- what a batch does to the table

  /** `update_profile_sources` on a known camera. */
  function Written(table: Table, camera: string, sources: map<string, Url>): Table {
    map id | id in table ::
      if id.camera == camera && id.token in sources then table[id].(source := Some(sources[id.token])) else table[id]
  }

  /** The saved sources of a camera. */
  function Prior(table: Table, camera: string): map<string, Url> {
    map id | id in table && id.camera == camera && table[id].source.Some? :: id.token := table[id].source.value
  }

  predicate HasSource(table: Table, id: StreamId) {
    id in table && table[id].source.Some?
  }

  predicate Planned(plans: seq<Plan>, camera: string) {
    exists p | p in plans :: p.camera == camera
  }

  /** The stream as the plans leave it. */
  ghost function Moved(plans: seq<Plan>, id: StreamId, stream: Stream): Stream {
    if plans == [] then stream
    else
      var last := plans[|plans| - 1];
      if last.camera == id.camera then
        if id.token in last.updates then stream.(source := Some(last.updates[id.token])) else stream
      else Moved(plans[..|plans| - 1], id, stream)
  }

  /** The first `undone` plans were undone again: what had a saved source got it back. */
  ghost function Mixed(table: Table, plans: seq<Plan>, undone: nat): Table
    requires undone <= |plans|
  {
    map id | id in table ::
      if Planned(plans[..undone], id.camera) && table[id].source.Some? then table[id] else Moved(plans, id, table[id])
  }

  ghost predicate Distinct(plans: seq<Plan>) {
    forall i, j | 0 <= i < j < |plans| :: plans[i].camera != plans[j].camera
  }

  /** The plan was made from this table. */
  ghost predicate Made(plan: Plan, table: Table) {
    && (forall token | token in plan.updates :: StreamId(plan.camera, token) in table)
    && plan.previous == Prior(table, plan.camera)
  }

  lemma {:induction false} MovedOnce(plans: seq<Plan>, k: nat, id: StreamId, stream: Stream)
    requires Distinct(plans) && k < |plans| && plans[k].camera == id.camera
    ensures Moved(plans, id, stream) ==
            if id.token in plans[k].updates then stream.(source := Some(plans[k].updates[id.token])) else stream
  {
    if k + 1 < |plans| {
      MovedOnce(plans[..|plans| - 1], k, id, stream);
    }
  }

  lemma {:induction false} NotMoved(plans: seq<Plan>, id: StreamId, stream: Stream)
    requires !Planned(plans, id.camera)
    ensures Moved(plans, id, stream) == stream
  {
    if plans != [] {
      assert plans[|plans| - 1] in plans;
      forall p | p in plans[..|plans| - 1] ensures p.camera != id.camera {
        assert p in plans;
      }
      NotMoved(plans[..|plans| - 1], id, stream);
    }
  }

  /** One more plan is written. */
  lemma WriteOne(table: Table, plans: seq<Plan>, k: nat)
    requires Distinct(plans) && k < |plans|
    ensures Written(Mixed(table, plans[..k], 0), plans[k].camera, plans[k].updates) == Mixed(table, plans[..k + 1], 0)
  {
    assert plans[..k + 1][..k] == plans[..k];
    forall id | id in table
      ensures Written(Mixed(table, plans[..k], 0), plans[k].camera, plans[k].updates)[id] == Mixed(table, plans[..k + 1], 0)[id]
    {
      if id.camera == plans[k].camera {
        NotMoved(plans[..k], id, table[id]);
      }
    }
  }

  /** One more plan is undone. */
  lemma UndoOne(table: Table, plans: seq<Plan>, k: nat)
    requires Distinct(plans) && k < |plans| && Made(plans[k], table)
    ensures Written(Mixed(table, plans, k), plans[k].camera, plans[k].previous) == Mixed(table, plans, k + 1)
  {
    var before, after := Mixed(table, plans, k), Mixed(table, plans, k + 1);
    forall id | id in table ensures Written(before, plans[k].camera, plans[k].previous)[id] == after[id] {
      PlannedOneMore(plans, k, id.camera);
      if id.camera == plans[k].camera {
        MovedOnce(plans, k, id, table[id]);
      }
    }
  }

  lemma PlannedOneMore(plans: seq<Plan>, k: nat, camera: string)
    requires k < |plans|
    ensures Planned(plans[..k + 1], camera) <==> Planned(plans[..k], camera) || plans[k].camera == camera
  {
    assert plans[..k + 1] == plans[..k] + [plans[k]];
  }

  lemma NothingWritten(table: Table, plans: seq<Plan>)
    ensures Mixed(table, plans[..0], 0) == table
  {
  }

  /** Every stream that the plans move has a saved source. */
  ghost predicate AllHadSources(plans: seq<Plan>, table: Table) {
    forall p, token | p in plans && token in p.updates :: HasSource(table, StreamId(p.camera, token))
  }

  /** Undoing a whole batch is exact if and only if every stream that the batch moved had a saved source. */
  lemma UndoneIsExactIff(table: Table, plans: seq<Plan>)
    requires Distinct(plans) && forall p | p in plans :: Made(p, table)
    ensures Mixed(table, plans, |plans|) == table <==>
            AllHadSources(plans, table)
  {
    assert plans[..|plans|] == plans;
    forall id | id in table
      ensures Mixed(table, plans, |plans|)[id] == table[id] <==>
              table[id].source.Some? || !exists p :: p in plans && p.camera == id.camera && id.token in p.updates
    {
      if Planned(plans, id.camera) {
        var k :| 0 <= k < |plans| && plans[k].camera == id.camera;
        MovedOnce(plans, k, id, table[id]);
        forall p | p in plans && p.camera == id.camera ensures p == plans[k] {
          var j :| 0 <= j < |plans| && plans[j] == p;
        }
      } else {
        NotMoved(plans, id, table[id]);
      }
    }
    if Mixed(table, plans, |plans|) == table {
      forall p, token | p in plans && token in p.updates ensures HasSource(table, StreamId(p.camera, token)) {
        assert Made(p, table);
        assert Mixed(table, plans, |plans|)[StreamId(p.camera, token)] == table[StreamId(p.camera, token)];
      }
    }
  }

  /** At every point of undoing, the streams of one camera are all as moved or all as undone. */
  lemma CamerasStayWhole(table: Table, plans: seq<Plan>, undone: nat, camera: string)
    requires undone <= |plans|
    ensures (forall id | id in table && id.camera == camera ::
               Mixed(table, plans, undone)[id] == Mixed(table, plans, 0)[id])
            || (forall id | id in table && id.camera == camera ::
                  Mixed(table, plans, undone)[id] == Mixed(table, plans, |plans|)[id])
  {
    assert plans[..|plans|] == plans;
    if Planned(plans[..undone], camera) {
      var p :| p in plans[..undone] && p.camera == camera;
      assert p in plans;
    }
  }

  // ----- the rows of the media revisions

  /** The newest revision that was applied. */
  ghost function LastGood(revisions: seq<Revision>): Option<Sources> {
    if revisions == [] then None
    else if revisions[|revisions| - 1].status == Applied then Some(revisions[|revisions| - 1].sources)
    else LastGood(revisions[..|revisions| - 1])
  }

  lemma {:induction false} LastGoodIgnores(revisions: seq<Revision>, revision: Revision)
    ensures revision.status != Applied ==> LastGood(revisions + [revision]) == LastGood(revisions)
    ensures revision.status == Applied ==> LastGood(revisions + [revision]) == Some(revision.sources)
  {
    assert (revisions + [revision])[..|revisions|] == revisions;
  }

  lemma Completed(revisions: seq<Revision>, status: Status)
    requires revisions != [] && revisions[|revisions| - 1].status == Desired && status != Desired
    ensures var last := |revisions| - 1;
            LastGood(revisions[last := revisions[last].(status := status)]) ==
            if status == Applied then Some(revisions[last].sources) else LastGood(revisions[..last])
  {
    var last := |revisions| - 1;
    assert revisions[last := revisions[last].(status := status)][..last] == revisions[..last];
  }

  lemma AlreadyApplied(revisions: seq<Revision>)
    requires revisions != [] && revisions[|revisions| - 1].status == Applied
    ensures LastGood(revisions) == Some(revisions[|revisions| - 1].sources)
  {
  }

  function CountOf(attemptCounts: map<(string, string), nat>, camera: string, address: string): nat {
    if (camera, address) in attemptCounts then attemptCounts[(camera, address)] else 0
  }

  /** The last attempt for the camera at the address is ten seconds old, or `slow` seconds after five attempts. */
  predicate Due(attemptedAt: map<(string, string), int>, attemptCounts: map<(string, string), nat>, camera: string, address: string,
                now: int, slow: int)
  {
    (camera, address) in attemptedAt ==>
      now - attemptedAt[(camera, address)] >=
        if CountOf(attemptCounts, camera, address) <= FAST_RETRIES then FAST_RETRY else slow
  }

  /** A device that is online under an unshared identity. */
  predicate Trusted(c: Candidate) {
    c.online && !c.conflict && (c.endpoint != "" || c.mac != "") && c.address != ""
  }

  /** Where the enabled sources of a camera are. */
  function Hosts(table: Table, camera: string): set<string> {
    (set id | id in StreamsOf(table, camera, true) && table[id].source.Some? :: table[id].source.value.host) - {""}
  }

  /** All enabled sources of the camera are at one other address. */
  ghost predicate HasMoved(table: Table, camera: string, address: string) {
    exists host :: Hosts(table, camera) == {host} && host != address
  }

  /** The sources that the streams of a camera would have at the address: what ONVIF reports, or, entered by hand,
      the old ones with the host replaced. */
  function NewSources(table: Table, sighting: Sighting, address: string): Result<map<string, Url>> {
    var streams := StreamsOf(table, sighting.camera, false);
    var tokens := set id | id in streams :: id.token;
    var enabledTokens := set id | id in streams && table[id].enabled :: id.token;
    var kinds := set id | id in streams :: table[id].kind;
    if kinds == {Onvif} then
      if sighting.profiles.Err? then Err("inspection_failed") else
      var discovered := sighting.profiles.value;
      if enabledTokens == {} || !(enabledTokens <= discovered.Keys) then Err("profiles_changed") else
      var updates := map token | token in discovered && token in tokens :: discovered[token];
      if exists token | token in updates :: updates[token].host != address then Err("endpoint_mismatch") else Ok(updates)
    else if kinds <= {Manual, Catalog} then
      Ok(map id | id in streams && table[id].source.Some? :: id.token := ReplaceHost(table[id].source.value, address))
    else Err("mixed_sources")
  }

  /** The camera of the sighting was found, for certain, at another address than its sources. */
  ghost predicate FoundElsewhere(sighting: Sighting, table: Table, cameraEnabled: map<string, bool>) {
    && sighting.camera in cameraEnabled && cameraEnabled[sighting.camera]
    && sighting.candidate.Some? && Trusted(sighting.candidate.value)
    && HasMoved(table, sighting.camera, sighting.candidate.value.address)
  }

  /** It is to be tried there now: the last try is long enough ago. */
  ghost predicate Plannable(sighting: Sighting, table: Table, cameraEnabled: map<string, bool>,
                            attemptedAt: map<(string, string), int>, attemptCounts: map<(string, string), nat>, now: int, slow: int)
  {
    && sighting.candidate.Some? && FoundElsewhere(sighting, table, cameraEnabled)
    && Due(attemptedAt, attemptCounts, sighting.camera, sighting.candidate.value.address, now, slow)
    && sighting.credentials
  }

  /** There are no new sources for it, or one of an enabled stream did not answer. */
  ghost predicate Unproven(sighting: Sighting, table: Table, unready: set<Url>) {
    && sighting.candidate.Some?
    && var found := NewSources(table, sighting, sighting.candidate.value.address);
       || found.Err?
       || exists id | id in StreamsOf(table, sighting.camera, true) && id.token in found.value :: found.value[id.token] in unready
  }

  /** Nothing is changed for other cameras. */
  ghost predicate OnlyFor<T>(before: map<(string, string), T>, after: map<(string, string), T>, camera: string) {
    forall k: (string, string) | k.0 != camera :: (k in before <==> k in after) && (k in before ==> before[k] == after[k])
  }

  /** The streams of a camera: the enabled ones only, or all. */
  function StreamsOf(table: Table, camera: string, onlyEnabled: bool): set<StreamId> {
    set id | id in table && id.camera == camera && (onlyEnabled ==> table[id].enabled)
  }

  /** The updates reach every enabled stream that has a source, and lead to the address. */
  ghost predicate Sound(table: Table, camera: string, address: string, updates: map<string, Url>) {
    && (forall token | token in updates :: StreamId(camera, token) in table && updates[token].host == address)
    && (forall id | id in StreamsOf(table, camera, true) && table[id].source.Some? :: id.token in updates)
  }

  lemma SomewhereElse(table: Table, camera: string, address: string)
    ensures HasMoved(table, camera, address) <==> |Hosts(table, camera)| == 1 && Hosts(table, camera) != {address}
  {
    var hosts := Hosts(table, camera);
    if |hosts| == 1 {
      var host :| host in hosts;
      assert |hosts - {host}| == 0;
      assert hosts == {host};
    }
  }

  /** What a plan promises before it is carried out: its sources were ready when probed directly. */
  ghost predicate Ready(plan: Plan, table: Table, direct: set<Url>, cameraEnabled: map<string, bool>) {
    && Made(plan, table) && Sound(table, plan.camera, plan.address, plan.updates)
    && plan.camera in cameraEnabled && cameraEnabled[plan.camera]
    && forall id | id in StreamsOf(table, plan.camera, true) && id.token in plan.updates :: plan.updates[id.token] in direct
  }

  lemma AllMade(table: Table, direct: set<Url>, cameraEnabled: map<string, bool>, plans: seq<Plan>, done: nat)
    requires done <= |plans| && Distinct(plans) && forall k | 0 <= k < |plans| :: Ready(plans[k], table, direct, cameraEnabled)
    ensures Distinct(plans[..done]) && forall p | p in plans[..done] :: Made(p, table) && p in plans
  {
    forall p | p in plans[..done] ensures Made(p, table) && p in plans {
      var k :| 0 <= k < done && plans[k] == p;
      assert Ready(plans[k], table, direct, cameraEnabled);
    }
  }

  /** Streams of other cameras are not touched. */
  lemma OthersKept(table: Table, plans: seq<Plan>, undone: nat, id: StreamId)
    requires undone <= |plans| && id in table && !Planned(plans, id.camera)
    ensures Mixed(table, plans, undone)[id] == table[id]
  {
    NotMoved(plans, id, table[id]);
  }

  /** Carrying a plan out moves every enabled stream of its camera that has a source. */
  lemma PlanMoves(plan: Plan, plans: seq<Plan>, k: nat, before: Table, direct: set<Url>, cameraEnabled: map<string, bool>, id: StreamId)
    requires Distinct(plans) && k < |plans| && plans[k] == plan && Ready(plan, before, direct, cameraEnabled)
    requires id in StreamsOf(Mixed(before, plans, 0), plan.camera, true) && Mixed(before, plans, 0)[id].source.Some?
    ensures var source := Mixed(before, plans, 0)[id].source.value; source.host == plan.address && source in direct
  {
    MovedOnce(plans, k, id, before[id]);
    assert id in StreamsOf(before, plan.camera, true);
  }

  ghost predicate DistinctCameras(sightings: seq<Sighting>) {
    forall i, j | 0 <= i < j < |sightings| :: sightings[i].camera != sightings[j].camera
  }

  ghost predicate SameAttempts<T>(before: map<(string, string), T>, after: map<(string, string), T>, camera: string) {
    forall k: (string, string) | k.0 == camera :: (k in before <==> k in after) && (k in before ==> before[k] == after[k])
  }

  lemma AsPlannable(sighting: Sighting, table: Table, cameraEnabled: map<string, bool>,
                    at: map<(string, string), int>, at': map<(string, string), int>,
                    counts: map<(string, string), nat>, counts': map<(string, string), nat>, now: int, slow: int)
    requires SameAttempts(at, at', sighting.camera) && SameAttempts(counts, counts', sighting.camera)
    ensures Plannable(sighting, table, cameraEnabled, at, counts, now, slow)
         == Plannable(sighting, table, cameraEnabled, at', counts', now, slow)
  {
    hide FoundElsewhere;
    FoundIsCertain(sighting, table, cameraEnabled);
    if sighting.candidate.Some? {
      var key := (sighting.camera, sighting.candidate.value.address);
      assert key.0 == sighting.camera;
    }
  }

  lemma MoreUnproven(sighting: Sighting, table: Table, unready: set<Url>, more: set<Url>)
    requires unready <= more
    ensures Unproven(sighting, table, unready) ==> Unproven(sighting, table, more)
  {
    hide NewSources;
  }

  lemma OneMorePlanned(plans: seq<Plan>, more: seq<Plan>, camera: string)
    ensures Planned(plans, camera) ==> Planned(plans + more, camera)
    ensures (exists p | p in more :: p.camera == camera) ==> Planned(plans + more, camera)
  {
    if Planned(plans, camera) {
      var p :| p in plans && p.camera == camera;
      assert p in plans + more;
    }
    if exists p | p in more :: p.camera == camera {
      var p :| p in more && p.camera == camera;
      assert p in plans + more;
    }
  }

  lemma MadeNow(table: Table, camera: string, address: string, updates: map<string, Url>)
    requires Sound(table, camera, address, updates)
    ensures Made(Plan(camera, address, updates, Prior(table, camera)), table)
  {
  }

  /** What a direct probe of a source said, and in which validation. */
  datatype Answer = Answer(validation: nat, source: Url)

  /** The sources named in validations after `start`. */
  ghost function Since(answers: set<Answer>, start: nat): set<Url> {
    set a | a in answers && a.validation > start :: a.source
  }

  lemma SinceGrows(answers: set<Answer>, more: set<Answer>, start: nat, earlier: nat)
    requires answers <= more && earlier <= start
    ensures Since(answers, start) <= Since(more, earlier)
  {
    forall source | source in Since(answers, start) ensures source in Since(more, earlier) {
      var a :| a in answers && a.validation > start && a.source == source;
      assert a in more;
    }
  }

  lemma Named(answers: set<Answer>, validation: nat, source: Url)
    requires validation > 0 && Answer(validation, source) in answers
    ensures source in Since(answers, validation - 1)
  {
  }

  lemma StillReady(plan: Plan, table: Table, direct: set<Url>, more: set<Url>, cameraEnabled: map<string, bool>)
    requires direct <= more
    ensures Ready(plan, table, direct, cameraEnabled) ==> Ready(plan, table, more, cameraEnabled)
  {
    hide Sound, Made;
  }

  lemma FoundIsCertain(sighting: Sighting, table: Table, cameraEnabled: map<string, bool>)
    ensures sighting.candidate.None? ==> !FoundElsewhere(sighting, table, cameraEnabled)
  {
  }

  lemma FoundHasCandidate(sighting: Sighting, table: Table, cameraEnabled: map<string, bool>)
    requires FoundElsewhere(sighting, table, cameraEnabled)
    ensures sighting.camera in cameraEnabled && cameraEnabled[sighting.camera] && sighting.candidate.Some?
  {
  }

  lemma NewSourcesAreSound(table: Table, sighting: Sighting, address: string)
    requires NewSources(table, sighting, address).Ok?
    ensures Sound(table, sighting.camera, address, NewSources(table, sighting, address).value)
  {
    var updates := NewSources(table, sighting, address).value;
    forall id | id in StreamsOf(table, sighting.camera, true) && table[id].source.Some? ensures id.token in updates {
      assert id in StreamsOf(table, sighting.camera, false);
    }
  }

  lemma FoundIsNotReady(table: Table, sighting: Sighting, address: string)
    requires NewSources(table, sighting, address).Err?
    ensures NewSources(table, sighting, address).code != "ready"
  {
    var code := NewSources(table, sighting, address).code;
    assert code[0] in {'i', 'p', 'e', 'm'} && "ready"[0] == 'r';
  }

  class Recovery {
    var table: Table
    var revisions: seq<Revision>
    // go2rtc: the saved source of each stream
    var relay: Sources
    const cameraEnabled: map<string, bool>
    // the last attempt for a camera and an address, and how many there were
    var attemptedAt: map<(string, string), int>
    var attemptCounts: map<(string, string), nat>
    // the validations so far, and what sources answered ready in them when probed directly
    ghost var validations: nat
    ghost var direct: set<Answer>
    // sources that did not, when probed directly
    ghost var unready: set<Answer>
    // streams that the relay served since its last restart
    ghost var served: set<StreamId>

    constructor (table: Table, cameraEnabled: map<string, bool>, relay: Sources)
      ensures this.table == table && this.cameraEnabled == cameraEnabled && Past()
    {
      this.table, this.cameraEnabled, this.relay := table, cameraEnabled, relay;
      revisions, attemptedAt, attemptCounts := [], map[], map[];
      validations, direct, unready, served := 0, {}, {}, {};
    }

    /** No answer is from a validation that is still to come. */
    ghost predicate Past()
      reads `validations, `direct, `unready
    {
      (forall a | a in direct :: a.validation <= validations) && forall a | a in unready :: a.validation <= validations
    }

    /** What a call into the surroundings answers. */
    method Ask() returns (ok: bool) {
      ok := *;
    }

    // ----- validation

    /** `_validated_updates` */
    method ValidatedUpdates(sighting: Sighting, address: string) returns (updates: map<string, Url>, status: string)
      requires sighting.candidate.Some? && sighting.candidate.value.address == address && Past()
      modifies `direct, `unready, `validations
      ensures Past() && validations == old(validations) + 1 && old(direct) <= direct && old(unready) <= unready
      ensures status == "ready" ==>
                && NewSources(table, sighting, address) == Ok(updates) && Sound(table, sighting.camera, address, updates)
                && forall id | id in StreamsOf(table, sighting.camera, true) && id.token in updates ::
                     updates[id.token] in Since(direct, old(validations))
      ensures status != "ready" ==> Unproven(sighting, table, Since(unready, old(validations)))
    {
      validations := validations + 1;
      var found := NewSources(table, sighting, address);
      if found.Err? {
        FoundIsNotReady(table, sighting, address);
        return map[], found.code;
      }
      updates := found.value;
      NewSourcesAreSound(table, sighting, address);
      hide Sound, NewSources;
      var enabled := StreamsOf(table, sighting.camera, true);
      var probed := set id | id in enabled && id.token in updates;
      var ready := ProbeDirect(probed, updates);
      return if ready then updates else map[], if ready then "ready" else "probe_failed";
    }

    /** Probe the new sources of some streams, up to the first that does not answer. */
    method ProbeDirect(ids: set<StreamId>, updates: map<string, Url>) returns (ready: bool)
      requires Past() && validations > 0 && forall id | id in ids :: id.token in updates
      modifies `direct, `unready
      ensures Past() && old(direct) <= direct && old(unready) <= unready
      ensures ready ==> forall id | id in ids :: updates[id.token] in Since(direct, validations - 1)
      ensures !ready ==> exists id | id in ids :: updates[id.token] in Since(unready, validations - 1)
    {
      var pending := ids;
      while pending != {}
        invariant pending <= ids && old(direct) <= direct && unready == old(unready) && Past()
        invariant forall id | id in ids - pending :: Answer(validations, updates[id.token]) in direct
        decreases pending
      {
        var id :| id in pending;
        pending := pending - {id};
        ready := Ask();
        if !ready {
          unready := unready + {Answer(validations, updates[id.token])};
          Named(unready, validations, updates[id.token]);
          return;
        }
        direct := direct + {Answer(validations, updates[id.token])};
      }
      forall id | id in ids ensures updates[id.token] in Since(direct, validations - 1) {
        Named(direct, validations, updates[id.token]);
      }
      return true;
    }

    // ----- the surroundings

    /** `update_profile_sources`: one transaction, or an error that changes nothing. */
    method UpdateSources(camera: string, sources: map<string, Url>) returns (ok: bool)
      modifies `table
      ensures table == if ok then Written(old(table), camera, sources) else old(table)
    {
      if sources == map[] {
        return true;
      }
      ok := Ask();
      if ok && forall token | token in sources :: StreamId(camera, token) in table {
        table := Written(table, camera, sources);
      } else {
        ok := false;
      }
    }

    /** `managed_stream_sources`: the enabled streams of enabled cameras that have a source. */
    function RuntimeSources(): Sources
      reads `table
    {
      map id | id in table && table[id].enabled && table[id].source.Some?
               && id.camera in cameraEnabled && cameraEnabled[id.camera] :: table[id].source.value
    }

    /** `record_desired_media_revision`: the newest revision is used again unless it differs or failed. */
    method RecordRevision(sources: Sources) returns (id: Option<nat>, status: Status)
      modifies `revisions
      ensures id.None? ==> revisions == old(revisions)
      ensures id.Some? ==> id.value == |revisions| - 1 && revisions[id.value] == Revision(sources, status) && status != Failed
      ensures id.Some? ==> LastGood(revisions) == LastGood(old(revisions))
      ensures id.Some? && status == Desired ==> LastGood(revisions[..id.value]) == LastGood(old(revisions))
    {
      var ok := Ask();
      if !ok {
        return None, Failed;
      }
      var last := |revisions| - 1;
      if last >= 0 && revisions[last].sources == sources && revisions[last].status != Failed {
        return Some(last), revisions[last].status;
      }
      LastGoodIgnores(revisions, Revision(sources, Desired));
      revisions := revisions + [Revision(sources, Desired)];
      assert revisions[..|revisions| - 1] == old(revisions);
      return Some(|revisions| - 1), Desired;
    }

    /** `complete_media_revision` of the newest, still desired, revision. */
    method CompleteRevision(id: nat, status: Status) returns (ok: bool)
      requires id == |revisions| - 1 && revisions[id].status == Desired && status != Desired
      modifies `revisions
      ensures ok ==> revisions == old(revisions)[id := old(revisions)[id].(status := status)]
      ensures !ok ==> revisions == old(revisions)
    {
      ok := Ask();
      if ok {
        revisions := revisions[id := revisions[id].(status := status)];
      }
    }

    /** `replace_streams`: the configuration is written, then the relay restarts; either can fail. */
    method ReplaceStreams(sources: Sources) returns (ok: bool)
      modifies `relay, `served
      ensures ok && sources != map[] ==> relay == old(relay) + sources && served == {}
      ensures sources == map[] ==> relay == old(relay) && served == old(served)
      ensures relay == old(relay) || relay == old(relay) + sources
    {
      ok := Ask();
      if !ok || sources == map[] {
        return;
      }
      relay, served := relay + sources, {};
      ok := Ask();
    }

    /** `probe_streams` through the relay: every stream must be served. */
    method ProbeRelay(sources: Sources) returns (ok: bool)
      modifies `served
      ensures ok ==> sources.Keys <= served
    {
      var pending := sources.Keys;
      ok := true;
      while pending != {}
        invariant pending <= sources.Keys && (ok ==> sources.Keys - pending <= served)
        decreases pending
      {
        var id :| id in pending;
        pending := pending - {id};
        var ready := Ask();
        if ready {
          served := served + {id};
        } else {
          ok := false;
        }
      }
    }

    // ----- planning

    method ClearAttempts(camera: string)
      modifies `attemptedAt, `attemptCounts
      ensures attemptedAt == map k | k in old(attemptedAt) && k.0 != camera :: old(attemptedAt)[k]
      ensures attemptCounts == map k | k in old(attemptCounts) && k.0 != camera :: old(attemptCounts)[k]
    {
      attemptedAt := map k | k in attemptedAt && k.0 != camera :: attemptedAt[k];
      attemptCounts := map k | k in attemptCounts && k.0 != camera :: attemptCounts[k];
    }

    /** A camera is tried at an address ten seconds after the last time, and after five tries only every
        `slow` seconds. */
    method ClaimAttempt(camera: string, address: string, now: int, slow: int) returns (claimed: bool)
      modifies `attemptedAt, `attemptCounts
      ensures claimed <==> Due(old(attemptedAt), old(attemptCounts), camera, address, now, slow)
      ensures claimed ==> attemptedAt == old(attemptedAt)[(camera, address) := now]
                          && attemptCounts == old(attemptCounts)[(camera, address) := CountOf(old(attemptCounts), camera, address) + 1]
      ensures !claimed ==> attemptedAt == old(attemptedAt) && attemptCounts == old(attemptCounts)
    {
      var key := (camera, address);
      var count := if key in attemptCounts then attemptCounts[key] else 0;
      var interval := if count <= FAST_RETRIES then FAST_RETRY else slow;
      if key in attemptedAt && now - attemptedAt[key] < interval {
        return false;
      }
      attemptedAt := attemptedAt[key := now];
      attemptCounts := attemptCounts[key := count + 1];
      return true;
    }

    /** The plan for one adopted camera: there is one if and only if it is to be tried now and all its sources
        answer at the new address. */
    method PlanFor(sighting: Sighting, now: int, slow: int) returns (plan: Option<Plan>)
      requires Past()
      modifies `attemptedAt, `attemptCounts, `direct, `unready, `validations
      ensures Past() && validations >= old(validations) && old(direct) <= direct && old(unready) <= unready
      ensures plan.Some? ==>
                && plan.value.camera == sighting.camera
                && Ready(plan.value, table, Since(direct, old(validations)), cameraEnabled)
                && Plannable(sighting, table, cameraEnabled, old(attemptedAt), old(attemptCounts), now, slow)
                && plan.value.address == sighting.candidate.value.address
                && NewSources(table, sighting, plan.value.address) == Ok(plan.value.updates)
                && attemptedAt == old(attemptedAt)[(sighting.camera, plan.value.address) := now]
      ensures plan.None? ==> !Plannable(sighting, table, cameraEnabled, old(attemptedAt), old(attemptCounts), now, slow)
                             || Unproven(sighting, table, Since(unready, old(validations)))
      ensures OnlyFor(old(attemptedAt), attemptedAt, sighting.camera) && OnlyFor(old(attemptCounts), attemptCounts, sighting.camera)
    {
      hide Sound, NewSources, Unproven, FoundElsewhere, Due, Since, Past;
      var address := Locate(sighting);
      if address.None? {
        return None;
      }
      FoundHasCandidate(sighting, table, cameraEnabled);
      var claimed := ClaimAttempt(sighting.camera, address.value, now, slow);
      if !claimed || !sighting.credentials {
        return None;
      }
      var updates, status := ValidatedUpdates(sighting, address.value);
      if status != "ready" {
        return None;
      }
      MadeNow(table, sighting.camera, address.value, updates);
      return Some(Plan(sighting.camera, address.value, updates, Prior(table, sighting.camera)));
    }

    /** Where the camera was found; one that is where its sources are has its attempts forgotten. */
    method Locate(sighting: Sighting) returns (address: Option<string>)
      modifies `attemptedAt, `attemptCounts
      ensures address.Some? <==> FoundElsewhere(sighting, table, cameraEnabled)
      ensures address.Some? ==> sighting.candidate.Some? && address.value == sighting.candidate.value.address
                                && attemptedAt == old(attemptedAt) && attemptCounts == old(attemptCounts)
      ensures OnlyFor(old(attemptedAt), attemptedAt, sighting.camera) && OnlyFor(old(attemptCounts), attemptCounts, sighting.camera)
    {
      hide Hosts;
      var camera := sighting.camera;
      if camera !in cameraEnabled || !cameraEnabled[camera] {
        return None;
      }
      if sighting.candidate.None? || !sighting.candidate.value.online || sighting.candidate.value.conflict {
        return None;
      }
      var candidate := sighting.candidate.value;
      if candidate.endpoint == "" && candidate.mac == "" {
        return None;
      }
      var hosts := Hosts(table, camera);
      SomewhereElse(table, camera, candidate.address);
      if candidate.address == "" || |hosts| != 1 {
        return None;
      }
      if hosts == {candidate.address} {
        ClearAttempts(camera);
        return None;
      }
      return Some(candidate.address);
    }

    /** The plan was made for one of these sightings. */
    ghost predicate PlannedFrom(plan: Plan, sightings: seq<Sighting>, attemptedAt: map<(string, string), int>,
                                attemptCounts: map<(string, string), nat>, now: int, slow: int)
      reads `table
    {
      exists i | 0 <= i < |sightings| ::
        && sightings[i].camera == plan.camera && Plannable(sightings[i], table, cameraEnabled, attemptedAt, attemptCounts, now, slow)
        && sightings[i].candidate.value.address == plan.address
        && NewSources(table, sightings[i], plan.address) == Ok(plan.updates)
    }

    method Plans(sightings: seq<Sighting>, now: int, slow: int) returns (plans: seq<Plan>)
      requires DistinctCameras(sightings) && Past()
      modifies `attemptedAt, `attemptCounts, `direct, `unready, `validations
      ensures Past() && validations >= old(validations)
      ensures Distinct(plans) && forall k | 0 <= k < |plans| :: Ready(plans[k], table, Since(direct, old(validations)), cameraEnabled)
      ensures forall k | 0 <= k < |plans| :: PlannedFrom(plans[k], sightings, old(attemptedAt), old(attemptCounts), now, slow)
      ensures forall i | 0 <= i < |sightings| && !Planned(plans, sightings[i].camera) ::
                !Plannable(sightings[i], table, cameraEnabled, old(attemptedAt), old(attemptCounts), now, slow)
                || Unproven(sightings[i], table, Since(unready, old(validations)))
    {
      hide Ready, Plannable, Unproven, Planned, Due, NewSources, Since, Past;
      plans := [];
      for i := 0 to |sightings|
        invariant Distinct(plans) && Past() && validations >= old(validations)
        invariant forall k | 0 <= k < |plans| :: Ready(plans[k], table, Since(direct, old(validations)), cameraEnabled)
        invariant forall k | 0 <= k < |plans| :: exists j | 0 <= j < i :: sightings[j].camera == plans[k].camera
        invariant forall k | 0 <= k < |plans| :: PlannedFrom(plans[k], sightings, old(attemptedAt), old(attemptCounts), now, slow)
        invariant forall j | 0 <= j < i && !Planned(plans, sightings[j].camera) ::
                    !Plannable(sightings[j], table, cameraEnabled, old(attemptedAt), old(attemptCounts), now, slow)
                    || Unproven(sightings[j], table, Since(unready, old(validations)))
        invariant forall j | i <= j < |sightings| :: SameAttempts(old(attemptedAt), attemptedAt, sightings[j].camera)
                                                    && SameAttempts(old(attemptCounts), attemptCounts, sightings[j].camera)
      {
        ghost var at, counts, direct0, unready0, start := attemptedAt, attemptCounts, direct, unready, validations;
        var plan := PlanFor(sightings[i], now, slow);
        var more := if plan.Some? then [plan.value] else [];
        assert plan.Some? ==> plan.value in more;
        AsPlannable(sightings[i], table, cameraEnabled, old(attemptedAt), at, old(attemptCounts), counts, now, slow);
        SinceGrows(direct, direct, start, old(validations));
        SinceGrows(direct0, direct, old(validations), old(validations));
        SinceGrows(unready, unready, start, old(validations));
        SinceGrows(unready0, unready, old(validations), old(validations));
        forall k | 0 <= k < |plans + more| ensures Ready((plans + more)[k], table, Since(direct, old(validations)), cameraEnabled) {
          StillReady((plans + more)[k], table, Since(direct0, old(validations)), Since(direct, old(validations)), cameraEnabled);
          StillReady((plans + more)[k], table, Since(direct, start), Since(direct, old(validations)), cameraEnabled);
        }
        forall j | 0 <= j <= i && !Planned(plans + more, sightings[j].camera)
          ensures !Plannable(sightings[j], table, cameraEnabled, old(attemptedAt), old(attemptCounts), now, slow)
                  || Unproven(sightings[j], table, Since(unready, old(validations)))
        {
          OneMorePlanned(plans, more, sightings[j].camera);
          MoreUnproven(sightings[j], table, Since(unready0, old(validations)), Since(unready, old(validations)));
          MoreUnproven(sightings[j], table, Since(unready, start), Since(unready, old(validations)));
        }
        plans := plans + more;
      }
    }

    // ----- the batch

    /** The relay serves every stream of the planned cameras from its new source. */
    ghost predicate Serving(plans: seq<Plan>)
      reads `table, `relay, `served
    {
      forall id | id in RuntimeSources() && Planned(plans, id.camera) ::
        id in relay && relay[id] == RuntimeSources()[id] && id in served
    }

    /** The plans are written one by one; `done` of them when an error stops it. */
    method WritePlans(plans: seq<Plan>) returns (done: nat)
      requires Distinct(plans)
      modifies `table
      ensures done <= |plans| && table == Mixed(old(table), plans[..done], 0)
    {
      hide Mixed, Moved;
      done := 0;
      NothingWritten(table, plans);
      while done < |plans|
        invariant done <= |plans| && table == Mixed(old(table), plans[..done], 0)
      {
        var announced := Ask();
        if !announced {
          return;
        }
        WriteOne(old(table), plans, done);
        var written := UpdateSources(plans[done].camera, plans[done].updates);
        if !written {
          return;
        }
        done := done + 1;
      }
    }

    /** The relay restarts on the planned cameras' sources and must serve them all. */
    method RestartRelay(plans: seq<Plan>) returns (ok: bool)
      modifies `relay, `served
      ensures ok ==> Serving(plans)
    {
      var sources := RuntimeSources();
      var runtime := map id | id in sources && Planned(plans, id.camera) :: sources[id];
      ok := ReplaceStreams(runtime);
      if !ok {
        return;
      }
      ok := ProbeRelay(runtime);
      if ok {
        forall id | id in RuntimeSources() && Planned(plans, id.camera)
          ensures id in relay && relay[id] == RuntimeSources()[id] && id in served
        {
          assert id in runtime;
        }
      }
    }

    /** The attempt: an error can come before, between and after its effects. */
    method Attempt(plans: seq<Plan>) returns (ok: bool, done: nat, revision: Option<nat>, status: Status, restarted: bool)
      requires Distinct(plans)
      modifies `table, `revisions, `relay, `served
      ensures done <= |plans| && table == Mixed(old(table), plans[..done], 0)
      ensures ok ==> done == |plans| && revision.Some? && Serving(plans)
      ensures revision.None? ==> revisions == old(revisions)
      ensures revision.Some? ==>
                && revision.value == |revisions| - 1 && status != Failed
                && revisions[revision.value] == Revision(RuntimeSources(), status)
                && LastGood(revisions) == LastGood(old(revisions))
                && (status == Desired ==> LastGood(revisions[..revision.value]) == LastGood(old(revisions)))
    {
      hide Mixed, Moved, LastGood, Serving;
      ok, revision, status, restarted := false, None, Failed, false;
      done := WritePlans(plans);
      if done < |plans| {
        return;
      }
      assert plans[..done] == plans;
      revision, status := RecordRevision(RuntimeSources());
      if revision.None? {
        return;
      }
      restarted := true;
      ok := RestartRelay(plans);
      if ok {
        ok := Ask();
      }
    }

    /** The handler of a failed attempt. */
    method Undo(plans: seq<Plan>, done: nat, revision: Option<nat>, attempted: bool, ghost before: Table) returns (ok: bool, ghost undone: nat)
      requires Distinct(plans) && done <= |plans| && table == Mixed(before, plans[..done], 0)
      requires forall k | 0 <= k < |plans| :: Made(plans[k], before)
      requires revision.Some? ==> revision.value == |revisions| - 1 && revisions[revision.value].status == Desired
      modifies `table, `revisions, `relay, `served
      ensures undone <= done && table == Mixed(before, plans[..done], undone)
      ensures ok ==> undone == done
      ensures ok && revision.Some? ==>
                revisions == old(revisions)[revision.value := old(revisions)[revision.value].(status := Failed)]
      ensures revision.None? ==> revisions == old(revisions)
    {
      hide Mixed, Moved, Made;
      undone := 0;
      if revision.Some? {
        ok := CompleteRevision(revision.value, Failed);
        if !ok {
          return;
        }
      }
      ghost var written := revisions;
      for k := 0 to done
        invariant table == Mixed(before, plans[..done], k) && undone == k && revisions == written
      {
        UndoOne(before, plans[..done], k);
        ok := UpdateSources(plans[k].camera, plans[k].previous);
        if !ok {
          return;
        }
        undone := k + 1;
      }
      if attempted {
        // best effort: a relay that cannot be restored is left as it is
        var sources := RuntimeSources();
        var _ := ReplaceStreams(map id | id in sources && Planned(plans[..done], id.camera) :: sources[id]);
      }
      ok := true;
    }

    /** The whole batch: all plans are carried out, or none. `done` plans were written at most, `undone` of
        them were taken back. */
    method RecoverBatch(plans: seq<Plan>) returns (outcome: Outcome, ghost done: nat, ghost undone: nat)
      requires Distinct(plans) && forall k | 0 <= k < |plans| :: Made(plans[k], table)
      modifies `table, `revisions, `relay, `served
      ensures undone <= done <= |plans| && table == Mixed(old(table), plans[..done], undone)
      ensures outcome != Idle
      ensures outcome.Recovered? ==>
                done == |plans| && undone == 0 && Serving(plans) && LastGood(revisions) == Some(RuntimeSources())
      ensures outcome.RolledBack? ==> undone == done && LastGood(revisions) == LastGood(old(revisions))
    {
      hide Mixed, Moved, LastGood, Serving, Made;
      ghost var before := table;
      var ok, written, revision, status, restarted := Attempt(plans);
      done, undone := written, 0;
      ghost var recorded := revisions;
      if !ok {
        var open := if revision.Some? && status == Desired then revision else None;
        ok, undone := Undo(plans, written, open, restarted, before);
        if open.Some? && ok {
          Completed(recorded, Failed);
        }
        return if ok then RolledBack else Raised, done, undone;
      }
      if status == Desired {
        ok := CompleteRevision(revision.value, Applied);
        if !ok {
          return Raised, done, undone;
        }
        Completed(recorded, Applied);
      } else {
        AlreadyApplied(revisions);
      }
      return Recovered, done, undone;
    }

    /** The plan succeeded, stream by stream; the sources answered in validations after `start`. */
    ghost predicate Arrived(plan: Plan, start: nat)
      reads this
    {
      forall id | id in StreamsOf(table, plan.camera, true) && table[id].source.Some? ::
        var source := table[id].source.value;
        source.host == plan.address && source in Since(direct, start) && id in served && id in relay && relay[id] == source
    }

    lemma PlanArrives(before: Table, plans: seq<Plan>, k: nat, start: nat)
      requires Distinct(plans) && k < |plans| && Ready(plans[k], before, Since(direct, start), cameraEnabled)
      requires table == Mixed(before, plans, 0) && Serving(plans)
      ensures Arrived(plans[k], start)
    {
      hide Mixed, Moved, Made, Sound;
      forall id | id in StreamsOf(table, plans[k].camera, true) && table[id].source.Some?
        ensures var source := table[id].source.value;
                source.host == plans[k].address && source in Since(direct, start) && id in served && id in relay && relay[id] == source
      {
        PlanMoves(plans[k], plans, k, before, Since(direct, start), cameraEnabled, id);
        assert plans[k] in plans;
        assert id in RuntimeSources();
      }
    }

    /** Attempts for cameras that are gone are forgotten. */
    method ForgetGone(cameras: set<string>)
      modifies `attemptedAt, `attemptCounts
      ensures attemptedAt == map k | k in old(attemptedAt) && k.0 in cameras :: old(attemptedAt)[k]
      ensures attemptCounts == map k | k in old(attemptCounts) && k.0 in cameras :: old(attemptCounts)[k]
    {
      attemptedAt := map k | k in attemptedAt && k.0 in cameras :: attemptedAt[k];
      attemptCounts := map k | k in attemptCounts && k.0 in cameras :: attemptCounts[k];
    }

    /** Recovered cameras start over. */
    method ForgetRecovered(plans: seq<Plan>)
      modifies `attemptedAt, `attemptCounts
      ensures forall k | k in attemptedAt || k in attemptCounts :: !Planned(plans, k.0)
    {
      for i := 0 to |plans|
        invariant forall k, j | (k in attemptedAt || k in attemptCounts) && 0 <= j < i :: plans[j].camera != k.0
      {
        ClearAttempts(plans[i].camera);
      }
    }

    /** One round over all adopted cameras: planned are exactly those that are to be tried and whose sources
        answer at the new address. After a recovery all of the plans are written and nothing else, every enabled
        stream of a planned camera has its source at the new address, answered there directly, and is served by
        the relay from that source. */
    method RecoverAddresses(sightings: seq<Sighting>, now: int, slow: int)
      returns (outcome: Outcome, ghost plans: seq<Plan>, ghost done: nat)
      requires DistinctCameras(sightings) && Past()
      modifies this
      ensures Past()
      ensures Distinct(plans) && done <= |plans|
      ensures forall k | 0 <= k < |plans| ::
                old(PlannedFrom(plans[k], sightings, attemptedAt, attemptCounts, now, slow))
      ensures forall i | 0 <= i < |sightings| && !Planned(plans, sightings[i].camera) ::
                !Plannable(sightings[i], old(table), cameraEnabled, old(attemptedAt), old(attemptCounts), now, slow)
                || Unproven(sightings[i], old(table), Since(unready, old(validations)))
      ensures outcome.Idle? <==> plans == []
      ensures outcome.Idle? ==> table == old(table)
      ensures outcome.Recovered? ==> table == Mixed(old(table), plans, 0) && forall k | 0 <= k < |plans| :: Arrived(plans[k], old(validations))
      ensures outcome.Recovered? ==> forall k | k in attemptedAt || k in attemptCounts :: !Planned(plans, k.0)
      ensures outcome.RolledBack? ==> table == Mixed(old(table), plans[..done], done)
      ensures outcome.RolledBack? && AllHadSources(plans, old(table)) ==> table == old(table)
      ensures outcome.Raised? ==> exists undone :: 0 <= undone <= done && table == Mixed(old(table), plans[..done], undone)
    {
      hide Mixed, Moved, LastGood, Serving, Made, Sound, StreamsOf, Arrived, Plannable, Unproven, Planned, PlannedFrom, Since, Past;
      ForgetGone(set s | s in sightings :: s.camera);
      ghost var at, counts := attemptedAt, attemptCounts;
      forall i | 0 <= i < |sightings|
        ensures Plannable(sightings[i], table, cameraEnabled, old(attemptedAt), old(attemptCounts), now, slow)
             == Plannable(sightings[i], table, cameraEnabled, at, counts, now, slow)
      {
        assert sightings[i] in sightings;
        AsPlannable(sightings[i], table, cameraEnabled, old(attemptedAt), at, old(attemptCounts), counts, now, slow);
      }
      var planned := Plans(sightings, now, slow);
      plans, done := planned, 0;
      forall k | 0 <= k < |plans| ensures old(PlannedFrom(plans[k], sightings, attemptedAt, attemptCounts, now, slow)) {
        PlannedAlike(plans[k], sightings, old(attemptedAt), at, old(attemptCounts), counts, now, slow);
      }
      outcome := Idle;
      if planned != [] {
        ghost var before := table;
        ghost var undone: nat;
        assert forall k | 0 <= k < |planned| :: Ready(planned[k], table, Since(direct, old(validations)), cameraEnabled);
        outcome, done, undone := RecoverBatch(planned);
        if outcome.Recovered? {
          ForgetRecovered(planned);
          assert plans[..|plans|] == plans;
          forall k | 0 <= k < |plans| ensures Arrived(plans[k], old(validations)) {
            PlanArrives(before, plans, k, old(validations));
          }
        } else if outcome.RolledBack? {
          AllMade(before, Since(direct, old(validations)), cameraEnabled, plans, done);
          UndoneIsExactIff(before, plans[..done]);
        }
      }
    }

    lemma PlannedAlike(plan: Plan, sightings: seq<Sighting>, at: map<(string, string), int>, at': map<(string, string), int>,
                       counts: map<(string, string), nat>, counts': map<(string, string), nat>, now: int, slow: int)
      requires PlannedFrom(plan, sightings, at', counts', now, slow)
      requires forall i | 0 <= i < |sightings| ::
                 Plannable(sightings[i], table, cameraEnabled, at, counts, now, slow)
                 == Plannable(sightings[i], table, cameraEnabled, at', counts', now, slow)
      ensures PlannedFrom(plan, sightings, at, counts, now, slow)
    {
    }
  }
}
