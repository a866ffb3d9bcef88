/** The physical identity of a camera: the link that anchors it, and the periods of its observed addresses.
    Values are already stripped and in lower case; an empty one is None. */
module CameraIdentity {
  import opened Common

  datatype Identity = Identity(ip: Option<string>, mac: Option<string>, endpoint: Option<string>)

  /** A discovered device, as far as identity matters. */
  datatype Candidate = Candidate(id: string, identity: Identity, conflict: bool, seen: int)

  /** A row of `camera_identity_periods`; `ended` is None for the current one. */
  datatype Period = Period(identity: Identity, started: int, ended: Option<int>)

  /** `same_identity`: endpoint references decide when both are known, otherwise MAC addresses do. */
  predicate SameIdentity(expected: Identity, found: Identity) {
    if expected.endpoint.Some? && found.endpoint.Some? then expected.endpoint == found.endpoint
    else expected.mac.Some? && expected.mac == found.mac
  }

  predicate Physical(identity: Identity) {
    identity.endpoint.Some? || identity.mac.Some?
  }

  // ----- links

  /** How a link may change: a known endpoint reference stays, and while none is known the MAC stays. */
  ghost predicate Anchored(before: Identity, link: Identity) {
    && (before.endpoint.Some? ==> link.endpoint == before.endpoint)
    && (before.endpoint.None? && link.endpoint.None? ==> link.mac == before.mac)
  }

  /** `bind_camera_identity`: what the candidate does not know is kept from the old link. */
  function Bound(saved: Option<Identity>, found: Identity): Identity {
    match saved
    case None => found
    case Some(link) =>
      found.(endpoint := if link.endpoint.Some? && found.endpoint.None? then link.endpoint else found.endpoint,
             mac := if link.mac.Some? && found.mac.None? then link.mac else found.mac)
  }

  lemma BoundIsAnchored(link: Identity, found: Identity)
    requires SameIdentity(link, found)
    ensures Anchored(link, Bound(Some(link), found)) && SameIdentity(link, Bound(Some(link), found))
    ensures link.endpoint.None? ==> Bound(Some(link), found).mac == link.mac
  {
  }

  /** The devices with the identity of the link. */
  function Matches(link: Candidate, candidates: map<string, Candidate>): set<string> {
    set k | k in candidates && SameIdentity(link.identity, candidates[k].identity) :: k
  }

  /** `linked_candidate`: the device that is now behind a camera. A linked camera is never resolved to a device
      of another identity, whatever took over its address or its inventory entry. */
  method LinkedCandidate(link: Option<Candidate>, candidates: map<string, Candidate>, id: string) returns (found: Option<Candidate>)
    ensures link.None? ==> found == if id in candidates then Some(candidates[id]) else None
    ensures link.Some? && found.Some? ==>
              found == link || exists k ::
                && k in candidates && found.value == candidates[k] && candidates[k].seen >= link.value.seen
                && !candidates[k].conflict && Matches(link.value, candidates) == {k}
    ensures link.Some? ==>
              (found.None? <==> |Matches(link.value, candidates)| > 1
                                || exists k :: k in Matches(link.value, candidates) && candidates[k].conflict)
  {
    if link.None? {
      return if id in candidates then Some(candidates[id]) else None;
    }
    var matches := Matches(link.value, candidates);
    if |matches| > 1 || exists k | k in matches :: candidates[k].conflict {
      return None;
    }
    if matches != {} {
      var k :| k in matches;
      OneMatch(matches, k);
      if candidates[k].seen >= link.value.seen {
        return Some(candidates[k]);
      }
    }
    return link;
  }

  lemma OneMatch(matches: set<string>, k: string)
    requires |matches| <= 1 && k in matches
    ensures matches == {k}
  {
    assert |matches - {k}| == 0;
  }

  // ----- periods

  predicate Conflicting(a: Option<string>, b: Option<string>) {
    a.Some? && b.Some? && a != b
  }

  /** Two observations that cannot belong to one period. */
  predicate Changed(current: Identity, found: Identity) {
    || Conflicting(found.ip, current.ip)
    || Conflicting(found.mac, current.mac)
    || Conflicting(found.endpoint, current.endpoint)
  }

  function Fill(known: Option<string>, found: Option<string>): Option<string> {
    if known.None? then found else known
  }

  function Enriched(current: Identity, found: Identity): Identity {
    Identity(Fill(current.ip, found.ip), Fill(current.mac, found.mac), Fill(current.endpoint, found.endpoint))
  }

  predicate Unknown(identity: Identity) {
    identity.ip.None? && identity.mac.None? && identity.endpoint.None?
  }

  /** Each known field stays, an unknown one may become known. */
  ghost predicate Refines(before: Identity, after: Identity) {
    && (before.ip.Some? ==> after.ip == before.ip)
    && (before.mac.Some? ==> after.mac == before.mac)
    && (before.endpoint.Some? ==> after.endpoint == before.endpoint)
  }

  /** Periods follow one another without a gap; exactly the last one is current, and each begins with a value
      that contradicts the one before. */
  ghost predicate Contiguous(list: seq<Period>, clock: int) {
    && (list != [] ==> list[|list| - 1].ended.None? && list[|list| - 1].started <= clock)
    && (forall i | 0 <= i < |list| :: !Unknown(list[i].identity))
    && (forall i, j | 0 <= i && j == i + 1 && j < |list| ::
          list[i].ended == Some(list[j].started) && list[i].started <= list[j].started
          && Changed(list[i].identity, list[j].identity))
  }

  /** How the periods of a camera may change: closed ones are final, the current one only gains fields. */
  ghost predicate Grew(before: seq<Period>, list: seq<Period>) {
    && |before| <= |list|
    && (forall i | 0 <= i < |before| ::
          && before[i].started == list[i].started && Refines(before[i].identity, list[i].identity)
          && (before[i].ended.Some? ==> before[i] == list[i]))
  }

  lemma GrewTwice(a: seq<Period>, b: seq<Period>, c: seq<Period>)
    requires Grew(a, b) && Grew(b, c)
    ensures Grew(a, c)
  {
  }

  /** `_observe_camera_identity` */
  function ObservedPeriods(list: seq<Period>, found: Identity, now: int): seq<Period>
    requires list != [] ==> list[|list| - 1].ended.None?
  {
    var last := |list| - 1;
    if Unknown(found) then list
    else if list == [] then [Period(found, now, None)]
    else if !Changed(list[last].identity, found) then
      list[last := list[last].(identity := Enriched(list[last].identity, found))]
    else list[last := list[last].(ended := Some(now))] + [Period(found, now, None)]
  }

  lemma EnrichedRefines(current: Identity, found: Identity)
    requires !Changed(current, found)
    ensures Refines(current, Enriched(current, found)) && Refines(found, Enriched(current, found))
  {
  }

  lemma RefinedStillChanged(a: Identity, b: Identity, c: Identity)
    requires Changed(a, b) && Refines(b, c)
    ensures Changed(a, c)
  {
  }

  /** An observation keeps the periods in order, and afterwards the current one says what was observed. */
  lemma ObservedIsContiguous(list: seq<Period>, found: Identity, clock: int, now: int)
    requires Contiguous(list, clock) && clock <= now
    ensures var after := ObservedPeriods(list, found, now);
            && Contiguous(after, now) && Grew(list, after)
            && (!Unknown(found) ==> after != [] && Refines(found, after[|after| - 1].identity))
  {
    var after, last := ObservedPeriods(list, found, now), |list| - 1;
    if list != [] && !Unknown(found) {
      var current := list[last].identity;
      if !Changed(current, found) {
        EnrichedRefines(current, found);
        hide Changed, Enriched;
        if last > 0 {
          RefinedStillChanged(list[last - 1].identity, current, Enriched(current, found));
        }
      }
    }
  }

  class Repository {
    var cameras: set<string>
    var links: map<string, Identity>
    var periods: map<string, seq<Period>>
    var clock: int

    constructor (cameras: set<string>, now: int)
      ensures Valid() && links == map[] && periods == map[] && this.cameras == cameras && clock == now
    {
      this.cameras, links, periods, clock := cameras, map[], map[], now;
    }

    ghost predicate Valid()
      reads this
    {
      && (forall c | c in periods :: Contiguous(periods[c], clock))
      && (forall c | c in links :: Physical(links[c]))
    }

    function PeriodsOf(camera: string): seq<Period>
      reads this
    {
      if camera in periods then periods[camera] else []
    }

    /** `_observe_camera_identity`; `changed` says whether a row was written. */
    method Observe(camera: string, found: Identity, now: int) returns (changed: bool)
      requires Valid() && clock <= now
      modifies `periods, `clock
      ensures Valid() && clock == now
      ensures PeriodsOf(camera) == ObservedPeriods(old(PeriodsOf(camera)), found, now)
      ensures Grew(old(PeriodsOf(camera)), PeriodsOf(camera))
      ensures !Unknown(found) ==> CurrentSays(camera, found)
      ensures forall other | other != camera :: PeriodsOf(other) == old(PeriodsOf(other))
      ensures changed <==> PeriodsOf(camera) != old(PeriodsOf(camera))
    {
      hide Grew, Changed, Enriched;
      var list := PeriodsOf(camera);
      NoPeriods(clock);
      assert Contiguous(list, clock);
      ObservedIsContiguous(list, found, clock, now);
      forall c | c in periods ensures Contiguous(periods[c], now) {
        Later(periods[c], clock, now);
      }
      clock := now;
      if Unknown(found) {
        return false;
      }
      var last := |list| - 1;
      if list != [] && !Changed(list[last].identity, found) {
        var enriched := Enriched(list[last].identity, found);
        if enriched == list[last].identity {
          assert list[last := list[last].(identity := enriched)] == list;
          return false;
        }
        periods := periods[camera := list[last := list[last].(identity := enriched)]];
        assert PeriodsOf(camera)[last] != list[last];
        return true;
      }
      if list != [] {
        list := list[last := list[last].(ended := Some(now))];
      }
      periods := periods[camera := list + [Period(found, now, None)]];
      return true;
    }

    /** The current period agrees with everything that the identity knows. */
    ghost predicate CurrentSays(camera: string, found: Identity)
      reads this
    {
      PeriodsOf(camera) != [] && Refines(found, PeriodsOf(camera)[|PeriodsOf(camera)| - 1].identity)
    }

    /** `bind_camera_identity`: an error leaves everything as it was; success keeps the anchor of the link, and
        the current period then agrees with the link. */
    method Bind(camera: string, candidate: Candidate, now: int) returns (result: Result<()>)
      requires Valid() && clock <= now
      modifies `links, `periods, `clock
      ensures Valid() && old(clock) <= clock <= now
      ensures result.Err? ==> links == old(links) && periods == old(periods)
      ensures result.Ok? ==>
                && camera in links && links == old(links)[camera := links[camera]]
                && (camera in old(links) ==> Anchored(old(links)[camera], links[camera])
                                             && SameIdentity(old(links)[camera], candidate.identity))
                && (camera !in old(links) ==> links[camera] == candidate.identity)
                && CurrentSays(camera, links[camera])
      ensures forall c :: Grew(old(PeriodsOf(c)), PeriodsOf(c))
      ensures result.Ok? <==>
                && candidate.id != "" && Physical(candidate.identity) && !candidate.conflict && camera in cameras
                && (old(PeriodsOf(camera)) != [] ==>
                      var current := old(PeriodsOf(camera)[|PeriodsOf(camera)| - 1].identity);
                      Physical(current) ==> SameIdentity(current, candidate.identity))
                && (camera in old(links) ==> SameIdentity(old(links)[camera], candidate.identity))
    {
      hide Grew;
      forall c ensures Grew(PeriodsOf(c), PeriodsOf(c)) {
        GrewNothing(PeriodsOf(c));
      }
      if candidate.id == "" || !Physical(candidate.identity) || candidate.conflict {
        return Err("unverified_identity");
      }
      if camera !in cameras {
        return Err("camera_not_found");
      }
      var list := PeriodsOf(camera);
      if list != [] && Physical(list[|list| - 1].identity) && !SameIdentity(list[|list| - 1].identity, candidate.identity) {
        return Err("differs_from_observed");
      }
      var saved := if camera in links then Some(links[camera]) else None;
      if saved.Some? && !SameIdentity(saved.value, candidate.identity) {
        return Err("differs_from_saved");
      }
      if saved.Some? {
        BoundIsAnchored(saved.value, candidate.identity);
      }
      var value := Bound(saved, candidate.identity);
      links := links[camera := value];
      var _ := Observe(camera, value, now);
      return Ok(());
    }
  }

  lemma NoPeriods(clock: int)
    ensures Contiguous([], clock)
  {
  }

  lemma Later(list: seq<Period>, clock: int, now: int)
    requires Contiguous(list, clock) && clock <= now
    ensures Contiguous(list, now)
  {
  }

  lemma GrewNothing(list: seq<Period>)
    ensures Grew(list, list)
  {
  }

  lemma AnchoredTwice(a: Identity, b: Identity, c: Identity)
    requires Anchored(a, b) && Anchored(b, c)
    ensures Anchored(a, c)
  {
  }

  datatype Step = Bind(camera: string, candidate: Candidate, delay: nat) | Observe(camera: string, found: Identity, delay: nat)

  /** Any run of bindings and observations: every link keeps the anchor it had, and the periods only grow. */
  method Run(repository: Repository, steps: seq<Step>)
    requires repository.Valid()
    modifies repository
    ensures repository.Valid()
    ensures forall c | c in old(repository.links) :: c in repository.links && Anchored(old(repository.links)[c], repository.links[c])
    ensures forall c :: Grew(old(repository.PeriodsOf(c)), repository.PeriodsOf(c))
  {
    hide Grew, Anchored;
    forall c ensures Grew(repository.PeriodsOf(c), repository.PeriodsOf(c)) {
      GrewNothing(repository.PeriodsOf(c));
    }
    forall c | c in repository.links ensures Anchored(repository.links[c], repository.links[c]) {
      AnchoredAlready(repository.links[c]);
    }
    for i := 0 to |steps|
      invariant repository.Valid()
      invariant forall c | c in old(repository.links) ::
                  c in repository.links && Anchored(old(repository.links)[c], repository.links[c])
      invariant forall c :: Grew(old(repository.PeriodsOf(c)), repository.PeriodsOf(c))
    {
      label before:
      Take(repository, steps[i]);
      forall c ensures Grew(old(repository.PeriodsOf(c)), repository.PeriodsOf(c)) {
        GrewTwice(old(repository.PeriodsOf(c)), old@before(repository.PeriodsOf(c)), repository.PeriodsOf(c));
      }
      forall c | c in old(repository.links) ensures Anchored(old(repository.links)[c], repository.links[c]) {
        AnchoredTwice(old(repository.links)[c], old@before(repository.links)[c], repository.links[c]);
      }
    }
  }

  method Take(repository: Repository, step: Step)
    requires repository.Valid()
    modifies repository
    ensures repository.Valid()
    ensures forall c | c in old(repository.links) :: c in repository.links && Anchored(old(repository.links)[c], repository.links[c])
    ensures forall c :: Grew(old(repository.PeriodsOf(c)), repository.PeriodsOf(c))
  {
    match step
    case Bind(camera, candidate, delay) => { var _ := repository.Bind(camera, candidate, repository.clock + delay); }
    case Observe(camera, found, delay) => { var _ := repository.Observe(camera, found, repository.clock + delay); }
  }

  lemma AnchoredAlready(link: Identity)
    ensures Anchored(link, link)
  {
  }
}
