/** `_queue_targeted_recovery_scan`: which cameras the next recovery scan looks for. Adopted cameras are
    numbered in the order of their candidate identifiers; time is a monotonic clock. */
module ScanQueue {
  import opened Common
  import opened CameraIdentity

  const BATCH := 16
  const FAST_RETRIES := 12

  datatype Stream = Stream(enabled: bool, health: string, probe: Option<string>)

  /** An adopted camera with the inventory entry it is linked to. */
  datatype Adoption = Adoption(
    enabled: bool, streams: seq<Stream>, offline: bool, stalled: bool, conflict: bool,
    endpoint: Option<string>, mac: Option<string>)

  datatype Target = Target(id: int, endpoint: Option<string>, mac: Option<string>)

  type Attempts = map<int, int>

  // ----- which cameras need a scan

  predicate NeedsRecovery(a: Adoption) {
    && (exists s | s in a.streams :: s.enabled)
    && (a.offline || a.stalled
        || exists s | s in a.streams :: s.enabled
             && (s.health in ["offline", "auth_failed"]
                 || s.probe !in [None, Some("pending"), Some("ready"), Some("idle")]))
  }

  predicate FastRetry(a: Adoption) {
    || a.offline || a.stalled
    || exists s | s in a.streams :: s.enabled
         && (s.health == "offline" || s.probe in [Some("unavailable"), Some("timeout"), Some("error")])
  }

  predicate Needy(adoptions: map<int, Adoption>, c: int) {
    c in adoptions && adoptions[c].enabled && NeedsRecovery(adoptions[c])
  }

  function Wait(a: Adoption, count: nat, fast: int, slow: int): int {
    if FastRetry(a) && count <= FAST_RETRIES then fast else slow
  }

  /** The camera may be looked for now. */
  predicate Eligible(adoptions: map<int, Adoption>, attempts: Attempts, counts: map<int, nat>, c: int, now: int,
                     fast: int, slow: int)
  {
    && Needy(adoptions, c)
    && (c in attempts ==> now - attempts[c] >= Wait(adoptions[c], if c in counts then counts[c] else 0, fast, slow))
    && !adoptions[c].conflict
    && (adoptions[c].endpoint.Some? || adoptions[c].mac.Some?)
  }

  // ----- the order of service

  /** Cameras never looked for come first, then the longest waiting; ties go by identifier. */
  predicate Before(attempts: Attempts, a: int, b: int) {
    if a in attempts then b in attempts && (attempts[a] < attempts[b] || (attempts[a] == attempts[b] && a < b))
    else b in attempts || a < b
  }

  /** The cameras ahead of `c`. */
  ghost function Ahead(adoptions: map<int, Adoption>, attempts: Attempts, c: int): set<int> {
    set x | x in adoptions && Needy(adoptions, x) && Before(attempts, x, c)
  }

  lemma LeastOf(ids: set<int>, attempts: Attempts) returns (least: int)
    requires ids != {}
    ensures least in ids && forall x | x in ids :: x == least || Before(attempts, least, x)
    decreases ids
  {
    assert exists x: int :: x in ids by {
      if forall x: int :: x !in ids {
        assert false;
      }
    }
    var some :| some in ids;
    if ids == {some} {
      least := some;
    } else {
      var rest := ids - {some};
      assert ids == rest + {some};
      var other := LeastOf(rest, attempts);
      least := if Before(attempts, some, other) then some else other;
    }
  }

  ghost predicate InOrder(list: seq<int>, attempts: Attempts) {
    forall i, j | 0 <= i < j < |list| :: Before(attempts, list[i], list[j])
  }

  method Sort(ids: set<int>, attempts: Attempts) returns (list: seq<int>)
    ensures InOrder(list, attempts) && forall x :: x in list <==> x in ids
  {
    hide Before;
    list := [];
    var rest := ids;
    while rest != {}
      invariant rest <= ids && InOrder(list, attempts)
      invariant forall x :: x in list <==> x in ids && x !in rest
      invariant forall x, y | x in list && y in rest :: Before(attempts, x, y)
      decreases rest
    {
      ghost var least := LeastOf(rest, attempts);
      var next :| next in rest && forall x | x in rest :: x == next || Before(attempts, next, x);
      rest := rest - {next};
      list := list + [next];
    }
  }

  // ----- the batch

  function IdentityOf(endpoint: Option<string>, mac: Option<string>): Identity {
    Identity(None, mac, endpoint)
  }

  predicate Same(a: Adoption, t: Target) {
    SameIdentity(IdentityOf(a.endpoint, a.mac), IdentityOf(t.endpoint, t.mac))
  }

  method FindShared(targets: seq<Target>, a: Adoption) returns (found: Option<nat>)
    ensures found.Some? ==> found.value < |targets| && Same(a, targets[found.value])
    ensures found.None? ==> forall j | 0 <= j < |targets| :: !Same(a, targets[j])
  {
    for j := 0 to |targets|
      invariant forall k | 0 <= k < j :: !Same(a, targets[k])
    {
      if Same(a, targets[j]) {
        return Some(j);
      }
    }
    return None;
  }

  /** Those of the list that were chosen. */
  ghost function Chosen(list: seq<int>, selected: set<int>): set<int> {
    set x | x in list && x in selected
  }

  /** The target stands for the camera; if it has no endpoint reference, neither has the camera. */
  ghost predicate StandsFor(t: Target, a: Adoption) {
    Same(a, t) && (t.endpoint.None? ==> a.endpoint.None?)
  }

  /** Up to `n`, a camera was passed over only behind sixteen chosen ones. */
  ghost predicate FairUpTo(list: seq<int>, selected: set<int>, n: nat) {
    forall j | 0 <= j < n && j < |list| && list[j] !in selected :: |Chosen(list[..j], selected)| >= BATCH
  }

  ghost predicate Distinct(list: seq<int>) {
    forall i, j | 0 <= i < j < |list| :: list[i] != list[j]
  }

  lemma FairAfterChoice(list: seq<int>, selected: set<int>, n: nat)
    requires Distinct(list) && n < |list| && FairUpTo(list, selected, n)
    ensures FairUpTo(list, selected + {list[n]}, n + 1)
  {
    forall j | 0 <= j < n && list[j] !in selected ensures |Chosen(list[..j], selected + {list[n]})| >= BATCH {
      assert Chosen(list[..j], selected + {list[n]}) == Chosen(list[..j], selected);
    }
  }

  lemma FairAfterSkip(list: seq<int>, selected: set<int>, n: nat)
    requires n < |list| && FairUpTo(list, selected, n) && |selected| >= BATCH && forall x | x in selected :: x in list[..n]
    ensures FairUpTo(list, selected, n + 1)
  {
    forall x ensures x in Chosen(list[..n], selected) <==> x in selected {
    }
    assert Chosen(list[..n], selected) == selected;
  }

  /** Each chosen camera has a target that stands for it. */
  ghost predicate AllStand(stand: map<int, nat>, targets: seq<Target>, selected: set<int>, adoptions: map<int, Adoption>) {
    forall x | x in selected :: x in stand && x in adoptions && stand[x] < |targets| && StandsFor(targets[stand[x]], adoptions[x])
  }

  lemma StandNew(stand: map<int, nat>, targets: seq<Target>, selected: set<int>, adoptions: map<int, Adoption>, id: int)
    requires AllStand(stand, targets, selected, adoptions) && id in adoptions && id !in selected
    requires adoptions[id].endpoint.Some? || adoptions[id].mac.Some?
    ensures AllStand(stand[id := |targets|], targets + [Target(id, adoptions[id].endpoint, adoptions[id].mac)], selected + {id}, adoptions)
  {
    NewStandsFor(adoptions[id], id);
    hide StandsFor;
  }

  function Strengthened(targets: seq<Target>, shared: nat, a: Adoption, id: int): seq<Target>
    requires shared < |targets|
  {
    if a.endpoint.Some? && targets[shared].endpoint.None? then targets[shared := Target(id, a.endpoint, a.mac)] else targets
  }

  lemma StandShared(stand: map<int, nat>, targets: seq<Target>, selected: set<int>, adoptions: map<int, Adoption>, id: int, shared: nat)
    requires AllStand(stand, targets, selected, adoptions) && id in adoptions && id !in selected
    requires shared < |targets| && Same(adoptions[id], targets[shared])
    ensures AllStand(stand[id := shared], Strengthened(targets, shared, adoptions[id], id), selected + {id}, adoptions)
  {
    var a, t := adoptions[id], targets[shared];
    SharedStandsFor(t, a, id);
    if a.endpoint.Some? && t.endpoint.None? {
      forall x | x in selected && stand[x] == shared ensures StandsFor(Target(id, a.endpoint, a.mac), adoptions[x]) {
        UpdateStandsFor(t, a, adoptions[x], id);
      }
    }
    hide StandsFor;
  }

  /** The targets of a batch: at most sixteen, one for each physical identity met, and a camera is passed over
      only behind sixteen chosen ones. */
  method SelectBatch(adoptions: map<int, Adoption>, list: seq<int>) returns (targets: seq<Target>, selected: set<int>)
    requires forall x | x in list :: x in adoptions && (adoptions[x].endpoint.Some? || adoptions[x].mac.Some?)
    requires Distinct(list)
    ensures |targets| <= BATCH && forall x | x in selected :: x in list
    ensures targets == [] <==> list == []
    ensures targets == [] ==> selected == {}
    ensures forall x | x in selected :: x in adoptions && exists j :: 0 <= j < |targets| && StandsFor(targets[j], adoptions[x])
    ensures FairUpTo(list, selected, |list|)
  {
    hide Same, StandsFor, FairUpTo, AllStand, Distinct;
    targets, selected := [], {};
    ghost var stand: map<int, nat> := map[];
    NothingChosen(list, adoptions);
    for i := 0 to |list|
      invariant |targets| <= BATCH && |targets| <= |selected| && (targets == [] ==> selected == {} && i == 0)
      invariant forall x | x in selected :: x in list[..i]
      invariant AllStand(stand, targets, selected, adoptions) && FairUpTo(list, selected, i)
    {
      var id := list[i];
      assert id in list;
      NotYet(list, i);
      var a := adoptions[id];
      var shared := FindShared(targets, a);
      if shared.Some? {
        StandShared(stand, targets, selected, adoptions, id, shared.value);
        FairAfterChoice(list, selected, i);
        targets := Strengthened(targets, shared.value, a, id);
        stand, selected := stand[id := shared.value], selected + {id};
      } else if |targets| < BATCH {
        StandNew(stand, targets, selected, adoptions, id);
        FairAfterChoice(list, selected, i);
        stand, selected := stand[id := |targets|], selected + {id};
        targets := targets + [Target(id, a.endpoint, a.mac)];
      } else {
        FairAfterSkip(list, selected, i);
      }
    }
    StandingExists(stand, targets, selected, adoptions);
  }

  lemma NothingChosen(list: seq<int>, adoptions: map<int, Adoption>)
    ensures AllStand(map[], [], {}, adoptions) && FairUpTo(list, {}, 0)
  {
  }

  lemma StandingExists(stand: map<int, nat>, targets: seq<Target>, selected: set<int>, adoptions: map<int, Adoption>)
    requires AllStand(stand, targets, selected, adoptions)
    ensures forall x | x in selected :: x in adoptions && exists j :: 0 <= j < |targets| && StandsFor(targets[j], adoptions[x])
  {
  }

  lemma NotYet(list: seq<int>, i: nat)
    requires Distinct(list) && i < |list|
    ensures list[i] !in list[..i] && forall x :: x in list[..i + 1] <==> x in list[..i] || x == list[i]
  {
    assert list[..i + 1] == list[..i] + [list[i]];
  }

  lemma NewStandsFor(a: Adoption, id: int)
    requires a.endpoint.Some? || a.mac.Some?
    ensures StandsFor(Target(id, a.endpoint, a.mac), a)
  {
  }

  lemma SharedStandsFor(t: Target, a: Adoption, id: int)
    requires Same(a, t)
    ensures t.endpoint.Some? || a.endpoint.None? ==> StandsFor(t, a)
    ensures StandsFor(Target(id, a.endpoint, a.mac), a)
  {
  }

  /** Taking over the stronger evidence keeps the target good for the cameras it stood for. */
  lemma UpdateStandsFor(t: Target, a: Adoption, b: Adoption, id: int)
    requires Same(a, t) && a.endpoint.Some? && t.endpoint.None? && StandsFor(t, b)
    ensures StandsFor(Target(id, a.endpoint, a.mac), b)
  {
  }

  class Queue {
    var attempts: Attempts
    var counts: map<int, nat>
    var clock: int
    const fast: int
    const slow: int

    constructor (fast: int, slow: int, now: int)
      requires fast > 0 && slow > 0
      ensures Valid() && attempts == map[] && clock == now
    {
      this.fast, this.slow, clock := fast, slow, now;
      attempts, counts := map[], map[];
    }

    ghost predicate Valid()
      reads this
    {
      fast > 0 && slow > 0 && forall c | c in attempts :: attempts[c] <= clock
    }

    ghost predicate CanBeFound(adoptions: map<int, Adoption>, c: int, now: int)
      reads `attempts, `counts
    {
      Eligible(adoptions, attempts, counts, c, now, fast, slow)
    }

    /** Forget the attempts for cameras that are gone or need nothing. */
    method Forget(adoptions: map<int, Adoption>)
      requires Valid()
      modifies `attempts, `counts
      ensures Valid()
      ensures forall c :: c in attempts <==> c in old(attempts) && Needy(adoptions, c)
      ensures forall c | c in attempts :: attempts[c] == old(attempts)[c]
      ensures forall c :: c in counts <==> c in old(counts) && Needy(adoptions, c)
      ensures forall c | c in counts :: counts[c] == old(counts)[c]
    {
      hide Needy;
      attempts := map c | c in attempts && Needy(adoptions, c) :: attempts[c];
      counts := map c | c in counts && Needy(adoptions, c) :: counts[c];
    }

    /** The cameras that can be looked for now, in the order of service. */
    method Waiting(adoptions: map<int, Adoption>, now: int) returns (list: seq<int>)
      requires Valid()
      modifies `attempts, `counts
      ensures Valid()
      ensures forall c :: c in attempts <==> c in old(attempts) && Needy(adoptions, c)
      ensures forall c | c in attempts :: attempts[c] == old(attempts)[c]
      ensures forall c :: c in counts <==> c in old(counts) && Needy(adoptions, c)
      ensures forall c | c in counts :: counts[c] == old(counts)[c]
      ensures InOrder(list, attempts)
      ensures forall x :: x in list <==> old(CanBeFound(adoptions, x, now))
      ensures list == [] <==> !exists c :: old(CanBeFound(adoptions, c, now))
      ensures forall x :: x in list <==> x in adoptions && Eligible(adoptions, attempts, counts, x, now, fast, slow)
    {
      hide Needy, Before, Eligible, InOrder;
      Forget(adoptions);
      forall c
        ensures Eligible(adoptions, attempts, counts, c, now, fast, slow) == old(CanBeFound(adoptions, c, now))
        ensures Eligible(adoptions, attempts, counts, c, now, fast, slow) ==> c in adoptions
      {
        ForgettingKeeps(adoptions, old(attempts), old(counts), attempts, counts, c, now, fast, slow);
      }
      var ids := set c | c in adoptions && Eligible(adoptions, attempts, counts, c, now, fast, slow);
      list := Sort(ids, attempts);
      if list == [] {
        forall c ensures !old(CanBeFound(adoptions, c, now)) {
          assert c !in list;
        }
      } else {
        assert list[0] in list && old(CanBeFound(adoptions, list[0], now));
      }
    }

    /** The chosen cameras were looked for now, once more than before. */
    method Record(selected: set<int>, now: int)
      requires Valid() && now == clock
      modifies `attempts, `counts
      ensures Valid() && attempts == Served(old(attempts), selected, now)
      ensures forall c | c in selected :: c in counts && counts[c] == (if c in old(counts) then old(counts)[c] else 0) + 1
      ensures forall c | c !in selected :: (c in counts <==> c in old(counts)) && (c in counts ==> counts[c] == old(counts)[c])
    {
      attempts := Served(attempts, selected, now);
      counts := counts + map c | c in selected :: (if c in counts then counts[c] else 0) + 1;
    }

    /** `_queue_targeted_recovery_scan`. The scan is refused while paused or busy, or without a subnet; otherwise
        one is queued exactly when some camera can be looked for. A camera that could be looked for and is passed
        over moves up by at least sixteen places. */
    method Enqueue(adoptions: map<int, Adoption>, now: int, refused: bool, refusedLate: bool, ghost watched: int)
      returns (queued: bool, targets: seq<Target>, selected: set<int>)
      requires Valid() && clock <= now
      modifies this
      ensures Valid() && clock == now
      ensures queued <==> !refused && !refusedLate && exists c :: old(CanBeFound(adoptions, c, now))
      ensures queued ==> 0 < |targets| <= BATCH
      ensures queued ==> forall x | x in selected ::
                x in adoptions && exists j :: 0 <= j < |targets| && StandsFor(targets[j], adoptions[x])
      ensures forall x | x in selected :: old(CanBeFound(adoptions, x, now))
      ensures !queued ==> selected == {}
      ensures forall c | c in selected ::
                && c in attempts && attempts[c] == now && c in counts
                && counts[c] == (if c in old(counts) then old(counts)[c] else 0) + 1
      ensures forall c | c !in selected ::
                && (c in attempts <==> c in old(attempts) && (refused || Needy(adoptions, c)))
                && (c in attempts ==> attempts[c] == old(attempts)[c])
      ensures forall c | c !in selected ::
                && (c in counts <==> c in old(counts) && (refused || Needy(adoptions, c)))
                && (c in counts ==> counts[c] == old(counts)[c])
      ensures watched !in selected && Needy(adoptions, watched) ==>
                Ahead(adoptions, attempts, watched) <= Ahead(adoptions, old(attempts), watched)
      ensures queued && old(CanBeFound(adoptions, watched, now)) && watched !in selected ==>
                |Ahead(adoptions, attempts, watched)| + BATCH <= |Ahead(adoptions, old(attempts), watched)|
    {
      hide Needy, StandsFor, Eligible, InOrder, FairUpTo, Distinct, Ahead;
      queued, targets, selected := false, [], {};
      if refused {
        clock := now;
        return;
      }
      var list := Waiting(adoptions, now);
      clock := now;
      ghost var forgot := attempts;
      SameAhead(adoptions, old(attempts), attempts, watched);
      InOrderIsDistinct(list, attempts);
      forall x | x in list
        ensures x in adoptions && Needy(adoptions, x) && (adoptions[x].endpoint.Some? || adoptions[x].mac.Some?)
      {
        EligibleNeeds(adoptions, attempts, counts, x, now, fast, slow);
      }
      targets, selected := SelectBatch(adoptions, list);
      if targets == [] || refusedLate {
        selected := {};
        return;
      }
      queued := true;
      if Needy(adoptions, watched) && watched !in selected {
        MovesUp(adoptions, forgot, list, selected, watched, now, fast, slow, counts);
      }
      if old(CanBeFound(adoptions, watched, now)) {
        assert watched in list;
        EligibleNeeds(adoptions, attempts, counts, watched, now, fast, slow);
      }
      Record(selected, now);
    }
  }

  function Served(attempts: Attempts, selected: set<int>, now: int): Attempts {
    attempts + map c | c in selected :: now
  }

  lemma InOrderIsDistinct(list: seq<int>, attempts: Attempts)
    requires InOrder(list, attempts)
    ensures Distinct(list)
  {
  }

  /** Forgetting cameras that need nothing does not change who can be looked for. */
  lemma ForgettingKeeps(adoptions: map<int, Adoption>, attempts0: Attempts, counts0: map<int, nat>, attempts: Attempts,
                        counts: map<int, nat>, c: int, now: int, fast: int, slow: int)
    requires c in attempts <==> c in attempts0 && Needy(adoptions, c)
    requires c in counts <==> c in counts0 && Needy(adoptions, c)
    requires (c in attempts ==> attempts[c] == attempts0[c]) && (c in counts ==> counts[c] == counts0[c])
    ensures Eligible(adoptions, attempts0, counts0, c, now, fast, slow) <==> Eligible(adoptions, attempts, counts, c, now, fast, slow)
    ensures Eligible(adoptions, attempts, counts, c, now, fast, slow) ==> Needy(adoptions, c) && c in adoptions
  {
    hide NeedsRecovery, Wait;
  }

  /** Forgetting cameras that need nothing does not change who is ahead. */
  lemma SameAhead(adoptions: map<int, Adoption>, before: Attempts, attempts: Attempts, c: int)
    requires forall x :: x in attempts <==> x in before && Needy(adoptions, x)
    requires forall x | x in attempts :: attempts[x] == before[x]
    ensures Needy(adoptions, c) ==> Ahead(adoptions, attempts, c) == Ahead(adoptions, before, c)
  {
    hide Needy;
  }

  /** The chosen cameras go behind the watched one; sixteen of them were ahead if it could have been chosen. */
  lemma MovesUp(adoptions: map<int, Adoption>, attempts: Attempts, list: seq<int>, selected: set<int>, c: int, now: int,
                fast: int, slow: int, counts: map<int, nat>)
    requires fast > 0 && slow > 0 && forall x | x in attempts :: attempts[x] <= now
    requires InOrder(list, attempts) && c !in selected && Needy(adoptions, c)
    requires forall x :: x in list <==> x in adoptions && Eligible(adoptions, attempts, counts, x, now, fast, slow)
    requires forall x | x in selected :: x in list
    requires FairUpTo(list, selected, |list|)
    ensures Ahead(adoptions, Served(attempts, selected, now), c) <= Ahead(adoptions, attempts, c)
    ensures c in list ==> |Ahead(adoptions, Served(attempts, selected, now), c)| + BATCH <= |Ahead(adoptions, attempts, c)|
  {
    hide Needy, Wait;
    var after := Served(attempts, selected, now);
    forall x | x in Ahead(adoptions, after, c) ensures x in Ahead(adoptions, attempts, c) {
      if x in selected {
        assert x in list;
        EligibleWaited(adoptions, attempts, counts, x, now, fast, slow);
      }
    }
    if c in list {
      var j :| 0 <= j < |list| && list[j] == c;
      var chosen := Chosen(list[..j], selected);
      EligibleWaited(adoptions, attempts, counts, c, now, fast, slow);
      forall x | x in chosen ensures x in Ahead(adoptions, attempts, c) && x !in Ahead(adoptions, after, c) {
        var i :| 0 <= i < j && list[i] == x;
        assert list[i] in list;
        assert Before(attempts, list[i], list[j]);
        EligibleNeeds(adoptions, attempts, counts, x, now, fast, slow);
      }
      Shrinks(Ahead(adoptions, after, c), chosen, Ahead(adoptions, attempts, c));
    }
  }

  lemma EligibleWaited(adoptions: map<int, Adoption>, attempts: Attempts, counts: map<int, nat>, c: int, now: int, fast: int, slow: int)
    requires fast > 0 && slow > 0 && Eligible(adoptions, attempts, counts, c, now, fast, slow)
    ensures c in attempts ==> attempts[c] < now
  {
  }

  lemma EligibleNeeds(adoptions: map<int, Adoption>, attempts: Attempts, counts: map<int, nat>, c: int, now: int, fast: int, slow: int)
    requires Eligible(adoptions, attempts, counts, c, now, fast, slow)
    ensures c in adoptions && Needy(adoptions, c) && (adoptions[c].endpoint.Some? || adoptions[c].mac.Some?)
  {
  }

  lemma Shrinks(after: set<int>, gone: set<int>, before: set<int>)
    requires after <= before && gone <= before && gone !! after && |gone| >= BATCH
    ensures |after| + BATCH <= |before|
  {
    assert |after + gone| == |after| + |gone|;
    SubsetCount(after + gone, before);
  }

  lemma SubsetCount(a: set<int>, b: set<int>)
    requires a <= b
    ensures |a| <= |b|
  {
    assert b == a + (b - a);
  }

  /** One call: how much time passed, what the cameras are by then, and whether the scan is refused early or late. */
  datatype Round = Round(delay: nat, adoptions: map<int, Adoption>, refused: bool, refusedLate: bool) {
    predicate Accepted() {
      !refused && !refusedLate
    }
  }

  /** The time that passed up to the end of the first `n` rounds. */
  function Elapsed(rounds: seq<Round>, n: nat): nat
    requires n <= |rounds|
  {
    if n == 0 then 0 else Elapsed(rounds, n - 1) + rounds[n - 1].delay
  }

  /** The cameras as the first `n` rounds left them. */
  function Latest(adoptions: map<int, Adoption>, rounds: seq<Round>, n: nat): map<int, Adoption>
    requires n <= |rounds|
  {
    if n == 0 then adoptions else rounds[n - 1].adoptions
  }

  /** Every camera that is in need after was in need before. */
  ghost predicate NoneAnew(before: map<int, Adoption>, after: map<int, Adoption>) {
    forall c | Needy(after, c) :: Needy(before, c)
  }

  /** From round to round, cameras may change in any way, recover or go; none comes to need recovery anew, and
      the watched one stays in need. */
  ghost predicate NeverMore(adoptions: map<int, Adoption>, rounds: seq<Round>, watched: int) {
    && Needy(adoptions, watched)
    && forall i | 0 <= i < |rounds| ::
         NoneAnew(Latest(adoptions, rounds, i), rounds[i].adoptions) && Needy(rounds[i].adoptions, watched)
  }

  /** Among the first `n` rounds, those that queue a scan while the camera can be looked for, as long as it is
      not chosen: then neither its last attempt nor its count changes. */
  ghost function Chances(attempts: Attempts, counts: map<int, nat>, c: int, start: int, rounds: seq<Round>, n: nat,
                         fast: int, slow: int): nat
    requires n <= |rounds|
  {
    if n == 0 then 0
    else Chances(attempts, counts, c, start, rounds, n - 1, fast, slow)
         + if  && rounds[n - 1].Accepted()
               && Eligible(rounds[n - 1].adoptions, attempts, counts, c, start + Elapsed(rounds, n), fast, slow)
           then 1 else 0
  }

  /** A camera that can be looked for stays so until it is; then every accepted round is a chance. */
  lemma {:induction false} AllChances(attempts: Attempts, counts: map<int, nat>, c: int, start: int, rounds: seq<Round>, n: nat,
                                      fast: int, slow: int)
    requires n <= |rounds| && forall i | 0 <= i < n :: rounds[i].Accepted()
    requires forall i | 0 <= i < n :: Eligible(rounds[i].adoptions, attempts, counts, c, start, fast, slow)
    ensures Chances(attempts, counts, c, start, rounds, n, fast, slow) == n
  {
    hide NeedsRecovery, Wait;
    if n > 0 {
      AllChances(attempts, counts, c, start, rounds, n - 1, fast, slow);
      EligibleLater(rounds[n - 1].adoptions, attempts, counts, c, start, start + Elapsed(rounds, n), fast, slow);
    }
  }

  lemma EligibleLater(adoptions: map<int, Adoption>, attempts: Attempts, counts: map<int, nat>, c: int, now: int, later: int,
                      fast: int, slow: int)
    requires now <= later && Eligible(adoptions, attempts, counts, c, now, fast, slow)
    ensures Eligible(adoptions, attempts, counts, c, later, fast, slow)
  {
    hide NeedsRecovery, Wait;
  }

  lemma FewerAhead(before: map<int, Adoption>, after: map<int, Adoption>, attempts: Attempts, c: int)
    requires NoneAnew(before, after)
    ensures Ahead(after, attempts, c) <= Ahead(before, attempts, c)
    ensures |Ahead(after, attempts, c)| <= |Ahead(before, attempts, c)|
  {
    hide NeedsRecovery, Before;
    forall x | x in Ahead(after, attempts, c) ensures x in Ahead(before, attempts, c) {
      assert Needy(before, x);
    }
    SubsetCount(Ahead(after, attempts, c), Ahead(before, attempts, c));
  }

  /** What Eligible asks of the schedule about one camera. */
  lemma SameEntry(adoptions: map<int, Adoption>, attempts0: Attempts, counts0: map<int, nat>, attempts: Attempts,
                  counts: map<int, nat>, c: int, now: int, fast: int, slow: int)
    requires (c in attempts <==> c in attempts0) && (c in attempts ==> attempts[c] == attempts0[c])
    requires (c in counts <==> c in counts0) && (c in counts ==> counts[c] == counts0[c])
    ensures Eligible(adoptions, attempts, counts, c, now, fast, slow) == Eligible(adoptions, attempts0, counts0, c, now, fast, slow)
  {
    hide NeedsRecovery, Wait;
  }

  /** One round: the camera is chosen, or each chance moves it up by sixteen places. */
  method Try(queue: Queue, before: map<int, Adoption>, watched: int, round: Round) returns (chosen: bool)
    requires queue.Valid() && Needy(round.adoptions, watched) && NoneAnew(before, round.adoptions)
    modifies queue
    ensures queue.Valid() && queue.clock == old(queue.clock) + round.delay
    ensures chosen ==>
              && round.Accepted() && old(queue.CanBeFound(round.adoptions, watched, queue.clock + round.delay))
              && watched in queue.attempts && queue.attempts[watched] == queue.clock
    ensures !chosen ==>
              && (watched in queue.attempts <==> watched in old(queue.attempts))
              && (watched in queue.attempts ==> queue.attempts[watched] == old(queue.attempts)[watched])
              && (watched in queue.counts <==> watched in old(queue.counts))
              && (watched in queue.counts ==> queue.counts[watched] == old(queue.counts)[watched])
    ensures !chosen ==>
              |Ahead(round.adoptions, queue.attempts, watched)|
              + (if round.Accepted() && old(queue.CanBeFound(round.adoptions, watched, queue.clock + round.delay)) then BATCH else 0)
              <= |Ahead(before, old(queue.attempts), watched)|
  {
    hide Needy, Before, Eligible, Ahead, NoneAnew, StandsFor;
    FewerAhead(before, round.adoptions, queue.attempts, watched);
    var now := queue.clock + round.delay;
    var queued, targets, selected := queue.Enqueue(round.adoptions, now, round.refused, round.refusedLate, watched);
    chosen := watched in selected;
    if !chosen {
      SubsetCount(Ahead(round.adoptions, queue.attempts, watched), Ahead(round.adoptions, old(queue.attempts), watched));
    }
  }

  /** While no camera comes to need recovery anew, every chance that passes a camera over takes sixteen cameras from
      ahead of it. It is chosen, in the round named, before its chances outnumber the sixteens ahead of it; and
      within a sixteenth of its rank, plus one, when it can be looked for and every round is accepted. */
  method WaitIsBounded(queue: Queue, adoptions: map<int, Adoption>, watched: int, rounds: seq<Round>)
    returns (chosen: Option<nat>)
    requires queue.Valid() && NeverMore(adoptions, rounds, watched)
    modifies queue
    ensures chosen.None? ==>
              BATCH * Chances(old(queue.attempts), old(queue.counts), watched, old(queue.clock), rounds, |rounds|,
                              queue.fast, queue.slow)
              <= |Ahead(adoptions, old(queue.attempts), watched)|
    ensures chosen.Some? ==>
              && chosen.value < |rounds| && rounds[chosen.value].Accepted()
              && Eligible(rounds[chosen.value].adoptions, old(queue.attempts), old(queue.counts), watched,
                          old(queue.clock) + Elapsed(rounds, chosen.value + 1), queue.fast, queue.slow)
              && BATCH * Chances(old(queue.attempts), old(queue.counts), watched, old(queue.clock), rounds,
                                 chosen.value, queue.fast, queue.slow)
                 <= |Ahead(adoptions, old(queue.attempts), watched)|
              && watched in queue.attempts && queue.attempts[watched] == old(queue.clock) + Elapsed(rounds, chosen.value + 1)
    ensures (forall r | r in rounds :: r.Accepted() && old(queue.CanBeFound(r.adoptions, watched, queue.clock)))
            && |rounds| == |Ahead(adoptions, old(queue.attempts), watched)| / BATCH + 1
            ==> chosen.Some?
  {
    hide Needy, Before, Eligible, Ahead, NoneAnew;
    ghost var attempts, counts, start := queue.attempts, queue.counts, queue.clock;
    for i := 0 to |rounds|
      invariant queue.Valid() && queue.clock == start + Elapsed(rounds, i)
      invariant (watched in queue.attempts <==> watched in attempts) && (watched in queue.counts <==> watched in counts)
      invariant watched in attempts ==> queue.attempts[watched] == attempts[watched]
      invariant watched in counts ==> queue.counts[watched] == counts[watched]
      invariant BATCH * Chances(attempts, counts, watched, start, rounds, i, queue.fast, queue.slow)
                + |Ahead(Latest(adoptions, rounds, i), queue.attempts, watched)| <= |Ahead(adoptions, attempts, watched)|
    {
      SameEntry(rounds[i].adoptions, attempts, counts, queue.attempts, queue.counts, watched, queue.clock + rounds[i].delay,
                queue.fast, queue.slow);
      var now := Try(queue, Latest(adoptions, rounds, i), watched, rounds[i]);
      if now {
        return Some(i);
      }
    }
    if forall r | r in rounds :: r.Accepted() && Eligible(r.adoptions, attempts, counts, watched, start, queue.fast, queue.slow) {
      AllChances(attempts, counts, watched, start, rounds, |rounds|, queue.fast, queue.slow);
    }
    return None;
  }
}
