/** The matching part of `discover_targeted`: which known camera is now at which address, judged by ONVIF
    endpoint references and by the local MAC table. Identities are already stripped and in lower case; the MAC
    table holds the addresses within the scanned subnet. */
module TargetedDiscovery {
  import opened Common
  import opened Grouping

  datatype Device = Device(ip: string, endpoint: string)
  datatype Target = Target(id: string, endpoint: string, mac: string)

  // ----- what a match rests on

  /** Exactly one announced device carries the target's endpoint reference, at address `a`. */
  ghost predicate ByEndpoint(devices: seq<Device>, t: Target, a: string) {
    && t.endpoint != ""
    && exists d :: Sole(devices, t.endpoint, d) && d.ip == a
  }

  ghost predicate Sole(devices: seq<Device>, endpoint: string, d: Device) {
    && multiset(devices)[d] == 1 && d.endpoint == endpoint
    && forall e | e in devices && e.endpoint == endpoint :: e == d
  }

  ghost predicate Unseen(devices: seq<Device>, endpoint: string) {
    endpoint == "" || forall d | d in devices :: d.endpoint != endpoint
  }

  /** The only target with this endpoint evidence for the address; listed once. */
  ghost predicate WinsByEndpoint(devices: seq<Device>, targets: seq<Target>, t: Target, a: string) {
    && t in targets && multiset(targets)[t] == 1 && ByEndpoint(devices, t, a)
    && forall u | u in targets && ByEndpoint(devices, u, a) :: u == t
  }

  ghost predicate Taken(devices: seq<Device>, targets: seq<Target>, a: string) {
    exists t :: WinsByEndpoint(devices, targets, t, a)
  }

  /** No device carries the target's endpoint reference, and its MAC is at one untaken address. */
  ghost predicate ByMac(devices: seq<Device>, arp: map<string, string>, targets: seq<Target>, t: Target, a: string) {
    && Unseen(devices, t.endpoint) && t.mac != ""
    && a in arp && arp[a] == t.mac && !Taken(devices, targets, a)
    && forall b | b in arp && arp[b] == t.mac && !Taken(devices, targets, b) :: b == a
  }

  ghost predicate WinsByMac(devices: seq<Device>, arp: map<string, string>, targets: seq<Target>, t: Target, a: string) {
    && t in targets && multiset(targets)[t] == 1 && ByMac(devices, arp, targets, t, a)
    && forall u | u in targets && ByMac(devices, arp, targets, u, a) :: u == t
  }

  ghost predicate Wins(devices: seq<Device>, arp: map<string, string>, targets: seq<Target>, t: Target, a: string) {
    WinsByEndpoint(devices, targets, t, a) || WinsByMac(devices, arp, targets, t, a)
  }

  /** The matches are exactly the targets that win an address. */
  ghost predicate IsMatching(matches: map<string, string>, devices: seq<Device>, arp: map<string, string>, targets: seq<Target>) {
    && (forall t, a | t in targets && Wins(devices, arp, targets, t, a) :: t.id in matches && matches[t.id] == a)
    && (forall id | id in matches :: exists t :: t in targets && t.id == id && Wins(devices, arp, targets, t, matches[id]))
  }

  /** No identifier wins two addresses. */
  ghost predicate Unambiguous(devices: seq<Device>, arp: map<string, string>, targets: seq<Target>) {
    forall t, u, a, b | Wins(devices, arp, targets, t, a) && Wins(devices, arp, targets, u, b) && t.id == u.id :: a == b
  }

  ghost predicate DistinctIds(targets: seq<Target>) {
    forall i, j | 0 <= i < j < |targets| :: targets[i].id != targets[j].id
  }

  // ----- properties of the matching

  /** No two targets win one address. */
  lemma OneTargetPerAddress(devices: seq<Device>, arp: map<string, string>, targets: seq<Target>, t: Target, u: Target, a: string)
    requires Wins(devices, arp, targets, t, a) && Wins(devices, arp, targets, u, a)
    ensures t == u
  {
    hide ByEndpoint;
    if WinsByMac(devices, arp, targets, t, a) || WinsByMac(devices, arp, targets, u, a) {
      assert !Taken(devices, targets, a);
    }
  }

  /** No target wins two addresses. */
  lemma OneAddressPerTarget(devices: seq<Device>, arp: map<string, string>, targets: seq<Target>, t: Target, a: string, b: string)
    requires Wins(devices, arp, targets, t, a) && Wins(devices, arp, targets, t, b)
    ensures a == b
  {
    hide Taken;
    if WinsByEndpoint(devices, targets, t, a) || WinsByEndpoint(devices, targets, t, b) {
      var d :| Sole(devices, t.endpoint, d);
      assert d in devices;
      assert !Unseen(devices, t.endpoint);
    }
  }

  /** A matching sends different targets to different addresses. */
  lemma MatchingIsInjective(matches: map<string, string>, devices: seq<Device>, arp: map<string, string>, targets: seq<Target>,
                            id: string, other: string)
    requires IsMatching(matches, devices, arp, targets)
    requires id in matches && other in matches && matches[id] == matches[other]
    ensures id == other
  {
    hide Wins;
    var t :| t in targets && t.id == id && Wins(devices, arp, targets, t, matches[id]);
    var u :| u in targets && u.id == other && Wins(devices, arp, targets, u, matches[other]);
    OneTargetPerAddress(devices, arp, targets, t, u, matches[id]);
  }

  /** Two targets with evidence of the same kind for one address: neither is matched to anything. */
  lemma ContestedClaimsLose(devices: seq<Device>, arp: map<string, string>, targets: seq<Target>, t: Target, u: Target,
                            a: string, b: string)
    requires t in targets && u in targets && t != u
    requires (ByEndpoint(devices, t, a) && ByEndpoint(devices, u, a))
             || (ByMac(devices, arp, targets, t, a) && ByMac(devices, arp, targets, u, a))
    ensures !Wins(devices, arp, targets, t, b)
  {
    hide Taken;
    if ByEndpoint(devices, t, a) {
      var d :| Sole(devices, t.endpoint, d) && d.ip == a;
      assert d in devices;
      assert !Unseen(devices, t.endpoint);
    }
  }

  /** The order of announcements and of targets does not matter. */
  lemma OrderDoesNotMatter(devices: seq<Device>, devices': seq<Device>, arp: map<string, string>,
                           targets: seq<Target>, targets': seq<Target>, m: map<string, string>, m': map<string, string>)
    requires multiset(devices) == multiset(devices') && multiset(targets) == multiset(targets')
    requires IsMatching(m, devices, arp, targets) && IsMatching(m', devices', arp, targets')
    ensures m == m'
  {
    hide Wins;
    SameElements(devices, devices');
    SameElements(targets, targets');
    forall t, a ensures Wins(devices, arp, targets, t, a) <==> Wins(devices', arp, targets', t, a) {
      WinsPermutes(devices, devices', arp, targets, targets', t, a);
    }
    Includes(m, m', devices, devices', arp, targets, targets');
    Includes(m', m, devices', devices, arp, targets', targets);
  }

  lemma SameElements<T>(s: seq<T>, t: seq<T>)
    requires multiset(s) == multiset(t)
    ensures forall x :: x in s <==> x in t
  {
    forall x ensures x in s <==> x in t {
      assert x in s <==> x in multiset(s);
      assert x in t <==> x in multiset(t);
    }
  }

  lemma Includes(m: map<string, string>, m': map<string, string>, devices: seq<Device>, devices': seq<Device>, arp: map<string, string>,
                 targets: seq<Target>, targets': seq<Target>)
    requires IsMatching(m, devices, arp, targets) && IsMatching(m', devices', arp, targets')
    requires forall t :: t in targets <==> t in targets'
    requires forall t, a :: Wins(devices, arp, targets, t, a) <==> Wins(devices', arp, targets', t, a)
    ensures forall id | id in m :: id in m' && m'[id] == m[id]
  {
    hide Wins;
    forall id | id in m ensures id in m' && m'[id] == m[id] {
      var t :| t in targets && t.id == id && Wins(devices, arp, targets, t, m[id]);
      assert Wins(devices', arp, targets', t, m[id]);
    }
  }

  lemma EndpointPermutes(devices: seq<Device>, devices': seq<Device>, t: Target, a: string)
    requires multiset(devices) == multiset(devices')
    ensures ByEndpoint(devices, t, a) <==> ByEndpoint(devices', t, a)
    ensures Unseen(devices, t.endpoint) <==> Unseen(devices', t.endpoint)
  {
    SameElements(devices, devices');
    if ByEndpoint(devices, t, a) {
      var d :| Sole(devices, t.endpoint, d) && d.ip == a;
      assert Sole(devices', t.endpoint, d);
    }
    if ByEndpoint(devices', t, a) {
      var d :| Sole(devices', t.endpoint, d) && d.ip == a;
      assert Sole(devices, t.endpoint, d);
    }
  }

  lemma WinsPermutes(devices: seq<Device>, devices': seq<Device>, arp: map<string, string>, targets: seq<Target>, targets': seq<Target>,
                     t: Target, a: string)
    requires multiset(devices) == multiset(devices') && multiset(targets) == multiset(targets')
    ensures Wins(devices, arp, targets, t, a) <==> Wins(devices', arp, targets', t, a)
  {
    hide ByEndpoint, Unseen;
    SameElements(targets, targets');
    forall u, b ensures ByEndpoint(devices, u, b) <==> ByEndpoint(devices', u, b) {
      EndpointPermutes(devices, devices', u, b);
    }
    forall b ensures Taken(devices, targets, b) <==> Taken(devices', targets', b) {
      TakenAlike(devices, devices', targets, targets', b);
      TakenAlike(devices', devices, targets', targets, b);
    }
    hide Taken;
    forall u, b ensures ByMac(devices, arp, targets, u, b) <==> ByMac(devices', arp, targets', u, b) {
      EndpointPermutes(devices, devices', u, b);
    }
  }

  lemma TakenAlike(devices: seq<Device>, devices': seq<Device>, targets: seq<Target>, targets': seq<Target>, a: string)
    requires multiset(targets) == multiset(targets') && forall t :: t in targets <==> t in targets'
    requires forall u, b :: ByEndpoint(devices, u, b) <==> ByEndpoint(devices', u, b)
    ensures Taken(devices, targets, a) ==> Taken(devices', targets', a)
  {
    hide ByEndpoint;
    if Taken(devices, targets, a) {
      var t :| WinsByEndpoint(devices, targets, t, a);
      assert WinsByEndpoint(devices', targets', t, a);
    }
  }

  /** An identifier that wins two addresses leaves no matching at all. */
  lemma MatchingIsUnambiguous(matches: map<string, string>, devices: seq<Device>, arp: map<string, string>, targets: seq<Target>)
    requires IsMatching(matches, devices, arp, targets)
    ensures Unambiguous(devices, arp, targets)
  {
    forall t, u, a, b | Wins(devices, arp, targets, t, a) && Wins(devices, arp, targets, u, b) && t.id == u.id ensures a == b {
      assert t in targets && u in targets;
      hide Wins;
      assert matches[t.id] == a && matches[u.id] == b;
    }
  }

  /** Distinct identifiers are enough. */
  lemma DistinctIsUnambiguous(devices: seq<Device>, arp: map<string, string>, targets: seq<Target>)
    requires DistinctIds(targets)
    ensures Unambiguous(devices, arp, targets)
  {
    forall t, u, a, b | Wins(devices, arp, targets, t, a) && Wins(devices, arp, targets, u, b) && t.id == u.id ensures a == b {
      assert t in targets && u in targets;
      SameId(targets, t, u);
      OneAddressPerTarget(devices, arp, targets, t, a, b);
    }
  }

  // ----- limits

  /** An address that two endpoint claims contest is still open to a third target, by its MAC. */
  lemma ContestedAddressCanBeMatchedByMac(devices: seq<Device>, arp: map<string, string>, targets: seq<Target>,
                                          t: Target, u: Target, c: Target, a: string)
    requires t in targets && u in targets && t != u && ByEndpoint(devices, t, a) && ByEndpoint(devices, u, a)
    requires c in targets && multiset(targets)[c] == 1 && Unseen(devices, c.endpoint) && c.mac != ""
    requires forall b :: b in arp && arp[b] == c.mac <==> b == a
    requires forall v | v in targets && v.mac == c.mac :: v == c
    ensures Wins(devices, arp, targets, c, a)
  {
    hide ByEndpoint, Unseen;
    assert !Taken(devices, targets, a);
    hide Taken;
    assert ByMac(devices, arp, targets, c, a);
    assert WinsByMac(devices, arp, targets, c, a);
  }

  // ----- the evidence of each target

  /** The endpoint references that were announced; an empty one is none. */
  function Announced(devices: seq<Device>): seq<Option<string>> {
    seq(|devices|, i requires 0 <= i < |devices| => if devices[i].endpoint == "" then None else Some(devices[i].endpoint))
  }

  /** Listed once means listed at one place. */
  lemma OncePlaced<T>(s: seq<T>, i: nat)
    requires i < |s|
    ensures multiset(s)[s[i]] == 1 <==> forall j | 0 <= j < |s| && s[j] == s[i] :: j == i
  {
    var x := s[i];
    assert s == s[..i] + [x] + s[i + 1..];
    if forall j | 0 <= j < |s| && s[j] == x :: j == i {
      assert x !in s[..i] && x !in s[i + 1..];
    }
    forall j | 0 <= j < |s| && s[j] == x && j != i ensures multiset(s)[x] >= 2 {
      TwoPlaces(s, if i < j then i else j, if i < j then j else i);
    }
  }

  lemma TwoPlaces<T>(s: seq<T>, i: nat, j: nat)
    requires i < j < |s| && s[i] == s[j]
    ensures multiset(s)[s[i]] >= 2
  {
    assert s == s[..i] + [s[i]] + s[i + 1..j] + [s[i]] + s[j + 1..];
  }

  lemma OneIndex(devices: seq<Device>, i: nat)
    requires i < |devices| && forall j | 0 <= j < |devices| && devices[j].endpoint == devices[i].endpoint :: j == i
    ensures Sole(devices, devices[i].endpoint, devices[i])
  {
    OncePlaced(devices, i);
  }

  /** What the number of hits says. */
  lemma HitsMean(devices: seq<Device>, t: Target, hits: seq<nat>)
    requires hits == if t.endpoint == "" then [] else Where(Announced(devices), t.endpoint)
    ensures hits == [] <==> Unseen(devices, t.endpoint)
    ensures |hits| == 1 ==> hits[0] < |devices| && forall a :: ByEndpoint(devices, t, a) <==> a == devices[hits[0]].ip
    ensures |hits| != 1 ==> forall a :: !ByEndpoint(devices, t, a)
  {
    var keys := Announced(devices);
    if t.endpoint != "" {
      forall d | d in devices && d.endpoint == t.endpoint ensures hits != [] {
        var i :| 0 <= i < |devices| && devices[i] == d;
        assert keys[i] == Some(t.endpoint);
      }
      if hits != [] {
        var i := hits[0];
        assert i in hits && keys[i] == Some(t.endpoint) && devices[i] in devices;
        WhereOnce(keys, t.endpoint, i);
        if |hits| == 1 {
          forall j | 0 <= j < |devices| && devices[j].endpoint == devices[i].endpoint ensures j == i {
            assert keys[j] == Some(t.endpoint);
          }
          OneIndex(devices, i);
        } else {
          var j :| 0 <= j < |keys| && keys[j] == Some(t.endpoint) && j != i;
          SeveralAreNone(devices, t, i, j);
        }
      }
    }
  }

  lemma SeveralAreNone(devices: seq<Device>, t: Target, i: nat, j: nat)
    requires i < |devices| && j < |devices| && i != j
    requires devices[i].endpoint == t.endpoint && devices[j].endpoint == t.endpoint
    ensures forall a :: !ByEndpoint(devices, t, a)
  {
    forall d ensures !Sole(devices, t.endpoint, d) {
      assert devices[i] in devices && devices[j] in devices;
      if Sole(devices, t.endpoint, d) {
        OncePlaced(devices, i);
        assert false;
      }
    }
  }

  /** The claims on addresses agree with the evidence of each target. */
  ghost predicate EndpointClaims(claims: seq<Option<string>>, devices: seq<Device>, targets: seq<Target>) {
    && |claims| == |targets|
    && forall i | 0 <= i < |targets| :: forall a :: claims[i] == Some(a) <==> ByEndpoint(devices, targets[i], a)
  }

  /** A single claim on an address wins it. */
  lemma SingleClaimWins(claims: seq<Option<string>>, devices: seq<Device>, targets: seq<Target>, i: nat, a: string)
    requires EndpointClaims(claims, devices, targets) && i < |targets| && claims[i] == Some(a)
    ensures |Where(claims, a)| == 1 <==> WinsByEndpoint(devices, targets, targets[i], a)
  {
    hide ByEndpoint;
    WhereOnce(claims, a, i);
    OncePlaced(targets, i);
    if WinsByEndpoint(devices, targets, targets[i], a) {
      forall j | 0 <= j < |claims| && claims[j] == Some(a) ensures j == i {
        assert targets[j] in targets;
      }
    }
    if |Where(claims, a)| == 1 {
      forall u | u in targets && ByEndpoint(devices, u, a) ensures u == targets[i] {
        var j :| 0 <= j < |targets| && targets[j] == u;
        assert claims[j] == Some(a);
      }
      forall j | 0 <= j < |targets| && targets[j] == targets[i] ensures j == i {
        assert claims[j] == Some(a);
      }
    }
  }

  // ----- the algorithm

  /** The uncontested claims of the first n targets; under one identifier the last one stays. */
  ghost function LastClaims(targets: seq<Target>, claims: seq<Option<string>>, n: nat): map<string, string>
    requires n <= |targets| == |claims|
  {
    if n == 0 then map[]
    else if claims[n - 1].Some? && |Where(claims, claims[n - 1].value)| == 1 then
      LastClaims(targets, claims, n - 1)[targets[n - 1].id := claims[n - 1].value]
    else LastClaims(targets, claims, n - 1)
  }

  ghost predicate Recorded(matches: map<string, string>, devices: seq<Device>, targets: seq<Target>) {
    exists claims :: EndpointClaims(claims, devices, targets) && matches == LastClaims(targets, claims, |targets|)
  }

  /** Two claims under one identifier, on different addresses: the second one is recorded. */
  lemma SecondIsRecorded(matches: map<string, string>, devices: seq<Device>, t: Target, u: Target, a: string, b: string)
    requires Recorded(matches, devices, [t, u]) && t.id == u.id && a != b
    requires ByEndpoint(devices, t, a) && ByEndpoint(devices, u, b)
    ensures matches == map[t.id := b]
  {
    var targets := [t, u];
    var claims :| EndpointClaims(claims, devices, targets) && matches == LastClaims(targets, claims, |targets|);
    hide ByEndpoint;
    assert ByEndpoint(devices, targets[0], a) && ByEndpoint(devices, targets[1], b);
    assert claims[0] == Some(a) && claims[1] == Some(b);
    WhereOnce(claims, a, 0);
    WhereOnce(claims, b, 1);
    assert LastClaims(targets, claims, 1) == map[t.id := a];
  }

  /** One of the first `n` targets has the identifier and wins the address. */
  ghost predicate WonBefore(devices: seq<Device>, targets: seq<Target>, n: nat, id: string, a: string)
    requires n <= |targets|
  {
    exists i :: 0 <= i < n && targets[i].id == id && WinsByEndpoint(devices, targets, targets[i], a)
  }

  /** The matches of the targets before `n` that rest on endpoints. */
  ghost predicate EndpointMatches(matches: map<string, string>, devices: seq<Device>, targets: seq<Target>, n: nat)
    requires n <= |targets|
  {
    && (forall i, a {:trigger WinsByEndpoint(devices, targets, targets[i], a)} |
          0 <= i < n && WinsByEndpoint(devices, targets, targets[i], a) ::
          targets[i].id in matches && matches[targets[i].id] == a)
    && (forall id | id in matches :: WonBefore(devices, targets, n, id, matches[id]))
  }

  /** The addresses that they take. */
  ghost predicate EndpointsTake(claimed: set<string>, devices: seq<Device>, targets: seq<Target>, n: nat)
    requires n <= |targets|
  {
    && (forall i, a {:trigger WinsByEndpoint(devices, targets, targets[i], a)} |
          0 <= i < n && WinsByEndpoint(devices, targets, targets[i], a) :: a in claimed)
    && (forall a | a in claimed :: Taken(devices, targets, a))
  }

  /** The endpoint claims of the targets. */
  method Claims(devices: seq<Device>, targets: seq<Target>) returns (hits: seq<seq<nat>>, claims: seq<Option<string>>)
    ensures |hits| == |targets| && EndpointClaims(claims, devices, targets)
    ensures forall i | 0 <= i < |targets| :: hits[i] == [] <==> Unseen(devices, targets[i].endpoint)
    ensures forall i | 0 <= i < |targets| :: |hits[i]| == 1 <==> claims[i].Some?
  {
    hide ByEndpoint, Unseen;
    var byEndpoint := Group(Announced(devices));
    hits, claims := [], [];
    for i := 0 to |targets|
      invariant |hits| == i && |claims| == i
      invariant forall j | 0 <= j < i :: hits[j] == [] <==> Unseen(devices, targets[j].endpoint)
      invariant forall j | 0 <= j < i :: |hits[j]| == 1 <==> claims[j].Some?
      invariant forall j | 0 <= j < i :: forall a :: claims[j] == Some(a) <==> ByEndpoint(devices, targets[j], a)
    {
      var hit := if targets[i].endpoint == "" then [] else Found(byEndpoint, targets[i].endpoint);
      HitsMean(devices, targets[i], hit);
      hits := hits + [hit];
      claims := claims + [if |hit| == 1 then Some(devices[hit[0]].ip) else None];
    }
  }

  /** Matches by endpoint; targets whose endpoint was not seen fall back to their MAC. */
  method MatchEndpoints(devices: seq<Device>, targets: seq<Target>, ghost arp: map<string, string>)
    returns (matches: map<string, string>, claimed: set<string>, fallbacks: seq<nat>)
    ensures Unambiguous(devices, arp, targets) ==> EndpointMatches(matches, devices, targets, |targets|)
    ensures EndpointsTake(claimed, devices, targets, |targets|)
    ensures AllFallbacks(devices, targets, fallbacks) && Recorded(matches, devices, targets)
  {
    hide ByEndpoint, Unseen, WinsByEndpoint, EndpointMatches, EndpointsTake, Unambiguous, EndpointClaims, LastClaims, Where;
    var hits, claims := Claims(devices, targets);
    var groups := Group(claims);
    matches, claimed, fallbacks := map[], {}, [];
    NothingMatched(devices, targets);
    CountClaims(claims, devices, targets);
    for i := 0 to |targets|
      invariant Unambiguous(devices, arp, targets) ==> EndpointMatches(matches, devices, targets, i)
      invariant EndpointsTake(claimed, devices, targets, i)
      invariant matches == LastClaims(targets, claims, i)
      invariant forall k | 0 <= k < |fallbacks| :: fallbacks[k] < i && Unseen(devices, targets[fallbacks[k]].endpoint)
      invariant forall j | 0 <= j < i && Unseen(devices, targets[j].endpoint) :: j in fallbacks
      invariant forall j, k | 0 <= j < k < |fallbacks| :: fallbacks[j] != fallbacks[k]
    {
      OneMoreClaim(targets, claims, i);
      ClaimDecides(claims, devices, targets, i);
      TakeOne(claimed, devices, targets, i);
      if Unambiguous(devices, arp, targets) {
        MatchOne(matches, devices, arp, targets, i);
      }
      if |hits[i]| > 1 {
        continue;
      }
      if |hits[i]| == 1 {
        var address := claims[i].value;
        if |Found(groups, address)| != 1 {
          continue;
        }
        matches := matches[targets[i].id := address];
        claimed := claimed + {address};
        continue;
      }
      fallbacks := fallbacks + [i];
    }
  }

  lemma CountClaims(claims: seq<Option<string>>, devices: seq<Device>, targets: seq<Target>)
    requires EndpointClaims(claims, devices, targets)
    ensures |claims| == |targets| && LastClaims(targets, claims, 0) == map[]
  {
  }

  lemma OneMoreClaim(targets: seq<Target>, claims: seq<Option<string>>, i: nat)
    requires i < |targets| == |claims|
    ensures LastClaims(targets, claims, i + 1) ==
            if claims[i].Some? && |Where(claims, claims[i].value)| == 1 then
              LastClaims(targets, claims, i)[targets[i].id := claims[i].value]
            else LastClaims(targets, claims, i)
  {
  }

  lemma NothingMatched(devices: seq<Device>, targets: seq<Target>)
    ensures EndpointMatches(map[], devices, targets, 0) && EndpointsTake({}, devices, targets, 0)
  {
  }

  lemma TakeOne(claimed: set<string>, devices: seq<Device>, targets: seq<Target>, i: nat)
    requires i < |targets| && EndpointsTake(claimed, devices, targets, i)
    ensures (forall a :: !WinsByEndpoint(devices, targets, targets[i], a)) ==> EndpointsTake(claimed, devices, targets, i + 1)
    ensures forall a | WinsByEndpoint(devices, targets, targets[i], a) :: EndpointsTake(claimed + {a}, devices, targets, i + 1)
  {
    forall a | WinsByEndpoint(devices, targets, targets[i], a) ensures EndpointsTake(claimed + {a}, devices, targets, i + 1) {
      hide WinsByEndpoint;
      forall b | WinsByEndpoint(devices, targets, targets[i], b) ensures b == a {
        OneAddressPerTarget(devices, map[], targets, targets[i], a, b);
      }
    }
  }

  /** The next target either wins its address or leaves the matches as they are. */
  lemma MatchOne(matches: map<string, string>, devices: seq<Device>, arp: map<string, string>, targets: seq<Target>, i: nat)
    requires i < |targets| && Unambiguous(devices, arp, targets) && EndpointMatches(matches, devices, targets, i)
    ensures (forall a :: !WinsByEndpoint(devices, targets, targets[i], a)) ==> EndpointMatches(matches, devices, targets, i + 1)
    ensures forall a | WinsByEndpoint(devices, targets, targets[i], a) ::
              EndpointMatches(matches[targets[i].id := a], devices, targets, i + 1)
  {
    hide ByEndpoint, Unambiguous;
    forall a | WinsByEndpoint(devices, targets, targets[i], a)
      ensures EndpointMatches(matches[targets[i].id := a], devices, targets, i + 1)
    {
      MatchRecorded(matches, devices, arp, targets, i, a);
    }
  }

  lemma MatchRecorded(matches: map<string, string>, devices: seq<Device>, arp: map<string, string>, targets: seq<Target>, i: nat, a: string)
    requires i < |targets| && Unambiguous(devices, arp, targets) && EndpointMatches(matches, devices, targets, i)
    requires WinsByEndpoint(devices, targets, targets[i], a)
    ensures EndpointMatches(matches[targets[i].id := a], devices, targets, i + 1)
  {
    hide WinsByEndpoint, WinsByMac;
    var after := matches[targets[i].id := a];
    forall j, b | 0 <= j < i + 1 && WinsByEndpoint(devices, targets, targets[j], b)
      ensures targets[j].id in after && after[targets[j].id] == b
    {
      assert Wins(devices, arp, targets, targets[i], a) && Wins(devices, arp, targets, targets[j], b);
    }
    forall id | id in after ensures WonBefore(devices, targets, i + 1, id, after[id]) {
      if id == targets[i].id {
        assert WinsByEndpoint(devices, targets, targets[i], after[id]);
      } else {
        assert WonBefore(devices, targets, i, id, matches[id]);
      }
    }
  }

  lemma ClaimDecides(claims: seq<Option<string>>, devices: seq<Device>, targets: seq<Target>, i: nat)
    requires EndpointClaims(claims, devices, targets) && i < |targets|
    ensures claims[i].None? ==> forall a :: !WinsByEndpoint(devices, targets, targets[i], a)
    ensures claims[i].Some? ==> forall a :: WinsByEndpoint(devices, targets, targets[i], a) <==>
                                            a == claims[i].value && |Where(claims, a)| == 1
  {
    hide ByEndpoint;
    if claims[i].Some? {
      SingleClaimWins(claims, devices, targets, i, claims[i].value);
    }
  }

  function AddressesOf(arp: map<string, string>, mac: string): set<string> {
    set a | a in arp && arp[a] == mac
  }

  /** `addresses_by_mac` */
  method AddressesByMac(arp: map<string, string>) returns (byMac: map<string, set<string>>)
    ensures forall mac :: (mac in byMac <==> AddressesOf(arp, mac) != {}) && (mac in byMac ==> byMac[mac] == AddressesOf(arp, mac))
  {
    byMac := map[];
    var rest := arp.Keys;
    while rest != {}
      invariant rest <= arp.Keys
      invariant forall mac :: mac in byMac <==> AddressesOf(arp, mac) - rest != {}
      invariant forall mac | mac in byMac :: byMac[mac] == AddressesOf(arp, mac) - rest
      decreases rest
    {
      var a :| a in rest;
      ghost var before := rest;
      rest := rest - {a};
      forall mac ensures AddressesOf(arp, mac) - rest == (AddressesOf(arp, mac) - before) + if arp[a] == mac then {a} else {} {
      }
      byMac := byMac[arp[a] := (if arp[a] in byMac then byMac[arp[a]] else {}) + {a}];
    }
    forall mac ensures AddressesOf(arp, mac) - rest == AddressesOf(arp, mac) {
    }
  }

  /** After the endpoint matches, an address is claimed exactly when it is taken. */
  lemma ClaimedIsTaken(claimed: set<string>, devices: seq<Device>, targets: seq<Target>, a: string)
    requires EndpointsTake(claimed, devices, targets, |targets|)
    ensures a in claimed <==> Taken(devices, targets, a)
  {
    hide ByEndpoint;
    if Taken(devices, targets, a) {
      var t :| WinsByEndpoint(devices, targets, t, a);
      var i :| 0 <= i < |targets| && targets[i] == t;
      assert WinsByEndpoint(devices, targets, targets[i], a);
    }
  }

  /** The address that a fallback claims by its MAC, if exactly one is available. */
  lemma AvailableMeans(devices: seq<Device>, arp: map<string, string>, targets: seq<Target>, t: Target, claimed: set<string>,
                       available: set<string>)
    requires Unseen(devices, t.endpoint) && forall a :: a in claimed <==> Taken(devices, targets, a)
    requires available == (if t.mac == "" then {} else AddressesOf(arp, t.mac)) - claimed
    ensures forall a :: ByMac(devices, arp, targets, t, a) <==> available == {a}
  {
    hide Taken, Unseen;
    forall a ensures ByMac(devices, arp, targets, t, a) <==> available == {a} {
      if available == {a} {
        assert a in available;
        forall b | b in arp && arp[b] == t.mac && !Taken(devices, targets, b) ensures b == a {
          assert b in available;
        }
      }
      if ByMac(devices, arp, targets, t, a) {
        assert a in available && forall b | b in available :: b == a;
      }
    }
  }

  ghost predicate MacClaims(keys: seq<Option<string>>, devices: seq<Device>, arp: map<string, string>, targets: seq<Target>,
                            fallbacks: seq<nat>) {
    && |keys| == |fallbacks|
    && (forall k | 0 <= k < |fallbacks| :: fallbacks[k] < |targets|)
    && forall k | 0 <= k < |fallbacks| :: forall a :: keys[k] == Some(a) <==> ByMac(devices, arp, targets, targets[fallbacks[k]], a)
  }

  ghost predicate AllFallbacks(devices: seq<Device>, targets: seq<Target>, fallbacks: seq<nat>) {
    && (forall k | 0 <= k < |fallbacks| :: fallbacks[k] < |targets| && Unseen(devices, targets[fallbacks[k]].endpoint))
    && (forall i | 0 <= i < |targets| && Unseen(devices, targets[i].endpoint) :: i in fallbacks)
    && (forall i, j | 0 <= i < j < |fallbacks| :: fallbacks[i] != fallbacks[j])
  }

  /** `mac_claims`, before they are counted. */
  method ClaimMacs(devices: seq<Device>, arp: map<string, string>, targets: seq<Target>, fallbacks: seq<nat>, claimed: set<string>)
    returns (keys: seq<Option<string>>)
    requires EndpointsTake(claimed, devices, targets, |targets|)
    requires forall k | 0 <= k < |fallbacks| :: fallbacks[k] < |targets| && Unseen(devices, targets[fallbacks[k]].endpoint)
    ensures |keys| == |fallbacks| && MacClaims(keys, devices, arp, targets, fallbacks)
  {
    hide EndpointsTake, ByMac, Unseen, Taken;
    var byMac := AddressesByMac(arp);
    forall a ensures a in claimed <==> Taken(devices, targets, a) {
      ClaimedIsTaken(claimed, devices, targets, a);
    }
    keys := [];
    for k := 0 to |fallbacks|
      invariant |keys| == k
      invariant forall j | 0 <= j < k :: forall a :: keys[j] == Some(a) <==> ByMac(devices, arp, targets, targets[fallbacks[j]], a)
    {
      var t := targets[fallbacks[k]];
      var available := (if t.mac != "" && t.mac in byMac then byMac[t.mac] else {}) - claimed;
      AvailableMeans(devices, arp, targets, t, claimed, available);
      if |available| == 1 {
        var a := Only(available);
        keys := keys + [Some(a)];
      } else {
        NotSingleton(available);
        keys := keys + [None];
      }
    }
  }

  method Only(s: set<string>) returns (a: string)
    requires |s| == 1
    ensures s == {a}
  {
    a :| a in s;
    assert |s - {a}| == 0;
  }

  lemma NotSingleton(s: set<string>)
    requires |s| != 1
    ensures forall a :: s != {a}
  {
  }

  lemma SingleMacWins(keys: seq<Option<string>>, devices: seq<Device>, arp: map<string, string>, targets: seq<Target>,
                      fallbacks: seq<nat>, k: nat, a: string)
    requires MacClaims(keys, devices, arp, targets, fallbacks) && AllFallbacks(devices, targets, fallbacks)
    requires k < |keys| && keys[k] == Some(a)
    ensures |Where(keys, a)| == 1 <==> WinsByMac(devices, arp, targets, targets[fallbacks[k]], a)
  {
    hide ByEndpoint, Taken;
    var t := targets[fallbacks[k]];
    assert fallbacks[k] in fallbacks;
    WhereOnce(keys, a, k);
    OncePlaced(targets, fallbacks[k]);
    if WinsByMac(devices, arp, targets, t, a) {
      forall j | 0 <= j < |keys| && keys[j] == Some(a) ensures j == k {
        assert fallbacks[j] in fallbacks && targets[fallbacks[j]] in targets;
        assert targets[fallbacks[j]] == t;
      }
    }
    if |Where(keys, a)| == 1 {
      forall i, u | 0 <= i < |targets| && targets[i] == u && ByMac(devices, arp, targets, u, a) ensures i == fallbacks[k] {
        assert i in fallbacks;
        var j :| 0 <= j < |fallbacks| && fallbacks[j] == i;
        assert keys[j] == Some(a);
      }
    }
  }

  /** The endpoint matches and the MAC matches on the addresses of `done`. */
  ghost predicate MatchedSoFar(matches: map<string, string>, devices: seq<Device>, arp: map<string, string>, targets: seq<Target>,
                               done: set<string>) {
    && (forall t, a {:trigger Wins(devices, arp, targets, t, a)} |
          t in targets && Wins(devices, arp, targets, t, a) && (a in done || WinsByEndpoint(devices, targets, t, a)) ::
          t.id in matches && matches[t.id] == a)
    && (forall id | id in matches :: exists t :: t in targets && t.id == id && Wins(devices, arp, targets, t, matches[id]))
  }

  lemma EndpointsFirst(matches: map<string, string>, devices: seq<Device>, arp: map<string, string>, targets: seq<Target>)
    requires EndpointMatches(matches, devices, targets, |targets|)
    ensures MatchedSoFar(matches, devices, arp, targets, {})
  {
    hide ByEndpoint, ByMac;
    forall t, a | t in targets && WinsByEndpoint(devices, targets, t, a) ensures t.id in matches && matches[t.id] == a {
      var i :| 0 <= i < |targets| && targets[i] == t;
      assert WinsByEndpoint(devices, targets, targets[i], a);
    }
    forall id | id in matches ensures exists t :: t in targets && t.id == id && Wins(devices, arp, targets, t, matches[id]) {
      assert WonBefore(devices, targets, |targets|, id, matches[id]);
      var i :| 0 <= i < |targets| && targets[i].id == id && WinsByEndpoint(devices, targets, targets[i], matches[id]);
      assert targets[i] in targets && Wins(devices, arp, targets, targets[i], matches[id]);
    }
  }

  lemma MacDecides(matches: map<string, string>, devices: seq<Device>, arp: map<string, string>, targets: seq<Target>,
                   done: set<string>, t: Target, a: string)
    requires MatchedSoFar(matches, devices, arp, targets, done) && Unambiguous(devices, arp, targets)
    requires WinsByMac(devices, arp, targets, t, a)
    ensures MatchedSoFar(matches[t.id := a], devices, arp, targets, done + {a})
  {
    hide WinsByEndpoint, WinsByMac;
    var after := matches[t.id := a];
    assert t in targets && Wins(devices, arp, targets, t, a) by { WinsIsWins(devices, arp, targets, t, a); }
    forall u, b | u in targets && Wins(devices, arp, targets, u, b) && (b in done + {a} || WinsByEndpoint(devices, targets, u, b))
      ensures u.id in after && after[u.id] == b
    {
      hide Wins;
      if b == a {
        OneTargetPerAddress(devices, arp, targets, t, u, a);
      }
    }
    forall id | id in after ensures exists u :: u in targets && u.id == id && Wins(devices, arp, targets, u, after[id]) {
      hide Wins;
      if id != t.id {
        var u :| u in targets && u.id == id && Wins(devices, arp, targets, u, matches[id]);
        assert Wins(devices, arp, targets, u, after[id]);
      }
    }
  }

  lemma WinsIsWins(devices: seq<Device>, arp: map<string, string>, targets: seq<Target>, t: Target, a: string)
    requires WinsByMac(devices, arp, targets, t, a)
    ensures t in targets && Wins(devices, arp, targets, t, a)
  {
  }

  lemma SameId(targets: seq<Target>, t: Target, u: Target)
    requires DistinctIds(targets) && t in targets && u in targets && t.id == u.id
    ensures t == u
  {
    var i :| 0 <= i < |targets| && targets[i] == t;
    var j :| 0 <= j < |targets| && targets[j] == u;
  }

  /** The matching part of `discover_targeted`: the result is the matching, unless one identifier wins two addresses,
      and then there is none. */
  method Discover(devices: seq<Device>, arp: map<string, string>, targets: seq<Target>) returns (matches: map<string, string>)
    ensures IsMatching(matches, devices, arp, targets) <==> Unambiguous(devices, arp, targets)
    ensures (forall t | t in targets :: !Unseen(devices, t.endpoint)) ==> Recorded(matches, devices, targets)
  {
    hide Recorded, Unseen, Unambiguous, EndpointMatches, EndpointsTake, AllFallbacks, MacClaims, MatchedSoFar, IsMatching, Wins,
      WinsByMac, WinsByEndpoint;
    var claimed, fallbacks, keys;
    matches, claimed, fallbacks := MatchEndpoints(devices, targets, arp);
    FallbacksFit(devices, targets, fallbacks);
    keys := ClaimMacs(devices, arp, targets, fallbacks, claimed);
    ghost var byEndpoint := matches;
    if Unambiguous(devices, arp, targets) {
      EndpointsFirst(matches, devices, arp, targets);
    }
    var claims := Group(keys);
    var rest := claims.Keys;
    assert claims.Keys - rest == {};
    while rest != {}
      invariant rest <= claims.Keys && (keys == [] ==> matches == byEndpoint)
      invariant Unambiguous(devices, arp, targets) ==> MatchedSoFar(matches, devices, arp, targets, claims.Keys - rest)
      decreases rest
    {
      var a :| a in rest;
      ghost var done := claims.Keys - rest;
      rest := rest - {a};
      assert claims.Keys - rest == done + {a};
      var k := claims[a][0];
      assert k in Where(keys, a);
      if Unambiguous(devices, arp, targets) {
        SingleMacWins(keys, devices, arp, targets, fallbacks, k, a);
        if |claims[a]| != 1 {
          ContestedDecides(matches, keys, devices, arp, targets, fallbacks, done, a);
        } else {
          MacDecides(matches, devices, arp, targets, done, targets[fallbacks[k]], a);
        }
      }
      if |claims[a]| != 1 {
        continue;
      }
      matches := matches[targets[fallbacks[k]].id := a];
    }
    assert claims.Keys - rest == claims.Keys;
    NobodyFallsBack(devices, targets, fallbacks);
    if Unambiguous(devices, arp, targets) {
      AllMatched(matches, keys, devices, arp, targets, fallbacks, claims.Keys);
    }
    if IsMatching(matches, devices, arp, targets) {
      MatchingIsUnambiguous(matches, devices, arp, targets);
    }
  }

  /** What repeated identifiers do: two targets under one identifier that both win an address by their endpoint
      references are recorded one over the other, so the result depends on their order. */
  method BothOrders(devices: seq<Device>, arp: map<string, string>, t: Target, u: Target, ghost a: string, ghost b: string)
    returns (m: map<string, string>, m': map<string, string>)
    requires t.id == u.id && a != b && ByEndpoint(devices, t, a) && ByEndpoint(devices, u, b)
    ensures m == map[t.id := b] && m' == map[t.id := a]
  {
    m := Discover(devices, arp, [t, u]);
    m' := Discover(devices, arp, [u, t]);
    SecondIsRecorded(m, devices, t, u, a, b);
    SecondIsRecorded(m', devices, u, t, b, a);
  }

  lemma NobodyFallsBack(devices: seq<Device>, targets: seq<Target>, fallbacks: seq<nat>)
    requires AllFallbacks(devices, targets, fallbacks)
    ensures (forall t | t in targets :: !Unseen(devices, t.endpoint)) ==> fallbacks == []
  {
    hide Unseen;
    if fallbacks != [] {
      assert targets[fallbacks[0]] in targets && Unseen(devices, targets[fallbacks[0]].endpoint);
    }
  }

  lemma FallbacksFit(devices: seq<Device>, targets: seq<Target>, fallbacks: seq<nat>)
    requires AllFallbacks(devices, targets, fallbacks)
    ensures forall k | 0 <= k < |fallbacks| :: fallbacks[k] < |targets| && Unseen(devices, targets[fallbacks[k]].endpoint)
  {
  }

  /** A target that wins an address by its MAC has claimed it. */
  lemma WinnerClaims(keys: seq<Option<string>>, devices: seq<Device>, arp: map<string, string>, targets: seq<Target>,
                     fallbacks: seq<nat>, t: Target, a: string) returns (k: nat)
    requires MacClaims(keys, devices, arp, targets, fallbacks) && AllFallbacks(devices, targets, fallbacks)
    requires WinsByMac(devices, arp, targets, t, a)
    ensures k < |keys| && keys[k] == Some(a) && k < |fallbacks| && fallbacks[k] < |targets| && targets[fallbacks[k]] == t
  {
    hide ByEndpoint, Taken;
    var i :| 0 <= i < |targets| && targets[i] == t;
    assert i in fallbacks;
    k :| 0 <= k < |fallbacks| && fallbacks[k] == i;
  }

  lemma ContestedDecides(matches: map<string, string>, keys: seq<Option<string>>, devices: seq<Device>, arp: map<string, string>,
                         targets: seq<Target>, fallbacks: seq<nat>, done: set<string>, a: string)
    requires MacClaims(keys, devices, arp, targets, fallbacks) && AllFallbacks(devices, targets, fallbacks)
    requires MatchedSoFar(matches, devices, arp, targets, done) && |Where(keys, a)| != 1
    ensures MatchedSoFar(matches, devices, arp, targets, done + {a})
  {
    hide WinsByEndpoint, WinsByMac, AllFallbacks, MacClaims;
    forall t | WinsByMac(devices, arp, targets, t, a) ensures false {
      var k := WinnerClaims(keys, devices, arp, targets, fallbacks, t, a);
      SingleMacWins(keys, devices, arp, targets, fallbacks, k, a);
    }
  }

  lemma AllMatched(matches: map<string, string>, keys: seq<Option<string>>, devices: seq<Device>, arp: map<string, string>,
                   targets: seq<Target>, fallbacks: seq<nat>, done: set<string>)
    requires MacClaims(keys, devices, arp, targets, fallbacks) && AllFallbacks(devices, targets, fallbacks)
    requires MatchedSoFar(matches, devices, arp, targets, done)
    requires forall k | 0 <= k < |keys| && keys[k].Some? :: keys[k].value in done
    ensures IsMatching(matches, devices, arp, targets)
  {
    hide WinsByEndpoint, WinsByMac, AllFallbacks, MacClaims;
    forall t, a | t in targets && Wins(devices, arp, targets, t, a) ensures t.id in matches && matches[t.id] == a {
      if WinsByMac(devices, arp, targets, t, a) {
        var k := WinnerClaims(keys, devices, arp, targets, fallbacks, t, a);
      }
    }
  }
}
