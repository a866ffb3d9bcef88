/** `reconcile_inventory` and its neighbours: which inventory entry an observation continues. MAC addresses and
    endpoint references are already stripped and in lower case, an absent one is empty; the order in which a
    list is shown is not modelled. */
module Inventory {
  import opened Common
  import opened Grouping

  datatype Onvif = Onvif(endpoint: string, name: string)
  datatype Conflict = Conflict(mac: bool, endpoint: bool)

  /** One result of a scan. */
  datatype Observation = Observation(id: string, ip: string, name: string, mac: string, onvif: Option<Onvif>, rtsp: seq<string>)

  /** An entry of the inventory. */
  datatype Device = Device(
    id: string, ip: string, name: string, mac: string, onvif: Option<Onvif>, rtsp: seq<string>,
    online: bool, service: bool, missed: nat, firstSeen: Option<int>, lastSeen: Option<int>, lastService: Option<int>,
    conflict: Conflict)

  // ----- keys

  function Key(s: string): Option<string> {
    if s == "" then None else Some(s)
  }

  function EndpointKey(onvif: Option<Onvif>): Option<string> {
    if onvif.Some? then Key(onvif.value.endpoint) else None
  }

  function Macs(devices: seq<Device>): (r: seq<Option<string>>)
    ensures |r| == |devices|
  {
    seq(|devices|, i requires 0 <= i < |devices| => Key(devices[i].mac))
  }

  function Endpoints(devices: seq<Device>): (r: seq<Option<string>>)
    ensures |r| == |devices|
  {
    seq(|devices|, i requires 0 <= i < |devices| => EndpointKey(devices[i].onvif))
  }

  function SeenMacs(current: seq<Observation>): (r: seq<Option<string>>)
    ensures |r| == |current|
  {
    seq(|current|, i requires 0 <= i < |current| => Key(current[i].mac))
  }

  function SeenEndpoints(current: seq<Observation>): (r: seq<Option<string>>)
    ensures |r| == |current|
  {
    seq(|current|, i requires 0 <= i < |current| => EndpointKey(current[i].onvif))
  }

  // ----- who continues whom

  /** The entry that alone holds the key, if also a single observation holds it. */
  ghost function Owner(held: seq<Option<string>>, seen: seq<Option<string>>, key: Option<string>): Option<nat> {
    if key.Some? && |Where(held, key.value)| == 1 && |Where(seen, key.value)| == 1 then Some(Where(held, key.value)[0]) else None
  }

  /** The first entry at the address. */
  ghost function AtAddress(previous: seq<Device>, ip: string): Option<nat> {
    if ip == "" || previous == [] then None
    else if AtAddress(previous[..|previous| - 1], ip).Some? then AtAddress(previous[..|previous| - 1], ip)
    else if previous[|previous| - 1].ip == ip then Some(|previous| - 1) else None
  }

  ghost predicate Free(owner: Option<nat>, taken: set<nat>) {
    owner.Some? && owner.value !in taken
  }

  /** The entry that the i-th observation continues: by endpoint reference, else by MAC, else, without any key,
      by address. */
  ghost function Choice(previous: seq<Device>, current: seq<Observation>, i: nat, taken: set<nat>): Option<nat>
    requires i < |current|
  {
    var seen := current[i];
    var byEndpoint := Owner(Endpoints(previous), SeenEndpoints(current), EndpointKey(seen.onvif));
    var byMac := Owner(Macs(previous), SeenMacs(current), Key(seen.mac));
    if Free(byEndpoint, taken) then byEndpoint
    else if Free(byMac, taken) then byMac
    else if EndpointKey(seen.onvif).None? && Key(seen.mac).None? && Free(AtAddress(previous, seen.ip), taken)
    then AtAddress(previous, seen.ip)
    else None
  }

  function Taken(matches: seq<Option<nat>>): set<nat> {
    set m | m in matches && m.Some? :: m.value
  }

  /** The entries that the first n observations continue, one observation after the other. */
  ghost function Matches(previous: seq<Device>, current: seq<Observation>, n: nat): (r: seq<Option<nat>>)
    requires n <= |current|
    ensures |r| == n
  {
    if n == 0 then [] else Matches(previous, current, n - 1) + [Choice(previous, current, n - 1, Taken(Matches(previous, current, n - 1)))]
  }

  lemma {:induction false} AtAddressIsThere(previous: seq<Device>, ip: string)
    ensures AtAddress(previous, ip).Some? ==>
              var j := AtAddress(previous, ip).value;
              ip != "" && j < |previous| && previous[j].ip == ip && forall k | 0 <= k < j :: previous[k].ip != ip
    ensures AtAddress(previous, ip).None? && ip != "" ==> forall k | 0 <= k < |previous| :: previous[k].ip != ip
  {
    if ip != "" && previous != [] {
      AtAddressIsThere(previous[..|previous| - 1], ip);
    }
  }

  /** The i-th choice is the one made after the choices before it. */
  lemma {:induction false} MatchIsChoice(previous: seq<Device>, current: seq<Observation>, n: nat, i: nat)
    requires i < n <= |current|
    ensures Matches(previous, current, n)[..i] == Matches(previous, current, i)
    ensures Matches(previous, current, n)[i] == Choice(previous, current, i, Taken(Matches(previous, current, i)))
  {
    hide Choice;
    if i < n - 1 {
      MatchIsChoice(previous, current, n - 1, i);
      assert Matches(previous, current, n)[..i] == Matches(previous, current, n - 1)[..i];
    } else {
      assert Matches(previous, current, n)[..i] == Matches(previous, current, i);
    }
  }

  lemma OwnerIsThere(held: seq<Option<string>>, seen: seq<Option<string>>, key: Option<string>, i: nat)
    requires i < |seen| && seen[i] == key && Owner(held, seen, key).Some?
    ensures var j := Owner(held, seen, key).value;
            && key.Some? && j < |held| && held[j] == key
            && (forall k | 0 <= k < |held| && held[k] == key :: k == j)
            && (forall k | 0 <= k < |seen| && seen[k] == key :: k == i)
  {
    var j := Where(held, key.value)[0];
    assert j in Where(held, key.value);
    WhereOnce(held, key.value, j);
    WhereOnce(seen, key.value, i);
  }

  /** Why an identifier moves to an observation: a key that no other entry and no other observation holds, or,
      for an observation without any key, the address. */
  ghost predicate Justified(previous: seq<Device>, current: seq<Observation>, i: nat, j: nat)
    requires i < |current| && j < |previous|
  {
    || (current[i].mac != "" && previous[j].mac == current[i].mac
        && (forall k | 0 <= k < |previous| && previous[k].mac == current[i].mac :: k == j)
        && (forall k | 0 <= k < |current| && current[k].mac == current[i].mac :: k == i))
    || (EndpointKey(current[i].onvif).Some? && EndpointKey(previous[j].onvif) == EndpointKey(current[i].onvif)
        && (forall k | 0 <= k < |previous| && EndpointKey(previous[k].onvif) == EndpointKey(current[i].onvif) :: k == j)
        && (forall k | 0 <= k < |current| && EndpointKey(current[k].onvif) == EndpointKey(current[i].onvif) :: k == i))
    || (current[i].mac == "" && EndpointKey(current[i].onvif).None? && current[i].ip != "" && previous[j].ip == current[i].ip)
  }

  lemma ChoiceIsJustified(previous: seq<Device>, current: seq<Observation>, i: nat, taken: set<nat>)
    requires i < |current| && Choice(previous, current, i, taken).Some?
    ensures var j := Choice(previous, current, i, taken).value;
            j < |previous| && j !in taken && Justified(previous, current, i, j)
  {
    hide Owner, AtAddress, Justified;
    var seen := current[i];
    var j := Choice(previous, current, i, taken).value;
    var byEndpoint := Owner(Endpoints(previous), SeenEndpoints(current), EndpointKey(seen.onvif));
    var byMac := Owner(Macs(previous), SeenMacs(current), Key(seen.mac));
    if Free(byEndpoint, taken) {
      OwnerIsThere(Endpoints(previous), SeenEndpoints(current), EndpointKey(seen.onvif), i);
      JustifiedByEndpoint(previous, current, i, j);
    } else if Free(byMac, taken) {
      OwnerIsThere(Macs(previous), SeenMacs(current), Key(seen.mac), i);
      JustifiedByMac(previous, current, i, j);
    } else {
      AtAddressIsThere(previous, seen.ip);
      JustifiedByAddress(previous, current, i, j);
    }
  }

  lemma JustifiedByEndpoint(previous: seq<Device>, current: seq<Observation>, i: nat, j: nat)
    requires i < |current| && j < |previous| && EndpointKey(current[i].onvif).Some?
    requires Endpoints(previous)[j] == EndpointKey(current[i].onvif)
    requires forall k | 0 <= k < |previous| && Endpoints(previous)[k] == EndpointKey(current[i].onvif) :: k == j
    requires forall k | 0 <= k < |current| && SeenEndpoints(current)[k] == EndpointKey(current[i].onvif) :: k == i
    ensures Justified(previous, current, i, j)
  {
    var key := EndpointKey(current[i].onvif);
    forall k | 0 <= k < |previous| && EndpointKey(previous[k].onvif) == key ensures k == j {
      assert Endpoints(previous)[k] == key;
    }
    forall k | 0 <= k < |current| && EndpointKey(current[k].onvif) == key ensures k == i {
      assert SeenEndpoints(current)[k] == key;
    }
  }

  lemma JustifiedByMac(previous: seq<Device>, current: seq<Observation>, i: nat, j: nat)
    requires i < |current| && j < |previous| && Key(current[i].mac).Some?
    requires Macs(previous)[j] == Key(current[i].mac)
    requires forall k | 0 <= k < |previous| && Macs(previous)[k] == Key(current[i].mac) :: k == j
    requires forall k | 0 <= k < |current| && SeenMacs(current)[k] == Key(current[i].mac) :: k == i
    ensures Justified(previous, current, i, j)
  {
    var key := Key(current[i].mac);
    forall k | 0 <= k < |previous| && previous[k].mac == current[i].mac ensures k == j {
      assert Macs(previous)[k] == key;
    }
    forall k | 0 <= k < |current| && current[k].mac == current[i].mac ensures k == i {
      assert SeenMacs(current)[k] == key;
    }
  }

  lemma JustifiedByAddress(previous: seq<Device>, current: seq<Observation>, i: nat, j: nat)
    requires i < |current| && j < |previous| && Key(current[i].mac).None? && EndpointKey(current[i].onvif).None?
    requires current[i].ip != "" && previous[j].ip == current[i].ip
    ensures Justified(previous, current, i, j)
  {
  }

  /** No entry is continued twice, and every continuation is justified. */
  ghost predicate Sound(previous: seq<Device>, current: seq<Observation>, m: seq<Option<nat>>) {
    && |m| <= |current|
    && (forall i | 0 <= i < |m| && m[i].Some? :: m[i].value < |previous| && Justified(previous, current, i, m[i].value))
    && (forall i, k | 0 <= i < k < |m| && m[i].Some? && m[k].Some? :: m[i].value != m[k].value)
  }

  lemma {:induction false} MatchesAreSound(previous: seq<Device>, current: seq<Observation>, n: nat)
    requires n <= |current|
    ensures Sound(previous, current, Matches(previous, current, n))
  {
    if n > 0 {
      MatchesAreSound(previous, current, n - 1);
      OneMoreIsSound(previous, current, Matches(previous, current, n - 1));
    }
  }

  lemma OneMoreIsSound(previous: seq<Device>, current: seq<Observation>, m: seq<Option<nat>>)
    requires Sound(previous, current, m) && |m| < |current|
    ensures Sound(previous, current, m + [Choice(previous, current, |m|, Taken(m))])
  {
    hide Choice, Justified;
    var next := Choice(previous, current, |m|, Taken(m));
    if next.Some? {
      ChoiceIsJustified(previous, current, |m|, Taken(m));
      forall i | 0 <= i < |m| && m[i].Some? ensures m[i].value != next.value {
        assert m[i] in m && m[i].value in Taken(m);
      }
    }
  }

  // ----- the next inventory

  /** `_merge_online`: the observation wins, but an address that stays keeps what was not seen again. */
  function Merge(prior: Option<Device>, seen: Observation, at: int, spare: string): Device {
    var same := prior.Some? && prior.value.ip == seen.ip;
    Device(
      if prior.Some? && prior.value.id != "" then prior.value.id else if seen.id != "" then seen.id else spare,
      seen.ip,
      if same && seen.name == seen.ip && prior.value.name != "" then prior.value.name else seen.name,
      seen.mac,
      if same && seen.onvif.None? then prior.value.onvif else seen.onvif,
      if same && seen.rtsp == [] then prior.value.rtsp else seen.rtsp,
      true, true, 0,
      Some(if prior.Some? && prior.value.firstSeen.Some? then prior.value.firstSeen.value else at), Some(at), Some(at),
      Conflict(false, false))
  }

  function Or<T>(a: Option<T>, b: Option<T>): Option<T> {
    if a.Some? then a else b
  }

  /** An entry without an observation: reachable by ping alone, or offline. */
  function Aged(prior: Device, reachable: bool, at: int, spare: string): Device {
    var id := if prior.id != "" then prior.id else spare;
    if reachable then
      prior.(id := id, online := true, service := false, missed := 0, lastSeen := Some(at),
           lastService := Or(prior.lastService, prior.lastSeen), firstSeen := Or(prior.firstSeen, Or(prior.lastSeen, Some(at))))
    else
      prior.(id := id, online := false, missed := prior.missed + 1,
           firstSeen := Or(prior.firstSeen, Or(prior.lastSeen, Some(at))), lastSeen := Or(prior.lastSeen, Some(at)))
  }

  /** The entries that nobody continues. */
  function Rest(taken: set<nat>, n: nat): (r: seq<nat>)
    ensures forall a | 0 <= a < |r| :: r[a] < n && r[a] !in taken
    ensures forall j | 0 <= j < n && j !in taken :: j in r
    ensures forall a, b | 0 <= a < b < |r| :: r[a] < r[b]
    ensures |r| <= n
  {
    if n == 0 then [] else if n - 1 in taken then Rest(taken, n - 1) else Rest(taken, n - 1) + [n - 1]
  }

  /** For each entry of the next inventory, the one it continues. */
  ghost function Origins(previous: seq<Device>, current: seq<Observation>): seq<Option<nat>> {
    var m := Matches(previous, current, |current|);
    m + Somes(Rest(Taken(m), |previous|))
  }

  function Somes(list: seq<nat>): (r: seq<Option<nat>>)
    ensures |r| == |list| && forall k | 0 <= k < |list| :: r[k] == Some(list[k])
  {
    seq(|list|, k requires 0 <= k < |list| => Some(list[k]))
  }

  function OldOf(previous: seq<Device>, origin: Option<nat>): Option<Device>
    requires origin.Some? ==> origin.value < |previous|
  {
    if origin.Some? then Some(previous[origin.value]) else None
  }

  lemma OriginsInRange(previous: seq<Device>, current: seq<Observation>)
    ensures var o := Origins(previous, current);
            && |current| <= |o| <= |current| + |previous|
            && (forall k | 0 <= k < |o| && o[k].Some? :: o[k].value < |previous|)
            && (forall k | |current| <= k < |o| :: o[k].Some?)
  {
    MatchesAreSound(previous, current, |current|);
    var m := Matches(previous, current, |current|);
    var rest := Rest(Taken(m), |previous|);
    hide Matches, Rest, Justified;
  }

  /** The next inventory before its conflicts are marked; `spare` holds fresh identifiers. */
  ghost function Entries(previous: seq<Device>, current: seq<Observation>, reachable: set<string>, at: int, spare: seq<string>): seq<Device>
    requires |spare| >= |previous| + |current|
  {
    OriginsInRange(previous, current);
    var o := Origins(previous, current);
    seq(|o|, k requires 0 <= k < |o| => Entry(previous, current, reachable, at, spare[k], o[k], k))
  }

  /** The k-th entry, which continues `origin`. */
  function Entry(previous: seq<Device>, current: seq<Observation>, reachable: set<string>, at: int, spare: string,
                 origin: Option<nat>, k: nat): Device
    requires origin.Some? ==> origin.value < |previous|
    requires k >= |current| ==> origin.Some?
  {
    if k < |current| then Merge(OldOf(previous, origin), current[k], at, spare)
    else Aged(previous[origin.value], previous[origin.value].ip in reachable, at, spare)
  }

  /** The key of entry k is also held by another one. */
  ghost predicate Shared(keys: seq<Option<string>>, k: nat)
    requires k < |keys|
  {
    keys[k].Some? && exists j :: 0 <= j < |keys| && j != k && keys[j] == keys[k]
  }

  ghost function Annotated(devices: seq<Device>): seq<Device> {
    seq(|devices|, k requires 0 <= k < |devices| =>
      devices[k].(conflict := Conflict(Shared(Macs(devices), k), Shared(Endpoints(devices), k))))
  }

  // ----- conservation

  /** Every entry of the old inventory is continued by exactly one entry of the new one. */
  lemma EachEntryOnce(previous: seq<Device>, current: seq<Observation>, j: nat) returns (k: nat)
    requires j < |previous|
    ensures var o := Origins(previous, current);
            k < |o| && o[k] == Some(j) && forall i | 0 <= i < |o| && o[i] == Some(j) :: i == k
  {
    MatchesAreSound(previous, current, |current|);
    var m := Matches(previous, current, |current|);
    var rest := Rest(Taken(m), |previous|);
    hide Matches, Justified, Rest;
    RestIs(Taken(m), |previous|);
    k := OnceInAll(m, rest, j);
  }

  lemma OnceInAll(m: seq<Option<nat>>, rest: seq<nat>, j: nat) returns (k: nat)
    requires forall a, b | 0 <= a < b < |m| && m[a].Some? && m[b].Some? :: m[a].value != m[b].value
    requires forall a | 0 <= a < |rest| :: rest[a] !in Taken(m)
    requires forall a, b | 0 <= a < b < |rest| :: rest[a] < rest[b]
    requires j in Taken(m) || j in rest
    ensures var o := m + Somes(rest); k < |o| && o[k] == Some(j) && forall i | 0 <= i < |o| && o[i] == Some(j) :: i == k
  {
    forall i | 0 <= i < |m| && m[i].Some? ensures m[i].value in Taken(m) {
      assert m[i] in m;
    }
    if j in Taken(m) {
      k :| 0 <= k < |m| && m[k] == Some(j);
    } else {
      var i :| 0 <= i < |rest| && rest[i] == j;
      k := |m| + i;
    }
  }

  lemma RestIs(taken: set<nat>, n: nat)
    ensures var r := Rest(taken, n);
            && (forall a | 0 <= a < |r| :: r[a] < n && r[a] !in taken)
            && (forall j | 0 <= j < n && j !in taken :: j in r)
            && (forall a, b | 0 <= a < b < |r| :: r[a] < r[b])
  {
  }

  /** The identifier of an old entry lives on in the one entry that continues it. */
  lemma IdentifiersAreKept(previous: seq<Device>, current: seq<Observation>, reachable: set<string>, at: int, spare: seq<string>, k: nat)
    requires |spare| >= |previous| + |current| && k < |Origins(previous, current)|
    ensures |Entries(previous, current, reachable, at, spare)| == |Origins(previous, current)|
    ensures var origin := Origins(previous, current)[k];
            origin.Some? ==> origin.value < |previous|
                             && (previous[origin.value].id != "" ==>
                                   Entries(previous, current, reachable, at, spare)[k].id == previous[origin.value].id)
    ensures Origins(previous, current)[k].None? ==>
              k < |current| && Entries(previous, current, reachable, at, spare)[k].id == NewId(current, spare, k)
  {
    OriginsInRange(previous, current);
    hide Origins;
  }

  function NewId(current: seq<Observation>, spare: seq<string>, k: nat): string
    requires k < |current| <= |spare|
  {
    if current[k].id != "" then current[k].id else spare[k]
  }

  ghost predicate DistinctIds(devices: seq<Device>) {
    && (forall i | 0 <= i < |devices| :: devices[i].id != "")
    && (forall i, j | 0 <= i < j < |devices| :: devices[i].id != devices[j].id)
  }

  /** New identifiers are new, and no two are the same. */
  ghost predicate Fresh(previous: seq<Device>, current: seq<Observation>, spare: seq<string>)
    requires |spare| >= |current|
  {
    && (forall k | 0 <= k < |current| :: NewId(current, spare, k) != "" && forall j | 0 <= j < |previous| :: previous[j].id != NewId(current, spare, k))
    && (forall i, k | 0 <= i < k < |current| :: NewId(current, spare, i) != NewId(current, spare, k))
  }

  /** The inventory never comes to hold an identifier twice. */
  lemma IdentifiersStayDistinct(previous: seq<Device>, current: seq<Observation>, reachable: set<string>, at: int, spare: seq<string>)
    requires |spare| >= |previous| + |current| && DistinctIds(previous) && Fresh(previous, current, spare)
    ensures DistinctIds(Entries(previous, current, reachable, at, spare))
  {
    var entries, o := Entries(previous, current, reachable, at, spare), Origins(previous, current);
    hide Origins, Entries, NewId;
    forall i | 0 <= i < |o| ensures |entries| == |o| && entries[i].id != "" {
      IdentifiersAreKept(previous, current, reachable, at, spare, i);
    }
    assert |entries| == |o| by {
      EntriesCount(previous, current, reachable, at, spare);
    }
    forall i, k | 0 <= i < k < |entries| ensures entries[i].id != entries[k].id {
      IdentifiersAreKept(previous, current, reachable, at, spare, i);
      IdentifiersAreKept(previous, current, reachable, at, spare, k);
      if o[i].Some? && o[k].Some? {
        var only := EachEntryOnce(previous, current, o[i].value);
      }
    }
  }

  lemma EntriesCount(previous: seq<Device>, current: seq<Observation>, reachable: set<string>, at: int, spare: seq<string>)
    requires |spare| >= |previous| + |current|
    ensures |Entries(previous, current, reachable, at, spare)| == |Origins(previous, current)| >= |current|
  {
    OriginsInRange(previous, current);
  }

  // ----- the algorithm

  /** `annotate_identity_conflicts`: an entry is marked exactly when another one holds one of its keys. */
  method Annotate(devices: seq<Device>) returns (out: seq<Device>)
    ensures out == Annotated(devices)
  {
    hide Shared;
    var macs := Group(Macs(devices));
    var endpoints := Group(Endpoints(devices));
    out := [];
    for k := 0 to |devices|
      invariant |out| == k && forall j | 0 <= j < k :: out[j] == Annotated(devices)[j]
    {
      var mac, endpoint := Macs(devices)[k], Endpoints(devices)[k];
      SharedIsMany(Macs(devices), k);
      SharedIsMany(Endpoints(devices), k);
      var conflict := Conflict(mac.Some? && |Found(macs, mac.value)| > 1, endpoint.Some? && |Found(endpoints, endpoint.value)| > 1);
      out := out + [devices[k].(conflict := conflict)];
    }
  }

  lemma SharedIsMany(keys: seq<Option<string>>, k: nat)
    requires k < |keys|
    ensures Shared(keys, k) <==> keys[k].Some? && |Where(keys, keys[k].value)| > 1
  {
    if keys[k].Some? {
      WhereOnce(keys, keys[k].value, k);
      assert k in Where(keys, keys[k].value);
    }
  }

  method FirstAt(previous: seq<Device>) returns (first: map<string, nat>)
    ensures forall ip :: (ip in first <==> AtAddress(previous, ip).Some?)
                         && (ip in first ==> first[ip] == AtAddress(previous, ip).value)
  {
    first := map[];
    for i := 0 to |previous|
      invariant forall ip :: (ip in first <==> AtAddress(previous[..i], ip).Some?)
                             && (ip in first ==> first[ip] == AtAddress(previous[..i], ip).value)
    {
      assert previous[..i + 1][..i] == previous[..i];
      if previous[i].ip != "" && previous[i].ip !in first {
        first := first[previous[i].ip := i];
      }
    }
    assert previous[..|previous|] == previous;
  }

  /** `stable_index`, looked up. */
  function Stable(held: map<string, seq<nat>>, seen: map<string, seq<nat>>, key: Option<string>): Option<nat> {
    if key.Some? && |Found(held, key.value)| == 1 && |Found(seen, key.value)| == 1 then Some(Found(held, key.value)[0]) else None
  }

  method Continuations(previous: seq<Device>, current: seq<Observation>) returns (matches: seq<Option<nat>>, matched: set<nat>)
    ensures matches == Matches(previous, current, |current|) && matched == Taken(matches)
  {
    hide AtAddress, Where, Groups, Owner, Stable, Choice, Taken, Macs, Endpoints, SeenMacs, SeenEndpoints, Key, EndpointKey;
    var macs := Group(Macs(previous));
    var endpoints := Group(Endpoints(previous));
    var seenMacs := Group(SeenMacs(current));
    var seenEndpoints := Group(SeenEndpoints(current));
    var first := FirstAt(previous);
    matches, matched := [], {};
    NothingTaken();
    for i := 0 to |current|
      invariant matches == Matches(previous, current, i) && matched == Taken(matches)
    {
      var seen := current[i];
      var endpoint, mac := EndpointKey(seen.onvif), Key(seen.mac);
      var choice: Option<nat> := None;
      var byEndpoint, byMac := Stable(endpoints, seenEndpoints, endpoint), Stable(macs, seenMacs, mac);
      if byEndpoint.Some? && byEndpoint.value !in matched {
        choice := byEndpoint;
      } else if byMac.Some? && byMac.value !in matched {
        choice := byMac;
      }
      if choice.None? && endpoint.None? && mac.None? && seen.ip in first && first[seen.ip] !in matched {
        choice := Some(first[seen.ip]);
      }
      StableIsOwner(endpoints, seenEndpoints, Endpoints(previous), SeenEndpoints(current), endpoint);
      StableIsOwner(macs, seenMacs, Macs(previous), SeenMacs(current), mac);
      ChoiceIs(previous, current, i, matched, choice);
      TakenMore(matches, choice);
      matches := matches + [choice];
      if choice.Some? {
        matched := matched + {choice.value};
      }
    }
  }

  lemma StableIsOwner(groups: map<string, seq<nat>>, seenGroups: map<string, seq<nat>>, held: seq<Option<string>>,
                      seen: seq<Option<string>>, key: Option<string>)
    requires Groups(groups, held) && Groups(seenGroups, seen)
    ensures Stable(groups, seenGroups, key) == Owner(held, seen, key)
  {
    hide Groups, Where;
    if key.Some? {
      FoundIsWhere(groups, held, key.value);
      FoundIsWhere(seenGroups, seen, key.value);
    }
  }

  lemma ChoiceIs(previous: seq<Device>, current: seq<Observation>, i: nat, taken: set<nat>, choice: Option<nat>)
    requires i < |current|
    requires var seen := current[i];
             var byEndpoint := Owner(Endpoints(previous), SeenEndpoints(current), EndpointKey(seen.onvif));
             var byMac := Owner(Macs(previous), SeenMacs(current), Key(seen.mac));
             choice == if byEndpoint.Some? && byEndpoint.value !in taken then byEndpoint
                       else if byMac.Some? && byMac.value !in taken then byMac
                       else if EndpointKey(seen.onvif).None? && Key(seen.mac).None? && AtAddress(previous, seen.ip).Some?
                               && AtAddress(previous, seen.ip).value !in taken then AtAddress(previous, seen.ip)
                       else None
    ensures choice == Choice(previous, current, i, taken)
  {
    hide Owner, AtAddress, Key, EndpointKey;
  }

  lemma NothingTaken()
    ensures Taken([]) == {}
  {
  }

  lemma TakenMore(m: seq<Option<nat>>, choice: Option<nat>)
    ensures Taken(m + [choice]) == Taken(m) + if choice.Some? then {choice.value} else {}
  {
  }

  /** `reconcile_inventory` */
  method Reconcile(previous: seq<Device>, current: seq<Observation>, reachable: set<string>, at: int, spare: seq<string>)
    returns (out: seq<Device>)
    requires |spare| >= |previous| + |current|
    ensures out == Annotated(Entries(previous, current, reachable, at, spare))
  {
    hide Matches, Annotated, Entry, Taken, Rest, Origins, Entries, Justified;
    MatchesAreSound(previous, current, |current|);
    var matches, matched := Continuations(previous, current);
    OriginsInRange(previous, current);
    OriginsAre(previous, current);
    var merged := MergeAll(previous, current, reachable, at, spare, matches);
    var aged := AgeAll(previous, current, reachable, at, spare, matched);
    EntriesAre(previous, current, reachable, at, spare, merged, aged);
    out := Annotate(merged + aged);
  }

  method MergeAll(previous: seq<Device>, current: seq<Observation>, reachable: set<string>, at: int, spare: seq<string>,
                  matches: seq<Option<nat>>) returns (merged: seq<Device>)
    requires |spare| >= |current| == |matches|
    requires forall k | 0 <= k < |matches| && matches[k].Some? :: matches[k].value < |previous|
    ensures |merged| == |current|
    ensures forall k | 0 <= k < |current| :: merged[k] == Entry(previous, current, reachable, at, spare[k], matches[k], k)
  {
    merged := [];
    for i := 0 to |current|
      invariant |merged| == i
      invariant forall k | 0 <= k < i :: merged[k] == Entry(previous, current, reachable, at, spare[k], matches[k], k)
    {
      merged := merged + [Merge(OldOf(previous, matches[i]), current[i], at, spare[i])];
    }
  }

  method AgeAll(previous: seq<Device>, current: seq<Observation>, reachable: set<string>, at: int, spare: seq<string>,
                matched: set<nat>) returns (aged: seq<Device>)
    requires |spare| >= |previous| + |current|
    ensures |aged| == |Rest(matched, |previous|)|
    ensures forall k | 0 <= k < |aged| ::
              aged[k] == Entry(previous, current, reachable, at, spare[|current| + k], Some(Rest(matched, |previous|)[k]), |current| + k)
  {
    hide Aged;
    aged := [];
    for j := 0 to |previous|
      invariant |aged| == |Rest(matched, j)|
      invariant forall k | 0 <= k < |aged| ::
                  aged[k] == Entry(previous, current, reachable, at, spare[|current| + k], Some(Rest(matched, j)[k]), |current| + k)
    {
      if j in matched {
        continue;
      }
      aged := aged + [Aged(previous[j], previous[j].ip in reachable, at, spare[|current| + |aged|])];
    }
  }

  lemma EntriesAre(previous: seq<Device>, current: seq<Observation>, reachable: set<string>, at: int, spare: seq<string>,
                   merged: seq<Device>, aged: seq<Device>)
    requires |spare| >= |previous| + |current|
    requires var m := Matches(previous, current, |current|);
             var rest := Rest(Taken(m), |previous|);
             && |merged| == |current| && |aged| == |rest| && Origins(previous, current) == m + Somes(rest)
             && (forall k | 0 <= k < |m| && m[k].Some? :: m[k].value < |previous|)
             && (forall k | 0 <= k < |current| :: merged[k] == Entry(previous, current, reachable, at, spare[k], m[k], k))
             && (forall k | 0 <= k < |aged| ::
                   aged[k] == Entry(previous, current, reachable, at, spare[|current| + k], Some(rest[k]), |current| + k))
    ensures merged + aged == Entries(previous, current, reachable, at, spare)
  {
    hide Matches, Entry, Taken, Rest, Origins;
    OriginsInRange(previous, current);
    var o, entries := Origins(previous, current), Entries(previous, current, reachable, at, spare);
    forall k | 0 <= k < |entries| ensures entries[k] == (merged + aged)[k] {
      assert entries[k] == Entry(previous, current, reachable, at, spare[k], o[k], k);
    }
  }

  lemma OriginsAre(previous: seq<Device>, current: seq<Observation>)
    ensures var m := Matches(previous, current, |current|);
            Origins(previous, current) == m + Somes(Rest(Taken(m), |previous|))
  {
  }

  // ----- who keeps an identifier

  /** The order of observations matters: a MAC address that was recycled takes the entry if it is observed
      first, and the device with the entry's endpoint reference gets a new identifier. */
  lemma RecycledMacTakesTheEntry(d: Device, x: Observation, y: Observation)
    requires d.mac != "" && EndpointKey(d.onvif).Some?
    requires x.mac == d.mac && EndpointKey(x.onvif).None? && y.mac != d.mac && EndpointKey(y.onvif) == EndpointKey(d.onvif)
    ensures Matches([d], [x, y], 2) == [Some(0), None]
    ensures Matches([d], [y, x], 2) == [Some(0), None]
  {
    OneKey(Macs([d]), SeenMacs([x, y]), d.mac, 0);
    OneKey(Endpoints([d]), SeenEndpoints([x, y]), EndpointKey(d.onvif).value, 1);
    OneKey(Macs([d]), SeenMacs([y, x]), d.mac, 1);
    OneKey(Endpoints([d]), SeenEndpoints([y, x]), EndpointKey(d.onvif).value, 0);
    hide Owner;
    assert Choice([d], [x, y], 0, {}) == Some(0);
    assert Choice([d], [y, x], 0, {}) == Some(0);
    TwoMatches(d, x, y);
    TwoMatches(d, y, x);
  }

  lemma OneKey(held: seq<Option<string>>, seen: seq<Option<string>>, key: string, i: nat)
    requires |held| == 1 && held[0] == Some(key) && i < |seen| && seen[i] == Some(key)
    requires forall j | 0 <= j < |seen| && seen[j] == Some(key) :: j == i
    ensures Owner(held, seen, Some(key)) == Some(0)
  {
    WhereOnce(held, key, 0);
    WhereOnce(seen, key, i);
  }

  lemma TwoMatches(d: Device, x: Observation, y: Observation)
    requires Choice([d], [x, y], 0, {}) == Some(0)
    ensures Matches([d], [x, y], 2) == [Some(0), None]
  {
    assert Matches([d], [x, y], 0) == [];
    assert Matches([d], [x, y], 1) == [Some(0)];
    var next := Choice([d], [x, y], 1, {0});
    if next.Some? {
      hide Choice, Justified;
      ChoiceIsJustified([d], [x, y], 1, {0});
    }
    assert Taken([Some(0)]) == {0};
  }

  ghost function ByEndpoint(previous: seq<Device>, current: seq<Observation>, k: nat): Option<nat>
    requires k < |current|
  {
    Owner(Endpoints(previous), SeenEndpoints(current), EndpointKey(current[k].onvif))
  }

  ghost function ByMac(previous: seq<Device>, current: seq<Observation>, k: nat): Option<nat>
    requires k < |current|
  {
    Owner(Macs(previous), SeenMacs(current), Key(current[k].mac))
  }

  /** An observation without any key that is at the entry's address. */
  ghost predicate StandsAt(previous: seq<Device>, current: seq<Observation>, k: nat, j: nat)
    requires k < |current|
  {
    current[k].mac == "" && EndpointKey(current[k].onvif).None? && AtAddress(previous, current[k].ip) == Some(j)
  }

  /** One of the first n observations takes entry j away from the owner of its endpoint reference: one that has
      the entry's MAC and no entry of its own by endpoint reference, or lost that in the same way before; or one
      that has no key and stands at the entry's address. */
  ghost predicate Robbed(previous: seq<Device>, current: seq<Observation>, n: nat, j: nat)
    requires n <= |current|
  {
    n > 0
    && (|| Robbed(previous, current, n - 1, j)
        || StandsAt(previous, current, n - 1, j)
        || (ByMac(previous, current, n - 1) == Some(j)
            && var own := ByEndpoint(previous, current, n - 1);
               own.None? || Robbed(previous, current, n - 1, own.value)))
  }

  /** An endpoint reference has one owner. */
  lemma OneEndpointOwner(previous: seq<Device>, current: seq<Observation>, i: nat, k: nat)
    requires i < |current| && k < |current| && ByEndpoint(previous, current, i).Some?
    requires ByEndpoint(previous, current, k) == ByEndpoint(previous, current, i)
    ensures k == i
  {
    OwnerIsThere(Endpoints(previous), SeenEndpoints(current), EndpointKey(current[i].onvif), i);
    OwnerIsThere(Endpoints(previous), SeenEndpoints(current), EndpointKey(current[k].onvif), k);
    hide Owner, EndpointKey;
    assert SeenEndpoints(current)[k] == EndpointKey(current[k].onvif);
  }

  lemma {:induction false} TakenIffRobbed(previous: seq<Device>, current: seq<Observation>, n: nat, i: nat, j: nat)
    requires n <= i < |current| && ByEndpoint(previous, current, i) == Some(j)
    ensures j in Taken(Matches(previous, current, n)) <==> Robbed(previous, current, n, j)
    decreases n
  {
    hide Owner, AtAddress, Key, EndpointKey, Taken;
    if n == 0 {
      NothingTaken();
      return;
    }
    var m := Matches(previous, current, n - 1);
    var choice := Choice(previous, current, n - 1, Taken(m));
    TakenMore(m, choice);
    TakenIffRobbed(previous, current, n - 1, i, j);
    var own := ByEndpoint(previous, current, n - 1);
    if own.Some? {
      TakenIffRobbed(previous, current, n - 1, n - 1, own.value);
      if own == Some(j) {
        OneEndpointOwner(previous, current, i, n - 1);
      }
    }
    if j !in Taken(m) {
      ChosenIffRobs(previous, current, n - 1, Taken(m), j);
    }
  }

  /** When an observation that does not own the endpoint reference of a free entry takes it. */
  lemma ChosenIffRobs(previous: seq<Device>, current: seq<Observation>, k: nat, taken: set<nat>, j: nat)
    requires k < |current| && j !in taken && ByEndpoint(previous, current, k) != Some(j)
    ensures Choice(previous, current, k, taken) == Some(j) <==>
            || StandsAt(previous, current, k, j)
            || (ByMac(previous, current, k) == Some(j) && !Free(ByEndpoint(previous, current, k), taken))
  {
    hide AtAddress, Where;
  }

  /** The observation with the entry's endpoint reference keeps the entry if and only if no earlier one has robbed
      it. */
  lemma EndpointOwnerKeeps(previous: seq<Device>, current: seq<Observation>, i: nat, j: nat)
    requires i < |current| && ByEndpoint(previous, current, i) == Some(j)
    ensures Matches(previous, current, |current|)[i] == Some(j) <==> !Robbed(previous, current, i, j)
  {
    TakenIffRobbed(previous, current, i, i, j);
    MatchIsChoice(previous, current, |current|, i);
    hide Owner, Matches, Robbed;
    var taken := Taken(Matches(previous, current, i));
    if j in taken && Choice(previous, current, i, taken) == Some(j) {
      ChoiceIsJustified(previous, current, i, taken);
    }
  }

  /** Where the observation with the entry's MAC owns no entry by its endpoint reference, it is as simple as this. */
  lemma {:induction false} RobbedDirectly(previous: seq<Device>, current: seq<Observation>, n: nat, j: nat)
    requires n <= |current|
    requires forall k | 0 <= k < n && ByMac(previous, current, k) == Some(j) :: ByEndpoint(previous, current, k).None?
    ensures Robbed(previous, current, n, j) <==>
            exists k | 0 <= k < n :: ByMac(previous, current, k) == Some(j) || StandsAt(previous, current, k, j)
  {
    hide ByMac, ByEndpoint, StandsAt;
    if n > 0 {
      RobbedDirectly(previous, current, n - 1, j);
      if ByMac(previous, current, n - 1) == Some(j) || StandsAt(previous, current, n - 1, j) {
        assert exists k | 0 <= k < n :: ByMac(previous, current, k) == Some(j) || StandsAt(previous, current, k, j);
      }
    }
  }

  // ----- scanning again

  ghost predicate HoldsKeys(d: Device, seen: Observation) {
    && (seen.mac != "" ==> d.mac == seen.mac)
    && (EndpointKey(seen.onvif).Some? ==> EndpointKey(d.onvif) == EndpointKey(seen.onvif))
  }

  predicate Keyed(seen: Observation) {
    seen.mac != "" || EndpointKey(seen.onvif).Some?
  }

  ghost predicate SharesKey(a: Device, b: Device) {
    (a.mac != "" && a.mac == b.mac) || (EndpointKey(a.onvif).Some? && EndpointKey(a.onvif) == EndpointKey(b.onvif))
  }

  ghost predicate ConflictFree(devices: seq<Device>) {
    forall i, j | 0 <= i < j < |devices| :: !SharesKey(devices[i], devices[j])
  }

  /** The i-th observation owns exactly the entry at position p[i]. */
  ghost predicate Held(kept: seq<Device>, current: seq<Observation>, p: seq<nat>) {
    && |p| == |current| && ConflictFree(kept)
    && (forall i | 0 <= i < |p| :: p[i] < |kept| && Keyed(current[i]) && HoldsKeys(kept[p[i]], current[i]))
    && (forall i, j | 0 <= i < j < |p| :: p[i] != p[j])
  }

  lemma HeldOwns(kept: seq<Device>, current: seq<Observation>, p: seq<nat>, i: nat)
    requires Held(kept, current, p) && i < |current|
    ensures current[i].mac != "" ==> Owner(Macs(kept), SeenMacs(current), Key(current[i].mac)) == Some(p[i])
    ensures EndpointKey(current[i].onvif).Some? ==>
              Owner(Endpoints(kept), SeenEndpoints(current), EndpointKey(current[i].onvif)) == Some(p[i])
  {
    if current[i].mac != "" {
      OnlyMac(kept, current, p, i);
      WhereOnce(Macs(kept), current[i].mac, p[i]);
      WhereOnce(SeenMacs(current), current[i].mac, i);
    }
    if EndpointKey(current[i].onvif).Some? {
      OnlyEndpoint(kept, current, p, i);
      WhereOnce(Endpoints(kept), EndpointKey(current[i].onvif).value, p[i]);
      WhereOnce(SeenEndpoints(current), EndpointKey(current[i].onvif).value, i);
    }
  }

  lemma OnlyMac(kept: seq<Device>, current: seq<Observation>, p: seq<nat>, i: nat)
    requires Held(kept, current, p) && i < |current| && current[i].mac != ""
    ensures Macs(kept)[p[i]] == Some(current[i].mac) && SeenMacs(current)[i] == Some(current[i].mac)
    ensures forall k | 0 <= k < |kept| && Macs(kept)[k] == Some(current[i].mac) :: k == p[i]
    ensures forall k | 0 <= k < |current| && SeenMacs(current)[k] == Some(current[i].mac) :: k == i
  {
    forall k | 0 <= k < |kept| && Macs(kept)[k] == Some(current[i].mac) ensures k == p[i] {
      assert kept[k].mac == kept[p[i]].mac && SharesKey(kept[k], kept[p[i]]) && SharesKey(kept[p[i]], kept[k]);
    }
    forall k | 0 <= k < |current| && SeenMacs(current)[k] == Some(current[i].mac) ensures k == i {
      assert HoldsKeys(kept[p[k]], current[k]) && kept[p[k]].mac == kept[p[i]].mac;
      assert SharesKey(kept[p[k]], kept[p[i]]) && SharesKey(kept[p[i]], kept[p[k]]);
    }
  }

  lemma OnlyEndpoint(kept: seq<Device>, current: seq<Observation>, p: seq<nat>, i: nat)
    requires Held(kept, current, p) && i < |current| && EndpointKey(current[i].onvif).Some?
    ensures Endpoints(kept)[p[i]] == EndpointKey(current[i].onvif) && SeenEndpoints(current)[i] == EndpointKey(current[i].onvif)
    ensures forall k | 0 <= k < |kept| && Endpoints(kept)[k] == EndpointKey(current[i].onvif) :: k == p[i]
    ensures forall k | 0 <= k < |current| && SeenEndpoints(current)[k] == EndpointKey(current[i].onvif) :: k == i
  {
    hide EndpointKey;
    var key := EndpointKey(current[i].onvif);
    forall k | 0 <= k < |kept| && Endpoints(kept)[k] == key ensures k == p[i] {
      assert SharesKey(kept[k], kept[p[i]]) && SharesKey(kept[p[i]], kept[k]);
    }
    forall k | 0 <= k < |current| && SeenEndpoints(current)[k] == key ensures k == i {
      assert HoldsKeys(kept[p[k]], current[k]);
      assert SharesKey(kept[p[k]], kept[p[i]]) && SharesKey(kept[p[i]], kept[p[k]]);
    }
  }

  lemma {:induction false} HeldMatches(kept: seq<Device>, current: seq<Observation>, p: seq<nat>, n: nat)
    requires Held(kept, current, p) && n <= |current|
    ensures Matches(kept, current, n) == Somes(p)[..n]
  {
    hide Owner, Held, Choice;
    if n > 0 {
      HeldMatches(kept, current, p, n - 1);
      HeldOwns(kept, current, p, n - 1);
      HeldApart(kept, current, p, n - 1);
      HeldChoice(kept, current, n - 1, Taken(Somes(p)[..n - 1]), p[n - 1]);
      assert Somes(p)[..n] == Somes(p)[..n - 1] + [Some(p[n - 1])];
    }
  }

  lemma HeldChoice(kept: seq<Device>, current: seq<Observation>, i: nat, taken: set<nat>, j: nat)
    requires i < |current| && Keyed(current[i]) && j !in taken
    requires current[i].mac != "" ==> Owner(Macs(kept), SeenMacs(current), Key(current[i].mac)) == Some(j)
    requires EndpointKey(current[i].onvif).Some? ==>
               Owner(Endpoints(kept), SeenEndpoints(current), EndpointKey(current[i].onvif)) == Some(j)
    ensures Choice(kept, current, i, taken) == Some(j)
  {
  }

  lemma HeldApart(kept: seq<Device>, current: seq<Observation>, p: seq<nat>, i: nat)
    requires Held(kept, current, p) && i < |current|
    ensures |p| == |current| && p[i] !in Taken(Somes(p)[..i]) && Keyed(current[i])
  {
  }

  lemma MergeHoldsKeys(prior: Option<Device>, seen: Observation, at: int, spare: string)
    ensures HoldsKeys(Merge(prior, seen, at, spare), seen)
  {
  }

  /** Scanning the same keyed observations again, in whatever order the inventory was stored, reproduces every
      observation's identifier, provided no two entries of the inventory share a key. */
  lemma RescanKeepsIdentifiers(previous: seq<Device>, current: seq<Observation>, reachable: set<string>, at: int, spare: seq<string>,
                               kept: seq<Device>, place: seq<nat>,
                               reachable': set<string>, at': int, spare': seq<string>, i: nat)
    requires |spare| >= |previous| + |current| && |spare'| >= |kept| + |current| && i < |current|
    requires var entries := Entries(previous, current, reachable, at, spare);
             // `kept` is the inventory as stored: the k-th entry stands at place[k]
             && |place| == |entries| == |kept| && (forall k | 0 <= k < |place| :: place[k] < |kept| && kept[place[k]] == entries[k])
             && (forall a, b | 0 <= a < b < |place| :: place[a] != place[b])
    requires ConflictFree(kept) && (forall k | 0 <= k < |current| :: Keyed(current[k])) && forall d | d in kept :: d.id != ""
    ensures |Entries(previous, current, reachable, at, spare)| >= |current| && |Entries(kept, current, reachable', at', spare')| >= |current|
    ensures Entries(kept, current, reachable', at', spare')[i].id == Entries(previous, current, reachable, at, spare)[i].id
  {
    var entries := Entries(previous, current, reachable, at, spare);
    EntriesCount(previous, current, reachable, at, spare);
    EntriesCount(kept, current, reachable', at', spare');
    var p := place[..|current|];
    forall k | 0 <= k < |current| ensures HoldsKeys(kept[p[k]], current[k]) {
      OriginsInRange(previous, current);
      MergeHoldsKeys(OldOf(previous, Origins(previous, current)[k]), current[k], at, spare[k]);
      hide Origins, HoldsKeys, Merge;
      assert entries[k] == Entry(previous, current, reachable, at, spare[k], Origins(previous, current)[k], k);
    }
    HeldMatches(kept, current, p, |current|);
    IdentifiersAreKept(kept, current, reachable', at', spare', i);
    assert Origins(kept, current)[i] == Matches(kept, current, |current|)[i] == Some(p[i]);
    assert kept[p[i]] in kept;
  }

  // ----- a scan of some subnets

  /** The scan says something about the entry: its address is in a scanned subnet, or one of its keys was seen. */
  predicate Touched(d: Device, current: seq<Observation>, inScope: set<string>) {
    || d.ip in inScope
    || (d.mac != "" && exists seen | seen in current :: seen.mac == d.mac)
    || (EndpointKey(d.onvif).Some? && exists seen | seen in current :: EndpointKey(seen.onvif) == EndpointKey(d.onvif))
  }

  ghost function Part(devices: seq<Device>, current: seq<Observation>, inScope: set<string>, touched: bool): seq<Device> {
    if devices == [] then []
    else
      var last := devices[|devices| - 1];
      Part(devices[..|devices| - 1], current, inScope, touched) + if Touched(last, current, inScope) == touched then [last] else []
  }

  /** No entry is lost or duplicated by the split. */
  lemma {:induction false} PartsAreAll(devices: seq<Device>, current: seq<Observation>, inScope: set<string>)
    ensures multiset(Part(devices, current, inScope, true)) + multiset(Part(devices, current, inScope, false)) == multiset(devices)
    ensures |Part(devices, current, inScope, true)| <= |devices|
  {
    if devices != [] {
      PartsAreAll(devices[..|devices| - 1], current, inScope);
      assert devices == devices[..|devices| - 1] + [devices[|devices| - 1]];
    }
  }

  /** `reconcile_scanned_subnets`. Entries that the scan says nothing about come through unchanged but for their
      conflict marks, which are recomputed over the whole inventory. */
  method ReconcileScanned(previous: seq<Device>, current: seq<Observation>, inScope: set<string>, reachable: set<string>, at: int,
                          spare: seq<string>) returns (out: seq<Device>)
    requires |spare| >= |previous| + |current|
    ensures |Part(previous, current, inScope, true)| <= |previous|
    ensures out == Annotated(Part(previous, current, inScope, false)
                             + Annotated(Entries(Part(previous, current, inScope, true), current, reachable, at, spare)))
  {
    hide Annotated, Touched, Entries;
    PartsAreAll(previous, current, inScope);
    var targeted, untouched := [], [];
    for i := 0 to |previous|
      invariant targeted == Part(previous[..i], current, inScope, true)
      invariant untouched == Part(previous[..i], current, inScope, false)
    {
      assert previous[..i + 1][..i] == previous[..i];
      if Touched(previous[i], current, inScope) {
        targeted := targeted + [previous[i]];
      } else {
        untouched := untouched + [previous[i]];
      }
    }
    assert previous[..|previous|] == previous;
    var reconciled := Reconcile(targeted, current, reachable, at, spare);
    out := Annotate(untouched + reconciled);
  }

  lemma {:induction false} PartIsSome(devices: seq<Device>, current: seq<Observation>, inScope: set<string>, touched: bool)
    ensures forall d | d in Part(devices, current, inScope, touched) :: d in devices && Touched(d, current, inScope) == touched
    ensures DistinctIds(devices) ==> DistinctIds(Part(devices, current, inScope, touched))
  {
    hide Touched, DistinctIds;
    if devices != [] {
      var front, last := devices[..|devices| - 1], devices[|devices| - 1];
      PartIsSome(front, current, inScope, touched);
      assert devices == front + [last];
      if DistinctIds(devices) {
        DistinctSplit(front, last);
        DistinctMore(Part(front, current, inScope, touched), last);
      }
      assert Part(devices, current, inScope, touched)
          == Part(front, current, inScope, touched) + if Touched(last, current, inScope) == touched then [last] else [];
    }
  }

  lemma DistinctSplit(some: seq<Device>, last: Device)
    requires DistinctIds(some + [last])
    ensures DistinctIds(some) && last.id != "" && forall d | d in some :: d.id != last.id
  {
    var all := some + [last];
    assert all[|some|] == last;
    forall i | 0 <= i < |some| ensures some[i].id != "" && some[i].id != last.id {
      assert all[i] == some[i] && all[|some|] == last;
    }
    forall i, j | 0 <= i < j < |some| ensures some[i].id != some[j].id {
      assert all[i] == some[i] && all[j] == some[j];
    }
  }

  lemma DistinctMore(some: seq<Device>, last: Device)
    requires DistinctIds(some) && last.id != ""
    ensures (forall d | d in some :: d.id != last.id) ==> DistinctIds(some + [last])
    ensures some + [] == some
  {
  }

  /** An entry of a scan is new, or continues an entry of the scanned part. */
  lemma ScannedId(targeted: seq<Device>, current: seq<Observation>, reachable: set<string>, at: int, spare: seq<string>, k: nat)
    requires |spare| >= |targeted| + |current| && DistinctIds(targeted)
    requires k < |Entries(targeted, current, reachable, at, spare)|
    ensures var id := Entries(targeted, current, reachable, at, spare)[k].id;
            || (k < |current| <= |spare| && id == NewId(current, spare, k))
            || exists d | d in targeted :: d.id == id
  {
    EntriesCount(targeted, current, reachable, at, spare);
    IdentifiersAreKept(targeted, current, reachable, at, spare, k);
    var origin := Origins(targeted, current)[k];
    if origin.Some? {
      assert targeted[origin.value] in targeted;
    }
  }

  /** A scan of some subnets does not make the inventory hold an identifier twice either. */
  lemma ScannedStaysDistinct(previous: seq<Device>, current: seq<Observation>, inScope: set<string>, reachable: set<string>,
                             at: int, spare: seq<string>)
    requires |spare| >= |previous| + |current| && DistinctIds(previous) && Fresh(previous, current, spare)
    ensures |Part(previous, current, inScope, true)| <= |previous|
    ensures DistinctIds(Annotated(Part(previous, current, inScope, false)
                                  + Annotated(Entries(Part(previous, current, inScope, true), current, reachable, at, spare))))
  {
    PartsAreAll(previous, current, inScope);
    PartIsSome(previous, current, inScope, true);
    PartIsSome(previous, current, inScope, false);
    var targeted, untouched := Part(previous, current, inScope, true), Part(previous, current, inScope, false);
    hide Entries, Part, NewId, Touched;
    FreshForSome(previous, targeted, current, spare);
    IdentifiersStayDistinct(targeted, current, reachable, at, spare);
    var entries := Entries(targeted, current, reachable, at, spare);
    forall i, k | 0 <= i < |untouched| && 0 <= k < |entries| ensures untouched[i].id != entries[k].id {
      ScannedId(targeted, current, reachable, at, spare, k);
      assert untouched[i] in untouched;
    }
    hide Shared;
  }

  lemma FreshForSome(previous: seq<Device>, some: seq<Device>, current: seq<Observation>, spare: seq<string>)
    requires |spare| >= |current| && Fresh(previous, current, spare) && forall d | d in some :: d in previous
    ensures Fresh(some, current, spare)
  {
    hide NewId;
    forall j | 0 <= j < |some| ensures exists i :: 0 <= i < |previous| && previous[i] == some[j] {
      assert some[j] in previous;
    }
  }

  /** What marking conflicts leaves alone. */
  lemma AnnotatedChangesMarksOnly(devices: seq<Device>, k: nat)
    requires k < |devices|
    ensures |Annotated(devices)| == |devices|
    ensures Annotated(devices)[k] == devices[k].(conflict := Annotated(devices)[k].conflict)
    ensures Annotated(devices)[k].conflict.mac <==>
              devices[k].mac != "" && exists j :: 0 <= j < |devices| && j != k && devices[j].mac == devices[k].mac
    ensures Annotated(devices)[k].conflict.endpoint <==>
              EndpointKey(devices[k].onvif).Some?
              && exists j :: 0 <= j < |devices| && j != k && EndpointKey(devices[j].onvif) == EndpointKey(devices[k].onvif)
  {
    hide EndpointKey;
    forall j | 0 <= j < |devices| && j != k ensures Macs(devices)[j] == Macs(devices)[k] <==> devices[j].mac == devices[k].mac {
    }
    forall j | 0 <= j < |devices| && j != k
      ensures Endpoints(devices)[j] == Endpoints(devices)[k] <==> EndpointKey(devices[j].onvif) == EndpointKey(devices[k].onvif)
    {
    }
    if exists j :: 0 <= j < |devices| && j != k && devices[j].mac == devices[k].mac {
      var j :| 0 <= j < |devices| && j != k && devices[j].mac == devices[k].mac;
      assert Macs(devices)[j] == Macs(devices)[k];
    }
    if exists j :: 0 <= j < |devices| && j != k && EndpointKey(devices[j].onvif) == EndpointKey(devices[k].onvif) {
      var j :| 0 <= j < |devices| && j != k && EndpointKey(devices[j].onvif) == EndpointKey(devices[k].onvif);
      assert Endpoints(devices)[j] == Endpoints(devices)[k];
    }
  }
}
