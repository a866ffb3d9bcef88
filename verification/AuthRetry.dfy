/** Retries of streams whose credentials were refused: the `stream_auth_retries` table and
    `RelayHealthMonitor._retry_authentication`. Time is the wall clock in seconds and never goes back. */
module AuthRetry {
  import opened Common

  datatype Source = Source(camera: string, uri: string, username: string, password: string)

  /** A row of `stream_auth_retries`. */
  datatype Retry = Retry(next: real, attempts: nat)

  /** A validation in flight, with the source it was started for. */
  datatype Job = Job(uid: string, source: Source)

  const FIRST_DELAY := 60.0

  function Delay(attempts: nat): real {
    if attempts == 0 then 300.0 else if attempts == 1 then 900.0 else 1800.0
  }

  /** How long after its row was made the n-th retry of a stream starts at the earliest. */
  ghost function Earliest(n: nat): real
    requires n > 0
  {
    if n == 1 then FIRST_DELAY else Earliest(n - 1) + Delay(n - 2)
  }

  lemma {:induction false} EarliestFromThird(n: nat)
    requires n >= 3
    ensures Earliest(n) == 1260.0 + 1800.0 * (n - 3) as real
  {
    if n > 3 {
      EarliestFromThird(n - 1);
    } else {
      assert Earliest(2) == FIRST_DELAY + Delay(0);
    }
  }

  // ----- the bound, and exactly when a row keeps it

  /** When the next retry of a row can start. */
  function First(row: Retry, now: real): real {
    if row.next > now then row.next else now
  }

  function Claimed(row: Retry, at: real): Retry {
    Retry(at + Delay(row.attempts), row.attempts + 1)
  }

  /** Retries that can follow on a row: each when it is due, or later. */
  ghost predicate Admissible(row: Retry, now: real, claims: seq<real>)
    decreases |claims|
  {
    claims == []
    || (claims[0] >= First(row, now) && Admissible(Claimed(row, claims[0]), claims[0], claims[1..]))
  }

  /** Counted from the beginning of the period in which the stream stays refused, the n-th retry starts no earlier
      than the delays of a new row add up to, from the third on. `made` retries came before these. */
  ghost predicate Meets(since: real, made: nat, claims: seq<real>) {
    forall k | 0 <= k < |claims| && made + k + 1 >= 3 :: claims[k] >= since + Earliest(made + k + 1)
  }

  function Slack(attempts: nat): real {
    if attempts == 0 then 60.0 else if attempts == 1 then -1440.0 else -2340.0
  }

  /** The next retry leaves room for all that follow. */
  predicate OnTrack(row: Retry, since: real, made: nat, now: real) {
    First(row, now) >= since + 1800.0 * made as real + Slack(row.attempts)
  }

  /** A retry of a row that is on track meets the bound and leaves the row on track. */
  lemma ClaimOnTrack(row: Retry, since: real, made: nat, now: real, at: real)
    requires OnTrack(row, since, made, now) && at >= First(row, now)
    ensures OnTrack(Claimed(row, at), since, made + 1, at)
    ensures made + 1 >= 3 ==> at >= since + Earliest(made + 1)
  {
    if made + 1 >= 3 {
      EarliestFromThird(made + 1);
    }
  }

  lemma {:induction false} OnTrackMeets(row: Retry, since: real, made: nat, now: real, claims: seq<real>)
    requires OnTrack(row, since, made, now) && Admissible(row, now, claims)
    ensures Meets(since, made, claims)
    decreases |claims|
  {
    hide OnTrack, Earliest, First, Claimed;
    if claims != [] {
      ClaimOnTrack(row, since, made, now, claims[0]);
      OnTrackMeets(Claimed(row, claims[0]), since, made + 1, claims[0], claims[1..]);
      forall k | 0 <= k < |claims| && made + k + 1 >= 3 ensures claims[k] >= since + Earliest(made + k + 1) {
        if k > 0 {
          assert claims[k] == claims[1..][k - 1] && made + 1 + (k - 1) + 1 == made + k + 1;
        }
      }
    }
  }

  /** Three retries that start as soon as they may. */
  ghost function Prompt(row: Retry, now: real): seq<real> {
    var first := First(row, now);
    [first, first + Delay(row.attempts), first + Delay(row.attempts) + Delay(row.attempts + 1)]
  }

  lemma PromptIsAdmissible(row: Retry, now: real)
    ensures Admissible(row, now, Prompt(row, now))
  {
    var claims := Prompt(row, now);
    var one, two := Claimed(row, claims[0]), Claimed(Claimed(row, claims[0]), claims[1]);
    assert claims[1..][0] == claims[1] && claims[1..][1..] == [claims[2]] && [claims[2]][1..] == [];
    assert Admissible(Claimed(two, claims[2]), claims[2], []);
    assert Admissible(two, claims[1], [claims[2]]);
    assert Admissible(one, claims[0], claims[1..]);
  }

  /** Exactly when a row keeps the bound: whatever retries may follow, the n-th of the period, from the third on,
      starts late enough if and only if the row is on track. */
  lemma OnTrackIff(row: Retry, since: real, made: nat, now: real)
    ensures OnTrack(row, since, made, now) <==>
            forall claims :: Admissible(row, now, claims) ==> Meets(since, made, claims)
  {
    if OnTrack(row, since, made, now) {
      forall claims | Admissible(row, now, claims) ensures Meets(since, made, claims) {
        OnTrackMeets(row, since, made, now, claims);
      }
    } else {
      PromptIsAdmissible(row, now);
      EarliestFromThird(made + 3);
      var claims := Prompt(row, now);
      assert claims[2] < since + Earliest(made + 2 + 1);
      assert !Meets(since, made, claims);
    }
  }

  /** A row is on track at the beginning of a period if and only if it was retried before, or is not due within the
      first minute. */
  lemma BeginsOnTrackIff(row: Retry, since: real)
    ensures OnTrack(row, since, 0, since) <==> row.attempts > 0 || row.next >= since + FIRST_DELAY
    ensures row.attempts > 0 || row.next >= since + FIRST_DELAY <==>
            forall claims :: Admissible(row, since, claims) ==> Meets(since, 0, claims)
  {
    OnTrackIff(row, since, 0, since);
    hide Meets, Admissible;
  }

  /** A row that is made anew during a period is on track if and only if each retry so far had half an hour. */
  lemma RemadeOnTrackIff(since: real, made: nat, now: real)
    ensures OnTrack(Retry(now + FIRST_DELAY, 0), since, made, now) <==> now >= since + 1800.0 * made as real
    ensures now >= since + 1800.0 * made as real <==>
            forall claims :: Admissible(Retry(now + FIRST_DELAY, 0), now, claims) ==> Meets(since, made, claims)
  {
    OnTrackIff(Retry(now + FIRST_DELAY, 0), since, made, now);
    hide Meets, Admissible;
  }

  /** Retries j, …, j + n - 1 of a row. */
  lemma {:induction false} ConsecutiveRetries(row: Retry, now: real, claims: seq<real>, j: nat, n: nat)
    requires Admissible(row, now, claims) && n >= 3 && j + n <= |claims|
    ensures claims[j + n - 1] >= claims[j] + Earliest(n) - FIRST_DELAY
    decreases j
  {
    if j > 0 {
      ConsecutiveRetries(Claimed(row, claims[0]), claims[0], claims[1..], j - 1, n);
    } else {
      EarliestFromThird(n);
      AfterFirst(Claimed(row, claims[0]), claims[0], claims[1..], n - 2);
    }
  }

  /** The k-th retry after one that was just made on a row. */
  lemma {:induction false} AfterFirst(row: Retry, now: real, claims: seq<real>, k: nat)
    requires Admissible(row, now, claims) && k < |claims| && row.attempts > 0 && row.next >= now + Delay(row.attempts - 1)
    ensures claims[k] >= now + if k == 0 then 300.0 else if k == 1 then 1200.0 else 1200.0 + 1800.0 * (k - 1) as real
    ensures row.attempts > 1 ==> claims[k] >= now + if k == 0 then 900.0 else 900.0 + 1800.0 * k as real
    ensures row.attempts > 2 ==> claims[k] >= now + 1800.0 * (k + 1) as real
    decreases k
  {
    if k > 0 {
      AfterFirst(Claimed(row, claims[0]), claims[0], claims[1..], k - 1);
    }
  }

  /** So a row that is left over from an earlier period costs a minute of the bound at most. */
  lemma AMinuteAtMost(row: Retry, since: real, claims: seq<real>, n: nat)
    requires Admissible(row, since, claims) && 3 <= n <= |claims|
    ensures claims[n - 1] >= since + 1200.0 + 1800.0 * (n - 3) as real
  {
    ConsecutiveRetries(row, since, claims, 0, n);
    EarliestFromThird(n);
  }

  // ----- what happened so far

  /** When a stream was last refused after it was not, the retries since then, and how often such a period began or
      a row was made during one. */
  datatype Log = Log(since: map<string, real>, tries: map<string, seq<real>>, epoch: map<string, nat>)

  function Epoch(log: Log, uid: string): nat {
    if uid in log.epoch then log.epoch[uid] else 0
  }

  /** Rows are made for streams that are refused already. */
  function WithRows(log: Log, missing: set<string>): Log {
    log.(epoch := log.epoch + map uid | uid in missing :: Epoch(log, uid) + 1)
  }

  /** A stream is refused after it was not. */
  function Begun(log: Log, uid: string, now: real): Log {
    log.(since := log.since[uid := now], tries := log.tries[uid := []], epoch := log.epoch[uid := Epoch(log, uid) + 1])
  }

  function Refused(log: Log, uid: string, hasRow: bool, failing: bool, now: real): Log {
    if !failing then Begun(log, uid, now) else if hasRow then log else WithRows(log, {uid})
  }

  function WithClaim(log: Log, uid: string, now: real): Log {
    log.(tries := if uid in log.tries then log.tries[uid := log.tries[uid] + [now]] else log.tries)
  }

  datatype Snap = Snap(failing: set<string>, retries: map<string, Retry>, log: Log, clock: real)

  ghost predicate Dated(s: Snap, uid: string) {
    uid in s.log.since && uid in s.log.tries && s.log.since[uid] <= s.clock
  }

  /** The retries of the present period met the bound, and all that can follow on the row will. */
  ghost predicate Bounded(s: Snap, uid: string) {
    && uid in s.failing && uid in s.retries && Dated(s, uid)
    && Meets(s.log.since[uid], 0, s.log.tries[uid])
    && OnTrack(s.retries[uid], s.log.since[uid], |s.log.tries[uid]|, s.clock)
  }

  /** A row made now would keep the bound: the retries so far did, and each of them had half an hour. */
  ghost predicate InTime(log: Log, uid: string, now: real) {
    && uid in log.since && uid in log.tries && Meets(log.since[uid], 0, log.tries[uid])
    && now >= log.since[uid] + 1800.0 * |log.tries[uid]| as real
  }

  /** As long as neither a period begins nor a row is made, the stream and its row were there before, the retries stand,
      and a bounded stream stays bounded. */
  ghost predicate Carries(a: Snap, b: Snap, uid: string) {
    && Epoch(a.log, uid) <= Epoch(b.log, uid)
    && (Epoch(a.log, uid) == Epoch(b.log, uid) && uid in b.failing && uid in b.retries && Dated(b, uid) ==>
          && uid in a.failing && uid in a.retries
          && (Dated(a, uid) ==>
                && a.log.since[uid] == b.log.since[uid] && a.log.tries[uid] <= b.log.tries[uid]
                && (Bounded(a, uid) ==> Bounded(b, uid))))
  }

  ghost predicate CarriesAll(a: Snap, b: Snap) {
    forall uid :: Carries(a, b, uid)
  }

  ghost predicate AllDated(s: Snap) {
    forall uid | uid in s.failing :: Dated(s, uid)
  }

  lemma CarriesOn(a: Snap, b: Snap, c: Snap)
    requires CarriesAll(a, b) && CarriesAll(b, c) && AllDated(b)
    ensures CarriesAll(a, c)
  {
    hide Bounded;
    forall uid ensures Carries(a, c, uid) {
      assert Carries(a, b, uid) && Carries(b, c, uid);
    }
  }

  lemma TimeCarries(s: Snap, now: real)
    requires AllDated(s) && s.clock <= now
    ensures AllDated(s.(clock := now)) && CarriesAll(s, s.(clock := now))
  {
    hide Meets;
  }

  /** Streams recover, or their rows are dropped. */
  lemma LossCarries(s: Snap, failing: set<string>, retries: map<string, Retry>)
    requires AllDated(s) && failing <= s.failing && retries.Keys <= s.retries.Keys
    requires forall uid | uid in retries :: retries[uid] == s.retries[uid]
    ensures AllDated(s.(failing := failing, retries := retries)) && CarriesAll(s, s.(failing := failing, retries := retries))
  {
    hide Meets, OnTrack;
  }

  /** Rows are made during a period. */
  lemma RowsCarry(s: Snap, missing: set<string>)
    requires AllDated(s) && missing <= s.failing && missing !! s.retries.Keys
    ensures var b := s.(retries := s.retries + NewRows(missing, s.clock), log := WithRows(s.log, missing));
            && AllDated(b) && CarriesAll(s, b)
            && forall uid | uid in missing ::
                 Bounded(b, uid) <==> InTime(s.log, uid, s.clock)
  {
    hide Meets;
    forall uid | uid in missing {
      RemadeOnTrackIff(s.log.since[uid], |s.log.tries[uid]|, s.clock);
    }
  }

  /** A period begins, with the row that is left over or a new one. */
  lemma BeginningCarries(s: Snap, uid: string)
    requires AllDated(s) && uid !in s.failing
    ensures var row := if uid in s.retries then s.retries[uid] else Retry(s.clock + FIRST_DELAY, 0);
            var b := Snap(s.failing + {uid}, s.retries[uid := row], Begun(s.log, uid, s.clock), s.clock);
            && AllDated(b) && CarriesAll(s, b)
            && (Bounded(b, uid) <==> row.attempts > 0 || row.next >= s.clock + FIRST_DELAY)
  {
    var row := if uid in s.retries then s.retries[uid] else Retry(s.clock + FIRST_DELAY, 0);
    BeginsOnTrackIff(row, s.clock);
    hide OnTrack;
  }

  lemma ClaimCarries(s: Snap, uid: string)
    requires AllDated(s) && uid in s.retries && s.retries[uid].next <= s.clock
    ensures var b := s.(retries := s.retries[uid := Claimed(s.retries[uid], s.clock)], log := WithClaim(s.log, uid, s.clock));
            AllDated(b) && CarriesAll(s, b)
  {
    var b := s.(retries := s.retries[uid := Claimed(s.retries[uid], s.clock)], log := WithClaim(s.log, uid, s.clock));
    if Bounded(s, uid) {
      ClaimOnTrack(s.retries[uid], s.log.since[uid], |s.log.tries[uid]|, s.clock, s.clock);
      OneMoreMeets(s.log.since[uid], s.log.tries[uid], s.clock);
    }
    hide Meets, OnTrack;
  }

  lemma OneMoreMeets(since: real, tries: seq<real>, at: real)
    requires Meets(since, 0, tries) && (|tries| + 1 >= 3 ==> at >= since + Earliest(|tries| + 1))
    ensures Meets(since, 0, tries + [at])
  {
    hide Earliest;
  }

  lemma LeastOf(candidates: set<string>, schedule: map<string, real>) returns (least: string)
    requires candidates != {} && candidates <= schedule.Keys
    ensures least in candidates && forall uid | uid in candidates :: schedule[least] <= schedule[uid]
    decreases candidates
  {
    var some :| some in candidates;
    if candidates == {some} {
      least := some;
    } else {
      var rest := candidates - {some};
      assert candidates == rest + {some};
      var other := LeastOf(rest, schedule);
      least := if schedule[some] <= schedule[other] then some else other;
    }
  }

  function NewRows(missing: set<string>, now: real): map<string, Retry> {
    map uid | uid in missing :: Retry(now + FIRST_DELAY, 0)
  }

  function NextTimes(retries: map<string, Retry>): map<string, real> {
    map uid | uid in retries :: retries[uid].next
  }

  class Monitor {
    // the role-bound streams of enabled cameras, as `managed_stream_sources` reports them
    var sources: map<string, Source>
    var streams: set<string>
    var enabled: set<string>
    // streams in state auth_failed
    var failing: set<string>
    var retries: map<string, Retry>
    var pending: map<string, Job>
    const capacity: nat
    var clock: real
    ghost var log: Log

    constructor (workers: int, now: real)
      ensures Valid() && pending == map[] && retries == map[] && clock == now
    {
      capacity := if workers < 1 then 1 else if workers < 4 then workers else 4;
      sources, streams, enabled, failing, retries, pending := map[], {}, {}, {}, map[], map[];
      clock, log := now, Log(map[], map[], map[]);
    }

    ghost function Now(): Snap
      reads this
    {
      Snap(failing, retries, log, clock)
    }

    /** Refused streams are dated; jobs are counted and belong to their camera. */
    ghost predicate Valid()
      reads this
    {
      && AllDated(Now())
      && 1 <= capacity <= 4 && |pending| <= capacity
      && forall camera | camera in pending :: pending[camera].source.camera == camera
    }

    /** While a stream stays refused, its n-th retry from the third on started no earlier than 1260 + 1800 (n - 3)
        seconds after the first refusal, and every one that can still follow on its row will, if and only if the
        stream is bounded: a condition on the row, the retries made and the time. */
    lemma RetriesBackOff(uid: string)
      requires Valid() && uid in failing && uid in retries
      ensures uid in log.since && uid in log.tries
      ensures Bounded(Now(), uid) <==>
              && (forall k | 2 <= k < |log.tries[uid]| ::
                    log.tries[uid][k] >= log.since[uid] + 1260.0 + 1800.0 * (k - 2) as real)
              && (forall claims | Admissible(retries[uid], clock, claims) :: Meets(log.since[uid], |log.tries[uid]|, claims))
    {
      assert Dated(Now(), uid);
      OnTrackIff(retries[uid], log.since[uid], |log.tries[uid]|, clock);
      MeetsIs(log.since[uid], log.tries[uid]);
      hide OnTrack, Meets, Admissible;
    }

    /** What `record_probe_results` does to the retry rows. */
    method RecordResult(uid: string, unauthorized: bool, ready: bool, now: real)
      requires Valid() && !(unauthorized && ready) && clock <= now
      modifies `failing, `retries, `log, `clock
      ensures Valid() && clock == now && CarriesAll(old(Now()), Now())
      ensures uid !in streams ==> failing == old(failing) && retries == old(retries) && log == old(log)
      ensures uid in streams ==> failing == if unauthorized then old(failing) + {uid} else old(failing) - {uid}
      ensures uid in streams && ready ==> retries == old(retries) - {uid}
      ensures uid in streams && unauthorized && uid !in old(retries) ==>
                retries == old(retries)[uid := Retry(now + FIRST_DELAY, 0)]
      ensures uid in streams && !ready && (!unauthorized || uid in old(retries)) ==> retries == old(retries)
      ensures uid in streams && unauthorized ==> log == Refused(old(log), uid, uid in old(retries), uid in old(failing), now)
      ensures !unauthorized ==> log == old(log)
      ensures uid in streams && unauthorized && uid !in old(failing) ==>
                (Bounded(Now(), uid) <==> retries[uid].attempts > 0 || retries[uid].next >= now + FIRST_DELAY)
      ensures uid in streams && unauthorized && uid in old(failing) && uid !in old(retries) ==>
                (Bounded(Now(), uid) <==> InTime(old(log), uid, now))
    {
      hide AllDated, CarriesAll, Bounded, InTime, Refused;
      ghost var was := Now();
      TimeCarries(was, now);
      clock := now;
      ghost var before := Now();
      if uid !in streams {
        return;
      }
      if unauthorized {
        Refuse(uid);
      } else {
        LossCarries(before, failing - {uid}, if ready then retries - {uid} else retries);
        if ready {
          retries := retries - {uid};
        }
        failing := failing - {uid};
      }
      CarriesOn(was, before, Now());
    }

    /** An authentication failure of a known stream: a row is made if there is none. */
    method Refuse(uid: string)
      requires Valid()
      modifies `failing, `retries, `log
      ensures Valid() && CarriesAll(old(Now()), Now()) && failing == old(failing) + {uid}
      ensures log == Refused(old(log), uid, uid in old(retries), uid in old(failing), clock)
      ensures retries == if uid in old(retries) then old(retries) else old(retries)[uid := Retry(clock + FIRST_DELAY, 0)]
      ensures uid !in old(failing) ==>
                (Bounded(Now(), uid) <==> retries[uid].attempts > 0 || retries[uid].next >= clock + FIRST_DELAY)
      ensures uid in old(failing) && uid !in old(retries) ==>
                (Bounded(Now(), uid) <==> InTime(old(log), uid, clock))
    {
      hide AllDated, CarriesAll, Bounded, InTime;
      ghost var before := Now();
      DatedNow(before, uid);
      if uid !in failing {
        BeginningCarries(before, uid);
        log := Begun(log, uid, clock);
        retries := retries[uid := if uid in retries then retries[uid] else Retry(clock + FIRST_DELAY, 0)];
        failing := failing + {uid};
      } else if uid !in retries {
        RowsCarry(before, {uid});
        log := WithRows(log, {uid});
        retries := retries[uid := Retry(clock + FIRST_DELAY, 0)];
        assert retries == before.retries + NewRows({uid}, clock);
        assert failing == failing + {uid};
      } else {
        Unchanged(before);
        assert failing == failing + {uid};
      }
    }

    /** `auth_retry_schedule`: rows of streams that recovered or are disabled go, missing rows are made. A row made
        anew keeps the bound if and only if the retries so far did and each of them had half an hour. */
    method Schedule(now: real) returns (schedule: map<string, real>)
      requires Valid() && clock <= now
      modifies `retries, `log, `clock
      ensures Valid() && clock == now && CarriesAll(old(Now()), Now())
      ensures var missing := streams * failing * enabled - old(retries).Keys;
              var gone := streams - failing * enabled;
              && retries == old(retries) - gone + NewRows(missing, now)
              && log == WithRows(old(log), missing)
              && forall uid | uid in missing :: Bounded(Now(), uid) <==> InTime(old(log), uid, now)
      ensures schedule == NextTimes(retries)
    {
      hide AllDated, CarriesAll, Bounded, InTime, NewRows, NextTimes;
      ghost var was := Now();
      var gone := streams - failing * enabled;
      var missing := streams * failing * enabled - retries.Keys;
      TimeCarries(was, now);
      ghost var later := was.(clock := now);
      LossCarries(later, failing, retries - gone);
      ghost var dropped := later.(retries := retries - gone);
      RowsCarry(dropped, missing);
      retries := retries - gone + NewRows(missing, now);
      clock, log := now, WithRows(log, missing);
      CarriesOn(was, later, dropped);
      CarriesOn(was, dropped, Now());
      schedule := NextTimes(retries);
    }

    /** `claim_auth_retry` */
    method Claim(uid: string, now: real) returns (claimed: bool)
      requires Valid() && clock == now
      modifies `retries, `log
      ensures Valid() && retries.Keys == old(retries).Keys && CarriesAll(old(Now()), Now())
      ensures claimed <==> uid in old(retries) && old(retries)[uid].next <= now
      ensures claimed ==> log == WithClaim(old(log), uid, now) && retries == old(retries)[uid := Claimed(old(retries)[uid], now)]
      ensures !claimed ==> retries == old(retries) && log == old(log)
    {
      hide AllDated, CarriesAll;
      if uid !in retries || retries[uid].next > now {
        Unchanged(Now());
        return false;
      }
      ClaimCarries(Now(), uid);
      log := WithClaim(log, uid, now);
      retries := retries[uid := Claimed(retries[uid], now)];
      return true;
    }

    /** Whether a job is done, and whether it succeeded. */
    method Look(job: Job) returns (done: bool, worked: bool) {
      done := *;
      worked := *;
    }

    /** One job is looked at, and collected if it is finished; success counts only for the source that is still
        current. */
    method CollectOne(camera: string, current: map<string, Source>, now: real) returns (left: map<string, Source>)
      requires Valid() && clock == now && camera in pending
      modifies `pending, `failing, `retries, `log, `clock
      ensures Valid() && clock == now && log == old(log)
      ensures left == current || left == current - {old(pending)[camera].uid}
      ensures pending == old(pending) || pending == old(pending) - {camera}
      ensures var job := old(pending)[camera];
              || (failing == old(failing) && retries == old(retries))
              || (job.uid in current && current[job.uid] == job.source && left == current - {job.uid}
                  && failing == old(failing) - {job.uid} && retries == old(retries) - {job.uid})
      ensures CarriesAll(old(Now()), Now())
    {
      hide AllDated, CarriesAll;
      Unchanged(Now());
      left := current;
      var job := pending[camera];
      var done, worked := Look(job);
      if !done {
        return;
      }
      OneLess(pending, camera);
      pending := pending - {camera};
      if job.uid !in left || left[job.uid] != job.source || !worked {
        return;
      }
      RecordResult(job.uid, false, true, now);
      left := left - {job.uid};
    }

    /** Finished jobs are collected. */
    method Collect(current: map<string, Source>, now: real) returns (left: map<string, Source>)
      requires Valid() && clock == now
      modifies `pending, `failing, `retries, `log, `clock
      ensures Valid() && clock == now && log == old(log)
      ensures left.Keys <= current.Keys && (forall uid | uid in left :: left[uid] == current[uid])
      ensures pending.Keys <= old(pending).Keys && forall c | c in pending :: pending[c] == old(pending)[c]
      ensures failing <= old(failing) && retries.Keys <= old(retries).Keys
      ensures forall uid | uid in old(failing) && uid !in failing :: Confirmed(uid, old(pending), current)
      ensures forall uid | uid in old(retries) && uid !in retries :: Confirmed(uid, old(pending), current)
      ensures forall uid | uid in retries :: retries[uid] == old(retries)[uid]
      ensures forall uid | uid in left && uid in old(retries) :: uid in retries
      ensures forall uid | uid in old(retries) && uid in failing :: uid in retries
      ensures CarriesAll(old(Now()), Now())
    {
      hide Valid, CarriesAll;
      Unchanged(Now());
      left := current;
      var rest := pending.Keys;
      while rest != {}
        invariant Valid() && clock == now && log == old(log)
        invariant left.Keys <= current.Keys && (forall uid | uid in left :: left[uid] == current[uid])
        invariant rest <= pending.Keys <= old(pending).Keys && forall c | c in pending :: pending[c] == old(pending)[c]
        invariant failing <= old(failing) && retries.Keys <= old(retries).Keys
        invariant forall uid | uid in old(failing) && uid !in failing :: Confirmed(uid, old(pending), current)
        invariant forall uid | uid in old(retries) && uid !in retries :: Confirmed(uid, old(pending), current)
        invariant forall uid | uid in retries :: retries[uid] == old(retries)[uid]
        invariant forall uid | uid in left && uid in old(retries) :: uid in retries
        invariant forall uid | uid in old(retries) && uid in failing :: uid in retries
        invariant CarriesAll(old(Now()), Now())
        decreases rest
      {
        var camera :| camera in rest;
        rest := rest - {camera};
        ghost var before, job := Now(), pending[camera];
        ValidDates();
        left := CollectOne(camera, left, now);
        CarriesOn(old(Now()), before, Now());
        if job.uid in current && current[job.uid] == job.source {
          assert Confirmed(job.uid, old(pending), current);
        }
      }
    }

    /** A due stream starts a job, unless its camera has one. */
    method StartOne(uid: string, source: Source, now: real)
      requires Valid() && |pending| < capacity && uid in retries && clock == now
      modifies `pending, `retries, `log
      ensures Valid() && retries.Keys == old(retries).Keys
      ensures forall other | other in retries && other != uid :: retries[other] == old(retries)[other]
      ensures pending == old(pending) || (source.camera !in old(pending) && old(retries)[uid].next <= now
                                          && pending == old(pending)[source.camera := Job(uid, source)])
      ensures old(retries)[uid].next <= now ==> source.camera in pending
      ensures log.epoch == old(log).epoch
      ensures CarriesAll(old(Now()), Now())
    {
      hide AllDated, CarriesAll;
      Unchanged(Now());
      if source.camera in pending || retries[uid].next > now {
        return;
      }
      var claimed := Claim(uid, now);
      if claimed {
        OneMore(pending, source.camera, Job(uid, source));
        pending := pending[source.camera := Job(uid, source)];
      }
    }

    /** New jobs start in the order of the schedule, one for a camera, as far as there is room. No due stream
        waits while there is room, and none waits longer than one that starts. */
    method Start(current: map<string, Source>, schedule: map<string, real>, now: real)
      requires Valid() && current.Keys <= schedule.Keys && clock == now
      requires forall uid | uid in current :: uid in retries && retries[uid].next == schedule[uid]
      modifies `pending, `retries, `log
      ensures Valid() && retries.Keys == old(retries).Keys
      ensures |pending| >= capacity || forall uid | uid in current && schedule[uid] <= now :: current[uid].camera in pending
      ensures forall c | c in old(pending) :: c in pending && pending[c] == old(pending)[c]
      ensures forall c | c in pending && c !in old(pending) :: Started(pending[c], current, schedule, now)
      ensures forall uid | uid in current && schedule[uid] <= now && current[uid].camera !in pending ::
                NoLater(old(pending), pending, schedule, schedule[uid])
      ensures log.epoch == old(log).epoch
      ensures CarriesAll(old(Now()), Now())
    {
      hide Valid, CarriesAll, NoLater, Started;
      Unchanged(Now());
      NoneStarted(pending, schedule);
      var rest := current.Keys;
      while rest != {}
        invariant Valid() && rest <= current.Keys && retries.Keys == old(retries).Keys
        invariant forall uid | uid in rest :: uid in retries && retries[uid].next == schedule[uid]
        invariant forall uid | uid in current.Keys - rest && schedule[uid] <= now :: current[uid].camera in pending
        invariant forall c | c in old(pending) :: c in pending && pending[c] == old(pending)[c]
        invariant forall c | c in pending && c !in old(pending) :: Started(pending[c], current, schedule, now)
        invariant forall uid | uid in rest :: NoLater(old(pending), pending, schedule, schedule[uid])
        invariant log.epoch == old(log).epoch
        invariant CarriesAll(old(Now()), Now())
        decreases rest
      {
        if |pending| >= capacity {
          break;
        }
        ghost var least := LeastOf(rest, schedule);
        var uid :| uid in rest && forall other | other in rest :: schedule[uid] <= schedule[other];
        rest := rest - {uid};
        ghost var before, were := Now(), pending;
        ValidDates();
        StartOne(uid, current[uid], now);
        CarriesOn(old(Now()), before, Now());
        OneStarted(old(pending), were, pending, current, schedule, now, uid, rest);
      }
    }

    /** `_retry_authentication`. A stream leaves the auth_failed state only by a finished job whose source is
        the stream's current one. */
    method RetryAuthentication(now: real)
      requires Valid() && clock <= now
      modifies `pending, `failing, `retries, `log, `clock
      ensures Valid() && clock == now
      ensures forall uid | uid in old(failing) && uid !in failing :: Confirmed(uid, old(pending), sources)
      ensures failing <= old(failing)
      ensures CarriesAll(old(Now()), Now())
      ensures forall uid | uid in streams * failing * enabled - old(retries).Keys && InTime(old(log), uid, now) ::
                Bounded(Now(), uid)
    {
      hide Valid, Confirmed, CarriesAll, Bounded, InTime, WithRows, AllDated;
      ghost var was := Now();
      ValidDates();
      var schedule := Schedule(now);
      ghost var scheduled := Now();
      ValidDates();
      if schedule != map[] || pending != map[] {
        Serve(schedule, now);
      } else {
        Unchanged(scheduled);
      }
      CarriesOn(was, scheduled, Now());
      ValidDates();
      RoundBounds(scheduled);
    }

    /** The rest of a round: finished jobs are collected, and new ones start. */
    method Serve(schedule: map<string, real>, now: real)
      requires Valid() && clock == now && schedule == NextTimes(retries)
      modifies `pending, `failing, `retries, `log, `clock
      ensures Valid() && clock == now && log.epoch == old(log).epoch && retries.Keys <= old(retries).Keys
      ensures forall uid | uid in old(failing) && uid !in failing :: Confirmed(uid, old(pending), sources)
      ensures failing <= old(failing) && CarriesAll(old(Now()), Now())
      ensures forall uid | uid in old(retries) && uid in failing :: uid in retries
    {
      hide Valid, Confirmed, CarriesAll, Started, NoLater;
      ghost var before := pending;
      var current := map uid | uid in sources && uid in schedule :: sources[uid];
      ghost var refused := failing;
      var left := Collect(current, now);
      forall uid | uid in refused && uid !in failing ensures Confirmed(uid, before, sources) {
        ConfirmedAnyway(before, current, sources, uid);
      }
      assert forall uid | uid in left :: uid in retries && retries[uid].next == schedule[uid];
      ghost var collected := Now();
      ValidDates();
      Start(left, schedule, now);
      CarriesOn(old(Now()), collected, Now());
    }

    // ----- runs

    /** Any run. A stream that is bounded stays so until its row is dropped or made anew, or it recovers. */
    method Run(events: seq<Event>)
      requires Valid()
      modifies this
      ensures Valid() && CarriesAll(old(Now()), Now())
    {
      hide Valid, CarriesAll;
      Unchanged(Now());
      for i := 0 to |events|
        invariant Valid() && CarriesAll(old(Now()), Now())
      {
        ghost var before := Now();
        ValidDates();
        match events[i] {
        case Result(uid, unauthorized, ready, delay) =>
          if !(unauthorized && ready) && delay >= 0.0 {
            RecordResult(uid, unauthorized, ready, clock + delay);
          } else {
            Unchanged(before);
          }
        case Round(delay) =>
          if delay >= 0.0 {
            RetryAuthentication(clock + delay);
          } else {
            Unchanged(before);
          }
        case Change(sources, streams, enabled) =>
          Edit(sources, streams, enabled);
          Unchanged(before);
          assert Now() == before;
        }
        CarriesOn(old(Now()), before, Now());
      }
    }

    // ----- where the bound fails

    /** A stream can be refused anew while its older row is still there; the row keeps its schedule, and then
        the third retry can come before the 1260 seconds are over. */
    method RefusedAgain(uid: string)
      requires Valid() && streams == {uid} && retries == map[] && failing == {} && clock <= 0.0
      modifies `failing, `retries, `log, `clock
      ensures Valid() && uid in failing && uid in log.since && log.since[uid] == 59.5
      ensures uid in log.tries && log.tries[uid] == [60.0, 360.0, 1260.0] && 1260.0 < log.since[uid] + 1260.0
    {
      hide Valid, CarriesAll;
      RecordResult(uid, true, false, 0.0);
      RecordResult(uid, false, false, 59.0);
      RecordResult(uid, true, false, 59.5);
      RetryAt(uid, 60.0);
      RetryAt(uid, 360.0);
      RetryAt(uid, 1260.0);
    }

    /** A stream that is disabled for a moment while it stays refused loses its row, and the row made anew starts
        from its first delay: the third retry of the period comes after seven minutes. */
    method DisabledBetween(uid: string)
      requires Valid() && streams == {uid} && enabled == {uid} && retries == map[] && failing == {} && clock <= 0.0
      modifies this
      ensures Valid() && uid in failing && uid in log.since && log.since[uid] == 0.0
      ensures uid in log.tries && log.tries[uid] == [60.0, 122.0, 422.0] && 422.0 < log.since[uid] + 1260.0
    {
      hide Valid, CarriesAll, WithRows;
      RecordResult(uid, true, false, 0.0);
      RetryAt(uid, 60.0);
      Interrupt(uid, 61.0, 62.0);
      RetryAt(uid, 122.0);
      RetryAt(uid, 422.0);
    }

    /** The stream is disabled for one round of the schedule, and enabled again before the next. */
    method Interrupt(uid: string, off: real, on: real)
      requires Valid() && clock <= off <= on && streams == {uid} && uid in failing && retries.Keys == {uid}
      modifies `sources, `streams, `enabled, `retries, `log, `clock
      ensures Valid() && clock == on && retries == map[uid := Retry(on + FIRST_DELAY, 0)]
      ensures log.since == old(log).since && log.tries == old(log).tries
    {
      hide Valid, CarriesAll, Bounded, InTime, NextTimes, Epoch;
      Edit(sources, streams, {});
      var _ := Schedule(off);
      assert streams - failing * enabled == {uid};
      assert retries.Keys == {};
      assert retries == map[];
      Edit(sources, streams, {uid});
      var _ := Schedule(on);
      assert streams * failing * enabled - {} == {uid} && streams - failing * enabled == {};
    }

    /** A retry that starts as soon as it may. */
    method RetryAt(uid: string, now: real)
      requires Valid() && clock <= now && uid in retries && retries[uid].next == now && uid in log.tries
      modifies `retries, `log, `clock
      ensures Valid() && clock == now
      ensures retries == old(retries)[uid := Claimed(old(retries)[uid], now)]
      ensures log.since == old(log).since && log.tries == old(log).tries[uid := old(log).tries[uid] + [now]]
    {
      hide AllDated, CarriesAll;
      TimeCarries(Now(), now);
      Wait(now);
      var claimed := Claim(uid, now);
    }

    /** Time passes. */
    method Wait(now: real)
      requires Valid() && clock <= now
      modifies `clock
      ensures Valid() && clock == now
    {
      hide AllDated;
      TimeCarries(Now(), now);
      clock := now;
    }

    /** At most one job for a camera, and no more than four in all. */
    lemma JobsAreBounded()
      requires Valid()
      ensures |pending| <= capacity <= 4
      ensures forall c, d | c in pending && d in pending && pending[c].source.camera == pending[d].source.camera :: c == d
    {
    }

    lemma ValidDates()
      requires Valid()
      ensures AllDated(Now())
    {
    }

    /** What the round keeps of the streams whose rows it made. */
    lemma RoundBounds(scheduled: Snap)
      requires CarriesAll(scheduled, Now()) && AllDated(Now())
      ensures forall uid | Bounded(scheduled, uid) && uid in failing && uid in retries
                           && Epoch(scheduled.log, uid) == Epoch(log, uid) :: Bounded(Now(), uid)
    {
      forall uid | Bounded(scheduled, uid) && uid in failing && uid in retries && Epoch(scheduled.log, uid) == Epoch(log, uid)
        ensures Bounded(Now(), uid)
      {
        assert Carries(scheduled, Now(), uid);
      }
    }

    /** Edits by others: credentials, addresses, adoption, stream settings. */
    method Edit(sources: map<string, Source>, streams: set<string>, enabled: set<string>)
      requires Valid()
      modifies `sources, `streams, `enabled
      ensures Valid() && this.sources == sources && this.streams == streams && this.enabled == enabled
    {
      hide AllDated;
      this.sources, this.streams, this.enabled := sources, streams, enabled;
    }
  }

  datatype Event =
    | Result(uid: string, unauthorized: bool, ready: bool, delay: real)
    | Round(delay: real)
    | Change(sources: map<string, Source>, streams: set<string>, enabled: set<string>)

  lemma Unchanged(s: Snap)
    ensures CarriesAll(s, s)
  {
    hide Bounded;
  }

  lemma DatedNow(s: Snap, uid: string)
    requires AllDated(s)
    ensures uid in s.failing ==> uid in s.log.since && uid in s.log.tries && s.log.since[uid] <= s.clock
  {
  }

  lemma MeetsIs(since: real, tries: seq<real>)
    ensures Meets(since, 0, tries) <==>
            forall k | 2 <= k < |tries| :: tries[k] >= since + 1260.0 + 1800.0 * (k - 2) as real
  {
    forall k | 2 <= k < |tries|
      ensures tries[k] >= since + Earliest(0 + k + 1) <==> tries[k] >= since + 1260.0 + 1800.0 * (k - 2) as real
    {
      EarliestFromThird(k + 1);
    }
  }

  /** A job was in flight for the stream with exactly this source. */
  ghost predicate Confirmed(uid: string, pending: map<string, Job>, current: map<string, Source>) {
    uid in current && exists camera :: camera in pending && pending[camera] == Job(uid, current[uid])
  }

  /** A new job is for a due stream, with its current source. */
  ghost predicate Started(job: Job, current: map<string, Source>, schedule: map<string, real>, now: real) {
    job.uid in current && job.source == current[job.uid] && job.uid in schedule && schedule[job.uid] <= now
  }

  /** Every new job was due no later than `t`. */
  ghost predicate NoLater(before: map<string, Job>, pending: map<string, Job>, schedule: map<string, real>, t: real) {
    forall c | c in pending && c !in before :: pending[c].uid in schedule && schedule[pending[c].uid] <= t
  }

  lemma NoneStarted(pending: map<string, Job>, schedule: map<string, real>)
    ensures forall t :: NoLater(pending, pending, schedule, t)
  {
  }

  /** The earliest of the due streams starts, and what held of the jobs started before holds of all. */
  lemma OneStarted(before: map<string, Job>, pending: map<string, Job>, after: map<string, Job>, current: map<string, Source>,
                   schedule: map<string, real>, now: real, uid: string, rest: set<string>)
    requires uid in current && current.Keys <= schedule.Keys && rest <= current.Keys
    requires forall other | other in rest :: schedule[uid] <= schedule[other]
    requires after == pending
             || (schedule[uid] <= now && after == pending[current[uid].camera := Job(uid, current[uid])]
                 && current[uid].camera !in pending)
    ensures forall t | t >= schedule[uid] && NoLater(before, pending, schedule, t) :: NoLater(before, after, schedule, t)
    ensures forall c | c in after && c !in pending :: Started(after[c], current, schedule, now)
  {
  }

  lemma ConfirmedAnyway(pending: map<string, Job>, current: map<string, Source>, sources: map<string, Source>, uid: string)
    requires Confirmed(uid, pending, current) && forall u | u in current :: u in sources && sources[u] == current[u]
    ensures Confirmed(uid, pending, sources)
  {
  }

  lemma OneLess(pending: map<string, Job>, camera: string)
    requires camera in pending
    ensures |pending - {camera}| < |pending|
  {
    assert (pending - {camera}).Keys == pending.Keys - {camera};
    assert |pending - {camera}| == |(pending - {camera}).Keys| && |pending| == |pending.Keys|;
  }

  lemma OneMore(pending: map<string, Job>, camera: string, job: Job)
    requires camera !in pending
    ensures |pending[camera := job]| == |pending| + 1
  {
    assert pending[camera := job].Keys == pending.Keys + {camera};
    assert |pending[camera := job]| == |pending[camera := job].Keys| && |pending| == |pending.Keys|;
  }
}
