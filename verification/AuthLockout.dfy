/** `AdminAuthenticator`: password checks with a bounded lockout per client. Time is a monotonic clock, in
    seconds. */
module AuthLockout {
  import opened Common

  const MAX_FAILURES := 5
  const FAILURE_WINDOW := 300.0
  const LOCKOUT := 300.0

  datatype Decision = Allowed | Denied | LockedOut

  ghost predicate Sorted(times: seq<real>) {
    forall i, j | 0 <= i < j < |times| :: times[i] <= times[j]
  }

  /** A sixth failure comes no sooner than one window after the first. */
  ghost predicate Spaced(times: seq<real>) {
    forall i, j | 0 <= i && j == i + MAX_FAILURES && j < |times| :: times[i] + FAILURE_WINDOW <= times[j]
  }

  /** How many of the times lie in the half-open window from `t`. */
  ghost function CountFrom(times: seq<real>, t: real): nat {
    if times == [] then 0
    else CountFrom(times[..|times| - 1], t) + if t <= times[|times| - 1] < t + FAILURE_WINDOW then 1 else 0
  }

  lemma {:induction false} CountLast(times: seq<real>, t: real, k: nat)
    requires k <= |times|
    ensures CountFrom(times, t) <= CountFrom(times[..|times| - k], t) + k
  {
    if k == 0 {
      assert times[..|times|] == times;
    } else {
      CountLast(times[..|times| - 1], t, k - 1);
      assert times[..|times| - 1][..|times| - 1 - (k - 1)] == times[..|times| - k];
    }
  }

  lemma {:induction false} CountEarlier(times: seq<real>, t: real)
    requires forall i | 0 <= i < |times| :: times[i] < t
    ensures CountFrom(times, t) == 0
  {
    if times != [] {
      CountEarlier(times[..|times| - 1], t);
    }
  }

  /** Spaced failures: no half-open window holds more than five. */
  lemma {:induction false} AtMostFive(times: seq<real>, t: real)
    requires Sorted(times) && Spaced(times)
    ensures CountFrom(times, t) <= MAX_FAILURES
  {
    if times != [] {
      var n := |times|;
      if times[n - 1] >= t + FAILURE_WINDOW {
        AtMostFive(times[..n - 1], t);
      } else if n <= MAX_FAILURES {
        CountLast(times, t, n);
        assert times[..0] == [];
      } else {
        var early := times[..n - MAX_FAILURES];
        forall i | 0 <= i < |early| ensures early[i] < t {
          assert times[i] + FAILURE_WINDOW <= times[i + MAX_FAILURES] <= times[n - 1];
        }
        CountEarlier(early, t);
        CountLast(times, t, MAX_FAILURES);
      }
    }
  }

  /** The failures still in the window. */
  function Recent(queue: seq<real>, now: real): seq<real> {
    if queue != [] && queue[0] <= now - FAILURE_WINDOW then Recent(queue[1..], now) else queue
  }

  /** The queue holds the last failures of the history, and the one before them is over. */
  ghost predicate Suffix(history: seq<real>, queue: seq<real>, over: real) {
    && |queue| <= |history| && queue == history[|history| - |queue|..]
    && (|queue| < |history| ==> history[|history| - |queue| - 1] + FAILURE_WINDOW <= over)
  }

  /** One client: its evaluated failures since its last success, the queue, and the lock. */
  ghost predicate ClientFits(history: seq<real>, queue: seq<real>, lock: Option<real>, clock: real) {
    && Sorted(history) && Spaced(history) && (history != [] ==> history[|history| - 1] <= clock)
    && |queue| < MAX_FAILURES
    && (Suffix(history, queue, clock)
        || (queue == [] && history != [] && lock == Some(history[|history| - 1] + LOCKOUT)))
  }

  lemma {:induction false} RecentIsSuffix(history: seq<real>, queue: seq<real>, now: real)
    requires Suffix(history, queue, now)
    ensures Suffix(history, Recent(queue, now), now) && |Recent(queue, now)| <= |queue|
  {
    if queue != [] && queue[0] <= now - FAILURE_WINDOW {
      var gone := |history| - |queue|;
      assert history[gone] == queue[0];
      assert queue[1..] == history[gone + 1..];
      RecentIsSuffix(history, queue[1..], now);
    }
  }

  /** A failure after a suffix of at most four recent ones keeps the spacing. */
  lemma Append(history: seq<real>, recent: seq<real>, now: real)
    requires Sorted(history) && Spaced(history) && (history != [] ==> history[|history| - 1] <= now)
    requires Suffix(history, recent, now) && |recent| < MAX_FAILURES
    ensures Sorted(history + [now]) && Spaced(history + [now]) && Suffix(history + [now], recent + [now], now)
  {
    hide Spaced;
    AppendSpaced(history, now, |history| - |recent|);
    AppendSuffix(history, recent, now);
  }

  lemma AppendSpaced(history: seq<real>, now: real, gone: nat)
    requires Sorted(history) && Spaced(history) && |history| - gone < MAX_FAILURES && gone <= |history|
    requires gone > 0 ==> history[gone - 1] + FAILURE_WINDOW <= now
    ensures Spaced(history + [now])
  {
    var n := |history|;
    if n >= MAX_FAILURES {
      assert history[n - MAX_FAILURES] <= history[gone - 1];
    }
  }

  lemma AppendSuffix(history: seq<real>, recent: seq<real>, now: real)
    requires Suffix(history, recent, now)
    ensures Suffix(history + [now], recent + [now], now)
  {
    var after := history + [now];
    assert recent + [now] == after[|after| - |recent| - 1..];
  }

  /** Once the lock is over, the earlier failures are either in the queue or a window old. */
  lemma Unlocked(history: seq<real>, queue: seq<real>, lock: Option<real>, clock: real, now: real)
    requires ClientFits(history, queue, lock, clock) && clock <= now && (lock.Some? ==> lock.value <= now)
    ensures Suffix(history, queue, now) && Sorted(history) && Spaced(history)
    ensures (history != [] ==> history[|history| - 1] <= now) && |queue| < MAX_FAILURES
  {
    hide Sorted, Spaced;
  }

  lemma Fits(history: seq<real>, queue: seq<real>, now: real)
    requires Sorted(history) && Spaced(history) && Suffix(history, queue, now)
    requires history != [] && history[|history| - 1] == now
    ensures |queue| < MAX_FAILURES ==> ClientFits(history, queue, None, now)
    ensures ClientFits(history, [], Some(now + LOCKOUT), now)
  {
    hide Sorted, Spaced, Suffix;
  }

  /** Once the lock is over, one more failure keeps the spacing; the fifth recent one locks again. */
  lemma OneMoreFailure(history: seq<real>, queue: seq<real>, lock: Option<real>, clock: real, now: real)
    requires ClientFits(history, queue, lock, clock) && clock <= now && (lock.Some? ==> lock.value <= now)
    ensures |Recent(queue, now)| < MAX_FAILURES
    ensures |Recent(queue, now)| + 1 < MAX_FAILURES ==> ClientFits(history + [now], Recent(queue, now) + [now], None, now)
    ensures ClientFits(history + [now], [], Some(now + LOCKOUT), now)
  {
    hide Recent, Sorted, Spaced, Suffix, ClientFits;
    Unlocked(history, queue, lock, clock, now);
    RecentIsSuffix(history, queue, now);
    Append(history, Recent(queue, now), now);
    Fits(history + [now], Recent(queue, now) + [now], now);
  }

  lemma {:induction false} RecentIsRecent(queue: seq<real>, now: real)
    ensures Recent(queue, now) != [] ==> Recent(queue, now)[0] > now - FAILURE_WINDOW
  {
    if queue != [] && queue[0] <= now - FAILURE_WINDOW {
      RecentIsRecent(queue[1..], now);
    }
  }

  /** The fifth last failure is recent. */
  ghost predicate FiveRecent(history: seq<real>, now: real) {
    |history| >= MAX_FAILURES && history[|history| - MAX_FAILURES] > now - FAILURE_WINDOW
  }

  /** The queue is full exactly when five failures are recent. */
  lemma FullIff(history: seq<real>, queue: seq<real>, lock: Option<real>, clock: real, now: real)
    requires ClientFits(history, queue, lock, clock) && clock <= now && (lock.Some? ==> lock.value <= now)
    ensures |Recent(queue, now)| + 1 >= MAX_FAILURES <==> FiveRecent(history + [now], now)
  {
    hide Spaced, ClientFits;
    Unlocked(history, queue, lock, clock, now);
    RecentIsSuffix(history, queue, now);
    RecentIsRecent(queue, now);
    var recent := Recent(queue, now);
    hide Recent;
    var gone := |history| - |recent|;
    if |history| + 1 >= MAX_FAILURES && |recent| + 1 < MAX_FAILURES {
      assert history[|history| + 1 - MAX_FAILURES] <= history[gone - 1];
    }
  }

  lemma TimePasses(history: seq<real>, queue: seq<real>, lock: Option<real>, clock: real, now: real)
    requires ClientFits(history, queue, lock, clock) && clock <= now
    ensures ClientFits(history, queue, lock, now)
    ensures lock.Some? && lock.value <= now ==> ClientFits(history, queue, None, now)
  {
  }

  lemma NoFailures(clock: real)
    ensures ClientFits([], [], None, clock)
  {
  }

  method DropOld(failures: seq<real>, now: real) returns (queue: seq<real>)
    ensures queue == Recent(failures, now)
  {
    queue := failures;
    while queue != [] && queue[0] <= now - FAILURE_WINDOW
      invariant Recent(queue, now) == Recent(failures, now)
    {
      queue := queue[1..];
    }
  }

  // ----- all clients

  function Times(m: map<string, seq<real>>, client: string): seq<real> {
    if client in m then m[client] else []
  }

  function LockOf(m: map<string, real>, client: string): Option<real> {
    if client in m then Some(m[client]) else None
  }

  ghost predicate AllFit(history: map<string, seq<real>>, failures: map<string, seq<real>>, locked: map<string, real>, clock: real) {
    forall c :: ClientFits(Times(history, c), Times(failures, c), LockOf(locked, c), clock)
  }

  lemma AllLater(history: map<string, seq<real>>, failures: map<string, seq<real>>, locked: map<string, real>, clock: real, now: real)
    requires AllFit(history, failures, locked, clock) && clock <= now
    ensures AllFit(history, failures, locked, now)
  {
    hide ClientFits, Times, LockOf;
    forall c ensures ClientFits(Times(history, c), Times(failures, c), LockOf(locked, c), now) {
      TimePasses(Times(history, c), Times(failures, c), LockOf(locked, c), clock, now);
    }
  }

  function WithLock(locked: map<string, real>, client: string, lock: Option<real>): map<string, real> {
    if lock.Some? then locked[client := lock.value] else locked - {client}
  }

  /** One client moves on, the others stay. */
  lemma ClientMoves(history: map<string, seq<real>>, failures: map<string, seq<real>>, locked: map<string, real>, clock: real,
                    client: string, h: seq<real>, q: seq<real>, lock: Option<real>)
    requires AllFit(history, failures, locked, clock) && ClientFits(h, q, lock, clock)
    ensures AllFit(history[client := h], failures[client := q], WithLock(locked, client, lock), clock)
  {
    hide ClientFits;
    forall c ensures ClientFits(Times(history[client := h], c), Times(failures[client := q], c),
                                LockOf(WithLock(locked, client, lock), c), clock)
    {
      assert ClientFits(Times(history, c), Times(failures, c), LockOf(locked, c), clock);
    }
  }

  /** A lock that is over can be dropped. */
  lemma LockExpires(history: map<string, seq<real>>, failures: map<string, seq<real>>, locked: map<string, real>, clock: real,
                    client: string)
    requires AllFit(history, failures, locked, clock) && (client in locked ==> locked[client] <= clock)
    ensures AllFit(history, failures, locked - {client}, clock)
  {
    hide ClientFits;
    forall c ensures ClientFits(Times(history, c), Times(failures, c), LockOf(locked - {client}, c), clock) {
      assert ClientFits(Times(history, c), Times(failures, c), LockOf(locked, c), clock);
      TimePasses(Times(history, c), Times(failures, c), LockOf(locked, c), clock, clock);
    }
  }

  /** A success forgets the client. */
  lemma ClientForgotten(history: map<string, seq<real>>, failures: map<string, seq<real>>, locked: map<string, real>, clock: real,
                        client: string)
    requires AllFit(history, failures, locked, clock)
    ensures AllFit(history - {client}, failures - {client}, locked - {client}, clock)
  {
    hide ClientFits;
    forall c ensures ClientFits(Times(history - {client}, c), Times(failures - {client}, c), LockOf(locked - {client}, c), clock) {
      assert ClientFits(Times(history, c), Times(failures, c), LockOf(locked, c), clock);
      NoFailures(clock);
    }
  }

  class AdminAuthenticator {
    var failures: map<string, seq<real>>
    var lockedUntil: map<string, real>
    var clock: real
    // the evaluated failures of each client since its last success
    ghost var history: map<string, seq<real>>

    constructor (now: real)
      ensures Valid() && clock == now && history == map[]
    {
      failures, lockedUntil, clock := map[], map[], now;
      history := map[];
    }

    ghost predicate Valid()
      reads this
    {
      AllFit(history, failures, lockedUntil, clock)
    }

    /** In every reachable state, no client has had more than five evaluated failures in any half-open window
        of 300 seconds since its last success. */
    lemma BoundedGuessing(client: string, t: real)
      requires Valid()
      ensures CountFrom(Times(history, client), t) <= MAX_FAILURES
      ensures Sorted(Times(failures, client)) && |Times(failures, client)| < MAX_FAILURES
    {
      assert ClientFits(Times(history, client), Times(failures, client), LockOf(lockedUntil, client), clock);
      AtMostFive(Times(history, client), t);
    }

    /** `_record_failure` */
    method RecordFailure(client: string, now: real) returns (decision: Decision)
      requires Valid() && clock == now && client !in lockedUntil
      modifies this
      ensures Valid() && clock == now
      ensures history == old(history)[client := Times(old(history), client) + [now]]
      ensures decision == if FiveRecent(history[client], now) then LockedOut else Denied
      ensures lockedUntil == if decision == LockedOut then old(lockedUntil)[client := now + LOCKOUT] else old(lockedUntil)
    {
      hide ClientFits, Recent, AllFit, FiveRecent;
      FitsOne(history, failures, lockedUntil, clock, client);
      OneMoreFailure(Times(history, client), Times(failures, client), LockOf(lockedUntil, client), clock, now);
      FullIff(Times(history, client), Times(failures, client), LockOf(lockedUntil, client), clock, now);
      var queue := DropOld(Times(failures, client), now);
      queue := queue + [now];
      ghost var after := Times(history, client) + [now];
      if |queue| >= MAX_FAILURES {
        ClientMoves(history, failures, lockedUntil, clock, client, after, [], Some(now + LOCKOUT));
      } else {
        ClientMoves(history, failures, lockedUntil, clock, client, after, queue, None);
        assert lockedUntil - {client} == lockedUntil;
      }
      history := history[client := after];
      decision := Denied;
      if |queue| >= MAX_FAILURES {
        lockedUntil := lockedUntil[client := now + LOCKOUT];
        queue := [];
        decision := LockedOut;
      }
      failures := failures[client := queue];
    }

    /** `authenticate`, when a password is configured; `right` says whether the credentials are. */
    method Authenticate(client: string, right: bool, now: real) returns (decision: Decision)
      requires Valid() && clock <= now
      modifies this
      ensures Valid() && clock == now
      ensures var locked := client in old(lockedUntil) && old(lockedUntil)[client] > now;
              && (decision == Allowed <==> right && !locked)
              && history == if locked then old(history)
                            else if right then old(history) - {client}
                            else old(history)[client := Times(old(history), client) + [now]]
      ensures decision == LockedOut <==>
                (client in old(lockedUntil) && old(lockedUntil)[client] > now) || (!right && FiveRecent(Times(history, client), now))
    {
      hide ClientFits, AllFit, FiveRecent;
      AllLater(history, failures, lockedUntil, clock, now);
      clock := now;
      if client in lockedUntil && lockedUntil[client] > now {
        return LockedOut;
      }
      LockExpires(history, failures, lockedUntil, clock, client);
      lockedUntil := lockedUntil - {client};
      if !right {
        decision := RecordFailure(client, now);
        return;
      }
      ClientForgotten(history, failures, lockedUntil, clock, client);
      history, failures, lockedUntil := history - {client}, failures - {client}, lockedUntil - {client};
      return Allowed;
    }
  }

  lemma FitsOne(history: map<string, seq<real>>, failures: map<string, seq<real>>, locked: map<string, real>, clock: real, client: string)
    requires AllFit(history, failures, locked, clock)
    ensures ClientFits(Times(history, client), Times(failures, client), LockOf(locked, client), clock)
  {
    hide ClientFits, Times, LockOf;
  }
}
