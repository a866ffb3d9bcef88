/** The rules behind a camera's health: stream counters, the state of a camera, the fold over its history, and
    the series of its incidents. */
module HealthRules {
  import opened Common

  const OFFLINE_AFTER := 3
  const DEGRADED_AFTER := 2

  datatype StreamHealth = Unknown | Healthy | Degraded | Offline | AuthFailed
  datatype Probe = Ready | Idle | Unauthorized | Failing(status: string)
  datatype CameraState = State(health: StreamHealth) | Disabled
  datatype Stream = Stream(camera: string, health: StreamHealth, failures: nat)

  /** A row of `camera_health_events`. */
  datatype Event = Event(state: CameraState, reason: string, at: int)

  datatype Kind = MediaOffline | AuthenticationFailed | AddressChanged
  datatype Incident = Incident(kind: Kind, since: int, lastObserved: int, resolved: Option<int>, resolution: string)

  // ----- the state of a stream

  /** `record_probe_results`: the failure counter. */
  function NextFailures(stream: Stream, probe: Probe): nat {
    if probe.Ready? || probe.Idle? then 0 else stream.failures + 1
  }

  function NextHealth(stream: Stream, probe: Probe): StreamHealth {
    match probe
    case Ready => Healthy
    case Idle => Unknown
    case Unauthorized => AuthFailed
    case Failing(_) =>
      if NextFailures(stream, probe) >= OFFLINE_AFTER then Offline
      else if NextFailures(stream, probe) >= DEGRADED_AFTER then Degraded
      else if stream.health == Healthy then Healthy else Unknown
  }

  function Observed(stream: Stream, probe: Probe): Stream {
    Stream(stream.camera, NextHealth(stream, probe), NextFailures(stream, probe))
  }

  /** Failed observations since the last one that was ready or idle. */
  ghost function FailedInARow(history: seq<Probe>): nat {
    if history == [] || history[|history| - 1].Ready? || history[|history| - 1].Idle? then 0
    else 1 + FailedInARow(history[..|history| - 1])
  }

  /** The counter agrees with the observations since the last reset, and only three or more failures in a
      row make a stream offline. */
  ghost predicate StreamAgrees(stream: Stream, history: seq<Probe>) {
    && stream.failures == FailedInARow(history)
    && (stream.health == Offline ==> FailedInARow(history) >= OFFLINE_AFTER)
  }

  lemma ObservedAgrees(stream: Stream, history: seq<Probe>, probe: Probe)
    requires StreamAgrees(stream, history)
    ensures StreamAgrees(Observed(stream, probe), history + [probe])
  {
    assert (history + [probe])[..|history|] == history;
  }

  // ----- the state of a camera

  /** `_camera_health_state`: from the health of the role-bound streams. */
  function CameraHealth(enabled: bool, states: set<StreamHealth>): (r: (CameraState, string)) {
    var observed := states - {Unknown};
    if !enabled then (Disabled, "operator_disabled")
    else if observed == {} then (State(Unknown), "media_check_pending")
    else if AuthFailed in observed then (State(AuthFailed), "authentication_failed")
    else if forall s | s in observed :: s == Healthy then (State(Healthy), "all_streams_healthy")
    else if forall s | s in states :: s == Offline then (State(Offline), "all_streams_offline")
    else if Offline in observed then (State(Degraded), "partial_stream_failure")
    else if Degraded in observed then (State(Degraded), "media_probe_failed")
    else (State(Unknown), "media_check_pending")
  }

  /** A camera is offline exactly when it is enabled and all its role-bound streams, at least one, are. */
  lemma OfflineMeans(enabled: bool, states: set<StreamHealth>)
    ensures CameraHealth(enabled, states).0 == State(Offline) <==> enabled && states == {Offline}
  {
    if enabled && states == {Offline} {
      assert Offline in states - {Unknown};
    }
    if CameraHealth(enabled, states).0 == State(Offline) {
      var some :| some in states - {Unknown};
      assert some == Offline;
      assert states == {Offline};
    }
  }

  lemma HealthyMeans(enabled: bool, states: set<StreamHealth>)
    ensures CameraHealth(enabled, states).0 == State(Healthy) <==>
            (enabled && Healthy in states && states <= {Healthy, Unknown})
  {
    if enabled && Healthy in states && states <= {Healthy, Unknown} {
      assert Healthy in states - {Unknown};
    }
    if CameraHealth(enabled, states).0 == State(Healthy) {
      var some :| some in states - {Unknown};
      forall s | s in states ensures s in {Healthy, Unknown} {
        assert s == Unknown || s in states - {Unknown};
      }
    }
  }

  /** The pending state at the end of `_camera_health_state` is never reached: a camera is pending exactly
      when none of its role-bound streams has been observed. */
  lemma PendingMeans(enabled: bool, states: set<StreamHealth>)
    ensures CameraHealth(enabled, states).0 == State(Unknown) <==> enabled && states <= {Unknown}
  {
    var observed := states - {Unknown};
    if enabled && observed != {} {
      if AuthFailed !in observed && !(forall s | s in observed :: s == Healthy) {
        var other :| other in observed && other != Healthy;
        assert other == Degraded || other == Offline;
      }
      var some :| some in observed;
      assert some in states;
    }
  }

  // ----- the fold over a camera's history

  function KindOf(state: CameraState): Option<Kind> {
    if state == State(Offline) then Some(MediaOffline)
    else if state == State(AuthFailed) then Some(AuthenticationFailed)
    else None
  }

  /** Offline and auth_failed set the kind, healthy and disabled clear it, degraded and unknown keep it. */
  function Step(kind: Option<Kind>, state: CameraState): Option<Kind> {
    if KindOf(state).Some? then KindOf(state)
    else if state == State(Healthy) || state == Disabled then None
    else kind
  }

  lemma MediaOnlyWhenOffline(kind: Option<Kind>, state: CameraState)
    requires KindOf(state).Some? && Step(kind, state) == Some(MediaOffline)
    ensures state == State(Offline)
  {
  }

  function Fold(log: seq<Event>): Option<Kind> {
    if log == [] then None else Step(Fold(log[..|log| - 1]), log[|log| - 1].state)
  }

  /** The event log leaves out repetitions of its last state and reason. */
  function Logged(log: seq<Event>, state: CameraState, reason: string, now: int): seq<Event> {
    if log == [] || log[|log| - 1].state != state || log[|log| - 1].reason != reason
    then log + [Event(state, reason, now)]
    else log
  }

  /** Leaving out a repetition does not change the fold. */
  lemma LoggedFolds(log: seq<Event>, state: CameraState, reason: string, now: int)
    ensures Fold(Logged(log, state, reason, now)) == Step(Fold(log), state)
    ensures Logged(log, state, reason, now) != []
    ensures var after := Logged(log, state, reason, now); after[|after| - 1].state == state
  {
    var event := Event(state, reason, now);
    if Logged(log, state, reason, now) == log {
      assert Step(Step(Fold(log[..|log| - 1]), state), state) == Step(Fold(log[..|log| - 1]), state);
    } else {
      assert (log + [event])[..|log|] == log && (log + [event])[|log|] == event;
    }
  }

  // ----- a series of incidents

  /** A camera that is disabled has no open health incident. */
  lemma DisabledIsClosed(enabled: bool, states: set<StreamHealth>, log: seq<Event>, list: seq<Incident>)
    requires log != [] && log[|log| - 1].state == CameraHealth(enabled, states).0 && OpenKind(list) == Fold(log)
    ensures !enabled ==> !IsOpen(list)
  {
  }

  predicate IsOpen(list: seq<Incident>) {
    list != [] && list[|list| - 1].resolved.None?
  }

  function OpenKind(list: seq<Incident>): Option<Kind> {
    if IsOpen(list) then Some(list[|list| - 1].kind) else None
  }

  /** Incidents follow one another: each but the last is resolved before the next one opens. */
  ghost predicate Ordered(list: seq<Incident>, clock: int) {
    && (forall i | 0 <= i < |list| ::
          list[i].since <= clock
          && (list[i].resolved.Some? ==> list[i].since <= list[i].resolved.value <= clock))
    && (forall i | 0 <= i < |list| - 1 :: list[i].resolved.Some? && list[i].resolved.value <= list[i + 1].since)
  }

  /** No two incidents of a series overlap, and only the last one can be open. */
  lemma {:induction false} NeverOverlap(list: seq<Incident>, clock: int, i: nat, j: nat)
    requires Ordered(list, clock) && i < j < |list|
    ensures list[i].resolved.Some? && list[i].since <= list[i].resolved.value <= list[j].since
    decreases j - i
  {
    if i + 1 < j {
      NeverOverlap(list, clock, i + 1, j);
    }
  }

  function Resolve(list: seq<Incident>, now: int, reason: string): seq<Incident>
    requires IsOpen(list)
  {
    var last := list[|list| - 1];
    list[|list| - 1 := last.(lastObserved := now, resolved := Some(now), resolution := reason)]
  }

  function Touch(list: seq<Incident>, now: int): seq<Incident>
    requires IsOpen(list)
  {
    list[|list| - 1 := list[|list| - 1].(lastObserved := now)]
  }

  function Opening(kind: Kind, now: int): Incident {
    Incident(kind, now, now, None, "")
  }

  /** `list` only grew: no incident disappeared, and resolved ones stayed as they were. */
  ghost predicate Grew(before: seq<Incident>, list: seq<Incident>) {
    && |before| <= |list|
    && (forall i | 0 <= i < |before| ::
          && before[i].kind == list[i].kind && before[i].since == list[i].since
          && (before[i].resolved.Some? ==> before[i] == list[i]))
  }

  lemma ResolveKeeps(list: seq<Incident>, now: int, reason: string)
    requires Ordered(list, now) && IsOpen(list)
    ensures Ordered(Resolve(list, now, reason), now) && !IsOpen(Resolve(list, now, reason))
    ensures Grew(list, Resolve(list, now, reason))
  {
  }

  lemma TouchKeeps(list: seq<Incident>, now: int)
    requires Ordered(list, now) && IsOpen(list)
    ensures Ordered(Touch(list, now), now) && OpenKind(Touch(list, now)) == OpenKind(list)
    ensures Grew(list, Touch(list, now))
  {
  }

  lemma OpeningKeeps(list: seq<Incident>, now: int, kind: Kind)
    requires Ordered(list, now) && !IsOpen(list)
    ensures Ordered(list + [Opening(kind, now)], now) && OpenKind(list + [Opening(kind, now)]) == Some(kind)
    ensures Grew(list, list + [Opening(kind, now)])
  {
  }

  lemma Later(list: seq<Incident>, clock: int, now: int)
    requires Ordered(list, clock) && clock <= now
    ensures Ordered(list, now)
  {
  }

  lemma GrewTwice(a: seq<Incident>, b: seq<Incident>, c: seq<Incident>)
    requires Grew(a, b) && Grew(b, c)
    ensures Grew(a, c)
  {
  }

  /** What a state does to a series of health incidents: a confirmed one is touched, one of another cause is closed
      and a new one opened, and a camera that is well or disabled has its incident closed. */
  function Next(list: seq<Incident>, state: CameraState, now: int): seq<Incident> {
    var kind := KindOf(state);
    if kind.Some? then
      if IsOpen(list) && list[|list| - 1].kind == kind.value then Touch(list, now)
      else (if IsOpen(list) then Resolve(list, now, "cause_changed") else list) + [Opening(kind.value, now)]
    else if IsOpen(list) && (state == State(Healthy) || state == Disabled) then
      Resolve(list, now, if state == Disabled then "operator_disabled" else "recovered")
    else list
  }

  lemma NextKeeps(list: seq<Incident>, state: CameraState, now: int)
    requires Ordered(list, now)
    ensures Ordered(Next(list, state, now), now) && Grew(list, Next(list, state, now))
    ensures OpenKind(Next(list, state, now)) == Step(OpenKind(list), state)
  {
    hide Ordered, Grew, KindOf;
    GrewNothing(list);
    var kind := KindOf(state);
    if IsOpen(list) {
      TouchKeeps(list, now);
      ResolveKeeps(list, now, "cause_changed");
      ResolveKeeps(list, now, if state == Disabled then "operator_disabled" else "recovered");
    }
    if kind.Some? && OpenKind(list) != kind {
      var closed := if IsOpen(list) then Resolve(list, now, "cause_changed") else list;
      OpeningKeeps(closed, now, kind.value);
      GrewTwice(list, closed, closed + [Opening(kind.value, now)]);
    }
  }

  lemma GrewNothing(a: seq<Incident>)
    ensures Grew(a, a)
  {
  }
}
