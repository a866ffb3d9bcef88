/** `camera_availability`: the report over a time window, from the log of a camera's health events. Exact
    rationals stand for floating point; the rounding of the shown numbers is not modelled. */
module Availability {
  import opened Common
  import opened HealthRules

  datatype Segment = Segment(from: real, to: real, state: CameraState, reason: string)
  datatype Bucket = Bucket(from: real, to: real, state: CameraState, reason: string, segments: seq<Segment>)
  datatype Report = Report(percent: Option<real>, observed: real, buckets: seq<Bucket>)

  // ----- the meaning of a report

  /** The order of the query: by time, then by row. */
  ghost predicate Sorted(log: seq<Event>) {
    forall i, j | 0 <= i < j < |log| :: log[i].at <= log[j].at
  }

  /** State and reason at an instant: those of the latest event at or before it. */
  ghost function StateAt(log: seq<Event>, t: real): (CameraState, string) {
    if log == [] then (State(Unknown), "no_observation")
    else if log[|log| - 1].at as real <= t then (log[|log| - 1].state, log[|log| - 1].reason)
    else StateAt(log[..|log| - 1], t)
  }

  /** The segments follow one another from `from` to `to`, without gap, overlap or empty segment. */
  ghost predicate Tiles(segments: seq<Segment>, from: real, to: real) {
    if segments == [] then from == to
    else
      var last := segments[|segments| - 1];
      last.from < last.to == to && Tiles(segments[..|segments| - 1], from, last.from)
  }

  /** Every instant of the segment is in its state. */
  ghost predicate Truthful(segment: Segment, log: seq<Event>) {
    forall t: real | segment.from <= t < segment.to :: StateAt(log, t) == (segment.state, segment.reason)
  }

  ghost function Length(segment: Segment, state: CameraState): real {
    if segment.state == state then segment.to - segment.from else 0.0
  }

  /** The time spent in a state. */
  ghost function Duration(segments: seq<Segment>, state: CameraState): real {
    if segments == [] then 0.0
    else Duration(segments[..|segments| - 1], state) + Length(segments[|segments| - 1], state)
  }

  predicate Counts(state: CameraState) {
    state in {State(Healthy), State(Degraded), State(Offline), State(AuthFailed)}
  }

  /** The time spent in any of the states that count as observed. */
  ghost function ObservedTime(segments: seq<Segment>): real {
    Duration(segments, State(Healthy)) + Duration(segments, State(Degraded))
    + Duration(segments, State(Offline)) + Duration(segments, State(AuthFailed))
  }

  // ----- the states of the window

  lemma {:induction false} LatestAt(log: seq<Event>, k: nat, t: real)
    requires Sorted(log) && k < |log| && log[k].at as real <= t
    requires k + 1 < |log| ==> t < log[k + 1].at as real
    ensures StateAt(log, t) == (log[k].state, log[k].reason)
    decreases |log|
  {
    if k + 1 < |log| {
      assert t < log[|log| - 1].at as real;
      LatestAt(log[..|log| - 1], k, t);
    }
  }

  lemma {:induction false} NothingBefore(log: seq<Event>, t: real)
    requires Sorted(log) && (log != [] ==> t < log[0].at as real)
    ensures StateAt(log, t) == (State(Unknown), "no_observation")
  {
    if log != [] {
      NothingBefore(log[..|log| - 1], t);
    }
  }

  lemma Extend(segments: seq<Segment>, from: real, segment: Segment)
    requires Tiles(segments, from, segment.from) && segment.from < segment.to
    ensures Tiles(segments + [segment], from, segment.to)
  {
    assert (segments + [segment])[..|segments|] == segments;
  }

  /** State and reason after the first `count` events. */
  function After(log: seq<Event>, count: nat): (CameraState, string)
    requires count <= |log|
  {
    if count == 0 then (State(Unknown), "no_observation") else (log[count - 1].state, log[count - 1].reason)
  }

  lemma Holds(log: seq<Event>, count: nat, segment: Segment)
    requires Sorted(log) && count <= |log| && (segment.state, segment.reason) == After(log, count)
    requires count > 0 ==> log[count - 1].at as real <= segment.from
    requires count < |log| ==> segment.to <= log[count].at as real
    ensures Truthful(segment, log)
  {
    hide StateAt;
    forall t: real | segment.from <= t < segment.to ensures StateAt(log, t) == (segment.state, segment.reason) {
      if count == 0 {
        NothingBefore(log, t);
      } else {
        LatestAt(log, count - 1, t);
      }
    }
  }

  function Max(a: real, b: real): real { if a < b then b else a }
  function Min(a: real, b: real): real { if a < b then a else b }

  /** The segments of the window tile it, and each is in the state of the latest event. */
  method Segments(log: seq<Event>, start: real, end: real) returns (segments: seq<Segment>)
    requires Sorted(log) && start < end
    ensures Tiles(segments, start, end)
    ensures forall k | 0 <= k < |segments| :: Truthful(segments[k], log)
  {
    hide Truthful, Tiles;
    var i := 0;
    while i < |log| && log[i].at as real < start
      invariant i <= |log| && (i > 0 ==> log[i - 1].at as real < start)
    {
      i := i + 1;
    }
    var (state, reason) := After(log, i);
    var cursor := start;
    segments := [];
    NothingTiles(start);
    while i < |log| && log[i].at as real <= end
      invariant i <= |log| && start <= cursor <= end && Tiles(segments, start, cursor)
      invariant (state, reason) == After(log, i)
      invariant i > 0 ==> log[i - 1].at as real <= cursor
      invariant i < |log| ==> cursor <= log[i].at as real
      invariant forall k | 0 <= k < |segments| :: Truthful(segments[k], log)
    {
      var at := Min(end, Max(start, log[i].at as real));
      if at > cursor {
        Holds(log, i, Segment(cursor, at, state, reason));
        Extend(segments, start, Segment(cursor, at, state, reason));
        segments := segments + [Segment(cursor, at, state, reason)];
      }
      state, reason, cursor := log[i].state, log[i].reason, at;
      i := i + 1;
    }
    if cursor < end {
      Holds(log, i, Segment(cursor, end, state, reason));
      Extend(segments, start, Segment(cursor, end, state, reason));
      segments := segments + [Segment(cursor, end, state, reason)];
    }
  }

  lemma NothingTiles(start: real)
    ensures Tiles([], start, start)
  {
  }

  // ----- the totals

  lemma {:induction false} DurationsAreSane(segments: seq<Segment>, from: real, to: real, state: CameraState)
    requires Tiles(segments, from, to)
    ensures 0.0 <= Duration(segments, state)
  {
    if segments != [] {
      DurationsAreSane(segments[..|segments| - 1], from, segments[|segments| - 1].from, state);
    }
  }

  /** Observed and healthy time, and the percentage that is healthy. */
  method Totals(segments: seq<Segment>, ghost start: real, ghost end: real) returns (percent: Option<real>, observed: real)
    requires Tiles(segments, start, end)
    ensures observed == ObservedTime(segments)
    ensures percent.Some? <==> observed > 0.0
    ensures percent.Some? ==> percent.value * observed == 100.0 * Duration(segments, State(Healthy))
    ensures percent.Some? ==> 0.0 <= percent.value <= 100.0
  {
    observed := 0.0;
    var healthy := 0.0;
    for k := 0 to |segments|
      invariant observed == ObservedTime(segments[..k]) && healthy == Duration(segments[..k], State(Healthy))
    {
      assert segments[..k + 1][..k] == segments[..k];
      if Counts(segments[k].state) {
        observed := observed + (segments[k].to - segments[k].from);
        if segments[k].state == State(Healthy) {
          healthy := healthy + (segments[k].to - segments[k].from);
        }
      }
    }
    assert segments[..|segments|] == segments;
    DurationsAreSane(segments, start, end, State(Healthy));
    DurationsAreSane(segments, start, end, State(Degraded));
    DurationsAreSane(segments, start, end, State(Offline));
    DurationsAreSane(segments, start, end, State(AuthFailed));
    percent := if observed > 0.0 then Some(healthy * 100.0 / observed) else None;
    if observed > 0.0 {
      ShareIsPercentage(healthy, observed);
    }
  }

  lemma ShareIsPercentage(part: real, whole: real)
    requires 0.0 <= part <= whole && whole > 0.0
    ensures 0.0 <= part * 100.0 / whole <= 100.0
    ensures part * 100.0 / whole * whole == 100.0 * part
  {
    var share := part * 100.0 / whole;
    assert share * whole == part * 100.0;
  }

  // ----- the buckets

  /** The part of each segment that falls within a bucket. */
  ghost function Clip(segments: seq<Segment>, from: real, to: real): seq<Segment> {
    if segments == [] then []
    else
      var last := segments[|segments| - 1];
      var before := Clip(segments[..|segments| - 1], from, to);
      var piece := last.(from := Max(last.from, from), to := Min(last.to, to));
      if piece.from < piece.to then before + [piece] else before
  }

  lemma {:induction false} ClipTiles(segments: seq<Segment>, start: real, end: real, from: real, to: real)
    requires Tiles(segments, start, end) && start <= from <= to
    ensures from <= Min(end, to) ==> Tiles(Clip(segments, from, to), from, Min(end, to))
    ensures from > Min(end, to) ==> Clip(segments, from, to) == []
    decreases |segments|
  {
    if segments != [] {
      var last := segments[|segments| - 1];
      var before := Clip(segments[..|segments| - 1], from, to);
      ClipTiles(segments[..|segments| - 1], start, last.from, from, to);
      var piece := last.(from := Max(last.from, from), to := Min(last.to, to));
      if piece.from < piece.to {
        if from > Min(last.from, to) {
          assert before == [];
        }
        Extend(before, from, piece);
      }
    }
  }

  lemma {:induction false} ClipTruthful(segments: seq<Segment>, log: seq<Event>, from: real, to: real)
    requires forall k | 0 <= k < |segments| :: Truthful(segments[k], log)
    ensures forall k | 0 <= k < |Clip(segments, from, to)| :: Truthful(Clip(segments, from, to)[k], log)
  {
    if segments != [] {
      ClipTruthful(segments[..|segments| - 1], log, from, to);
      assert Truthful(segments[|segments| - 1], log);
    }
  }

  /** Cutting a bucket in two loses no time of any state. */
  lemma {:induction false} ClipAdds(segments: seq<Segment>, a: real, b: real, c: real, state: CameraState)
    requires a <= b <= c && forall k | 0 <= k < |segments| :: segments[k].from <= segments[k].to
    ensures Duration(Clip(segments, a, b), state) + Duration(Clip(segments, b, c), state) == Duration(Clip(segments, a, c), state)
  {
    if segments != [] {
      ClipAdds(segments[..|segments| - 1], a, b, c, state);
      ClipLast(segments, a, b, state);
      ClipLast(segments, b, c, state);
      ClipLast(segments, a, c, state);
    }
  }

  ghost function Overlap(segment: Segment, from: real, to: real, state: CameraState): real {
    if segment.state == state then Max(0.0, Min(segment.to, to) - Max(segment.from, from)) else 0.0
  }

  lemma ClipLast(segments: seq<Segment>, from: real, to: real, state: CameraState)
    requires segments != []
    ensures Duration(Clip(segments, from, to), state)
         == Duration(Clip(segments[..|segments| - 1], from, to), state) + Overlap(segments[|segments| - 1], from, to, state)
  {
    var last := segments[|segments| - 1];
    var before := Clip(segments[..|segments| - 1], from, to);
    var piece := last.(from := Max(last.from, from), to := Min(last.to, to));
    assert (before + [piece])[..|before|] == before;
  }

  /** The segments of one bucket. */
  method BucketSegments(segments: seq<Segment>, from: real, to: real) returns (pieces: seq<Segment>)
    requires forall k | 0 <= k < |segments| :: segments[k].from < segments[k].to
    ensures pieces == Clip(segments, from, to)
  {
    pieces := [];
    for k := 0 to |segments|
      invariant pieces == Clip(segments[..k], from, to)
    {
      assert segments[..k + 1][..k] == segments[..k];
      var segment := segments[k];
      if segment.from < to && segment.to > from {
        var clippedFrom, clippedTo := Max(segment.from, from), Min(segment.to, to);
        if clippedTo <= clippedFrom {
          continue;
        }
        pieces := pieces + [segment.(from := clippedFrom, to := clippedTo)];
      }
    }
    assert segments[..|segments|] == segments;
  }

  function Edge(start: real, end: real, count: nat, position: nat): real
    requires count > 0
  {
    start + (end - start) / count as real * position as real
  }

  /** The time a list of buckets spends in a state. */
  ghost function BucketDuration(buckets: seq<Bucket>, state: CameraState): real {
    if buckets == [] then 0.0
    else BucketDuration(buckets[..|buckets| - 1], state) + Duration(buckets[|buckets| - 1].segments, state)
  }

  /** A bucket's segments tile it truthfully, and its own state is the one at its end. */
  ghost predicate BucketOk(bucket: Bucket, log: seq<Event>) {
    && bucket.from < bucket.to && bucket.segments != []
    && Tiles(bucket.segments, bucket.from, bucket.to)
    && (forall k | 0 <= k < |bucket.segments| :: Truthful(bucket.segments[k], log))
    && (bucket.state, bucket.reason) == (bucket.segments[|bucket.segments| - 1].state, bucket.segments[|bucket.segments| - 1].reason)
  }

  /** What the state of a bucket means: it held all through a last stretch of the bucket. */
  lemma BucketStateMeans(bucket: Bucket, log: seq<Event>)
    requires BucketOk(bucket, log)
    ensures var since := bucket.segments[|bucket.segments| - 1].from;
            bucket.from <= since < bucket.to
            && forall t: real | since <= t < bucket.to :: StateAt(log, t) == (bucket.state, bucket.reason)
  {
    hide StateAt;
    var last := bucket.segments[|bucket.segments| - 1];
    TilesForward(bucket.segments[..|bucket.segments| - 1], bucket.from, last.from);
    assert Truthful(last, log);
  }

  lemma {:induction false} TilesForward(segments: seq<Segment>, from: real, to: real)
    requires Tiles(segments, from, to)
    ensures from <= to && forall k | 0 <= k < |segments| :: from <= segments[k].from < segments[k].to <= to
  {
    if segments != [] {
      TilesForward(segments[..|segments| - 1], from, segments[|segments| - 1].from);
    }
  }

  lemma {:induction false} ClipAll(segments: seq<Segment>, start: real, end: real, to: real)
    requires Tiles(segments, start, end) && end <= to
    ensures Clip(segments, start, to) == segments
  {
    if segments != [] {
      var last := segments[|segments| - 1];
      TilesForward(segments, start, end);
      ClipAll(segments[..|segments| - 1], start, last.from, to);
    }
  }

  lemma EdgesTile(start: real, end: real, count: nat, position: nat)
    requires count > 0 && start < end && position < count
    ensures Edge(start, end, count, 0) == start && Edge(start, end, count, count) == end
    ensures start <= Edge(start, end, count, position) < Edge(start, end, count, position + 1) <= end
  {
    var width := (end - start) / count as real;
    WidthIsPositive(end - start, count);
    Scale(width, position as real, count as real);
    Scale(width, (position + 1) as real, count as real);
    Scale(width, 0.0, position as real);
    assert Edge(start, end, count, position + 1) == Edge(start, end, count, position) + width;
  }

  lemma WidthIsPositive(span: real, count: nat)
    requires span > 0.0 && count > 0
    ensures span / count as real > 0.0 && span / count as real * count as real == span
  {
  }

  lemma Scale(width: real, a: real, b: real)
    requires width > 0.0 && a <= b
    ensures width * a <= width * b
  {
  }

  /** The buckets of the report follow one another over the window and lose no time of any state. */
  method Buckets(log: seq<Event>, segments: seq<Segment>, start: real, end: real, count: nat) returns (buckets: seq<Bucket>)
    requires start < end && count > 0 && Tiles(segments, start, end)
    requires forall k | 0 <= k < |segments| :: Truthful(segments[k], log)
    ensures |buckets| == count && buckets[0].from == start && buckets[count - 1].to == end
    ensures forall k | 0 <= k < count - 1 :: buckets[k].to == buckets[k + 1].from
    ensures forall k | 0 <= k < count :: BucketOk(buckets[k], log)
    ensures forall state: CameraState :: BucketDuration(buckets, state) == Duration(segments, state)
  {
    hide Truthful, Tiles, Clip, Duration, BucketDuration, BucketOk, Edge;
    buckets := [];
    TilesForward(segments, start, end);
    EdgesTile(start, end, count, 0);
    NoBuckets(segments, start);
    for position := 0 to count
      invariant |buckets| == position
      invariant forall k | 0 <= k < position :: BucketOk(buckets[k], log)
      invariant forall k | 0 <= k < position ::
                  buckets[k].from == Edge(start, end, count, k) && buckets[k].to == Edge(start, end, count, k + 1)
      invariant forall state: CameraState ::
                  BucketDuration(buckets, state) == Duration(Clip(segments, start, Edge(start, end, count, position)), state)
    {
      var from, to := Edge(start, end, count, position), Edge(start, end, count, position + 1);
      EdgesTile(start, end, count, position);
      var pieces := BucketSegments(segments, from, to);
      ghost var before := buckets;
      var state := if pieces != [] then pieces[|pieces| - 1].state else State(Unknown);
      var reason := if pieces != [] then pieces[|pieces| - 1].reason else "no_observation";
      var bucket := Bucket(from, to, state, reason, pieces);
      BucketIsOk(segments, start, end, bucket, log);
      buckets := buckets + [bucket];
      forall s: CameraState ensures BucketDuration(buckets, s) == Duration(Clip(segments, start, to), s) {
        ClipAdds(segments, start, from, to, s);
        OneMoreBucket(before, bucket, s);
      }
    }
    ClipAll(segments, start, end, end);
  }

  lemma NoBuckets(segments: seq<Segment>, start: real)
    requires forall k | 0 <= k < |segments| :: start <= segments[k].from
    ensures forall state: CameraState :: BucketDuration([], state) == Duration(Clip(segments, start, start), state)
  {
    NoClip(segments, start);
  }

  lemma {:induction false} NoClip(segments: seq<Segment>, at: real)
    ensures Clip(segments, at, at) == []
  {
    if segments != [] {
      NoClip(segments[..|segments| - 1], at);
    }
  }

  lemma OneMoreBucket(buckets: seq<Bucket>, bucket: Bucket, state: CameraState)
    ensures BucketDuration(buckets + [bucket], state) == BucketDuration(buckets, state) + Duration(bucket.segments, state)
  {
    assert (buckets + [bucket])[..|buckets|] == buckets;
  }

  lemma BucketIsOk(segments: seq<Segment>, start: real, end: real, bucket: Bucket, log: seq<Event>)
    requires Tiles(segments, start, end) && forall k | 0 <= k < |segments| :: Truthful(segments[k], log)
    requires start <= bucket.from < bucket.to <= end
    requires bucket.segments == Clip(segments, bucket.from, bucket.to)
    requires var pieces := bucket.segments;
             pieces != [] ==> (bucket.state, bucket.reason) == (pieces[|pieces| - 1].state, pieces[|pieces| - 1].reason)
    ensures BucketOk(bucket, log)
  {
    hide Truthful, Clip;
    ClipTiles(segments, start, end, bucket.from, bucket.to);
    ClipTruthful(segments, log, bucket.from, bucket.to);
  }

  /** The whole report; `hour` is an hour in clock ticks. A window or a bucket count that is not positive is an
      error. */
  method CameraAvailability(log: seq<Event>, now: int, hours: int, hour: int, count: int) returns (report: Result<Report>)
    requires Sorted(log) && hour > 0
    ensures report.Err? <==> hours <= 0 || count <= 0
    ensures report.Ok? ==> ReportOk(report.value, log, (now - hours * hour) as real, now as real, count)
  {
    if hours <= 0 || count <= 0 {
      return Err("invalid_window");
    }
    var start, end := (now - hours * hour) as real, now as real;
    Scale(hour as real, 1.0, hours as real);
    assert hours * hour >= 1;
    var segments := Segments(log, start, end);
    var percent, observed := Totals(segments, start, end);
    var buckets := Buckets(log, segments, start, end, count);
    assert ObservedIn(buckets) == observed;
    return Ok(Report(percent, observed, buckets));
  }

  ghost function ObservedIn(buckets: seq<Bucket>): real {
    BucketDuration(buckets, State(Healthy)) + BucketDuration(buckets, State(Degraded))
    + BucketDuration(buckets, State(Offline)) + BucketDuration(buckets, State(AuthFailed))
  }

  /** The buckets partition the window and tell the truth, and the percentage is the healthy share of the
      observed time, both counted over the buckets. */
  ghost predicate ReportOk(report: Report, log: seq<Event>, start: real, end: real, count: int) {
    && |report.buckets| == count > 0 && report.buckets[0].from == start && report.buckets[count - 1].to == end
    && (forall k | 0 <= k < count - 1 :: report.buckets[k].to == report.buckets[k + 1].from)
    && (forall k | 0 <= k < count :: BucketOk(report.buckets[k], log))
    && report.observed == ObservedIn(report.buckets)
    && (report.percent.Some? <==> report.observed > 0.0)
    && (report.percent.Some? ==>
          && 0.0 <= report.percent.value <= 100.0
          && report.percent.value * report.observed == 100.0 * BucketDuration(report.buckets, State(Healthy)))
  }
}
