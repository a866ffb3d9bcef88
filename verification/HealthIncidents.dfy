/** Camera health, incidents and the notification outbox. Each method is one transaction of the repository;
    tables are maps, and a row identifier is the row's position. */
module HealthIncidents {
  import opened Common
  import opened HealthRules

  const MAX_ATTEMPTS := 8

  datatype Camera = Camera(enabled: bool, silenced: bool)

  /** `camera_incidents` holds two series for each camera: its health incidents and its address incidents.
      Each series is looked up by its open row alone. */
  datatype Series = HealthOf(camera: string) | AddressOf(camera: string)
  type Book = map<Series, seq<Incident>>
  datatype IncidentId = IncidentId(series: Series, index: nat)

  /** The idempotency key of an alert: an incident, and whether the alert opens or resolves it. */
  datatype Alert = Alert(id: IncidentId, opening: bool)
  datatype Delivery = Pending | Retry | Sent | Failed
  datatype Message = Message(delivery: Delivery, attempts: nat)

  /** What became of an incident's opening alert: never queued, queued, or dropped by silencing before its
      recovery alert was queued. */
  datatype Fate = Quiet | Announced | Withdrawn

  predicate Waiting(m: Message) { m.delivery == Pending || m.delivery == Retry }

  // ----- what always holds

  ghost predicate StreamsFit(streams: map<string, Stream>, observed: map<string, seq<Probe>>) {
    forall s | s in streams :: s in observed && StreamAgrees(streams[s], observed[s])
  }

  /** The incidents of a camera agree with the fold over its history. */
  ghost predicate LedgerFits(camera: string, events: map<string, seq<Event>>, book: Book, clock: int) {
    && camera in events && HealthOf(camera) in book && AddressOf(camera) in book
    && Ordered(book[HealthOf(camera)], clock) && Ordered(book[AddressOf(camera)], clock)
    && OpenKind(book[HealthOf(camera)]) == Fold(events[camera])
  }

  ghost predicate LedgersFit(cameras: set<string>, events: map<string, seq<Event>>, book: Book, clock: int) {
    forall c | c in cameras :: LedgerFits(c, events, book, clock)
  }

  predicate Exists(id: IncidentId, book: Book) {
    id.series in book && id.index < |book[id.series]|
  }

  /** No alert was queued twice. A recovery alert was queued only for a resolved incident whose opening alert
      was queued and not dropped. No message is attempted more than eight times. */
  ghost predicate OutboxFits(outbox: map<Alert, Message>, queued: multiset<Alert>, fate: map<IncidentId, Fate>, book: Book) {
    && (forall id | id in fate :: Exists(id, book))
    && (forall a | a in queued :: queued[a] == 1 && a.id in fate && Allowed(a, fate[a.id], book))
    && (forall id | id in fate :: fate[id] != Quiet ==> Alert(id, true) in queued)
    && (forall id | id in fate :: fate[id] == Withdrawn ==> Alert(id, true) !in outbox)
    && (forall a | a in outbox :: a in queued && outbox[a].attempts <= MAX_ATTEMPTS
                                  && (Waiting(outbox[a]) ==> outbox[a].attempts < MAX_ATTEMPTS))
  }

  ghost predicate Allowed(a: Alert, fate: Fate, book: Book) {
    if a.opening then fate != Quiet
    else fate == Announced && Exists(a.id, book) && book[a.id.series][a.id.index].resolved.Some?
  }

  /** The fate of every incident has been decided. */
  ghost predicate AllTold(fate: map<IncidentId, Fate>, book: Book) {
    forall id | Exists(id, book) :: id in fate
  }

  /** Fates are final, but for an announcement that is withdrawn. */
  ghost predicate FatesKept(before: map<IncidentId, Fate>, fate: map<IncidentId, Fate>) {
    forall id | id in before :: id in fate && (fate[id] == before[id] || (before[id] == Announced && fate[id] == Withdrawn))
  }

  ghost predicate BooksGrew(before: Book, book: Book) {
    forall s | s in before :: s in book && Grew(before[s], book[s])
  }

  // ----- how the outbox moves

  /** A change to one series that loses nothing. */
  lemma BookMoves(outbox: map<Alert, Message>, queued: multiset<Alert>, fate: map<IncidentId, Fate>, book: Book,
                  series: Series, list: seq<Incident>)
    requires OutboxFits(outbox, queued, fate, book)
    requires series in book && Grew(book[series], list)
    ensures OutboxFits(outbox, queued, fate, book[series := list]) && BooksGrew(book, book[series := list])
  {
  }

  /** The incident that is about to be added has had no alert yet. */
  lemma NewIsUntold(outbox: map<Alert, Message>, queued: multiset<Alert>, fate: map<IncidentId, Fate>, book: Book, id: IncidentId)
    requires OutboxFits(outbox, queued, fate, book) && !Exists(id, book)
    ensures id !in fate && Alert(id, true) !in queued && Alert(id, false) !in queued
  {
  }

  lemma Announce(outbox: map<Alert, Message>, queued: multiset<Alert>, fate: map<IncidentId, Fate>, book: Book, id: IncidentId)
    requires OutboxFits(outbox, queued, fate, book) && Exists(id, book) && id !in fate
    ensures Alert(id, true) !in outbox
    ensures OutboxFits(outbox[Alert(id, true) := Message(Pending, 0)], queued + multiset{Alert(id, true)}, fate[id := Announced], book)
  {
    var fate' := fate[id := Announced];
    var queued' := queued + multiset{Alert(id, true)};
    forall a | a in queued' ensures queued'[a] == 1 && a.id in fate' && Allowed(a, fate'[a.id], book) {
      assert a == Alert(id, true) || a in queued;
    }
  }

  lemma KeepQuiet(outbox: map<Alert, Message>, queued: multiset<Alert>, fate: map<IncidentId, Fate>, book: Book, id: IncidentId)
    requires OutboxFits(outbox, queued, fate, book) && Exists(id, book) && id !in fate
    ensures Alert(id, true) !in outbox
    ensures OutboxFits(outbox, queued, fate[id := Quiet], book)
  {
  }

  lemma Recover(outbox: map<Alert, Message>, queued: multiset<Alert>, fate: map<IncidentId, Fate>, book: Book, id: IncidentId)
    requires OutboxFits(outbox, queued, fate, book) && Exists(id, book) && book[id.series][id.index].resolved.Some?
    requires Alert(id, false) !in queued && Alert(id, true) in outbox
    ensures Alert(id, false) !in outbox
    ensures OutboxFits(outbox[Alert(id, false) := Message(Pending, 0)], queued + multiset{Alert(id, false)}, fate, book)
  {
  }

  /** An incident that is still open has had no recovery alert. */
  lemma OpenIsUnrecovered(outbox: map<Alert, Message>, queued: multiset<Alert>, fate: map<IncidentId, Fate>, book: Book, id: IncidentId)
    requires OutboxFits(outbox, queued, fate, book) && Exists(id, book) && book[id.series][id.index].resolved.None?
    ensures Alert(id, false) !in queued
  {
  }

  /** The alerts of a camera that still wait. */
  function WaitingFor(outbox: map<Alert, Message>, camera: string): set<Alert> {
    set a | a in outbox && a.id.series.camera == camera && Waiting(outbox[a])
  }

  function Withdrawing(fate: map<IncidentId, Fate>, queued: multiset<Alert>, dropped: set<Alert>): map<IncidentId, Fate> {
    map id | id in fate ::
      if Alert(id, true) in dropped && fate[id] == Announced && Alert(id, false) !in queued then Withdrawn else fate[id]
  }

  lemma Silencing(outbox: map<Alert, Message>, queued: multiset<Alert>, fate: map<IncidentId, Fate>, book: Book, dropped: set<Alert>)
    requires OutboxFits(outbox, queued, fate, book)
    ensures OutboxFits(outbox - dropped, queued, Withdrawing(fate, queued, dropped), book)
    ensures FatesKept(fate, Withdrawing(fate, queued, dropped))
  {
  }

  lemma OneMoreTold(fate: map<IncidentId, Fate>, book: Book, series: Series, incident: Incident, opening: Fate)
    requires AllTold(fate, book) && series in book
    ensures AllTold(fate[IncidentId(series, |book[series]|) := opening], book[series := book[series] + [incident]])
  {
    var book' := book[series := book[series] + [incident]];
    forall id | Exists(id, book') ensures id in fate[IncidentId(series, |book[series]|) := opening] {
      assert Exists(id, book) || id == IncidentId(series, |book[series]|);
    }
  }

  lemma SameTold(fate: map<IncidentId, Fate>, book: Book, series: Series, list: seq<Incident>)
    requires AllTold(fate, book) && series in book && |list| == |book[series]|
    ensures AllTold(fate, book[series := list])
  {
    forall id | Exists(id, book[series := list]) ensures id in fate {
      assert Exists(id, book);
    }
  }

  // ----- how the ledgers move

  lemma LedgerOf(cameras: set<string>, events: map<string, seq<Event>>, book: Book, clock: int, camera: string, now: int)
    requires LedgersFit(cameras, events, book, clock) && camera in cameras && clock <= now
    ensures LedgerFits(camera, events, book, clock) && camera in events
    ensures HealthOf(camera) in book && AddressOf(camera) in book
    ensures Ordered(book[HealthOf(camera)], now) && Ordered(book[AddressOf(camera)], now)
    ensures OpenKind(book[HealthOf(camera)]) == Fold(events[camera])
  {
    hide Ordered, Fold, OpenKind;
    Later(book[HealthOf(camera)], clock, now);
    Later(book[AddressOf(camera)], clock, now);
  }

  lemma LedgersLater(cameras: set<string>, events: map<string, seq<Event>>, book: Book, clock: int, now: int)
    requires LedgersFit(cameras, events, book, clock) && clock <= now
    ensures LedgersFit(cameras, events, book, now)
  {
    hide Ordered, Fold, OpenKind;
    forall c | c in cameras ensures LedgerFits(c, events, book, now) {
      LedgerOf(cameras, events, book, clock, c, now);
    }
  }

  /** One camera's log and health incidents move on together. */
  lemma LedgersMove(cameras: set<string>, events: map<string, seq<Event>>, book: Book, clock: int, camera: string, now: int,
                    log: seq<Event>, list: seq<Incident>)
    requires LedgersFit(cameras, events, book, clock) && camera in cameras && clock <= now
    requires Ordered(list, now) && OpenKind(list) == Fold(log)
    ensures LedgersFit(cameras, events[camera := log], book[HealthOf(camera) := list], now)
  {
    hide Ordered, Fold, OpenKind;
    forall c | c in cameras ensures LedgerFits(c, events[camera := log], book[HealthOf(camera) := list], now) {
      LedgerOf(cameras, events, book, clock, c, now);
    }
  }

  /** One camera's address incidents move on. */
  lemma MovesMove(cameras: set<string>, events: map<string, seq<Event>>, book: Book, clock: int, camera: string, now: int,
                  list: seq<Incident>)
    requires LedgersFit(cameras, events, book, clock) && camera in cameras && clock <= now && Ordered(list, now)
    ensures LedgersFit(cameras, events, book[AddressOf(camera) := list], now)
  {
    hide Ordered, Fold, OpenKind;
    forall c | c in cameras ensures LedgerFits(c, events, book[AddressOf(camera) := list], now) {
      LedgerOf(cameras, events, book, clock, c, now);
    }
  }

  lemma NothingHappened(fate: map<IncidentId, Fate>, book: Book)
    ensures FatesKept(fate, fate) && BooksGrew(book, book)
  {
  }

  lemma OneBookGrew(before: Book, book: Book, series: Series)
    requires series in before && series in book && book == before[series := book[series]] && Grew(before[series], book[series])
    ensures BooksGrew(before, book)
  {
  }

  lemma HistoryTwice(fate0: map<IncidentId, Fate>, fate1: map<IncidentId, Fate>, fate2: map<IncidentId, Fate>,
                     book0: Book, book1: Book, book2: Book)
    requires FatesKept(fate0, fate1) && FatesKept(fate1, fate2) && BooksGrew(book0, book1) && BooksGrew(book1, book2)
    ensures FatesKept(fate0, fate2) && BooksGrew(book0, book2)
  {
    hide Grew;
    forall s | s in book0 ensures s in book2 && Grew(book0[s], book2[s]) {
      GrewTwice(book0[s], book1[s], book2[s]);
    }
  }

  // ----- how the streams move

  /** The rows of the streams after the results for `done` were recorded. */
  ghost function Probed(streams: map<string, Stream>, results: map<string, Probe>, done: set<string>): map<string, Stream> {
    map s | s in streams :: if s in done && s in results then Observed(streams[s], results[s]) else streams[s]
  }

  ghost function Noted(streams: map<string, Stream>, observed: map<string, seq<Probe>>, results: map<string, Probe>,
                       done: set<string>): map<string, seq<Probe>> {
    map s | s in observed :: if s in streams && s in done && s in results then observed[s] + [results[s]] else observed[s]
  }

  lemma NothingProbed(streams: map<string, Stream>, observed: map<string, seq<Probe>>, results: map<string, Probe>)
    ensures Probed(streams, results, results.Keys - results.Keys) == streams
    ensures Noted(streams, observed, results, results.Keys - results.Keys) == observed
  {
  }

  lemma ProbedOne(streams: map<string, Stream>, observed: map<string, seq<Probe>>, results: map<string, Probe>,
                  done: set<string>, s: string)
    requires s !in done && s in results && (s in streams ==> s in observed)
    ensures s !in streams ==> Probed(streams, results, done + {s}) == Probed(streams, results, done)
                              && Noted(streams, observed, results, done + {s}) == Noted(streams, observed, results, done)
    ensures s in streams ==>
              && Probed(streams, results, done + {s}) == Probed(streams, results, done)[s := Observed(streams[s], results[s])]
              && Noted(streams, observed, results, done + {s}) == Noted(streams, observed, results, done)[s := observed[s] + [results[s]]]
              && Probed(streams, results, done)[s] == streams[s] && Noted(streams, observed, results, done)[s] == observed[s]
  {
  }

  lemma Tracked(streams: map<string, Stream>, observed: map<string, seq<Probe>>)
    requires StreamsFit(streams, observed)
    ensures streams.Keys <= observed.Keys
  {
  }

  lemma ObservedFits(streams: map<string, Stream>, observed: map<string, seq<Probe>>, s: string, probe: Probe)
    requires StreamsFit(streams, observed) && s in streams
    ensures s in observed
    ensures StreamsFit(streams[s := Observed(streams[s], probe)], observed[s := observed[s] + [probe]])
  {
    ObservedAgrees(streams[s], observed[s], probe);
    hide StreamAgrees;
  }

  function StartedOver(streams: map<string, Stream>, camera: string, listed: set<string>): map<string, Stream> {
    map s | s in streams ::
      if s in listed && streams[s].camera == camera then Stream(camera, Unknown, 0) else streams[s]
  }

  ghost function Forgotten(streams: map<string, Stream>, observed: map<string, seq<Probe>>, camera: string,
                           listed: set<string>): map<string, seq<Probe>> {
    map s | s in observed :: if s in listed && s in streams && streams[s].camera == camera then [] else observed[s]
  }

  lemma StartingOverFits(streams: map<string, Stream>, observed: map<string, seq<Probe>>, camera: string, listed: set<string>)
    requires StreamsFit(streams, observed)
    ensures StreamsFit(StartedOver(streams, camera, listed), Forgotten(streams, observed, camera, listed))
  {
  }

  lemma NewStreamsFit(streams: map<string, Stream>, observed: map<string, seq<Probe>>, camera: string, uuids: set<string>)
    requires StreamsFit(streams, observed) && uuids !! streams.Keys
    ensures StreamsFit(streams + map s | s in uuids :: Stream(camera, Unknown, 0), observed + map s | s in uuids :: [])
  {
  }

  // ----- a camera that joins

  lemma JoiningFits(cameras: map<string, Camera>, events: map<string, seq<Event>>, book: Book, clock: int, camera: string)
    requires LedgersFit(cameras.Keys, events, book, clock) && camera !in cameras
    ensures LedgersFit(cameras.Keys + {camera}, events[camera := []],
                       book[HealthOf(camera) := []][AddressOf(camera) := []], clock)
  {
    hide Ordered, Fold, OpenKind;
    var book' := book[HealthOf(camera) := []][AddressOf(camera) := []];
    forall c | c in cameras.Keys + {camera} ensures LedgerFits(c, events[camera := []], book', clock) {
      if c == camera {
        NothingYet(clock);
      } else {
        assert LedgerFits(c, events, book, clock);
      }
    }
  }

  lemma NothingYet(clock: int)
    ensures Ordered([], clock) && OpenKind([]) == Fold([])
  {
  }

  lemma JoiningIsUntold(outbox: map<Alert, Message>, queued: multiset<Alert>, fate: map<IncidentId, Fate>, book: Book, camera: string)
    requires OutboxFits(outbox, queued, fate, book) && AllTold(fate, book)
    requires HealthOf(camera) !in book && AddressOf(camera) !in book
    ensures var book' := book[HealthOf(camera) := []][AddressOf(camera) := []];
            OutboxFits(outbox, queued, fate, book') && AllTold(fate, book') && BooksGrew(book, book')
  {
    var book' := book[HealthOf(camera) := []][AddressOf(camera) := []];
    forall id | Exists(id, book') ensures id in fate {
      assert Exists(id, book);
    }
    forall s | s in book ensures s in book' && Grew(book[s], book'[s]) {
      GrewNothing(book[s]);
    }
  }

  lemma OneMoreKept(fate: map<IncidentId, Fate>, id: IncidentId, opening: Fate)
    requires id !in fate
    ensures FatesKept(fate, fate[id := opening])
  {
  }

  // ----- an attempt, and the end of a run

  lemma Attempted(outbox: map<Alert, Message>, queued: multiset<Alert>, fate: map<IncidentId, Fate>, book: Book,
                  a: Alert, m: Message)
    requires OutboxFits(outbox, queued, fate, book) && a in outbox && Waiting(outbox[a])
    requires m.attempts == outbox[a].attempts + 1 && (Waiting(m) ==> m.attempts < MAX_ATTEMPTS)
    ensures m.attempts <= MAX_ATTEMPTS && OutboxFits(outbox[a := m], queued, fate, book)
  {
  }

  lemma QueuedOnce(outbox: map<Alert, Message>, queued: multiset<Alert>, fate: map<IncidentId, Fate>, book: Book,
                   midway: map<IncidentId, Fate>)
    requires OutboxFits(outbox, queued, fate, book) && FatesKept(midway, fate)
    ensures forall a :: queued[a] <= 1
    ensures forall id | id in midway && midway[id] != Announced :: Alert(id, false) !in queued
  {
    forall a ensures queued[a] <= 1 {
      if a in queued {
        assert queued[a] == 1;
      }
    }
    forall id | id in midway && midway[id] != Announced ensures Alert(id, false) !in queued {
      assert id in fate && fate[id] != Announced;
    }
  }

  /** How a state may move a series: the open incident is confirmed, or closed for a reason that the state
      gives, and a new one begins now. */
  ghost predicate Reconciled(before: seq<Incident>, list: seq<Incident>, state: CameraState, now: int) {
    var open := |before| - 1;
    && |before| <= |list| <= |before| + 1
    && (forall i | 0 <= i < open :: list[i] == before[i])
    && (IsOpen(before) && list[open].resolved.None? && KindOf(state).Some? ==>
          list == before[open := before[open].(lastObserved := now)])
    && (IsOpen(before) && list[open].resolved.Some? ==>
          list[open] == before[open].(lastObserved := now, resolved := Some(now), resolution :=
            if KindOf(state).Some? then "cause_changed" else if state == Disabled then "operator_disabled" else "recovered"))
    && (|list| > |before| ==> KindOf(state).Some? && list[|before|] == Opening(KindOf(state).value, now))
  }

  lemma NextReconciles(list: seq<Incident>, state: CameraState, now: int)
    ensures Reconciled(list, Next(list, state, now), state, now)
    ensures |Next(list, state, now)| > |list| ==> KindOf(state).Some?
  {
    hide KindOf;
  }

  /** A media incident was opened for the camera. */
  ghost predicate NewMediaIncident(before: Book, book: Book, camera: string)
    requires HealthOf(camera) in before && HealthOf(camera) in book
  {
    |book[HealthOf(camera)]| > |before[HealthOf(camera)]| && OpenKind(book[HealthOf(camera)]) == Some(MediaOffline)
  }

  class Store {
    var cameras: map<string, Camera>
    var streams: map<string, Stream>
    // `consumer_bindings`: the stream that carries a role of a camera
    var bindings: map<(string, string), string>
    var events: map<string, seq<Event>>
    var book: Book
    var outbox: map<Alert, Message>
    // Telegram is enabled and paired with a chat
    var paired: bool

    // the latest wall-clock time, which never goes back
    var clock: int

    // the observations of each stream since its last reset, every alert ever queued, and the fate of every
    // incident's opening alert
    ghost var observed: map<string, seq<Probe>>
    ghost var queued: multiset<Alert>
    ghost var fate: map<IncidentId, Fate>

    ghost predicate Valid()
      reads this
    {
      && StreamsFit(streams, observed)
      && LedgersFit(cameras.Keys, events, book, clock)
      && OutboxFits(outbox, queued, fate, book) && AllTold(fate, book)
    }

    constructor (paired: bool, now: int)
      ensures Valid() && cameras == map[] && streams == map[] && outbox == map[] && fate == map[] && clock == now
    {
      cameras, streams, bindings, events, book, outbox := map[], map[], map[], map[], map[], map[];
      this.paired := paired;
      clock := now;
      observed, queued, fate := map[], multiset{}, map[];
    }

    predicate Alerts(camera: string)
      reads this
    {
      paired && camera in cameras && !cameras[camera].silenced
    }

    /** `_enqueue_incident_notification` for an incident that was just opened. */
    method EnqueueOpening(id: IncidentId)
      requires OutboxFits(outbox, queued, fate, book) && Exists(id, book) && id !in fate
      modifies `outbox, `queued, `fate
      ensures OutboxFits(outbox, queued, fate, book)
      ensures fate == old(fate)[id := if Alerts(id.series.camera) then Announced else Quiet]
      ensures Alert(id, true) in outbox <==> Alerts(id.series.camera)
    {
      hide OutboxFits;
      KeepQuiet(outbox, queued, fate, book, id);
      if !Alerts(id.series.camera) {
        fate := fate[id := Quiet];
        return;
      }
      if Alert(id, true) !in outbox {
        Announce(outbox, queued, fate, book, id);
        outbox := outbox[Alert(id, true) := Message(Pending, 0)];
        queued := queued + multiset{Alert(id, true)};
        fate := fate[id := Announced];
      }
    }

    /** `_enqueue_incident_notification` for an incident that was just resolved: only beside its opening alert. */
    method EnqueueRecovery(id: IncidentId)
      requires OutboxFits(outbox, queued, fate, book) && Exists(id, book) && Alert(id, false) !in queued
      requires book[id.series][id.index].resolved.Some?
      modifies `outbox, `queued
      ensures OutboxFits(outbox, queued, fate, book)
      ensures Alert(id, false) in queued <==> Alerts(id.series.camera) && Alert(id, true) in old(outbox)
    {
      hide OutboxFits;
      if !Alerts(id.series.camera) || Alert(id, true) !in outbox {
        return;
      }
      Recover(outbox, queued, fate, book, id);
      if Alert(id, false) !in outbox {
        outbox := outbox[Alert(id, false) := Message(Pending, 0)];
        queued := queued + multiset{Alert(id, false)};
      }
    }

    // ----- incidents

    /** A new row of `camera_incidents` and its opening alert. */
    method OpenIncident(series: Series, kind: Kind, now: int)
      requires OutboxFits(outbox, queued, fate, book) && AllTold(fate, book)
      requires series in book && Ordered(book[series], now) && !IsOpen(book[series])
      modifies `book, `outbox, `queued, `fate
      ensures OutboxFits(outbox, queued, fate, book) && AllTold(fate, book)
      ensures book == old(book)[series := old(book)[series] + [Opening(kind, now)]]
      ensures fate == old(fate)[IncidentId(series, |old(book)[series]|) := if Alerts(series.camera) then Announced else Quiet]
    {
      hide OutboxFits, AllTold, Grew, Ordered;
      ghost var before := book;
      var id := IncidentId(series, |book[series]|);
      NewIsUntold(outbox, queued, fate, book, id);
      OpeningKeeps(book[series], now, kind);
      BookMoves(outbox, queued, fate, book, series, book[series] + [Opening(kind, now)]);
      book := book[series := book[series] + [Opening(kind, now)]];
      ghost var told := fate;
      EnqueueOpening(id);
      OneMoreTold(told, before, series, Opening(kind, now), fate[id]);
    }

    /** `_resolve_incident`: the open row of a series is closed, with its recovery alert. */
    method CloseIncident(series: Series, now: int, reason: string)
      requires OutboxFits(outbox, queued, fate, book) && AllTold(fate, book)
      requires series in book && Ordered(book[series], now) && IsOpen(book[series])
      modifies `book, `outbox, `queued
      ensures OutboxFits(outbox, queued, fate, book) && AllTold(fate, book)
      ensures book == old(book)[series := Resolve(old(book)[series], now, reason)]
      ensures Alert(IncidentId(series, |old(book)[series]| - 1), false) in queued <==>
              Alerts(series.camera) && Alert(IncidentId(series, |old(book)[series]| - 1), true) in old(outbox)
    {
      hide OutboxFits, AllTold, Grew, Ordered;
      var id := IncidentId(series, |book[series]| - 1);
      OpenIsUnrecovered(outbox, queued, fate, book, id);
      ResolveKeeps(book[series], now, reason);
      BookMoves(outbox, queued, fate, book, series, Resolve(book[series], now, reason));
      SameTold(fate, book, series, Resolve(book[series], now, reason));
      book := book[series := Resolve(book[series], now, reason)];
      EnqueueRecovery(id);
    }

    /** `_reconcile_camera_incident`: bring the open incident in line with the state. */
    method ReconcileIncident(camera: string, state: CameraState, now: int)
      requires OutboxFits(outbox, queued, fate, book) && AllTold(fate, book)
      requires HealthOf(camera) in book && Ordered(book[HealthOf(camera)], now)
      modifies `book, `outbox, `queued, `fate
      ensures OutboxFits(outbox, queued, fate, book) && AllTold(fate, book) && FatesKept(old(fate), fate)
      ensures HealthOf(camera) in book && book == old(book)[HealthOf(camera) := book[HealthOf(camera)]]
      ensures Ordered(book[HealthOf(camera)], now) && Grew(old(book)[HealthOf(camera)], book[HealthOf(camera)])
      ensures OpenKind(book[HealthOf(camera)]) == Step(OpenKind(old(book)[HealthOf(camera)]), state)
      ensures |book[HealthOf(camera)]| > |old(book)[HealthOf(camera)]| ==> KindOf(state).Some?
      ensures Reconciled(old(book)[HealthOf(camera)], book[HealthOf(camera)], state, now)
    {
      hide OutboxFits, AllTold, Grew, Ordered, Reconciled, Step, KindOf;
      var series := HealthOf(camera);
      var list := book[series];
      var desired := KindOf(state);
      NextKeeps(list, state, now);
      NextReconciles(list, state, now);
      if desired.Some? {
        if IsOpen(list) && list[|list| - 1].kind == desired.value {
          TouchKeeps(list, now);
          BookMoves(outbox, queued, fate, book, series, Touch(list, now));
          SameTold(fate, book, series, Touch(list, now));
          book := book[series := Touch(list, now)];
          return;
        }
        if IsOpen(list) {
          ResolveKeeps(list, now, "cause_changed");
          CloseIncident(series, now, "cause_changed");
        }
        ghost var closed := book[series];
        NewIsUntold(outbox, queued, fate, book, IncidentId(series, |closed|));
        OpenIncident(series, desired.value, now);
      } else if IsOpen(list) && (state == State(Healthy) || state == Disabled) {
        var reason := if state == Disabled then "operator_disabled" else "recovered";
        ResolveKeeps(list, now, reason);
        CloseIncident(series, now, reason);
      }
    }

    // ----- health transitions

    /** The health of the camera's role-bound streams. */
    ghost function BoundHealth(camera: string): set<StreamHealth>
      reads `bindings, `streams
    {
      set k | k in bindings && bindings[k] in streams && streams[bindings[k]].camera == camera :: streams[bindings[k]].health
    }

    ghost function StateOf(camera: string): CameraState
      requires camera in cameras
      reads `cameras, `bindings, `streams
    {
      CameraHealth(cameras[camera].enabled, BoundHealth(camera)).0
    }

    /** `_camera_health_state` */
    method ReadHealth(camera: string) returns (state: CameraState, reason: string)
      requires camera in cameras
      ensures (state, reason) == CameraHealth(cameras[camera].enabled, BoundHealth(camera))
    {
      var states := set k | k in bindings && bindings[k] in streams && streams[bindings[k]].camera == camera ::
          streams[bindings[k]].health;
      var both := CameraHealth(cameras[camera].enabled, states);
      return both.0, both.1;
    }

    /** At least one role-bound stream, and every one failed three times or more since it was last ready, idle
        or reset. */
    ghost predicate AllFailing(camera: string)
      reads `bindings, `streams, `observed
    {
      && (exists k :: k in bindings && bindings[k] in streams && streams[bindings[k]].camera == camera)
      && forall k | k in bindings && bindings[k] in streams && streams[bindings[k]].camera == camera ::
           bindings[k] in observed && FailedInARow(observed[bindings[k]]) >= OFFLINE_AFTER
    }

    lemma OfflineMeansFailing(camera: string)
      requires StreamsFit(streams, observed) && camera in cameras && StateOf(camera) == State(Offline)
      ensures AllFailing(camera)
    {
      OfflineMeans(cameras[camera].enabled, BoundHealth(camera));
      assert Offline in BoundHealth(camera);
      forall k | k in bindings && bindings[k] in streams && streams[bindings[k]].camera == camera
        ensures streams[bindings[k]].health == Offline
      {
        assert streams[bindings[k]].health in BoundHealth(camera);
      }
    }

    /** `_record_camera_health_transition`. Afterwards the camera's last event is its state, its open incident
        is the fold over its events, and a media incident has opened only for a camera all of whose role-bound
        streams failed at least three times in a row. */
    method RecordTransition(camera: string, now: int)
      requires Valid() && clock <= now
      modifies `events, `book, `outbox, `queued, `fate, `clock
      ensures Valid() && clock == now && FatesKept(old(fate), fate) && BooksGrew(old(book), book)
      ensures camera in cameras ==>
                var current := CameraHealth(cameras[camera].enabled, BoundHealth(camera));
                && CurrentState(camera) && events[camera] == Logged(old(events)[camera], current.0, current.1, now)
                && Reconciled(old(book)[HealthOf(camera)], book[HealthOf(camera)], current.0, now)
      ensures forall c | c in cameras && c != camera ::
                events[c] == old(events)[c] && book[HealthOf(c)] == old(book)[HealthOf(c)]
      ensures forall c | c in cameras :: book[AddressOf(c)] == old(book)[AddressOf(c)]
      ensures camera in cameras && NewMediaIncident(old(book), book, camera) ==> AllFailing(camera)
    {
      hide StreamsFit, LedgersFit, OutboxFits, AllTold, FatesKept, BooksGrew, Grew, Ordered, LedgerFits, AllFailing,
        CameraHealth, Logged, Fold, Step, KindOf, IsOpen, OpenKind, BoundHealth, Reconciled;
      ghost var before := book;
      if camera !in cameras {
        LedgersLater(cameras.Keys, events, book, clock, now);
        NothingHappened(fate, book);
        clock := now;
        return;
      }
      LedgerOf(cameras.Keys, events, book, clock, camera, now);
      var state, reason := ReadHealth(camera);
      LoggedFolds(events[camera], state, reason, now);
      ReconcileIncident(camera, state, now);
      LedgersMove(cameras.Keys, events, before, clock, camera, now, Logged(events[camera], state, reason, now), book[HealthOf(camera)]);
      if NewMediaIncident(before, book, camera) {
        MediaOnlyWhenOffline(Fold(events[camera]), state);
        OfflineMeansFailing(camera);
      }
      OneBookGrew(before, book, HealthOf(camera));
      events := events[camera := Logged(events[camera], state, reason, now)];
      clock := now;
    }

    /** The camera's last event is its present state, and its open incident is the one its history calls for. */
    ghost predicate CurrentState(camera: string)
      requires camera in cameras
      reads this
    {
      && camera in events && HealthOf(camera) in book
      && events[camera] != [] && events[camera][|events[camera]| - 1].state == StateOf(camera)
      && OpenKind(book[HealthOf(camera)]) == Fold(events[camera])
    }

    // ----- what changes the health

    /** `record_probe_results`: one transaction for a batch of results. */
    method RecordProbeResults(results: map<string, Probe>, now: int)
      requires Valid() && clock <= now
      modifies `streams, `observed, `events, `book, `outbox, `queued, `fate, `clock
      ensures Valid() && old(clock) <= clock <= now && FatesKept(old(fate), fate) && BooksGrew(old(book), book)
      ensures streams == Probed(old(streams), results, results.Keys)
      ensures observed == Noted(old(streams), old(observed), results, results.Keys)
      ensures forall s | s in streams && s in results && streams[s].camera in cameras :: CurrentState(streams[s].camera)
    {
      hide StreamsFit, LedgersFit, OutboxFits, AllTold, FatesKept, BooksGrew, Probed, Noted, CurrentState;
      var affected := ApplyResults(results);
      RecordAll(affected, now);
    }

    /** The stream rows of a batch of results, and the cameras they belong to. */
    method ApplyResults(results: map<string, Probe>) returns (affected: set<string>)
      requires StreamsFit(streams, observed)
      modifies `streams, `observed
      ensures StreamsFit(streams, observed)
      ensures streams == Probed(old(streams), results, results.Keys)
      ensures observed == Noted(old(streams), old(observed), results, results.Keys)
      ensures forall s | s in streams && s in results :: streams[s].camera in affected
    {
      hide StreamsFit, Probed, Noted;
      var rest := results.Keys;
      affected := {};
      Tracked(streams, observed);
      NothingProbed(streams, observed, results);
      while rest != {}
        invariant rest <= results.Keys && StreamsFit(streams, observed) && streams.Keys == old(streams).Keys
        invariant streams == Probed(old(streams), results, results.Keys - rest)
        invariant observed == Noted(old(streams), old(observed), results, results.Keys - rest)
        invariant forall s | s in streams && s in results.Keys - rest :: streams[s].camera in affected
        decreases rest
      {
        var s :| s in rest;
        ghost var done := results.Keys - rest;
        ProbedOne(old(streams), old(observed), results, done, s);
        rest := rest - {s};
        assert results.Keys - rest == done + {s};
        if s in streams {
          ObservedFits(streams, observed, s, results[s]);
          affected := affected + {streams[s].camera};
          observed := observed[s := observed[s] + [results[s]]];
          streams := streams[s := Observed(streams[s], results[s])];
        }
      }
      assert results.Keys - rest == results.Keys;
    }

    /** The transitions of the cameras that a transaction touched. */
    method RecordAll(affected: set<string>, now: int)
      requires Valid() && clock <= now
      modifies `events, `book, `outbox, `queued, `fate, `clock
      ensures Valid() && old(clock) <= clock <= now && FatesKept(old(fate), fate) && BooksGrew(old(book), book)
      ensures forall c | c in affected && c in cameras :: CurrentState(c)
    {
      hide StreamsFit, OutboxFits, AllTold, FatesKept, BooksGrew, BoundHealth, CameraHealth, Ordered, Fold, OpenKind;
      NothingHappened(fate, book);
      var rest := affected;
      while rest != {}
        invariant Valid() && old(clock) <= clock <= now && rest <= affected
        invariant FatesKept(old(fate), fate) && BooksGrew(old(book), book)
        invariant forall c | c in affected - rest && c in cameras :: CurrentState(c)
        decreases rest
      {
        ghost var fate0, book0 := fate, book;
        var camera :| camera in rest;
        rest := rest - {camera};
        RecordTransition(camera, now);
        HistoryTwice(old(fate), fate0, fate, old(book), book0, book);
      }
    }

    /** `update_profile_sources`: the streams of the changed profiles start over. */
    method ResetStreams(camera: string, listed: set<string>, now: int)
      requires Valid() && clock <= now
      modifies `streams, `observed, `events, `book, `outbox, `queued, `fate, `clock
      ensures Valid() && old(clock) <= clock <= now && FatesKept(old(fate), fate) && BooksGrew(old(book), book)
      ensures streams == StartedOver(old(streams), camera, listed)
      ensures camera in cameras && listed != {} ==> CurrentState(camera)
    {
      hide StreamsFit, LedgersFit, OutboxFits, AllTold, FatesKept, BooksGrew, CurrentState;
      NothingHappened(fate, book);
      if listed == {} {
        assert streams == StartedOver(streams, camera, listed);
        return;
      }
      StartingOverFits(streams, observed, camera, listed);
      streams, observed := StartedOver(streams, camera, listed), Forgotten(streams, observed, camera, listed);
      RecordTransition(camera, now);
    }

    /** `set_stream_settings`: other streams carry the roles. */
    method BindRoles(camera: string, roles: map<string, string>, now: int)
      requires Valid() && clock <= now
      modifies `bindings, `events, `book, `outbox, `queued, `fate, `clock
      ensures Valid() && clock == now && FatesKept(old(fate), fate) && BooksGrew(old(book), book)
      ensures bindings == old(bindings) + map role | role in roles :: (camera, role) := roles[role]
      ensures camera in cameras ==> CurrentState(camera)
    {
      hide StreamsFit, LedgersFit, OutboxFits, AllTold, FatesKept, BooksGrew, CurrentState;
      bindings := bindings + map role | role in roles :: (camera, role) := roles[role];
      RecordTransition(camera, now);
    }

    /** `set_camera_enabled`: disabling a camera closes its health incident. */
    method SetCameraEnabled(camera: string, on: bool, now: int)
      requires Valid() && clock <= now
      modifies `cameras, `events, `book, `outbox, `queued, `fate, `clock
      ensures Valid() && old(clock) <= clock <= now && FatesKept(old(fate), fate) && BooksGrew(old(book), book)
      ensures cameras == if camera in old(cameras) then old(cameras)[camera := old(cameras)[camera].(enabled := on)] else old(cameras)
      ensures camera in cameras ==> CurrentState(camera) && (!on ==> !IsOpen(book[HealthOf(camera)]))
    {
      hide StreamsFit, LedgersFit, OutboxFits, AllTold, FatesKept, BooksGrew, Reconciled, Logged, Fold, OpenKind, IsOpen,
        CameraHealth, BoundHealth;
      NothingHappened(fate, book);
      if camera in cameras {
        assert cameras[camera := cameras[camera].(enabled := on)].Keys == cameras.Keys;
        cameras := cameras[camera := cameras[camera].(enabled := on)];
        RecordTransition(camera, now);
        DisabledIsClosed(on, BoundHealth(camera), events[camera], book[HealthOf(camera)]);
      }
    }

    /** A new camera with its streams, as adoption inserts them; a row identifier is never used again. */
    method AddCamera(camera: string, uuids: set<string>, now: int) returns (added: bool)
      requires Valid() && clock <= now
      modifies `cameras, `streams, `observed, `events, `book, `outbox, `queued, `fate, `clock
      ensures Valid() && old(clock) <= clock <= now && FatesKept(old(fate), fate) && BooksGrew(old(book), book)
      ensures added ==> camera !in old(cameras) && camera in cameras && CurrentState(camera)
    {
      hide Valid, FatesKept, BooksGrew, CurrentState;
      NothingHappened(fate, book);
      if camera in cameras || HealthOf(camera) in book || AddressOf(camera) in book || !(uuids !! streams.Keys) {
        return false;
      }
      ghost var fate0, book0 := fate, book;
      InsertCamera(camera, uuids);
      ghost var book1 := book;
      RecordTransition(camera, now);
      HistoryTwice(fate0, fate0, fate, book0, book1, book);
      return true;
    }

    method InsertCamera(camera: string, uuids: set<string>)
      requires Valid() && camera !in cameras && HealthOf(camera) !in book && AddressOf(camera) !in book
      requires uuids !! streams.Keys
      modifies `cameras, `streams, `observed, `events, `book
      ensures Valid() && BooksGrew(old(book), book) && cameras == old(cameras)[camera := Camera(true, false)]
      ensures streams == old(streams) + map s | s in uuids :: Stream(camera, Unknown, 0)
    {
      hide StreamsFit, LedgersFit, OutboxFits, AllTold, FatesKept, BooksGrew;
      assert cameras[camera := Camera(true, false)].Keys == cameras.Keys + {camera};
      JoiningFits(cameras, events, book, clock, camera);
      JoiningIsUntold(outbox, queued, fate, book, camera);
      NewStreamsFit(streams, observed, camera, uuids);
      cameras := cameras[camera := Camera(true, false)];
      events, book := events[camera := []], book[HealthOf(camera) := []][AddressOf(camera) := []];
      streams := streams + map s | s in uuids :: Stream(camera, Unknown, 0);
      observed := observed + map s | s in uuids :: [];
    }

    // ----- address incidents

    /** `open_camera_address_incident` */
    method OpenMove(camera: string, now: int) returns (id: Option<IncidentId>)
      requires Valid() && clock <= now
      modifies `book, `outbox, `queued, `fate, `clock
      ensures Valid() && old(clock) <= clock <= now && FatesKept(old(fate), fate) && BooksGrew(old(book), book)
      ensures id.Some? <==> camera in cameras
      ensures id.Some? ==>
                id.value.series == AddressOf(camera) && Exists(id.value, book) && IsOpen(book[AddressOf(camera)])
    {
      hide StreamsFit, LedgersFit, OutboxFits, AllTold, FatesKept, BooksGrew, Grew, Ordered;
      NothingHappened(fate, book);
      if camera !in cameras {
        return None;
      }
      ghost var before := book;
      var series := AddressOf(camera);
      LedgerOf(cameras.Keys, events, book, clock, camera, now);
      var list := book[series];
      id := Some(IncidentId(series, if IsOpen(list) then |list| - 1 else |list|));
      if IsOpen(list) {
        TouchKeeps(list, now);
        BookMoves(outbox, queued, fate, book, series, Touch(list, now));
        SameTold(fate, book, series, Touch(list, now));
        book := book[series := Touch(list, now)];
      } else {
        OpeningKeeps(list, now, AddressChanged);
        NewIsUntold(outbox, queued, fate, book, id.value);
        ghost var told := fate;
        OpenIncident(series, AddressChanged, now);
        OneMoreKept(told, id.value, fate[id.value]);
      }
      MovesMove(cameras.Keys, events, before, clock, camera, now, book[series]);
      OneBookGrew(before, book, series);
      clock := now;
    }

    /** `resolve_camera_address_incident`: only an address incident that is still open. */
    method ResolveMove(id: IncidentId, now: int)
      requires Valid() && clock <= now
      modifies `book, `outbox, `queued, `clock
      ensures Valid() && old(clock) <= clock <= now && BooksGrew(old(book), book)
      ensures id.series.AddressOf? && id.series.camera in cameras && Exists(id, book) ==>
                book[id.series][id.index].resolved.Some?
      ensures !id.series.AddressOf? ==> book == old(book) && outbox == old(outbox)
    {
      hide StreamsFit, LedgersFit, OutboxFits, AllTold, BooksGrew, Grew;
      NothingHappened(fate, book);
      if !id.series.AddressOf? || id.series.camera !in cameras || !Exists(id, book)
         || book[id.series][id.index].resolved.Some? {
        return;
      }
      ghost var before := book;
      LedgerOf(cameras.Keys, events, book, clock, id.series.camera, now);
      ResolveKeeps(book[id.series], now, "stream_recovered");
      CloseIncident(id.series, now, "stream_recovered");
      MovesMove(cameras.Keys, events, before, clock, id.series.camera, now, book[id.series]);
      OneBookGrew(before, book, id.series);
      clock := now;
    }

    // ----- delivery

    /** `set_camera_notifications_silenced`: silencing drops the alerts that still wait, and nothing else. */
    method SetSilenced(camera: string, silenced: bool)
      requires Valid()
      modifies `cameras, `outbox, `fate
      ensures Valid() && FatesKept(old(fate), fate)
      ensures outbox == if silenced && camera in cameras then old(outbox) - WaitingFor(old(outbox), camera) else old(outbox)
      ensures camera in cameras ==> cameras[camera].silenced == silenced
    {
      hide StreamsFit, LedgersFit, OutboxFits, FatesKept;
      NothingHappened(fate, book);
      if camera in cameras {
        assert cameras[camera := cameras[camera].(silenced := silenced)].Keys == cameras.Keys;
        cameras := cameras[camera := cameras[camera].(silenced := silenced)];
        if silenced {
          var waiting := WaitingFor(outbox, camera);
          Silencing(outbox, queued, fate, book, waiting);
          fate := Withdrawing(fate, queued, waiting);
          outbox := outbox - waiting;
        }
      }
    }

    /** One delivery attempt of an alert that was due: `complete_notification_delivery` or
        `fail_notification_delivery`. The row may have been dropped meanwhile. */
    method Deliver(a: Alert, accepted: bool, retryable: bool)
      requires Valid() && (a in outbox ==> Waiting(outbox[a]))
      modifies `outbox
      ensures Valid()
      ensures a !in old(outbox) ==> outbox == old(outbox)
      ensures a in old(outbox) ==>
                && a in outbox && outbox == old(outbox)[a := outbox[a]]
                && outbox[a].attempts == old(outbox)[a].attempts + 1 <= MAX_ATTEMPTS
                && (Waiting(outbox[a]) <==> !accepted && retryable && outbox[a].attempts < MAX_ATTEMPTS)
    {
      hide StreamsFit, LedgersFit, OutboxFits, AllTold;
      if a in outbox {
        var tries := outbox[a].attempts + 1;
        var delivery := if accepted then Sent else if retryable && tries < MAX_ATTEMPTS then Retry else Delivery.Failed;
        Attempted(outbox, queued, fate, book, a, Message(delivery, tries));
        outbox := outbox[a := Message(delivery, tries)];
      }
    }

    /** Any one transaction. */
    method Perform(command: Command)
      requires Valid()
      modifies this
      ensures Valid() && FatesKept(old(fate), fate) && BooksGrew(old(book), book) && clock >= old(clock)
    {
      hide Valid, FatesKept, BooksGrew, CurrentState;
      NothingHappened(fate, book);
      match command
      case Probes(results, delay) => RecordProbeResults(results, clock + delay);
      case Reset(camera, listed, delay) => ResetStreams(camera, listed, clock + delay);
      case Bind(camera, roles, delay) => BindRoles(camera, roles, clock + delay);
      case Enable(camera, on, delay) => SetCameraEnabled(camera, on, clock + delay);
      case Join(camera, uuids, delay) => { var _ := AddCamera(camera, uuids, clock + delay); }
      case Moved(camera, delay) => { var _ := OpenMove(camera, clock + delay); }
      case Settled(id, delay) => ResolveMove(id, clock + delay);
      case Silence(camera, on) => SetSilenced(camera, on);
      case Pair(on) => SetPaired(on);
      case Attempt(a, accepted, retryable) =>
        if a in outbox && Waiting(outbox[a]) {
          Deliver(a, accepted, retryable);
        }
    }

    method SetPaired(on: bool)
      requires Valid()
      modifies `paired
      ensures Valid() && paired == on
    {
      paired := on;
    }
  }

  datatype Command =
    | Probes(results: map<string, Probe>, delay: nat)
    | Reset(camera: string, listed: set<string>, delay: nat)
    | Bind(camera: string, roles: map<string, string>, delay: nat)
    | Enable(camera: string, on: bool, delay: nat)
    | Join(camera: string, uuids: set<string>, delay: nat)
    | Moved(camera: string, delay: nat)
    | Settled(id: IncidentId, delay: nat)
    | Silence(camera: string, on: bool)
    | Pair(on: bool)
    | Attempt(a: Alert, accepted: bool, retryable: bool)

  /** Any run, from any point of a repository's life. Whatever was decided about an incident's opening alert by
      then still stands at the end, and incidents are only added to; since the outbox fits its history, an incident
      opened silently or withdrawn has no recovery alert then either, and no alert is ever queued twice. */
  method Run(store: Store, commands: seq<Command>)
    requires store.Valid()
    modifies store
    ensures store.Valid() && store.clock >= old(store.clock)
    ensures FatesKept(old(store.fate), store.fate) && BooksGrew(old(store.book), store.book)
    ensures forall id | id in old(store.fate) && old(store.fate)[id] != Announced :: Alert(id, false) !in store.queued
    ensures forall a :: store.queued[a] <= 1
  {
    hide FatesKept, BooksGrew, StreamsFit, LedgersFit, OutboxFits, AllTold;
    ghost var fate0, book0 := store.fate, store.book;
    NothingHappened(fate0, book0);
    for i := 0 to |commands|
      invariant store.Valid() && store.clock >= old(store.clock)
      invariant FatesKept(fate0, store.fate) && BooksGrew(book0, store.book)
    {
      ghost var fate, book := store.fate, store.book;
      store.Perform(commands[i]);
      HistoryTwice(fate0, fate, store.fate, book0, book, store.book);
    }
    QueuedOnce(store.outbox, store.queued, store.fate, store.book, fate0);
  }
}
