/** The journaled takeover of one Frigate camera entry. Every effect is a step; the process can crash, be
    refused or lose the answer at each of them. */
module Takeover {
  import opened Common
  import opened FrigateConfig
  import opened StreamGraph
  import opened ManagedConfig
  import opened TakeoverState
  import opened TakeoverSteps

  /** What the surroundings answer to one call. `Lost` means that the call took effect and failed
      nevertheless; `CrashAfter`, that it took effect and nothing else did. */
  datatype Reply =
    | Ack(token: string)
    | Status(status: string)
    | Refused(code: string)
    | Lost(code: string)
    | Crash
    | CrashAfter

  /** How a call ended. `Failed` is a raised error, `Crashed` the end of the process. */
  datatype Outcome = Done | Failed(code: string) | Crashed {
    predicate IsFailure() {
      !Done?
    }

    function PropagateFailure(): Outcome
      requires IsFailure()
    {
      this
    }
  }

  /** What a job says of its row, and stores with it; `Pending` stands for all that a job leaves alone. An error left
      nothing of the attempt behind unless a rollback is required. */
  datatype Report = Pending | Running | Applied | Error | RollbackRequired

  /** What an operator or a startup may do, with any job. */
  datatype Command =
    | Preview(job: nat, row: Row)
    | Execute(job: nat, eligible: bool, uuid: string, mapped: map<SourceId, string>, streams: nat, view: CameraView, relay: Relay)
    | Restore
    | Recover
    | Sync(view: CameraView, relay: Relay)

  const TRANSIENT := {"target_unavailable", "invalid_response"}

  class Site {
    const key: string
    const candidate: string
    ghost const base: Config

    // Frigate
    var config: Config
    // durable state of CamAdmiral
    var link: Option<Row>
    var jobs: map<nat, Row>
    var reports: map<nat, Report>
    var adopted: map<string, string>
    var enabled: map<string, bool>
    var selected: set<string>
    var bound: set<string>
    // cameras that another Frigate target selected, and cameras linked under other keys of this one
    const usedElsewhere: set<string>
    const linkedElsewhere: set<string>
    // memory of the running process
    var row: Row
    var reported: Report
    // what the surroundings answer, call by call, and how many calls were made
    const script: seq<Reply>
    var calls: nat
    // the camera adopted while its handoff was pending
    ghost var pending: Option<string>
    // whether what is saved is what an active journal entry says
    ghost var doubt: Doubt

    constructor (key: string, candidate: string, usedElsewhere: set<string>, linkedElsewhere: set<string>, config: Config,
                 adopted: map<string, string>, enabled: map<string, bool>,
                 row: Row, script: seq<Reply>)
      requires Importable(config, key) && AliasesFree(config, linkedElsewhere)
      requires candidate in adopted ==> adopted[candidate] !in linkedElsewhere
      ensures Inv() && Honest() && base == config && this.config == config && link == None && jobs == map[]
    {
      this.key, this.candidate := key, candidate;
      this.usedElsewhere, this.linkedElsewhere := usedElsewhere, linkedElsewhere;
      this.base, this.config := config, config;
      this.adopted, this.enabled, this.link := adopted, enabled, None;
      this.jobs, this.selected, this.bound := map[], {}, {};
      this.row, this.script, this.calls := row, script, 0;
      this.reports, this.reported := map[], Pending;
      this.pending, this.doubt := None, Settled;
    }

    ghost function Now(): World
      reads this
    {
      World(config, link, jobs, adopted, pending, doubt)
    }

    ghost predicate Inv()
      reads this
    {
      Fits(Now(), base, key) && Separate(adopted)
    }

    /** The camera of this candidate, and the names of its import aliases, belong to no other entry. */
    ghost predicate Separate(adopted: map<string, string>) {
      AliasesFree(base, linkedElsewhere) && (candidate in adopted ==> adopted[candidate] !in linkedElsewhere)
    }

    /** The row in memory between two steps of an attempt. */
    ghost predicate Held()
      reads this
    {
      && Inv() && Ready(Now(), row, base, key, candidate)
      && (row.camera.Some? ==> row.camera.value !in linkedElsewhere)
    }

    // ----- calls to the surroundings

    /** Every reply is an acknowledgement, and there are enough of them for so many calls. */
    ghost predicate Calm(needed: nat)
      reads `calls
    {
      calls + needed <= |script| && forall i | 0 <= i < |script| :: script[i].Ack?
    }

    /** At most so many replies were used up, none beyond the last. */
    ghost predicate Called(before: nat, most: int)
      reads `calls
    {
      before <= calls <= before + most && (calls == before || calls <= |script|)
    }

    method Next() returns (r: Reply)
      modifies `calls
      ensures calls == (if old(calls) < |script| then old(calls) + 1 else old(calls))
      ensures r == if old(calls) < |script| then script[old(calls)] else Crash
    {
      if calls >= |script| {
        return Crash;
      }
      r, calls := script[calls], calls + 1;
    }

    /** Whether an effect takes place, and how its call ends. */
    static function Taken(r: Reply): bool {
      r.Ack? || r.Status? || r.Lost? || r.CrashAfter?
    }

    static function Ending(r: Reply): Outcome {
      match r
      case Ack(_) => Done
      case Status(_) => Done
      case Refused(code) => Failed(code)
      case Lost(code) => Failed(code)
      case Crash => Crashed
      case CrashAfter => Crashed
    }

    /** A call that changes nothing here: a read, a wait, a restart. */
    method Ask() returns (o: Outcome)
      modifies `calls
      ensures Called(old(calls), 1) && (!o.Crashed? || old(calls) < |script| ==> calls == old(calls) + 1)
      ensures old(Calm(1)) ==> o.Done?
    {
      var r := Next();
      return if r.Status? then Failed(r.status) else Ending(r);
    }

    /** A media probe; without a status of its own it reports an error. */
    method Probe() returns (o: Outcome, status: string)
      modifies `calls
      ensures Called(old(calls), 1) && o in {Done, Crashed}
    {
      var r := Next();
      match r
      case Status(s) => return Done, s;
      case Ack(_) => return Done, "ready";
      case Refused(_) => return Done, "error";
      case Lost(_) => return Done, "error";
      case Crash => return Crashed, "";
      case CrashAfter => return Crashed, "";
    }

    /** `set_config`: one atomic request. */
    method SetConfig(entry: Json, streams: map<string, Json>) returns (o: Outcome)
      modifies `calls, `config
      ensures config == old(config) || config == Put(old(config), key, entry, streams)
      ensures o.Done? ==> config == Put(old(config), key, entry, streams)
      ensures Called(old(calls), 1) && (!o.Crashed? ==> calls == old(calls) + 1)
      ensures old(Calm(1)) && !PutRejected(old(config), key, entry, streams) ==> o.Done?
    {
      var r := Next();
      o := Ending(r);
      if PutRejected(config, key, entry, streams) {
        if o != Crashed {
          o := Failed("request_rejected");
        }
      } else if Taken(r) {
        config := Put(config, key, entry, streams);
      }
    }

    method SaveLink(r: Row) returns (o: Outcome)
      modifies `calls, `link
      ensures link == old(link) || link == Some(r)
      ensures o.Done? ==> link == Some(r)
      ensures Called(old(calls), 1) && (!o.Crashed? ==> calls == old(calls) + 1)
      ensures old(Calm(1)) ==> o.Done?
    {
      var reply := Next();
      if Taken(reply) {
        link := Some(r);
      }
      return Ending(reply);
    }

    method DeleteLink() returns (o: Outcome)
      modifies `calls, `link, `pending, `doubt
      ensures (link == old(link) && pending == old(pending) && doubt == old(doubt))
              || (link == None && pending == None && doubt == Settled)
      ensures o.Done? ==> link == None && pending == None && doubt == Settled
      ensures Called(old(calls), 1) && (!o.Crashed? ==> calls == old(calls) + 1)
      ensures old(Calm(1)) ==> o.Done?
    {
      var reply := Next();
      if Taken(reply) {
        link, pending, doubt := None, None, Settled;
      }
      return Ending(reply);
    }

    /** What the other jobs report. */
    static function Others(job: nat, reports: map<nat, Report>): map<nat, Report> {
      reports - {job}
    }

    /** The job is stored with its row marked as applied. */
    predicate Marked(job: nat)
      reads `reports
    {
      job in reports && reports[job] == Applied
    }

    /** No other job is touched, and this one is not marked by work in progress. */
    twostate predicate Working(job: nat)
      reads `reports, `reported
    {
      && Others(job, reports) == Others(job, old(reports))
      && (reported != Applied && !old(Marked(job)) ==> !Marked(job))
    }

    /** `progress` and `save_job`. */
    method SaveJob(job: nat) returns (o: Outcome)
      requires JobOk(row, base) && Inv()
      modifies `calls, `jobs, `reports
      ensures Inv() && Now() == old(Now()).(jobs := jobs)
      ensures Working(job)
      ensures o.Done? ==> jobs == old(jobs)[job := row] && reports == old(reports)[job := reported]
      ensures old(Held()) ==> Held()
      ensures Called(old(calls), 1) && (!o.Crashed? ==> calls == old(calls) + 1)
      ensures old(Calm(1)) ==> o.Done?
    {
      hide Fits, AliasesFree, JobOk, Ready;
      JobKeepsReady(Now(), row, base, key, candidate, job);
      var reply := Next();
      if Taken(reply) {
        jobs, reports := jobs[job := row], reports[job := reported];
      }
      return Ending(reply);
    }

    method SetEnabled(camera: string, on: bool) returns (o: Outcome)
      modifies `calls, `enabled
      ensures enabled == old(enabled) || (camera in old(enabled) && enabled == old(enabled)[camera := on])
      ensures o.Done? && camera in enabled ==> enabled[camera] == on
      ensures Called(old(calls), 1) && (!o.Crashed? ==> calls == old(calls) + 1)
      ensures old(Calm(1)) ==> o.Done?
    {
      var reply := Next();
      if Taken(reply) && camera in enabled {
        enabled := enabled[camera := on];
      }
      return Ending(reply);
    }

    /** Select and bind a camera for the target, or the reverse. */
    method SetOwned(camera: string, on: bool) returns (o: Outcome)
      modifies `calls, `selected, `bound
      ensures o.Done? ==> if on then camera in selected && camera in bound else camera !in selected && camera !in bound
      ensures Called(old(calls), 2)
      ensures old(Calm(2)) ==> o.Done?
    {
      var reply := Next();
      if Taken(reply) {
        selected := if on then selected + {camera} else selected - {camera};
      }
      if Ending(reply) != Done {
        return Ending(reply);
      }
      reply := Next();
      if Taken(reply) {
        bound := if on then bound + {camera} else bound - {camera};
      }
      return Ending(reply);
    }

    // ----- restore

    /** Delete the runtime streams of the import; errors are ignored. */
    method DeleteRuntimeStreams(aliases: set<string>) returns (o: Outcome)
      modifies `calls
      ensures Called(old(calls), |aliases|) && o in {Done, Crashed}
      ensures old(Calm(|aliases|)) ==> o.Done?
    {
      var rest := aliases;
      while rest != {}
        invariant rest <= aliases && Called(old(calls), |aliases| - |rest|)
        decreases rest
      {
        var alias :| alias in rest;
        rest := rest - {alias};
        var deleted := Ask();
        if deleted.Crashed? {
          return Crashed;
        }
      }
      return Done;
    }

    /** The camera of a handoff gives up its slot, so that the original reader can return. */
    method YieldCamera(camera: string) returns (o: Outcome)
      modifies `calls, `enabled
      ensures o.Done? && camera in enabled ==> !enabled[camera]
      ensures Called(old(calls), 2)
      ensures usedElsewhere == {} && old(Calm(2)) ==> o.Done?
    {
      if camera in usedElsewhere {
        return Failed("restore_media_in_use");
      }
      :- SetEnabled(camera, false);
      o := Ask();
    }

    /** Wait for the restored inputs, drop the runtime streams and close the journal entry. */
    method FinishRestore() returns (o: Outcome)
      requires Inv() && link.Some? && link.value.phase == Restored
      modifies `calls, `link, `pending, `doubt
      ensures Inv() && (link == old(link) || link.None?)
      ensures o.Done? ==> config == base && link == None && doubt == Settled
      ensures (doubt == old(doubt) || doubt == Settled) && (link.Some? ==> pending == old(pending))
      ensures old(Calm(3 + |link.value.aliases.Values|)) ==> o.Done?
      ensures Called(old(calls), 3 + |old(link).value.aliases.Values|)
    {
      hide Fits, AliasesFree;
      RestoredIsOriginal(Now(), base, key);
      :- Ask();
      :- Ask();
      :- DeleteRuntimeStreams(link.value.aliases.Values);
      o := DeleteLink();
    }

    /** The request that puts the original configuration back. */
    method WriteOriginal(named: Row) returns (o: Outcome)
      requires Inv() && link.Some? && Names(named, link.value, adopted)
      modifies `calls, `config, `doubt
      ensures Inv() && (Now() == old(Now()) || Now() == Undo(old(Now()), base))
      ensures o.Done? ==> Now() == Undo(old(Now()), base)
      ensures old(Calm(1)) ==> o.Done?
      ensures Called(old(calls), 1)
    {
      hide Fits, AliasesFree, Put, PutRejected, CameraWrite, RestoreStreams, At, Names;
      RestoreSteps(Now(), base, key, named);
      o := SetConfig(CameraWrite(named.handoff, named.original, At(config.cameras, key)), RestoreStreams(named, config.streams));
      if config == base {
        doubt := Undo(old(Now()), base).doubt;
      }
    }

    /** The writing half of `restore`. */
    method PutBack(named: Row) returns (o: Outcome)
      requires Inv() && link.Some? && Names(named, link.value, adopted)
      modifies `calls, `config, `link, `selected, `bound, `pending, `doubt
      ensures Inv()
      ensures link.Some? ==> link == old(link) || link.value.phase == Restored
      ensures o.Done? ==> config == base && link == None && doubt == Settled
      ensures link.Some? ==> pending == old(pending)
      ensures old(Calm(7 + |named.aliases.Values|)) ==> o.Done?
      ensures Called(old(calls), 7 + |named.aliases.Values|)
      ensures doubt == Undone ==> old(doubt) == Undone || old(link).value.phase == Active
    {
      hide Fits, Names, AliasesFree;
      :- WriteOriginal(named);
      if named.camera.Some? {
        :- SetOwned(named.camera.value, false);
      }
      RestoreRecorded(old(Now()), base, key, named);
      o := RecordRestored(named.(phase := Restored));
    }

    /** The original is back: journal that, and finish. */
    method RecordRestored(named: Row) returns (o: Outcome)
      requires Inv() && link.Some? && named.phase == Restored && Fits(Now().(link := Some(named)), base, key)
      modifies `calls, `link, `pending, `doubt
      ensures Inv() && (link.Some? ==> link == old(link) || link == Some(named))
      ensures o.Done? ==> config == base && link == None && doubt == Settled
      ensures (doubt == old(doubt) || doubt == Settled) && (link.Some? ==> pending == old(pending))
      ensures old(Calm(4 + |named.aliases.Values|)) ==> o.Done?
      ensures Called(old(calls), 4 + |named.aliases.Values|)
    {
      hide Fits, AliasesFree;
      :- SaveLink(named);
      o := FinishRestore();
    }

    /** Close a journal entry under which nothing was written. */
    method CloseUntouched() returns (o: Outcome)
      requires Inv() && link.Some? && !link.value.handoff
      requires forall alias | alias in link.value.aliases.Values :: alias !in config.streams
      modifies `calls, `link, `selected, `bound, `pending, `doubt
      ensures Inv() && (link == old(link) || link.None?) && ClaimOf(old(link).value, adopted) == {}
      ensures o.Done? ==> config == base && link == None && doubt == Settled
      ensures (doubt == old(doubt) || doubt == Settled) && (link.Some? ==> pending == old(pending))
      ensures old(Calm(3)) ==> o.Done?
      ensures Called(old(calls), 3)
    {
      hide Fits, AliasesFree, ClaimOf;
      UntouchedIsOriginal(Now(), base, key);
      if link.value.camera.Some? {
        :- SetOwned(link.value.camera.value, false);
      }
      o := DeleteLink();
    }

    /** `restore`. Completed, it leaves Frigate exactly as it was before the takeover, the journal without
        this entry, and the camera of a handoff disabled. Interrupted anywhere, it can be repeated. Given
        acknowledgements it completes: no conflict guard can stop it. */
    method RestoreEntry() returns (o: Outcome)
      requires Inv()
      modifies `calls, `config, `link, `enabled, `selected, `bound, `pending, `doubt
      ensures Inv()
      ensures link.Some? ==> link == old(link) || link.value.phase == Restored
      ensures old(link).None? ==> o == Failed("import_not_found") && config == old(config) && link == None
      ensures o.Done? ==> config == base && link == None && doubt == Settled
      ensures o.Done? ==> forall camera | camera in old(ClaimOf(link.value, adopted)) && camera in enabled :: !enabled[camera]
      ensures link.Some? ==> pending == old(pending)
      ensures old(link.Some? && SyncedEnough(link.value, doubt) && usedElsewhere == {} && Calm(12 + |link.value.aliases.Values|)) ==> o.Done?
      ensures Called(old(calls), if old(link).Some? then 12 + |old(link).value.aliases.Values| else 0)
      ensures old(link).Some? && old(calls) < |script| ==> old(calls) < calls
      ensures doubt == Undone ==> old(doubt) == Undone || (old(link).Some? && old(link).value.phase == Active)
    {
      hide Fits, AliasesFree, GuardsPass, EntryOk, ClaimOf, At, Names;
      if link.None? {
        return Failed("import_not_found");
      }
      var saved := link.value;
      :- Ask();
      ChangedIsJournaled(Now(), base, key);
      if !EntryOk(saved, At(config.cameras, key)) {
        return Failed("rollback_configuration_conflict");
      }
      if  && !saved.handoff && At(config.cameras, key) == saved.original
          && (forall alias | alias in saved.aliases.Values :: alias !in config.streams)
          && (forall alias | alias in saved.originalStreams :: At(config.streams, alias) == saved.originalStreams[alias])
      {
        o := CloseUntouched();
        return;
      }
      if !GuardsPass(saved, key, config) {
        return Failed("rollback_configuration_conflict");
      }
      o := GiveBack();
    }

    /** Once no guard objects: the camera of a handoff yields, and the original is written back. */
    method GiveBack() returns (o: Outcome)
      requires Inv() && link.Some?
      modifies `calls, `config, `link, `enabled, `selected, `bound, `pending, `doubt
      ensures Inv()
      ensures link.Some? ==> link == old(link) || link.value.phase == Restored
      ensures o.Done? ==> config == base && link == None && doubt == Settled
      ensures o.Done? ==> forall camera | camera in old(ClaimOf(link.value, adopted)) && camera in enabled :: !enabled[camera]
      ensures old(usedElsewhere == {} && Calm(9 + |link.value.aliases.Values|)) ==> o.Done?
      ensures Called(old(calls), 9 + |old(link).value.aliases.Values|)
      ensures doubt == Undone ==> old(doubt) == Undone || old(link).value.phase == Active
      ensures link.Some? ==> pending == old(pending)
    {
      hide Fits, AliasesFree, ClaimOf, Names;
      var named := WithCamera(link.value, adopted);
      WithCameraNames(link.value, adopted);
      if named.handoff && named.created && named.camera.Some? {
        :- YieldCamera(named.camera.value);
      }
      o := PutBack(named);
    }

    // ----- releasing the old reader

    /** `_check_original` */
    method CheckOriginal() returns (o: Outcome)
      modifies `calls
      ensures o.Done? ==> OriginalSeen(row, key, config)
      ensures Called(old(calls), 1) && (!o.Crashed? ==> calls == old(calls) + 1)
    {
      hide OriginalSeen;
      :- Ask();
      return if OriginalSeen(row, key, config) then Done else Failed("configuration_changed_refresh_preview");
    }

    /** Nobody else reads the aliases: not another entry, not another alias. */
    method GuardRelease(aliases: set<string>) returns (o: Outcome)
      ensures o == Done || o == Failed("shared_handoff_source")
      ensures o.Done? ==> OnlyReadBy(key, aliases, config.cameras, config.streams)
    {
      hide MediaAliases;
      var names := config.cameras.Keys - {key};
      while names != {}
        invariant names <= config.cameras.Keys
        invariant forall name | name in config.cameras && name != key && name !in names ::
                    MediaAliases(config.cameras[name], config.streams).Ok?
                    && MediaAliases(config.cameras[name], config.streams).value !! aliases
        decreases names
      {
        var name :| name in names;
        var read := CollectMediaAliases(config.cameras[name], config.streams);
        if read.Err? || !(read.value !! aliases) {
          return Failed("shared_handoff_source");
        }
        names := names - {name};
      }
      var others := config.streams.Keys - aliases;
      while others != {}
        invariant others <= config.streams.Keys
        invariant forall alias | alias in config.streams && alias !in aliases && alias !in others ::
                    var read := MediaAliases(FeedEntry(Fallbacks(config.streams[alias])), config.streams);
                    read.Ok? && read.value !! aliases
        decreases others
      {
        var alias :| alias in others;
        var read := CollectMediaAliases(FeedEntry(Fallbacks(config.streams[alias])), config.streams);
        if read.Err? || !(read.value !! aliases) {
          return Failed("shared_handoff_source");
        }
        others := others - {alias};
      }
      return Done;
    }

    /** One look at the running entry; once it has stopped, that is journaled and checked. A failed look or
        check is repeated, unless the time is over. */
    method PollPause(paused: Row) returns (o: Outcome, again: bool)
      requires Inv() && Fits(Now().(link := Some(paused)), base, key)
      modifies `calls, `link
      ensures Inv() && (link == old(link) || link == Some(paused))
      ensures !again && o.Done? ==> link == Some(paused)
      ensures again ==> old(calls) < calls <= |script|
    {
      hide Fits, AliasesFree, OriginalSeen;
      var seen := Ask();
      if seen == Failed("timeout") {
        return Failed("handoff_release_failed"), false;
      }
      if seen.Crashed? {
        return seen, false;
      }
      if seen.Failed? {
        return seen, true;
      }
      var saved := SaveLink(paused);
      if !saved.Done? {
        return saved, false;
      }
      o := Ask();
      again := !o.Crashed? && !(o.Done? && OriginalSeen(paused, key, config));
    }

    /** Wait until the paused entry has stopped, and journal that. */
    method AwaitPause() returns (o: Outcome)
      requires Inv() && link == Some(row)
      requires Fits(Now().(link := Some(row.(phase := Paused))), base, key)
      modifies `calls, `link, `row
      ensures Inv() && row == old(row).(phase := Paused)
      ensures o.Done? ==> link == Some(row)
    {
      hide Fits, AliasesFree;
      row := row.(phase := Paused);
      var again := true;
      o := Crashed;
      while again
        invariant Inv() && row == old(row).(phase := Paused) && (link == old(link) || link == Some(row))
        invariant !again && o.Done? ==> link == Some(row)
        decreases again, |script| - calls
      {
        o, again := PollPause(row);
      }
    }

    /** The journaled row pauses the entry and parks its private aliases. */
    method PauseReader(ghost before: Row) returns (o: Outcome)
      requires Inv() && config == base && pending.None? && doubt.Settled? && link == Some(row)
      requires Ready(Now().(link := None), before, base, key, candidate) && !before.handoff
      requires before.camera.None? ==> before.created
      requires MediaAliases(before.original, base.streams).Ok?
      requires OnlyReadBy(key, Touched(before, base), base.cameras, base.streams)
      requires before.original.Obj? && Touched(before, base) <= base.streams.Keys
      requires row == Released(before, base.streams, Touched(before, base))
      requires before.camera.Some? ==> before.camera.value !in linkedElsewhere
      modifies `calls, `config, `link, `row
      ensures Inv() && JobOk(row, base) && (o.Done? ==> Held())
      ensures row == old(row).(phase := row.phase)
    {
      hide Fits, AliasesFree, JobOk, Ready, OnlyReadBy, MediaAliases, Put, PutRejected, Touched, Snapshot;
      ghost var unwritten := Now().(link := None);
      Unjournaled(Now(), base, key);
      ReadyStart(unwritten, before, base, key, candidate);
      ReleaseSteps(unwritten, before, base, key);
      PausedIsReady(unwritten, before, base, key, candidate);
      ReleasedJob(before, base, key);
      :- CheckOriginal();
      :- SetConfig(row.pausedCamera, row.pausedStreams);
      :- Ask();
      ReadyJob(Now().(link := Some(row.(phase := Paused))), row.(phase := Paused), base, key, candidate);
      o := AwaitPause();
    }

    /** Everything that only reads, before the release is journaled. */
    method InspectRelease() returns (o: Outcome)
      modifies `calls
      ensures o.Done? ==> OriginalSeen(row, key, config) && MediaAliases(row.original, config.streams).Ok?
      ensures o.Done? ==> OnlyReadBy(key, MediaAliases(row.original, config.streams).value + row.originalStreams.Keys,
                                     config.cameras, config.streams)
    {
      hide MediaAliases, OnlyReadBy, OriginalSeen;
      :- Ask();
      :- CheckOriginal();
      :- Ask();
      var read := CollectMediaAliases(row.original, config.streams);
      if read.Err? {
        return Failed(read.code);
      }
      o := GuardRelease(read.value + row.originalStreams.Keys);
    }

    /** The release is journaled, and stored with the job, before anything is paused. */
    method JournalRelease(job: nat) returns (o: Outcome)
      requires Inv() && JobOk(row, base) && Fits(Now().(link := Some(row)), base, key)
      modifies `calls, `link, `jobs, `reports
      ensures Inv() && Working(job) && Now() == old(Now()).(link := link, jobs := jobs)
      ensures o.Done? ==> link == Some(row)
    {
      hide Others, Marked, Fits, AliasesFree, JobOk;
      :- SaveLink(row);
      o := SaveJob(job);
    }

    /** `_release_reader` */
    method ReleaseReader(job: nat) returns (o: Outcome)
      requires Held() && !row.handoff && (row.camera.None? ==> row.created)
      modifies `calls, `config, `link, `jobs, `reports, `row
      ensures Working(job)
      ensures Inv() && JobOk(row, base) && (o.Done? ==> Held() && row.handoff)
      ensures row.camera == old(row).camera && row.created == old(row).created && row.plan == old(row).plan
    {
      hide Others, Marked, Fits, AliasesFree, JobOk, Ready, OnlyReadBy, MediaAliases, Put, PutRejected, Touched, Snapshot, OriginalSeen;
      ReadyStart(Now(), row, base, key, candidate);
      :- InspectRelease();
      TouchedIsRead(row, base);
      ReleaseSteps(Now(), row, base, key);
      ReleasedJob(row, base, key);
      ghost var before := row;
      row := Released(row, config.streams, Touched(row, config));
      :- JournalRelease(job);
      ReadyAnyJobs(old(Now()), before, base, key, candidate, jobs);
      o := PauseReader(before);
    }

    // ----- validating sources, adopting, validating the relay

    /** `_probe_import`: a handoff gives the camera three tries to free its session. */
    method ProbeImport() returns (o: Outcome, status: string)
      modifies `calls
      ensures o in {Done, Crashed}
    {
      var tries := if row.handoff then 3 else 1;
      o, status := Probe();
      while o.Done? && status in {"unavailable", "timeout"} && tries > 1
        invariant o in {Done, Crashed}
        decreases tries
      {
        tries := tries - 1;
        o, status := Probe();
      }
    }

    /** Probe every original source. A working camera that refuses another session is released once. */
    method ValidateSources(job: nat) returns (o: Outcome)
      requires Held() && row.camera.None? && row.created
      modifies `calls, `config, `link, `jobs, `reports, `row
      ensures Working(job)
      ensures Inv() && JobOk(row, base) && (o.Done? ==> Held() && row.camera.None? && row.created)
    {
      hide Others, Marked, Fits, AliasesFree, JobOk, Ready;
      var rest := row.plan.sources.Keys;
      ReadyJob(Now(), row, base, key, candidate);
      while rest != {}
        invariant Held() && JobOk(row, base) && row.camera.None? && row.created && Working(job)
        decreases rest
      {
        var source :| source in rest;
        rest := rest - {source};
        :- SaveJob(job);
        var probed, status := ProbeImport();
        :- probed;
        if status in {"unavailable", "timeout"} && !row.handoff {
          :- ReleaseReader(job);
          ReadyJob(Now(), row, base, key, candidate);
          :- SaveJob(job);
          probed, status := ProbeImport();
          :- probed;
        }
        if status != "ready" {
          return Failed("source_" + status);
        }
      }
      return Done;
    }

    ghost predicate Adopts(before: map<string, string>, uuid: string)
      reads this
    {
      && adopted == before[candidate := uuid] && uuid !in linkedElsewhere
      && pending == if link.Some? then Some(uuid) else None
    }

    /** `adopt`: a new camera under the candidate; an identifier that exists already is refused. */
    method Adopt(uuid: string) returns (o: Outcome)
      modifies `calls, `adopted, `enabled, `pending
      ensures (adopted == old(adopted) && pending == old(pending)) || Adopts(old(adopted), uuid)
      ensures o.Done? ==> Adopts(old(adopted), uuid)
    {
      var reply := Next();
      if uuid in enabled || uuid in linkedElsewhere {
        return if reply in {Crash, CrashAfter} then Crashed else Failed("import_failed");
      }
      if Taken(reply) {
        adopted := adopted[candidate := uuid];
        enabled := enabled[uuid := true];
        pending := if link.Some? then Some(uuid) else None;
      }
      return Ending(reply);
    }

    method AdoptCamera(job: nat, uuid: string, mapped: map<SourceId, string>) returns (o: Outcome)
      requires Held() && row.camera.None? && row.created
      modifies `calls, `link, `jobs, `reports, `row, `adopted, `enabled, `pending
      ensures Working(job)
      ensures Inv() && JobOk(row, base) && (o.Done? ==> Held() && row.camera.Some?)
    {
      hide Others, Marked, Fits, AliasesFree, JobOk, Ready;
      ReadyJob(Now(), row, base, key, candidate);
      :- SaveJob(job);
      ReadyLink(Now(), row, base, key, candidate);
      AdoptSteps(Now(), row, base, key, candidate, uuid, mapped);
      :- Adopt(uuid);
      row := Named(row, uuid, mapped);
      if row.handoff {
        SaveReady(Now(), row, base, key, candidate);
        :- SaveLink(row);
      }
      o := SaveJob(job);
    }

    /** One pass over the relayed streams: each must be ready and deliver a picture. */
    method ProbeRelay(job: nat, streams: nat) returns (o: Outcome)
      requires Held() && JobOk(row, base)
      modifies `calls, `jobs, `reports
      ensures Working(job)
      ensures Held() && JobOk(row, base)
    {
      hide Others, Marked, Fits, AliasesFree, JobOk, Ready;
      for i := 0 to streams
        invariant Held() && JobOk(row, base) && Working(job)
      {
        :- SaveJob(job);
        var probed, status := ProbeImport();
        :- probed;
        if status != "ready" {
          return Failed("relay_" + status);
        }
        :- Ask();
      }
      return Done;
    }

    /** Two passes at most; between them the old reader may be released. */
    method ValidateRelay(job: nat, streams: nat) returns (o: Outcome)
      requires Held() && JobOk(row, base) && row.camera.Some?
      modifies `calls, `config, `link, `jobs, `reports, `row
      ensures Working(job)
      ensures Inv() && JobOk(row, base) && (o.Done? ==> Held() && row.camera.Some?)
    {
      hide Others, Marked, Fits, AliasesFree, JobOk, Ready;
      :- Ask();
      var first := ProbeRelay(job, streams);
      if first.Failed? && !row.handoff && first.code in {"relay_unavailable", "relay_timeout"} {
        :- ReleaseReader(job);
        ReadyJob(Now(), row, base, key, candidate);
        :- Ask();
        first := ProbeRelay(job, streams);
      }
      return first;
    }

    // ----- applying

    /** Frigate restarts and captures the managed inputs; a handoff waits for the recording as well. */
    method AwaitManaged() returns (o: Outcome)
      modifies `calls
      ensures Called(old(calls), 4)
    {
      var restarted := Ask();
      :- restarted;
      :- Ask();
      if row.handoff {
        :- Ask();
      }
      o := Ask();
    }

    /** Wait for the managed inputs and their video, and compare what is saved with what was meant. */
    method VerifyManaged(job: nat) returns (o: Outcome)
      requires Inv() && JobOk(row, base)
      modifies `calls, `jobs, `reports
      ensures Working(job)
      ensures Inv() && Now() == old(Now()).(jobs := jobs)
      ensures o.Done? ==> At(config.cameras, key) == row.managedCamera
    {
      hide Others, Marked, Fits, AliasesFree, JobOk;
      :- SaveJob(job);
      :- AwaitManaged();
      if At(config.cameras, key) != row.managedCamera {
        return Failed("saved_configuration_mismatch");
      }
      :- SaveJob(job);
      var learned := Ask();
      return if learned.Crashed? then Crashed else Done;
    }

    /** Journal the managed configuration, write it, verify it and declare it active. */
    method ApplyManaged(job: nat, view: CameraView, relay: Relay) returns (o: Outcome)
      requires Held() && JobOk(row, base) && row.camera.Some?
      modifies `calls, `config, `link, `jobs, `reports, `row, `selected, `bound
      ensures Working(job)
      ensures Inv() && JobOk(row, base)
      ensures o.Done? ==> link == Some(row) && row.phase == Active && At(config.cameras, key) == row.managedCamera
    {
      hide Others, Marked, Fits, AliasesFree, JobOk, Ready, ManagedEntry, ManagedStreams, Put, PutRejected, CameraWrite, At, ManagedConfigOf;
      var migration := row.AsMigration().(aliases := AliasesOf(row.camera.value));
      var built := BuildManaged(view, migration, relay);
      if built.Err? {
        return Failed(built.code);
      }
      var (managed, streams) := built.value;
      ApplySteps(Now(), row, base, key, candidate, managed, streams, view, relay, linkedElsewhere);
      row := ApplyingRow(row, managed, streams);
      o := JournalManaged(job);
    }

    /** What ApplySteps found out before the row is journaled. */
    ghost predicate CanJournal()
      reads this
    {
      var after := ManagedConfigOf(row, base, key);
      && row.managedCamera.Obj? && JobOk(row.(phase := Active), base)
      && Put(config, key, CameraWrite(row.handoff, row.managedCamera, Expected(row)), row.managedStreams) == after
      && !PutRejected(config, key, CameraWrite(row.handoff, row.managedCamera, Expected(row)), row.managedStreams)
      && Fits(Now().(link := Some(row)), base, key)
      && Fits(Now().(link := Some(row), config := after), base, key)
      && Fits(Now().(link := Some(row.(phase := Active)), config := after), base, key)
    }

    method JournalManaged(job: nat) returns (o: Outcome)
      requires Inv() && JobOk(row, base) && CanJournal()
      modifies `calls, `config, `link, `jobs, `reports, `row, `selected, `bound
      ensures Working(job)
      ensures Inv() && JobOk(row, base)
      ensures o.Done? ==> link == Some(row) && row.phase == Active && At(config.cameras, key) == row.managedCamera
    {
      hide Others, Marked, Fits, AliasesFree, JobOk, Put, PutRejected, CameraWrite, At, ManagedConfigOf, OriginalSeen;
      :- SaveLink(row);
      :- CheckOriginal();
      o := WriteManaged(job);
    }

    /** What ApplySteps found out: the next request leaves the managed configuration, and the journal covers
        it before and after the takeover is declared active. */
    ghost predicate CanWrite()
      reads this
    {
      var after := ManagedConfigOf(row, base, key);
      && row.managedCamera.Obj? && JobOk(row.(phase := Active), base)
      && Put(config, key, CameraWrite(row.handoff, row.managedCamera, Expected(row)), row.managedStreams) == after
      && !PutRejected(config, key, CameraWrite(row.handoff, row.managedCamera, Expected(row)), row.managedStreams)
      && Fits(Now().(config := after), base, key)
      && Fits(Now().(config := after, link := Some(row.(phase := Active))), base, key)
    }

    method WriteManaged(job: nat) returns (o: Outcome)
      requires Inv() && JobOk(row, base) && link == Some(row) && CanWrite()
      modifies `calls, `config, `link, `jobs, `reports, `row, `selected, `bound
      ensures Working(job)
      ensures Inv() && JobOk(row, base)
      ensures o.Done? ==> link == Some(row) && row.phase == Active && At(config.cameras, key) == row.managedCamera
    {
      hide Others, Marked, Fits, AliasesFree, JobOk, Put, PutRejected, CameraWrite, At, ManagedConfigOf;
      :- SaveJob(job);
      WithJobsOf(old(Now()).(config := ManagedConfigOf(row, base, key)), Now(), base, key);
      WithJobsOf(old(Now()).(config := ManagedConfigOf(row, base, key), link := Some(row.(phase := Active))), Now(), base, key);
      :- SetConfig(CameraWrite(row.handoff, row.managedCamera, Expected(row)), row.managedStreams);
      o := FinishManaged(job);
    }

    method FinishManaged(job: nat) returns (o: Outcome)
      requires Inv() && JobOk(row, base) && link == Some(row)
      requires JobOk(row.(phase := Active), base) && Fits(Now().(link := Some(row.(phase := Active))), base, key)
      modifies `calls, `config, `link, `jobs, `reports, `row, `selected, `bound
      ensures Working(job)
      ensures Inv() && JobOk(row, base)
      ensures o.Done? ==> link == Some(row) && row.phase == Active && At(config.cameras, key) == row.managedCamera
    {
      hide Others, Marked, Fits, AliasesFree, JobOk, At;
      :- VerifyManaged(job);
      WithJobsOf(old(Now()).(link := Some(row.(phase := Active))), Now(), base, key);
      if row.camera.Some? {
        :- SetOwned(row.camera.value, true);
      }
      :- Ask();
      row := row.(phase := Active);
      o := SaveLink(row);
    }

    // ----- one attempt

    /** Once the camera is known: enable it, validate its relay, apply. */
    method TakeOver(job: nat, streams: nat, view: CameraView, relay: Relay) returns (o: Outcome)
      requires Held() && JobOk(row, base) && row.camera.Some?
      modifies `calls, `config, `link, `jobs, `reports, `row, `selected, `bound, `enabled
      ensures Working(job)
      ensures Inv() && JobOk(row, base)
      ensures o.Done? ==> link == Some(row) && row.phase == Active && At(config.cameras, key) == row.managedCamera
    {
      hide Others, Marked, Fits, AliasesFree, JobOk, Ready, At;
      :- Ask();
      :- SaveJob(job);
      if row.created {
        :- SetEnabled(row.camera.value, true);
      }
      :- ValidateRelay(job, streams);
      o := ApplyManaged(job, view, relay);
    }

    /** An entry without a camera of its own gets a validated, newly adopted one. */
    method EnsureCamera(job: nat, uuid: string, mapped: map<SourceId, string>) returns (o: Outcome)
      requires Held() && JobOk(row, base)
      modifies `calls, `config, `link, `jobs, `reports, `row, `adopted, `enabled, `pending
      ensures Working(job)
      ensures Inv() && JobOk(row, base) && (o.Done? ==> Held() && row.camera.Some?)
    {
      hide Others, Marked, Fits, AliasesFree, JobOk, Ready;
      if row.camera.Some? {
        return Done;
      }
      CreatedRow(Now(), row, base, key, candidate);
      row := row.(created := true);
      ReadyJob(Now(), row, base, key, candidate);
      :- ValidateSources(job);
      o := AdoptCamera(job, uuid, mapped);
    }

    /** From the check to the finished takeover; the steps of `execute` for one row without a journal entry. */
    method Attempt(job: nat, uuid: string, mapped: map<SourceId, string>, streams: nat, view: CameraView, relay: Relay)
      returns (o: Outcome)
      requires Inv() && link.None? && JobOk(row, base)
      modifies `calls, `config, `link, `jobs, `reports, `row, `selected, `bound, `adopted, `enabled, `pending
      ensures Working(job)
      ensures Inv() && JobOk(row, base)
      ensures o.Done? ==> link == Some(row) && row.phase == Active && At(config.cameras, key) == row.managedCamera
    {
      hide Others, Marked, Fits, AliasesFree, JobOk, Ready, OriginalSeen, At;
      RenewedJob(row, base);
      row := Renewed(row);
      :- CheckOriginal();
      if row.camera.Some? && row.camera.value in linkedElsewhere {
        return Failed("camera_already_linked");
      }
      :- NameCandidate(job, mapped);
      ReleasedWithCamera(row, base);
      if row.releaseRequired {
        :- ReleaseReader(job);
      }
      :- EnsureCamera(job, uuid, mapped);
      o := TakeOver(job, streams, view, relay);
    }

    /** The candidate of the entry, and the camera adopted for it before. */
    method NameCandidate(job: nat, mapped: map<SourceId, string>) returns (o: Outcome)
      requires Inv() && link.None? && JobOk(row, base) && row == Renewed(row) && OriginalSeen(row, key, config)
      requires row.camera.Some? ==> row.camera.value !in linkedElsewhere
      modifies `calls, `row
      ensures Inv() && JobOk(row, base) && (o.Done? ==> Held() && !row.handoff)
    {
      hide Fits, AliasesFree, JobOk, Ready, OriginalSeen;
      NamedJob(row, base, key, config, Some(candidate), Some(job), row.camera, row.mapped, row.created);
      row := row.(candidate := Some(candidate), importJob := Some(job));
      if row.camera.None? && candidate in adopted {
        :- Ask();
        NamedJob(row, base, key, config, row.candidate, row.importJob, Some(adopted[candidate]), mapped, true);
        row := row.(camera := Some(adopted[candidate]), mapped := mapped, created := true);
      }
      CheckedIsReady(Now(), row, base, key, candidate);
      return Done;
    }

    /** The takeover of an active journal row is what Frigate has saved. */
    ghost predicate InPlace()
      reads this
    {
      && link.Some? && link.value.phase == Active
      && config == ManagedConfigOf(Seen(link.value, doubt), base, key) && At(config.cameras, key) == link.value.managedCamera
    }

    /** Whatever a job says, the takeover is in place if and only if the journal row is active and no restore has put
        the original back since. */
    lemma InPlaceIff()
      requires Inv()
      ensures InPlace() <==> link.Some? && link.value.phase == Active && doubt != Undone
    {
      hide Fits, AliasesFree, ManagedConfigOf;
      if link.Some? && link.value.phase == Active {
        ActiveIsManaged(Now(), base, key);
        ManagedIsNew(Now(), base, key);
      }
    }

    /** No job claims a takeover that is not in place, and no restore stopped half-way under an active journal row. */
    ghost predicate Honest()
      reads this
    {
      && (forall job | Marked(job) :: link.Some? && link.value.phase == Active)
      && (link.Some? && link.value.phase == Active ==> doubt != Undone)
    }

    static lemma SameMarks(job: nat, before: map<nat, Report>, after: map<nat, Report>)
      requires Others(job, after) == Others(job, before)
      ensures forall other | other != job && other in after :: other in before && before[other] == after[other]
    {
      forall other | other != job && other in after ensures other in before && before[other] == after[other] {
        assert other in Others(job, after) && Others(job, before)[other] == before[other];
      }
    }

    /** `execute` for one selected row. A row that is marked as applied is skipped. A journal entry of an earlier
        attempt is undone first; a failed attempt that wrote anything is undone as well. */
    method ExecuteRow(job: nat, eligible: bool, uuid: string, mapped: map<SourceId, string>, streams: nat,
                      view: CameraView, relay: Relay)
      returns (o: Outcome, report: Report)
      requires Inv()
      modifies `calls, `config, `link, `jobs, `reports, `row, `reported, `selected, `bound, `adopted, `enabled, `pending, `doubt
      ensures Inv() && (old(Honest()) ==> Honest())
      ensures Others(job, reports) == Others(job, old(reports))
      ensures job !in old(jobs) ==> o == Failed("import_not_found") && Now() == old(Now()) && reports == old(reports)
      ensures o.Done? ==> job in reports && reports[job] == report
      ensures job in old(jobs) && old(Marked(job)) ==>
                && Now() == old(Now()).(jobs := jobs) && Called(old(calls), 2) && (o.Done? ==> report == Applied)
                && (old(Calm(2)) ==> o.Done?)
      ensures !old(Marked(job)) && !eligible ==> Now() == old(Now()).(jobs := jobs) && (o.Done? ==> report == Pending)
      ensures o.Done? && !old(Marked(job)) && eligible ==> report in {Applied, Error, RollbackRequired}
      ensures old(link).Some? && old(link).value.phase == Active ==>
                Now() == old(Now()).(jobs := jobs) && (o.Done? && eligible ==> report == Applied)
      ensures o.Done? && !old(Marked(job)) && report == Applied ==>
                || InPlace()
                || (config == base && old(link).Some? && old(link).value.phase == Active && old(doubt) == Undone)
      ensures o.Done? && report == Error ==> (link.None? && config == base) || (link.Some? && link.value.phase == Active)
    {
      hide Fits, AliasesFree, JobOk, At, InPlace, ManagedConfigOf, Seen, Separate, Others;
      o, report := Done, Pending;
      if job !in jobs {
        return Failed("import_not_found"), Error;
      }
      KnownJob(Now(), base, key, job);
      row := jobs[job];
      var skipped := Marked(job);
      reported := if skipped then Applied else Pending;
      o := SaveJob(job);
      SameMarks(job, old(reports), reports);
      if !o.Done? {
        assert forall other | Marked(other) :: old(Marked(other));
        return;
      }
      if skipped {
        report := Applied;
      } else if eligible {
        reported := Running;
        o, report := ProcessRow(job, uuid, mapped, streams, view, relay);
        if !o.Done? {
          SameMarks(job, old(reports), reports);
          assert forall other | Marked(other) :: old(Marked(other));
          return;
        }
      }
      reported := report;
      o := SaveJob(job);
      SameMarks(job, old(reports), reports);
      assert forall other | other != job && Marked(other) :: old(Marked(other));
      InPlaceIff();
      if link.Some? && link.value.phase == Active {
        ActiveIsManaged(Now(), base, key);
      }
    }

    /** What happens to a row that is not skipped, up to its report. */
    method ProcessRow(job: nat, uuid: string, mapped: map<SourceId, string>, streams: nat, view: CameraView, relay: Relay)
      returns (o: Outcome, report: Report)
      requires Inv() && JobOk(row, base)
      modifies `calls, `config, `link, `jobs, `reports, `row, `selected, `bound, `adopted, `enabled, `pending, `doubt
      ensures Inv() && JobOk(row, base) && (o.Done? || o.Crashed?)
      ensures Working(job)
      ensures o.Done? ==> report in {Applied, Error, RollbackRequired}
      ensures old(link).Some? && old(link).value.phase == Active ==> o.Done? && report == Applied && Now() == old(Now())
      ensures o.Done? && report == Applied ==> link.Some? && link.value.phase == Active
      ensures link.Some? && link.value.phase == Active && doubt == Undone ==>
                old(link).Some? && old(link).value.phase == Active && old(doubt) == Undone
      ensures o.Done? && report == Error ==> (link.None? && config == base) || (link.Some? && link.value.phase == Active)
    {
      hide Others, Marked, Fits, AliasesFree, JobOk, At;
      o, report := Done, Applied;
      if link.Some? && link.value.phase == Active {
        return;
      }
      ghost var was := doubt;
      o := Ask();
      if o.Done? && link.Some? {
        o := RestoreEntry();
      }
      if o.Done? {
        UnlinkedIsSettled(Now(), base, key);
        o := Attempt(job, uuid, mapped, streams, view, relay);
      }
      if o.Crashed? {
        return;
      }
      report := if o.Done? then Applied else Error;
      if o.Failed? && link.Some? && link.value.phase in {Releasing, Paused, Applying, Restored} {
        o := RestoreEntry();
        if o.Crashed? {
          return;
        }
        report := if o.Done? then Error else RollbackRequired;
      }
      JournalPhases(Now(), base, key);
      o := Done;
    }

    /** An applied job that is restored and executed again: its row is skipped, and reported as applied over the
        original configuration, with no journal row left. Given acknowledgements this is what happens. */
    method RestoredThenExecuted(job: nat, eligible: bool, uuid: string, mapped: map<SourceId, string>, streams: nat,
                                view: CameraView, relay: Relay)
      returns (restored: Outcome, o: Outcome, report: Report)
      requires Inv() && job in jobs && Marked(job) && link.Some?
      modifies `calls, `config, `link, `jobs, `reports, `row, `reported, `selected, `bound, `adopted, `enabled, `pending, `doubt
      ensures Inv()
      ensures restored.Done? && o.Done? ==> report == Applied && Marked(job) && link.None? && config == base && !InPlace()
      ensures old(SyncedEnough(link.value, doubt) && usedElsewhere == {} && Calm(14 + |link.value.aliases.Values|)) ==>
                restored.Done? && o.Done?
    {
      hide Fits, AliasesFree, SyncedEnough;
      restored := RestoreEntry();
      o, report := restored, Error;
      if restored.Done? {
        o, report := ExecuteRow(job, eligible, uuid, mapped, streams, view, relay);
      }
    }

    /** `recover_handoffs`: a startup undoes an unfinished handoff, trying again while Frigate is away. */
    method RecoverHandoff() returns (o: Outcome)
      requires Inv()
      modifies `calls, `config, `link, `reports, `enabled, `selected, `bound, `pending, `doubt
      ensures Inv() && (old(Honest()) ==> Honest())
      ensures forall job :: (job in reports <==> job in old(reports))
                            && (job in reports && Marked(job) ==> reports[job] == old(reports)[job])
      ensures o.Done? ==> link.None? || !link.value.handoff || link.value.phase == Active
      ensures old(link.Some? && link.value.handoff && link.value.phase != Active) && o.Done?
              && old(link).value.importJob.Some? && old(link).value.importJob.value in old(reports) ==>
                reports == old(reports)[old(link).value.importJob.value := Error]
      ensures o.Done? ==> || old(link.None? || !link.value.handoff || link.value.phase == Active || pending.None?)
                          || Disabled(old(pending))
      ensures old(link.Some? && link.value.handoff && link.value.phase != Active) && o.Done? ==> config == base
    {
      hide Fits, AliasesFree;
      if link.None? || !link.value.handoff || link.value.phase == Active {
        return Done;
      }
      var job := link.value.importJob;
      o := UndoHandoff();
      if !o.Crashed? && job.Some? && job.value in reports {
        var marked := MarkJob(job.value, if o.Done? then Error else RollbackRequired);
        o := if marked.Done? then o else marked;
      }
      assert forall other | Marked(other) :: old(Marked(other));
    }

    /** The job of an undone handoff is marked as failed. */
    method MarkJob(job: nat, report: Report) returns (o: Outcome)
      requires job in reports
      modifies `calls, `reports
      ensures reports == old(reports) || reports == old(reports)[job := report]
      ensures o.Done? ==> reports == old(reports)[job := report]
    {
      var reply := Next();
      if Taken(reply) {
        reports := reports[job := report];
      }
      return Ending(reply);
    }

    ghost predicate Disabled(camera: Option<string>)
      reads `enabled
    {
      camera.Some? && camera.value in enabled ==> !enabled[camera.value]
    }

    /** Restore, and try again while Frigate is away. The camera that was adopted for the handoff ends disabled, even
        if the process stopped between adopting it and journaling its identifier. */
    method UndoHandoff() returns (o: Outcome)
      requires Inv() && link.Some? && link.value.phase != Active
      modifies `calls, `config, `link, `enabled, `selected, `bound, `pending, `doubt
      ensures link.Some? ==> link.value.phase != Active
      ensures Inv() && (o.Done? ==> link.None? && config == base && Disabled(old(pending)))
    {
      hide Fits, AliasesFree, ClaimOf;
      ghost var camera := pending;
      if pending.Some? {
        PendingIsClaimed(Now(), base, key);
      }
      o := RestoreEntry();
      while o.Failed? && o.code in TRANSIENT && link.Some? && calls < |script|
        invariant link.Some? ==> link.value.phase != Active
        invariant Inv() && (o.Done? ==> link.None? && config == base && Disabled(camera)) && (link.Some? ==> pending == camera)
        decreases |script| - calls
      {
        if pending.Some? {
          PendingIsClaimed(Now(), base, key);
        }
        o := RestoreEntry();
      }
    }

    // ----- synchronising an active takeover

    /** A request that changes streams only. */
    method SetStreams(streams: map<string, Json>) returns (o: Outcome)
      modifies `calls, `config
      ensures config == old(config)
              || config == Config(old(config).cameras, Merge(Obj(old(config).streams), Obj(streams)).fields)
      ensures o.Done? ==> config == Config(old(config).cameras, Merge(Obj(old(config).streams), Obj(streams)).fields)
      ensures Called(old(calls), 1)
      ensures old(Calm(1)) && !Rejects(Obj(old(config).streams), Obj(streams)) ==> o.Done?
    {
      var r := Next();
      o := Ending(r);
      if Rejects(Obj(config.streams), Obj(streams)) {
        if o != Crashed {
          o := Failed("request_rejected");
        }
      } else if Taken(r) {
        config := Config(config.cameras, Merge(Obj(config.streams), Obj(streams)).fields);
      }
    }

    /** Every stream is set in the running go2rtc; the first failure ends the pass. */
    method SetRuntimeStreams(aliases: set<string>) returns (o: Outcome)
      modifies `calls
      ensures Called(old(calls), |aliases|)
      ensures old(Calm(|aliases|)) ==> o.Done?
    {
      var rest := aliases;
      while rest != {}
        invariant rest <= aliases && Called(old(calls), |aliases| - |rest|)
        invariant old(Calm(|aliases|)) ==> calls == old(calls) + |aliases| - |rest|
        decreases rest
      {
        var alias :| alias in rest;
        rest := rest - {alias};
        :- Ask();
      }
      return Done;
    }

    /** Write the streams, run them and journal them; cut short in between, the journal lags behind. */
    method WriteStreams(ghost view: CameraView, ghost relay: Relay, desired: map<string, Json>) returns (o: Outcome)
      requires Inv() && link.Some? && link.value.phase == Active
      requires ManagedStreams(view, link.value.AsMigration(), relay, desired)
      requires SyncAllowed(link.value, config.streams, desired)
      modifies `calls, `config, `link, `doubt
      ensures Inv() && (doubt == Undone ==> old(doubt) == Undone)
      ensures (config == old(config) && doubt == old(doubt) && link == old(link))
              || config == Config(old(config).cameras, old(config).streams + desired)
      ensures link == old(link) || link == Some(Synced(old(link).value, desired))
      ensures o.Done? ==> doubt == Settled && link == Some(Synced(old(link).value, desired))
                          && config == ManagedConfigOf(link.value, base, key)
      ensures old(Calm(2 + |desired.Keys|)) ==> o.Done?
    {
      hide Fits, AliasesFree, Separate, ManagedStreams, SyncAllowed, Merge, Rejects, ManagedConfigOf, Synced, Row.AsMigration;
      SyncSteps(Now(), base, key, view, relay, desired);
      o := SetStreams(desired);
      if config == Config(old(config).cameras, old(config).streams + desired) {
        doubt := Unsynced(desired);
      }
      :- o;
      :- SetRuntimeStreams(desired.Keys);
      o := SaveLink(Synced(link.value, desired));
      if link != old(link) || o.Done? {
        doubt := Settled;
      }
    }

    /** Nobody else changed the inputs or the streams. */
    method Compare(desired: map<string, Json>) returns (o: Outcome)
      requires Inv() && link.Some? && link.value.phase == Active
      modifies `calls
      ensures o.Done? ==> SyncAllowed(link.value, config.streams, desired)
      ensures old(Calm(1)) && !doubt.Undone? ==> (o.Done? <==> SyncAllowed(link.value, config.streams, desired))
      ensures Called(old(calls), 1)
    {
      hide Fits, AliasesFree, SyncAllowed, At, RawInputs, ManagedConfigOf;
      ActiveIsManaged(Now(), base, key);
      :- Ask();
      if RawInputs(At(config.cameras, key)) != RawInputs(link.value.managedCamera)
         || !SyncAllowed(link.value, config.streams, desired)
      {
        return Failed("import_source_conflict");
      }
      return Done;
    }

    /** Nothing is written if the journal has the streams already. */
    method Update(ghost view: CameraView, ghost relay: Relay, desired: map<string, Json>) returns (o: Outcome)
      requires Inv() && link.Some? && link.value.phase == Active
      requires ManagedStreams(view, link.value.AsMigration(), relay, desired)
      requires SyncAllowed(link.value, config.streams, desired)
      modifies `calls, `config, `link, `doubt
      ensures Inv() && (doubt == Undone ==> old(doubt) == Undone)
      ensures Now() == old(Now()) || config == Config(old(config).cameras, old(config).streams + desired)
      ensures link == old(link) || link == Some(Synced(old(link).value, desired))
      ensures o.Done? ==> doubt == Settled && link == Some(Synced(old(link).value, desired))
                          && config == ManagedConfigOf(link.value, base, key)
      ensures old(Calm(2 + |desired.Keys|)) ==> o.Done?
      ensures desired == old(link).value.managedStreams ==> calls == old(calls) && config == old(config) && link == old(link)
    {
      hide Fits, AliasesFree, ManagedStreams, SyncAllowed, ManagedConfigOf, Row.AsMigration, Synced, Merge, Rejects;
      if desired != link.value.managedStreams {
        o := WriteStreams(view, relay, desired);
      } else {
        SyncSteps(Now(), base, key, view, relay, desired);
        SyncedAlready(link.value);
        doubt := Settled;
        return Done;
      }
    }

    /** `sync_imported` for this entry: when the streams of an active takeover should be others, write them and
        journal them. Streams or inputs that somebody else changed are left alone. */
    method SyncImported(view: CameraView, relay: Relay) returns (o: Outcome, desired: Option<map<string, Json>>)
      requires Inv()
      modifies `calls, `config, `link, `doubt
      ensures Inv() && (old(Honest()) ==> Honest())
      ensures desired.Some? <==> old(LookedAfter(view))
      ensures desired.None? ==> Now() == old(Now()) && calls == old(calls)
      ensures desired.Some? ==> old(link.Some? && link.value.phase == Active && Wants(view, relay, desired.value))
                                && Passed(old(Now()), Now(), base, key, desired.value, o.Done?)
      ensures desired.Some? && old(Calm(3 + |desired.value.Keys|)) && !old(doubt).Undone? ==>
                (o.Done? <==> old(link.Some? && SyncAllowed(link.value, config.streams, desired.value)))
      ensures desired.Some? && desired.value == old(link).value.managedStreams ==>
                config == old(config) && link == old(link) && Called(old(calls), 1)
      ensures desired.Some? && o.Done? ==> LookedAfter(view) && Wants(view, relay, link.value.managedStreams)
    {
      hide Fits, AliasesFree, ManagedStreams, SyncAllowed, ManagedConfigOf, Buildable, Row.AsMigration, Synced;
      o, desired := Wanted(view, relay);
      if desired.Some? {
        SyncedActive(link.value, desired.value);
      }
      if !o.Done? || desired.None? {
        return;
      }
      o := Compare(desired.value);
      if o.Done? {
        o := Update(view, relay, desired.value);
      }
    }

    /** A completed pass is a fixpoint: as long as the camera and its relay stay as they are, every later one reads the
        configuration, and writes nothing. */
    method SyncAgain(view: CameraView, relay: Relay, passes: nat)
      requires Inv() && LookedAfter(view) && Wants(view, relay, link.value.managedStreams)
      modifies `calls, `config, `link, `doubt
      ensures config == old(config) && link == old(link) && Called(old(calls), passes)
    {
      hide Fits, AliasesFree, ManagedStreams, Buildable, Row.AsMigration, Passed;
      for pass := 0 to passes
        invariant Inv() && config == old(config) && link == old(link) && Called(old(calls), pass)
      {
        var o, desired := SyncImported(view, relay);
        if desired.Some? {
          ManagedStreamsAreUnique(view, old(link).value.AsMigration(), relay, desired.value, old(link).value.managedStreams);
        }
      }
    }

    /** The takeover is active and selected, and its camera has a managed configuration. */
    ghost predicate LookedAfter(view: CameraView)
      reads this
    {
      && link.Some? && link.value.phase == Active && link.value.camera.Some? && link.value.camera.value in selected
      && Buildable(view, link.value.AsMigration())
    }

    ghost predicate Wants(view: CameraView, relay: Relay, desired: map<string, Json>)
      reads this
    {
      link.Some? && ManagedStreams(view, link.value.AsMigration(), relay, desired)
    }

    /** The streams that an active takeover should have, if it is to be looked after. */
    method Wanted(view: CameraView, relay: Relay) returns (o: Outcome, desired: Option<map<string, Json>>)
      requires Inv()
      ensures desired.Some? ==> o.Done? && link.Some? && link.value.phase == Active && Wants(view, relay, desired.value)
      ensures desired.Some? <==> LookedAfter(view)
    {
      hide Fits, AliasesFree, ManagedStreams, ManagedEntry, Buildable;
      if link.None? || link.value.phase != Active {
        return Done, None;
      }
      ActiveLink(Now(), base, key);
      if link.value.camera.value !in selected {
        return Done, None;
      }
      if !view.enabled {
        DisabledIsNotBuilt(view, link.value.AsMigration());
        return Done, None;
      }
      var built := BuildManaged(view, link.value.AsMigration(), relay);
      if built.Err? {
        return Failed(built.code), None;
      }
      return Done, Some(built.value.1);
    }

    /** A preview stores a job that has not run; its row is as `PreviewOk` has it, or it is not stored. */
    method StorePreview(job: nat, made: Row)
      requires Inv()
      modifies `jobs, `reports
      ensures Inv() && (old(Honest()) ==> Honest())
    {
      hide Fits, AliasesFree, PreviewOk;
      if PreviewOk(made) {
        PreviewedJob(Now(), made, base, key, job);
        jobs, reports := jobs[job := made], reports[job := Pending];
        assert forall other | Marked(other) :: old(Marked(other));
      }
    }

    /** Any sequence of previews, attempts, restorations, startups and synchronisations, each cut short anywhere: after all of
        them the journal still covers what Frigate has saved. */
    method Run(commands: seq<Command>)
      requires Inv()
      modifies this
      ensures Inv()
      ensures old(Honest()) && Restore !in commands ==> forall job | Marked(job) :: InPlace()
    {
      ghost var quiet := Honest() && Restore !in commands;
      for i := 0 to |commands|
        invariant Inv() && (quiet ==> Honest())
      {
        match commands[i]
        case Preview(job, made) =>
          StorePreview(job, made);
        case Execute(job, eligible, uuid, mapped, streams, view, relay) =>
          var _, _ := ExecuteRow(job, eligible, uuid, mapped, streams, view, relay);
        case Restore =>
          var _ := RestoreEntry();
        case Recover =>
          var _ := RecoverHandoff();
        case Sync(view, relay) =>
          var _, _ := SyncImported(view, relay);
      }
      InPlaceIff();
    }
  }

  /** A row as a preview makes it: a mapping, with live aliases that exist in the saved configuration. */
  predicate PreviewOk(row: Row) {
    && row.original.Obj?
    && row.plan.live.Keys == row.originalStreams.Keys
    && (forall alias | alias in row.originalStreams :: row.originalStreams[alias] != Null)
    && row.managedStreams == map[] && row.aliases == map[] && !row.releaseRequired
  }

  lemma PreviewedJob(w: World, row: Row, base: Config, key: string, job: nat)
    requires Fits(w, base, key) && PreviewOk(row)
    ensures Fits(w.(jobs := w.jobs[job := row]), base, key)
  {
    assert JobOk(row, base) by {
      hide MediaAliases;
    }
    hide JobOk, Covers, Importable, ClaimOf;
  }

  lemma JournalPhases(w: World, base: Config, key: string)
    requires Fits(w, base, key)
    ensures w.link.None? ==> w.config == base
    ensures w.link.Some? ==> w.link.value.phase in {Releasing, Paused, Applying, Active, Restored}
  {
    hide JobOk, Importable, ClaimOf, OnlyReadBy, Snapshot, HandoffRecorded;
  }

  lemma KnownJob(w: World, base: Config, key: string, job: nat)
    requires Fits(w, base, key) && job in w.jobs
    ensures JobOk(w.jobs[job], base)
  {
    hide JobOk, Covers, Importable, ClaimOf;
  }

  lemma ReleasedWithCamera(row: Row, base: Config)
    requires JobOk(row, base)
    ensures row.releaseRequired && row.camera.None? ==> row.created
  {
    hide LeftoversOk;
  }

  lemma RenewedJob(row: Row, base: Config)
    requires JobOk(row, base)
    ensures JobOk(Renewed(row), base)
  {
    hide MediaAliases;
    assert Touched(Renewed(row), base) == Touched(row, base);
  }

  lemma NamedJob(row: Row, base: Config, key: string, config: Config, candidate: Option<string>, job: Option<nat>, camera: Option<string>,
                 mapped: map<SourceId, string>, created: bool)
    requires JobOk(row, base) && OriginalSeen(row, key, config) && row == Renewed(row)
    requires (row.camera.Some? ==> camera.Some?) && (row.created ==> created)
    ensures var named := row.(candidate := candidate, importJob := job, camera := camera, mapped := mapped, created := created);
            JobOk(named, base) && OriginalSeen(named, key, config) && named == Renewed(named)
  {
    hide MediaAliases, LiveUnshared;
    var named := row.(candidate := candidate, importJob := job, camera := camera, mapped := mapped, created := created);
    assert Touched(named, base) == Touched(row, base);
    assert LiveUnshared(named, key, config.cameras) by {
      LiveUnsharedSame(row, named, key, config.cameras);
    }
  }

  lemma LiveUnsharedSame(row: Row, named: Row, key: string, cameras: map<string, Json>)
    requires LiveUnshared(row, key, cameras) && named.plan == row.plan
    ensures LiveUnshared(named, key, cameras)
  {
    hide LiveNames;
  }

  lemma CreatedRow(w: World, row: Row, base: Config, key: string, candidate: string)
    requires Ready(w, row, base, key, candidate) && row.camera.None?
    ensures Ready(w, row.(created := true), base, key, candidate)
  {
    hide OnlyReadBy, MediaAliases;
    assert Touched(row.(created := true), base) == Touched(row, base);
  }

  lemma ActiveIsManaged(w: World, base: Config, key: string)
    requires Fits(w, base, key) && w.link.Some? && w.link.value.phase == Active
    ensures w.doubt.Undone? ==> w.config == base
    ensures !w.doubt.Undone? ==>
              && w.config == ManagedConfigOf(Seen(w.link.value, w.doubt), base, key)
              && At(w.config.cameras, key) == w.link.value.managedCamera
  {
    hide JobOk, Importable, ClaimOf, Recorded, OnlyReadBy;
  }

  lemma SyncedAlready(row: Row)
    ensures Synced(row, row.managedStreams) == row
  {
  }

  lemma SyncedActive(row: Row, desired: map<string, Json>)
    ensures var after := Synced(row, desired);
            && after.phase == row.phase && after.camera == row.camera && after.managedStreams == desired
            && after.AsMigration() == row.AsMigration()
  {
  }

  lemma UnlinkedIsSettled(w: World, base: Config, key: string)
    requires Fits(w, base, key)
    ensures w.link.None? ==> w.doubt == Settled
  {
    hide JobOk, Covers, Importable, ClaimOf;
  }

  /** The managed configuration is not the original one: it has the role aliases. */
  lemma ManagedIsNew(w: World, base: Config, key: string)
    requires Fits(w, base, key) && w.link.Some? && w.link.value.phase == Active
    ensures ManagedConfigOf(w.link.value, base, key) != base
  {
    hide JobOk, Importable, ClaimOf, OnlyReadBy, Snapshot, HandoffRecorded, Variant, Admits, StreamsOk;
    var alias := w.link.value.aliases["record"];
    assert alias in w.link.value.aliases.Values && alias in w.link.value.managedStreams;
  }

  lemma DisabledIsNotBuilt(view: CameraView, t: Migration)
    requires !view.enabled
    ensures !Buildable(view, t)
  {
  }

  lemma ActiveLink(w: World, base: Config, key: string)
    requires Fits(w, base, key) && w.link.Some? && w.link.value.phase == Active
    ensures w.link.value.camera.Some? && "record" in w.link.value.aliases && "detect" in w.link.value.aliases
  {
    hide JobOk, Importable, ClaimOf, OnlyReadBy, Snapshot, HandoffRecorded, Variant, Admits;
  }

  lemma ReadyLink(w: World, row: Row, base: Config, key: string, candidate: string)
    requires Ready(w, row, base, key, candidate)
    ensures row.handoff <==> w.link.Some?
  {
    hide JobOk, OnlyReadBy, MediaAliases, Snapshot, HandoffRecorded;
  }

  lemma WithJobsOf(w: World, other: World, base: Config, key: string)
    requires Fits(w, base, key) && Fits(other, base, key)
    ensures Fits(w.(jobs := other.jobs), base, key)
  {
    hide JobOk, Covers, Importable, ClaimOf;
  }

  lemma Unjournaled(w: World, base: Config, key: string)
    requires Fits(w, base, key) && w.config == base && w.pending.None? && w.doubt.Settled?
    ensures Fits(w.(link := None), base, key)
  {
    hide JobOk, Covers, Importable, ClaimOf;
  }

  lemma ReadyAnyJobs(w: World, row: Row, base: Config, key: string, candidate: string, jobs: map<nat, Row>)
    requires Ready(w, row, base, key, candidate)
    ensures Ready(w.(jobs := jobs), row, base, key, candidate)
  {
    hide JobOk, OnlyReadBy, MediaAliases, Snapshot, HandoffRecorded;
  }

  lemma ReadyJob(w: World, row: Row, base: Config, key: string, candidate: string)
    requires Ready(w, row, base, key, candidate)
    ensures JobOk(row, base)
  {
    hide JobOk, OnlyReadBy, MediaAliases, Snapshot, HandoffRecorded;
  }

  lemma ReadyStart(w: World, row: Row, base: Config, key: string, candidate: string)
    requires Fits(w, base, key) && Ready(w, row, base, key, candidate) && !row.handoff
    ensures JobOk(row, base) && Snapshot(row, base, key) && w.link.None? && w.config == base && w.pending.None? && w.doubt.Settled?
    ensures row.original.Obj?
  {
    hide OnlyReadBy, MediaAliases, HandoffRecorded;
  }

  lemma TouchedIsRead(row: Row, base: Config)
    requires MediaAliases(row.original, base.streams).Ok?
    ensures Touched(row, base) == MediaAliases(row.original, base.streams).value + row.originalStreams.Keys
  {
    hide MediaAliases;
  }

  lemma ReleasedJob(row: Row, base: Config, key: string)
    requires JobOk(row, base) && Snapshot(row, base, key) && (row.camera.None? ==> row.created)
    requires MediaAliases(row.original, base.streams).Ok?
    ensures row.original.Obj? && Touched(row, base) <= base.streams.Keys
    ensures JobOk(Released(row, base.streams, Touched(row, base)), base)
  {
    hide JobOk, Snapshot, MediaAliases, Touched;
    ReleasedRecords(row, base, key);
  }
}
