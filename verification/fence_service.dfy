/** The Fence service: durable intent, then effect, then observation, then durable
    confirmation.  Every call extends a run of the machine, whatever the world answers. */
module FenceDriver {
  import opened Common
  import opened FenceEntry
  import opened FenceLedger
  import opened FenceModel
  import opened FenceReload
  import opened FenceReloadSteps
  import opened Headroom
  import opened Qbittorrent
  import opened FenceMachine
  import opened FenceIntake
  import opened FenceDriverFacts
  import opened FenceHealth
  import opened FenceBatches
  import opened FenceSights
  import opened FencePolls
  import opened Arr

  /** How clone, transition and save ended: written, or stopped at one of the three. */
  datatype Outcome = Persisted | Uncopied | Refused | Unsaved

  datatype ClaimReason = Unavailable | Adopted | Pending | ClaimConflict

  datatype AdoptionClaim = AdoptionClaim(admitted: bool, reason: ClaimReason)

  class FenceService {
    const config: Config
    const state: FenceState
    const headroom: PhysicalHeadroom?
    const videoHealth: Option<HealthPolicy>
    var torrents: Torrents
    ghost var durable: Ledger
    ghost var armed: Option<string>
    ghost var log: seq<Effect>
    ghost var sight: Sight
    ghost var trace: seq<System>
    ghost var storeFailed: bool

    ghost function Now(): System
      reads this, state
    {
      System(durable, state.Value(), torrents, armed, log, sight)
    }

    /** Between calls the process holds what the store holds, and the past is a legal run. */
    ghost predicate Valid()
      reads this, state
    {
      && state.policy == config.policy && state.Valid() && durable == state.Value()
      && (headroom == null <==> config.headroom.None?)
      && (headroom != null ==> headroom.Valid() && Some(headroom.pools) == config.headroom)
      && trace != [] && trace[|trace| - 1] == Now()
      && Legal(config, trace)
      && CandidateInv(durable)
    }

    constructor (config: Config, headroom: PhysicalHeadroom?, videoHealth: Option<HealthPolicy>, torrents: Torrents)
      requires config.policy.Valid()
      requires headroom == null <==> config.headroom.None?
      requires headroom != null ==> headroom.Valid() && Some(headroom.pools) == config.headroom
      requires forall h :: h in torrents ==> torrents[h].tags == {}
      ensures Valid() && fresh(state) && this.config == config && state.Value() == EmptyLedger(config.policy)
    {
      this.config := config;
      this.headroom := headroom;
      this.videoHealth := videoHealth;
      this.torrents := torrents;
      this.state := new FenceState(config.policy);
      this.durable := EmptyLedger(config.policy);
      this.armed := None;
      this.log := [];
      this.sight := Blind;
      this.storeFailed := false;
      this.trace := [System(EmptyLedger(config.policy), EmptyLedger(config.policy), torrents, None, [], Blind)];
    }

    /** Every reachable state satisfies the machine invariant. */
    lemma Safe()
      requires Valid()
      ensures MachineInv(Now())
    {
      AlwaysSafe(config, trace, |trace| - 1);
    }

    /** The fields have just made one step; the run records it. */
    ghost method Extend(lab: Label)
      requires trace != [] && Legal(config, trace)
      requires trace[|trace| - 1].working.Keyed() && trace[|trace| - 1].durable.Keyed()
      requires Step(config, trace[|trace| - 1], lab, Now())
      modifies this`trace
      ensures trace == old(trace) + [Now()] && Legal(config, trace)
    {
      LegalExtend(config, trace, lab, Now());
      trace := trace + [Now()];
    }

    /** Anything the rest of the world may do between two calls. */
    method Interfere()
      requires Valid()
      modifies this`torrents, this`trace
      ensures Valid() && EnvironmentStep(old(torrents), torrents) && old(trace) <= trace
    {
      hide Legal, CandidateInv, Ledger.Keyed;
      var next: Torrents := *;
      if EnvironmentStep(torrents, next) {
        torrents := next;
        Extend(Environment);
      }
    }

    /** Everything that a call confirmed was shown by the world during that call. */
    ghost predicate Shown(since: nat, before: Ledger)
      requires Valid()
      reads this, state
    {
      CallShown(config, trace, since, before, state.Value())
    }

    lemma Concludes(since: nat, before: Ledger)
      requires Valid() && since < |trace| && !trace[since].sight.Seen? && trace[since].durable == before
      ensures Shown(since, before)
    {
      hide Legal, CandidateInv, CallShown, Ledger.Keyed;
      CallShows(config, trace, since, before, state.Value());
    }

    // qBittorrent.  A call that raises answers as one that is unknown.

    /** Nothing seen before counts any more. */
    ghost method Unsee()
      requires Valid()
      modifies this`trace, this`sight
      ensures Valid() && sight == Blind && trace == old(trace) + [Now()]
    {
      hide Legal, CandidateInv, Ledger.Keyed;
      sight := Blind;
      Extend(Forget);
    }

    /** The torrent of this hash is asked for. */
    ghost method AskFor(hash: string)
      requires Valid()
      modifies this`trace, this`sight
      ensures Valid() && sight == Asked(hash) && trace == old(trace) + [Now()] && AskedSince(trace, old(|trace|), hash)
    {
      hide Legal, CandidateInv, Ledger.Keyed;
      sight := Asked(hash);
      Extend(Ask(hash));
      assert trace[old(|trace|)].sight == Asked(hash);
    }

    /** The answer showed this torrent. */
    ghost method See(hash: string)
      requires Valid() && hash in torrents
      modifies this`trace, this`sight
      ensures Valid() && sight == Seen(hash, torrents[hash]) && old(trace) <= trace
    {
      hide Legal, CandidateInv, Ledger.Keyed;
      sight := Seen(hash, torrents[hash]);
      Extend(Label.Look(hash));
    }

    /** The torrent of this hash was seen in the place of the source under these tags. */
    ghost predicate Saw(hash: string, source: Source, tags: set<string>)
      reads this`sight
    {
      sight.Seen? && sight.hash == hash && SeenIn(source, sight.torrent, tags)
    }

    method ObserveExistingStopped(hash: string, source: Source) returns (o: Observation)
      requires Valid()
      modifies this`torrents, this`trace, this`sight
      ensures Valid() && old(trace) <= trace && EnvironmentStep(old(torrents), torrents)
      ensures Proven(o) ==>
        && UntaggedOrAbsent(torrents, hash) && Saw(hash, source, {})
        && StoppedState(sight.torrent.state) && Reports(o, sight.torrent)
      ensures AskedSince(trace, old(|trace|), hash)
    {
      hide Legal, CandidateInv, Ledger.Keyed, EnvironmentStep;
      AskFor(hash);
      Interfere();
      o := Unknown;
      if * {
        o := Qbittorrent.ObserveExistingStopped(torrents, hash, source.category, source.savePath);
        if Proven(o) { See(hash); }
      }
    }

    method ObserveTaggedStopped(hash: string, reservationId: string, source: Source) returns (o: Observation)
      requires Valid()
      modifies this`torrents, this`trace, this`sight
      ensures Valid() && EnvironmentStep(old(torrents), torrents) && old(trace) <= trace
      ensures Proven(o) ==>
        o == Qbittorrent.ObserveTaggedStopped(torrents, hash, source.category, reservationId, source.savePath)
      ensures Proven(o) ==>
        && Tags(torrents, Some(hash), reservationId) && Saw(hash, source, {reservationId})
        && StoppedState(sight.torrent.state) && Reports(o, sight.torrent)
      ensures AskedSince(trace, old(|trace|), hash)
    {
      hide Legal, CandidateInv, Ledger.Keyed, EnvironmentStep;
      AskFor(hash);
      Interfere();
      o := Unknown;
      if * {
        o := Qbittorrent.ObserveTaggedStopped(torrents, hash, source.category, reservationId, source.savePath);
        if Proven(o) { See(hash); }
      }
    }

    method ObserveActive(hash: string, reservationId: string, source: Source) returns (o: ActivityObservation)
      requires Valid()
      modifies this`torrents, this`trace, this`sight
      ensures Valid() && EnvironmentStep(old(torrents), torrents) && old(trace) <= trace
      ensures o.Activity? ==> Tags(torrents, Some(hash), reservationId) && Saw(hash, source, {reservationId})
      ensures o.Activity? && o.active ==> sight.torrent.state in ACTIVE_STATES
      ensures o.Activity? && !o.active ==> StoppedState(sight.torrent.state)
      ensures o.Activity? && o.bytes.Some? ==> o.bytes == Some(sight.torrent.size)
      ensures AskedSince(trace, old(|trace|), hash)
    {
      hide Legal, CandidateInv, Ledger.Keyed, EnvironmentStep;
      AskFor(hash);
      Interfere();
      o := ActivityUnknown;
      if * {
        o := Qbittorrent.ObserveActive(torrents, hash, reservationId, source.category, source.savePath);
        if o.Activity? { See(hash); }
      }
    }

    method ObserveTerminal(hash: string, reservationId: string, source: Source) returns (o: ActivityObservation)
      requires Valid()
      modifies this`torrents, this`trace, this`sight
      ensures Valid() && old(trace) <= trace && EnvironmentStep(old(torrents), torrents)
      ensures o.Activity? ==> Tags(torrents, Some(hash), reservationId) && Saw(hash, source, {reservationId})
      ensures o.Activity? && o.active ==> Downloaded(sight.torrent)
    {
      hide Legal, CandidateInv, Ledger.Keyed, EnvironmentStep;
      AskFor(hash);
      Interfere();
      o := ActivityUnknown;
      if * {
        o := Qbittorrent.ObserveTerminal(torrents, hash, reservationId, source.category, source.savePath);
        if o.Activity? { See(hash); }
      }
    }

    /** Sends the tag once; the effect may happen whatever the answer says. */
    method ApplyReservationTag(op: string) returns (answer: bool)
      requires Valid() && TagAllowed(config, Now(), op)
      modifies this`torrents, this`trace, this`sight, this`armed, this`log
      ensures Valid() && old(trace) <= trace && armed == None && log == old(log) + [TagEffect(op)]
    {
      hide Legal, CandidateInv, Ledger.Keyed;
      Interfere();
      var applied: bool := *;
      armed, log, sight := None, log + [TagEffect(op)], Blind;
      if applied {
        torrents := AddTag(torrents, HashOf(state.Value(), op).value, Owner(op));
      }
      Extend(Tag(op, applied));
      answer := *;
    }

    method Resume(op: string, ghost free: map<string, Option<int>>) returns (answer: bool)
      requires Valid() && StartAllowed(config, Now(), op, free)
      modifies this`torrents, this`trace, this`sight, this`log
      ensures Valid() && log == old(log) + [StartEffect(op)] && old(trace) <= trace
      ensures Tags(torrents, HashOf(state.Value(), op), Owner(op))
    {
      hide Legal, CandidateInv, Ledger.Keyed, PhysicalReady, Ledger.WithinCapacity;
      Interfere();
      TagsStable(old(torrents), torrents, HashOf(state.Value(), op), Owner(op));
      var result: Option<string> := *;
      log, sight := log + [StartEffect(op)], Blind;
      if result.Some? {
        torrents := SetState(torrents, HashOf(state.Value(), op).value, result.value);
      }
      Extend(Start(op, result, free));
      answer := *;
    }

    method Pause(op: string) returns (answer: bool)
      requires Valid() && StopAllowed(config, Now(), op)
      modifies this`torrents, this`trace, this`sight, this`log
      ensures Valid() && old(trace) <= trace && log == old(log) + [StopEffect(op)]
    {
      hide Legal, CandidateInv, Ledger.Keyed;
      Interfere();
      TagsStable(old(torrents), torrents, HashOf(state.Value(), op), Owner(op));
      var result: Option<string> := *;
      log, sight := log + [StopEffect(op)], Blind;
      if result.Some? {
        torrents := SetState(torrents, HashOf(state.Value(), op).value, result.value);
      }
      Extend(Stop(op, result));
      answer := *;
    }

    // Durable writes.

    /** The store holds the outcome of the action; memory does not yet. */
    ghost method WriteDown(a: Action, next: Ledger)
      requires Valid() && CommitAllowed(config, Now(), a) && Apply(state.Value(), a) == Ok(next)
      modifies this`durable, this`armed, this`sight, this`trace
      ensures trace == old(trace) + [Now()] && Legal(config, trace)
      ensures durable == next && next.Keyed() && CandidateInv(next) && sight == Blind
      ensures armed == (if a.Op? && a.step.RequestTag? then Some(a.op) else None)
    {
      hide Legal, Ledger.Keyed, Step, CommitAllowed, Apply;
      ghost var before := Now();
      ApplyKeepsCandidateInv(durable, a);
      hide CandidateInv;
      durable, sight := next, Blind;
      armed := if a.Op? && a.step.RequestTag? then Some(a.op) else None;
      Commits(config, before, a, Now());
      Extend(Commit(a));
    }

    /** Saves, then replaces the working ledger; a failed save changes nothing. */
    method Persist(candidate: FenceState, ghost a: Action) returns (saved: bool)
      requires Valid() && candidate != state && candidate.policy == config.policy && candidate.Valid()
      requires CommitAllowed(config, Now(), a) && Apply(state.Value(), a) == Ok(candidate.Value())
      modifies this`durable, this`armed, this`trace, this`sight, this`storeFailed, state
      ensures Valid() && old(trace) <= trace
      ensures saved ==>
        state.Value() == old(candidate.Value()) && armed == (if a.Op? && a.step.RequestTag? then Some(a.op) else None)
      ensures !saved ==> storeFailed && state.Value() == old(state.Value()) && armed == old(armed)
      ensures old(storeFailed) ==> storeFailed
    {
      hide Legal, Ledger.Keyed, Step, CommitAllowed, CandidateInv, Apply;
      saved := *;
      if !saved {
        storeFailed := true;
        return;
      }
      WriteDown(a, candidate.Value());
      Installs(config, Now());
      state.ReplaceWith(candidate);
      Extend(Install);
    }

    /** A fresh working copy; it fails only on a ledger that could not be copied exactly. */
    method Copy() returns (r: Result<FenceState>)
      requires Valid()
      ensures r.Ok? <==> CloneInv(state.Value())
      ensures r.Ok? ==>
        fresh(r.value) && r.value.policy == config.policy && r.value.Valid() && r.value.Value() == state.Value()
    {
      CloneExact(durable);
      hide Legal, Ledger.Keyed, CandidateInv, CloneOf, CloneInv;
      r := state.Clone();
    }

    /** Runs one transition on a working copy. */
    static method Perform(candidate: FenceState, op: string, step: OpAction) returns (r: Result<()>)
      requires candidate.Valid()
      modifies candidate
      ensures r.Ok? <==> Apply(old(candidate.Value()), Op(op, step)).Ok?
      ensures r.Ok? ==> candidate.Valid() && Apply(old(candidate.Value()), Op(op, step)) == Ok(candidate.Value())
    {
      hide Apply, Ledger.Keyed;
      match step {
        case BindObservedGrab(downloadId, torrentHash, historyId) =>
          r := candidate.BindObservedGrab(op, downloadId, torrentHash, historyId);
        case RequestTag => r := candidate.RequestTag(op);
        case MarkTagged(observedBytes, remaining) =>
          var tagged := candidate.MarkQbittorrentTagged(op, observedBytes, remaining);
          r := if tagged.Ok? then Ok(()) else Raised;
        case RequestResume => r := candidate.RequestResume(op);
        case RequestHistoricalActivation => r := candidate.RequestHistoricalActivation(op);
        case MarkHistoricalManaged => r := candidate.MarkHistoricalManaged(op);
        case RequestPause => r := candidate.RequestPause(op);
        case MarkPaused => r := candidate.MarkQbittorrentPaused(op);
        case MarkActive => r := candidate.MarkQbittorrentActive(op);
        case RequestFreeze => r := candidate.RequestFreeze(op);
        case MarkFrozen => r := candidate.MarkQbittorrentFrozen(op);
        case Complete =>
          var terminal := candidate.CompleteTransfer(op);
          r := if terminal.Ok? then Ok(()) else Raised;
        case AcceptCustody(fenceReservationId, publisherReservationId) =>
          var accepted := candidate.AcceptCustody(CustodyReceipt(op, fenceReservationId, publisherReservationId));
          r := if accepted then Ok(()) else Raised;
        case EnsureMusic(now) => r := candidate.EnsureMusicCandidate(op, now);
        case RecordMusicProgress(downloadedBytes, now) =>
          var progressed := candidate.RecordMusicCandidateProgress(op, downloadedBytes, now);
          r := if progressed.Ok? then Ok(()) else Raised;
        case CompleteMusic => r := candidate.CompleteMusicCandidate(op);
        case InvalidateMusic(reason, now, deletePayload, id) =>
          var rejected := candidate.InvalidateMusicCandidate(op, reason, now, deletePayload, id);
          r := if rejected.Ok? then Ok(()) else Raised;
        case MarkMusicDeleted => r := candidate.MarkMusicCandidateDeleted(op);
        case AcknowledgeMusic(id) =>
          var acknowledged := candidate.AcknowledgeMusicInvalidation(op, id);
          r := if acknowledged then Ok(()) else Raised;
        case EnsureVideo(now) => r := candidate.EnsureVideoCandidate(op, now);
        case RecordVideoFailure(now) => r := candidate.RecordVideoCandidateFailure(op, now);
        case RecordVideoMetadata(downloadedBytes, now) =>
          r := candidate.RecordVideoCandidateMetadata(op, downloadedBytes, now);
        case InvalidateVideo(reason, now) =>
          var rejected := candidate.InvalidateVideoCandidate(op, reason, now);
          r := if rejected.Ok? then Ok(()) else Raised;
        case ReleaseInvalidatedVideo => r := candidate.ReleaseInvalidatedVideoCandidate(op);
      }
    }

    /** Clone, one transition, save: the durable half of every step of a transfer. */
    method Record(op: string, step: OpAction) returns (outcome: Outcome)
      requires Valid() && CommitAllowed(config, Now(), Op(op, step))
      modifies this`durable, this`armed, this`trace, this`sight, this`storeFailed, state
      ensures Valid() && OthersKept(old(state.Value()), state.Value(), op) && old(trace) <= trace
      ensures outcome == Persisted ==>
        Apply(old(state.Value()), Op(op, step)) == Ok(state.Value()) && state.Value().Has(op)
      ensures outcome == Persisted ==> armed == (if step.RequestTag? then Some(op) else None)
      ensures outcome != Persisted ==> state.Value() == old(state.Value()) && armed == old(armed)
      ensures outcome == Refused ==> Apply(old(state.Value()), Op(op, step)).Raised?
      ensures outcome == Uncopied <==> !old(CloneInv(state.Value()))
      ensures outcome == Unsaved ==> storeFailed
      ensures old(storeFailed) ==> storeFailed
      ensures old(Healthy(state.Value()) && state.Value().Has(op)
                  && StepCloneCondition(state.Value().EntryOf(op), step)) ==>
        Healthy(state.Value())
    {
      hide Legal, CandidateInv, Ledger.Keyed, Apply, CommitAllowed, Healthy, OthersKept, StepCloneCondition, CloneInv;
      RecordedFacts(state.Value(), op, step);
      var copied := Copy();
      if copied.Raised? {
        return Uncopied;
      }
      var candidate := copied.value;
      var performed := Perform(candidate, op, step);
      if performed.Raised? {
        return Refused;
      }
      var saved := Persist(candidate, Op(op, step));
      outcome := if saved then Persisted else Unsaved;
    }

    /** Records a transition that cannot spoil the ledger for later working copies. */
    method Confirm(op: string, step: OpAction) returns (outcome: Outcome)
      requires Valid() && Harmless(step) && CommitAllowed(config, Now(), Op(op, step))
      modifies this`durable, this`armed, this`trace, this`sight, this`storeFailed, state
      ensures Valid() && Handled(old(state.Value()), state.Value(), op) && old(trace) <= trace
      ensures outcome == Persisted ==>
        Apply(old(state.Value()), Op(op, step)) == Ok(state.Value()) && state.Value().Has(op)
      ensures outcome == Persisted ==> armed == (if step.RequestTag? then Some(op) else None)
      ensures outcome != Persisted ==> state.Value() == old(state.Value()) && armed == old(armed)
      ensures outcome == Refused ==> Apply(old(state.Value()), Op(op, step)).Raised?
      ensures outcome == Uncopied <==> !old(CloneInv(state.Value()))
      ensures outcome == Unsaved ==> storeFailed
      ensures old(storeFailed) ==> storeFailed
    {
      HandledNothing(state.Value(), op);
      hide Legal, CandidateInv, Healthy, OthersKept, Apply, Ledger.Keyed, CommitAllowed;
      outcome := Record(op, step);
    }

    // Readiness.

    /** `free` is what this call's probes answered. */
    method PhysicallyReady(candidate: FenceState) returns (ready: bool, ghost free: map<string, Option<int>>)
      requires Valid() && candidate.Valid()
      ensures ready <==> PhysicalReady(config, candidate.Value(), free)
    {
      hide Legal, CandidateInv, Allowed;
      free := map[];
      if headroom == null {
        return true, free;
      }
      var pools: map<string, seq<string>> := map[];
      var todo := config.sources.Keys;
      while todo != {}
        invariant todo <= config.sources.Keys && pools.Keys == config.sources.Keys - todo
        invariant forall name ::
          name in pools ==> SourceHasPools(config.sources[name]) && pools[name] == SourcePools(config.sources[name])
        decreases todo
      {
        var name :| name in todo;
        if !SourceHasPools(config.sources[name]) {
          return false, free;
        }
        pools := pools[name := SourcePools(config.sources[name])];
        todo := todo - {name};
      }
      assert pools == PoolsBySource(config.sources);
      var probed: map<string, Option<int>> := *;
      free := probed;
      ready := headroom.Allows(RecordsOf(candidate.Value()), pools, probed);
    }

    method ReadyForResume() returns (ready: bool, ghost free: map<string, Option<int>>)
      requires Valid()
      ensures ready ==> state.Value().WithinCapacity() && PhysicalReady(config, state.Value(), free)
    {
      hide Legal, CandidateInv, PhysicalReady, Ledger.Keyed;
      free := map[];
      if !state.Value().WithinCapacity() {
        return false, free;
      }
      ready, free := PhysicallyReady(state);
      if ready {
        ready := *;
      }
    }

    // One operation.

    /** The operation is the transfer of this hash for this source. */
    ghost predicate Drives(op: string, hash: string, source: Source)
      reads state
    {
      && state.Value().Has(op) && HashOf(state.Value(), op) == Some(hash)
      && state.reservations.at[op].source in config.sources
      && config.sources[state.reservations.at[op].source] == source
    }

    /** Since the last write or effect its torrent was seen running, or stopped, under its own tag. */
    ghost predicate SeesRunning(op: string)
      reads this`sight, state
    {
      && state.Value().Has(op) && OwnSight(config, state.Value().EntryOf(op), op, sight)
      && sight.torrent.state in ACTIVE_STATES
    }

    ghost predicate SeesStopped(op: string)
      reads this`sight, state
    {
      && state.Value().Has(op) && OwnSight(config, state.Value().EntryOf(op), op, sight)
      && StoppedState(sight.torrent.state)
    }

    lemma SawOwn(op: string, hash: string, source: Source)
      requires Drives(op, hash, source) && Saw(hash, source, {Owner(op)})
      ensures OwnSight(config, state.Value().EntryOf(op), op, sight)
    {
    }

    method EnsureMusicCandidate(op: string) returns (ok: bool)
      requires Valid()
      modifies this`durable, this`armed, this`trace, this`sight, this`storeFailed, state
      ensures Valid() && old(trace) <= trace && Handled(old(state.Value()), state.Value(), op)
      ensures old(storeFailed) ==> storeFailed
      ensures op in old(state.reservations.at) ==>
        op in state.reservations.at && state.reservations.at[op] == old(state.reservations).at[op]
    {
      HandledNothing(state.Value(), op);
      if op !in state.reservations.at {
        return false;
      }
      var name := state.reservations.at[op].source;
      if name !in config.sources || config.sources[name].publicationManaged {
        return true;
      }
      if !config.sources[name].musicManaged {
        return false;
      }
      var known: bool, now: int := *, *;
      if !known {
        return false;
      }
      MusicStepHealthy(state.Value(), op, now);
      hide Legal, CandidateInv, Healthy, OthersKept, Apply, Ledger.Keyed, StepCloneCondition;
      ghost var before := state.Value();
      var outcome := Record(op, EnsureMusic(now));
      if outcome == Persisted {
        AppliedState(before, op, EnsureMusic(now), state.Value());
      }
      return outcome == Persisted;
    }

    /** Resumes an operation whose resume intent is durable, and confirms it only on sight. */
    method RecoverResume(op: string, record: Reservation) returns (r: Result<()>)
      requires Valid() && state.Value().Has(op)
      requires SameTransfer(state.reservations.at[op], record)
               && state.reservations.at[op].state == ResumeIntentRecorded
      modifies this, state
      ensures Valid() && old(trace) <= trace && Handled(old(state.Value()), state.Value(), op)
      ensures old(storeFailed) ==> storeFailed
      ensures r.Raised? && old(Healthy(state.Value())) ==> storeFailed
      ensures log == old(log) || log == old(log) + [StartEffect(op)]
    {
      hide Legal, CandidateInv, Healthy, OthersKept, Apply, Ledger.Keyed, Handled, PhysicalReady, Ledger.WithinCapacity,
           MachineInv, CloneInv;
      ghost var before := state.Value();
      HandledNothing(before, op);
      KeyedReservation(before, op);
      var ready, free := ReadyForResume();
      if state.quiescing || !ready || record.torrentHash.None? || record.source !in config.sources {
        return Ok(());
      }
      hide OwnSight;
      var source := config.sources[record.source];
      var hash := record.torrentHash.value;
      var active := ObserveOrResume(op, hash, record.reservationId, source, free);
      if active {
        r := ConfirmActive(op);
        return;
      }
      return Ok(());
    }

    /** Starts only a torrent that was just seen stopped under its own tag. */
    method ObserveOrResume(op: string, hash: string, reservationId: string, source: Source, ghost free: map<string,
                           Option<int>>) returns (active: bool)
      requires Valid() && reservationId == Owner(op) && Drives(op, hash, source)
      requires state.reservations.at[op].state == ResumeIntentRecorded
      requires !state.quiescing && state.Value().WithinCapacity() && PhysicalReady(config, state.Value(), free)
      modifies this`torrents, this`trace, this`sight, this`log
      ensures Valid() && old(trace) <= trace
      ensures active ==> SeesRunning(op)
      ensures log == old(log) || log == old(log) + [StartEffect(op)]
    {
      hide Legal, CandidateInv, Ledger.Keyed, PhysicalReady, Ledger.WithinCapacity, EnvironmentStep, OwnSight;
      var observed := ObserveActive(hash, reservationId, source);
      active := observed.Activity? && observed.active;
      if observed.Activity? {
        SawOwn(op, hash, source);
      }
      if observed.Activity? && !observed.active {
        var resumed := Resume(op, free);
        active := false;
        if resumed {
          var again := ObserveActive(hash, reservationId, source);
          active := again.Activity? && again.active;
          if active {
            SawOwn(op, hash, source);
          }
        }
      }
    }

    method ConfirmActive(op: string) returns (r: Result<()>)
      requires Valid() && state.Value().Has(op) && state.reservations.at[op].state == ResumeIntentRecorded
      requires SeesRunning(op)
      modifies this`durable, this`armed, this`trace, this`sight, this`storeFailed, state
      ensures Valid() && old(trace) <= trace && Handled(old(state.Value()), state.Value(), op)
      ensures old(storeFailed) ==> storeFailed
      ensures r.Raised? && old(Healthy(state.Value())) ==> storeFailed
    {
      ghost var before := state.Value();
      hide Legal, CandidateInv, Healthy, Handled, Ledger.Keyed, OwnSight;
      var outcome := Confirm(op, MarkActive);
      return if outcome == Persisted then Ok(()) else Raised;
    }

    /** Stops only a torrent that was just seen running under its own tag. */
    method ObserveOrPause(op: string, hash: string, reservationId: string, source: Source) returns (paused: bool)
      requires Valid() && reservationId == Owner(op) && Drives(op, hash, source)
      requires state.reservations.at[op].state in {PauseIntentRecorded, FreezeIntentRecorded}
      modifies this`torrents, this`trace, this`sight, this`log
      ensures Valid() && old(trace) <= trace
      ensures paused ==> SeesStopped(op)
      ensures log == old(log) || log == old(log) + [StopEffect(op)]
      ensures AskedSince(trace, old(|trace|), hash)
    {
      hide Legal, CandidateInv, Ledger.Keyed, EnvironmentStep, OwnSight;
      var observed := ObserveActive(hash, reservationId, source);
      paused := observed.Activity? && !observed.active;
      if observed.Activity? {
        SawOwn(op, hash, source);
      }
      if observed.Activity? && observed.active {
        var stopped := Pause(op);
        if stopped {
          var after := ObserveActive(hash, reservationId, source);
          paused := after.Activity? && !after.active;
          if paused {
            SawOwn(op, hash, source);
          }
        }
      }
    }

    method RecoverPause(op: string) returns (r: Result<bool>)
      requires Valid()
      modifies this, state
      ensures Valid() && old(trace) <= trace && Handled(old(state.Value()), state.Value(), op)
      ensures old(storeFailed) ==> storeFailed
      ensures r.Raised? && old(Healthy(state.Value())) ==> storeFailed
      ensures r == Ok(true) ==> op in state.reservations.at && state.reservations.at[op].state == QbittorrentPaused
      ensures r == Ok(true) ==> old(CloneInv(state.Value()))
      ensures log == old(log) || log == old(log) + [StopEffect(op)]
      ensures old(op in state.reservations.at && state.reservations.at[op].state == PauseIntentRecorded
                  && Awaited(config, state.reservations.at[op])) ==>
        AskedSince(trace, old(|trace|), old(state.reservations).at[op].torrentHash.value)
      ensures old(op in state.reservations.at && state.reservations.at[op].state == PauseIntentRecorded) ==>
        op in state.reservations.at && state.reservations.at[op].state in {PauseIntentRecorded, QbittorrentPaused}
    {
      hide Legal, CandidateInv, Ledger.Keyed, Handled, Healthy, Apply, MachineInv, CloneInv, OwnSight;
      HandledNothing(state.Value(), op);
      if op !in state.reservations.at || state.reservations.at[op].source !in config.sources {
        return Ok(false);
      }
      var reservation := state.reservations.at[op];
      if reservation.state != PauseIntentRecorded || reservation.torrentHash.None? {
        return Ok(false);
      }
      KeyedReservation(state.Value(), op);
      var paused := ObserveOrPause(op, reservation.torrentHash.value, reservation.reservationId,
                                   config.sources[reservation.source]);
      if !paused {
        return Ok(false);
      }
      ghost var before := state.Value();
      HealthyCopies(before);
      var outcome := Confirm(op, MarkPaused);
      if outcome == Persisted {
        AppliedState(before, op, MarkPaused, state.Value());
      }
      return if outcome == Uncopied || outcome == Unsaved then Raised else Ok(outcome == Persisted);
    }

    method RecoverFreeze(op: string) returns (r: Result<bool>)
      requires Valid()
      modifies this, state
      ensures Valid() && old(trace) <= trace && Handled(old(state.Value()), state.Value(), op)
      ensures old(storeFailed) ==> storeFailed
      ensures r.Raised? && old(Healthy(state.Value())) ==> storeFailed
      ensures r == Ok(true) ==> op in state.reservations.at && state.reservations.at[op].state == QbittorrentFrozen
      ensures log == old(log) || log == old(log) + [StopEffect(op)]
      ensures old(op in state.reservations.at && state.reservations.at[op].state == FreezeIntentRecorded
                  && Awaited(config, state.reservations.at[op])) ==>
        AskedSince(trace, old(|trace|), old(state.reservations).at[op].torrentHash.value)
    {
      hide Legal, CandidateInv, Ledger.Keyed, Handled, Healthy, Apply, MachineInv, CloneInv, OwnSight;
      HandledNothing(state.Value(), op);
      if op !in state.reservations.at || state.reservations.at[op].source !in config.sources {
        return Ok(false);
      }
      var reservation := state.reservations.at[op];
      if reservation.state != FreezeIntentRecorded || reservation.torrentHash.None? {
        return Ok(reservation.state == QbittorrentFrozen);
      }
      KeyedReservation(state.Value(), op);
      var frozen := ObserveOrPause(op, reservation.torrentHash.value, reservation.reservationId,
                                   config.sources[reservation.source]);
      if !frozen {
        return Ok(false);
      }
      ghost var before := state.Value();
      HealthyCopies(before);
      var outcome := Confirm(op, MarkFrozen);
      if outcome == Persisted {
        AppliedState(before, op, MarkFrozen, state.Value());
      }
      return if outcome == Uncopied || outcome == Unsaved then Raised else Ok(outcome == Persisted);
    }

    method RecoverHistoricalActivation(op: string) returns (activated: bool)
      requires Valid()
      modifies this, state
      ensures Valid() && old(trace) <= trace && Handled(old(state.Value()), state.Value(), op)
      ensures old(storeFailed) ==> storeFailed
      ensures activated ==> op in state.activations && state.activations[op] == Managed
      ensures log == old(log) || log == old(log) + [StartEffect(op)]
      ensures log != old(log) ==>
        old(op in state.historical && HashOf(state.Value(), op).Some?
            && state.reservations.at[op].source in config.sources)
      ensures log != old(log) ==>
        SeenStopped(trace, old(|trace|), old(HashOf(state.Value(), op).value), op,
                    config.sources[old(state.reservations.at[op].source)], old(state.historical[op].expectedBytes))
    {
      hide Legal, CandidateInv, OthersKept, Healthy, MachineInv, CloneInv, Ledger.Keyed, Handled, Apply, PhysicalReady,
           Ledger.WithinCapacity, EnvironmentStep, Step, Initial;
      HandledNothing(state.Value(), op);
      if op !in state.reservations.at || state.reservations.at[op].source !in config.sources
         || op !in state.historical {
        return false;
      }
      var reservation := state.reservations.at[op];
      var intent := state.historical[op];
      if reservation.torrentHash.None? || op !in state.activations || state.activations[op] != Intent
         || reservation.state != ActivationIntentRecorded || state.quiescing {
        return false;
      }
      KeyedReservation(state.Value(), op);
      var ready, free := ReadyForResume();
      if !ready {
        return false;
      }
      var active := ActivateExact(op, reservation, config.sources[reservation.source], intent.expectedBytes, free);
      ghost var started := trace;
      if active {
        activated := ConfirmManaged(op);
        if log != old(log) {
          SeenLater(started, trace, old(|trace|), reservation.torrentHash.value, op, config.sources[reservation.source],
                    intent.expectedBytes);
        }
        return;
      }
      return false;
    }

    method ConfirmManaged(op: string) returns (managed: bool)
      requires Valid() && SeesRunning(op) && SealedSize(state.Value().EntryOf(op), sight.torrent)
      modifies this`durable, this`armed, this`trace, this`sight, this`storeFailed, state
      ensures Valid() && Handled(old(state.Value()), state.Value(), op) && old(trace) <= trace
      ensures old(storeFailed) ==> storeFailed
      ensures managed ==> op in state.activations && state.activations[op] == Managed
    {
      hide Legal, CandidateInv, Ledger.Keyed, Healthy, Handled, Apply, OwnSight;
      ghost var before := state.Value();
      var outcome := Confirm(op, MarkHistoricalManaged);
      if outcome == Persisted {
        AppliedState(before, op, MarkHistoricalManaged, state.Value());
      }
      return outcome == Persisted;
    }

    /** A historical torrent is started only while it still has its sealed size. */
    method ActivateExact(op: string, reservation: Reservation, source: Source, expectedBytes: int,
                         ghost free: map<string, Option<int>>) returns (active: bool)
      requires Valid() && op in state.reservations.at && reservation == state.reservations.at[op]
      requires reservation.reservationId == Owner(op) && reservation.torrentHash.Some?
               && reservation.state == ActivationIntentRecorded
      requires Drives(op, reservation.torrentHash.value, source)
               && op in state.historical && state.historical[op].expectedBytes == expectedBytes
      requires !state.quiescing && state.Value().WithinCapacity() && PhysicalReady(config, state.Value(), free)
      modifies this`torrents, this`trace, this`sight, this`log
      ensures Valid() && old(trace) <= trace
      ensures active ==> SeesRunning(op) && sight.torrent.size == expectedBytes
      ensures log == old(log) || log == old(log) + [StartEffect(op)]
      ensures log != old(log) ==>
        SeenStopped(trace, old(|trace|), reservation.torrentHash.value, op, source, expectedBytes)
    {
      hide Legal, CandidateInv, Ledger.Keyed, PhysicalReady, Ledger.WithinCapacity, Qbittorrent.ObserveTaggedStopped,
           EnvironmentStep, OwnSight;
      var hash := reservation.torrentHash.value;
      var observed := ObserveActive(hash, reservation.reservationId, source);
      active := observed.Activity? && observed.active && observed.bytes == Some(expectedBytes);
      if active {
        SawOwn(op, hash, source);
      }
      if observed.Activity? && !observed.active && observed.bytes == Some(expectedBytes) {
        var stopped := ObserveTaggedStopped(hash, reservation.reservationId, source);
        if stopped.Observed? && stopped.bytes == expectedBytes {
          ghost var seen := trace;
          SawOwn(op, hash, source);
          assert SeenStopped(seen, old(|trace|), hash, op, source, expectedBytes);
          active := Resume(op, free);
          if active {
            var readback := ObserveActive(hash, reservation.reservationId, source);
            active := readback.Activity? && readback.active && readback.bytes == Some(expectedBytes);
            if active {
              SawOwn(op, hash, source);
            }
          }
          SeenLater(seen, trace, old(|trace|), hash, op, source, expectedBytes);
        }
      }
    }

    // Tagging.

    /** Sees a tag of unknown outcome; it never sends one. */
    method RecoverPostPnrTag(op: string) returns (tagged: bool)
      requires Valid()
      modifies this, state
      ensures Valid() && old(trace) <= trace && Handled(old(state.Value()), state.Value(), op)
      ensures old(storeFailed) ==> storeFailed
      ensures log == old(log)
      ensures tagged ==> op in state.reservations.at && state.reservations.at[op].state == QbittorrentStopped
      ensures old(op in state.reservations.at && (op in state.postPnr || op in state.historical)
                  && state.reservations.at[op].state == TagIntentRecorded
                  && Awaited(config, state.reservations.at[op])) ==>
        AskedSince(trace, old(|trace|), old(state.reservations).at[op].torrentHash.value)
    {
      hide Legal, CandidateInv, OthersKept, Healthy, MachineInv, CloneInv, Ledger.Keyed, Handled, Apply,
           EnvironmentStep, Qbittorrent.ObserveTaggedStopped;
      HandledNothing(state.Value(), op);
      if op !in state.reservations.at || state.reservations.at[op].source !in config.sources {
        return false;
      }
      var reservation := state.reservations.at[op];
      if (op !in state.postPnr && op !in state.historical) || reservation.state != TagIntentRecorded
         || reservation.torrentHash.None? {
        return false;
      }
      KeyedReservation(state.Value(), op);
      var observed := ObserveTaggedStopped(reservation.torrentHash.value, reservation.reservationId,
                                           config.sources[reservation.source]);
      if !observed.Observed? || (op in state.historical && observed.bytes != reservation.requestedBytes) {
        return false;
      }
      SawOwn(op, reservation.torrentHash.value, config.sources[reservation.source]);
      tagged := Account(op, observed, reservation.requestedBytes);
    }

    /** The whole lease section after a tag intent: one stopped proof, one tag, one readback. */
    method TagUnderLease(op: string, hash: string, source: Source, exactBytes: Option<int>, metadataMayBePending: bool,
                         requestedBytes: int) returns (tagged: bool)
      requires Valid() && armed == Some(op) && Drives(op, hash, source)
               && state.reservations.at[op].requestedBytes == requestedBytes
      modifies this, state
      ensures Valid() && old(trace) <= trace && Handled(old(state.Value()), state.Value(), op)
      ensures old(storeFailed) ==> storeFailed
      ensures log == old(log) || log == old(log) + [TagEffect(op)]
      ensures tagged ==>
        && state.Value().Has(op)
        && state.reservations.at[op].state == QbittorrentStopped
        && HashOf(state.Value(), op) == Some(hash)
      ensures tagged ==>
        SameTransfer(state.reservations.at[op], old(state.reservations.at[op])) && log == old(log) + [TagEffect(op)]
    {
      hide Legal, CandidateInv, OthersKept, Healthy, MachineInv, CloneInv;
      HandledNothing(state.Value(), op);
      KeyedReservation(state.Value(), op);
      hide Ledger.Keyed, Handled, Apply, EnvironmentStep, Qbittorrent.ObserveTaggedStopped,
           Qbittorrent.ObserveExistingStopped;
      var stopped := ObserveExistingStopped(hash, source);
      if !(stopped.Observed? || (metadataMayBePending && stopped.MetadataPending?))
         || !SizeMatches(stopped, exactBytes) {
        return false;
      }
      var answer := ApplyReservationTag(op);
      if !answer {
        return false;
      }
      var readback := ObserveTaggedStopped(hash, Owner(op), source);
      if !(readback.Observed? || (metadataMayBePending && readback.MetadataPending?))
         || !SizeMatches(readback, exactBytes) {
        return false;
      }
      SawOwn(op, hash, source);
      tagged := Account(op, readback, requestedBytes);
    }

    /** Records the observed tag, with the requested size while metadata is still missing. */
    method Account(op: string, o: Observation, requestedBytes: int) returns (tagged: bool)
      requires Valid() && Proven(o) && Tags(torrents, HashOf(state.Value(), op), Owner(op)) && SeesStopped(op)
      requires Reports(o, sight.torrent) && state.reservations.at[op].requestedBytes == requestedBytes
      modifies this`durable, this`armed, this`trace, this`sight, this`storeFailed, state
      ensures Valid() && old(trace) <= trace && Handled(old(state.Value()), state.Value(), op)
      ensures old(storeFailed) ==> storeFailed
      ensures tagged ==> state.Value().Has(op) && state.reservations.at[op].state == QbittorrentStopped
      ensures tagged ==> HashOf(state.Value(), op) == old(HashOf(state.Value(), op))
      ensures log == old(log)
      ensures tagged ==>
        op in old(state.reservations.at) && SameTransfer(state.reservations.at[op], old(state.reservations).at[op])
    {
      hide Legal, CandidateInv, OthersKept, Healthy, MachineInv, CloneInv, Ledger.Keyed, Handled, Apply, OwnSight;
      ghost var before := state.Value();
      var bytes := if o.Observed? then o.bytes else requestedBytes;
      var remaining := if o.Observed? then o.remaining else Some(requestedBytes);
      var outcome := Confirm(op, MarkTagged(bytes, remaining));
      tagged := outcome == Persisted;
      if tagged {
        AppliedState(before, op, MarkTagged(bytes, remaining), state.Value());
      }
    }

    method ClaimAdoption(op: string) returns (r: Result<AdoptionClaim>)
      requires Valid()
      modifies this, state
      ensures Valid() && old(trace) <= trace && Handled(old(state.Value()), state.Value(), op)
      ensures old(storeFailed) ==> storeFailed
      ensures r.Raised? ==> !old(Healthy(state.Value()))
      ensures r.Ok? && r.value.admitted ==>
        op in state.reservations.at && state.reservations.at[op].state == QbittorrentStopped
      ensures log == old(log)
              || (log == old(log) + [TagEffect(op)]
                  && old(op in state.reservations.at && state.reservations.at[op].state == GrabBound))
    {
      hide Legal, CandidateInv, OthersKept, Healthy, MachineInv;
      ghost var before := state.Value();
      HandledNothing(before, op);
      hide CloneInv, Ledger.Keyed, Handled, Apply, EnvironmentStep;
      if op !in state.reservations.at || state.reservations.at[op].source !in config.sources
         || (op !in state.postPnr && op !in state.historical) {
        return Ok(AdoptionClaim(false, Unavailable));
      }
      var reservation := state.reservations.at[op];
      var source := config.sources[reservation.source];
      if reservation.state == QbittorrentStopped {
        return Ok(AdoptionClaim(true, Adopted));
      }
      if reservation.state == TagIntentRecorded {
        var recovered := RecoverPostPnrTag(op);
        var stopped := op in state.reservations.at && state.reservations.at[op].state == QbittorrentStopped;
        return Ok(AdoptionClaim(recovered, if stopped then Adopted else Pending));
      }
      if reservation.state != GrabBound {
        return Ok(AdoptionClaim(false, ClaimConflict));
      }
      r := ClaimBound(op, reservation, source);
    }

    method ClaimPostPnr(op: string) returns (r: Result<AdoptionClaim>)
      requires Valid()
      modifies this, state
      ensures Valid() && old(trace) <= trace && Handled(old(state.Value()), state.Value(), op)
      ensures old(storeFailed) ==> storeFailed
      ensures r.Raised? ==> !old(Healthy(state.Value()))
      ensures r.Ok? && r.value.admitted ==>
        op in state.reservations.at && state.reservations.at[op].state == QbittorrentStopped
      ensures log == old(log)
              || (log == old(log) + [TagEffect(op)]
                  && old(op in state.reservations.at && state.reservations.at[op].state == GrabBound))
      ensures Shown(old(|trace|), old(state.Value()))
    {
      ghost var before := state.Value();
      Unsee();
      hide Valid, Shown;
      r := ClaimAdoption(op);
      Concludes(old(|trace|), before);
    }

    /** A claim of a bound adoption: tag intent, exact stopped proof, tag, exact readback. */
    method ClaimBound(op: string, reservation: Reservation, source: Source) returns (r: Result<AdoptionClaim>)
      requires Valid() && op in state.reservations.at && reservation == state.reservations.at[op]
      requires reservation.source in config.sources && source == config.sources[reservation.source]
      modifies this, state
      ensures Valid() && old(trace) <= trace && Handled(old(state.Value()), state.Value(), op)
      ensures old(storeFailed) ==> storeFailed
      ensures r.Raised? ==> !old(Healthy(state.Value()))
      ensures r.Ok? && r.value.admitted ==>
        op in state.reservations.at && state.reservations.at[op].state == QbittorrentStopped
      ensures log == old(log) || log == old(log) + [TagEffect(op)]
    {
      hide Legal, CandidateInv, OthersKept, Healthy, MachineInv;
      ghost var before := state.Value();
      HealthyCopies(before);
      hide CloneInv, Ledger.Keyed, Handled, Apply, EnvironmentStep;
      var outcome := Confirm(op, RequestTag);
      if outcome == Uncopied {
        return Raised;
      }
      if outcome != Persisted {
        return Ok(AdoptionClaim(false, Pending));
      }
      ghost var tagging := state.Value();
      AppliedState(before, op, RequestTag, tagging);
      var exact := if op in state.historical then Some(reservation.requestedBytes) else None;
      var tagged := TagUnderLease(op, state.reservations.at[op].torrentHash.value, source, exact, false,
                                  reservation.requestedBytes);
      HandledTransitive(before, tagging, state.Value(), op);
      return Ok(if tagged then AdoptionClaim(true, Adopted) else AdoptionClaim(false, Pending));
    }

    // Binding and recovery.

    /** The steps of one bound grab. */
    method DriveGrab(op: string, downloadId: string, torrentHash: string,
                    historyId: Option<int>) returns (r: Result<bool>)
      requires Valid() && op !in state.postPnr
      modifies this, state
      ensures Valid() && old(trace) <= trace && Swept(old(state.Value()), state.Value())
      ensures !old(ReDrives(state.Value(), op)) ==> Handled(old(state.Value()), state.Value(), op)
      ensures old(storeFailed) ==> storeFailed
      ensures r.Raised? && old(Healthy(state.Value())) ==>
        storeFailed || old(ReDrives(state.Value(), op) && Obstructed(state.Value()))
      ensures !old(ReDrives(state.Value(), op)) ==> Driven(old(log), log, op)
      ensures r == Ok(true) && old(op in state.reservations.at
                                   && state.reservations.at[op].state in {PreAdmitted, GrabBound}) ==>
        BoundActive(state.Value(), op, downloadId, torrentHash)
      ensures r == Ok(true) ==>
        BoundActive(state.Value(), op, downloadId, torrentHash)
        || old(BoundTo(state.Value(), op, downloadId, torrentHash))
      decreases if ReDrives(state.Value(), op) then 2 else 0, 2
    {
      hide Legal, CandidateInv, OthersKept, Healthy, MachineInv, CloneInv, Swept;
      ghost var before := state.Value();
      HandledNothing(before, op);
      HandledSweeps(before, before, op);
      hide Ledger.Keyed, Handled, Apply, EnvironmentStep;
      if op !in state.reservations.at || state.reservations.at[op].source !in config.sources {
        return Ok(false);
      }
      var reservation := state.reservations.at[op];
      if reservation.downloadId.Some? {
        if reservation.downloadId != Some(downloadId) || reservation.torrentHash != Some(torrentHash) {
          return Ok(false);
        }
        if reservation.state != PreAdmitted && reservation.state != GrabBound {
          r := ReDrive(op, reservation);
          return;
        }
      }
      var observed := ObserveExistingStopped(torrentHash, config.sources[reservation.source]);
      if !Proven(observed) {
        return Ok(false);
      }
      r := BindObserved(op, downloadId, torrentHash, historyId, config.sources[reservation.source], reservation);
      HandledSweeps(before, state.Value(), op);
    }

    /** Drives one observed grab from the stopped proof to an active, owned transfer.  A grab whose
        effects may already have happened is handed to recovery instead. */
    method BindGrab(op: string, downloadId: string, torrentHash: string,
                    historyId: Option<int>) returns (r: Result<bool>)
      requires Valid() && op !in state.postPnr
      modifies this, state
      ensures Valid() && old(trace) <= trace && Swept(old(state.Value()), state.Value())
      ensures !old(ReDrives(state.Value(), op)) ==> Handled(old(state.Value()), state.Value(), op)
      ensures old(storeFailed) ==> storeFailed
      ensures r.Raised? && old(Healthy(state.Value())) ==>
        storeFailed || old(ReDrives(state.Value(), op) && Obstructed(state.Value()))
      ensures !old(ReDrives(state.Value(), op)) ==> Driven(old(log), log, op)
      ensures r == Ok(true) && old(op in state.reservations.at
                                   && state.reservations.at[op].state in {PreAdmitted, GrabBound}) ==>
        BoundActive(state.Value(), op, downloadId, torrentHash)
      ensures Shown(old(|trace|), old(state.Value()))
      ensures r == Ok(true) ==> HeldAsSeen(old(|trace|), old(state.Value()), op)
      ensures r == Ok(true) ==> BoundTo(state.Value(), op, downloadId, torrentHash)
    {
      hide Shown, Swept, Handled, Obstructed, Healthy, ReDrives, Driven, HeldAsSeen;
      ghost var before := state.Value();
      Unsee();
      hide Valid;
      r := DriveGrab(op, downloadId, torrentHash, historyId);
      Concludes(old(|trace|), before);
      if r == Ok(true) {
        FreshlyHeld(old(|trace|), before, op, downloadId, torrentHash);
        StaysBound(old(|trace|), before, op, downloadId, torrentHash);
      }
    }

    /** A grab that was not tagged before was seen stopped under its own tag in this call, and holds
        at least the size seen. */
    ghost predicate HeldAsSeen(since: nat, before: Ledger, op: string)
      requires Valid()
      reads this, state
    {
      op in before.reservations.at && before.reservations.at[op].state in {PreAdmitted, GrabBound} ==>
        && op in state.reservations.at
        && ShownBetween(config, Accounted, state.reservations.at[op], op, trace, since, |trace| - 1)
    }

    lemma StaysBound(since: nat, before: Ledger, op: string, downloadId: string, torrentHash: string)
      requires Valid() && since < |trace| && trace[since].durable == before
      requires BoundTo(before, op, downloadId, torrentHash) || BoundActive(state.Value(), op, downloadId, torrentHash)
      ensures BoundTo(state.Value(), op, downloadId, torrentHash)
    {
      hide Legal, CandidateInv, Ledger.Keyed;
      if BoundTo(before, op, downloadId, torrentHash) {
        BindingStays(config, trace, since, |trace| - 1, op, downloadId, torrentHash);
      }
    }

    lemma FreshlyHeld(since: nat, before: Ledger, op: string, downloadId: string, torrentHash: string)
      requires Valid() && Shown(since, before)
      requires op in before.reservations.at && before.reservations.at[op].state in {PreAdmitted, GrabBound} ==>
        BoundActive(state.Value(), op, downloadId, torrentHash)
      ensures HeldAsSeen(since, before, op)
    {
      hide Legal, CandidateInv, Ledger.Keyed, ShownBetween;
      if op in before.reservations.at && before.reservations.at[op].state in {PreAdmitted, GrabBound} {
        assert ReachedIn(Accounted, state.Value(), op) && !ReachedIn(Accounted, before, op);
      }
    }

    /** A grab past its tag intent is only recovered, never driven again. */
    method ReDrive(op: string, reservation: Reservation) returns (r: Result<bool>)
      requires Valid() && op in state.reservations.at && reservation == state.reservations.at[op]
      requires reservation.downloadId.Some? && reservation.state != PreAdmitted && reservation.state != GrabBound
      modifies this, state
      ensures Valid() && old(trace) <= trace && Swept(old(state.Value()), state.Value())
      ensures !old(ReDrives(state.Value(), op)) ==> Handled(old(state.Value()), state.Value(), op)
      ensures old(storeFailed) ==> storeFailed
      ensures r.Raised? && old(Healthy(state.Value())) ==>
        storeFailed || old(ReDrives(state.Value(), op) && Obstructed(state.Value()))
      ensures !old(ReDrives(state.Value(), op)) ==> log == old(log)
      decreases if ReDrives(state.Value(), op) then 2 else 0, 1
    {
      hide Legal, CandidateInv, OthersKept, Healthy, MachineInv, CloneInv, Swept;
      ghost var before := state.Value();
      HandledNothing(before, op);
      HandledSweeps(before, before, op);
      hide Ledger.Keyed, Handled, Apply;
      if reservation.state in {TagIntentRecorded, QbittorrentStopped, ResumeIntentRecorded} {
        var recovered := RecoverRecords();
        if recovered.Raised? {
          return Raised;
        }
      }
      if reservation.state !in {TagIntentRecorded, QbittorrentStopped, ResumeIntentRecorded, QbittorrentActive,
                                Terminal, Released} {
        return Ok(false);
      }
      ghost var middle := state.Value();
      var probing := EnsureMusicCandidate(op);
      SweptThenHandled(before, middle, state.Value(), op);
      return Ok(probing);
    }

    /** Bind, tag intent, tag, resume intent, resume: each intent durable before its effect. */
    method BindObserved(op: string, downloadId: string, torrentHash: string, historyId: Option<int>, source: Source,
                        reservation: Reservation) returns (r: Result<bool>)
      requires Valid() && op !in state.postPnr && op in state.reservations.at
               && reservation == state.reservations.at[op]
      requires reservation.source in config.sources && source == config.sources[reservation.source]
      requires Saw(torrentHash, source, {}) && StoppedState(sight.torrent.state)
      modifies this, state
      ensures Valid() && old(trace) <= trace && Handled(old(state.Value()), state.Value(), op)
      ensures old(storeFailed) ==> storeFailed
      ensures r.Raised? && old(Healthy(state.Value())) ==> storeFailed
      ensures Driven(old(log), log, op)
      ensures r == Ok(true) ==> BoundActive(state.Value(), op, downloadId, torrentHash)
    {
      hide Legal, CandidateInv, OthersKept, Healthy, MachineInv;
      ghost var before := state.Value();
      HealthyCopies(before);
      hide CloneInv, Ledger.Keyed, Handled, Apply;
      var bound := Confirm(op, BindObservedGrab(downloadId, torrentHash, historyId));
      if bound != Persisted {
        return if bound == Refused then Ok(false) else Raised;
      }
      ghost var binding := state.Value();
      AppliedState(before, op, BindObservedGrab(downloadId, torrentHash, historyId), binding);
      HandledFacts(before, binding, op);
      r := TagBound(op, torrentHash, source, reservation);
      HandledTransitive(before, binding, state.Value(), op);
    }

    method TagBound(op: string, torrentHash: string, source: Source, reservation: Reservation) returns (r: Result<bool>)
      requires Valid() && op !in state.postPnr && Drives(op, torrentHash, source)
               && state.reservations.at[op].requestedBytes == reservation.requestedBytes
      modifies this, state
      ensures Valid() && old(trace) <= trace && Handled(old(state.Value()), state.Value(), op)
      ensures old(storeFailed) ==> storeFailed
      ensures r.Raised? && old(Healthy(state.Value())) ==> storeFailed
      ensures Driven(old(log), log, op)
      ensures r == Ok(true) ==> StillRuns(old(state.Value()), state.Value(), op)
    {
      hide Legal, CandidateInv, OthersKept, Healthy, MachineInv, CloneInv, Ledger.Keyed, Handled, Apply, Driven;
      ghost var before := state.Value();
      NothingDriven(log, op);
      var tagged := TagIntended(op, torrentHash, source, reservation.requestedBytes);
      ghost var owned := state.Value();
      HandledFacts(before, owned, op);
      if tagged != Ok(true) {
        return tagged;
      }
      ghost var sent := log;
      r := ResumeBound(op, torrentHash, source);
      HandledTransitive(before, owned, state.Value(), op);
      DrivenOn(old(log), sent, log, op);
    }

    /** The tag intent is durable before the lease section that may send the tag. */
    method TagIntended(op: string, torrentHash: string, source: Source, requestedBytes: int) returns (r: Result<bool>)
      requires Valid() && Drives(op, torrentHash, source)
               && state.reservations.at[op].requestedBytes == requestedBytes
      modifies this, state
      ensures Valid() && old(trace) <= trace && Handled(old(state.Value()), state.Value(), op)
      ensures old(storeFailed) ==> storeFailed
      ensures r.Raised? && old(Healthy(state.Value())) ==> storeFailed
      ensures log == old(log) || log == old(log) + [TagEffect(op)]
      ensures r == Ok(true) ==>
        && state.Value().Has(op)
        && SameTransfer(state.reservations.at[op], old(state.reservations.at[op]))
        && state.reservations.at[op].state == QbittorrentStopped
      ensures r == Ok(true) ==> log == old(log) + [TagEffect(op)]
    {
      hide Legal, CandidateInv, OthersKept, Healthy, MachineInv, CloneInv, Ledger.Keyed, Handled, Apply;
      ghost var before := state.Value();
      HealthyCopies(before);
      var intended := Confirm(op, RequestTag);
      if intended != Persisted {
        return if intended == Refused then Ok(false) else Raised;
      }
      ghost var tagging := state.Value();
      AppliedState(before, op, RequestTag, tagging);
      var tagged := TagUnderLease(op, torrentHash, source, None, true, requestedBytes);
      HandledTransitive(before, tagging, state.Value(), op);
      return Ok(tagged);
    }

    method ResumeBound(op: string, torrentHash: string, source: Source) returns (r: Result<bool>)
      requires Valid() && op !in state.postPnr && Drives(op, torrentHash, source)
      modifies this, state
      ensures Valid() && old(trace) <= trace && Handled(old(state.Value()), state.Value(), op)
      ensures old(storeFailed) ==> storeFailed
      ensures r.Raised? && old(Healthy(state.Value())) ==> storeFailed
      ensures log == old(log) || log == old(log) + [StartEffect(op)]
      ensures r == Ok(true) ==> StillRuns(old(state.Value()), state.Value(), op)
    {
      hide Legal, CandidateInv, OthersKept, Healthy, MachineInv, CloneInv, Ledger.Keyed, Handled, Apply, PhysicalReady,
           Ledger.WithinCapacity;
      ghost var before := state.Value();
      HandledNothing(before, op);
      HealthyCopies(before);
      if !state.Value().WithinCapacity() {
        return Ok(false);
      }
      var ready, free := PhysicallyReady(state);
      if !ready {
        return Ok(false);
      }
      var resuming := Confirm(op, RequestResume);
      if resuming != Persisted {
        return if resuming == Refused then Ok(false) else Raised;
      }
      ghost var intended := state.Value();
      ResumeKeepsReadiness(config, before, op, free);
      AppliedState(before, op, RequestResume, intended);
      HandledFacts(before, intended, op);
      r := StartBound(op, torrentHash, source, free);
      HandledTransitive(before, intended, state.Value(), op);
    }

    method StartBound(op: string, torrentHash: string, source: Source, ghost free: map<string,
                      Option<int>>) returns (r: Result<bool>)
      requires Valid() && Drives(op, torrentHash, source)
      requires state.reservations.at[op].state == ResumeIntentRecorded
      requires !state.quiescing && state.Value().WithinCapacity() && PhysicalReady(config, state.Value(), free)
      modifies this, state
      ensures Valid() && old(trace) <= trace && Handled(old(state.Value()), state.Value(), op)
      ensures old(storeFailed) ==> storeFailed
      ensures r.Raised? && old(Healthy(state.Value())) ==> storeFailed
      ensures log == old(log) || log == old(log) + [StartEffect(op)]
      ensures r == Ok(true) ==> StillRuns(old(state.Value()), state.Value(), op)
    {
      HandledNothing(state.Value(), op);
      hide Legal, CandidateInv, OthersKept, Healthy, MachineInv, CloneInv, Ledger.Keyed, Handled, Apply, PhysicalReady,
           Ledger.WithinCapacity;
      var active := ObserveOrResume(op, torrentHash, Owner(op), source, free);
      if !active {
        return Ok(false);
      }
      r := ConfirmBound(op);
    }

    method ConfirmBound(op: string) returns (r: Result<bool>)
      requires Valid() && SeesRunning(op)
      modifies this`durable, this`armed, this`trace, this`sight, this`storeFailed, state
      ensures Valid() && old(trace) <= trace && Handled(old(state.Value()), state.Value(), op)
      ensures old(storeFailed) ==> storeFailed
      ensures r.Raised? && old(Healthy(state.Value())) ==> storeFailed
      ensures r == Ok(true) ==> StillRuns(old(state.Value()), state.Value(), op)
    {
      hide Legal, CandidateInv, OthersKept, Healthy, MachineInv;
      ghost var before := state.Value();
      HealthyCopies(before);
      hide CloneInv, Ledger.Keyed, Handled, Apply;
      var confirmed := Confirm(op, MarkActive);
      if confirmed != Persisted {
        return if confirmed == Refused then Ok(false) else Raised;
      }
      ghost var active := state.Value();
      AppliedState(before, op, MarkActive, active);
      var probing := EnsureMusicCandidate(op);
      HandledTransitive(before, active, state.Value(), op);
      return Ok(probing);
    }

    /** Recovers one record whose snapshot is still current. */
    method HandleRecord(record: Reservation) returns (r: Result<()>)
      requires Valid() && record.operationId in state.reservations.at
               && state.reservations.at[record.operationId] == record
      modifies this, state
      ensures Valid() && old(trace) <= trace && Reconciled(old(state.Value()), state.Value(), record.operationId)
      ensures old(storeFailed) ==> storeFailed
      ensures r.Raised? && old(Healthy(state.Value())) ==>
        storeFailed || old(Obstructs(state.Value(), record.operationId))
      ensures Logged(old(log), log, record)
      ensures r.Ok? ==> Attended(config, record, state.Value(), trace, old(|trace|))
      decreases 1, 0
    {
      hide Legal, CandidateInv, OthersKept, Healthy, MachineInv, CloneInv, Ledger.Keyed, Handled, Reconciled,
           PauseSpoils, Apply, AskedSince;
      ghost var before := state.Value();
      var op := record.operationId;
      HandledNothing(before, op);
      HealthyCopies(before);
      KeyedReservation(before, op);
      var adopted := op in state.postPnr || op in state.historical;
      r := Ok(());
      if state.quiescing && (record.state == QbittorrentActive || record.state == QbittorrentManaged) {
        var paused := PauseOne(op);
        r := if paused.Ok? then Ok(()) else Raised;
      } else if record.state == ActivationIntentRecorded {
        var activated := RecoverHistoricalActivation(op);
      } else if record.state == GrabBound {
        if adopted {
          var claimed := ClaimAdoption(op);
          r := if claimed.Ok? then Ok(()) else Raised;
        } else if record.downloadId.Some? && record.torrentHash.Some? {
          var bound := DriveGrab(op, record.downloadId.value, record.torrentHash.value, None);
          r := if bound.Ok? then Ok(()) else Raised;
        }
      } else if record.state in {TagIntentRecorded, PauseIntentRecorded, FreezeIntentRecorded} {
        r := HandleAwaited(record);
      } else if record.state == QbittorrentStopped {
        if !adopted {
          ghost var ready, free;
          r, ready, free := ResumeStopped(op, record);
        }
      } else if record.state == ResumeIntentRecorded {
        if !state.quiescing {
          r := RecoverResume(op, record);
        }
      } else if record.state == QbittorrentActive {
        var probing := EnsureMusicCandidate(op);
      }
      HandledReconciles(before, state.Value(), op);
      ReconciledShape(before, state.Value(), op);
    }

    /** A record whose tag, pause or freeze has an open outcome. */
    method HandleAwaited(record: Reservation) returns (r: Result<()>)
      requires Valid() && record.operationId in state.reservations.at
               && state.reservations.at[record.operationId] == record
      requires record.state in {TagIntentRecorded, PauseIntentRecorded, FreezeIntentRecorded}
      modifies this, state
      ensures Valid() && old(trace) <= trace && Handled(old(state.Value()), state.Value(), record.operationId)
      ensures old(storeFailed) ==> storeFailed
      ensures r.Raised? && old(Healthy(state.Value())) ==>
        storeFailed || (old(state.quiescing) && record.state == TagIntentRecorded
                        && old(record.operationId !in state.postPnr && record.operationId !in state.historical))
      ensures log in {old(log), old(log) + [StartEffect(record.operationId)],
                      old(log) + [StopEffect(record.operationId)]}
      ensures Awaited(config, record) ==> AskedSince(trace, old(|trace|), record.torrentHash.value)
    {
      hide Legal, CandidateInv, Healthy, MachineInv, CloneInv, Ledger.Keyed, Handled, Apply, AskedSince;
      var op := record.operationId;
      if record.state == TagIntentRecorded {
        if op in state.postPnr || op in state.historical {
          var tagged := RecoverPostPnrTag(op);
          r := Ok(());
        } else {
          r := RecoverTag(op, record);
        }
      } else if record.state == PauseIntentRecorded {
        var paused := RecoverPause(op);
        r := if paused.Ok? then Ok(()) else Raised;
      } else {
        var frozen := RecoverFreeze(op);
        r := if frozen.Ok? then Ok(()) else Raised;
      }
    }

    /** One record after the other, each as the snapshot has it. */
    method RecoverRecords() returns (r: Result<()>)
      requires Valid()
      modifies this, state
      ensures Valid() && old(trace) <= trace && Swept(old(state.Value()), state.Value())
      ensures old(storeFailed) ==> storeFailed
      ensures r.Raised? && old(Healthy(state.Value())) ==> storeFailed || old(Obstructed(state.Value()))
      ensures r.Ok? ==> AllAttended(config, old(state.Value()), state.Value(), trace, old(|trace|))
      decreases 1, 1
    {
      hide Legal, CandidateInv, OthersKept, Healthy, MachineInv, Ledger.Keyed, Handled, Reconciled, Apply, Obstructed,
           Obstructs, Swept;
      ghost var before := state.Value();
      var records := RecordsOf(state.Value());
      SweepBegins(before);
      SweepShows(records, 0, before, before);
      hide Sweeping, AllAttended, Attended;
      var i := 0;
      while i < |records|
        invariant 0 <= i <= |records| && Valid() && old(trace) <= trace
        invariant Sweeping(records, i, before, state.Value())
        invariant AttendedUpTo(config, records, i, state.Value(), trace, old(|trace|))
        invariant old(storeFailed) ==> storeFailed
        decreases |records| - i
      {
        ghost var middle, past := state.Value(), trace;
        SweepAt(records, i, before, middle);
        SweepStops(records, i, before, middle);
        SweepCurrent(records, i, before, middle);
        r := HandleRecord(records[i]);
        SweepGoesOn(records, i, before, middle, state.Value());
        SweepShows(records, i + 1, before, state.Value());
        if r.Raised? {
          return;
        }
        ReconciledParts(middle, state.Value(), records[i].operationId);
        AttendedEarlier(config, records[i], state.Value(), trace, old(|trace|), |past|);
        AttendedNext(config, records, i, middle, state.Value(), past, trace, old(|trace|));
        i := i + 1;
      }
      SweepShows(records, i, before, state.Value());
      AttendedAll(config, before, state.Value(), trace, old(|trace|));
      return Ok(());
    }

    /** Re-drives every record of the snapshot taken on entry. */
    method Recover() returns (r: Result<()>)
      requires Valid()
      modifies this, state
      ensures Valid() && old(trace) <= trace && Swept(old(state.Value()), state.Value())
      ensures old(storeFailed) ==> storeFailed
      ensures r.Raised? && old(Healthy(state.Value())) ==> storeFailed || old(Obstructed(state.Value()))
      ensures r.Ok? ==> AllAttended(config, old(state.Value()), state.Value(), trace, old(|trace|))
      ensures Shown(old(|trace|), old(state.Value()))
    {
      ghost var before := state.Value();
      Unsee();
      hide Valid, Shown, Swept, Obstructed, Healthy, AllAttended, Attended;
      r := RecoverRecords();
      if r.Ok? { AllAttendedEarlier(config, before, state.Value(), trace, old(|trace|), old(|trace|) + 1); }
      Concludes(old(|trace|), before);
    }

    method PauseOne(op: string) returns (r: Result<bool>)
      requires Valid() && state.quiescing && op in state.reservations.at && Running(state.reservations.at[op].state)
      modifies this, state
      ensures Valid() && old(trace) <= trace && Reconciled(old(state.Value()), state.Value(), op)
      ensures old(storeFailed) ==> storeFailed
      ensures r.Raised? && old(Healthy(state.Value())) ==> storeFailed || old(PauseSpoils(state.Value(), op))
      ensures r == Ok(true) ==> op in state.reservations.at && state.reservations.at[op].state == QbittorrentPaused
      ensures r == Ok(true) && old(Healthy(state.Value())) ==> !old(PauseSpoils(state.Value(), op))
      ensures r.Ok? && old(Truthy(state.reservations.at[op].torrentHash)) ==>
        op in state.reservations.at && !Running(state.reservations.at[op].state)
      ensures log == old(log) || log == old(log) + [StopEffect(op)]
    {
      hide Legal, CandidateInv, Healthy, MachineInv, CloneInv, Ledger.Keyed, Apply, PauseSpoils, Reconciled, Handled,
           AskedSince, Awaited, OthersKept;
      ghost var before := state.Value();
      HandledNothing(before, op);
      HandledParts(before, before, op);
      var outcome := IntendPause(op);
      if outcome != Persisted {
        return if outcome == Refused then Ok(false) else Raised;
      }
      ghost var pausing := state.Value();
      r := RecoverPause(op);
      PauseComposes(before, pausing, state.Value(), op);
    }

    /** The durable intent to pause; refused only without a torrent. */
    method IntendPause(op: string) returns (outcome: Outcome)
      requires Valid() && state.quiescing && op in state.reservations.at && Running(state.reservations.at[op].state)
      modifies this`durable, this`armed, this`trace, this`sight, this`storeFailed, state
      ensures Valid() && old(trace) <= trace && OthersKept(old(state.Value()), state.Value(), op)
      ensures old(storeFailed) ==> storeFailed
      ensures outcome == Persisted ==>
        op in state.reservations.at && state.reservations.at[op].state == PauseIntentRecorded
      ensures outcome != Persisted ==> state.Value() == old(state.Value())
      ensures outcome == Refused ==> !old(Truthy(state.reservations.at[op].torrentHash))
      ensures outcome == Unsaved ==> storeFailed
      ensures outcome == Uncopied ==> !old(Healthy(state.Value()))
      ensures old(Healthy(state.Value()) && !PauseSpoils(state.Value(), op)) ==> Healthy(state.Value())
      ensures outcome == Persisted && old(Healthy(state.Value()) && PauseSpoils(state.Value(), op)) ==>
        !CloneInv(state.Value())
    {
      hide Legal, CandidateInv, Healthy, MachineInv, CloneInv, Ledger.Keyed, Apply, PauseSpoils, OthersKept;
      ghost var before := state.Value();
      PausingReconciled(before, op);
      PauseCopies(before, op);
      PauseRefused(before, op);
      outcome := Record(op, RequestPause);
      if outcome == Persisted {
        PauseRecorded(before, op, state.Value());
      }
    }

    method RecoverTag(op: string, record: Reservation) returns (r: Result<()>)
      requires Valid() && op in state.reservations.at && state.reservations.at[op] == record && op !in state.postPnr
      requires record.state == TagIntentRecorded
      modifies this, state
      ensures Valid() && old(trace) <= trace && Handled(old(state.Value()), state.Value(), op)
      ensures old(storeFailed) ==> storeFailed
      ensures r.Raised? && old(Healthy(state.Value())) ==> storeFailed || old(state.quiescing)
      ensures log == old(log) || log == old(log) + [StartEffect(op)]
      ensures Awaited(config, record) ==> AskedSince(trace, old(|trace|), record.torrentHash.value)
    {
      hide Legal, CandidateInv, OthersKept, Healthy, MachineInv, CloneInv, Ledger.Keyed, Handled, Apply, AskedSince;
      ghost var before := state.Value();
      var tagged := AccountSeen(op, record);
      if !tagged {
        return Ok(());
      }
      ghost var owned, asked := state.Value(), trace;
      HandledFacts(before, owned, op);
      ghost var ready, free;
      r, ready, free := ResumeStopped(op, state.reservations.at[op]);
      HandledTransitive(before, owned, state.Value(), op);
      if Awaited(config, record) {
        AskedLater(asked, trace, old(|trace|), record.torrentHash.value);
      }
    }

    /** Accounts a tag of unknown outcome once it is seen. */
    method AccountSeen(op: string, record: Reservation) returns (tagged: bool)
      requires Valid() && op in state.reservations.at && state.reservations.at[op] == record
      requires record.state == TagIntentRecorded
      modifies this, state
      ensures Valid() && old(trace) <= trace && Handled(old(state.Value()), state.Value(), op) && log == old(log)
      ensures old(storeFailed) ==> storeFailed
      ensures tagged ==> op in state.reservations.at && state.reservations.at[op].state == QbittorrentStopped
      ensures Awaited(config, record) ==> AskedSince(trace, old(|trace|), record.torrentHash.value)
    {
      hide Legal, CandidateInv, OthersKept, Healthy, MachineInv, CloneInv, AskedSince;
      ghost var before := state.Value();
      HandledNothing(before, op);
      KeyedReservation(before, op);
      hide Ledger.Keyed, Handled, Apply, EnvironmentStep, Qbittorrent.ObserveTaggedStopped;
      if record.source !in config.sources || record.torrentHash.None? {
        return false;
      }
      var observed := ObserveTaggedStopped(record.torrentHash.value, record.reservationId,
                                           config.sources[record.source]);
      ghost var asked := trace;
      if !Proven(observed) {
        return false;
      }
      SawOwn(op, record.torrentHash.value, config.sources[record.source]);
      tagged := Account(op, observed, record.requestedBytes);
      AskedLater(asked, trace, old(|trace|), record.torrentHash.value);
    }

    method ResumeStopped(op: string, record: Reservation) returns (r: Result<()>, ghost ready: bool,
                         ghost free: map<string, Option<int>>)
      requires Valid() && op in state.reservations.at && state.reservations.at[op] == record && op !in state.postPnr
      requires record.state == QbittorrentStopped
      modifies this, state
      ensures Valid() && old(trace) <= trace && Handled(old(state.Value()), state.Value(), op)
      ensures old(storeFailed) ==> storeFailed
      ensures r.Raised? && old(Healthy(state.Value())) ==> storeFailed || old(state.quiescing)
      ensures old(Healthy(state.Value()) && state.quiescing) ==>
        (r.Raised? <==> ready) && state.Value() == old(state.Value())
      ensures ready ==> old(state.Value().WithinCapacity()) && PhysicalReady(config, old(state.Value()), free)
      ensures log == old(log) || log == old(log) + [StartEffect(op)]
    {
      hide Legal, CandidateInv, OthersKept, Healthy, MachineInv, CloneInv, Ledger.Keyed, Handled, Apply, PhysicalReady,
           Ledger.WithinCapacity;
      ghost var before := state.Value();
      HandledNothing(before, op);
      HealthyResumes(before, op);
      var able, probed := ReadyForResume();
      ready, free := able, probed;
      if !able {
        return Ok(()), ready, free;
      }
      var outcome := Confirm(op, RequestResume);
      if outcome != Persisted {
        return Raised, ready, free;
      }
      ghost var intended := state.Value();
      AppliedState(before, op, RequestResume, intended);
      HandledFacts(before, intended, op);
      r := RecoverResume(op, record);
      HandledTransitive(before, intended, state.Value(), op);
    }

    // Completion and custody.

    method ObserveTransfer(op: string) returns (r: Result<Option<TerminalMessage>>)
      requires Valid()
      modifies this, state
      ensures Valid() && old(trace) <= trace && OthersKept(old(state.Value()), state.Value(), op)
      ensures r.Ok? && r.value.Some? ==>
        && op in state.reservations.at && TerminalOf(state.reservations.at[op]) == Ok(r.value.value)
        && (old(op in state.reservations.at && state.reservations.at[op].state in {Terminal, QbittorrentFrozen}) ==>
              state.Value() == old(state.Value()))
    {
      hide Legal, CandidateInv, Healthy, MachineInv, CloneInv;
      ghost var before := state.Value();
      HandledNothing(before, op);
      if op !in state.reservations.at {
        return Ok(None);
      }
      var reservation := state.reservations.at[op];
      if reservation.source in config.sources && !config.sources[reservation.source].publicationManaged {
        return Ok(None);
      }
      if reservation.state == Terminal || reservation.state == QbittorrentFrozen {
        var held := TerminalOf(reservation);
        return if held.Ok? then Ok(Some(held.value)) else Raised;
      }
      if reservation.state != QbittorrentActive || reservation.torrentHash.None?
         || reservation.source !in config.sources {
        return Ok(None);
      }
      KeyedReservation(before, op);
      hide OthersKept, Ledger.Keyed, EnvironmentStep, Handled, TerminalOf, OwnSight;
      var terminal := ObserveTerminal(reservation.torrentHash.value, reservation.reservationId,
                                      config.sources[reservation.source]);
      if !terminal.Activity? || !terminal.active {
        return Ok(None);
      }
      SawOwn(op, reservation.torrentHash.value, config.sources[reservation.source]);
      r := CompleteObserved(op);
    }

    /** Answers the terminal message only once the completion is durable. */
    method Observe(op: string) returns (r: Result<Option<TerminalMessage>>)
      requires Valid()
      modifies this, state
      ensures Valid() && old(trace) <= trace && OthersKept(old(state.Value()), state.Value(), op)
      ensures r.Ok? && r.value.Some? ==>
        && op in state.reservations.at && TerminalOf(state.reservations.at[op]) == Ok(r.value.value)
        && (old(op in state.reservations.at && state.reservations.at[op].state in {Terminal, QbittorrentFrozen}) ==>
              state.Value() == old(state.Value()))
      ensures Shown(old(|trace|), old(state.Value()))
    {
      ghost var before := state.Value();
      Unsee();
      hide Valid, TerminalOf, Shown, OthersKept;
      r := ObserveTransfer(op);
      Concludes(old(|trace|), before);
    }

    method CompleteObserved(op: string) returns (r: Result<Option<TerminalMessage>>)
      requires Valid() && Tags(torrents, HashOf(state.Value(), op), Owner(op)) && state.Value().Has(op)
      requires OwnSight(config, state.Value().EntryOf(op), op, sight) && Downloaded(sight.torrent)
      modifies this`durable, this`armed, this`trace, this`sight, this`storeFailed, state
      ensures Valid() && old(trace) <= trace && OthersKept(old(state.Value()), state.Value(), op)
      ensures r.Ok? && r.value.Some? ==>
        op in state.reservations.at && TerminalOf(state.reservations.at[op]) == Ok(r.value.value)
    {
      hide Legal, CandidateInv, Healthy, MachineInv, CloneInv, OthersKept, Ledger.Keyed, Apply, TerminalOf, OwnSight;
      ghost var before := state.Value();
      var outcome := Record(op, Complete);
      if outcome != Persisted {
        return Raised;
      }
      AppliedState(before, op, Complete, state.Value());
      var held := TerminalOf(state.reservations.at[op]);
      return Ok(Some(held.value));
    }

    method FreezeTransfer(op: string) returns (r: Result<bool>)
      requires Valid()
      modifies this, state
      ensures Valid() && old(trace) <= trace && Handled(old(state.Value()), state.Value(), op)
      ensures r == Ok(true) ==> op in state.reservations.at && state.reservations.at[op].state == QbittorrentFrozen
    {
      hide Legal, CandidateInv, Healthy, MachineInv, CloneInv, OthersKept;
      ghost var before := state.Value();
      HandledNothing(before, op);
      hide Handled, Ledger.Keyed, Apply;
      if op !in state.reservations.at {
        return Ok(false);
      }
      if state.reservations.at[op].state == QbittorrentFrozen {
        return Ok(true);
      }
      if state.reservations.at[op].state != Terminal {
        return Ok(false);
      }
      var outcome := Confirm(op, RequestFreeze);
      if outcome != Persisted {
        return if outcome == Refused then Ok(false) else Raised;
      }
      ghost var freezing := state.Value();
      r := RecoverFreeze(op);
      HandledTransitive(before, freezing, state.Value(), op);
    }

    method Freeze(op: string) returns (r: Result<bool>)
      requires Valid()
      modifies this, state
      ensures Valid() && old(trace) <= trace && Handled(old(state.Value()), state.Value(), op)
      ensures r == Ok(true) ==> op in state.reservations.at && state.reservations.at[op].state == QbittorrentFrozen
      ensures Shown(old(|trace|), old(state.Value()))
    {
      ghost var before := state.Value();
      Unsee();
      hide Valid, Shown;
      r := FreezeTransfer(op);
      Concludes(old(|trace|), before);
    }

    /** A receipt is answered only after the release is durable. */
    method TakeReceipt(receipt: CustodyReceipt) returns (r: Result<bool>)
      requires Valid()
      modifies this, state
      ensures Valid() && old(trace) <= trace && OthersKept(old(state.Value()), state.Value(), receipt.operationId)
      ensures r == Ok(true) ==> CustodyHeld(state.Value(), receipt)
    {
      hide Legal, CandidateInv, Healthy, MachineInv, CloneInv, OthersKept, Ledger.Keyed, Apply;
      ghost var before := state.Value();
      var step := AcceptCustody(receipt.fenceReservationId, receipt.publisherReservationId);
      var outcome := Record(receipt.operationId, step);
      if outcome != Persisted {
        return if outcome == Refused then Ok(false) else Raised;
      }
      ReceiptApplied(before, receipt, state.Value());
      return Ok(true);
    }

    // Candidates judged dead.

    /** A torrent deleted for its verdict is released in the ledger only on a confirmed deletion. */
    method ReleaseInvalidMusic(op: string) returns (r: Result<bool>)
      requires Valid()
      modifies this, state
      ensures Valid() && old(trace) <= trace && OthersKept(old(state.Value()), state.Value(), op)
      ensures log == old(log)
              || (&& old(op in state.music && state.music[op].status == MusicInvalidated)
                  && log == old(log) + [DeleteEffect(op, old(state.music[op].deleteInvalidPayload))])
      ensures r == Ok(true) ==> op in state.music && state.music[op].status == MusicReleased
      ensures state.Value() != old(state.Value()) ==> log != old(log)
    {
      hide Legal, CandidateInv, Healthy, MachineInv, CloneInv, OthersKept, Ledger.Keyed, Handled, Apply;
      ghost var before := state.Value();
      HandledNothing(before, op);
      HandledParts(before, before, op);
      if op !in state.reservations.at || state.reservations.at[op].source !in config.sources || op !in state.music {
        return Ok(false);
      }
      var reservation := state.reservations.at[op];
      var source := config.sources[reservation.source];
      if !source.musicManaged || reservation.torrentHash.None? {
        return Ok(false);
      }
      if state.music[op].status != MusicInvalidated {
        return Ok(state.music[op].status == MusicReleased);
      }
      MusicOnly(before, op);
      hide Entry.DeletesFiles, Entry.VideoJudgedDead;
      var deleted := DeleteOwned(op, reservation.torrentHash.value, source);
      if !deleted {
        return Ok(false);
      }
      r := MarkDeleted(op);
    }

    method MarkDeleted(op: string) returns (r: Result<bool>)
      requires Valid() && LastDeleted(log, op)
      modifies this`durable, this`armed, this`trace, this`sight, this`storeFailed, state
      ensures Valid() && old(trace) <= trace && OthersKept(old(state.Value()), state.Value(), op)
      ensures r == Ok(true) ==> op in state.music && state.music[op].status == MusicReleased
    {
      hide Legal, CandidateInv, Healthy, MachineInv, CloneInv, OthersKept, Ledger.Keyed, Apply;
      ghost var before := state.Value();
      var outcome := Record(op, MarkMusicDeleted);
      if outcome == Uncopied || outcome == Unsaved {
        return Raised;
      }
      if outcome == Persisted {
        AppliedState(before, op, MarkMusicDeleted, state.Value());
        MusicOf(state.Value(), op);
      }
      return Ok(outcome == Persisted);
    }

    /** Deletes only the torrent of a candidate already judged dead, seen under its own tag. */
    method DeleteOwned(op: string, hash: string, source: Source) returns (answer: bool)
      requires Valid() && Drives(op, hash, source) && state.Value().EntryOf(op).CandidateInvalidated()
      requires state.Value().EntryOf(op).VideoJudgedDead() ==> LastBlocklisted(Now(), op)
      modifies this`torrents, this`trace, this`sight, this`log
      ensures Valid() && old(trace) <= trace
      ensures log == old(log) || log == old(log) + [DeleteEffect(op, state.Value().EntryOf(op).DeletesFiles())]
      ensures answer ==> log != old(log)
    {
      hide Legal, CandidateInv, Ledger.Keyed, EnvironmentStep, Entry.DeletesFiles, Entry.VideoJudgedDead,
           Entry.CandidateInvalidated, OwnSight;
      var seen := ObserveHealth(op, hash, source);
      if seen.None? {
        return false;
      }
      SawOwn(op, hash, source);
      answer := SendDelete(op);
    }

    method SendDelete(op: string) returns (answer: bool)
      requires Valid() && DeleteAllowed(config, Now(), op)
      modifies this`torrents, this`trace, this`sight, this`log
      ensures Valid() && old(trace) <= trace
      ensures log == old(log) + [DeleteEffect(op, state.Value().EntryOf(op).DeletesFiles())]
    {
      hide Legal, CandidateInv, Ledger.Keyed, Entry.DeletesFiles, Entry.VideoJudgedDead, Entry.CandidateInvalidated,
           OwnSight;
      var applied: bool := *;
      var hash := HashOf(state.Value(), op).value;
      log, sight := log + [DeleteEffect(op, state.Value().EntryOf(op).DeletesFiles())], Blind;
      if applied {
        torrents := torrents - {hash};
      }
      Extend(Delete(op, applied));
      answer := *;
    }

    // Video candidates.

    /** Only an exactly owned torrent answers. */
    method ObserveHealth(op: string, hash: string, source: Source) returns (o: Option<Health>)
      requires Valid()
      modifies this`torrents, this`trace, this`sight
      ensures Valid() && old(trace) <= trace && EnvironmentStep(old(torrents), torrents)
      ensures old(|trace|) < |trace|
      ensures o.Some? ==>
        && Tags(torrents, Some(hash), Owner(op)) && Saw(hash, source, {Owner(op)})
        && o == HealthOf(sight.torrent) && hash in torrents && torrents[hash] == sight.torrent
    {
      hide Legal, CandidateInv, Ledger.Keyed, EnvironmentStep;
      AskFor(hash);
      Interfere();
      if !TorrentHash(hash) || source.category == "" || source.savePath == "" || hash !in torrents
         || !OwnedExactly(torrents[hash], source.category, source.savePath, Owner(op)) {
        return None;
      }
      var answered: bool := *;
      o := if answered then HealthOf(torrents[hash]) else None;
      See(hash);
    }

    /** One more transition on the working copy of a batch. */
    static method PerformNext(candidate: FenceState, op: string, step: OpAction, ghost start: Ledger,
                              ghost steps: seq<OpAction>) returns (r: Result<()>)
      requires candidate.Valid() && start.Keyed() && ApplySteps(start, op, steps) == Ok(candidate.Value())
      modifies candidate
      ensures r.Ok? <==> ApplySteps(start, op, steps + [step]).Ok?
      ensures r.Ok? ==> candidate.Valid() && ApplySteps(start, op, steps + [step]) == Ok(candidate.Value())
    {
      hide Apply, ApplySteps;
      ApplyThen(start, op, steps, step, candidate.Value());
      hide Ledger.Keyed;
      r := Perform(candidate, op, step);
    }

    /** Takes down one answer on a working copy. */
    static method TakeDown(candidate: FenceState, op: string, h: Health, now: int) returns (r: Result<()>)
      requires candidate.Valid() && op in candidate.video
      modifies candidate
      ensures var steps := NoteSteps(old(candidate.video[op]), h, now);
        && (r.Ok? <==> ApplySteps(old(candidate.Value()), op, steps).Ok?)
        && (r.Ok? ==> candidate.Valid() && ApplySteps(old(candidate.Value()), op, steps) == Ok(candidate.Value()))
    {
      hide Apply, Stalled;
      ghost var start := candidate.Value();
      if !h.metadataKnown {
        r := PerformNext(candidate, op, RecordVideoFailure(now), start, []);
        return;
      }
      var previous := candidate.video[op];
      r := PerformNext(candidate, op, RecordVideoMetadata(h.downloaded, now), start, []);
      if r.Ok? && Stalled(previous, h) {
        r := PerformNext(candidate, op, RecordVideoFailure(now), start, [RecordVideoMetadata(h.downloaded, now)]);
      }
    }

    /** One poll on a working copy: the answer, and the verdict that it may complete. */
    static method Judge(candidate: FenceState, op: string, h: Health, policy: HealthPolicy,
                        now: int) returns (r: Result<()>)
      requires candidate.Valid() && candidate.Value().Has(op) && op in candidate.video
      modifies candidate
      ensures var steps := PollSteps(old(candidate.video[op]), h, policy, now);
        && (r.Ok? <==> ApplySteps(old(candidate.Value()), op, steps).Ok?)
        && (r.Ok? ==> candidate.Valid() && ApplySteps(old(candidate.Value()), op, steps) == Ok(candidate.Value()))
    {
      ghost var start := candidate.Value();
      var before := candidate.video[op];
      hide ApplySteps, NoteSteps, Stalled, Watching, PollRecorded, Ledger.Keyed;
      EntryParts(start, op);
      NotesReach(start, op, h, now);
      PollReaches(start, op, h, policy, now);
      r := TakeDown(candidate, op, h, now);
      if r.Raised? {
        return;
      }
      var noted := candidate.video[op];
      var overdue := if h.metadataKnown
                     then Stalled(before, h) && now - noted.lastProgressAt >= policy.noProgressTimeout
                     else now - noted.probeStartedAt >= policy.metadataTimeout;
      if overdue && noted.failureObservations >= policy.minimumFailures {
        r := PerformNext(candidate, op, InvalidateVideo(VerdictReason(h), now), start, NoteSteps(before, h, now));
      } else {
        assert NoteSteps(before, h, now) + [] == NoteSteps(before, h, now);
      }
    }

    /** Saves all transitions of one poll at once. */
    method PersistPoll(candidate: FenceState, op: string, ghost steps: seq<OpAction>) returns (saved: bool)
      requires Valid() && candidate != state && candidate.policy == config.policy && candidate.Valid()
      requires steps != [] && (forall a :: a in steps ==> Unguarded(a))
      requires ApplySteps(state.Value(), op, steps) == Ok(candidate.Value())
      modifies this`durable, this`armed, this`trace, this`sight, this`storeFailed, state
      ensures Valid() && old(trace) <= trace
      ensures state.Value() == if saved then old(candidate.Value()) else old(state.Value())
      ensures !saved ==> storeFailed
      ensures old(storeFailed) ==> storeFailed
    {
      hide Legal, Ledger.Keyed, ApplySteps, Unguarded;
      saved := *;
      if !saved {
        storeFailed := true;
        return;
      }
      StepsKeepCandidateInv(durable, op, steps);
      hide CandidateInv;
      trace := LegalSteps(config, trace, op, steps, candidate.Value());
      durable, armed, sight := candidate.Value(), None, Blind;
      state.ReplaceWith(candidate);
    }

    /** The second half of a poll: clone, judge, save. */
    method RecordHealth(op: string, h: Health, policy: HealthPolicy, now: int) returns (outcome: Outcome)
      requires Valid() && state.Value().Has(op) && op in state.video
      modifies this`durable, this`armed, this`trace, this`sight, this`storeFailed, state
      ensures Valid() && old(trace) <= trace
      ensures outcome == Persisted ==> PollRecorded(old(state.Value()), state.Value(), op, h, policy, now)
      ensures outcome != Persisted ==> state.Value() == old(state.Value())
      ensures outcome == Refused ==> !Watching(old(state.Value().EntryOf(op)), now)
      ensures outcome == Uncopied ==> !old(CloneInv(state.Value()))
      ensures outcome == Unsaved ==> storeFailed
      ensures old(storeFailed) ==> storeFailed
    {
      hide Legal, CandidateInv, Ledger.Keyed, CloneInv, ApplySteps, PollSteps, Watching, PollRecorded, Unguarded;
      EntryParts(state.Value(), op);
      PollReaches(state.Value(), op, h, policy, now);
      StepsUnguarded(state.video[op], h, policy, now);
      ghost var steps := PollSteps(state.video[op], h, policy, now);
      var copied := Copy();
      if copied.Raised? {
        return Uncopied;
      }
      var judged := Judge(copied.value, op, h, policy, now);
      if judged.Raised? {
        return Refused;
      }
      var saved := PersistPoll(copied.value, op, steps);
      outcome := if saved then Persisted else Unsaved;
    }

    /** Opens the candidate durably, looks at its torrent, and saves what that concludes; true
        means that an answer was judged. */
    method WatchVideo(op: string, source: Source, policy: HealthPolicy, now: int) returns (r: Result<bool>)
      requires Valid() && state.Value().Has(op)
      requires state.reservations.at[op].source in config.sources
               && config.sources[state.reservations.at[op].source] == source
      modifies this, state
      ensures Valid() && old(trace) <= trace
      ensures OthersKept(old(state.Value()), state.Value(), op) && state.Value().Has(op)
      ensures Looked(old(state.Value().EntryOf(op)), state.Value().EntryOf(op), policy, now)
      ensures log == old(log)
      ensures old(storeFailed) ==> storeFailed
      ensures r == Ok(true) ==> Tags(torrents, HashOf(state.Value(), op), Owner(op))
      ensures r == Ok(true) ==> op in state.video && !old(state.Value().EntryOf(op)).VideoJudgedDead()
      ensures PolledOnSight(config, old(state.Value().EntryOf(op)), state.Value().EntryOf(op), op, policy, now, trace,
                            old(|trace|))
    {
      hide Legal, CandidateInv, Healthy, MachineInv, CloneInv, OthersKept, Ledger.Keyed, Apply, Looked,
           StepCloneCondition, PolledOnSight;
      ghost var before := state.Value();
      NothingKept(before, op);
      OpenedLooked(before.EntryOf(op), policy, now);
      PolledPlainly(config, before.EntryOf(op), op, policy, now, old(|trace|));
      var probed := Record(op, EnsureVideo(now));
      if probed != Persisted {
        return Raised;
      }
      ghost var probing, sofar := state.Value(), |trace|;
      ProbeOpened(before, op, now, probing);
      EntryParts(before, op);
      EntryParts(probing, op);
      r := JudgeProbed(op, source, policy, now, before);
      OthersKeptTransitive(before, probing, state.Value(), op);
      PolledEarlier(config, before.EntryOf(op), state.Value().EntryOf(op), op, policy, now, trace, old(|trace|), sofar);
    }

    /** The open candidate is judged by what its torrent reports. */
    method JudgeProbed(op: string, source: Source, policy: HealthPolicy, now: int,
                       ghost before: Ledger) returns (r: Result<bool>)
      requires Valid() && before.Has(op) && state.Value().Has(op) && Truthy(before.reservations.at[op].torrentHash)
      requires state.Value().EntryOf(op) == before.EntryOf(op).(video := Some(Probe(before.EntryOf(op), now)))
      requires before.reservations.at[op].source in config.sources
               && config.sources[before.reservations.at[op].source] == source
      modifies this, state
      ensures Valid() && old(trace) <= trace
      ensures OthersKept(old(state.Value()), state.Value(), op) && state.Value().Has(op)
      ensures Looked(before.EntryOf(op), state.Value().EntryOf(op), policy, now)
      ensures log == old(log)
      ensures old(storeFailed) ==> storeFailed
      ensures r == Ok(true) ==> Tags(torrents, HashOf(state.Value(), op), Owner(op))
      ensures r == Ok(true) ==> op in state.video && !before.EntryOf(op).VideoJudgedDead()
      ensures PolledOnSight(config, before.EntryOf(op), state.Value().EntryOf(op), op, policy, now, trace, old(|trace|))
    {
      hide Legal, CandidateInv, Healthy, MachineInv, CloneInv, OthersKept, Ledger.Keyed, Apply, Looked, PollRecorded,
           Watching, EnvironmentStep, StepCloneCondition, PolledOnSight, JudgedBy, HealthOf;
      ghost var probing := state.Value();
      NothingKept(probing, op);
      OpenedLooked(before.EntryOf(op), policy, now);
      PolledPlainly(config, before.EntryOf(op), op, policy, now, old(|trace|));
      EntryParts(before, op);
      EntryParts(probing, op);
      var hash := state.reservations.at[op].torrentHash.value;
      var health := ObserveHealth(op, hash, source);
      if health.None? {
        return Ok(false);
      }
      ghost var seen, world := |trace| - 1, Now();
      assert trace[seen] == world;
      var recorded := RecordHealth(op, health.value, policy, now);
      if recorded != Persisted {
        return Raised;
      }
      JudgedLooked(before, probing, state.Value(), op, health.value, policy, now);
      JudgedSeen(config, before, probing, state.Value(), op, health.value, policy, now, world, source);
      assert trace[seen] == world;
      PolledBySight(config, before.EntryOf(op), state.Value().EntryOf(op), op, policy, now, trace, old(|trace|), seen);
      EntryParts(state.Value(), op);
      return Ok(true);
    }

    /** Tells Arr that the grab failed, so that it is not taken again; only a confirmed answer counts. */
    method MarkHistoryFailed(op: string, historyId: int) returns (marked: bool)
      requires Valid() && BlocklistAllowed(Now(), op, historyId)
      modifies this`torrents, this`trace, this`sight, this`log
      ensures Valid() && old(trace) <= trace && EnvironmentStep(old(torrents), torrents)
      ensures log == if marked then old(log) + [BlocklistEffect(op, historyId)] else old(log)
    {
      hide Legal, CandidateInv, Ledger.Keyed, EnvironmentStep;
      Interfere();
      marked := *;
      if marked {
        log, sight := log + [BlocklistEffect(op, historyId)], Blind;
        Extend(Label.Blocklist(op, historyId));
      }
    }

    /** Stops, blocklists and deletes the torrent of a candidate judged dead, then releases it. */
    method GiveUpVideo(op: string, source: Source, delay: int) returns (r: Result<Option<Replacement>>)
      requires Valid() && state.Value().Has(op) && state.reservations.at[op].state == QbittorrentActive
      requires state.Value().EntryOf(op).VideoJudgedDead()
      requires Tags(torrents, HashOf(state.Value(), op), Owner(op))
      requires state.reservations.at[op].externalHistoryId.Some?
      requires state.reservations.at[op].source in config.sources
               && config.sources[state.reservations.at[op].source] == source
      modifies this, state
      ensures Valid() && old(trace) <= trace
      ensures OthersKept(old(state.Value()), state.Value(), op) && state.Value().Has(op)
      ensures PollEffects(old(log), log, op)
      ensures old(storeFailed) ==> storeFailed
      ensures r.Ok? && r.value.Some? ==>
        && GivenUpInFull(old(log), log, op, state.Value().EntryOf(op))
        && state.Value().EntryOf(op) == old(state.Value().EntryOf(op)).In(Invalidated)
        && r.value.value == Replacement(old(state.reservations.at[op]).source, old(state.reservations.at[op]).mediaId,
                                        delay)
      ensures !(r.Ok? && r.value.Some?) ==> state.Value() == old(state.Value())
    {
      hide Legal, CandidateInv, Healthy, MachineInv, CloneInv, OthersKept, Ledger.Keyed, Apply, EnvironmentStep,
           Entry.VideoJudgedDead, Entry.DeletesFiles, PollEffects, GivenUpInFull;
      ghost var before, unsent := state.Value(), log;
      NothingKept(before, op);
      EntryParts(before, op);
      EffectsTaken(unsent, op, state.reservations.at[op].externalHistoryId.value, before.EntryOf(op).DeletesFiles());
      var leased, observed: bool := *, *;
      if !leased {
        return Raised;
      }
      var reservation := state.reservations.at[op];
      StopsCondemned(op);
      var paused := Pause(op);
      if !observed {
        return Raised;
      }
      var marked := MarkHistoryFailed(op, reservation.externalHistoryId.value);
      if !marked {
        return Ok(None);
      }
      var released :- DeleteBlocklisted(op, reservation.torrentHash.value, source);
      if !released {
        return Ok(None);
      }
      FullyGivenUp(unsent, before, op, state.Value());
      return Ok(Some(Replacement(reservation.source, reservation.mediaId, delay)));
    }

    /** A running transfer whose candidate was judged dead may be stopped. */
    lemma StopsCondemned(op: string)
      requires Valid() && state.Value().Has(op) && state.reservations.at[op].state == QbittorrentActive
      requires state.Value().EntryOf(op).VideoJudgedDead()
      requires Tags(torrents, HashOf(state.Value(), op), Owner(op))
      ensures StopAllowed(config, Now(), op)
    {
      hide Legal, CandidateInv, Ledger.Keyed, Entry.VideoJudgedDead;
    }

    /** Deletes the torrent after its grab was rejected, and then releases its reservation. */
    method DeleteBlocklisted(op: string, hash: string, source: Source) returns (r: Result<bool>)
      requires Valid() && Drives(op, hash, source) && LastBlocklisted(Now(), op)
      requires state.Value().EntryOf(op).VideoJudgedDead()
      modifies this, state
      ensures Valid() && old(trace) <= trace
      ensures OthersKept(old(state.Value()), state.Value(), op) && state.Value().Has(op)
      ensures log == old(log) || log == old(log) + [DeleteEffect(op, old(state.Value().EntryOf(op)).DeletesFiles())]
      ensures old(storeFailed) ==> storeFailed
      ensures r == Ok(true) ==>
        log != old(log) && state.Value().EntryOf(op) == old(state.Value().EntryOf(op)).In(Invalidated)
      ensures r != Ok(true) ==> state.Value() == old(state.Value())
    {
      hide Legal, CandidateInv, Healthy, MachineInv, CloneInv, OthersKept, Ledger.Keyed, Apply, StepCloneCondition,
           EnvironmentStep, Entry.DeletesFiles;
      ghost var before := state.Value();
      NothingKept(before, op);
      var deleted := DeleteOwned(op, hash, source);
      hide Entry.VideoJudgedDead;
      if !deleted {
        return Ok(false);
      }
      var released := Record(op, ReleaseInvalidatedVideo);
      if released != Persisted {
        return Raised;
      }
      VideoGivenUp(before, op, state.Value());
      return Ok(true);
    }

    /** One record of a poll.  Every raise leaves the poll as well: its handler names an exception
        class that the module does not know. */
    method PollVideoCandidate(op: string, policy: HealthPolicy,
                              now: int) returns (r: Result<Option<Replacement>>)
      requires Valid() && state.Value().Has(op)
      requires state.reservations.at[op].state in {QbittorrentActive, Invalidated}
      modifies this, state
      ensures Valid() && old(trace) <= trace
      ensures OthersKept(old(state.Value()), state.Value(), op) && state.Value().Has(op)
      ensures old(storeFailed) ==> storeFailed
      ensures PollEffects(old(log), log, op)
      ensures RecordPolled(old(state.Value().EntryOf(op)), state.Value().EntryOf(op), log != old(log), policy, now)
      ensures r.Ok? && r.value.Some? ==>
        && GivenUpInFull(old(log), log, op, state.Value().EntryOf(op))
        && old(state.reservations.at[op]).state == QbittorrentActive
        && r.value.value == Replacement(old(state.reservations.at[op]).source, old(state.reservations.at[op]).mediaId,
                                        policy.initialDelay)
      ensures (r.Ok? && r.value.Some?) <==>
        (old(state.reservations.at[op]).state == QbittorrentActive && state.reservations.at[op].state == Invalidated)
      ensures PolledOnSight(config, old(state.Value().EntryOf(op)), state.Value().EntryOf(op), op, policy, now, trace,
                            old(|trace|))
    {
      hide Legal, CandidateInv, Healthy, MachineInv, CloneInv, OthersKept, Ledger.Keyed, Apply, Looked, RecordPolled,
           PolledOnSight;
      ghost var before := state.Value();
      NothingKept(before, op);
      EntryParts(before, op);
      NothingPolled(before.EntryOf(op), policy, now);
      PolledPlainly(config, before.EntryOf(op), op, policy, now, old(|trace|));
      var reservation := state.reservations.at[op];
      if reservation.source !in config.sources {
        return Raised;
      }
      var source := config.sources[reservation.source];
      if reservation.state == Invalidated {
        var copied := Copy();
        return if copied.Raised? || op !in state.video then Raised else Ok(None);
      }
      var watched := WatchVideo(op, source, policy, now);
      ghost var seen, sofar := state.Value(), trace;
      EntryParts(seen, op);
      LookedPolled(before.EntryOf(op), seen.EntryOf(op), policy, now);
      if watched != Ok(true) {
        return if watched.Raised? then Raised else Ok(None);
      }
      if state.video[op].status != VideoInvalidated || reservation.externalHistoryId.None? {
        return Ok(None);
      }
      CondemnedPolled(before.EntryOf(op), seen.EntryOf(op), seen.EntryOf(op), policy, now);
      CondemnedPolled(before.EntryOf(op), seen.EntryOf(op), seen.EntryOf(op).In(Invalidated), policy, now);
      r := GiveUpVideo(op, source, policy.initialDelay);
      OthersKeptTransitive(before, seen, state.Value(), op);
      JudgedLater(config, before.EntryOf(op), seen.EntryOf(op), state.Value().EntryOf(op), op, policy, now, sofar,
                  trace, old(|trace|));
      EntryParts(state.Value(), op);
    }

    /** Judges every running video transfer once; what it answers is exactly the work of the
        transfers it gave up.  A raise drops that work, and no later poll answers it. */
    method PollVideoCandidateHealth(now: int) returns (r: Result<seq<Replacement>>)
      requires Valid()
      modifies this, state
      ensures Valid() && old(trace) <= trace && SparedKept(old(state.Value()), state.Value())
      ensures old(storeFailed) ==> storeFailed
      ensures SentForVerdicts(old(state.Value()), state.Value(), old(log), log)
      ensures videoHealth.None? || now < 0 ==> r == Ok([]) && state.Value() == old(state.Value()) && log == old(log)
      ensures videoHealth.Some? && now >= 0 && r.Ok? ==>
        r.value == GivenUp(RecordsOf(old(state.Value())), |RecordsOf(old(state.Value()))|, state.Value(),
                           videoHealth.value.initialDelay)
    {
      hide Legal, CandidateInv, Healthy, MachineInv, CloneInv, OthersKept, Ledger.Keyed, Apply, RecordPolled, Polling,
           SparedKept, SentForVerdicts, GivenUp, PollEffects, Current;
      ghost var before := state.Value();
      ghost var unsent := log;
      PollBegins(before, log);
      PollShows(RecordsOf(before), 0, before, before, log, log);
      if videoHealth.None? || now < 0 {
        return Ok([]);
      }
      var policy := videoHealth.value;
      var records := RecordsOf(state.Value());
      var replacements: seq<Replacement> := [];
      GivenUpNone(records, before, policy.initialDelay);
      for i := 0 to |records|
        invariant Valid() && old(trace) <= trace && Polling(records, i, before, state.Value(), unsent, log)
        invariant old(storeFailed) ==> storeFailed
        invariant replacements == GivenUp(records, i, state.Value(), policy.initialDelay)
      {
        ghost var middle, sent := state.Value(), log;
        PollShows(records, i, before, middle, unsent, log);
        NothingKept(middle, records[i].operationId);
        if VideoSource(records[i].source) && records[i].state in {QbittorrentActive, Invalidated} {
          var polled := PollVideoCandidate(records[i].operationId, policy, now);
          PollGoesOn(records, i, before, middle, state.Value(), unsent, sent, log, policy, now);
          GivenUpNext(records, i, before, middle, state.Value(), unsent, sent, policy.initialDelay);
          if polled.Raised? {
            PollShows(records, i + 1, before, state.Value(), unsent, log);
            return Raised;
          }
          replacements := replacements + if polled.value.Some? then [polled.value.value] else [];
        } else {
          PollPasses(records, i, before, middle, unsent, log);
          GivenUpNext(records, i, before, middle, middle, unsent, log, policy.initialDelay);
        }
      }
      PollShows(records, |records|, before, state.Value(), unsent, log);
      return Ok(replacements);
    }

    // Explicit activation of a historical adoption.

    method ActivateAdoption(op: string) returns (r: Result<AdoptionClaim>)
      requires Valid()
      modifies this, state
      ensures Valid() && old(trace) <= trace && Handled(old(state.Value()), state.Value(), op)
      ensures r.Ok? && r.value.admitted ==> op in state.activations && state.activations[op] == Managed
    {
      hide Legal, CandidateInv, Healthy, MachineInv, CloneInv, OthersKept;
      ghost var before := state.Value();
      HandledNothing(before, op);
      if op !in state.reservations.at || state.reservations.at[op].source !in config.sources {
        return Ok(AdoptionClaim(false, Unavailable));
      }
      var reservation := state.reservations.at[op];
      var source := config.sources[reservation.source];
      KeyedReservation(before, op);
      hide Handled, Ledger.Keyed, Apply, PhysicalReady, Ledger.WithinCapacity, EnvironmentStep,
           Qbittorrent.ObserveTaggedStopped;
      var ready, free := ReadyForResume();
      var qbittorrentReady: bool := *;
      if op !in state.historical || state.quiescing || !qbittorrentReady || !ready {
        return Ok(AdoptionClaim(false, Unavailable));
      }
      if op in state.activations && state.activations[op] == Managed {
        return Ok(AdoptionClaim(true, Adopted));
      }
      if op !in state.activations {
        if reservation.torrentHash.None? {
          return Ok(AdoptionClaim(false, Unavailable));
        }
        var stopped := ObserveTaggedStopped(reservation.torrentHash.value, reservation.reservationId, source);
        if !stopped.Observed? || stopped.bytes != state.historical[op].expectedBytes {
          return Ok(AdoptionClaim(false, Unavailable));
        }
        SawOwn(op, reservation.torrentHash.value, source);
      }
      r := RequestAndActivate(op);
    }

    method ActivateHistorical(op: string) returns (r: Result<AdoptionClaim>)
      requires Valid()
      modifies this, state
      ensures Valid() && old(trace) <= trace && Handled(old(state.Value()), state.Value(), op)
      ensures r.Ok? && r.value.admitted ==> op in state.activations && state.activations[op] == Managed
      ensures Shown(old(|trace|), old(state.Value()))
    {
      ghost var before := state.Value();
      Unsee();
      hide Valid, Shown;
      r := ActivateAdoption(op);
      Concludes(old(|trace|), before);
    }

    method RequestAndActivate(op: string) returns (r: Result<AdoptionClaim>)
      requires Valid()
      requires op in state.reservations.at && op !in state.activations ==>
        SeesStopped(op) && SealedSize(state.Value().EntryOf(op), sight.torrent)
      modifies this, state
      ensures Valid() && old(trace) <= trace && Handled(old(state.Value()), state.Value(), op)
      ensures r.Ok? && r.value.admitted ==> op in state.activations && state.activations[op] == Managed
    {
      hide Legal, CandidateInv, Healthy, MachineInv, CloneInv, OthersKept, Handled, Ledger.Keyed, Apply;
      ghost var before := state.Value();
      var outcome := Confirm(op, RequestHistoricalActivation);
      if outcome != Persisted {
        return if outcome == Refused then Ok(AdoptionClaim(false, ClaimConflict)) else Raised;
      }
      ghost var intended := state.Value();
      var activated := RecoverHistoricalActivation(op);
      HandledTransitive(before, intended, state.Value(), op);
      var managed := op in state.activations && state.activations[op] == Managed;
      return Ok(AdoptionClaim(activated, if managed then Adopted else Pending));
    }

    // Admission and intake.

    method PreAdmit(intent: PreAdmissionIntent, qbittorrentReady: bool, prowlarrReady: bool,
                    publisherReady: bool) returns (r: Result<Decision>)
      requires Valid()
      modifies this`durable, this`armed, this`trace, this`sight, this`storeFailed, state
      ensures Valid() && old(trace) <= trace && IntakeKept(old(state.Value()), state.Value())
      ensures r.Ok? && r.value.admitted ==>
        state.Value().Has(intent.operationId) && SameRequest(state.reservations.at[intent.operationId], intent)
      ensures r.Ok? && r.value.reason != Admitted ==> state.Value() == old(state.Value())
    {
      hide Legal, CandidateInv, MachineInv, CloneInv, Ledger.Keyed, Apply, IntakeKept, PhysicalReady, SameRequest;
      ghost var before := state.Value();
      UniqueNow();
      if intent.source !in config.sources {
        return Ok(Decision(false, InvalidIntent));
      }
      var managed := config.sources[intent.source].publicationManaged;
      var copied := Copy();
      if copied.Raised? {
        return Raised;
      }
      var candidate := copied.value;
      var decision := candidate.PreAdmit(intent, qbittorrentReady, prowlarrReady,
                                         if managed then publisherReady else true);
      ghost var action := Action.PreAdmit(intent, qbittorrentReady, prowlarrReady,
                                          if managed then publisherReady else true);
      ApplyKeepsIntake(before, action);
      RequestHeld(before, intent, qbittorrentReady, prowlarrReady, if managed then publisherReady else true);
      hide PreAdmitDecision;
      if decision == Decision(true, Admitted) {
        var ready, free := PhysicallyReady(candidate);
        if !ready {
          return Ok(Decision(false, PhysicalHeadroomRefused));
        }
        var saved := Persist(candidate, action);
        if !saved {
          return Raised;
        }
      }
      return Ok(decision);
    }

    lemma UniqueNow()
      requires Valid()
      ensures UniqueFingerprints(state.Value()) && AdoptionsUnobserved(state.Value())
              && IntakeKept(state.Value(), state.Value())
    {
      AlwaysUnique(config, trace, |trace| - 1);
    }

    lemma WorkedNow(before: Ledger)
      requires Valid() && (before == state.Value() || IntakeKept(before, state.Value()))
      ensures Worked(before, state.Value()) && IntakeKept(before, state.Value())
    {
      UniqueNow();
    }

    /** Reserves one observed grab under its fingerprint, then binds it. */
    method AdoptExternalGrab(source: string, grab: ExternalGrab, publisherReady: bool,
                             digest: (string, ExternalGrab) -> string) returns (r: Result<bool>)
      requires Valid()
      modifies this, state
      ensures Valid() && old(trace) <= trace && IntakeKept(old(state.Value()), state.Value())
      ensures r == Ok(true) ==> Observes(state.Value(), digest(source, grab))
    {
      hide Legal, CandidateInv, MachineInv, CloneInv, Observes, UniqueFingerprints, AdoptionsUnobserved, IntakeKept,
           Ledger.Keyed, Apply, PhysicalReady, Step, Initial, EnvironmentStep;
      ghost var before := state.Value();
      UniqueNow();
      var fingerprint := digest(source, grab);
      var found := state.Value().OperationForObservation(fingerprint);
      var uuid: string, qbittorrentReady: bool := *, *;
      var op := if found.Some? then found.value else uuid;
      var intent := ExternalIntent(op, source, grab.entityId, grab.downloadId, grab.torrentHash, grab.expectedBytes,
                                   grab.historyId, fingerprint);
      var copied := Copy();
      if copied.Raised? {
        return Raised;
      }
      var candidate := copied.value;
      var decision := candidate.AdoptExternal(intent, qbittorrentReady, publisherReady);
      ghost var action := Action.AdoptExternal(intent, qbittorrentReady, publisherReady);
      ExternallyAdopted(before, intent, qbittorrentReady, publisherReady);
      hide ExternalDecision;
      if !decision.admitted {
        return Ok(false);
      }
      if decision.reason == Admitted {
        var ready, free := PhysicallyReady(candidate);
        if !ready {
          return Ok(false);
        }
        var saved := Persist(candidate, action);
        if !saved {
          return Raised;
        }
      }
      ghost var adopted := state.Value();
      r := BindGrab(op, grab.downloadId, grab.torrentHash, None);
      SweptObserves(adopted, state.Value(), fingerprint);
      IntakeKeptTransitive(before, adopted, state.Value());
    }

    /** One source of a poll: the watermark moves only past grabs that are all reserved. */
    method PollSource(source: string, view: ArrView, publisherReady: bool,
                      digest: (string, ExternalGrab) -> string) returns (r: Result<bool>)
      requires Valid()
      modifies this, state
      ensures Valid() && old(trace) <= trace && ReservationsKept(old(state.Value()), state.Value())
      ensures PolledBy(old(state.Value()), state.Value(), source, view.history, view.queue, view.client, digest)
      ensures PollJustified(old(state.Value()), state.Value(), source, view, digest)
      ensures forall k :: k != source ==> SameWatermark(old(state.Value()), state.Value(), k)
      ensures r == Ok(true) ==> source in state.watermarks
    {
      hide Legal, CandidateInv, MachineInv, CloneInv, Observes, Ledger.Keyed, Apply, IntakeKept, GrabsAfter,
           HistoryWatermark, PolledBy, Worked;
      ghost var before := state.Value();
      WorkedNow(before);
      PollWorked(before, before, source, view.history, view.queue, view.client, digest);
      KeptReservations(before, before, source, None);
      if source !in state.watermarks {
        var baseline := HistoryWatermark(view.history);
        if baseline.None? {
          return Ok(false);
        }
        r := SaveWatermark(source, baseline.value);
        KeptReservations(before, state.Value(), source, if state.Value() == before then None else baseline);
        if r == Ok(true) {
          PollBaselined(before, state.Value(), source, view.history, view.queue, view.client, digest);
        }
        return;
      }
      var watermark := state.watermarks[source];
      var observation := ExternalGrabsAfter(view.history, view.queue, view.client, watermark);
      if observation.None? || observation.value.watermark < watermark {
        return Ok(false);
      }
      var grabs := observation.value.grabs;
      var i := 0;
      while i < |grabs|
        invariant 0 <= i <= |grabs| && Valid() && old(trace) <= trace
        invariant IntakeKept(before, state.Value())
        invariant forall j :: 0 <= j < i ==> Observes(state.Value(), digest(source, grabs[j]))
        decreases |grabs| - i
      {
        ghost var middle := state.Value();
        var adopted := AdoptExternalGrab(source, grabs[i], publisherReady, digest);
        IntakeKeptTransitive(before, middle, state.Value());
        if adopted != Ok(true) {
          WorkedNow(before);
          PollWorked(before, state.Value(), source, view.history, view.queue, view.client, digest);
          KeptReservations(before, state.Value(), source, None);
          return adopted;
        }
        forall j | 0 <= j < i
          ensures Observes(state.Value(), digest(source, grabs[j]))
        {
          ObservesKept(middle, state.Value(), digest(source, grabs[j]));
        }
        i := i + 1;
      }
      ghost var reserved := state.Value();
      WorkedNow(before);
      PollWorked(before, reserved, source, view.history, view.queue, view.client, digest);
      KeptReservations(before, reserved, source, None);
      r := SaveWatermark(source, observation.value.watermark);
      if r == Ok(true) {
        PollAdvanced(before, reserved, state.Value(), source, view.history, view.queue, view.client, digest,
                     observation.value);
      }
      WatermarkJustified(before, reserved, state.Value(), source, view, digest, observation.value);
    }

    method SaveWatermark(source: string, watermark: int) returns (r: Result<bool>)
      requires Valid()
      modifies this`durable, this`armed, this`trace, this`sight, this`storeFailed, state
      ensures Valid() && old(trace) <= trace
      ensures r == Ok(true) ==> Apply(old(state.Value()), RecordWatermark(source, watermark)) == Ok(state.Value())
      ensures r == Ok(true) ==>
        state.Value() == old(state.Value()).(watermarks := old(state.watermarks)[source := watermark])
      ensures r != Ok(true) ==> state.Value() == old(state.Value())
    {
      hide Legal, CandidateInv, MachineInv, CloneInv, Ledger.Keyed;
      var copied := Copy();
      if copied.Raised? {
        return Raised;
      }
      var candidate := copied.value;
      var recorded := candidate.RecordWatermark(source, watermark);
      if recorded.Raised? {
        return Ok(false);
      }
      var saved := Persist(candidate, RecordWatermark(source, watermark));
      r := if saved then Ok(true) else Raised;
    }

    /** Polls one source at a time and stops at the first that cannot be trusted. */
    method PollExternal(views: map<string, ArrView>, publisherReady: bool,
                        digest: (string, ExternalGrab) -> string) returns (r: Result<bool>)
      requires Valid()
      modifies this, state
      ensures Valid() && old(trace) <= trace && ReservationsKept(old(state.Value()), state.Value())
      ensures forall source ::
        source in views ==> PollJustified(old(state.Value()), state.Value(), source, views[source], digest)
      ensures forall source :: source !in views ==> SameWatermark(old(state.Value()), state.Value(), source)
      ensures r == Ok(true) ==>
        forall source ::
          source in views && source in config.sources && config.sources[source].publicationManaged ==>
            source in state.watermarks
    {
      hide Legal, CandidateInv, MachineInv, CloneInv, Observes, Ledger.Keyed, Apply, PollJustified, ReservationsKept;
      ghost var before := state.Value();
      PollNothing(before, views, digest);
      var todo := config.sources.Keys;
      while todo != {}
        invariant todo <= config.sources.Keys && Valid() && old(trace) <= trace
        invariant ReservationsKept(before, state.Value())
        invariant forall source ::
          source in views ==> PollJustified(before, state.Value(), source, views[source], digest)
        invariant forall source :: source !in views || source in todo ==> SameWatermark(before, state.Value(), source)
        invariant forall source ::
          source in views && source in config.sources.Keys - todo && config.sources[source].publicationManaged ==>
            source in state.watermarks
        decreases todo
      {
        var source :| source in todo;
        if config.sources[source].publicationManaged && source in views {
          ghost var middle := state.Value();
          var polled := PollSource(source, views[source], publisherReady, digest);
          PollsCompose(before, middle, state.Value(), source, views, digest);
          if polled != Ok(true) {
            return polled;
          }
        }
        todo := todo - {source};
      }
      return Ok(true);
    }

    // Quiescence.

    method RecordFlag(enabled: bool) returns (saved: bool)
      requires Valid()
      modifies this`durable, this`armed, this`trace, this`sight, this`storeFailed, state
      ensures Valid() && old(trace) <= trace && SameOperations(old(state.Value()), state.Value())
      ensures saved ==> state.quiescing == enabled
      ensures state.reservations == old(state.reservations)
      ensures old(storeFailed) ==> storeFailed
      ensures old(Healthy(state.Value())) ==> Healthy(state.Value()) && (saved || storeFailed)
      ensures SomePauseSpoils(state.Value()) <==> old(SomePauseSpoils(state.Value()))
    {
      hide Legal, CandidateInv, MachineInv, Healthy, CloneInv, Ledger.Keyed, CommitAllowed, SomePauseSpoils;
      FlagKeepsHealth(state.Value(), enabled);
      HealthyCopies(state.Value());
      var copied := Copy();
      if copied.Raised? {
        return false;
      }
      var candidate := copied.value;
      if enabled {
        candidate.BeginQuiescence();
        FlagAllowed(config, Now(), BeginQuiescence);
        saved := Persist(candidate, BeginQuiescence);
      } else {
        candidate.EndQuiescence();
        FlagAllowed(config, Now(), EndQuiescence);
        saved := Persist(candidate, EndQuiescence);
      }
    }

    /** One record of the pausing sweep. */
    method PauseNext(records: seq<Reservation>, i: nat, ghost before: Ledger, success: bool) returns (r: Result<bool>)
      requires Valid() && state.quiescing && i < |records| && Sweeping(records, i, before, state.Value())
      requires success ==> Settled(records, i, state.Value())
      requires success && Healthy(before) ==> Healthy(state.Value()) && Unspoiled(records, i, before)
      modifies this, state
      ensures Valid() && old(trace) <= trace && state.quiescing && Sweeping(records, i + 1, before, state.Value())
      ensures old(storeFailed) ==> storeFailed
      ensures r.Raised? && Healthy(before) ==> storeFailed || SomePauseSpoils(before)
      ensures r == Ok(true) ==> success && Settled(records, i + 1, state.Value())
      ensures r == Ok(true) && Healthy(before) ==> Healthy(state.Value()) && Unspoiled(records, i + 1, before)
    {
      hide Legal, CandidateInv, OthersKept, Healthy, MachineInv, CloneInv, Ledger.Keyed, Handled, Reconciled, Apply,
           PauseSpoils, SomePauseSpoils, Swept;
      ghost var middle := state.Value();
      SweepAt(records, i, before, middle);
      SweepSpoils(records, i, before, middle);
      var op := records[i].operationId;
      hide Sweeping, Settled;
      if Running(records[i].state) {
        r := PauseOne(op);
      } else {
        IdleSpoilsNothing(middle, op);
        HandledNothing(middle, op);
        HandledParts(middle, middle, op);
        r := Ok(true);
      }
      SweepGoesOn(records, i, before, middle, state.Value());
      SweepShows(records, i + 1, before, state.Value());
      ReconciledParts(middle, state.Value(), op);
      StillSettled(records, i, middle, state.Value());
      StillUnspoiled(records, i, before, middle, state.Value());
      if r.Ok? {
        r := Ok(r.value && success);
      }
    }

    /** True answers only when everything that ran is paused and nothing else has changed. */
    method PauseAll() returns (r: Result<bool>)
      requires Valid() && state.quiescing
      modifies this, state
      ensures Valid() && old(trace) <= trace && Swept(old(state.Value()), state.Value()) && state.quiescing
      ensures old(storeFailed) ==> storeFailed
      ensures r.Raised? && old(Healthy(state.Value())) ==> storeFailed || old(SomePauseSpoils(state.Value()))
      ensures r == Ok(true) ==> AllMoved(old(state.Value()), state.Value(), false)
      ensures r == Ok(true) && old(Healthy(state.Value())) ==> !old(SomePauseSpoils(state.Value()))
    {
      hide Valid, Healthy, Sweeping, Swept, SomePauseSpoils;
      ghost var before := state.Value();
      var records := TakeRecords();
      var success := true;
      var i := 0;
      while i < |records|
        invariant 0 <= i <= |records| && Valid() && old(trace) <= trace && state.quiescing
        invariant Sweeping(records, i, before, state.Value())
        invariant success ==> Settled(records, i, state.Value())
        invariant success && Healthy(before) ==> Healthy(state.Value()) && Unspoiled(records, i, before)
        invariant old(storeFailed) ==> storeFailed
        decreases |records| - i
      {
        var next := PauseNext(records, i, before, success);
        if next.Raised? {
          SweepShows(records, i + 1, before, state.Value());
          return Raised;
        }
        success := next.value;
        i := i + 1;
      }
      SweepShows(records, i, before, state.Value());
      if success {
        SettledAll(before, state.Value());
        if Healthy(before) { NoneSpoils(before); }
      }
      return Ok(success);
    }

    method TakeRecords() returns (records: seq<Reservation>)
      requires Valid()
      ensures state.Value().Keyed() && records == RecordsOf(state.Value())
      ensures Sweeping(records, 0, state.Value(), state.Value()) && Settled(records, 0, state.Value())
              && Unpaused(records, 0, state.Value())
    {
      records := RecordsOf(state.Value());
      SweepBegins(state.Value());
    }

    /** One record of the resuming sweep. */
    method ResumeNext(records: seq<Reservation>, i: nat, ghost before: Ledger, success: bool) returns (r: Result<bool>)
      requires Valid() && !state.quiescing && i < |records| && Sweeping(records, i, before, state.Value())
      requires success ==> Unpaused(records, i, state.Value())
      modifies this, state
      ensures Valid() && old(trace) <= trace && !state.quiescing && Sweeping(records, i + 1, before, state.Value())
      ensures old(storeFailed) ==> storeFailed
      ensures r.Raised? && Healthy(before) ==> storeFailed
      ensures r == Ok(true) ==> success && Unpaused(records, i + 1, state.Value())
    {
      hide Legal, CandidateInv, OthersKept, Healthy, MachineInv, CloneInv, Ledger.Keyed, Handled, Reconciled, Apply,
           PauseSpoils, SomePauseSpoils, Swept;
      ghost var middle := state.Value();
      SweepAt(records, i, before, middle);
      SweepSpoils(records, i, before, middle);
      var op := records[i].operationId;
      hide Sweeping, Unpaused;
      if records[i].state == QbittorrentPaused {
        r := ResumePaused(op, records[i]);
      } else {
        HandledNothing(middle, op);
        r := Ok(true);
      }
      HandledParts(middle, state.Value(), op);
      SweepGoesOn(records, i, before, middle, state.Value());
      SweepShows(records, i + 1, before, state.Value());
      StillUnpaused(records, i, middle, state.Value());
      if r.Ok? {
        r := Ok(r.value && success);
      }
    }

    /** Reopening resumes only what was paused; true answers only when all of that runs. */
    method ResumeAll() returns (r: Result<bool>)
      requires Valid() && !state.quiescing
      modifies this, state
      ensures Valid() && old(trace) <= trace && Swept(old(state.Value()), state.Value()) && !state.quiescing
      ensures old(storeFailed) ==> storeFailed
      ensures r.Raised? && old(Healthy(state.Value())) ==> storeFailed
      ensures r == Ok(true) ==> AllMoved(old(state.Value()), state.Value(), true)
    {
      hide Valid, Healthy, Sweeping, Swept;
      ghost var before := state.Value();
      var records := TakeRecords();
      var success := true;
      var i := 0;
      while i < |records|
        invariant 0 <= i <= |records| && Valid() && old(trace) <= trace && !state.quiescing
        invariant Sweeping(records, i, before, state.Value())
        invariant success ==> Unpaused(records, i, state.Value())
        invariant old(storeFailed) ==> storeFailed
        decreases |records| - i
      {
        var next := ResumeNext(records, i, before, success);
        if next.Raised? {
          SweepShows(records, i + 1, before, state.Value());
          return Raised;
        }
        success := next.value;
        i := i + 1;
      }
      SweepShows(records, i, before, state.Value());
      if success {
        UnpausedAll(before, state.Value());
      }
      return Ok(success);
    }

    method ResumePaused(op: string, record: Reservation) returns (r: Result<bool>)
      requires Valid() && op in state.reservations.at && state.reservations.at[op] == record
               && record.state == QbittorrentPaused
      modifies this, state
      ensures Valid() && old(trace) <= trace && Handled(old(state.Value()), state.Value(), op)
      ensures old(storeFailed) ==> storeFailed
      ensures r.Raised? && old(Healthy(state.Value())) ==> storeFailed
      ensures r == Ok(true) ==> op in state.reservations.at && Running(state.reservations.at[op].state)
    {
      hide Legal, CandidateInv, OthersKept, Healthy, CloneInv, Ledger.Keyed, Handled, Apply, PhysicalReady,
           Ledger.WithinCapacity;
      ghost var before := state.Value();
      Safe();
      assert op !in state.postPnr;
      hide MachineInv;
      HandledNothing(before, op);
      HealthyCopies(before);
      var ready, free := ReadyForResume();
      if !ready {
        return Ok(false);
      }
      var outcome := Confirm(op, RequestResume);
      if outcome != Persisted {
        return if outcome == Refused then Ok(false) else Raised;
      }
      ghost var intended := state.Value();
      AppliedState(before, op, RequestResume, intended);
      HandledFacts(before, intended, op);
      var resumed := RecoverResume(op, record);
      HandledTransitive(before, intended, state.Value(), op);
      if resumed.Raised? {
        return Raised;
      }
      return Ok(op in state.reservations.at && Running(state.reservations.at[op].state));
    }

    /** Closing pauses what runs, reopening resumes what is paused, each after its durable flag. */
    method Quiesce(enabled: bool) returns (r: Result<bool>)
      requires Valid()
      modifies this, state
      ensures Valid() && old(trace) <= trace && SameOperations(old(state.Value()), state.Value())
      ensures r.Ok? ==> state.quiescing == enabled
      ensures r.Raised? && old(Healthy(state.Value())) ==>
        storeFailed || (enabled && old(SomePauseSpoils(state.Value())))
      ensures r == Ok(true) ==> AllMoved(old(state.Value()), state.Value(), !enabled)
      ensures r == Ok(true) && enabled && old(Healthy(state.Value())) ==> !old(SomePauseSpoils(state.Value()))
      ensures Shown(old(|trace|), old(state.Value()))
    {
      hide Legal, CandidateInv, OthersKept, Healthy, MachineInv, CloneInv, Ledger.Keyed, Handled, Apply,
           SomePauseSpoils, Moved, IntakeKept;
      ghost var before := state.Value();
      Unsee();
      if state.quiescing != enabled {
        var saved := RecordFlag(enabled);
        if !saved {
          return Raised;
        }
      }
      if enabled {
        r := PauseAll();
      } else {
        r := ResumeAll();
      }
      Concludes(old(|trace|), before);
    }
  }

  /** Since this point of the run the torrent was seen stopped, tagged for the operation and of
      exactly this size. */
  ghost predicate SeenStopped(trace: seq<System>, since: nat, hash: string, op: string, source: Source, bytes: int) {
    exists i :: since <= i + 1 && 0 <= i < |trace| && StoppedAt(trace[i].torrents, hash, op, source, bytes)
  }

  predicate StoppedAt(torrents: Torrents, hash: string, op: string, source: Source, bytes: int) {
    var o := Qbittorrent.ObserveTaggedStopped(torrents, hash, source.category, Owner(op), source.savePath);
    o.Observed? && o.bytes == bytes
  }

  lemma SeenLater(before: seq<System>, after: seq<System>, since: nat, hash: string, op: string, source: Source,
                  bytes: int)
    requires before <= after
    ensures SeenStopped(before, since, hash, op, source, bytes) ==> SeenStopped(after, since, hash, op, source, bytes)
  {
    hide StoppedAt;
    if SeenStopped(before, since, hash, op, source, bytes) {
      var i :| since <= i + 1 && 0 <= i < |before| && StoppedAt(before[i].torrents, hash, op, source, bytes);
      assert after[i] == before[i];
    }
  }

  lemma MusicOf(l: Ledger, op: string)
    requires l.Has(op) && l.EntryOf(op).music.Some?
    ensures op in l.music && l.music[op] == l.EntryOf(op).music.value
  {
  }
}
