/** Lidarr candidate cycles: which release is active for an album, what was rejected, and how a
    Fence verdict changes a cycle. */
module MusicSchedule {
  import opened Common
  import FairOrder
  import UpgradeSchedule

  /** `digest` is the hash of the sealed native release. */
  datatype LidarrRelease = LidarrRelease(albumId: string, selectorFingerprint: string, canonicalHash: Option<string>,
                                         digest: string)

  datatype LidarrAlbum = LidarrAlbum(albumId: string, releasedAt: int, monitored: bool) {
    predicate Valid() {
      PositiveDecimal(albumId) && releasedAt >= 0
    }
  }

  datatype ActiveCandidate = ActiveCandidate(operationId: string, selectorFingerprint: string,
                                             canonicalHash: Option<string>, digest: string)

  datatype Cycle = Cycle(
    releasedAt: int,
    lastCompletedAt: Option<int>,
    completedCycles: int,
    terminal: bool,
    candidatesUsed: int,
    active: Option<ActiveCandidate>,
    rejectedSelectors: set<string>,
    rejectedHashes: set<string>,
    candidateLimit: Option<int>,
    appliedInvalidations: set<string>
  ) {
    predicate Rejects(selector: string, hash: Option<string>) {
      selector in rejectedSelectors || (hash.Some? && hash.value in rejectedHashes)
    }

    /** The active release is none that was rejected. */
    predicate ActiveAllowed() {
      active.Some? ==> !Rejects(active.value.selectorFingerprint, active.value.canonicalHash)
    }

    /** Ends the cycle once its candidates are used up. */
    function ClosedIfUsedUp(now: int): Cycle {
      if candidateLimit.Some? && candidatesUsed >= candidateLimit.value
      then this.(lastCompletedAt := Some(now), completedCycles := completedCycles + 1, candidatesUsed := 0,
                 candidateLimit := None)
      else this
    }
  }

  type Albums = map<string, Cycle>

  /** When an album is due, and how much is searched. */
  datatype SearchPolicy = SearchPolicy(
    schedule: UpgradeSchedule.UpgradePolicy,
    maxSearchesPerRun: int, maxGrabsPerRun: int, maxSearchesPerHour: nat, maxSearchesPerDay: nat)

  datatype Verdict = Verdict(operationId: string, albumId: string, selectorFingerprint: string, canonicalHash: string,
                             invalidationId: string) {
    predicate Valid() {
      && CanonicalUuid(operationId) && CanonicalUuid(invalidationId) && PositiveDecimal(albumId)
      && LowerHex(selectorFingerprint, 64) && LowerHex(canonicalHash, 40)
    }
  }

  function NewCycle(releasedAt: int): Cycle {
    Cycle(releasedAt, None, 0, false, 0, None, {}, {}, None, {})
  }

  /** The albums after one was looked at; a changed release time raises. */
  function Known(albums: Albums, album: LidarrAlbum): Result<Albums> {
    if !album.Valid() then Raised
    else if album.albumId !in albums then Ok(albums[album.albumId := NewCycle(album.releasedAt)])
    else if albums[album.albumId].releasedAt != album.releasedAt then Raised
    else Ok(albums)
  }

  /** The cooldown of a cycle that was completed without being counted raises. */
  function DueIn(c: Cycle, policy: SearchPolicy, now: int, maxCandidates: int): Result<bool> {
    if c.active.Some? || c.terminal then Ok(false)
    else if c.candidatesUsed != 0 && c.candidatesUsed < maxCandidates then Ok(true)
    else if now < c.releasedAt + policy.schedule.minimumAgeDays * DAY then Ok(false)
    else if now >= c.releasedAt + policy.schedule.Horizon() then Ok(policy.schedule.finalSearch)
    else if c.completedCycles >= policy.schedule.maxAttempts then Ok(false)
    else if c.lastCompletedAt.None? then Ok(true)
    else if c.completedCycles <= 0 then Raised
    else Ok(now >= c.lastCompletedAt.value + UpgradeSchedule.Cooldown(policy.schedule, c.completedCycles))
  }

  /** The upgrade schedule holds of this entity what the cycle holds of its album. */
  predicate Recorded(s: UpgradeSchedule.Schedule, e: FairOrder.UpgradeEntity, c: Cycle,
                     policy: UpgradeSchedule.UpgradePolicy) {
    var key := UpgradeSchedule.ItemOf(e);
    && e.releasedAt == c.releasedAt && key !in s.replacements && key !in s.retries
    && if c.lastCompletedAt.None? then key !in s.checkpoints && c.completedCycles == 0
       else
         && c.completedCycles > 0 && key in s.checkpoints
         && s.checkpoints[key] == UpgradeSchedule.Checkpoint(
              e.generation, c.lastCompletedAt.value, c.completedCycles, c.terminal,
              c.lastCompletedAt.value + UpgradeSchedule.Cooldown(policy, c.completedCycles), policy.revision)
  }

  /** Between cycles an album that is not finished is due exactly when an upgrade with the same
      history is, and a cycle that was begun goes on at any age while it has candidates left. */
  lemma DueAsUpgrade(c: Cycle, policy: SearchPolicy, now: int, maxCandidates: int,
                     s: UpgradeSchedule.Schedule, e: FairOrder.UpgradeEntity)
    requires policy.schedule.Valid() && c.active.None? && Recorded(s, e, c, policy.schedule)
    ensures (c.candidatesUsed == 0 || c.candidatesUsed >= maxCandidates) ==>
              DueIn(c, policy, now, maxCandidates)
              == Ok(!c.terminal && UpgradeSchedule.IsDue(s, e, policy.schedule, now))
    ensures c.candidatesUsed != 0 && c.candidatesUsed < maxCandidates ==>
              DueIn(c, policy, now, maxCandidates) == Ok(!c.terminal)
  {
    hide UpgradeSchedule.Cooldown, UpgradeSchedule.UpgradePolicy.Horizon;
  }

  function Started(albums: Albums, album: LidarrAlbum, release: LidarrRelease, op: string,
                   maxCandidates: int): Result<Albums> {
    if release.albumId != album.albumId || !CanonicalUuid(op) || maxCandidates <= 0
       || release.digest != release.selectorFingerprint then Raised
    else
      var known :- Known(albums, album);
      var c := known[album.albumId];
      if c.active.Some? || c.candidatesUsed >= maxCandidates
         || c.Rejects(release.selectorFingerprint, release.canonicalHash) then Raised
      else if c.candidateLimit.Some? && c.candidateLimit.value != maxCandidates then Raised
      else Ok(known[album.albumId := c.(
        candidateLimit := Some(maxCandidates), candidatesUsed := c.candidatesUsed + 1,
        active := Some(ActiveCandidate(op, release.selectorFingerprint, release.canonicalHash, release.digest)))])
  }

  function Imported(albums: Albums, albumId: string): (Albums, bool) {
    if albumId !in albums || albums[albumId].active.None? then (albums, false)
    else (albums[albumId := albums[albumId].(active := None, candidatesUsed := 0, candidateLimit := None)], true)
  }

  function CycleCompleted(albums: Albums, album: LidarrAlbum, policy: SearchPolicy, now: int): Result<Albums> {
    var known :- Known(albums, album);
    var c := known[album.albumId];
    Ok(known[album.albumId := c.(
      lastCompletedAt := Some(now), completedCycles := c.completedCycles + 1,
      terminal := now >= album.releasedAt + policy.schedule.Horizon(), candidatesUsed := 0, candidateLimit := None)])
  }

  /** The cycle after its active candidate was judged dead by this verdict. */
  function Judged(c: Cycle, v: Verdict, now: int): Cycle
    requires c.active.Some?
  {
    var hashes := if c.active.value.canonicalHash.Some? then {c.active.value.canonicalHash.value} else {};
    c.(rejectedSelectors := c.rejectedSelectors + {v.selectorFingerprint},
       rejectedHashes := c.rejectedHashes + hashes + {v.canonicalHash},
       active := None,
       appliedInvalidations := c.appliedInvalidations + {v.invalidationId}).ClosedIfUsedUp(now)
  }

  /** Whether the verdict names what is active now. */
  predicate NamesActive(c: Cycle, v: Verdict) {
    && c.active.Some? && c.active.value.operationId == v.operationId
    && c.active.value.selectorFingerprint == v.selectorFingerprint
    && (c.active.value.canonicalHash.Some? ==> c.active.value.canonicalHash.value == v.canonicalHash)
  }

  /** Applies one Fence verdict; true means it is applied, now or before. */
  function VerdictApplied(albums: Albums, v: Verdict, now: int): Result<(Albums, bool)> {
    if now < 0 || !v.Valid() then Raised
    else if v.albumId !in albums then Ok((albums, false))
    else
      var c := albums[v.albumId];
      if v.invalidationId in c.appliedInvalidations then Ok((albums, true))
      else if !NamesActive(c, v) then Ok((albums, false))
      else Ok((albums[v.albumId := Judged(c, v, now)], true))
  }

  /** A local rejection of the active candidate, without a Fence verdict. */
  function Dropped(albums: Albums, albumId: string, selector: string, hash: Option<string>, now: int): (Albums, bool) {
    if albumId !in albums || albums[albumId].active.None?
       || albums[albumId].active.value.selectorFingerprint != selector
       || albums[albumId].active.value.canonicalHash != hash
    then (albums, false)
    else
      var c := albums[albumId];
      (albums[albumId := c.(
        rejectedSelectors := c.rejectedSelectors + {selector},
        rejectedHashes := if hash.Some? then c.rejectedHashes + {hash.value} else c.rejectedHashes,
        active := None).ClosedIfUsedUp(now)], true)
  }

  // What every transition keeps.

  /** Nothing that was rejected or applied is forgotten. */
  predicate Remembers(later: Albums, earlier: Albums) {
    forall id :: id in earlier ==>
      && id in later && earlier[id].rejectedSelectors <= later[id].rejectedSelectors
      && earlier[id].rejectedHashes <= later[id].rejectedHashes
      && earlier[id].appliedInvalidations <= later[id].appliedInvalidations
  }

  predicate AllAllowed(albums: Albums) {
    forall id :: id in albums ==> albums[id].ActiveAllowed()
  }

  datatype Change =
    | Look(album: LidarrAlbum)
    | Start(album: LidarrAlbum, release: LidarrRelease, op: string, maxCandidates: int)
    | Confirm(albumId: string)
    | Complete(album: LidarrAlbum, policy: SearchPolicy, now: int)
    | Drop(albumId: string, selector: string, hash: Option<string>, now: int)
    | Judge(verdict: Verdict, now: int)

  function Changed(albums: Albums, change: Change): Result<Albums> {
    match change
    case Look(album) => Known(albums, album)
    case Start(album, release, op, maxCandidates) => Started(albums, album, release, op, maxCandidates)
    case Confirm(albumId) => Ok(Imported(albums, albumId).0)
    case Complete(album, policy, now) => CycleCompleted(albums, album, policy, now)
    case Drop(albumId, selector, hash, now) => Ok(Dropped(albums, albumId, selector, hash, now).0)
    case Judge(v, now) =>
      var applied := VerdictApplied(albums, v, now);
      if applied.Ok? then Ok(applied.value.0) else Raised
  }

  lemma ChangeRemembers(albums: Albums, change: Change)
    requires Changed(albums, change).Ok?
    ensures Remembers(Changed(albums, change).value, albums)
    ensures AllAllowed(albums) ==> AllAllowed(Changed(albums, change).value)
  {
    hide LidarrAlbum.Valid, Verdict.Valid, CanonicalUuid, DueIn;
  }

  /** A verdict that is applied is remembered, and one applied before changes nothing. */
  lemma VerdictIsRemembered(albums: Albums, v: Verdict, now: int)
    requires VerdictApplied(albums, v, now).Ok?
    ensures var (after, applied) := VerdictApplied(albums, v, now).value;
      && (applied ==> v.albumId in after && v.invalidationId in after[v.albumId].appliedInvalidations)
      && (after != albums ==>
            applied && v.albumId in albums && v.invalidationId !in albums[v.albumId].appliedInvalidations)
      && (after != albums ==> v.selectorFingerprint in after[v.albumId].rejectedSelectors)
      && (after != albums ==> v.canonicalHash in after[v.albumId].rejectedHashes)
      && (v.albumId in albums && v.invalidationId in albums[v.albumId].appliedInvalidations ==>
            after == albums && applied)
  {
    hide Verdict.Valid;
  }

  // Reload.

  /** What a reload checks of one album. */
  predicate Reloadable(c: Cycle) {
    && c.releasedAt >= 0 && (c.lastCompletedAt.Some? ==> c.releasedAt <= c.lastCompletedAt.value)
    && c.completedCycles >= 0 && c.candidatesUsed >= 0
    && (c.candidateLimit.Some? ==> 0 < c.candidateLimit.value && c.candidatesUsed <= c.candidateLimit.value)
    && (c.active.Some? ==>
          && CanonicalUuid(c.active.value.operationId) && LowerHex(c.active.value.selectorFingerprint, 64)
          && c.active.value.digest == c.active.value.selectorFingerprint
          && (c.active.value.canonicalHash.Some? ==> LowerHex(c.active.value.canonicalHash.value, 40)))
    && (forall s :: s in c.rejectedSelectors ==> LowerHex(s, 64))
    && (forall h :: h in c.rejectedHashes ==> LowerHex(h, 40))
    && (forall id :: id in c.appliedInvalidations ==> CanonicalUuid(id))
  }

  /** A verdict keeps its album reloadable exactly when it does not close the cycle at a time
      before the release. */
  lemma VerdictReloadsIff(c: Cycle, v: Verdict, now: int)
    requires Reloadable(c) && v.Valid() && NamesActive(c, v)
    ensures Reloadable(Judged(c, v, now))
            <==> ClosesInTime(c, now)
  {
    hide LowerHex, CanonicalUuid, PositiveDecimal;
  }

  /** Every album is read back under a positive decimal id. */
  predicate AllReload(albums: Albums) {
    forall id :: id in albums ==> PositiveDecimal(id) && Reloadable(albums[id])
  }

  /** A cycle that is closed now, if it is, closes no sooner than its release. */
  predicate ClosesInTime(c: Cycle, now: int) {
    c.candidateLimit.Some? && c.candidatesUsed >= c.candidateLimit.value ==> c.releasedAt <= now
  }

  /** What a change needs beyond being accepted, so that its result can be read back. */
  predicate ChangeReloads(albums: Albums, change: Change) {
    match change
    case Look(album) => true
    case Start(album, release, op, maxCandidates) =>
      && LowerHex(release.selectorFingerprint, 64)
      && (release.canonicalHash.Some? ==> LowerHex(release.canonicalHash.value, 40))
    case Confirm(albumId) => true
    case Complete(album, policy, now) => album.releasedAt <= now
    case Drop(albumId, selector, hash, now) =>
      Dropped(albums, albumId, selector, hash, now).1 ==> albumId in albums && ClosesInTime(albums[albumId], now)
    case Judge(v, now) =>
      && v.albumId in albums && v.invalidationId !in albums[v.albumId].appliedInvalidations
      && NamesActive(albums[v.albumId], v)
      ==> ClosesInTime(albums[v.albumId], now)
  }

  /** Only this album was written. */
  lemma OneAlbumReloads(albums: Albums, id: string, c: Cycle)
    requires AllReload(albums) && PositiveDecimal(id)
    ensures AllReload(albums[id := c]) <==> Reloadable(c)
  {
    hide Reloadable, PositiveDecimal;
    assert albums[id := c][id] == c;
  }

  lemma LookReloads(albums: Albums, album: LidarrAlbum)
    requires AllReload(albums) && Known(albums, album).Ok?
    ensures AllReload(Known(albums, album).value) && album.albumId in Known(albums, album).value
    ensures PositiveDecimal(album.albumId) && Known(albums, album).value[album.albumId].releasedAt == album.releasedAt
    ensures Reloadable(Known(albums, album).value[album.albumId])
  {
    hide PositiveDecimal, LowerHex, CanonicalUuid;
  }

  lemma DropReloadsIff(c: Cycle, selector: string, hash: Option<string>, now: int)
    requires Reloadable(c) && c.active.Some? && c.active.value.selectorFingerprint == selector
             && c.active.value.canonicalHash == hash
    ensures Reloadable(c.(rejectedSelectors := c.rejectedSelectors + {selector},
                          rejectedHashes := if hash.Some? then c.rejectedHashes + {hash.value} else c.rejectedHashes,
                          active := None).ClosedIfUsedUp(now))
            <==> ClosesInTime(c, now)
  {
    hide LowerHex, CanonicalUuid, PositiveDecimal;
  }

  /** A change of a readable schedule leaves a readable one exactly under that condition. */
  lemma ChangeReloadsIff(albums: Albums, change: Change)
    requires AllReload(albums) && Changed(albums, change).Ok?
    ensures AllReload(Changed(albums, change).value) <==> ChangeReloads(albums, change)
  {
    match change {
      case Look(album) => LookReloads(albums, album);
      case Start(album, release, op, maxCandidates) => StartReloadsIff(albums, album, release, op, maxCandidates);
      case Confirm(albumId) => ConfirmReloads(albums, albumId);
      case Complete(album, policy, now) => CompleteReloadsIff(albums, album, policy, now);
      case Drop(albumId, selector, hash, now) =>
        if Dropped(albums, albumId, selector, hash, now).1 {
          DropReloadsIff(albums[albumId], selector, hash, now);
          OneAlbumReloads(albums, albumId, Dropped(albums, albumId, selector, hash, now).0[albumId]);
        }
      case Judge(v, now) =>
        if v.albumId in albums && v.invalidationId !in albums[v.albumId].appliedInvalidations
           && NamesActive(albums[v.albumId], v) {
          VerdictReloadsIff(albums[v.albumId], v, now);
          OneAlbumReloads(albums, v.albumId, Judged(albums[v.albumId], v, now));
        }
    }
    hide LowerHex, CanonicalUuid, PositiveDecimal, Reloadable, AllReload;
  }

  lemma StartReloadsIff(albums: Albums, album: LidarrAlbum, release: LidarrRelease, op: string, maxCandidates: int)
    requires AllReload(albums) && Started(albums, album, release, op, maxCandidates).Ok?
    ensures AllReload(Started(albums, album, release, op, maxCandidates).value)
            <==> ChangeReloads(albums, Start(album, release, op, maxCandidates))
  {
    hide LowerHex, CanonicalUuid, PositiveDecimal, AllReload;
    LookReloads(albums, album);
    var known := Known(albums, album).value;
    OneAlbumReloads(known, album.albumId, Started(albums, album, release, op, maxCandidates).value[album.albumId]);
  }

  lemma ConfirmReloads(albums: Albums, albumId: string)
    requires AllReload(albums)
    ensures AllReload(Imported(albums, albumId).0)
  {
    hide LowerHex, CanonicalUuid, PositiveDecimal;
  }

  lemma CompleteReloadsIff(albums: Albums, album: LidarrAlbum, policy: SearchPolicy, now: int)
    requires AllReload(albums) && CycleCompleted(albums, album, policy, now).Ok?
    ensures AllReload(CycleCompleted(albums, album, policy, now).value) <==> album.releasedAt <= now
  {
    hide LowerHex, CanonicalUuid, PositiveDecimal, AllReload;
    LookReloads(albums, album);
    var known := Known(albums, album).value;
    OneAlbumReloads(known, album.albumId, CycleCompleted(albums, album, policy, now).value[album.albumId]);
  }

  class MusicScheduleState {
    var albums: Albums

    constructor ()
      ensures albums == map[]
    {
      albums := map[];
    }

    /** Looking at an album creates its cycle. */
    method CycleOf(album: LidarrAlbum) returns (r: Result<Cycle>)
      modifies this
      ensures if r.Ok?
              then Known(old(albums), album) == Ok(albums) && album.albumId in albums
                   && r.value == albums[album.albumId]
              else Known(old(albums), album).Raised? && albums == old(albums)
    {
      hide PositiveDecimal;
      if !album.Valid() {
        return Raised;
      }
      if album.albumId !in albums {
        albums := albums[album.albumId := NewCycle(album.releasedAt)];
      } else if albums[album.albumId].releasedAt != album.releasedAt {
        return Raised;
      }
      return Ok(albums[album.albumId]);
    }

    /** Whether the album may be searched now; a running candidate always blocks it. */
    method Due(album: LidarrAlbum, policy: SearchPolicy, now: int, maxCandidates: int) returns (r: Result<bool>)
      modifies this
      ensures r.Raised? <==> now < 0 || maxCandidates <= 0 || Known(old(albums), album).Raised?
                             || DueIn(Known(old(albums), album).value[album.albumId], policy, now,
                                      maxCandidates).Raised?
      ensures r.Ok? ==>
        Known(old(albums), album) == Ok(albums) && DueIn(albums[album.albumId], policy, now, maxCandidates) == r
      ensures r.Ok? && r.value ==> albums[album.albumId].active.None? && !albums[album.albumId].terminal
      ensures r.Raised? ==> albums == old(albums)
    {
      hide UpgradeSchedule.Cooldown, UpgradeSchedule.UpgradePolicy.Horizon, PositiveDecimal;
      if now < 0 || maxCandidates <= 0 {
        return Raised;
      }
      var c :- CycleOf(album);
      if c.active.Some? || c.terminal {
        return Ok(false);
      }
      if c.candidatesUsed != 0 && c.candidatesUsed < maxCandidates {
        return Ok(true);
      }
      if now < album.releasedAt + policy.schedule.minimumAgeDays * DAY {
        return Ok(false);
      }
      if now >= album.releasedAt + policy.schedule.Horizon() {
        return Ok(policy.schedule.finalSearch);
      }
      if c.completedCycles >= policy.schedule.maxAttempts {
        return Ok(false);
      }
      if c.lastCompletedAt.None? {
        return Ok(true);
      }
      if c.completedCycles <= 0 {
        return Raised;
      }
      return Ok(now >= c.lastCompletedAt.value + UpgradeSchedule.Cooldown(policy.schedule, c.completedCycles));
    }

    method StartCandidate(album: LidarrAlbum, release: LidarrRelease, op: string, now: int,
                          maxCandidates: int) returns (r: Result<()>)
      modifies this
      ensures r.Ok? ==> Started(old(albums), album, release, op, maxCandidates) == Ok(albums)
      ensures r.Ok? && AllAllowed(old(albums)) ==> AllAllowed(albums)
      ensures r.Raised? ==> albums == old(albums) || Known(old(albums), album) == Ok(albums)
    {
      hide CanonicalUuid, LidarrAlbum.Valid;
      ghost var before := albums;
      if now < 0 || release.albumId != album.albumId || !CanonicalUuid(op) || maxCandidates <= 0
         || release.digest != release.selectorFingerprint {
        return Raised;
      }
      var c :- CycleOf(album);
      if c.active.Some? || c.candidatesUsed >= maxCandidates
         || c.Rejects(release.selectorFingerprint, release.canonicalHash) {
        return Raised;
      }
      if c.candidateLimit.None? {
        c := c.(candidateLimit := Some(maxCandidates));
      } else if c.candidateLimit.value != maxCandidates {
        return Raised;
      }
      c := c.(candidatesUsed := c.candidatesUsed + 1);
      c := c.(active := Some(ActiveCandidate(op, release.selectorFingerprint, release.canonicalHash, release.digest)));
      albums := albums[album.albumId := c];
      assert Started(before, album, release, op, maxCandidates) == Ok(albums);
      ChangeRemembers(before, Start(album, release, op, maxCandidates));
      return Ok(());
    }

    method ConfirmImported(albumId: string) returns (confirmed: bool)
      modifies this
      ensures Imported(old(albums), albumId) == (albums, confirmed)
    {
      if albumId !in albums || albums[albumId].active.None? {
        return false;
      }
      albums := albums[albumId := albums[albumId].(active := None, candidatesUsed := 0, candidateLimit := None)];
      return true;
    }

    method CompleteCycle(album: LidarrAlbum, policy: SearchPolicy, now: int) returns (r: Result<()>)
      modifies this
      ensures r.Ok? ==> CycleCompleted(old(albums), album, policy, now) == Ok(albums)
      ensures r.Raised? ==> albums == old(albums)
    {
      hide LidarrAlbum.Valid;
      if now < 0 {
        return Raised;
      }
      var c :- CycleOf(album);
      c := c.(lastCompletedAt := Some(now));
      c := c.(completedCycles := c.completedCycles + 1);
      c := c.(terminal := now >= album.releasedAt + policy.schedule.Horizon());
      c := c.(candidatesUsed := 0, candidateLimit := None);
      albums := albums[album.albumId := c];
      return Ok(());
    }

    /** A verdict changes its album only the first time, and only if it names the active candidate. */
    method ApplyFenceInvalidation(v: Verdict, now: int) returns (r: Result<bool>)
      modifies this
      ensures match VerdictApplied(old(albums), v, now)
              case Ok((after, applied)) => r == Ok(applied) && albums == after
              case Raised => r.Raised? && albums == old(albums)
    {
      hide CanonicalUuid, PositiveDecimal, LowerHex;
      if now < 0 || !v.Valid() {
        return Raised;
      }
      if v.albumId !in albums {
        return Ok(false);
      }
      var c := albums[v.albumId];
      if v.invalidationId in c.appliedInvalidations {
        return Ok(true);
      }
      if c.active.None? || c.active.value.operationId != v.operationId
         || c.active.value.selectorFingerprint != v.selectorFingerprint {
        return Ok(false);
      }
      if c.active.value.canonicalHash.Some? && c.active.value.canonicalHash.value != v.canonicalHash {
        return Ok(false);
      }
      var next := c.(rejectedSelectors := c.rejectedSelectors + {v.selectorFingerprint});
      if c.active.value.canonicalHash.Some? {
        next := next.(rejectedHashes := next.rejectedHashes + {c.active.value.canonicalHash.value});
      }
      next := next.(rejectedHashes := next.rejectedHashes + {v.canonicalHash});
      next := next.(active := None);
      next := next.(appliedInvalidations := next.appliedInvalidations + {v.invalidationId});
      if next.candidateLimit.Some? && next.candidatesUsed >= next.candidateLimit.value {
        next := next.(lastCompletedAt := Some(now), completedCycles := next.completedCycles + 1);
        next := next.(candidatesUsed := 0, candidateLimit := None);
      }
      assert c.rejectedHashes + {} == c.rejectedHashes;
      assert next == Judged(c, v, now);
      albums := albums[v.albumId := next];
      return Ok(true);
    }
  }
}
