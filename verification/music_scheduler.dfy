/** The music scheduler and its handshake with Fence: verdicts are delivered until acknowledged,
    and each changes its album once. */
module MusicHandshake {
  import opened Common
  import opened MusicSchedule
  import opened SearchBudget

  /** One verdict of one album. */
  type VerdictKey = (string, string)

  datatype Acknowledging = Idle | Applied(key: VerdictKey) | Stored(key: VerdictKey)

  /** Each log lists the verdicts that changed the albums beside it, in order. */
  datatype Desk = Desk(durable: Albums, durableLog: seq<VerdictKey>, working: Albums, workingLog: seq<VerdictKey>,
                       call: Acknowledging, acknowledged: set<VerdictKey>)

  datatype DeskLabel =
    | Alter(change: Change)
    | Deliver(verdict: Verdict, now: int)
    | Save
    | Acknowledge(key: VerdictKey)
    | EndCall
    | Restart

  function KeyOf(v: Verdict): VerdictKey {
    (v.albumId, v.invalidationId)
  }

  /** A delivery may come any number of times; a crash may come between any two steps. */
  ghost predicate DeskStep(s: Desk, lab: DeskLabel, t: Desk) {
    match lab
    case Alter(change) =>
      && !change.Judge? && Changed(s.working, change).Ok?
      && t == s.(working := Changed(s.working, change).value)
    case Deliver(v, now) =>
      && VerdictApplied(s.working, v, now).Ok?
      && var (after, applied) := VerdictApplied(s.working, v, now).value;
         t == s.(working := after, workingLog := if after != s.working then s.workingLog + [KeyOf(v)] else s.workingLog,
                 call := if applied then Applied(KeyOf(v)) else Idle)
    case Save => t == s.(durable := s.working, durableLog := s.workingLog,
                         call := if s.call.Applied? then Stored(s.call.key) else s.call)
    case Acknowledge(key) => s.call == Stored(key) && t == s.(call := Idle, acknowledged := s.acknowledged + {key})
    case EndCall => t == s.(call := Idle)
    case Restart => t == s.(working := s.durable, workingLog := s.durableLog, call := Idle)
  }

  predicate Remembered(albums: Albums, key: VerdictKey) {
    key.0 in albums && key.1 in albums[key.0].appliedInvalidations
  }

  predicate NoRepeat(log: seq<VerdictKey>) {
    forall i, j :: 0 <= i < j < |log| ==> log[i] != log[j]
  }

  predicate LogRemembered(albums: Albums, log: seq<VerdictKey>) {
    forall i :: 0 <= i < |log| ==> Remembered(albums, log[i])
  }

  ghost predicate DeskInv(s: Desk) {
    && AllAllowed(s.working) && AllAllowed(s.durable)
    && Remembers(s.working, s.durable) && s.durableLog <= s.workingLog
    && NoRepeat(s.workingLog) && LogRemembered(s.working, s.workingLog) && LogRemembered(s.durable, s.durableLog)
    && (forall key :: key in s.acknowledged ==> Remembered(s.durable, key))
    && (s.call.Applied? ==> Remembered(s.working, s.call.key))
    && (s.call.Stored? ==> Remembered(s.durable, s.call.key))
  }

  lemma RemembersTransitive(a: Albums, b: Albums, c: Albums)
    requires Remembers(b, a) && Remembers(c, b)
    ensures Remembers(c, a)
  {
  }

  lemma StillRemembered(later: Albums, earlier: Albums, log: seq<VerdictKey>)
    requires Remembers(later, earlier)
    ensures LogRemembered(earlier, log) ==> LogRemembered(later, log)
    ensures forall key :: Remembered(earlier, key) ==> Remembered(later, key)
  {
  }

  lemma AlterKeepsInv(s: Desk, change: Change, t: Desk)
    requires DeskInv(s) && DeskStep(s, Alter(change), t)
    ensures DeskInv(t)
  {
    ChangeRemembers(s.working, change);
    RemembersTransitive(s.durable, s.working, t.working);
    StillRemembered(t.working, s.working, s.workingLog);
    hide Changed, Remembers, AllAllowed, LogRemembered, Remembered;
  }

  lemma DeliverKeepsInv(s: Desk, v: Verdict, now: int, t: Desk)
    requires DeskInv(s) && DeskStep(s, Deliver(v, now), t)
    ensures DeskInv(t)
  {
    ChangeRemembers(s.working, Judge(v, now));
    VerdictIsRemembered(s.working, v, now);
    RemembersTransitive(s.durable, s.working, t.working);
    StillRemembered(t.working, s.working, s.workingLog);
    if t.working != s.working {
      assert KeyOf(v) !in s.workingLog;
    }
    hide VerdictApplied, Remembers, AllAllowed;
  }

  lemma DeskStepKeepsInv(s: Desk, lab: DeskLabel, t: Desk)
    requires DeskInv(s) && DeskStep(s, lab, t)
    ensures DeskInv(t)
  {
    match lab {
      case Alter(change) => AlterKeepsInv(s, change, t);
      case Deliver(v, now) => DeliverKeepsInv(s, v, now, t);
      case Save => SaveKeepsInv(s, t);
      case _ => RestKeepsInv(s, lab, t);
    }
    hide DeskInv, DeskStep;
  }

  lemma SaveKeepsInv(s: Desk, t: Desk)
    requires DeskInv(s) && DeskStep(s, Save, t)
    ensures DeskInv(t)
  {
    StillRemembered(s.working, s.durable, s.durableLog);
    hide AllAllowed, LogRemembered, Remembered;
  }

  lemma RestKeepsInv(s: Desk, lab: DeskLabel, t: Desk)
    requires DeskInv(s) && DeskStep(s, lab, t) && (lab.Acknowledge? || lab.EndCall? || lab.Restart?)
    ensures DeskInv(t)
  {
    hide AllAllowed, LogRemembered, Remembered;
  }

  // Whole runs.

  ghost predicate DeskNext(s: Desk, t: Desk) {
    exists lab :: DeskStep(s, lab, t)
  }

  ghost predicate DeskRun(run: seq<Desk>) {
    && run != [] && run[0] == Desk(map[], [], map[], [], Idle, {})
    && forall i :: 0 < i < |run| ==> DeskNext(run[i - 1], run[i])
  }

  lemma {:induction false} DeskAlways(run: seq<Desk>, i: nat)
    requires DeskRun(run) && i < |run|
    ensures DeskInv(run[i])
  {
    if i > 0 {
      hide DeskStep, DeskInv;
      DeskAlways(run, i - 1);
      assert DeskNext(run[i - 1], run[i]);
      var lab :| DeskStep(run[i - 1], lab, run[i]);
      DeskStepKeepsInv(run[i - 1], lab, run[i]);
    }
  }

  /** Exactly once: a verdict changes its album at most once, in memory and in the store, and is
      acknowledged only when the change is durable. */
  lemma VerdictExactlyOnce(run: seq<Desk>, i: nat, a: nat, b: nat)
    requires DeskRun(run) && i < |run|
    requires a < |run[i].workingLog| && b < |run[i].workingLog| && run[i].workingLog[a] == run[i].workingLog[b]
    ensures a == b
    ensures run[i].durableLog <= run[i].workingLog
    ensures forall key :: key in run[i].acknowledged ==> Remembered(run[i].durable, key)
  {
    DeskAlways(run, i);
  }

  lemma {:induction false} DurableRemembers(run: seq<Desk>, i: nat, j: nat)
    requires DeskRun(run) && i <= j < |run|
    ensures Remembers(run[j].durable, run[i].durable)
    decreases j
  {
    if i < j {
      DurableRemembers(run, i, j - 1);
      DeskAlways(run, j - 1);
      assert DeskNext(run[j - 1], run[j]);
      var lab :| DeskStep(run[j - 1], lab, run[j]);
      hide Changed, VerdictApplied, AllAllowed, LogRemembered, Remembered, NoRepeat;
      if lab.Save? {
        RemembersTransitive(run[i].durable, run[j - 1].durable, run[j].durable);
      }
    }
  }

  /** What was durably rejected for an album is never its active release again, in memory or in the store. */
  lemma RejectedNeverActive(run: seq<Desk>, i: nat, j: nat, album: string, active: ActiveCandidate)
    requires DeskRun(run) && i <= j < |run| && album in run[i].durable
    requires (album in run[j].working && run[j].working[album].active == Some(active))
             || (album in run[j].durable && run[j].durable[album].active == Some(active))
    ensures !run[i].durable[album].Rejects(active.selectorFingerprint, active.canonicalHash)
  {
    DeskAlways(run, j);
    DurableRemembers(run, i, j);
    RemembersTransitive(run[i].durable, run[j].durable, run[j].working);
    hide DeskRun, LogRemembered, NoRepeat;
    assert album in run[j].working && run[j].working[album].ActiveAllowed();
    assert album in run[j].durable && run[j].durable[album].ActiveAllowed();
  }

  /** A step whose change, if any, can be read back. */
  predicate LabelReloads(s: Desk, lab: DeskLabel) {
    match lab
    case Alter(change) => ChangeReloads(s.working, change)
    case Deliver(v, now) => ChangeReloads(s.working, Judge(v, now))
    case _ => true
  }

  ghost predicate ReadableStep(s: Desk, t: Desk) {
    exists lab :: DeskStep(s, lab, t) && LabelReloads(s, lab)
  }

  lemma DeskStepReloads(s: Desk, lab: DeskLabel, t: Desk)
    requires DeskStep(s, lab, t) && AllReload(s.working) && AllReload(s.durable)
    ensures AllReload(t.working) && AllReload(t.durable) <==> LabelReloads(s, lab)
  {
    hide AllReload, ChangeReloads, VerdictApplied;
    match lab {
      case Alter(change) => ChangeReloadsIff(s.working, change);
      case Deliver(v, now) => ChangeReloadsIff(s.working, Judge(v, now));
      case _ =>
    }
  }

  /** Along a run of such steps, what is stored can be read back wherever the run is cut. */
  lemma {:induction false} DeskReloads(run: seq<Desk>, i: nat)
    requires DeskRun(run) && i < |run| && forall k :: 0 < k < |run| ==> ReadableStep(run[k - 1], run[k])
    ensures AllReload(run[i].working) && AllReload(run[i].durable)
  {
    hide DeskStep, LabelReloads;
    if i > 0 {
      hide AllReload;
      DeskReloads(run, i - 1);
      assert ReadableStep(run[i - 1], run[i]);
      var lab :| DeskStep(run[i - 1], lab, run[i]) && LabelReloads(run[i - 1], lab);
      DeskStepReloads(run[i - 1], lab, run[i]);
    }
  }

  lemma DeskExtend(run: seq<Desk>, lab: DeskLabel, t: Desk)
    requires DeskRun(run) && DeskStep(run[|run| - 1], lab, t)
    ensures DeskRun(run + [t])
  {
    hide DeskStep;
    forall i | 0 < i < |run + [t]|
      ensures DeskNext((run + [t])[i - 1], (run + [t])[i])
    {
      if i < |run| {
        assert DeskNext(run[i - 1], run[i]);
      }
    }
  }

  // What one scheduling run may touch.

  ghost predicate OnlyAlbum(before: Albums, after: Albums, id: string) {
    forall k :: k != id ==> (k in before <==> k in after) && (k in before ==> after[k] == before[k])
  }

  /** The album, looked at in these albums, may be searched now. */
  predicate DueAt(albums: Albums, album: LidarrAlbum, policy: SearchPolicy, now: int, maxCandidates: int) {
    Known(albums, album).Ok? && DueIn(Known(albums, album).value[album.albumId], policy, now, maxCandidates) == Ok(true)
  }

  /** Apart from these albums, cycles are as they were or were opened by a look. */
  predicate UntouchedBut(before: Albums, after: Albums, ids: set<string>) {
    && (forall id :: id in before && id !in ids ==> id in after && after[id] == before[id])
    && (forall id :: id in after && id !in before && id !in ids ==> after[id] == NewCycle(after[id].releasedAt))
  }

  function ActiveIn(albums: Albums): set<string> {
    set id | id in albums && albums[id].active.Some?
  }

  function IdsOf(albums: seq<LidarrAlbum>): set<string> {
    set i | 0 <= i < |albums| :: albums[i].albumId
  }

  /** What a run does for an active candidate that is no longer missing. */
  ghost predicate Converged(before: Albums, after: Albums, gone: set<string>, imported: set<string>) {
    forall id :: id in before && id in gone ==>
      id in after && after[id] == if id in imported then Imported(before, id).0[id] else before[id]
  }

  /** Each searched album is missing, monitored and was due, or was searched before in this run. */
  ghost predicate Searches(before: Albums, albums: seq<LidarrAlbum>, searched: seq<LidarrAlbum>, policy: SearchPolicy,
                           now: int, maxCandidates: int) {
    forall k :: 0 <= k < |searched| ==>
      && searched[k] in albums && searched[k].monitored
      && (DueAt(before, searched[k], policy, now, maxCandidates) || searched[k].albumId in IdsOf(searched[..k]))
  }

  /** No monitored album that was due is left unsearched. */
  ghost predicate NoneLeft(before: Albums, albums: seq<LidarrAlbum>, upto: nat, searched: seq<LidarrAlbum>,
                           policy: SearchPolicy, now: int, maxCandidates: int)
    requires upto <= |albums|
  {
    forall i :: 0 <= i < upto && albums[i].monitored && DueAt(before, albums[i], policy, now, maxCandidates) ==>
      albums[i].albumId in IdsOf(searched)
  }

  lemma NothingSearched(before: Albums, albums: seq<LidarrAlbum>, policy: SearchPolicy, now: int, maxCandidates: int)
    ensures UntouchedBut(before, before, IdsOf([])) && Searches(before, albums, [], policy, now, maxCandidates)
    ensures NoneLeft(before, albums, 0, [], policy, now, maxCandidates)
  {
    hide DueAt;
  }

  lemma PassedOver(before: Albums, albums: seq<LidarrAlbum>, i: nat, searched: seq<LidarrAlbum>, policy: SearchPolicy,
                   now: int, maxCandidates: int)
    requires i < |albums| && NoneLeft(before, albums, i, searched, policy, now, maxCandidates)
    requires !albums[i].monitored || albums[i].albumId in IdsOf(searched)
             || !DueAt(before, albums[i], policy, now, maxCandidates)
    ensures NoneLeft(before, albums, i + 1, searched, policy, now, maxCandidates)
  {
    hide DueAt, IdsOf;
  }

  lemma SearchedNext(before: Albums, albums: seq<LidarrAlbum>, i: nat, searched: seq<LidarrAlbum>, policy: SearchPolicy,
                     now: int, maxCandidates: int)
    requires i < |albums| && albums[i].monitored
    requires NoneLeft(before, albums, i, searched, policy, now, maxCandidates)
    requires Searches(before, albums, searched, policy, now, maxCandidates)
    requires DueAt(before, albums[i], policy, now, maxCandidates) || albums[i].albumId in IdsOf(searched)
    ensures IdsOf(searched + [albums[i]]) == IdsOf(searched) + {albums[i].albumId}
    ensures NoneLeft(before, albums, i + 1, searched + [albums[i]], policy, now, maxCandidates)
    ensures Searches(before, albums, searched + [albums[i]], policy, now, maxCandidates)
  {
    hide DueAt;
    var longer := searched + [albums[i]];
    assert forall k :: 0 <= k < |searched| ==> longer[k] == searched[k];
    assert forall k :: 0 <= k <= |searched| ==> longer[..k] == searched[..k];
    assert longer[..|searched|] == searched && longer[|searched|] == albums[i];
    forall id | id in IdsOf(searched)
      ensures id in IdsOf(longer)
    {
      var k :| 0 <= k < |searched| && searched[k].albumId == id;
      assert longer[k].albumId == id;
    }
  }

  /** Giving up albums that are not missing changes no missing album's being due. */
  lemma SearchesFrom(before: Albums, after: Albums, albums: seq<LidarrAlbum>, searched: seq<LidarrAlbum>,
                     policy: SearchPolicy, now: int, maxCandidates: int)
    requires after.Keys == before.Keys
    requires forall id :: id in before && id in IdsOf(albums) ==> after[id] == before[id]
    ensures Searches(after, albums, searched, policy, now, maxCandidates) ==>
      Searches(before, albums, searched, policy, now, maxCandidates)
    ensures NoneLeft(after, albums, |albums|, searched, policy, now, maxCandidates) ==>
      NoneLeft(before, albums, |albums|, searched, policy, now, maxCandidates)
  {
    forall a | a in albums
      ensures DueAt(after, a, policy, now, maxCandidates) <==> DueAt(before, a, policy, now, maxCandidates)
    {
      assert a.albumId in IdsOf(albums);
      hide DueIn, PositiveDecimal;
    }
    hide DueAt;
    assert forall i :: 0 <= i < |albums| ==> albums[i] in albums;
  }

  lemma ConvergedStays(before: Albums, confirmed: Albums, after: Albums, gone: set<string>, imported: set<string>,
                       albums: seq<LidarrAlbum>, searched: seq<LidarrAlbum>, policy: SearchPolicy, now: int,
                       maxCandidates: int)
    requires Converged(before, confirmed, gone, imported) && gone !! IdsOf(albums)
    requires UntouchedBut(confirmed, after, IdsOf(searched))
             && Searches(before, albums, searched, policy, now, maxCandidates)
    ensures Converged(before, after, gone, imported)
  {
    SearchedAreMissing(before, albums, searched, policy, now, maxCandidates);
    hide Searches, IdsOf;
  }

  lemma SearchedAreMissing(before: Albums, albums: seq<LidarrAlbum>, searched: seq<LidarrAlbum>, policy: SearchPolicy,
                           now: int, maxCandidates: int)
    requires Searches(before, albums, searched, policy, now, maxCandidates)
    ensures IdsOf(searched) <= IdsOf(albums)
  {
    hide DueAt;
    forall k | 0 <= k < |searched|
      ensures searched[k].albumId in IdsOf(albums)
    {
      assert searched[k] in albums;
    }
  }

  lemma LookKeepsUntouched(before: Albums, albums: Albums, album: LidarrAlbum, ids: set<string>, policy: SearchPolicy,
                           now: int, maxCandidates: int)
    requires UntouchedBut(before, albums, ids) && Known(albums, album).Ok?
    ensures UntouchedBut(before, Known(albums, album).value, ids)
    ensures album.albumId !in ids ==>
      (DueAt(before, album, policy, now, maxCandidates) <==> DueAt(albums, album, policy, now, maxCandidates))
  {
    hide DueIn, PositiveDecimal;
  }

  lemma SearchKeepsUntouched(before: Albums, albums: Albums, after: Albums, id: string, ids: set<string>)
    requires UntouchedBut(before, albums, ids) && OnlyAlbum(albums, after, id)
    ensures UntouchedBut(before, after, ids + {id})
  {
  }

  lemma SameAlbums(albums: Albums, id: string)
    ensures OnlyAlbum(albums, albums, id)
  {
  }

  lemma StartsOneAlbum(albums: Albums, album: LidarrAlbum, release: LidarrRelease, op: string, maxCandidates: int)
    requires Started(albums, album, release, op, maxCandidates).Ok?
    ensures OnlyAlbum(albums, Started(albums, album, release, op, maxCandidates).value, album.albumId)
  {
    hide CanonicalUuid, PositiveDecimal;
  }

  lemma CompletesOneAlbum(albums: Albums, album: LidarrAlbum, policy: SearchPolicy, now: int)
    requires CycleCompleted(albums, album, policy, now).Ok?
    ensures OnlyAlbum(albums, CycleCompleted(albums, album, policy, now).value, album.albumId)
  {
    hide PositiveDecimal;
  }

  /** How one album of a search ended: not searched, or by the answer about its releases. */
  datatype Visited = Passed | Stopped | Silent | Unchosen | Chosen

  datatype RunResult = RunResult(searched: int, grabbed: int, noCandidate: int, unavailable: int, pending: int)

  class MusicScheduler {
    const state: MusicScheduleState
    const budget: BudgetLog
    const policy: SearchPolicy
    const maxCandidates: int
    ghost var durable: Albums
    ghost var durableLog: seq<VerdictKey>
    ghost var workingLog: seq<VerdictKey>
    ghost var call: Acknowledging
    ghost var acknowledged: set<VerdictKey>
    ghost var run: seq<Desk>

    ghost function Now(): Desk
      reads this, state
    {
      Desk(durable, durableLog, state.albums, workingLog, call, acknowledged)
    }

    ghost predicate Valid()
      reads this, state, budget
    {
      && run != [] && DeskRun(run) && run[|run| - 1] == Now()
      && budget.Valid()
    }

    constructor (policy: SearchPolicy, maxCandidates: int)
      ensures Valid() && fresh(state) && fresh(budget)
    {
      state := new MusicScheduleState();
      budget := new BudgetLog();
      this.policy, this.maxCandidates := policy, maxCandidates;
      durable, durableLog, workingLog, call, acknowledged := map[], [], [], Idle, {};
      run := [Desk(map[], [], map[], [], Idle, {})];
    }

    ghost method Extend(lab: DeskLabel)
      requires run != [] && DeskRun(run) && DeskStep(run[|run| - 1], lab, Now()) && budget.Valid()
      modifies this`run
      ensures Valid()
    {
      DeskExtend(run, lab, Now());
      run := run + [Now()];
    }

    method Save() returns (saved: bool)
      requires Valid()
      modifies this`durable, this`durableLog, this`call, this`run
      ensures Valid()
      ensures saved ==> durable == state.albums && (old(call).Applied? ==> call == Stored(old(call).key))
      ensures !saved ==> durable == old(durable) && call == old(call)
    {
      hide DeskRun, BudgetLog.Valid;
      saved := *;
      if saved {
        durable, durableLog := state.albums, workingLog;
        call := if call.Applied? then Stored(call.key) else call;
        Extend(DeskLabel.Save);
      }
    }

    /** True is answered only after the applied verdict is durable. */
    method ApplyFenceInvalidation(v: Verdict, now: int) returns (r: Result<bool>)
      requires Valid()
      modifies this`durable, this`durableLog, this`workingLog, this`call, this`run, state
      ensures Valid() && acknowledged == old(acknowledged)
      ensures r == Ok(true) ==> call == Stored(KeyOf(v)) && Remembered(durable, KeyOf(v))
    {
      hide DeskRun, VerdictApplied, BudgetLog.Valid;
      ghost var before := state.albums;
      var applied :- state.ApplyFenceInvalidation(v, now);
      VerdictIsRemembered(before, v, now);
      workingLog := if state.albums != before then workingLog + [KeyOf(v)] else workingLog;
      call := if applied then Applied(KeyOf(v)) else Idle;
      Extend(DeskLabel.Deliver(v, now));
      if applied {
        var saved := Save();
        if !saved {
          return Raised;
        }
      }
      return Ok(applied);
    }

    /** One delivery of the tick: applied, saved and only then acknowledged to Fence. */
    method HandleInvalidation(v: Verdict, now: int) returns (r: Result<bool>)
      requires Valid()
      modifies this, state
      ensures Valid()
      ensures acknowledged == old(acknowledged)
              || (acknowledged == old(acknowledged) + {KeyOf(v)} && Remembered(durable, KeyOf(v)))
      ensures r == Ok(true) ==> KeyOf(v) in acknowledged
    {
      hide DeskRun, BudgetLog.Valid, Remembered;
      var applied :- ApplyFenceInvalidation(v, now);
      if applied {
        acknowledged := acknowledged + {KeyOf(v)};
        call := Idle;
        Extend(Acknowledge(KeyOf(v)));
      }
      return Ok(applied);
    }

    /** Any change of a cycle other than a verdict. */
    ghost method Altered(change: Change, before: Albums)
      requires run != [] && DeskRun(run) && run[|run| - 1] == Now().(working := before) && budget.Valid()
      requires !change.Judge? && Changed(before, change) == Ok(state.albums)
      modifies this`run
      ensures Valid()
    {
      hide DeskRun, Changed, BudgetLog.Valid;
      Extend(Alter(change));
    }

    // One scheduling run.

    /** Whether the album may be searched now; looking creates its cycle. */
    method DueNow(album: LidarrAlbum, now: int) returns (r: Result<bool>)
      requires Valid()
      modifies this`run, state
      ensures Valid() && budget.history == old(budget.history)
      ensures r.Ok? ==>
        && Known(old(state.albums), album) == Ok(state.albums)
        && (r.value <==> DueAt(old(state.albums), album, policy, now, maxCandidates))
    {
      hide DeskRun, BudgetLog.Valid, Known, DueIn;
      ghost var before := state.albums;
      r := state.Due(album, policy, now, maxCandidates);
      if r.Ok? {
        Altered(Look(album), before);
      } else {
        assert Now().(working := before) == Now();
      }
    }

    predicate RejectedFor(albumId: string, r: LidarrRelease)
      reads state
    {
      albumId in state.albums && state.albums[albumId].Rejects(r.selectorFingerprint, r.canonicalHash)
    }

    /** The releases that were not rejected for the album. */
    method Allowed(albumId: string, releases: seq<LidarrRelease>) returns (allowed: seq<LidarrRelease>)
      ensures forall r ::
        r in allowed ==>
          && r in releases
          && !(albumId in state.albums && state.albums[albumId].Rejects(r.selectorFingerprint, r.canonicalHash))
      ensures forall r :: r in releases && !RejectedFor(albumId, r) ==> r in allowed
    {
      allowed := [];
      var i := 0;
      while i < |releases|
        invariant 0 <= i <= |releases|
        invariant forall r ::
          r in allowed ==>
            && r in releases
            && !(albumId in state.albums && state.albums[albumId].Rejects(r.selectorFingerprint, r.canonicalHash))
        invariant forall j :: 0 <= j < i && !RejectedFor(albumId, releases[j]) ==> releases[j] in allowed
      {
        if !RejectedFor(albumId, releases[i]) {
          allowed := allowed + [releases[i]];
        }
        i := i + 1;
      }
    }

    /** Closes the cycle of an album without a candidate, or starts one; both are saved before use. */
    method Choose(album: LidarrAlbum, releases: seq<LidarrRelease>, now: int) returns (r: Result<bool>)
      requires Valid()
      modifies this, state
      ensures Valid() && budget.history == old(budget.history)
      ensures r == Ok(true) ==> album.albumId in durable && durable[album.albumId].active.Some?
      ensures r.Ok? ==> OnlyAlbum(old(state.albums), state.albums, album.albumId)
    {
      hide DeskRun, BudgetLog.Valid, Known, Started, CycleCompleted, OnlyAlbum;
      ghost var before := state.albums;
      var allowed := Allowed(album.albumId, releases);
      var found: bool, choice: nat, op: string := *, *, *;
      if !found || choice >= |allowed| {
        var completed := state.CompleteCycle(album, policy, now);
        if completed.Raised? {
          assert Now().(working := before) == Now();
          return Raised;
        }
        Altered(Complete(album, policy, now), before);
        CompletesOneAlbum(before, album, policy, now);
        var saved := Save();
        return if saved then Ok(false) else Raised;
      }
      var started := state.StartCandidate(album, allowed[choice], op, now, maxCandidates);
      if started.Raised? {
        if state.albums != before {
          Altered(Look(album), before);
        }
        return Raised;
      }
      Altered(Start(album, allowed[choice], op, maxCandidates), before);
      StartedIsActive(before, album, allowed[choice], op, maxCandidates);
      StartsOneAlbum(before, album, allowed[choice], op, maxCandidates);
      var saved := Save();
      return if saved then Ok(true) else Raised;
    }

    /** Both windows that end now are within their maxima, as far as the log still holds them. */
    ghost predicate Within(now: int)
      reads budget
    {
      && (StillLogged(budget.history, now - HOUR) ==> Since(budget.history, now - HOUR) < policy.maxSearchesPerHour)
      && (StillLogged(budget.history, now - DAY) ==> Since(budget.history, now - DAY) < policy.maxSearchesPerDay)
    }

    method WithinBudget(now: int) returns (within: bool)
      requires Valid()
      ensures within ==> Within(now)
      ensures !within ==> Exhausted(now)
    {
      hide DeskRun, StillLogged, Since;
      within := budget.WithinBudget(now, policy.maxSearchesPerHour, policy.maxSearchesPerDay);
    }

    method RecordSearch(now: int) returns (recorded: bool)
      requires Valid() && Within(now)
      modifies budget
      ensures Valid() && budget.history == if recorded then old(budget.history) + [now] else old(budget.history)
      ensures recorded <==> now >= 0
      ensures Guarded(old(budget.history), now, HOUR, policy.maxSearchesPerHour) ==>
        Guarded(budget.history, now, HOUR, policy.maxSearchesPerHour)
      ensures Guarded(old(budget.history), now, DAY, policy.maxSearchesPerDay) ==>
        Guarded(budget.history, now, DAY, policy.maxSearchesPerDay)
    {
      hide DeskRun, BudgetLog.Valid, Paced, Since, StillLogged;
      if Guarded(budget.history, now, HOUR, policy.maxSearchesPerHour) {
        SearchKeepsGuarded(budget.history, now, HOUR, policy.maxSearchesPerHour);
      }
      if Guarded(budget.history, now, DAY, policy.maxSearchesPerDay) {
        SearchKeepsGuarded(budget.history, now, DAY, policy.maxSearchesPerDay);
      }
      recorded := budget.RecordEvent(now);
    }

    /** Searches one due album: recorded in the budget and saved before its answer is used. */
    method SearchAlbum(album: LidarrAlbum, now: int) returns (r: Result<Option<bool>>)
      requires Valid() && Within(now)
      modifies this, state, budget
      ensures Valid() && (r.Ok? ==> budget.history == old(budget.history) + [now])
      ensures r.Ok? ==> OnlyAlbum(old(state.albums), state.albums, album.albumId)
      ensures Guarded(old(budget.history), now, HOUR, policy.maxSearchesPerHour) ==>
        Guarded(budget.history, now, HOUR, policy.maxSearchesPerHour)
      ensures Guarded(old(budget.history), now, DAY, policy.maxSearchesPerDay) ==>
        Guarded(budget.history, now, DAY, policy.maxSearchesPerDay)
    {
      hide DeskRun, BudgetLog.Valid, Guarded, OnlyAlbum;
      SameAlbums(state.albums, album.albumId);
      var reachable: bool, releases: seq<LidarrRelease> := *, *;
      var recorded := RecordSearch(now);
      if !recorded {
        return Raised;
      }
      var saved := Save();
      if !saved {
        return Raised;
      }
      if !reachable {
        return Ok(None);
      }
      var chosen :- Choose(album, releases, now);
      return Ok(Some(chosen));
    }

    /** The albums whose sealed candidate is still active. */
    method ActiveAlbums() returns (active: set<string>)
      ensures active == ActiveIn(state.albums)
    {
      active := set id | id in state.albums && state.albums[id].active.Some?;
    }

    /** Candidates of albums that Lidarr no longer misses are given up exactly where their import is
        known. */
    method ConfirmMissing(gone: set<string>, imported: set<string>) returns (saved: bool)
      requires Valid() && forall id :: id in gone ==> id in state.albums && state.albums[id].active.Some?
      modifies this, state
      ensures Valid() && budget.history == old(budget.history)
      ensures state.albums.Keys == old(state.albums).Keys
      ensures forall id :: id in old(state.albums) && id !in gone ==> state.albums[id] == old(state.albums)[id]
      ensures saved ==> Converged(old(state.albums), state.albums, gone, imported)
    {
      hide DeskRun, BudgetLog.Valid, Changed;
      var todo := gone;
      while todo != {}
        invariant Valid() && budget.history == old(budget.history) && todo <= gone
        invariant state.albums.Keys == old(state.albums).Keys
        invariant forall id ::
          id in old(state.albums) && (id !in gone || id in todo) ==> state.albums[id] == old(state.albums)[id]
        invariant Converged(old(state.albums), state.albums, gone - todo, imported)
        decreases todo
      {
        var id :| id in todo;
        todo := todo - {id};
        if id in imported {
          ghost var before := state.albums;
          var confirmed := state.ConfirmImported(id);
          ConfirmIsChange(before, id);
          Altered(Confirm(id), before);
          if confirmed {
            saved := Save();
            if !saved {
              return;
            }
          }
        }
      }
      saved := true;
    }

    /** A window that ends now is full, as far as the log still counts it. */
    ghost predicate Exhausted(now: int)
      reads budget
    {
      || Since(budget.history, now - HOUR) >= policy.maxSearchesPerHour
      || Since(budget.history, now - DAY) >= policy.maxSearchesPerDay
    }

    /** Gives up what is known to be imported, recovers every other sealed candidate whatever the
        limits, then searches the monitored due albums until one of them is reached.  `imported`
        are the albums whose import the callback confirms. */
    method Run(missing: Option<seq<LidarrAlbum>>, imported: set<string>, now: int)
      returns (r: Result<RunResult>, ghost recovered: set<string>, ghost searched: seq<LidarrAlbum>, ghost grabs: nat)
      requires Valid()
      modifies this, state, budget
      ensures Valid()
      ensures recovered == ActiveIn(old(state.albums))
                           * if missing.Some? then IdsOf(missing.value) else old(state.albums).Keys
      ensures r.Ok? && missing.Some? ==>
        && Converged(old(state.albums), state.albums, ActiveIn(old(state.albums)) - IdsOf(missing.value), imported)
        && Searches(old(state.albums), missing.value, searched, policy, now, maxCandidates)
      ensures r.Ok? && missing.Some? ==>
        || NoneLeft(old(state.albums), missing.value, |missing.value|, searched, policy, now, maxCandidates)
        || |searched| >= policy.maxSearchesPerRun || grabs >= policy.maxGrabsPerRun || Exhausted(now)
      ensures r.Ok? && missing.None? ==> searched == [] && state.albums == old(state.albums)
      ensures r.Ok? ==>
        && r.value.searched == |searched| && |budget.history| == |old(budget.history)| + |searched|
        && (searched == [] || |searched| <= policy.maxSearchesPerRun)
      ensures r.Ok? ==>
        && r.value.grabbed + r.value.pending <= grabs
        && (grabs == |recovered| || |recovered| < grabs <= policy.maxGrabsPerRun)
      ensures Guarded(old(budget.history), now, HOUR, policy.maxSearchesPerHour) ==>
        && Guarded(budget.history, now, HOUR, policy.maxSearchesPerHour)
        && forall end :: Window(budget.history, end, HOUR) <= policy.maxSearchesPerHour
      ensures Guarded(old(budget.history), now, DAY, policy.maxSearchesPerDay) ==>
        && Guarded(budget.history, now, DAY, policy.maxSearchesPerDay)
        && forall end :: Window(budget.history, end, DAY) <= policy.maxSearchesPerDay
    {
      hide DeskRun, BudgetLog.Valid, Guarded, Window, StillLogged, Since, Searches, NoneLeft, UntouchedBut, Exhausted;
      GuardedBounds(budget.history, now, HOUR, policy.maxSearchesPerHour);
      GuardedBounds(budget.history, now, DAY, policy.maxSearchesPerDay);
      ghost var before := state.albums;
      searched, grabs := [], 0;
      var active := ActiveAlbums();
      var albums := if missing.Some? then missing.value else [];
      var known := set i | 0 <= i < |albums| :: albums[i].albumId;
      var candidates := if missing.Some? then active * known else active;
      recovered := candidates;
      assert missing.None? ==> active == active * before.Keys;
      if missing.Some? {
        var saved := ConfirmMissing(active - known, imported);
        if !saved {
          return Raised, recovered, searched, grabs;
        }
      }
      ghost var confirmed := state.albums;
      var result, count := Recovered(candidates);
      grabs := count;
      if missing.None? {
        return Ok(result.(unavailable := result.unavailable + 1)), recovered, searched, grabs;
      }
      r, searched, grabs := SearchMissing(albums, now, result, count);
      if r.Ok? {
        SearchesFrom(before, confirmed, albums, searched, policy, now, maxCandidates);
        ConvergedStays(before, confirmed, state.albums, active - known, imported, albums, searched, policy, now,
                       maxCandidates);
      }
      GuardedBounds(budget.history, now, HOUR, policy.maxSearchesPerHour);
      GuardedBounds(budget.history, now, DAY, policy.maxSearchesPerDay);
    }

    /** Sends every sealed candidate again; each counts as a grab of this run. */
    method Recovered(candidates: set<string>) returns (result: RunResult, grabs: nat)
      ensures grabs == |candidates| && result.searched == 0
      ensures 0 <= result.grabbed && 0 <= result.pending && result.grabbed + result.pending <= grabs
    {
      result, grabs := RunResult(0, 0, 0, 0, 0), 0;
      var todo := candidates;
      while todo != {}
        invariant grabs + |todo| == |candidates| && result.searched == 0
        invariant 0 <= result.grabbed && 0 <= result.pending && result.grabbed + result.pending <= grabs
        decreases todo
      {
        var id :| id in todo;
        todo := todo - {id};
        grabs := grabs + 1;
        result := Executed(result);
      }
    }

    /** The outcome of one execution is arbitrary and counted once. */
    method Executed(before: RunResult) returns (after: RunResult)
      ensures after in {before.(grabbed := before.grabbed + 1), before.(pending := before.pending + 1),
                        before.(unavailable := before.unavailable + 1)}
    {
      var bound: bool, pending: bool := *, *;
      after := if bound then before.(grabbed := before.grabbed + 1)
               else if pending then before.(pending := before.pending + 1)
               else before.(unavailable := before.unavailable + 1);
    }

    /** One album of the search: `full` tells that the limits of this run are reached. */
    method Visit(albums: seq<LidarrAlbum>, i: nat, now: int, full: bool, ghost before: Albums,
                 ghost searched: seq<LidarrAlbum>) returns (r: Result<Visited>, ghost longer: seq<LidarrAlbum>)
      requires Valid() && i < |albums|
      requires Sought(before, state.albums, albums, i, searched, now)
      modifies this, state, budget
      ensures Valid()
      ensures r.Ok? ==> Sought(before, state.albums, albums, if r.value.Stopped? then i else i + 1, longer, now)
      ensures r.Ok? ==> longer == if r.value.Stopped? || r.value.Passed? then searched else searched + [albums[i]]
      ensures r.Ok? ==> |budget.history| == |old(budget.history)| + |longer| - |searched|
      ensures r == Ok(Stopped) ==> full || Exhausted(now)
      ensures r.Ok? && longer != searched ==> !full
      ensures Guarded(old(budget.history), now, HOUR, policy.maxSearchesPerHour) ==>
        Guarded(budget.history, now, HOUR, policy.maxSearchesPerHour)
      ensures Guarded(old(budget.history), now, DAY, policy.maxSearchesPerDay) ==>
        Guarded(budget.history, now, DAY, policy.maxSearchesPerDay)
    {
      hide DeskRun, BudgetLog.Valid, Guarded, StillLogged, Since, Within, Exhausted, MusicScheduler.Valid, UntouchedBut,
           Searches, NoneLeft, DueAt, Known, OnlyAlbum, IdsOf;
      longer := searched;
      var album := albums[i];
      ghost var seen := state.albums;
      if !album.monitored {
        PassedOver(before, albums, i, searched, policy, now, maxCandidates);
        return Ok(Passed), longer;
      }
      var due := DueNow(album, now);
      if due.Raised? {
        return Raised, longer;
      }
      LookKeepsUntouched(before, seen, album, IdsOf(searched), policy, now, maxCandidates);
      if !due.value {
        PassedOver(before, albums, i, searched, policy, now, maxCandidates);
        return Ok(Passed), longer;
      }
      var within := WithinBudget(now);
      if full || !within {
        return Ok(Stopped), longer;
      }
      ghost var looked := state.albums;
      var outcome := SearchAlbum(album, now);
      if outcome.Raised? {
        return Raised, longer;
      }
      SearchKeepsUntouched(before, looked, state.albums, album.albumId, IdsOf(searched));
      SearchedNext(before, albums, i, searched, policy, now, maxCandidates);
      longer := searched + [album];
      r := Ok(if outcome.value.None? then Silent else if outcome.value.value then Chosen else Unchosen);
    }

    /** Adds one visited album to the counters. */
    method Counted(before: RunResult, grabs: nat, visited: Visited) returns (after: RunResult, count: nat)
      requires !visited.Stopped?
      ensures after.searched == before.searched + if visited.Passed? then 0 else 1
      ensures count == grabs + if visited.Chosen? then 1 else 0
      ensures before.grabbed + before.pending <= grabs ==> after.grabbed + after.pending <= count
    {
      after, count := before, grabs;
      if !visited.Passed? {
        after := after.(searched := after.searched + 1);
      }
      match visited {
        case Silent => after := after.(unavailable := after.unavailable + 1);
        case Unchosen => after := after.(noCandidate := after.noCandidate + 1);
        case Chosen =>
          after := Executed(after);
          count := count + 1;
        case Passed =>
      }
    }

    /** What is searched so far, from these albums on. */
    ghost predicate Sought(before: Albums, after: Albums, albums: seq<LidarrAlbum>, upto: nat,
                           searched: seq<LidarrAlbum>, now: int)
      requires upto <= |albums|
    {
      && UntouchedBut(before, after, IdsOf(searched))
      && Searches(before, albums, searched, policy, now, maxCandidates)
      && NoneLeft(before, albums, upto, searched, policy, now, maxCandidates)
    }

    /** Searches the monitored due albums in order until a limit is reached. */
    method SearchMissing(albums: seq<LidarrAlbum>, now: int, start: RunResult, recovered: nat)
      returns (r: Result<RunResult>, ghost searched: seq<LidarrAlbum>, ghost grabs: nat)
      requires Valid() && start.searched == 0 && start.grabbed + start.pending <= recovered
      modifies this, state, budget
      ensures Valid()
      ensures r.Ok? ==>
        && UntouchedBut(old(state.albums), state.albums, IdsOf(searched))
        && Searches(old(state.albums), albums, searched, policy, now, maxCandidates)
      ensures r.Ok? ==>
        || NoneLeft(old(state.albums), albums, |albums|, searched, policy, now, maxCandidates)
        || |searched| >= policy.maxSearchesPerRun || grabs >= policy.maxGrabsPerRun || Exhausted(now)
      ensures r.Ok? ==>
        && r.value.searched == |searched| && |budget.history| == |old(budget.history)| + |searched|
        && (searched == [] || |searched| <= policy.maxSearchesPerRun)
      ensures r.Ok? ==>
        && r.value.grabbed + r.value.pending <= grabs
        && (grabs == recovered || recovered < grabs <= policy.maxGrabsPerRun)
      ensures Guarded(old(budget.history), now, HOUR, policy.maxSearchesPerHour) ==>
        Guarded(budget.history, now, HOUR, policy.maxSearchesPerHour)
      ensures Guarded(old(budget.history), now, DAY, policy.maxSearchesPerDay) ==>
        Guarded(budget.history, now, DAY, policy.maxSearchesPerDay)
    {
      hide Guarded, Exhausted, MusicScheduler.Valid, UntouchedBut, Searches, NoneLeft, IdsOf;
      ghost var before, history := state.albums, budget.history;
      searched := [];
      NothingSearched(before, albums, policy, now, maxCandidates);
      var result, count := start, recovered;
      var i := 0;
      while i < |albums|
        invariant 0 <= i <= |albums| && Valid() && Sought(before, state.albums, albums, i, searched, now)
        invariant result.searched == |searched| && |budget.history| == |history| + |searched|
        invariant |searched| <= policy.maxSearchesPerRun || searched == []
        invariant result.grabbed + result.pending <= count
        invariant count == recovered || recovered < count <= policy.maxGrabsPerRun
        invariant Guarded(history, now, HOUR, policy.maxSearchesPerHour) ==>
          Guarded(budget.history, now, HOUR, policy.maxSearchesPerHour)
        invariant Guarded(history, now, DAY, policy.maxSearchesPerDay) ==>
          Guarded(budget.history, now, DAY, policy.maxSearchesPerDay)
        decreases |albums| - i
      {
        var full := result.searched >= policy.maxSearchesPerRun || count >= policy.maxGrabsPerRun;
        ghost var longer;
        var visited;
        visited, longer := Visit(albums, i, now, full, before, searched);
        if visited.Raised? || visited.value.Stopped? {
          r, grabs := if visited.Raised? then Raised else Ok(result), count;
          return;
        }
        searched := longer;
        result, count := Counted(result, count, visited.value);
        i := i + 1;
      }
      r, grabs := Ok(result), count;
    }
  }

  lemma ConfirmIsChange(albums: Albums, id: string)
    ensures Changed(albums, Confirm(id)) == Ok(Imported(albums, id).0)
    ensures forall other ::
      other in albums && other != id ==>
        other in Imported(albums, id).0 && Imported(albums, id).0[other] == albums[other]
    ensures Imported(albums, id).0.Keys == albums.Keys
  {
  }

  lemma {:induction false} SmallerSet(a: set<string>, b: set<string>)
    requires a <= b
    ensures |a| <= |b|
  {
    if a != {} {
      var x :| x in a;
      SmallerSet(a - {x}, b - {x});
    }
  }

  lemma SubsetSize(a: set<string>, albums: Albums)
    requires forall id :: id in a ==> id in albums
    ensures |a| <= |albums|
  {
    SmallerSet(a, albums.Keys);
  }

  lemma StartedIsActive(albums: Albums, album: LidarrAlbum, release: LidarrRelease, op: string, maxCandidates: int)
    requires Started(albums, album, release, op, maxCandidates).Ok?
    ensures var after := Started(albums, album, release, op, maxCandidates).value;
      album.albumId in after && after[album.albumId].active.Some?
  {
    hide CanonicalUuid;
  }
}
