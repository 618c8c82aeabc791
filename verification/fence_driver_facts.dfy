/** What handling one operation may do to the ledger, and which ledgers keep being copied. */
module FenceDriverFacts {
  import opened Common
  import opened FenceEntry
  import opened FenceLedger
  import opened FenceReload
  import opened FenceReloadSteps
  import opened FenceCapacity
  import opened Headroom
  import opened Qbittorrent
  import opened FenceMachine
  import opened FenceIntake

  /** A video candidate exists only while its transfer is under way or was abandoned, and a music
      candidate only for a Lidarr transfer. */
  predicate CandidateEntryOk(e: Entry) {
    && (e.video.Some? ==>
          && VideoSource(e.reservation.source)
          && e.reservation.state in {QbittorrentActive, Invalidated, PauseIntentRecorded, QbittorrentPaused,
                                     ResumeIntentRecorded, QbittorrentManaged})
    && (e.music.Some? ==> e.reservation.source == LIDARR)
  }

  ghost predicate CandidateInv(l: Ledger) {
    forall op :: l.Has(op) ==> CandidateEntryOk(l.EntryOf(op))
  }

  lemma StepKeepsCandidateOk(e: Entry, a: OpAction, quiescing: bool)
    requires CandidateEntryOk(e) && EntryStep(e, a, quiescing).Ok?
    ensures CandidateEntryOk(EntryStep(e, a, quiescing).value)
  {
    hide LowerHex, Hex, Lower, UuidOfVersion;
  }

  lemma ApplyKeepsCandidateInv(l: Ledger, a: Action)
    requires l.Keyed() && CandidateInv(l) && Apply(l, a).Ok?
    ensures CandidateInv(Apply(l, a).value)
  {
    var next := Apply(l, a).value;
    forall op | next.Has(op)
      ensures CandidateEntryOk(next.EntryOf(op))
    {
      if a.Op? && a.op == op {
        assert CandidateEntryOk(l.EntryOf(op));
        StepKeepsCandidateOk(l.EntryOf(op), a.step, l.quiescing);
        PutEntryReads(l, op, EntryStep(l.EntryOf(op), a.step, l.quiescing).value);
      } else {
        CommitElsewhere(l, a, op);
        if !l.Has(op) { AdmissionPlain(l, a); }
      }
    }
  }

  lemma AdmissionPlain(l: Ledger, a: Action)
    requires l.Keyed() && Admission(l, a).Some?
    ensures Admission(l, a).value.1.video.None? && Admission(l, a).value.1.music.None?
  {
  }

  /** No transfer has both kinds of candidate. */
  lemma MusicOnly(l: Ledger, op: string)
    requires CandidateInv(l) && l.Has(op) && op in l.music
    ensures !l.EntryOf(op).VideoJudgedDead()
    ensures l.EntryOf(op).DeletesFiles() == l.music[op].deleteInvalidPayload
  {
    assert CandidateEntryOk(l.EntryOf(op));
    assert l.EntryOf(op).music == Some(l.music[op]);
  }

  lemma VideoAllKept(l: Ledger)
    requires l.Keyed() && CandidateInv(l) && VideoTableOk(l.reservations.at, l.video)
    ensures KeptVideo(l.reservations.at, l.video) == l.video
  {
    var at := l.reservations.at;
    hide Ledger.Keyed;
    forall op | op in l.video
      ensures VideoVerdict(at[op], l.video[op]) == Keep
    {
      assert l.Has(op) && CandidateEntryOk(l.EntryOf(op));
    }
    assert KeptVideo(at, l.video).Keys == l.video.Keys;
  }

  /** With candidates only where they belong, a working copy is exact or fails. */
  lemma CloneExact(l: Ledger)
    requires l.Keyed() && CandidateInv(l)
    ensures CloneOf(l).Ok? ==> CloneOf(l) == Ok(l)
    ensures CloneOf(l).Ok? <==> CloneInv(l)
  {
    CloneIff(l);
    if CloneOf(l).Ok? {
      KeyedIds(l);
      LoadRecords(l.reservations);
      ReloadWithoutAdoptions(l.policy, Records(l.reservations), l.video, l.music);
      VideoAllKept(l);
      hide Reload, RecordsOk, Records, MusicTableOk, Load, KeptVideo, VideoTableOk, CandidateInv, CloneInv;
    }
  }

  /** Reconciler requests for Lidarr name positive decimal albums. */
  predicate LidarrEntryOk(e: Entry) {
    e.reservation.source == LIDARR ==> PositiveDecimal(e.reservation.mediaId)
  }

  /** Working copies succeed, and music candidates keep them succeeding. */
  ghost predicate Healthy(l: Ledger) {
    CloneInv(l) && forall op :: l.Has(op) ==> LidarrEntryOk(l.EntryOf(op))
  }

  ghost predicate KeepsHealth(l: Ledger, a: Action) {
    match a
    case Op(op, step) => l.Has(op) && StepCloneCondition(l.EntryOf(op), step)
    case RecordWatermark(_, _) => true
    case BeginQuiescence => true
    case EndQuiescence => true
    case _ => false
  }

  lemma HealthKept(l: Ledger, a: Action)
    requires l.Keyed() && Apply(l, a).Ok? && Healthy(l) && KeepsHealth(l, a)
    ensures Healthy(Apply(l, a).value)
  {
    var next := Apply(l, a).value;
    forall op | next.Has(op)
      ensures CloneEntryOk(next.EntryOf(op)) && LidarrEntryOk(next.EntryOf(op))
    {
      if a.Op? && a.op == op {
        var e := l.EntryOf(op);
        assert CloneEntryOk(e) && LidarrEntryOk(e);
        CloneStepIff(e, a.step, l.quiescing);
        StepKeepsSeal(e, a.step, l.quiescing);
        PutEntryReads(l, op, EntryStep(e, a.step, l.quiescing).value);
      } else {
        CommitElsewhere(l, a, op);
        assert CloneEntryOk(l.EntryOf(op)) && LidarrEntryOk(l.EntryOf(op));
      }
    }
  }

  /** Only one operation changed; none was added, and quiescence is as before. */
  ghost predicate OthersKept(before: Ledger, after: Ledger, op: string) {
    && after.reservations.keys == before.reservations.keys
    && after.reservations.at.Keys == before.reservations.at.Keys
    && after.quiescing == before.quiescing
    && (forall k :: before.Has(k) ==> after.Has(k))
    && (forall k :: before.Has(k) && k != op ==> after.EntryOf(k) == before.EntryOf(k))
    && after.postPnr == before.postPnr
    && after.historical == before.historical
    && IntakeKept(before, after)
  }

  lemma OpOthersKept(l: Ledger, op: string, a: OpAction)
    requires l.Keyed() && Apply(l, Op(op, a)).Ok?
    ensures OthersKept(l, Apply(l, Op(op, a)).value, op)
  {
    var e := l.EntryOf(op);
    var next := EntryStep(e, a, l.quiescing).value;
    StepKeepsSeal(e, a, l.quiescing);
    OpKeepsObservations(l, op, a);
    hide EntryStep, EntryKeyed, Ledger.Keyed, IntakeKept;
    PutEntryReads(l, op, next);
    StoreLookup(l.postPnr, op);
    StoreLookup(l.historical, op);
  }

  lemma OthersKeptTransitive(a: Ledger, b: Ledger, c: Ledger, op: string)
    requires OthersKept(a, b, op) && OthersKept(b, c, op)
    ensures OthersKept(a, c, op)
  {
    IntakeKeptTransitive(a, b, c);
    hide IntakeKept;
  }

  lemma IntakeKeptTransitive(a: Ledger, b: Ledger, c: Ledger)
    requires IntakeKept(a, b) && IntakeKept(b, c)
    ensures IntakeKept(a, c)
  {
  }

  lemma LegalExtend(c: Config, trace: seq<System>, lab: Label, t: System)
    requires Legal(c, trace)
    requires trace[|trace| - 1].working.Keyed() && trace[|trace| - 1].durable.Keyed()
    requires Step(c, trace[|trace| - 1], lab, t)
    ensures Legal(c, trace + [t])
  {
    hide Step, Initial;
    var longer := trace + [t];
    forall i | 0 < i < |longer|
      ensures Next(c, longer[i - 1], longer[i])
    {
      if i < |trace| {
        assert Next(c, trace[i - 1], trace[i]);
      }
    }
  }

  lemma TagsStable(before: Torrents, after: Torrents, hash: Option<string>, owner: string)
    requires EnvironmentStep(before, after)
    ensures Tags(before, hash, owner) ==> Tags(after, hash, owner)
  {
    if Tags(before, hash, owner) {
      assert owner in before[hash.value].tags;
      assert before[hash.value].tags != {};
    }
  }

  lemma RecordsAfterPut(l: Ledger, op: string, e: Entry) returns (i: nat)
    requires l.Keyed() && l.Has(op) && EntryKeyed(op, e)
    ensures l.PutEntry(op, e).Keyed()
    ensures i < |RecordsOf(l)| && RecordsOf(l)[i] == l.reservations.at[op]
    ensures RecordsOf(l.PutEntry(op, e)) == RecordsOf(l)[i := e.reservation]
  {
    PutEntryKeyed(l, op, e);
    hide EntryKeyed;
    i :| 0 <= i < |l.reservations.keys| && l.reservations.keys[i] == op;
    forall j | 0 <= j < |l.reservations.keys|
      ensures RecordsOf(l.PutEntry(op, e))[j] == RecordsOf(l)[i := e.reservation][j]
    {
      if j != i { assert l.reservations.keys[j] != op; }
    }
  }

  lemma StatePutKeepsSum(l: Ledger, op: string, e: Entry)
    requires l.Keyed() && l.Has(op) && EntryKeyed(op, e)
    requires e == l.EntryOf(op).In(e.reservation.state) && e.reservation.Live() && l.EntryOf(op).reservation.Live()
    ensures l.PutEntry(op, e).Keyed() && l.PutEntry(op, e).ReservedBytes() == l.ReservedBytes()
  {
    PutTotal(l, op, e, ReservedWeight);
    hide Ledger.Keyed, Ledger.Entries, Ledger.PutEntry, Total, EntryKeyed;
  }

  lemma StatePutKeepsReadiness(c: Config, l: Ledger, op: string, e: Entry, free: map<string, Option<int>>)
    requires l.Keyed() && l.Has(op) && EntryKeyed(op, e)
    requires e == l.EntryOf(op).In(e.reservation.state) && e.reservation.Live() && l.EntryOf(op).reservation.Live()
    ensures l.PutEntry(op, e).Keyed()
    ensures l.WithinCapacity() ==> l.PutEntry(op, e).WithinCapacity()
    ensures PhysicalReady(c, l, free) ==> PhysicalReady(c, l.PutEntry(op, e), free)
  {
    StatePutKeepsSum(l, op, e);
    var i := RecordsAfterPut(l, op, e);
    hide Ledger.Keyed, Ledger.Entries, RecordsOf, Ledger.ReservedBytes, Allowed, EntryKeyed;
    if c.headroom.Some? && PhysicalReady(c, l, free) {
      StateIrrelevant(RecordsOf(l), i, e.reservation, PoolsBySource(c.sources), c.headroom.value, free);
    }
  }

  /** Recording a resume intent changes neither sums nor headroom. */
  lemma ResumeKeepsReadiness(c: Config, l: Ledger, op: string, free: map<string, Option<int>>)
    requires l.Keyed() && Apply(l, Op(op, RequestResume)).Ok?
    ensures var next := Apply(l, Op(op, RequestResume)).value;
      && next.Keyed()
      && (l.WithinCapacity() ==> next.WithinCapacity())
      && (PhysicalReady(c, l, free) ==> PhysicalReady(c, next, free))
  {
    var e := l.EntryOf(op);
    var resumed := e.In(ResumeIntentRecorded);
    EntryStepKeyed(op, e, RequestResume, l.quiescing);
    StatePutKeepsReadiness(c, l, op, resumed, free);
  }

  lemma {:induction false} TotalOfUpdate(records: seq<Reservation>, i: nat, r: Reservation, sources: map<string,
                                         seq<string>>, pool: string)
    requires i < |records| && RecordClaim(r, sources, pool) == RecordClaim(records[i], sources, pool)
    ensures PoolTotal(records[i := r], sources, pool) == PoolTotal(records, sources, pool)
  {
    var n := |records| - 1;
    if i == n {
      assert records[i := r][..n] == records[..n];
    } else {
      assert records[i := r][..n] == records[..n][i := r];
      TotalOfUpdate(records[..n], i, r, sources, pool);
    }
  }

  /** Headroom looks at a record's state only to skip released ones. */
  lemma StateIrrelevant(records: seq<Reservation>, i: nat, r: Reservation, sources: map<string, seq<string>>,
                        pools: map<string, Pool>, free: map<string, Option<int>>)
    requires i < |records| && r == records[i].(state := r.state) && r.state != Released && records[i].state != Released
    requires Allowed(records, sources, pools, free)
    ensures Allowed(records[i := r], sources, pools, free)
  {
    forall x | x in records[i := r] && x.state != Released
      ensures RecordAccepted(x, sources, pools)
    {
      var j :| 0 <= j < |records| && records[i := r][j] == x;
      assert records[j] in records && records[i] in records;
    }
    forall name | name in pools
      ensures PoolTotal(records[i := r], sources, name) == PoolTotal(records, sources, name)
    {
      ClaimIgnoresState(records[i], r, sources, name);
      TotalOfUpdate(records, i, r, sources, name);
    }
  }

  lemma ClaimIgnoresState(a: Reservation, b: Reservation, sources: map<string, seq<string>>, pool: string)
    requires b == a.(state := b.state) && a.state != Released && b.state != Released
    ensures RecordClaim(a, sources, pool) == RecordClaim(b, sources, pool)
  {
    if a.source in sources {
      ClaimsAgree(a, b, sources[a.source], pool, |sources[a.source]|);
    }
  }

  lemma {:induction false} ClaimsAgree(a: Reservation, b: Reservation, names: seq<string>, pool: string, upto: nat)
    requires b == a.(state := b.state) && upto <= |names|
    ensures Claim(a, names, pool, upto) == Claim(b, names, pool, upto)
  {
    if upto > 0 {
      ClaimsAgree(a, b, names, pool, upto - 1);
    }
  }

  /** The fields of a reservation that a transfer is driven by. */
  predicate SameTransfer(a: Reservation, b: Reservation) {
    a.reservationId == b.reservationId && a.source == b.source && a.torrentHash == b.torrentHash
    && a.downloadId == b.downloadId && a.requestedBytes == b.requestedBytes
  }

  lemma KeyedReservation(l: Ledger, op: string)
    requires l.Keyed() && l.Has(op)
    ensures l.reservations.at[op].reservationId == Owner(op) && l.reservations.at[op].operationId == op
  {
    assert EntryKeyed(op, l.EntryOf(op));
  }

  /** A music probe of a decimal album keeps working copies possible. */
  lemma MusicStepHealthy(l: Ledger, op: string, now: int)
    requires l.Keyed() && l.Has(op)
    ensures Healthy(l) && Apply(l, Op(op, EnsureMusic(now))).Ok? ==> StepCloneCondition(l.EntryOf(op), EnsureMusic(now))
  {
    assert Healthy(l) ==> LidarrEntryOk(l.EntryOf(op));
    hide CloneEntryOk, PositiveDecimal;
  }

  /** What driving one operation may do to the ledger. */
  ghost predicate Handled(before: Ledger, after: Ledger, op: string) {
    OthersKept(before, after, op) && (Healthy(before) ==> Healthy(after))
  }

  /** A pause of this running operation leaves a candidate that no later working copy accepts. */
  predicate PauseSpoils(l: Ledger, op: string) {
    && l.Has(op) && Running(l.reservations.at[op].state)
    && !StepCloneCondition(l.EntryOf(op), RequestPause)
  }

  /** Recovery resumes this operation itself as soon as it is seen stopped. */
  predicate ResumesAtOnce(l: Ledger, op: string) {
    && l.Has(op) && op !in l.postPnr && op !in l.historical
    && l.reservations.at[op].state in {TagIntentRecorded, QbittorrentStopped}
  }

  /** What can stop recovery of a quiescing ledger at this operation. */
  predicate Obstructs(l: Ledger, op: string) {
    l.quiescing && (PauseSpoils(l, op) || ResumesAtOnce(l, op))
  }

  ghost predicate Obstructed(l: Ledger) {
    exists op :: Obstructs(l, op)
  }

  ghost predicate SomePauseSpoils(l: Ledger) {
    exists op :: PauseSpoils(l, op)
  }

  /** What recovery of one operation may do: only a pause while quiescing can spoil the ledger. */
  ghost predicate Reconciled(before: Ledger, after: Ledger, op: string) {
    && OthersKept(before, after, op)
    && (Healthy(before) && !(before.quiescing && PauseSpoils(before, op)) ==> Healthy(after))
  }

  lemma HandledParts(before: Ledger, after: Ledger, op: string)
    requires Handled(before, after, op)
    ensures OthersKept(before, after, op) && Reconciled(before, after, op)
  {
  }

  lemma HandledReconciles(before: Ledger, after: Ledger, op: string)
    ensures Handled(before, after, op) ==> Reconciled(before, after, op)
  {
    hide OthersKept, Healthy, PauseSpoils;
  }

  /** A pause of a running operation keeps the ledger healthy exactly when it does not spoil it,
      and no working copy of a spoiled ledger can be made. */
  lemma PauseSpoilsIff(l: Ledger, op: string)
    requires l.Keyed() && l.Has(op) && Running(l.reservations.at[op].state)
    requires Healthy(l) && Apply(l, Op(op, RequestPause)).Ok?
    ensures CloneInv(Apply(l, Op(op, RequestPause)).value) <==> !PauseSpoils(l, op)
  {
    var e := l.EntryOf(op);
    var next := EntryStep(e, RequestPause, l.quiescing).value;
    assert CloneEntryOk(e);
    CloneStepIff(e, RequestPause, l.quiescing);
    if !PauseSpoils(l, op) {
      HealthKept(l, Op(op, RequestPause));
    }
    hide EntryStep, CloneEntryOk, StepCloneCondition, Ledger.Keyed;
    PutEntryReads(l, op, next);
    assert Apply(l, Op(op, RequestPause)).value.EntryOf(op) == next;
  }

  lemma PauseCopies(l: Ledger, op: string)
    requires l.Keyed()
    ensures l.Has(op) && Running(l.reservations.at[op].state) && Healthy(l) && Apply(l, Op(op, RequestPause)).Ok? ==>
      (CloneInv(Apply(l, Op(op, RequestPause)).value) <==> !PauseSpoils(l, op))
  {
    hide Apply, Healthy, CloneInv, PauseSpoils, Ledger.Keyed;
    if l.Has(op) && Running(l.reservations.at[op].state) && Healthy(l) && Apply(l, Op(op, RequestPause)).Ok? {
      PauseSpoilsIff(l, op);
    }
  }

  lemma HandledTransitive(a: Ledger, b: Ledger, c: Ledger, op: string)
    requires Handled(a, b, op) && Handled(b, c, op)
    ensures Handled(a, c, op)
  {
    hide Healthy;
    OthersKeptTransitive(a, b, c, op);
  }

  lemma HandledNothing(l: Ledger, op: string)
    ensures Handled(l, l, op)
  {
  }

  lemma NothingKept(l: Ledger, op: string)
    ensures OthersKept(l, l, op)
  {
  }

  lemma RecordedFacts(l: Ledger, op: string, step: OpAction)
    requires l.Keyed()
    ensures OthersKept(l, l, op)
    ensures Apply(l, Op(op, step)).Ok? ==>
      l.Has(op) && Apply(l, Op(op, step)).value.Has(op) && OthersKept(l, Apply(l, Op(op, step)).value, op)
    ensures Apply(l, Op(op, step)).Ok? && Healthy(l) && StepCloneCondition(l.EntryOf(op), step) ==>
      Healthy(Apply(l, Op(op, step)).value)
  {
    hide EntryStep, Healthy, StepCloneCondition, EntryKeyed, IntakeKept;
    NothingKept(l, op);
    if Apply(l, Op(op, step)).Ok? {
      OpOthersKept(l, op, step);
      if Healthy(l) && StepCloneCondition(l.EntryOf(op), step) {
        HealthKept(l, Op(op, step));
      }
    }
  }

  /** Transitions that every working copy survives. */
  predicate Harmless(step: OpAction) {
    || step.BindObservedGrab? || step.RequestTag? || step.MarkTagged? || step.RequestResume? || step.MarkActive?
    || step.MarkPaused? || step.RequestFreeze? || step.MarkFrozen? || step.Complete?
    || step.RequestHistoricalActivation? || step.MarkHistoricalManaged?
  }

  /** What a transition leaves in its reservation. */
  predicate Left(before: Entry, step: OpAction, after: Entry, quiescing: bool) {
    var r := after.reservation;
    && r.source == before.reservation.source && r.reservationId == before.reservation.reservationId
    && r.requestedBytes == before.reservation.requestedBytes
    && (!step.BindObservedGrab? && Harmless(step) ==> SameTransfer(r, before.reservation))
    && (step.EnsureMusic? ==> r == before.reservation)
    && (step.MarkActive? ==> Running(r.state))
    && (step.BindObservedGrab? ==>
          r.state == GrabBound && r.torrentHash == Some(step.torrentHash) && r.downloadId == Some(step.downloadId))
    && (step.RequestTag? ==> r.state == TagIntentRecorded && Truthy(r.torrentHash))
    && (step.MarkTagged? ==> r.state == QbittorrentStopped && Truthy(r.torrentHash))
    && (step.RequestResume? ==> r.state == ResumeIntentRecorded && !quiescing)
    && (step.RequestPause? ==> r.state == PauseIntentRecorded)
    && (step.MarkPaused? ==> r.state == QbittorrentPaused)
    && (step.MarkFrozen? ==> r.state == QbittorrentFrozen)
    && (step.RequestFreeze? ==> r.state == FreezeIntentRecorded)
    && (step.MarkMusicDeleted? ==> after.music.Some? && after.music.value.status == MusicReleased)
    && (step.MarkHistoricalManaged? ==> after.activation == Some(Managed))
    && (step.Complete? ==> TerminalOf(r).Ok?)
  }

  lemma StepLeaves(e: Entry, step: OpAction, quiescing: bool)
    requires EntryStep(e, step, quiescing).Ok?
    ensures Left(e, step, EntryStep(e, step, quiescing).value, quiescing)
  {
    StepKeepsSeal(e, step, quiescing);
    hide LowerHex, Hex, Lower, UuidOfVersion;
  }

  lemma AppliedState(l: Ledger, op: string, step: OpAction, next: Ledger)
    requires l.Keyed() && Apply(l, Op(op, step)) == Ok(next)
    ensures next.Has(op) && l.Has(op) && Left(l.EntryOf(op), step, next.EntryOf(op), l.quiescing)
  {
    var e := l.EntryOf(op);
    StepLeaves(e, step, l.quiescing);
    hide EntryStep, Left, Ledger.Keyed;
    PutEntryReads(l, op, EntryStep(e, step, l.quiescing).value);
  }

  /** The size check of a historical adoption; other adoptions accept any size. */
  predicate SizeMatches(o: Observation, exact: Option<int>) {
    exact.Some? ==> o.Observed? && o.bytes == exact.value
  }

  lemma HealthyCopies(l: Ledger)
    ensures Healthy(l) ==> CloneInv(l)
  {
  }

  /** What recovery of the whole ledger may do: no operation appears or vanishes. */
  ghost predicate Swept(before: Ledger, after: Ledger) {
    && after.reservations.keys == before.reservations.keys
    && after.reservations.at.Keys == before.reservations.at.Keys
    && after.quiescing == before.quiescing
    && after.postPnr == before.postPnr
    && after.historical == before.historical
    && IntakeKept(before, after)
    && (Healthy(before) && !(before.quiescing && SomePauseSpoils(before)) ==> Healthy(after))
  }

  lemma SweptThenHandled(a: Ledger, b: Ledger, c: Ledger, op: string)
    requires Swept(a, b) && Handled(b, c, op)
    ensures Swept(a, c)
  {
    IntakeKeptTransitive(a, b, c);
    hide Healthy, IntakeKept, SomePauseSpoils;
  }

  lemma HandledSweeps(before: Ledger, after: Ledger, op: string)
    ensures Handled(before, after, op) ==> Swept(before, after)
  {
    hide Healthy, IntakeKept;
  }

  lemma HandledFacts(before: Ledger, after: Ledger, op: string)
    requires Handled(before, after, op)
    ensures after.quiescing == before.quiescing && after.postPnr == before.postPnr
    ensures Healthy(before) ==> Healthy(after) && CloneInv(after)
  {
  }

  /** Binding such an operation again only re-observes. */
  predicate ReDrives(l: Ledger, op: string) {
    && l.Has(op) && l.reservations.at[op].downloadId.Some?
    && l.reservations.at[op].state in {TagIntentRecorded, QbittorrentStopped, ResumeIntentRecorded}
  }

  lemma PauseComposes(before: Ledger, pausing: Ledger, after: Ledger, op: string)
    requires OthersKept(before, pausing, op) && Handled(pausing, after, op)
    requires Healthy(before) && !PauseSpoils(before, op) ==> Healthy(pausing)
    requires before.quiescing
    ensures Reconciled(before, after, op)
  {
    OthersKeptTransitive(before, pausing, after, op);
    hide OthersKept, Healthy, PauseSpoils;
  }

  /** A pause keeps working copies possible unless it spoils the ledger. */
  lemma PausingReconciled(l: Ledger, op: string)
    requires l.Keyed()
    ensures Apply(l, Op(op, RequestPause)).Ok? && Healthy(l) ==>
      && l.Has(op)
      && (Running(l.reservations.at[op].state) && !PauseSpoils(l, op) ==>
            StepCloneCondition(l.EntryOf(op), RequestPause))
    ensures Healthy(l) ==> CloneInv(l)
  {
    HealthyCopies(l);
    hide EntryStep, Healthy, StepCloneCondition;
  }

  /** A healthy stopped transfer can record its resume intent exactly while not quiescing. */
  lemma HealthyResumes(l: Ledger, op: string)
    requires l.Keyed() && l.Has(op) && l.reservations.at[op].state == QbittorrentStopped
    ensures Healthy(l) ==> CloneInv(l) && (Apply(l, Op(op, RequestResume)).Ok? <==> !l.quiescing)
  {
    if Healthy(l) {
      assert CloneEntryOk(l.EntryOf(op)) && RecordOk(l.EntryOf(op).reservation);
      hide LowerHex, Hex, Lower, Ledger.Keyed;
    }
  }

  /** From index `from` on, every record of a snapshot still reads as it was taken. */
  ghost predicate Current(records: seq<Reservation>, from: nat, l: Ledger) {
    && (forall i, j :: 0 <= i < j < |records| ==> records[i].operationId != records[j].operationId)
    && (forall j :: from <= j < |records| ==>
          l.Has(records[j].operationId) && l.reservations.at[records[j].operationId] == records[j])
  }

  lemma SnapshotCurrent(l: Ledger)
    requires l.Keyed()
    ensures Current(RecordsOf(l), 0, l)
  {
    forall j | 0 <= j < |RecordsOf(l)|
      ensures RecordsOf(l)[j].operationId == l.reservations.keys[j]
    {
      KeyedReservation(l, l.reservations.keys[j]);
    }
  }

  lemma CurrentAt(records: seq<Reservation>, i: nat, l: Ledger)
    requires Current(records, i, l) && i < |records|
    ensures l.Has(records[i].operationId) && l.reservations.at[records[i].operationId] == records[i]
  {
  }

  /** Handling one record leaves the rest of the snapshot current. */
  lemma StillCurrent(records: seq<Reservation>, i: nat, before: Ledger, after: Ledger)
    requires i < |records| && Current(records, i, before) && OthersKept(before, after, records[i].operationId)
    ensures Current(records, i + 1, after)
  {
    hide IntakeKept;
    forall j | i + 1 <= j < |records|
      ensures after.Has(records[j].operationId) && after.reservations.at[records[j].operationId] == records[j]
    {
      var k := records[j].operationId;
      assert before.Has(k) && k != records[i].operationId;
      assert after.EntryOf(k) == before.EntryOf(k);
      assert after.EntryOf(k).reservation == after.reservations.at[k];
    }
  }

  /** Half way through a sweep: what is still to come is untouched. */
  ghost predicate Sweeping(records: seq<Reservation>, from: nat, before: Ledger, now: Ledger) {
    && Swept(before, now) && Current(records, from, now)
    && forall j :: from <= j < |records| ==>
         before.Has(records[j].operationId)
         && now.EntryOf(records[j].operationId) == before.EntryOf(records[j].operationId)
  }

  lemma SweepBegins(l: Ledger)
    requires l.Keyed()
    ensures Sweeping(RecordsOf(l), 0, l, l)
  {
    SnapshotCurrent(l);
    hide Healthy;
    forall j | 0 <= j < |RecordsOf(l)|
      ensures l.Has(RecordsOf(l)[j].operationId)
    {
      CurrentFrom(RecordsOf(l), j, l);
      CurrentAt(RecordsOf(l), j, l);
    }
  }

  lemma CurrentFrom(records: seq<Reservation>, i: nat, l: Ledger)
    requires Current(records, 0, l)
    ensures Current(records, i, l)
  {
  }

  lemma SweepGoesOn(records: seq<Reservation>, i: nat, before: Ledger, middle: Ledger, after: Ledger)
    requires i < |records| && Sweeping(records, i, before, middle) && Reconciled(middle, after, records[i].operationId)
    ensures Sweeping(records, i + 1, before, after)
  {
    StillCurrent(records, i, middle, after);
    IntakeKeptTransitive(before, middle, after);
    SameEntrySpoils(before, middle, records[i].operationId);
    hide Healthy, IntakeKept, PauseSpoils, SomePauseSpoils, Obstructs;
    assert PauseSpoils(before, records[i].operationId) ==>
      SomePauseSpoils(before) by { SpoilsSome(before, records[i].operationId); }
    forall j | i + 1 <= j < |records|
      ensures before.Has(records[j].operationId)
              && after.EntryOf(records[j].operationId) == before.EntryOf(records[j].operationId)
    {
      assert middle.Has(records[j].operationId) && records[j].operationId != records[i].operationId;
    }
  }

  lemma SpoilsSome(l: Ledger, op: string)
    ensures PauseSpoils(l, op) ==> SomePauseSpoils(l)
  {
  }

  lemma SameEntrySpoils(a: Ledger, b: Ledger, op: string)
    requires a.Has(op) && b.Has(op) && a.EntryOf(op) == b.EntryOf(op)
    ensures PauseSpoils(a, op) <==> PauseSpoils(b, op)
    ensures a.quiescing == b.quiescing && a.postPnr == b.postPnr && a.historical == b.historical ==>
      (Obstructs(a, op) <==> Obstructs(b, op))
  {
    hide StepCloneCondition;
    assert a.EntryOf(op).reservation == a.reservations.at[op] && b.EntryOf(op).reservation == b.reservations.at[op];
  }

  /** What a sweep has done so far, and what its next record finds. */
  lemma SweepShows(records: seq<Reservation>, i: nat, before: Ledger, now: Ledger)
    requires Sweeping(records, i, before, now)
    ensures Swept(before, now) && now.quiescing == before.quiescing
  {
  }

  lemma SweepAt(records: seq<Reservation>, i: nat, before: Ledger, now: Ledger)
    requires Sweeping(records, i, before, now) && i < |records|
    ensures now.Has(records[i].operationId) && now.reservations.at[records[i].operationId] == records[i]
    ensures now.quiescing == before.quiescing
  {
    hide Healthy, IntakeKept;
    CurrentAt(records, i, now);
  }

  lemma SweepSpoils(records: seq<Reservation>, i: nat, before: Ledger, now: Ledger)
    requires Sweeping(records, i, before, now) && i < |records|
    ensures PauseSpoils(now, records[i].operationId) ==> SomePauseSpoils(before)
    ensures Healthy(before) && !(before.quiescing && SomePauseSpoils(before)) ==> Healthy(now)
  {
    SweepAt(records, i, before, now);
    SameEntrySpoils(before, now, records[i].operationId);
    hide Healthy, IntakeKept, PauseSpoils, SomePauseSpoils;
    SpoilsSome(before, records[i].operationId);
  }

  lemma ReconciledShape(before: Ledger, after: Ledger, op: string)
    requires Reconciled(before, after, op)
    ensures after.quiescing == before.quiescing && (before.Has(op) ==> after.Has(op))
  {
  }

  lemma SweepCurrent(records: seq<Reservation>, i: nat, before: Ledger, now: Ledger)
    requires Sweeping(records, i, before, now)
    ensures Current(records, i, now)
  {
  }

  lemma ReconciledParts(before: Ledger, after: Ledger, op: string)
    requires Reconciled(before, after, op)
    ensures OthersKept(before, after, op)
  {
  }

  /** Quiescence is no part of any entry. */
  lemma FlagKeepsHealth(l: Ledger, quiescing: bool)
    ensures Healthy(l) <==> Healthy(l.(quiescing := quiescing))
    ensures SomePauseSpoils(l) <==> SomePauseSpoils(l.(quiescing := quiescing))
  {
    var m := l.(quiescing := quiescing);
    forall op
      ensures PauseSpoils(l, op) <==> PauseSpoils(m, op)
      ensures l.Has(op) <==> m.Has(op)
      ensures l.Has(op) ==> l.EntryOf(op) == m.EntryOf(op)
    {
      assert l.Has(op) ==> l.EntryOf(op) == m.EntryOf(op);
    }
    if SomePauseSpoils(l) {
      var op :| PauseSpoils(l, op);
      assert PauseSpoils(m, op);
    }
    if SomePauseSpoils(m) {
      var op :| PauseSpoils(m, op);
      assert PauseSpoils(l, op);
    }
    hide PauseSpoils, SomePauseSpoils, CloneEntryOk, LidarrEntryOk;
  }

  /** What stops a sweep half way was in the ledger from the start. */
  lemma SweepStops(records: seq<Reservation>, i: nat, before: Ledger, middle: Ledger)
    requires i < |records| && Sweeping(records, i, before, middle)
    ensures Healthy(before) && !Healthy(middle) ==> Obstructed(before)
    ensures Obstructs(middle, records[i].operationId) ==> Obstructed(before)
  {
    hide Healthy, IntakeKept;
    CurrentAt(records, i, middle);
    SameEntrySpoils(before, middle, records[i].operationId);
    if before.quiescing && SomePauseSpoils(before) {
      hide PauseSpoils;
      var op :| PauseSpoils(before, op);
      assert Obstructs(before, op);
    }
  }

  predicate Running(state: ReservationState) {
    state == QbittorrentActive || state == QbittorrentManaged
  }

  /** No operation appears or vanishes. */
  ghost predicate SameOperations(before: Ledger, after: Ledger) {
    && after.reservations.keys == before.reservations.keys
    && after.reservations.at.Keys == before.reservations.at.Keys
  }

  lemma FlagAllowed(c: Config, s: System, a: Action)
    requires s.working.Keyed() && s.working == s.durable && (a.BeginQuiescence? || a.EndQuiescence?)
    ensures CommitAllowed(c, s, a)
  {
  }

  /** Up to this record, all that ran is paused and all else is as it was. */
  ghost predicate Settled(records: seq<Reservation>, upto: nat, l: Ledger)
    requires upto <= |records|
  {
    forall j :: 0 <= j < upto ==>
      l.Has(records[j].operationId) && Moved(records[j], l.reservations.at[records[j].operationId], false)
  }

  /** Up to this record, all that was paused runs and all else is as it was. */
  ghost predicate Unpaused(records: seq<Reservation>, upto: nat, l: Ledger)
    requires upto <= |records|
  {
    forall j :: 0 <= j < upto ==>
      l.Has(records[j].operationId) && Moved(records[j], l.reservations.at[records[j].operationId], true)
  }

  /** A sweep that pauses moves what runs, one that resumes moves what is paused. */
  predicate Moved(before: Reservation, after: Reservation, resuming: bool) {
    if resuming
    then (if before.state == QbittorrentPaused then Running(after.state) else after == before)
    else (if Running(before.state) then after.state == QbittorrentPaused else after == before)
  }

  lemma KeptElsewhere(records: seq<Reservation>, i: nat, before: Ledger, after: Ledger)
    requires i < |records| && Current(records, i, before) && OthersKept(before, after, records[i].operationId)
    ensures after.Has(records[i].operationId)
    ensures forall j ::
      0 <= j < i && before.Has(records[j].operationId) ==>
        && after.Has(records[j].operationId)
        && after.reservations.at[records[j].operationId] == before.reservations.at[records[j].operationId]
  {
    hide IntakeKept;
    forall j | 0 <= j < i && before.Has(records[j].operationId)
      ensures after.Has(records[j].operationId)
              && after.reservations.at[records[j].operationId] == before.reservations.at[records[j].operationId]
    {
      var k := records[j].operationId;
      assert after.EntryOf(k) == before.EntryOf(k);
      assert after.EntryOf(k).reservation == after.reservations.at[k]
             && before.EntryOf(k).reservation == before.reservations.at[k];
    }
  }

  lemma StillSettled(records: seq<Reservation>, i: nat, before: Ledger, after: Ledger)
    requires i < |records| && Current(records, i, before) && OthersKept(before, after, records[i].operationId)
    ensures after.Has(records[i].operationId)
    ensures Settled(records, i, before) && Moved(records[i], after.reservations.at[records[i].operationId], false) ==>
      Settled(records, i + 1, after)
  {
    KeptElsewhere(records, i, before, after);
    hide OthersKept, Current, Moved;
  }

  lemma IdleSpoilsNothing(l: Ledger, op: string)
    requires l.Has(op) && !Running(l.reservations.at[op].state)
    ensures !PauseSpoils(l, op)
  {
  }

  /** No pause of these operations spoils the ledger. */
  ghost predicate Unspoiled(records: seq<Reservation>, upto: nat, l: Ledger)
    requires upto <= |records|
  {
    forall j :: 0 <= j < upto ==> !PauseSpoils(l, records[j].operationId)
  }

  lemma StillUnspoiled(records: seq<Reservation>, i: nat, before: Ledger, middle: Ledger, after: Ledger)
    requires i < |records| && Sweeping(records, i, before, middle)
    requires Reconciled(middle, after, records[i].operationId)
    ensures !PauseSpoils(middle, records[i].operationId) && Healthy(middle) && Unspoiled(records, i, before) ==>
      Unspoiled(records, i + 1, before) && Healthy(after)
  {
    CurrentAt(records, i, middle);
    SameEntrySpoils(before, middle, records[i].operationId);
    hide Healthy, PauseSpoils, IntakeKept, Swept, Current;
  }

  lemma NoneSpoils(before: Ledger)
    requires before.Keyed() && Unspoiled(RecordsOf(before), |RecordsOf(before)|, before)
    ensures !SomePauseSpoils(before)
  {
    forall op
      ensures !PauseSpoils(before, op)
    {
      if before.Has(op) { var j := RecordOfOperation(before, op); }
    }
  }

  lemma StillUnpaused(records: seq<Reservation>, i: nat, before: Ledger, after: Ledger)
    requires i < |records| && Current(records, i, before) && OthersKept(before, after, records[i].operationId)
    ensures after.Has(records[i].operationId)
    ensures Unpaused(records, i, before) && Moved(records[i], after.reservations.at[records[i].operationId], true) ==>
      Unpaused(records, i + 1, after)
  {
    KeptElsewhere(records, i, before, after);
    hide OthersKept, Current, Moved;
  }

  lemma RecordOfOperation(before: Ledger, op: string) returns (j: nat)
    requires before.Keyed() && before.Has(op)
    ensures j < |RecordsOf(before)| && RecordsOf(before)[j].operationId == op
            && RecordsOf(before)[j] == before.reservations.at[op]
  {
    j :| 0 <= j < |before.reservations.keys| && before.reservations.keys[j] == op;
    KeyedReservation(before, op);
  }

  /** Every operation was moved as its sweep promises. */
  ghost predicate AllMoved(before: Ledger, after: Ledger, resuming: bool) {
    forall op :: before.Has(op) ==>
      after.Has(op) && Moved(before.reservations.at[op], after.reservations.at[op], resuming)
  }

  lemma SettledAll(before: Ledger, after: Ledger)
    requires before.Keyed() && Settled(RecordsOf(before), |RecordsOf(before)|, after)
    ensures AllMoved(before, after, false)
  {
    forall op | before.Has(op)
      ensures after.Has(op) && Moved(before.reservations.at[op], after.reservations.at[op], false)
    {
      var j := RecordOfOperation(before, op);
    }
  }

  lemma UnpausedAll(before: Ledger, after: Ledger)
    requires before.Keyed() && Unpaused(RecordsOf(before), |RecordsOf(before)|, after)
    ensures AllMoved(before, after, true)
  {
    forall op | before.Has(op)
      ensures after.Has(op) && Moved(before.reservations.at[op], after.reservations.at[op], true)
    {
      var j := RecordOfOperation(before, op);
    }
  }

  /** The acquisition of this receipt is released to the Publisher that signed it. */
  predicate CustodyHeld(l: Ledger, receipt: CustodyReceipt) {
    && l.Has(receipt.operationId)
    && l.reservations.at[receipt.operationId].state == Released
    && l.reservations.at[receipt.operationId].publisherReservationId == Some(receipt.publisherReservationId)
    && l.reservations.at[receipt.operationId].reservationId == receipt.fenceReservationId
  }

  lemma ReceiptApplied(l: Ledger, receipt: CustodyReceipt, next: Ledger)
    requires l.Keyed()
             && Apply(l, Op(receipt.operationId,
                            AcceptCustody(receipt.fenceReservationId, receipt.publisherReservationId))) == Ok(next)
    ensures CustodyHeld(next, receipt)
  {
    var e := l.EntryOf(receipt.operationId);
    var after := CustodyAccepted(e, receipt.fenceReservationId, receipt.publisherReservationId).value;
    PutEntryReads(l, receipt.operationId, after);
    assert next.EntryOf(receipt.operationId).reservation == next.reservations.at[receipt.operationId];
    hide Ledger.Keyed;
  }

  /** The transfer of the operation runs and is still the one it was. */
  predicate StillRuns(before: Ledger, after: Ledger, op: string) {
    && before.Has(op) && after.Has(op) && SameTransfer(after.reservations.at[op], before.reservations.at[op])
    && Running(after.reservations.at[op].state)
  }

  /** The grab is bound to this download and its transfer runs. */
  predicate BoundActive(l: Ledger, op: string, downloadId: string, torrentHash: string) {
    && l.Has(op) && l.reservations.at[op].downloadId == Some(downloadId)
    && l.reservations.at[op].torrentHash == Some(torrentHash)
    && Running(l.reservations.at[op].state)
  }

  /** Driving a grab sends at most its tag and then its start. */
  predicate Driven(before: seq<Effect>, after: seq<Effect>, op: string) {
    after == before || after == before + [TagEffect(op)] || after == before + [TagEffect(op), StartEffect(op)]
  }

  /** Handling a record sends at most one effect of each kind, only for its operation, and a tag
      only when no tag intent was durable before. */
  predicate Logged(before: seq<Effect>, after: seq<Effect>, record: Reservation) {
    var op := record.operationId;
    || after == before
    || after == before + [StartEffect(op)]
    || after == before + [StopEffect(op)]
    || (record.state == GrabBound && Driven(before, after, op))
  }

  lemma DrivenOn(before: seq<Effect>, tagged: seq<Effect>, after: seq<Effect>, op: string)
    requires tagged == before + [TagEffect(op)] && (after == tagged || after == tagged + [StartEffect(op)])
    ensures Driven(before, after, op)
  {
    assert before + [TagEffect(op)] + [StartEffect(op)] == before + [TagEffect(op), StartEffect(op)];
  }

  lemma NothingDriven(log: seq<Effect>, op: string)
    ensures Driven(log, log, op) && Driven(log, log + [TagEffect(op)], op)
  {
  }
}
