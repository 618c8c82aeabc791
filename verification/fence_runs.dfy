/** What every run of Fence guarantees, and the inputs on which a stronger claim would fail. */
module FenceRuns {
  import opened Common
  import opened FenceEntry
  import opened FenceLedger
  import opened FenceReload
  import opened FenceReloadSteps
  import opened FenceReloadRuns
  import opened FenceCapacity
  import opened Qbittorrent
  import opened FenceMachine
  import opened FenceDriverFacts

  // The log only grows.

  function Sent(s: System, lab: Label): seq<Effect> {
    match lab
    case Tag(op, _) => [TagEffect(op)]
    case Start(op, _, _) => [StartEffect(op)]
    case Stop(op, _) => [StopEffect(op)]
    case Blocklist(op, historyId) => [BlocklistEffect(op, historyId)]
    case Delete(op, _) => if s.working.Has(op) then [DeleteEffect(op, s.working.EntryOf(op).DeletesFiles())] else []
    case _ => []
  }

  lemma StepLog(c: Config, s: System, lab: Label, t: System)
    requires s.working.Keyed() && s.durable.Keyed() && Step(c, s, lab, t)
    ensures t.log == s.log + Sent(s, lab)
  {
    hide PhysicalReady, Ledger.WithinCapacity, Ledger.Keyed;
    assert s.log + [] == s.log;
  }

  lemma {:induction false} LogGrows(c: Config, trace: seq<System>, i: nat, j: nat)
    requires Legal(c, trace) && i <= j < |trace|
    ensures trace[i].log <= trace[j].log
    decreases j
  {
    hide Step, Initial, Ledger.Keyed;
    if i < j {
      LogGrows(c, trace, i, j - 1);
      assert Next(c, trace[j - 1], trace[j]);
      var lab :| Step(c, trace[j - 1], lab, trace[j]);
      StepLog(c, trace[j - 1], lab, trace[j]);
    }
  }

  /** Each operation's tag is sent at most once, whatever crashes and lost replies the run has. */
  lemma {:induction false} TagAtMostOnce(c: Config, trace: seq<System>, i: nat, a: nat, b: nat, op: string)
    requires Legal(c, trace) && i < |trace|
    requires a < |trace[i].log| && b < |trace[i].log| && trace[i].log[a] == TagEffect(op)
             && trace[i].log[b] == TagEffect(op)
    ensures a == b
  {
    AlwaysSafe(c, trace, i);
    if a < b {
      CountTwo(trace[i].log, a, b, op);
    } else if b < a {
      CountTwo(trace[i].log, b, a, op);
    }
  }

  lemma {:induction false} CountTwo(log: seq<Effect>, a: nat, b: nat, op: string)
    requires a < b < |log| && log[a] == TagEffect(op) && log[b] == TagEffect(op)
    ensures TagCount(log, op) >= 2
  {
    var n := |log| - 1;
    if b < n {
      CountTwo(log[..n], a, b, op);
    } else {
      CountOne(log[..n], a, op);
    }
  }

  lemma {:induction false} CountOne(log: seq<Effect>, a: nat, op: string)
    requires a < |log| && log[a] == TagEffect(op)
    ensures TagCount(log, op) >= 1
  {
    if a < |log| - 1 {
      CountOne(log[..|log| - 1], a, op);
    }
  }

  /** The step that sends a tag finds its intent durable, nothing sent before, and the torrent
      not yet owned by anyone; whether it happened is then only observed. */
  lemma TagAfterDurableIntent(c: Config, trace: seq<System>, i: nat, op: string)
    requires Legal(c, trace) && i + 1 < |trace|
    requires trace[i + 1].log == trace[i].log + [TagEffect(op)]
    ensures trace[i].durable.Has(op) && trace[i].durable.reservations.at[op].state == TagIntentRecorded
    ensures TagCount(trace[i].log, op) == 0
    ensures HashOf(trace[i].durable, op).Some?
            && UntaggedOrAbsent(trace[i].torrents, HashOf(trace[i].durable, op).value)
    ensures trace[i + 1].torrents == trace[i].torrents
            || trace[i + 1].torrents == AddTag(trace[i].torrents, HashOf(trace[i].durable, op).value, Owner(op))
  {
    AlwaysSafe(c, trace, i);
    assert Next(c, trace[i], trace[i + 1]);
    var lab :| Step(c, trace[i], lab, trace[i + 1]);
    StepLog(c, trace[i], lab, trace[i + 1]);
    LastOf(trace[i], trace[i + 1].log, TagEffect(op), lab);
    hide PhysicalReady, Ledger.WithinCapacity, Ledger.Keyed, OwnerInv, NeverStartedInv;
  }

  lemma LastOf(s: System, after: seq<Effect>, e: Effect, lab: Label)
    requires after == s.log + [e] && after == s.log + Sent(s, lab)
    ensures e.TagEffect? ==> lab.Tag? && lab.op == e.op
    ensures e.StartEffect? ==> lab.Start? && lab.op == e.op
    ensures e.StopEffect? ==> lab.Stop? && lab.op == e.op
    ensures e.BlocklistEffect? ==> lab == Blocklist(e.op, e.historyId)
    ensures e.DeleteEffect? ==> lab.Delete? && lab.op == e.op && s.working.Has(e.op)
    ensures e.DeleteEffect? ==> e.files == s.working.EntryOf(e.op).DeletesFiles()
  {
    assert after[|s.log|] == e;
  }

  /** A torrent has one owner: no two live, past-tag operations share a hash. */
  lemma OwnersDistinct(c: Config, trace: seq<System>, i: nat, a: string, b: string)
    requires Legal(c, trace) && i < |trace|
    requires var l := trace[i].durable;
      l.Has(a) && l.Has(b) && Owned(l.EntryOf(a)) && Owned(l.EntryOf(b)) && HashOf(l, a) == HashOf(l, b)
    ensures a == b
  {
    AlwaysSafe(c, trace, i);
    hide Owned, TagInv, NeverStartedInv;
    assert Tags(trace[i].torrents, HashOf(trace[i].durable, a), Owner(a));
    assert Tags(trace[i].torrents, HashOf(trace[i].durable, b), Owner(b));
    assert Owner(a) in {Owner(b)};
    OwnerInjective(a, b);
  }

  /** Every torrent carries at most one fence tag, and an owned operation's torrent carries its own. */
  lemma OneTagPerTorrent(c: Config, trace: seq<System>, i: nat)
    requires Legal(c, trace) && i < |trace|
    ensures forall h :: h in trace[i].torrents ==> |trace[i].torrents[h].tags| <= 1
    ensures forall op ::
      trace[i].durable.Has(op) && Owned(trace[i].durable.EntryOf(op)) ==>
        Tags(trace[i].torrents, HashOf(trace[i].durable, op), Owner(op))
  {
    AlwaysSafe(c, trace, i);
    forall h | h in trace[i].torrents
      ensures |trace[i].torrents[h].tags| <= 1
    {
      if trace[i].torrents[h].tags != {} {
        var op :| trace[i].torrents[h].tags == {Owner(op)};
      }
    }
  }

  /** A start happens only with its intent durable, the ledger open and within capacity,
      headroom accepted and the torrent owned; and never for a sealed v1 adoption. */
  lemma StartSafety(c: Config, trace: seq<System>, i: nat, op: string)
    requires Legal(c, trace) && i + 1 < |trace|
    requires trace[i + 1].log == trace[i].log + [StartEffect(op)]
    ensures trace[i].working.Keyed() && exists free :: StartAllowed(c, trace[i], op, free)
    ensures op !in trace[i].durable.postPnr
  {
    AlwaysSafe(c, trace, i);
    assert Next(c, trace[i], trace[i + 1]);
    var lab :| Step(c, trace[i], lab, trace[i + 1]);
    StepLog(c, trace[i], lab, trace[i + 1]);
    LastOf(trace[i], trace[i + 1].log, StartEffect(op), lab);
    hide StartAllowed;
    StartKeepsInv(c, trace[i], op, lab.state, lab.free, trace[i + 1]);
    hide MachineInv;
  }

  /** A stop happens only with its pause or freeze intent durable, or with the verdict on the video
      candidate of a running transfer durable, and only on a torrent that carries its tag alone. */
  lemma StopSafety(c: Config, trace: seq<System>, i: nat, op: string)
    requires Legal(c, trace) && i + 1 < |trace|
    requires trace[i + 1].log == trace[i].log + [StopEffect(op)]
    ensures StopAllowed(c, trace[i], op)
  {
    AlwaysSafe(c, trace, i);
    assert Next(c, trace[i], trace[i + 1]);
    var lab :| Step(c, trace[i], lab, trace[i + 1]);
    StepLog(c, trace[i], lab, trace[i + 1]);
    LastOf(trace[i], trace[i + 1].log, StopEffect(op), lab);
    hide StopAllowed;
  }

  /** A deletion happens only with the verdict on its candidate durable and the torrent owned, so
      what it removes belongs to no other operation that still owns its torrent.  Of a video the grab
      was rejected in Arr just before, and the files go exactly where the candidate says so. */
  lemma DeleteSafety(c: Config, trace: seq<System>, i: nat, op: string, files: bool)
    requires Legal(c, trace) && i + 1 < |trace|
    requires trace[i + 1].log == trace[i].log + [DeleteEffect(op, files)]
    ensures DeleteAllowed(c, trace[i], op) && files == trace[i].working.EntryOf(op).DeletesFiles()
    ensures forall k :: trace[i + 1].durable.Has(k) && Owned(trace[i + 1].durable.EntryOf(k)) ==>
      Tags(trace[i + 1].torrents, HashOf(trace[i + 1].durable, k), Owner(k))
  {
    AlwaysSafe(c, trace, i);
    AlwaysSafe(c, trace, i + 1);
    assert Next(c, trace[i], trace[i + 1]);
    var lab :| Step(c, trace[i], lab, trace[i + 1]);
    StepLog(c, trace[i], lab, trace[i + 1]);
    LastOf(trace[i], trace[i + 1].log, DeleteEffect(op, files), lab);
    hide DeleteAllowed;
  }

  /** A new operation is written only after headroom accepted the very ledger that holds it. */
  lemma AdmittedWithRoom(c: Config, trace: seq<System>, i: nat, op: string)
    requires Legal(c, trace) && i + 1 < |trace| && !trace[i].durable.Has(op) && trace[i + 1].durable.Has(op)
    ensures trace[i + 1].durable.Keyed() && HeadroomSeen(c, trace[i + 1].durable)
  {
    AlwaysSafe(c, trace, i);
    AlwaysSafe(c, trace, i + 1);
    assert Next(c, trace[i], trace[i + 1]);
    var lab :| Step(c, trace[i], lab, trace[i + 1]);
    hide Legal, TagInv, OwnerInv, NeverStartedInv, HeadroomSeen, Ledger.Keyed;
    DurableAfter(c, trace[i], lab, trace[i + 1]);
    if lab.Commit? && lab.action.Op? {
      OpAddsNothing(trace[i].working, lab.action);
    }
    hide Apply;
  }

  /** An operation that is a v1 adoption now was never started at any time of the run. */
  lemma SealedNeverStarted(c: Config, trace: seq<System>, i: nat, k: nat)
    requires Legal(c, trace) && i < |trace| && k < |trace[i].log| && trace[i].log[k].StartEffect?
    ensures trace[i].log[k].op !in trace[i].durable.postPnr
  {
    AlwaysSafe(c, trace, i);
  }

  /** Capacity along a run: requested bytes and inflight never exceed the policy, and reserved
      bytes exceed capacity by no more than sizes grew. */
  lemma {:induction false} CapacityHolds(c: Config, trace: seq<System>, i: nat)
    requires Legal(c, trace) && i < |trace|
    ensures trace[i].durable.Keyed() && CapacityInv(trace[i].durable) && trace[i].durable.policy == c.policy
    ensures trace[i].durable.ReservedBytes() <= c.policy.capacityBytes + Growth(trace[i].durable)
  {
    AlwaysSafe(c, trace, i);
    if i == 0 {
      EmptyFits(c.policy);
    } else {
      CapacityHolds(c, trace, i - 1);
      assert Next(c, trace[i - 1], trace[i]);
      var lab :| Step(c, trace[i - 1], lab, trace[i]);
      StepKeepsCapacity(c, trace[i - 1], lab, trace[i]);
    }
    TotalSplits(trace[i].durable.Entries());
    hide Legal, Step, SizeOk, Ledger.Keyed, Ledger.Inflight, MachineInv;
  }

  lemma EmptyFits(policy: Policy)
    requires policy.Valid()
    ensures EmptyLedger(policy).Keyed() && CapacityInv(EmptyLedger(policy))
  {
    EmptyLedgerKeyed(policy);
  }

  lemma StepKeepsCapacity(c: Config, s: System, lab: Label, t: System)
    requires s.working.Keyed() && s.durable.Keyed() && Step(c, s, lab, t) && CapacityInv(s.durable)
    ensures t.durable.Keyed() && CapacityInv(t.durable) && t.durable.policy == s.durable.policy
  {
    hide CapacityInv, PhysicalReady, Ledger.WithinCapacity, Ledger.Keyed;
    if lab.Commit? {
      ApplyKeepsCapacity(s.working, lab.action);
      ApplyKeepsPolicy(s.working, lab.action);
    } else {
      assert t.durable == s.durable;
    }
  }

  // What a crash comes back to.

  /** Every durable write of the run met the condition of its transition. */
  ghost predicate CommitsReload(c: Config, trace: seq<System>) {
    forall i, a ::
      0 < i < |trace| && trace[i - 1].working.Keyed() && trace[i - 1].durable.Keyed()
      && Step(c, trace[i - 1], Commit(a), trace[i]) ==>
        ReloadCondition(trace[i - 1].working, a)
  }

  /** Wherever such a run is cut, what the store holds reloads to the very same ledger, so a crash
      loses nothing but memory. */
  lemma {:induction false} CrashReloads(c: Config, trace: seq<System>, i: nat)
    requires Legal(c, trace) && CommitsReload(c, trace) && i < |trace|
    ensures trace[i].durable.Keyed() && trace[i].durable.policy == c.policy
    ensures Reload(c.policy, SnapshotOf(trace[i].durable)) == Ok(trace[i].durable)
  {
    hide Reload, SnapshotOf, ReloadCondition, Step, Initial, TagInv, OwnerInv, NeverStartedInv;
    CrashStarts(c, trace);
    if i > 0 {
      CrashReloads(c, trace, i - 1);
      AlwaysSafe(c, trace, i - 1);
      assert Next(c, trace[i - 1], trace[i]);
      var lab :| Step(c, trace[i - 1], lab, trace[i]);
      StepReloads(c, trace[i - 1], lab, trace[i]);
    }
  }

  lemma CrashStarts(c: Config, trace: seq<System>)
    requires Legal(c, trace)
    ensures trace[0].durable.Keyed() && trace[0].durable.policy == c.policy
    ensures Reload(c.policy, SnapshotOf(trace[0].durable)) == Ok(trace[0].durable)
  {
    hide Reload, SnapshotOf, Next;
    EmptyLedgerKeyed(c.policy);
    RunReloads(c.policy, []);
  }

  lemma StepReloads(c: Config, s: System, lab: Label, t: System)
    requires s.working.Keyed() && s.durable.Keyed() && Step(c, s, lab, t)
    requires Reload(s.durable.policy, SnapshotOf(s.durable)) == Ok(s.durable)
    requires lab.Commit? ==> ReloadCondition(s.working, lab.action)
    ensures t.durable.Keyed() && t.durable.policy == s.durable.policy
    ensures Reload(t.durable.policy, SnapshotOf(t.durable)) == Ok(t.durable)
  {
    hide Reload, SnapshotOf, ReloadCondition, Apply, Ledger.Keyed;
    DurableAfter(c, s, lab, t);
    hide Step;
    if lab.Commit? {
      ReloadApplyIff(s.working, lab.action);
      ApplyKeepsPolicy(s.working, lab.action);
    }
  }

  lemma DurableAfter(c: Config, s: System, lab: Label, t: System)
    requires s.working.Keyed() && s.durable.Keyed() && Step(c, s, lab, t)
    ensures lab.Commit? ==> s.working == s.durable && Apply(s.working, lab.action) == Ok(t.durable)
    ensures !lab.Commit? ==> t.durable == s.durable
  {
    hide Apply, Ledger.Keyed, StartAllowed, PhysicalReady;
  }

  // Where a stronger claim would fail.

  function Repeat(c: char, n: nat): (s: string)
    ensures |s| == n && forall i :: 0 <= i < n ==> s[i] == c
  {
    if n == 0 then "" else Repeat(c, n - 1) + [c]
  }

  function SampleHash(): string {
    Repeat('a', 40)
  }

  function SampleFingerprint(): string {
    Repeat('a', 64)
  }

  function Sample(state: ReservationState): Entry {
    PlainEntry(NewReservation("op", RADARR, "1", 10, state).(
      torrentHash := Some(SampleHash()), downloadId := Some(SampleHash()),
      selectorFingerprint := Some(SampleFingerprint()), watermark := Some("0")))
  }

  lemma SampleOk(policy: Policy, state: ReservationState)
    requires state !in {PreAdmitted, Invalidated, Released}
    ensures ReloadEntryOk(policy, Sample(state))
  {
    assert LowerHex(SampleHash(), 40) && LowerHex(SampleFingerprint(), 64);
    HashOfHash(SampleHash());
    assert SampleHash() != "" && SampleFingerprint() != "";
    hide LowerHex, Hex, Lower;
  }

  /** A running transfer whose video candidate is still probed. */
  function Probed(): Entry {
    Sample(QbittorrentActive).(video := Some(VideoCandidate("op", 5, 5, None, 0, 0, VideoProbing, None, None)))
  }

  /** Pausing a transfer whose video candidate is still probed leaves a ledger that does not reload. */
  lemma PauseStrandsCandidate(policy: Policy)
    ensures var e := Probed();
      && ReloadEntryOk(policy, e)
      && EntryStep(e, RequestPause, true).Ok?
      && !ReloadEntryOk(policy, EntryStep(e, RequestPause, true).value)
  {
    SampleOk(policy, QbittorrentActive);
    var e := Probed();
    assert RecordOk(Sample(QbittorrentActive).reservation);
    hide RecordOk;
    assert VideoVerdict(e.reservation, e.video.value) == Keep;
    assert ReloadEntryOk(policy, e);
    assert Truthy(Some(SampleHash())) by { assert |SampleHash()| == 40; }
    ReloadStepIff(policy, e, RequestPause, true);
  }

  /** A Lidarr transfer whose album is named by a word. */
  function Worded(): Entry {
    var e := Sample(QbittorrentActive);
    e.(reservation := e.reservation.(source := LIDARR, mediaId := "x"))
  }

  /** Probing a Lidarr transfer whose album id is no positive decimal leaves a ledger that does not
      reload. */
  lemma WordedAlbumStrandsCandidate(policy: Policy)
    ensures ReloadEntryOk(policy, Worded()) && EntryStep(Worded(), EnsureMusic(5), false).Ok?
    ensures !ReloadEntryOk(policy, EntryStep(Worded(), EnsureMusic(5), false).value)
  {
    SampleOk(policy, QbittorrentActive);
    assert LowerHex(SampleHash(), 40) && LowerHex(SampleFingerprint(), 64);
    HashOfHash(SampleHash());
    assert SampleHash() != "" && SampleFingerprint() != "";
    assert !PositiveDecimal("x");
    hide LowerHex, Hex, Lower, PositiveDecimal;
    ReloadStepIff(policy, Worded(), EnsureMusic(5), false);
  }

  /** A candidate probed since 5 that last progressed at 9. */
  const PROBED_CANDIDATE := VideoCandidate("op", 5, 9, Some(9), 1, 0, VideoProbing, None, None)

  /** A clock that steps back between two metadata observations leaves a ledger that does not reload. */
  lemma ClockStepStrandsCandidate(policy: Policy)
    ensures var e := Sample(QbittorrentActive).(video := Some(PROBED_CANDIDATE));
      && ReloadEntryOk(policy, e)
      && EntryStep(e, RecordVideoMetadata(2, 7), false).Ok?
      && !ReloadEntryOk(policy, EntryStep(e, RecordVideoMetadata(2, 7), false).value)
  {
    SampleOk(policy, QbittorrentActive);
    var e := Sample(QbittorrentActive).(video := Some(PROBED_CANDIDATE));
    assert RecordOk(Sample(QbittorrentActive).reservation);
    hide RecordOk;
    assert VideoVerdict(e.reservation, e.video.value) == Keep;
    assert ReloadEntryOk(policy, e);
    ReloadStepIff(policy, e, RecordVideoMetadata(2, 7), false);
  }

  /** Nothing stops a resume of a sealed v1 adoption, but the ledger then does not reload. */
  lemma ResumeStrandsAdoption(policy: Policy, e: Entry)
    requires ReloadEntryOk(policy, e) && e.postPnr.Some? && e.reservation.state == QbittorrentStopped
    ensures EntryStep(e, RequestResume, false).Ok? && !ReloadEntryOk(policy, EntryStep(e, RequestResume, false).value)
  {
    assert Truthy(e.reservation.torrentHash);
    hide LowerHex, Hex, Lower, PostPnrSealed;
    ReloadStepIff(policy, e, RequestResume, false);
  }

  /** A second reservation of a historical adoption's hash is admitted, but no ledger that holds
      both reloads. */
  lemma ClashStrandsAdoption(l: Ledger, op: string, intent: ExternalIntent)
    requires l.Keyed() && op in l.historical
    requires intent.torrentHash == l.historical[op].torrentHash && intent.operationId != op
    requires ExternalDecision(l, intent, true, true) == Decision(true, Admitted)
    ensures Apply(l, AdoptExternal(intent, true, true)).Ok?
    ensures !HistoricalHashesUnique(Apply(l, AdoptExternal(intent, true, true)).value)
  {
    var next := l.PutEntry(intent.operationId, PlainEntry(ExternalReservation(intent)));
    assert Apply(l, AdoptExternal(intent, true, true)) == Ok(next);
    hide Ledger.Keyed, ExternalDecision, ReloadInv, Apply;
    assert next.reservations.at[intent.operationId].torrentHash == Some(l.historical[op].torrentHash);
    assert op in next.historical && next.historical[op] == l.historical[op];
    assert HashElsewhere(next.reservations.at, op, next.historical[op].torrentHash);
  }

  /** A ledger that holds one operation. */
  function Single(policy: Policy, quiescing: bool, e: Entry): Ledger {
    EmptyLedger(policy).(quiescing := quiescing).PutEntry("op", e)
  }

  lemma SingleReads(policy: Policy, quiescing: bool, e: Entry)
    requires EntryKeyed("op", e) && CloneEntryOk(e) && LidarrEntryOk(e)
    requires e.reservation.bytesReserved <= policy.capacityBytes && e.reservation.Live()
    ensures var l := Single(policy, quiescing, e);
      && l.Keyed() && l.Has("op") && l.EntryOf("op") == e && l.reservations.at["op"] == e.reservation
      && l.quiescing == quiescing
      && Healthy(l) && l.WithinCapacity()
  {
    var start := EmptyLedger(policy).(quiescing := quiescing);
    assert start.Keyed() && Total(ReservedWeight, start.Entries()) == 0;
    PutTotal(start, "op", e, ReservedWeight);
    PutEntryReads(start, "op", e);
    hide Ledger.Keyed, RecordOk, CloneEntryOk, LidarrEntryOk, Ledger.Entries, EntryKeyed;
    var l := Single(policy, quiescing, e);
    assert l.EntryOf("op").reservation == l.reservations.at["op"];
    forall op | l.Has(op)
      ensures CloneEntryOk(l.EntryOf(op)) && LidarrEntryOk(l.EntryOf(op))
    {
      assert op == "op";
    }
  }

  /** A healthy quiescing ledger, ready in every respect, whose recovery asks for a resume that
      raises as soon as it finds capacity and headroom ready. */
  lemma QuiescingRecoveryRaises(c: Config, free: map<string, Option<int>>)
    requires c.policy.capacityBytes >= 10 && c.headroom.None?
    ensures var l := Single(c.policy, true, Sample(QbittorrentStopped));
      && l.Keyed() && Healthy(l) && l.WithinCapacity() && PhysicalReady(c, l, free)
      && ResumesAtOnce(l, "op") && Obstructed(l) && Apply(l, Op("op", RequestResume)).Raised?
  {
    SampleOk(c.policy, QbittorrentStopped);
    var l := Single(c.policy, true, Sample(QbittorrentStopped));
    SingleReads(c.policy, true, Sample(QbittorrentStopped));
    HealthyResumes(l, "op");
    hide Ledger.Keyed, CloneEntryOk, Healthy, Ledger.WithinCapacity, Apply, PauseSpoils;
    assert "op" !in l.postPnr && "op" !in l.historical;
    assert Obstructs(l, "op");
  }

  /** A healthy quiescing ledger whose recovery pauses a probed transfer, after which no working
      copy can be made and the confirmation of the pause raises. */
  lemma QuiescingPauseRaises(policy: Policy)
    requires policy.capacityBytes >= 10
    ensures var l := Single(policy, true, Probed());
      && l.Keyed() && Healthy(l) && Obstructed(l) && Apply(l, Op("op", RequestPause)).Ok?
      && !CloneInv(Apply(l, Op("op", RequestPause)).value)
  {
    ProbedIsSpoiled(policy);
    hide Probed, Ledger.Keyed, CloneEntryOk, LidarrEntryOk, EntryStep, EntryKeyed, Healthy, StepCloneCondition, Single,
         Apply;
    var l := Single(policy, true, Probed());
    SingleReads(policy, true, Probed());
    assert PauseSpoils(l, "op");
    StepApplies(l, "op", RequestPause);
    PauseSpoilsIff(l, "op");
    assert Obstructs(l, "op");
  }

  lemma StepApplies(l: Ledger, op: string, a: OpAction)
    requires l.Keyed() && l.Has(op)
    ensures Apply(l, Op(op, a)).Ok? <==> EntryStep(l.EntryOf(op), a, l.quiescing).Ok?
  {
    hide EntryStep, Ledger.Keyed;
  }

  lemma ProbedIsSpoiled(policy: Policy)
    ensures var e := Probed();
      && EntryKeyed("op", e) && CloneEntryOk(e) && LidarrEntryOk(e) && e.reservation.Live()
      && e.reservation.bytesReserved == 10
      && Running(e.reservation.state) && EntryStep(e, RequestPause, true).Ok? && !StepCloneCondition(e, RequestPause)
  {
    PauseStrandsCandidate(policy);
    hide RecordOk, MusicOk, VideoVerdict;
  }
}
