/** Several transitions of one operation under one save. */
module FenceBatches {
  import opened Common
  import opened FenceEntry
  import opened FenceLedger
  import opened FenceIntake
  import opened FenceMachine
  import opened FenceDriverFacts
  import opened FenceHealth
  import opened Qbittorrent

  function ApplySteps(l: Ledger, op: string, steps: seq<OpAction>): Result<Ledger>
    requires l.Keyed()
    decreases |steps|
  {
    if steps == [] then Ok(l)
    else
      var next :- Apply(l, Op(op, steps[0]));
      ApplyKeyed(l, Op(op, steps[0]));
      ApplySteps(next, op, steps[1..])
  }

  lemma {:induction false} ApplyThen(l: Ledger, op: string, steps: seq<OpAction>, a: OpAction, middle: Ledger)
    requires l.Keyed() && middle.Keyed() && ApplySteps(l, op, steps) == Ok(middle)
    ensures ApplySteps(l, op, steps + [a]) == Apply(middle, Op(op, a))
    decreases |steps|
  {
    hide Apply, Ledger.Keyed;
    if steps == [] {
      assert [a][1..] == [];
      if Apply(l, Op(op, a)).Ok? { ApplyKeyed(l, Op(op, a)); }
    } else {
      assert (steps + [a])[1..] == steps[1..] + [a];
      ApplyKeyed(l, Op(op, steps[0]));
      ApplyThen(Apply(l, Op(op, steps[0])).value, op, steps[1..], a, middle);
    }
  }

  /** The steps move one entry through all of them and keep the others as they were. */
  lemma {:induction false} StepsReach(l: Ledger, op: string, steps: seq<OpAction>)
    requires l.Keyed() && l.Has(op)
    ensures ApplySteps(l, op, steps).Ok? <==> EntrySteps(l.EntryOf(op), steps, l.quiescing).Ok?
    ensures ApplySteps(l, op, steps).Ok? ==>
      var next := ApplySteps(l, op, steps).value;
      && next.Keyed() && next.Has(op) && OthersKept(l, next, op)
      && next.EntryOf(op) == EntrySteps(l.EntryOf(op), steps, l.quiescing).value
    decreases |steps|
  {
    if steps == [] {
      NothingKept(l, op);
    } else if Apply(l, Op(op, steps[0])).Ok? {
      var a := Op(op, steps[0]);
      ApplyKeyed(l, a);
      OpOthersKept(l, op, steps[0]);
      var middle := Apply(l, a).value;
      var moved := EntryStep(l.EntryOf(op), steps[0], l.quiescing).value;
      hide EntryStep, Ledger.Keyed, OthersKept;
      PutEntryReads(l, op, moved);
      assert middle.EntryOf(op) == moved;
      OthersKeptParts(l, middle, op);
      hide Apply;
      StepsReach(middle, op, steps[1..]);
      if ApplySteps(middle, op, steps[1..]).Ok? {
        OthersKeptTransitive(l, middle, ApplySteps(middle, op, steps[1..]).value, op);
      }
    }
  }

  lemma OthersKeptParts(before: Ledger, after: Ledger, op: string)
    requires OthersKept(before, after, op)
    ensures after.quiescing == before.quiescing
  {
  }

  lemma {:induction false} StepsKeepCandidateInv(l: Ledger, op: string, steps: seq<OpAction>)
    requires l.Keyed() && CandidateInv(l) && ApplySteps(l, op, steps).Ok?
    ensures CandidateInv(ApplySteps(l, op, steps).value)
    decreases |steps|
  {
    hide CandidateInv, Ledger.Keyed, Apply;
    if steps != [] {
      ApplyKeyed(l, Op(op, steps[0]));
      ApplyKeepsCandidateInv(l, Op(op, steps[0]));
      StepsKeepCandidateInv(Apply(l, Op(op, steps[0])).value, op, steps[1..]);
    }
  }

  /** Transitions that a poll saves together; they rest on no guard of their own. */
  predicate Unguarded(a: OpAction) {
    a.RecordVideoFailure? || a.RecordVideoMetadata? || a.InvalidateVideo?
  }

  lemma UnguardedAllowed(c: Config, s: System, op: string, step: OpAction)
    requires s.working == s.durable && s.working.Keyed() && Unguarded(step)
    ensures CommitAllowed(c, s, Op(op, step)) && !step.RequestTag?
  {
  }

  lemma Commits(c: Config, s: System, a: Action, written: System)
    requires s.working.Keyed() && CommitAllowed(c, s, a) && Apply(s.working, a).Ok?
    requires written == s.(durable := Apply(s.working, a).value, sight := Blind,
                           armed := if a.Op? && a.step.RequestTag? then Some(a.op) else None)
    ensures written.durable.Keyed() && Step(c, s, Commit(a), written)
  {
    ApplyKeyed(s.working, a);
    hide Apply, Ledger.Keyed, CommitAllowed, StartAllowed, StopAllowed, DeleteAllowed, TagAllowed;
  }

  lemma Installs(c: Config, s: System)
    requires s.working.Keyed() && s.durable.Keyed()
    ensures Step(c, s, Install, s.(working := s.durable))
  {
    hide Ledger.Keyed, CommitAllowed, StartAllowed, StopAllowed, DeleteAllowed, TagAllowed;
  }

  /** A run may take the steps one durable write at a time; memory and store end alike. */
  lemma {:induction false} LegalSteps(c: Config, trace: seq<System>, op: string, steps: seq<OpAction>,
                                      next: Ledger) returns (longer: seq<System>)
    requires trace != [] && Legal(c, trace) && steps != [] && forall a :: a in steps ==> Unguarded(a)
    requires var s := trace[|trace| - 1];
      s.working == s.durable && s.working.Keyed() && ApplySteps(s.working, op, steps) == Ok(next)
    ensures next.Keyed() && Legal(c, longer) && trace <= longer && longer != []
    ensures longer[|longer| - 1] == trace[|trace| - 1].(durable := next, working := next, armed := None, sight := Blind)
    decreases |steps|
  {
    hide Legal, Ledger.Keyed, Step, Apply, Unguarded, CommitAllowed;
    var s := trace[|trace| - 1];
    var a := Op(op, steps[0]);
    assert steps[0] in steps;
    var written := s.(durable := Apply(s.working, a).value, armed := None, sight := Blind);
    UnguardedAllowed(c, s, op, steps[0]);
    Commits(c, s, a, written);
    Installs(c, written);
    LegalExtend(c, trace, Commit(a), written);
    LegalExtend(c, trace + [written], Install, written.(working := written.durable));
    longer := trace + [written] + [written.(working := written.durable)];
    if steps[1..] != [] {
      longer := LegalSteps(c, longer, op, steps[1..], next);
    }
  }

  /** What a poll of one candidate found and left. */
  ghost predicate PollRecorded(before: Ledger, after: Ledger, op: string, h: Health, policy: HealthPolicy, now: int) {
    && before.Has(op) && after.Has(op) && OthersKept(before, after, op)
    && Watching(before.EntryOf(op), now)
    && after.EntryOf(op)
       == before.EntryOf(op).(video := Some(Judged(before.EntryOf(op).video.value, h, policy, now)))
  }

  /** Taking down an answer on a working copy: it fails exactly where the candidate is not watched. */
  lemma NotesReach(l: Ledger, op: string, h: Health, now: int)
    requires l.Keyed() && l.Has(op) && l.EntryOf(op).video.Some?
    ensures var r := ApplySteps(l, op, NoteSteps(l.EntryOf(op).video.value, h, now));
      && (r.Ok? <==> Watching(l.EntryOf(op), now))
      && (r.Ok? ==>
            && r.value.Keyed() && op in r.value.video
            && r.value.video[op] == Noted(l.EntryOf(op).video.value, h, now))
  {
    hide Ledger.Keyed, OthersKept, Noted, NoteSteps, ApplySteps, EntrySteps, Watching;
    StepsReach(l, op, NoteSteps(l.EntryOf(op).video.value, h, now));
    PollNotes(l.EntryOf(op), h, now, l.quiescing);
  }

  lemma PollReaches(l: Ledger, op: string, h: Health, policy: HealthPolicy, now: int)
    requires l.Keyed() && l.Has(op) && l.EntryOf(op).video.Some?
    ensures var r := ApplySteps(l, op, PollSteps(l.EntryOf(op).video.value, h, policy, now));
      && (r.Ok? <==> Watching(l.EntryOf(op), now))
      && (r.Ok? ==> r.value.Keyed() && PollRecorded(l, r.value, op, h, policy, now))
  {
    hide Ledger.Keyed, OthersKept, Judged, PollSteps, ApplySteps, EntrySteps, Watching;
    StepsReach(l, op, PollSteps(l.EntryOf(op).video.value, h, policy, now));
    PollJudges(l.EntryOf(op), h, policy, now, l.quiescing);
  }

  lemma StepsUnguarded(c: VideoCandidate, h: Health, policy: HealthPolicy, now: int)
    ensures PollSteps(c, h, policy, now) != []
    ensures forall a :: a in PollSteps(c, h, policy, now) ==> Unguarded(a)
  {
  }

  lemma EntryParts(l: Ledger, op: string)
    requires l.Has(op)
    ensures l.EntryOf(op).reservation == l.reservations.at[op]
    ensures op in l.video <==> l.EntryOf(op).video.Some?
    ensures op in l.video ==> l.EntryOf(op).video.value == l.video[op]
  {
  }

  /** The candidate that a poll at `now` looks at: the one there is, or a fresh one. */
  function Probe(e: Entry, now: int): VideoCandidate {
    if e.video.Some? then e.video.value
    else VideoCandidate(e.reservation.operationId, now, now, None, 0, 0, VideoProbing, None, None)
  }

  /** A poll leaves the candidate alone, opens it, or judges it by one answer. */
  ghost predicate Polled(before: Entry, after: Entry, policy: HealthPolicy, now: int) {
    || after.video == before.video
    || after.video == Some(Probe(before, now))
    || exists h :: after.video == Some(Judged(Probe(before, now), h, policy, now))
  }

  /** What looking at a candidate may change in its entry, and never once it is judged dead. */
  ghost predicate Looked(before: Entry, after: Entry, policy: HealthPolicy, now: int) {
    && after == before.(video := after.video)
    && Polled(before, after, policy, now)
    && (before.VideoJudgedDead() ==> after == before)
  }

  /** The verdict of a poll is that of what the torrent of the operation reported during it. */
  ghost predicate PolledOnSight(c: Config, before: Entry, after: Entry, op: string, policy: HealthPolicy, now: int,
                                trace: seq<System>, since: nat) {
    || after.video == before.video
    || after.video == Some(Probe(before, now))
    || exists j :: since <= j < |trace| && JudgedBy(c, before, after, op, policy, now, trace[j])
  }

  predicate JudgedBy(c: Config, before: Entry, after: Entry, op: string, policy: HealthPolicy, now: int, s: System) {
    && before.reservation.torrentHash.Some? && before.reservation.torrentHash.value in s.torrents
    && var t := s.torrents[before.reservation.torrentHash.value];
       && Placed(c, before.reservation.source, t, {Owner(op)}) && HealthOf(t).Some?
       && after.video == Some(Judged(Probe(before, now), HealthOf(t).value, policy, now))
  }

  lemma PolledPlainly(c: Config, e: Entry, op: string, policy: HealthPolicy, now: int, since: nat)
    ensures forall trace :: PolledOnSight(c, e, e, op, policy, now, trace, since)
    ensures forall trace :: PolledOnSight(c, e, e.(video := Some(Probe(e, now))), op, policy, now, trace, since)
  {
  }

  lemma PolledBySight(c: Config, before: Entry, after: Entry, op: string, policy: HealthPolicy, now: int,
                      trace: seq<System>, since: nat, j: nat)
    requires since <= j < |trace| && JudgedBy(c, before, after, op, policy, now, trace[j])
    ensures PolledOnSight(c, before, after, op, policy, now, trace, since)
  {
  }

  lemma PolledEarlier(c: Config, before: Entry, after: Entry, op: string, policy: HealthPolicy, now: int,
                      trace: seq<System>, since: nat, later: nat)
    requires since <= later && PolledOnSight(c, before, after, op, policy, now, trace, later)
    ensures PolledOnSight(c, before, after, op, policy, now, trace, since)
  {
    hide JudgedBy;
  }

  lemma JudgedLater(c: Config, before: Entry, middle: Entry, after: Entry, op: string, policy: HealthPolicy, now: int,
                    trace: seq<System>, longer: seq<System>, since: nat)
    requires PolledOnSight(c, before, middle, op, policy, now, trace, since) && trace <= longer
    requires after.video == middle.video
    ensures PolledOnSight(c, before, after, op, policy, now, longer, since)
  {
    if after.video != before.video && after.video != Some(Probe(before, now)) {
      var j :| since <= j < |trace| && JudgedBy(c, before, middle, op, policy, now, trace[j]);
      assert JudgedBy(c, before, after, op, policy, now, longer[j]);
    }
  }

  /** The answer that was judged is the report of a torrent that this state of the world holds. */
  lemma JudgedSeen(c: Config, before: Ledger, probed: Ledger, after: Ledger, op: string, h: Health,
                   policy: HealthPolicy, now: int, s: System, source: Source)
    requires before.Has(op) && probed.Has(op)
    requires probed.EntryOf(op) == before.EntryOf(op).(video := Some(Probe(before.EntryOf(op), now)))
    requires PollRecorded(probed, after, op, h, policy, now)
    requires var r := before.reservations.at[op];
      && r.source in c.sources && c.sources[r.source] == source && r.torrentHash.Some?
      && r.torrentHash.value in s.torrents && HealthOf(s.torrents[r.torrentHash.value]) == Some(h)
      && SeenIn(source, s.torrents[r.torrentHash.value], {Owner(op)})
    ensures after.Has(op) && JudgedBy(c, before.EntryOf(op), after.EntryOf(op), op, policy, now, s)
  {
    hide OthersKept, Judged, HealthOf;
    assert before.EntryOf(op).reservation == before.reservations.at[op];
  }

  lemma ProbeOpened(l: Ledger, op: string, now: int, next: Ledger)
    requires l.Keyed() && Apply(l, Op(op, EnsureVideo(now))) == Ok(next)
    ensures l.Has(op) && next.Has(op) && Truthy(l.reservations.at[op].torrentHash)
    ensures next.EntryOf(op) == l.EntryOf(op).(video := Some(Probe(l.EntryOf(op), now)))
  {
    var e := l.EntryOf(op);
    hide Ledger.Keyed, VideoSource;
    PutEntryReads(l, op, EntryStep(e, EnsureVideo(now), l.quiescing).value);
  }

  lemma VideoGivenUp(l: Ledger, op: string, next: Ledger)
    requires l.Keyed() && Apply(l, Op(op, ReleaseInvalidatedVideo)) == Ok(next)
    ensures l.Has(op) && next.Has(op) && next.EntryOf(op) == l.EntryOf(op).In(Invalidated)
  {
    var e := l.EntryOf(op);
    hide Ledger.Keyed, VideoSource;
    PutEntryReads(l, op, EntryStep(e, ReleaseInvalidatedVideo, l.quiescing).value);
  }

  lemma OpenedLooked(e: Entry, policy: HealthPolicy, now: int)
    ensures Looked(e, e, policy, now) && Looked(e, e.(video := Some(Probe(e, now))), policy, now)
  {
  }

  lemma JudgedLooked(before: Ledger, probed: Ledger, after: Ledger, op: string, h: Health, policy: HealthPolicy,
                     now: int)
    requires before.Has(op) && probed.Has(op)
    requires probed.EntryOf(op) == before.EntryOf(op).(video := Some(Probe(before.EntryOf(op), now)))
    requires PollRecorded(probed, after, op, h, policy, now)
    ensures OthersKept(probed, after, op) && after.Has(op)
    ensures Looked(before.EntryOf(op), after.EntryOf(op), policy, now)
    ensures after.EntryOf(op).video.Some? && !before.EntryOf(op).VideoJudgedDead()
    ensures after.EntryOf(op).reservation == before.EntryOf(op).reservation
  {
    hide OthersKept, Judged;
    assert after.EntryOf(op).video == Some(Judged(Probe(before.EntryOf(op), now), h, policy, now));
  }

  /** The effects that one record of a poll may send. */
  ghost predicate PollEffects(before: seq<Effect>, after: seq<Effect>, op: string) {
    || after == before || after == before + [StopEffect(op)]
    || exists historyId :: PollTook(before, after, op, historyId)
  }

  /** A stop, a confirmed rejection of the grab, and then at most a deletion. */
  predicate PollTook(before: seq<Effect>, after: seq<Effect>, op: string, historyId: int) {
    || after == before + [StopEffect(op), BlocklistEffect(op, historyId)]
    || exists files :: after == before + [StopEffect(op), BlocklistEffect(op, historyId), DeleteEffect(op, files)]
  }

  /** Stopped, rejected in Arr under its own history id, and deleted, with its files exactly where
      the candidate says so. */
  predicate GivenUpInFull(before: seq<Effect>, after: seq<Effect>, op: string, e: Entry) {
    && e.reservation.externalHistoryId.Some?
    && after == before + [StopEffect(op), BlocklistEffect(op, e.reservation.externalHistoryId.value),
                          DeleteEffect(op, e.DeletesFiles())]
  }

  /** What one record of a poll may do: a candidate already judged dead stays as it is, effects
      follow only a verdict of this very poll, and a release follows both. */
  ghost predicate RecordPolled(before: Entry, after: Entry, sent: bool, policy: HealthPolicy, now: int) {
    && (before.VideoJudgedDead() || before.reservation.state != QbittorrentActive ==> after == before && !sent)
    && Polled(before, after, policy, now)
    && (after == before.(video := after.video) || after == before.In(Invalidated).(video := after.video))
    && (sent ==> after.VideoJudgedDead() && before.reservation.state == QbittorrentActive)
    && (after.reservation != before.reservation ==> sent)
  }

  lemma EffectsTaken(log: seq<Effect>, op: string, historyId: int, files: bool)
    ensures var stopped := log + [StopEffect(op)];
      var rejected := stopped + [BlocklistEffect(op, historyId)];
      var deleted := rejected + [DeleteEffect(op, files)];
      && PollEffects(log, log, op) && PollEffects(log, stopped, op)
      && PollEffects(log, rejected, op) && PollEffects(log, deleted, op)
      && deleted == log + [StopEffect(op), BlocklistEffect(op, historyId), DeleteEffect(op, files)]
  {
    var rejected := log + [StopEffect(op)] + [BlocklistEffect(op, historyId)];
    assert rejected == log + [StopEffect(op), BlocklistEffect(op, historyId)];
    assert PollTook(log, rejected, op, historyId);
    var deleted := rejected + [DeleteEffect(op, files)];
    assert deleted == log + [StopEffect(op), BlocklistEffect(op, historyId), DeleteEffect(op, files)];
    assert PollTook(log, deleted, op, historyId);
  }

  lemma FullyGivenUp(log: seq<Effect>, before: Ledger, op: string, after: Ledger)
    requires before.Has(op) && after.Has(op) && before.reservations.at[op].externalHistoryId.Some?
    requires after.EntryOf(op) == before.EntryOf(op).In(Invalidated)
    ensures var e := before.EntryOf(op);
      GivenUpInFull(log, log + [StopEffect(op)] + [BlocklistEffect(op, e.reservation.externalHistoryId.value)]
                         + [DeleteEffect(op, e.DeletesFiles())], op, after.EntryOf(op))
  {
    var e := before.EntryOf(op);
    assert e.reservation == before.reservations.at[op] && after.EntryOf(op).DeletesFiles() == e.DeletesFiles();
    EffectsTaken(log, op, e.reservation.externalHistoryId.value, e.DeletesFiles());
  }

  lemma NothingPolled(e: Entry, policy: HealthPolicy, now: int)
    ensures RecordPolled(e, e, false, policy, now)
  {
  }

  lemma LookedPolled(before: Entry, after: Entry, policy: HealthPolicy, now: int)
    requires Looked(before, after, policy, now) && before.reservation.state == QbittorrentActive
    ensures after.reservation == before.reservation && RecordPolled(before, after, false, policy, now)
  {
    hide Polled;
  }

  /** A look that condemned the candidate may be followed by the effects and the release. */
  lemma CondemnedPolled(before: Entry, dead: Entry, after: Entry, policy: HealthPolicy, now: int)
    requires Looked(before, dead, policy, now) && before.reservation.state == QbittorrentActive
    requires dead.VideoJudgedDead() && !before.VideoJudgedDead()
    requires after == dead || after == dead.In(Invalidated)
    ensures RecordPolled(before, after, true, policy, now)
  {
    assert after.video == dead.video;
    if after.video != before.video && after.video != Some(Probe(before, now)) {
      var h :| dead.video == Some(Judged(Probe(before, now), h, policy, now));
      assert after.video == Some(Judged(Probe(before, now), h, policy, now));
    }
  }

  /** The work that records of a snapshot handed over: one for each that was given up since. */
  function GivenUp(records: seq<Reservation>, upto: nat, l: Ledger, delay: int): seq<Replacement>
    requires upto <= |records|
  {
    if upto == 0 then []
    else
      var r := records[upto - 1];
      GivenUp(records, upto - 1, l, delay)
      + if r.state == QbittorrentActive && l.Has(r.operationId)
           && l.reservations.at[r.operationId].state == Invalidated
        then [Replacement(r.source, r.mediaId, delay)] else []
  }

  lemma GivenUpNone(records: seq<Reservation>, l: Ledger, delay: int)
    ensures GivenUp(records, 0, l, delay) == []
  {
  }

  lemma {:induction false} GivenUpKept(records: seq<Reservation>, upto: nat, i: nat, before: Ledger, after: Ledger,
                                       delay: int)
    requires upto <= i < |records| && Current(records, i, before) && OthersKept(before, after, records[i].operationId)
    requires forall j :: 0 <= j < i ==> before.Has(records[j].operationId)
    ensures GivenUp(records, upto, after, delay) == GivenUp(records, upto, before, delay)
  {
    if upto > 0 {
      GivenUpKept(records, upto - 1, i, before, after, delay);
      KeptElsewhere(records, i, before, after);
    }
    hide OthersKept, Current;
  }

  /** The entries that no poll changes. */
  predicate Spared(e: Entry) {
    !VideoSource(e.reservation.source) || e.reservation.state != QbittorrentActive || e.VideoJudgedDead()
  }

  ghost predicate SparedKept(before: Ledger, after: Ledger) {
    forall op :: before.Has(op) ==>
      after.Has(op) && (Spared(before.EntryOf(op)) ==> after.EntryOf(op) == before.EntryOf(op))
  }

  /** Operations whose candidate was judged dead in between. */
  predicate Condemns(before: Ledger, after: Ledger, op: string) {
    && before.Has(op) && after.Has(op)
    && !before.EntryOf(op).VideoJudgedDead() && after.EntryOf(op).VideoJudgedDead()
  }

  predicate GivesUp(e: Effect) {
    e.StopEffect? || e.BlocklistEffect? || e.DeleteEffect?
  }

  /** Each effect is the only stop, rejection or deletion of an operation condemned in between. */
  ghost predicate SentForVerdicts(before: Ledger, after: Ledger, unsent: seq<Effect>, log: seq<Effect>) {
    && unsent <= log
    && (forall k :: |unsent| <= k < |log| ==>
          GivesUp(log[k]) && Condemns(before, after, log[k].op))
    && (forall j, k :: |unsent| <= j < k < |log| ==> log[j] != log[k])
  }

  /** Half way through a poll: what is still to come is untouched. */
  ghost predicate Polling(records: seq<Reservation>, from: nat, before: Ledger, now: Ledger, unsent: seq<Effect>,
                          log: seq<Effect>) {
    && Current(records, from, now) && SparedKept(before, now) && SentForVerdicts(before, now, unsent, log)
    && (forall j :: 0 <= j < |records| ==> before.Has(records[j].operationId) && now.Has(records[j].operationId))
    && (forall j :: from <= j < |records| ==>
          now.EntryOf(records[j].operationId) == before.EntryOf(records[j].operationId))
  }

  lemma PollBegins(l: Ledger, log: seq<Effect>)
    requires l.Keyed()
    ensures Polling(RecordsOf(l), 0, l, l, log, log)
  {
    SnapshotCurrent(l);
    forall j | 0 <= j < |RecordsOf(l)|
      ensures l.Has(RecordsOf(l)[j].operationId)
    {
      CurrentFrom(RecordsOf(l), j, l);
      CurrentAt(RecordsOf(l), j, l);
    }
  }

  lemma PollShows(records: seq<Reservation>, i: nat, before: Ledger, now: Ledger, unsent: seq<Effect>, log: seq<Effect>)
    requires Polling(records, i, before, now, unsent, log)
    ensures SparedKept(before, now) && SentForVerdicts(before, now, unsent, log)
    ensures i < |records| ==>
      && now.Has(records[i].operationId) && now.reservations.at[records[i].operationId] == records[i]
  {
    if i < |records| { CurrentAt(records, i, now); }
    hide Current, SparedKept, SentForVerdicts;
  }

  lemma SparedStays(before: Ledger, middle: Ledger, after: Ledger, op: string, sent: bool, policy: HealthPolicy,
                    now: int)
    requires SparedKept(before, middle) && OthersKept(middle, after, op)
    requires before.Has(op) && middle.Has(op) && middle.EntryOf(op) == before.EntryOf(op)
             && VideoSource(before.reservations.at[op].source)
    requires after.Has(op) && RecordPolled(middle.EntryOf(op), after.EntryOf(op), sent, policy, now)
    ensures SparedKept(before, after)
  {
    hide Polled, IntakeKept;
    assert before.EntryOf(op).reservation == before.reservations.at[op];
  }

  lemma VerdictsSent(before: Ledger, middle: Ledger, after: Ledger, op: string, unsent: seq<Effect>, log: seq<Effect>,
                     longer: seq<Effect>, policy: HealthPolicy, now: int)
    requires SentForVerdicts(before, middle, unsent, log) && OthersKept(middle, after, op)
    requires before.Has(op) && middle.Has(op) && middle.EntryOf(op) == before.EntryOf(op)
    requires after.Has(op) && RecordPolled(middle.EntryOf(op), after.EntryOf(op), longer != log, policy, now)
    requires PollEffects(log, longer, op)
    ensures SentForVerdicts(before, after, unsent, longer)
  {
    hide Polled, IntakeKept;
    assert !Condemns(before, middle, op);
    assert longer != log ==> Condemns(before, after, op);
    forall k | |unsent| <= k < |longer|
      ensures GivesUp(longer[k]) && Condemns(before, after, longer[k].op)
      ensures k >= |log| ==> longer[k].op == op
      ensures k < |log| ==> longer[k] == log[k] && longer[k].op != op
    {
      if k < |log| {
        assert longer[k] == log[k] && Condemns(before, middle, log[k].op);
        assert after.EntryOf(log[k].op) == middle.EntryOf(log[k].op);
      }
    }
  }

  lemma PollGoesOn(records: seq<Reservation>, i: nat, before: Ledger, middle: Ledger, after: Ledger,
                   unsent: seq<Effect>,
                   log: seq<Effect>, longer: seq<Effect>, policy: HealthPolicy, now: int)
    requires i < |records| && Polling(records, i, before, middle, unsent, log)
    requires OthersKept(middle, after, records[i].operationId) && PollEffects(log, longer, records[i].operationId)
    requires after.Has(records[i].operationId) && middle.Has(records[i].operationId)
    requires VideoSource(records[i].source)
    requires RecordPolled(middle.EntryOf(records[i].operationId), after.EntryOf(records[i].operationId), longer != log,
                          policy, now)
    ensures Polling(records, i + 1, before, after, unsent, longer)
  {
    var op := records[i].operationId;
    StillCurrent(records, i, middle, after);
    CurrentAt(records, i, middle);
    assert middle.EntryOf(op) == before.EntryOf(op);
    assert middle.EntryOf(op).reservation == middle.reservations.at[op]
           && before.EntryOf(op).reservation == before.reservations.at[op];
    SparedStays(before, middle, after, op, longer != log, policy, now);
    VerdictsSent(before, middle, after, op, unsent, log, longer, policy, now);
    hide RecordPolled, SparedKept, SentForVerdicts, IntakeKept, PollEffects;
    forall j | i + 1 <= j < |records|
      ensures after.EntryOf(records[j].operationId) == before.EntryOf(records[j].operationId)
    {
      assert records[j].operationId != op;
    }
  }

  lemma PollPasses(records: seq<Reservation>, i: nat, before: Ledger, now: Ledger, unsent: seq<Effect>,
                   log: seq<Effect>)
    requires i < |records| && Polling(records, i, before, now, unsent, log)
    ensures Polling(records, i + 1, before, now, unsent, log)
  {
    hide SparedKept, SentForVerdicts;
  }

  lemma GivenUpNext(records: seq<Reservation>, i: nat, before: Ledger, middle: Ledger, after: Ledger,
                    unsent: seq<Effect>,
                    log: seq<Effect>, delay: int)
    requires i < |records| && Polling(records, i, before, middle, unsent, log)
    requires OthersKept(middle, after, records[i].operationId)
    ensures after.Has(records[i].operationId)
    ensures GivenUp(records, i + 1, after, delay)
            == GivenUp(records, i, middle, delay)
               + if records[i].state == QbittorrentActive
                    && after.reservations.at[records[i].operationId].state == Invalidated
                 then [Replacement(records[i].source, records[i].mediaId, delay)] else []
  {
    GivenUpKept(records, i, i, middle, after, delay);
    assert middle.Has(records[i].operationId);
    hide SparedKept, SentForVerdicts, Current, IntakeKept;
  }
}
