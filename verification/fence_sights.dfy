/** What the world showed before the ledger said so: every confirmation of a run rests on a torrent
    that was seen in its place, under its own tag and in the state that is confirmed. */
module FenceSights {
  import opened Common
  import opened FenceEntry
  import opened FenceLedger
  import opened Qbittorrent
  import opened FenceMachine
  import opened FenceDriverFacts
  import opened FenceRuns

  /** Points that a transfer reaches only by what qBittorrent showed. */
  datatype Milestone =
    | In(state: ReservationState)
    | Accounted
    | Announced

  predicate Confirming(state: ReservationState) {
    state in {QbittorrentStopped, QbittorrentPaused, QbittorrentFrozen, QbittorrentActive, QbittorrentManaged, Terminal}
  }

  predicate PastTag(state: ReservationState) {
    !BeforeTag(state) && state != TagIntentRecorded
  }

  predicate Reached(m: Milestone, r: Reservation) {
    match m
    case In(state) => r.state == state && Confirming(state)
    case Accounted => PastTag(r.state)
    case Announced =>
      || r.state in {Terminal, FreezeIntentRecorded, QbittorrentFrozen}
      || (r.state == Released && VideoSource(r.source))
  }

  /** The reservation holds at least the size of this torrent, or the requested one while it is a
      magnet without metadata. */
  predicate Holds(r: Reservation, t: Torrent) {
    if t.size != 0 then r.bytesReserved >= t.size else t.magnet && r.bytesReserved >= r.requestedBytes
  }

  /** The bytes still to come are those that the torrent reported, where it reported them. */
  predicate ToCome(r: Reservation, t: Torrent) {
    if t.size == 0 then r.remainingDownloadBytes == Some(r.requestedBytes)
    else t.amountLeft.Some? ==> r.remainingDownloadBytes == t.amountLeft
  }

  /** This torrent is evidence for the milestone. */
  predicate Evidence(c: Config, m: Milestone, r: Reservation, op: string, t: Torrent) {
    && Placed(c, r.source, t, {Owner(op)})
    && match m
       case In(QbittorrentStopped) => StoppedState(t.state) && Holds(r, t) && ToCome(r, t)
       case In(QbittorrentPaused) => StoppedState(t.state)
       case In(QbittorrentFrozen) => StoppedState(t.state)
       case In(QbittorrentActive) => t.state in ACTIVE_STATES
       case In(QbittorrentManaged) => t.state in ACTIVE_STATES
       case In(_) => Downloaded(t)
       case Accounted => StoppedState(t.state) && Holds(r, t)
       case Announced => Downloaded(t)
  }

  // One transition.

  /** A milestone is reached by a transition that rests on its evidence. */
  lemma StepReaches(c: Config, m: Milestone, e: Entry, op: string, a: OpAction, quiescing: bool, sight: Sight)
    requires EntryStep(e, a, quiescing).Ok? && Warranted(c, e, op, a, sight)
    requires !Reached(m, e.reservation) && Reached(m, EntryStep(e, a, quiescing).value.reservation)
    ensures var r := EntryStep(e, a, quiescing).value.reservation;
      sight.Seen? && r.torrentHash == Some(sight.hash) && Evidence(c, m, r, op, sight.torrent)
  {
    hide LowerHex, Hex, Lower, UuidOfVersion, SeenIn, StoppedState;
  }

  /** Once reached, what the evidence speaks of stays as it was. */
  lemma StepStays(c: Config, m: Milestone, e: Entry, op: string, a: OpAction, quiescing: bool, t: Torrent)
    requires EntryStep(e, a, quiescing).Ok?
    requires Reached(m, e.reservation) && Reached(m, EntryStep(e, a, quiescing).value.reservation)
    ensures var r := EntryStep(e, a, quiescing).value.reservation;
      r.torrentHash == e.reservation.torrentHash
      && (Evidence(c, m, r, op, t) <==> Evidence(c, m, e.reservation, op, t))
  {
    hide LowerHex, Hex, Lower, UuidOfVersion, SeenIn, StoppedState;
  }

  // Runs.

  /** The world of this state shows evidence for the milestone. */
  predicate ShownAt(c: Config, m: Milestone, r: Reservation, op: string, s: System) {
    r.torrentHash.Some? && r.torrentHash.value in s.torrents && Evidence(c, m, r, op, s.torrents[r.torrentHash.value])
  }

  /** It did so after `b` and no later than `e`. */
  ghost predicate ShownBetween(c: Config, m: Milestone, r: Reservation, op: string, trace: seq<System>,
                               b: int, e: int)
  {
    exists j :: 0 <= b < j <= e && j < |trace| && ShownAt(c, m, r, op, trace[j])
  }

  /** qBittorrent was asked for this hash at or after this point. */
  ghost predicate AskedSince(trace: seq<System>, since: nat, hash: string) {
    exists j :: since <= j < |trace| && trace[j].sight == Asked(hash)
  }

  lemma AskedLater(before: seq<System>, after: seq<System>, since: nat, hash: string)
    requires before <= after && AskedSince(before, since, hash)
    ensures AskedSince(after, since, hash)
  {
    var j :| since <= j < |before| && before[j].sight == Asked(hash);
    assert after[j] == before[j];
  }

  /** The state showed what the process remembers of it, and nothing was written or sent since. */
  predicate Taken(s: System, now: System) {
    && now.sight.Seen? && now.sight.hash in s.torrents
    && s.torrents[now.sight.hash] == now.sight.torrent
    && s.durable == now.durable && s.log == now.log
  }

  lemma StepSight(c: Config, s: System, lab: Label, t: System)
    requires s.working.Keyed() && s.durable.Keyed() && Step(c, s, lab, t) && t.sight.Seen?
    ensures Taken(t, t) || (t.sight == s.sight && t.durable == s.durable && t.log == s.log)
  {
    hide Ledger.Keyed, CommitAllowed, TagAllowed, StartAllowed, StopAllowed, DeleteAllowed, EnvironmentStep;
  }

  /** What is in sight was taken at one point since nothing was in sight, in an unbroken stretch. */
  lemma {:induction false} SightTaken(c: Config, trace: seq<System>, b: nat, i: nat) returns (j: nat)
    requires Legal(c, trace) && b <= i < |trace| && !trace[b].sight.Seen? && trace[i].sight.Seen?
    ensures b < j <= i && Taken(trace[j], trace[i])
    decreases i
  {
    hide Step, Initial, Ledger.Keyed, Taken;
    assert Next(c, trace[i - 1], trace[i]);
    var lab :| Step(c, trace[i - 1], lab, trace[i]);
    StepSight(c, trace[i - 1], lab, trace[i]);
    if Taken(trace[i], trace[i]) {
      j := i;
    } else {
      j := SightTaken(c, trace, b, i - 1);
      TakenOn(trace[j], trace[i - 1], trace[i]);
    }
  }

  lemma TakenOn(s: System, before: System, after: System)
    requires Taken(s, before)
    requires after.sight == before.sight && after.durable == before.durable && after.log == before.log
    ensures Taken(s, after)
  {
  }

  predicate ReachedIn(m: Milestone, l: Ledger, op: string) {
    l.Has(op) && Reached(m, l.reservations.at[op])
  }

  lemma NewReachesNothing(m: Milestone, r: Reservation)
    requires BeforeTag(r.state)
    ensures !Reached(m, r)
  {
  }

  /** One step of a run: a milestone newly reached has its evidence in sight, and one that stays
      keeps what evidence it has. */
  lemma StepShows(c: Config, m: Milestone, s: System, lab: Label, t: System, op: string)
    requires s.working.Keyed() && s.durable.Keyed() && Step(c, s, lab, t) && ReachedIn(m, t.durable, op)
    ensures var r := t.durable.reservations.at[op];
      if ReachedIn(m, s.durable, op)
      then s.durable.reservations.at[op].torrentHash == r.torrentHash
           && forall w :: Evidence(c, m, r, op, w) <==> Evidence(c, m, s.durable.reservations.at[op], op, w)
      else s.sight.Seen? && r.torrentHash == Some(s.sight.hash) && Evidence(c, m, r, op, s.sight.torrent)
  {
    hide Reached, Evidence, Warranted, EntryStep, PhysicalReady, Ledger.WithinCapacity, Ledger.Keyed, BeforeTag;
    if lab.Commit? {
      CommitShows(c, m, s, lab.action, t, op);
    } else {
      assert t.durable == s.durable;
    }
  }

  lemma CommitShows(c: Config, m: Milestone, s: System, a: Action, t: System, op: string)
    requires s.working.Keyed() && s.durable.Keyed() && Step(c, s, Commit(a), t) && ReachedIn(m, t.durable, op)
    ensures var r := t.durable.reservations.at[op];
      if ReachedIn(m, s.durable, op)
      then s.durable.reservations.at[op].torrentHash == r.torrentHash
           && forall w :: Evidence(c, m, r, op, w) <==> Evidence(c, m, s.durable.reservations.at[op], op, w)
      else s.sight.Seen? && r.torrentHash == Some(s.sight.hash) && Evidence(c, m, r, op, s.sight.torrent)
  {
    hide Reached, Evidence, Warranted, EntryStep, BeforeTag;
    if a.Op? && a.op == op {
      var e := s.working.EntryOf(op);
      var next := EntryStep(e, a.step, s.working.quiescing).value;
      PutEntryReads(s.working, op, next);
      assert t.durable.EntryOf(op) == next && next.reservation == t.durable.reservations.at[op];
      hide Ledger.Keyed, Apply;
      if Reached(m, e.reservation) {
        forall w
          ensures Evidence(c, m, next.reservation, op, w) <==> Evidence(c, m, e.reservation, op, w)
          ensures next.reservation.torrentHash == e.reservation.torrentHash
        {
          StepStays(c, m, e, op, a.step, s.working.quiescing, w);
        }
        StepStays(c, m, e, op, a.step, s.working.quiescing, Nothing());
      } else {
        StepReaches(c, m, e, op, a.step, s.working.quiescing, s.sight);
      }
    } else {
      CommitElsewhere(s.working, a, op);
      assert t.durable.EntryOf(op).reservation == t.durable.reservations.at[op];
      hide Ledger.Keyed, Apply;
      if s.durable.Has(op) {
        assert s.durable.EntryOf(op).reservation == s.durable.reservations.at[op];
      } else {
        NewReachesNothing(m, t.durable.reservations.at[op]);
      }
    }
  }

  /** A torrent that is evidence for nothing. */
  function Nothing(): Torrent {
    Torrent("", "", {}, "", 0, false, None, false, 0, 0, 0.0, 0)
  }

  /** A milestone that a stretch of a run reached was shown by the world within that stretch, if
      nothing was in sight when the stretch began. */
  lemma {:induction false} ReachedOnSight(c: Config, m: Milestone, trace: seq<System>, b: nat, e: nat, op: string)
    requires Legal(c, trace) && b <= e < |trace| && !trace[b].sight.Seen?
    requires !ReachedIn(m, trace[b].durable, op) && ReachedIn(m, trace[e].durable, op)
    ensures ShownBetween(c, m, trace[e].durable.reservations.at[op], op, trace, b, e)
    decreases e
  {
    hide Step, Initial, Ledger.Keyed, Reached, Evidence, MachineInv;
    AlwaysKeyed(c, trace, e - 1);
    assert Next(c, trace[e - 1], trace[e]);
    var lab :| Step(c, trace[e - 1], lab, trace[e]);
    StepShows(c, m, trace[e - 1], lab, trace[e], op);
    hide Legal;
    var r := trace[e].durable.reservations.at[op];
    if ReachedIn(m, trace[e - 1].durable, op) {
      ReachedOnSight(c, m, trace, b, e - 1, op);
      var before := trace[e - 1].durable.reservations.at[op];
      var j :| 0 <= b < j <= e - 1 && j < |trace| && ShownAt(c, m, before, op, trace[j]);
      assert ShownAt(c, m, r, op, trace[j]);
    } else {
      var j := SightTaken(c, trace, b, e - 1);
      assert ShownAt(c, m, r, op, trace[j]);
    }
  }

  lemma AlwaysKeyed(c: Config, trace: seq<System>, i: nat)
    requires Legal(c, trace) && i < |trace|
    ensures trace[i].working.Keyed() && trace[i].durable.Keyed()
  {
    AlwaysSafe(c, trace, i);
    hide Legal, TagInv, OwnerInv, NeverStartedInv;
  }

  // What every run guarantees.

  /** No transfer is past its tag intent whose torrent was not seen stopped under its own tag alone,
      with a reservation of at least its size. */
  lemma AlwaysAccounted(c: Config, trace: seq<System>, i: nat, op: string)
    requires Legal(c, trace) && i < |trace| && trace[i].durable.Has(op)
    requires PastTag(trace[i].durable.reservations.at[op].state)
    ensures ShownBetween(c, Accounted, trace[i].durable.reservations.at[op], op, trace, 0, i)
  {
    assert Initial(c, trace[0]);
    hide Legal;
    ReachedOnSight(c, Accounted, trace, 0, i, op);
  }

  lemma StartIntended(c: Config, s: System, op: string, free: map<string, Option<int>>)
    requires s.working.Keyed() && StartAllowed(c, s, op, free)
    ensures s.durable.Has(op) && PastTag(s.durable.reservations.at[op].state)
  {
    hide PhysicalReady, Ledger.WithinCapacity, StartSeen, Ledger.Keyed;
  }

  /** Every start follows such a sight, and finds a reservation of at least the size seen. */
  lemma StartAccounted(c: Config, trace: seq<System>, i: nat, op: string)
    requires Legal(c, trace) && i + 1 < |trace| && trace[i + 1].log == trace[i].log + [StartEffect(op)]
    ensures trace[i].durable.Has(op)
    ensures ShownBetween(c, Accounted, trace[i].durable.reservations.at[op], op, trace, 0, i)
  {
    hide StartAllowed, Legal;
    StartSafety(c, trace, i, op);
    var free :| StartAllowed(c, trace[i], op, free);
    StartIntended(c, trace[i], op, free);
    hide PastTag, ShownBetween;
    AlwaysAccounted(c, trace, i, op);
  }

  /** A video acquisition is announced, frozen or released only after its torrent was seen fully
      downloaded and seeding in its place under its own tag alone. */
  lemma AnnouncedDownloaded(c: Config, trace: seq<System>, i: nat, op: string)
    requires Legal(c, trace) && i < |trace| && trace[i].durable.Has(op)
    requires Reached(Announced, trace[i].durable.reservations.at[op])
    ensures ShownBetween(c, Announced, trace[i].durable.reservations.at[op], op, trace, 0, i)
  {
    assert Initial(c, trace[0]);
    hide Legal;
    ReachedOnSight(c, Announced, trace, 0, i, op);
  }

  /** The step that accounts a tag rests on a sight taken since the last write or effect: it reserves
      exactly the larger of what was reserved and what was seen, and keeps what is still to come. */
  lemma AccountedExactly(c: Config, trace: seq<System>, i: nat, op: string) returns (j: nat)
    requires Legal(c, trace) && i + 1 < |trace| && trace[i].durable.Has(op) && trace[i + 1].durable.Has(op)
    requires trace[i].durable.reservations.at[op].state == TagIntentRecorded
             && trace[i + 1].durable.reservations.at[op].state == QbittorrentStopped
    ensures j <= i && trace[j].durable == trace[i].durable && trace[j].log == trace[i].log
    ensures var before, after := trace[i].durable.reservations.at[op], trace[i + 1].durable.reservations.at[op];
      before.torrentHash.Some? && before.torrentHash.value in trace[j].torrents
      && var t := trace[j].torrents[before.torrentHash.value];
         && Placed(c, before.source, t, {Owner(op)}) && StoppedState(t.state)
         && after.bytesReserved == Larger(before.bytesReserved, if t.size != 0 then t.size else before.requestedBytes)
         && after.remainingDownloadBytes == (if t.size == 0 then Some(before.requestedBytes)
                                             else if t.amountLeft.Some? then t.amountLeft
                                             else before.remainingDownloadBytes)
         && (t.size == 0 ==> t.magnet)
  {
    AlwaysKeyed(c, trace, i);
    assert Next(c, trace[i], trace[i + 1]) && Initial(c, trace[0]);
    var lab :| Step(c, trace[i], lab, trace[i + 1]);
    hide Legal;
    TaggingStep(c, trace[i], lab, trace[i + 1], op);
    j := SightTaken(c, trace, 0, i);
  }

  function Larger(a: int, b: int): int {
    if a < b then b else a
  }

  lemma TaggingStep(c: Config, s: System, lab: Label, t: System, op: string)
    requires s.working.Keyed() && s.durable.Keyed() && Step(c, s, lab, t) && s.durable.Has(op) && t.durable.Has(op)
    requires s.durable.reservations.at[op].state == TagIntentRecorded
             && t.durable.reservations.at[op].state == QbittorrentStopped
    ensures var before, after := s.durable.reservations.at[op], t.durable.reservations.at[op];
      s.sight.Seen? && before.torrentHash == Some(s.sight.hash)
      && var w := s.sight.torrent;
         && Placed(c, before.source, w, {Owner(op)}) && StoppedState(w.state)
         && after.bytesReserved == Larger(before.bytesReserved, if w.size != 0 then w.size else before.requestedBytes)
         && after.remainingDownloadBytes == (if w.size == 0 then Some(before.requestedBytes)
                                             else if w.amountLeft.Some? then w.amountLeft
                                             else before.remainingDownloadBytes)
         && (w.size == 0 ==> w.magnet)
  {
    hide PhysicalReady, Ledger.WithinCapacity, Ledger.Keyed, SeenIn, StoppedState;
    if lab.Commit? && lab.action.Op? && lab.action.op == op {
      var e := s.working.EntryOf(op);
      var next := EntryStep(e, lab.action.step, s.working.quiescing).value;
      PutEntryReads(s.working, op, next);
      assert t.durable.EntryOf(op) == next && next.reservation == t.durable.reservations.at[op];
      hide Apply;
      TaggedExactly(e, lab.action.step, s.working.quiescing);
      hide EntryStep;
    } else if lab.Commit? {
      ElsewhereReserved(s.working, lab.action, op);
    }
  }

  lemma ElsewhereReserved(l: Ledger, a: Action, op: string)
    requires l.Keyed() && Apply(l, a).Ok? && l.Has(op) && Apply(l, a).value.Has(op) && !(a.Op? && a.op == op)
    ensures Apply(l, a).value.reservations.at[op] == l.reservations.at[op]
  {
    CommitElsewhere(l, a, op);
    hide Ledger.Keyed, Apply;
    assert Apply(l, a).value.EntryOf(op).reservation == Apply(l, a).value.reservations.at[op];
    assert l.EntryOf(op).reservation == l.reservations.at[op];
  }

  lemma TaggedExactly(e: Entry, a: OpAction, quiescing: bool)
    requires e.reservation.state == TagIntentRecorded && EntryStep(e, a, quiescing).Ok?
    requires EntryStep(e, a, quiescing).value.reservation.state == QbittorrentStopped
    ensures a.MarkTagged?
    ensures var r := EntryStep(e, a, quiescing).value.reservation;
      && r.bytesReserved == Larger(e.reservation.bytesReserved, a.observedBytes)
      && r.remainingDownloadBytes == if a.remaining.Some? then a.remaining else e.reservation.remainingDownloadBytes
  {
    hide LowerHex, Hex, Lower, UuidOfVersion;
  }

  /** A binding is never changed along a run. */
  lemma {:induction false} BindingStays(c: Config, trace: seq<System>, b: nat, e: nat, op: string, downloadId: string,
                                        torrentHash: string)
    requires Legal(c, trace) && b <= e < |trace| && BoundTo(trace[b].durable, op, downloadId, torrentHash)
    ensures BoundTo(trace[e].durable, op, downloadId, torrentHash)
    decreases e
  {
    hide Step, Initial, Ledger.Keyed, MachineInv, BoundTo;
    if b < e {
      BindingStays(c, trace, b, e - 1, op, downloadId, torrentHash);
      AlwaysKeyed(c, trace, e - 1);
      assert Next(c, trace[e - 1], trace[e]);
      var lab :| Step(c, trace[e - 1], lab, trace[e]);
      StepBinding(c, trace[e - 1], lab, trace[e], op, downloadId, torrentHash);
    }
  }

  lemma StepBinding(c: Config, s: System, lab: Label, t: System, op: string, downloadId: string, torrentHash: string)
    requires s.working.Keyed() && s.durable.Keyed() && Step(c, s, lab, t)
             && BoundTo(s.durable, op, downloadId, torrentHash)
    ensures BoundTo(t.durable, op, downloadId, torrentHash)
  {
    DurableAfter(c, s, lab, t);
    hide Step, Ledger.Keyed, Apply;
    if lab.Commit? {
      ApplyKeepsBinding(s.working, lab.action, op);
    }
  }

  // Calls.

  /** Whatever milestone the call made an operation reach, the world showed it during the call. */
  ghost predicate CallShown(c: Config, trace: seq<System>, since: nat, before: Ledger, after: Ledger) {
    forall m, op :: before.Has(op) && !ReachedIn(m, before, op) && ReachedIn(m, after, op) ==>
      ShownBetween(c, m, after.reservations.at[op], op, trace, since, |trace| - 1)
  }

  lemma CallShows(c: Config, trace: seq<System>, since: nat, before: Ledger, after: Ledger)
    requires Legal(c, trace) && since < |trace| && !trace[since].sight.Seen?
    requires trace[since].durable == before && trace[|trace| - 1].durable == after
    ensures CallShown(c, trace, since, before, after)
  {
    hide Legal, ShownBetween, ReachedIn;
    forall m, op | before.Has(op) && !ReachedIn(m, before, op) && ReachedIn(m, after, op)
      ensures after.Has(op) && ShownBetween(c, m, after.reservations.at[op], op, trace, since, |trace| - 1)
    {
      ReachedHas(m, after, op);
      ReachedOnSight(c, m, trace, since, |trace| - 1, op);
    }
  }

  lemma ReachedHas(m: Milestone, l: Ledger, op: string)
    requires ReachedIn(m, l, op)
    ensures l.Has(op)
  {
  }

  // Recovery.

  /** Only an answer of qBittorrent can tell how this record goes on. */
  predicate Awaited(c: Config, r: Reservation) {
    && r.state in {TagIntentRecorded, PauseIntentRecorded, FreezeIntentRecorded}
    && r.torrentHash.Some? && r.source in c.sources
  }

  /** A record whose outcome is open was asked for, and nothing runs on in a closing ledger. */
  ghost predicate Attended(c: Config, r: Reservation, after: Ledger, trace: seq<System>, since: nat) {
    && after.Has(r.operationId)
    && (Awaited(c, r) ==> AskedSince(trace, since, r.torrentHash.value))
    && (after.quiescing && Running(r.state) && Truthy(r.torrentHash) ==>
          !Running(after.reservations.at[r.operationId].state))
  }

  /** So it is for the first records of a snapshot. */
  ghost predicate AttendedUpTo(c: Config, records: seq<Reservation>, upto: nat, after: Ledger, trace: seq<System>,
                               since: nat)
    requires upto <= |records|
  {
    forall j :: 0 <= j < upto ==> Attended(c, records[j], after, trace, since)
  }

  ghost predicate AllAttended(c: Config, before: Ledger, after: Ledger, trace: seq<System>, since: nat) {
    forall op :: before.Has(op) ==> Attended(c, before.reservations.at[op], after, trace, since)
  }

  lemma AttendedEarlier(c: Config, r: Reservation, after: Ledger, trace: seq<System>, since: nat, later: nat)
    requires since <= later && Attended(c, r, after, trace, later)
    ensures Attended(c, r, after, trace, since)
  {
  }

  lemma AllAttendedEarlier(c: Config, before: Ledger, after: Ledger, trace: seq<System>, since: nat, later: nat)
    requires since <= later && AllAttended(c, before, after, trace, later)
    ensures AllAttended(c, before, after, trace, since)
  {
    hide Attended;
    forall op | before.Has(op)
      ensures Attended(c, before.reservations.at[op], after, trace, since)
    {
      AttendedEarlier(c, before.reservations.at[op], after, trace, since, later);
    }
  }

  lemma AttendedNext(c: Config, records: seq<Reservation>, i: nat, middle: Ledger, after: Ledger, trace: seq<System>,
                     longer: seq<System>, since: nat)
    requires i < |records| && Current(records, i, middle) && OthersKept(middle, after, records[i].operationId)
    requires AttendedUpTo(c, records, i, middle, trace, since) && trace <= longer
    requires Attended(c, records[i], after, longer, since)
    ensures AttendedUpTo(c, records, i + 1, after, longer, since)
  {
    KeptElsewhere(records, i, middle, after);
    QuiescingKept(middle, after, records[i].operationId);
    hide OthersKept, Current, AskedSince;
    forall j | 0 <= j < i
      ensures Attended(c, records[j], after, longer, since)
    {
      assert Attended(c, records[j], middle, trace, since);
      if AskedHash(records[j], trace, since) {
        AskedLater(trace, longer, since, records[j].torrentHash.value);
      }
    }
  }

  ghost predicate AskedHash(r: Reservation, trace: seq<System>, since: nat) {
    r.torrentHash.Some? && AskedSince(trace, since, r.torrentHash.value)
  }

  lemma QuiescingKept(before: Ledger, after: Ledger, op: string)
    requires OthersKept(before, after, op)
    ensures after.quiescing == before.quiescing
  {
  }

  lemma AttendedAll(c: Config, before: Ledger, after: Ledger, trace: seq<System>, since: nat)
    requires before.Keyed() && AttendedUpTo(c, RecordsOf(before), |RecordsOf(before)|, after, trace, since)
    ensures AllAttended(c, before, after, trace, since)
  {
    hide Attended;
    forall op | before.Has(op)
      ensures Attended(c, before.reservations.at[op], after, trace, since)
    {
      var j := RecordOfOperation(before, op);
    }
  }

  /** While closing, a pause of a running transfer is refused only without a torrent. */
  lemma PauseRefused(l: Ledger, op: string)
    requires l.Keyed() && l.Has(op) && l.quiescing && Running(l.reservations.at[op].state)
    ensures Apply(l, Op(op, RequestPause)).Raised? <==> !Truthy(l.reservations.at[op].torrentHash)
  {
    hide Ledger.Keyed;
  }

  lemma PauseRecorded(l: Ledger, op: string, next: Ledger)
    requires l.Keyed() && Apply(l, Op(op, RequestPause)) == Ok(next)
    ensures next.Has(op) && next.reservations.at[op].state == PauseIntentRecorded
  {
    AppliedState(l, op, RequestPause, next);
    hide Ledger.Keyed, Apply;
    assert next.EntryOf(op).reservation == next.reservations.at[op];
  }
}
