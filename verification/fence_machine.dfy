/** Fence as a state machine over single durable writes and single effects, with crashes,
    lost replies and a changing world in between, and what holds in every run. */
module FenceMachine {
  import opened Common
  import opened FenceEntry
  import opened FenceLedger
  import opened Headroom
  import opened Qbittorrent

  datatype Source = Source(
    category: string,
    savePath: string,
    downloadClientId: int,
    downloadPool: Option<string>,
    stagingPool: Option<string>,
    canonicalPool: Option<string>,
    publicationManaged: bool,
    musicManaged: bool
  )

  datatype Config = Config(policy: Policy, sources: map<string, Source>, headroom: Option<map<string, Pool>>)

  datatype Effect =
    | TagEffect(op: string)
    | StartEffect(op: string)
    | StopEffect(op: string)
    | BlocklistEffect(op: string, historyId: int)
    | DeleteEffect(op: string, files: bool)

  /** What was last asked of qBittorrent, and what a conclusive answer showed. */
  datatype Sight = Blind | Asked(hash: string) | Seen(hash: string, torrent: Torrent)

  /** `durable` is what the store holds, `working` what the process holds.  `armed` names the
      operation whose tag intent the running call has just written.  `sight` is what was asked or
      seen since the last write or effect.  A crash forgets both. */
  datatype System = System(durable: Ledger, working: Ledger, torrents: Torrents, armed: Option<string>,
                           log: seq<Effect>, sight: Sight)

  /** `applied` tells whether the effect happened; the reply may be lost either way. */
  datatype Label =
    | Environment
    | Commit(action: Action)
    | Install
    | Tag(op: string, applied: bool)
    | Start(op: string, state: Option<string>, free: map<string, Option<int>>)
    | Stop(op: string, state: Option<string>)
    | Blocklist(op: string, historyId: int)
    | Delete(op: string, applied: bool)
    | Ask(hash: string)
    | Look(hash: string)
    | Forget
    | Crash

  // Physical readiness.

  predicate SourceHasPools(s: Source) {
    if s.downloadPool.None? then false
    else if s.publicationManaged then s.stagingPool.Some? && s.canonicalPool.Some?
    else s.musicManaged
  }

  function SourcePools(s: Source): seq<string>
    requires SourceHasPools(s)
  {
    if s.publicationManaged
    then [s.downloadPool.value, s.stagingPool.value, s.canonicalPool.value]
    else [s.downloadPool.value]
  }

  function PoolsBySource(sources: map<string, Source>): map<string, seq<string>> {
    map name | name in sources && SourceHasPools(sources[name]) :: SourcePools(sources[name])
  }

  function RecordsOf(l: Ledger): seq<Reservation>
    requires l.Keyed()
  {
    seq(|l.reservations.keys|, i requires 0 <= i < |l.reservations.keys| => l.reservations.at[l.reservations.keys[i]])
  }

  /** Headroom accepts the ledger for the free bytes one call observed. */
  ghost predicate PhysicalReady(c: Config, l: Ledger, free: map<string, Option<int>>)
    requires l.Keyed()
  {
    c.headroom.Some? ==>
      && (forall name :: name in c.sources ==> SourceHasPools(c.sources[name]))
      && Allowed(RecordsOf(l), PoolsBySource(c.sources), c.headroom.value, free)
  }

  // Steps.

  function Owner(op: string): string {
    "fence:" + op
  }

  function HashOf(l: Ledger, op: string): Option<string> {
    if l.Has(op) then l.reservations.at[op].torrentHash else None
  }

  predicate UntaggedOrAbsent(torrents: Torrents, hash: string) {
    hash in torrents ==> torrents[hash].tags == {}
  }

  // What a transition or an effect must have seen.

  /** The torrent is where this source keeps torrents and carries exactly these tags. */
  predicate SeenIn(source: Source, t: Torrent, tags: set<string>) {
    t.category == source.category && t.savePath == source.savePath && t.tags == tags
  }

  predicate Placed(c: Config, source: string, t: Torrent, tags: set<string>) {
    source in c.sources && SeenIn(c.sources[source], t, tags)
  }

  /** The torrent of this operation was seen in its place under its own tag alone. */
  predicate OwnSight(c: Config, e: Entry, op: string, sight: Sight) {
    && sight.Seen? && e.reservation.torrentHash == Some(sight.hash)
    && Placed(c, e.reservation.source, sight.torrent, {Owner(op)})
  }

  /** A torrent that nobody owns was seen stopped in its place. */
  predicate FreeSight(c: Config, e: Entry, hash: string, sight: Sight) {
    && sight.Seen? && sight.hash == hash
    && Placed(c, e.reservation.source, sight.torrent, {}) && StoppedState(sight.torrent.state)
  }

  /** The sizes to account for a tagged torrent: its own, or the requested ones while it is a magnet
      without metadata. */
  predicate Accounts(t: Torrent, requested: int, bytes: int, remaining: Option<int>) {
    if t.size != 0 then bytes == t.size && remaining == t.amountLeft
    else t.magnet && bytes == requested && remaining == Some(requested)
  }

  predicate Downloaded(t: Torrent) {
    t.complete && t.state in SEEDING_STATES
  }

  predicate SealedSize(e: Entry, t: Torrent) {
    e.historical.Some? && t.size == e.historical.value.expectedBytes
  }

  /** What must have been seen since the last write or effect for a transition to be recorded. */
  predicate Warranted(c: Config, e: Entry, op: string, a: OpAction, sight: Sight) {
    match a
    case BindObservedGrab(_, hash, _) => FreeSight(c, e, hash, sight)
    case MarkTagged(bytes, remaining) =>
      && OwnSight(c, e, op, sight) && StoppedState(sight.torrent.state)
      && Accounts(sight.torrent, e.reservation.requestedBytes, bytes, remaining)
    case RequestHistoricalActivation =>
      e.activation.None? ==>
        && OwnSight(c, e, op, sight) && StoppedState(sight.torrent.state)
        && SealedSize(e, sight.torrent)
    case MarkHistoricalManaged =>
      && OwnSight(c, e, op, sight) && sight.torrent.state in ACTIVE_STATES
      && SealedSize(e, sight.torrent)
    case MarkActive => OwnSight(c, e, op, sight) && sight.torrent.state in ACTIVE_STATES
    case MarkPaused => OwnSight(c, e, op, sight) && StoppedState(sight.torrent.state)
    case MarkFrozen => OwnSight(c, e, op, sight) && StoppedState(sight.torrent.state)
    case Complete => OwnSight(c, e, op, sight) && Downloaded(sight.torrent)
    case _ => true
  }

  /** Headroom accepted this ledger for some free bytes that were observed. */
  ghost predicate HeadroomSeen(c: Config, l: Ledger)
    requires l.Keyed()
  {
    exists free :: PhysicalReady(c, l, free)
  }

  /** A new reservation is written only after headroom accepted the ledger that holds it. */
  ghost predicate RoomSeen(c: Config, l: Ledger, a: Action)
    requires l.Keyed()
  {
    !a.Op? && Apply(l, a).Ok? && Apply(l, a).value.reservations != l.reservations ==>
      Apply(l, a).value.Keyed() && HeadroomSeen(c, Apply(l, a).value)
  }

  predicate LastDeleted(log: seq<Effect>, op: string) {
    log != [] && log[|log| - 1].DeleteEffect? && log[|log| - 1].op == op
  }

  ghost predicate CommitAllowed(c: Config, s: System, a: Action)
    requires s.working.Keyed()
  {
    && s.working == s.durable
    && RoomSeen(c, s.working, a)
    && (a.Op? && s.working.Has(a.op) ==> Warranted(c, s.working.EntryOf(a.op), a.op, a.step, s.sight))
    && (a.Op? && (a.step.MarkTagged? || a.step.Complete?) ==> Tags(s.torrents, HashOf(s.working, a.op), Owner(a.op)))
    && (a.Op? && (a.step.MarkMusicDeleted? || a.step.ReleaseInvalidatedVideo?) ==>
          LastDeleted(s.log, a.op))
    && (a.Op? && a.step.RequestResume? ==> a.op !in s.working.postPnr)
  }

  predicate TagAllowed(c: Config, s: System, op: string) {
    && s.armed == Some(op) && s.working == s.durable
    && s.working.Has(op) && HashOf(s.working, op).Some?
    && UntaggedOrAbsent(s.torrents, HashOf(s.working, op).value)
    && FreeSight(c, s.working.EntryOf(op), HashOf(s.working, op).value, s.sight)
  }

  ghost predicate StartAllowed(c: Config, s: System, op: string, free: map<string, Option<int>>)
    requires s.working.Keyed()
  {
    && s.working == s.durable
    && s.working.Has(op)
    && s.working.reservations.at[op].state in {ResumeIntentRecorded, ActivationIntentRecorded}
    && !s.working.quiescing
    && s.working.WithinCapacity()
    && PhysicalReady(c, s.working, free)
    && Tags(s.torrents, HashOf(s.working, op), Owner(op))
    && StartSeen(c, s.working.EntryOf(op), op, s.sight)
  }

  /** Seen stopped, and a historical adoption in its sealed size. */
  predicate StartSeen(c: Config, e: Entry, op: string, sight: Sight) {
    && OwnSight(c, e, op, sight) && StoppedState(sight.torrent.state)
    && (e.reservation.state == ActivationIntentRecorded ==> SealedSize(e, sight.torrent))
  }

  /** A pause or freeze is intended and the torrent was seen running, or the candidate of a running
      transfer was judged dead. */
  predicate StopDue(c: Config, e: Entry, op: string, sight: Sight) {
    || (&& e.reservation.state in {PauseIntentRecorded, FreezeIntentRecorded}
        && OwnSight(c, e, op, sight) && sight.torrent.state in ACTIVE_STATES)
    || (e.reservation.state == QbittorrentActive && e.VideoJudgedDead())
  }

  predicate StopAllowed(c: Config, s: System, op: string) {
    && s.working == s.durable
    && s.working.Has(op)
    && StopDue(c, s.working.EntryOf(op), op, s.sight)
    && Tags(s.torrents, HashOf(s.working, op), Owner(op))
  }

  /** Arr is told to reject the very grab of a running transfer whose candidate was judged dead. */
  predicate BlocklistAllowed(s: System, op: string, historyId: int) {
    && s.working == s.durable
    && s.working.Has(op) && s.working.EntryOf(op).VideoJudgedDead()
    && s.working.reservations.at[op].state == QbittorrentActive
    && s.working.reservations.at[op].externalHistoryId == Some(historyId)
  }

  /** What was last confirmed is the rejection of the grab of this operation. */
  predicate LastBlocklisted(s: System, op: string)
    requires s.working.Has(op)
  {
    && s.log != [] && s.log[|s.log| - 1].BlocklistEffect? && s.log[|s.log| - 1].op == op
    && s.working.reservations.at[op].externalHistoryId == Some(s.log[|s.log| - 1].historyId)
  }

  predicate DeleteAllowed(c: Config, s: System, op: string) {
    && s.working == s.durable
    && s.working.Has(op)
    && s.working.EntryOf(op).CandidateInvalidated()
    && (s.working.EntryOf(op).VideoJudgedDead() ==> LastBlocklisted(s, op))
    && OwnSight(c, s.working.EntryOf(op), op, s.sight)
    && Tags(s.torrents, HashOf(s.working, op), Owner(op))
  }

  ghost predicate Step(c: Config, s: System, lab: Label, t: System)
    requires s.working.Keyed() && s.durable.Keyed()
  {
    match lab
    case Environment => EnvironmentStep(s.torrents, t.torrents) && t == s.(torrents := t.torrents)
    case Commit(a) =>
      && CommitAllowed(c, s, a) && Apply(s.working, a).Ok?
      && t == s.(durable := Apply(s.working, a).value, sight := Blind,
                 armed := if a.Op? && a.step.RequestTag? then Some(a.op) else None)
    case Install => t == s.(working := s.durable)
    case Tag(op, applied) =>
      && TagAllowed(c, s, op)
      && t == s.(armed := None, log := s.log + [TagEffect(op)], sight := Blind,
                 torrents := if applied then AddTag(s.torrents, HashOf(s.working, op).value, Owner(op)) else s.torrents)
    case Start(op, state, free) =>
      && StartAllowed(c, s, op, free)
      && t == s.(log := s.log + [StartEffect(op)], sight := Blind,
                 torrents := if state.Some? then SetState(s.torrents, HashOf(s.working, op).value, state.value)
                             else s.torrents)
    case Stop(op, state) =>
      && StopAllowed(c, s, op)
      && t == s.(log := s.log + [StopEffect(op)], sight := Blind,
                 torrents := if state.Some? then SetState(s.torrents, HashOf(s.working, op).value, state.value)
                             else s.torrents)
    case Blocklist(op, historyId) =>
      && BlocklistAllowed(s, op, historyId)
      && t == s.(log := s.log + [BlocklistEffect(op, historyId)], sight := Blind)
    case Delete(op, applied) =>
      && DeleteAllowed(c, s, op)
      && t == s.(log := s.log + [DeleteEffect(op, s.working.EntryOf(op).DeletesFiles())], sight := Blind,
                 torrents := if applied then s.torrents - {HashOf(s.working, op).value} else s.torrents)
    case Ask(hash) => t == s.(sight := Asked(hash))
    case Look(hash) => hash in s.torrents && t == s.(sight := Seen(hash, s.torrents[hash]))
    case Forget => t == s.(sight := Blind)
    case Crash => t == s.(working := s.durable, armed := None, sight := Blind)
  }

  ghost predicate Next(c: Config, s: System, t: System) {
    s.working.Keyed() && s.durable.Keyed() && exists lab :: Step(c, s, lab, t)
  }

  ghost predicate Initial(c: Config, s: System) {
    && c.policy.Valid()
    && s.durable == s.working == EmptyLedger(c.policy)
    && (forall h :: h in s.torrents ==> s.torrents[h].tags == {})
    && s.armed == None && s.log == [] && s.sight == Blind
  }

  /** A run: consecutive states, each one step after the one before. */
  ghost predicate Legal(c: Config, trace: seq<System>) {
    && trace != [] && Initial(c, trace[0])
    && forall i :: 0 < i < |trace| ==> Next(c, trace[i - 1], trace[i])
  }

  // The invariant.

  function TagCount(log: seq<Effect>, op: string): nat {
    if log == [] then 0 else TagCount(log[..|log| - 1], op) + (if log[|log| - 1] == TagEffect(op) then 1 else 0)
  }

  predicate BeforeTag(state: ReservationState) {
    state == PreAdmitted || state == GrabBound
  }

  /** The states of a transfer that Fence owns, from the observed tag to the custody receipt. */
  predicate OwnedState(state: ReservationState) {
    !BeforeTag(state) && state != TagIntentRecorded && state != Invalidated && state != Released
  }

  predicate Owned(e: Entry) {
    OwnedState(e.reservation.state) && !e.CandidateInvalidated()
  }

  ghost predicate TagInv(s: System) {
    && (forall op :: TagCount(s.log, op) <= 1)
    && (forall op :: TagCount(s.log, op) == 1 ==> s.durable.Has(op) && !BeforeTag(s.durable.reservations.at[op].state))
    && (s.armed.Some? ==>
          && TagCount(s.log, s.armed.value) == 0
          && s.durable.Has(s.armed.value)
          && s.durable.reservations.at[s.armed.value].state == TagIntentRecorded)
  }

  ghost predicate OwnerInv(s: System) {
    && (forall op :: s.durable.Has(op) && Owned(s.durable.EntryOf(op)) ==>
          Tags(s.torrents, HashOf(s.durable, op), Owner(op)))
    && (forall h :: h in s.torrents ==> s.torrents[h].tags == {} || exists op :: s.torrents[h].tags == {Owner(op)})
  }

  ghost predicate NeverStartedInv(s: System) {
    && (forall op :: op in s.durable.postPnr ==>
          s.durable.Has(op) && op !in s.durable.historical
          && s.durable.reservations.at[op].state in {GrabBound, TagIntentRecorded, QbittorrentStopped})
    && (forall i :: 0 <= i < |s.log| && s.log[i].StartEffect? ==>
          s.durable.Has(s.log[i].op) && s.log[i].op !in s.durable.postPnr)
  }

  ghost predicate MachineInv(s: System) {
    && s.durable.Keyed() && s.working.Keyed()
    && TagInv(s) && OwnerInv(s) && NeverStartedInv(s)
  }

  // Facts about one step of one entry.

  lemma StepNeverReturns(e: Entry, a: OpAction, quiescing: bool)
    requires EntryStep(e, a, quiescing).Ok?
    ensures !BeforeTag(e.reservation.state) ==> !BeforeTag(EntryStep(e, a, quiescing).value.reservation.state)
    ensures a.RequestTag? ==>
      e.reservation.state == GrabBound && EntryStep(e, a, quiescing).value.reservation.state == TagIntentRecorded
  {
    hide LowerHex, Hex, Lower, UuidOfVersion;
  }

  /** Ownership begins only where the world was just seen to carry the tag. */
  lemma StepOwnership(e: Entry, a: OpAction, quiescing: bool)
    requires EntryStep(e, a, quiescing).Ok?
    ensures var next := EntryStep(e, a, quiescing).value;
      Owned(next) ==>
        && next.reservation.torrentHash == e.reservation.torrentHash
        && (Owned(e) || a.MarkTagged? || a.Complete?)
  {
    hide LowerHex, Hex, Lower, UuidOfVersion;
  }

  lemma StepKeepsPostPnr(e: Entry, a: OpAction, quiescing: bool)
    requires EntryStep(e, a, quiescing).Ok?
    ensures var next := EntryStep(e, a, quiescing).value;
      && next.postPnr == e.postPnr && next.historical == e.historical
      && (&& e.historical.None? && e.reservation.state in {GrabBound, TagIntentRecorded, QbittorrentStopped}
          && !a.RequestResume? ==>
            next.reservation.state in {GrabBound, TagIntentRecorded, QbittorrentStopped})
  {
    hide LowerHex, Hex, Lower, UuidOfVersion;
  }

  /** What an admission looks like to the machine. */
  lemma AdmissionUntagged(l: Ledger, a: Action)
    requires l.Keyed() && Admission(l, a).Some?
    ensures var (op, e) := Admission(l, a).value;
      && !l.Has(op) && EntryKeyed(op, e) && BeforeTag(e.reservation.state) && !Owned(e)
      && (e.postPnr.Some? ==> e.historical.None? && e.reservation.state == GrabBound)
  {
    hide LowerHex, UuidOfVersion, SavePathOk, CanonicalDecimal;
  }

  // Preservation, one kind of step at a time.

  lemma OwnerInjective(op: string, other: string)
    requires Owner(op) == Owner(other)
    ensures op == other
  {
    assert Owner(op)[6..] == op && Owner(other)[6..] == other;
  }

  lemma TagCountAppend(log: seq<Effect>, e: Effect, op: string)
    ensures TagCount(log + [e], op) == TagCount(log, op) + (if e == TagEffect(op) then 1 else 0)
  {
    assert (log + [e])[..|log|] == log;
  }

  lemma CommitKeepsTagInv(c: Config, s: System, a: Action, t: System)
    requires MachineInv(s) && Step(c, s, Commit(a), t)
    ensures t.durable.Keyed() && TagInv(t)
  {
    ApplyKeyed(s.working, a);
    forall op | s.durable.Has(op) && !BeforeTag(s.durable.reservations.at[op].state)
      ensures t.durable.Has(op) && !BeforeTag(t.durable.reservations.at[op].state)
    {
      if a.Op? && a.op == op {
        StepNeverReturns(s.working.EntryOf(op), a.step, s.working.quiescing);
        PutEntryReads(s.working, op, EntryStep(s.working.EntryOf(op), a.step, s.working.quiescing).value);
      } else {
        ApplyFrame(s.working, a, op);
        assert t.durable.EntryOf(op).reservation == s.durable.EntryOf(op).reservation;
      }
    }
    if a.Op? && a.step.RequestTag? {
      StepNeverReturns(s.working.EntryOf(a.op), a.step, s.working.quiescing);
      PutEntryReads(s.working, a.op, EntryStep(s.working.EntryOf(a.op), a.step, s.working.quiescing).value);
      assert TagCount(s.log, a.op) == 0;
    }
  }

  lemma CommitKeepsOwnerInv(c: Config, s: System, a: Action, t: System)
    requires MachineInv(s) && Step(c, s, Commit(a), t)
    ensures t.durable.Keyed() && OwnerInv(t)
  {
    ApplyKeyed(s.working, a);
    forall op | t.durable.Has(op) && Owned(t.durable.EntryOf(op))
      ensures Tags(t.torrents, HashOf(t.durable, op), Owner(op))
    {
      if a.Op? && a.op == op {
        var next := EntryStep(s.working.EntryOf(op), a.step, s.working.quiescing).value;
        PutEntryReads(s.working, op, next);
        StepOwnership(s.working.EntryOf(op), a.step, s.working.quiescing);
        assert HashOf(t.durable, op) == next.reservation.torrentHash == HashOf(s.durable, op);
      } else {
        CommitElsewhere(s.working, a, op);
        assert s.durable.Has(op) && t.durable.EntryOf(op) == s.durable.EntryOf(op);
        assert HashOf(t.durable, op) == t.durable.EntryOf(op).reservation.torrentHash == HashOf(s.durable, op);
      }
    }
  }

  lemma OpAddsNothing(l: Ledger, a: Action)
    requires l.Keyed() && Apply(l, a).Ok?
    ensures a.Op? ==> forall op :: Apply(l, a).value.Has(op) ==> l.Has(op)
  {
    if a.Op? {
      PutEntryReads(l, a.op, EntryStep(l.EntryOf(a.op), a.step, l.quiescing).value);
    }
    hide EntryStep, Ledger.Keyed;
  }

  /** An operation other than the one acted on is old and unchanged, or a new admission. */
  lemma CommitElsewhere(l: Ledger, a: Action, op: string)
    requires l.Keyed() && Apply(l, a).Ok? && Apply(l, a).value.Has(op) && !(a.Op? && a.op == op)
    ensures if l.Has(op) then Apply(l, a).value.EntryOf(op) == l.EntryOf(op)
            else Admission(l, a).Some? && Admission(l, a).value == (op, Apply(l, a).value.EntryOf(op))
                 && BeforeTag(Apply(l, a).value.EntryOf(op).reservation.state) && !Owned(Apply(l, a).value.EntryOf(op))
  {
    OpAddsNothing(l, a);
    if l.Has(op) {
      ApplyFrame(l, a, op);
    } else if Admission(l, a).Some? {
      AdmissionUntagged(l, a);
      var (k, e) := Admission(l, a).value;
      PutEntryReads(l, k, e);
    }
  }

  lemma CommitKeepsNeverStarted(c: Config, s: System, a: Action, t: System)
    requires MachineInv(s) && Step(c, s, Commit(a), t)
    ensures NeverStartedInv(t)
  {
    var l, m := s.working, t.durable;
    ApplyKeyed(l, a);
    forall op | m.Has(op)
      ensures op in m.postPnr ==>
        op !in m.historical && m.reservations.at[op].state in {GrabBound, TagIntentRecorded, QbittorrentStopped}
      ensures l.Has(op) ==> (op in m.postPnr <==> op in l.postPnr)
    {
      if a.Op? && a.op == op {
        var next := EntryStep(l.EntryOf(op), a.step, l.quiescing).value;
        PutEntryReads(l, op, next);
        StepKeepsPostPnr(l.EntryOf(op), a.step, l.quiescing);
        EntryTables(m, op);
        EntryTables(l, op);
      } else {
        CommitElsewhere(l, a, op);
        EntryTables(m, op);
        if l.Has(op) { EntryTables(l, op); } else { AdmissionUntagged(l, a); }
      }
    }
    forall op | l.Has(op)
      ensures m.Has(op)
    {
      if a.Op? && a.op == op {
        PutEntryReads(l, op, EntryStep(l.EntryOf(op), a.step, l.quiescing).value);
      } else {
        ApplyFrame(l, a, op);
      }
    }
  }

  lemma EntryTables(l: Ledger, op: string)
    requires l.Has(op)
    ensures op in l.postPnr <==> l.EntryOf(op).postPnr.Some?
    ensures op in l.historical <==> l.EntryOf(op).historical.Some?
    ensures l.EntryOf(op).reservation == l.reservations.at[op]
  {
  }

  lemma CommitKeepsInv(c: Config, s: System, a: Action, t: System)
    requires MachineInv(s) && Step(c, s, Commit(a), t)
    ensures MachineInv(t)
  {
    CommitKeepsTagInv(c, s, a, t);
    CommitKeepsOwnerInv(c, s, a, t);
    CommitKeepsNeverStarted(c, s, a, t);
  }

  lemma TagKeepsInv(c: Config, s: System, op: string, applied: bool, t: System)
    requires MachineInv(s) && Step(c, s, Tag(op, applied), t)
    ensures MachineInv(t)
  {
    hide Apply, Ledger.Keyed, StartAllowed, CommitAllowed;
    forall k
      ensures TagCount(t.log, k) == TagCount(s.log, k) + (if k == op then 1 else 0)
    {
      TagCountAppend(s.log, TagEffect(op), k);
    }
    var hash := HashOf(s.working, op).value;
    forall k | t.durable.Has(k) && Owned(t.durable.EntryOf(k))
      ensures Tags(t.torrents, HashOf(t.durable, k), Owner(k))
    {
      assert Tags(s.torrents, HashOf(s.durable, k), Owner(k));
      assert HashOf(s.durable, k).value != hash;
    }
    if applied && hash in s.torrents {
      assert t.torrents[hash].tags == {Owner(op)};
    }
  }

  lemma DeleteKeepsInv(c: Config, s: System, op: string, applied: bool, t: System)
    requires MachineInv(s) && Step(c, s, Delete(op, applied), t)
    ensures MachineInv(t)
  {
    hide Apply, Ledger.Keyed, StartAllowed, CommitAllowed;
    forall k
      ensures TagCount(t.log, k) == TagCount(s.log, k)
    {
      TagCountAppend(s.log, DeleteEffect(op, s.working.EntryOf(op).DeletesFiles()), k);
    }
    forall k | t.durable.Has(k) && Owned(t.durable.EntryOf(k))
      ensures Tags(t.torrents, HashOf(t.durable, k), Owner(k))
    {
      assert Tags(s.torrents, HashOf(s.durable, k), Owner(k));
      if HashOf(s.durable, k) == HashOf(s.working, op) {
        assert {Owner(k)} == {Owner(op)};
        assert Owner(k) in {Owner(op)};
        OwnerInjective(k, op);
      }
    }
  }

  lemma StartKeepsInv(c: Config, s: System, op: string, state: Option<string>, free: map<string, Option<int>>,
                      t: System)
    requires MachineInv(s) && Step(c, s, Start(op, state, free), t)
    ensures MachineInv(t) && op !in s.durable.postPnr
  {
    hide PhysicalReady, Ledger.WithinCapacity, Apply, Ledger.Keyed, CommitAllowed;
    forall k
      ensures TagCount(t.log, k) == TagCount(s.log, k)
    {
      TagCountAppend(s.log, StartEffect(op), k);
    }
    StateKeepsOwners(s, t);
  }

  lemma StopKeepsInv(c: Config, s: System, op: string, state: Option<string>, t: System)
    requires MachineInv(s) && Step(c, s, Stop(op, state), t)
    ensures MachineInv(t)
  {
    hide Apply, Ledger.Keyed, StartAllowed, CommitAllowed;
    forall k
      ensures TagCount(t.log, k) == TagCount(s.log, k)
    {
      TagCountAppend(s.log, StopEffect(op), k);
    }
    StateKeepsOwners(s, t);
  }

  lemma BlocklistKeepsInv(c: Config, s: System, op: string, historyId: int, t: System)
    requires MachineInv(s) && Step(c, s, Blocklist(op, historyId), t)
    ensures MachineInv(t)
  {
    hide Apply, Ledger.Keyed, StartAllowed, CommitAllowed;
    forall k
      ensures TagCount(t.log, k) == TagCount(s.log, k)
    {
      TagCountAppend(s.log, BlocklistEffect(op, historyId), k);
    }
    StateKeepsOwners(s, t);
  }

  /** Ownership does not depend on whether a torrent runs. */
  lemma StateKeepsOwners(s: System, t: System)
    requires OwnerInv(s) && t.durable == s.durable
    requires t.torrents.Keys == s.torrents.Keys
             && forall h :: h in s.torrents ==> t.torrents[h].tags == s.torrents[h].tags
    ensures OwnerInv(t)
  {
    forall k | t.durable.Has(k) && Owned(t.durable.EntryOf(k))
      ensures Tags(t.torrents, HashOf(t.durable, k), Owner(k))
    {
      assert Tags(s.torrents, HashOf(s.durable, k), Owner(k));
    }
  }

  lemma EnvironmentKeepsInv(c: Config, s: System, t: System)
    requires MachineInv(s) && Step(c, s, Environment, t)
    ensures MachineInv(t)
  {
    forall k | t.durable.Has(k) && Owned(t.durable.EntryOf(k))
      ensures Tags(t.torrents, HashOf(t.durable, k), Owner(k))
    {
      assert Tags(s.torrents, HashOf(s.durable, k), Owner(k));
    }
    forall h | h in t.torrents
      ensures t.torrents[h].tags == {} || exists op :: t.torrents[h].tags == {Owner(op)}
    {
      if h in s.torrents && s.torrents[h].tags != {} {
        assert t.torrents[h].tags == s.torrents[h].tags;
      }
    }
  }

  lemma StepKeepsInv(c: Config, s: System, lab: Label, t: System)
    requires MachineInv(s) && Step(c, s, lab, t)
    ensures MachineInv(t)
  {
    hide MachineInv, Step;
    match lab {
      case Environment => EnvironmentKeepsInv(c, s, t);
      case Commit(a) => CommitKeepsInv(c, s, a, t);
      case Tag(op, applied) => TagKeepsInv(c, s, op, applied, t);
      case Start(op, state, free) => StartKeepsInv(c, s, op, state, free, t);
      case Stop(op, state) => StopKeepsInv(c, s, op, state, t);
      case Blocklist(op, historyId) => BlocklistKeepsInv(c, s, op, historyId, t);
      case Delete(op, applied) => DeleteKeepsInv(c, s, op, applied, t);
      case _ => IdleKeepsInv(c, s, lab, t);
    }
  }

  lemma IdleKeepsInv(c: Config, s: System, lab: Label, t: System)
    requires MachineInv(s) && Step(c, s, lab, t)
             && (lab.Install? || lab.Ask? || lab.Look? || lab.Forget? || lab.Crash?)
    ensures MachineInv(t)
  {
  }

  lemma InitialInv(c: Config, s: System)
    requires Initial(c, s)
    ensures MachineInv(s)
  {
  }

  /** The invariant holds at every point of every run, so at every point of a crash. */
  lemma {:induction false} AlwaysSafe(c: Config, trace: seq<System>, i: nat)
    requires Legal(c, trace) && i < |trace|
    ensures MachineInv(trace[i])
  {
    hide Step, Initial, MachineInv, Ledger.Keyed;
    if i == 0 {
      InitialInv(c, trace[0]);
    } else {
      AlwaysSafe(c, trace, i - 1);
      assert Next(c, trace[i - 1], trace[i]);
      var lab :| Step(c, trace[i - 1], lab, trace[i]);
      StepKeepsInv(c, trace[i - 1], lab, trace[i]);
    }
  }
}
