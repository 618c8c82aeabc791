/** The durable snapshot of the ledger, what a reload accepts, and exactly which
    transitions keep a saved ledger reloadable. */
module FenceReload {
  import opened Common
  import opened FenceEntry
  import opened FenceLedger

  /** What the store writes: reservations in order, every other table by operation id. */
  datatype Snapshot = Snapshot(
    reservations: seq<Reservation>,
    watermarks: map<string, int>,
    quiescing: bool,
    postPnr: map<string, PostPnrIntent>,
    historical: map<string, HistoricalIntent>,
    activations: map<string, Activation>,
    video: map<string, VideoCandidate>,
    music: map<string, MusicCandidate>
  )

  function Records(d: Dict<Reservation>): seq<Reservation>
    requires d.Valid()
  {
    seq(|d.keys|, i requires 0 <= i < |d.keys| => d.at[d.keys[i]])
  }

  function SnapshotOf(l: Ledger): Snapshot
    requires l.Keyed()
  {
    Snapshot(Records(l.reservations), l.watermarks, l.quiescing, l.postPnr, l.historical, l.activations, l.video,
             l.music)
  }

  // What a reload checks.

  predicate RecordOk(r: Reservation) {
    var external := r.observationFingerprint.Some?;
    && r.operationId != "" && r.reservationId != "" && r.source != "" && r.upstreamId != "" && r.mediaId != ""
    && r.bytesReserved > 0 && r.requestedBytes > 0 && r.bytesReserved >= r.requestedBytes
    && (r.remainingDownloadBytes.Some? ==> 0 <= r.remainingDownloadBytes.value <= r.bytesReserved)
    && (r.torrentHash.Some? ==> TorrentHash(r.torrentHash.value))
    && (r.selectorFingerprint.Some? ==> LowerHex(r.selectorFingerprint.value, 64))
    && (r.observationFingerprint.Some? ==> LowerHex(r.observationFingerprint.value, 64))
    && (r.externalHistoryId.Some? ==> r.externalHistoryId.value > 0)
    && (r.watermark.Some? ==> r.watermark.value != "")
    && (r.downloadId.Some? ==> Hex(r.downloadId.value, 40))
    && (r.downloadId.Some? && r.torrentHash.Some? ==> Lower(r.downloadId.value) == r.torrentHash.value)
    && (external ==> r.selectorFingerprint.None? && r.watermark.None? && r.externalHistoryId.Some?)
    && (external ==> Truthy(r.torrentHash) && Truthy(r.downloadId))
    && (!external ==> Truthy(r.selectorFingerprint) && Truthy(r.watermark))
    && (r.state == PreAdmitted && !external ==> r.torrentHash.None? && r.downloadId.None?)
    && (r.state != PreAdmitted ==> Truthy(r.torrentHash) && Truthy(r.downloadId))
    && (r.state == Released && r.source != LIDARR ==> Truthy(r.publisherReservationId))
    && (r.state == Invalidated ==> r.externalHistoryId.Some?)
  }

  /** The adoption is acceptable by itself and names the reservation it is kept beside. */
  predicate PostPnrSealed(policy: Policy, source: string, mediaId: string, hash: Option<string>, requested: int,
                          intent: PostPnrIntent) {
    EmptyLedgerKeyed(policy);
    && PostPnrDecision(EmptyLedger(policy), intent, true).admitted
    && source == intent.source && mediaId == intent.entityId
    && hash == Some(intent.torrentHash) && requested == intent.expectedBytes
  }

  predicate PostPnrOk(policy: Policy, r: Reservation, intent: PostPnrIntent) {
    && PostPnrSealed(policy, r.source, r.mediaId, r.torrentHash, r.requestedBytes, intent)
    && r.state in {GrabBound, TagIntentRecorded, QbittorrentStopped}
  }

  predicate HistoricalSealed(policy: Policy, source: string, mediaId: string, hash: Option<string>, requested: int,
                             intent: HistoricalIntent) {
    EmptyLedgerKeyed(policy);
    && HistoricalDecision(EmptyLedger(policy), intent, true).admitted
    && source == intent.source && |intent.entityIds| > 0 && mediaId == intent.entityIds[0]
    && hash == Some(intent.torrentHash) && requested == intent.expectedBytes
  }

  predicate HistoricalOk(policy: Policy, r: Reservation, intent: HistoricalIntent) {
    && HistoricalSealed(policy, r.source, r.mediaId, r.torrentHash, r.requestedBytes, intent)
    && r.state in {GrabBound, TagIntentRecorded, QbittorrentStopped, ActivationIntentRecorded, QbittorrentManaged,
                   PauseIntentRecorded, QbittorrentPaused, ResumeIntentRecorded}
  }

  predicate ActivationOk(r: Reservation, activation: Activation) {
    match activation
    case Intent => r.state == ActivationIntentRecorded
    case Managed => r.state in {QbittorrentManaged, PauseIntentRecorded, QbittorrentPaused, ResumeIntentRecorded}
  }

  datatype Verdict = Keep | Drop | Reject

  predicate VideoFieldsOk(r: Reservation, c: VideoCandidate) {
    && VideoSource(r.source)
    && 0 <= c.probeStartedAt <= c.lastProgressAt
    && (c.metadataObservedAt.Some? ==> c.probeStartedAt <= c.metadataObservedAt.value <= c.lastProgressAt)
    && c.lastDownloadedBytes >= 0 && c.failureObservations >= 0
    && (c.status == VideoProbing <==> c.invalidatedAt.None? && c.reason.None?)
    && (c.status == VideoInvalidated ==>
          c.reason.Some? && c.invalidatedAt.Some? && c.invalidatedAt.value >= c.probeStartedAt)
  }

  /** A candidate of a finished transfer is dropped; one in any other wrong state is fatal. */
  function VideoVerdict(r: Reservation, c: VideoCandidate): Verdict {
    if !VideoFieldsOk(r, c) then Reject
    else if r.state in {Terminal, QbittorrentFrozen, Released} then Drop
    else if r.state != QbittorrentActive && r.state != Invalidated then Reject
    else Keep
  }

  predicate MusicOk(r: Reservation, c: MusicCandidate) {
    && r.source == LIDARR && r.mediaId == c.albumId
    && r.torrentHash == Some(c.torrentHash) && r.selectorFingerprint == Some(c.selectorFingerprint)
    && PositiveDecimal(c.albumId)
    && LowerHex(c.selectorFingerprint, 64) && TorrentHash(c.torrentHash)
    && 0 <= c.probeStartedAt <= c.lastProgressAt && 0 <= c.lastDownloadedBytes
    && (c.status == MusicProbing || c.status == MusicSucceeded ==>
          c.invalidationId.None? && c.invalidatedAt.None? && c.reason.None?)
    && (c.status == MusicInvalidated || c.status == MusicReleased ==>
          c.invalidationId.Some? && CanonicalUuid(c.invalidationId.value) && c.reason.Some?)
    && r.state == (if c.status == MusicReleased || c.status == MusicSucceeded then Released else QbittorrentActive)
  }

  /** Reservations inserted one by one, in order. */
  function Load(records: seq<Reservation>): Dict<Reservation> {
    if records == [] then EmptyDict()
    else Load(records[..|records| - 1]).Put(records[|records| - 1].operationId, records[|records| - 1])
  }

  predicate RecordsOk(records: seq<Reservation>) {
    && (forall i :: 0 <= i < |records| ==> RecordOk(records[i]))
    && (forall i, j :: 0 <= i < j < |records| ==> records[i].operationId != records[j].operationId)
  }

  predicate WatermarksOk(watermarks: map<string, int>) {
    forall source :: source in watermarks ==> source != "" && watermarks[source] >= 0
  }

  predicate PostPnrTableOk(policy: Policy, at: map<string, Reservation>, table: map<string, PostPnrIntent>) {
    forall op :: op in table ==> op in at && PostPnrOk(policy, at[op], table[op])
  }

  predicate HashElsewhere(at: map<string, Reservation>, op: string, hash: string) {
    exists k :: k in at && k != op && at[k].torrentHash == Some(hash)
  }

  predicate HistoricalTableOk(policy: Policy, at: map<string, Reservation>, table: map<string, HistoricalIntent>) {
    forall op :: op in table ==>
      op in at && HistoricalOk(policy, at[op], table[op]) && !HashElsewhere(at, op, table[op].torrentHash)
  }

  predicate ActivationTableOk(at: map<string, Reservation>, historical: map<string, HistoricalIntent>,
                              table: map<string, Activation>) {
    forall op :: op in table ==> op in at && op in historical && ActivationOk(at[op], table[op])
  }

  predicate VideoTableOk(at: map<string, Reservation>, table: map<string, VideoCandidate>) {
    forall op :: op in table ==> op in at && VideoVerdict(at[op], table[op]) != Reject
  }

  function KeptVideo(at: map<string, Reservation>, table: map<string, VideoCandidate>): map<string, VideoCandidate> {
    map op | op in table && op in at && VideoVerdict(at[op], table[op]) == Keep :: table[op]
  }

  predicate MusicTableOk(at: map<string, Reservation>, table: map<string, MusicCandidate>) {
    forall op :: op in table ==> op in at && MusicOk(at[op], table[op])
  }

  /** Rebuilds a ledger from a snapshot, or raises. */
  function Reload(policy: Policy, s: Snapshot): Result<Ledger> {
    var reservations := Load(s.reservations);
    var at := reservations.at;
    if !RecordsOk(s.reservations) || !WatermarksOk(s.watermarks) then Raised
    else if !PostPnrTableOk(policy, at, s.postPnr) || !HistoricalTableOk(policy, at, s.historical) then Raised
    else if !ActivationTableOk(at, s.historical, s.activations) then Raised
    else if !VideoTableOk(at, s.video) || !MusicTableOk(at, s.music) then Raised
    else Ok(Ledger(policy, reservations, s.watermarks, s.quiescing, s.postPnr, s.historical, s.activations,
                   KeptVideo(at, s.video), s.music))
  }

  /** A working copy: only reservations and candidates are checked again. */
  function CloneOf(l: Ledger): Result<Ledger>
    requires l.Keyed()
  {
    var copy :- Reload(l.policy,
                       Snapshot(Records(l.reservations), map[], false, map[], map[], map[], l.video, l.music));
    Ok(copy.(watermarks := l.watermarks, quiescing := l.quiescing, postPnr := l.postPnr,
             historical := l.historical, activations := l.activations))
  }

  // The same conditions, entry by entry.

  predicate CloneEntryOk(e: Entry) {
    && RecordOk(e.reservation)
    && (e.video.Some? ==> VideoVerdict(e.reservation, e.video.value) == Keep)
    && (e.music.Some? ==> MusicOk(e.reservation, e.music.value))
  }

  predicate AdoptionEntryOk(policy: Policy, e: Entry) {
    && (e.postPnr.Some? ==> PostPnrOk(policy, e.reservation, e.postPnr.value))
    && (e.historical.Some? ==> HistoricalOk(policy, e.reservation, e.historical.value))
    && (e.activation.Some? ==> e.historical.Some? && ActivationOk(e.reservation, e.activation.value))
  }

  predicate ReloadEntryOk(policy: Policy, e: Entry) {
    CloneEntryOk(e) && AdoptionEntryOk(policy, e)
  }

  ghost predicate CloneInv(l: Ledger) {
    forall op :: l.Has(op) ==> CloneEntryOk(l.EntryOf(op))
  }

  ghost predicate HistoricalHashesUnique(l: Ledger) {
    forall op :: op in l.historical ==> !HashElsewhere(l.reservations.at, op, l.historical[op].torrentHash)
  }

  ghost predicate ReloadInv(l: Ledger) {
    && (forall op :: l.Has(op) ==> ReloadEntryOk(l.policy, l.EntryOf(op)))
    && HistoricalHashesUnique(l)
    && WatermarksOk(l.watermarks)
  }

  lemma EmptyLedgerKeyed(policy: Policy)
    ensures EmptyLedger(policy).Keyed() && EmptyLedger(policy).Entries() == []
  {
  }

  /** Inserting a dictionary's records in order rebuilds that dictionary. */
  lemma {:induction false} LoadPrefix(d: Dict<Reservation>, n: nat)
    requires d.Valid() && n <= |d.keys|
    requires forall k :: k in d.at ==> d.at[k].operationId == k
    ensures Load(Records(d)[..n]).keys == d.keys[..n]
    ensures forall k :: k in Load(Records(d)[..n]).at <==> k in d.keys[..n]
    ensures forall k :: k in d.keys[..n] ==> Load(Records(d)[..n]).at[k] == d.at[k]
  {
    if n > 0 {
      LoadPrefix(d, n - 1);
      var prefix := Records(d)[..n];
      assert prefix[..n - 1] == Records(d)[..n - 1];
      var last := prefix[n - 1];
      assert last.operationId == d.keys[n - 1];
      assert last.operationId !in d.keys[..n - 1];
      assert d.keys[..n] == d.keys[..n - 1] + [d.keys[n - 1]];
      assert forall k :: k in d.keys[..n] <==> k in d.keys[..n - 1] || k == d.keys[n - 1];
      var before := Load(prefix[..n - 1]);
      assert Load(prefix) == before.Put(last.operationId, last);
      hide Load, Records;
      assert last.operationId !in before.at;
    }
  }

  lemma LoadExact(d: Dict<Reservation>)
    requires d.Valid()
    requires forall k :: k in d.at ==> d.at[k].operationId == k
    ensures Load(Records(d)) == d
  {
    LoadPrefix(d, |d.keys|);
    assert Records(d)[..|d.keys|] == Records(d);
    assert d.keys[..|d.keys|] == d.keys;
    hide Load;
    var loaded := Load(Records(d));
    assert loaded.at == d.at;
  }

  lemma LoadRecords(d: Dict<Reservation>)
    requires d.Valid()
    requires forall k :: k in d.at ==> d.at[k].operationId == k
    ensures Load(Records(d)) == d
    ensures RecordsOk(Records(d)) <==> (forall k :: k in d.at ==> RecordOk(d.at[k]))
  {
    hide RecordOk;
    LoadExact(d);
    hide Load;
    if RecordsOk(Records(d)) {
      forall k | k in d.at
        ensures RecordOk(d.at[k])
      {
        var i :| 0 <= i < |d.keys| && d.keys[i] == k;
        assert RecordOk(Records(d)[i]);
      }
    }
  }

  lemma KeyedIds(l: Ledger)
    requires l.Keyed()
    ensures forall k :: k in l.reservations.at ==> l.reservations.at[k].operationId == k
  {
    forall k | k in l.reservations.at
      ensures l.reservations.at[k].operationId == k
    {
      assert EntryKeyed(k, l.EntryOf(k));
    }
  }

  lemma VideoTableIff(l: Ledger)
    requires l.Keyed()
    ensures (VideoTableOk(l.reservations.at, l.video) && KeptVideo(l.reservations.at, l.video) == l.video)
            <==> forall op :: l.Has(op) && l.EntryOf(op).video.Some? ==>
                   VideoVerdict(l.EntryOf(op).reservation, l.EntryOf(op).video.value) == Keep
  {
    var at := l.reservations.at;
    if VideoTableOk(at, l.video) && KeptVideo(at, l.video) == l.video {
      forall op | l.Has(op) && l.EntryOf(op).video.Some?
        ensures VideoVerdict(l.EntryOf(op).reservation, l.EntryOf(op).video.value) == Keep
      {
        assert op in KeptVideo(at, l.video);
      }
    }
    if forall op :: l.Has(op) && l.EntryOf(op).video.Some? ==>
         VideoVerdict(l.EntryOf(op).reservation, l.EntryOf(op).video.value) == Keep {
      forall op | op in l.video
        ensures op in at && VideoVerdict(at[op], l.video[op]) == Keep
      {
        assert l.Has(op) && l.EntryOf(op).video == Some(l.video[op]);
      }
      assert KeptVideo(at, l.video) == l.video;
    }
  }

  lemma MusicTableIff(l: Ledger)
    requires l.Keyed()
    ensures MusicTableOk(l.reservations.at, l.music)
            <==> forall op :: l.Has(op) && l.EntryOf(op).music.Some? ==>
                   MusicOk(l.EntryOf(op).reservation, l.EntryOf(op).music.value)
  {
    if MusicTableOk(l.reservations.at, l.music) {
      forall op | l.Has(op) && l.EntryOf(op).music.Some?
        ensures MusicOk(l.EntryOf(op).reservation, l.EntryOf(op).music.value)
      {
        assert op in l.music;
      }
    }
    if forall op :: l.Has(op) && l.EntryOf(op).music.Some? ==>
         MusicOk(l.EntryOf(op).reservation, l.EntryOf(op).music.value) {
      forall op | op in l.music
        ensures op in l.reservations.at && MusicOk(l.reservations.at[op], l.music[op])
      {
        assert l.Has(op) && l.EntryOf(op).music == Some(l.music[op]);
      }
    }
  }

  /** Without adoptions or watermarks a reload checks reservations and candidates only. */
  lemma ReloadWithoutAdoptions(policy: Policy, records: seq<Reservation>, video: map<string, VideoCandidate>,
                               music: map<string, MusicCandidate>)
    ensures var at := Load(records).at;
      Reload(policy, Snapshot(records, map[], false, map[], map[], map[], video, music))
      == if RecordsOk(records) && VideoTableOk(at, video) && MusicTableOk(at, music)
         then Ok(EmptyLedger(policy).(reservations := Load(records), video := KeptVideo(at, video), music := music))
         else Raised
  {
    hide RecordsOk, VideoTableOk, KeptVideo, MusicTableOk, Load, HashElsewhere, PostPnrOk, HistoricalOk, ActivationOk;
  }

  lemma CloneTables(l: Ledger)
    requires l.Keyed()
    ensures CloneOf(l) == Ok(l)
            <==> RecordsOk(Records(l.reservations)) && VideoTableOk(l.reservations.at, l.video)
                 && KeptVideo(l.reservations.at, l.video) == l.video && MusicTableOk(l.reservations.at, l.music)
  {
    KeyedIds(l);
    LoadRecords(l.reservations);
    ReloadWithoutAdoptions(l.policy, Records(l.reservations), l.video, l.music);
    hide RecordsOk, Records, VideoTableOk, KeptVideo, MusicTableOk, Load, RecordOk, Reload;
  }

  lemma RecordsIff(l: Ledger)
    requires l.Keyed()
    ensures RecordsOk(Records(l.reservations)) <==> forall op :: l.Has(op) ==> RecordOk(l.EntryOf(op).reservation)
  {
    hide RecordOk;
    KeyedIds(l);
    LoadRecords(l.reservations);
    hide RecordsOk, Records;
    if forall op :: l.Has(op) ==> RecordOk(l.EntryOf(op).reservation) {
      forall k | k in l.reservations.at
        ensures RecordOk(l.reservations.at[k])
      {
        assert l.Has(k);
      }
    }
  }

  /** A working copy succeeds and equals the ledger exactly when every entry is acceptable. */
  lemma CloneIff(l: Ledger)
    requires l.Keyed()
    ensures CloneOf(l) == Ok(l) <==> CloneInv(l)
  {
    CloneTables(l);
    RecordsIff(l);
    VideoTableIff(l);
    MusicTableIff(l);
    hide RecordOk, VideoVerdict, MusicOk, CloneOf, RecordsOk, Records, VideoTableOk, KeptVideo, MusicTableOk;
  }

  lemma PostPnrTableIff(l: Ledger)
    requires l.Keyed()
    ensures PostPnrTableOk(l.policy, l.reservations.at, l.postPnr)
            <==> forall op :: l.Has(op) && l.EntryOf(op).postPnr.Some? ==>
                   PostPnrOk(l.policy, l.EntryOf(op).reservation, l.EntryOf(op).postPnr.value)
  {
    hide PostPnrOk;
    var at := l.reservations.at;
    if PostPnrTableOk(l.policy, at, l.postPnr) {
      forall op | l.Has(op) && l.EntryOf(op).postPnr.Some?
        ensures PostPnrOk(l.policy, l.EntryOf(op).reservation, l.EntryOf(op).postPnr.value)
      {
        assert op in l.postPnr;
      }
    }
    if forall op :: l.Has(op) && l.EntryOf(op).postPnr.Some? ==>
         PostPnrOk(l.policy, l.EntryOf(op).reservation, l.EntryOf(op).postPnr.value) {
      forall op | op in l.postPnr
        ensures op in at && PostPnrOk(l.policy, at[op], l.postPnr[op])
      {
        assert l.Has(op) && l.EntryOf(op).postPnr == Some(l.postPnr[op]);
      }
    }
  }

  lemma HistoricalTableIff(l: Ledger)
    requires l.Keyed()
    ensures HistoricalTableOk(l.policy, l.reservations.at, l.historical)
            <==> HistoricalHashesUnique(l)
                 && forall op :: l.Has(op) && l.EntryOf(op).historical.Some? ==>
                      HistoricalOk(l.policy, l.EntryOf(op).reservation, l.EntryOf(op).historical.value)
  {
    hide HistoricalOk, HashElsewhere;
    var at := l.reservations.at;
    if HistoricalTableOk(l.policy, at, l.historical) {
      forall op | l.Has(op) && l.EntryOf(op).historical.Some?
        ensures HistoricalOk(l.policy, l.EntryOf(op).reservation, l.EntryOf(op).historical.value)
      {
        assert op in l.historical;
      }
    }
    if forall op :: l.Has(op) && l.EntryOf(op).historical.Some? ==>
         HistoricalOk(l.policy, l.EntryOf(op).reservation, l.EntryOf(op).historical.value) {
      forall op | op in l.historical
        ensures op in at && HistoricalOk(l.policy, at[op], l.historical[op])
      {
        assert l.Has(op) && l.EntryOf(op).historical == Some(l.historical[op]);
      }
    }
  }

  lemma ActivationTableIff(l: Ledger)
    requires l.Keyed()
    ensures ActivationTableOk(l.reservations.at, l.historical, l.activations)
            <==> forall op :: l.Has(op) && l.EntryOf(op).activation.Some? ==>
                   l.EntryOf(op).historical.Some?
                   && ActivationOk(l.EntryOf(op).reservation, l.EntryOf(op).activation.value)
  {
    hide ActivationOk;
    var at := l.reservations.at;
    if ActivationTableOk(at, l.historical, l.activations) {
      forall op | l.Has(op) && l.EntryOf(op).activation.Some?
        ensures l.EntryOf(op).historical.Some?
                && ActivationOk(l.EntryOf(op).reservation, l.EntryOf(op).activation.value)
      {
        assert op in l.activations;
      }
    }
    if forall op :: l.Has(op) && l.EntryOf(op).activation.Some? ==>
         l.EntryOf(op).historical.Some? && ActivationOk(l.EntryOf(op).reservation, l.EntryOf(op).activation.value) {
      forall op | op in l.activations
        ensures op in at && op in l.historical && ActivationOk(at[op], l.activations[op])
      {
        assert l.Has(op) && l.EntryOf(op).activation == Some(l.activations[op]);
      }
    }
  }

  lemma ReloadTables(l: Ledger)
    requires l.Keyed()
    ensures Reload(l.policy, SnapshotOf(l)) == Ok(l)
            <==> (CloneOf(l) == Ok(l) && WatermarksOk(l.watermarks)
                  && PostPnrTableOk(l.policy, l.reservations.at, l.postPnr)
                  && HistoricalTableOk(l.policy, l.reservations.at, l.historical)
                  && ActivationTableOk(l.reservations.at, l.historical, l.activations))
  {
    KeyedIds(l);
    LoadRecords(l.reservations);
    CloneTables(l);
    hide RecordsOk, Records, VideoTableOk, KeptVideo, MusicTableOk, Load, PostPnrTableOk, HistoricalTableOk,
         ActivationTableOk, WatermarksOk, CloneOf, Ledger.Keyed;
    assert SnapshotOf(l).video == l.video && SnapshotOf(l).music == l.music
           && SnapshotOf(l).reservations == Records(l.reservations);
  }

  /** A saved snapshot reloads to the same ledger exactly when the invariant holds. */
  lemma ReloadIff(l: Ledger)
    requires l.Keyed()
    ensures Reload(l.policy, SnapshotOf(l)) == Ok(l) <==> ReloadInv(l)
  {
    hide PostPnrOk, HistoricalOk, ActivationOk, CloneEntryOk, Reload, SnapshotOf, CloneOf, PostPnrTableOk,
         HistoricalTableOk, ActivationTableOk, WatermarksOk, HistoricalHashesUnique, Ledger.Keyed;
    ReloadTables(l);
    CloneIff(l);
    PostPnrTableIff(l);
    HistoricalTableIff(l);
    ActivationTableIff(l);
  }
}
