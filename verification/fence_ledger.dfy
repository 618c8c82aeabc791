/** The Fence ledger as a value: admission, adoption, watermarks, quiescence, and the
    lifting of every one-entry transition. */
module FenceLedger {
  import opened Common
  import opened FenceEntry

  datatype Policy = Policy(capacityBytes: int, maxInflight: int) {
    predicate Valid() {
      capacityBytes > 0 && maxInflight > 0
    }
  }

  datatype PreAdmissionIntent = PreAdmissionIntent(
    operationId: string,
    source: string,
    mediaId: string,
    selectorFingerprint: string,
    expectedBytes: int,
    watermark: string
  )

  /** A stopped Arr grab observed without a Reconciler release request. */
  datatype ExternalIntent = ExternalIntent(
    operationId: string,
    source: string,
    entityId: string,
    downloadId: string,
    torrentHash: string,
    expectedBytes: int,
    historyId: int,
    observationFingerprint: string
  )

  datatype Reason =
    | Admitted
    | Idempotent
    | Conflict
    | Quiescing
    | QbittorrentUnready
    | ProwlarrUnready
    | PublisherBackpressure
    | ConcurrencyExhausted
    | CapacityExhausted
    | InvalidIntent
    | PhysicalHeadroomRefused

  datatype Decision = Decision(admitted: bool, reason: Reason)

  /** Sums a weight over a sequence of entries. */
  function Total(weight: Entry -> int, entries: seq<Entry>): int {
    if entries == [] then 0 else weight(entries[0]) + Total(weight, entries[1..])
  }

  const ReservedWeight: Entry -> int := (e: Entry) => if e.reservation.Live() then e.reservation.bytesReserved else 0

  const RequestedWeight: Entry -> int := (e: Entry) => if e.reservation.Live() then e.reservation.requestedBytes else 0

  /** A managed historical adoption no longer occupies a concurrency slot. */
  const InflightWeight: Entry -> int :=
    (e: Entry) => if e.reservation.Live() && !(e.historical.Some? && e.activation == Some(Managed)) then 1 else 0

  datatype Ledger = Ledger(
    policy: Policy,
    reservations: Dict<Reservation>,
    watermarks: map<string, int>,
    quiescing: bool,
    postPnr: map<string, PostPnrIntent>,
    historical: map<string, HistoricalIntent>,
    activations: map<string, Activation>,
    video: map<string, VideoCandidate>,
    music: map<string, MusicCandidate>
  ) {
    predicate Has(op: string) {
      op in reservations.at
    }

    function EntryOf(op: string): Entry
      requires Has(op)
    {
      Entry(reservations.at[op], Lookup(postPnr, op), Lookup(historical, op), Lookup(activations, op),
            Lookup(video, op), Lookup(music, op))
    }

    function PutEntry(op: string, e: Entry): Ledger {
      this.(
        reservations := reservations.Put(op, e.reservation),
        postPnr := Store(postPnr, op, e.postPnr),
        historical := Store(historical, op, e.historical),
        activations := Store(activations, op, e.activation),
        video := Store(video, op, e.video),
        music := Store(music, op, e.music))
    }

    /** Records are kept under their own operation id, and nothing is kept for an
        operation without a reservation. */
    ghost predicate Keyed() {
      && reservations.Valid()
      && (forall op :: op in reservations.at ==> EntryKeyed(op, EntryOf(op)))
      && postPnr.Keys + historical.Keys + activations.Keys + video.Keys + music.Keys <= reservations.at.Keys
    }

    function Entries(): seq<Entry>
      requires Keyed()
    {
      seq(|reservations.keys|, i requires 0 <= i < |reservations.keys| => EntryOf(reservations.keys[i]))
    }

    function ReservedBytes(): int
      requires Keyed()
    {
      Total(ReservedWeight, Entries())
    }

    predicate WithinCapacity()
      requires Keyed()
    {
      ReservedBytes() <= policy.capacityBytes
    }

    function Inflight(): int
      requires Keyed()
    {
      Total(InflightWeight, Entries())
    }

    predicate HashTaken(hash: string) {
      exists op :: op in reservations.at && reservations.at[op].torrentHash == Some(hash)
    }

    /** The first reservation, in insertion order, that carries a fingerprint. */
    function OperationForObservation(fingerprint: string): Option<string>
      requires Keyed()
    {
      FirstWithFingerprint(reservations, fingerprint, 0)
    }
  }

  predicate EntryKeyed(op: string, e: Entry) {
    && e.reservation.operationId == op
    && e.reservation.reservationId == "fence:" + op
    && (e.postPnr.Some? ==> e.postPnr.value.operationId == op)
    && (e.historical.Some? ==> e.historical.value.operationId == op)
    && (e.video.Some? ==> e.video.value.operationId == op)
    && (e.music.Some? ==> e.music.value.operationId == op)
  }

  function FirstWithFingerprint(d: Dict<Reservation>, fingerprint: string, from: nat): Option<string>
    requires d.Valid()
    requires from <= |d.keys|
    decreases |d.keys| - from
  {
    if from == |d.keys| then None
    else if d.at[d.keys[from]].observationFingerprint == Some(fingerprint) then Some(d.keys[from])
    else FirstWithFingerprint(d, fingerprint, from + 1)
  }

  function EmptyLedger(policy: Policy): Ledger {
    Ledger(policy, EmptyDict(), map[], false, map[], map[], map[], map[], map[])
  }

  function PlainEntry(r: Reservation): Entry {
    Entry(r, None, None, None, None, None)
  }

  function NewReservation(op: string, source: string, mediaId: string, bytes: int,
                          state: ReservationState): Reservation {
    Reservation(op, "fence:" + op, source, mediaId, mediaId, bytes, bytes, state, None, None, None, None, None, None,
                None, None)
  }

  // Admission of a Reconciler request.

  predicate PreAdmissionValid(intent: PreAdmissionIntent) {
    && UuidOfVersion(intent.operationId, '4')
    && intent.source in {RADARR, SONARR, LIDARR}
    && intent.mediaId != "" && intent.watermark != ""
    && LowerHex(intent.selectorFingerprint, 64)
    && intent.expectedBytes > 0
  }

  predicate SameRequest(r: Reservation, intent: PreAdmissionIntent) {
    && r.source == intent.source
    && r.mediaId == intent.mediaId
    && r.requestedBytes == intent.expectedBytes
    && r.selectorFingerprint == Some(intent.selectorFingerprint)
    && r.watermark == Some(intent.watermark)
  }

  function PreAdmitDecision(l: Ledger, intent: PreAdmissionIntent, qbittorrentReady: bool, prowlarrReady: bool,
                            publisherReady: bool): Decision
    requires l.Keyed()
  {
    if l.quiescing then Decision(false, Quiescing)
    else if l.Has(intent.operationId) then
      var existing := l.reservations.at[intent.operationId];
      if !SameRequest(existing, intent) then Decision(false, Conflict)
      else Decision(existing.state != Released, Idempotent)
    else if !qbittorrentReady then Decision(false, QbittorrentUnready)
    else if !prowlarrReady then Decision(false, ProwlarrUnready)
    else if !publisherReady then Decision(false, PublisherBackpressure)
    else if l.Inflight() >= l.policy.maxInflight then Decision(false, ConcurrencyExhausted)
    else if l.ReservedBytes() + intent.expectedBytes > l.policy.capacityBytes then Decision(false, CapacityExhausted)
    else if !PreAdmissionValid(intent) then Decision(false, InvalidIntent)
    else Decision(true, Admitted)
  }

  function PreAdmittedReservation(intent: PreAdmissionIntent): Reservation {
    NewReservation(intent.operationId, intent.source, intent.mediaId, intent.expectedBytes, PreAdmitted).(
      selectorFingerprint := Some(intent.selectorFingerprint), watermark := Some(intent.watermark))
  }

  // Adoption of an observed external grab.

  predicate ExternalValid(intent: ExternalIntent) {
    && LowerHex(intent.observationFingerprint, 64)
    && intent.historyId > 0
    && intent.expectedBytes > 0
    && intent.source != "" && intent.entityId != "" && intent.operationId != ""
    && TorrentHash(intent.torrentHash)
    && Lower(intent.downloadId) == intent.torrentHash
  }

  predicate SameObservation(r: Reservation, intent: ExternalIntent) {
    && r.source == intent.source
    && r.mediaId == intent.entityId
    && r.downloadId == Some(intent.downloadId)
    && r.torrentHash == Some(intent.torrentHash)
    && r.requestedBytes == intent.expectedBytes
    && r.externalHistoryId == Some(intent.historyId)
    && r.observationFingerprint == Some(intent.observationFingerprint)
  }

  function ExternalDecision(l: Ledger, intent: ExternalIntent, qbittorrentReady: bool, publisherReady: bool): Decision
    requires l.Keyed()
  {
    var byFingerprint := l.OperationForObservation(intent.observationFingerprint);
    if l.quiescing then Decision(false, Quiescing)
    else if !ExternalValid(intent) then Decision(false, InvalidIntent)
    else if l.Has(intent.operationId) then
      if SameObservation(l.reservations.at[intent.operationId], intent) then Decision(true, Idempotent)
      else Decision(false, Conflict)
    else if byFingerprint.Some? then
      if l.Has(byFingerprint.value) && SameObservation(l.reservations.at[byFingerprint.value], intent)
      then Decision(true, Idempotent)
      else Decision(false, Conflict)
    else if !qbittorrentReady then Decision(false, QbittorrentUnready)
    else if !publisherReady then Decision(false, PublisherBackpressure)
    else if l.Inflight() >= l.policy.maxInflight then Decision(false, ConcurrencyExhausted)
    else if l.ReservedBytes() + intent.expectedBytes > l.policy.capacityBytes then Decision(false, CapacityExhausted)
    else Decision(true, Admitted)
  }

  function ExternalReservation(intent: ExternalIntent): Reservation {
    NewReservation(intent.operationId, intent.source, intent.entityId, intent.expectedBytes, PreAdmitted).(
      torrentHash := Some(intent.torrentHash), downloadId := Some(intent.downloadId),
      observationFingerprint := Some(intent.observationFingerprint), externalHistoryId := Some(intent.historyId))
  }

  // Deployment-authorised adoptions.

  predicate SavePathOk(path: string) {
    && path != "" && path[0] == '/'
    && '\0' !in path
    && forall i :: 1 <= i < |Split(path, '/')| ==> Split(path, '/')[i] !in {"", ".", ".."}
  }

  predicate PostPnrValid(intent: PostPnrIntent) {
    && intent.operationId != ""
    && VideoSource(intent.source)
    && intent.downloadClientId > 0
    && CanonicalDecimal(intent.entityId)
    && TorrentHash(intent.torrentHash)
    && intent.category != ""
    && SavePathOk(intent.savePath)
    && intent.expectedBytes > 0
    && intent.historyId > 0
  }

  predicate SamePostPnr(a: PostPnrIntent, b: PostPnrIntent) {
    && a.source == b.source && a.downloadClientId == b.downloadClientId && a.entityId == b.entityId
    && a.torrentHash == b.torrentHash && a.category == b.category && a.savePath == b.savePath
  }

  function PostPnrDecision(l: Ledger, intent: PostPnrIntent, qbittorrentReady: bool): Decision
    requires l.Keyed()
  {
    if !PostPnrValid(intent) then Decision(false, InvalidIntent)
    else if l.quiescing then Decision(false, Quiescing)
    else if intent.operationId in l.postPnr then
      if SamePostPnr(l.postPnr[intent.operationId], intent) then Decision(true, Idempotent)
      else Decision(false, Conflict)
    else if l.Has(intent.operationId) || l.HashTaken(intent.torrentHash) then Decision(false, Conflict)
    else if !qbittorrentReady then Decision(false, QbittorrentUnready)
    else if l.Inflight() >= l.policy.maxInflight then Decision(false, ConcurrencyExhausted)
    else if l.ReservedBytes() + intent.expectedBytes > l.policy.capacityBytes then Decision(false, CapacityExhausted)
    else Decision(true, Admitted)
  }

  /** `digest` is the SHA-256 of the sealed identity, kept as the selector fingerprint. */
  function PostPnrEntry(intent: PostPnrIntent, digest: string): Entry {
    PlainEntry(NewReservation(intent.operationId, intent.source, intent.entityId, intent.expectedBytes, GrabBound).(
      torrentHash := Some(intent.torrentHash), downloadId := Some(intent.torrentHash),
      selectorFingerprint := Some(digest), watermark := Some("post-pnr"))).(postPnr := Some(intent))
  }

  predicate HistoricalValid(intent: HistoricalIntent) {
    && 1 <= |intent.entityIds| <= 128
    && (forall i :: 0 <= i < |intent.entityIds| ==> CanonicalDecimal(intent.entityIds[i]))
    && (forall i, j :: 0 <= i < j < |intent.entityIds| ==>
          DecimalValue(intent.entityIds[i]) <= DecimalValue(intent.entityIds[j]))
    && (forall i, j :: 0 <= i < j < |intent.entityIds| ==> intent.entityIds[i] != intent.entityIds[j])
    && (intent.source != RADARR || |intent.entityIds| == 1)
    && |intent.historyIds| == |intent.entityIds|
    && (forall i :: 0 <= i < |intent.historyIds| ==> intent.historyIds[i] > 0)
    && (forall i, j :: 0 <= i < j < |intent.historyIds| ==> intent.historyIds[i] != intent.historyIds[j])
    && intent.operationId != ""
    && VideoSource(intent.source)
    && intent.downloadClientId > 0
    && TorrentHash(intent.torrentHash)
    && intent.category != ""
    && SavePathOk(intent.savePath)
    && intent.expectedBytes > 0
  }

  predicate SameHistorical(a: HistoricalIntent, b: HistoricalIntent) {
    && a.source == b.source && a.downloadClientId == b.downloadClientId && a.entityIds == b.entityIds
    && a.torrentHash == b.torrentHash && a.category == b.category && a.savePath == b.savePath
  }

  function HistoricalDecision(l: Ledger, intent: HistoricalIntent, qbittorrentReady: bool): Decision
    requires l.Keyed()
  {
    if !HistoricalValid(intent) then Decision(false, InvalidIntent)
    else if l.quiescing then Decision(false, Quiescing)
    else if intent.operationId in l.historical then
      if SameHistorical(l.historical[intent.operationId], intent) then Decision(true, Idempotent)
      else Decision(false, Conflict)
    else if l.Has(intent.operationId) || l.HashTaken(intent.torrentHash) then Decision(false, Conflict)
    else if !qbittorrentReady then Decision(false, QbittorrentUnready)
    else if l.Inflight() >= l.policy.maxInflight then Decision(false, ConcurrencyExhausted)
    else if l.ReservedBytes() + intent.expectedBytes > l.policy.capacityBytes then Decision(false, CapacityExhausted)
    else Decision(true, Admitted)
  }

  function HistoricalEntry(intent: HistoricalIntent, digest: string): Entry
    requires HistoricalValid(intent)
  {
    PlainEntry(NewReservation(intent.operationId, intent.source, intent.entityIds[0], intent.expectedBytes, GrabBound).(
      torrentHash := Some(intent.torrentHash), downloadId := Some(Upper(intent.torrentHash)),
      selectorFingerprint := Some(digest), watermark := Some("post-pnr-historical"))).(historical := Some(intent))
  }

  // The whole transition set.

  datatype Action =
    | Op(op: string, step: OpAction)
    | PreAdmit(admission: PreAdmissionIntent, qbittorrentReady: bool, prowlarrReady: bool, publisherReady: bool)
    | AdoptExternal(external: ExternalIntent, qbittorrentReady: bool, publisherReady: bool)
    | AdoptPostPnr(adoption: PostPnrIntent, digest: string, qbittorrentReady: bool)
    | AdoptHistorical(historical: HistoricalIntent, digest: string, qbittorrentReady: bool)
    | RecordWatermark(source: string, watermark: int)
    | BeginQuiescence
    | EndQuiescence

  /** The reservation and adoption that an accepted new admission writes. */
  function Admission(l: Ledger, a: Action): Option<(string, Entry)>
    requires l.Keyed()
  {
    match a
    case PreAdmit(intent, q, p, pub) =>
      if PreAdmitDecision(l, intent, q, p, pub) == Decision(true, Admitted)
      then Some((intent.operationId, PlainEntry(PreAdmittedReservation(intent)))) else None
    case AdoptExternal(intent, q, pub) =>
      if ExternalDecision(l, intent, q, pub) == Decision(true, Admitted)
      then Some((intent.operationId, PlainEntry(ExternalReservation(intent)))) else None
    case AdoptPostPnr(intent, digest, q) =>
      if PostPnrDecision(l, intent, q) == Decision(true, Admitted)
      then Some((intent.operationId, PostPnrEntry(intent, digest))) else None
    case AdoptHistorical(intent, digest, q) =>
      if HistoricalValid(intent) && HistoricalDecision(l, intent, q) == Decision(true, Admitted)
      then Some((intent.operationId, HistoricalEntry(intent, digest))) else None
    case _ => None
  }

  /** One transition of the ledger.  A refused admission leaves the ledger as it was. */
  function Apply(l: Ledger, a: Action): Result<Ledger>
    requires l.Keyed()
  {
    match a
    case Op(op, step) =>
      if !l.Has(op) then Raised
      else
        var next :- EntryStep(l.EntryOf(op), step, l.quiescing);
        Ok(l.PutEntry(op, next))
    case RecordWatermark(source, watermark) =>
      if source == "" || watermark < 0 || (source in l.watermarks && watermark < l.watermarks[source]) then Raised
      else Ok(l.(watermarks := l.watermarks[source := watermark]))
    case BeginQuiescence => Ok(l.(quiescing := true))
    case EndQuiescence => Ok(l.(quiescing := false))
    case _ =>
      match Admission(l, a)
      case Some((op, e)) => Ok(l.PutEntry(op, e))
      case None => Ok(l)
  }

  // Facts about writing one entry.

  lemma PutEntryReads(l: Ledger, op: string, e: Entry)
    ensures l.PutEntry(op, e).Has(op) && l.PutEntry(op, e).EntryOf(op) == e
    ensures forall k :: k != op && l.Has(k) ==> l.PutEntry(op, e).Has(k) && l.PutEntry(op, e).EntryOf(k) == l.EntryOf(k)
    ensures forall k :: l.PutEntry(op, e).Has(k) ==> k == op || l.Has(k)
  {
  }

  lemma PutEntryKeyed(l: Ledger, op: string, e: Entry)
    requires l.Keyed() && EntryKeyed(op, e)
    ensures l.PutEntry(op, e).Keyed()
  {
    l.reservations.PutValid(op, e.reservation);
    PutEntryReads(l, op, e);
    var next := l.PutEntry(op, e);
    forall k | k in next.reservations.at
      ensures EntryKeyed(k, next.EntryOf(k))
    {
      if k != op { assert l.Has(k); }
    }
  }

  /** Writing back what is already there changes nothing. */
  lemma PutSame(l: Ledger, op: string)
    requires l.Has(op)
    ensures l.PutEntry(op, l.EntryOf(op)) == l
  {
    assert l.reservations.Put(op, l.reservations.at[op]) == l.reservations;
    StoreLookup(l.postPnr, op);
    StoreLookup(l.historical, op);
    StoreLookup(l.activations, op);
    StoreLookup(l.video, op);
    StoreLookup(l.music, op);
  }

  lemma StoreLookup<V>(m: map<string, V>, k: string)
    ensures Store(m, k, Lookup(m, k)) == m
  {
  }

  lemma EntryStepKeyed(op: string, e: Entry, a: OpAction, quiescing: bool)
    requires EntryKeyed(op, e) && EntryStep(e, a, quiescing).Ok?
    ensures EntryKeyed(op, EntryStep(e, a, quiescing).value)
  {
  }

  lemma AdmissionFresh(l: Ledger, a: Action)
    requires l.Keyed() && Admission(l, a).Some?
    ensures var (op, e) := Admission(l, a).value; !l.Has(op) && EntryKeyed(op, e) && !l.quiescing
  {
  }

  /** Every transition keeps the ledger keyed. */
  lemma ApplyKeyed(l: Ledger, a: Action)
    requires l.Keyed() && Apply(l, a).Ok?
    ensures Apply(l, a).value.Keyed()
  {
    match a {
      case Op(op, step) =>
        EntryStepKeyed(op, l.EntryOf(op), step, l.quiescing);
        PutEntryKeyed(l, op, EntryStep(l.EntryOf(op), step, l.quiescing).value);
      case RecordWatermark(source, watermark) => KeyedIgnoresFlags(l, Apply(l, a).value);
      case BeginQuiescence => KeyedIgnoresFlags(l, Apply(l, a).value);
      case EndQuiescence => KeyedIgnoresFlags(l, Apply(l, a).value);
      case _ =>
        if Admission(l, a).Some? {
          AdmissionFresh(l, a);
          var (op, e) := Admission(l, a).value;
          PutEntryKeyed(l, op, e);
        }
    }
  }

  /** Watermarks and quiescence are not part of any entry. */
  lemma KeyedIgnoresFlags(l: Ledger, m: Ledger)
    requires l.Keyed()
    requires m == l.(watermarks := m.watermarks, quiescing := m.quiescing)
    ensures m.Keyed() && m.Entries() == l.Entries()
    ensures forall op :: l.Has(op) ==> m.Has(op) && m.EntryOf(op) == l.EntryOf(op)
  {
    forall op | op in m.reservations.at
      ensures EntryKeyed(op, m.EntryOf(op))
    {
      assert m.EntryOf(op) == l.EntryOf(op);
    }
    assert m.Entries() == l.Entries();
  }

  /** Every transition touches at most one operation, and forgets none. */
  lemma ApplyFrame(l: Ledger, a: Action, k: string)
    requires l.Keyed() && Apply(l, a).Ok?
    requires l.Has(k)
    requires a.Op? ==> a.op != k
    ensures Apply(l, a).value.Has(k) && Apply(l, a).value.EntryOf(k) == l.EntryOf(k)
  {
    match a {
      case Op(op, step) => PutEntryReads(l, op, EntryStep(l.EntryOf(op), step, l.quiescing).value);
      case RecordWatermark(source, watermark) =>
      case BeginQuiescence =>
      case EndQuiescence =>
      case _ =>
        if Admission(l, a).Some? {
          AdmissionFresh(l, a);
          var (op, e) := Admission(l, a).value;
          PutEntryReads(l, op, e);
        }
    }
  }

  lemma ApplyKeepsPolicy(l: Ledger, a: Action)
    requires l.Keyed() && Apply(l, a).Ok?
    ensures Apply(l, a).value.policy == l.policy
  {
    hide EntryStep;
  }

  // Bindings.

  /** The reservation is bound to this download and torrent. */
  predicate BoundTo(l: Ledger, op: string, downloadId: string, torrentHash: string) {
    && l.Has(op) && l.reservations.at[op].state != PreAdmitted
    && l.reservations.at[op].downloadId == Some(downloadId) && l.reservations.at[op].torrentHash == Some(torrentHash)
  }

  lemma StepKeepsBinding(e: Entry, a: OpAction, quiescing: bool)
    requires EntryStep(e, a, quiescing).Ok? && e.reservation.state != PreAdmitted
    ensures var r := EntryStep(e, a, quiescing).value.reservation;
      r.state != PreAdmitted && r.downloadId == e.reservation.downloadId && r.torrentHash == e.reservation.torrentHash
  {
    hide LowerHex, Hex, Lower, UuidOfVersion;
  }

  /** A binding is never changed. */
  lemma ApplyKeepsBinding(l: Ledger, a: Action, op: string)
    requires l.Keyed() && Apply(l, a).Ok? && l.Has(op) && l.reservations.at[op].state != PreAdmitted
    ensures var next := Apply(l, a).value;
      && next.Has(op) && next.reservations.at[op].state != PreAdmitted
      && next.reservations.at[op].downloadId == l.reservations.at[op].downloadId
      && next.reservations.at[op].torrentHash == l.reservations.at[op].torrentHash
  {
    var next := Apply(l, a).value;
    assert l.EntryOf(op).reservation == l.reservations.at[op];
    if a.Op? && a.op == op {
      var moved := EntryStep(l.EntryOf(op), a.step, l.quiescing).value;
      StepKeepsBinding(l.EntryOf(op), a.step, l.quiescing);
      PutEntryReads(l, op, moved);
      assert next.EntryOf(op) == moved && next.EntryOf(op).reservation == next.reservations.at[op];
    } else {
      ApplyFrame(l, a, op);
      hide Apply, Ledger.Keyed;
      assert next.EntryOf(op).reservation == next.reservations.at[op];
    }
  }
}
