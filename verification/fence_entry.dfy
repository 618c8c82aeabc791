/** One Fence reservation with the adoption and candidate records kept beside it,
    and the effect of every ledger transition on that one entry. */
module FenceEntry {
  import opened Common

  const RADARR := "radarr"
  const SONARR := "sonarr"
  const LIDARR := "lidarr"

  predicate VideoSource(source: string) {
    source == RADARR || source == SONARR
  }

  predicate TorrentHash(s: string) {
    LowerHex(s, 40)
  }

  datatype ReservationState =
    | PreAdmitted
    | GrabBound
    | TagIntentRecorded
    | QbittorrentStopped
    | ActivationIntentRecorded
    | QbittorrentManaged
    | ResumeIntentRecorded
    | QbittorrentActive
    | PauseIntentRecorded
    | QbittorrentPaused
    | Terminal
    | FreezeIntentRecorded
    | QbittorrentFrozen
    | Invalidated
    | Released

  datatype Reservation = Reservation(
    operationId: string,
    reservationId: string,
    source: string,
    upstreamId: string,
    mediaId: string,
    bytesReserved: int,
    requestedBytes: int,
    state: ReservationState,
    torrentHash: Option<string>,
    publisherReservationId: Option<string>,
    selectorFingerprint: Option<string>,
    watermark: Option<string>,
    downloadId: Option<string>,
    observationFingerprint: Option<string>,
    externalHistoryId: Option<int>,
    remainingDownloadBytes: Option<int>
  ) {
    /** Whether the reservation still counts against capacity. */
    predicate Live() {
      state != Released && state != Invalidated
    }
  }

  /** Adoption of one stopped Arr grab, authorised by the deployment. */
  datatype PostPnrIntent = PostPnrIntent(
    operationId: string,
    source: string,
    downloadClientId: int,
    entityId: string,
    torrentHash: string,
    category: string,
    savePath: string,
    expectedBytes: int,
    historyId: int
  )

  /** Adoption of one pre-watermark hash with its whole entity set. */
  datatype HistoricalIntent = HistoricalIntent(
    operationId: string,
    source: string,
    downloadClientId: int,
    entityIds: seq<string>,
    torrentHash: string,
    category: string,
    savePath: string,
    expectedBytes: int,
    historyIds: seq<int>
  )

  datatype Activation = Intent | Managed

  datatype VideoStatus = VideoProbing | VideoInvalidated

  datatype VideoReason = MetadataTimeoutVideo | NoProgressTimeout

  datatype VideoCandidate = VideoCandidate(
    operationId: string,
    probeStartedAt: int,
    lastProgressAt: int,
    metadataObservedAt: Option<int>,
    lastDownloadedBytes: int,
    failureObservations: int,
    status: VideoStatus,
    invalidatedAt: Option<int>,
    reason: Option<VideoReason>
  )

  datatype MusicStatus = MusicProbing | MusicInvalidated | MusicReleased | MusicSucceeded

  datatype MusicReason = MetadataTimeout | NoPeerProgress | NoProgress

  datatype MusicCandidate = MusicCandidate(
    operationId: string,
    albumId: string,
    selectorFingerprint: string,
    torrentHash: string,
    probeStartedAt: int,
    lastProgressAt: int,
    lastDownloadedBytes: int,
    status: MusicStatus,
    invalidationId: Option<string>,
    invalidatedAt: Option<int>,
    reason: Option<MusicReason>,
    deleteInvalidPayload: bool,
    deletionObserved: bool,
    acknowledged: bool
  )

  /** Everything the ledger records about one operation. */
  datatype Entry = Entry(
    reservation: Reservation,
    postPnr: Option<PostPnrIntent>,
    historical: Option<HistoricalIntent>,
    activation: Option<Activation>,
    video: Option<VideoCandidate>,
    music: Option<MusicCandidate>
  ) {
    function In(state: ReservationState): Entry {
      this.(reservation := reservation.(state := state))
    }

    predicate Adopted() {
      postPnr.Some? || historical.Some?
    }

    predicate VideoJudgedDead() {
      video.Some? && video.value.status == VideoInvalidated
    }

    /** A candidate of this entry was judged dead, so its torrent may be gone. */
    predicate CandidateInvalidated() {
      || VideoJudgedDead()
      || (music.Some? && music.value.status == MusicInvalidated)
    }

    /** Whether the files go with the torrent of a dead candidate: for a video once there was
        metadata, for music as its policy said when it was judged. */
    predicate DeletesFiles() {
      if VideoJudgedDead() then video.value.metadataObservedAt.Some?
      else music.Some? && music.value.deleteInvalidPayload
    }
  }

  /** The completion message sent to the Publisher. */
  datatype TerminalMessage = TerminalMessage(
    operationId: string,
    fenceReservationId: string,
    source: string,
    upstreamId: string,
    mediaId: string,
    bytesReserved: int,
    downloadId: string
  ) {
    /** The shape every envelope of this kind is checked for. */
    predicate WellFormed() {
      && UuidOfVersion(operationId, '4')
      && VideoSource(source)
      && fenceReservationId != "" && upstreamId != "" && mediaId != "" && downloadId != ""
      && bytesReserved > 0
    }
  }

  datatype CustodyReceipt = CustodyReceipt(operationId: string, fenceReservationId: string,
                                           publisherReservationId: string) {
    predicate WellFormed() {
      UuidOfVersion(operationId, '4') && fenceReservationId != "" && publisherReservationId != ""
    }
  }

  /** The transitions that touch exactly one existing operation. */
  datatype OpAction =
    | BindObservedGrab(downloadId: string, torrentHash: string, historyId: Option<int>)
    | RequestTag
    | MarkTagged(observedBytes: int, remaining: Option<int>)
    | RequestResume
    | RequestHistoricalActivation
    | MarkHistoricalManaged
    | RequestPause
    | MarkPaused
    | MarkActive
    | RequestFreeze
    | MarkFrozen
    | Complete
    | AcceptCustody(fenceReservationId: string, publisherReservationId: string)
    | EnsureMusic(now: int)
    | RecordMusicProgress(downloadedBytes: int, now: int)
    | CompleteMusic
    | InvalidateMusic(musicReason: MusicReason, now: int, deletePayload: bool, newInvalidationId: string)
    | MarkMusicDeleted
    | AcknowledgeMusic(invalidationId: string)
    | EnsureVideo(now: int)
    | RecordVideoFailure(now: int)
    | RecordVideoMetadata(downloadedBytes: int, now: int)
    | InvalidateVideo(videoReason: VideoReason, now: int)
    | ReleaseInvalidatedVideo

  predicate GrabIdentityOk(downloadId: string, torrentHash: string, historyId: Option<int>) {
    && Hex(downloadId, 40)
    && TorrentHash(torrentHash)
    && Lower(downloadId) == torrentHash
    && (historyId.None? || historyId.value > 0)
  }

  function BoundGrab(e: Entry, downloadId: string, torrentHash: string, historyId: Option<int>): Result<Entry> {
    var r := e.reservation;
    if !GrabIdentityOk(downloadId, torrentHash, historyId) then Raised
    else if r.state == GrabBound then
      if r.downloadId != Some(downloadId) || r.torrentHash != Some(torrentHash) then Raised
      else if historyId.None? then Ok(e)
      else if r.externalHistoryId.None? || r.externalHistoryId == historyId then
        Ok(e.(reservation := r.(externalHistoryId := historyId)))
      else Raised
    else if r.state != PreAdmitted then Raised
    else Ok(e.(reservation := r.(
      downloadId := Some(downloadId),
      torrentHash := Some(torrentHash),
      externalHistoryId := if historyId.Some? then historyId else r.externalHistoryId,
      state := GrabBound)))
  }

  function Tagged(e: Entry, observedBytes: int, remaining: Option<int>): Result<Entry> {
    var r := e.reservation;
    if r.state != TagIntentRecorded || !Truthy(r.torrentHash) || observedBytes <= 0 then Raised
    else if remaining.Some? && !(0 <= remaining.value <= observedBytes) then Raised
    else Ok(e.(reservation := r.(
      bytesReserved := if observedBytes > r.bytesReserved then observedBytes else r.bytesReserved,
      remainingDownloadBytes := if remaining.Some? then remaining else r.remainingDownloadBytes,
      state := QbittorrentStopped)))
  }

  function HistoricalActivationRequested(e: Entry, quiescing: bool): Result<Entry> {
    if e.historical.None? || quiescing then Raised
    else if e.activation == Some(Managed) then Ok(e)
    else if e.activation == Some(Intent) && e.reservation.state == ActivationIntentRecorded then Ok(e)
    else if e.activation.Some? || e.reservation.state != QbittorrentStopped then Raised
    else Ok(e.In(ActivationIntentRecorded).(activation := Some(Intent)))
  }

  function TerminalOf(r: Reservation): Result<TerminalMessage> {
    if (r.state != Terminal && r.state != QbittorrentFrozen) || r.downloadId.None? then Raised
    else
      var t := TerminalMessage(r.operationId, r.reservationId, r.source, r.upstreamId, r.mediaId, r.bytesReserved,
                               r.downloadId.value);
      if t.WellFormed() then Ok(t) else Raised
  }

  function Completed(e: Entry): Result<Entry> {
    if e.reservation.state != QbittorrentActive then Raised
    else
      var next := e.In(Terminal).(video := None);
      if TerminalOf(next.reservation).Ok? then Ok(next) else Raised
  }

  function CustodyAccepted(e: Entry, fenceReservationId: string, publisherReservationId: string): Result<Entry> {
    var r := e.reservation;
    if fenceReservationId != r.reservationId then Raised
    else if r.state == Released then
      if r.publisherReservationId == Some(publisherReservationId) then Ok(e) else Raised
    else if r.state != Terminal && r.state != QbittorrentFrozen then Raised
    else Ok(e.(reservation := r.(publisherReservationId := Some(publisherReservationId), state := Released)))
  }

  function MusicEnsured(e: Entry, now: int): Result<Entry> {
    var r := e.reservation;
    if now < 0 || r.source != LIDARR || r.state != QbittorrentActive || !Truthy(r.torrentHash)
       || !Truthy(r.selectorFingerprint) then Raised
    else if e.music.Some? then
      var c := e.music.value;
      if c.albumId == r.mediaId && c.selectorFingerprint == r.selectorFingerprint.value
         && c.torrentHash == r.torrentHash.value
      then Ok(e) else Raised
    else
      Ok(e.(music := Some(MusicCandidate(
        r.operationId, r.mediaId, r.selectorFingerprint.value, r.torrentHash.value, now, now, 0,
        MusicProbing, None, None, None, false, false, false))))
  }

  predicate HasMusic(e: Entry) {
    e.music.Some? && e.reservation.source == LIDARR
  }

  function MusicProgressed(e: Entry, downloadedBytes: int, now: int): Result<Entry> {
    if now < 0 || !HasMusic(e) then Raised
    else
      var c := e.music.value;
      if c.status != MusicProbing || downloadedBytes < c.lastDownloadedBytes then Raised
      else if downloadedBytes == c.lastDownloadedBytes then Ok(e)
      else Ok(e.(music := Some(c.(lastDownloadedBytes := downloadedBytes, lastProgressAt := now))))
  }

  /** The shared end of a music candidate, as "released" or as "succeeded". */
  function MusicClosed(e: Entry, c: MusicCandidate, status: MusicStatus): Result<Entry> {
    if e.reservation.state != QbittorrentActive
       || (c.status != MusicProbing && c.status != MusicInvalidated) then Raised
    else if status == MusicReleased && c.deleteInvalidPayload && !c.deletionObserved then Raised
    else Ok(e.In(Released).(music := Some(c.(status := status))))
  }

  function MusicCompleted(e: Entry): Result<Entry> {
    if !HasMusic(e) || e.music.value.status != MusicProbing then Raised
    else MusicClosed(e, e.music.value, MusicSucceeded)
  }

  function MusicRejected(e: Entry, reason: MusicReason, now: int, deletePayload: bool,
                         newInvalidationId: string): Result<Entry> {
    if now < 0 || !HasMusic(e) then Raised
    else
      var c := e.music.value;
      if c.status == MusicInvalidated then Ok(e)
      else if c.status != MusicProbing then Raised
      else Ok(e.(music := Some(c.(
        status := MusicInvalidated, invalidationId := Some(newInvalidationId), invalidatedAt := Some(now),
        reason := Some(reason), deleteInvalidPayload := deletePayload))))
  }

  function MusicDeleted(e: Entry): Result<Entry> {
    if !HasMusic(e) || e.music.value.status != MusicInvalidated then Raised
    else MusicClosed(e, e.music.value.(deletionObserved := true), MusicReleased)
  }

  function MusicAcknowledged(e: Entry, invalidationId: string): Result<Entry> {
    if !HasMusic(e) then Raised
    else
      var c := e.music.value;
      if (c.status != MusicInvalidated && c.status != MusicReleased)
         || c.invalidationId != Some(invalidationId) then Raised
      else Ok(e.(music := Some(c.(acknowledged := true))))
  }

  function VideoEnsured(e: Entry, now: int): Result<Entry> {
    var r := e.reservation;
    if !VideoSource(r.source) || r.state != QbittorrentActive || !Truthy(r.torrentHash) || now < 0 then Raised
    else if e.video.Some? then Ok(e)
    else Ok(e.(video := Some(VideoCandidate(r.operationId, now, now, None, 0, 0, VideoProbing, None, None))))
  }

  predicate HasVideo(e: Entry) {
    e.video.Some? && VideoSource(e.reservation.source)
  }

  function VideoFailed(e: Entry, now: int): Result<Entry> {
    if !HasVideo(e) then Raised
    else
      var c := e.video.value;
      if c.status != VideoProbing || now < c.probeStartedAt then Raised
      else Ok(e.(video := Some(c.(failureObservations := c.failureObservations + 1))))
  }

  function VideoMetadata(e: Entry, downloadedBytes: int, now: int): Result<Entry> {
    if !HasVideo(e) then Raised
    else
      var c := e.video.value;
      if c.status != VideoProbing || now < c.probeStartedAt || downloadedBytes < 0 then Raised
      else
        var seen :=
          if c.metadataObservedAt.None? then
            c.(metadataObservedAt := Some(now), lastProgressAt := now, lastDownloadedBytes := downloadedBytes)
          else if downloadedBytes > c.lastDownloadedBytes then
            c.(lastDownloadedBytes := downloadedBytes, lastProgressAt := now)
          else c;
        Ok(e.(video := Some(seen.(failureObservations := 0))))
  }

  function VideoRejected(e: Entry, reason: VideoReason, now: int): Result<Entry> {
    if !HasVideo(e) || now < e.video.value.probeStartedAt then Raised
    else
      var c := e.video.value;
      if c.status == VideoInvalidated then Ok(e)
      else Ok(e.(video := Some(c.(status := VideoInvalidated, reason := Some(reason), invalidatedAt := Some(now)))))
  }

  function VideoReleased(e: Entry): Result<Entry> {
    if !HasVideo(e) || e.video.value.status != VideoInvalidated || e.reservation.state != QbittorrentActive
       || e.reservation.externalHistoryId.None? then Raised
    else Ok(e.In(Invalidated))
  }

  /** The effect of one transition on its entry; `Raised` leaves the ledger as it was. */
  function EntryStep(e: Entry, a: OpAction, quiescing: bool): Result<Entry> {
    var r := e.reservation;
    match a
    case BindObservedGrab(downloadId, torrentHash, historyId) => BoundGrab(e, downloadId, torrentHash, historyId)
    case RequestTag =>
      if r.state != GrabBound || !Truthy(r.torrentHash)
         || !Truthy(r.downloadId) then Raised else Ok(e.In(TagIntentRecorded))
    case MarkTagged(observedBytes, remaining) => Tagged(e, observedBytes, remaining)
    case RequestResume =>
      if (r.state != QbittorrentStopped && r.state != QbittorrentPaused) || !Truthy(r.torrentHash)
         || quiescing then Raised
      else Ok(e.In(ResumeIntentRecorded))
    case RequestHistoricalActivation => HistoricalActivationRequested(e, quiescing)
    case MarkHistoricalManaged =>
      if e.activation != Some(Intent) || r.state != ActivationIntentRecorded then Raised
      else Ok(e.In(QbittorrentManaged).(activation := Some(Managed)))
    case RequestPause =>
      if !quiescing || (r.state != QbittorrentActive && r.state != QbittorrentManaged)
         || !Truthy(r.torrentHash) then Raised
      else Ok(e.In(PauseIntentRecorded))
    case MarkPaused =>
      if !quiescing || r.state != PauseIntentRecorded then Raised else Ok(e.In(QbittorrentPaused))
    case MarkActive =>
      if r.state != ResumeIntentRecorded then Raised
      else Ok(e.In(if e.activation == Some(Managed) then QbittorrentManaged else QbittorrentActive))
    case RequestFreeze =>
      if r.state != Terminal || !Truthy(r.torrentHash) then Raised else Ok(e.In(FreezeIntentRecorded))
    case MarkFrozen =>
      if r.state != FreezeIntentRecorded then Raised else Ok(e.In(QbittorrentFrozen))
    case Complete => Completed(e)
    case AcceptCustody(fenceReservationId, publisherReservationId) =>
      CustodyAccepted(e, fenceReservationId, publisherReservationId)
    case EnsureMusic(now) => MusicEnsured(e, now)
    case RecordMusicProgress(downloadedBytes, now) => MusicProgressed(e, downloadedBytes, now)
    case CompleteMusic => MusicCompleted(e)
    case InvalidateMusic(reason, now, deletePayload, newInvalidationId) =>
      MusicRejected(e, reason, now, deletePayload, newInvalidationId)
    case MarkMusicDeleted => MusicDeleted(e)
    case AcknowledgeMusic(invalidationId) => MusicAcknowledged(e, invalidationId)
    case EnsureVideo(now) => VideoEnsured(e, now)
    case RecordVideoFailure(now) => VideoFailed(e, now)
    case RecordVideoMetadata(downloadedBytes, now) => VideoMetadata(e, downloadedBytes, now)
    case InvalidateVideo(reason, now) => VideoRejected(e, reason, now)
    case ReleaseInvalidatedVideo => VideoReleased(e)
  }
}
