/** Which transitions keep a saved ledger reloadable: for each one, exactly when. */
module FenceReloadSteps {
  import opened Common
  import opened FenceEntry
  import opened FenceLedger
  import opened FenceReload

  /** An adoption probed on an empty ledger needs a valid intent and room for it. */
  lemma ProbesOnEmptyLedger(policy: Policy, intent: PostPnrIntent, historical: HistoricalIntent)
    ensures EmptyLedger(policy).Keyed()
    ensures PostPnrDecision(EmptyLedger(policy), intent, true).admitted
            <==> PostPnrValid(intent) && intent.expectedBytes <= policy.capacityBytes && policy.maxInflight > 0
    ensures HistoricalDecision(EmptyLedger(policy), historical, true).admitted
            <==> HistoricalValid(historical) && historical.expectedBytes <= policy.capacityBytes
                 && policy.maxInflight > 0
  {
    EmptyLedgerKeyed(policy);
    hide PostPnrValid, HistoricalValid;
  }

  /** The caller-visible condition under which one transition leaves its entry reloadable. */
  predicate StepReloadCondition(e: Entry, a: OpAction) {
    match a
    case RequestResume => e.postPnr.None?
    case RequestHistoricalActivation => e.postPnr.None?
    case MarkActive => e.historical.None? || e.activation == Some(Managed)
    case RequestPause => e.video.None? && e.music.None?
    case AcceptCustody(_, publisherReservationId) =>
      e.reservation.state == Released || e.reservation.source == LIDARR || publisherReservationId != ""
    case EnsureMusic(_) => e.music.Some? || PositiveDecimal(e.reservation.mediaId)
    case RecordMusicProgress(downloadedBytes, now) =>
      e.music.Some? && (downloadedBytes == e.music.value.lastDownloadedBytes || e.music.value.probeStartedAt <= now)
    case InvalidateMusic(_, _, _, newInvalidationId) =>
      (e.music.Some? && e.music.value.status == MusicInvalidated) || CanonicalUuid(newInvalidationId)
    case RecordVideoMetadata(downloadedBytes, now) =>
      e.video.Some? && (e.video.value.metadataObservedAt.None? || downloadedBytes <= e.video.value.lastDownloadedBytes
                        || e.video.value.metadataObservedAt.value <= now)
    case _ => true
  }

  predicate StepTouchesMusic(a: OpAction) {
    a.EnsureMusic? || a.RecordMusicProgress? || a.CompleteMusic? || a.InvalidateMusic? || a.MarkMusicDeleted?
    || a.AcknowledgeMusic?
  }

  predicate StepTouchesVideo(a: OpAction) {
    a.EnsureVideo? || a.RecordVideoFailure? || a.RecordVideoMetadata? || a.InvalidateVideo?
    || a.ReleaseInvalidatedVideo?
  }

  /** Only binding a grab, tagging and custody change a reservation beyond its state. */
  lemma StateStepKeepsRecord(e: Entry, a: OpAction, quiescing: bool)
    requires RecordOk(e.reservation) && EntryStep(e, a, quiescing).Ok?
    requires !a.BindObservedGrab? && !a.MarkTagged? && !a.AcceptCustody? && !StepTouchesMusic(a)
             && !a.ReleaseInvalidatedVideo?
    ensures RecordOk(EntryStep(e, a, quiescing).value.reservation)
  {
    hide LowerHex, Hex, Lower, UuidOfVersion;
  }

  lemma BindKeepsRecord(e: Entry, downloadId: string, torrentHash: string, historyId: Option<int>)
    requires RecordOk(e.reservation) && BoundGrab(e, downloadId, torrentHash, historyId).Ok?
    ensures RecordOk(BoundGrab(e, downloadId, torrentHash, historyId).value.reservation)
  {
    assert Truthy(Some(downloadId)) && Truthy(Some(torrentHash));
    hide LowerHex, Hex, Lower;
  }

  lemma OtherStepsKeepRecord(e: Entry, a: OpAction, quiescing: bool)
    requires RecordOk(e.reservation) && EntryStep(e, a, quiescing).Ok?
    requires a.MarkTagged? || StepTouchesMusic(a) || a.ReleaseInvalidatedVideo?
    ensures RecordOk(EntryStep(e, a, quiescing).value.reservation)
  {
    hide LowerHex, Hex, Lower, UuidOfVersion;
  }

  lemma CustodyKeepsRecord(e: Entry, a: OpAction, quiescing: bool)
    requires RecordOk(e.reservation) && EntryStep(e, a, quiescing).Ok? && a.AcceptCustody?
    ensures RecordOk(EntryStep(e, a, quiescing).value.reservation) <==> StepReloadCondition(e, a)
  {
    hide LowerHex, Hex, Lower, UuidOfVersion;
  }

  /** Which entries survive a step as far as candidates are concerned. */
  lemma PlainStepCandidates(e: Entry, a: OpAction, quiescing: bool)
    requires CloneEntryOk(e) && EntryStep(e, a, quiescing).Ok?
    requires !StepTouchesMusic(a) && !StepTouchesVideo(a)
    ensures var next := EntryStep(e, a, quiescing).value;
      ((next.video.Some? ==> VideoVerdict(next.reservation, next.video.value) == Keep)
       && (next.music.Some? ==> MusicOk(next.reservation, next.music.value)))
      <==> (a.RequestPause? ==> e.video.None? && e.music.None?)
  {
    hide LowerHex, Hex, Lower, UuidOfVersion, PositiveDecimal, CanonicalUuid;
  }

  lemma VideoStepCandidates(e: Entry, a: OpAction, quiescing: bool)
    requires CloneEntryOk(e) && EntryStep(e, a, quiescing).Ok? && StepTouchesVideo(a)
    ensures var next := EntryStep(e, a, quiescing).value;
      ((next.video.Some? ==> VideoVerdict(next.reservation, next.video.value) == Keep)
       && (next.music.Some? ==> MusicOk(next.reservation, next.music.value)))
      <==> StepReloadCondition(e, a)
  {
    hide LowerHex, Hex, Lower, UuidOfVersion, PositiveDecimal, CanonicalUuid;
  }

  lemma MusicStepCandidates(e: Entry, a: OpAction, quiescing: bool)
    requires CloneEntryOk(e) && EntryStep(e, a, quiescing).Ok? && StepTouchesMusic(a)
    ensures var next := EntryStep(e, a, quiescing).value;
      ((next.video.Some? ==> VideoVerdict(next.reservation, next.video.value) == Keep)
       && (next.music.Some? ==> MusicOk(next.reservation, next.music.value)))
      <==> StepReloadCondition(e, a)
  {
    hide LowerHex, Hex, Lower, UuidOfVersion, PositiveDecimal, CanonicalUuid;
  }

  /** The part of the condition that a working copy checks. */
  predicate StepCloneCondition(e: Entry, a: OpAction) {
    a.RequestResume? || a.RequestHistoricalActivation? || a.MarkActive? || StepReloadCondition(e, a)
  }

  /** A step keeps its entry acceptable to a working copy exactly under its condition. */
  lemma CloneStepIff(e: Entry, a: OpAction, quiescing: bool)
    requires CloneEntryOk(e) && EntryStep(e, a, quiescing).Ok?
    ensures CloneEntryOk(EntryStep(e, a, quiescing).value) <==> StepCloneCondition(e, a)
  {
    if a.AcceptCustody? {
      CustodyKeepsRecord(e, a, quiescing);
    } else if a.BindObservedGrab? {
      BindKeepsRecord(e, a.downloadId, a.torrentHash, a.historyId);
    } else if a.MarkTagged? || StepTouchesMusic(a) || a.ReleaseInvalidatedVideo? {
      OtherStepsKeepRecord(e, a, quiescing);
    } else {
      StateStepKeepsRecord(e, a, quiescing);
    }
    if StepTouchesMusic(a) {
      MusicStepCandidates(e, a, quiescing);
    } else if StepTouchesVideo(a) {
      VideoStepCandidates(e, a, quiescing);
    } else {
      PlainStepCandidates(e, a, quiescing);
    }
    hide RecordOk, VideoVerdict, MusicOk, EntryStep;
  }

  /** No step changes what an adoption was sealed for. */
  lemma StepKeepsSeal(e: Entry, a: OpAction, quiescing: bool)
    requires EntryStep(e, a, quiescing).Ok?
    ensures var next := EntryStep(e, a, quiescing).value;
      && next.postPnr == e.postPnr && next.historical == e.historical
      && next.reservation.operationId == e.reservation.operationId
      && next.reservation.reservationId == e.reservation.reservationId
      && next.reservation.source == e.reservation.source
      && next.reservation.upstreamId == e.reservation.upstreamId
      && next.reservation.mediaId == e.reservation.mediaId
      && next.reservation.requestedBytes == e.reservation.requestedBytes
      && next.reservation.selectorFingerprint == e.reservation.selectorFingerprint
      && next.reservation.watermark == e.reservation.watermark
      && next.reservation.observationFingerprint == e.reservation.observationFingerprint
      && (e.reservation.state != PreAdmitted ==>
            next.reservation.torrentHash == e.reservation.torrentHash
                && next.reservation.downloadId == e.reservation.downloadId)
  {
    hide LowerHex, Hex, Lower, UuidOfVersion;
  }

  predicate AdoptionStatesOk(state: ReservationState, postPnr: bool, historical: bool, activation: Option<Activation>) {
    && (postPnr ==> state in {GrabBound, TagIntentRecorded, QbittorrentStopped})
    && (historical ==> state in {GrabBound, TagIntentRecorded, QbittorrentStopped, ActivationIntentRecorded,
                                 QbittorrentManaged,
                                 PauseIntentRecorded, QbittorrentPaused, ResumeIntentRecorded})
    && (activation == Some(Intent) ==> historical && state == ActivationIntentRecorded)
    && (activation == Some(Managed) ==>
          historical && state in {QbittorrentManaged, PauseIntentRecorded, QbittorrentPaused, ResumeIntentRecorded})
  }

  predicate AdoptionSealsOk(policy: Policy, e: Entry) {
    var r := e.reservation;
    && (e.postPnr.Some? ==>
          PostPnrSealed(policy, r.source, r.mediaId, r.torrentHash, r.requestedBytes, e.postPnr.value))
    && (e.historical.Some? ==>
          HistoricalSealed(policy, r.source, r.mediaId, r.torrentHash, r.requestedBytes, e.historical.value))
  }

  lemma AdoptionParts(policy: Policy, e: Entry)
    ensures AdoptionEntryOk(policy, e)
            <==> AdoptionSealsOk(policy, e)
                 && AdoptionStatesOk(e.reservation.state, e.postPnr.Some?, e.historical.Some?, e.activation)
  {
    assert e.activation.Some? ==> e.activation.value.Intent? || e.activation.value.Managed?;
    hide PostPnrSealed, HistoricalSealed;
  }

  lemma AdoptionStatesStep(e: Entry, a: OpAction, quiescing: bool)
    requires AdoptionStatesOk(e.reservation.state, e.postPnr.Some?, e.historical.Some?, e.activation)
    requires EntryStep(e, a, quiescing).Ok?
    ensures var next := EntryStep(e, a, quiescing).value;
      AdoptionStatesOk(next.reservation.state, next.postPnr.Some?, next.historical.Some?, next.activation)
      <==> ((a.RequestResume? || a.RequestHistoricalActivation? ==> e.postPnr.None?)
            && (a.MarkActive? ==> e.historical.None? || e.activation == Some(Managed)))
  {
    hide LowerHex, Hex, Lower, UuidOfVersion;
  }

  lemma AdoptionStepIff(policy: Policy, e: Entry, a: OpAction, quiescing: bool)
    requires AdoptionEntryOk(policy, e) && EntryStep(e, a, quiescing).Ok?
    ensures AdoptionEntryOk(policy, EntryStep(e, a, quiescing).value)
            <==> ((a.RequestResume? || a.RequestHistoricalActivation? ==> e.postPnr.None?)
                  && (a.MarkActive? ==> e.historical.None? || e.activation == Some(Managed)))
  {
    var next := EntryStep(e, a, quiescing).value;
    StepKeepsSeal(e, a, quiescing);
    AdoptionParts(policy, e);
    AdoptionParts(policy, next);
    AdoptionStatesStep(e, a, quiescing);
    assert e.reservation.state == PreAdmitted ==> !e.Adopted();
    hide AdoptionEntryOk, PostPnrSealed, HistoricalSealed, EntryStep, AdoptionStatesOk;
  }

  /** The exact condition, for every transition of one operation. */
  lemma ReloadStepIff(policy: Policy, e: Entry, a: OpAction, quiescing: bool)
    requires ReloadEntryOk(policy, e) && EntryStep(e, a, quiescing).Ok?
    ensures ReloadEntryOk(policy, EntryStep(e, a, quiescing).value) <==> StepReloadCondition(e, a)
  {
    CloneStepIff(e, a, quiescing);
    AdoptionStepIff(policy, e, a, quiescing);
    hide CloneEntryOk, EntryStep, PostPnrOk, HistoricalOk, ActivationOk;
  }
}
