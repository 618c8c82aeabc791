/** What one poll of Arr may do to the ledger. */
module FencePolls {
  import opened Common
  import opened FenceLedger
  import opened FenceIntake
  import opened FenceDriverFacts
  import opened Arr

  /** What Arr answered one source in one poll. */
  datatype ArrView = ArrView(history: seq<HistoryRecord>, queue: seq<QueueItem>, client: Option<string>)

  predicate ReservationsKept(before: Ledger, after: Ledger) {
    forall op :: op in before.reservations.at ==>
      op in after.reservations.at
      && after.reservations.at[op].observationFingerprint == before.reservations.at[op].observationFingerprint
  }

  predicate SameWatermark(before: Ledger, after: Ledger, source: string) {
    Lookup(after.watermarks, source) == Lookup(before.watermarks, source)
  }

  /** The watermark of a source stayed, was first set to the highest id there was, or moved past
      grabs that are all reserved. */
  predicate PollJustified(before: Ledger, after: Ledger, source: string, view: ArrView,
                          digest: (string, ExternalGrab) -> string) {
    SameWatermark(before, after, source)
    || (&& source in after.watermarks
        && if source !in before.watermarks then HistoryWatermark(view.history) == Some(after.watermarks[source])
           else && GrabsAfter(view.history, view.queue, view.client, before.watermarks[source]).Some?
                && GrabsAfter(view.history, view.queue, view.client, before.watermarks[source]).value.watermark
                   == after.watermarks[source]
                && forall g :: g in GrabsAfter(view.history, view.queue, view.client, before.watermarks[source]).value.grabs ==>
                      Observes(after, digest(source, g)))
  }

  lemma KeptReservations(before: Ledger, after: Ledger, source: string, moved: Option<int>)
    requires if moved.None? then IntakeKept(before, after)
             else after == before.(watermarks := before.watermarks[source := moved.value])
    ensures ReservationsKept(before, after)
    ensures forall k :: moved.None? || k != source ==> SameWatermark(before, after, k)
  {
  }

  lemma WatermarkJustified(before: Ledger, reserved: Ledger, after: Ledger, source: string, view: ArrView,
                           digest: (string, ExternalGrab) -> string, o: ExternalObservation)
    requires source in before.watermarks
             && GrabsAfter(view.history, view.queue, view.client, before.watermarks[source]) == Some(o)
    requires IntakeKept(before, reserved)
             && forall j :: 0 <= j < |o.grabs| ==> Observes(reserved, digest(source, o.grabs[j]))
    requires after == reserved || after == reserved.(watermarks := reserved.watermarks[source := o.watermark])
    ensures ReservationsKept(before, after) && PollJustified(before, after, source, view, digest)
            && source in after.watermarks
    ensures forall k :: k != source ==> SameWatermark(before, after, k)
  {
    hide GrabsAfter, HistoryWatermark;
  }

  lemma PollNothing(l: Ledger, views: map<string, ArrView>, digest: (string, ExternalGrab) -> string)
    ensures ReservationsKept(l, l)
    ensures forall source :: source in views ==> PollJustified(l, l, source, views[source], digest)
  {
    hide GrabsAfter, HistoryWatermark, Observes;
  }

  lemma ReservationsObserve(before: Ledger, after: Ledger, fingerprint: string)
    requires ReservationsKept(before, after) && Observes(before, fingerprint)
    ensures Observes(after, fingerprint)
  {
    var op :| op in before.reservations.at && before.reservations.at[op].observationFingerprint == Some(fingerprint);
    assert op in after.reservations.at;
  }

  /** Polling one more source keeps what the earlier ones established. */
  lemma PollsCompose(before: Ledger, middle: Ledger, after: Ledger, source: string, views: map<string, ArrView>,
                     digest: (string, ExternalGrab) -> string)
    requires source in views && SameWatermark(before, middle, source)
    requires ReservationsKept(before, middle) && ReservationsKept(middle, after)
    requires forall k :: k in views ==> PollJustified(before, middle, k, views[k], digest)
    requires PollJustified(middle, after, source, views[source], digest)
    requires forall k :: k != source ==> SameWatermark(middle, after, k)
    ensures ReservationsKept(before, after)
    ensures forall k :: k in views ==> PollJustified(before, after, k, views[k], digest)
    ensures forall k :: k != source && SameWatermark(before, middle, k) ==> SameWatermark(before, after, k)
    ensures forall k :: k in middle.watermarks ==> k in after.watermarks
  {
    forall k | k != source && SameWatermark(before, middle, k)
      ensures SameWatermark(before, after, k)
    {
      assert SameWatermark(middle, after, k);
    }
    forall k | k in middle.watermarks
      ensures k in after.watermarks
    {
      assert k != source ==> SameWatermark(middle, after, k);
    }
    forall k | k in views
      ensures PollJustified(before, after, k, views[k], digest)
    {
      OnePollComposes(before, middle, after, source, k, views[k], digest);
    }
  }

  lemma OnePollComposes(before: Ledger, middle: Ledger, after: Ledger, source: string, k: string, view: ArrView,
                        digest: (string, ExternalGrab) -> string)
    requires SameWatermark(before, middle, source)
    requires ReservationsKept(before, middle) && ReservationsKept(middle, after)
    requires PollJustified(before, middle, k, view, digest)
    requires k == source ==> PollJustified(middle, after, source, view, digest)
    requires k != source ==> SameWatermark(middle, after, k)
    ensures PollJustified(before, after, k, view, digest)
  {
    if k != source && !SameWatermark(before, middle, k) && k in before.watermarks {
      var o := GrabsAfter(view.history, view.queue, view.client, before.watermarks[k]).value;
      forall g | g in o.grabs
        ensures Observes(after, digest(k, g))
      {
        ReservationsObserve(middle, after, digest(k, g));
      }
    }
    hide GrabsAfter, HistoryWatermark, Observes, ReservationsKept;
  }

  lemma SweptObserves(before: Ledger, after: Ledger, fingerprint: string)
    requires Swept(before, after)
    ensures IntakeKept(before, after) && (Observes(before, fingerprint) ==> Observes(after, fingerprint))
  {
    if Observes(before, fingerprint) {
      ObservesKept(before, after, fingerprint);
    }
    hide Healthy;
  }

  /** A request that was admitted, now or before, is the request that is held. */
  lemma RequestHeld(l: Ledger, intent: PreAdmissionIntent, q: bool, p: bool, pub: bool)
    requires l.Keyed()
    ensures var d := PreAdmitDecision(l, intent, q, p, pub);
      var next := Apply(l, Action.PreAdmit(intent, q, p, pub));
      && next.Ok?
      && (d.admitted ==>
            next.value.Has(intent.operationId) && SameRequest(next.value.reservations.at[intent.operationId], intent))
      && (d.admitted ==> d.reason == Admitted || d.reason == Idempotent)
      && (d != Decision(true, Admitted) ==> next.value == l)
      && (d.reason == Admitted ==> d.admitted)
  {
    hide Ledger.Keyed, PreAdmissionValid, Ledger.Inflight, Ledger.ReservedBytes;
  }

  /** An accepted observation is held under its fingerprint, by an operation that is no adoption. */
  lemma ExternallyAdopted(l: Ledger, intent: ExternalIntent, q: bool, pub: bool)
    requires l.Keyed() && UniqueFingerprints(l) && AdoptionsUnobserved(l)
    requires l.OperationForObservation(intent.observationFingerprint) in {None, Some(intent.operationId)}
    ensures var d := ExternalDecision(l, intent, q, pub);
      var next := Apply(l, Action.AdoptExternal(intent, q, pub));
      && next.Ok? && IntakeKept(l, next.value)
      && (d.admitted ==>
            intent.operationId !in next.value.postPnr && Observes(next.value, intent.observationFingerprint))
      && (d.admitted ==> d.reason == Admitted || d.reason == Idempotent)
      && (d != Decision(true, Admitted) ==> next.value == l)
  {
    var action := Action.AdoptExternal(intent, q, pub);
    var d := ExternalDecision(l, intent, q, pub);
    ApplyKeepsIntake(l, action);
    LookupFinds(l, intent.observationFingerprint);
    var next := Apply(l, action).value;
    hide UniqueFingerprints, ExternalValid, Ledger.Inflight, Ledger.ReservedBytes, EntryKeyed, IntakeKept;
    if d.admitted {
      if d.reason == Admitted {
        PutEntryReads(l, intent.operationId, PlainEntry(ExternalReservation(intent)));
      }
      assert next.Has(intent.operationId)
             && next.reservations.at[intent.operationId].observationFingerprint == Some(intent.observationFingerprint);
    }
  }
}
