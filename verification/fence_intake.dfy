/** External intake: what the ledger remembers of Arr's observations, and that a run of polls over
    an append-only history loses no grab and reserves none twice. */
module FenceIntake {
  import opened Common
  import opened FenceEntry
  import opened FenceLedger
  import opened FenceReloadSteps
  import opened FenceMachine
  import opened Arr

  /** Some reservation was made for this observation. */
  predicate Observes(l: Ledger, fingerprint: string) {
    exists op :: op in l.reservations.at && l.reservations.at[op].observationFingerprint == Some(fingerprint)
  }

  predicate UniqueFingerprints(l: Ledger) {
    forall a, b :: a in l.reservations.at && b in l.reservations.at && a != b ==>
      l.reservations.at[a].observationFingerprint.None?
      || l.reservations.at[a].observationFingerprint != l.reservations.at[b].observationFingerprint
  }

  /** A deployment-authorised adoption is never an observed grab. */
  predicate AdoptionsUnobserved(l: Ledger) {
    forall op :: op in l.postPnr && op in l.reservations.at ==> l.reservations.at[op].observationFingerprint.None?
  }

  /** No operation is forgotten, none changes its observation, and watermarks stay. */
  predicate IntakeKept(before: Ledger, after: Ledger) {
    && after.watermarks == before.watermarks
    && (forall op :: op in before.reservations.at ==>
          op in after.reservations.at
              && after.reservations.at[op].observationFingerprint == before.reservations.at[op].observationFingerprint)
  }

  lemma ObservesKept(before: Ledger, after: Ledger, fingerprint: string)
    requires IntakeKept(before, after) && Observes(before, fingerprint)
    ensures Observes(after, fingerprint)
  {
    var op :| op in before.reservations.at && before.reservations.at[op].observationFingerprint == Some(fingerprint);
    assert op in after.reservations.at;
  }

  lemma OpKeepsObservations(l: Ledger, op: string, step: OpAction)
    requires l.Keyed() && Apply(l, Op(op, step)).Ok?
    ensures IntakeKept(l, Apply(l, Op(op, step)).value)
    ensures Apply(l, Op(op, step)).value.reservations.at.Keys == l.reservations.at.Keys
    ensures Apply(l, Op(op, step)).value.postPnr == l.postPnr
  {
    hide EntryStep, EntryKeyed, Ledger.Keyed, IntakeKept, Ledger.PutEntry;
    StepKeepsSeal(l.EntryOf(op), step, l.quiescing);
    PutKeepsObservations(l, op, EntryStep(l.EntryOf(op), step, l.quiescing).value);
  }

  lemma PutKeepsObservations(l: Ledger, op: string, e: Entry)
    requires l.Has(op) && e.postPnr == l.EntryOf(op).postPnr
    requires e.reservation.observationFingerprint == l.EntryOf(op).reservation.observationFingerprint
    ensures IntakeKept(l, l.PutEntry(op, e)) && l.PutEntry(op, e).reservations.at.Keys == l.reservations.at.Keys
    ensures l.PutEntry(op, e).postPnr == l.postPnr
  {
    StoreLookup(l.postPnr, op);
  }

  lemma {:induction false} NoneFound(d: Dict<Reservation>, fingerprint: string, from: nat)
    requires d.Valid() && from <= |d.keys|
    ensures FirstWithFingerprint(d, fingerprint, from).None?
            <==> forall i :: from <= i < |d.keys| ==> d.at[d.keys[i]].observationFingerprint != Some(fingerprint)
    ensures FirstWithFingerprint(d, fingerprint, from).Some? ==>
      && FirstWithFingerprint(d, fingerprint, from).value in d.at
      && d.at[FirstWithFingerprint(d, fingerprint, from).value].observationFingerprint == Some(fingerprint)
    decreases |d.keys| - from
  {
    if from < |d.keys| {
      NoneFound(d, fingerprint, from + 1);
    }
  }

  /** The lookup by fingerprint finds a reservation exactly when there is one. */
  lemma LookupFinds(l: Ledger, fingerprint: string)
    requires l.Keyed()
    ensures l.OperationForObservation(fingerprint).Some? <==> Observes(l, fingerprint)
    ensures l.OperationForObservation(fingerprint).Some? ==>
      && l.Has(l.OperationForObservation(fingerprint).value)
      && l.reservations.at[l.OperationForObservation(fingerprint).value].observationFingerprint == Some(fingerprint)
  {
    NoneFound(l.reservations, fingerprint, 0);
    if Observes(l, fingerprint) {
      var op :| op in l.reservations.at && l.reservations.at[op].observationFingerprint == Some(fingerprint);
      var i :| 0 <= i < |l.reservations.keys| && l.reservations.keys[i] == op;
    }
  }

  /** Only a fingerprint that no reservation has is ever admitted. */
  lemma AdmissionObservation(l: Ledger, a: Action)
    requires l.Keyed() && Admission(l, a).Some?
    ensures var e := Admission(l, a).value.1;
      && (e.postPnr.Some? ==> e.reservation.observationFingerprint.None?)
      && (e.reservation.observationFingerprint.Some? ==> !Observes(l, e.reservation.observationFingerprint.value))
  {
    if a.AdoptExternal? {
      LookupFinds(l, a.external.observationFingerprint);
    }
    hide Observes, Ledger.Keyed, LowerHex, UuidOfVersion, SavePathOk, CanonicalDecimal;
  }

  /** Every transition keeps one reservation per fingerprint, and forgets no observation. */
  lemma ApplyKeepsIntake(l: Ledger, a: Action)
    requires l.Keyed() && UniqueFingerprints(l) && AdoptionsUnobserved(l) && Apply(l, a).Ok?
    ensures UniqueFingerprints(Apply(l, a).value) && AdoptionsUnobserved(Apply(l, a).value)
    ensures !a.RecordWatermark? ==> IntakeKept(l, Apply(l, a).value)
  {
    hide EntryStep;
    var next := Apply(l, a).value;
    if a.Op? {
      OpKeepsObservations(l, a.op, a.step);
      hide Apply;
    } else if !a.RecordWatermark? && !a.BeginQuiescence? && !a.EndQuiescence? && Admission(l, a).Some? {
      AdmissionFresh(l, a);
      AdmissionObservation(l, a);
      var (op, e) := Admission(l, a).value;
      NewKeepsUnique(l, op, e);
      assert next == l.PutEntry(op, e);
      hide Apply, Admission, UniqueFingerprints, AdoptionsUnobserved, IntakeKept;
    }
  }

  lemma NewKeepsUnique(l: Ledger, op: string, e: Entry)
    requires !l.Has(op) && op !in l.postPnr && UniqueFingerprints(l) && AdoptionsUnobserved(l)
    requires e.postPnr.Some? ==> e.reservation.observationFingerprint.None?
    requires e.reservation.observationFingerprint.Some? ==> !Observes(l, e.reservation.observationFingerprint.value)
    ensures UniqueFingerprints(l.PutEntry(op, e)) && AdoptionsUnobserved(l.PutEntry(op, e))
            && IntakeKept(l, l.PutEntry(op, e))
  {
  }

  // The intake of one run.

  /** `digest` stands for the fingerprint hash, `truth` for the grab that a record really is. */
  datatype World = World(digest: (string, ExternalGrab) -> string, truth: (string, HistoryRecord) -> ExternalGrab)

  /** `baseline` remembers, per source, the watermark its first poll recorded. */
  datatype Intake = Intake(ledger: Ledger, history: map<string, seq<HistoryRecord>>, baseline: map<string, int>)

  datatype IntakeLabel =
    | Append(source: string, record: HistoryRecord)
    | Work(after: Ledger)
    | Baseline(source: string, view: seq<HistoryRecord>)
    | Advance(source: string, view: seq<HistoryRecord>, queue: seq<QueueItem>, client: Option<string>)

  function HistoryOf(s: Intake, source: string): seq<HistoryRecord> {
    if source in s.history then s.history[source] else []
  }

  /** Arr numbers records in the order in which it appends them. */
  predicate Rising(history: seq<HistoryRecord>) {
    forall i, j :: 0 <= i < j < |history| ==> history[i].id < history[j].id
  }

  predicate AllRising(history: map<string, seq<HistoryRecord>>) {
    forall source :: source in history ==> Rising(history[source])
  }

  ghost predicate ViewUpTo(history: seq<HistoryRecord>, view: seq<HistoryRecord>, n: nat) {
    n <= |history| && forall r :: r in view <==> r in history[..n]
  }

  /** What was fetched, in any order: the history as it was at that or an earlier time. */
  ghost predicate ViewOf(history: seq<HistoryRecord>, view: seq<HistoryRecord>) {
    exists n: nat :: ViewUpTo(history, view, n)
  }

  /** Any work on the ledger that moves no watermark and forgets no observation. */
  ghost predicate Worked(before: Ledger, after: Ledger) {
    after.Keyed() && UniqueFingerprints(after) && AdoptionsUnobserved(after) && IntakeKept(before, after)
  }

  /** Every transition but a watermark is such work. */
  lemma ActionIsWork(l: Ledger, a: Action)
    requires l.Keyed() && UniqueFingerprints(l) && AdoptionsUnobserved(l)
    requires !a.RecordWatermark? && Apply(l, a).Ok?
    ensures Worked(l, Apply(l, a).value)
  {
    ApplyKeyed(l, a);
    ApplyKeepsIntake(l, a);
    hide Apply, Ledger.Keyed, UniqueFingerprints, AdoptionsUnobserved, IntakeKept;
  }

  /** Sizes are stable: whatever a poll can prove about a record is the truth about it. */
  ghost predicate StableSizes(w: World, source: string, history: seq<HistoryRecord>, queue: seq<QueueItem>,
                              client: Option<string>) {
    client.Some? ==>
      forall r :: r in history && GrabOf(r, queue, client.value).Some? ==>
        GrabOf(r, queue, client.value).value == w.truth(source, r)
  }

  /** What a poll has proved when it advances a watermark. */
  ghost predicate Advances(digest: (string, ExternalGrab) -> string, l: Ledger, source: string,
                           history: seq<HistoryRecord>, queue: seq<QueueItem>, client: Option<string>, watermark: int) {
    && source in l.watermarks
    && GrabsAfter(history, queue, client, l.watermarks[source]).Some?
    && GrabsAfter(history, queue, client, l.watermarks[source]).value.watermark == watermark
    && forall g :: g in GrabsAfter(history, queue, client, l.watermarks[source]).value.grabs ==>
         Observes(l, digest(source, g))
  }

  ghost predicate IntakeStep(w: World, s: Intake, lab: IntakeLabel, t: Intake)
    requires s.ledger.Keyed()
  {
    match lab
    case Append(source, record) =>
      && (forall r :: r in HistoryOf(s, source) ==> r.id < record.id)
      && t == s.(history := s.history[source := HistoryOf(s, source) + [record]])
    case Work(after) => Worked(s.ledger, after) && t == s.(ledger := after)
    case Baseline(source, view) =>
      && ViewOf(HistoryOf(s, source), view) && Baselines(s.ledger, t.ledger, source, view)
      && t == s.(ledger := t.ledger, baseline := s.baseline[source := HistoryWatermark(view).value])
    case Advance(source, view, queue, client) =>
      && ViewOf(HistoryOf(s, source), view) && StableSizes(w, source, view, queue, client)
      && AdvancesTo(w.digest, s.ledger, t.ledger, source, view, queue, client)
      && t == s.(ledger := t.ledger)
  }

  /** The first poll of a source records the highest id there was. */
  ghost predicate Baselines(l: Ledger, after: Ledger, source: string, view: seq<HistoryRecord>)
    requires l.Keyed()
  {
    && source !in l.watermarks && HistoryWatermark(view).Some?
    && Apply(l, RecordWatermark(source, HistoryWatermark(view).value)) == Ok(after)
  }

  /** A later poll records the watermark of an answer whose grabs are all reserved. */
  ghost predicate AdvancesTo(digest: (string, ExternalGrab) -> string, l: Ledger, after: Ledger, source: string,
                             view: seq<HistoryRecord>, queue: seq<QueueItem>, client: Option<string>)
    requires l.Keyed()
  {
    exists watermark ::
      && Advances(digest, l, source, view, queue, client, watermark)
      && Apply(l, RecordWatermark(source, watermark)) == Ok(after)
  }

  /** Every grab after the baseline and at or below the watermark has its reservation. */
  ghost predicate Covered(w: World, s: Intake, source: string)
    requires source in s.ledger.watermarks
  {
    && source in s.baseline && 0 <= s.baseline[source] <= s.ledger.watermarks[source]
    && forall r ::
         r in HistoryOf(s, source) && r.event == Grabbed && s.baseline[source] < r.id <= s.ledger.watermarks[source]
         ==> Observes(s.ledger, w.digest(source, w.truth(source, r)))
  }

  /** A watermark is zero or the id of a record that exists. */
  predicate Reached(history: seq<HistoryRecord>, watermark: int) {
    watermark == 0 || exists i :: 0 <= i < |history| && history[i].id == watermark
  }

  ghost predicate IntakeInv(w: World, s: Intake) {
    && s.ledger.Keyed() && UniqueFingerprints(s.ledger) && AdoptionsUnobserved(s.ledger)
    && AllRising(s.history)
    && (forall source :: source in s.ledger.watermarks ==>
          Covered(w, s, source) && Reached(HistoryOf(s, source), s.ledger.watermarks[source]))
  }

  lemma WorkKeepsInv(w: World, s: Intake, after: Ledger, t: Intake)
    requires IntakeInv(w, s) && IntakeStep(w, s, Work(after), t)
    ensures IntakeInv(w, t) && IntakeKept(s.ledger, t.ledger)
  {
    hide Ledger.Keyed, UniqueFingerprints, AdoptionsUnobserved, AllRising;
    KeptCovers(w, s, t);
    hide IntakeKept, Covered;
  }

  /** Whatever keeps observations, history and baseline keeps what was covered. */
  lemma KeptCovers(w: World, s: Intake, t: Intake)
    requires IntakeKept(s.ledger, t.ledger) && t.history == s.history && t.baseline == s.baseline
    requires forall source ::
      source in s.ledger.watermarks ==>
        Covered(w, s, source) && Reached(HistoryOf(s, source), s.ledger.watermarks[source])
    ensures forall source ::
      source in t.ledger.watermarks ==>
        Covered(w, t, source) && Reached(HistoryOf(t, source), t.ledger.watermarks[source])
  {
    forall source | source in t.ledger.watermarks
      ensures Covered(w, t, source)
    {
      assert Covered(w, s, source);
      hide Observes, Reached;
      forall r | r in HistoryOf(s, source) && r.event == Grabbed
                 && s.baseline[source] < r.id <= s.ledger.watermarks[source]
        ensures Observes(t.ledger, w.digest(source, w.truth(source, r)))
      {
        ObservesKept(s.ledger, t.ledger, w.digest(source, w.truth(source, r)));
      }
    }
  }

  lemma AppendRises(s: Intake, source: string, record: HistoryRecord, t: Intake)
    requires AllRising(s.history) && forall r :: r in HistoryOf(s, source) ==> r.id < record.id
    requires t.history == s.history[source := HistoryOf(s, source) + [record]]
    ensures AllRising(t.history)
  {
    RisingOf(s, source);
    forall i | 0 <= i < |HistoryOf(s, source)|
      ensures HistoryOf(s, source)[i].id < record.id
    {
      assert HistoryOf(s, source)[i] in HistoryOf(s, source);
    }
  }

  lemma AppendKeepsInv(w: World, s: Intake, source: string, record: HistoryRecord, t: Intake)
    requires IntakeInv(w, s) && IntakeStep(w, s, Append(source, record), t)
    ensures IntakeInv(w, t)
  {
    AppendRises(s, source, record, t);
    hide Ledger.Keyed, UniqueFingerprints, AdoptionsUnobserved, Observes, AllRising;
    forall k | k in t.ledger.watermarks
      ensures Covered(w, t, k) && Reached(HistoryOf(t, k), t.ledger.watermarks[k])
    {
      assert Covered(w, s, k) && Reached(HistoryOf(s, k), s.ledger.watermarks[k]);
      if k == source && s.ledger.watermarks[k] != 0 {
        var i :| 0 <= i < |HistoryOf(s, k)| && HistoryOf(s, k)[i].id == s.ledger.watermarks[k];
        assert HistoryOf(t, k)[i].id == s.ledger.watermarks[k];
        assert HistoryOf(s, k)[i] in HistoryOf(s, k);
      }
    }
  }

  lemma WatermarkKeepsObservations(l: Ledger, source: string, watermark: int)
    requires l.Keyed() && Apply(l, RecordWatermark(source, watermark)).Ok?
    ensures var next := Apply(l, RecordWatermark(source, watermark)).value;
      && next.Keyed() && next.reservations == l.reservations && next.postPnr == l.postPnr
      && next.watermarks == l.watermarks[source := watermark]
      && (source in l.watermarks ==> l.watermarks[source] <= watermark)
  {
    ApplyKeyed(l, RecordWatermark(source, watermark));
  }

  lemma BaselineKeepsInv(w: World, s: Intake, source: string, view: seq<HistoryRecord>, t: Intake)
    requires IntakeInv(w, s) && IntakeStep(w, s, Baseline(source, view), t)
    ensures IntakeInv(w, t)
  {
    hide Ledger.Keyed, HistoryWatermark, AllRising, UniqueFingerprints, AdoptionsUnobserved;
    var mark := HistoryWatermark(view).value;
    BaselineCoversHistory(view);
    BaselineReached(view);
    ReachedLater(HistoryOf(s, source), view, mark);
    WatermarkKeepsObservations(s.ledger, source, mark);
    FlagKeepsUnique(s.ledger, t.ledger);
    hide Apply, Reached;
    forall k | k in t.ledger.watermarks
      ensures Covered(w, t, k) && Reached(HistoryOf(t, k), t.ledger.watermarks[k])
    {
      if k != source {
        assert Covered(w, s, k);
      }
    }
  }

  lemma FlagKeepsUnique(l: Ledger, m: Ledger)
    requires m.reservations == l.reservations && m.postPnr == l.postPnr
    ensures UniqueFingerprints(l) ==> UniqueFingerprints(m)
    ensures AdoptionsUnobserved(l) ==> AdoptionsUnobserved(m)
  {
  }

  /** What was reached in a view is reached in the history it came from. */
  lemma ReachedLater(history: seq<HistoryRecord>, view: seq<HistoryRecord>, watermark: int)
    requires ViewOf(history, view)
    ensures Reached(view, watermark) ==> Reached(history, watermark)
  {
    if Reached(view, watermark) && watermark != 0 {
      var i :| 0 <= i < |view| && view[i].id == watermark;
      var n: nat :| ViewUpTo(history, view, n);
      assert view[i] in view;
      assert view[i] in history[..n];
      assert view[i] in history;
    }
  }

  /** Nothing at or below an id that a view has seen is missing from that view. */
  lemma ViewIsComplete(history: seq<HistoryRecord>, view: seq<HistoryRecord>, watermark: int, r: HistoryRecord)
    requires Rising(history) && ViewOf(history, view) && Reached(view, watermark) && watermark != 0
    requires r in history && r.id <= watermark
    ensures r in view
  {
    var i :| 0 <= i < |view| && view[i].id == watermark;
    var n: nat :| ViewUpTo(history, view, n);
    assert view[i] in view;
    assert view[i] in history[..n];
    var j :| 0 <= j < n && history[j] == view[i];
    var k :| 0 <= k < |history| && history[k] == r;
    assert k <= j;
    assert history[..n][k] == r;
  }

  lemma BaselineReached(history: seq<HistoryRecord>)
    requires HistoryWatermark(history).Some?
    ensures Reached(history, HistoryWatermark(history).value)
  {
    SortedMembers(history);
    if history != [] {
      assert SortById(history)[|history| - 1] in history;
    }
  }

  lemma AdvanceKeepsInv(w: World, s: Intake, source: string, view: seq<HistoryRecord>, queue: seq<QueueItem>,
                        client: Option<string>, t: Intake)
    requires IntakeInv(w, s) && IntakeStep(w, s, Advance(source, view, queue, client), t)
    ensures IntakeInv(w, t)
  {
    hide Ledger.Keyed, UniqueFingerprints, AdoptionsUnobserved, GrabsAfter, GrabOf;
    var watermark :| Advances(w.digest, s.ledger, source, view, queue, client, watermark)
                     && Apply(s.ledger, RecordWatermark(source, watermark)) == Ok(t.ledger);
    var previous := s.ledger.watermarks[source];
    AdvanceReached(view, queue, client, previous);
    ReachedLater(HistoryOf(s, source), view, watermark);
    WatermarkKeepsObservations(s.ledger, source, watermark);
    FlagKeepsUnique(s.ledger, t.ledger);
    RisingOf(s, source);
    hide Apply, Reached, Rising, AllRising, ViewOf, Advances;
    forall k | k in t.ledger.watermarks
      ensures Covered(w, t, k) && Reached(HistoryOf(t, k), t.ledger.watermarks[k])
    {
      assert Covered(w, s, k) && Reached(HistoryOf(s, k), s.ledger.watermarks[k]);
      if k == source {
        AdvanceCovers(w, s, source, view, queue, client, watermark, t);
      }
    }
  }

  lemma RisingOf(s: Intake, source: string)
    requires AllRising(s.history)
    ensures Rising(HistoryOf(s, source))
  {
  }

  /** The polled source is covered up to its new watermark. */
  lemma AdvanceCovers(w: World, s: Intake, source: string, view: seq<HistoryRecord>, queue: seq<QueueItem>,
                      client: Option<string>, watermark: int, t: Intake)
    requires source in s.ledger.watermarks && Covered(w, s, source) && s.ledger.watermarks[source] <= watermark
    requires Rising(HistoryOf(s, source)) && ViewOf(HistoryOf(s, source), view)
             && StableSizes(w, source, view, queue, client)
    requires Advances(w.digest, s.ledger, source, view, queue, client, watermark)
    requires t.ledger.watermarks == s.ledger.watermarks[source := watermark]
             && t.ledger.reservations == s.ledger.reservations
    requires t.history == s.history && t.baseline == s.baseline
    ensures Covered(w, t, source)
  {
    assert client.Some?;
    hide GrabsAfter, GrabOf, Rising, ViewOf, Reached;
    var previous := s.ledger.watermarks[source];
    PollComplete(view, queue, client, previous);
    AdvanceReached(view, queue, client, previous);
    forall r | r in HistoryOf(s, source) && r.event == Grabbed && s.baseline[source] < r.id <= watermark
      ensures Observes(t.ledger, w.digest(source, w.truth(source, r)))
    {
      if r.id > previous {
        ViewIsComplete(HistoryOf(s, source), view, watermark, r);
        assert GrabOf(r, queue, client.value).value == w.truth(source, r);
        assert Observes(s.ledger, w.digest(source, w.truth(source, r)));
      }
      hide StableSizes, Advances;
    }
  }

  lemma AdvanceReached(history: seq<HistoryRecord>, queue: seq<QueueItem>, client: Option<string>, watermark: int)
    requires GrabsAfter(history, queue, client, watermark).Some?
    ensures var next := GrabsAfter(history, queue, client, watermark).value.watermark;
      next == watermark || Reached(history, next)
  {
    var sorted := SortById(history);
    SortedMembers(history);
    LaterMembers(sorted, watermark);
    var later := Later(sorted, watermark);
    if later != [] {
      assert later[|later| - 1] in later;
    }
    hide GrabsOf;
  }

  lemma IntakeStepKeepsInv(w: World, s: Intake, lab: IntakeLabel, t: Intake)
    requires IntakeInv(w, s) && IntakeStep(w, s, lab, t)
    ensures IntakeInv(w, t)
  {
    hide IntakeInv, IntakeStep;
    match lab {
      case Append(source, record) => AppendKeepsInv(w, s, source, record, t);
      case Work(after) => WorkKeepsInv(w, s, after, t);
      case Baseline(source, view) => BaselineKeepsInv(w, s, source, view, t);
      case Advance(source, view, queue, client) => AdvanceKeepsInv(w, s, source, view, queue, client, t);
    }
  }

  ghost predicate IntakeNext(w: World, s: Intake, t: Intake) {
    s.ledger.Keyed() && exists lab :: IntakeStep(w, s, lab, t)
  }

  /** A run of appended records, work on the ledger and polls.  A crash changes nothing durable, and
      a failed poll is the work it got through. */
  ghost predicate IntakeRun(w: World, policy: Policy, run: seq<Intake>) {
    && run != [] && run[0].ledger == EmptyLedger(policy) && run[0].baseline == map[]
    && AllRising(run[0].history)
    && forall i :: 0 < i < |run| ==> IntakeNext(w, run[i - 1], run[i])
  }

  lemma {:induction false} IntakeLosesNothing(w: World, policy: Policy, run: seq<Intake>, i: nat)
    requires IntakeRun(w, policy, run) && i < |run|
    ensures IntakeInv(w, run[i])
  {
    if i > 0 {
      hide IntakeStep, IntakeInv, Ledger.Keyed;
      IntakeLosesNothing(w, policy, run, i - 1);
      assert IntakeNext(w, run[i - 1], run[i]);
      var lab :| IntakeStep(w, run[i - 1], lab, run[i]);
      IntakeStepKeepsInv(w, run[i - 1], lab, run[i]);
    }
  }

  /** Watermarks only grow along a run. */
  lemma {:induction false} WatermarkNeverDecreases(w: World, policy: Policy, run: seq<Intake>, i: nat, j: nat,
                                                   source: string)
    requires IntakeRun(w, policy, run) && i <= j < |run| && source in run[i].ledger.watermarks
    ensures source in run[j].ledger.watermarks && run[i].ledger.watermarks[source] <= run[j].ledger.watermarks[source]
    decreases j
  {
    hide IntakeStep, IntakeInv, Ledger.Keyed;
    if i < j {
      WatermarkNeverDecreases(w, policy, run, i, j - 1, source);
      IntakeLosesNothing(w, policy, run, j - 1);
      assert IntakeNext(w, run[j - 1], run[j]);
      var lab :| IntakeStep(w, run[j - 1], lab, run[j]);
      StepKeepsWatermarks(w, run[j - 1], lab, run[j], source);
    }
  }

  lemma StepKeepsWatermarks(w: World, s: Intake, lab: IntakeLabel, t: Intake, source: string)
    requires IntakeInv(w, s) && IntakeStep(w, s, lab, t) && source in s.ledger.watermarks
    ensures source in t.ledger.watermarks && s.ledger.watermarks[source] <= t.ledger.watermarks[source]
  {
    hide IntakeInv, HistoryWatermark, Advances, StableSizes, ViewOf, UniqueFingerprints, AdoptionsUnobserved;
    KeyedInv(w, s);
    if lab.Baseline? {
      WatermarkKeepsObservations(s.ledger, lab.source, HistoryWatermark(lab.view).value);
    } else if lab.Advance? {
      var watermark :| Advances(w.digest, s.ledger, lab.source, lab.view, lab.queue, lab.client, watermark)
                       && Apply(s.ledger, RecordWatermark(lab.source, watermark)) == Ok(t.ledger);
      WatermarkKeepsObservations(s.ledger, lab.source, watermark);
    }
    hide Apply;
  }

  lemma KeyedInv(w: World, s: Intake)
    requires IntakeInv(w, s)
    ensures s.ledger.Keyed()
  {
  }

  // A poll as steps of the intake.

  /** What one poll of one source did: work that reserved its grabs, then at most its watermark. */
  ghost predicate PolledBy(before: Ledger, after: Ledger, source: string, history: seq<HistoryRecord>,
                           queue: seq<QueueItem>,
                           client: Option<string>, digest: (string, ExternalGrab) -> string) {
    exists reserved: Ledger ::
      && Worked(before, reserved)
      && (after == reserved || Baselines(reserved, after, source, history)
          || AdvancesTo(digest, reserved, after, source, history, queue, client))
  }

  lemma {:induction false} RunExtends(w: World, policy: Policy, run: seq<Intake>, lab: IntakeLabel, t: Intake)
    requires IntakeRun(w, policy, run) && run[|run| - 1].ledger.Keyed() && IntakeStep(w, run[|run| - 1], lab, t)
    ensures IntakeRun(w, policy, run + [t])
  {
    hide IntakeStep;
    var longer := run + [t];
    forall i | 0 < i < |longer|
      ensures IntakeNext(w, longer[i - 1], longer[i])
    {
      if i < |run| {
        assert IntakeNext(w, run[i - 1], run[i]);
      }
    }
  }

  lemma PollWorked(before: Ledger, reserved: Ledger, source: string, history: seq<HistoryRecord>, queue: seq<QueueItem>,
                   client: Option<string>, digest: (string, ExternalGrab) -> string)
    requires Worked(before, reserved)
    ensures PolledBy(before, reserved, source, history, queue, client, digest)
  {
    hide Worked;
  }

  lemma PollBaselined(before: Ledger, after: Ledger, source: string, history: seq<HistoryRecord>, queue: seq<QueueItem>,
                      client: Option<string>, digest: (string, ExternalGrab) -> string)
    requires Worked(before, before) && source !in before.watermarks && HistoryWatermark(history).Some?
    requires Apply(before, RecordWatermark(source, HistoryWatermark(history).value)) == Ok(after)
    ensures PolledBy(before, after, source, history, queue, client, digest)
  {
    hide UniqueFingerprints, AdoptionsUnobserved, IntakeKept, HistoryWatermark, Apply, Ledger.Keyed;
    assert Baselines(before, after, source, history);
    hide Worked, Baselines, AdvancesTo;
  }

  lemma PollAdvanced(before: Ledger, reserved: Ledger, after: Ledger, source: string, history: seq<HistoryRecord>,
                     queue: seq<QueueItem>,
                     client: Option<string>, digest: (string, ExternalGrab) -> string, o: ExternalObservation)
    requires Worked(before, reserved) && source in before.watermarks
    requires GrabsAfter(history, queue, client, before.watermarks[source]) == Some(o)
    requires forall j :: 0 <= j < |o.grabs| ==> Observes(reserved, digest(source, o.grabs[j]))
    requires Apply(reserved, RecordWatermark(source, o.watermark)) == Ok(after)
    ensures PolledBy(before, after, source, history, queue, client, digest)
  {
    hide UniqueFingerprints, AdoptionsUnobserved, GrabsAfter, Apply, Ledger.Keyed, Observes;
    assert Advances(digest, reserved, source, history, queue, client, o.watermark);
    assert AdvancesTo(digest, reserved, after, source, history, queue, client);
    hide Worked, Baselines, AdvancesTo;
  }

  /** A poll continues every intake run that had come to its ledger, whatever Arr appended since
      the poll fetched its view. */
  lemma PollContinuesRun(w: World, policy: Policy, run: seq<Intake>, after: Ledger, source: string,
                         view: seq<HistoryRecord>,
                         queue: seq<QueueItem>, client: Option<string>) returns (longer: seq<Intake>)
    requires IntakeRun(w, policy, run)
    requires PolledBy(run[|run| - 1].ledger, after, source, view, queue, client, w.digest)
    requires ViewOf(HistoryOf(run[|run| - 1], source), view) && StableSizes(w, source, view, queue, client)
    ensures IntakeRun(w, policy, longer) && run <= longer
    ensures longer[|longer| - 1].ledger == after && longer[|longer| - 1].history == run[|run| - 1].history
  {
    var before := run[|run| - 1].ledger;
    hide IntakeRun, IntakeStep, ViewOf, StableSizes, Worked, Baselines, AdvancesTo, HistoryWatermark, Ledger.Keyed,
         AllRising;
    KeyedRun(w, policy, run);
    var reserved: Ledger :| Worked(before, reserved)
      && (after == reserved || Baselines(reserved, after, source, view)
          || AdvancesTo(w.digest, reserved, after, source, view, queue, client));
    longer := WorkContinuesRun(w, policy, run, reserved);
    if after != reserved {
      var s := longer[|longer| - 1];
      var t := Marked(s, after, source, view);
      MarkIsStep(w, s, after, source, view, queue, client);
      KeyedRun(w, policy, longer);
      if Baselines(reserved, after, source, view) {
        RunExtends(w, policy, longer, Baseline(source, view), t);
      } else {
        RunExtends(w, policy, longer, Advance(source, view, queue, client), t);
      }
      longer := longer + [t];
    }
  }

  lemma KeyedRun(w: World, policy: Policy, run: seq<Intake>)
    requires IntakeRun(w, policy, run)
    ensures run != [] && run[|run| - 1].ledger.Keyed()
  {
    IntakeLosesNothing(w, policy, run, |run| - 1);
    KeyedInv(w, run[|run| - 1]);
  }

  lemma WorkContinuesRun(w: World, policy: Policy, run: seq<Intake>, reserved: Ledger) returns (longer: seq<Intake>)
    requires IntakeRun(w, policy, run) && Worked(run[|run| - 1].ledger, reserved)
    ensures IntakeRun(w, policy, longer) && longer == run + [run[|run| - 1].(ledger := reserved)]
  {
    hide IntakeRun, Worked, Ledger.Keyed;
    KeyedRun(w, policy, run);
    var t := run[|run| - 1].(ledger := reserved);
    RunExtends(w, policy, run, Work(reserved), t);
    longer := run + [t];
  }

  /** A watermark was written; its first one is the baseline. */
  function Marked(s: Intake, after: Ledger, source: string, view: seq<HistoryRecord>): Intake {
    if source !in s.ledger.watermarks && HistoryWatermark(view).Some?
    then s.(ledger := after, baseline := s.baseline[source := HistoryWatermark(view).value])
    else s.(ledger := after)
  }

  lemma MarkIsStep(w: World, s: Intake, after: Ledger, source: string, view: seq<HistoryRecord>, queue: seq<QueueItem>,
                   client: Option<string>)
    requires s.ledger.Keyed() && ViewOf(HistoryOf(s, source), view) && StableSizes(w, source, view, queue, client)
    ensures Baselines(s.ledger, after, source, view) ==>
      IntakeStep(w, s, Baseline(source, view), Marked(s, after, source, view))
    ensures AdvancesTo(w.digest, s.ledger, after, source, view, queue, client) ==>
      IntakeStep(w, s, Advance(source, view, queue, client), Marked(s, after, source, view))
  {
    hide Ledger.Keyed, ViewOf, StableSizes, Apply, HistoryWatermark, GrabsAfter, Observes;
    if AdvancesTo(w.digest, s.ledger, after, source, view, queue, client) {
      assert source in s.ledger.watermarks;
    }
    hide Advances, AdvancesTo;
  }

  /** Stable sizes are needed: a grab seen again with another size is admitted a second time. */
  lemma UnstableSizeReservesAgain(digest: (string, ExternalGrab) -> string, l: Ledger, op: string, source: string,
                                  g: ExternalGrab, size: int)
    requires l.Keyed() && !l.quiescing && !l.Has(op) && Observes(l, digest(source, g))
    requires var again := g.(expectedBytes := size);
      var intent := ExternalIntent(op, source, g.entityId, g.downloadId, g.torrentHash, size, g.historyId,
                                   digest(source, again));
      && !Observes(l, digest(source, again)) && ExternalValid(intent)
      && l.Inflight() < l.policy.maxInflight && l.ReservedBytes() + size <= l.policy.capacityBytes
    ensures var again := g.(expectedBytes := size);
      var intent := ExternalIntent(op, source, g.entityId, g.downloadId, g.torrentHash, size, g.historyId,
                                   digest(source, again));
      ExternalDecision(l, intent, true, true) == Decision(true, Admitted)
  {
    LookupFinds(l, digest(source, g.(expectedBytes := size)));
    hide Observes, Ledger.Keyed, ExternalValid, Ledger.Inflight, Ledger.ReservedBytes;
  }

  lemma StepKeepsUnique(c: Config, s: System, lab: Label, t: System)
    requires s.working.Keyed() && s.durable.Keyed() && Step(c, s, lab, t)
    requires UniqueFingerprints(s.durable) && AdoptionsUnobserved(s.durable)
    ensures UniqueFingerprints(t.durable) && AdoptionsUnobserved(t.durable)
  {
    if lab.Commit? {
      ApplyKeepsIntake(s.working, lab.action);
    } else {
      hide UniqueFingerprints, AdoptionsUnobserved, PhysicalReady, Ledger.WithinCapacity;
      assert t.durable == s.durable;
    }
  }

  lemma NothingObserved(c: Config, s: System)
    requires Initial(c, s)
    ensures UniqueFingerprints(s.durable) && AdoptionsUnobserved(s.durable)
  {
  }

  /** Unique fingerprints hold at every point of every run of the machine. */
  lemma {:induction false} AlwaysUnique(c: Config, trace: seq<System>, i: nat)
    requires Legal(c, trace) && i < |trace|
    ensures UniqueFingerprints(trace[i].durable) && AdoptionsUnobserved(trace[i].durable)
  {
    hide Step, Initial, Ledger.Keyed, UniqueFingerprints, AdoptionsUnobserved;
    if i == 0 {
      NothingObserved(c, trace[0]);
    } else {
      AlwaysUnique(c, trace, i - 1);
      assert Next(c, trace[i - 1], trace[i]);
      var lab :| Step(c, trace[i - 1], lab, trace[i]);
      StepKeepsUnique(c, trace[i - 1], lab, trace[i]);
    }
  }

  /** One step of the machine that moves no watermark is work of the intake. */
  lemma StepIsWork(c: Config, s: System, lab: Label, t: System)
    requires s.working.Keyed() && s.durable.Keyed() && Step(c, s, lab, t)
    requires UniqueFingerprints(s.durable) && AdoptionsUnobserved(s.durable)
    requires t.durable.watermarks == s.durable.watermarks
    ensures Worked(s.durable, t.durable)
  {
    if lab.Commit? && !lab.action.RecordWatermark? {
      ActionIsWork(s.durable, lab.action);
    } else {
      hide UniqueFingerprints, AdoptionsUnobserved, PhysicalReady, Ledger.WithinCapacity, Ledger.Keyed;
      assert t.durable == s.durable;
    }
  }

  /** Whatever the machine does between two polls continues the run, so a run of the intake is made
      of polls and of stretches of any legal trace. */
  lemma {:induction false} TraceContinuesRun(w: World, policy: Policy, run: seq<Intake>, c: Config, trace: seq<System>,
                                             i: nat, j: nat) returns (longer: seq<Intake>)
    requires IntakeRun(w, policy, run) && Legal(c, trace) && i <= j < |trace|
    requires run[|run| - 1].ledger == trace[i].durable
    requires forall k :: i <= k <= j ==> trace[k].durable.watermarks == trace[i].durable.watermarks
    ensures IntakeRun(w, policy, longer) && run <= longer
    ensures longer[|longer| - 1].ledger == trace[j].durable
            && longer[|longer| - 1].history == run[|run| - 1].history
    decreases j - i
  {
    longer := run;
    if i < j {
      hide IntakeRun, Worked, Step, Ledger.Keyed, UniqueFingerprints, AdoptionsUnobserved;
      AlwaysUnique(c, trace, i);
      assert Next(c, trace[i], trace[i + 1]);
      var lab :| Step(c, trace[i], lab, trace[i + 1]);
      StepIsWork(c, trace[i], lab, trace[i + 1]);
      var worked := WorkContinuesRun(w, policy, run, trace[i + 1].durable);
      hide Legal;
      longer := TraceContinuesRun(w, policy, worked, c, trace, i + 1, j);
    }
  }
}
