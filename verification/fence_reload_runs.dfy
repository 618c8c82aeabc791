/** Reload fidelity of whole runs of the ledger. */
module FenceReloadRuns {
  import opened Common
  import opened FenceEntry
  import opened FenceLedger
  import opened FenceReload
  import opened FenceReloadSteps

  /** Another operation was adopted historically for this hash. */
  predicate HistoricalClash(l: Ledger, op: string, hash: string) {
    exists k :: k in l.historical && k != op && l.historical[k].torrentHash == hash
  }

  /** Whether a transition of this ledger leaves it reloadable, read off before the call. */
  predicate ReloadCondition(l: Ledger, a: Action)
    requires l.Keyed()
  {
    match a
    case Op(op, step) =>
      l.Has(op) ==>
        && StepReloadCondition(l.EntryOf(op), step)
        && (step.BindObservedGrab? ==> !HistoricalClash(l, op, step.torrentHash))
    case AdoptExternal(intent, _, _) =>
      Admission(l, a).None? || !HistoricalClash(l, intent.operationId, intent.torrentHash)
    case AdoptPostPnr(_, digest, _) => Admission(l, a).None? || LowerHex(digest, 64)
    case AdoptHistorical(_, digest, _) => Admission(l, a).None? || LowerHex(digest, 64)
    case _ => true
  }

  lemma {:induction false} TotalNonNegative(weight: Entry -> int, entries: seq<Entry>)
    requires forall i :: 0 <= i < |entries| ==> weight(entries[i]) >= 0
    ensures Total(weight, entries) >= 0
  {
    if entries != [] {
      TotalNonNegative(weight, entries[1..]);
    }
  }

  lemma SumsNonNegative(l: Ledger)
    requires l.Keyed() && forall op :: l.Has(op) ==> RecordOk(l.EntryOf(op).reservation)
    ensures l.ReservedBytes() >= 0 && l.Inflight() >= 0
  {
    forall i | 0 <= i < |l.Entries()|
      ensures ReservedWeight(l.Entries()[i]) >= 0 && InflightWeight(l.Entries()[i]) >= 0
    {
      assert l.Has(l.reservations.keys[i]);
      assert RecordOk(l.Entries()[i].reservation);
    }
    TotalNonNegative(ReservedWeight, l.Entries());
    TotalNonNegative(InflightWeight, l.Entries());
  }

  predicate HashClashes(l: Ledger, op: string, hash: Option<string>) {
    hash.Some? && HistoricalClash(l, op, hash.value)
  }

  /** Writing one entry keeps historical hashes unique exactly when its hash is nobody else's seal. */
  lemma PutHashesUnique(l: Ledger, op: string, e: Entry)
    requires HistoricalHashesUnique(l)
    requires l.Has(op) ==> e.historical == l.EntryOf(op).historical
    requires !l.Has(op) && e.historical.Some? ==> !HashElsewhere(l.reservations.at, op, e.historical.value.torrentHash)
    requires forall k :: k in l.historical ==> l.Has(k)
    ensures HistoricalHashesUnique(l.PutEntry(op, e)) <==> !HashClashes(l, op, e.reservation.torrentHash)
  {
    var next := l.PutEntry(op, e);
    forall k | k in next.historical
      ensures HashElsewhere(next.reservations.at, k, next.historical[k].torrentHash)
              <==> k != op && e.reservation.torrentHash == Some(next.historical[k].torrentHash)
    {
      var hash := next.historical[k].torrentHash;
      if k == op {
        PutHashElsewhere(l, op, e, op, hash);
      } else {
        assert k in l.historical && l.historical[k] == next.historical[k];
        PutHashElsewhere(l, op, e, k, hash);
      }
    }
    hide HashElsewhere;
    if HashClashes(l, op, e.reservation.torrentHash) {
      var k :| k in l.historical && k != op && l.historical[k].torrentHash == e.reservation.torrentHash.value;
      assert k in next.historical && next.historical[k] == l.historical[k];
    }
  }

  lemma PutHashElsewhere(l: Ledger, op: string, e: Entry, k: string, hash: string)
    ensures HashElsewhere(l.PutEntry(op, e).reservations.at, k, hash)
            <==> (k != op && e.reservation.torrentHash == Some(hash))
                 || exists j ::
                      j in l.reservations.at && j != k && j != op && l.reservations.at[j].torrentHash == Some(hash)
  {
    var at := l.PutEntry(op, e).reservations.at;
    if HashElsewhere(at, k, hash) {
      var j :| j in at && j != k && at[j].torrentHash == Some(hash);
      assert j != op ==> j in l.reservations.at && at[j] == l.reservations.at[j];
    }
    if k != op && e.reservation.torrentHash == Some(hash) {
      assert op in at;
    }
    if j :| j in l.reservations.at && j != k && j != op && l.reservations.at[j].torrentHash == Some(hash) {
      assert j in at && at[j] == l.reservations.at[j];
    }
  }

  /** Writing an acceptable entry whose hash nobody else sealed keeps the invariant, and
      nothing weaker does. */
  lemma PutReloadIff(l: Ledger, op: string, e: Entry)
    requires l.Keyed() && ReloadInv(l)
    requires l.Has(op) ==> e.historical == l.EntryOf(op).historical
    requires !l.Has(op) && e.historical.Some? ==> !HashElsewhere(l.reservations.at, op, e.historical.value.torrentHash)
    ensures ReloadInv(l.PutEntry(op, e))
            <==> ReloadEntryOk(l.policy, e) && !HashClashes(l, op, e.reservation.torrentHash)
  {
    PutHashesUnique(l, op, e);
    PutEntryReads(l, op, e);
    var next := l.PutEntry(op, e);
    assert next.EntryOf(op) == e && next.policy == l.policy && next.watermarks == l.watermarks;
    hide ReloadEntryOk, WatermarksOk, HistoricalHashesUnique, HashClashes;
    if ReloadEntryOk(l.policy, e) {
      forall k | next.Has(k)
        ensures ReloadEntryOk(next.policy, next.EntryOf(k))
      {
        if k != op { assert l.Has(k) && next.EntryOf(k) == l.EntryOf(k); }
      }
    }
  }

  /** A hash that a reservation already carries cannot clash with another adoption. */
  lemma NoClashWithOwnHash(l: Ledger, op: string)
    requires HistoricalHashesUnique(l) && l.Has(op)
    ensures !HashClashes(l, op, l.EntryOf(op).reservation.torrentHash)
  {
  }

  lemma StepHash(e: Entry, a: OpAction, quiescing: bool)
    requires EntryStep(e, a, quiescing).Ok?
    ensures var next := EntryStep(e, a, quiescing).value.reservation;
      next.torrentHash == if a.BindObservedGrab? then Some(a.torrentHash) else e.reservation.torrentHash
  {
    hide LowerHex, Hex, Lower, UuidOfVersion;
  }

  lemma OpReloadIff(l: Ledger, op: string, step: OpAction)
    requires l.Keyed() && ReloadInv(l) && Apply(l, Op(op, step)).Ok?
    ensures ReloadInv(Apply(l, Op(op, step)).value) <==> ReloadCondition(l, Op(op, step))
  {
    var e := l.EntryOf(op);
    var next := EntryStep(e, step, l.quiescing).value;
    EntryStepKeyed(op, e, step, l.quiescing);
    StepKeepsSeal(e, step, l.quiescing);
    StepHash(e, step, l.quiescing);
    NoClashWithOwnHash(l, op);
    PutReloadIff(l, op, next);
    assert ReloadEntryOk(l.policy, e);
    ReloadStepIff(l.policy, e, step, l.quiescing);
    hide EntryStep, ReloadEntryOk, StepReloadCondition, ReloadInv, HistoricalClash, EntryKeyed, HistoricalHashesUnique;
  }

  /** A new reservation is acceptable as soon as its digest has the right shape. */
  lemma AdmissionEntryIff(l: Ledger, a: Action)
    requires l.Keyed() && ReloadInv(l) && Admission(l, a).Some?
    ensures ReloadEntryOk(l.policy, Admission(l, a).value.1)
            <==> ((a.AdoptPostPnr? || a.AdoptHistorical?) ==> LowerHex(a.digest, 64))
  {
    SumsOfReloadable(l);
    hide ReloadInv, ReloadEntryOk, Ledger.Keyed, LowerHex, Ledger.ReservedBytes, Ledger.Inflight, Admission;
    match a {
      case PreAdmit(_, _, _, _) => PreAdmitEntryOk(l, a);
      case AdoptExternal(_, _, _) => ExternalEntryOk(l, a);
      case AdoptPostPnr(_, _, _) => PostPnrAdmissionIff(l, a);
      case AdoptHistorical(_, _, _) => HistoricalAdmissionIff(l, a);
      case _ => NoAdmission(l, a);
    }
  }

  lemma NoAdmission(l: Ledger, a: Action)
    requires l.Keyed() && Admission(l, a).Some?
    ensures a.PreAdmit? || a.AdoptExternal? || a.AdoptPostPnr? || a.AdoptHistorical?
  {
    hide Ledger.Keyed;
  }

  lemma PostPnrAdmissionIff(l: Ledger, a: Action)
    requires l.Keyed() && a.AdoptPostPnr? && Admission(l, a).Some? && l.ReservedBytes() >= 0 && l.Inflight() >= 0
    ensures ReloadEntryOk(l.policy, Admission(l, a).value.1) <==> LowerHex(a.digest, 64)
  {
    hide ReloadEntryOk, Ledger.Keyed, LowerHex, Ledger.ReservedBytes, Ledger.Inflight, PostPnrValid, Ledger.HashTaken;
    assert PostPnrDecision(l, a.adoption, true) == Decision(true, Admitted);
    PostPnrEntryIff(l, a.adoption, a.digest);
  }

  lemma HistoricalAdmissionIff(l: Ledger, a: Action)
    requires l.Keyed() && a.AdoptHistorical? && Admission(l, a).Some? && l.ReservedBytes() >= 0 && l.Inflight() >= 0
    ensures ReloadEntryOk(l.policy, Admission(l, a).value.1) <==> LowerHex(a.digest, 64)
  {
    hide ReloadEntryOk, Ledger.Keyed, LowerHex, Ledger.ReservedBytes, Ledger.Inflight, HistoricalValid,
         Ledger.HashTaken;
    assert HistoricalDecision(l, a.historical, true) == Decision(true, Admitted);
    HistoricalEntryIff(l, a.historical, a.digest);
  }

  lemma SumsOfReloadable(l: Ledger)
    requires l.Keyed() && ReloadInv(l)
    ensures l.ReservedBytes() >= 0 && l.Inflight() >= 0
  {
    forall op | l.Has(op)
      ensures RecordOk(l.EntryOf(op).reservation)
    {
      assert ReloadEntryOk(l.policy, l.EntryOf(op));
      hide RecordOk;
    }
    hide ReloadInv, RecordOk, Ledger.Keyed;
    SumsNonNegative(l);
  }

  lemma PreAdmitEntryOk(l: Ledger, a: Action)
    requires l.Keyed() && a.PreAdmit? && Admission(l, a).Some?
    ensures ReloadEntryOk(l.policy, Admission(l, a).value.1)
  {
    assert Truthy(Some(a.admission.selectorFingerprint));
    hide LowerHex, UuidOfVersion, Ledger.Keyed, Ledger.ReservedBytes, Ledger.Inflight;
  }

  lemma ExternalEntryOk(l: Ledger, a: Action)
    requires l.Keyed() && a.AdoptExternal? && Admission(l, a).Some?
    ensures ReloadEntryOk(l.policy, Admission(l, a).value.1)
  {
    LowerOfHash(a.external.downloadId, a.external.torrentHash);
    assert Truthy(Some(a.external.torrentHash)) && Truthy(Some(a.external.downloadId));
    hide LowerHex, Hex, Lower, Ledger.Keyed, Ledger.ReservedBytes, Ledger.Inflight, Ledger.OperationForObservation,
         SameObservation;
  }

  lemma PostPnrEntryIff(l: Ledger, intent: PostPnrIntent, digest: string)
    requires l.Keyed() && l.ReservedBytes() >= 0 && l.Inflight() >= 0
    requires PostPnrDecision(l, intent, true) == Decision(true, Admitted)
    ensures ReloadEntryOk(l.policy, PostPnrEntry(intent, digest)) <==> LowerHex(digest, 64)
  {
    hide Ledger.Keyed, LowerHex, SavePathOk, CanonicalDecimal, Ledger.ReservedBytes, Ledger.Inflight, RecordOk,
         PostPnrSealed, Ledger.HashTaken;
    PostPnrRecordIff(intent, digest);
    PostPnrSealOk(l, intent);
  }

  lemma PostPnrRecordIff(intent: PostPnrIntent, digest: string)
    requires PostPnrValid(intent)
    ensures RecordOk(PostPnrEntry(intent, digest).reservation) <==> LowerHex(digest, 64)
  {
    HashOfHash(intent.torrentHash);
    assert Truthy(Some(intent.torrentHash));
    assert LowerHex(digest, 64) ==> Truthy(Some(digest));
    hide Hex, Lower, SavePathOk, CanonicalDecimal, LowerHex;
  }

  lemma PostPnrSealOk(l: Ledger, intent: PostPnrIntent)
    requires l.Keyed() && l.ReservedBytes() >= 0 && l.Inflight() >= 0
    requires PostPnrDecision(l, intent, true) == Decision(true, Admitted)
    ensures PostPnrSealed(l.policy, intent.source, intent.entityId, Some(intent.torrentHash), intent.expectedBytes,
                          intent)
  {
    ProbesOnEmptyLedger(l.policy, intent, SomeHistorical());
    hide Ledger.Keyed, PostPnrValid, Ledger.ReservedBytes, Ledger.Inflight, Ledger.HashTaken;
  }

  lemma HistoricalEntryIff(l: Ledger, intent: HistoricalIntent, digest: string)
    requires l.Keyed() && l.ReservedBytes() >= 0 && l.Inflight() >= 0
    requires HistoricalValid(intent) && HistoricalDecision(l, intent, true) == Decision(true, Admitted)
    ensures ReloadEntryOk(l.policy, HistoricalEntry(intent, digest)) <==> LowerHex(digest, 64)
  {
    hide Ledger.Keyed, LowerHex, HistoricalValid, Ledger.ReservedBytes, Ledger.Inflight, RecordOk, HistoricalSealed,
         Ledger.HashTaken;
    HistoricalRecordIff(intent, digest);
    HistoricalSealOk(l, intent);
  }

  lemma HistoricalRecordIff(intent: HistoricalIntent, digest: string)
    requires HistoricalValid(intent)
    ensures RecordOk(HistoricalEntry(intent, digest).reservation) <==> LowerHex(digest, 64)
  {
    HashOfHash(intent.torrentHash);
    assert Truthy(Some(intent.torrentHash)) && Truthy(Some(Upper(intent.torrentHash)));
    assert CanonicalDecimal(intent.entityIds[0]);
    assert LowerHex(digest, 64) ==> Truthy(Some(digest));
    hide Hex, Lower, Upper, SavePathOk, LowerHex, DecimalValue;
  }

  lemma HistoricalSealOk(l: Ledger, intent: HistoricalIntent)
    requires l.Keyed() && l.ReservedBytes() >= 0 && l.Inflight() >= 0
    requires HistoricalValid(intent) && HistoricalDecision(l, intent, true) == Decision(true, Admitted)
    ensures HistoricalSealed(l.policy, intent.source, intent.entityIds[0], Some(intent.torrentHash),
                             intent.expectedBytes, intent)
  {
    ProbesOnEmptyLedger(l.policy, SomePostPnr(), intent);
    assert |intent.entityIds| > 0;
    hide Ledger.Keyed, HistoricalValid, Ledger.ReservedBytes, Ledger.Inflight, Ledger.HashTaken;
  }

  function SomePostPnr(): PostPnrIntent {
    PostPnrIntent("", "", 0, "", "", "", "", 0, 0)
  }

  function SomeHistorical(): HistoricalIntent {
    HistoricalIntent("", "", 0, [], "", "", "", 0, [])
  }

  lemma AdmissionReloadIff(l: Ledger, a: Action)
    requires l.Keyed() && ReloadInv(l) && Admission(l, a).Some?
    ensures ReloadInv(Apply(l, a).value) <==> ReloadCondition(l, a)
  {
    var (op, e) := Admission(l, a).value;
    AdmissionFresh(l, a);
    AdmissionEntryIff(l, a);
    AdmissionHash(l, a);
    PutReloadIff(l, op, e);
    hide ReloadInv, ReloadEntryOk, HistoricalClash, HashElsewhere, Ledger.Keyed;
  }

  /** Deployment-authorised adoptions are refused for a hash any reservation carries. */
  lemma UntakenHash(l: Ledger, op: string, hash: string)
    requires l.Keyed() && ReloadInv(l) && !l.HashTaken(hash)
    ensures !HistoricalClash(l, op, hash) && !HashElsewhere(l.reservations.at, op, hash)
  {
    hide HistoricalHashesUnique, WatermarksOk, CloneEntryOk;
    forall k | k in l.historical
      ensures l.historical[k].torrentHash != hash
    {
      assert l.Has(k);
      assert ReloadEntryOk(l.policy, l.EntryOf(k));
      assert l.EntryOf(k).historical == Some(l.historical[k]);
      assert l.reservations.at[k].torrentHash == Some(l.historical[k].torrentHash);
    }
  }

  lemma AdmissionHash(l: Ledger, a: Action)
    requires l.Keyed() && ReloadInv(l) && Admission(l, a).Some?
    ensures var (op, e) := Admission(l, a).value;
      && (a.PreAdmit? ==> e.reservation.torrentHash.None?)
      && (a.AdoptExternal? ==>
            e.reservation.torrentHash == Some(a.external.torrentHash) && op == a.external.operationId)
      && (e.historical.Some? ==> !HashElsewhere(l.reservations.at, op, e.historical.value.torrentHash))
      && (a.AdoptPostPnr? || a.AdoptHistorical? ==> !HashClashes(l, op, e.reservation.torrentHash))
  {
    hide ReloadInv, HistoricalClash, HashElsewhere, PostPnrValid, HistoricalValid, ExternalValid, PreAdmissionValid,
         Ledger.Keyed, Ledger.HashTaken, Ledger.ReservedBytes, Ledger.Inflight;
    match a {
      case AdoptPostPnr(intent, _, _) => UntakenHash(l, intent.operationId, intent.torrentHash);
      case AdoptHistorical(intent, _, _) => UntakenHash(l, intent.operationId, intent.torrentHash);
      case _ =>
    }
  }

  /** The reload theorem for one transition: a reloadable ledger stays reloadable exactly
      under the condition a caller can read off before the call. */
  lemma ReloadApplyIff(l: Ledger, a: Action)
    requires l.Keyed() && Reload(l.policy, SnapshotOf(l)) == Ok(l) && Apply(l, a).Ok?
    ensures Apply(l, a).value.Keyed()
    ensures Reload(l.policy, SnapshotOf(Apply(l, a).value)) == Ok(Apply(l, a).value) <==> ReloadCondition(l, a)
  {
    hide Reload, SnapshotOf, ReloadInv, ReloadCondition, Apply, Ledger.Keyed;
    ReloadIff(l);
    ApplyKeyed(l, a);
    ReloadIff(Apply(l, a).value);
    ApplyKeepsPolicy(l, a);
    InvApplyIff(l, a);
  }

  lemma InvApplyIff(l: Ledger, a: Action)
    requires l.Keyed() && ReloadInv(l) && Apply(l, a).Ok?
    ensures ReloadInv(Apply(l, a).value) <==> ReloadCondition(l, a)
  {
    hide ReloadInv, EntryStep, Ledger.Keyed, ReloadCondition, Admission;
    match a {
      case Op(op, step) => OpReloadIff(l, op, step);
      case RecordWatermark(source, watermark) => FlagReload(l, a);
      case BeginQuiescence => FlagReload(l, a);
      case EndQuiescence => FlagReload(l, a);
      case _ =>
        if Admission(l, a).Some? {
          AdmissionReloadIff(l, a);
        } else {
          RefusedReload(l, a);
        }
    }
  }

  lemma RefusedReload(l: Ledger, a: Action)
    requires l.Keyed() && Admission(l, a).None?
             && (a.PreAdmit? || a.AdoptExternal? || a.AdoptPostPnr? || a.AdoptHistorical?)
    ensures Apply(l, a) == Ok(l) && ReloadCondition(l, a)
  {
    hide Admission, Ledger.Keyed;
  }

  lemma FlagReload(l: Ledger, a: Action)
    requires l.Keyed() && ReloadInv(l) && Apply(l, a).Ok?
             && (a.RecordWatermark? || a.BeginQuiescence? || a.EndQuiescence?)
    ensures ReloadInv(Apply(l, a).value) && ReloadCondition(l, a)
  {
    var next := Apply(l, a).value;
    assert WatermarksOk(next.watermarks);
    assert next == l.(watermarks := next.watermarks, quiescing := next.quiescing);
    hide Apply, ReloadInv, Ledger.Keyed;
    FlagsReload(l, next);
  }

  lemma FlagsReload(l: Ledger, m: Ledger)
    requires l.Keyed() && ReloadInv(l)
    requires m == l.(watermarks := m.watermarks, quiescing := m.quiescing) && WatermarksOk(m.watermarks)
    ensures ReloadInv(m)
  {
    hide ReloadEntryOk, HashElsewhere;
    KeyedIgnoresFlags(l, m);
    forall op | m.Has(op)
      ensures ReloadEntryOk(m.policy, m.EntryOf(op))
    {
      assert l.Has(op) && m.EntryOf(op) == l.EntryOf(op);
    }
  }

  /** A run applies its transitions in order; a raised one leaves the ledger as it was. */
  function Run(l: Ledger, actions: seq<Action>): Ledger
    requires l.Keyed()
    ensures Run(l, actions).Keyed()
    decreases |actions|
  {
    if actions == [] then l
    else
      var before := Run(l, actions[..|actions| - 1]);
      var a := actions[|actions| - 1];
      if Apply(before, a).Ok? then ApplyKeyed(before, a); Apply(before, a).value else before
  }

  /** Every transition that took effect met its condition. */
  ghost predicate RunMeetsConditions(l: Ledger, actions: seq<Action>)
    requires l.Keyed()
    decreases |actions|
  {
    actions != [] ==>
      var front := actions[..|actions| - 1];
      && RunMeetsConditions(l, front)
      && (Apply(Run(l, front), actions[|actions| - 1]).Ok? ==> ReloadCondition(Run(l, front), actions[|actions| - 1]))
  }

  /** Reload fidelity over whole runs: whatever is saved after any run that meets the
      conditions is read back as the very same ledger. */
  lemma {:induction false} RunReloads(policy: Policy, actions: seq<Action>)
    requires EmptyLedger(policy).Keyed()
    requires RunMeetsConditions(EmptyLedger(policy), actions)
    ensures var l := Run(EmptyLedger(policy), actions); l.policy == policy && Reload(policy, SnapshotOf(l)) == Ok(l)
    decreases |actions|
  {
    if actions == [] {
      ReloadIff(EmptyLedger(policy));
      assert ReloadInv(EmptyLedger(policy));
    } else {
      var front := actions[..|actions| - 1];
      RunReloads(policy, front);
      var before := Run(EmptyLedger(policy), front);
      if Apply(before, actions[|actions| - 1]).Ok? {
        ReloadApplyIff(before, actions[|actions| - 1]);
      }
    }
  }
}
