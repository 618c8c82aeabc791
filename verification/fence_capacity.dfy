/** Capacity and concurrency over whole runs of the ledger. */
module FenceCapacity {
  import opened Common
  import opened FenceEntry
  import opened FenceLedger
  import opened FenceReloadRuns

  /** Bytes by which tag observations raised the live reservations above what was requested. */
  const GrowthWeight: Entry -> int :=
    (e: Entry) => if e.reservation.Live() then e.reservation.bytesReserved - e.reservation.requestedBytes else 0

  function RequestedBytes(l: Ledger): int
    requires l.Keyed()
  {
    Total(RequestedWeight, l.Entries())
  }

  function Growth(l: Ledger): int
    requires l.Keyed()
  {
    Total(GrowthWeight, l.Entries())
  }

  /** A reservation is exactly as large as requested until its tag is observed. */
  predicate SizeOk(r: Reservation) {
    && r.bytesReserved >= r.requestedBytes > 0
    && (r.state in {PreAdmitted, GrabBound, TagIntentRecorded} ==> r.bytesReserved == r.requestedBytes)
  }

  ghost predicate CapacityInv(l: Ledger)
    requires l.Keyed()
  {
    && (forall op :: l.Has(op) ==> SizeOk(l.EntryOf(op).reservation))
    && RequestedBytes(l) <= l.policy.capacityBytes
    && l.Inflight() <= l.policy.maxInflight
  }

  lemma {:induction false} TotalUpdate(weight: Entry -> int, entries: seq<Entry>, i: nat, e: Entry)
    requires i < |entries|
    ensures Total(weight, entries[i := e]) == Total(weight, entries) - weight(entries[i]) + weight(e)
  {
    if i == 0 {
      assert entries[i := e][1..] == entries[1..];
    } else {
      assert entries[i := e][1..] == entries[1..][i - 1 := e];
      TotalUpdate(weight, entries[1..], i - 1, e);
    }
  }

  lemma {:induction false} TotalAppend(weight: Entry -> int, entries: seq<Entry>, e: Entry)
    ensures Total(weight, entries + [e]) == Total(weight, entries) + weight(e)
  {
    if entries == [] {
      assert Total(weight, [e]) == weight(e) + Total(weight, []);
    } else {
      assert (entries + [e])[1..] == entries[1..] + [e];
      TotalAppend(weight, entries[1..], e);
    }
  }

  lemma {:induction false} TotalSplits(entries: seq<Entry>)
    ensures Total(ReservedWeight, entries) == Total(RequestedWeight, entries) + Total(GrowthWeight, entries)
  {
    if entries != [] {
      TotalSplits(entries[1..]);
    }
  }

  lemma PutEntriesAt(l: Ledger, op: string, e: Entry, i: nat)
    requires l.Keyed() && l.PutEntry(op, e).Keyed()
    requires i < |l.reservations.keys| && l.reservations.keys[i] == op
    ensures l.PutEntry(op, e).Entries() == l.Entries()[i := e]
  {
    hide EntryKeyed;
    PutEntryReads(l, op, e);
    var next := l.PutEntry(op, e);
    assert next.reservations.keys == l.reservations.keys;
    forall j | 0 <= j < |l.reservations.keys|
      ensures next.Entries()[j] == l.Entries()[i := e][j]
    {
      if j != i { assert l.reservations.keys[j] != op && l.Has(l.reservations.keys[j]); }
    }
  }

  lemma PutEntriesNew(l: Ledger, op: string, e: Entry)
    requires l.Keyed() && l.PutEntry(op, e).Keyed() && !l.Has(op)
    ensures l.PutEntry(op, e).Entries() == l.Entries() + [e]
  {
    hide EntryKeyed;
    PutEntryReads(l, op, e);
    var next := l.PutEntry(op, e);
    assert next.reservations.keys == l.reservations.keys + [op];
    forall j | 0 <= j < |l.reservations.keys|
      ensures next.Entries()[j] == l.Entries()[j]
    {
      assert l.Has(l.reservations.keys[j]);
    }
  }

  /** Any sum over entries moves by what one written entry contributes. */
  lemma PutTotal(l: Ledger, op: string, e: Entry, weight: Entry -> int)
    requires l.Keyed() && EntryKeyed(op, e)
    ensures l.PutEntry(op, e).Keyed()
    ensures Total(weight, l.PutEntry(op, e).Entries())
            == Total(weight, l.Entries()) + weight(e) - (if l.Has(op) then weight(l.EntryOf(op)) else 0)
  {
    PutEntryKeyed(l, op, e);
    if l.Has(op) {
      var i :| 0 <= i < |l.reservations.keys| && l.reservations.keys[i] == op;
      PutEntriesAt(l, op, e, i);
      TotalUpdate(weight, l.Entries(), i, e);
    } else {
      PutEntriesNew(l, op, e);
      TotalAppend(weight, l.Entries(), e);
    }
    hide EntryKeyed;
  }

  function Larger(x: int, y: int): int {
    if x > y then x else y
  }

  /** No step of an operation claims new capacity, and only tagging changes a size. */
  lemma StepWeights(e: Entry, a: OpAction, quiescing: bool)
    requires SizeOk(e.reservation) && EntryStep(e, a, quiescing).Ok?
    ensures var next := EntryStep(e, a, quiescing).value;
      && SizeOk(next.reservation)
      && RequestedWeight(next) <= RequestedWeight(e)
      && InflightWeight(next) <= InflightWeight(e)
      && (!a.MarkTagged? ==>
            next.reservation.bytesReserved == e.reservation.bytesReserved && ReservedWeight(next) <= ReservedWeight(e))
      && (a.MarkTagged? ==> next.reservation.bytesReserved == Larger(a.observedBytes, e.reservation.bytesReserved))
  {
    hide LowerHex, Hex, Lower, UuidOfVersion;
  }

  lemma OpKeepsCapacity(l: Ledger, op: string, step: OpAction)
    requires l.Keyed() && CapacityInv(l) && Apply(l, Op(op, step)).Ok?
    ensures var next := Apply(l, Op(op, step)).value;
      && next.Keyed() && CapacityInv(next)
      && (!step.MarkTagged? ==> next.ReservedBytes() <= l.ReservedBytes())
  {
    hide EntryStep, SizeOk, EntryKeyed, Ledger.Keyed, Total, Ledger.Entries, ReservedWeight, RequestedWeight,
         InflightWeight, Ledger.PutEntry;
    var e := EntryStep(l.EntryOf(op), step, l.quiescing).value;
    EntryKeyedIn(l, op);
    EntryStepKeyed(op, l.EntryOf(op), step, l.quiescing);
    assert SizeOk(l.EntryOf(op).reservation);
    StepWeights(l.EntryOf(op), step, l.quiescing);
    PutTotal(l, op, e, RequestedWeight);
    PutTotal(l, op, e, InflightWeight);
    PutTotal(l, op, e, ReservedWeight);
    PutSizes(l, op, e);
    PutKeepsPolicy(l, op, e);
  }

  lemma EntryKeyedIn(l: Ledger, op: string)
    requires l.Keyed() && l.Has(op)
    ensures EntryKeyed(op, l.EntryOf(op))
  {
  }

  lemma PutKeepsPolicy(l: Ledger, op: string, e: Entry)
    ensures l.PutEntry(op, e).policy == l.policy
  {
  }

  lemma PutSizes(l: Ledger, op: string, e: Entry)
    requires forall k :: l.Has(k) ==> SizeOk(l.EntryOf(k).reservation)
    requires SizeOk(e.reservation)
    ensures forall k :: l.PutEntry(op, e).Has(k) ==> SizeOk(l.PutEntry(op, e).EntryOf(k).reservation)
  {
    hide SizeOk;
    PutEntryReads(l, op, e);
    forall k | l.PutEntry(op, e).Has(k)
      ensures SizeOk(l.PutEntry(op, e).EntryOf(k).reservation)
    {
      if k != op { assert l.Has(k); }
    }
  }

  /** What every accepted admission was checked for. */
  lemma AdmissionFits(l: Ledger, a: Action)
    requires l.Keyed() && Admission(l, a).Some?
    ensures var (op, e) := Admission(l, a).value;
      && SizeOk(e.reservation)
      && RequestedWeight(e) == ReservedWeight(e) == e.reservation.requestedBytes
      && InflightWeight(e) == 1
      && l.Inflight() < l.policy.maxInflight
      && l.ReservedBytes() + e.reservation.requestedBytes <= l.policy.capacityBytes
  {
    hide LowerHex, UuidOfVersion, SavePathOk, CanonicalDecimal, Ledger.Keyed, Ledger.HashTaken,
         Ledger.OperationForObservation, SameObservation, Lower, Upper;
  }

  lemma {:induction false} RequestedAtMostReserved(entries: seq<Entry>)
    requires forall i :: 0 <= i < |entries| ==> SizeOk(entries[i].reservation)
    ensures Total(RequestedWeight, entries) <= Total(ReservedWeight, entries)
  {
    if entries != [] {
      assert SizeOk(entries[0].reservation);
      RequestedAtMostReserved(entries[1..]);
    }
  }

  lemma AdmissionKeepsCapacity(l: Ledger, a: Action)
    requires l.Keyed() && CapacityInv(l) && Admission(l, a).Some?
    ensures var next := Apply(l, a).value; next.Keyed() && CapacityInv(next) && next.WithinCapacity()
  {
    var (op, e) := Admission(l, a).value;
    AdmissionFresh(l, a);
    AdmissionFits(l, a);
    forall i | 0 <= i < |l.Entries()|
      ensures SizeOk(l.Entries()[i].reservation)
    {
      assert l.Has(l.reservations.keys[i]);
    }
    RequestedAtMostReserved(l.Entries());
    PutTotal(l, op, e, RequestedWeight);
    PutTotal(l, op, e, InflightWeight);
    PutTotal(l, op, e, ReservedWeight);
    PutSizes(l, op, e);
    assert Apply(l, a) == Ok(l.PutEntry(op, e));
    hide Admission, SizeOk, EntryKeyed, Apply;
  }

  /** Every transition keeps the capacity invariant, and only a tag observation can push
      a ledger that was within capacity over it. */
  lemma ApplyKeepsCapacity(l: Ledger, a: Action)
    requires l.Keyed() && CapacityInv(l) && Apply(l, a).Ok?
    ensures var next := Apply(l, a).value;
      && next.Keyed() && CapacityInv(next)
      && (l.WithinCapacity() && !next.WithinCapacity() ==> a.Op? && a.step.MarkTagged?)
  {
    match a {
      case Op(op, step) => OpKeepsCapacity(l, op, step);
      case RecordWatermark(_, _) => FlagsKeepCapacity(l, Apply(l, a).value);
      case BeginQuiescence => FlagsKeepCapacity(l, Apply(l, a).value);
      case EndQuiescence => FlagsKeepCapacity(l, Apply(l, a).value);
      case _ =>
        if Admission(l, a).Some? {
          AdmissionKeepsCapacity(l, a);
        }
    }
  }

  lemma FlagsKeepCapacity(l: Ledger, m: Ledger)
    requires l.Keyed() && CapacityInv(l)
    requires m == l.(watermarks := m.watermarks, quiescing := m.quiescing)
    ensures m.Keyed() && CapacityInv(m) && m.ReservedBytes() == l.ReservedBytes()
  {
    hide SizeOk;
    KeyedIgnoresFlags(l, m);
    forall op | m.Has(op)
      ensures SizeOk(m.EntryOf(op).reservation)
    {
      assert l.Has(op);
    }
  }

  /** Conservation over whole runs: what live reservations asked for fits, no more than the
      allowed number is in flight, and anything beyond capacity is recorded size growth. */
  lemma {:induction false} RunKeepsCapacity(policy: Policy, actions: seq<Action>)
    requires policy.Valid() && EmptyLedger(policy).Keyed()
    ensures var l := Run(EmptyLedger(policy), actions);
      && CapacityInv(l)
      && l.policy == policy
      && RequestedBytes(l) <= policy.capacityBytes
      && l.Inflight() <= policy.maxInflight
      && l.ReservedBytes() == RequestedBytes(l) + Growth(l)
    decreases |actions|
  {
    var l := Run(EmptyLedger(policy), actions);
    if actions == [] {
      assert l.Entries() == [];
    } else {
      var front := actions[..|actions| - 1];
      RunKeepsCapacity(policy, front);
      var before := Run(EmptyLedger(policy), front);
      if Apply(before, actions[|actions| - 1]).Ok? {
        ApplyKeepsCapacity(before, actions[|actions| - 1]);
        ApplyKeepsPolicy(before, actions[|actions| - 1]);
      }
    }
    TotalSplits(l.Entries());
    hide CapacityInv;
  }
}
