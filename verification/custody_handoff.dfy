/** Fence and Publisher handing custody over with lost, delayed and repeated messages and
    crashes on both sides: a refinement of the custody contract. */
module CustodyHandoff {
  import opened Common
  import opened FenceEntry
  import opened FenceLedger
  import opened FenceMachine
  import opened PublisherModel
  import opened Custody

  /** Both durable states and every message ever sent.  A message stays available, so it may be
      delivered late, again, or never. */
  datatype Pair = Pair(fence: Ledger, publisher: Publications, terminals: set<TerminalMessage>,
                       receipts: set<CustodyReceipt>)

  datatype PairLabel =
    | FenceStep(action: Action)
    | SendTerminal(op: string)
    | ReceiveTerminal(terminal: TerminalMessage, replied: bool)
    | PublisherStep(op: string, progress: PublicationAction)
    | OtherIntake(publication: Publication)
    | ReceiveReceipt(receipt: CustodyReceipt)

  /** Local intakes are named by their kind. */
  function LocalId(p: Publication): string {
    (if p.provenance == Bootstrap then "bootstrap:" else "assisted:") + p.operationId
  }

  /** A process restart changes nothing durable, so it is no step of its own; a lost reply is a
      step that did not reply. */
  ghost predicate PairStep(s: Pair, lab: PairLabel, t: Pair)
    requires s.fence.Keyed()
  {
    match lab
    case FenceStep(a) =>
      !(a.Op? && a.step.AcceptCustody?) && Apply(s.fence, a).Ok? && t == s.(fence := Apply(s.fence, a).value)
    case SendTerminal(op) =>
      && s.fence.Has(op) && TerminalOf(s.fence.EntryOf(op).reservation).Ok?
      && t == s.(terminals := s.terminals + {TerminalOf(s.fence.EntryOf(op).reservation).value})
    case ReceiveTerminal(m, replied) =>
      && m in s.terminals && TerminalAdopted(s.publisher, m).Ok?
      && t == s.(publisher := TerminalAdopted(s.publisher, m).value.0,
                 receipts := if replied then s.receipts + {TerminalAdopted(s.publisher, m).value.1} else s.receipts)
    case PublisherStep(op, a) =>
      && op in s.publisher.at && PublicationStep(s.publisher.at[op], a).Ok?
      && t == s.(publisher := s.publisher.Put(op, PublicationStep(s.publisher.at[op], a).value))
    case OtherIntake(p) =>
      && p.operationId !in s.publisher.at && p.provenance != FromFence
      && p.publisherReservationId == PublisherId(p.operationId)
      && p.fenceReservationId == LocalId(p)
      && t == s.(publisher := s.publisher.Put(p.operationId, p))
    case ReceiveReceipt(receipt) =>
      && receipt in s.receipts
      && Apply(s.fence, Op(receipt.operationId,
                           AcceptCustody(receipt.fenceReservationId, receipt.publisherReservationId))).Ok?
      && t == s.(fence := Apply(s.fence,
                                Op(receipt.operationId,
                                   AcceptCustody(receipt.fenceReservationId, receipt.publisherReservationId))).value)
  }

  // Completed transfers.

  /** From completion on, a transfer only moves towards its release. */
  predicate Completing(state: ReservationState) {
    state == Terminal || state == FreezeIntentRecorded || state == QbittorrentFrozen || state == Released
  }

  /** The message a completed reservation was announced with. */
  predicate AnnouncedAs(r: Reservation, m: TerminalMessage) {
    && m.operationId == r.operationId && m.fenceReservationId == r.reservationId && m.source == r.source
    && m.upstreamId == r.upstreamId && m.mediaId == r.mediaId && m.bytesReserved == r.bytesReserved
    && r.downloadId == Some(m.downloadId)
  }

  lemma CompletedStays(e: Entry, a: OpAction, quiescing: bool)
    requires Completing(e.reservation.state) && EntryStep(e, a, quiescing).Ok?
    ensures var r := EntryStep(e, a, quiescing).value.reservation;
      && Completing(r.state)
      && r.operationId == e.reservation.operationId && r.reservationId == e.reservation.reservationId
      && r.source == e.reservation.source
      && r.upstreamId == e.reservation.upstreamId && r.mediaId == e.reservation.mediaId
      && r.bytesReserved == e.reservation.bytesReserved && r.downloadId == e.reservation.downloadId
  {
    hide LowerHex, Hex, Lower, UuidOfVersion;
  }

  /** Only a receipt releases a video transfer, and nothing takes a release back. */
  lemma ReleaseByReceiptOnly(e: Entry, a: OpAction, quiescing: bool)
    requires VideoSource(e.reservation.source) && EntryStep(e, a, quiescing).Ok? && !a.AcceptCustody?
    ensures EntryStep(e, a, quiescing).value.reservation.state == Released <==> e.reservation.state == Released
    ensures e.reservation.state == Released ==> EntryStep(e, a, quiescing).value.reservation == e.reservation
    ensures EntryStep(e, a, quiescing).value.reservation.source == e.reservation.source
  {
    hide LowerHex, Hex, Lower, UuidOfVersion;
  }

  // The invariant.

  predicate TerminalHeld(fence: Ledger, m: TerminalMessage) {
    && m.WellFormed() && fence.Has(m.operationId)
    && Completing(fence.reservations.at[m.operationId].state)
    && AnnouncedAs(fence.reservations.at[m.operationId], m)
  }

  ghost predicate TerminalsInv(fence: Ledger, terminals: set<TerminalMessage>) {
    forall m :: m in terminals ==> TerminalHeld(fence, m)
  }

  predicate PublicationBacked(p: Publication, op: string, terminals: set<TerminalMessage>) {
    && p.operationId == op && p.publisherReservationId == PublisherId(op)
    && (if p.provenance == FromFence then exists m :: m in terminals && m.operationId == op && HoldsTerminal(p, m)
        else p.fenceReservationId == LocalId(p))
  }

  predicate ReceiptBacked(publisher: Publications, receipt: CustodyReceipt) {
    && receipt.operationId in publisher.at && publisher.at[receipt.operationId].provenance == FromFence
    && receipt == ReceiptOf(publisher.at[receipt.operationId])
  }

  ghost predicate PublisherInv(publisher: Publications, terminals: set<TerminalMessage>,
                               receipts: set<CustodyReceipt>) {
    && (forall op :: op in publisher.at ==> PublicationBacked(publisher.at[op], op, terminals))
    && (forall receipt :: receipt in receipts ==> ReceiptBacked(publisher, receipt))
  }

  predicate ReleaseBacked(r: Reservation, publisher: Publications, op: string) {
    VideoSource(r.source) && r.state == Released ==>
      op in publisher.at && publisher.at[op].provenance == FromFence
      && r.publisherReservationId == Some(PublisherId(op))
  }

  ghost predicate ReleaseInv(fence: Ledger, publisher: Publications) {
    forall op :: fence.Has(op) ==> ReleaseBacked(fence.reservations.at[op], publisher, op)
  }

  ghost predicate PairInv(s: Pair) {
    s.fence.Keyed() && TerminalsInv(s.fence, s.terminals) && PublisherInv(s.publisher, s.terminals, s.receipts)
    && ReleaseInv(s.fence, s.publisher)
  }

  lemma EntryIds(l: Ledger, op: string)
    requires l.Keyed() && l.Has(op)
    ensures l.reservations.at[op].operationId == op && l.reservations.at[op].reservationId == Owner(op)
  {
    assert EntryKeyed(op, l.EntryOf(op));
  }

  lemma LocalIsNotFence(p: Publication)
    ensures LocalId(p) != Owner(p.operationId)
  {
    assert ("bootstrap:" + p.operationId)[..6] == "bootst" && ("assisted:" + p.operationId)[..6] == "assist";
    assert Owner(p.operationId)[..6] == "fence:";
  }

  /** A terminal that was adopted, now or before, holds the terminal's own reservation. */
  lemma AdoptedFromFence(s: Pair, m: TerminalMessage)
    requires PairInv(s) && m in s.terminals && TerminalAdopted(s.publisher, m).Ok?
    ensures var (after, receipt) := TerminalAdopted(s.publisher, m).value;
      && m.operationId in after.at && after.at[m.operationId].provenance == FromFence
      && PublicationBacked(after.at[m.operationId], m.operationId, s.terminals)
      && receipt == ReceiptOf(after.at[m.operationId])
      && (forall op :: op in s.publisher.at ==> op in after.at && after.at[op] == s.publisher.at[op])
      && (forall op :: op in after.at ==> op in s.publisher.at || op == m.operationId)
  {
    assert TerminalHeld(s.fence, m);
    EntryIds(s.fence, m.operationId);
    if m.operationId in s.publisher.at {
      LocalIsNotFence(s.publisher.at[m.operationId]);
      assert PublicationBacked(s.publisher.at[m.operationId], m.operationId, s.terminals);
    }
    hide Ledger.Keyed, TerminalMessage.WellFormed, ReleaseInv, TerminalsInv, TerminalHeld, LocalId;
    assert HoldsTerminal(TerminalPublication(m), m);
  }

  /** What a Fence transition other than a receipt does to a reservation it already holds. */
  lemma FenceKeeps(l: Ledger, a: Action, op: string)
    requires l.Keyed() && Apply(l, a).Ok? && !(a.Op? && a.step.AcceptCustody?) && l.Has(op)
    ensures Apply(l, a).value.Has(op)
    ensures var before, after := l.reservations.at[op], Apply(l, a).value.reservations.at[op];
      && (Completing(before.state) ==>
            Completing(after.state) && forall m :: AnnouncedAs(before, m) ==> AnnouncedAs(after, m))
      && after.source == before.source
      && (VideoSource(before.source) ==> (after.state == Released <==> before.state == Released))
      && (VideoSource(before.source) && before.state == Released ==> after == before)
  {
    var next := Apply(l, a).value;
    var e := l.EntryOf(op);
    assert e.reservation == l.reservations.at[op];
    if a.Op? && a.op == op {
      var after := EntryStep(e, a.step, l.quiescing).value;
      if VideoSource(e.reservation.source) {
        ReleaseByReceiptOnly(e, a.step, l.quiescing);
      }
      SourceKept(e, a.step, l.quiescing);
      if Completing(e.reservation.state) {
        CompletedStays(e, a.step, l.quiescing);
      }
      hide EntryStep, Ledger.Keyed;
      assert next.reservations.at[op] == after.reservation;
    } else {
      ApplyFrame(l, a, op);
      hide Apply, Ledger.Keyed;
      assert next.EntryOf(op).reservation == next.reservations.at[op];
    }
  }

  lemma SourceKept(e: Entry, a: OpAction, quiescing: bool)
    requires EntryStep(e, a, quiescing).Ok?
    ensures EntryStep(e, a, quiescing).value.reservation.source == e.reservation.source
  {
    hide LowerHex, Hex, Lower, UuidOfVersion;
  }

  /** A new operation is never released. */
  lemma FenceAdds(l: Ledger, a: Action, op: string)
    requires l.Keyed() && Apply(l, a).Ok? && Apply(l, a).value.Has(op) && !l.Has(op)
    ensures BeforeTag(Apply(l, a).value.reservations.at[op].state)
  {
    if a.Op? {
      PutEntryReads(l, a.op, EntryStep(l.EntryOf(a.op), a.step, l.quiescing).value);
    }
    CommitElsewhere(l, a, op);
    hide Apply, Ledger.Keyed;
    assert Apply(l, a).value.EntryOf(op).reservation == Apply(l, a).value.reservations.at[op];
  }

  lemma FenceStepKeepsInv(s: Pair, a: Action, t: Pair)
    requires PairInv(s) && PairStep(s, FenceStep(a), t)
    ensures PairInv(t)
  {
    ApplyKeyed(s.fence, a);
    forall m | m in t.terminals
      ensures TerminalHeld(t.fence, m)
    {
      assert TerminalHeld(s.fence, m);
      FenceKeeps(s.fence, a, m.operationId);
      hide Apply, Ledger.Keyed, TerminalMessage.WellFormed;
    }
    forall op | t.fence.Has(op)
      ensures ReleaseBacked(t.fence.reservations.at[op], t.publisher, op)
    {
      if s.fence.Has(op) {
        assert ReleaseBacked(s.fence.reservations.at[op], s.publisher, op);
        FenceKeeps(s.fence, a, op);
      } else {
        FenceAdds(s.fence, a, op);
      }
      hide Apply, Ledger.Keyed;
    }
    hide Apply, Ledger.Keyed, TerminalHeld, PublisherInv, ReleaseBacked;
  }

  lemma MoreTerminals(publisher: Publications, terminals: set<TerminalMessage>, receipts: set<CustodyReceipt>,
                      m: TerminalMessage)
    requires PublisherInv(publisher, terminals, receipts)
    ensures PublisherInv(publisher, terminals + {m}, receipts)
  {
    forall op | op in publisher.at
      ensures PublicationBacked(publisher.at[op], op, terminals + {m})
    {
      assert PublicationBacked(publisher.at[op], op, terminals);
    }
  }

  lemma SendKeepsInv(s: Pair, op: string, t: Pair)
    requires PairInv(s) && PairStep(s, SendTerminal(op), t)
    ensures PairInv(t)
  {
    EntryIds(s.fence, op);
    var m := TerminalOf(s.fence.EntryOf(op).reservation).value;
    assert s.fence.EntryOf(op).reservation == s.fence.reservations.at[op];
    assert TerminalHeld(s.fence, m);
    MoreTerminals(s.publisher, s.terminals, s.receipts, m);
    hide Ledger.Keyed, TerminalHeld, PublisherInv, ReleaseInv, TerminalOf;
  }

  lemma ReceiveKeepsInv(s: Pair, m: TerminalMessage, replied: bool, t: Pair)
    requires PairInv(s) && PairStep(s, ReceiveTerminal(m, replied), t)
    ensures PairInv(t)
  {
    AdoptedFromFence(s, m);
    hide Ledger.Keyed, TerminalAdopted, TerminalsInv, PublicationBacked;
    forall receipt | receipt in t.receipts
      ensures ReceiptBacked(t.publisher, receipt)
    {
      if receipt in s.receipts {
        assert ReceiptBacked(s.publisher, receipt);
      } else {
        assert PublicationBacked(t.publisher.at[m.operationId], m.operationId, s.terminals);
        BackedId(t.publisher.at[m.operationId], m.operationId, s.terminals);
      }
    }
    forall op | t.fence.Has(op)
      ensures ReleaseBacked(t.fence.reservations.at[op], t.publisher, op)
    {
      assert ReleaseBacked(s.fence.reservations.at[op], s.publisher, op);
    }
    hide ReleaseBacked, ReceiptBacked;
  }

  lemma BackedId(p: Publication, op: string, terminals: set<TerminalMessage>)
    requires PublicationBacked(p, op, terminals)
    ensures p.operationId == op && p.publisherReservationId == PublisherId(op)
  {
  }

  lemma ProgressKeepsInv(s: Pair, op: string, a: PublicationAction, t: Pair)
    requires PairInv(s) && PairStep(s, PublisherStep(op, a), t)
    ensures PairInv(t)
  {
    StepKeepsCustody(s.publisher.at[op], a);
    var next := PublicationStep(s.publisher.at[op], a).value;
    hide PublicationStep, Ledger.Keyed, TerminalsInv;
    forall k | k in t.publisher.at
      ensures PublicationBacked(t.publisher.at[k], k, t.terminals)
    {
      assert PublicationBacked(s.publisher.at[k], k, s.terminals);
      BackingFollowsCustody(s.publisher.at[k], t.publisher.at[k], k, s.terminals);
    }
    hide PublicationBacked;
    forall receipt | receipt in t.receipts
      ensures ReceiptBacked(t.publisher, receipt)
    {
      assert ReceiptBacked(s.publisher, receipt);
    }
    forall k | t.fence.Has(k)
      ensures ReleaseBacked(t.fence.reservations.at[k], t.publisher, k)
    {
      assert ReleaseBacked(s.fence.reservations.at[k], s.publisher, k);
    }
    hide ReleaseBacked, ReceiptBacked;
  }

  lemma BackingFollowsCustody(p: Publication, q: Publication, op: string, terminals: set<TerminalMessage>)
    requires PublicationBacked(p, op, terminals) && (q == p || q.SameCustody(p))
    ensures PublicationBacked(q, op, terminals)
  {
    if p.provenance == FromFence {
      var m :| m in terminals && m.operationId == op && HoldsTerminal(p, m);
      assert HoldsTerminal(q, m);
    }
  }

  lemma IntakeKeepsInv(s: Pair, p: Publication, t: Pair)
    requires PairInv(s) && PairStep(s, OtherIntake(p), t)
    ensures PairInv(t)
  {
    hide Ledger.Keyed, TerminalsInv;
    assert PublicationBacked(p, p.operationId, t.terminals);
    hide PublicationBacked;
    forall receipt | receipt in t.receipts
      ensures ReceiptBacked(t.publisher, receipt)
    {
      assert ReceiptBacked(s.publisher, receipt);
    }
    forall k | t.fence.Has(k)
      ensures ReleaseBacked(t.fence.reservations.at[k], t.publisher, k)
    {
      assert ReleaseBacked(s.fence.reservations.at[k], s.publisher, k);
    }
    hide ReleaseBacked, ReceiptBacked;
  }

  /** What an accepted receipt does to the ledger. */
  lemma CustodyAppliedTo(l: Ledger, op: string, fenceReservationId: string, publisherReservationId: string)
    requires l.Keyed() && Apply(l, Op(op, AcceptCustody(fenceReservationId, publisherReservationId))).Ok?
    ensures var next := Apply(l, Op(op, AcceptCustody(fenceReservationId, publisherReservationId))).value;
      && next.Keyed() && l.Has(op) && next.reservations.at.Keys == l.reservations.at.Keys
      && Completing(l.reservations.at[op].state) && fenceReservationId == l.reservations.at[op].reservationId
      && next.reservations.at == l.reservations.at[op :=
         l.reservations.at[op].(state := Released, publisherReservationId := Some(publisherReservationId))]
  {
    ApplyKeyed(l, Op(op, AcceptCustody(fenceReservationId, publisherReservationId)));
    var e := l.EntryOf(op);
    assert e.reservation == l.reservations.at[op];
    CustodyEntry(e, fenceReservationId, publisherReservationId);
    hide Ledger.Keyed, CustodyAccepted;
  }

  lemma CustodyEntry(e: Entry, fenceReservationId: string, publisherReservationId: string)
    requires CustodyAccepted(e, fenceReservationId, publisherReservationId).Ok?
    ensures Completing(e.reservation.state) && fenceReservationId == e.reservation.reservationId
    ensures CustodyAccepted(e, fenceReservationId, publisherReservationId).value
            == e.(reservation := e.reservation.(state := Released,
                                                publisherReservationId := Some(publisherReservationId)))
  {
  }

  /** An accepted receipt releases its operation and touches nothing else. */
  lemma ReceiptEffect(s: Pair, receipt: CustodyReceipt, t: Pair)
    requires PairInv(s) && PairStep(s, ReceiveReceipt(receipt), t)
    ensures t.fence.Keyed() && t.publisher == s.publisher && t.terminals == s.terminals && t.receipts == s.receipts
    ensures var op := receipt.operationId;
      && s.fence.Has(op) && Completing(s.fence.reservations.at[op].state)
      && op in s.publisher.at && s.publisher.at[op].provenance == FromFence
      && receipt == CustodyReceipt(op, Owner(op), PublisherId(op))
      && t.fence.reservations.at == s.fence.reservations.at[op :=
         s.fence.reservations.at[op].(state := Released, publisherReservationId := Some(PublisherId(op)))]
  {
    CustodyAppliedTo(s.fence, receipt.operationId, receipt.fenceReservationId, receipt.publisherReservationId);
    ReceiptNames(s, receipt);
    hide Ledger.Keyed, Apply, PairInv, Owner, PublisherId;
  }

  /** A receipt on its way names the one reservation of each side. */
  lemma ReceiptNames(s: Pair, receipt: CustodyReceipt)
    requires PairInv(s) && receipt in s.receipts
    ensures receipt.operationId in s.publisher.at && s.publisher.at[receipt.operationId].provenance == FromFence
    ensures receipt == CustodyReceipt(receipt.operationId, Owner(receipt.operationId), PublisherId(receipt.operationId))
  {
    var op := receipt.operationId;
    assert ReceiptBacked(s.publisher, receipt) && PublicationBacked(s.publisher.at[op], op, s.terminals);
    var m :| m in s.terminals && m.operationId == op && HoldsTerminal(s.publisher.at[op], m);
    assert TerminalHeld(s.fence, m);
    EntryIds(s.fence, op);
    hide Ledger.Keyed;
  }

  predicate ReleasedIn(before: Ledger, after: Ledger, op: string) {
    && before.Has(op) && Completing(before.reservations.at[op].state)
    && after.reservations.at == before.reservations.at[op :=
       before.reservations.at[op].(state := Released, publisherReservationId := Some(PublisherId(op)))]
  }

  lemma ReleaseKeepsTerminal(before: Ledger, after: Ledger, op: string, m: TerminalMessage)
    requires ReleasedIn(before, after, op) && TerminalHeld(before, m)
    ensures TerminalHeld(after, m)
  {
    hide TerminalMessage.WellFormed, PublisherId;
  }

  lemma ReleaseKeepsBacked(before: Ledger, after: Ledger, op: string, publisher: Publications, k: string)
    requires ReleasedIn(before, after, op) && op in publisher.at && publisher.at[op].provenance == FromFence
    requires after.Has(k) && (before.Has(k) ==> ReleaseBacked(before.reservations.at[k], publisher, k))
    ensures ReleaseBacked(after.reservations.at[k], publisher, k)
  {
    hide PublisherId;
  }

  lemma ReleaseKeepsInv(s: Pair, receipt: CustodyReceipt, t: Pair)
    requires PairInv(s) && PairStep(s, ReceiveReceipt(receipt), t)
    ensures PairInv(t)
  {
    hide Ledger.Keyed, PublisherInv, TerminalHeld, ReleaseBacked, Apply;
    ReceiptEffect(s, receipt, t);
    hide PairStep;
    assert ReleasedIn(s.fence, t.fence, receipt.operationId);
    hide ReleasedIn;
    forall m | m in t.terminals
      ensures TerminalHeld(t.fence, m)
    {
      ReleaseKeepsTerminal(s.fence, t.fence, receipt.operationId, m);
    }
    forall op | t.fence.Has(op)
      ensures ReleaseBacked(t.fence.reservations.at[op], t.publisher, op)
    {
      ReleaseKeepsBacked(s.fence, t.fence, receipt.operationId, s.publisher, op);
    }
  }

  lemma PairStepKeepsInv(s: Pair, lab: PairLabel, t: Pair)
    requires PairInv(s) && PairStep(s, lab, t)
    ensures PairInv(t)
  {
    hide PairInv, PairStep;
    match lab {
      case FenceStep(a) => FenceStepKeepsInv(s, a, t);
      case SendTerminal(op) => SendKeepsInv(s, op, t);
      case ReceiveTerminal(m, replied) => ReceiveKeepsInv(s, m, replied, t);
      case PublisherStep(op, a) => ProgressKeepsInv(s, op, a, t);
      case OtherIntake(p) => IntakeKeepsInv(s, p, t);
      case ReceiveReceipt(receipt) => ReleaseKeepsInv(s, receipt, t);
    }
  }

  // The refinement.

  predicate AnnouncedTo(terminals: set<TerminalMessage>, op: string) {
    exists m :: m in terminals && m.operationId == op
  }

  /** The contract's view of one operation. */
  function Abstract(s: Pair, op: string): Handoff {
    Handoff(
      op, Owner(op),
      AnnouncedTo(s.terminals, op),
      !(s.fence.Has(op) && s.fence.reservations.at[op].state == Released),
      if op in s.publisher.at && s.publisher.at[op].provenance == FromFence then Some(PublisherId(op)) else None)
  }

  /** Whether the operation is, or could become, a video acquisition. */
  predicate MaybeVideo(s: Pair, op: string) {
    s.fence.Has(op) ==> VideoSource(s.fence.reservations.at[op].source)
  }

  ghost predicate Refined(s: Pair, t: Pair, op: string) {
    Abstract(t, op) == Abstract(s, op) || Transition(Abstract(s, op), Abstract(t, op))
  }

  /** Each step of the pair is, for each video operation, no step or one step of the contract. */
  lemma Refines(s: Pair, lab: PairLabel, t: Pair, op: string)
    requires PairInv(s) && PairStep(s, lab, t) && MaybeVideo(s, op)
    ensures Refined(s, t, op)
  {
    hide PairInv, PairStep, Refined, MaybeVideo;
    match lab {
      case FenceStep(a) => FenceRefines(s, a, t, op);
      case SendTerminal(k) => SendRefines(s, k, t, op);
      case ReceiveTerminal(m, replied) => ReceiveRefines(s, m, replied, t, op);
      case PublisherStep(k, a) => ProgressRefines(s, k, a, t, op);
      case OtherIntake(p) => IntakeRefines(s, p, t, op);
      case ReceiveReceipt(receipt) => ReceiptRefines(s, receipt, t, op);
    }
  }

  lemma FenceRefines(s: Pair, a: Action, t: Pair, op: string)
    requires PairInv(s) && PairStep(s, FenceStep(a), t) && MaybeVideo(s, op)
    ensures Refined(s, t, op)
  {
    if s.fence.Has(op) {
      FenceKeeps(s.fence, a, op);
    } else if t.fence.Has(op) {
      FenceAdds(s.fence, a, op);
    }
    hide Ledger.Keyed, Apply, PairInv, AnnouncedTo, Transition;
  }

  lemma ProgressRefines(s: Pair, k: string, a: PublicationAction, t: Pair, op: string)
    requires PairInv(s) && PairStep(s, PublisherStep(k, a), t)
    ensures Refined(s, t, op)
  {
    hide Ledger.Keyed, PublicationStep, PairInv, AnnouncedTo, Transition;
    StepKeepsCustody(s.publisher.at[k], a);
  }

  lemma IntakeRefines(s: Pair, p: Publication, t: Pair, op: string)
    requires PairInv(s) && PairStep(s, OtherIntake(p), t)
    ensures Refined(s, t, op)
  {
    hide Ledger.Keyed, PairInv, AnnouncedTo, Transition;
  }

  lemma SendRefines(s: Pair, k: string, t: Pair, op: string)
    requires PairInv(s) && PairStep(s, SendTerminal(k), t)
    ensures Refined(s, t, op)
  {
    hide Ledger.Keyed, Apply, TerminalAdopted;
    var m := TerminalOf(s.fence.EntryOf(k).reservation).value;
    EntryIds(s.fence, k);
    assert s.fence.EntryOf(k).reservation == s.fence.reservations.at[k];
    assert m.operationId == k && m in t.terminals && s.fence.reservations.at[k].state != Released;
    hide PairInv, TerminalMessage.WellFormed, TerminalOf;
    assert AnnouncedTo(t.terminals, op) <==> AnnouncedTo(s.terminals, op) || op == k;
    if op == k && !AnnouncedTo(s.terminals, op) {
      assert Announced(Abstract(s, op)) == Ok(Abstract(t, op));
    }
  }

  lemma ReceiveRefines(s: Pair, m: TerminalMessage, replied: bool, t: Pair, op: string)
    requires PairInv(s) && PairStep(s, ReceiveTerminal(m, replied), t) && MaybeVideo(s, op)
    ensures Refined(s, t, op)
  {
    hide Ledger.Keyed, TerminalAdopted, Apply;
    AdoptedFromFence(s, m);
    if op == m.operationId && op !in s.publisher.at {
      assert TerminalHeld(s.fence, m);
      assert ReleaseBacked(s.fence.reservations.at[op], s.publisher, op);
      assert AnnouncedTo(s.terminals, op);
      assert Reserved(Abstract(s, op), PublisherId(op)) == Ok(Abstract(t, op));
    }
    hide PairInv, Transition, AnnouncedTo;
  }

  lemma ReceiptRefines(s: Pair, receipt: CustodyReceipt, t: Pair, op: string)
    requires PairInv(s) && PairStep(s, ReceiveReceipt(receipt), t)
    ensures Refined(s, t, op)
  {
    hide PairStep, PairInv, Refined;
    ReceiptEffect(s, receipt, t);
    ReleaseRefines(s, receipt, t, op);
  }

  lemma ReleaseRefines(s: Pair, receipt: CustodyReceipt, t: Pair, op: string)
    requires t.publisher == s.publisher && t.terminals == s.terminals
    requires ReleasedIn(s.fence, t.fence, receipt.operationId)
    requires receipt.operationId in s.publisher.at && s.publisher.at[receipt.operationId].provenance == FromFence
    requires receipt
             == CustodyReceipt(receipt.operationId, Owner(receipt.operationId), PublisherId(receipt.operationId))
    ensures Refined(s, t, op)
  {
    hide AnnouncedTo, Owner, PublisherId, Transition;
    if op == receipt.operationId {
      AcceptedAbstractly(Abstract(s, op), receipt);
      assert Abstract(t, op) == Abstract(s, op).(fenceActive := false);
    } else {
      assert Abstract(t, op) == Abstract(s, op);
    }
  }

  lemma AcceptedAbstractly(h: Handoff, receipt: CustodyReceipt)
    requires h.publisherReservationId.Some?
             && receipt == CustodyReceipt(h.operationId, h.fenceReservationId, h.publisherReservationId.value)
    ensures Transition(h, h.(fenceActive := false))
  {
    assert Accepted(h, receipt) == Ok(h.(fenceActive := false));
  }

  // Whole runs.

  ghost predicate PairNext(s: Pair, t: Pair) {
    s.fence.Keyed() && exists lab :: PairStep(s, lab, t)
  }

  ghost predicate PairRun(policy: Policy, run: seq<Pair>) {
    && run != [] && run[0] == Pair(EmptyLedger(policy), EmptyDict(), {}, {})
    && forall i :: 0 < i < |run| ==> PairNext(run[i - 1], run[i])
  }

  lemma {:induction false} PairAlways(policy: Policy, run: seq<Pair>, i: nat)
    requires PairRun(policy, run) && i < |run|
    ensures PairInv(run[i])
  {
    if i > 0 {
      hide PairStep, PairInv, Ledger.Keyed;
      PairAlways(policy, run, i - 1);
      assert PairNext(run[i - 1], run[i]);
      var lab :| PairStep(run[i - 1], lab, run[i]);
      PairStepKeepsInv(run[i - 1], lab, run[i]);
    } else {
      EmptyLedgerKeyedHere(policy);
    }
  }

  lemma EmptyLedgerKeyedHere(policy: Policy)
    ensures EmptyLedger(policy).Keyed()
  {
  }

  /** The terminal of an operation never changes: any two ever sent are the same message. */
  lemma TerminalIsStable(policy: Policy, run: seq<Pair>, i: nat, a: TerminalMessage, b: TerminalMessage)
    requires PairRun(policy, run) && i < |run|
    requires a in run[i].terminals && b in run[i].terminals && a.operationId == b.operationId
    ensures a == b
  {
    PairAlways(policy, run, i);
    assert TerminalHeld(run[i].fence, a) && TerminalHeld(run[i].fence, b);
    hide PairRun, PairInv, TerminalMessage.WellFormed;
  }

  /** Custody has no gap: an announced acquisition is held by Fence, or durably by the Publisher
      under the announced identity, and it is released only in the second case. */
  lemma CustodyNeverLost(policy: Policy, run: seq<Pair>, i: nat, op: string)
    requires PairRun(policy, run) && i < |run| && run[i].fence.Has(op)
             && VideoSource(run[i].fence.reservations.at[op].source)
    ensures run[i].fence.reservations.at[op].state == Released ==>
      && op in run[i].publisher.at && run[i].publisher.at[op].provenance == FromFence
      && exists m ::
           && m in run[i].terminals && AnnouncedAs(run[i].fence.reservations.at[op], m)
           && HoldsTerminal(run[i].publisher.at[op], m)
    ensures HandoffInv(Abstract(run[i], op))
  {
    PairAlways(policy, run, i);
    var s := run[i];
    assert ReleaseBacked(s.fence.reservations.at[op], s.publisher, op);
    hide PairRun, Ledger.Keyed, TerminalMessage.WellFormed, ReleaseInv;
    if op in s.publisher.at && s.publisher.at[op].provenance == FromFence {
      assert PublicationBacked(s.publisher.at[op], op, s.terminals);
      var m :| m in s.terminals && m.operationId == op && HoldsTerminal(s.publisher.at[op], m);
      assert TerminalHeld(s.fence, m);
      assert AnnouncedTo(s.terminals, op);
    }
  }
}
