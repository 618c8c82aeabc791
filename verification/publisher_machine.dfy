/** Publication of asset generations as a machine over durable records, per-slot pointers and
    generation directories, and what holds wherever a run is interrupted. */
module PublisherMachine {
  import opened Common
  import opened PublisherModel
  import opened FenceEntry

  /** The pointer of one asset slot and the complete generations kept for it. */
  datatype Slot = Slot(visible: Option<string>, generations: set<string>)

  /** What a catalog item must prove before delivery; `known` is the item it has to be, if any. */
  datatype Expectation = Expectation(library: string, path: string, itemType: ItemType,
                                     providerIds: map<string, string>, bytes: int, known: Option<string>)

  /** What was sent to the catalog for an operation, and what the catalog answered. */
  datatype CatalogEvent =
    | Submitted(op: string, path: string, modified: bool)
    | Showed(expected: Expectation, item: string, mediaSource: string)
    | Played(item: string, mediaSource: string, path: string, bytes: int, sha256: string)

  /** `history` lists every generation the pointer of a slot ever named, in order, and `catalog`
      everything that passed between the Publisher and the catalog. */
  datatype Library = Library(publications: Publications, slots: map<string, Slot>, history: map<string, seq<string>>,
                             catalog: seq<CatalogEvent>)

  datatype LibraryLabel =
    | Progress(op: string, step: PublicationAction)
    | Intake(publication: Publication)
    | Intend(op: string)
    | Prepare(op: string)
    | Swap(op: string)
    | Commit(op: string)
    | Collect(slot: string, left: set<string>)
    | Exchange(event: CatalogEvent)

  function SlotOf(slots: map<string, Slot>, slot: string): Slot {
    if slot in slots then slots[slot] else Slot(None, {})
  }

  function PointedAt(history: map<string, seq<string>>, slot: string): seq<string> {
    if slot in history then history[slot] else []
  }

  /** Another publication of the slot is not yet delivered. */
  predicate Unresolved(d: Publications, slot: string, op: string) {
    exists other ::
      other in d.at && other != op && d.at[other].assetSlot == Some(slot) && d.at[other].state != Delivered
  }

  predicate InFlightIn(d: Publications, op: string, slot: string) {
    op in d.at && d.at[op].InFlight() && d.at[op].assetSlot == Some(slot)
  }

  /** The generations of undelivered publications and the predecessors they replace. */
  predicate Retained(d: Publications, slot: string, generation: string) {
    exists op :: op in d.at && d.at[op].assetSlot == Some(slot) && d.at[op].state != Delivered
      && (d.at[op].generationId == Some(generation)
          || (d.at[op].generationId.Some? && d.at[op].previousGenerationId == Some(generation)))
  }

  /** A delivered publication of the slot, other than this one, is known as this item. */
  predicate Names(d: Publications, slot: string, op: string, item: string) {
    exists other :: other in d.at && other != op && DeliveredAs(d.at[other], slot, item)
  }

  predicate DeliveredAs(p: Publication, slot: string, item: string) {
    p.assetSlot == Some(slot) && p.state == Delivered && p.catalogItemId == Some(item)
  }

  /** The item expected is the one that the slot was delivered as, else the one seen before for
      this publication.  A slot delivered as several items expects none. */
  ghost predicate Expects(d: Publications, slot: string, op: string, own: Option<string>, known: Option<string>) {
    && (forall item :: Names(d, slot, op, item) ==> known == Some(item))
    && (known.Some? && !Names(d, slot, op, known.value) ==> own == known)
    && (known.None? ==> own.None?)
  }

  /** The expectation is that of this publication. */
  predicate Matches(p: Publication, e: Expectation) {
    && p.catalogLibraryId == Some(e.library) && p.expectedCatalogPath == Some(e.path)
    && p.itemType == Some(e.itemType) && p.providerIds == e.providerIds
    && p.candidate.Some? && p.candidate.value.bytes == e.bytes
  }

  /** The catalog showed this item for this publication. */
  predicate Shows(p: Publication, event: CatalogEvent, item: string, mediaSource: string) {
    event.Showed? && event.item == item && event.mediaSource == mediaSource && Matches(p, event.expected)
  }

  /** The catalog played the item of this publication as exactly its sealed payload. */
  predicate Plays(p: Publication, event: CatalogEvent) {
    && event.Played? && p.catalogItemId == Some(event.item) && p.catalogMediaSourceId == Some(event.mediaSource)
    && p.expectedCatalogPath == Some(event.path) && p.candidate.Some?
    && p.candidate.value.bytes == event.bytes && p.candidate.value.sha256 == event.sha256
  }

  /** What the catalog must just have answered for a transition to be recorded. */
  ghost predicate Evidenced(s: Library, op: string, a: PublicationAction)
    requires op in s.publications.at
  {
    var p := s.publications.at[op];
    match a
    case ObserveCatalog(item, mediaSource) =>
      && s.catalog != [] && p.assetSlot.Some?
      && var last := s.catalog[|s.catalog| - 1];
         && Shows(p, last, item, mediaSource)
         && Expects(s.publications, p.assetSlot.value, op, p.catalogItemId, last.expected.known)
    case Deliver => s.catalog != [] && Plays(p, s.catalog[|s.catalog| - 1])
    case _ => true
  }

  /** An update is sent only after its attempt is durable, and an item shown is the one expected. */
  predicate MayExchange(s: Library, event: CatalogEvent) {
    match event
    case Submitted(op, path, modified) =>
      && Attempted(s.publications, op) && s.publications.at[op].state == CatalogPending
      && s.publications.at[op].expectedCatalogPath == Some(path)
      && modified == s.publications.at[op].previousGenerationId.Some?
    case Showed(e, item, _) => e.known.Some? ==> e.known.value == item
    case Played(_, _, _, _, _) => true
  }

  predicate Attempted(d: Publications, op: string) {
    op in d.at && d.at[op].notificationAttempted
  }

  predicate Writing(s: Library, op: string) {
    op in s.publications.at && s.publications.at[op].state == GenerationIntent && s.publications.at[op].assetSlot.Some?
  }

  ghost predicate LibraryStep(s: Library, lab: LibraryLabel, t: Library) {
    match lab
    case Progress(op, a) =>
      && !a.RecordIntent? && !a.CommitGeneration? && op in s.publications.at && Evidenced(s, op, a)
      && PublicationStep(s.publications.at[op], a).Ok?
      && t == s.(publications := s.publications.Put(op, PublicationStep(s.publications.at[op], a).value))
    case Intake(p) =>
      && p.operationId !in s.publications.at && p.publisherReservationId == PublisherId(p.operationId)
      && !p.HasGeneration() && p.generationId.None? && p.previousGenerationId.None?
      && p.catalogItemId.None? && !p.notificationAttempted
      && t == s.(publications := s.publications.Put(p.operationId, p))
    case Intend(op) =>
      && op in s.publications.at && s.publications.at[op].assetSlot.Some?
      && !Unresolved(s.publications, s.publications.at[op].assetSlot.value, op)
      && var visible := SlotOf(s.slots, s.publications.at[op].assetSlot.value).visible;
         var intended := PublicationStep(s.publications.at[op], RecordIntent(visible));
         intended.Ok? && t == s.(publications := s.publications.Put(op, intended.value))
    case Prepare(op) =>
      && Writing(s, op)
      && var slot := s.publications.at[op].assetSlot.value;
         var kept := SlotOf(s.slots, slot);
         t == s.(slots := s.slots[slot := kept.(generations := kept.generations + {op})])
    case Swap(op) =>
      && Writing(s, op)
      && var slot := s.publications.at[op].assetSlot.value;
         && SlotOf(s.slots, slot).visible == s.publications.at[op].previousGenerationId
         && op in SlotOf(s.slots, slot).generations
         && t == s.(slots := s.slots[slot := SlotOf(s.slots, slot).(visible := Some(op))],
                    history := s.history[slot := PointedAt(s.history, slot) + [op]])
    case Commit(op) =>
      && Writing(s, op) && SlotOf(s.slots, s.publications.at[op].assetSlot.value).visible == Some(op)
      && t == s.(publications := s.publications.Put(op, s.publications.at[op].(state := CatalogPending)))
    case Collect(slot, left) =>
      && left <= SlotOf(s.slots, slot).generations
      && (forall g ::
            (&& g in SlotOf(s.slots, slot).generations
             && (Retained(s.publications, slot, g) || SlotOf(s.slots, slot).visible == Some(g))) ==> g in left)
      && t == s.(slots := s.slots[slot := SlotOf(s.slots, slot).(generations := left)])
    case Exchange(event) => MayExchange(s, event) && t == s.(catalog := s.catalog + [event])
  }

  // The invariant.

  predicate RecordOk(p: Publication, op: string) {
    && p.operationId == op && p.publisherReservationId == PublisherId(op)
    && (if p.HasGeneration() then p.generationId == Some(op) && p.assetSlot.Some? && p.previousGenerationId != Some(op)
        else p.generationId.None? && p.previousGenerationId.None?)
    && (p.state == Delivered ==> p.previousGenerationId.None?)
  }

  /** During the intent the slot shows the predecessor or the new generation, afterwards the new
      one; the predecessor is still there to return readers to. */
  predicate PublicationSafe(p: Publication, slot: Slot) {
    && (p.state == GenerationIntent ==> slot.visible == p.previousGenerationId || slot.visible == Some(p.operationId))
    && (p.state == CatalogPending ==> slot.visible == Some(p.operationId))
    && (p.previousGenerationId.Some? ==> p.previousGenerationId.value in slot.generations)
  }

  predicate Distinct(s: seq<string>) {
    forall i, j :: 0 <= i < j < |s| ==> s[i] != s[j]
  }

  /** A slot shows the last generation of its history, which exists. */
  predicate SlotOk(slot: Slot, history: seq<string>) {
    && Distinct(history)
    && slot.visible == (if history == [] then None else Some(history[|history| - 1]))
    && (slot.visible.Some? ==> slot.visible.value in slot.generations)
  }

  /** A generation in the history of a slot was published there, and is the visible one while
      its intent is still open. */
  predicate HistoryBacked(d: Publications, slot: string, g: string, visible: Option<string>) {
    && g in d.at && d.at[g].HasGeneration() && d.at[g].assetSlot == Some(slot)
    && (d.at[g].state == GenerationIntent ==> visible == Some(g))
  }

  ghost predicate RecordsInv(d: Publications) {
    d.Valid() && forall op :: op in d.at ==> RecordOk(d.at[op], op)
  }

  ghost predicate ExclusiveInv(d: Publications) {
    forall a, b, slot :: InFlightIn(d, a, slot) && InFlightIn(d, b, slot) ==> a == b
  }

  ghost predicate SafeInv(d: Publications, slots: map<string, Slot>) {
    forall op, slot :: InFlightIn(d, op, slot) ==> PublicationSafe(d.at[op], SlotOf(slots, slot))
  }

  ghost predicate SlotsInv(slots: map<string, Slot>, history: map<string, seq<string>>) {
    forall slot :: SlotOk(SlotOf(slots, slot), PointedAt(history, slot))
  }

  ghost predicate HistoryInv(d: Publications, slots: map<string, Slot>, history: map<string, seq<string>>) {
    forall slot, g :: g in PointedAt(history, slot) ==> HistoryBacked(d, slot, g, SlotOf(slots, slot).visible)
  }

  ghost predicate LibraryInv(s: Library) {
    && RecordsInv(s.publications) && ExclusiveInv(s.publications) && SafeInv(s.publications, s.slots)
    && SlotsInv(s.slots, s.history) && HistoryInv(s.publications, s.slots, s.history)
  }

  // Preservation.

  lemma StepKeepsRecord(p: Publication, op: string, a: PublicationAction)
    requires RecordOk(p, op) && PublicationStep(p, a).Ok? && (a.RecordIntent? ==> p.assetSlot.Some?)
    ensures RecordOk(PublicationStep(p, a).value, op)
  {
    hide LowerHex, UuidOfVersion, Split;
  }

  /** Apart from intent and commit, a transition keeps the slot of a generation and its stage,
      or delivers it. */
  lemma ProgressKeepsStage(p: Publication, op: string, a: PublicationAction)
    requires RecordOk(p, op) && PublicationStep(p, a).Ok? && !a.RecordIntent? && !a.CommitGeneration?
    ensures var q := PublicationStep(p, a).value;
      && (q.HasGeneration() <==> p.HasGeneration())
      && (p.HasGeneration() ==> q.assetSlot == p.assetSlot)
      && (q.state == GenerationIntent <==> p.state == GenerationIntent)
      && (q.InFlight() ==> p.InFlight() && q.state == p.state)
      && (q.InFlight() ==> q.previousGenerationId == p.previousGenerationId && q.operationId == p.operationId)
  {
    hide LowerHex, UuidOfVersion, Split;
  }

  lemma ProgressKeepsInv(s: Library, op: string, a: PublicationAction, t: Library)
    requires LibraryInv(s) && LibraryStep(s, Progress(op, a), t)
    ensures LibraryInv(t)
  {
    var p := s.publications.at[op];
    StepKeepsRecord(p, op, a);
    ProgressKeepsStage(p, op, a);
    s.publications.PutValid(op, PublicationStep(p, a).value);
    hide PublicationStep, RecordOk;
    forall k, slot | InFlightIn(t.publications, k, slot)
      ensures InFlightIn(s.publications, k, slot)
    {
    }
    forall k, slot | InFlightIn(t.publications, k, slot)
      ensures PublicationSafe(t.publications.at[k], SlotOf(t.slots, slot))
    {
      assert PublicationSafe(s.publications.at[k], SlotOf(s.slots, slot));
    }
    forall slot, g | g in PointedAt(t.history, slot)
      ensures HistoryBacked(t.publications, slot, g, SlotOf(t.slots, slot).visible)
    {
      assert HistoryBacked(s.publications, slot, g, SlotOf(s.slots, slot).visible);
    }
    hide PublicationSafe, HistoryBacked, SlotOk;
  }

  lemma IntakeKeepsInv(s: Library, p: Publication, t: Library)
    requires LibraryInv(s) && LibraryStep(s, Intake(p), t)
    ensures LibraryInv(t)
  {
    s.publications.PutValid(p.operationId, p);
    forall k, slot | InFlightIn(t.publications, k, slot)
      ensures InFlightIn(s.publications, k, slot) && t.publications.at[k] == s.publications.at[k]
    {
    }
    forall slot, g | g in PointedAt(t.history, slot)
      ensures HistoryBacked(t.publications, slot, g, SlotOf(t.slots, slot).visible)
    {
      assert HistoryBacked(s.publications, slot, g, SlotOf(s.slots, slot).visible);
    }
    hide PublicationSafe, HistoryBacked, SlotOk;
  }

  /** What a recorded intent is. */
  lemma IntentRecorded(p: Publication, previous: Option<string>)
    requires PublicationStep(p, RecordIntent(previous)).Ok?
    ensures p.state == CandidateVerified && previous != Some(p.operationId)
    ensures PublicationStep(p, RecordIntent(previous)).value
            == p.(state := GenerationIntent, generationId := Some(p.operationId), previousGenerationId := previous)
  {
  }

  lemma IntendKeepsInv(s: Library, op: string, t: Library)
    requires LibraryInv(s) && LibraryStep(s, Intend(op), t)
    ensures LibraryInv(t)
  {
    var p := s.publications.at[op];
    var slot0 := p.assetSlot.value;
    var visible := SlotOf(s.slots, slot0).visible;
    IntentRecorded(p, visible);
    StepKeepsRecord(p, op, RecordIntent(visible));
    s.publications.PutValid(op, PublicationStep(p, RecordIntent(visible)).value);
    hide PublicationStep;
    assert SlotOk(SlotOf(s.slots, slot0), PointedAt(s.history, slot0));
    forall k, slot | InFlightIn(t.publications, k, slot)
      ensures k == op || (InFlightIn(s.publications, k, slot) && slot != slot0)
      ensures PublicationSafe(t.publications.at[k], SlotOf(t.slots, slot))
    {
      if k != op {
        assert PublicationSafe(s.publications.at[k], SlotOf(s.slots, slot));
      }
    }
    forall slot, g | g in PointedAt(t.history, slot)
      ensures HistoryBacked(t.publications, slot, g, SlotOf(t.slots, slot).visible)
    {
      assert HistoryBacked(s.publications, slot, g, SlotOf(s.slots, slot).visible);
    }
    hide PublicationSafe, HistoryBacked, SlotOk, Unresolved;
  }

  lemma PrepareKeepsInv(s: Library, op: string, t: Library)
    requires LibraryInv(s) && LibraryStep(s, Prepare(op), t)
    ensures LibraryInv(t)
  {
    forall slot
      ensures SlotOf(t.slots, slot).visible == SlotOf(s.slots, slot).visible
              && SlotOf(s.slots, slot).generations <= SlotOf(t.slots, slot).generations
    {
    }
    SlotsGrew(s, t);
  }

  /** Pointers stay, and every generation that matters is kept. */
  lemma SlotsGrew(s: Library, t: Library)
    requires LibraryInv(s) && t.publications == s.publications && t.history == s.history
    requires forall slot :: SlotOf(t.slots, slot).visible == SlotOf(s.slots, slot).visible
    requires forall slot, g ::
      (&& g in SlotOf(s.slots, slot).generations
       && (Retained(s.publications, slot, g) || SlotOf(s.slots, slot).visible == Some(g))) ==>
        g in SlotOf(t.slots, slot).generations
    ensures LibraryInv(t)
  {
    forall op, slot | InFlightIn(t.publications, op, slot)
      ensures PublicationSafe(t.publications.at[op], SlotOf(t.slots, slot))
    {
      var p := s.publications.at[op];
      assert PublicationSafe(p, SlotOf(s.slots, slot)) && RecordOk(p, op);
      if p.previousGenerationId.Some? {
        assert Retained(s.publications, slot, p.previousGenerationId.value);
      }
    }
    forall slot
      ensures SlotOk(SlotOf(t.slots, slot), PointedAt(t.history, slot))
    {
      assert SlotOk(SlotOf(s.slots, slot), PointedAt(s.history, slot));
    }
    forall slot, g | g in PointedAt(t.history, slot)
      ensures HistoryBacked(t.publications, slot, g, SlotOf(t.slots, slot).visible)
    {
      assert HistoryBacked(s.publications, slot, g, SlotOf(s.slots, slot).visible);
    }
    hide PublicationSafe, HistoryBacked, SlotOk, Retained;
  }

  lemma CollectKeepsInv(s: Library, slot: string, left: set<string>, t: Library)
    requires LibraryInv(s) && LibraryStep(s, Collect(slot, left), t)
    ensures LibraryInv(t)
  {
    forall k
      ensures SlotOf(t.slots, k).visible == SlotOf(s.slots, k).visible
      ensures forall g ::
        (&& g in SlotOf(s.slots, k).generations
         && (Retained(s.publications, k, g) || SlotOf(s.slots, k).visible == Some(g))) ==>
          g in SlotOf(t.slots, k).generations
    {
    }
    SlotsGrew(s, t);
  }

  lemma SwapKeepsInv(s: Library, op: string, t: Library)
    requires LibraryInv(s) && LibraryStep(s, Swap(op), t)
    ensures LibraryInv(t)
  {
    var p := s.publications.at[op];
    var slot0 := p.assetSlot.value;
    assert RecordOk(p, op) && InFlightIn(s.publications, op, slot0);
    assert op !in PointedAt(s.history, slot0);
    forall k, slot | InFlightIn(t.publications, k, slot)
      ensures PublicationSafe(t.publications.at[k], SlotOf(t.slots, slot))
    {
      assert PublicationSafe(s.publications.at[k], SlotOf(s.slots, slot));
      if slot == slot0 { assert k == op; }
    }
    forall slot
      ensures SlotOk(SlotOf(t.slots, slot), PointedAt(t.history, slot))
    {
      assert SlotOk(SlotOf(s.slots, slot), PointedAt(s.history, slot));
    }
    forall slot, g | g in PointedAt(t.history, slot)
      ensures HistoryBacked(t.publications, slot, g, SlotOf(t.slots, slot).visible)
    {
      SwapKeepsHistory(s, op, t, slot, g);
    }
    hide PublicationSafe, HistoryBacked, SlotOk;
  }

  lemma SwapKeepsHistory(s: Library, op: string, t: Library, slot: string, g: string)
    requires LibraryInv(s) && LibraryStep(s, Swap(op), t) && g in PointedAt(t.history, slot)
    ensures HistoryBacked(t.publications, slot, g, SlotOf(t.slots, slot).visible)
  {
    hide RecordOk, PublicationSafe, SlotOk, RecordsInv, SafeInv, SlotsInv, PublicationStep;
    var slot0 := s.publications.at[op].assetSlot.value;
    assert InFlightIn(s.publications, op, slot0);
    if g in PointedAt(s.history, slot) {
      assert HistoryBacked(s.publications, slot, g, SlotOf(s.slots, slot).visible);
      if slot == slot0 && s.publications.at[g].state == GenerationIntent {
        assert InFlightIn(s.publications, g, slot0);
      }
    } else {
      assert slot == slot0 && g == op;
    }
  }

  lemma CommitKeepsInv(s: Library, op: string, t: Library)
    requires LibraryInv(s) && LibraryStep(s, Commit(op), t)
    ensures LibraryInv(t)
  {
    var p := s.publications.at[op];
    assert RecordOk(p, op) && InFlightIn(s.publications, op, p.assetSlot.value);
    s.publications.PutValid(op, p.(state := CatalogPending));
    forall k, slot | InFlightIn(t.publications, k, slot)
      ensures InFlightIn(s.publications, k, slot)
      ensures PublicationSafe(t.publications.at[k], SlotOf(t.slots, slot))
    {
      assert InFlightIn(s.publications, k, slot);
      assert PublicationSafe(s.publications.at[k], SlotOf(s.slots, slot));
    }
    forall slot, g | g in PointedAt(t.history, slot)
      ensures HistoryBacked(t.publications, slot, g, SlotOf(t.slots, slot).visible)
    {
      assert HistoryBacked(s.publications, slot, g, SlotOf(s.slots, slot).visible);
    }
    hide PublicationSafe, HistoryBacked, SlotOk;
  }

  lemma ExchangeKeepsInv(s: Library, event: CatalogEvent, t: Library)
    requires LibraryInv(s) && LibraryStep(s, Exchange(event), t)
    ensures LibraryInv(t)
  {
  }

  lemma LibraryStepKeepsInv(s: Library, lab: LibraryLabel, t: Library)
    requires LibraryInv(s) && LibraryStep(s, lab, t)
    ensures LibraryInv(t)
  {
    hide LibraryInv, LibraryStep;
    match lab {
      case Progress(op, a) => ProgressKeepsInv(s, op, a, t);
      case Intake(p) => IntakeKeepsInv(s, p, t);
      case Intend(op) => IntendKeepsInv(s, op, t);
      case Prepare(op) => PrepareKeepsInv(s, op, t);
      case Swap(op) => SwapKeepsInv(s, op, t);
      case Commit(op) => CommitKeepsInv(s, op, t);
      case Collect(slot, left) => CollectKeepsInv(s, slot, left, t);
      case Exchange(event) => ExchangeKeepsInv(s, event, t);
    }
  }

  // Whole runs.

  ghost predicate LibraryNext(s: Library, t: Library) {
    exists lab :: LibraryStep(s, lab, t)
  }

  ghost predicate LibraryRun(run: seq<Library>) {
    && run != [] && run[0] == Library(EmptyDict(), map[], map[], [])
    && forall i :: 0 < i < |run| ==> LibraryNext(run[i - 1], run[i])
  }

  lemma {:induction false} LibraryAlways(run: seq<Library>, i: nat)
    requires LibraryRun(run) && i < |run|
    ensures LibraryInv(run[i])
  {
    if i > 0 {
      hide LibraryStep, LibraryInv;
      LibraryAlways(run, i - 1);
      assert LibraryNext(run[i - 1], run[i]);
      var lab :| LibraryStep(run[i - 1], lab, run[i]);
      LibraryStepKeepsInv(run[i - 1], lab, run[i]);
    }
  }

  /** At most one publication of a slot is between intent and delivery, and the slot shows it or
      its recorded predecessor, which still exists. */
  lemma SlotProtocol(run: seq<Library>, i: nat, slot: string, op: string)
    requires LibraryRun(run) && i < |run| && InFlightIn(run[i].publications, op, slot)
    ensures forall other :: InFlightIn(run[i].publications, other, slot) ==> other == op
    ensures PublicationSafe(run[i].publications.at[op], SlotOf(run[i].slots, slot))
  {
    LibraryAlways(run, i);
    hide LibraryRun, RecordsInv, SlotsInv, HistoryInv;
  }

  /** The pointer never dangles. */
  lemma PointerNeverDangles(run: seq<Library>, i: nat, slot: string)
    requires LibraryRun(run) && i < |run| && SlotOf(run[i].slots, slot).visible.Some?
    ensures SlotOf(run[i].slots, slot).visible.value in SlotOf(run[i].slots, slot).generations
  {
    LibraryAlways(run, i);
    hide LibraryRun, RecordsInv, HistoryInv;
  }

  lemma {:induction false} HistoryGrows(run: seq<Library>, i: nat, j: nat, slot: string)
    requires LibraryRun(run) && i <= j < |run|
    ensures PointedAt(run[i].history, slot) <= PointedAt(run[j].history, slot)
    decreases j
  {
    if i < j {
      HistoryGrows(run, i, j - 1, slot);
      assert LibraryNext(run[j - 1], run[j]);
      var lab :| LibraryStep(run[j - 1], lab, run[j]);
      hide PublicationStep, Retained, Unresolved;
    }
  }

  /** Once a slot has moved on from a generation it never shows that generation again. */
  lemma PointerNeverReturns(run: seq<Library>, i: nat, j: nat, k: nat, slot: string)
    requires LibraryRun(run) && i <= j <= k < |run|
    requires SlotOf(run[i].slots, slot).visible.Some?
             && SlotOf(run[j].slots, slot).visible != SlotOf(run[i].slots, slot).visible
    ensures SlotOf(run[k].slots, slot).visible != SlotOf(run[i].slots, slot).visible
  {
    LibraryAlways(run, i);
    LibraryAlways(run, j);
    LibraryAlways(run, k);
    HistoryGrows(run, i, j, slot);
    HistoryGrows(run, j, k, slot);
    hide LibraryRun, RecordsInv, ExclusiveInv, SafeInv, HistoryInv;
    var a, b, c := PointedAt(run[i].history, slot), PointedAt(run[j].history, slot), PointedAt(run[k].history, slot);
    assert SlotOk(SlotOf(run[i].slots, slot), a) && SlotOk(SlotOf(run[j].slots, slot), b)
           && SlotOk(SlotOf(run[k].slots, slot), c);
    assert a[|a| - 1] == c[|a| - 1] && b[|a| - 1] == a[|a| - 1];
  }

  /** Collection removes neither the visible generation, nor an undelivered publication's
      prepared generation, nor the predecessor it recorded. */
  lemma CollectionKeeps(run: seq<Library>, i: nat, slot: string, left: set<string>, op: string)
    requires LibraryRun(run) && i + 1 < |run| && LibraryStep(run[i], Collect(slot, left), run[i + 1])
    requires InFlightIn(run[i].publications, op, slot)
    ensures SlotOf(run[i + 1].slots, slot).visible == SlotOf(run[i].slots, slot).visible
    ensures op in SlotOf(run[i].slots, slot).generations ==> op in SlotOf(run[i + 1].slots, slot).generations
    ensures run[i].publications.at[op].previousGenerationId.Some? ==>
      run[i].publications.at[op].previousGenerationId.value in SlotOf(run[i + 1].slots, slot).generations
  {
    LibraryAlways(run, i);
    LibraryAlways(run, i + 1);
    var p := run[i].publications.at[op];
    assert RecordOk(p, op);
    assert Retained(run[i].publications, slot, op);
    assert PublicationSafe(run[i + 1].publications.at[op], SlotOf(run[i + 1].slots, slot));
    hide LibraryRun, HistoryInv, ExclusiveInv;
  }

  /** Wherever a publish was interrupted, preparing again and swapping completes it. */
  lemma InterruptedPublishResumes(run: seq<Library>, i: nat, op: string)
    requires LibraryRun(run) && i < |run| && Writing(run[i], op)
    ensures var slot := run[i].publications.at[op].assetSlot.value;
      SlotOf(run[i].slots, slot).visible == Some(op)
      || exists prepared, swapped ::
           && LibraryStep(run[i], Prepare(op), prepared) && LibraryStep(prepared, Swap(op), swapped)
           && SlotOf(swapped.slots, slot).visible == Some(op)
  {
    LibraryAlways(run, i);
    var s := run[i];
    var slot := s.publications.at[op].assetSlot.value;
    assert InFlightIn(s.publications, op, slot);
    if SlotOf(s.slots, slot).visible != Some(op) {
      assert PublicationSafe(s.publications.at[op], SlotOf(s.slots, slot));
      hide LibraryRun, LibraryInv;
      var kept := SlotOf(s.slots, slot);
      var prepared := s.(slots := s.slots[slot := kept.(generations := kept.generations + {op})]);
      assert LibraryStep(s, Prepare(op), prepared);
      var swapped := prepared.(slots := prepared.slots[slot := SlotOf(prepared.slots, slot).(visible := Some(op))],
                               history := prepared.history[slot := PointedAt(prepared.history, slot) + [op]]);
      assert LibraryStep(prepared, Swap(op), swapped);
    }
  }

  // Predecessor identities.

  /** An intent is accepted exactly when the slot shows nothing, or another publication whose
      id is a version 4 UUID. */
  lemma IntentAcceptedIff(p: Publication, visible: Option<string>)
    requires p.state == CandidateVerified && p.candidate.Some?
    ensures PublicationStep(p, RecordIntent(visible)).Ok?
            <==> visible.None? || (UuidOfVersion(visible.value, '4') && visible.value != p.operationId)
  {
    hide UuidOfVersion;
  }

  /** The slot shows a generation that no intent accepts as its predecessor, and no intent of the
      slot is open. */
  ghost predicate Closed(s: Library, slot: string, g: string) {
    && SlotOf(s.slots, slot).visible == Some(g) && !UuidOfVersion(g, '4')
    && forall op :: Writing(s, op) ==> s.publications.at[op].assetSlot != Some(slot)
  }

  lemma StepKeepsClosed(s: Library, lab: LibraryLabel, t: Library, slot: string, g: string)
    requires LibraryInv(s) && LibraryStep(s, lab, t) && Closed(s, slot, g)
    ensures Closed(t, slot, g)
  {
    hide UuidOfVersion, SlotsInv, HistoryInv, SafeInv, ExclusiveInv, Unresolved, Retained;
    if lab.Progress? {
      assert RecordOk(s.publications.at[lab.op], lab.op);
      ProgressKeepsStage(s.publications.at[lab.op], lab.op, lab.step);
    } else if lab.Intend? {
      IntendFacts(s.publications.at[lab.op], SlotOf(s.slots, s.publications.at[lab.op].assetSlot.value).visible);
    }
    hide PublicationStep, RecordsInv, RecordOk;
  }

  lemma IntendFacts(p: Publication, visible: Option<string>)
    requires PublicationStep(p, RecordIntent(visible)).Ok?
    ensures visible.None? || UuidOfVersion(visible.value, '4')
    ensures PublicationStep(p, RecordIntent(visible)).value.assetSlot == p.assetSlot
  {
    IntentAcceptedIff(p, visible);
    hide UuidOfVersion;
  }

  /** A closed slot stays closed in every run. */
  lemma {:induction false} StaysClosed(run: seq<Library>, i: nat, j: nat, slot: string, g: string)
    requires LibraryRun(run) && i <= j < |run| && Closed(run[i], slot, g)
    ensures Closed(run[j], slot, g)
    decreases j
  {
    hide LibraryStep, LibraryInv, Closed;
    if i < j {
      StaysClosed(run, i, j - 1, slot, g);
      LibraryAlways(run, j - 1);
      assert LibraryNext(run[j - 1], run[j]);
      var lab :| LibraryStep(run[j - 1], lab, run[j]);
      StepKeepsClosed(run[j - 1], lab, run[j], slot, g);
    }
  }

  /** It shows the same generation for ever, and no intent for it is ever recorded. */
  lemma ClosedForever(run: seq<Library>, i: nat, j: nat, slot: string, g: string)
    requires LibraryRun(run) && i <= j < |run| && Closed(run[i], slot, g)
    ensures SlotOf(run[j].slots, slot).visible == Some(g)
    ensures forall op :: Writing(run[j], op) ==> run[j].publications.at[op].assetSlot != Some(slot)
  {
    hide LibraryRun;
    StaysClosed(run, i, j, slot, g);
    hide UuidOfVersion;
  }

  /** A verified publication, bound to a slot and not yet published. */
  predicate Ready(p: Publication) {
    && p.state == CandidateVerified && p.candidate.Some? && p.assetSlot.Some?
    && p.generationId.None? && p.previousGenerationId.None? && p.catalogItemId.None? && !p.notificationAttempted
    && p.publisherReservationId == PublisherId(p.operationId)
  }

  /** A library that holds this publication and nothing else. */
  function Only(p: Publication): Library {
    Library(Dict([p.operationId], map[p.operationId := p]), map[], map[], [])
  }

  function Intended(p: Publication): Publication {
    p.(state := GenerationIntent, generationId := Some(p.operationId))
  }

  function Sole(p: Publication, visible: Option<string>): map<string, Slot>
    requires p.assetSlot.Some?
  {
    map[p.assetSlot.value := Slot(visible, {p.operationId})]
  }

  function ShownAlone(p: Publication, record: Publication): Library
    requires p.assetSlot.Some?
  {
    Only(record).(slots := Sole(p, Some(p.operationId)), history := map[p.assetSlot.value := [p.operationId]])
  }

  lemma FirstRecorded(p: Publication)
    requires Ready(p)
    ensures LibraryStep(Library(EmptyDict(), map[], map[], []), Intake(p), Only(p))
    ensures LibraryStep(Only(p), Intend(p.operationId), Only(Intended(p)))
  {
    var empty := Library(EmptyDict(), map[], map[], []);
    assert empty.publications.Put(p.operationId, p) == Only(p).publications by {
      assert [] + [p.operationId] == [p.operationId];
    }
    assert Only(p).publications.Put(p.operationId, Intended(p)) == Only(Intended(p)).publications;
    assert !Unresolved(Only(p).publications, p.assetSlot.value, p.operationId);
  }

  lemma FirstPublished(p: Publication)
    requires Ready(p)
    ensures var prepared := Only(Intended(p)).(slots := Sole(p, None));
      && LibraryStep(Only(Intended(p)), Prepare(p.operationId), prepared)
      && LibraryStep(prepared, Swap(p.operationId), ShownAlone(p, Intended(p)))
    ensures LibraryStep(ShownAlone(p, Intended(p)), Commit(p.operationId),
                        ShownAlone(p, Intended(p).(state := CatalogPending)))
  {
    assert {} + {p.operationId} == {p.operationId} && [] + [p.operationId] == [p.operationId];
    assert ShownAlone(p, Intended(p)).publications.Put(p.operationId, Intended(p).(state := CatalogPending))
           == ShownAlone(p, Intended(p).(state := CatalogPending)).publications;
  }

  /** Publishing anything under an identity that is no version 4 UUID into a fresh slot closes it. */
  lemma ImportCloses(p: Publication) returns (run: seq<Library>)
    requires Ready(p) && !UuidOfVersion(p.operationId, '4')
    ensures LibraryRun(run) && Closed(run[|run| - 1], p.assetSlot.value, p.operationId)
  {
    hide UuidOfVersion, LibraryStep;
    FirstRecorded(p);
    FirstPublished(p);
    var empty := Library(EmptyDict(), map[], map[], []);
    var prepared := Only(Intended(p)).(slots := Sole(p, None));
    var shown := ShownAlone(p, Intended(p));
    var committed := ShownAlone(p, Intended(p).(state := CatalogPending));
    assert LibraryNext(empty, Only(p)) && LibraryNext(Only(p), Only(Intended(p)))
           && LibraryNext(Only(Intended(p)), prepared);
    assert LibraryNext(prepared, shown) && LibraryNext(shown, committed);
    run := [empty, Only(p), Only(Intended(p)), prepared, shown, committed];
  }

  /** What adopting an import stores. */
  function Imported(op: string, source: string, upstreamId: string, mediaId: string, bytes: int, digest: string):
      Publication {
    NewPublication(op, "bootstrap:" + op, source, upstreamId, "bootstrap", mediaId, bytes, Bootstrap, Some(digest))
  }

  /** Every import that is adopted under a version 5 identity, as historical imports are given,
      closes the slot it is the first to be published into. */
  lemma HistoricalImportCloses(op: string, source: string, upstreamId: string, mediaId: string, bytes: int,
                               digest: string, bundle: Bundle, slot: string, itemType: ItemType,
                               providerIds: map<string, string>) returns (run: seq<Library>)
    requires UuidOfVersion(op, '5') && VideoSource(source) && LowerHex(digest, 64)
    requires BundleOk(bundle) && CandidateOk(bundle.payload) && IdentityFits(source, slot, itemType, providerIds)
    ensures var reserved := Imported(op, source, upstreamId, mediaId, bytes, digest);
      PublicationStep(PublicationStep(reserved, VerifyBundle(bundle)).value, BindAsset(slot, itemType, providerIds))
      == Ok(Sealed(reserved, bundle, slot, itemType, providerIds))
    ensures LibraryRun(run) && Closed(run[|run| - 1], slot, op)
  {
    hide LibraryRun, Closed, LowerHex, BundleOk, IdentityFits;
    run := ImportCloses(Sealed(Imported(op, source, upstreamId, mediaId, bytes, digest), bundle, slot, itemType,
                               providerIds));
  }
}
