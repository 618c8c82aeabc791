/** What the catalog showed before a publication counts as delivered, and that a slot keeps its item
    through all its publications. */
module PublisherCatalog {
  import opened Common
  import opened FenceEntry
  import opened PublisherModel
  import opened PublisherMachine

  // The invariant.

  /** The catalog showed the item of this publication. */
  ghost predicate WasShown(p: Publication, catalog: seq<CatalogEvent>, upto: int) {
    exists j :: 0 <= j < upto && j < |catalog| && ShowsOwn(p, catalog[j])
  }

  predicate ShowsOwn(p: Publication, event: CatalogEvent) {
    && p.catalogItemId.Some? && p.catalogMediaSourceId.Some?
    && Shows(p, event, p.catalogItemId.value, p.catalogMediaSourceId.value)
  }

  /** It was shown, and later played as exactly the sealed payload. */
  ghost predicate WasPlayed(p: Publication, catalog: seq<CatalogEvent>) {
    exists k :: 0 <= k < |catalog| && Plays(p, catalog[k]) && WasShown(p, catalog, k)
  }

  /** What one record owes to the catalog. */
  ghost predicate RecordShown(p: Publication, catalog: seq<CatalogEvent>) {
    && (p.catalogItemId.Some? ==>
          p.notificationAttempted && (p.state == CatalogPending || p.state == Delivered)
          && WasShown(p, catalog, |catalog|))
    && (p.state == Delivered ==> p.catalogItemId.Some? && WasPlayed(p, catalog))
  }

  ghost predicate ShownInv(s: Library) {
    forall op :: op in s.publications.at ==> RecordShown(s.publications.at[op], s.catalog)
  }

  /** A publication of the slot that has a generation. */
  predicate HeldIn(d: Publications, op: string, slot: string) {
    op in d.at && d.at[op].HasGeneration() && d.at[op].assetSlot == Some(slot)
  }

  /** Whatever item a publication of the slot has, it is the one that the slot was delivered as. */
  ghost predicate ItemInv(d: Publications) {
    forall a, b, slot :: HeldIn(d, a, slot) && HeldIn(d, b, slot) && d.at[a].state == Delivered ==>
      d.at[b].catalogItemId.None? || d.at[a].catalogItemId == d.at[b].catalogItemId
  }

  /** An update has its durable attempt, and an item shown is the expected one. */
  predicate Sound(d: Publications, event: CatalogEvent) {
    match event
    case Submitted(op, _, _) => Attempted(d, op)
    case Showed(e, item, _) => e.known.Some? ==> e.known.value == item
    case Played(_, _, _, _, _) => true
  }

  ghost predicate ExchangedInv(s: Library) {
    forall k :: 0 <= k < |s.catalog| ==> Sound(s.publications, s.catalog[k])
  }

  ghost predicate CatalogInv(s: Library) {
    ShownInv(s) && ItemInv(s.publications) && ExchangedInv(s)
  }

  // Facts about one transition.

  /** A transition other than an observation leaves what the catalog proved, or takes the item back. */
  lemma StepKeepsShown(p: Publication, a: PublicationAction, catalog: seq<CatalogEvent>)
    requires PublicationStep(p, a).Ok? && !a.ObserveCatalog? && !a.Deliver? && RecordShown(p, catalog)
    ensures RecordShown(PublicationStep(p, a).value, catalog)
  {
    hide LowerHex, UuidOfVersion, CandidateOk, BundleOk, IdentityFits, CatalogPathOk;
    var q := PublicationStep(p, a).value;
    if q.catalogItemId.Some? {
      assert forall event :: ShowsOwn(p, event) ==> ShowsOwn(q, event);
      assert forall event :: Plays(p, event) ==> Plays(q, event);
    }
  }

  lemma ObservationShown(p: Publication, item: string, mediaSource: string, catalog: seq<CatalogEvent>)
    requires PublicationStep(p, ObserveCatalog(item, mediaSource)).Ok?
    requires catalog != [] && Shows(p, catalog[|catalog| - 1], item, mediaSource)
    ensures RecordShown(PublicationStep(p, ObserveCatalog(item, mediaSource)).value, catalog)
  {
    var q := PublicationStep(p, ObserveCatalog(item, mediaSource)).value;
    assert ShowsOwn(q, catalog[|catalog| - 1]);
  }

  lemma DeliveryShown(p: Publication, catalog: seq<CatalogEvent>)
    requires PublicationStep(p, Deliver).Ok? && RecordShown(p, catalog)
    requires catalog != [] && Plays(p, catalog[|catalog| - 1])
    ensures RecordShown(PublicationStep(p, Deliver).value, catalog)
  {
    var q := PublicationStep(p, Deliver).value;
    var k := |catalog| - 1;
    var j :| 0 <= j < |catalog| && ShowsOwn(p, catalog[j]);
    assert ShowsOwn(q, catalog[j]) && j < k && Plays(q, catalog[k]);
    assert WasShown(q, catalog, k);
  }

  /** What a transition does to the item and the stage of its publication. */
  lemma StepItem(p: Publication, a: PublicationAction)
    requires PublicationStep(p, a).Ok?
    ensures var q := PublicationStep(p, a).value;
      && (p.notificationAttempted ==> q.notificationAttempted)
      && (!a.ObserveCatalog? ==> q.catalogItemId == p.catalogItemId || (q.catalogItemId.None? && p.state != Delivered))
      && (a.ObserveCatalog? ==>
            p.state == CatalogPending && q.state == CatalogPending && q.catalogItemId == Some(a.item))
      && (q.state == Delivered && p.state != Delivered ==> a.Deliver? && p.state == CatalogPending)
      && (p.state == Delivered ==> q.state == Delivered)
      && (p.HasGeneration() ==> q.HasGeneration() && q.assetSlot == p.assetSlot)
      && (q.HasGeneration() && !p.HasGeneration() ==> a.RecordIntent? && q.catalogItemId == p.catalogItemId)
  {
    hide LowerHex, UuidOfVersion, CandidateOk, BundleOk, IdentityFits, CatalogPathOk;
  }

  // Preservation.

  lemma ShownLater(p: Publication, catalog: seq<CatalogEvent>, event: CatalogEvent)
    requires RecordShown(p, catalog)
    ensures RecordShown(p, catalog + [event])
  {
    hide ShowsOwn, Plays;
    var longer := catalog + [event];
    assert forall j :: 0 <= j < |catalog| ==> longer[j] == catalog[j];
    if p.catalogItemId.Some? {
      var j :| 0 <= j < |catalog| && ShowsOwn(p, catalog[j]);
      assert ShowsOwn(p, longer[j]);
    }
    if p.state == Delivered {
      var k :| 0 <= k < |catalog| && Plays(p, catalog[k]) && WasShown(p, catalog, k);
      var j :| 0 <= j < k && ShowsOwn(p, catalog[j]);
      assert ShowsOwn(p, longer[j]) && Plays(p, longer[k]) && WasShown(p, longer, k);
    }
  }

  /** One record was written; all others are as they were. */
  lemma WriteKeepsShown(s: Library, op: string, q: Publication, t: Library)
    requires ShownInv(s) && t.catalog == s.catalog && t.publications == s.publications.Put(op, q)
    requires RecordShown(q, s.catalog)
    ensures ShownInv(t)
  {
    hide RecordShown;
  }

  lemma StepKeepsShownInv(s: Library, lab: LibraryLabel, t: Library)
    requires ShownInv(s) && LibraryStep(s, lab, t)
    ensures ShownInv(t)
  {
    hide RecordShown, PublicationStep, Unresolved, Retained, Expects, Matches, MayExchange;
    match lab {
      case Progress(op, a) =>
        var p := s.publications.at[op];
        if a.ObserveCatalog? {
          ObservationShown(p, a.item, a.mediaSource, s.catalog);
        } else if a.Deliver? {
          DeliveryShown(p, s.catalog);
        } else {
          StepKeepsShown(p, a, s.catalog);
        }
        WriteKeepsShown(s, op, PublicationStep(p, a).value, t);
      case Intake(p) =>
        NewShown(p, s.catalog);
        WriteKeepsShown(s, p.operationId, p, t);
      case Intend(op) =>
        var p := s.publications.at[op];
        var visible := SlotOf(s.slots, p.assetSlot.value).visible;
        StepKeepsShown(p, RecordIntent(visible), s.catalog);
        WriteKeepsShown(s, op, PublicationStep(p, RecordIntent(visible)).value, t);
      case Commit(op) =>
        CommitShown(s.publications.at[op], s.catalog);
        WriteKeepsShown(s, op, s.publications.at[op].(state := CatalogPending), t);
      case Exchange(event) =>
        forall op | op in t.publications.at
          ensures RecordShown(t.publications.at[op], t.catalog)
        {
          ShownLater(s.publications.at[op], s.catalog, event);
        }
      case Prepare(op) =>
      case Swap(op) =>
      case Collect(slot, left) =>
    }
  }

  lemma NewShown(p: Publication, catalog: seq<CatalogEvent>)
    requires !p.HasGeneration() && p.catalogItemId.None?
    ensures RecordShown(p, catalog)
  {
  }

  lemma CommitShown(p: Publication, catalog: seq<CatalogEvent>)
    requires p.state == GenerationIntent && RecordShown(p, catalog)
    ensures RecordShown(p.(state := CatalogPending), catalog)
  {
    StepKeepsShown(p, CommitGeneration, catalog);
  }

  lemma StepKeepsExchanged(s: Library, lab: LibraryLabel, t: Library)
    requires ExchangedInv(s) && LibraryStep(s, lab, t)
    ensures ExchangedInv(t)
  {
    hide PublicationStep, Unresolved, Retained, Expects, Matches, Shows, Plays;
    if lab.Progress? {
      StepItem(s.publications.at[lab.op], lab.step);
    } else if lab.Intend? {
      StepItem(s.publications.at[lab.op],
               RecordIntent(SlotOf(s.slots, s.publications.at[lab.op].assetSlot.value).visible));
    }
    forall k | 0 <= k < |t.catalog|
      ensures Sound(t.publications, t.catalog[k])
    {
      if k < |s.catalog| {
        assert t.catalog[k] == s.catalog[k] && Sound(s.publications, s.catalog[k]);
      }
    }
  }

  /** A write that keeps the slot of a generation, and gives no delivered item but the one before. */
  lemma WriteKeepsItem(d: Publications, op: string, q: Publication)
    requires ItemInv(d)
    requires q.HasGeneration() && op in d.at ==>
      && (d.at[op].HasGeneration() ==> d.at[op].assetSlot == q.assetSlot)
      && (!d.at[op].HasGeneration() ==> q.catalogItemId.None? && q.state != Delivered)
      && (q.catalogItemId == d.at[op].catalogItemId || (q.catalogItemId.None? && q.state != Delivered))
      && (q.state == Delivered ==> d.at[op].state == Delivered)
    requires op !in d.at ==> !q.HasGeneration()
    ensures ItemInv(d.Put(op, q))
  {
    var t := d.Put(op, q);
    forall a, b, slot | HeldIn(t, a, slot) && HeldIn(t, b, slot) && t.at[a].state == Delivered
      ensures t.at[b].catalogItemId.None? || t.at[a].catalogItemId == t.at[b].catalogItemId
    {
      if t.at[b].catalogItemId.Some? {
        assert HeldIn(d, a, slot) && HeldIn(d, b, slot);
      }
    }
  }

  /** An observation gives the item that the slot was delivered as. */
  lemma ObservationKeepsItem(d: Publications, op: string, slot: string, item: string, own: Option<string>,
                             known: Option<string>, q: Publication)
    requires ItemInv(d) && op in d.at && d.at[op].state == CatalogPending && d.at[op].assetSlot == Some(slot)
    requires Expects(d, slot, op, own, known) && (known.Some? ==> known.value == item)
    requires forall a :: a in d.at && d.at[a].state == Delivered ==> d.at[a].catalogItemId.Some?
    requires q.assetSlot == Some(slot) && q.state == CatalogPending && q.catalogItemId == Some(item)
    ensures ItemInv(d.Put(op, q))
  {
    var t := d.Put(op, q);
    forall a, b, k | HeldIn(t, a, k) && HeldIn(t, b, k) && t.at[a].state == Delivered
      ensures t.at[b].catalogItemId.None? || t.at[a].catalogItemId == t.at[b].catalogItemId
    {
      assert HeldIn(d, a, k);
      if b == op {
        assert DeliveredAs(d.at[a], slot, d.at[a].catalogItemId.value);
        assert Names(d, slot, op, d.at[a].catalogItemId.value);
      } else {
        assert HeldIn(d, b, k);
      }
    }
  }

  /** A delivery is of the only publication of its slot in flight, so all others are delivered. */
  lemma DeliveryKeepsItem(d: Publications, op: string, slot: string, q: Publication)
    requires ItemInv(d) && ExclusiveInv(d) && InFlightIn(d, op, slot)
    requires q.assetSlot == Some(slot) && q.state == Delivered && q.catalogItemId == d.at[op].catalogItemId
             && q.catalogItemId.Some?
    ensures ItemInv(d.Put(op, q))
  {
    var t := d.Put(op, q);
    forall a, b, k | HeldIn(t, a, k) && HeldIn(t, b, k) && t.at[a].state == Delivered
      ensures t.at[b].catalogItemId.None? || t.at[a].catalogItemId == t.at[b].catalogItemId
    {
      assert HeldIn(d, a, k) && HeldIn(d, b, k);
      if a == op && b != op {
        assert !InFlightIn(d, b, k);
      }
    }
  }

  lemma StepKeepsItemInv(s: Library, lab: LibraryLabel, t: Library)
    requires LibraryInv(s) && CatalogInv(s) && LibraryStep(s, lab, t)
    ensures ItemInv(t.publications)
  {
    hide PublicationStep, Unresolved, Retained, Matches, Expects, ItemInv, ShownInv, LibraryInv;
    match lab {
      case Progress(op, a) => ProgressKeepsItem(s, op, a, t);
      case Intake(p) => WriteKeepsItem(s.publications, p.operationId, p);
      case Intend(op) =>
        var p := s.publications.at[op];
        var visible := SlotOf(s.slots, p.assetSlot.value).visible;
        IntentRecorded(p, visible);
        NoItemYet(s, op);
        WriteKeepsItem(s.publications, op, PublicationStep(p, RecordIntent(visible)).value);
      case Commit(op) => WriteKeepsItem(s.publications, op, s.publications.at[op].(state := CatalogPending));
      case Exchange(event) =>
      case Prepare(op) =>
      case Swap(op) =>
      case Collect(slot, left) =>
    }
  }

  lemma NoItemYet(s: Library, op: string)
    requires ShownInv(s) && op in s.publications.at && !s.publications.at[op].HasGeneration()
    ensures s.publications.at[op].catalogItemId.None?
  {
  }

  lemma DeliveredHaveItems(s: Library)
    requires ShownInv(s)
    ensures forall a :: a in s.publications.at && s.publications.at[a].state == Delivered ==>
      s.publications.at[a].catalogItemId.Some?
  {
  }

  lemma ProgressKeepsItem(s: Library, op: string, a: PublicationAction, t: Library)
    requires LibraryInv(s) && CatalogInv(s) && LibraryStep(s, Progress(op, a), t)
    ensures ItemInv(t.publications)
  {
    hide PublicationStep, Expects, ItemInv, ShownInv, ExclusiveInv, SafeInv, SlotsInv, HistoryInv, RecordShown, Matches;
    var p := s.publications.at[op];
    var q := PublicationStep(p, a).value;
    StepItem(p, a);
    ProgressKeepsStage(p, op, a);
    DeliveredHaveItems(s);
    if a.ObserveCatalog? {
      var last := s.catalog[|s.catalog| - 1];
      assert Sound(s.publications, last);
      ObservationKeepsItem(s.publications, op, p.assetSlot.value, a.item, p.catalogItemId, last.expected.known, q);
    } else if a.Deliver? && p.state != Delivered {
      DeliveredItem(p);
      DeliveryKeepsItem(s.publications, op, p.assetSlot.value, q);
    } else {
      WriteKeepsItem(s.publications, op, q);
    }
  }

  lemma DeliveredItem(p: Publication)
    requires PublicationStep(p, Deliver).Ok?
    ensures var q := PublicationStep(p, Deliver).value;
      && q.state == Delivered && q.assetSlot == p.assetSlot
      && q.catalogItemId == p.catalogItemId && q.catalogItemId.Some?
  {
  }

  lemma StepKeepsCatalogInv(s: Library, lab: LibraryLabel, t: Library)
    requires LibraryInv(s) && CatalogInv(s) && LibraryStep(s, lab, t)
    ensures CatalogInv(t)
  {
    hide LibraryInv, LibraryStep, ShownInv, ItemInv, ExchangedInv;
    StepKeepsShownInv(s, lab, t);
    StepKeepsItemInv(s, lab, t);
    StepKeepsExchanged(s, lab, t);
  }

  // Whole runs.

  lemma {:induction false} CatalogAlways(run: seq<Library>, i: nat)
    requires LibraryRun(run) && i < |run|
    ensures CatalogInv(run[i])
  {
    if i > 0 {
      hide LibraryStep, LibraryInv, CatalogInv;
      CatalogAlways(run, i - 1);
      LibraryAlways(run, i - 1);
      assert LibraryNext(run[i - 1], run[i]);
      var lab :| LibraryStep(run[i - 1], lab, run[i]);
      StepKeepsCatalogInv(run[i - 1], lab, run[i]);
    }
  }

  /** Wherever a run is cut, a delivered publication was shown under exactly its expectation, and
      its item was played afterwards as exactly the sealed payload. */
  lemma DeliveredWasPlayed(run: seq<Library>, i: nat, op: string)
    requires LibraryRun(run) && i < |run| && op in run[i].publications.at
    requires run[i].publications.at[op].state == Delivered
    ensures WasPlayed(run[i].publications.at[op], run[i].catalog)
  {
    CatalogAlways(run, i);
    hide LibraryRun, WasPlayed, ItemInv, ExchangedInv;
  }

  /** An update is sent to the catalog only for an attempt that was durable before. */
  lemma SubmittedAfterAttempt(run: seq<Library>, i: nat, k: nat)
    requires LibraryRun(run) && i < |run| && k < |run[i].catalog| && run[i].catalog[k].Submitted?
    ensures Attempted(run[i].publications, run[i].catalog[k].op)
  {
    CatalogAlways(run, i);
    hide LibraryRun, ItemInv, ShownInv;
    assert Sound(run[i].publications, run[i].catalog[k]);
  }

  lemma DeliveredStep(s: Library, lab: LibraryLabel, t: Library, op: string)
    requires LibraryStep(s, lab, t) && op in s.publications.at && s.publications.at[op].state == Delivered
    ensures op in t.publications.at && t.publications.at[op].state == Delivered
    ensures t.publications.at[op].assetSlot == s.publications.at[op].assetSlot
    ensures t.publications.at[op].catalogItemId == s.publications.at[op].catalogItemId
  {
    hide PublicationStep, Unresolved, Retained, Expects, Matches, MayExchange;
    if lab.Progress? {
      StepItem(s.publications.at[lab.op], lab.step);
    } else if lab.Intend? {
      IntentRecorded(s.publications.at[lab.op], SlotOf(s.slots, s.publications.at[lab.op].assetSlot.value).visible);
    }
  }

  lemma {:induction false} DeliveredStays(run: seq<Library>, i: nat, j: nat, op: string)
    requires LibraryRun(run) && i <= j < |run| && op in run[i].publications.at
    requires run[i].publications.at[op].state == Delivered
    ensures op in run[j].publications.at && run[j].publications.at[op].state == Delivered
    ensures run[j].publications.at[op].assetSlot == run[i].publications.at[op].assetSlot
    ensures run[j].publications.at[op].catalogItemId == run[i].publications.at[op].catalogItemId
    decreases j
  {
    if i < j {
      hide LibraryStep;
      DeliveredStays(run, i, j - 1, op);
      assert LibraryNext(run[j - 1], run[j]);
      var lab :| LibraryStep(run[j - 1], lab, run[j]);
      DeliveredStep(run[j - 1], lab, run[j], op);
    }
  }

  /** However often a slot is published again, the catalog keeps one item for it: what is delivered
      later is delivered as the item of what was delivered before. */
  lemma SlotKeepsItem(run: seq<Library>, i: nat, j: nat, slot: string, a: string, b: string)
    requires LibraryRun(run) && i <= j < |run|
    requires HeldIn(run[i].publications, a, slot) && run[i].publications.at[a].state == Delivered
    requires HeldIn(run[j].publications, b, slot) && run[j].publications.at[b].state == Delivered
    ensures run[i].publications.at[a].catalogItemId.Some?
    ensures run[j].publications.at[b].catalogItemId == run[i].publications.at[a].catalogItemId
  {
    CatalogAlways(run, i);
    CatalogAlways(run, j);
    DeliveredStays(run, i, j, a);
    hide LibraryRun;
    assert HeldIn(run[j].publications, a, slot);
    assert RecordShown(run[i].publications.at[a], run[i].catalog);
    assert RecordShown(run[j].publications.at[b], run[j].catalog);
  }
}
