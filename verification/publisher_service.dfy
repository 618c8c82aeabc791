/** The Publisher service over its durable records and the asset generation store: each durable
    write and each filesystem effect is one step of the library machine. */
module PublisherDriver {
  import opened Common
  import opened FenceEntry
  import opened PublisherModel
  import opened PublisherMachine
  import opened PublisherCatalog

  /** Slot pointers and generation directories.  Any call may fail before or after its effect. */
  class AssetGenerations {
    var slots: map<string, Slot>

    constructor ()
      ensures slots == map[]
    {
      slots := map[];
    }

    /** A pointer whose generation is gone cannot be read. */
    method VisibleGeneration(slot: string) returns (r: Result<Option<string>>)
      ensures r.Ok? ==> r.value == SlotOf(slots, slot).visible
      ensures r.Ok? && r.value.Some? ==> r.value.value in SlotOf(slots, slot).generations
    {
      var readable: bool := *;
      var visible := SlotOf(slots, slot).visible;
      if !readable || (visible.Some? && visible.value !in SlotOf(slots, slot).generations) {
        return Raised;
      }
      return Ok(visible);
    }

    /** Copies and seals a complete generation; an incomplete one is never named. */
    method PreparePayload(slot: string, generation: string) returns (complete: bool)
      modifies this
      ensures slots == old(slots)
              || slots == old(slots)[slot := SlotOf(old(slots), slot).(
                   generations := SlotOf(old(slots), slot).generations + {generation})]
      ensures complete ==> generation in SlotOf(slots, slot).generations
    {
      complete := generation in SlotOf(slots, slot).generations;
      var copied: bool := *;
      if !complete && copied {
        slots := slots[slot := SlotOf(slots, slot).(generations := SlotOf(slots, slot).generations + {generation})];
        complete := *;
      }
    }

    /** Exchanges the pointer only while it still shows the expected predecessor. */
    method SwapPointer(slot: string, generation: string, previous: Option<string>) returns (swapped: bool)
      requires generation in SlotOf(slots, slot).generations
      modifies this
      ensures slots == old(slots)
              || (SlotOf(old(slots), slot).visible == previous
                  && slots == old(slots)[slot := SlotOf(old(slots), slot).(visible := Some(generation))])
      ensures swapped ==> SlotOf(slots, slot).visible == Some(generation)
    {
      swapped := false;
      var renamed: bool := *;
      if SlotOf(slots, slot).visible == previous && renamed {
        slots := slots[slot := SlotOf(slots, slot).(visible := Some(generation))];
        swapped := *;
      }
    }

    method Remove(slot: string, generation: string)
      modifies this
      ensures slots == old(slots)[slot := SlotOf(old(slots), slot).(
                generations := SlotOf(old(slots), slot).generations - {generation})]
    {
      slots := slots[slot := SlotOf(slots, slot).(generations := SlotOf(slots, slot).generations - {generation})];
    }
  }

  class PublisherService {
    const state: PublisherState
    const generations: AssetGenerations
    ghost var history: map<string, seq<string>>
    ghost var catalog: seq<CatalogEvent>
    ghost var run: seq<Library>

    ghost function Now(): Library
      reads this, state, generations
    {
      Library(state.publications, generations.slots, history, catalog)
    }

    ghost predicate Valid()
      reads this, state, generations
    {
      && state.Valid()
      && run != [] && LibraryRun(run) && run[|run| - 1] == Now()
    }

    constructor ()
      ensures Valid() && fresh(state) && fresh(generations)
    {
      state := new PublisherState();
      generations := new AssetGenerations();
      history, catalog := map[], [];
      run := [Library(EmptyDict(), map[], map[], [])];
    }

    lemma Safe()
      requires Valid()
      ensures LibraryInv(Now())
    {
      LibraryAlways(run, |run| - 1);
    }

    ghost method Extend(lab: LibraryLabel)
      requires run != [] && LibraryRun(run) && LibraryStep(run[|run| - 1], lab, Now())
      modifies this`run
      ensures run == old(run) + [Now()] && LibraryRun(run)
    {
      RunExtend(run, lab, Now());
      run := run + [Now()];
    }

    /** A working copy; copying reads every record back and may refuse one. */
    method Copy() returns (r: Result<PublisherState>)
      requires Valid()
      ensures r.Ok? <==> AllLoad(state.publications)
      ensures r.Ok? ==> fresh(r.value) && r.value.Valid() && r.value.publications == state.publications
    {
      hide LibraryRun, AllLoad;
      r := state.Clone();
    }

    /** Saves, then replaces; a failed save changes nothing. */
    method Persist(candidate: PublisherState, ghost lab: LibraryLabel) returns (saved: bool)
      requires Valid() && candidate.Valid() && candidate != state
      requires LibraryStep(Now(), lab, Now().(publications := candidate.publications))
      modifies this`run, state
      ensures Valid()
      ensures state.publications == if saved then old(candidate.publications) else old(state.publications)
    {
      hide LibraryRun, LibraryStep, KeyedPublications;
      saved := *;
      if saved {
        state.ReplaceWith(candidate);
        Extend(lab);
      }
    }

    /** One durable transition that neither opens nor commits a generation. */
    method Advance(op: string, a: PublicationAction) returns (r: Result<()>)
      requires Valid() && !a.RecordIntent? && !a.CommitGeneration?
      requires op in state.publications.at ==> Evidenced(Now(), op, a)
      modifies this`run, state
      ensures Valid()
      ensures r.Ok? ==> op in old(state.publications.at) && PublicationStep(old(state.publications).at[op], a).Ok?
      ensures r.Ok? ==>
        state.publications == old(state.publications).Put(op, PublicationStep(old(state.publications).at[op], a).value)
      ensures r.Raised? ==> state.publications == old(state.publications)
    {
      hide LibraryRun, PublicationStep, KeyedPublications;
      var candidate :- Copy();
      var _ :- candidate.Update(op, a);
      var saved := Persist(candidate, Progress(op, a));
      return if saved then Ok(()) else Raised;
    }

    /** The receipt is answered only once the reservation is durable. */
    method AcceptTerminal(m: TerminalMessage) returns (r: Result<CustodyReceipt>)
      requires Valid()
      modifies this`run, state
      ensures Valid()
      ensures r.Ok? ==> TerminalAdopted(old(state.publications), m) == Ok((state.publications, r.value))
      ensures r.Ok? ==>
        && m.operationId in state.publications.at
        && HoldsTerminal(state.publications.at[m.operationId], m)
        && r.value == ReceiptOf(state.publications.at[m.operationId])
      ensures r.Raised? ==> state.publications == old(state.publications)
    {
      hide LibraryRun;
      ghost var before := state.publications;
      var candidate :- Copy();
      var receipt :- candidate.AdoptTerminal(m);
      if m.operationId in state.publications.at {
        assert candidate.publications == before;
        var saved: bool := *;
        return if saved then Ok(receipt) else Raised;
      }
      var saved := Persist(candidate, Intake(TerminalPublication(m)));
      return if saved then Ok(receipt) else Raised;
    }

    method AssetHasUnresolvedOperation(slot: string, op: string) returns (unresolved: bool)
      requires Valid()
      ensures unresolved <==> Unresolved(state.publications, slot, op)
    {
      hide LibraryRun;
      var keys := state.publications.keys;
      var i := 0;
      while i < |keys|
        invariant 0 <= i <= |keys|
        invariant forall j :: 0 <= j < i ==>
          || keys[j] == op || state.publications.at[keys[j]].assetSlot != Some(slot)
          || state.publications.at[keys[j]].state == Delivered
      {
        var publication := state.publications.at[keys[i]];
        if publication.operationId != op && publication.assetSlot == Some(slot) && publication.state != Delivered {
          assert keys[i] in state.publications.at;
          return true;
        }
        i := i + 1;
      }
      return false;
    }

    /** Records the durable intent, then publishes. */
    method CommitAssetGeneration(op: string) returns (r: Result<bool>)
      requires Valid()
      modifies this, state, generations
      ensures Valid()
      ensures r == Ok(true) ==> Shown(Now(), op)
    {
      hide LibraryRun, LibraryInv, LibraryStep;
      if op !in state.publications.at {
        return Raised;
      }
      var publication := state.publications.at[op];
      if publication.state != CandidateVerified || publication.assetSlot.None? {
        return Ok(false);
      }
      var slot := publication.assetSlot.value;
      var unresolved := AssetHasUnresolvedOperation(slot, op);
      if unresolved {
        return Ok(false);
      }
      var candidate :- Copy();
      var visible :- generations.VisibleGeneration(slot);
      var _ :- candidate.Update(op, RecordIntent(visible));
      IntendIsStep(Now(), op, candidate.publications);
      hide PublicationStep, Unresolved;
      var saved := Persist(candidate, Intend(op));
      if !saved {
        return Raised;
      }
      r := FinishAssetGeneration(op);
    }

    /** Publishes under a durable intent and confirms it; an interrupted publish is repeated whole. */
    method FinishAssetGeneration(op: string) returns (r: Result<bool>)
      requires Valid()
      modifies this, state, generations
      ensures Valid()
      ensures r == Ok(true) ==> Shown(Now(), op)
    {
      hide LibraryRun, LibraryInv, LibraryStep, PublicationStep, KeyedPublications;
      if op !in state.publications.at {
        return Raised;
      }
      if state.publications.at[op].state != GenerationIntent {
        return Ok(false);
      }
      Safe();
      IntentHasSlot(Now(), op);
      var slot := state.publications.at[op].assetSlot.value;
      var published := Publish(op, slot, state.publications.at[op].previousGenerationId);
      if !published {
        return Ok(false);
      }
      var candidate :- Copy();
      var _ :- candidate.Update(op, CommitGeneration);
      CommitIsStep(Now(), op, candidate.publications);
      var saved := Persist(candidate, Commit(op));
      return if saved then Ok(true) else Raised;
    }

    /** Seals the generation, then advances the pointer, and only from the recorded predecessor. */
    method Publish(op: string, slot: string, previous: Option<string>) returns (published: bool)
      requires Valid() && Writing(Now(), op) && state.publications.at[op].assetSlot == Some(slot)
               && state.publications.at[op].previousGenerationId == previous
      modifies this, generations
      ensures Valid()
      ensures published ==> SlotOf(generations.slots, slot).visible == Some(op)
      ensures SlotOf(generations.slots, slot).visible == SlotOf(old(generations.slots), slot).visible
              || (SlotOf(old(generations.slots), slot).visible == previous
                  && SlotOf(generations.slots, slot).visible == Some(op)
                  && op in SlotOf(generations.slots, slot).generations)
      ensures SlotOf(old(generations.slots), slot).generations <= SlotOf(generations.slots, slot).generations
      ensures forall k :: k != slot ==> SlotOf(generations.slots, k) == SlotOf(old(generations.slots), k)
    {
      hide LibraryRun, LibraryInv, KeyedPublications;
      var before := generations.VisibleGeneration(slot);
      if before.Raised? {
        return false;
      }
      if before.value == Some(op) {
        return true;
      }
      if before.value != previous {
        return false;
      }
      ghost var slots := generations.slots;
      var ready := generations.PreparePayload(slot, op);
      if generations.slots != slots {
        Extend(Prepare(op));
      }
      if !ready {
        return false;
      }
      ghost var prepared := generations.slots;
      published := generations.SwapPointer(slot, op, previous);
      if generations.slots != prepared {
        history := history[slot := PointedAt(history, slot) + [op]];
        Extend(Swap(op));
      }
    }

    ghost method Tell(event: CatalogEvent)
      requires Valid() && MayExchange(Now(), event)
      modifies this`run, this`catalog
      ensures Valid() && catalog == old(catalog) + [event]
    {
      hide LibraryRun, MayExchange;
      catalog := catalog + [event];
      Extend(Exchange(event));
    }

    /** What the catalog can be asked about. */
    predicate Expecting(op: string)
      reads this, state
    {
      && op in state.publications.at && state.publications.at[op].state == CatalogPending
      && state.publications.at[op].assetSlot.Some? && state.publications.at[op].itemType.Some?
      && state.publications.at[op].candidate.Some?
      && state.publications.at[op].catalogLibraryId.Some? && state.publications.at[op].expectedCatalogPath.Some?
    }

    /** The items that other publications of the slot were delivered as. */
    method KnownItem(slot: string, op: string) returns (known: set<string>)
      requires Valid()
      ensures forall item :: item in known <==> Names(state.publications, slot, op, item)
    {
      hide LibraryRun, Names, NamesUpTo;
      var keys := state.publications.keys;
      known := {};
      NoNames(state.publications, slot, op);
      var i := 0;
      while i < |keys|
        invariant 0 <= i <= |keys| == |state.publications.keys|
        invariant forall item :: item in known <==> NamesUpTo(state.publications, i, slot, op, item)
      {
        var publication := state.publications.at[keys[i]];
        NamesNext(state.publications, i, slot, op);
        if keys[i] != op && publication.assetSlot == Some(slot) && publication.state == Delivered
           && publication.catalogItemId.Some? {
          known := known + {publication.catalogItemId.value};
        }
        i := i + 1;
      }
      AllNames(state.publications, slot, op);
    }

    /** Asks for the one item that meets the expectation; a slot known as several items has none. */
    method ObserveCatalog(op: string) returns (o: Option<(string, string)>)
      requires Valid() && Expecting(op)
      modifies this`run, this`catalog
      ensures Valid() && old(catalog) <= catalog
      ensures o.Some? ==> Evidenced(Now(), op, PublicationAction.ObserveCatalog(o.value.0, o.value.1))
      ensures o.Some? ==> |catalog| == old(|catalog|) + 1
    {
      hide LibraryRun, KeyedPublications, Names;
      var publication := state.publications.at[op];
      var known := KnownItem(publication.assetSlot.value, op);
      if |known| > 1 {
        return None;
      }
      var expected := publication.catalogItemId;
      if |known| == 1 {
        var item :| item in known;
        expected := Some(item);
      }
      OneAtMost(state.publications, publication.assetSlot.value, op, publication.catalogItemId, known, expected);
      var expectation := Expectation(publication.catalogLibraryId.value, publication.expectedCatalogPath.value,
                                     publication.itemType.value, publication.providerIds,
                                     publication.candidate.value.bytes, expected);
      o := MatchingSource(expectation);
      if o.Some? {
        Tell(Showed(expectation, o.value.0, o.value.1));
      }
    }

    /** The catalog's only item under this expectation, if it has just one; what is known of the
        slot already must be that item. */
    method MatchingSource(expected: Expectation) returns (o: Option<(string, string)>)
      ensures o.Some? && expected.known.Some? ==> o.value.0 == expected.known.value
    {
      var seen: bool, item: string, source: string := *, *, *;
      o := if !seen || (expected.known.Some? && item != expected.known.value) then None else Some((item, source));
    }

    /** A notification is sent only after its attempt is durable. */
    method SubmitUpdate(op: string) returns (accepted: bool)
      requires Valid() && Expecting(op) && Attempted(state.publications, op)
      modifies this`run, this`catalog
      ensures Valid() && old(catalog) <= catalog
    {
      hide LibraryRun;
      var publication := state.publications.at[op];
      Tell(Submitted(op, publication.expectedCatalogPath.value, publication.previousGenerationId.Some?));
      accepted := *;
    }

    /** Plays what was observed and compares it with the sealed payload. */
    method PlaysDirectly(op: string) returns (playable: bool)
      requires Valid() && Expecting(op)
      requires state.publications.at[op].catalogItemId.Some? && state.publications.at[op].catalogMediaSourceId.Some?
      modifies this`run, this`catalog
      ensures Valid() && old(catalog) <= catalog
      ensures playable ==> Evidenced(Now(), op, Deliver) && |catalog| == old(|catalog|) + 1
    {
      hide LibraryRun;
      var publication := state.publications.at[op];
      playable := *;
      if playable {
        Tell(Played(publication.catalogItemId.value, publication.catalogMediaSourceId.value,
                    publication.expectedCatalogPath.value, publication.candidate.value.bytes,
                    publication.candidate.value.sha256));
      }
    }

    /** The expectation is written only where it differs from the durable one. */
    method BindExpectation(op: string, library: string, path: string) returns (r: Result<()>)
      requires Valid() && op in state.publications.at
      modifies this`run, state
      ensures Valid()
      ensures r.Ok? ==> Moved(old(state.publications), state.publications, op, BindCatalog(library, path))
      ensures r.Raised? ==> state.publications == old(state.publications)
    {
      hide LibraryRun, KeyedPublications;
      var publication := state.publications.at[op];
      if publication.catalogLibraryId == Some(library) && publication.expectedCatalogPath == Some(path) {
        var candidate :- Copy();
        var _ :- candidate.Update(op, BindCatalog(library, path));
        BoundAlready(state.publications, op, library, path);
        return Ok(());
      }
      r := Advance(op, BindCatalog(library, path));
    }

    /** After an earlier attempt the catalog is asked first; else the attempt is made durable. */
    method ObserveOrAttempt(op: string) returns (r: Result<Option<(string, string)>>)
      requires Valid() && Expecting(op)
      modifies this`run, this`catalog, state
      ensures Valid() && old(catalog) <= catalog && |catalog| >= old(|catalog|)
      ensures r.Ok? ==> Expecting(op) && Attempted(state.publications, op)
      ensures r.Ok? && r.value.Some? ==>
        && |catalog| > old(|catalog|)
        && Evidenced(Now(), op, PublicationAction.ObserveCatalog(r.value.value.0, r.value.value.1))
      ensures Elsewhere(old(state.publications), state.publications, op)
    {
      hide LibraryRun, PublicationStep, KeyedPublications, Evidenced, Moved;
      if state.publications.at[op].notificationAttempted {
        var observed := ObserveCatalog(op);
        return Ok(observed);
      }
      ghost var bound := state.publications;
      AttemptNeedsNothing(Now(), op);
      var _ :- Advance(op, AttemptNotification);
      WrittenMoved(bound, state.publications, op, AttemptNotification);
      AttemptRecorded(bound, state.publications, op);
      return Ok(None);
    }

    /** Binds the expectation, records the notification before sending it, and delivers only an
        item that the catalog showed for it and then played as the sealed payload. */
    method ObserveAndDeliverAsset(op: string, library: string, path: string) returns (r: Result<bool>)
      requires Valid()
      modifies this`run, this`catalog, state
      ensures Valid() && old(catalog) <= catalog
      ensures r == Ok(true) ==>
        && op in state.publications.at && state.publications.at[op].state == Delivered
        && |catalog| >= old(|catalog|) + 2 && ShownAndPlayed(state.publications.at[op], catalog)
      ensures Elsewhere(old(state.publications), state.publications, op)
    {
      hide LibraryRun, PublicationStep, KeyedPublications, Evidenced, ShownAndPlayed, Moved;
      if op !in state.publications.at {
        return Raised;
      }
      var publication := state.publications.at[op];
      if publication.state != CatalogPending {
        return Ok(false);
      }
      if publication.assetSlot.None? || publication.itemType.None? || publication.candidate.None? {
        return Raised;
      }
      ghost var before := state.publications;
      var _ :- BindExpectation(op, library, path);
      ExpectationBound(before, state.publications, op, library, path);
      var observed :- ObserveOrAttempt(op);
      r := DeliverObserved(op, observed);
    }

    /** Submits an update unless the item was seen already, and delivers on sight and playback. */
    method DeliverObserved(op: string, seen: Option<(string, string)>) returns (r: Result<bool>)
      requires Valid() && Expecting(op) && Attempted(state.publications, op)
      requires seen.Some? ==> Evidenced(Now(), op, PublicationAction.ObserveCatalog(seen.value.0, seen.value.1))
      modifies this`run, this`catalog, state
      ensures Valid() && old(catalog) <= catalog
      ensures r == Ok(true) ==>
        && op in state.publications.at && state.publications.at[op].state == Delivered
        && |catalog| >= old(|catalog|) + (if seen.Some? then 1 else 2)
        && ShownAndPlayed(state.publications.at[op], catalog)
      ensures Elsewhere(old(state.publications), state.publications, op)
    {
      hide LibraryRun, PublicationStep, KeyedPublications, Evidenced, ShownAndPlayed, ShowsOwn;
      var observed := seen;
      if observed.None? {
        var accepted := SubmitUpdate(op);
        if !accepted {
          return Ok(false);
        }
        observed := ObserveCatalog(op);
        if observed.None? {
          return Ok(false);
        }
      }
      ghost var before := Now();
      var _ :- Advance(op, PublicationAction.ObserveCatalog(observed.value.0, observed.value.1));
      ItemRecorded(before, state.publications, op, observed.value.0, observed.value.1);
      r := DeliverShown(op);
    }

    /** Delivers what the catalog showed last, if it also plays. */
    method DeliverShown(op: string) returns (r: Result<bool>)
      requires Valid() && Expecting(op)
      requires catalog != [] && ShowsOwn(state.publications.at[op], catalog[|catalog| - 1])
      modifies this`run, this`catalog, state
      ensures Valid() && old(catalog) <= catalog
      ensures r == Ok(true) ==>
        && op in state.publications.at && state.publications.at[op].state == Delivered
        && |catalog| == old(|catalog|) + 1 && ShownAndPlayed(state.publications.at[op], catalog)
      ensures Elsewhere(old(state.publications), state.publications, op)
    {
      hide LibraryRun, PublicationStep, KeyedPublications, Evidenced, ShownAndPlayed, Moved;
      ghost var shown := Now();
      OwnItem(state.publications.at[op], catalog[|catalog| - 1]);
      hide ShowsOwn;
      var playable := PlaysDirectly(op);
      if !playable {
        return Ok(false);
      }
      ghost var played := Now();
      var _ :- Advance(op, Deliver);
      WrittenMoved(played.publications, state.publications, op, Deliver);
      DeliveryRecorded(shown, played, state.publications, op);
      return Ok(true);
    }

    /** Removes the obsolete generations of every known slot, one directory at a time, and stops
        at the first slot that cannot be read.  Success leaves in each known slot exactly what is
        visible or still needed, and touches no other slot. */
    method GarbageCollectAssets() returns (r: Result<()>)
      requires Valid()
      modifies this`run, generations
      ensures Valid()
      ensures forall slot :: SlotOf(generations.slots, slot).visible == SlotOf(old(generations.slots), slot).visible
      ensures r.Ok? ==>
        forall slot ::
          KnownSlot(state.publications, slot) ==>
            Collected(state.publications, slot, SlotOf(old(generations.slots), slot), SlotOf(generations.slots, slot))
      ensures forall slot ::
        !KnownSlot(state.publications, slot) ==> SlotOf(generations.slots, slot) == SlotOf(old(generations.slots), slot)
    {
      hide LibraryRun, LibraryInv, LibraryStep, Collected, Retained, KnownSlot, KeyedPublications;
      var known, retained := CollectRoots();
      ghost var all := known;
      while known != {}
        invariant Valid() && known <= all
        invariant forall slot :: SlotOf(generations.slots, slot).visible == SlotOf(old(generations.slots), slot).visible
        invariant forall slot ::
          slot in all - known ==>
            Collected(state.publications, slot, SlotOf(old(generations.slots), slot), SlotOf(generations.slots, slot))
        invariant forall slot ::
          slot in known || slot !in all ==> SlotOf(generations.slots, slot) == SlotOf(old(generations.slots), slot)
        decreases known
      {
        var slot :| slot in known;
        var _ :- CollectSlot(slot, if slot in retained then retained[slot] else {});
        known := known - {slot};
      }
      return Ok(());
    }

    /** The known slots, and what each undelivered publication still needs of its slot. */
    method CollectRoots() returns (known: set<string>, retained: map<string, set<string>>)
      requires state.Valid()
      ensures forall slot :: slot in known <==> KnownSlot(state.publications, slot)
      ensures forall slot, g :: Retained(state.publications, slot, g) <==> Listed(retained, slot, g)
    {
      hide KnownSlot, Retained, KnownUpTo, RetainedUpTo, Needs, Listed;
      NoneYet(state.publications);
      retained, known := map[], {};
      var keys := state.publications.keys;
      var i := 0;
      while i < |keys|
        invariant 0 <= i <= |keys| == |state.publications.keys|
        invariant forall slot :: slot in known <==> KnownUpTo(state.publications, i, slot)
        invariant forall slot, g :: RetainedUpTo(state.publications, i, slot, g) <==> Listed(retained, slot, g)
        modifies {}
      {
        var publication := state.publications.at[keys[i]];
        RootsNext(state.publications, i);
        if publication.assetSlot.Some? {
          known := known + {publication.assetSlot.value};
        }
        retained := RetainNeeds(retained, publication);
        i := i + 1;
      }
      AllRoots(state.publications);
    }

    method RetainNeeds(before: map<string, set<string>>, p: Publication) returns (retained: map<string, set<string>>)
      ensures forall slot, g :: Listed(retained, slot, g) <==> Listed(before, slot, g) || Needs(p, slot, g)
    {
      retained := before;
      if p.assetSlot.Some? && p.state != Delivered && p.generationId.Some? {
        var slot := p.assetSlot.value;
        var kept := (if slot in retained then retained[slot] else {}) + {p.generationId.value};
        if p.previousGenerationId.Some? {
          kept := kept + {p.previousGenerationId.value};
        }
        retained := retained[slot := kept];
      }
    }

    method CollectSlot(slot: string, retained: set<string>) returns (r: Result<()>)
      requires Valid()
      requires forall g :: Retained(state.publications, slot, g) <==> g in retained
      modifies this`run, generations
      ensures Valid()
      ensures r.Ok? ==>
        Collected(state.publications, slot, SlotOf(old(generations.slots), slot), SlotOf(generations.slots, slot))
      ensures SlotOf(generations.slots, slot).visible == SlotOf(old(generations.slots), slot).visible
      ensures forall k :: k != slot ==> SlotOf(generations.slots, k) == SlotOf(old(generations.slots), k)
      ensures r.Raised? ==> generations.slots == old(generations.slots)
    {
      hide LibraryRun, LibraryInv, Retained, KeyedPublications;
      var visible := generations.VisibleGeneration(slot);
      if visible.Raised? {
        return Raised;
      }
      var kept := retained + (if visible.value.Some? then {visible.value.value} else {});
      var entries := SlotOf(generations.slots, slot).generations;
      ghost var before := entries;
      while entries != {}
        invariant Valid() && entries <= SlotOf(generations.slots, slot).generations <= before
        invariant SlotOf(generations.slots, slot).visible == visible.value
        invariant forall g ::
          g in SlotOf(generations.slots, slot).generations <==> g in entries || (g in before && g in kept)
        invariant forall k :: k != slot ==> SlotOf(generations.slots, k) == SlotOf(old(generations.slots), k)
        decreases entries
      {
        var generation :| generation in entries;
        if generation !in kept {
          generations.Remove(slot, generation);
          Extend(Collect(slot, SlotOf(generations.slots, slot).generations));
        }
        entries := entries - {generation};
      }
      return Ok(());
    }
  }

  predicate Listed(retained: map<string, set<string>>, slot: string, g: string) {
    slot in retained && g in retained[slot]
  }

  /** An undelivered publication needs its own generation and the one it replaces. */
  predicate Needs(p: Publication, slot: string, g: string) {
    && p.assetSlot == Some(slot) && p.state != Delivered
    && (p.generationId == Some(g) || (p.generationId.Some? && p.previousGenerationId == Some(g)))
  }

  predicate KnownSlot(d: Publications, slot: string) {
    exists op :: op in d.at && d.at[op].assetSlot == Some(slot)
  }

  /** Of the generations in a slot, those visible or still needed are left, and only those. */
  ghost predicate Collected(d: Publications, slot: string, before: Slot, after: Slot) {
    && after.visible == before.visible
    && forall g ::
         g in after.generations <==> g in before.generations && (Retained(d, slot, g) || before.visible == Some(g))
  }

  /** The publication is durable past its intent and its generation is the visible one. */
  ghost predicate Shown(s: Library, op: string) {
    && op in s.publications.at && s.publications.at[op].state == CatalogPending && s.publications.at[op].assetSlot.Some?
    && SlotOf(s.slots, s.publications.at[op].assetSlot.value).visible == Some(op)
  }

  lemma RunExtend(run: seq<Library>, lab: LibraryLabel, t: Library)
    requires LibraryRun(run) && LibraryStep(run[|run| - 1], lab, t)
    ensures LibraryRun(run + [t])
  {
    hide LibraryStep;
    forall i | 0 < i < |run + [t]|
      ensures LibraryNext((run + [t])[i - 1], (run + [t])[i])
    {
      if i < |run| {
        assert LibraryNext(run[i - 1], run[i]);
      }
    }
  }

  lemma IntendIsStep(s: Library, op: string, after: Publications)
    requires op in s.publications.at && s.publications.at[op].assetSlot.Some?
             && !Unresolved(s.publications, s.publications.at[op].assetSlot.value, op)
    requires var visible := SlotOf(s.slots, s.publications.at[op].assetSlot.value).visible;
      PublicationStep(s.publications.at[op], RecordIntent(visible)).Ok?
      && after == s.publications.Put(op, PublicationStep(s.publications.at[op], RecordIntent(visible)).value)
    ensures LibraryStep(s, Intend(op), s.(publications := after))
  {
    hide PublicationStep, Unresolved;
  }

  lemma CommitIsStep(s: Library, op: string, after: Publications)
    requires Writing(s, op) && SlotOf(s.slots, s.publications.at[op].assetSlot.value).visible == Some(op)
    requires PublicationStep(s.publications.at[op], CommitGeneration).Ok?
             && after == s.publications.Put(op, PublicationStep(s.publications.at[op], CommitGeneration).value)
    ensures LibraryStep(s, Commit(op), s.(publications := after))
    ensures Shown(s.(publications := after), op)
  {
  }

  lemma IntentHasSlot(s: Library, op: string)
    requires LibraryInv(s) && op in s.publications.at && s.publications.at[op].state == GenerationIntent
    ensures Writing(s, op)
  {
    assert RecordOk(s.publications.at[op], op);
  }

  // Delivery.

  /** One transition was written. */
  ghost predicate Moved(before: Publications, after: Publications, op: string, a: PublicationAction) {
    && op in before.at && PublicationStep(before.at[op], a).Ok?
    && after == before.Put(op, PublicationStep(before.at[op], a).value)
  }

  /** Every other publication is as it was. */
  predicate Elsewhere(before: Publications, after: Publications, op: string) {
    && (forall k :: k in before.at ==> k in after.at && (k != op ==> after.at[k] == before.at[k]))
    && (forall k :: k in after.at ==> k in before.at)
  }

  /** The catalog's last answers showed the item of this publication and played it. */
  predicate ShownAndPlayed(p: Publication, catalog: seq<CatalogEvent>) {
    |catalog| >= 2 && ShowsOwn(p, catalog[|catalog| - 2]) && Plays(p, catalog[|catalog| - 1])
  }

  lemma WrittenMoved(before: Publications, after: Publications, op: string, a: PublicationAction)
    requires op in before.at && PublicationStep(before.at[op], a).Ok?
    requires after == before.Put(op, PublicationStep(before.at[op], a).value)
    ensures Moved(before, after, op, a)
  {
  }

  lemma BoundAlready(d: Publications, op: string, library: string, path: string)
    requires op in d.at && PublicationStep(d.at[op], BindCatalog(library, path)).Ok?
    requires d.at[op].catalogLibraryId == Some(library) && d.at[op].expectedCatalogPath == Some(path)
    ensures Moved(d, d, op, BindCatalog(library, path))
  {
    hide CatalogPathOk;
    assert PublicationStep(d.at[op], BindCatalog(library, path)).value == d.at[op];
    assert d.Put(op, d.at[op]).at == d.at;
  }

  lemma ExpectationBound(before: Publications, after: Publications, op: string, library: string, path: string)
    requires Moved(before, after, op, BindCatalog(library, path)) && before.at[op].state == CatalogPending
    ensures op in after.at && after.at[op].state == CatalogPending
    ensures after.at[op].assetSlot == before.at[op].assetSlot && after.at[op].itemType == before.at[op].itemType
    ensures after.at[op].candidate == before.at[op].candidate
    ensures after.at[op].catalogLibraryId == Some(library) && after.at[op].expectedCatalogPath == Some(path)
    ensures Elsewhere(before, after, op)
  {
    hide CatalogPathOk;
  }

  lemma AttemptNeedsNothing(s: Library, op: string)
    requires op in s.publications.at
    ensures Evidenced(s, op, AttemptNotification)
  {
  }

  lemma AttemptRecorded(before: Publications, after: Publications, op: string)
    requires Moved(before, after, op, AttemptNotification)
    ensures op in after.at && after.at[op] == before.at[op].(notificationAttempted := true)
    ensures Attempted(after, op) && Elsewhere(before, after, op)
  {
  }

  lemma ItemRecorded(before: Library, after: Publications, op: string, item: string, mediaSource: string)
    requires Moved(before.publications, after, op, PublicationAction.ObserveCatalog(item, mediaSource))
    requires Evidenced(before, op, PublicationAction.ObserveCatalog(item, mediaSource))
    ensures op in after.at
    ensures after.at[op] == before.publications.at[op].(catalogItemId := Some(item),
                                                        catalogMediaSourceId := Some(mediaSource))
    ensures before.catalog != [] && ShowsOwn(after.at[op], before.catalog[|before.catalog| - 1])
    ensures Elsewhere(before.publications, after, op)
  {
    hide Expects;
  }

  lemma OwnItem(p: Publication, event: CatalogEvent)
    requires ShowsOwn(p, event)
    ensures p.catalogItemId.Some? && p.catalogMediaSourceId.Some?
  {
  }

  lemma DeliveryRecorded(shown: Library, played: Library, after: Publications, op: string)
    requires Moved(played.publications, after, op, Deliver) && played.publications == shown.publications
    requires Evidenced(played, op, Deliver) && shown.catalog != []
    requires shown.catalog <= played.catalog && |played.catalog| == |shown.catalog| + 1
    requires ShowsOwn(shown.publications.at[op], shown.catalog[|shown.catalog| - 1])
    ensures op in after.at && after.at[op].state == Delivered && ShownAndPlayed(after.at[op], played.catalog)
    ensures Elsewhere(played.publications, after, op)
  {
  }

  /** With at most one item known, the one asked for is expected. */
  lemma OneAtMost(d: Publications, slot: string, op: string, own: Option<string>, known: set<string>,
                  expected: Option<string>)
    requires forall item :: item in known <==> Names(d, slot, op, item)
    requires |known| <= 1
    requires if known == {} then expected == own else expected.Some? && expected.value in known
    ensures Expects(d, slot, op, own, expected)
  {
    hide Names;
    forall item | Names(d, slot, op, item)
      ensures expected == Some(item)
    {
      OnlyMember(known, item);
    }
  }

  lemma OnlyMember(s: set<string>, x: string)
    requires |s| <= 1 && x in s
    ensures s == {x}
  {
    assert |s - {x}| == |s| - 1;
  }

  ghost predicate NamesUpTo(d: Publications, n: nat, slot: string, op: string, item: string)
    requires n <= |d.keys|
  {
    exists j :: 0 <= j < n && d.keys[j] != op && d.keys[j] in d.at && DeliveredAs(d.at[d.keys[j]], slot, item)
  }

  lemma NoNames(d: Publications, slot: string, op: string)
    ensures forall item :: !NamesUpTo(d, 0, slot, op, item)
  {
  }

  lemma NamesNext(d: Publications, i: nat, slot: string, op: string)
    requires i < |d.keys| && d.keys[i] in d.at
    ensures forall item :: NamesUpTo(d, i + 1, slot, op, item)
              <==> NamesUpTo(d, i, slot, op, item) || (d.keys[i] != op && DeliveredAs(d.at[d.keys[i]], slot, item))
  {
    hide DeliveredAs;
  }

  lemma AllNames(d: Publications, slot: string, op: string)
    requires d.Valid()
    ensures forall item :: NamesUpTo(d, |d.keys|, slot, op, item) <==> Names(d, slot, op, item)
  {
    hide DeliveredAs;
    forall item | Names(d, slot, op, item)
      ensures NamesUpTo(d, |d.keys|, slot, op, item)
    {
      var other :| other in d.at && other != op && DeliveredAs(d.at[other], slot, item);
      var j :| 0 <= j < |d.keys| && d.keys[j] == other;
    }
  }

  /** What the first records of the list retain, and the slots they name. */
  ghost predicate RetainedUpTo(d: Publications, n: nat, slot: string, g: string)
    requires n <= |d.keys|
  {
    exists j :: 0 <= j < n && d.keys[j] in d.at && Needs(d.at[d.keys[j]], slot, g)
  }

  ghost predicate KnownUpTo(d: Publications, n: nat, slot: string)
    requires n <= |d.keys|
  {
    exists j :: 0 <= j < n && d.keys[j] in d.at && d.at[d.keys[j]].assetSlot == Some(slot)
  }

  lemma NoneYet(d: Publications)
    ensures forall slot :: !KnownUpTo(d, 0, slot)
    ensures forall slot, g :: !RetainedUpTo(d, 0, slot, g) && !Listed(map[], slot, g)
  {
  }

  lemma RootsNext(d: Publications, i: nat)
    requires i < |d.keys| && d.keys[i] in d.at
    ensures forall slot ::
      KnownUpTo(d, i + 1, slot) <==> KnownUpTo(d, i, slot) || d.at[d.keys[i]].assetSlot == Some(slot)
    ensures forall slot, g ::
      RetainedUpTo(d, i + 1, slot, g) <==> RetainedUpTo(d, i, slot, g) || Needs(d.at[d.keys[i]], slot, g)
  {
    hide Needs;
  }

  lemma AllRoots(d: Publications)
    requires d.Valid()
    ensures forall slot :: KnownSlot(d, slot) <==> KnownUpTo(d, |d.keys|, slot)
    ensures forall slot, g :: Retained(d, slot, g) <==> RetainedUpTo(d, |d.keys|, slot, g)
  {
    forall slot | KnownSlot(d, slot)
      ensures KnownUpTo(d, |d.keys|, slot)
    {
      var op :| op in d.at && d.at[op].assetSlot == Some(slot);
      var j :| 0 <= j < |d.keys| && d.keys[j] == op;
    }
    forall slot, g | Retained(d, slot, g)
      ensures RetainedUpTo(d, |d.keys|, slot, g)
    {
      var op :| op in d.at && Needs(d.at[op], slot, g);
      var j :| 0 <= j < |d.keys| && d.keys[j] == op;
    }
  }
}
