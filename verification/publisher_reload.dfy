/** Which publications can be read back after each transition, and along whole runs. */
module PublisherReload {
  import opened Common
  import opened FenceEntry
  import opened PublisherModel
  import opened PublisherMachine

  /** What a transition needs beyond being accepted, so that its result can be read back. */
  predicate StepLoads(p: Publication, a: PublicationAction) {
    match a
    case VerifyCandidate(c) => p.bundle.Some? ==> BundleLoads(p.bundle.value.members, c)
    case VerifyBundle(b) => BundleLoads(b.members, b.payload)
    case FreezeHardlinks => p.provenance == FromFence
    case _ => true
  }

  /** A transition of a readable publication leaves a readable one exactly under that condition. */
  lemma StepLoadsIff(p: Publication, a: PublicationAction)
    requires PublicationLoads(p) && PublicationStep(p, a).Ok?
    ensures PublicationLoads(PublicationStep(p, a).value) <==> StepLoads(p, a)
  {
    hide UuidOfVersion, Split, DistinctPaths, BundleLoads, IdentityFits, CustodyLoads;
    var q := PublicationStep(p, a).value;
    StepKeepsCustody(p, a);
    assert CustodyLoads(q) by { CustodyLoadsAlike(p, q); }
  }

  lemma CustodyLoadsAlike(p: Publication, q: Publication)
    requires CustodyLoads(p) && q.SameCustody(p)
    ensures CustodyLoads(q)
  {
  }

  /** A publication newly reserved for a terminal can be read back when its fields are filled. */
  lemma TerminalLoadsIff(m: TerminalMessage)
    ensures PublicationLoads(TerminalPublication(m)) <==>
      (&& m.operationId != "" && m.fenceReservationId != "" && m.upstreamId != "" && m.downloadId != ""
       && m.mediaId != "" && VideoSource(m.source) && m.bytesReserved > 0)
  {
  }

  /** A sealed import can be read back exactly when its bundle really contains its payload. */
  lemma SealedLoadsIff(p: Publication, bundle: Bundle, slot: string, itemType: ItemType,
                       providerIds: map<string, string>)
    requires PublicationLoads(p) && p.state == CustodyReserved && BundleOk(bundle) && CandidateOk(bundle.payload)
    requires IdentityFits(p.source, slot, itemType, providerIds)
    ensures PublicationLoads(Sealed(p, bundle, slot, itemType, providerIds))
            <==> BundleLoads(bundle.members, bundle.payload)
  {
    hide UuidOfVersion, Split, BundleLoads, IdentityFits, CustodyLoads;
    assert CustodyLoads(Sealed(p, bundle, slot, itemType, providerIds)) by {
      CustodyLoadsAlike(p, Sealed(p, bundle, slot, itemType, providerIds));
    }
  }

  /** A bundle that lists its payload with another size. */
  function Mislisted(payload: Candidate): Bundle {
    Bundle(payload, [payload.(bytes := payload.bytes + 1)])
  }

  /** Such a bundle is accepted, and then no working copy of any table that holds the
      publication can be made, so no later transition of any publication is possible. */
  lemma MislistedBundleStrands(d: Publications, op: string, payload: Candidate)
    requires KeyedPublications(d) && AllLoad(d) && op in d.at && d.at[op].state == CustodyReserved
    requires CandidateOk(payload)
    ensures PublicationStep(d.at[op], VerifyBundle(Mislisted(payload))).Ok?
    ensures !AllLoad(d.Put(op, PublicationStep(d.at[op], VerifyBundle(Mislisted(payload))).value))
  {
    hide LowerHex, PublicationLoads;
    assert Mislisted(payload).members[0].path == payload.path;
    assert BundleOk(Mislisted(payload));
    var next := PublicationStep(d.at[op], VerifyBundle(Mislisted(payload))).value;
    assert !BundleLoads(Mislisted(payload).members, payload);
    StepLoadsIff(d.at[op], VerifyBundle(Mislisted(payload)));
    assert d.Put(op, next).at[op] == next;
  }

  // Whole runs.

  /** A step of the library whose durable write can be read back. */
  predicate LabelLoads(s: Library, lab: LibraryLabel) {
    match lab
    case Progress(op, a) => op in s.publications.at && StepLoads(s.publications.at[op], a)
    case Intake(p) => PublicationLoads(p)
    case _ => true
  }

  lemma CommitLoads(p: Publication)
    requires PublicationLoads(p) && p.state == GenerationIntent
    ensures PublicationLoads(p.(state := CatalogPending))
  {
    StepLoadsIff(p, CommitGeneration);
    hide PublicationLoads;
  }

  /** From a readable table a step leads to a readable one exactly when its write can be read back. */
  lemma LibraryStepLoadsIff(s: Library, lab: LibraryLabel, t: Library)
    requires LibraryStep(s, lab, t) && AllLoad(s.publications)
    ensures AllLoad(t.publications) <==> LabelLoads(s, lab)
  {
    hide PublicationLoads, PublicationStep, StepLoads, Unresolved, Retained, Evidenced, MayExchange;
    match lab {
      case Progress(op, a) =>
        StepLoadsIff(s.publications.at[op], a);
        assert t.publications.at[op] == PublicationStep(s.publications.at[op], a).value;
      case Intake(p) => assert t.publications.at[p.operationId] == p;
      case Intend(op) =>
        var visible := SlotOf(s.slots, s.publications.at[op].assetSlot.value).visible;
        StepLoadsIff(s.publications.at[op], RecordIntent(visible));
        IntentNeedsNothing(s.publications.at[op], visible);
      case Commit(op) => CommitLoads(s.publications.at[op]);
      case Prepare(op) =>
      case Swap(op) =>
      case Collect(slot, left) =>
      case Exchange(event) =>
    }
  }

  lemma IntentNeedsNothing(p: Publication, visible: Option<string>)
    ensures StepLoads(p, RecordIntent(visible))
  {
  }

  ghost predicate ReadableStep(s: Library, t: Library) {
    exists lab :: LibraryStep(s, lab, t) && LabelLoads(s, lab)
  }

  /** Every step of the run wrote only what can be read back. */
  ghost predicate ReadableRun(run: seq<Library>) {
    forall i :: 0 < i < |run| ==> ReadableStep(run[i - 1], run[i])
  }

  /** Along such a run every interruption can be recovered from: the table reads back whole. */
  lemma {:induction false} RunReadsBack(run: seq<Library>, i: nat)
    requires LibraryRun(run) && ReadableRun(run) && i < |run|
    ensures AllLoad(run[i].publications)
    ensures run[i].publications.Valid() && TableOf(PublicationsOf(run[i].publications)) == run[i].publications
  {
    hide LibraryStep, LabelLoads, TableOf, AllLoad, LibraryInv, KeyedPublications;
    LibraryAlways(run, i);
    KeyedLibrary(run[i]);
    TableOfAll(run[i].publications);
    if i == 0 {
      NothingLoads(run);
    } else {
      RunReadsBack(run, i - 1);
      assert ReadableStep(run[i - 1], run[i]);
      var lab :| LibraryStep(run[i - 1], lab, run[i]) && LabelLoads(run[i - 1], lab);
      LibraryStepLoadsIff(run[i - 1], lab, run[i]);
    }
  }

  lemma NothingLoads(run: seq<Library>)
    requires LibraryRun(run)
    ensures AllLoad(run[0].publications)
  {
  }

  lemma KeyedLibrary(s: Library)
    requires LibraryInv(s)
    ensures KeyedPublications(s.publications) && s.publications.Valid()
  {
    hide ExclusiveInv, SafeInv, SlotsInv, HistoryInv;
  }
}
