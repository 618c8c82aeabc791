/** Publisher publications: the transitions of one record and the mutable state that holds them. */
module PublisherModel {
  import opened Common
  import opened FenceEntry

  datatype PublicationState = CustodyReserved | CandidateVerified | GenerationIntent | CatalogPending | Delivered

  datatype Provenance = FromFence | Bootstrap | Assisted

  datatype Candidate = Candidate(path: string, bytes: int, sha256: string)

  datatype Bundle = Bundle(payload: Candidate, members: seq<Candidate>)

  datatype ItemType = Movie | Episode

  datatype Publication = Publication(
    operationId: string,
    fenceReservationId: string,
    publisherReservationId: string,
    source: string,
    upstreamId: string,
    downloadId: string,
    mediaId: string,
    bytesReserved: int,
    state: PublicationState,
    candidate: Option<Candidate>,
    bundle: Option<Bundle>,
    hardlinkFrozen: bool,
    provenance: Provenance,
    manifestDigest: Option<string>,
    generationId: Option<string>,
    previousGenerationId: Option<string>,
    assetSlot: Option<string>,
    itemType: Option<ItemType>,
    providerIds: map<string, string>,
    notificationAttempted: bool,
    publicConflict: bool,
    catalogLibraryId: Option<string>,
    expectedCatalogPath: Option<string>,
    catalogItemId: Option<string>,
    catalogMediaSourceId: Option<string>
  ) {
    /** What the owner of the custody agreed to; nothing changes it. */
    predicate SameCustody(other: Publication) {
      && operationId == other.operationId && fenceReservationId == other.fenceReservationId
      && publisherReservationId == other.publisherReservationId && source == other.source
      && upstreamId == other.upstreamId
      && downloadId == other.downloadId && mediaId == other.mediaId && bytesReserved == other.bytesReserved
      && provenance == other.provenance
    }

    predicate HasGeneration() {
      state == GenerationIntent || state == CatalogPending || state == Delivered
    }

    /** Between the durable generation intent and delivery. */
    predicate InFlight() {
      state == GenerationIntent || state == CatalogPending
    }
  }

  type Publications = Dict<Publication>

  datatype PublicationAction =
    | VerifyCandidate(candidate: Candidate)
    | VerifyBundle(bundle: Bundle)
    | FreezeHardlinks
    | BindAsset(slot: string, itemType: ItemType, providerIds: map<string, string>)
    | RecordIntent(previous: Option<string>)
    | CommitGeneration
    | AttemptNotification
    | MarkConflict
    | BindCatalog(library: string, path: string)
    | ObserveCatalog(item: string, mediaSource: string)
    | Deliver

  predicate CandidateOk(c: Candidate) {
    c.path != "" && c.bytes > 0 && LowerHex(c.sha256, 64)
  }

  predicate DistinctPaths(members: seq<Candidate>) {
    forall i, j :: 0 <= i < j < |members| ==> members[i].path != members[j].path
  }

  predicate BundleOk(b: Bundle) {
    && b.members != [] && |b.members| <= 129 && DistinctPaths(b.members)
    && exists i :: 0 <= i < |b.members| && b.members[i].path == b.payload.path
  }

  predicate StartsWith(s: string, prefix: string) {
    |prefix| <= |s| && s[..|prefix|] == prefix
  }

  predicate IdentityFits(source: string, slot: string, itemType: ItemType, providerIds: map<string, string>) {
    && StartsWith(slot, source + ":")
    && (source == RADARR ==> itemType == Movie) && (source == SONARR ==> itemType == Episode)
    && forall k :: k in providerIds ==> k != "" && providerIds[k] != ""
  }

  predicate AssetOk(p: Publication, slot: string, itemType: ItemType, providerIds: map<string, string>) {
    p.state == CandidateVerified && IdentityFits(p.source, slot, itemType, providerIds)
  }

  predicate GenerationIdOk(id: string) {
    UuidOfVersion(id, '4')
  }

  predicate CatalogPathOk(path: string) {
    path != "" && path[0] == '/' && ".." !in Split(path, '/')
  }

  function Verified(p: Publication, c: Candidate): Result<Publication> {
    if p.state != CustodyReserved || !CandidateOk(c) then Raised
    else Ok(p.(state := CandidateVerified, candidate := Some(c)))
  }

  function CatalogBound(p: Publication, library: string, path: string): Result<Publication> {
    if (p.state != CatalogPending && p.state != Delivered) || library == "" || !CatalogPathOk(path) then Raised
    else
      var unbound := p.catalogLibraryId.None? && p.expectedCatalogPath.None?;
      var changed := !unbound && (p.catalogLibraryId != Some(library) || p.expectedCatalogPath != Some(path));
      if changed && (p.state == Delivered || p.catalogItemId.Some? || p.catalogMediaSourceId.Some?) then Raised
      else
        var reset := p.state == CatalogPending && (unbound || changed);
        Ok(p.(
          catalogLibraryId := Some(library), expectedCatalogPath := Some(path),
          catalogItemId := if reset then None else p.catalogItemId,
          catalogMediaSourceId := if reset then None else p.catalogMediaSourceId))
  }

  /** The effect of one transition on its publication. */
  function PublicationStep(p: Publication, a: PublicationAction): Result<Publication> {
    match a
    case VerifyCandidate(c) => Verified(p, c)
    case VerifyBundle(b) =>
      if !BundleOk(b) then Raised
      else
        var verified :- Verified(p, b.payload);
        Ok(verified.(bundle := Some(b)))
    case FreezeHardlinks => if p.state != CustodyReserved then Raised else Ok(p.(hardlinkFrozen := true))
    case BindAsset(slot, itemType, providerIds) =>
      if !AssetOk(p, slot, itemType, providerIds) then Raised
      else Ok(p.(assetSlot := Some(slot), itemType := Some(itemType), providerIds := providerIds))
    case RecordIntent(previous) =>
      if p.state != CandidateVerified || p.candidate.None? then Raised
      else if previous.Some? && (!GenerationIdOk(previous.value) || previous.value == p.operationId) then Raised
      else Ok(p.(state := GenerationIntent, generationId := Some(p.operationId), previousGenerationId := previous))
    case CommitGeneration => if p.state != GenerationIntent then Raised else Ok(p.(state := CatalogPending))
    case AttemptNotification =>
      if p.state != CatalogPending || !Truthy(p.catalogLibraryId) || !Truthy(p.expectedCatalogPath) then Raised
      else Ok(p.(notificationAttempted := true))
    case MarkConflict => Ok(p.(publicConflict := true))
    case BindCatalog(library, path) => CatalogBound(p, library, path)
    case ObserveCatalog(item, mediaSource) =>
      if p.state != CatalogPending || !p.notificationAttempted || !Truthy(p.catalogLibraryId)
         || !Truthy(p.expectedCatalogPath)
         || item == "" || mediaSource == "" then Raised
      else Ok(p.(catalogItemId := Some(item), catalogMediaSourceId := Some(mediaSource)))
    case Deliver =>
      if p.state != CatalogPending || !p.notificationAttempted || !Truthy(p.catalogItemId)
         || !Truthy(p.catalogMediaSourceId) then Raised
      else Ok(p.(state := Delivered, previousGenerationId := None))
  }

  // Custody.

  function PublisherId(op: string): string {
    "publisher:" + op
  }

  function NewPublication(op: string, fenceReservationId: string, source: string, upstreamId: string,
                          downloadId: string, mediaId: string, bytes: int,
                          provenance: Provenance, digest: Option<string>): Publication {
    Publication(op, fenceReservationId, PublisherId(op), source, upstreamId, downloadId, mediaId, bytes,
                CustodyReserved, None, None, false, provenance, digest, None, None, None, None, map[], false, false,
                None, None, None, None)
  }

  predicate HoldsTerminal(p: Publication, m: TerminalMessage) {
    && p.fenceReservationId == m.fenceReservationId && p.source == m.source && p.upstreamId == m.upstreamId
    && p.downloadId == m.downloadId && p.mediaId == m.mediaId && p.bytesReserved == m.bytesReserved
  }

  function ReceiptOf(p: Publication): CustodyReceipt {
    CustodyReceipt(p.operationId, p.fenceReservationId, p.publisherReservationId)
  }

  function TerminalPublication(m: TerminalMessage): Publication {
    NewPublication(m.operationId, m.fenceReservationId, m.source, m.upstreamId, m.downloadId, m.mediaId,
                   m.bytesReserved, FromFence, None)
  }

  /** Reserves custody once; a redelivery answers the same receipt and a conflicting one raises. */
  function TerminalAdopted(d: Publications, m: TerminalMessage): Result<(Publications, CustodyReceipt)> {
    if m.operationId in d.at then
      if HoldsTerminal(d.at[m.operationId], m) then Ok((d, ReceiptOf(d.at[m.operationId]))) else Raised
    else
      var p := TerminalPublication(m);
      Ok((d.Put(m.operationId, p), ReceiptOf(p)))
  }

  /** Publications are kept under their own ids. */
  ghost predicate KeyedPublications(d: Publications) {
    && d.Valid()
    && forall op :: op in d.at ==> d.at[op].operationId == op && d.at[op].publisherReservationId == PublisherId(op)
  }

  lemma StepKeepsCustody(p: Publication, a: PublicationAction)
    requires PublicationStep(p, a).Ok?
    ensures PublicationStep(p, a).value.SameCustody(p)
  {
    hide LowerHex, UuidOfVersion, Split;
  }

  lemma PutKeepsKeyed(d: Publications, op: string, p: Publication)
    requires KeyedPublications(d) && p.operationId == op && p.publisherReservationId == PublisherId(op)
    ensures KeyedPublications(d.Put(op, p))
  {
    d.PutValid(op, p);
  }

  // Reading a publication back.

  /** The members are sound, and one of them is the payload with its very size and digest. */
  predicate BundleLoads(members: seq<Candidate>, payload: Candidate) {
    && 1 <= |members| <= 129 && DistinctPaths(members)
    && (forall i :: 0 <= i < |members| ==> CandidateOk(members[i]))
    && payload in members
  }

  predicate ProvenanceLoads(p: Publication) {
    match p.provenance
    case FromFence => p.manifestDigest.None?
    case Bootstrap => IntakeLoads(p, "bootstrap")
    case Assisted => IntakeLoads(p, "assisted")
  }

  predicate IntakeLoads(p: Publication, name: string) {
    && p.manifestDigest.Some? && LowerHex(p.manifestDigest.value, 64)
    && p.fenceReservationId == name + ":" + p.operationId && p.downloadId == name && !p.hardlinkFrozen
  }

  predicate IdentityLoads(p: Publication) {
    if p.assetSlot.None? then p.itemType.None? && p.providerIds == map[]
    else p.itemType.Some? && IdentityFits(p.source, p.assetSlot.value, p.itemType.value, p.providerIds)
  }

  predicate GenerationLoads(p: Publication) {
    if p.HasGeneration()
    then p.generationId == Some(p.operationId)
         && (p.previousGenerationId.Some? ==>
               GenerationIdOk(p.previousGenerationId.value) && p.previousGenerationId.value != p.operationId)
    else p.generationId.None? && p.previousGenerationId.None?
  }

  predicate CatalogLoads(p: Publication) {
    && (p.catalogLibraryId.Some? || p.expectedCatalogPath.Some? ==>
          Truthy(p.catalogLibraryId) && p.expectedCatalogPath.Some? && CatalogPathOk(p.expectedCatalogPath.value))
    && (p.catalogItemId.Some? || p.catalogMediaSourceId.Some? ==>
          p.notificationAttempted && Truthy(p.catalogItemId) && Truthy(p.catalogMediaSourceId))
    && (p.state == Delivered ==> p.previousGenerationId.None? && p.catalogItemId.Some?)
  }

  predicate CustodyLoads(p: Publication) {
    && p.operationId != "" && p.fenceReservationId != "" && p.upstreamId != "" && p.downloadId != "" && p.mediaId != ""
    && VideoSource(p.source) && p.bytesReserved > 0 && p.publisherReservationId == PublisherId(p.operationId)
  }

  /** A progressed publication has its candidate, and a bundle contains it. */
  predicate CandidateLoads(p: Publication) {
    && (p.state != CustodyReserved ==>
          p.candidate.Some? && p.candidate.value.path != "" && p.candidate.value.bytes > 0
          && |p.candidate.value.sha256| == 64)
    && (p.bundle.Some? ==> p.candidate.Some? && BundleLoads(p.bundle.value.members, p.candidate.value))
  }

  /** The checks that a durable publication must pass to be read back. */
  predicate PublicationLoads(p: Publication) {
    && CustodyLoads(p) && ProvenanceLoads(p) && CandidateLoads(p) && GenerationLoads(p) && IdentityLoads(p)
    && CatalogLoads(p)
  }

  function PublicationsOf(d: Publications): seq<Publication>
    requires d.Valid()
  {
    seq(|d.keys|, i requires 0 <= i < |d.keys| => d.at[d.keys[i]])
  }

  /** The table that records are read into, in their order. */
  function TableOf(records: seq<Publication>): Publications {
    if records == [] then EmptyDict()
    else TableOf(records[..|records| - 1]).Put(records[|records| - 1].operationId, records[|records| - 1])
  }

  predicate RecordsLoad(records: seq<Publication>) {
    && (forall i :: 0 <= i < |records| ==> PublicationLoads(records[i]))
    && forall i, j :: 0 <= i < j < |records| ==> records[i].operationId != records[j].operationId
  }

  /** Every publication of the table can be read back. */
  predicate AllLoad(d: Publications) {
    forall op :: op in d.at ==> PublicationLoads(d.at[op])
  }

  lemma {:induction false} TableIds(records: seq<Publication>)
    ensures forall op :: op in TableOf(records).at <==> exists i :: 0 <= i < |records| && records[i].operationId == op
  {
    if records != [] {
      var n := |records| - 1;
      TableIds(records[..n]);
      forall op | exists i :: 0 <= i < |records| && records[i].operationId == op
        ensures op in TableOf(records).at
      {
        var i :| 0 <= i < |records| && records[i].operationId == op;
        if i < n { assert records[..n][i].operationId == op; }
      }
      forall op | op in TableOf(records).at
        ensures exists i :: 0 <= i < |records| && records[i].operationId == op
      {
        if op != records[n].operationId {
          var i :| 0 <= i < n && records[..n][i].operationId == op;
          assert records[i].operationId == op;
        } else {
          assert records[n].operationId == op;
        }
      }
    }
  }

  /** A keyed table read back from its own records is the same table. */
  lemma {:induction false} TableReadBack(d: Publications, n: nat)
    requires KeyedPublications(d) && n <= |d.keys|
    ensures var t := TableOf(PublicationsOf(d)[..n]);
      && t.keys == d.keys[..n]
      && (forall op :: op in t.at <==> op in d.keys[..n]) && (forall op :: op in t.at ==> t.at[op] == d.at[op])
  {
    if n > 0 {
      TableReadBack(d, n - 1);
      var records := PublicationsOf(d);
      assert records[..n][..n - 1] == records[..n - 1];
      assert d.keys[..n] == d.keys[..n - 1] + [d.keys[n - 1]];
      assert records[n - 1].operationId == d.keys[n - 1];
      assert d.keys[n - 1] !in d.keys[..n - 1];
    }
  }

  lemma TableOfAll(d: Publications)
    requires KeyedPublications(d)
    ensures TableOf(PublicationsOf(d)) == d
  {
    TableReadBack(d, |d.keys|);
    assert PublicationsOf(d)[..|d.keys|] == PublicationsOf(d) && d.keys[..|d.keys|] == d.keys;
    assert TableOf(PublicationsOf(d)).at.Keys == d.at.Keys;
    hide TableOf;
  }

  lemma RecordsOfAll(d: Publications)
    requires KeyedPublications(d)
    ensures RecordsLoad(PublicationsOf(d)) <==> AllLoad(d)
  {
    hide PublicationLoads, TableOf;
    if RecordsLoad(PublicationsOf(d)) {
      forall op | op in d.at
        ensures PublicationLoads(d.at[op])
      {
        var i :| 0 <= i < |d.keys| && d.keys[i] == op;
        assert PublicationsOf(d)[i] == d.at[op];
      }
    }
  }

  class PublisherState {
    var publications: Publications

    ghost predicate Valid()
      reads this
    {
      KeyedPublications(publications)
    }

    constructor ()
      ensures Valid() && publications == EmptyDict()
    {
      publications := EmptyDict();
    }

    method ReplaceWith(other: PublisherState)
      modifies this
      ensures publications == old(other.publications)
    {
      publications := other.publications;
    }

    /** Reads durable records back, one by one. */
    static method FromRecords(records: seq<Publication>) returns (r: Result<PublisherState>)
      ensures r.Ok? <==> RecordsLoad(records)
      ensures r.Ok? ==> fresh(r.value) && r.value.publications == TableOf(records)
    {
      hide PublicationLoads;
      var state := new PublisherState();
      assert records[..0] == [];
      for i := 0 to |records|
        invariant fresh(state) && state.publications == TableOf(records[..i]) && RecordsLoad(records[..i])
      {
        TableIds(records[..i]);
        assert forall j :: 0 <= j < i ==> records[..i][j] == records[j];
        assert records[..i + 1] == records[..i] + [records[i]] && records[..i + 1][..i] == records[..i];
        if !PublicationLoads(records[i]) || records[i].operationId in state.publications.at {
          return Raised;
        }
        state.publications := state.publications.Put(records[i].operationId, records[i]);
      }
      assert records[..|records|] == records;
      return Ok(state);
    }

    /** A working copy: the table itself, or a raise when a publication cannot be read back. */
    method Clone() returns (r: Result<PublisherState>)
      requires Valid()
      ensures r.Ok? <==> AllLoad(publications)
      ensures r.Ok? ==> fresh(r.value) && r.value.Valid() && r.value.publications == publications
    {
      TableOfAll(publications);
      RecordsOfAll(publications);
      hide AllLoad, RecordsLoad, TableOf;
      r := FromRecords(PublicationsOf(publications));
    }

    method AdoptTerminal(m: TerminalMessage) returns (r: Result<CustodyReceipt>)
      requires Valid()
      modifies this
      ensures Valid()
      ensures match TerminalAdopted(old(publications), m)
              case Ok((after, receipt)) => r == Ok(receipt) && publications == after
              case Raised => r.Raised? && publications == old(publications)
    {
      if m.operationId in publications.at {
        var existing := publications.at[m.operationId];
        if m.fenceReservationId != existing.fenceReservationId || m.source != existing.source
           || m.upstreamId != existing.upstreamId
           || m.downloadId != existing.downloadId || m.mediaId != existing.mediaId
           || m.bytesReserved != existing.bytesReserved {
          return Raised;
        }
        return Ok(CustodyReceipt(existing.operationId, existing.fenceReservationId, existing.publisherReservationId));
      }
      var publication := TerminalPublication(m);
      PutKeepsKeyed(publications, m.operationId, publication);
      publications := publications.Put(m.operationId, publication);
      return Ok(CustodyReceipt(publication.operationId, publication.fenceReservationId,
                               publication.publisherReservationId));
    }

    /** Overwrites one publication with the outcome of a transition, or raises and leaves it. */
    method Update(op: string, a: PublicationAction) returns (r: Result<()>)
      requires Valid()
      modifies this
      ensures Valid()
      ensures r.Ok? <==> op in old(publications.at) && PublicationStep(old(publications).at[op], a).Ok?
      ensures r.Ok? ==> publications == old(publications).Put(op, PublicationStep(old(publications).at[op], a).value)
      ensures r.Raised? ==> publications == old(publications)
    {
      hide PublicationStep, KeyedPublications;
      if op !in publications.at {
        return Raised;
      }
      var publication := publications.at[op];
      var next: Publication :- Changed(publication, a);
      StepKeepsCustody(publication, a);
      KeyedAt(publications, op);
      PutKeepsKeyed(publications, op, next);
      publications := publications.Put(op, next);
      return Ok(());
    }

    /** The checks of each transition and what it replaces. */
    static method Changed(p: Publication, a: PublicationAction) returns (r: Result<Publication>)
      ensures r == PublicationStep(p, a)
    {
      hide LowerHex, UuidOfVersion, Split;
      match a {
        case VerifyCandidate(c) =>
          r := VerifiedAs(p, c);
        case VerifyBundle(b) =>
          if !BundleOk(b) {
            return Raised;
          }
          var verified :- VerifiedAs(p, b.payload);
          return Ok(verified.(bundle := Some(b)));
        case FreezeHardlinks =>
          if p.state != CustodyReserved {
            return Raised;
          }
          return Ok(p.(hardlinkFrozen := true));
        case BindAsset(slot, itemType, providerIds) =>
          if !AssetOk(p, slot, itemType, providerIds) {
            return Raised;
          }
          return Ok(p.(assetSlot := Some(slot), itemType := Some(itemType), providerIds := providerIds));
        case RecordIntent(previous) =>
          if p.state != CandidateVerified || p.candidate.None? {
            return Raised;
          }
          if previous.Some? && (!GenerationIdOk(previous.value) || previous.value == p.operationId) {
            return Raised;
          }
          return Ok(p.(state := GenerationIntent, generationId := Some(p.operationId),
                       previousGenerationId := previous));
        case CommitGeneration =>
          if p.state != GenerationIntent {
            return Raised;
          }
          return Ok(p.(state := CatalogPending));
        case AttemptNotification =>
          if p.state != CatalogPending || !Truthy(p.catalogLibraryId) || !Truthy(p.expectedCatalogPath) {
            return Raised;
          }
          return Ok(p.(notificationAttempted := true));
        case MarkConflict =>
          return Ok(p.(publicConflict := true));
        case BindCatalog(library, path) =>
          r := CatalogBoundTo(p, library, path);
        case ObserveCatalog(item, mediaSource) =>
          if p.state != CatalogPending || !p.notificationAttempted || !Truthy(p.catalogLibraryId)
             || !Truthy(p.expectedCatalogPath)
             || item == "" || mediaSource == "" {
            return Raised;
          }
          return Ok(p.(catalogItemId := Some(item), catalogMediaSourceId := Some(mediaSource)));
        case Deliver =>
          if p.state != CatalogPending || !p.notificationAttempted || !Truthy(p.catalogItemId)
             || !Truthy(p.catalogMediaSourceId) {
            return Raised;
          }
          return Ok(p.(state := Delivered, previousGenerationId := None));
      }
    }

    static method VerifiedAs(p: Publication, c: Candidate) returns (r: Result<Publication>)
      ensures r == Verified(p, c)
    {
      if p.state != CustodyReserved || !CandidateOk(c) {
        return Raised;
      }
      return Ok(p.(state := CandidateVerified, candidate := Some(c)));
    }

    /** A new binding, or a changed one that nothing has relied on yet, forgets the observed item. */
    static method CatalogBoundTo(p: Publication, library: string, path: string) returns (r: Result<Publication>)
      ensures r == CatalogBound(p, library, path)
    {
      if (p.state != CatalogPending && p.state != Delivered) || library == "" || !CatalogPathOk(path) {
        return Raised;
      }
      var unbound := p.catalogLibraryId.None? && p.expectedCatalogPath.None?;
      var next := p.(catalogLibraryId := Some(library), expectedCatalogPath := Some(path));
      if !unbound && (p.catalogLibraryId != Some(library) || p.expectedCatalogPath != Some(path)) {
        if p.state == Delivered || p.catalogItemId.Some? || p.catalogMediaSourceId.Some? {
          return Raised;
        }
        next := next.(catalogItemId := None, catalogMediaSourceId := None);
      } else if unbound && p.state == CatalogPending {
        next := next.(catalogItemId := None, catalogMediaSourceId := None);
      }
      return Ok(next);
    }

    /** An owner-bound, already sealed candidate without Fence custody. */
    method AdoptBootstrap(op: string, source: string, upstreamId: string, mediaId: string, slot: string,
                          itemType: ItemType, providerIds: map<string, string>, bundle: Bundle, bytes: int,
                          digest: string) returns (r: Result<()>)
      requires Valid()
      modifies this
      ensures r.Ok? ==> Valid() && LowerHex(digest, 64) && VideoSource(source)
      ensures r.Ok? && op in old(publications.at) ==>
        publications == old(publications)
        && SameBootstrap(publications.at[op], source, upstreamId, mediaId, slot, itemType, providerIds, bundle, digest)
      ensures r.Ok? && op !in old(publications.at) ==>
        publications == old(publications).Put(op, Sealed(
          NewPublication(op, "bootstrap:" + op, source, upstreamId, "bootstrap", mediaId, bytes, Bootstrap,
                         Some(digest)),
          bundle, slot, itemType, providerIds))
    {
      hide LowerHex, KeyedPublications;
      ghost var before := publications;
      if !LowerHex(digest, 64) || !VideoSource(source) {
        return Raised;
      }
      if op in publications.at {
        var existing := publications.at[op];
        if !SameBootstrap(existing, source, upstreamId, mediaId, slot, itemType, providerIds, bundle, digest) {
          return Raised;
        }
        return Ok(());
      }
      var publication := NewPublication(op, "bootstrap:" + op, source, upstreamId, "bootstrap", mediaId, bytes,
                                        Bootstrap, Some(digest));
      PutKeepsKeyed(publications, op, publication);
      publications := publications.Put(op, publication);
      r := Seal(op, bundle, slot, itemType, providerIds);
      PutTwice(before, op, publication, Sealed(publication, bundle, slot, itemType, providerIds));
    }

    /** Verifies the bundle of a reserved publication and binds its asset. */
    method Seal(op: string, bundle: Bundle, slot: string, itemType: ItemType, providerIds: map<string,
                string>) returns (r: Result<()>)
      requires Valid() && op in publications.at
      modifies this
      ensures r.Ok? ==> Valid() && old(publications).at[op].state == CustodyReserved
      ensures r.Ok? ==>
        publications == old(publications).Put(op, Sealed(old(publications).at[op], bundle, slot, itemType, providerIds))
    {
      hide PublicationStep, KeyedPublications;
      ghost var before := publications;
      var _ :- Update(op, VerifyBundle(bundle));
      var _ :- Update(op, BindAsset(slot, itemType, providerIds));
      SealedBySteps(before.at[op], bundle, slot, itemType, providerIds);
      PutTwice(before, op, PublicationStep(before.at[op], VerifyBundle(bundle)).value,
               Sealed(before.at[op], bundle, slot, itemType, providerIds));
      return Ok(());
    }

    /** Completes an assisted intake that was recorded before, once. */
    method CompleteAssisted(op: string, slot: string, itemType: ItemType, providerIds: map<string, string>,
                            bundle: Bundle, bytes: int, digest: string) returns (r: Result<()>)
      requires Valid()
      modifies this
      ensures r.Ok? ==> Valid() && op in old(publications.at) && old(publications).at[op].provenance == Assisted
      ensures r.Ok? ==>
        old(publications).at[op].manifestDigest == Some(digest) && old(publications).at[op].bytesReserved == bytes
      ensures r.Ok? && old(publications).at[op].state == CustodyReserved ==>
        publications == old(publications).Put(op, Sealed(old(publications).at[op], bundle, slot, itemType, providerIds))
      ensures r.Ok? && old(publications).at[op].state != CustodyReserved ==>
        publications == old(publications) && SameIdentity(publications.at[op], slot, itemType, providerIds, bundle)
    {
      if op !in publications.at {
        return Raised;
      }
      var publication := publications.at[op];
      if publication.provenance != Assisted || publication.manifestDigest != Some(digest)
         || publication.bytesReserved != bytes {
        return Raised;
      }
      if publication.state != CustodyReserved {
        if publication.assetSlot != Some(slot) || publication.itemType != Some(itemType)
           || publication.providerIds != providerIds || publication.bundle != Some(bundle) {
          return Raised;
        }
        return Ok(());
      }
      r := Seal(op, bundle, slot, itemType, providerIds);
    }

    method RecordAssistedIntent(op: string, source: string, upstreamId: string, mediaId: string, expectedBytes: int,
                                digest: string) returns (r: Result<()>)
      requires Valid()
      modifies this
      ensures Valid()
      ensures r.Raised? ==> publications == old(publications)
      ensures r.Ok? ==> LowerHex(digest, 64) && VideoSource(source) && expectedBytes > 0
      ensures r.Ok? && op !in old(publications.at) ==>
        publications == old(publications).Put(op, NewPublication(
          op, "assisted:" + op, source, upstreamId, "assisted", mediaId, expectedBytes, Assisted, Some(digest)))
      ensures r.Ok? && op in old(publications.at) ==>
        publications == old(publications)
        && SameAssisted(publications.at[op], source, upstreamId, mediaId, expectedBytes, digest)
    {
      if !LowerHex(digest, 64) || !VideoSource(source) || expectedBytes <= 0 {
        return Raised;
      }
      if op in publications.at {
        var existing := publications.at[op];
        if existing.provenance != Assisted || existing.manifestDigest != Some(digest) || existing.source != source
           || existing.upstreamId != upstreamId || existing.mediaId != mediaId
           || existing.bytesReserved != expectedBytes {
          return Raised;
        }
        return Ok(());
      }
      var publication := NewPublication(op, "assisted:" + op, source, upstreamId, "assisted", mediaId, expectedBytes,
                                        Assisted, Some(digest));
      PutKeepsKeyed(publications, op, publication);
      publications := publications.Put(op, publication);
      return Ok(());
    }
  }

  /** A reserved publication with its verified bundle and its asset bound. */
  function Sealed(p: Publication, bundle: Bundle, slot: string, itemType: ItemType, providerIds: map<string,
                  string>): Publication {
    p.(state := CandidateVerified, candidate := Some(bundle.payload), bundle := Some(bundle),
       assetSlot := Some(slot), itemType := Some(itemType), providerIds := providerIds)
  }

  predicate SameIdentity(p: Publication, slot: string, itemType: ItemType, providerIds: map<string, string>,
                         bundle: Bundle) {
    p.assetSlot == Some(slot) && p.itemType == Some(itemType) && p.providerIds == providerIds
    && p.bundle == Some(bundle)
  }

  predicate SameAssisted(p: Publication, source: string, upstreamId: string, mediaId: string, expectedBytes: int,
                         digest: string) {
    && p.provenance == Assisted && p.manifestDigest == Some(digest) && p.source == source
    && p.upstreamId == upstreamId && p.mediaId == mediaId && p.bytesReserved == expectedBytes
  }

  predicate SameBootstrap(p: Publication, source: string, upstreamId: string, mediaId: string, slot: string,
                          itemType: ItemType,
                          providerIds: map<string, string>, bundle: Bundle, digest: string) {
    && p.provenance == Bootstrap && p.manifestDigest == Some(digest) && p.source == source && p.upstreamId == upstreamId
    && p.mediaId == mediaId
    && p.assetSlot == Some(slot) && p.itemType == Some(itemType) && p.providerIds == providerIds
    && p.bundle == Some(bundle)
  }

  lemma SealedBySteps(p: Publication, bundle: Bundle, slot: string, itemType: ItemType, providerIds: map<string,
                      string>)
    requires PublicationStep(p, VerifyBundle(bundle)).Ok?
    requires PublicationStep(PublicationStep(p, VerifyBundle(bundle)).value, BindAsset(slot, itemType, providerIds)).Ok?
    ensures p.state == CustodyReserved
    ensures PublicationStep(PublicationStep(p, VerifyBundle(bundle)).value,
                            BindAsset(slot, itemType, providerIds)).value
            == Sealed(p, bundle, slot, itemType, providerIds)
  {
    hide LowerHex, BundleOk, AssetOk, Split;
  }

  lemma PutTwice(d: Publications, op: string, a: Publication, b: Publication)
    ensures d.Put(op, a).Put(op, b) == d.Put(op, b)
  {
    assert d.at[op := a][op := b] == d.at[op := b];
  }

  lemma KeyedAt(d: Publications, op: string)
    requires KeyedPublications(d) && op in d.at
    ensures d.at[op].operationId == op && d.at[op].publisherReservationId == PublisherId(op)
  {
  }
}
