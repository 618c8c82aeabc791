/** The mutable ledger object, each method proved against its transition on the ledger value. */
module FenceModel {
  import opened Common
  import opened FenceEntry
  import opened FenceLedger
  import opened FenceReload

  /** `ok` tells whether the call returned; a raised call leaves the ledger as it was. */
  ghost predicate Stepped(before: Ledger, op: string, a: OpAction, after: Ledger, ok: bool) {
    && before.Keyed()
    && (ok <==> Apply(before, Op(op, a)).Ok?)
    && after == if ok then Apply(before, Op(op, a)).value else before
  }

  /** A transition that went through keeps the ledger keyed. */
  lemma OpApplied(before: Ledger, op: string, a: OpAction, after: Ledger)
    requires before.Keyed() && before.Has(op)
    requires EntryStep(before.EntryOf(op), a, before.quiescing).Ok?
    requires after == before.PutEntry(op, EntryStep(before.EntryOf(op), a, before.quiescing).value)
    ensures after.Keyed() && Apply(before, Op(op, a)) == Ok(after)
  {
    ApplyKeyed(before, Op(op, a));
  }

  /** Tables that an entry leaves alone are written back unchanged. */
  lemma TablesUnchanged(l: Ledger, op: string)
    ensures Store(l.postPnr, op, Lookup(l.postPnr, op)) == l.postPnr
    ensures Store(l.historical, op, Lookup(l.historical, op)) == l.historical
    ensures Store(l.activations, op, Lookup(l.activations, op)) == l.activations
    ensures Store(l.video, op, Lookup(l.video, op)) == l.video
    ensures Store(l.music, op, Lookup(l.music, op)) == l.music
    ensures l.Has(op) ==> l.reservations.Put(op, l.reservations.at[op]) == l.reservations
  {
    StoreLookup(l.postPnr, op);
    StoreLookup(l.historical, op);
    StoreLookup(l.activations, op);
    StoreLookup(l.video, op);
    StoreLookup(l.music, op);
  }

  /** A new operation has nothing in any table. */
  lemma TablesEmpty(l: Ledger, op: string)
    requires l.Keyed() && !l.Has(op)
    ensures op !in l.postPnr && op !in l.historical && op !in l.activations && op !in l.video && op !in l.music
  {
  }

  // Rebuilding the ledger from a snapshot, table by table.

  method LoadReservations(records: seq<Reservation>) returns (r: Result<Dict<Reservation>>)
    ensures r.Ok? <==> RecordsOk(records)
    ensures r.Ok? ==> r.value == Load(records)
  {
    hide RecordOk;
    var result: Dict<Reservation> := EmptyDict();
    var i := 0;
    while i < |records|
      invariant 0 <= i <= |records|
      invariant result == Load(records[..i])
      invariant RecordsOk(records[..i])
      invariant forall k :: k in result.at <==> exists j :: 0 <= j < i && records[j].operationId == k
    {
      var item := records[i];
      if !RecordOk(item) {
        return Raised;
      }
      if item.operationId in result.at {
        return Raised;
      }
      assert records[..i + 1][..i] == records[..i];
      result := result.Put(item.operationId, item);
      i := i + 1;
    }
    assert records[..i] == records;
    return Ok(result);
  }

  method LoadWatermarks(watermarks: map<string, int>) returns (r: Result<map<string, int>>)
    ensures r.Ok? <==> WatermarksOk(watermarks)
    ensures r.Ok? ==> r.value == watermarks
  {
    var result: map<string, int> := map[];
    var todo := watermarks.Keys;
    while todo != {}
      invariant todo <= watermarks.Keys && result.Keys == watermarks.Keys - todo
      invariant forall source ::
        source in result ==> source != "" && watermarks[source] >= 0 && result[source] == watermarks[source]
      decreases todo
    {
      var source :| source in todo;
      if source == "" || watermarks[source] < 0 {
        return Raised;
      }
      result := result[source := watermarks[source]];
      todo := todo - {source};
    }
    assert result == watermarks;
    return Ok(result);
  }

  method LoadPostPnr(policy: Policy, at: map<string, Reservation>, table: map<string,
                     PostPnrIntent>) returns (r: Result<map<string, PostPnrIntent>>)
    ensures r.Ok? <==> PostPnrTableOk(policy, at, table)
    ensures r.Ok? ==> r.value == table
  {
    hide PostPnrOk;
    var result: map<string, PostPnrIntent> := map[];
    var todo := table.Keys;
    while todo != {}
      invariant todo <= table.Keys && result.Keys == table.Keys - todo
      invariant forall op ::
        op in result ==> op in at && PostPnrOk(policy, at[op], table[op]) && result[op] == table[op]
      decreases todo
    {
      var op :| op in todo;
      if op !in at || !PostPnrOk(policy, at[op], table[op]) {
        return Raised;
      }
      result := result[op := table[op]];
      todo := todo - {op};
    }
    assert result == table;
    return Ok(result);
  }

  method LoadHistorical(policy: Policy, at: map<string, Reservation>, table: map<string,
                        HistoricalIntent>) returns (r: Result<map<string, HistoricalIntent>>)
    ensures r.Ok? <==> HistoricalTableOk(policy, at, table)
    ensures r.Ok? ==> r.value == table
  {
    hide HistoricalOk, HashElsewhere;
    var result: map<string, HistoricalIntent> := map[];
    var todo := table.Keys;
    while todo != {}
      invariant todo <= table.Keys && result.Keys == table.Keys - todo
      invariant forall op :: op in result ==>
        op in at && HistoricalOk(policy, at[op], table[op]) && !HashElsewhere(at, op, table[op].torrentHash)
        && result[op] == table[op]
      decreases todo
    {
      var op :| op in todo;
      if op !in at || !HistoricalOk(policy, at[op], table[op]) || HashElsewhere(at, op, table[op].torrentHash) {
        return Raised;
      }
      result := result[op := table[op]];
      todo := todo - {op};
    }
    assert result == table;
    return Ok(result);
  }

  method LoadActivations(at: map<string, Reservation>, historical: map<string, HistoricalIntent>, table: map<string,
                         Activation>) returns (r: Result<map<string, Activation>>)
    ensures r.Ok? <==> ActivationTableOk(at, historical, table)
    ensures r.Ok? ==> r.value == table
  {
    hide ActivationOk;
    var result: map<string, Activation> := map[];
    var todo := table.Keys;
    while todo != {}
      invariant todo <= table.Keys && result.Keys == table.Keys - todo
      invariant forall op ::
        op in result ==> op in at && op in historical && ActivationOk(at[op], table[op]) && result[op] == table[op]
      decreases todo
    {
      var op :| op in todo;
      if op !in historical || op !in at || !ActivationOk(at[op], table[op]) {
        return Raised;
      }
      result := result[op := table[op]];
      todo := todo - {op};
    }
    assert result == table;
    return Ok(result);
  }

  method LoadVideo(at: map<string, Reservation>, table: map<string, VideoCandidate>) returns (r: Result<map<string,
                   VideoCandidate>>)
    ensures r.Ok? <==> VideoTableOk(at, table)
    ensures r.Ok? ==> r.value == KeptVideo(at, table)
  {
    hide VideoVerdict;
    var result: map<string, VideoCandidate> := map[];
    var todo := table.Keys;
    while todo != {}
      invariant todo <= table.Keys
      invariant forall op :: op in table.Keys - todo ==> op in at && VideoVerdict(at[op], table[op]) != Reject
      invariant forall op :: op in result <==> op in table.Keys - todo && VideoVerdict(at[op], table[op]) == Keep
      invariant forall op :: op in result ==> result[op] == table[op]
      decreases todo
    {
      var op :| op in todo;
      if op !in at {
        return Raised;
      }
      var verdict := VideoVerdict(at[op], table[op]);
      if verdict == Reject {
        return Raised;
      }
      todo := todo - {op};
      if verdict == Drop {
        continue;
      }
      assert verdict == Keep;
      result := result[op := table[op]];
    }
    assert result == KeptVideo(at, table);
    return Ok(result);
  }

  method LoadMusic(at: map<string, Reservation>, table: map<string, MusicCandidate>) returns (r: Result<map<string,
                   MusicCandidate>>)
    ensures r.Ok? <==> MusicTableOk(at, table)
    ensures r.Ok? ==> r.value == table
  {
    hide MusicOk;
    var result: map<string, MusicCandidate> := map[];
    var todo := table.Keys;
    while todo != {}
      invariant todo <= table.Keys && result.Keys == table.Keys - todo
      invariant forall op :: op in result ==> op in at && MusicOk(at[op], table[op]) && result[op] == table[op]
      decreases todo
    {
      var op :| op in todo;
      if op !in at || !MusicOk(at[op], table[op]) {
        return Raised;
      }
      result := result[op := table[op]];
      todo := todo - {op};
    }
    assert result == table;
    return Ok(result);
  }

  /** Forgetting candidates keeps the ledger keyed. */
  lemma FewerVideosKeyed(l: Ledger, video: map<string, VideoCandidate>)
    requires l.Keyed()
    requires forall op :: op in video ==> op in l.video && video[op] == l.video[op]
    ensures l.(video := video).Keyed()
  {
    var copy := l.(video := video);
    forall op | op in copy.reservations.at
      ensures EntryKeyed(op, copy.EntryOf(op))
    {
      assert EntryKeyed(op, l.EntryOf(op));
    }
  }

  /** A working copy keeps every record under its own operation id. */
  lemma CloneKeyed(l: Ledger)
    requires l.Keyed() && CloneOf(l).Ok?
    ensures CloneOf(l).value.Keyed()
    ensures CloneOf(l).value == l.(video := KeptVideo(l.reservations.at, l.video))
  {
    KeyedIds(l);
    LoadRecords(l.reservations);
    ReloadWithoutAdoptions(l.policy, Records(l.reservations), l.video, l.music);
    FewerVideosKeyed(l, KeptVideo(l.reservations.at, l.video));
    hide RecordsOk, Records, VideoTableOk, MusicTableOk, Load, RecordOk, Reload, VideoVerdict, KeptVideo, Ledger.Keyed;
  }

  lemma TotalFrom(weight: Entry -> int, entries: seq<Entry>, i: nat)
    requires i < |entries|
    ensures Total(weight, entries[i..]) == weight(entries[i]) + Total(weight, entries[i + 1..])
  {
    assert entries[i..][0] == entries[i] && entries[i..][1..] == entries[i + 1..];
  }

  class FenceState {
    const policy: Policy
    var reservations: Dict<Reservation>
    var watermarks: map<string, int>
    var quiescing: bool
    var postPnr: map<string, PostPnrIntent>
    var historical: map<string, HistoricalIntent>
    var activations: map<string, Activation>
    var video: map<string, VideoCandidate>
    var music: map<string, MusicCandidate>

    function Value(): Ledger
      reads this
    {
      Ledger(policy, reservations, watermarks, quiescing, postPnr, historical, activations, video, music)
    }

    ghost predicate Valid()
      reads this
    {
      Value().Keyed()
    }

    constructor (policy: Policy)
      ensures Value() == EmptyLedger(policy) && Valid()
    {
      this.policy := policy;
      reservations := EmptyDict();
      watermarks := map[];
      quiescing := false;
      postPnr, historical, activations, video, music := map[], map[], map[], map[], map[];
    }

    // Snapshots and working copies.

    static method FromSnapshot(policy: Policy, s: Snapshot) returns (r: Result<FenceState>)
      ensures r.Ok? <==> Reload(policy, s).Ok?
      ensures r.Ok? ==> fresh(r.value) && Reload(policy, s) == Ok(r.value.Value())
    {
      hide RecordsOk, WatermarksOk, PostPnrTableOk, HistoricalTableOk, ActivationTableOk, VideoTableOk, MusicTableOk,
           Load, KeptVideo;
      var reservations :- LoadReservations(s.reservations);
      var watermarks :- LoadWatermarks(s.watermarks);
      var postPnr :- LoadPostPnr(policy, reservations.at, s.postPnr);
      var historical :- LoadHistorical(policy, reservations.at, s.historical);
      var activations :- LoadActivations(reservations.at, s.historical, s.activations);
      var video :- LoadVideo(reservations.at, s.video);
      var music :- LoadMusic(reservations.at, s.music);
      var state := new FenceState(policy);
      state.reservations, state.watermarks, state.quiescing := reservations, watermarks, s.quiescing;
      state.postPnr, state.historical, state.activations := postPnr, historical, activations;
      state.video, state.music := video, music;
      return Ok(state);
    }

    method Clone() returns (r: Result<FenceState>)
      requires Valid()
      ensures r.Ok? <==> CloneOf(Value()).Ok?
      ensures r.Ok? ==>
        fresh(r.value) && r.value.policy == policy && r.value.Valid() && CloneOf(Value()) == Ok(r.value.Value())
    {
      assert reservations.Valid();
      hide Reload, Ledger.Keyed;
      var copy :- FromSnapshot(policy,
                               Snapshot(Records(reservations), map[], false, map[], map[], map[], video, music));
      copy.watermarks, copy.quiescing := watermarks, quiescing;
      copy.postPnr, copy.historical, copy.activations := postPnr, historical, activations;
      CloneKeyed(Value());
      return Ok(copy);
    }

    method ReplaceWith(other: FenceState)
      requires other.policy == policy && other.Valid()
      modifies this
      ensures Valid() && Value() == old(other.Value())
    {
      hide Ledger.Keyed;
      reservations, watermarks, quiescing := other.reservations, other.watermarks, other.quiescing;
      postPnr, historical, activations := other.postPnr, other.historical, other.activations;
      video, music := other.video, other.music;
    }

    method BeginQuiescence()
      requires Valid()
      modifies this
      ensures Valid() && Apply(old(Value()), Action.BeginQuiescence) == Ok(Value())
    {
      ghost var before := Value();
      quiescing := true;
      KeyedIgnoresFlags(before, Value());
    }

    method EndQuiescence()
      requires Valid()
      modifies this
      ensures Valid() && Apply(old(Value()), Action.EndQuiescence) == Ok(Value())
    {
      ghost var before := Value();
      quiescing := false;
      KeyedIgnoresFlags(before, Value());
    }

    method RecordWatermark(source: string, watermark: int) returns (r: Result<()>)
      requires Valid()
      modifies this
      ensures Valid()
      ensures var next := Apply(old(Value()), Action.RecordWatermark(source, watermark));
        (r.Ok? <==> next.Ok?) && Value() == if r.Ok? then next.value else old(Value())
    {
      if source == "" || watermark < 0 {
        return Raised;
      }
      if source in watermarks && watermark < watermarks[source] {
        return Raised;
      }
      ghost var before := Value();
      watermarks := watermarks[source := watermark];
      KeyedIgnoresFlags(before, Value());
      return Ok(());
    }

    // Admission.

    /** Reservations under way; a historical adoption that is already managed takes no place. */
    method CountInflight() returns (n: int)
      requires Valid()
      ensures n == Value().Inflight()
    {
      n := 0;
      var keys := reservations.keys;
      ghost var entries := Value().Entries();
      var i := |keys|;
      hide Ledger.Keyed;
      while i > 0
        invariant 0 <= i <= |keys| && n == Total(InflightWeight, entries[i..])
      {
        i := i - 1;
        TotalFrom(InflightWeight, entries, i);
        var op := keys[i];
        if reservations.at[op].state !in {Released, Invalidated}
           && !(op in historical && op in activations && activations[op] == Managed) {
          n := n + 1;
        }
      }
      assert entries[0..] == entries;
    }

    method SumReserved() returns (bytes: int)
      requires Valid()
      ensures bytes == Value().ReservedBytes()
    {
      bytes := 0;
      var keys := reservations.keys;
      ghost var entries := Value().Entries();
      var i := |keys|;
      hide Ledger.Keyed;
      while i > 0
        invariant 0 <= i <= |keys| && bytes == Total(ReservedWeight, entries[i..])
      {
        i := i - 1;
        TotalFrom(ReservedWeight, entries, i);
        if reservations.at[keys[i]].state !in {Released, Invalidated} {
          bytes := bytes + reservations.at[keys[i]].bytesReserved;
        }
      }
      assert entries[0..] == entries;
    }

    method FindObservation(fingerprint: string) returns (found: Option<string>)
      requires Valid()
      ensures found == Value().OperationForObservation(fingerprint)
    {
      var i := 0;
      while i < |reservations.keys|
        invariant 0 <= i <= |reservations.keys|
        invariant FirstWithFingerprint(reservations, fingerprint, 0)
                  == FirstWithFingerprint(reservations, fingerprint, i)
      {
        var op := reservations.keys[i];
        if reservations.at[op].observationFingerprint == Some(fingerprint) {
          return Some(op);
        }
        i := i + 1;
      }
      return None;
    }

    method FindHash(hash: string) returns (taken: bool)
      requires Valid()
      ensures taken <==> Value().HashTaken(hash)
    {
      var i := 0;
      while i < |reservations.keys|
        invariant 0 <= i <= |reservations.keys|
        invariant forall j :: 0 <= j < i ==> reservations.at[reservations.keys[j]].torrentHash != Some(hash)
      {
        if reservations.at[reservations.keys[i]].torrentHash == Some(hash) {
          return true;
        }
        i := i + 1;
      }
      return false;
    }

    /** Room for one more reservation, by number first and then by size. */
    method Room(expectedBytes: int) returns (refused: Option<Reason>)
      requires Valid()
      ensures refused == if Value().Inflight() >= policy.maxInflight then Some(ConcurrencyExhausted)
                         else if Value().ReservedBytes() + expectedBytes > policy.capacityBytes then Some(CapacityExhausted)
                         else None
    {
      hide Ledger.Keyed, Ledger.Inflight, Ledger.ReservedBytes;
      var inflight := CountInflight();
      if inflight >= policy.maxInflight {
        return Some(ConcurrencyExhausted);
      }
      var reserved := SumReserved();
      if reserved + expectedBytes > policy.capacityBytes {
        return Some(CapacityExhausted);
      }
      return None;
    }

    method DecidePreAdmission(intent: PreAdmissionIntent, qbittorrentReady: bool, prowlarrReady: bool,
                              publisherReady: bool) returns (decision: Decision)
      requires Valid()
      ensures decision == PreAdmitDecision(Value(), intent, qbittorrentReady, prowlarrReady, publisherReady)
    {
      hide Ledger.Keyed, Ledger.Inflight, Ledger.ReservedBytes, PreAdmissionValid;
      if quiescing {
        return Decision(false, Quiescing);
      }
      if intent.operationId in reservations.at {
        var existing := reservations.at[intent.operationId];
        if existing.source != intent.source || existing.mediaId != intent.mediaId
           || existing.requestedBytes != intent.expectedBytes
           || existing.selectorFingerprint != Some(intent.selectorFingerprint)
           || existing.watermark != Some(intent.watermark) {
          return Decision(false, Conflict);
        }
        return Decision(existing.state != Released, Idempotent);
      }
      if !qbittorrentReady {
        return Decision(false, QbittorrentUnready);
      }
      if !prowlarrReady {
        return Decision(false, ProwlarrUnready);
      }
      if !publisherReady {
        return Decision(false, PublisherBackpressure);
      }
      var refused := Room(intent.expectedBytes);
      if refused.Some? {
        return Decision(false, refused.value);
      }
      if !PreAdmissionValid(intent) {
        return Decision(false, InvalidIntent);
      }
      return Decision(true, Admitted);
    }

    method DecideExternal(intent: ExternalIntent, qbittorrentReady: bool,
                          publisherReady: bool) returns (decision: Decision)
      requires Valid()
      ensures decision == ExternalDecision(Value(), intent, qbittorrentReady, publisherReady)
    {
      var byFingerprint := FindObservation(intent.observationFingerprint);
      hide Ledger.Keyed, Ledger.Inflight, Ledger.ReservedBytes, ExternalValid, SameObservation,
           Ledger.OperationForObservation;
      if quiescing {
        return Decision(false, Quiescing);
      }
      if !ExternalValid(intent) {
        return Decision(false, InvalidIntent);
      }
      if intent.operationId in reservations.at || byFingerprint.Some? {
        var op := if intent.operationId in reservations.at then intent.operationId else byFingerprint.value;
        if op !in reservations.at || !SameObservation(reservations.at[op], intent) {
          return Decision(false, Conflict);
        }
        return Decision(true, Idempotent);
      }
      if !qbittorrentReady {
        return Decision(false, QbittorrentUnready);
      }
      if !publisherReady {
        return Decision(false, PublisherBackpressure);
      }
      var refused := Room(intent.expectedBytes);
      return if refused.Some? then Decision(false, refused.value) else Decision(true, Admitted);
    }

    method DecidePostPnr(intent: PostPnrIntent, qbittorrentReady: bool) returns (decision: Decision)
      requires Valid()
      ensures decision == PostPnrDecision(Value(), intent, qbittorrentReady)
    {
      hide PostPnrValid, SamePostPnr;
      if !PostPnrValid(intent) {
        return Decision(false, InvalidIntent);
      }
      if quiescing {
        return Decision(false, Quiescing);
      }
      if intent.operationId in postPnr {
        var same := SamePostPnr(postPnr[intent.operationId], intent);
        return Decision(same, if same then Idempotent else Conflict);
      }
      decision := DecideAdoption(intent.operationId, intent.torrentHash, intent.expectedBytes, qbittorrentReady);
    }

    /** What both deployment-authorised adoptions are checked for once they are new. */
    method DecideAdoption(op: string, torrentHash: string, expectedBytes: int,
                          qbittorrentReady: bool) returns (decision: Decision)
      requires Valid()
      ensures decision == if Value().Has(op) || Value().HashTaken(torrentHash) then Decision(false, Conflict)
                          else if !qbittorrentReady then Decision(false, QbittorrentUnready)
                          else if Value().Inflight() >= policy.maxInflight then Decision(false, ConcurrencyExhausted)
                          else if Value().ReservedBytes() + expectedBytes > policy.capacityBytes then Decision(false, CapacityExhausted)
                          else Decision(true, Admitted)
    {
      hide Ledger.Keyed, Ledger.Inflight, Ledger.ReservedBytes, Ledger.HashTaken;
      var taken := FindHash(torrentHash);
      if op in reservations.at || taken {
        return Decision(false, Conflict);
      }
      if !qbittorrentReady {
        return Decision(false, QbittorrentUnready);
      }
      var refused := Room(expectedBytes);
      return if refused.Some? then Decision(false, refused.value) else Decision(true, Admitted);
    }

    method DecideHistorical(intent: HistoricalIntent, qbittorrentReady: bool) returns (decision: Decision)
      requires Valid()
      ensures decision == HistoricalDecision(Value(), intent, qbittorrentReady)
    {
      hide HistoricalValid, SameHistorical;
      if !HistoricalValid(intent) {
        return Decision(false, InvalidIntent);
      }
      if quiescing {
        return Decision(false, Quiescing);
      }
      if intent.operationId in historical {
        var same := SameHistorical(historical[intent.operationId], intent);
        return Decision(same, if same then Idempotent else Conflict);
      }
      decision := DecideAdoption(intent.operationId, intent.torrentHash, intent.expectedBytes, qbittorrentReady);
    }

    method PreAdmit(intent: PreAdmissionIntent, qbittorrentReady: bool, prowlarrReady: bool,
                    publisherReady: bool) returns (decision: Decision)
      requires Valid()
      modifies this
      ensures Valid()
      ensures decision == PreAdmitDecision(old(Value()), intent, qbittorrentReady, prowlarrReady, publisherReady)
      ensures Apply(old(Value()), Action.PreAdmit(intent, qbittorrentReady, prowlarrReady, publisherReady))
              == Ok(Value())
    {
      decision := DecidePreAdmission(intent, qbittorrentReady, prowlarrReady, publisherReady);
      ghost var before := Value();
      ghost var action := Action.PreAdmit(intent, qbittorrentReady, prowlarrReady, publisherReady);
      if decision == Decision(true, Admitted) {
        TablesEmpty(before, intent.operationId);
        TablesUnchanged(before, intent.operationId);
        reservations := reservations.Put(intent.operationId, PreAdmittedReservation(intent));
        assert Value() == before.PutEntry(intent.operationId, PlainEntry(PreAdmittedReservation(intent)));
      }
      ApplyKeyed(before, action);
    }

    method AdoptExternal(intent: ExternalIntent, qbittorrentReady: bool,
                         publisherReady: bool) returns (decision: Decision)
      requires Valid()
      modifies this
      ensures Valid()
      ensures decision == ExternalDecision(old(Value()), intent, qbittorrentReady, publisherReady)
      ensures Apply(old(Value()), Action.AdoptExternal(intent, qbittorrentReady, publisherReady)) == Ok(Value())
    {
      decision := DecideExternal(intent, qbittorrentReady, publisherReady);
      ghost var before := Value();
      ghost var action := Action.AdoptExternal(intent, qbittorrentReady, publisherReady);
      if decision == Decision(true, Admitted) {
        AdmissionFresh(before, action);
        TablesEmpty(before, intent.operationId);
        TablesUnchanged(before, intent.operationId);
        reservations := reservations.Put(intent.operationId, ExternalReservation(intent));
        assert Value() == before.PutEntry(intent.operationId, PlainEntry(ExternalReservation(intent)));
      }
      ApplyKeyed(before, action);
    }

    method AdoptPostPnr(intent: PostPnrIntent, digest: string, qbittorrentReady: bool) returns (decision: Decision)
      requires Valid()
      modifies this
      ensures Valid()
      ensures decision == PostPnrDecision(old(Value()), intent, qbittorrentReady)
      ensures Apply(old(Value()), Action.AdoptPostPnr(intent, digest, qbittorrentReady)) == Ok(Value())
    {
      decision := DecidePostPnr(intent, qbittorrentReady);
      ghost var before := Value();
      ghost var action := Action.AdoptPostPnr(intent, digest, qbittorrentReady);
      if decision == Decision(true, Admitted) {
        AdmissionFresh(before, action);
        TablesEmpty(before, intent.operationId);
        TablesUnchanged(before, intent.operationId);
        reservations := reservations.Put(intent.operationId, PostPnrEntry(intent, digest).reservation);
        postPnr := postPnr[intent.operationId := intent];
        assert Value() == before.PutEntry(intent.operationId, PostPnrEntry(intent, digest));
      }
      ApplyKeyed(before, action);
    }

    method AdoptHistorical(intent: HistoricalIntent, digest: string,
                           qbittorrentReady: bool) returns (decision: Decision)
      requires Valid()
      modifies this
      ensures Valid()
      ensures decision == HistoricalDecision(old(Value()), intent, qbittorrentReady)
      ensures Apply(old(Value()), Action.AdoptHistorical(intent, digest, qbittorrentReady)) == Ok(Value())
    {
      decision := DecideHistorical(intent, qbittorrentReady);
      ghost var before := Value();
      ghost var action := Action.AdoptHistorical(intent, digest, qbittorrentReady);
      if decision == Decision(true, Admitted) {
        AdmissionFresh(before, action);
        TablesEmpty(before, intent.operationId);
        TablesUnchanged(before, intent.operationId);
        reservations := reservations.Put(intent.operationId, HistoricalEntry(intent, digest).reservation);
        historical := historical[intent.operationId := intent];
        assert Value() == before.PutEntry(intent.operationId, HistoricalEntry(intent, digest));
      }
      ApplyKeyed(before, action);
    }

    // Transfer transitions.

    /** Overwrites one reservation; every transfer transition ends here. */
    method Overwrite(op: string, r: Reservation)
      requires op in reservations.at
      modifies this`reservations
      ensures Value() == old(Value()).PutEntry(op, old(Value()).EntryOf(op).(reservation := r))
    {
      TablesUnchanged(Value(), op);
      reservations := reservations.Put(op, r);
    }

    method BindObservedGrab(op: string, downloadId: string, torrentHash: string,
                            historyId: Option<int>) returns (r: Result<()>)
      requires Valid()
      modifies this
      ensures Valid() && Stepped(old(Value()), op, OpAction.BindObservedGrab(downloadId, torrentHash, historyId),
                                 Value(), r.Ok?)
    {
      hide Ledger.Keyed, LowerHex, Hex, Lower, UuidOfVersion;
      ghost var before := Value();
      if op !in reservations.at {
        return Raised;
      }
      var reservation := reservations.at[op];
      if !GrabIdentityOk(downloadId, torrentHash, historyId) {
        return Raised;
      }
      if reservation.state == GrabBound {
        if reservation.downloadId != Some(downloadId) || reservation.torrentHash != Some(torrentHash) {
          return Raised;
        }
        if historyId.Some? && reservation.externalHistoryId.Some? && reservation.externalHistoryId != historyId {
          return Raised;
        }
        PutSame(before, op);
        if historyId.Some? {
          Overwrite(op, reservation.(externalHistoryId := historyId));
        }
      } else if reservation.state != PreAdmitted {
        return Raised;
      } else {
        var bound := reservation.(downloadId := Some(downloadId), torrentHash := Some(torrentHash), state := GrabBound);
        if historyId.Some? {
          bound := bound.(externalHistoryId := historyId);
        }
        Overwrite(op, bound);
      }
      OpApplied(before, op, OpAction.BindObservedGrab(downloadId, torrentHash, historyId), Value());
      return Ok(());
    }

    method RequestTag(op: string) returns (r: Result<()>)
      requires Valid()
      modifies this
      ensures Valid() && Stepped(old(Value()), op, OpAction.RequestTag, Value(), r.Ok?)
    {
      hide Ledger.Keyed, LowerHex, Hex, Lower, UuidOfVersion, Ledger.PutEntry;
      ghost var before := Value();
      if op !in reservations.at {
        return Raised;
      }
      var reservation := reservations.at[op];
      if reservation.state != GrabBound || !Truthy(reservation.torrentHash) || !Truthy(reservation.downloadId) {
        return Raised;
      }
      Overwrite(op, reservation.(state := TagIntentRecorded));
      OpApplied(before, op, OpAction.RequestTag, Value());
      return Ok(());
    }

    method RecordObservedSize(op: string, observedBytes: int)
      requires op in reservations.at
      modifies this`reservations
      ensures Value() == Grown(old(Value()), op, observedBytes)
    {
      var reservation := reservations.at[op];
      if observedBytes > reservation.bytesReserved {
        Overwrite(op, reservation.(bytesReserved := observedBytes));
      }
    }

    /** Answers whether the ledger is still within capacity.  A refused remaining size is found
        only after the observed size was recorded. */
    method MarkQbittorrentTagged(op: string, observedBytes: int, remaining: Option<int>) returns (r: Result<bool>)
      requires Valid()
      modifies this
      ensures r.Ok? ==>
        && Valid()
        && Apply(old(Value()), Op(op, MarkTagged(observedBytes, remaining))) == Ok(Value())
        && (r.value <==> Value().WithinCapacity())
      ensures r.Raised? ==> Apply(old(Value()), Op(op, MarkTagged(observedBytes, remaining))).Raised?
      ensures r.Raised? ==> Value() in {old(Value()), Grown(old(Value()), op, observedBytes)}
    {
      hide Ledger.Keyed, LowerHex, Hex, Lower, UuidOfVersion, Ledger.WithinCapacity;
      ghost var before := Value();
      if op !in reservations.at {
        return Raised;
      }
      var reservation := reservations.at[op];
      if reservation.state != TagIntentRecorded || !Truthy(reservation.torrentHash) || observedBytes <= 0 {
        return Raised;
      }
      RecordObservedSize(op, observedBytes);
      if remaining.Some? && !(0 <= remaining.value <= observedBytes) {
        return Raised;
      }
      var tagged := reservations.at[op].(state := QbittorrentStopped);
      if remaining.Some? {
        tagged := tagged.(remainingDownloadBytes := remaining);
      }
      TaggedAfterGrowth(before, op, observedBytes, remaining, tagged);
      hide Grown, Tagged, Ledger.PutEntry, Apply;
      TagApplied(before, op, observedBytes, remaining, tagged);
      Overwrite(op, tagged);
      return Ok(Value().WithinCapacity());
    }

    method RequestResume(op: string) returns (r: Result<()>)
      requires Valid()
      modifies this
      ensures Valid() && Stepped(old(Value()), op, OpAction.RequestResume, Value(), r.Ok?)
    {
      hide Ledger.Keyed, LowerHex, Hex, Lower, UuidOfVersion, Ledger.PutEntry;
      ghost var before := Value();
      if op !in reservations.at {
        return Raised;
      }
      var reservation := reservations.at[op];
      if (reservation.state != QbittorrentStopped && reservation.state != QbittorrentPaused)
         || !Truthy(reservation.torrentHash) || quiescing {
        return Raised;
      }
      Overwrite(op, reservation.(state := ResumeIntentRecorded));
      OpApplied(before, op, OpAction.RequestResume, Value());
      return Ok(());
    }

    method RequestHistoricalActivation(op: string) returns (r: Result<()>)
      requires Valid()
      modifies this
      ensures Valid() && Stepped(old(Value()), op, OpAction.RequestHistoricalActivation, Value(), r.Ok?)
    {
      hide Ledger.Keyed, LowerHex, Hex, Lower, UuidOfVersion;
      ghost var before := Value();
      if op !in reservations.at || op !in historical || quiescing {
        return Raised;
      }
      var reservation := reservations.at[op];
      PutSame(before, op);
      if op in activations && activations[op] == Managed {
        return Ok(());
      }
      if op in activations && activations[op] == Intent && reservation.state == ActivationIntentRecorded {
        return Ok(());
      }
      if op in activations || reservation.state != QbittorrentStopped {
        return Raised;
      }
      TablesUnchanged(before, op);
      activations := activations[op := Intent];
      reservations := reservations.Put(op, reservation.(state := ActivationIntentRecorded));
      OpApplied(before, op, OpAction.RequestHistoricalActivation, Value());
      return Ok(());
    }

    method MarkHistoricalManaged(op: string) returns (r: Result<()>)
      requires Valid()
      modifies this
      ensures Valid() && Stepped(old(Value()), op, OpAction.MarkHistoricalManaged, Value(), r.Ok?)
    {
      hide Ledger.Keyed, LowerHex, Hex, Lower, UuidOfVersion;
      ghost var before := Value();
      if op !in reservations.at {
        return Raised;
      }
      var reservation := reservations.at[op];
      if op !in activations || activations[op] != Intent || reservation.state != ActivationIntentRecorded {
        return Raised;
      }
      TablesUnchanged(before, op);
      activations := activations[op := Managed];
      reservations := reservations.Put(op, reservation.(state := QbittorrentManaged));
      OpApplied(before, op, OpAction.MarkHistoricalManaged, Value());
      return Ok(());
    }

    method RequestPause(op: string) returns (r: Result<()>)
      requires Valid()
      modifies this
      ensures Valid() && Stepped(old(Value()), op, OpAction.RequestPause, Value(), r.Ok?)
    {
      hide Ledger.Keyed, LowerHex, Hex, Lower, UuidOfVersion, Ledger.PutEntry;
      ghost var before := Value();
      if op !in reservations.at {
        return Raised;
      }
      var reservation := reservations.at[op];
      if !quiescing || (reservation.state != QbittorrentActive && reservation.state != QbittorrentManaged)
         || !Truthy(reservation.torrentHash) {
        return Raised;
      }
      Overwrite(op, reservation.(state := PauseIntentRecorded));
      OpApplied(before, op, OpAction.RequestPause, Value());
      return Ok(());
    }

    method MarkQbittorrentPaused(op: string) returns (r: Result<()>)
      requires Valid()
      modifies this
      ensures Valid() && Stepped(old(Value()), op, MarkPaused, Value(), r.Ok?)
    {
      hide Ledger.Keyed, LowerHex, Hex, Lower, UuidOfVersion, Ledger.PutEntry;
      ghost var before := Value();
      if op !in reservations.at {
        return Raised;
      }
      var reservation := reservations.at[op];
      if !quiescing || reservation.state != PauseIntentRecorded {
        return Raised;
      }
      Overwrite(op, reservation.(state := QbittorrentPaused));
      OpApplied(before, op, MarkPaused, Value());
      return Ok(());
    }

    method MarkQbittorrentActive(op: string) returns (r: Result<()>)
      requires Valid()
      modifies this
      ensures Valid() && Stepped(old(Value()), op, MarkActive, Value(), r.Ok?)
    {
      hide Ledger.Keyed, LowerHex, Hex, Lower, UuidOfVersion, Ledger.PutEntry;
      ghost var before := Value();
      if op !in reservations.at {
        return Raised;
      }
      var reservation := reservations.at[op];
      if reservation.state != ResumeIntentRecorded {
        return Raised;
      }
      var managed := op in activations && activations[op] == Managed;
      Overwrite(op, reservation.(state := if managed then QbittorrentManaged else QbittorrentActive));
      OpApplied(before, op, MarkActive, Value());
      return Ok(());
    }

    method RequestFreeze(op: string) returns (r: Result<()>)
      requires Valid()
      modifies this
      ensures Valid() && Stepped(old(Value()), op, OpAction.RequestFreeze, Value(), r.Ok?)
    {
      hide Ledger.Keyed, LowerHex, Hex, Lower, UuidOfVersion, Ledger.PutEntry;
      ghost var before := Value();
      if op !in reservations.at {
        return Raised;
      }
      var reservation := reservations.at[op];
      if reservation.state != Terminal || !Truthy(reservation.torrentHash) {
        return Raised;
      }
      Overwrite(op, reservation.(state := FreezeIntentRecorded));
      OpApplied(before, op, OpAction.RequestFreeze, Value());
      return Ok(());
    }

    method MarkQbittorrentFrozen(op: string) returns (r: Result<()>)
      requires Valid()
      modifies this
      ensures Valid() && Stepped(old(Value()), op, MarkFrozen, Value(), r.Ok?)
    {
      hide Ledger.Keyed, LowerHex, Hex, Lower, UuidOfVersion, Ledger.PutEntry;
      ghost var before := Value();
      if op !in reservations.at {
        return Raised;
      }
      var reservation := reservations.at[op];
      if reservation.state != FreezeIntentRecorded {
        return Raised;
      }
      Overwrite(op, reservation.(state := QbittorrentFrozen));
      OpApplied(before, op, MarkFrozen, Value());
      return Ok(());
    }

    /** Returns the terminal message.  A malformed one is found only after the state changed. */
    method CompleteTransfer(op: string) returns (r: Result<TerminalMessage>)
      requires Valid()
      modifies this
      ensures var next := Apply(old(Value()), Op(op, Complete));
        && (r.Ok? <==> next.Ok?)
        && (r.Ok? ==> Valid() && Value() == next.value && r == TerminalOf(Value().EntryOf(op).reservation))
        && (r.Raised? && Value() != old(Value()) ==>
              old(Value()).Has(op) && old(Value()).EntryOf(op).reservation.state == QbittorrentActive
              && Value() == old(Value()).PutEntry(op, old(Value()).EntryOf(op).In(Terminal).(video := None)))
    {
      hide Ledger.Keyed, LowerHex, Hex, Lower, UuidOfVersion;
      ghost var before := Value();
      if op !in reservations.at {
        return Raised;
      }
      var reservation := reservations.at[op];
      if reservation.state != QbittorrentActive {
        return Raised;
      }
      TablesUnchanged(before, op);
      reservations := reservations.Put(op, reservation.(state := Terminal));
      video := video - {op};
      assert Value() == before.PutEntry(op, before.EntryOf(op).In(Terminal).(video := None));
      r := TerminalOf(reservations.at[op]);
      if r.Ok? {
        OpApplied(before, op, Complete, Value());
      }
    }

    method AcceptCustody(receipt: CustodyReceipt) returns (accepted: bool)
      requires Valid()
      modifies this
      ensures Valid()
      ensures var step := OpAction.AcceptCustody(receipt.fenceReservationId, receipt.publisherReservationId);
        Stepped(old(Value()), receipt.operationId, step, Value(), accepted)
    {
      hide Ledger.Keyed, LowerHex, Hex, Lower, UuidOfVersion, Ledger.PutEntry;
      ghost var before := Value();
      var op := receipt.operationId;
      if op !in reservations.at {
        return false;
      }
      var reservation := reservations.at[op];
      if receipt.fenceReservationId != reservation.reservationId {
        return false;
      }
      if reservation.state == Released {
        PutSame(before, op);
        return reservation.publisherReservationId == Some(receipt.publisherReservationId);
      }
      if reservation.state != Terminal && reservation.state != QbittorrentFrozen {
        return false;
      }
      Overwrite(op, reservation.(publisherReservationId := Some(receipt.publisherReservationId), state := Released));
      OpApplied(before, op, OpAction.AcceptCustody(receipt.fenceReservationId, receipt.publisherReservationId),
                Value());
      return true;
    }

    // Candidates.

    /** Writes one music candidate and, when it closes the reservation, its final state. */
    method WriteMusic(op: string, c: MusicCandidate, state: ReservationState)
      requires op in reservations.at
      modifies this`music, this`reservations
      ensures Value() == old(Value()).PutEntry(op, old(Value()).EntryOf(op).In(state).(music := Some(c)))
      ensures music == old(music)[op := c]
    {
      TablesUnchanged(Value(), op);
      music := music[op := c];
      reservations := reservations.Put(op, reservations.at[op].(state := state));
    }

    method EnsureMusicCandidate(op: string, now: int) returns (r: Result<()>)
      requires Valid()
      modifies this
      ensures Valid() && Stepped(old(Value()), op, EnsureMusic(now), Value(), r.Ok?)
    {
      hide Ledger.Keyed, LowerHex, Hex, Lower, UuidOfVersion, Ledger.PutEntry;
      ghost var before := Value();
      if now < 0 || op !in reservations.at {
        return Raised;
      }
      var reservation := reservations.at[op];
      if reservation.source != LIDARR || reservation.state != QbittorrentActive || !Truthy(reservation.torrentHash)
         || !Truthy(reservation.selectorFingerprint) {
        return Raised;
      }
      PutSame(before, op);
      if op in music {
        var c := music[op];
        if c.albumId != reservation.mediaId || c.selectorFingerprint != reservation.selectorFingerprint.value
           || c.torrentHash != reservation.torrentHash.value {
          return Raised;
        }
        return Ok(());
      }
      var candidate := MusicCandidate(reservation.operationId, reservation.mediaId,
                                      reservation.selectorFingerprint.value, reservation.torrentHash.value, now, now, 0,
                                      MusicProbing, None, None, None, false, false, false);
      WriteMusic(op, candidate, reservation.state);
      OpApplied(before, op, EnsureMusic(now), Value());
      return Ok(());
    }

    method RecordMusicCandidateProgress(op: string, downloadedBytes: int, now: int) returns (r: Result<bool>)
      requires Valid()
      modifies this
      ensures Valid() && Stepped(old(Value()), op, RecordMusicProgress(downloadedBytes, now), Value(), r.Ok?)
      ensures r.Ok? ==> (r.value <==> Value() != old(Value()))
    {
      hide Ledger.Keyed, LowerHex, Hex, Lower, UuidOfVersion, Ledger.PutEntry;
      ghost var before := Value();
      if now < 0 || op !in reservations.at || op !in music || reservations.at[op].source != LIDARR {
        return Raised;
      }
      var c := music[op];
      if c.status != MusicProbing || downloadedBytes < c.lastDownloadedBytes {
        return Raised;
      }
      PutSame(before, op);
      if downloadedBytes == c.lastDownloadedBytes {
        return Ok(false);
      }
      WriteMusic(op, c.(lastDownloadedBytes := downloadedBytes, lastProgressAt := now), reservations.at[op].state);
      OpApplied(before, op, RecordMusicProgress(downloadedBytes, now), Value());
      assert music[op] != before.music[op];
      return Ok(true);
    }

    method CompleteMusicCandidate(op: string) returns (r: Result<()>)
      requires Valid()
      modifies this
      ensures Valid() && Stepped(old(Value()), op, CompleteMusic, Value(), r.Ok?)
    {
      hide Ledger.Keyed, LowerHex, Hex, Lower, UuidOfVersion, Ledger.PutEntry;
      ghost var before := Value();
      if op !in reservations.at || op !in music || reservations.at[op].source != LIDARR
         || music[op].status != MusicProbing {
        return Raised;
      }
      if reservations.at[op].state != QbittorrentActive {
        return Raised;
      }
      WriteMusic(op, music[op].(status := MusicSucceeded), Released);
      OpApplied(before, op, CompleteMusic, Value());
      return Ok(());
    }

    method InvalidateMusicCandidate(op: string, reason: MusicReason, now: int, deletePayload: bool,
                                    newInvalidationId: string) returns (r: Result<bool>)
      requires Valid()
      modifies this
      ensures Valid() && Stepped(old(Value()), op, InvalidateMusic(reason, now, deletePayload, newInvalidationId),
                                 Value(), r.Ok?)
      ensures r.Ok? && r.value ==>
        op in music && music[op].status == MusicInvalidated && music[op].deleteInvalidPayload == deletePayload
    {
      hide Ledger.Keyed, LowerHex, Hex, Lower, UuidOfVersion, Ledger.PutEntry;
      ghost var before := Value();
      if now < 0 || op !in reservations.at || op !in music || reservations.at[op].source != LIDARR {
        return Raised;
      }
      var c := music[op];
      if c.status == MusicInvalidated {
        PutSame(before, op);
        return Ok(c.reason == Some(reason) && c.deleteInvalidPayload == deletePayload);
      }
      if c.status != MusicProbing {
        return Raised;
      }
      WriteMusic(op, c.(status := MusicInvalidated, invalidationId := Some(newInvalidationId), invalidatedAt := Some(now),
                        reason := Some(reason), deleteInvalidPayload := deletePayload), reservations.at[op].state);
      OpApplied(before, op, InvalidateMusic(reason, now, deletePayload, newInvalidationId), Value());
      return Ok(true);
    }

    method MarkMusicCandidateDeleted(op: string) returns (r: Result<()>)
      requires Valid()
      modifies this
      ensures Valid() && Stepped(old(Value()), op, MarkMusicDeleted, Value(), r.Ok?)
    {
      hide Ledger.Keyed, LowerHex, Hex, Lower, UuidOfVersion, Ledger.PutEntry;
      ghost var before := Value();
      if op !in reservations.at || op !in music || reservations.at[op].source != LIDARR
         || music[op].status != MusicInvalidated {
        return Raised;
      }
      if reservations.at[op].state != QbittorrentActive {
        return Raised;
      }
      WriteMusic(op, music[op].(deletionObserved := true, status := MusicReleased), Released);
      OpApplied(before, op, MarkMusicDeleted, Value());
      return Ok(());
    }

    method AcknowledgeMusicInvalidation(op: string, invalidationId: string) returns (accepted: bool)
      requires Valid()
      modifies this
      ensures Valid() && Stepped(old(Value()), op, AcknowledgeMusic(invalidationId), Value(), accepted)
    {
      hide Ledger.Keyed, LowerHex, Hex, Lower, UuidOfVersion, Ledger.PutEntry;
      ghost var before := Value();
      if op !in reservations.at || op !in music || reservations.at[op].source != LIDARR {
        return false;
      }
      var c := music[op];
      if (c.status != MusicInvalidated && c.status != MusicReleased) || c.invalidationId != Some(invalidationId) {
        return false;
      }
      WriteMusic(op, c.(acknowledged := true), reservations.at[op].state);
      OpApplied(before, op, AcknowledgeMusic(invalidationId), Value());
      return true;
    }

    method WriteVideo(op: string, c: VideoCandidate, state: ReservationState)
      requires op in reservations.at
      modifies this`video, this`reservations
      ensures Value() == old(Value()).PutEntry(op, old(Value()).EntryOf(op).In(state).(video := Some(c)))
      ensures video == old(video)[op := c]
    {
      TablesUnchanged(Value(), op);
      video := video[op := c];
      reservations := reservations.Put(op, reservations.at[op].(state := state));
    }

    method EnsureVideoCandidate(op: string, now: int) returns (r: Result<()>)
      requires Valid()
      modifies this
      ensures Valid() && Stepped(old(Value()), op, EnsureVideo(now), Value(), r.Ok?)
    {
      hide Ledger.Keyed, LowerHex, Hex, Lower, UuidOfVersion, Ledger.PutEntry;
      ghost var before := Value();
      if op !in reservations.at {
        return Raised;
      }
      var reservation := reservations.at[op];
      if !VideoSource(reservation.source) || reservation.state != QbittorrentActive
         || !Truthy(reservation.torrentHash) || now < 0 {
        return Raised;
      }
      PutSame(before, op);
      if op !in video {
        WriteVideo(op, VideoCandidate(reservation.operationId, now, now, None, 0, 0, VideoProbing, None, None),
                   reservation.state);
      }
      OpApplied(before, op, EnsureVideo(now), Value());
      return Ok(());
    }

    method RecordVideoCandidateFailure(op: string, now: int) returns (r: Result<()>)
      requires Valid()
      modifies this
      ensures Valid() && Stepped(old(Value()), op, RecordVideoFailure(now), Value(), r.Ok?)
    {
      hide Ledger.Keyed, LowerHex, Hex, Lower, UuidOfVersion, Ledger.PutEntry;
      ghost var before := Value();
      if op !in reservations.at || op !in video || !VideoSource(reservations.at[op].source) {
        return Raised;
      }
      var c := video[op];
      if c.status != VideoProbing || now < c.probeStartedAt {
        return Raised;
      }
      WriteVideo(op, c.(failureObservations := c.failureObservations + 1), reservations.at[op].state);
      OpApplied(before, op, RecordVideoFailure(now), Value());
      return Ok(());
    }

    method RecordVideoCandidateMetadata(op: string, downloadedBytes: int, now: int) returns (r: Result<()>)
      requires Valid()
      modifies this
      ensures Valid() && Stepped(old(Value()), op, RecordVideoMetadata(downloadedBytes, now), Value(), r.Ok?)
    {
      hide Ledger.Keyed, LowerHex, Hex, Lower, UuidOfVersion, Ledger.PutEntry;
      ghost var before := Value();
      if op !in reservations.at || op !in video || !VideoSource(reservations.at[op].source) {
        return Raised;
      }
      var c := video[op];
      if c.status != VideoProbing || now < c.probeStartedAt || downloadedBytes < 0 {
        return Raised;
      }
      if c.metadataObservedAt.None? {
        c := c.(metadataObservedAt := Some(now), lastProgressAt := now, lastDownloadedBytes := downloadedBytes);
      } else if downloadedBytes > c.lastDownloadedBytes {
        c := c.(lastDownloadedBytes := downloadedBytes, lastProgressAt := now);
      }
      c := c.(failureObservations := 0);
      WriteVideo(op, c, reservations.at[op].state);
      OpApplied(before, op, RecordVideoMetadata(downloadedBytes, now), Value());
      return Ok(());
    }

    method InvalidateVideoCandidate(op: string, reason: VideoReason, now: int) returns (r: Result<bool>)
      requires Valid()
      modifies this
      ensures Valid() && Stepped(old(Value()), op, InvalidateVideo(reason, now), Value(), r.Ok?)
      ensures r.Ok? ==>
        op in video && video[op].status == VideoInvalidated && (r.value <==> video[op].reason == Some(reason))
    {
      hide Ledger.Keyed, LowerHex, Hex, Lower, UuidOfVersion, Ledger.PutEntry;
      ghost var before := Value();
      if op !in reservations.at || op !in video || !VideoSource(reservations.at[op].source)
         || now < video[op].probeStartedAt {
        return Raised;
      }
      PutSame(before, op);
      var c := video[op];
      if c.status == VideoInvalidated {
        return Ok(c.reason == Some(reason));
      }
      WriteVideo(op, c.(status := VideoInvalidated, reason := Some(reason), invalidatedAt := Some(now)),
                 reservations.at[op].state);
      OpApplied(before, op, InvalidateVideo(reason, now), Value());
      return Ok(true);
    }

    method ReleaseInvalidatedVideoCandidate(op: string) returns (r: Result<()>)
      requires Valid()
      modifies this
      ensures Valid() && Stepped(old(Value()), op, ReleaseInvalidatedVideo, Value(), r.Ok?)
    {
      hide Ledger.Keyed, LowerHex, Hex, Lower, UuidOfVersion, Ledger.PutEntry;
      ghost var before := Value();
      if op !in reservations.at || op !in video || !VideoSource(reservations.at[op].source) {
        return Raised;
      }
      var reservation := reservations.at[op];
      if video[op].status != VideoInvalidated || reservation.state != QbittorrentActive
         || reservation.externalHistoryId.None? {
        return Raised;
      }
      Overwrite(op, reservation.(state := Invalidated));
      OpApplied(before, op, ReleaseInvalidatedVideo, Value());
      return Ok(());
    }
  }

  /** The ledger after an observed size was recorded and nothing else. */
  function Grown(l: Ledger, op: string, observedBytes: int): Ledger {
    if l.Has(op) && observedBytes > l.EntryOf(op).reservation.bytesReserved
    then l.PutEntry(op, l.EntryOf(op).(reservation := l.EntryOf(op).reservation.(bytesReserved := observedBytes)))
    else l
  }

  /** A later write of the reservation wins over the recorded size. */
  lemma GrownThenPut(l: Ledger, op: string, observedBytes: int, r: Reservation)
    requires l.Has(op)
    ensures Grown(l, op, observedBytes).Has(op)
    ensures Grown(l, op, observedBytes).PutEntry(op, Grown(l, op, observedBytes).EntryOf(op).(reservation := r))
            == l.PutEntry(op, l.EntryOf(op).(reservation := r))
  {
    TablesUnchanged(l, op);
    var e := l.EntryOf(op);
    if observedBytes > e.reservation.bytesReserved {
      PutTwice(l, op, e.(reservation := e.reservation.(bytesReserved := observedBytes)), e.(reservation := r));
    }
  }

  /** The second write of the same entry is the one that stays. */
  lemma PutTwice(l: Ledger, op: string, first: Entry, second: Entry)
    ensures l.PutEntry(op, first).EntryOf(op) == first
    ensures l.PutEntry(op, first).PutEntry(op, second) == l.PutEntry(op, second)
  {
    assert l.reservations.Put(op, first.reservation).Put(op, second.reservation)
           == l.reservations.Put(op, second.reservation);
    StoreTwice(l.postPnr, op, first.postPnr, second.postPnr);
    StoreTwice(l.historical, op, first.historical, second.historical);
    StoreTwice(l.activations, op, first.activation, second.activation);
    StoreTwice(l.video, op, first.video, second.video);
    StoreTwice(l.music, op, first.music, second.music);
  }

  lemma StoreTwice<V>(m: map<string, V>, k: string, first: Option<V>, second: Option<V>)
    ensures Store(Store(m, k, first), k, second) == Store(m, k, second)
  {
  }

  /** Recording the size first and the tag then is the whole transition. */
  lemma TaggedAfterGrowth(l: Ledger, op: string, observedBytes: int, remaining: Option<int>, tagged: Reservation)
    requires l.Has(op)
    requires var r := l.EntryOf(op).reservation;
      r.state == TagIntentRecorded && Truthy(r.torrentHash) && observedBytes > 0
      && (remaining.Some? ==> 0 <= remaining.value <= observedBytes)
    requires Grown(l, op, observedBytes).Has(op)
    requires var g := Grown(l, op, observedBytes).reservations.at[op];
      tagged == g.(state := QbittorrentStopped,
                   remainingDownloadBytes := if remaining.Some? then remaining else g.remainingDownloadBytes)
    ensures Tagged(l.EntryOf(op), observedBytes, remaining) == Ok(l.EntryOf(op).(reservation := tagged))
    ensures Grown(l, op, observedBytes).PutEntry(op, Grown(l, op, observedBytes).EntryOf(op).(reservation := tagged))
            == l.PutEntry(op, l.EntryOf(op).(reservation := tagged))
  {
    GrownThenPut(l, op, observedBytes, tagged);
    GrownReservation(l, op, observedBytes);
    hide Grown, Ledger.PutEntry;
  }

  lemma TagApplied(l: Ledger, op: string, observedBytes: int, remaining: Option<int>, tagged: Reservation)
    requires l.Keyed() && l.Has(op)
             && Tagged(l.EntryOf(op), observedBytes, remaining) == Ok(l.EntryOf(op).(reservation := tagged))
    ensures var next := l.PutEntry(op, l.EntryOf(op).(reservation := tagged));
      next.Keyed() && Apply(l, Op(op, MarkTagged(observedBytes, remaining))) == Ok(next)
  {
    hide Tagged, Ledger.PutEntry, Ledger.Keyed;
    OpApplied(l, op, MarkTagged(observedBytes, remaining), l.PutEntry(op, l.EntryOf(op).(reservation := tagged)));
  }

  lemma GrownReservation(l: Ledger, op: string, observedBytes: int)
    requires l.Has(op)
    ensures Grown(l, op, observedBytes).Has(op)
    ensures var r := l.EntryOf(op).reservation;
      Grown(l, op, observedBytes).reservations.at[op]
      == if observedBytes > r.bytesReserved then r.(bytesReserved := observedBytes) else r
  {
  }
}
