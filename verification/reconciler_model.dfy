/** Reconciliation intents: what is remembered before Arr is asked to grab anything. */
module ReconcilerModel {
  import opened Common
  import opened FenceEntry
  import opened FenceLedger

  datatype SearchIntent = SearchIntent(operationId: string, source: string, entityId: string, force: bool,
                                       checkpoint: string) {
    predicate Valid() {
      && CanonicalUuid(operationId) && source in {RADARR, SONARR, LIDARR}
      && CanonicalDecimal(entityId) && PositiveDecimal(entityId)
      && 0 < |checkpoint| <= 256 && '\0' !in checkpoint && '/' !in checkpoint && '\\' !in checkpoint
    }
  }

  /** The native Arr release; `digest` is the hash of its canonical text. */
  datatype Resource = Resource(approved: bool, torrent: bool, guid: string, title: string, size: int, digest: string)

  datatype Release = Release(resource: Resource, selectorFingerprint: string, expectedBytes: int)

  /** The immutable Arr decision recorded before any Fence or Arr effect. */
  datatype GrabIntent = GrabIntent(operationId: string, source: string, entityId: string, selectorFingerprint: string,
                                   expectedBytes: int, watermark: int, resource: Resource) {
    predicate Valid() {
      && LowerHex(selectorFingerprint, 64) && expectedBytes > 0 && watermark >= 0
      && resource.approved && resource.torrent && resource.guid != "" && resource.title != ""
      && resource.size == expectedBytes && resource.digest == selectorFingerprint
    }
  }

  /** Decimal text of a natural number. */
  function Printed(n: nat): (s: string)
    ensures s != ""
  {
    (if n < 10 then "" else Printed(n / 10)) + ["0123456789"[n % 10]]
  }

  /** What Fence is asked to reserve for a grab. */
  function PreAdmissionOf(g: GrabIntent): PreAdmissionIntent
    requires g.watermark >= 0
  {
    PreAdmissionIntent(g.operationId, g.source, g.entityId, g.selectorFingerprint, g.expectedBytes,
                       Printed(g.watermark))
  }

  predicate GrabFor(g: GrabIntent, search: SearchIntent) {
    g.source == search.source && g.entityId == search.entityId && g.watermark >= 0
  }

  datatype Intents = Intents(
    intents: Dict<SearchIntent>,
    grabs: map<string, GrabIntent>,
    attempted: set<string>,
    uncertain: set<(string, string)>,
    attempts: map<(string, string), seq<int>>,
    intentTimes: map<string, int>,
    observedTimes: map<string, int>,
    completed: map<string, bool>
  ) {
    /** A grab belongs to its search, and only a recorded grab can have been attempted. */
    ghost predicate Coherent() {
      && intents.Valid()
      && (forall op :: op in intents.at ==> intents.at[op].operationId == op)
      && (forall op :: op in grabs ==>
            op in intents.at && GrabFor(grabs[op], intents.at[op]) && grabs[op].operationId == op)
      && (forall op :: op in attempted ==> op in grabs)
    }
  }

  function NoIntents(): Intents {
    Intents(EmptyDict(), map[], {}, {}, map[], map[], map[], map[])
  }

  /** What was once recorded is still recorded, unchanged. */
  predicate Extends(later: Intents, earlier: Intents) {
    && (forall op :: op in earlier.intents.at ==>
          op in later.intents.at && later.intents.at[op] == earlier.intents.at[op])
    && (forall op :: op in earlier.grabs ==> op in later.grabs && later.grabs[op] == earlier.grabs[op])
    && earlier.attempted <= later.attempted
  }

  function IntentRecorded(s: Intents, intent: SearchIntent, now: int): Result<Intents> {
    if now < 0 then Raised
    else if intent.operationId in s.intents.at
    then (if s.intents.at[intent.operationId] == intent then Ok(s) else Raised)
    else Ok(s.(
      intents := s.intents.Put(intent.operationId, intent),
      uncertain := s.uncertain + {(intent.source, intent.entityId)},
      intentTimes := s.intentTimes[intent.operationId := now]))
  }

  function GrabRecorded(s: Intents, g: GrabIntent): Result<Intents> {
    if g.operationId !in s.intents.at then Raised
    else
      var search := s.intents.at[g.operationId];
      if search.source != g.source || search.entityId != g.entityId then Raised
      else if g.operationId in s.grabs then (if s.grabs[g.operationId] == g then Ok(s) else Raised)
      else Ok(s.(grabs := s.grabs[g.operationId := g]))
  }

  function Attempted(s: Intents, op: string): Result<Intents> {
    if op !in s.grabs then Raised else Ok(s.(attempted := s.attempted + {op}))
  }

  function ObservedAt(s: Intents, op: string, done: bool, now: int): Result<Intents> {
    if now < 0 || op !in s.intents.at then Raised
    else
      var key := (s.intents.at[op].source, s.intents.at[op].entityId);
      Ok(s.(
        uncertain := s.uncertain - {key},
        attempts := if done then s.attempts[key := (if key in s.attempts then s.attempts[key] else []) + [now]] else s.attempts,
        observedTimes := s.observedTimes[op := now],
        completed := s.completed[op := done]))
  }

  lemma SearchAdded(d: Dict<SearchIntent>, intent: SearchIntent)
    requires d.Valid() && forall op :: op in d.at ==> d.at[op].operationId == op
    ensures var next := d.Put(intent.operationId, intent);
      next.Valid() && forall op :: op in next.at ==> next.at[op].operationId == op
  {
    d.PutValid(intent.operationId, intent);
    hide Dict.Valid;
  }

  lemma IntentKeeps(s: Intents, intent: SearchIntent, now: int)
    requires s.Coherent() && IntentRecorded(s, intent, now).Ok?
    ensures IntentRecorded(s, intent, now).value.Coherent() && Extends(IntentRecorded(s, intent, now).value, s)
  {
    hide Dict.Valid, GrabFor;
    if intent.operationId !in s.intents.at {
      SearchAdded(s.intents, intent);
      PutKeeps(s, IntentRecorded(s, intent, now).value, intent);
      hide IntentRecorded, Intents.Coherent;
    }
  }

  lemma PutKeeps(s: Intents, next: Intents, intent: SearchIntent)
    requires s.Coherent() && intent.operationId !in s.intents.at
    requires next.intents == s.intents.Put(intent.operationId, intent) && next.intents.Valid()
    requires forall op :: op in next.intents.at ==> next.intents.at[op].operationId == op
    requires next.grabs == s.grabs && next.attempted == s.attempted
    ensures next.Coherent() && Extends(next, s)
  {
    hide Dict.Valid, GrabFor;
    assert forall op :: op in s.intents.at ==> op in next.intents.at && next.intents.at[op] == s.intents.at[op];
  }

  lemma GrabKeeps(s: Intents, g: GrabIntent)
    requires s.Coherent() && g.watermark >= 0 && GrabRecorded(s, g).Ok?
    ensures GrabRecorded(s, g).value.Coherent() && Extends(GrabRecorded(s, g).value, s)
  {
    hide Dict.Valid;
  }

  lemma AttemptKeeps(s: Intents, op: string)
    requires s.Coherent() && Attempted(s, op).Ok?
    ensures Attempted(s, op).value.Coherent() && Extends(Attempted(s, op).value, s)
            && op in Attempted(s, op).value.attempted
  {
    hide Dict.Valid;
  }

  lemma ObservedKeeps(s: Intents, op: string, done: bool, now: int)
    requires s.Coherent() && ObservedAt(s, op, done, now).Ok?
    ensures ObservedAt(s, op, done, now).value.Coherent() && Extends(ObservedAt(s, op, done, now).value, s)
  {
    hide Dict.Valid;
  }

  class ReconciliationState {
    var intents: Dict<SearchIntent>
    var grabs: map<string, GrabIntent>
    var attempted: set<string>
    var uncertain: set<(string, string)>
    var attempts: map<(string, string), seq<int>>
    var intentTimes: map<string, int>
    var observedTimes: map<string, int>
    var completed: map<string, bool>

    function Value(): Intents
      reads this
    {
      Intents(intents, grabs, attempted, uncertain, attempts, intentTimes, observedTimes, completed)
    }

    constructor ()
      ensures Value() == NoIntents()
    {
      intents, grabs, attempted, uncertain := EmptyDict(), map[], {}, {};
      attempts, intentTimes, observedTimes, completed := map[], map[], map[], map[];
    }

    method RecordIntent(intent: SearchIntent, now: int) returns (r: Result<()>)
      modifies this
      ensures if r.Ok? then IntentRecorded(old(Value()), intent, now) == Ok(Value())
              else IntentRecorded(old(Value()), intent, now).Raised? && Value() == old(Value())
    {
      if now < 0 {
        return Raised;
      }
      if intent.operationId in intents.at {
        return if intents.at[intent.operationId] == intent then Ok(()) else Raised;
      }
      intents := intents.Put(intent.operationId, intent);
      uncertain := uncertain + {(intent.source, intent.entityId)};
      intentTimes := intentTimes[intent.operationId := now];
      return Ok(());
    }

    method RecordGrabIntent(g: GrabIntent) returns (r: Result<()>)
      modifies this
      ensures if r.Ok? then GrabRecorded(old(Value()), g) == Ok(Value())
              else GrabRecorded(old(Value()), g).Raised? && Value() == old(Value())
    {
      if g.operationId !in intents.at {
        return Raised;
      }
      var search := intents.at[g.operationId];
      if search.source != g.source || search.entityId != g.entityId {
        return Raised;
      }
      if g.operationId in grabs {
        return if grabs[g.operationId] == g then Ok(()) else Raised;
      }
      grabs := grabs[g.operationId := g];
      return Ok(());
    }

    method MarkGrabAttempted(op: string) returns (r: Result<()>)
      modifies this
      ensures if r.Ok? then Attempted(old(Value()), op) == Ok(Value())
              else Attempted(old(Value()), op).Raised? && Value() == old(Value())
    {
      if op !in grabs {
        return Raised;
      }
      attempted := attempted + {op};
      return Ok(());
    }

    method MarkObserved(op: string, done: bool, now: int) returns (r: Result<()>)
      modifies this
      ensures if r.Ok? then ObservedAt(old(Value()), op, done, now) == Ok(Value())
              else ObservedAt(old(Value()), op, done, now).Raised? && Value() == old(Value())
    {
      if now < 0 || op !in intents.at {
        return Raised;
      }
      var key := (intents.at[op].source, intents.at[op].entityId);
      uncertain := uncertain - {key};
      if done {
        attempts := attempts[key := (if key in attempts then attempts[key] else []) + [now]];
      }
      observedTimes := observedTimes[op := now];
      completed := completed[op := done];
      return Ok(());
    }

    /** Decides by the uncertainty of the item, then by force, then by attempts and cooldown. */
    method Eligible(source: string, entityId: string, cooldownSeconds: int, maxAttempts: int, now: int,
                    force: bool) returns (eligible: bool)
      ensures eligible <==>
        && (source, entityId) !in uncertain
        && (force || (|PastAttempts(Value(), source, entityId)| < maxAttempts
                      && forall last :: Some(last) == LastAttempt(Value(), source, entityId) ==> last + cooldownSeconds <= now))
    {
      if (source, entityId) in uncertain {
        return false;
      }
      if force {
        return true;
      }
      var past := if (source, entityId) in attempts then attempts[(source, entityId)] else [];
      if |past| >= maxAttempts {
        return false;
      }
      return past == [] || now - past[|past| - 1] >= cooldownSeconds;
    }
  }

  function PastAttempts(s: Intents, source: string, entityId: string): seq<int> {
    if (source, entityId) in s.attempts then s.attempts[(source, entityId)] else []
  }

  function LastAttempt(s: Intents, source: string, entityId: string): Option<int> {
    var past := PastAttempts(s, source, entityId);
    if past == [] then None else Some(past[|past| - 1])
  }

  // When an open search really keeps its item from being eligible.

  /** An intent of the item that was never observed. */
  predicate OpenFor(s: Intents, op: string, source: string, entityId: string) {
    op in s.intents.at && op !in s.completed && s.intents.at[op].source == source
    && s.intents.at[op].entityId == entityId
  }

  /** Every item with an open search is uncertain. */
  ghost predicate OpenIsUncertain(s: Intents) {
    forall op, source, entityId :: OpenFor(s, op, source, entityId) ==> (source, entityId) in s.uncertain
  }

  /** Recording intents, grabs and attempts keeps that. */
  lemma RecordingKeepsUncertain(s: Intents, intent: SearchIntent, g: GrabIntent, op: string, now: int)
    requires OpenIsUncertain(s)
    ensures IntentRecorded(s, intent, now).Ok? ==> OpenIsUncertain(IntentRecorded(s, intent, now).value)
    ensures GrabRecorded(s, g).Ok? ==> OpenIsUncertain(GrabRecorded(s, g).value)
    ensures Attempted(s, op).Ok? ==> OpenIsUncertain(Attempted(s, op).value)
  {
    forall k, source, entityId |
      IntentRecorded(s, intent, now).Ok? && OpenFor(IntentRecorded(s, intent, now).value, k, source, entityId)
      ensures (source, entityId) in IntentRecorded(s, intent, now).value.uncertain
    {
      assert k != intent.operationId || k in s.intents.at ==> OpenFor(s, k, source, entityId);
    }
    forall k, source, entityId | GrabRecorded(s, g).Ok? && OpenFor(GrabRecorded(s, g).value, k, source, entityId)
      ensures (source, entityId) in s.uncertain
    {
      assert OpenFor(s, k, source, entityId);
    }
    forall k, source, entityId | Attempted(s, op).Ok? && OpenFor(Attempted(s, op).value, k, source, entityId)
      ensures (source, entityId) in s.uncertain
    {
      assert OpenFor(s, k, source, entityId);
    }
  }

  /** Closing one search keeps it exactly when the item has no other open search. */
  lemma ClosingKeepsUncertainIff(s: Intents, op: string, done: bool, now: int)
    requires OpenIsUncertain(s) && ObservedAt(s, op, done, now).Ok?
    ensures OpenIsUncertain(ObservedAt(s, op, done, now).value)
            <==> forall other :: other != op ==> !OpenFor(s, other, s.intents.at[op].source, s.intents.at[op].entityId)
  {
    var t := ObservedAt(s, op, done, now).value;
    var source, entityId := s.intents.at[op].source, s.intents.at[op].entityId;
    assert (source, entityId) !in t.uncertain;
    forall other, x, y
      ensures OpenFor(t, other, x, y) <==> other != op && OpenFor(s, other, x, y)
    {
    }
    if forall other :: other != op ==> !OpenFor(s, other, source, entityId) {
      forall other, x, y | OpenFor(t, other, x, y)
        ensures (x, y) in t.uncertain
      {
        assert OpenFor(s, other, x, y);
      }
    }
  }
}
