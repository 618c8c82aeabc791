/** The Reconciler service: remember, reserve with Fence, remember the attempt, and only then
    send the one grab request. */
module ReconcilerDriver {
  import opened Common
  import opened FenceEntry
  import opened FenceLedger
  import opened ReconcilerModel
  import opened ReconcilerMachine

  datatype Outcome = Unavailable | Inhibited | Pending | Bound

  class ReconcilerService {
    const state: ReconciliationState
    /** The sources that have both an adapter and a profile. */
    const sources: set<string>
    var fence: Ledger
    ghost var durable: Intents
    ghost var permit: Permit
    ghost var log: seq<string>
    ghost var shown: set<Shown>
    ghost var run: seq<Desk>

    ghost function Now(): Desk
      reads this, state
    {
      Desk(durable, state.Value(), fence, permit, log, shown)
    }

    ghost predicate Valid()
      reads this, state
    {
      && run != [] && DeskRun(run) && run[|run| - 1] == Now()
      && fence.Keyed()
    }

    constructor (sources: set<string>, fence: Ledger)
      requires fence.Keyed()
      ensures Valid() && fresh(state)
    {
      state := new ReconciliationState();
      this.sources, this.fence := sources, fence;
      durable, permit, log, shown := NoIntents(), NoPermit, [], {};
      run := [Desk(NoIntents(), NoIntents(), fence, NoPermit, [], {})];
    }

    lemma Safe()
      requires Valid()
      ensures DeskInv(Now())
    {
      DeskAlways(run, |run| - 1);
    }

    lemma RecordedSafe(op: string)
      requires Valid() && op in state.grabs
      ensures state.grabs[op].watermark >= 0 && state.grabs[op].operationId == op && op in state.intents.at
    {
      Safe();
      hide DeskRun, Ledger.Keyed;
      GrabCoherent(state.Value(), op);
    }

    ghost method Extend(lab: DeskLabel)
      requires run != [] && DeskRun(run) && run[|run| - 1].fence.Keyed() && fence.Keyed()
      requires DeskStep(run[|run| - 1], lab, Now())
      modifies this`run
      ensures Valid()
    {
      DeskExtend(run, lab, Now());
      run := run + [Now()];
    }

    /** A new call holds no permission that an earlier one may have left. */
    ghost method Begin()
      requires Valid()
      modifies this`permit, this`run
      ensures Valid() && permit == NoPermit
    {
      hide DeskRun, Ledger.Keyed;
      permit := NoPermit;
      Extend(EndCall);
    }

    method Persist() returns (saved: bool)
      requires Valid()
      modifies this`durable, this`permit, this`run
      ensures Valid()
      ensures saved ==>
        durable == state.Value() && permit == (if old(permit).Marked? then Armed(old(permit).op) else old(permit))
      ensures !saved ==> durable == old(durable) && permit == old(permit)
    {
      hide DeskRun, Ledger.Keyed;
      saved := *;
      if saved {
        durable := state.Value();
        permit := if permit.Marked? then Armed(permit.op) else permit;
        Extend(Save);
      }
    }

    // Fence and Arr.

    /** Anything Fence does meanwhile. */
    method FenceWorks()
      requires Valid()
      modifies this`fence, this`run
      ensures Valid()
    {
      hide DeskRun;
      var steps: nat := *;
      while steps > 0
        invariant Valid()
        decreases steps
      {
        var action: Action := *;
        var next := Apply(fence, action);
        if next.Ok? {
          ApplyKeyed(fence, action);
          hide Ledger.Keyed;
          fence := next.value;
          Extend(FenceMoves(action));
        }
        steps := steps - 1;
      }
    }

    /** Fence answers true only for an operation that it holds bound to this grab. */
    method BindGrab(seen: Shown) returns (bound: bool)
      requires Valid()
      modifies this`fence, this`run
      ensures Valid()
      ensures bound ==> BoundTo(fence, seen.op, seen.downloadId, seen.torrentHash)
    {
      hide DeskRun;
      FenceWorks();
      bound := *;
      bound := bound && BoundTo(fence, seen.op, seen.downloadId, seen.torrentHash);
    }

    /** What Arr shows of the grab that this operation asked for. */
    method ObserveGrab(op: string) returns (o: Option<Shown>)
      requires Valid()
      modifies this`shown, this`run
      ensures Valid() && old(shown) <= shown
      ensures o.Some? ==> o.value.op == op && o.value in shown
    {
      hide DeskRun, Ledger.Keyed;
      var observed: bool, downloadId: string, torrentHash: string := *, *, *;
      if !observed {
        return None;
      }
      o := Some(Shown(op, downloadId, torrentHash));
      shown := shown + {o.value};
      Extend(Show(o.value));
    }

    method PreAdmit(op: string) returns (answer: Option<bool>)
      requires Valid() && op in state.grabs && state.grabs[op].watermark >= 0 && state.grabs[op].operationId == op
      modifies this`fence, this`permit, this`run
      ensures Valid()
      ensures answer == Some(true) ==> permit == Permitted(op)
      ensures answer != Some(true) && old(permit) == NoPermit ==> permit == NoPermit
    {
      hide DeskRun;
      var intent := PreAdmissionOf(state.grabs[op]);
      var reachable: bool, q: bool, p: bool, pub: bool := *, *, *, *;
      if !reachable {
        return None;
      }
      ApplyKeyed(fence, Action.PreAdmit(intent, q, p, pub));
      hide Ledger.Keyed, PreAdmitDecision, PreAdmissionOf;
      var admitted := PreAdmitDecision(fence, intent, q, p, pub).admitted;
      fence := Apply(fence, Action.PreAdmit(intent, q, p, pub)).value;
      permit := if admitted then Permitted(op) else NoPermit;
      Extend(Admit(op, q, p, pub));
      return Some(admitted);
    }

    method Remember(op: string)
      requires Valid() && permit == Permitted(op) && op in state.grabs && op !in state.attempted
      modifies this`permit, this`run, state
      ensures Valid() && permit == Marked(op)
      ensures Attempted(old(state.Value()), op) == Ok(state.Value())
    {
      hide DeskRun, Ledger.Keyed;
      var marked := state.MarkGrabAttempted(op);
      permit := Marked(op);
      Extend(NoteAttempt(op));
    }

    /** The one request to Arr; its answer proves nothing. */
    method GrabRelease(op: string)
      requires Valid() && permit == Armed(op)
      modifies this`permit, this`log, this`run
      ensures Valid() && log == old(log) + [op] && permit == NoPermit
    {
      hide DeskRun, Ledger.Keyed;
      permit, log := NoPermit, log + [op];
      Extend(Grab(op));
    }

    // The steps of one operation.

    /** Reserves, remembers the attempt durably and then sends the request, unless it was sent before. */
    method RequestOnce(op: string) returns (r: Result<Option<Outcome>>)
      requires Valid() && permit == NoPermit && op in state.grabs
      modifies this, state
      ensures Valid()
      ensures log == old(log) || (op !in old(state.attempted) && log == old(log) + [op])
      ensures r == Ok(None) ==> op in state.attempted
      ensures r != Ok(Some(Bound))
      ensures state.intents == old(state.intents) && old(state.attempted) <= state.attempted
    {
      hide DeskRun, Ledger.Keyed;
      if op in state.attempted {
        return Ok(None);
      }
      RecordedSafe(op);
      var admitted := PreAdmit(op);
      if admitted != Some(true) {
        return Ok(Some(if admitted.None? then Unavailable else Inhibited));
      }
      Remember(op);
      var saved := Persist();
      if !saved {
        return Raised;
      }
      GrabRelease(op);
      return Ok(None);
    }

    /** Binds the grab that Arr shows, and closes the intent only once Fence took it. */
    method ObserveAndBind(op: string, now: int) returns (r: Result<Outcome>)
      requires Valid() && op in state.intents.at
      modifies this, state
      ensures Valid() && log == old(log) && state.attempted == old(state.attempted)
      ensures r == Ok(Bound) ==> op in state.completed && state.completed[op] && Closed(op)
    {
      hide DeskRun, Ledger.Keyed;
      var reachable: bool := *;
      if !reachable {
        return Ok(Unavailable);
      }
      var seen := ObserveGrab(op);
      if seen.None? {
        return Ok(Pending);
      }
      var bound := BindGrab(seen.value);
      if !bound {
        return Ok(Pending);
      }
      var observed := state.MarkObserved(op, true, now);
      if observed.Raised? {
        return Raised;
      }
      assert seen.value == Shown(op, seen.value.downloadId, seen.value.torrentHash);
      Extend(NoteObserved(op, true, now));
      var saved := Persist();
      return if saved then Ok(Bound) else Raised;
    }

    /** The intent is durably closed, and Fence holds it bound to a grab that Arr showed. */
    ghost predicate Closed(op: string)
      reads this, state
    {
      op in durable.completed && durable.completed[op] && HeldAsShown(Now(), op)
    }

    /** Remembers the release Arr would grab, before anything is asked of Fence or Arr. */
    method ChooseRelease(intent: SearchIntent) returns (r: Result<Option<Outcome>>)
      requires Valid() && permit == NoPermit
      modifies this, state
      ensures Valid() && log == old(log) && permit == NoPermit
      ensures state.attempted == old(state.attempted) && state.intents == old(state.intents)
      ensures r == Ok(None) ==> intent.operationId in state.grabs
      ensures r != Ok(Some(Bound))
    {
      hide DeskRun, Ledger.Keyed, GrabIntent.Valid;
      if intent.operationId in state.grabs {
        return Ok(None);
      }
      if intent.source == LIDARR {
        return Ok(Some(Inhibited));
      }
      var reachable: bool, known: bool, watermark: int, release: Release := *, *, *, *;
      if !reachable {
        return Ok(Some(Unavailable));
      }
      if !known {
        return Ok(Some(Inhibited));
      }
      r := RememberRelease(intent, release, watermark);
    }

    method RememberRelease(intent: SearchIntent, release: Release, watermark: int) returns (r: Result<Option<Outcome>>)
      requires Valid() && permit == NoPermit
      modifies this, state
      ensures Valid() && log == old(log) && permit == NoPermit
      ensures state.attempted == old(state.attempted) && state.intents == old(state.intents)
      ensures r == Ok(None) ==> intent.operationId in state.grabs
      ensures r != Ok(Some(Bound))
    {
      var grab := GrabIntent(intent.operationId, intent.source, intent.entityId, release.selectorFingerprint,
                             release.expectedBytes, watermark, release.resource);
      if !grab.Valid() {
        return Ok(Some(Inhibited));
      }
      hide DeskRun, Ledger.Keyed, GrabIntent.Valid;
      var recorded := state.RecordGrabIntent(grab);
      if recorded.Raised? {
        return Raised;
      }
      Extend(NoteGrab(grab));
      var saved := Persist();
      return if saved then Ok(None) else Raised;
    }

    // The calls.

    /** Resumes whatever of an intent is durable; a request that may have been sent is only observed. */
    method RecoverIntent(intent: SearchIntent, now: int) returns (r: Result<Outcome>)
      requires Valid() && intent.operationId in state.intents.at
      modifies this, state
      ensures Valid()
      ensures log == old(log) || (intent.operationId !in old(state.attempted) && log == old(log) + [intent.operationId])
      ensures old(state.attempted) <= state.attempted
      ensures r == Ok(Bound) ==> Closed(intent.operationId)
    {
      hide DeskRun, Ledger.Keyed;
      Begin();
      if intent.source !in sources {
        return Ok(Unavailable);
      }
      var chosen := ChooseRelease(intent);
      if chosen.Raised? {
        return Raised;
      }
      if chosen.value.Some? {
        return Ok(chosen.value.value);
      }
      var restored: bool, stopped: bool := *, *;
      if intent.source == LIDARR && !restored {
        return Ok(Unavailable);
      }
      if intent.operationId !in state.attempted && !stopped {
        return Ok(Inhibited);
      }
      r := RequestAndObserve(intent, now);
    }

    method RequestAndObserve(intent: SearchIntent, now: int) returns (r: Result<Outcome>)
      requires Valid() && permit == NoPermit && intent.operationId in state.grabs
               && intent.operationId in state.intents.at
      modifies this, state
      ensures Valid()
      ensures log == old(log) || (intent.operationId !in old(state.attempted) && log == old(log) + [intent.operationId])
      ensures old(state.attempted) <= state.attempted
      ensures r == Ok(Bound) ==> Closed(intent.operationId)
    {
      hide DeskRun, Ledger.Keyed;
      var requested := RequestOnce(intent.operationId);
      if requested.Raised? {
        return Raised;
      }
      if requested.value.Some? {
        return Ok(requested.value.value);
      }
      r := ObserveAndBind(intent.operationId, now);
    }

    /** At most one durable release handoff; pending is never success. */
    method Execute(intent: SearchIntent, now: int) returns (r: Result<Outcome>)
      requires Valid()
      modifies this, state
      ensures Valid()
      ensures log == old(log) || (intent.operationId !in old(state.attempted) && log == old(log) + [intent.operationId])
      ensures old(state.attempted) <= state.attempted
      ensures r == Ok(Bound) ==> Closed(intent.operationId)
    {
      hide DeskRun, Ledger.Keyed;
      Begin();
      if intent.operationId in state.intents.at {
        if state.intents.at[intent.operationId] != intent {
          return Ok(Inhibited);
        }
      } else {
        var remembered := RememberIntent(intent, now);
        if remembered.Raised? {
          return Raised;
        }
        var saved := Persist();
        if !saved {
          return Raised;
        }
      }
      if intent.source !in sources {
        return Ok(Inhibited);
      }
      var reachable: bool, stopped: bool, restored: bool := *, *, *;
      if !reachable {
        return Ok(Unavailable);
      }
      if !stopped {
        return Ok(Inhibited);
      }
      var chosen := ChooseRelease(intent);
      if chosen.Raised? {
        return Raised;
      }
      if chosen.value.Some? {
        return Ok(chosen.value.value);
      }
      if intent.source == LIDARR && !restored {
        return Ok(Unavailable);
      }
      r := RequestAndObserve(intent, now);
    }

    method RememberIntent(intent: SearchIntent, now: int) returns (r: Result<()>)
      requires Valid() && permit == NoPermit
      modifies this`run, state
      ensures Valid() && permit == NoPermit && state.attempted == old(state.attempted)
      ensures r.Ok? ==> intent.operationId in state.intents.at && state.intents.at[intent.operationId] == intent
      ensures r.Raised? ==> state.Value() == old(state.Value())
    {
      hide DeskRun, Ledger.Keyed;
      r := state.RecordIntent(intent, now);
      if r.Ok? {
        Extend(NoteIntent(intent, now));
      }
    }

    /** Executes an already selected release without a second search. */
    method ExecuteSelected(intent: SearchIntent, release: Release, now: int) returns (r: Result<Outcome>)
      requires Valid()
      modifies this, state
      ensures Valid()
      ensures log == old(log) || (intent.operationId !in old(state.attempted) && log == old(log) + [intent.operationId])
      ensures old(state.attempted) <= state.attempted
      ensures r == Ok(Bound) ==> Closed(intent.operationId)
    {
      hide DeskRun, Ledger.Keyed, GrabIntent.Valid;
      Begin();
      var existing := intent.operationId in state.intents.at;
      if existing && state.intents.at[intent.operationId] != intent {
        return Ok(Inhibited);
      }
      if intent.source !in sources {
        return Ok(Inhibited);
      }
      if existing && intent.operationId in state.grabs {
        if state.grabs[intent.operationId].selectorFingerprint != release.selectorFingerprint {
          return Ok(Inhibited);
        }
        r := RecoverIntent(intent, now);
        return;
      }
      if existing && intent.source != LIDARR {
        return Ok(Unavailable);
      }
      var reachable: bool, stopped: bool, known: bool, watermark: int := *, *, *, *;
      if !reachable || !known {
        return Ok(Unavailable);
      }
      if !stopped {
        return Ok(Inhibited);
      }
      var grab := GrabIntent(intent.operationId, intent.source, intent.entityId, release.selectorFingerprint,
                             release.expectedBytes, watermark, release.resource);
      if !grab.Valid() {
        return Ok(Inhibited);
      }
      if !existing {
        var remembered := RememberIntent(intent, now);
        if remembered.Raised? {
          return Raised;
        }
      }
      var recorded := RememberRelease(intent, release, watermark);
      if recorded != Ok(None) {
        return if recorded.Raised? then Raised else Ok(recorded.value.value);
      }
      r := RecoverIntent(intent, now);
    }

    /** Resumes every open intent, in the order they were recorded. */
    method Recover(now: int) returns (r: Result<seq<Outcome>>)
      requires Valid()
      modifies this, state
      ensures Valid()
      ensures old(log) <= log && forall j :: |old(log)| <= j < |log| ==> log[j] !in old(state.attempted)
    {
      hide DeskRun, Ledger.Keyed, Closed, HeldAsShown, BoundTo;
      Safe();
      CoherentNow(state.Value());
      var intents := state.intents;
      var outcomes: seq<Outcome> := [];
      var i := 0;
      while i < |intents.keys|
        invariant 0 <= i <= |intents.keys| && Valid()
        invariant old(state.attempted) <= state.attempted
        invariant old(log) <= log && forall j :: |old(log)| <= j < |log| ==> log[j] !in old(state.attempted)
        decreases |intents.keys| - i
      {
        var op := intents.keys[i];
        if op in intents.at && op in state.intents.at && op !in state.completed {
          Safe();
          CoherentNow(state.Value());
          var outcome :- RecoverIntent(state.intents.at[op], now);
          outcomes := outcomes + [outcome];
        }
        i := i + 1;
      }
      return Ok(outcomes);
    }
  }

  lemma CoherentNow(s: Intents)
    ensures s.Coherent() ==> forall op :: op in s.intents.at ==> s.intents.at[op].operationId == op
  {
  }

  lemma DeskExtend(run: seq<Desk>, lab: DeskLabel, t: Desk)
    requires DeskRun(run) && run[|run| - 1].fence.Keyed() && DeskStep(run[|run| - 1], lab, t)
    ensures DeskRun(run + [t])
  {
    hide DeskStep, Ledger.Keyed;
    forall i | 0 < i < |run + [t]|
      ensures DeskNext((run + [t])[i - 1], (run + [t])[i])
    {
      if i < |run| {
        assert DeskNext(run[i - 1], run[i]);
      }
    }
  }

  lemma GrabCoherent(s: Intents, op: string)
    requires s.Coherent() && op in s.grabs
    ensures s.grabs[op].watermark >= 0 && s.grabs[op].operationId == op && op in s.intents.at
  {
  }
}
