/** The Reconciler as a machine: memory that may run ahead of the store, Fence admissions, and
    grab requests to Arr. */
module ReconcilerMachine {
  import opened Common
  import opened FenceEntry
  import opened FenceLedger
  import opened FenceReloadSteps
  import opened ReconcilerModel

  /** Progress of the running call towards one grab request. */
  datatype Permit = NoPermit | Permitted(op: string) | Marked(op: string) | Armed(op: string)

  /** A grab that Arr showed for an operation. */
  datatype Shown = Shown(op: string, downloadId: string, torrentHash: string)

  /** `log` lists the operations whose grab request was sent, `shown` every grab that Arr showed. */
  datatype Desk = Desk(durable: Intents, working: Intents, fence: Ledger, permit: Permit, log: seq<string>,
                       shown: set<Shown>)

  datatype DeskLabel =
    | NoteIntent(intent: SearchIntent, now: int)
    | NoteGrab(grab: GrabIntent)
    | NoteAttempt(op: string)
    | NoteObserved(op: string, done: bool, observedNow: int)
    | Save
    | Admit(admitted: string, qbittorrentReady: bool, prowlarrReady: bool, publisherReady: bool)
    | FenceMoves(action: Action)
    | Show(seen: Shown)
    | Grab(grabbed: string)
    | EndCall
    | Restart

  function Noted(s: Intents, lab: DeskLabel): Result<Intents> {
    match lab
    case NoteIntent(intent, now) => IntentRecorded(s, intent, now)
    case NoteGrab(g) => if g.watermark >= 0 then GrabRecorded(s, g) else Raised
    case NoteAttempt(op) => Attempted(s, op)
    case NoteObserved(op, done, now) => ObservedAt(s, op, done, now)
    case _ => Ok(s)
  }

  /** Fence holds the operation bound to a grab that Arr showed for it. */
  ghost predicate HeldAsShown(s: Desk, op: string) {
    exists d, h :: Shown(op, d, h) in s.shown && BoundTo(s.fence, op, d, h)
  }

  ghost predicate DeskStep(s: Desk, lab: DeskLabel, t: Desk)
    requires s.fence.Keyed()
  {
    match lab
    case NoteAttempt(op) =>
      && s.permit == Permitted(op) && op !in s.working.attempted && Noted(s.working, lab).Ok?
      && t == s.(working := Noted(s.working, lab).value, permit := Marked(op))
    case NoteIntent(_, _) => Noted(s.working, lab).Ok? && t == s.(working := Noted(s.working, lab).value)
    case NoteGrab(_) => Noted(s.working, lab).Ok? && t == s.(working := Noted(s.working, lab).value)
    case NoteObserved(op, done, _) =>
      && Noted(s.working, lab).Ok? && (done ==> HeldAsShown(s, op))
      && t == s.(working := Noted(s.working, lab).value)
    case Save => t == s.(durable := s.working, permit := if s.permit.Marked? then Armed(s.permit.op) else s.permit)
    case Admit(op, q, p, pub) =>
      && op in s.working.grabs && s.working.grabs[op].watermark >= 0 && s.working.grabs[op].operationId == op
      && var intent := PreAdmissionOf(s.working.grabs[op]);
         && Apply(s.fence, PreAdmit(intent, q, p, pub)).Ok?
         && t == s.(fence := Apply(s.fence, PreAdmit(intent, q, p, pub)).value,
                    permit := if PreAdmitDecision(s.fence, intent, q, p, pub).admitted then Permitted(op) else NoPermit)
    case FenceMoves(a) => Apply(s.fence, a).Ok? && t == s.(fence := Apply(s.fence, a).value)
    case Show(seen) => t == s.(shown := s.shown + {seen})
    case Grab(op) => s.permit == Armed(op) && t == s.(permit := NoPermit, log := s.log + [op])
    case EndCall => t == s.(permit := NoPermit)
    case Restart => t == s.(working := s.durable, permit := NoPermit)
  }

  // The invariant.

  predicate SentTwice(log: seq<string>) {
    exists i, j :: 0 <= i < j < |log| && log[i] == log[j]
  }

  /** Fence durably holds exactly what the grab was recorded with. */
  predicate Backed(fence: Ledger, grabs: map<string, GrabIntent>, op: string) {
    && op in grabs && grabs[op].watermark >= 0 && grabs[op].operationId == op
    && fence.Has(op) && SameRequest(fence.reservations.at[op], PreAdmissionOf(grabs[op]))
  }

  predicate PermitOk(s: Desk) {
    match s.permit
    case NoPermit => true
    case Permitted(op) => Backed(s.fence, s.working.grabs, op)
    case Marked(op) => Backed(s.fence, s.working.grabs, op) && op in s.working.attempted && op !in s.log
    case Armed(op) => Backed(s.fence, s.working.grabs, op) && op in s.durable.attempted && op !in s.log
  }

  ghost predicate LogBacked(fence: Ledger, durable: Intents, log: seq<string>) {
    forall op :: op in log ==> op in durable.attempted && Backed(fence, durable.grabs, op)
  }

  ghost predicate DeskInv(s: Desk) {
    && s.fence.Keyed() && s.durable.Coherent() && s.working.Coherent() && Extends(s.working, s.durable)
    && PermitOk(s)
    && LogBacked(s.fence, s.durable, s.log)
    && !SentTwice(s.log)
  }

  // Preservation.

  lemma NotedKeeps(s: Intents, lab: DeskLabel)
    requires s.Coherent() && Noted(s, lab).Ok?
    ensures Noted(s, lab).value.Coherent() && Extends(Noted(s, lab).value, s)
    ensures lab.NoteAttempt? ==> lab.op in Noted(s, lab).value.attempted
  {
    match lab {
      case NoteIntent(intent, now) => IntentKeeps(s, intent, now);
      case NoteGrab(g) => GrabKeeps(s, g);
      case NoteAttempt(op) => AttemptKeeps(s, op);
      case NoteObserved(op, done, now) => ObservedKeeps(s, op, done, now);
      case _ =>
    }
    hide Intents.Coherent, Extends, IntentRecorded, GrabRecorded, ObservedAt;
    assert !lab.NoteIntent? && !lab.NoteGrab? && !lab.NoteAttempt? && !lab.NoteObserved? ==> Noted(s, lab).value == s;
    ExtendsSelf(s);
  }

  lemma ExtendsSelf(s: Intents)
    ensures Extends(s, s)
  {
  }

  lemma ExtendsTransitive(a: Intents, b: Intents, c: Intents)
    requires Extends(b, a) && Extends(c, b)
    ensures Extends(c, a)
  {
  }

  lemma BackedByMore(fence: Ledger, before: Intents, after: Intents, op: string)
    requires Backed(fence, before.grabs, op) && Extends(after, before)
    ensures Backed(fence, after.grabs, op)
  {
  }

  /** No transition of Fence forgets a reservation or changes what it was requested for. */
  lemma FenceKeepsRequests(l: Ledger, a: Action, grabs: map<string, GrabIntent>, op: string)
    requires l.Keyed() && Apply(l, a).Ok? && Backed(l, grabs, op)
    ensures Backed(Apply(l, a).value, grabs, op)
  {
    var next := Apply(l, a).value;
    assert l.EntryOf(op).reservation == l.reservations.at[op];
    if a.Op? && a.op == op {
      StepKeepsSeal(l.EntryOf(op), a.step, l.quiescing);
      hide EntryStep, Ledger.Keyed, PreAdmissionOf;
      assert next.reservations.at[op] == EntryStep(l.EntryOf(op), a.step, l.quiescing).value.reservation;
    } else {
      ApplyFrame(l, a, op);
      hide Apply, Ledger.Keyed;
      assert next.EntryOf(op).reservation == next.reservations.at[op];
    }
  }

  /** An admission, fresh or repeated, is for the request itself. */
  lemma AdmittedIsBacked(l: Ledger, grabs: map<string, GrabIntent>, op: string, q: bool, p: bool, pub: bool)
    requires l.Keyed() && op in grabs && grabs[op].watermark >= 0 && grabs[op].operationId == op
    requires Apply(l, PreAdmit(PreAdmissionOf(grabs[op]), q, p, pub)).Ok?
             && PreAdmitDecision(l, PreAdmissionOf(grabs[op]), q, p, pub).admitted
    ensures Backed(Apply(l, PreAdmit(PreAdmissionOf(grabs[op]), q, p, pub)).value, grabs, op)
  {
    hide Ledger.Keyed, PreAdmissionValid, Ledger.Inflight, Ledger.ReservedBytes, Printed;
  }

  lemma NoteKeepsInv(s: Desk, lab: DeskLabel, t: Desk)
    requires DeskInv(s) && DeskStep(s, lab, t)
             && (lab.NoteIntent? || lab.NoteGrab? || lab.NoteAttempt? || lab.NoteObserved?)
    ensures DeskInv(t)
  {
    NotedKeeps(s.working, lab);
    ExtendsTransitive(s.durable, s.working, t.working);
    if s.permit != NoPermit {
      BackedByMore(s.fence, s.working, t.working, s.permit.op);
    }
    if lab.NoteAttempt? {
      assert lab.op !in s.durable.attempted;
    }
    hide Noted, Intents.Coherent, Backed, SentTwice, Ledger.Keyed;
  }

  lemma SaveKeepsInv(s: Desk, t: Desk)
    requires DeskInv(s) && DeskStep(s, Save, t)
    ensures DeskInv(t)
  {
    forall op | op in t.log
      ensures op in t.durable.attempted && Backed(t.fence, t.durable.grabs, op)
    {
      BackedByMore(s.fence, s.durable, s.working, op);
    }
    assert Extends(s.working, s.working);
    hide Intents.Coherent, Backed, SentTwice, Ledger.Keyed;
  }

  lemma FenceKeepsInv(s: Desk, a: Action, t: Desk)
    requires DeskInv(s) && DeskStep(s, FenceMoves(a), t)
    ensures DeskInv(t)
  {
    hide Intents.Coherent, Backed, SentTwice, Ledger.Keyed, Apply, LogBacked, Extends;
    FenceKeepsBacked(s, a);
    ApplyKeyed(s.fence, a);
  }

  lemma FenceKeepsBacked(s: Desk, a: Action)
    requires DeskInv(s) && Apply(s.fence, a).Ok?
    ensures LogBacked(Apply(s.fence, a).value, s.durable, s.log)
    ensures s.permit != NoPermit ==> Backed(Apply(s.fence, a).value, s.working.grabs, s.permit.op)
  {
    forall op | op in s.log
      ensures Backed(Apply(s.fence, a).value, s.durable.grabs, op)
    {
      FenceKeepsRequests(s.fence, a, s.durable.grabs, op);
    }
    if s.permit != NoPermit {
      FenceKeepsRequests(s.fence, a, s.working.grabs, s.permit.op);
    }
    hide Apply, Backed, Intents.Coherent, Ledger.Keyed;
  }

  lemma AdmitKeepsInv(s: Desk, op: string, q: bool, p: bool, pub: bool, t: Desk)
    requires DeskInv(s) && DeskStep(s, Admit(op, q, p, pub), t)
    ensures DeskInv(t)
  {
    hide Intents.Coherent, Backed, SentTwice, Ledger.Keyed, Apply, PreAdmitDecision, PreAdmissionOf, Extends, LogBacked;
    var intent := PreAdmissionOf(s.working.grabs[op]);
    assert Apply(s.fence, PreAdmit(intent, q, p, pub)).Ok?;
    FenceKeepsBacked(s, PreAdmit(intent, q, p, pub));
    ApplyKeyed(s.fence, PreAdmit(intent, q, p, pub));
    assert t.fence == Apply(s.fence, PreAdmit(intent, q, p, pub)).value;
    if t.permit.Permitted? {
      AdmittedIsBacked(s.fence, s.working.grabs, op, q, p, pub);
    }
    AdmitMoves(s, op, q, p, pub, t);
    hide DeskStep;
  }

  lemma AdmitMoves(s: Desk, op: string, q: bool, p: bool, pub: bool, t: Desk)
    requires s.fence.Keyed() && DeskStep(s, Admit(op, q, p, pub), t)
    ensures t.durable == s.durable && t.working == s.working && t.log == s.log && t.permit in {NoPermit, Permitted(op)}
  {
    hide Apply, PreAdmitDecision, PreAdmissionOf;
  }

  lemma SentOnce(log: seq<string>, op: string)
    requires !SentTwice(log) && op !in log
    ensures !SentTwice(log + [op])
  {
    forall i, j | 0 <= i < j < |log + [op]|
      ensures (log + [op])[i] != (log + [op])[j]
    {
      if j < |log| {
        assert log[i] != log[j];
      } else {
        assert log[i] in log;
      }
    }
  }

  lemma GrabKeepsInv(s: Desk, op: string, t: Desk)
    requires DeskInv(s) && DeskStep(s, Grab(op), t)
    ensures DeskInv(t)
  {
    hide Intents.Coherent, Backed, SentTwice, Ledger.Keyed, Extends, LogBacked;
    SentOnce(s.log, op);
    AttemptedIsRecorded(s.durable, op);
    BackedDurably(s.fence, s.working, s.durable, op);
    LogBackedMore(s.fence, s.durable, s.log, op);
  }

  lemma LogBackedMore(fence: Ledger, durable: Intents, log: seq<string>, op: string)
    requires LogBacked(fence, durable, log) && op in durable.attempted && Backed(fence, durable.grabs, op)
    ensures LogBacked(fence, durable, log + [op])
  {
    hide Backed;
  }

  lemma AttemptedIsRecorded(s: Intents, op: string)
    requires s.Coherent() && op in s.attempted
    ensures op in s.grabs
  {
  }

  lemma BackedDurably(fence: Ledger, working: Intents, durable: Intents, op: string)
    requires Backed(fence, working.grabs, op) && Extends(working, durable) && op in durable.grabs
    ensures Backed(fence, durable.grabs, op)
  {
  }

  lemma DeskStepKeepsInv(s: Desk, lab: DeskLabel, t: Desk)
    requires DeskInv(s) && DeskStep(s, lab, t)
    ensures DeskInv(t)
  {
    match lab {
      case Save => SaveKeepsInv(s, t);
      case Admit(op, q, p, pub) => AdmitKeepsInv(s, op, q, p, pub, t);
      case FenceMoves(a) => FenceKeepsInv(s, a, t);
      case Grab(op) => GrabKeepsInv(s, op, t);
      case EndCall =>
      case Show(seen) =>
      case Restart => assert Extends(s.durable, s.durable);
      case _ => NoteKeepsInv(s, lab, t);
    }
    hide Intents.Coherent, Backed, SentTwice, Ledger.Keyed, Apply, PreAdmitDecision, Noted, Extends;
  }

  // Whole runs.

  ghost predicate DeskNext(s: Desk, t: Desk) {
    s.fence.Keyed() && exists lab :: DeskStep(s, lab, t)
  }

  /** A run starts with nothing remembered, beside any Fence ledger. */
  ghost predicate DeskRun(run: seq<Desk>) {
    && run != [] && run[0].fence.Keyed() && run[0] == Desk(NoIntents(), NoIntents(), run[0].fence, NoPermit, [], {})
    && forall i :: 0 < i < |run| ==> DeskNext(run[i - 1], run[i])
  }

  lemma {:induction false} DeskAlways(run: seq<Desk>, i: nat)
    requires DeskRun(run) && i < |run|
    ensures DeskInv(run[i])
  {
    if i > 0 {
      hide DeskStep, DeskInv;
      DeskAlways(run, i - 1);
      assert DeskNext(run[i - 1], run[i]);
      var lab :| DeskStep(run[i - 1], lab, run[i]);
      DeskStepKeepsInv(run[i - 1], lab, run[i]);
    }
  }

  /** A grab request is sent at most once per operation, across restarts and lost replies. */
  lemma GrabAtMostOnce(run: seq<Desk>, i: nat, a: nat, b: nat)
    requires DeskRun(run) && i < |run| && a < |run[i].log| && b < |run[i].log| && run[i].log[a] == run[i].log[b]
    ensures a == b
  {
    DeskAlways(run, i);
    hide DeskRun, Intents.Coherent, Backed, PermitOk, Ledger.Keyed;
  }

  /** When a grab request is sent, and ever after, its attempt is durable and Fence durably
      holds a reservation for exactly that release. */
  lemma GrabIsBacked(run: seq<Desk>, i: nat, op: string)
    requires DeskRun(run) && i < |run| && op in run[i].log
    ensures op in run[i].durable.attempted && op in run[i].durable.grabs && run[i].fence.Has(op)
    ensures var r, g := run[i].fence.reservations.at[op], run[i].durable.grabs[op];
      && r.source == g.source && r.mediaId == g.entityId && r.selectorFingerprint == Some(g.selectorFingerprint)
      && r.requestedBytes == g.expectedBytes && g.watermark >= 0 && r.watermark == Some(Printed(g.watermark))
  {
    DeskAlways(run, i);
    hide DeskRun, Intents.Coherent, SentTwice, PermitOk, Ledger.Keyed;
  }

  // Closing.

  /** Every operation that is remembered as completed is held as shown. */
  ghost predicate ClosedHeld(s: Desk, known: Intents) {
    forall op :: op in known.completed && known.completed[op] ==> HeldAsShown(s, op)
  }

  ghost predicate ClosingInv(s: Desk) {
    ClosedHeld(s, s.working) && ClosedHeld(s, s.durable)
  }

  lemma HeldStays(s: Desk, t: Desk, op: string)
    requires s.fence.Keyed() && HeldAsShown(s, op) && s.shown <= t.shown
    requires t.fence == s.fence || exists a :: Apply(s.fence, a) == Ok(t.fence)
    ensures HeldAsShown(t, op)
  {
    var d, h :| Shown(op, d, h) in s.shown && BoundTo(s.fence, op, d, h);
    if t.fence != s.fence {
      var a :| Apply(s.fence, a) == Ok(t.fence);
      hide Apply, Ledger.Keyed;
      ApplyKeepsBinding(s.fence, a, op);
    }
    assert BoundTo(t.fence, op, d, h);
  }

  lemma StepFence(s: Desk, lab: DeskLabel, t: Desk)
    requires s.fence.Keyed() && DeskStep(s, lab, t)
    ensures s.shown <= t.shown && (t.fence == s.fence || exists a :: Apply(s.fence, a) == Ok(t.fence))
  {
    hide Apply, PreAdmitDecision, PreAdmissionOf, Noted, Ledger.Keyed;
    match lab {
      case FenceMoves(a) => assert Apply(s.fence, a) == Ok(t.fence);
      case Admit(op, q, p, pub) =>
        assert Apply(s.fence, PreAdmit(PreAdmissionOf(s.working.grabs[op]), q, p, pub)) == Ok(t.fence);
      case _ =>
    }
  }

  /** Only an observation closes an intent. */
  lemma NotedCloses(s: Intents, lab: DeskLabel, op: string)
    requires Noted(s, lab).Ok?
    ensures var next := Noted(s, lab).value;
      op in next.completed && next.completed[op] ==>
        (lab.NoteObserved? && lab.op == op && lab.done) || (op in s.completed && s.completed[op])
  {
  }

  lemma StepKeepsClosing(s: Desk, lab: DeskLabel, t: Desk)
    requires s.fence.Keyed() && DeskStep(s, lab, t) && ClosingInv(s)
    ensures ClosingInv(t)
  {
    StepFence(s, lab, t);
    hide Apply, PreAdmitDecision, PreAdmissionOf, Noted, HeldAsShown, Ledger.Keyed;
    forall op | HeldAsShown(s, op)
      ensures HeldAsShown(t, op)
    {
      HeldStays(s, t, op);
    }
    forall op | Noted(s.working, lab).Ok?
      ensures var next := Noted(s.working, lab).value;
        op in next.completed && next.completed[op] ==>
          (lab.NoteObserved? && lab.op == op && lab.done) || (op in s.working.completed && s.working.completed[op])
    {
      NotedCloses(s.working, lab, op);
    }
  }

  /** An intent is closed as completed, in memory or in the store, only for an operation that Fence
      holds bound to a grab that Arr showed for it, then and ever after. */
  lemma {:induction false} ClosedOnlyBound(run: seq<Desk>, i: nat)
    requires DeskRun(run) && i < |run|
    ensures ClosingInv(run[i])
  {
    if i > 0 {
      hide DeskStep, ClosingInv;
      ClosedOnlyBound(run, i - 1);
      assert DeskNext(run[i - 1], run[i]);
      var lab :| DeskStep(run[i - 1], lab, run[i]);
      StepKeepsClosing(run[i - 1], lab, run[i]);
    }
  }
}
