/** Upgrade searches over whole runs: how often one generation of an entity is searched and how
    far apart, whatever searches fail, stay open or are abandoned meanwhile. */
module UpgradeRuns {
  import opened Common
  import opened FairOrder
  import opened UpgradeSchedule

  /** A search that was begun and is not yet accounted for; `forced` by a replacement. */
  datatype Pending = Pending(generation: string, terminal: bool, forced: bool)

  /** A completed search; `final` when it was begun after the horizon. */
  datatype Done = Done(key: ItemKey, generation: string, at: int, forced: bool, final: bool)

  datatype Upgrades = Upgrades(schedule: Schedule, pending: map<ItemKey, Pending>, clock: int, log: seq<Done>)

  /** One policy, and when each entity was released. */
  datatype Setting = Setting(policy: UpgradePolicy, released: ItemKey -> int)

  datatype UpgradeLabel =
    | Tick(now: int)
    | Begin(entity: UpgradeEntity)
    | Finish(finished: ItemKey)
    | Abandon(abandoned: ItemKey)
    | Fail(failed: UpgradeEntity)
    | Invalidate(key: ItemKey, initialDelay: int, multiplier: real, maximumDelay: int)

  predicate Selected(w: Setting, s: Upgrades, e: UpgradeEntity) {
    e.releasedAt == w.released(ItemOf(e)) && ItemOf(e) !in s.pending && IsDue(s.schedule, e, w.policy, s.clock)
  }

  predicate PastHorizon(w: Setting, s: Upgrades, key: ItemKey) {
    s.clock >= w.released(key) + w.policy.Horizon()
  }

  ghost predicate UpgradeStep(w: Setting, s: Upgrades, lab: UpgradeLabel, t: Upgrades) {
    match lab
    case Tick(now) => now >= s.clock && t == s.(clock := now)
    case Begin(e) =>
      && Selected(w, s, e)
      && t == s.(schedule := Resolved(s.schedule, ItemOf(e)),
                 pending := s.pending[ItemOf(e) := Pending(e.generation, PastHorizon(w, s, ItemOf(e)),
                                                           ItemOf(e) in s.schedule.replacements)])
    case Finish(key) =>
      && key in s.pending
      && var p := s.pending[key];
         && Completed(s.schedule, key, p.generation, w.policy, s.clock, p.terminal).Ok?
         && t == s.(schedule := Completed(s.schedule, key, p.generation, w.policy, s.clock, p.terminal).value,
                    pending := s.pending - {key},
                    log := s.log + [Done(key, p.generation, s.clock, p.forced, p.terminal)])
    case Abandon(key) => t == s.(pending := s.pending - {key})
    case Fail(e) =>
      && Selected(w, s, e) && Failed(s.schedule, e, w.policy, s.clock).Ok?
      && t == s.(schedule := Failed(s.schedule, e, w.policy, s.clock).value)
    case Invalidate(key, initialDelay, multiplier, maximumDelay) =>
      && CandidateInvalidated(s.schedule, key, s.clock, initialDelay, multiplier, maximumDelay).Ok?
      && t
         == s.(schedule := CandidateInvalidated(s.schedule, key, s.clock, initialDelay, multiplier, maximumDelay).value)
  }

  ghost predicate UpgradeNext(w: Setting, s: Upgrades, t: Upgrades) {
    exists lab :: UpgradeStep(w, s, lab, t)
  }

  ghost predicate UpgradeRun(w: Setting, run: seq<Upgrades>) {
    && w.policy.Valid() && run != []
    && run[0].schedule == Schedule(map[], map[], map[]) && run[0].pending == map[] && run[0].log == []
    && forall i :: 0 < i < |run| ==> UpgradeNext(w, run[i - 1], run[i])
  }

  // What the log says about one generation of one entity.

  /** Completed searches of this generation since the entity last had another one. */
  function Streak(log: seq<Done>, key: ItemKey, generation: string): nat {
    if log == [] then 0
    else
      var last := log[|log| - 1];
      if last.key != key then Streak(log[..|log| - 1], key, generation)
      else if last.generation != generation then 0
      else Streak(log[..|log| - 1], key, generation) + 1
  }

  /** Those of them that no replacement forced, begun after the horizon or before it. */
  function Unforced(log: seq<Done>, key: ItemKey, generation: string, final: bool): nat {
    if log == [] then 0
    else
      var last := log[|log| - 1];
      if last.key != key then Unforced(log[..|log| - 1], key, generation, final)
      else if last.generation != generation then 0
      else Unforced(log[..|log| - 1], key, generation, final) + (if !last.forced && last.final == final then 1 else 0)
  }

  /** All of them that were begun after the horizon, forced or not. */
  function Finals(log: seq<Done>, key: ItemKey, generation: string): nat {
    if log == [] then 0
    else
      var last := log[|log| - 1];
      if last.key != key then Finals(log[..|log| - 1], key, generation)
      else if last.generation != generation then 0
      else Finals(log[..|log| - 1], key, generation) + (if last.final then 1 else 0)
  }

  /** When the last search of an entity was completed. */
  function LastDone(log: seq<Done>, key: ItemKey): Option<int> {
    if log == [] then None
    else if log[|log| - 1].key == key then Some(log[|log| - 1].at)
    else LastDone(log[..|log| - 1], key)
  }

  lemma LogAppend(log: seq<Done>, d: Done, key: ItemKey, generation: string, final: bool)
    ensures Streak(log + [d], key, generation)
            == (if d.key != key then Streak(log, key, generation)
                else if d.generation != generation then 0
                else Streak(log, key, generation) + 1)
    ensures Unforced(log + [d], key, generation, final)
            == (if d.key != key then Unforced(log, key, generation, final)
                else if d.generation != generation then 0
                else Unforced(log, key, generation, final) + (if !d.forced && d.final == final then 1 else 0))
    ensures Finals(log + [d], key, generation)
            == (if d.key != key then Finals(log, key, generation)
                else if d.generation != generation then 0
                else Finals(log, key, generation) + (if d.final then 1 else 0))
    ensures LastDone(log + [d], key) == if d.key == key then Some(d.at) else LastDone(log, key)
  {
    assert (log + [d])[..|log|] == log;
  }

  lemma {:induction false} UnforcedAtMost(log: seq<Done>, key: ItemKey, generation: string)
    ensures Unforced(log, key, generation, false) + Unforced(log, key, generation, true) <= Streak(log, key, generation)
    ensures Finals(log, key, generation) <= Streak(log, key, generation)
  {
    if log != [] {
      UnforcedAtMost(log[..|log| - 1], key, generation);
    }
  }

  // The invariant, entity by entity.

  /** The checkpoint remembers the streak of its generation. */
  ghost predicate CheckpointOk(w: Setting, s: Upgrades, key: ItemKey) {
    key in s.schedule.checkpoints ==>
      var c := s.schedule.checkpoints[key];
      && c.revision == w.policy.revision
      && w.released(key) <= c.lastCompletedAt <= s.clock && LastDone(s.log, key) == Some(c.lastCompletedAt)
      && c.attempts == Streak(s.log, key, c.generation) > 0
      && c.nextSearchAt == c.lastCompletedAt + Cooldown(w.policy, c.attempts)
      && (c.terminal ==> PastHorizon(w, s, key))
      && Unforced(s.log, key, c.generation, false) <= w.policy.maxAttempts
      && Unforced(s.log, key, c.generation, true) <= (if c.terminal then 1 else 0)
      && (Finals(s.log, key, c.generation) > 0 ==> c.terminal)
  }

  ghost predicate NothingElse(s: Upgrades, key: ItemKey) {
    forall g :: (key in s.schedule.checkpoints ==> s.schedule.checkpoints[key].generation != g) ==>
      Streak(s.log, key, g) == 0
  }

  ghost predicate PendingOk(w: Setting, s: Upgrades, key: ItemKey) {
    key in s.pending ==>
      var p := s.pending[key];
      && w.released(key) <= s.clock
      && (p.terminal ==> PastHorizon(w, s, key))
      && (key in s.schedule.checkpoints && s.schedule.checkpoints[key].generation == p.generation ==>
            var c := s.schedule.checkpoints[key];
            && (c.terminal ==> p.terminal)
            && (!p.forced ==> if p.terminal then !c.terminal else c.attempts < w.policy.maxAttempts))
  }

  /** A retry stands for a search that was due already. */
  ghost predicate RetryOk(w: Setting, s: Upgrades, key: ItemKey) {
    && (key in s.schedule.retries ==> s.schedule.retries[key].failures > 0)
    && (key in s.schedule.retries && key in s.schedule.checkpoints
        && s.schedule.retries[key].generation == s.schedule.checkpoints[key].generation ==>
          s.schedule.checkpoints[key].nextSearchAt <= s.clock || PastHorizon(w, s, key))
  }

  ghost predicate ItemOk(w: Setting, s: Upgrades, key: ItemKey) {
    CheckpointOk(w, s, key) && NothingElse(s, key) && PendingOk(w, s, key) && RetryOk(w, s, key)
  }

  ghost predicate UpgradeInv(w: Setting, s: Upgrades) {
    w.policy.Valid() && forall key :: ItemOk(w, s, key)
  }

  // Preservation.

  /** Nothing about this entity changed but the clock. */
  lemma StillOk(w: Setting, s: Upgrades, t: Upgrades, key: ItemKey)
    requires ItemOk(w, s, key) && s.clock <= t.clock
    requires Same(s.schedule.checkpoints, t.schedule.checkpoints, key)
             && Same(s.schedule.retries, t.schedule.retries, key)
    requires key in t.pending ==> key in s.pending && t.pending[key] == s.pending[key]
    requires LastDone(t.log, key) == LastDone(s.log, key)
    requires forall g :: Streak(t.log, key, g) == Streak(s.log, key, g)
    requires forall g, final :: Unforced(t.log, key, g, final) == Unforced(s.log, key, g, final)
    requires forall g :: Finals(t.log, key, g) == Finals(s.log, key, g)
    ensures ItemOk(w, t, key)
  {
    hide Cooldown, Streak, Unforced, Finals, LastDone, UpgradePolicy.Horizon;
  }

  predicate Same<V(==)>(a: map<ItemKey, V>, b: map<ItemKey, V>, key: ItemKey) {
    (key in a <==> key in b) && (key in a ==> a[key] == b[key])
  }

  lemma FinishOk(w: Setting, s: Upgrades, key: ItemKey, t: Upgrades)
    requires w.policy.Valid() && ItemOk(w, s, key) && UpgradeStep(w, s, Finish(key), t)
    ensures ItemOk(w, t, key)
  {
    hide Cooldown, Streak, Unforced, Finals, LastDone, UpgradePolicy.Horizon;
    var p := s.pending[key];
    var d := Done(key, p.generation, s.clock, p.forced, p.terminal);
    LogAppend(s.log, d, key, p.generation, false);
    LogAppend(s.log, d, key, p.generation, true);
    UnforcedAtMost(s.log, key, p.generation);
    forall g | g != p.generation
      ensures Streak(t.log, key, g) == 0
    {
      LogAppend(s.log, d, key, g, false);
    }
  }

  lemma BeginOk(w: Setting, s: Upgrades, e: UpgradeEntity, t: Upgrades)
    requires w.policy.Valid() && ItemOk(w, s, ItemOf(e)) && UpgradeStep(w, s, Begin(e), t)
    ensures ItemOk(w, t, ItemOf(e))
  {
    hide Cooldown, Streak, Unforced, Finals, LastDone, UpgradePolicy.Horizon;
  }

  lemma FailOk(w: Setting, s: Upgrades, e: UpgradeEntity, t: Upgrades)
    requires w.policy.Valid() && ItemOk(w, s, ItemOf(e)) && UpgradeStep(w, s, Fail(e), t)
    ensures ItemOk(w, t, ItemOf(e))
  {
    hide Cooldown, RetryDelay, Grown, Streak, Unforced, Finals, LastDone, UpgradePolicy.Horizon;
  }

  lemma StepKeepsInv(w: Setting, s: Upgrades, lab: UpgradeLabel, t: Upgrades)
    requires UpgradeInv(w, s) && UpgradeStep(w, s, lab, t)
    ensures UpgradeInv(w, t)
  {
    hide ItemOk, Cooldown, RetryDelay, Grown, Streak, Unforced, Finals, LastDone, UpgradePolicy.Horizon, IsDue;
    forall key
      ensures ItemOk(w, t, key)
    {
      if lab.Begin? && ItemOf(lab.entity) == key {
        BeginOk(w, s, lab.entity, t);
      } else if lab.Fail? && ItemOf(lab.failed) == key {
        FailOk(w, s, lab.failed, t);
      } else if lab.Finish? && lab.finished == key {
        FinishOk(w, s, key, t);
      } else {
        if lab.Finish? {
          var p := s.pending[lab.finished];
          var d := Done(lab.finished, p.generation, s.clock, p.forced, p.terminal);
          forall g
            ensures Streak(t.log, key, g) == Streak(s.log, key, g) && Finals(t.log, key, g) == Finals(s.log, key, g)
          {
            LogAppend(s.log, d, key, g, true);
          }
          forall g, final
            ensures Unforced(t.log, key, g, final) == Unforced(s.log, key, g, final)
          {
            LogAppend(s.log, d, key, g, final);
          }
          LogAppend(s.log, d, key, p.generation, true);
        }
        StillOk(w, s, t, key);
      }
    }
  }

  lemma {:induction false} UpgradeAlways(w: Setting, run: seq<Upgrades>, i: nat)
    requires UpgradeRun(w, run) && i < |run|
    ensures UpgradeInv(w, run[i])
  {
    hide UpgradeStep, UpgradeInv;
    if i == 0 {
      StartOk(w, run);
    } else {
      UpgradeAlways(w, run, i - 1);
      assert UpgradeNext(w, run[i - 1], run[i]);
      var lab :| UpgradeStep(w, run[i - 1], lab, run[i]);
      StepKeepsInv(w, run[i - 1], lab, run[i]);
    }
  }

  lemma StartOk(w: Setting, run: seq<Upgrades>)
    requires UpgradeRun(w, run)
    ensures UpgradeInv(w, run[0])
  {
  }

  // What every run guarantees.

  /** Without a replacement, one generation is searched at most as often as allowed by searches
      begun before the horizon, and at most once by a search begun after it. */
  lemma SearchesBounded(w: Setting, run: seq<Upgrades>, i: nat, key: ItemKey, generation: string)
    requires UpgradeRun(w, run) && i < |run|
    ensures Unforced(run[i].log, key, generation, false) <= w.policy.maxAttempts
    ensures Unforced(run[i].log, key, generation, true) <= 1
    ensures !PastHorizon(w, run[i], key) ==> Unforced(run[i].log, key, generation, true) == 0
  {
    UpgradeAlways(w, run, i);
    assert ItemOk(w, run[i], key);
    UnforcedAtMost(run[i].log, key, generation);
    hide Streak, Unforced, Finals, Cooldown;
  }

  /** Before the horizon, a search that no replacement forces begins no sooner after the last
      completed one than the cooldown for the whole streak. */
  lemma SearchesSpaced(w: Setting, run: seq<Upgrades>, i: nat, e: UpgradeEntity)
    requires UpgradeRun(w, run) && 0 < i < |run| && UpgradeStep(w, run[i - 1], Begin(e), run[i])
    requires ItemOf(e) !in run[i - 1].schedule.replacements && !PastHorizon(w, run[i - 1], ItemOf(e))
    requires Streak(run[i - 1].log, ItemOf(e), e.generation) > 0
    ensures LastDone(run[i - 1].log, ItemOf(e)).Some?
    ensures run[i].clock >= LastDone(run[i - 1].log, ItemOf(e)).value
                            + Cooldown(w.policy, Streak(run[i - 1].log, ItemOf(e), e.generation))
  {
    UpgradeAlways(w, run, i - 1);
    assert ItemOk(w, run[i - 1], ItemOf(e));
    hide Streak, Unforced, Finals, LastDone, Cooldown, UpgradePolicy.Horizon;
  }

  /** After the horizon a search that no replacement forces is the final one of its streak: it must
      be allowed, and no other of the streak, forced or not, was begun after the horizon. */
  lemma FinalSearchOnce(w: Setting, run: seq<Upgrades>, i: nat, e: UpgradeEntity)
    requires UpgradeRun(w, run) && 0 < i < |run| && UpgradeStep(w, run[i - 1], Begin(e), run[i])
    requires ItemOf(e) !in run[i - 1].schedule.replacements && PastHorizon(w, run[i - 1], ItemOf(e))
    ensures w.policy.finalSearch && Finals(run[i - 1].log, ItemOf(e), e.generation) == 0
  {
    UpgradeAlways(w, run, i - 1);
    assert ItemOk(w, run[i - 1], ItemOf(e));
    UnforcedAtMost(run[i - 1].log, ItemOf(e), e.generation);
    hide Streak, Unforced, Finals, LastDone, Cooldown, UpgradePolicy.Horizon;
  }
}
