/** When an entity is due for another upgrade search: cooldowns that grow with each completed
    search, transient retries, replacements of dead candidates and the final search.  Products of
    a whole number and a power of a multiplier are exact; beyond `largest` they overflow. */
module UpgradeSchedule {
  import opened Common
  import opened FairOrder
  import FenceEntry

  /** The source and the id of an entity. */
  type ItemKey = (string, string)

  datatype UpgradePolicy = UpgradePolicy(
    minimumAgeDays: int, terminalHorizonDays: int,
    cooldownSeconds: int, cooldownMultiplier: real, maximumCooldownSeconds: int,
    finalSearch: bool, maxAttempts: int, retrySeconds: int, retryMultiplier: real, maximumRetrySeconds: int,
    revision: string, largest: real)
  {
    predicate Valid() {
      && 0 <= minimumAgeDays <= terminalHorizonDays && 0 < terminalHorizonDays
      && 0 <= cooldownSeconds && 1.0 <= cooldownMultiplier && 0 <= maximumCooldownSeconds
      && 0 < maxAttempts && 0 < retrySeconds <= maximumRetrySeconds && 1.0 <= retryMultiplier
    }

    function Horizon(): int {
      terminalHorizonDays * DAY
    }
  }

  datatype Checkpoint = Checkpoint(generation: string, lastCompletedAt: int, attempts: int, terminal: bool,
                                   nextSearchAt: int, revision: string)

  datatype Retry = Retry(generation: string, failures: int, retryAt: int, revision: string)

  datatype Replacement = Replacement(failures: nat, retryAt: int, initialDelay: int, multiplier: real,
                                     maximumDelay: int)

  datatype Schedule = Schedule(checkpoints: map<ItemKey, Checkpoint>, retries: map<ItemKey, Retry>,
                               replacements: map<ItemKey, Replacement>)

  function ItemOf(e: UpgradeEntity): ItemKey {
    (e.source, e.entityId)
  }

  // Delays.

  function Power(base: real, n: nat): real {
    if n == 0 then 1.0 else base * Power(base, n - 1)
  }

  function Ceiling(x: real): int {
    -((-x).Floor)
  }

  /** A delay grown `n` times, rounded up, unless it overflows. */
  function Grown(delay: int, multiplier: real, n: nat, largest: real): Option<int> {
    var product := delay as real * Power(multiplier, n);
    if product > largest then None else Some(Ceiling(product))
  }

  function Least(a: int, b: int): int {
    if a <= b then a else b
  }

  function Cooldown(policy: UpgradePolicy, completed: int): int
    requires completed > 0
  {
    if policy.cooldownSeconds == 0 then 0
    else
      var grown := Grown(policy.cooldownSeconds, policy.cooldownMultiplier, completed - 1, policy.largest);
      var cooldown := if grown.None? then policy.Horizon() + 1 else grown.value;
      if policy.maximumCooldownSeconds != 0 then Least(cooldown, policy.maximumCooldownSeconds) else cooldown
  }

  function RetryDelay(policy: UpgradePolicy, failures: int): int
    requires failures > 0
  {
    var grown := Grown(policy.retrySeconds, policy.retryMultiplier, failures - 1, policy.largest);
    Least(if grown.None? then policy.maximumRetrySeconds else grown.value, policy.maximumRetrySeconds)
  }

  // Decisions and transitions.

  predicate SameGeneration(s: Schedule, e: UpgradeEntity) {
    ItemOf(e) in s.checkpoints && s.checkpoints[ItemOf(e)].generation == e.generation
  }

  predicate SameRetry(s: Schedule, e: UpgradeEntity, policy: UpgradePolicy) {
    && ItemOf(e) in s.retries && s.retries[ItemOf(e)].generation == e.generation
    && s.retries[ItemOf(e)].revision == policy.revision
  }

  function NextAt(s: Schedule, e: UpgradeEntity, policy: UpgradePolicy, now: int): Option<int> {
    var key := ItemOf(e);
    if now < e.releasedAt + policy.minimumAgeDays * DAY then Some(e.releasedAt + policy.minimumAgeDays * DAY)
    else if key in s.replacements then Some(s.replacements[key].retryAt)
    else if now >= e.releasedAt + policy.Horizon() then
      if !policy.finalSearch || (SameGeneration(s, e) && s.checkpoints[key].terminal) then None else Some(now)
    else if SameGeneration(s, e) && s.checkpoints[key].attempts >= policy.maxAttempts then None
    else if SameRetry(s, e, policy) then Some(s.retries[key].retryAt)
    else if !SameGeneration(s, e) || s.checkpoints[key].revision != policy.revision then Some(now)
    else Some(s.checkpoints[key].nextSearchAt)
  }

  predicate IsDue(s: Schedule, e: UpgradeEntity, policy: UpgradePolicy, now: int) {
    NextAt(s, e, policy, now).Some? && NextAt(s, e, policy, now).value <= now
  }

  function AttemptsAfter(s: Schedule, key: ItemKey, generation: string): int {
    if key in s.checkpoints && s.checkpoints[key].generation == generation then s.checkpoints[key].attempts + 1 else 1
  }

  /** A checkpoint whose count is not positive makes the cooldown raise. */
  function Completed(s: Schedule, key: ItemKey, generation: string, policy: UpgradePolicy, now: int,
                     terminal: bool): Result<Schedule> {
    var attempts := AttemptsAfter(s, key, generation);
    if attempts <= 0 then Raised
    else Ok(Schedule(
      s.checkpoints[key := Checkpoint(generation, now, attempts, terminal, now + Cooldown(policy, attempts),
                                      policy.revision)],
      s.retries - {key}, s.replacements - {key}))
  }

  /** The delay of a replacement is not guarded against overflow. */
  function ReplacementFailed(s: Schedule, key: ItemKey, now: int, largest: real): Result<Schedule> {
    if key !in s.replacements then Ok(s)
    else
      var r := s.replacements[key];
      var grown := Grown(r.initialDelay, r.multiplier, r.failures + 1, largest);
      if grown.None? then Raised
      else
        var next := r.(failures := r.failures + 1, retryAt := now + Least(grown.value, r.maximumDelay));
        Ok(s.(replacements := s.replacements[key := next]))
  }

  function FailuresAfter(s: Schedule, e: UpgradeEntity, policy: UpgradePolicy): int {
    if SameRetry(s, e, policy) then s.retries[ItemOf(e)].failures + 1 else 1
  }

  function Failed(s: Schedule, e: UpgradeEntity, policy: UpgradePolicy, now: int): Result<Schedule> {
    var key := ItemOf(e);
    if key in s.replacements then ReplacementFailed(s, key, now, policy.largest)
    else
      var failures := FailuresAfter(s, e, policy);
      if failures <= 0 then Raised
      else Ok(s.(retries := s.retries[key := Retry(e.generation, failures, now + RetryDelay(policy, failures),
                                                   policy.revision)]))
  }

  function CandidateInvalidated(s: Schedule, key: ItemKey, now: int, initialDelay: int, multiplier: real,
                                maximumDelay: int): Result<Schedule> {
    if key.0 !in {FenceEntry.RADARR, FenceEntry.SONARR} || !PositiveDecimal(key.1) || now < 0
       || initialDelay <= 0 || maximumDelay < initialDelay || multiplier < 1.0 then Raised
    else if key in s.replacements then Ok(s)
    else Ok(s.(replacements := s.replacements[key := Replacement(0, now + initialDelay, initialDelay, multiplier,
                                                                 maximumDelay)]))
  }

  function Resolved(s: Schedule, key: ItemKey): Schedule {
    s.(replacements := s.replacements - {key})
  }

  /** The dictionaries as the scheduler updates them. */
  class ScheduleState {
    var checkpoints: map<ItemKey, Checkpoint>
    var retries: map<ItemKey, Retry>
    var replacements: map<ItemKey, Replacement>

    function Value(): Schedule
      reads this
    {
      Schedule(checkpoints, retries, replacements)
    }

    constructor ()
      ensures Value() == Schedule(map[], map[], map[])
    {
      checkpoints, retries, replacements := map[], map[], map[];
    }

    method Due(e: UpgradeEntity, policy: UpgradePolicy, now: int) returns (r: Result<bool>)
      ensures r == if now < 0 then Raised else Ok(IsDue(Value(), e, policy, now))
    {
      if now < 0 {
        return Raised;
      }
      var next := NextSearchAt(e, policy, now);
      return Ok(next.Some? && next.value <= now);
    }

    method NextSearchAt(e: UpgradeEntity, policy: UpgradePolicy, now: int) returns (next: Option<int>)
      requires now >= 0
      ensures next == NextAt(Value(), e, policy, now)
    {
      var key := ItemOf(e);
      var minimumAt := e.releasedAt + policy.minimumAgeDays * DAY;
      if now < minimumAt {
        return Some(minimumAt);
      }
      if key in replacements {
        return Some(replacements[key].retryAt);
      }
      var same := key in checkpoints && checkpoints[key].generation == e.generation;
      if now >= e.releasedAt + policy.terminalHorizonDays * DAY {
        if !policy.finalSearch {
          return None;
        }
        return if same && checkpoints[key].terminal then None else Some(now);
      }
      if same && checkpoints[key].attempts >= policy.maxAttempts {
        return None;
      }
      if key in retries && retries[key].generation == e.generation && retries[key].revision == policy.revision {
        return Some(retries[key].retryAt);
      }
      if !same || checkpoints[key].revision != policy.revision {
        return Some(now);
      }
      return Some(checkpoints[key].nextSearchAt);
    }

    method RecordCompleted(key: ItemKey, generation: string, policy: UpgradePolicy, now: int,
                           terminal: bool) returns (r: Result<()>)
      modifies this
      ensures if r.Ok? then Completed(old(Value()), key, generation, policy, now, terminal) == Ok(Value())
              else Completed(old(Value()), key, generation, policy, now, terminal).Raised? && Value() == old(Value())
    {
      var attempts := 1;
      if key in checkpoints && checkpoints[key].generation == generation {
        attempts := checkpoints[key].attempts + 1;
      }
      if attempts <= 0 {
        return Raised;
      }
      checkpoints := checkpoints[key := Checkpoint(generation, now, attempts, terminal, now + Cooldown(policy, attempts),
                                                   policy.revision)];
      retries := retries - {key};
      replacements := replacements - {key};
      return Ok(());
    }

    method RecordTransientFailure(e: UpgradeEntity, policy: UpgradePolicy, now: int) returns (r: Result<()>)
      modifies this
      ensures if r.Ok? then Failed(old(Value()), e, policy, now) == Ok(Value())
              else Failed(old(Value()), e, policy, now).Raised? && Value() == old(Value())
    {
      var key := ItemOf(e);
      if key in replacements {
        r := RecordReplacementFailure(key, policy, now);
        return;
      }
      var failures := 1;
      if key in retries && retries[key].generation == e.generation && retries[key].revision == policy.revision {
        failures := retries[key].failures + 1;
      }
      if failures <= 0 {
        return Raised;
      }
      retries := retries[key := Retry(e.generation, failures, now + RetryDelay(policy, failures), policy.revision)];
      return Ok(());
    }

    method RecordReplacementFailure(key: ItemKey, policy: UpgradePolicy, now: int) returns (r: Result<()>)
      modifies this
      ensures if r.Ok? then ReplacementFailed(old(Value()), key, now, policy.largest) == Ok(Value())
              else ReplacementFailed(old(Value()), key, now, policy.largest).Raised? && Value() == old(Value())
    {
      if key !in replacements {
        return Ok(());
      }
      var prior := replacements[key];
      var grown := Grown(prior.initialDelay, prior.multiplier, prior.failures + 1, policy.largest);
      if grown.None? {
        return Raised;
      }
      replacements := replacements[key := prior.(failures := prior.failures + 1,
                                                 retryAt := now + Least(grown.value, prior.maximumDelay))];
      return Ok(());
    }

    method RecordCandidateInvalidated(key: ItemKey, now: int, initialDelay: int, multiplier: real,
                                      maximumDelay: int) returns (r: Result<()>)
      modifies this
      ensures var next := CandidateInvalidated(old(Value()), key, now, initialDelay, multiplier, maximumDelay);
        if r.Ok? then next == Ok(Value()) else next.Raised? && Value() == old(Value())
    {
      if key.0 !in {FenceEntry.RADARR, FenceEntry.SONARR} || !PositiveDecimal(key.1) || now < 0 || initialDelay <= 0
         || maximumDelay < initialDelay || multiplier < 1.0 {
        return Raised;
      }
      if key !in replacements {
        replacements := replacements[key := Replacement(0, now + initialDelay, initialDelay, multiplier, maximumDelay)];
      }
      return Ok(());
    }

    method ResolveReplacement(key: ItemKey)
      modifies this
      ensures Value() == Resolved(old(Value()), key)
    {
      replacements := replacements - {key};
    }
  }

  // Delays grow, and only as far as they matter.

  lemma {:induction false} PowerGrows(base: real, n: nat, m: nat)
    requires base >= 1.0 && n <= m
    ensures 1.0 <= Power(base, n) <= Power(base, m)
  {
    if n < m {
      PowerGrows(base, n, m - 1);
      assert base * Power(base, m - 1) >= 1.0 * Power(base, m - 1);
    } else if 0 < n {
      PowerGrows(base, n - 1, n - 1);
      assert base * Power(base, n - 1) >= 1.0 * Power(base, n - 1);
    }
  }

  lemma GrownGrows(delay: int, multiplier: real, n: nat, m: nat, largest: real)
    requires delay >= 0 && multiplier >= 1.0 && n <= m
    ensures Grown(delay, multiplier, n, largest).Some? ==> delay <= Grown(delay, multiplier, n, largest).value
    ensures Grown(delay, multiplier, m, largest).Some? ==>
      Grown(delay, multiplier, n, largest).Some?
      && Grown(delay, multiplier, n, largest).value <= Grown(delay, multiplier, m, largest).value
  {
    PowerGrows(multiplier, n, m);
    assert delay as real <= delay as real * Power(multiplier, n) <= delay as real * Power(multiplier, m);
  }

  /** Up to the horizon, beyond which no cooldown matters, cooldowns never shrink. */
  lemma CooldownGrows(policy: UpgradePolicy, n: int, m: int)
    requires policy.Valid() && 0 < n <= m
    ensures 0 <= Cooldown(policy, n)
    ensures Least(Cooldown(policy, n), policy.Horizon() + 1) <= Least(Cooldown(policy, m), policy.Horizon() + 1)
  {
    GrownGrows(policy.cooldownSeconds, policy.cooldownMultiplier, n - 1, m - 1, policy.largest);
  }

  /** Any two cooldowns longer than the horizon lead to the same decisions ever after. */
  lemma BeyondHorizonSame(s: Schedule, e: UpgradeEntity, policy: UpgradePolicy, now: int, c: Checkpoint, a: int, b: int)
    requires policy.Valid() && c.lastCompletedAt >= e.releasedAt
    requires a > c.lastCompletedAt + policy.Horizon() && b > c.lastCompletedAt + policy.Horizon()
    ensures IsDue(s.(checkpoints := s.checkpoints[ItemOf(e) := c.(nextSearchAt := a)]), e, policy, now)
            <==> IsDue(s.(checkpoints := s.checkpoints[ItemOf(e) := c.(nextSearchAt := b)]), e, policy, now)
  {
    hide UpgradePolicy.Horizon;
    var left := s.(checkpoints := s.checkpoints[ItemOf(e) := c.(nextSearchAt := a)]);
    var right := s.(checkpoints := s.checkpoints[ItemOf(e) := c.(nextSearchAt := b)]);
    assert SameGeneration(left, e) <==> SameGeneration(right, e);
    assert SameRetry(left, e, policy) <==> SameRetry(right, e, policy);
  }

  /** A failure postpones an entity that is due, until the horizon, for at most the maximum. */
  lemma FailurePostponesBriefly(s: Schedule, e: UpgradeEntity, policy: UpgradePolicy, now: int, later: int)
    requires policy.Valid() && IsDue(s, e, policy, now) && ItemOf(e) !in s.replacements
    requires Failed(s, e, policy, now).Ok?
             && now + policy.maximumRetrySeconds <= later < e.releasedAt + policy.Horizon()
    ensures IsDue(Failed(s, e, policy, now).value, e, policy, later)
    ensures NextAt(Failed(s, e, policy, now).value, e, policy, later).value > now
  {
    var failures := FailuresAfter(s, e, policy);
    GrownGrows(policy.retrySeconds, policy.retryMultiplier, failures - 1, failures - 1, policy.largest);
    hide Grown;
    var t := Failed(s, e, policy, now).value;
    assert SameRetry(t, e, policy) && (SameGeneration(t, e) <==> SameGeneration(s, e));
  }

  /** What happens to one entity does not make another due or keep it from being due. */
  lemma OthersUntouched(s: Schedule, e: UpgradeEntity, other: UpgradeEntity, policy: UpgradePolicy, now: int, at: int,
                        terminal: bool)
    requires ItemOf(e) != ItemOf(other)
    ensures Completed(s, ItemOf(e), e.generation, policy, now, terminal).Ok? ==>
      NextAt(Completed(s, ItemOf(e), e.generation, policy, now, terminal).value, other, policy, at)
      == NextAt(s, other, policy, at)
    ensures Failed(s, e, policy, now).Ok? ==>
      NextAt(Failed(s, e, policy, now).value, other, policy, at) == NextAt(s, other, policy, at)
    ensures NextAt(Resolved(s, ItemOf(e)), other, policy, at) == NextAt(s, other, policy, at)
  {
    hide Cooldown, RetryDelay, Grown, UpgradePolicy.Horizon;
    if Failed(s, e, policy, now).Ok? {
      assert NextAt(Failed(s, e, policy, now).value, other, policy, at) == NextAt(s, other, policy, at);
    }
  }

  // The unguarded delay of a replacement.

  lemma {:induction false} PowerBeatsLine(base: real, n: nat)
    requires base >= 1.0
    ensures Power(base, n) >= 1.0 + n as real * (base - 1.0)
  {
    if n > 0 {
      PowerBeatsLine(base, n - 1);
      var x := base - 1.0;
      var line := 1.0 + (n - 1) as real * x;
      assert base * Power(base, n - 1) >= base * line;
      assert base * line == line + x * line;
      assert x * line == x + (n - 1) as real * (x * x);
      assert x * x >= 0.0;
      assert (n - 1) as real * (x * x) >= 0.0;
      assert n as real * x == (n - 1) as real * x + x;
    }
  }

  lemma LineReaches(slope: real, goal: real) returns (n: nat)
    requires slope > 0.0 && goal >= 0.0
    ensures n as real * slope >= goal
  {
    var steps := goal / slope;
    n := Ceiling(steps) + 1;
    assert steps * slope == goal;
    assert (n as real - steps) * slope >= 0.0;
  }

  lemma DelayAtLeast(delay: int, factor: real)
    requires delay > 0 && factor >= 0.0
    ensures delay as real * factor >= factor
  {
  }

  lemma StillOverflows(delay: int, multiplier: real, n: nat, largest: real)
    requires delay > 0 && multiplier >= 1.0 && Power(multiplier, n) > largest
    ensures Grown(delay, multiplier, n, largest).None?
  {
    PowerGrows(multiplier, n, n);
    hide Power, Ceiling;
    DelayAtLeast(delay, Power(multiplier, n));
  }

  /** Where the multiplier exceeds one, after enough failures of a replacement every further one
      overflows, however small its maximum delay is. */
  lemma EnoughFailuresRaise(r: Replacement, largest: real) returns (failures: nat)
    requires r.initialDelay > 0 && r.multiplier > 1.0 && largest >= 0.0
    ensures forall n :: n >= failures ==> Grown(r.initialDelay, r.multiplier, n, largest).None?
  {
    hide Power, Ceiling, Grown;
    failures := LineReaches(r.multiplier - 1.0, largest);
    PowerBeatsLine(r.multiplier, failures);
    assert Power(r.multiplier, failures) > largest;
    forall n | n >= failures
      ensures Grown(r.initialDelay, r.multiplier, n, largest).None?
    {
      PowerGrows(r.multiplier, failures, n);
      StillOverflows(r.initialDelay, r.multiplier, n, largest);
    }
  }

  /** Recording a failure raises exactly when the delay of a replacement overflows. */
  lemma FailureRaisesIff(s: Schedule, e: UpgradeEntity, policy: UpgradePolicy, now: int)
    requires policy.Valid() && forall key :: key in s.retries ==> s.retries[key].failures > 0
    ensures Failed(s, e, policy, now).Raised?
            <==> ItemOf(e) in s.replacements
                 && Grown(s.replacements[ItemOf(e)].initialDelay, s.replacements[ItemOf(e)].multiplier,
                          s.replacements[ItemOf(e)].failures + 1, policy.largest).None?
  {
  }
}
