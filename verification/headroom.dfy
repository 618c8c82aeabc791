/** Physical free-space arithmetic: the guarded 63-bit accumulation decides exactly the
    unbounded sums, whatever the order of the records. */
module Headroom {
  import opened Common
  import opened FenceEntry

  const MAX_BYTES: int := 0x7fff_ffff_ffff_ffff

  datatype Pool = Pool(minimumFree: int, safetyMargin: int) {
    predicate Valid() {
      0 <= minimumFree <= MAX_BYTES && 0 <= safetyMargin <= MAX_BYTES
    }
  }

  function Remaining(r: Reservation): int {
    if r.remainingDownloadBytes.None? then r.requestedBytes else r.remainingDownloadBytes.value
  }

  predicate RecordAccepted(r: Reservation, sources: map<string, seq<string>>, pools: map<string, Pool>) {
    && r.source in sources
    && r.requestedBytes > 0
    && Remaining(r) >= 0
    && 1 <= |sources[r.source]| <= 3
    && forall i :: 0 <= i < |sources[r.source]| ==> sources[r.source][i] in pools
  }

  /** What one record claims from a pool through the first `upto` pools of its source: the
      download pool holds what remains, the later pools hold a full copy each. */
  function Claim(r: Reservation, names: seq<string>, pool: string, upto: nat): int
    requires upto <= |names|
  {
    if upto == 0 then 0
    else Claim(r, names, pool, upto - 1)
         + (if names[upto - 1] != pool then 0 else if upto == 1 then Remaining(r) else r.requestedBytes)
  }

  function RecordClaim(r: Reservation, sources: map<string, seq<string>>, pool: string): int {
    if r.state == Released || r.source !in sources then 0
    else Claim(r, sources[r.source], pool, |sources[r.source]|)
  }

  function PoolTotal(records: seq<Reservation>, sources: map<string, seq<string>>, pool: string): int {
    if records == [] then 0
    else PoolTotal(records[..|records| - 1], sources, pool) + RecordClaim(records[|records| - 1], sources, pool)
  }

  function Observed(free: map<string, Option<int>>, name: string): Option<int> {
    if name in free then free[name] else None
  }

  predicate PoolSuffices(pool: Pool, total: int, observed: Option<int>) {
    observed.Some? && 0 <= observed.value <= MAX_BYTES && pool.minimumFree + pool.safetyMargin + total <= observed.value
  }

  /** The decision in unbounded integers. */
  ghost predicate Allowed(records: seq<Reservation>, sources: map<string, seq<string>>, pools: map<string, Pool>,
                          free: map<string, Option<int>>) {
    && (forall r :: r in records && r.state != Released ==> RecordAccepted(r, sources, pools))
    && (forall name :: name in pools ==>
          PoolSuffices(pools[name], PoolTotal(records, sources, name), Observed(free, name)))
  }

  /** Adds a value unless it is negative or would leave the 63-bit range. */
  function GuardedAdd(current: int, value: int): Option<int> {
    if value < 0 || value > MAX_BYTES - current then None else Some(current + value)
  }

  lemma {:induction false} ClaimGrows(r: Reservation, names: seq<string>, pool: string, lo: nat, hi: nat)
    requires lo <= hi <= |names| && Remaining(r) >= 0 && r.requestedBytes >= 0
    ensures 0 <= Claim(r, names, pool, lo) <= Claim(r, names, pool, hi)
  {
    if lo < hi {
      ClaimGrows(r, names, pool, lo, hi - 1);
    } else if 0 < lo {
      ClaimGrows(r, names, pool, lo - 1, lo - 1);
    }
  }

  lemma {:induction false} TotalGrows(records: seq<Reservation>, sources: map<string, seq<string>>, pools: map<string,
                                      Pool>, pool: string, lo: nat, hi: nat)
    requires lo <= hi <= |records|
    requires forall r :: r in records && r.state != Released ==> RecordAccepted(r, sources, pools)
    ensures 0 <= PoolTotal(records[..lo], sources, pool) <= PoolTotal(records[..hi], sources, pool)
  {
    if hi > 0 {
      var last := records[hi - 1];
      assert records[..hi][..hi - 1] == records[..hi - 1];
      assert last in records;
      if last.state != Released {
        ClaimGrows(last, sources[last.source], pool, 0, |sources[last.source]|);
      }
      assert RecordClaim(last, sources, pool) >= 0;
      TotalGrows(records, sources, pools, pool, if lo < hi then lo else hi - 1, hi - 1);
    }
  }

  /** An accumulation beyond 63 bits already refutes the unbounded decision. */
  lemma OverflowRefused(records: seq<Reservation>, sources: map<string, seq<string>>, pools: map<string, Pool>,
                        free: map<string, Option<int>>,
                        pool: string, i: nat, index: nat)
    requires i < |records| && records[i].state != Released && records[i].source in sources
    requires index < |sources[records[i].source]| && pool == sources[records[i].source][index] && pool in pools
    requires pools[pool].Valid()
    requires PoolTotal(records[..i], sources, pool) + Claim(records[i], sources[records[i].source], pool,
                                                            index + 1) > MAX_BYTES
    ensures !Allowed(records, sources, pools, free)
  {
    if Allowed(records, sources, pools, free) {
      assert records[..i + 1][..i] == records[..i] && records[..|records|] == records;
      assert records[i] in records;
      ClaimGrows(records[i], sources[records[i].source], pool, index + 1, |sources[records[i].source]|);
      TotalGrows(records, sources, pools, pool, i + 1, |records|);
    }
  }

  lemma Unacceptable(records: seq<Reservation>, sources: map<string, seq<string>>, pools: map<string, Pool>,
                     free: map<string, Option<int>>, r: Reservation)
    requires r in records && r.state != Released && !RecordAccepted(r, sources, pools)
    ensures !Allowed(records, sources, pools, free)
  {
  }

  class PhysicalHeadroom {
    const pools: map<string, Pool>

    constructor (pools: map<string, Pool>)
      requires forall name :: name in pools ==> pools[name].Valid()
      ensures this.pools == pools && Valid()
    {
      this.pools := pools;
    }

    predicate Valid() {
      forall name :: name in pools ==> pools[name].Valid()
    }

    /** Adds one record's claims pool by pool; no answer means that the headroom is refused. */
    method AddRecord(r: Reservation, ghost records: seq<Reservation>, ghost i: nat, sources: map<string, seq<string>>,
                     ghost free: map<string, Option<int>>, before: map<string, int>)
      returns (updated: Option<map<string, int>>)
      requires Valid() && i < |records| && r == records[i] && r.state != Released
      requires before.Keys == pools.Keys
      requires forall name :: name in pools ==> before[name] == PoolTotal(records[..i], sources, name)
      ensures updated.None? ==> !Allowed(records, sources, pools, free)
      ensures updated.Some? ==> RecordAccepted(r, sources, pools) && updated.value.Keys == pools.Keys
      ensures updated.Some? ==> forall name :: name in pools ==>
        updated.value[name] == PoolTotal(records[..i], sources, name) + RecordClaim(r, sources, name)
    {
      hide PoolTotal;
      if r.source !in sources || r.requestedBytes <= 0 {
        Unacceptable(records, sources, pools, free, r);
        return None;
      }
      var remaining := Remaining(r);
      var names := sources[r.source];
      if !(1 <= |names| <= 3) {
        Unacceptable(records, sources, pools, free, r);
        return None;
      }
      var liabilities := before;
      var index := 0;
      while index < |names|
        invariant 0 <= index <= |names|
        invariant liabilities.Keys == pools.Keys
        invariant index > 0 ==> remaining >= 0
        invariant forall k :: 0 <= k < index ==> names[k] in pools
        invariant forall name :: name in pools ==>
          liabilities[name] == PoolTotal(records[..i], sources, name) + Claim(r, names, name, index)
      {
        var liability := if index == 0 then remaining else r.requestedBytes;
        if names[index] !in liabilities {
          Unacceptable(records, sources, pools, free, r);
          return None;
        }
        var sum := GuardedAdd(liabilities[names[index]], liability);
        if sum.None? {
          if liability < 0 {
            Unacceptable(records, sources, pools, free, r);
          } else {
            OverflowRefused(records, sources, pools, free, names[index], i, index);
          }
          return None;
        }
        liabilities := liabilities[names[index] := sum.value];
        index := index + 1;
      }
      return Some(liabilities);
    }

    /** `free` is what the probes of this call answered; a failed probe answers nothing. */
    method Allows(records: seq<Reservation>, sources: map<string, seq<string>>, free: map<string,
                  Option<int>>) returns (allowed: bool)
      requires Valid()
      ensures allowed <==> Allowed(records, sources, pools, free)
    {
      var liabilities: map<string, int> := map name | name in pools :: 0;
      hide Allowed, RecordAccepted;
      var i := 0;
      while i < |records|
        invariant 0 <= i <= |records|
        invariant liabilities.Keys == pools.Keys
        invariant forall r :: r in records[..i] && r.state != Released ==> RecordAccepted(r, sources, pools)
        invariant forall name :: name in pools ==> liabilities[name] == PoolTotal(records[..i], sources, name)
      {
        var r := records[i];
        assert records[..i + 1] == records[..i] + [r] && records[..i + 1][..i] == records[..i];
        if r.state != Released {
          var updated := AddRecord(r, records, i, sources, free, liabilities);
          if updated.None? {
            return false;
          }
          liabilities := updated.value;
        }
        i := i + 1;
      }
      assert records[..i] == records;
      allowed := Decide(records, sources, free, liabilities);
    }

    method Decide(records: seq<Reservation>, sources: map<string, seq<string>>, free: map<string, Option<int>>,
                  liabilities: map<string, int>) returns (allowed: bool)
      requires Valid() && liabilities.Keys == pools.Keys
      requires forall r :: r in records && r.state != Released ==> RecordAccepted(r, sources, pools)
      requires forall name :: name in pools ==> liabilities[name] == PoolTotal(records, sources, name)
      ensures allowed <==> Allowed(records, sources, pools, free)
    {
      var todo := pools.Keys;
      while todo != {}
        invariant todo <= pools.Keys
        invariant forall name ::
          name in pools.Keys - todo ==> PoolSuffices(pools[name], liabilities[name], Observed(free, name))
        decreases todo
      {
        var name :| name in todo;
        var pool := pools[name];
        var required := GuardedAdd(pool.minimumFree, pool.safetyMargin);
        if required.Some? {
          required := GuardedAdd(required.value, liabilities[name]);
        }
        var observed := Observed(free, name);
        TotalGrows(records, sources, pools, name, 0, |records|);
        assert records[..0] == [] && records[..|records|] == records;
        if required.None? || observed.None? || observed.value < 0 || observed.value > MAX_BYTES
           || observed.value < required.value {
          assert !PoolSuffices(pool, PoolTotal(records, sources, name), observed);
          return false;
        }
        todo := todo - {name};
      }
      return true;
    }
  }

  lemma {:induction false} TotalSplitsAt(records: seq<Reservation>, sources: map<string, seq<string>>, pool: string,
                                         i: nat)
    requires i < |records|
    ensures PoolTotal(records, sources, pool)
            == PoolTotal(records[..i] + records[i + 1..], sources, pool) + RecordClaim(records[i], sources, pool)
  {
    var n := |records| - 1;
    if i == n {
      assert records[..i] + records[i + 1..] == records[..n];
    } else {
      var rest := records[..i] + records[i + 1..];
      assert rest[..|rest| - 1] == records[..n][..i] + records[..n][i + 1..];
      assert rest[|rest| - 1] == records[n];
      TotalSplitsAt(records[..n], sources, pool, i);
    }
  }

  lemma PermutationWithoutLast<T>(a: seq<T>, b: seq<T>, i: nat)
    requires multiset(a) == multiset(b) && a != [] && i < |b| && b[i] == a[|a| - 1]
    ensures multiset(a[..|a| - 1]) == multiset(b[..i] + b[i + 1..])
  {
    var n := |a| - 1;
    assert a == a[..n] + [a[n]];
    assert b == b[..i] + [b[i]] + b[i + 1..];
    calc {
      multiset(a[..n]);
      multiset(a) - multiset{a[n]};
      multiset(b) - multiset{b[i]};
      multiset(b[..i] + b[i + 1..]);
    }
  }

  lemma {:induction false} TotalOfPermutation(a: seq<Reservation>, b: seq<Reservation>, sources: map<string,
                                              seq<string>>, pool: string)
    requires multiset(a) == multiset(b)
    ensures PoolTotal(a, sources, pool) == PoolTotal(b, sources, pool)
    decreases |a|
  {
    if a == [] {
      assert |multiset(b)| == |b|;
    } else {
      var n := |a| - 1;
      assert a[n] in multiset(b);
      var i :| 0 <= i < |b| && b[i] == a[n];
      PermutationWithoutLast(a, b, i);
      TotalOfPermutation(a[..n], b[..i] + b[i + 1..], sources, pool);
      TotalSplitsAt(b, sources, pool, i);
    }
  }

  /** The order of the records is irrelevant. */
  lemma OrderIrrelevant(a: seq<Reservation>, b: seq<Reservation>, sources: map<string, seq<string>>, pools: map<string,
                        Pool>, free: map<string, Option<int>>)
    requires multiset(a) == multiset(b)
    ensures Allowed(a, sources, pools, free) <==> Allowed(b, sources, pools, free)
  {
    forall name | name in pools
      ensures PoolTotal(a, sources, name) == PoolTotal(b, sources, name)
    {
      TotalOfPermutation(a, b, sources, name);
    }
    assert forall r :: r in a <==> r in multiset(a);
    assert forall r :: r in b <==> r in multiset(b);
  }

  // The decision by the use of each pool.

  /** The record is still to be downloaded into this pool, the first of its source. */
  predicate DownloadsTo(r: Reservation, sources: map<string, seq<string>>, pool: string) {
    r.state != Released && r.source in sources && sources[r.source] != [] && sources[r.source][0] == pool
  }

  /** The record is still to be copied whole into this pool, a later one of its source. */
  predicate CopiesTo(r: Reservation, sources: map<string, seq<string>>, pool: string) {
    r.state != Released && r.source in sources && sources[r.source] != [] && pool in sources[r.source][1..]
  }

  function StillToCome(records: seq<Reservation>, sources: map<string, seq<string>>, pool: string): int {
    if records == [] then 0
    else
      var r := records[|records| - 1];
      StillToCome(records[..|records| - 1], sources, pool)
      + if !DownloadsTo(r, sources, pool) then 0
        else if r.remainingDownloadBytes.Some? then r.remainingDownloadBytes.value else r.requestedBytes
  }

  function WholeCopies(records: seq<Reservation>, sources: map<string, seq<string>>, pool: string): int {
    if records == [] then 0
    else
      var r := records[|records| - 1];
      WholeCopies(records[..|records| - 1], sources, pool) + if CopiesTo(r, sources, pool) then r.requestedBytes else 0
  }

  predicate DistinctPools(sources: map<string, seq<string>>) {
    forall name :: name in sources ==>
      forall i, j :: 0 <= i < j < |sources[name]| ==> sources[name][i] != sources[name][j]
  }

  lemma {:induction false} ClaimByUse(r: Reservation, names: seq<string>, pool: string, upto: nat)
    requires upto <= |names| && forall i, j :: 0 <= i < j < |names| ==> names[i] != names[j]
    ensures Claim(r, names, pool, upto)
            == (if upto > 0 && names[0] == pool then Remaining(r) else 0)
               + (if upto > 1 && pool in names[1..upto] then r.requestedBytes else 0)
  {
    if upto > 0 {
      ClaimByUse(r, names, pool, upto - 1);
      if upto > 1 {
        assert names[1..upto] == names[1..upto - 1] + [names[upto - 1]];
        var before := names[1..upto - 1];
        assert forall k :: 0 <= k < |before| ==> before[k] == names[k + 1];
      }
    }
  }

  /** What a pool must hold: what is still to come into it as a download pool, and a whole copy of
      every record that it is a later pool of. */
  lemma {:induction false} TotalByUse(records: seq<Reservation>, sources: map<string, seq<string>>, pool: string)
    requires DistinctPools(sources)
    ensures PoolTotal(records, sources, pool)
            == StillToCome(records, sources, pool) + WholeCopies(records, sources, pool)
  {
    if records != [] {
      var r := records[|records| - 1];
      TotalByUse(records[..|records| - 1], sources, pool);
      if r.source in sources {
        var names := sources[r.source];
        ClaimByUse(r, names, pool, |names|);
        if names != [] {
          assert names[1..|names|] == names[1..];
        }
      }
    }
  }

  /** The decision without any bookkeeping. */
  lemma AllowedIff(records: seq<Reservation>, sources: map<string, seq<string>>, pools: map<string, Pool>,
                   free: map<string, Option<int>>)
    requires DistinctPools(sources)
    ensures Allowed(records, sources, pools, free) <==>
      && (forall r :: r in records && r.state != Released ==> RecordAccepted(r, sources, pools))
      && (forall name :: name in pools ==>
            && name in free && free[name].Some? && 0 <= free[name].value <= MAX_BYTES
            && pools[name].minimumFree + pools[name].safetyMargin
               + StillToCome(records, sources, name) + WholeCopies(records, sources, name) <= free[name].value)
  {
    forall name | name in pools
      ensures PoolTotal(records, sources, name)
              == StillToCome(records, sources, name) + WholeCopies(records, sources, name)
    {
      TotalByUse(records, sources, name);
    }
    hide PoolTotal, StillToCome, WholeCopies, RecordAccepted;
  }

  lemma {:induction false} UseGrows(records: seq<Reservation>, sources: map<string, seq<string>>, pool: string, i: nat)
    requires i < |records|
    requires forall r :: r in records && r.state != Released ==> Remaining(r) >= 0 && r.requestedBytes >= 0
    ensures 0 <= StillToCome(records, sources, pool) && 0 <= WholeCopies(records, sources, pool)
    ensures DownloadsTo(records[i], sources, pool) ==> Remaining(records[i]) <= StillToCome(records, sources, pool)
    ensures CopiesTo(records[i], sources, pool) ==> records[i].requestedBytes <= WholeCopies(records, sources, pool)
  {
    var n := |records| - 1;
    assert records[n] in records;
    if n > 0 {
      UseGrows(records[..n], sources, pool, if i < n then i else 0);
    }
  }

  /** Once allowed, every live record finds room in each of its pools on its own: for what is still
      to come in the first, and for its whole requested size in every later one. */
  lemma EachHasRoom(records: seq<Reservation>, sources: map<string, seq<string>>, pools: map<string, Pool>,
                    free: map<string, Option<int>>, r: Reservation, k: nat)
    requires DistinctPools(sources) && Allowed(records, sources, pools, free)
    requires r in records && r.state != Released && r.source in sources && k < |sources[r.source]|
    ensures var name := sources[r.source][k];
      && name in pools && name in free && free[name].Some?
      && pools[name].minimumFree + pools[name].safetyMargin + (if k == 0 then Remaining(r) else r.requestedBytes)
         <= free[name].value
  {
    AllowedIff(records, sources, pools, free);
    var i :| 0 <= i < |records| && records[i] == r;
    var name := sources[r.source][k];
    assert RecordAccepted(r, sources, pools);
    UseGrows(records, sources, name, i);
    if k > 0 {
      assert sources[r.source][1..][k - 1] == name;
    }
  }
}
