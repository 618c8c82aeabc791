/** What polling a video candidate concludes, and what a whole run of polls can conclude. */
module FenceHealth {
  import opened Common
  import opened FenceEntry
  import opened Qbittorrent

  datatype HealthPolicy = HealthPolicy(metadataTimeout: int, noProgressTimeout: int, minimumFailures: int,
                                       initialDelay: int)

  /** The replacement work that a poll hands to the upgrade scheduler. */
  datatype Replacement = Replacement(source: string, mediaId: string, initialDelay: int)

  predicate Starved(h: Health) {
    h.metadataKnown && h.availability == 0.0 && h.peers == 0
  }

  /** No progress since the answer before, and nobody to get it from. */
  predicate Stalled(c: VideoCandidate, h: Health) {
    c.metadataObservedAt.Some? && h.downloaded == c.lastDownloadedBytes && Starved(h)
  }

  /** The candidate after one answer, verdict not yet considered. */
  function Noted(c: VideoCandidate, h: Health, now: int): VideoCandidate {
    if !h.metadataKnown then c.(failureObservations := c.failureObservations + 1)
    else if c.metadataObservedAt.None? then
      c.(metadataObservedAt := Some(now), lastProgressAt := now, lastDownloadedBytes := h.downloaded,
         failureObservations := 0)
    else if h.downloaded > c.lastDownloadedBytes then
      c.(lastProgressAt := now, lastDownloadedBytes := h.downloaded, failureObservations := 0)
    else c.(failureObservations := if Stalled(c, h) then 1 else 0)
  }

  predicate Condemned(c: VideoCandidate, h: Health, policy: HealthPolicy, now: int) {
    var noted := Noted(c, h, now);
    && noted.failureObservations >= policy.minimumFailures
    && if h.metadataKnown then Stalled(c, h) && now - noted.lastProgressAt >= policy.noProgressTimeout
       else now - c.probeStartedAt >= policy.metadataTimeout
  }

  function VerdictReason(h: Health): VideoReason {
    if h.metadataKnown then NoProgressTimeout else MetadataTimeoutVideo
  }

  /** The candidate after one poll. */
  function Judged(c: VideoCandidate, h: Health, policy: HealthPolicy, now: int): VideoCandidate {
    var noted := Noted(c, h, now);
    if Condemned(c, h, policy, now)
    then noted.(status := VideoInvalidated, reason := Some(VerdictReason(h)), invalidatedAt := Some(now))
    else noted
  }

  /** The transitions that take down one answer. */
  function NoteSteps(c: VideoCandidate, h: Health, now: int): seq<OpAction> {
    if !h.metadataKnown then [RecordVideoFailure(now)]
    else if Stalled(c, h) then [RecordVideoMetadata(h.downloaded, now), RecordVideoFailure(now)]
    else [RecordVideoMetadata(h.downloaded, now)]
  }

  /** The transitions of one poll, saved together. */
  function PollSteps(c: VideoCandidate, h: Health, policy: HealthPolicy, now: int): seq<OpAction> {
    NoteSteps(c, h, now) + if Condemned(c, h, policy, now) then [InvalidateVideo(VerdictReason(h), now)] else []
  }

  predicate Watching(e: Entry, now: int) {
    HasVideo(e) && e.video.value.status == VideoProbing && now >= e.video.value.probeStartedAt
  }

  function EntrySteps(e: Entry, steps: seq<OpAction>, quiescing: bool): Result<Entry>
    decreases |steps|
  {
    if steps == [] then Ok(e)
    else
      var next :- EntryStep(e, steps[0], quiescing);
      EntrySteps(next, steps[1..], quiescing)
  }

  lemma {:induction false} StepsThen(e: Entry, steps: seq<OpAction>, a: OpAction, quiescing: bool)
    ensures EntrySteps(e, steps + [a], quiescing)
            == if EntrySteps(e, steps, quiescing).Raised? then Raised
               else EntryStep(EntrySteps(e, steps, quiescing).value, a, quiescing)
    decreases |steps|
  {
    hide EntryStep;
    if steps == [] {
      assert [a][1..] == [];
    } else {
      assert (steps + [a])[1..] == steps[1..] + [a];
      if EntryStep(e, steps[0], quiescing).Ok? {
        StepsThen(EntryStep(e, steps[0], quiescing).value, steps[1..], a, quiescing);
      }
    }
  }

  lemma PollNotes(e: Entry, h: Health, now: int, quiescing: bool)
    requires e.video.Some?
    ensures EntrySteps(e, NoteSteps(e.video.value, h, now), quiescing)
            == if Watching(e, now) then Ok(e.(video := Some(Noted(e.video.value, h, now)))) else Raised
  {
    var first := if h.metadataKnown then RecordVideoMetadata(h.downloaded, now) else RecordVideoFailure(now);
    StepsThen(e, [], first, quiescing);
    StepsThen(e, [first], RecordVideoFailure(now), quiescing);
    assert [] + [first] == [first];
    assert [first] + [RecordVideoFailure(now)] == [first, RecordVideoFailure(now)];
  }

  /** A poll works exactly on a candidate still probed and no younger than the clock; then its
      transitions have the effect of the closed form. */
  lemma PollJudges(e: Entry, h: Health, policy: HealthPolicy, now: int, quiescing: bool)
    requires e.video.Some?
    ensures EntrySteps(e, PollSteps(e.video.value, h, policy, now), quiescing)
            == if Watching(e, now) then Ok(e.(video := Some(Judged(e.video.value, h, policy, now)))) else Raised
  {
    var c := e.video.value;
    PollNotes(e, h, now, quiescing);
    hide NoteSteps;
    StepsThen(e, NoteSteps(c, h, now), InvalidateVideo(VerdictReason(h), now), quiescing);
    assert NoteSteps(c, h, now) + [] == NoteSteps(c, h, now);
  }

  // A run of polls of one candidate.

  datatype Look = Look(health: Health, now: int)

  /** The candidate after these polls; a poll of a condemned candidate changes nothing. */
  function Watched(c: VideoCandidate, looks: seq<Look>, policy: HealthPolicy): VideoCandidate {
    if looks == [] then c
    else
      var before := Watched(c, looks[..|looks| - 1], policy);
      var last := looks[|looks| - 1];
      if before.status == VideoProbing then Judged(before, last.health, policy, last.now) else before
  }

  predicate Fresh(c: VideoCandidate, start: int) {
    c == VideoCandidate(c.operationId, start, start, None, 0, 0, VideoProbing, None, None)
  }

  /** Look `j` is where the most bytes known before look `k` were first seen. */
  predicate Peak(looks: seq<Look>, j: int, k: int)
    requires k <= |looks|
  {
    && 0 <= j < k && looks[j].health.metadataKnown
    && (forall i :: 0 <= i < j && looks[i].health.metadataKnown ==>
          looks[i].health.downloaded < looks[j].health.downloaded)
    && (forall i :: j <= i < k && looks[i].health.metadataKnown ==>
          looks[i].health.downloaded <= looks[j].health.downloaded)
  }

  /** Look `k` found the torrent starved and exactly as far as at its peak `j`. */
  predicate StallsAt(looks: seq<Look>, j: int, k: int)
    requires 0 <= k < |looks|
  {
    Peak(looks, j, k) && looks[k].health.downloaded == looks[j].health.downloaded && Starved(looks[k].health)
  }

  predicate SomeStall(looks: seq<Look>, k: int)
    requires 0 <= k < |looks|
  {
    exists j :: 0 <= j < k && StallsAt(looks, j, k)
  }

  /** The last `m` looks saw no metadata, except that the first of them may be a stall. */
  predicate Silent(looks: seq<Look>, m: int) {
    && m <= |looks|
    && (forall k :: |looks| - m < k < |looks| && 0 <= k ==> !looks[k].health.metadataKnown)
    && (m > 0 ==> !looks[|looks| - m].health.metadataKnown || SomeStall(looks, |looks| - m))
  }

  /** What the looks alone say about condemning the candidate at the last of them. */
  predicate Hopeless(looks: seq<Look>, start: int, policy: HealthPolicy)
    requires looks != []
  {
    var k := |looks| - 1;
    if looks[k].health.metadataKnown
    then policy.minimumFailures <= 1
         && exists j :: 0 <= j < k && StallsAt(looks, j, k) && looks[k].now - looks[j].now >= policy.noProgressTimeout
    else Silent(looks, policy.minimumFailures) && looks[k].now - start >= policy.metadataTimeout
  }

  /** What a candidate still probed remembers of the looks at it. */
  ghost predicate Remembers(c: VideoCandidate, looks: seq<Look>, start: int) {
    && c.probeStartedAt == start && c.status == VideoProbing
    && (c.metadataObservedAt.None? ==> forall k :: 0 <= k < |looks| ==> !looks[k].health.metadataKnown)
    && (c.metadataObservedAt.Some? ==>
          exists j :: && Peak(looks, j, |looks|)
                      && c.lastDownloadedBytes == looks[j].health.downloaded && c.lastProgressAt == looks[j].now)
    && 0 <= c.failureObservations
    && (forall m :: 0 < m ==> (m <= c.failureObservations <==> Silent(looks, m)))
  }

  lemma PeakGrows(looks: seq<Look>, x: Look, j: int, k: int)
    requires 0 <= k <= |looks|
    ensures Peak(looks + [x], j, k) <==> Peak(looks, j, k)
    ensures (&& k == |looks| && Peak(looks, j, k)
             && (x.health.metadataKnown ==> x.health.downloaded <= looks[j].health.downloaded)) ==>
      Peak(looks + [x], j, k + 1)
  {
    assert forall i :: 0 <= i < |looks| ==> (looks + [x])[i] == looks[i];
  }

  lemma PeakUnique(looks: seq<Look>, i: int, j: int, k: int)
    requires k <= |looks| && Peak(looks, i, k) && Peak(looks, j, k)
    ensures i == j
  {
  }

  lemma StallGrows(looks: seq<Look>, x: Look, k: int)
    requires 0 <= k < |looks|
    ensures SomeStall(looks + [x], k) <==> SomeStall(looks, k)
  {
    forall j
      ensures StallsAt(looks + [x], j, k) <==> StallsAt(looks, j, k)
    {
      PeakGrows(looks, x, j, k);
      assert (looks + [x])[k] == looks[k];
      assert 0 <= j < k ==> (looks + [x])[j] == looks[j];
    }
    hide StallsAt;
  }

  /** A look without metadata makes the silence one longer; any other ends it. */
  lemma SilenceGrows(looks: seq<Look>, x: Look, m: int)
    requires m > 0
    ensures !x.health.metadataKnown ==> (Silent(looks + [x], m) <==> m == 1 || Silent(looks, m - 1))
    ensures x.health.metadataKnown ==> (Silent(looks + [x], m) <==> m == 1 && SomeStall(looks + [x], |looks|))
  {
    var longer := looks + [x];
    assert longer[|looks|] == x;
    if m <= |longer| {
      var first := |longer| - m;
      if first < |looks| { StallGrows(looks, x, first); }
      hide SomeStall;
      assert forall i :: 0 <= i < |looks| ==> longer[i] == looks[i];
      if x.health.metadataKnown && m > 1 { assert !Silent(longer, m); }
      if !x.health.metadataKnown && m > 1 && Silent(longer, m) {
        assert forall k :: |looks| - (m - 1) < k < |looks| && 0 <= k ==> !longer[k].health.metadataKnown;
      }
    }
  }

  /** The candidate sees a stall exactly where the looks show one. */
  lemma StallSeen(c: VideoCandidate, looks: seq<Look>, x: Look, start: int)
    requires Remembers(c, looks, start)
    ensures Stalled(c, x.health) <==> SomeStall(looks + [x], |looks|)
    ensures forall j :: 0 <= j < |looks| && StallsAt(looks + [x], j, |looks|) ==> c.lastProgressAt == looks[j].now
  {
    hide Silent;
    var longer := looks + [x];
    forall j
      ensures Peak(longer, j, |looks|) <==> Peak(looks, j, |looks|)
    {
      PeakGrows(looks, x, j, |looks|);
    }
    assert longer[|looks|] == x && forall i :: 0 <= i < |looks| ==> longer[i] == looks[i];
    if c.metadataObservedAt.Some? {
      var p :| Peak(looks, p, |looks|)
               && c.lastDownloadedBytes == looks[p].health.downloaded && c.lastProgressAt == looks[p].now;
      forall j | Peak(looks, j, |looks|)
        ensures j == p
      {
        PeakUnique(looks, j, p, |looks|);
      }
      hide Peak;
      if Stalled(c, x.health) { assert StallsAt(longer, p, |looks|); }
    }
  }

  lemma PeakKept(c: VideoCandidate, looks: seq<Look>, x: Look, start: int)
    requires Remembers(c, looks, start)
    ensures var noted := Noted(c, x.health, x.now);
      var longer := looks + [x];
      && (noted.metadataObservedAt.None? ==> forall k :: 0 <= k < |longer| ==> !longer[k].health.metadataKnown)
      && (noted.metadataObservedAt.Some? ==>
            exists j :: && Peak(longer, j, |longer|)
                        && noted.lastDownloadedBytes == longer[j].health.downloaded
                        && noted.lastProgressAt == longer[j].now)
  {
    hide Silent;
    var longer := looks + [x];
    var noted := Noted(c, x.health, x.now);
    assert longer[|looks|] == x && forall i :: 0 <= i < |looks| ==> longer[i] == looks[i];
    if c.metadataObservedAt.Some? {
      var p :| Peak(looks, p, |looks|)
               && c.lastDownloadedBytes == looks[p].health.downloaded && c.lastProgressAt == looks[p].now;
      PeakGrows(looks, x, p, |looks|);
      if x.health.metadataKnown && x.health.downloaded > c.lastDownloadedBytes {
        assert Peak(longer, |looks|, |longer|);
      } else {
        assert Peak(longer, p, |longer|);
      }
    } else if x.health.metadataKnown {
      assert Peak(longer, |looks|, |longer|);
    }
  }

  /** One more look: the memory stays exact and the verdict falls exactly where the looks call
      the candidate hopeless. */
  lemma LookRemembered(c: VideoCandidate, looks: seq<Look>, x: Look, start: int, policy: HealthPolicy)
    requires Remembers(c, looks, start)
    ensures Remembers(Noted(c, x.health, x.now), looks + [x], start)
    ensures Condemned(c, x.health, policy, x.now) <==> Hopeless(looks + [x], start, policy)
  {
    PeakKept(c, looks, x, start);
    StallSeen(c, looks, x, start);
    var noted := Noted(c, x.health, x.now);
    var longer := looks + [x];
    assert longer[|looks|] == x && forall i :: 0 <= i < |looks| ==> longer[i] == looks[i];
    hide Peak, StallsAt;
    forall m | 0 < m
      ensures m <= noted.failureObservations <==> Silent(longer, m)
    {
      SilenceGrows(looks, x, m);
      hide Silent, SomeStall;
      if m > 1 { assert m - 1 <= c.failureObservations <==> Silent(looks, m - 1); }
    }
    hide Silent, Stalled;
    if policy.minimumFailures <= 0 { SilentTrivially(longer, policy.minimumFailures); }
  }

  lemma SilentTrivially(looks: seq<Look>, m: int)
    requires m <= 0
    ensures Silent(looks, m)
  {
  }

  lemma {:induction false} WatchedRemembers(c: VideoCandidate, looks: seq<Look>, start: int, policy: HealthPolicy)
    requires Fresh(c, start)
    ensures Watched(c, looks, policy).status == VideoProbing ==> Remembers(Watched(c, looks, policy), looks, start)
  {
    if looks == [] {
      forall m | 0 < m ensures !Silent(looks, m) {}
    } else {
      var n := |looks| - 1;
      WatchedRemembers(c, looks[..n], start, policy);
      assert looks == looks[..n] + [looks[n]];
      var before := Watched(c, looks[..n], policy);
      if before.status == VideoProbing {
        LookRemembered(before, looks[..n], looks[n], start, policy);
      }
      hide Remembers, Noted, Condemned;
    }
  }

  /** A run of polls condemns a candidate exactly when some beginning of what was seen is
      hopeless: long silence after the metadata timeout, or, only under a minimum of one
      failure, a stall as old as the progress timeout. */
  lemma {:induction false} VerdictIff(c: VideoCandidate, looks: seq<Look>, start: int, policy: HealthPolicy)
    requires Fresh(c, start)
    ensures Watched(c, looks, policy).status == VideoInvalidated
            <==> exists n :: 0 < n <= |looks| && Hopeless(looks[..n], start, policy)
  {
    hide Hopeless, Remembers;
    if looks != [] {
      var k := |looks| - 1;
      VerdictIff(c, looks[..k], start, policy);
      assert forall n :: 0 < n <= k ==> looks[..k][..n] == looks[..n];
      assert looks[..|looks|] == looks == looks[..k] + [looks[k]];
      var before := Watched(c, looks[..k], policy);
      if before.status == VideoProbing {
        WatchedRemembers(c, looks[..k], start, policy);
        LookRemembered(before, looks[..k], looks[k], start, policy);
        hide Condemned, Noted;
        assert Watched(c, looks, policy).status == VideoInvalidated <==> Hopeless(looks[..|looks|], start, policy);
      } else {
        var n :| 0 < n <= k && Hopeless(looks[..k][..n], start, policy);
        assert Hopeless(looks[..n], start, policy);
      }
    }
  }

  /** Under a minimum above one no stall is ever punished: each answer with metadata takes back
      the failures counted before it. */
  lemma {:induction false} StallNeedsMinimumOne(c: VideoCandidate, looks: seq<Look>, policy: HealthPolicy)
    requires c.reason.None?
    ensures Watched(c, looks, policy).reason == Some(NoProgressTimeout) ==> policy.minimumFailures <= 1
  {
    if looks != [] {
      StallNeedsMinimumOne(c, looks[..|looks| - 1], policy);
    }
  }
}
