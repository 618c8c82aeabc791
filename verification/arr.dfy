/** What Arr's public history and queue say: external grabs after a watermark, and imports read
    page by page after a cursor. */
module Arr {
  import opened Common

  datatype EventType = Grabbed | Imported | OtherEvent

  /** One history record; fields that a valid answer may lack are optional. */
  datatype HistoryRecord = HistoryRecord(
    id: int,
    event: EventType,
    entityId: Option<string>,
    downloadId: Option<string>,
    date: Option<int>,
    importedPath: Option<string>,
    releaseSize: Option<int>
  )

  datatype QueueItem = QueueItem(entityId: Option<string>, downloadId: string, downloadClient: string, torrent: bool,
                                 size: Option<int>)

  datatype ExternalGrab = ExternalGrab(entityId: string, downloadId: string, torrentHash: string, expectedBytes: int,
                                       historyId: int)

  datatype ExternalObservation = ExternalObservation(watermark: int, grabs: seq<ExternalGrab>)

  datatype ImportedEvent = ImportedEvent(historyId: int, downloadId: string, mediaId: string, relativePath: seq<string>)

  // Records in id order.

  predicate Ordered(records: seq<HistoryRecord>) {
    forall i, j :: 0 <= i < j < |records| ==> records[i].id <= records[j].id
  }

  predicate DistinctIds(records: seq<HistoryRecord>) {
    forall i, j :: 0 <= i < j < |records| ==> records[i].id != records[j].id
  }

  function Insert(sorted: seq<HistoryRecord>, r: HistoryRecord): (s: seq<HistoryRecord>)
    requires Ordered(sorted)
    ensures Ordered(s) && multiset(s) == multiset(sorted) + multiset{r} && |s| == |sorted| + 1
  {
    if sorted == [] || r.id < sorted[0].id then [r] + sorted
    else
      assert sorted == [sorted[0]] + sorted[1..];
      var rest := Insert(sorted[1..], r);
      InsertedMembers(sorted[1..], r, rest);
      [sorted[0]] + rest
  }

  lemma InsertedMembers(sorted: seq<HistoryRecord>, r: HistoryRecord, s: seq<HistoryRecord>)
    requires multiset(s) == multiset(sorted) + multiset{r}
    ensures forall i :: 0 <= i < |s| ==> s[i] == r || s[i] in sorted
  {
    forall i | 0 <= i < |s|
      ensures s[i] == r || s[i] in sorted
    {
      assert s[i] in multiset(s);
    }
  }

  /** A stable sort by history id. */
  function SortById(records: seq<HistoryRecord>): (s: seq<HistoryRecord>)
    ensures Ordered(s) && multiset(s) == multiset(records) && |s| == |records|
  {
    if records == [] then []
    else
      assert records == records[..|records| - 1] + [records[|records| - 1]];
      Insert(SortById(records[..|records| - 1]), records[|records| - 1])
  }

  function Later(records: seq<HistoryRecord>, id: int): seq<HistoryRecord> {
    if records == [] then []
    else if records[0].id > id then [records[0]] + Later(records[1..], id)
    else Later(records[1..], id)
  }

  lemma {:induction false} LaterMembers(records: seq<HistoryRecord>, id: int)
    ensures forall r :: r in Later(records, id) <==> r in records && r.id > id
  {
    if records != [] {
      LaterMembers(records[1..], id);
      assert forall r :: r in records <==> r == records[0] || r in records[1..];
    }
  }

  lemma {:induction false} LaterAll(records: seq<HistoryRecord>, id: int)
    requires forall i :: 0 <= i < |records| ==> records[i].id > id
    ensures Later(records, id) == records
  {
    if records != [] {
      LaterAll(records[1..], id);
    }
  }

  lemma SortedMembers(records: seq<HistoryRecord>)
    ensures forall r :: r in SortById(records) <==> r in records
  {
    var s := SortById(records);
    assert forall r :: r in s <==> r in multiset(s);
    assert forall r :: r in records <==> r in multiset(records);
  }

  // External grabs.

  predicate QueueMatch(item: QueueItem, entityId: string, downloadId: string, client: string) {
    && item.entityId == Some(entityId) && item.downloadId == downloadId && item.downloadClient == client
    && item.torrent && item.size.Some? && item.size.value >= 0
  }

  function QueueMatches(queue: seq<QueueItem>, entityId: string, downloadId: string, client: string): seq<QueueItem> {
    if queue == [] then []
    else
      var rest := QueueMatches(queue[..|queue| - 1], entityId, downloadId, client);
      var last := queue[|queue| - 1];
      if QueueMatch(last, entityId, downloadId, client) then rest + [last] else rest
  }

  /** The grab that one record and its only queue item prove; an unknown size falls back to the
      size the history recorded for the release. */
  function GrabOf(r: HistoryRecord, queue: seq<QueueItem>, client: string): Option<ExternalGrab> {
    if r.entityId.None? || r.downloadId.None? || !Hex(r.downloadId.value, 40) then None
    else
      var matches := QueueMatches(queue, r.entityId.value, r.downloadId.value, client);
      if |matches| != 1 || matches[0].size.None? then None
      else
        var size := if matches[0].size.value == 0 then r.releaseSize else matches[0].size;
        if size.None? then None
        else Some(ExternalGrab(r.entityId.value, r.downloadId.value, Lower(r.downloadId.value), size.value, r.id))
  }

  predicate HashSeen(grabs: seq<ExternalGrab>, hash: string) {
    exists i :: 0 <= i < |grabs| && grabs[i].torrentHash == hash
  }

  predicate IdSeen(records: seq<HistoryRecord>, id: int) {
    exists i :: 0 <= i < |records| && records[i].id == id
  }

  /** Every grab among the records, or nothing as soon as one record cannot be trusted. */
  function GrabsOf(later: seq<HistoryRecord>, queue: seq<QueueItem>, client: string): Option<seq<ExternalGrab>> {
    if later == [] then Some([])
    else
      var n := |later| - 1;
      var before := GrabsOf(later[..n], queue, client);
      if before.None? || IdSeen(later[..n], later[n].id) then None
      else if later[n].event != Grabbed then before
      else
        var grab := GrabOf(later[n], queue, client);
        if grab.None? || HashSeen(before.value, grab.value.torrentHash) then None
        else Some(before.value + [grab.value])
  }

  /** `client` is the unique configured download client, or nothing. */
  function GrabsAfter(history: seq<HistoryRecord>, queue: seq<QueueItem>, client: Option<string>,
                      watermark: int): Option<ExternalObservation> {
    if watermark < 0 || client.None? || (exists i :: 0 <= i < |history| && history[i].id < 0) then None
    else
      var later := Later(SortById(history), watermark);
      if later == [] then Some(ExternalObservation(watermark, []))
      else
        var grabs := GrabsOf(later, queue, client.value);
        if grabs.None? then None else Some(ExternalObservation(later[|later| - 1].id, grabs.value))
  }

  lemma {:induction false} GrabsOfPrefix(later: seq<HistoryRecord>, queue: seq<QueueItem>, client: string, n: nat)
    requires n <= |later| && GrabsOf(later, queue, client).Some?
    ensures GrabsOf(later[..n], queue, client).Some?
    ensures GrabsOf(later[..n], queue, client).value <= GrabsOf(later, queue, client).value
    decreases |later|
  {
    if n < |later| {
      GrabsOfPrefix(later[..|later| - 1], queue, client, n);
      assert later[..|later| - 1][..n] == later[..n];
    } else {
      assert later[..n] == later;
    }
  }

  method ExternalGrabsAfter(history: seq<HistoryRecord>, queue: seq<QueueItem>, client: Option<string>,
                            watermark: int) returns (r: Option<ExternalObservation>)
    ensures r == GrabsAfter(history, queue, client, watermark)
  {
    if watermark < 0 || client.None? || (exists i :: 0 <= i < |history| && history[i].id < 0) {
      return None;
    }
    var later := Later(SortById(history), watermark);
    if later == [] {
      return Some(ExternalObservation(watermark, []));
    }
    var grabs := CollectGrabs(later, queue, client.value);
    if grabs.None? {
      return None;
    }
    return Some(ExternalObservation(later[|later| - 1].id, grabs.value));
  }

  method CollectGrabs(later: seq<HistoryRecord>, queue: seq<QueueItem>,
                      client: string) returns (r: Option<seq<ExternalGrab>>)
    ensures r == GrabsOf(later, queue, client)
  {
    hide GrabOf, IdSeen, HashSeen;
    var grabs: seq<ExternalGrab> := [];
    var seenHistory: set<int> := {};
    var seenDownloads: set<string> := {};
    NothingSeen();
    var i := 0;
    while i < |later|
      invariant 0 <= i <= |later|
      invariant GrabsOf(later[..i], queue, client) == Some(grabs)
      invariant forall id :: id in seenHistory <==> IdSeen(later[..i], id)
      invariant forall hash :: hash in seenDownloads <==> HashSeen(grabs, hash)
    {
      var record := later[i];
      assert later[..i + 1][..i] == later[..i] && later[..i + 1][i] == record;
      if record.id in seenHistory {
        Untrusted(later, queue, client, i + 1);
        return None;
      }
      seenHistory := seenHistory + {record.id};
      SeenGrows(later, i);
      if record.event == Grabbed {
        var grab := GrabOf(record, queue, client);
        if grab.None? || grab.value.torrentHash in seenDownloads {
          Untrusted(later, queue, client, i + 1);
          return None;
        }
        seenDownloads := seenDownloads + {grab.value.torrentHash};
        HashGrows(grabs, grab.value);
        grabs := grabs + [grab.value];
      }
      i := i + 1;
    }
    assert later[..|later|] == later;
    return Some(grabs);
  }

  lemma NothingSeen()
    ensures forall id :: !IdSeen([], id)
    ensures forall hash :: !HashSeen([], hash)
  {
  }

  lemma Untrusted(later: seq<HistoryRecord>, queue: seq<QueueItem>, client: string, n: nat)
    requires n <= |later| && GrabsOf(later[..n], queue, client).None?
    ensures GrabsOf(later, queue, client).None?
  {
    if GrabsOf(later, queue, client).Some? {
      GrabsOfPrefix(later, queue, client, n);
    }
  }

  lemma SeenGrows(later: seq<HistoryRecord>, i: nat)
    requires i < |later|
    ensures forall id :: IdSeen(later[..i + 1], id) <==> IdSeen(later[..i], id) || id == later[i].id
  {
    forall id
      ensures IdSeen(later[..i + 1], id) <==> IdSeen(later[..i], id) || id == later[i].id
    {
      if IdSeen(later[..i], id) {
        var j :| 0 <= j < i && later[..i][j].id == id;
        assert later[..i + 1][j].id == id;
      }
      if id == later[i].id {
        assert later[..i + 1][i].id == id;
      }
      if IdSeen(later[..i + 1], id) && id != later[i].id {
        var j :| 0 <= j < i + 1 && later[..i + 1][j].id == id;
        assert later[..i][j].id == id;
      }
    }
  }

  lemma HashGrows(grabs: seq<ExternalGrab>, g: ExternalGrab)
    ensures forall hash :: HashSeen(grabs + [g], hash) <==> HashSeen(grabs, hash) || hash == g.torrentHash
  {
    forall hash
      ensures HashSeen(grabs + [g], hash) <==> HashSeen(grabs, hash) || hash == g.torrentHash
    {
      if HashSeen(grabs, hash) {
        var j :| 0 <= j < |grabs| && grabs[j].torrentHash == hash;
        assert (grabs + [g])[j].torrentHash == hash;
      }
      if hash == g.torrentHash {
        assert (grabs + [g])[|grabs|].torrentHash == hash;
      }
    }
  }

  /** A trusted answer misses no grab: each grabbed record yields its grab, and nothing else does. */
  lemma {:induction false} GrabsComplete(later: seq<HistoryRecord>, queue: seq<QueueItem>, client: string)
    requires GrabsOf(later, queue, client).Some?
    ensures DistinctIds(later)
    ensures forall r ::
      r in later && r.event == Grabbed ==>
        GrabOf(r, queue, client).Some? && GrabOf(r, queue, client).value in GrabsOf(later, queue, client).value
    ensures forall g ::
      g in GrabsOf(later, queue, client).value ==>
        exists r :: r in later && r.event == Grabbed && GrabOf(r, queue, client) == Some(g)
    ensures var grabs := GrabsOf(later, queue, client).value;
      forall i, j :: 0 <= i < j < |grabs| ==> grabs[i].torrentHash != grabs[j].torrentHash
  {
    if later != [] {
      var n := |later| - 1;
      GrabsComplete(later[..n], queue, client);
      var before := GrabsOf(later[..n], queue, client).value;
      var grabs := GrabsOf(later, queue, client).value;
      forall i, j | 0 <= i < j < |later|
        ensures later[i].id != later[j].id
      {
        if j == n && later[i].id == later[n].id {
          assert later[..n][i].id == later[n].id;
          assert IdSeen(later[..n], later[n].id);
        } else if j < n {
          assert later[..n][i].id != later[..n][j].id;
        }
      }
      forall r | r in later && r.event == Grabbed
        ensures GrabOf(r, queue, client).Some? && GrabOf(r, queue, client).value in grabs
      {
        if r in later[..n] {
          assert GrabOf(r, queue, client).value in before;
        }
      }
      forall g | g in grabs
        ensures exists r :: r in later && r.event == Grabbed && GrabOf(r, queue, client) == Some(g)
      {
        if g in before {
          var r :| r in later[..n] && r.event == Grabbed && GrabOf(r, queue, client) == Some(g);
          assert r in later;
        } else {
          assert GrabOf(later[n], queue, client) == Some(g) && later[n] in later;
        }
      }
    }
  }

  /** A successful poll sees exactly the grabs above its watermark, and its new watermark covers them all. */
  lemma PollComplete(history: seq<HistoryRecord>, queue: seq<QueueItem>, client: Option<string>, watermark: int)
    requires GrabsAfter(history, queue, client, watermark).Some?
    ensures var o := GrabsAfter(history, queue, client, watermark).value;
      && watermark <= o.watermark
      && (forall r :: r in history ==> r.id <= o.watermark)
      && (forall r :: r in history && r.id > watermark && r.event == Grabbed ==>
            GrabOf(r, queue, client.value).Some? && GrabOf(r, queue, client.value).value in o.grabs)
      && (forall g :: g in o.grabs ==>
            exists r ::
              && r in history && r.id > watermark && r.event == Grabbed
              && GrabOf(r, queue, client.value) == Some(g))
  {
    var sorted := SortById(history);
    var later := Later(sorted, watermark);
    LaterMembers(sorted, watermark);
    SortedMembers(history);
    LaterOrdered(sorted, watermark);
    if later != [] {
      GrabsComplete(later, queue, client.value);
      assert later[|later| - 1] in later;
    }
    hide GrabOf, GrabsOf, Later, SortById;
  }

  lemma {:induction false} LaterOrdered(records: seq<HistoryRecord>, id: int)
    requires Ordered(records)
    ensures Ordered(Later(records, id))
  {
    if records != [] {
      LaterOrdered(records[1..], id);
      LaterMembers(records[1..], id);
      var rest := Later(records[1..], id);
      forall i | 0 <= i < |rest|
        ensures records[0].id <= rest[i].id
      {
        assert rest[i] in records[1..];
      }
    }
  }

  /** The highest history id before the first poll. */
  function HistoryWatermark(history: seq<HistoryRecord>): Option<int> {
    if exists i :: 0 <= i < |history| && history[i].id < 0 then None
    else if history == [] then Some(0)
    else Some(SortById(history)[|history| - 1].id)
  }

  lemma BaselineCoversHistory(history: seq<HistoryRecord>)
    requires HistoryWatermark(history).Some?
    ensures HistoryWatermark(history).value >= 0
    ensures forall r :: r in history ==> r.id <= HistoryWatermark(history).value
  {
    SortedMembers(history);
    var s := SortById(history);
    assert |multiset(s)| == |s| && |multiset(history)| == |history|;
    if history != [] {
      assert s[|s| - 1] in history;
    }
  }
}
