/** Import intake: bounded pages after a durable cursor read exactly what one unbounded read would. */
module ArrImports {
  import opened Common
  import opened Arr

  /** The oldest import a first read may take; an unreadable bound answers nothing. */
  datatype NotBefore = Unbounded | From(timestamp: int) | Unreadable

  datatype Judgement = Passed | Accepted(event: ImportedEvent) | Untrustworthy

  datatype Page = Page(cursor: int, events: seq<ImportedEvent>)

  /** The parts of a canonical absolute path. */
  function CanonicalParts(path: string): Option<seq<string>> {
    if path == "" || path[0] != '/' || '\0' in path then None
    else
      var parts := Split(path, '/');
      if exists i :: 1 <= i < |parts| && parts[i] in {"", ".", ".."} then None else Some(parts[1..])
  }

  predicate PrefixOf(prefix: seq<string>, parts: seq<string>) {
    |prefix| <= |parts| && parts[..|prefix|] == prefix
  }

  /** What one record beyond the cursor contributes.  A path outside the staging root is consumed. */
  function Judge(r: HistoryRecord, bound: NotBefore, prefix: Option<seq<string>>): Judgement {
    if bound.From? && (r.date.None? || r.date.value < 0) then Untrustworthy
    else if bound.From? && r.date.value < bound.timestamp then Passed
    else if r.event != Imported then Passed
    else if r.downloadId.None? || r.downloadId.value == "" || r.entityId.None?
            || r.importedPath.None? then Untrustworthy
    else
      var parts := CanonicalParts(r.importedPath.value);
      if parts.None? || prefix.None? then Untrustworthy
      else if !PrefixOf(prefix.value, parts.value) then Passed
      else
        var relative := parts.value[|prefix.value|..];
        if relative == [] || (exists i :: 0 <= i < |relative| && relative[i] in {"", ".", ".."}) then Untrustworthy
        else Accepted(ImportedEvent(r.id, r.downloadId.value, r.entityId.value, relative))
  }

  /** Reads records in order until the page is full. */
  function Take(records: seq<HistoryRecord>, cursor: int, maximum: nat, bound: NotBefore,
                prefix: Option<seq<string>>): Option<Page> {
    if records == [] || maximum == 0 then Some(Page(cursor, []))
    else
      match Judge(records[0], bound, prefix)
      case Untrustworthy => None
      case Passed => Take(records[1..], records[0].id, maximum, bound, prefix)
      case Accepted(event) =>
        var rest := Take(records[1..], records[0].id, maximum - 1, bound, prefix);
        if rest.None? then None else Some(Page(rest.value.cursor, [event] + rest.value.events))
  }

  predicate HistoryOk(history: seq<HistoryRecord>) {
    (forall i :: 0 <= i < |history| ==> history[i].id > 0) && DistinctIds(history)
  }

  function ImportPage(history: seq<HistoryRecord>, cursor: int, maximum: int, bound: NotBefore,
                      prefix: Option<seq<string>>): Option<Page> {
    if cursor < 0 || maximum <= 0 || bound.Unreadable? || !HistoryOk(history) then None
    else Take(Later(SortById(history), cursor), cursor, maximum, bound, prefix)
  }

  /** One call of the adapter: a single pass over the sorted history. */
  method ImportedAfter(history: seq<HistoryRecord>, cursor: int, maximum: int, bound: NotBefore,
                       prefix: Option<seq<string>>) returns (r: Option<Page>)
    ensures r == ImportPage(history, cursor, maximum, bound, prefix)
  {
    if cursor < 0 || maximum <= 0 || bound.Unreadable? {
      return None;
    }
    var records := SortById(history);
    SortKeepsChecks(history);
    if (exists i :: 0 <= i < |records| && records[i].id <= 0) || !DistinctIds(records) {
      return None;
    }
    r := ReadPage(records, cursor, maximum, bound, prefix);
  }

  method ReadPage(records: seq<HistoryRecord>, cursor: int, maximum: int, bound: NotBefore,
                  prefix: Option<seq<string>>) returns (r: Option<Page>)
    requires maximum > 0
    ensures r == Take(Later(records, cursor), cursor, maximum, bound, prefix)
  {
    hide Judge;
    var page := Page(cursor, []);
    PrependNothing(Take(Later(records, cursor), cursor, maximum, bound, prefix));
    assert records[0..] == records;
    var i := 0;
    while i < |records|
      invariant 0 <= i <= |records|
      invariant |page.events| < maximum
      invariant Take(Later(records, cursor), cursor, maximum, bound, prefix)
                == Prepend(page.events,
                           Take(Later(records[i..], cursor), page.cursor, maximum - |page.events|, bound, prefix))
    {
      var record := records[i];
      assert records[i..][0] == record && records[i..][1..] == records[i + 1..];
      i := i + 1;
      if record.id > cursor {
        ghost var later := Later(records[i..], cursor);
        assert ([record] + later)[1..] == later;
        match Judge(record, bound, prefix) {
          case Untrustworthy => return None;
          case Passed => page := page.(cursor := record.id);
          case Accepted(event) =>
            PrependOne(page.events, event, Take(later, record.id, maximum - |page.events| - 1, bound, prefix));
            page := Page(record.id, page.events + [event]);
            if |page.events| >= maximum {
              assert Take(later, record.id, 0, bound, prefix) == Some(Page(record.id, []));
              assert page.events + [] == page.events;
              return Some(page);
            }
        }
      }
    }
    assert Later(records[i..], cursor) == [];
    assert page.events + [] == page.events;
    return Some(page);
  }

  function Prepend(events: seq<ImportedEvent>, page: Option<Page>): Option<Page> {
    if page.None? then None else Some(Page(page.value.cursor, events + page.value.events))
  }

  lemma PrependNothing(rest: Option<Page>)
    ensures Prepend([], rest) == rest
  {
    if rest.Some? {
      assert [] + rest.value.events == rest.value.events;
    }
  }

  lemma PrependOne(events: seq<ImportedEvent>, event: ImportedEvent, rest: Option<Page>)
    ensures Prepend(events, Prepend([event], rest)) == Prepend(events + [event], rest)
  {
    if rest.Some? {
      assert events + ([event] + rest.value.events) == events + [event] + rest.value.events;
    }
  }

  lemma SortKeepsChecks(history: seq<HistoryRecord>)
    ensures HistoryOk(history) <==> HistoryOk(SortById(history))
  {
    SortedMembers(history);
    var s := SortById(history);
    if HistoryOk(history) {
      PermutationKeepsDistinct(history, s);
      forall i | 0 <= i < |s| ensures s[i].id > 0 { assert s[i] in history; }
    }
    if HistoryOk(s) {
      PermutationKeepsDistinct(s, history);
      forall i | 0 <= i < |history| ensures history[i].id > 0 { assert history[i] in s; }
    }
  }

  /** Ids are distinct in any order of the same records. */
  lemma {:induction false} PermutationKeepsDistinct(a: seq<HistoryRecord>, b: seq<HistoryRecord>)
    requires multiset(a) == multiset(b) && DistinctIds(a)
    ensures DistinctIds(b)
  {
    forall i, j | 0 <= i < j < |b|
      ensures b[i].id != b[j].id
    {
      if b[i].id == b[j].id {
        assert b[i] in multiset(a) && b[j] in multiset(a);
        assert b[i] == b[j];
        assert b == b[..i] + [b[i]] + b[i + 1..j] + [b[j]] + b[j + 1..];
        assert multiset(b)[b[i]] >= 2;
        DistinctOnce(a, b[i]);
        assert false;
      }
    }
  }

  lemma {:induction false} DistinctOnce(a: seq<HistoryRecord>, r: HistoryRecord)
    requires DistinctIds(a)
    ensures multiset(a)[r] <= 1
  {
    if a != [] {
      var n := |a| - 1;
      assert a == a[..n] + [a[n]];
      DistinctOnce(a[..n], r);
      if r == a[n] {
        assert r !in a[..n];
        assert r !in multiset(a[..n]);
      }
    }
  }

  // Paging.

  /** Calls the adapter from its own cursor until the cursor stops moving. */
  function Pages(history: seq<HistoryRecord>, cursor: int, maximum: int, bound: NotBefore,
                 prefix: Option<seq<string>>): Option<Page>
    requires HistoryOk(history)
    decreases |Later(SortById(history), cursor)|
  {
    var page := ImportPage(history, cursor, maximum, bound, prefix);
    if page.None? then None
    else if page.value.cursor <= cursor then page
    else
      PageShrinks(history, cursor, maximum, bound, prefix);
      Prepend(page.value.events, Pages(history, page.value.cursor, maximum, bound, prefix))
  }

  predicate Increasing(records: seq<HistoryRecord>, above: int) {
    && (forall i :: 0 <= i < |records| ==> above < records[i].id)
    && forall i, j :: 0 <= i < j < |records| ==> records[i].id < records[j].id
  }

  lemma LaterIncreasing(history: seq<HistoryRecord>, cursor: int)
    requires HistoryOk(history)
    ensures Increasing(Later(SortById(history), cursor), cursor)
  {
    SortKeepsChecks(history);
    SuffixOfLater(SortById(history), cursor);
  }

  lemma {:induction false} SuffixOfLater(records: seq<HistoryRecord>, cursor: int)
    requires Ordered(records) && DistinctIds(records)
    ensures Increasing(Later(records, cursor), cursor)
  {
    if records != [] {
      SuffixOfLater(records[1..], cursor);
      LaterMembers(records[1..], cursor);
      var rest := Later(records[1..], cursor);
      forall i | 0 <= i < |rest|
        ensures records[0].id < rest[i].id
      {
        assert rest[i] in records[1..];
        var j :| 1 <= j < |records| && records[j] == rest[i];
      }
    }
  }

  /** What is later than a later record is a suffix of what is later. */
  lemma {:induction false} LaterTwice(records: seq<HistoryRecord>, low: int, high: int)
    requires low <= high
    ensures Later(Later(records, low), high) == Later(records, high)
  {
    if records != [] {
      LaterTwice(records[1..], low, high);
      if records[0].id > low {
        assert ([records[0]] + Later(records[1..], low))[1..] == Later(records[1..], low);
      }
    }
  }

  lemma {:induction false} LaterDrops(records: seq<HistoryRecord>, above: int, cursor: int)
    requires Increasing(records, above) && cursor >= above
    ensures |Later(records, cursor)| <= |records|
    ensures records != [] && cursor >= records[0].id ==>
      Later(records, cursor) == Later(records[1..], cursor) && |Later(records, cursor)| < |records|
    ensures cursor == above ==> Later(records, cursor) == records
  {
    if records != [] {
      LaterDrops(records[1..], records[0].id, if cursor >= records[0].id then cursor else records[0].id);
      LaterAll(records, above);
      if cursor < records[0].id {
        LaterAll(records, cursor);
      }
    }
  }

  /** A page moves the cursor to a record it consumed, and ends short of the maximum only at the end. */
  lemma {:induction false} TakeEnd(records: seq<HistoryRecord>, cursor: int, maximum: nat, bound: NotBefore,
                                   prefix: Option<seq<string>>)
    requires Increasing(records, cursor)
    requires Take(records, cursor, maximum, bound, prefix).Some?
    ensures var page := Take(records, cursor, maximum, bound, prefix).value;
      && page.cursor >= cursor && |page.events| <= maximum
      && (page.cursor == cursor <==> records == [] || maximum == 0)
  {
    if records != [] && maximum > 0 {
      var less := if Judge(records[0], bound, prefix).Passed? then maximum else maximum - 1;
      TakeEnd(records[1..], records[0].id, less, bound, prefix);
    }
  }

  lemma PageShrinks(history: seq<HistoryRecord>, cursor: int, maximum: int, bound: NotBefore,
                    prefix: Option<seq<string>>)
    requires HistoryOk(history)
    requires var page := ImportPage(history, cursor, maximum, bound, prefix); page.Some? && page.value.cursor > cursor
    ensures |Later(SortById(history), ImportPage(history, cursor, maximum, bound, prefix).value.cursor)| <
            |Later(SortById(history), cursor)|
  {
    var later := Later(SortById(history), cursor);
    var next := ImportPage(history, cursor, maximum, bound, prefix).value.cursor;
    LaterIncreasing(history, cursor);
    LaterTwice(SortById(history), cursor, next);
    TakeReaches(later, cursor, maximum, bound, prefix);
    LaterDrops(later, cursor, next);
  }

  /** A page that moved consumed at least the first record. */
  lemma {:induction false} TakeReaches(records: seq<HistoryRecord>, cursor: int, maximum: nat, bound: NotBefore,
                                       prefix: Option<seq<string>>)
    requires Increasing(records, cursor) && Take(records, cursor, maximum, bound, prefix).Some?
    requires Take(records, cursor, maximum, bound, prefix).value.cursor > cursor
    ensures records != [] && Take(records, cursor, maximum, bound, prefix).value.cursor >= records[0].id
  {
    if records != [] && maximum > 0 {
      var less := if Judge(records[0], bound, prefix).Passed? then maximum else maximum - 1;
      TakeEnd(records[1..], records[0].id, less, bound, prefix);
    }
  }

  /** Reading a page and then the rest reads what reading everything reads. */
  lemma {:induction false} TakeThenRest(records: seq<HistoryRecord>, cursor: int, maximum: nat, all: nat,
                                        bound: NotBefore, prefix: Option<seq<string>>)
    requires Increasing(records, cursor) && all >= |records|
    requires Take(records, cursor, all, bound, prefix).Some?
    ensures Take(records, cursor, maximum, bound, prefix).Some?
    ensures var page := Take(records, cursor, maximum, bound, prefix).value;
      var rest := Later(records, page.cursor);
      && Increasing(rest, page.cursor) && |rest| <= |records|
      && Take(records, cursor, all, bound, prefix) == Prepend(page.events, Take(rest, page.cursor, all, bound, prefix))
  {
    if records == [] || maximum == 0 {
      LaterAll(records, cursor);
      var whole := Take(records, cursor, all, bound, prefix);
      assert [] + whole.value.events == whole.value.events;
    } else {
      var judged := Judge(records[0], bound, prefix);
      var less := if judged.Passed? then maximum else maximum - 1;
      AllIsEnough(records[1..], records[0].id, if judged.Passed? then all else all - 1, |records| - 1, bound, prefix);
      TakeThenRest(records[1..], records[0].id, less, |records| - 1, bound, prefix);
      var page := Take(records[1..], records[0].id, less, bound, prefix).value;
      var rest := Later(records[1..], page.cursor);
      TakeEnd(records[1..], records[0].id, less, bound, prefix);
      assert Later(records, page.cursor) == rest;
      AllIsEnough(rest, page.cursor, |records| - 1, all, bound, prefix);
      if judged.Accepted? {
        PrependOne([], judged.event, Prepend(page.events, Take(rest, page.cursor, all, bound, prefix)));
        PrependAll(judged.event, page.events, Take(rest, page.cursor, all, bound, prefix));
      }
    }
  }

  lemma PrependAll(event: ImportedEvent, events: seq<ImportedEvent>, rest: Option<Page>)
    ensures Prepend([event], Prepend(events, rest)) == Prepend([event] + events, rest)
  {
    if rest.Some? {
      assert [event] + (events + rest.value.events) == [event] + events + rest.value.events;
    }
  }

  /** Any maximum of at least the number of records reads them all. */
  lemma {:induction false} AllIsEnough(records: seq<HistoryRecord>, cursor: int, m: nat, n: nat, bound: NotBefore,
                                       prefix: Option<seq<string>>)
    requires m >= |records| && n >= |records|
    ensures Take(records, cursor, m, bound, prefix) == Take(records, cursor, n, bound, prefix)
  {
    if records != [] {
      if Judge(records[0], bound, prefix).Passed? {
        AllIsEnough(records[1..], records[0].id, m, n, bound, prefix);
      } else {
        AllIsEnough(records[1..], records[0].id, m - 1, n - 1, bound, prefix);
      }
    }
  }

  /** Whenever one unbounded call succeeds, paging with any positive maximum reads the same
      events and ends at the same cursor. */
  lemma {:induction false} PagedEqualsUnpaged(history: seq<HistoryRecord>, cursor: int, maximum: int, all: int,
                                              bound: NotBefore, prefix: Option<seq<string>>)
    requires HistoryOk(history) && maximum > 0 && all > |history|
    requires ImportPage(history, cursor, all, bound, prefix).Some?
    ensures Pages(history, cursor, maximum, bound, prefix) == ImportPage(history, cursor, all, bound, prefix)
    decreases |Later(SortById(history), cursor)|
  {
    hide Judge, Later, Increasing, SortById, DistinctIds;
    var sorted := SortById(history);
    var later := Later(sorted, cursor);
    LaterIncreasing(history, cursor);
    LaterShorter(sorted, cursor);
    TakeThenRest(later, cursor, maximum, all, bound, prefix);
    var page := Take(later, cursor, maximum, bound, prefix).value;
    TakeEnd(later, cursor, maximum, bound, prefix);
    if page.cursor > cursor {
      hide Take;
      LaterTwice(sorted, cursor, page.cursor);
      PageShrinks(history, cursor, maximum, bound, prefix);
      PagedEqualsUnpaged(history, page.cursor, maximum, all, bound, prefix);
    }
  }

  lemma {:induction false} LaterShorter(records: seq<HistoryRecord>, cursor: int)
    ensures |Later(records, cursor)| <= |records|
  {
    if records != [] {
      LaterShorter(records[1..], cursor);
    }
  }

  /** Events come in strictly increasing id order, so each exactly once, and all beyond the cursor. */
  lemma {:induction false} EventsIncrease(records: seq<HistoryRecord>, cursor: int, maximum: nat, bound: NotBefore,
                                          prefix: Option<seq<string>>)
    requires Increasing(records, cursor) && Take(records, cursor, maximum, bound, prefix).Some?
    ensures var page := Take(records, cursor, maximum, bound, prefix).value;
      && (forall i :: 0 <= i < |page.events| ==> cursor < page.events[i].historyId <= page.cursor)
      && (forall i, j :: 0 <= i < j < |page.events| ==> page.events[i].historyId < page.events[j].historyId)
  {
    if records != [] && maximum > 0 {
      var less := if Judge(records[0], bound, prefix).Passed? then maximum else maximum - 1;
      EventsIncrease(records[1..], records[0].id, less, bound, prefix);
      TakeEnd(records[1..], records[0].id, less, bound, prefix);
    }
  }

  /** Nothing importable is skipped: every accepted record up to the new cursor is in the page. */
  lemma {:induction false} PageMissesNothing(records: seq<HistoryRecord>, cursor: int, maximum: nat, bound: NotBefore,
                                             prefix: Option<seq<string>>, r: HistoryRecord)
    requires Increasing(records, cursor) && Take(records, cursor, maximum, bound, prefix).Some?
    requires r in records && r.id <= Take(records, cursor, maximum, bound, prefix).value.cursor
    ensures Judge(r, bound, prefix) != Untrustworthy
    ensures Judge(r, bound, prefix).Accepted? ==>
      Judge(r, bound, prefix).event in Take(records, cursor, maximum, bound, prefix).value.events
  {
    if records != [] && maximum > 0 {
      var judged := Judge(records[0], bound, prefix);
      var less := if judged.Passed? then maximum else maximum - 1;
      if r != records[0] {
        assert r in records[1..];
        PageMissesNothing(records[1..], records[0].id, less, bound, prefix, r);
      }
    }
  }

  // The runtime applies the bound only while it has no cursor, so only to the first page.

  /** A record that only the bound kept out. */
  predicate SlipsThrough(r: HistoryRecord, timestamp: int, prefix: Option<seq<string>>) {
    r.date.Some? && r.date.value < timestamp && !Judge(r, Unbounded, prefix).Passed?
  }

  /** Dropping the bound after the first page changes what the later pages read exactly when
      an older record that is not itself passed over lies beyond that page. */
  lemma {:induction false} BoundDroppedIff(records: seq<HistoryRecord>, cursor: int, all: nat, timestamp: int,
                                           prefix: Option<seq<string>>)
    requires all >= |records| && Take(records, cursor, all, From(timestamp), prefix).Some?
    ensures var bounded := Take(records, cursor, all, From(timestamp), prefix);
      var free := Take(records, cursor, all, Unbounded, prefix);
      && (free.Some? ==> |free.value.events| >= |bounded.value.events|)
      && (free == bounded <==> forall r :: r in records ==> !SlipsThrough(r, timestamp, prefix))
  {
    if records != [] {
      var head := records[0];
      var less := if Judge(head, From(timestamp), prefix).Passed? then all else all - 1;
      AllIsEnough(records[1..], head.id, less, all, From(timestamp), prefix);
      AllIsEnough(records[1..], head.id, all - 1, all, Unbounded, prefix);
      BoundDroppedIff(records[1..], head.id, all, timestamp, prefix);
      assert forall r :: r in records <==> r == head || r in records[1..];
      assert (forall r :: r in records ==> !SlipsThrough(r, timestamp, prefix))
             <==> (&& !SlipsThrough(head, timestamp, prefix)
                   && forall r :: r in records[1..] ==> !SlipsThrough(r, timestamp, prefix));
      if SlipsThrough(head, timestamp, prefix) {
        assert Judge(head, From(timestamp), prefix).Passed?;
      } else if Judge(head, From(timestamp), prefix).Accepted? {
        assert Judge(head, Unbounded, prefix) == Judge(head, From(timestamp), prefix);
        var event := Judge(head, From(timestamp), prefix).event;
        PrependInjective(event, Take(records[1..], head.id, all, From(timestamp), prefix),
                         Take(records[1..], head.id, all, Unbounded, prefix));
      }
      hide CanonicalParts;
    }
  }

  lemma PrependInjective(event: ImportedEvent, a: Option<Page>, b: Option<Page>)
    ensures Prepend([event], a) == Prepend([event], b) ==> a == b
  {
    if a.Some? && b.Some? {
      assert ([event] + a.value.events)[1..] == a.value.events && ([event] + b.value.events)[1..] == b.value.events;
    }
  }

  const RecentImport := HistoryRecord(1, Imported, Some("7"), Some("a"), Some(100), Some("/s/x"), None)

  const OldImport := HistoryRecord(2, Imported, Some("8"), Some("b"), Some(10), Some("/s/y"), None)

  lemma ExampleJudgements()
    ensures Judge(RecentImport, From(50), Some(["s"])) == Accepted(ImportedEvent(1, "a", "7", ["x"]))
    ensures Judge(OldImport, From(50), Some(["s"])) == Passed
    ensures Judge(OldImport, Unbounded, Some(["s"])) == Accepted(ImportedEvent(2, "b", "8", ["y"]))
  {
    SplitShort('x');
    SplitShort('y');
    assert ["s", "x"][..1] == ["s"] && ["s", "x"][1..] == ["x"] && ["s", "y"][..1] == ["s"] && ["s", "y"][1..] == ["y"];
    assert "/s/" + "x" == "/s/x" && "/s/" + "y" == "/s/y";
  }

  /** One accepted record at the head of what is left. */
  lemma TakeOne(r: HistoryRecord, rest: seq<HistoryRecord>, cursor: int, maximum: nat, bound: NotBefore,
                prefix: Option<seq<string>>)
    requires maximum > 0
    ensures Take([r] + rest, cursor, maximum, bound, prefix)
            == match Judge(r, bound, prefix)
               case Untrustworthy => None
               case Passed => Take(rest, r.id, maximum, bound, prefix)
               case Accepted(event) => Prepend([event], Take(rest, r.id, maximum - 1, bound, prefix))
  {
    assert ([r] + rest)[1..] == rest;
    hide Judge;
  }

  /** An old import behind a recent one is read by the second page only. */
  lemma BoundDroppedExample()
    ensures SlipsThrough(OldImport, 50, Some(["s"]))
    ensures var first := ImportedEvent(1, "a", "7", ["x"]);
      && Take([RecentImport, OldImport], 0, 2, From(50), Some(["s"])) == Some(Page(2, [first]))
      && Take([RecentImport, OldImport], 0, 1, From(50), Some(["s"])) == Some(Page(1, [first]))
      && Take([OldImport], 1, 1, Unbounded, Some(["s"])) == Some(Page(2, [ImportedEvent(2, "b", "8", ["y"])]))
  {
    ExampleJudgements();
    hide Judge;
    var prefix := Some(["s"]);
    TakeOne(RecentImport, [OldImport], 0, 2, From(50), prefix);
    TakeOne(OldImport, [], 1, 1, From(50), prefix);
    TakeOne(RecentImport, [OldImport], 0, 1, From(50), prefix);
    TakeOne(OldImport, [], 1, 1, Unbounded, prefix);
    assert [RecentImport] + [OldImport] == [RecentImport, OldImport] && [OldImport] + [] == [OldImport];
    hide Take;
    assert Take([], 2, 1, From(50), prefix) == Some(Page(2, [])) by { TakeNothing(2, 1, From(50), prefix); }
    TakeNothing(2, 0, Unbounded, prefix);
    TakeFull([OldImport], 1, From(50), prefix);
    assert [ImportedEvent(1, "a", "7", ["x"])] + [] == [ImportedEvent(1, "a", "7", ["x"])];
    assert [ImportedEvent(2, "b", "8", ["y"])] + [] == [ImportedEvent(2, "b", "8", ["y"])];
  }

  lemma TakeNothing(cursor: int, maximum: nat, bound: NotBefore, prefix: Option<seq<string>>)
    ensures Take([], cursor, maximum, bound, prefix) == Some(Page(cursor, []))
  {
  }

  lemma TakeFull(records: seq<HistoryRecord>, cursor: int, bound: NotBefore, prefix: Option<seq<string>>)
    ensures Take(records, cursor, 0, bound, prefix) == Some(Page(cursor, []))
  {
  }

  lemma SplitShort(c: char)
    requires c != '/' && c != '.' && c != '\0'
    ensures CanonicalParts("/s/" + [c]) == Some(["s", [c]])
  {
    var path := "/s/" + [c];
    assert path[1..] == "s/" + [c] && path[1..][1..] == "/" + [c] && path[1..][1..][1..] == [c];
    assert Split("", '/') == [""] && [""][1..] == [];
    assert [c][1..] == "" && [c] + "" == [c];
    assert Split([c], '/') == [[c]];
    assert ("/" + [c])[1..] == [c];
    assert Split("/" + [c], '/') == ["", [c]];
    assert ("s/" + [c])[1..] == "/" + [c] && ["", [c]][1..] == [[c]] && "s" + "" == "s";
    assert Split("s/" + [c], '/') == ["s"] + [[c]];
    assert Split(path, '/') == ["", "s", [c]];
    assert path[0] == '/' && path[1] == 's' && path[2] == '/' && path[3] == c;
  }
}
