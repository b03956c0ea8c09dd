/**
  Paging through the raw event log (`admin_event_log_handler`,
  crates/cairn-app/src/bin_admin.rs): pages of positions `from` and up, with
  an exact `has_more`, followed from cursor to cursor.
 */
module AdminPaging {
  import opened Common
  import opened EventStore

  const MAX_LIMIT: nat := 500

  datatype Page = Page(events: seq<Stored>, hasMore: bool)

  function EventLogPage(log: seq<Stored>, from: nat, limit: nat): Page {
    var n := if limit < MAX_LIMIT then limit else MAX_LIMIT;
    var after := if from > 0 then Some(from - 1) else None;
    var events := ReadStream(log, after, n + 1);
    Page(if |events| > n then events[..n] else events, |events| > n)
  }

  /** The position that a reader who asks for `from` and up reads past. */
  function After(from: nat): nat {
    if from > 0 then from - 1 else 0
  }

  /** The events a reader that starts at `from` is owed. */
  function From(log: seq<Stored>, from: nat): seq<Stored> {
    Past(log, After(from))
  }

  /** `has_more` is exact: it says whether the page leaves owed events out;
      and the page is the beginning of what is owed. */
  lemma HasMoreIsExact(log: seq<Stored>, from: nat, limit: nat)
    ensures var p := EventLogPage(log, from, limit);
      && p.events <= From(log, from)
      && (p.hasMore <==> p.events != From(log, from))
      && (p.hasMore && limit >= 1 ==> p.events != [])
  {
  }

  /** `pages` were read one after the other, page i from log i: the reader goes
      on, just past the last position it saw, while `has_more` holds.  The log
      may have grown in between. */
  ghost predicate Followed(logs: seq<seq<Stored>>, pages: seq<Page>, from: nat, limit: nat)
    decreases |logs|
  {
    && |pages| == |logs| >= 1
    && Increasing(logs[0])
    && pages[0] == EventLogPage(logs[0], from, limit)
    && (|pages| > 1 ==>
          && logs[0] <= logs[1]
          && pages[0].hasMore && pages[0].events != []
          && Followed(logs[1..], pages[1..], Last(pages[0].events).position + 1, limit))
  }

  function Collected(pages: seq<Page>): seq<Stored> {
    if pages == [] then [] else pages[0].events + Collected(pages[1..])
  }

  /** A page is a stretch of the log that begins where the owed part begins. */
  lemma PageIsStretch(log: seq<Stored>, from: nat, limit: nat) returns (k: nat, m: nat)
    requires Increasing(log)
    ensures k <= m <= |log| && EventLogPage(log, from, limit).events == log[k..m]
    ensures k > 0 ==> log[k - 1].position <= After(from)
    ensures k < |log| ==> After(from) < log[k].position
  {
    k := PastCut(log, After(from));
    PageBegins(log, from, limit, k);
    SliceTake(log, k, EventLogPage(log, from, limit).events);
    m := k + |EventLogPage(log, from, limit).events|;
  }

  lemma PageBegins(log: seq<Stored>, from: nat, limit: nat, k: nat)
    requires k <= |log| && Past(log, After(from)) == log[k..]
    ensures EventLogPage(log, from, limit).events <= log[k..]
  {
    HasMoreIsExact(log, from, limit);
  }

  lemma StretchThenRest(log: seq<Stored>, after: nat, k: nat, m: nat)
    requires Increasing(log) && k < m <= |log|
    requires k > 0 ==> log[k - 1].position <= after
    requires after < log[k].position
    ensures Past(log, after) == log[k..m] + Past(log, log[m - 1].position)
  {
    PastFrom(log, after, k);
    assert Before(log, m - 1, m);
    PastFrom(log, log[m - 1].position, m);
    SliceSplits(log, k, m);
  }

  /** What the first page shows, and what is owed after it, make up what was
      owed before it, also once the log has grown. */
  lemma PageThenRest(log: seq<Stored>, later: seq<Stored>, from: nat, limit: nat)
    requires Increasing(log) && Increasing(later) && log <= later
    requires EventLogPage(log, from, limit).events != []
    ensures var p := EventLogPage(log, from, limit);
      From(later, from) == p.events + From(later, Last(p.events).position + 1)
  {
    var k, m := PageIsStretch(log, from, limit);
    var last := LastOfStretch(log, EventLogPage(log, from, limit).events, k, m);
    GrownStretch(log, later, After(from), k, m);
    assert After(last.position + 1) == last.position;
  }

  lemma LastOfStretch(log: seq<Stored>, p: seq<Stored>, k: nat, m: nat) returns (last: Stored)
    requires k <= m <= |log| && p == log[k..m] && p != []
    ensures k < m && last == Last(p) == log[m - 1]
  {
    last := Last(p);
  }

  /** The same stretch, read from a log that has grown. */
  lemma GrownStretch(log: seq<Stored>, later: seq<Stored>, after: nat, k: nat, m: nat)
    requires Increasing(later) && log <= later && k < m <= |log|
    requires k > 0 ==> log[k - 1].position <= after
    requires after < log[k].position
    ensures Past(later, after) == log[k..m] + Past(later, log[m - 1].position)
  {
    PrefixSlice(log, later, k, m);
    StretchThenRest(later, after, k, m);
  }

  /**
    Following the pages from any cursor, with any limit of at least 1, over a
    log with increasing positions (gaps allowed) that may grow meanwhile,
    yields a beginning of what the last log read owes the reader: nothing is
    skipped, repeated or reordered.  Once a page says there is no more, it is
    all of it.
   */
  lemma {:induction false} PagesTile(logs: seq<seq<Stored>>, pages: seq<Page>, from: nat, limit: nat)
    requires Followed(logs, pages, from, limit) && limit >= 1
    ensures logs[0] <= Last(logs) && Increasing(Last(logs))
    ensures Collected(pages) <= From(Last(logs), from)
    ensures !Last(pages).hasMore ==> Collected(pages) == From(Last(logs), from)
    decreases |logs|
  {
    var first := pages[0].events;
    if |pages| == 1 {
      assert Last(logs) == logs[0] && Last(pages) == pages[0];
      assert pages[1..] == [] && Collected(pages) == first + [];
      HasMoreIsExact(logs[0], from, limit);
    } else {
      var next := Last(first).position + 1;
      var log, rest := Last(logs), Collected(pages[1..]);
      assert Followed(logs[1..], pages[1..], next, limit);
      PagesTile(logs[1..], pages[1..], next, limit);
      assert Last(logs[1..]) == log && Last(pages[1..]) == Last(pages) && logs[1..][0] == logs[1];
      SamePrefixes(logs[0], logs[1], log);
      TilesJoin(logs[0], log, from, limit, rest);
    }
  }

  lemma SamePrefixes(a: seq<Stored>, b: seq<Stored>, c: seq<Stored>)
    requires a <= b <= c
    ensures a <= c
  {
  }

  /** The first page, and then what begins what is owed after it. */
  lemma TilesJoin(log: seq<Stored>, later: seq<Stored>, from: nat, limit: nat, rest: seq<Stored>)
    requires Increasing(log) && Increasing(later) && log <= later
    requires EventLogPage(log, from, limit).events != []
    requires rest <= From(later, Last(EventLogPage(log, from, limit).events).position + 1)
    ensures var first := EventLogPage(log, from, limit).events;
      && first + rest <= From(later, from)
      && (rest == From(later, Last(first).position + 1) ==> first + rest == From(later, from))
  {
    var first := EventLogPage(log, from, limit).events;
    PageThenRest(log, later, from, limit);
    PrefixPlus(first, rest, From(later, Last(first).position + 1));
  }

  function Copies<T>(x: T, n: nat): seq<T> {
    seq(n, i => x)
  }

  lemma FollowOn(log: seq<Stored>, from: nat, limit: nat, rest: seq<Page>)
    requires Increasing(log) && limit >= 1
    requires EventLogPage(log, from, limit).hasMore && EventLogPage(log, from, limit).events != []
    requires Followed(Copies(log, |rest|), rest, Last(EventLogPage(log, from, limit).events).position + 1, limit)
    ensures var pages := [EventLogPage(log, from, limit)] + rest;
      Followed(Copies(log, |pages|), pages, from, limit)
  {
    assert Copies(log, |rest| + 1)[1..] == Copies(log, |rest|);
    assert ([EventLogPage(log, from, limit)] + rest)[1..] == rest;
  }

  lemma OwedShrinks(log: seq<Stored>, from: nat, limit: nat)
    requires Increasing(log) && limit >= 1 && EventLogPage(log, from, limit).hasMore
    ensures var p := EventLogPage(log, from, limit);
      p.events != [] && |From(log, Last(p.events).position + 1)| < |From(log, from)|
  {
    HasMoreIsExact(log, from, limit);
    PageThenRest(log, log, from, limit);
  }

  /** On a log that does not grow the reader gets through: reading stops. */
  function FollowPages(log: seq<Stored>, from: nat, limit: nat): (pages: seq<Page>)
    requires Increasing(log) && limit >= 1
    ensures pages != [] && pages[0] == EventLogPage(log, from, limit)
    ensures !Last(pages).hasMore
    decreases |From(log, from)|
  {
    var p := EventLogPage(log, from, limit);
    if !p.hasMore then [p]
    else
      OwedShrinks(log, from, limit);
      [p] + FollowPages(log, Last(p.events).position + 1, limit)
  }

  lemma {:induction false} FollowPagesFollow(log: seq<Stored>, from: nat, limit: nat)
    requires Increasing(log) && limit >= 1
    ensures var pages := FollowPages(log, from, limit); Followed(Copies(log, |pages|), pages, from, limit)
    decreases |From(log, from)|
  {
    var p := EventLogPage(log, from, limit);
    if p.hasMore {
      OwedShrinks(log, from, limit);
      var rest := FollowPages(log, Last(p.events).position + 1, limit);
      FollowPagesFollow(log, Last(p.events).position + 1, limit);
      FollowOn(log, from, limit, rest);
      assert FollowPages(log, from, limit) == [p] + rest;
    }
  }

  lemma OwedMeans(log: seq<Stored>, from: nat)
    requires Increasing(log)
    ensures forall x :: x in From(log, from) <==> x in log && x.position >= from
  {
    var k := PastIsSuffix(log, After(from));
    forall x ensures x in From(log, from) <==> x in log && x.position >= from {
      if x in log {
        var i :| 0 <= i < |log| && log[i] == x;
        assert i >= k ==> log[k..][i - k] == x;
      }
    }
  }

  /** So reading a fixed log page by page returns the events from the cursor on. */
  lemma FollowedPagesReturnTheLog(log: seq<Stored>, from: nat, limit: nat)
    requires Increasing(log) && limit >= 1
    ensures Collected(FollowPages(log, from, limit)) == From(log, from)
    ensures forall x :: x in From(log, from) <==> x in log && x.position >= from
  {
    var pages := FollowPages(log, from, limit);
    FollowPagesFollow(log, from, limit);
    PagesTile(Copies(log, |pages|), pages, from, limit);
    OwedMeans(log, from);
  }

  /** A page is as long as asked for, but for the cap of 500 and the end of
      what is owed. */
  lemma PageLength(log: seq<Stored>, from: nat, limit: nat)
    ensures |EventLogPage(log, from, limit).events| == Min(Min(limit, 500), |From(log, from)|)
  {
  }
}
