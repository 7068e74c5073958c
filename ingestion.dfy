/**
 * What the ingestion workflow (app/workflows/indexfeeds.ts) does to the
 * entries table, as functions of the table: the insert-if-absent step of
 * `processItem`, the per-format dispatch of `processFeedItems`, and the feed
 * loop of `indexFeeds`. The fetch-and-parse step is a function parameter.
 */
module Ingestion {
  import opened Wrappers
  import opened Schema
  import opened ParsedFeeds

  /** Some stored entry, of any feed, carries this guid. */
  predicate HasGuid(rows: seq<Entry>, guid: string) {
    exists i | 0 <= i < |rows| :: rows[i].guid == guid
  }

  /** No two stored entries share a guid. */
  ghost predicate GuidsUnique(rows: seq<Entry>) {
    forall i, j :: 0 <= i < j < |rows| ==> rows[i].guid != rows[j].guid
  }

  /** The invariant of the entries table with respect to a feeds table. */
  ghost predicate StoreInvariant(feeds: seq<Feed>, t: EntryTable) {
    EntryTableValid(t) && GuidsUnique(t.rows) && References(feeds, t.rows)
  }

  lemma HasGuidAppend(rows: seq<Entry>, e: Entry)
    ensures forall g :: HasGuid(rows + [e], g) <==> HasGuid(rows, g) || g == e.guid
  {
    forall g ensures HasGuid(rows + [e], g) <==> HasGuid(rows, g) || g == e.guid {
      if HasGuid(rows, g) {
        var i :| 0 <= i < |rows| && rows[i].guid == g;
        assert (rows + [e])[i] == rows[i];
      }
      if g == e.guid {
        assert (rows + [e])[|rows|] == e;
      }
      if HasGuid(rows + [e], g) {
        var i :| 0 <= i < |rows + [e]| && (rows + [e])[i].guid == g;
        if i < |rows| { assert rows[i] == (rows + [e])[i]; }
      }
    }
  }

  /** The row processItem inserts for a normalised item: content is always set. */
  function EntryFor(id: nat, feedId: nat, n: Normalized, now: int): Entry {
    NewEntry(id, feedId, n.guid, n.title, n.link, Some(n.content), now)
  }

  /**
   * The lookup by guid and the conditional insert: a guid already stored, by
   * any feed, leaves the table as it is; otherwise exactly one row is appended.
   */
  function Insert(t: EntryTable, feedId: nat, n: Normalized, now: int): (r: EntryTable)
    ensures HasGuid(t.rows, n.guid) ==> r == t
    ensures !HasGuid(t.rows, n.guid) ==>
              r.rows == t.rows + [EntryFor(t.nextId, feedId, n, now)] && r.nextId == t.nextId + 1
    ensures forall g :: HasGuid(r.rows, g) <==> HasGuid(t.rows, g) || g == n.guid
  {
    if HasGuid(t.rows, n.guid) then t
    else
      HasGuidAppend(t.rows, EntryFor(t.nextId, feedId, n, now));
      EntryTable(t.rows + [EntryFor(t.nextId, feedId, n, now)], t.nextId + 1)
  }

  /** processItem: normalise under the format tag, then insert if absent; an unknown tag does nothing. */
  function ProcessItem(t: EntryTable, item: Item, feedId: nat, format: string, now: int): (r: EntryTable)
    ensures FormatTag(format).None? ==> r == t
    ensures t.rows <= r.rows && |r.rows| <= |t.rows| + 1
  {
    match Normalize(item, format)
    case None => t
    case Some(n) => Insert(t, feedId, n, now)
  }

  /** The guid an item normalises to under a format tag, as a set (empty for an unknown tag). */
  function GuidOf(item: Item, format: string): set<string> {
    match Normalize(item, format)
    case None => {}
    case Some(n) => {n.guid}
  }

  /** The guids of a list of items. */
  function ItemGuids(items: seq<Item>, format: string): set<string>
    decreases |items|
  {
    if items == [] then {}
    else ItemGuids(items[..|items| - 1], format) + GuidOf(items[|items| - 1], format)
  }

  /** The loop over a feed's items, in document order. */
  function ProcessItems(t: EntryTable, items: seq<Item>, feedId: nat, format: string, now: int): (r: EntryTable)
    decreases |items|
    ensures t.rows <= r.rows
    ensures r.nextId == t.nextId + (|r.rows| - |t.rows|)
  {
    if items == [] then t
    else ProcessItem(ProcessItems(t, items[..|items| - 1], feedId, format, now), items[|items| - 1], feedId, format, now)
  }

  /** processFeedItems' dispatch: which list of the document is walked, under which tag. */
  function FeedItems(p: ParsedFeed): seq<Item> {
    if p.feed.None? then []
    else if p.format == "rss" || p.format == "json" then p.feed.value.items.GetOr([])
    else if p.format == "atom" then p.feed.value.entries.GetOr([])
    else []
  }

  /** processFeedItems. */
  function ProcessFeed(t: EntryTable, p: ParsedFeed, feedId: nat, now: int): (r: EntryTable)
    ensures p.feed.None? || FormatTag(p.format).None? ==> r == t
  {
    ProcessItems(t, FeedItems(p), feedId, p.format, now)
  }

  /** The guids a parsed feed contributes. */
  function FeedGuids(p: ParsedFeed): set<string> {
    ItemGuids(FeedItems(p), p.format)
  }

  /** indexFeeds: the feeds in list order; a feed whose fetch or parse failed is skipped. */
  function IndexFeeds(t: EntryTable, feeds: seq<Feed>, fetch: Feed -> Option<ParsedFeed>, now: int): (r: EntryTable)
    decreases |feeds|
    ensures t.rows <= r.rows
    ensures r.nextId == t.nextId + (|r.rows| - |t.rows|)
  {
    if feeds == [] then t
    else
      var before := IndexFeeds(t, feeds[..|feeds| - 1], fetch, now);
      var f := feeds[|feeds| - 1];
      match fetch(f)
      case None => before
      case Some(p) => ProcessFeed(before, p, f.id, now)
  }

  /** The guids a whole pass contributes: those of every feed that fetched and parsed. */
  function AllGuids(feeds: seq<Feed>, fetch: Feed -> Option<ParsedFeed>): set<string>
    decreases |feeds|
  {
    if feeds == [] then {}
    else
      AllGuids(feeds[..|feeds| - 1], fetch)
      + match fetch(feeds[|feeds| - 1]) case None => {} case Some(p) => FeedGuids(p)
  }

  // ---------------------------------------------------------------------------
  // The dispatch of processFeedItems

  /**
   * RSS and JSON Feed documents walk `items`, Atom documents walk `entries`,
   * each under its own tag; a missing body, a missing list or any other tag
   * processes nothing.
   */
  lemma ProcessFeedDispatch(t: EntryTable, p: ParsedFeed, feedId: nat, now: int)
    ensures p.feed.Some? && (p.format == "rss" || p.format == "json") ==>
              ProcessFeed(t, p, feedId, now) == ProcessItems(t, p.feed.value.items.GetOr([]), feedId, p.format, now)
    ensures p.feed.Some? && p.format == "atom" ==>
              ProcessFeed(t, p, feedId, now) == ProcessItems(t, p.feed.value.entries.GetOr([]), feedId, "atom", now)
    ensures p.feed.Some? && (p.format == "rss" || p.format == "json") && p.feed.value.items.None? ==>
              ProcessFeed(t, p, feedId, now) == t
    ensures p.feed.Some? && p.format == "atom" && p.feed.value.entries.None? ==>
              ProcessFeed(t, p, feedId, now) == t
    ensures p.feed.None? || FormatTag(p.format).None? ==> ProcessFeed(t, p, feedId, now) == t
  {
  }

  // ---------------------------------------------------------------------------
  // Which guids the table holds after processing

  /** After processing a list of items the table holds exactly the old guids and the items' guids. */
  lemma {:induction false} ProcessItemsGuids(t: EntryTable, items: seq<Item>, feedId: nat, format: string, now: int)
    ensures forall g :: HasGuid(ProcessItems(t, items, feedId, format, now).rows, g)
                        <==> HasGuid(t.rows, g) || g in ItemGuids(items, format)
    decreases |items|
  {
    if items != [] {
      ProcessItemsGuids(t, items[..|items| - 1], feedId, format, now);
    }
  }

  /** When every guid of the items is already stored, processing them changes nothing. */
  lemma {:induction false} ProcessItemsNoop(t: EntryTable, items: seq<Item>, feedId: nat, format: string, now: int)
    requires forall g | g in ItemGuids(items, format) :: HasGuid(t.rows, g)
    ensures ProcessItems(t, items, feedId, format, now) == t
    decreases |items|
  {
    if items != [] {
      ProcessItemsNoop(t, items[..|items| - 1], feedId, format, now);
    }
  }

  /**
   * Idempotence of a feed's items: processing them again, with any feed id
   * and at any later time, adds nothing to what processing them once left.
   */
  lemma ProcessItemsIdempotent(t: EntryTable, items: seq<Item>, feedId: nat, format: string,
                               now: int, feedId': nat, now': int)
    ensures var once := ProcessItems(t, items, feedId, format, now);
            ProcessItems(once, items, feedId', format, now') == once
  {
    var once := ProcessItems(t, items, feedId, format, now);
    ProcessItemsGuids(t, items, feedId, format, now);
    ProcessItemsNoop(once, items, feedId', format, now');
  }

  /** Processing a + b is processing a, then b: items are handled one after another. */
  lemma {:induction false} ProcessItemsAppend(t: EntryTable, a: seq<Item>, b: seq<Item>, feedId: nat,
                                              format: string, now: int)
    ensures ProcessItems(t, a + b, feedId, format, now)
            == ProcessItems(ProcessItems(t, a, feedId, format, now), b, feedId, format, now)
    decreases |b|
  {
    if b == [] {
      assert a + b == a;
    } else {
      var b' := b[..|b| - 1];
      assert (a + b)[..|a + b| - 1] == a + b';
      assert (a + b)[|a + b| - 1] == b[|b| - 1];
      ProcessItemsAppend(t, a, b', feedId, format, now);
    }
  }

  /**
   * Retrying a feed's items after a run that stopped after the first k of
   * them does the same as carrying on from item k: the items already stored
   * are skipped, at any later time.
   */
  lemma ProcessItemsResume(t: EntryTable, items: seq<Item>, k: nat, feedId: nat, format: string,
                           now: int, now': int)
    requires k <= |items|
    ensures var partial := ProcessItems(t, items[..k], feedId, format, now);
            ProcessItems(partial, items, feedId, format, now')
            == ProcessItems(partial, items[k..], feedId, format, now')
  {
    var partial := ProcessItems(t, items[..k], feedId, format, now);
    assert items == items[..k] + items[k..];
    ProcessItemsAppend(partial, items[..k], items[k..], feedId, format, now');
    ProcessItemsGuids(t, items[..k], feedId, format, now);
    ProcessItemsNoop(partial, items[..k], feedId, format, now');
  }

  /**
   * A row added by processing at position k: it belongs to the given feed, is
   * numbered by the sequence, carries the column defaults, and its guid comes
   * from the items and was not stored before.
   */
  ghost predicate AddedRow(t: EntryTable, e: Entry, k: int, feedId: nat, guids: set<string>, now: int) {
    && e.feedId == feedId
    && e.id == t.nextId + (k - |t.rows|)
    && e.upvotesCount == 0 && e.createdAt == now
    && e.author.None? && e.publishedAt.None? && e.content.Some?
    && e.guid in guids
    && !HasGuid(t.rows, e.guid)
  }

  /** Every row processing adds is a fresh row of this feed for a guid not stored before. */
  lemma {:induction false} ProcessItemsNewRows(t: EntryTable, items: seq<Item>, feedId: nat, format: string, now: int)
    ensures forall k :: |t.rows| <= k < |ProcessItems(t, items, feedId, format, now).rows| ==>
              AddedRow(t, ProcessItems(t, items, feedId, format, now).rows[k], k, feedId, ItemGuids(items, format), now)
    decreases |items|
  {
    if items != [] {
      var init := items[..|items| - 1];
      var last := items[|items| - 1];
      var mid := ProcessItems(t, init, feedId, format, now);
      var r := ProcessItems(t, items, feedId, format, now);
      ProcessItemsNewRows(t, init, feedId, format, now);
      ProcessItemsGuids(t, init, feedId, format, now);
      assert r == ProcessItem(mid, last, feedId, format, now);
      var guids := ItemGuids(items, format);
      assert guids == ItemGuids(init, format) + GuidOf(last, format);
      forall k | |t.rows| <= k < |r.rows|
        ensures AddedRow(t, r.rows[k], k, feedId, guids, now)
      {
        if k < |mid.rows| {
          assert r.rows[k] == mid.rows[k];
          assert AddedRow(t, mid.rows[k], k, feedId, ItemGuids(init, format), now);
        } else {
          var n := Normalize(last, format).value;
          assert !HasGuid(mid.rows, n.guid);
          assert r.rows[k] == EntryFor(mid.nextId, feedId, n, now);
          assert n.guid in guids;
        }
      }
    }
  }

  /** Inserting keeps every column constraint, the guid uniqueness and the foreign key. */
  lemma InsertKeepsInvariant(feeds: seq<Feed>, t: EntryTable, feedId: nat, n: Normalized, now: int)
    requires StoreInvariant(feeds, t) && HasFeedId(feeds, feedId)
    ensures StoreInvariant(feeds, Insert(t, feedId, n, now))
  {
  }

  /** Processing a feed's items keeps the invariant when the feed exists. */
  lemma {:induction false} ProcessItemsKeepInvariant(feeds: seq<Feed>, t: EntryTable, items: seq<Item>,
                                                     feedId: nat, format: string, now: int)
    requires StoreInvariant(feeds, t) && HasFeedId(feeds, feedId)
    ensures StoreInvariant(feeds, ProcessItems(t, items, feedId, format, now))
    decreases |items|
  {
    if items != [] {
      var mid := ProcessItems(t, items[..|items| - 1], feedId, format, now);
      ProcessItemsKeepInvariant(feeds, t, items[..|items| - 1], feedId, format, now);
      match Normalize(items[|items| - 1], format)
      case None =>
      case Some(n) => InsertKeepsInvariant(feeds, mid, feedId, n, now);
    }
  }

  // ---------------------------------------------------------------------------
  // The feed loop of indexFeeds

  /** A pass over a + b is a pass over a followed by a pass over b: feeds run in list order. */
  lemma {:induction false} IndexFeedsAppend(t: EntryTable, a: seq<Feed>, b: seq<Feed>,
                                            fetch: Feed -> Option<ParsedFeed>, now: int)
    ensures IndexFeeds(t, a + b, fetch, now) == IndexFeeds(IndexFeeds(t, a, fetch, now), b, fetch, now)
    decreases |b|
  {
    if b == [] {
      assert a + b == a;
    } else {
      var b' := b[..|b| - 1];
      assert (a + b)[..|a + b| - 1] == a + b';
      assert (a + b)[|a + b| - 1] == b[|b| - 1];
      IndexFeedsAppend(t, a, b', fetch, now);
    }
  }

  /** A feed whose fetch or parse fails contributes nothing: the pass is as if it were not listed. */
  lemma SkipsFailedFeed(t: EntryTable, a: seq<Feed>, f: Feed, b: seq<Feed>,
                        fetch: Feed -> Option<ParsedFeed>, now: int)
    requires fetch(f).None?
    ensures IndexFeeds(t, a + [f] + b, fetch, now) == IndexFeeds(t, a + b, fetch, now)
  {
    IndexFeedsAppend(t, a + [f], b, fetch, now);
    IndexFeedsAppend(t, a, b, fetch, now);
    assert (a + [f])[..|a + [f]| - 1] == a;
  }

  /**
   * Retrying a pass after one that stopped after the first k feeds does the
   * same as carrying on from feed k, at any later time.
   */
  lemma IndexFeedsResume(t: EntryTable, feeds: seq<Feed>, k: nat, fetch: Feed -> Option<ParsedFeed>,
                         now: int, now': int)
    requires k <= |feeds|
    ensures var partial := IndexFeeds(t, feeds[..k], fetch, now);
            IndexFeeds(partial, feeds, fetch, now') == IndexFeeds(partial, feeds[k..], fetch, now')
  {
    var partial := IndexFeeds(t, feeds[..k], fetch, now);
    assert feeds == feeds[..k] + feeds[k..];
    IndexFeedsAppend(partial, feeds[..k], feeds[k..], fetch, now');
    IndexFeedsGuids(t, feeds[..k], fetch, now);
    IndexFeedsNoop(partial, feeds[..k], fetch, now');
  }

  /** After a pass the table holds exactly the old guids and those of every feed that parsed. */
  lemma {:induction false} IndexFeedsGuids(t: EntryTable, feeds: seq<Feed>, fetch: Feed -> Option<ParsedFeed>, now: int)
    ensures forall g :: HasGuid(IndexFeeds(t, feeds, fetch, now).rows, g)
                        <==> HasGuid(t.rows, g) || g in AllGuids(feeds, fetch)
    decreases |feeds|
  {
    if feeds != [] {
      var init := feeds[..|feeds| - 1];
      IndexFeedsGuids(t, init, fetch, now);
      var f := feeds[|feeds| - 1];
      match fetch(f)
      case None =>
      case Some(p) =>
        ProcessItemsGuids(IndexFeeds(t, init, fetch, now), FeedItems(p), f.id, p.format, now);
    }
  }

  /** When every guid a pass would bring is already stored, the pass changes nothing. */
  lemma {:induction false} IndexFeedsNoop(t: EntryTable, feeds: seq<Feed>, fetch: Feed -> Option<ParsedFeed>, now: int)
    requires forall g | g in AllGuids(feeds, fetch) :: HasGuid(t.rows, g)
    ensures IndexFeeds(t, feeds, fetch, now) == t
    decreases |feeds|
  {
    if feeds != [] {
      var init := feeds[..|feeds| - 1];
      IndexFeedsNoop(t, init, fetch, now);
      var f := feeds[|feeds| - 1];
      match fetch(f)
      case None =>
      case Some(p) => ProcessItemsNoop(t, FeedItems(p), f.id, p.format, now);
    }
  }

  /**
   * Idempotence of ingestion: a second pass over the same feeds, whose fetch
   * returns the same documents, inserts nothing, whenever it runs.
   */
  lemma IndexFeedsIdempotent(t: EntryTable, feeds: seq<Feed>, fetch: Feed -> Option<ParsedFeed>, now: int, now': int)
    ensures var once := IndexFeeds(t, feeds, fetch, now);
            IndexFeeds(once, feeds, fetch, now') == once
  {
    var once := IndexFeeds(t, feeds, fetch, now);
    IndexFeedsGuids(t, feeds, fetch, now);
    IndexFeedsNoop(once, feeds, fetch, now');
  }

  /** A feed of the list that fetched and parsed contributes all its guids to the pass. */
  lemma {:induction false} AllGuidsOfMember(feeds: seq<Feed>, fetch: Feed -> Option<ParsedFeed>, f: Feed)
    requires f in feeds && fetch(f).Some?
    ensures FeedGuids(fetch(f).value) <= AllGuids(feeds, fetch)
    decreases |feeds|
  {
    if f != feeds[|feeds| - 1] {
      assert f in feeds[..|feeds| - 1] by {
        var i :| 0 <= i < |feeds| && feeds[i] == f;
        assert feeds[..|feeds| - 1][i] == f;
      }
      AllGuidsOfMember(feeds[..|feeds| - 1], fetch, f);
    }
  }

  /** A list drawn from the feeds of another brings no guid the other does not. */
  lemma {:induction false} AllGuidsSub(feeds: seq<Feed>, others: seq<Feed>, fetch: Feed -> Option<ParsedFeed>)
    requires forall f | f in others :: f in feeds
    ensures AllGuids(others, fetch) <= AllGuids(feeds, fetch)
    decreases |others|
  {
    if others != [] {
      var init := others[..|others| - 1];
      assert forall f | f in init :: f in others by {
        forall f | f in init
          ensures f in others
        {
          var i :| 0 <= i < |init| && init[i] == f;
          assert others[i] == f;
        }
      }
      AllGuidsSub(feeds, init, fetch);
      var f := others[|others| - 1];
      if fetch(f).Some? {
        AllGuidsOfMember(feeds, fetch, f);
      }
    }
  }

  /**
   * getFeeds has no ORDER BY, so a second pass may list the feeds in another
   * order, or only some of them: as long as the documents are unchanged, it
   * still inserts nothing.
   */
  lemma IndexFeedsIdempotentAnyOrder(t: EntryTable, feeds: seq<Feed>, again: seq<Feed>,
                                     fetch: Feed -> Option<ParsedFeed>, now: int, now': int)
    requires forall f | f in again :: f in feeds
    ensures var once := IndexFeeds(t, feeds, fetch, now);
            IndexFeeds(once, again, fetch, now') == once
  {
    var once := IndexFeeds(t, feeds, fetch, now);
    IndexFeedsGuids(t, feeds, fetch, now);
    AllGuidsSub(feeds, again, fetch);
    IndexFeedsNoop(once, again, fetch, now');
  }

  /**
   * A pass over feeds that are all registered keeps the entries table valid,
   * its guids unique and every entry pointing at a registered feed.
   */
  lemma {:induction false} IndexFeedsKeepInvariant(registered: seq<Feed>, t: EntryTable, feeds: seq<Feed>,
                                                   fetch: Feed -> Option<ParsedFeed>, now: int)
    requires StoreInvariant(registered, t)
    requires forall i | 0 <= i < |feeds| :: HasFeedId(registered, feeds[i].id)
    ensures StoreInvariant(registered, IndexFeeds(t, feeds, fetch, now))
    decreases |feeds|
  {
    if feeds != [] {
      var init := feeds[..|feeds| - 1];
      IndexFeedsKeepInvariant(registered, t, init, fetch, now);
      var f := feeds[|feeds| - 1];
      assert HasFeedId(registered, f.id);
      match fetch(f)
      case None =>
      case Some(p) =>
        ProcessItemsKeepInvariant(registered, IndexFeeds(t, init, fetch, now), FeedItems(p), f.id, p.format, now);
    }
  }

  /** Global dedup: a stored guid shadows the same guid from any other feed. */
  lemma GuidShadowsAcrossFeeds(t: EntryTable, item: Item, feedId: nat, format: string, now: int)
    requires Normalize(item, format).Some? && HasGuid(t.rows, Normalize(item, format).value.guid)
    ensures ProcessItem(t, item, feedId, format, now) == t
  {
  }

  /**
   * Items without an identifier all normalise to the guid "": once one of
   * them is stored, every later one, from any feed and in any of the three
   * formats, is dropped.
   */
  lemma GuidlessItemsCollapse(t: EntryTable, a: Item, b: Item, feedA: nat, feedB: nat,
                              formatA: string, formatB: string, now: int)
    requires Normalize(a, formatA).Some? && Normalize(a, formatA).value.guid == ""
    requires Normalize(b, formatB).Some? && Normalize(b, formatB).value.guid == ""
    ensures var r := ProcessItem(ProcessItem(t, a, feedA, formatA, now), b, feedB, formatB, now);
            r == ProcessItem(t, a, feedA, formatA, now) && |r.rows| <= |t.rows| + 1
  {
  }

  /** The RSS item of the scenario: guid "g1", title "T", link "https://x", content {encoded: "C"}. */
  function ScenarioItem(): Item {
    Item(None, Some(Guid(Some("g1"), None)), Some("T"), Some("https://x"), None, Object(Some("C")), None, None)
  }

  /**
   * A feed whose document holds that one RSS item, ingested twice: exactly
   * one entry exists afterwards, with the item's fields.
   */
  lemma RssItemIngestedTwice(feed: Feed, now: int, later: int)
    ensures var fetch := (f: Feed) => Some(ParsedFeed("rss", Some(FeedBody(Some([ScenarioItem()]), None))));
            var once := IndexFeeds(EntryTable([], 1), [feed], fetch, now);
            IndexFeeds(once, [feed], fetch, later).rows
              == [Entry(1, feed.id, "g1", "T", "https://x", Some("C"), None, None, now, 0)]
  {
  }
}
