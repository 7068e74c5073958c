/**
 * The ingestion workflow as it runs: the `entries` table updated in place by
 * processItem's lookup-then-insert, the loops of processFeedItems and the
 * feed loop of indexFeeds. Each method is proved to leave the table as the
 * matching function of Ingestion says.
 */
module Workflow {
  import opened Wrappers
  import opened Schema
  import opened ParsedFeeds
  import Ingestion
  import FeedInfo

  /** The `entries` table. */
  class EntryStore {
    var rows: seq<Entry>
    var nextId: nat

    function Table(): EntryTable
      reads this
    {
      EntryTable(rows, nextId)
    }

    constructor ()
      ensures Table() == EntryTable([], 1)
    {
      rows := [];
      nextId := 1;
    }

    /** findFirst where guid = `guid`: some stored entry with that guid, across all feeds. */
    method FindByGuid(guid: string) returns (found: Option<Entry>)
      ensures found.Some? <==> Ingestion.HasGuid(rows, guid)
      ensures found.Some? ==> found.value in rows && found.value.guid == guid
    {
      var i := 0;
      while i < |rows|
        invariant 0 <= i <= |rows|
        invariant forall k :: 0 <= k < i ==> rows[k].guid != guid
      {
        if rows[i].guid == guid {
          return Some(rows[i]);
        }
        i := i + 1;
      }
      return None;
    }

    /** processItem: normalise; for a known format, insert unless the guid is already stored. */
    method ProcessItem(item: Item, feedId: nat, format: string, now: int)
      modifies this
      ensures Table() == Ingestion.ProcessItem(old(Table()), item, feedId, format, now)
    {
      var normalized := Normalize(item, format);
      if normalized.None? {
        return;
      }
      var n := normalized.value;
      var existing := FindByGuid(n.guid);
      if existing.None? {
        rows := rows + [Ingestion.EntryFor(nextId, feedId, n, now)];
        nextId := nextId + 1;
      }
    }

    /** One `for ... of` loop of processFeedItems: the items in document order. */
    method ProcessAll(items: seq<Item>, feedId: nat, format: string, now: int)
      modifies this
      ensures Table() == Ingestion.ProcessItems(old(Table()), items, feedId, format, now)
    {
      for i := 0 to |items|
        invariant Table() == Ingestion.ProcessItems(old(Table()), items[..i], feedId, format, now)
      {
        ProcessItem(items[i], feedId, format, now);
        assert items[..i + 1][..i] == items[..i];
      }
      assert items[..|items|] == items;
    }

    /** processFeedItems: RSS and JSON Feed walk `items`, Atom walks `entries`, other tags nothing. */
    method ProcessFeedItems(parsed: ParsedFeed, feedId: nat, now: int)
      modifies this
      ensures Table() == Ingestion.ProcessFeed(old(Table()), parsed, feedId, now)
    {
      if parsed.feed.None? {
        return;
      }
      var body := parsed.feed.value;
      if parsed.format == "rss" {
        ProcessAll(body.items.GetOr([]), feedId, "rss", now);
      } else if parsed.format == "json" {
        ProcessAll(body.items.GetOr([]), feedId, "json", now);
      } else if parsed.format == "atom" {
        ProcessAll(body.entries.GetOr([]), feedId, "atom", now);
      }
    }

    /**
     * indexFeeds: every registered feed in table order; `fetch` stands for
     * fetching the feed's url and parsing the text, None when either fails.
     */
    method IndexFeeds(registry: FeedInfo.FeedStore, fetch: Feed -> Option<ParsedFeed>, now: int)
      modifies this
      ensures Table() == Ingestion.IndexFeeds(old(Table()), registry.rows, fetch, now)
    {
      var feedsList := registry.rows;
      for i := 0 to |feedsList|
        invariant Table() == Ingestion.IndexFeeds(old(Table()), feedsList[..i], fetch, now)
      {
        var feed := feedsList[i];
        var parsed := fetch(feed);
        if parsed.Some? {
          ProcessFeedItems(parsed.value, feed.id, now);
        }
        assert feedsList[..i + 1][..i] == feedsList[..i];
      }
      assert feedsList[..|feedsList|] == feedsList;
    }
  }

  /**
   * Running indexFeeds twice over unchanged feed documents leaves the table as
   * one run left it, and each run keeps the table's invariant.
   */
  method IngestTwice(registry: FeedInfo.FeedStore, store: EntryStore, fetch: Feed -> Option<ParsedFeed>,
                     now: int, later: int)
    requires Ingestion.StoreInvariant(registry.rows, store.Table())
    modifies store
    ensures store.Table() == Ingestion.IndexFeeds(old(store.Table()), registry.rows, fetch, now)
    ensures Ingestion.StoreInvariant(registry.rows, store.Table())
  {
    store.IndexFeeds(registry, fetch, now);
    ghost var once := store.Table();
    store.IndexFeeds(registry, fetch, later);
    Ingestion.IndexFeedsIdempotent(old(store.Table()), registry.rows, fetch, now, later);
    forall i | 0 <= i < |registry.rows| ensures HasFeedId(registry.rows, registry.rows[i].id) {
    }
    Ingestion.IndexFeedsKeepInvariant(registry.rows, old(store.Table()), registry.rows, fetch, now);
  }
}
