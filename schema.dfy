/**
 * The record shapes of the `feeds` and `entries` tables (lib/schema.ts): the
 * `feed_format` enum, column nullability, column defaults, the varchar(255)
 * limits, the unique `url`, serial primary keys, and the foreign key from
 * entries to feeds with its ON DELETE CASCADE.
 */
module Schema {
  import opened Wrappers

  /** The `feed_format` enum has exactly these three labels. */
  datatype FeedFormat = Rss | Atom | Json

  /** The label stored for each enum value. */
  function FormatName(f: FeedFormat): string {
    match f
    case Rss => "rss"
    case Atom => "atom"
    case Json => "json"
  }

  /** Casting a text value to the enum: None for a label the enum lacks. */
  function FormatTag(s: string): (r: Option<FeedFormat>)
    ensures r.Some? <==> s == "rss" || s == "atom" || s == "json"
    ensures r.Some? ==> FormatName(r.value) == s
  {
    if s == "rss" then Some(Rss)
    else if s == "atom" then Some(Atom)
    else if s == "json" then Some(Json)
    else None
  }

  /** Every enum value survives the trip to its label and back. */
  lemma FormatRoundTrip(f: FeedFormat)
    ensures FormatTag(FormatName(f)) == Some(f)
  {
  }

  /** Length bound of the varchar(255) columns `feeds.title` and `entries.author`. */
  const MaxVarchar: nat := 255

  /**
   * Storing a text value in a varchar(255) column. A value of at most 255
   * characters is stored as is. A longer one is rejected unless every
   * character past the 255th is a space; those are cut off.
   */
  function VarcharCast(s: string): (r: Option<string>)
    ensures r.Some? <==> |s| <= MaxVarchar || forall i | MaxVarchar <= i < |s| :: s[i] == ' '
    ensures r.Some? ==> |r.value| <= MaxVarchar && r.value <= s
    ensures r.Some? ==> forall i | |r.value| <= i < |s| :: s[i] == ' '
    ensures r.Some? && |s| <= MaxVarchar ==> r.value == s
    ensures r.Some? ==> |r.value| == if |s| <= MaxVarchar then |s| else MaxVarchar
  {
    if |s| <= MaxVarchar then Some(s)
    else if forall i | MaxVarchar <= i < |s| :: s[i] == ' ' then Some(s[..MaxVarchar])
    else None
  }

  /** A row of `feeds`. Nullable columns are Options; timestamps are integers. */
  datatype Feed = Feed(
    id: nat,
    title: string,
    url: string,
    siteUrl: Option<string>,
    description: Option<string>,
    lastFetchedAt: Option<int>,
    createdAt: int,
    format: FeedFormat)

  /** A row of `entries`. */
  datatype Entry = Entry(
    id: nat,
    feedId: nat,
    guid: string,
    title: string,
    link: string,
    content: Option<string>,
    author: Option<string>,
    publishedAt: Option<int>,
    createdAt: int,
    upvotesCount: int)

  /** A table: its rows in insertion order and the next value of its serial `id` sequence. */
  datatype FeedTable = FeedTable(rows: seq<Feed>, nextId: nat)
  datatype EntryTable = EntryTable(rows: seq<Entry>, nextId: nat)

  /** The column checks a single feed row must pass. */
  predicate FeedRowValid(f: Feed) {
    |f.title| <= MaxVarchar
  }

  /** The column checks a single entry row must pass. */
  predicate EntryRowValid(e: Entry) {
    e.author.Some? ==> |e.author.value| <= MaxVarchar
  }

  predicate HasUrl(rows: seq<Feed>, url: string) {
    exists i | 0 <= i < |rows| :: rows[i].url == url
  }

  predicate HasFeedId(rows: seq<Feed>, id: nat) {
    exists i | 0 <= i < |rows| :: rows[i].id == id
  }

  /**
   * The constraints of the `feeds` table: valid rows, serial ids increasing in
   * insertion order and below the sequence, and no two rows with the same url.
   */
  ghost predicate FeedTableValid(t: FeedTable) {
    && (forall i :: 0 <= i < |t.rows| ==> t.rows[i].id < t.nextId && FeedRowValid(t.rows[i]))
    && (forall i, j :: 0 <= i < j < |t.rows| ==> t.rows[i].id < t.rows[j].id && t.rows[i].url != t.rows[j].url)
  }

  /** The constraints of the `entries` table on its own. */
  ghost predicate EntryTableValid(t: EntryTable) {
    && (forall i :: 0 <= i < |t.rows| ==> t.rows[i].id < t.nextId && EntryRowValid(t.rows[i]))
    && (forall i, j :: 0 <= i < j < |t.rows| ==> t.rows[i].id < t.rows[j].id)
  }

  /** The foreign key: every entry's `feedId` names an existing feed. */
  ghost predicate References(feeds: seq<Feed>, entries: seq<Entry>) {
    forall i :: 0 <= i < |entries| ==> HasFeedId(feeds, entries[i].feedId)
  }

  /**
   * A new `feeds` row: `lastFetchedAt` unset, `createdAt` the current time and
   * `format` defaulting to rss when the insert omits it.
   */
  function NewFeed(id: nat, title: string, url: string, siteUrl: Option<string>,
                   description: Option<string>, format: Option<FeedFormat>, now: int): (f: Feed)
    ensures f.format == (if format.Some? then format.value else Rss)
    ensures f.lastFetchedAt.None? && f.createdAt == now
    ensures f.id == id && f.title == title && f.url == url
    ensures f.siteUrl == siteUrl && f.description == description
  {
    Feed(id, title, url, siteUrl, description, None, now, format.GetOr(Rss))
  }

  /**
   * A new `entries` row for the columns an insert supplies: `author` and
   * `publishedAt` unset, `upvotesCount` 0, `createdAt` the current time.
   */
  function NewEntry(id: nat, feedId: nat, guid: string, title: string, link: string,
                    content: Option<string>, now: int): (e: Entry)
    ensures EntryRowValid(e)
    ensures e.upvotesCount == 0 && e.author.None? && e.publishedAt.None? && e.createdAt == now
    ensures e.id == id && e.feedId == feedId && e.guid == guid && e.title == title
    ensures e.link == link && e.content == content
  {
    Entry(id, feedId, guid, title, link, content, None, None, now, 0)
  }

  /** The feed rows left after deleting feed `id`. */
  function FeedsWithout(rows: seq<Feed>, id: nat): (r: seq<Feed>)
    ensures forall f :: f in r <==> f in rows && f.id != id
    ensures |r| <= |rows|
  {
    if rows == [] then []
    else if rows[0].id == id then FeedsWithout(rows[1..], id)
    else [rows[0]] + FeedsWithout(rows[1..], id)
  }

  /** The entry rows left after the cascade removes those of feed `feedId`. */
  function EntriesWithout(rows: seq<Entry>, feedId: nat): (r: seq<Entry>)
    ensures forall e :: e in r <==> e in rows && e.feedId != feedId
    ensures |r| <= |rows|
  {
    if rows == [] then []
    else if rows[0].feedId == feedId then EntriesWithout(rows[1..], feedId)
    else [rows[0]] + EntriesWithout(rows[1..], feedId)
  }

  /**
   * Deleting a feed together with its entries (ON DELETE CASCADE) leaves no
   * entry pointing at a missing feed.
   */
  lemma CascadeKeepsReferences(feeds: seq<Feed>, entries: seq<Entry>, id: nat)
    requires References(feeds, entries)
    ensures References(FeedsWithout(feeds, id), EntriesWithout(entries, id))
  {
  }
}
