# rssit feed ingestion, in Dafny

A model of the feed-ingestion core of rssit, a site that aggregates RSS, Atom
and JSON Feed sources into one votable list of entries, with proofs about it.

- **Schema** (`schema.dfy`): the `feed_format` enum, the `feeds` and `entries`
  row shapes with their nullable columns and defaults, and the varchar(255)
  limits. It also holds the table constraints: serial ids, the unique feed
  `url`, and the foreign key from entries to feeds with its cascade on delete.
- **ParsedFeeds** (`parsed_feeds.dfy`): the item and document shapes the feed
  parser returns. It also holds the per-format normalisation `processItem`
  performs. An item becomes four non-null strings (guid, title, link,
  content), following JavaScript's `||`: a missing or empty field takes the
  default.
- **Ingestion** (`ingestion.dfy`): the effect of the workflow on the entries
  table, as functions. These are the lookup by guid with insert-if-absent,
  the format dispatch of `processFeedItems`, and the feed loop of
  `indexFeeds`. The lemmas prove idempotence, exactly which guids end up
  stored, what every new row looks like, that feeds are handled in list
  order, that failed feeds are skipped, and that the table invariant is kept.
- **Workflow** (`workflow.dfy`): the same steps as methods on an `EntryStore`
  class that updates its rows in place. Each loop is proved to produce the
  table the matching Ingestion function describes.
- **FeedInfo** (`feed_info.dfy`): the feed-registration POST handler. It is a
  method on a `FeedStore` class, specified by a function that gives the new
  table and the response (201, 400, 409 or 500).

Fetching a feed's url and parsing the text are one function parameter,
`fetch: Feed -> Option<ParsedFeed>`. None means that either step failed. The
clock is a parameter `now`.

Behaviour worth noting:

- The JSON Feed and Atom guids fall back to `""` when `id` is missing, like
  every other field.
- A non-2xx HTTP response is not treated as a fetch failure: its body is
  parsed like any other. In the model, `fetch` returns whatever the parser
  made of it.
- The registration handler can also answer 500 for a request with a title
  and a url. This happens when the format is not an enum label, or when the
  title cannot be stored in varchar(255). A title longer than 255 characters
  is cut to 255 when everything past the 255th character is spaces, and is
  rejected otherwise. Postgres rejects such values before it checks the unique
  url, so these requests get 500 even when the url is taken.
- A body that does not parse, or is JSON null, makes the handler throw while
  reading the fields, which gives 500. Any other JSON value that is not an
  object (an array, a string, a number) has no title, so it gets 400.
- Deduplication looks at the guid alone, across all feeds. Two lemmas show the
  consequences. `GuidShadowsAcrossFeeds`: a guid stored by one feed silently
  drops the same guid from another feed. `GuidlessItemsCollapse`: every item
  without an identifier normalises to the guid `""`, so after the first such
  item, later ones from any feed and in any of the three formats are dropped.

## Model

| member | source | states |
|---|---|---|
| Schema.FormatTag | lib/schema.ts:5 | a text value casts to the enum exactly when it is "rss", "atom" or "json", and the enum value's label is that text |
| Schema.FormatRoundTrip | lib/schema.ts:5 | each of the three enum values maps to its label and back to itself |
| Schema.VarcharCast | lib/schema.ts:10 | a value fits varchar(255) exactly when it has at most 255 characters or only spaces past the 255th; the stored value is then the value itself when it has at most 255 characters and otherwise its first 255 characters, and only spaces were cut |
| Schema.NewFeed | lib/schema.ts:15-16 | a new feed row has `createdAt` set to the current time and `lastFetchedAt` unset; its format is rss when the insert omits it; the other columns are as given |
| Schema.NewEntry | lib/schema.ts:30-37 | a new entry row has `upvotesCount` 0, `author` and `publishedAt` unset and `createdAt` set; the supplied columns are as given |
| Schema.FeedsWithout | lib/schema.ts:27-29 | deleting feed `id` keeps exactly the rows whose id differs |
| Schema.EntriesWithout | lib/schema.ts:27-29 | the cascade keeps exactly the entries whose `feedId` differs from the deleted feed |
| Schema.CascadeKeepsReferences | lib/schema.ts:27-29 | after a feed and its entries are deleted, every remaining entry still references an existing feed |
| ParsedFeeds.Title | app/workflows/indexfeeds.ts:79 | the title is never empty: it is the item's title when that is truthy, else "No title" |
| ParsedFeeds.RssContent | app/workflows/indexfeeds.ts:81 | RSS content is non-empty exactly when the content is a single object with a truthy `encoded`, and it is then that text; string, array and missing content give "" |
| ParsedFeeds.AtomContent | app/workflows/indexfeeds.ts:93-100 | Atom content is a string content as is, or the string or `encoded` of a non-empty array's first element; it is non-empty only in those two cases |
| ParsedFeeds.FirstHref | app/workflows/indexfeeds.ts:92 | the Atom link is non-empty exactly when `links` has a first element with a truthy `href`, and it is then that href |
| ParsedFeeds.NormalizeRss | app/workflows/indexfeeds.ts:77-82 | RSS guid is non-empty exactly when `guid.value` is truthy, and equals it; the same holds for link and `link`; title and content follow Title and RssContent |
| ParsedFeeds.NormalizeJson | app/workflows/indexfeeds.ts:83-88 | JSON Feed guid, link and content are non-empty exactly when `id`, `external_url` and `content_html` are truthy, and equal them; title follows Title |
| ParsedFeeds.NormalizeAtom | app/workflows/indexfeeds.ts:89-101 | Atom guid is non-empty exactly when `id` is truthy, and equals it; link follows FirstHref, content follows AtomContent |
| ParsedFeeds.Normalize | app/workflows/indexfeeds.ts:68-104 | an item is normalised exactly when the tag is "rss", "json" or "atom"; the title is then never empty and equals a truthy source title; "rss" selects the RSS mapping, "json" the JSON Feed mapping and "atom" the Atom mapping |
| ParsedFeeds.FieldsReadByFormat | app/workflows/indexfeeds.ts:76-101 | RSS reads only guid, title, link and content; JSON only id, title, external_url and content_html; Atom only id, title, links and content |
| ParsedFeeds.ContentPerFormat | app/workflows/indexfeeds.ts:81-100 | a non-empty string content is kept by Atom and dropped by RSS; an object's encoded text is kept by RSS and dropped by Atom; JSON Feed takes content_html |
| Ingestion.Insert | app/workflows/indexfeeds.ts:106-120 | a guid already stored by any feed leaves the table unchanged; otherwise exactly one row is appended with the next id, the feed id and the normalised fields; afterwards the stored guids are the old ones plus this guid |
| Ingestion.ProcessItem | app/workflows/indexfeeds.ts:68-120 | an unknown format tag leaves the table unchanged; otherwise the old rows are a prefix of the new ones and at most one row is added |
| Ingestion.ProcessItems | app/workflows/indexfeeds.ts:54-56 | processing items in order only appends rows, and the id sequence advances by the number of rows added |
| Ingestion.ProcessFeed | app/workflows/indexfeeds.ts:49-66 | a document without a body, or with a format other than the three, leaves the table unchanged |
| Ingestion.ProcessFeedDispatch | app/workflows/indexfeeds.ts:51-65 | RSS and JSON documents process `items` under their own tag, Atom documents process `entries`; a missing list, a missing body or another tag processes nothing |
| Ingestion.IndexFeeds | app/workflows/indexfeeds.ts:123-134 | a pass over the feeds only appends rows, and the id sequence advances by the number of rows added |
| Ingestion.ProcessItemsGuids | app/workflows/indexfeeds.ts:106-120 | after processing items, a guid is stored exactly when it was stored before or is the normalised guid of one of the items |
| Ingestion.ProcessItemsNoop | app/workflows/indexfeeds.ts:106-120 | if every item's guid is already stored, processing the items changes nothing |
| Ingestion.ProcessItemsIdempotent | app/workflows/indexfeeds.ts:106-120 | processing the same items a second time, under any feed id and at any time, leaves the table as the first time left it |
| Ingestion.ProcessItemsNewRows | app/workflows/indexfeeds.ts:111-119 | every row added belongs to the processed feed; it has the next serial id, 0 upvotes, no author or publish date, and set content; its guid comes from the items and was not stored before |
| Ingestion.InsertKeepsInvariant | app/workflows/indexfeeds.ts:111-119 | the insert keeps StoreInvariant: the entries table's constraints (EntryTableValid: increasing ids below the sequence, author of at most 255 characters), the uniqueness of stored guids, and the foreign key to an existing feed (References) |
| Ingestion.ProcessItemsKeepInvariant | app/workflows/indexfeeds.ts:54-65 | processing a registered feed's items keeps that invariant |
| Ingestion.ProcessItemsAppend | app/workflows/indexfeeds.ts:54-56 | processing items a followed by b equals processing a and then b: items are handled one after another |
| Ingestion.ProcessItemsResume | app/workflows/indexfeeds.ts:54-56 | re-running a feed's items after a run that stopped after the first k leaves the same table as processing only the items from k on |
| Ingestion.IndexFeedsAppend | app/workflows/indexfeeds.ts:128-133 | a pass over list a followed by list b equals a pass over a and then a pass over b: feeds are handled one after another in list order |
| Ingestion.IndexFeedsResume | app/workflows/indexfeeds.ts:128-133 | re-running a pass after one that stopped after the first k feeds leaves the same table as a pass over the feeds from k on |
| Ingestion.SkipsFailedFeed | app/workflows/indexfeeds.ts:129-132 | a feed whose fetch or parse fails changes nothing: the pass equals one over the list without that feed |
| Ingestion.IndexFeedsGuids | app/workflows/indexfeeds.ts:123-134 | after a pass, a guid is stored exactly when it was stored before or is normalised from a parsed feed of known format |
| Ingestion.IndexFeedsNoop | app/workflows/indexfeeds.ts:123-134 | a pass whose guids are all already stored changes nothing |
| Ingestion.IndexFeedsIdempotent | app/workflows/indexfeeds.ts:123-134 | a second pass over the same feeds, with the same documents, inserts nothing |
| Ingestion.AllGuidsOfMember | app/workflows/indexfeeds.ts:123-134 | every guid of a listed feed that fetched and parsed is among the guids the pass brings |
| Ingestion.AllGuidsSub | app/workflows/indexfeeds.ts:24-27 | a list drawn from the feeds of another, in any order and with any omissions, brings no guid the other does not |
| Ingestion.IndexFeedsIdempotentAnyOrder | app/workflows/indexfeeds.ts:123-134 | a second pass that lists the feeds in any order, or only some of them, inserts nothing when the documents are unchanged |
| Ingestion.IndexFeedsKeepInvariant | app/workflows/indexfeeds.ts:126-133 | a pass over registered feeds keeps the entries table valid, its guids unique, and every entry referencing a registered feed |
| Ingestion.GuidShadowsAcrossFeeds | app/workflows/indexfeeds.ts:106-111 | an item whose guid is already stored by any feed is dropped, whatever its feed |
| Ingestion.GuidlessItemsCollapse | app/workflows/indexfeeds.ts:106-120 | two items whose guids both normalise to "" add at most one row, from any feeds and any of the three formats: the second leaves the table as the first left it |
| Ingestion.RssItemIngestedTwice | app/workflows/indexfeeds.ts:123-134 | a feed with one RSS item (guid g1, title T, link https://x, content {encoded C}) ingested twice leaves exactly one entry, with those fields |
| FeedInfo.Register | app/api/feedinfo/route.ts:5-44 | 201 appends exactly the returned row and advances the id; every other response is 400, 409 or 500 and leaves the table unchanged |
| FeedInfo.RegisterBadRequest | app/api/feedinfo/route.ts:10-15 | the response is 400 exactly when the body's title or url is falsy, and nothing is inserted then |
| FeedInfo.RegisterConflict | app/api/feedinfo/route.ts:31-36 | the response is 409 exactly when a request with acceptable values names a url some feed already has, and the table is unchanged then |
| FeedInfo.RegisterServerError | app/api/feedinfo/route.ts:38-42 | the response is 500 exactly when the body does not parse or is JSON null, or the request has a title and url but the format is not an enum label or the title does not fit varchar(255) |
| FeedInfo.RegisterCreated | app/api/feedinfo/route.ts:17-28 | the response is 201 exactly for an acceptable request with a new url; the one row added has the given url, siteUrl and description, the given title (cut to 255 characters when the excess is spaces), the given format or rss when that is falsy, the next id and the current time |
| FeedInfo.PaddedTitleIsCut | lib/schema.ts:10 | a title of 255 letters followed by a space is stored as the 255 letters and the feed is created (201) |
| FeedInfo.RegisterKeepsValid | lib/schema.ts:10-11 | registration keeps the feeds table's constraints (FeedTableValid): ids increasing and below the sequence, titles of at most 255 characters, and no two feeds sharing a url |
| FeedInfo.RegisterKeepsReferences | app/api/feedinfo/route.ts:17-28 | registration removes no feed, so every entry that referenced a feed still does |
| FeedInfo.FeedStore.FindByUrl | lib/schema.ts:11 | the unique-url lookup answers true exactly when some stored feed has the url |
| FeedInfo.FeedStore.Post | app/api/feedinfo/route.ts:5-44 | the handler leaves the table and returns the response that Register gives for the old table |
| Workflow.EntryStore.FindByGuid | app/workflows/indexfeeds.ts:107-109 | the lookup finds an entry exactly when some stored entry of any feed has the guid, and what it returns is such a stored entry |
| Workflow.EntryStore.ProcessItem | app/workflows/indexfeeds.ts:68-120 | normalise, look up, insert if absent: the new table is ProcessItem of the old |
| Workflow.EntryStore.ProcessAll | app/workflows/indexfeeds.ts:54-56 | the loop over a list of items leaves ProcessItems of the old table |
| Workflow.EntryStore.ProcessFeedItems | app/workflows/indexfeeds.ts:49-66 | the three-way dispatch leaves ProcessFeed of the old table |
| Workflow.EntryStore.IndexFeeds | app/workflows/indexfeeds.ts:123-134 | the loop over the registered feeds leaves IndexFeeds of the old table, over the feeds table's rows in order |
| Workflow.IngestTwice | app/workflows/indexfeeds.ts:123-134 | running the workflow twice over unchanged documents leaves the table one run leaves, and the table invariant holds |

## Left out

- Fetching and parsing (app/workflows/indexfeeds.ts:29-47) are network I/O and a foreign parser library. They are the parameter `fetch`, and the log lines they print are not modelled.
- The durable-execution markers and retries ("use step", "use workflow") and the route that triggers the workflow belong to an external runtime. A retry is modelled only as re-running items or feeds after a run that stopped between two of them (the resume lemmas); a step cut off inside one insert is not modelled.
- The model assumes every lookup and insert in the workflow succeeds. In the code, a database error thrown there is caught nowhere. One example is a NUL character in a stored text column such as `content`. That error ends the whole run: the rest of that feed and every later feed are not processed.
- The serial ids of both tables are 32-bit integers, and the database fails an insert once the sequence is exhausted. The model's ids are unbounded natural numbers, so that error path is not modelled.
- The clock is a parameter `now`. Every row written in one call gets the same `createdAt`, where the database takes a fresh time per statement.
- The ids in the contracts (`FeedInfo.RegisterCreated`, `Ingestion.Insert`, `Ingestion.ProcessItemsNewRows`) are the model's own sequence, which advances only on a successful insert. Postgres also consumes a value on a failed insert (after a 409, for example), so real ids can skip numbers.
- `getFeeds` has no ORDER BY, so Postgres returns feeds in an unspecified order. The model walks them in insertion order. `IndexFeedsIdempotentAnyOrder` shows the order does not matter for idempotence; the ids and row order of the first pass do depend on it.
- Concurrency is not modelled: two workflow runs racing on the same guid, or two registrations racing on the same url. Only the sequential check-then-insert is modelled.
- FeedInfo.Register: the 409 path assumes the error caught in app/api/feedinfo/route.ts:29-31 carries Postgres's `code` "23505" itself. That holds when the driver's error reaches the handler unwrapped. A database layer that wraps driver errors (keeping the code only under `cause`) would turn a duplicate url into a 500. The database layer's version is not part of this model.
- FeedInfo.Register: models only the database failures caused by values (a format outside the enum, a title that does not fit varchar(255)). Other server failures that also give 500, such as a lost connection or a NUL character in a text column, are not modelled.
- Request bodies are modelled with string-valued fields or absent ones. A JSON number, boolean or object in the title, url or format is not modelled.
- A JSON `null` as an element of an Atom `content` array, or of `links`, is not modelled. Elements are strings or objects.
- The ranking query (lib/queries.ts and app/api/feedentries/route.ts) is not modelled: it uses floating-point LOG10, epoch arithmetic and the database clock, and sorting and limiting happen in SQL. The other select helpers are thin wrappers and are left out too.
- The vote endpoint, the `upvotes` table and the vote counter are not part of this model.
- `lastFetchedAt` is never written by the core, and the full-text search indexes carry no behaviour. Both are left out beyond the column.
- The database connection (lib/db.ts), the UI components, the client hook and the type aliases are plumbing and are left out.
