/**
 * Feed registration: the POST handler of app/api/feedinfo/route.ts over a
 * `feeds` table whose `url` column is unique.
 */
module FeedInfo {
  import opened Wrappers
  import opened Schema

  /**
   * The fields read from the JSON body of a registration request, each present
   * or absent. A JSON value that is not an object (an array, a string, a
   * number, a boolean) yields a request with every field absent. A body that
   * does not parse, or is JSON null, has no request at all: the handler sees
   * None.
   */
  datatype FeedRequest = FeedRequest(
    title: Option<string>,
    url: Option<string>,
    siteUrl: Option<string>,
    description: Option<string>,
    format: Option<string>)

  /** The HTTP response: 201 with the new row, or an error status with its message. */
  datatype Response = Created(feed: Feed) | Failed(status: int, message: string)

  function Status(r: Response): int {
    if r.Created? then 201 else r.status
  }

  const RequiredMessage := "Title and URL are required"
  const ConflictMessage := "A feed with this URL already exists"
  const ServerErrorMessage := "Internal server error"

  /** The table after a request, and the response sent. */
  datatype Outcome = Outcome(table: FeedTable, response: Response)

  /** The format the handler inserts: the given one when truthy, else "rss", cast to the enum. */
  function RequestedFormat(req: FeedRequest): Option<FeedFormat> {
    FormatTag(OrElse(req.format, "rss"))
  }

  /**
   * Whether the database accepts the row's values before any constraint is
   * checked: the format must be an enum label and the title must be storable
   * in varchar(255).
   */
  predicate ValuesAccepted(req: FeedRequest)
    requires Truthy(req.title)
  {
    RequestedFormat(req).Some? && VarcharCast(req.title.value).Some?
  }

  /**
   * The handler. A body that does not parse, or is JSON null, gives 500; a falsy title or
   * url gives 400; a value the database rejects gives 500; a url already
   * registered gives 409 (unique violation); otherwise one row is inserted and
   * returned with 201. Only the 201 case changes the table.
   */
  function Register(t: FeedTable, body: Option<FeedRequest>, now: int): (o: Outcome)
    ensures o.response.Created? ==>
              o.table.rows == t.rows + [o.response.feed] && o.table.nextId == t.nextId + 1
    ensures o.response.Failed? ==> o.table == t && o.response.status in {400, 409, 500}
  {
    match body
    case None => Outcome(t, Failed(500, ServerErrorMessage))
    case Some(req) =>
      if !Truthy(req.title) || !Truthy(req.url) then Outcome(t, Failed(400, RequiredMessage))
      else if !ValuesAccepted(req) then Outcome(t, Failed(500, ServerErrorMessage))
      else if HasUrl(t.rows, req.url.value) then Outcome(t, Failed(409, ConflictMessage))
      else
        var feed := NewFeed(t.nextId, VarcharCast(req.title.value).value, req.url.value, req.siteUrl,
                            req.description, RequestedFormat(req), now);
        Outcome(FeedTable(t.rows + [feed], t.nextId + 1), Created(feed))
  }

  /** 400 exactly when the body has a falsy title or url; nothing is inserted then. */
  lemma RegisterBadRequest(t: FeedTable, body: Option<FeedRequest>, now: int)
    ensures var o := Register(t, body, now);
            Status(o.response) == 400 <==> body.Some? && (!Truthy(body.value.title) || !Truthy(body.value.url))
    ensures Status(Register(t, body, now).response) == 400 ==> Register(t, body, now).table == t
  {
  }

  /** 409 exactly when a well-formed request names a url some feed already has; the table is unchanged. */
  lemma RegisterConflict(t: FeedTable, body: Option<FeedRequest>, now: int)
    ensures var o := Register(t, body, now);
            Status(o.response) == 409 <==>
              body.Some? && Truthy(body.value.title) && Truthy(body.value.url)
              && ValuesAccepted(body.value) && HasUrl(t.rows, body.value.url.value)
    ensures Status(Register(t, body, now).response) == 409 ==> Register(t, body, now).table == t
  {
  }

  /**
   * 500 exactly when the body does not parse or is JSON null, or the format
   * or the title is rejected by its column type.
   */
  lemma RegisterServerError(t: FeedTable, body: Option<FeedRequest>, now: int)
    ensures var o := Register(t, body, now);
            Status(o.response) == 500 <==>
              body.None? || (Truthy(body.value.title) && Truthy(body.value.url) && !ValuesAccepted(body.value))
  {
  }

  /**
   * 201 exactly for a well-formed request with a new url; the one row added
   * carries the request's title, url, siteUrl and description, the given
   * format (rss when it is falsy), the next serial id and the current time.
   */
  lemma RegisterCreated(t: FeedTable, body: Option<FeedRequest>, now: int)
    ensures var o := Register(t, body, now);
            Status(o.response) == 201 <==>
              body.Some? && Truthy(body.value.title) && Truthy(body.value.url)
              && ValuesAccepted(body.value) && !HasUrl(t.rows, body.value.url.value)
    ensures var o := Register(t, body, now);
            o.response.Created? ==>
              var req, f := body.value, o.response.feed;
              && o.table.rows == t.rows + [f]
              && Some(f.title) == VarcharCast(req.title.value) && Some(f.url) == req.url
              && f.title <= req.title.value && (|req.title.value| <= MaxVarchar ==> f.title == req.title.value)
              && f.siteUrl == req.siteUrl && f.description == req.description
              && (Truthy(req.format) ==> FormatName(f.format) == req.format.value)
              && (!Truthy(req.format) ==> f.format == Rss)
              && f.id == t.nextId && f.createdAt == now && f.lastFetchedAt.None?
  {
  }

  /**
   * A title of 255 letters followed by a space is cut to the 255 letters and
   * the feed is created.
   */
  lemma PaddedTitleIsCut(t: FeedTable, url: string, now: int)
    requires url != "" && !HasUrl(t.rows, url)
    ensures var letters := seq(MaxVarchar, _ => 'a');
            var o := Register(t, Some(FeedRequest(Some(letters + " "), Some(url), None, None, None)), now);
            o.response.Created? && o.response.feed.title == letters && o.response.feed.format == Rss
  {
    var letters := seq(MaxVarchar, _ => 'a');
    assert (letters + " ")[..MaxVarchar] == letters;
  }

  /** Registration keeps the feeds table's constraints, the unique url among them. */
  lemma RegisterKeepsValid(t: FeedTable, body: Option<FeedRequest>, now: int)
    requires FeedTableValid(t)
    ensures FeedTableValid(Register(t, body, now).table)
  {
  }

  /** Registration never removes a feed, so entries that referenced a feed still do. */
  lemma RegisterKeepsReferences(t: FeedTable, body: Option<FeedRequest>, now: int, entries: seq<Entry>)
    requires References(t.rows, entries)
    ensures References(Register(t, body, now).table.rows, entries)
  {
    var o := Register(t, body, now);
    forall i | 0 <= i < |entries| ensures HasFeedId(o.table.rows, entries[i].feedId) {
      var j :| 0 <= j < |t.rows| && t.rows[j].id == entries[i].feedId;
      assert o.table.rows[j] == t.rows[j];
    }
  }

  /** The `feeds` table as the handler sees it. */
  class FeedStore {
    var rows: seq<Feed>
    var nextId: nat

    function Table(): FeedTable
      reads this
    {
      FeedTable(rows, nextId)
    }

    constructor ()
      ensures Table() == FeedTable([], 1)
    {
      rows := [];
      nextId := 1;
    }

    /** The unique index lookup on `url`. */
    method FindByUrl(url: string) returns (taken: bool)
      ensures taken <==> HasUrl(rows, url)
    {
      var i := 0;
      while i < |rows|
        invariant 0 <= i <= |rows|
        invariant forall k :: 0 <= k < i ==> rows[k].url != url
      {
        if rows[i].url == url {
          return true;
        }
        i := i + 1;
      }
      return false;
    }

    /** POST: validate, default the format, insert unless the url is taken. */
    method Post(body: Option<FeedRequest>, now: int) returns (response: Response)
      modifies this
      ensures Outcome(Table(), response) == Register(old(Table()), body, now)
    {
      if body.None? {
        return Failed(500, ServerErrorMessage);
      }
      var req := body.value;
      if !Truthy(req.title) || !Truthy(req.url) {
        return Failed(400, RequiredMessage);
      }
      var format := RequestedFormat(req);
      var title := VarcharCast(req.title.value);
      if format.None? || title.None? {
        return Failed(500, ServerErrorMessage);
      }
      var taken := FindByUrl(req.url.value);
      if taken {
        return Failed(409, ConflictMessage);
      }
      var feed := NewFeed(nextId, title.value, req.url.value, req.siteUrl, req.description, format, now);
      rows := rows + [feed];
      nextId := nextId + 1;
      return Created(feed);
    }
  }
}
