/**
 * The shapes the feed parser hands to the ingestion workflow, and the
 * per-format normalisation of one parsed item into the four strings the
 * entries table stores (`processItem`'s `switch` in app/workflows/indexfeeds.ts).
 */
module ParsedFeeds {
  import opened Wrappers
  import opened Schema

  /** An RSS `<guid>`: its text and its isPermaLink flag. */
  datatype Guid = Guid(value: Option<string>, isPermaLink: Option<bool>)

  /** One element of an Atom item's `links`. */
  datatype LinkRef = LinkRef(href: Option<string>)

  /** An element of an array-valued `content`: a string, or an object with an optional `encoded`. */
  datatype ContentPart = PartText(text: string) | PartObject(encoded: Option<string>)

  /** The union type of `content`: missing, a string, an object, or an array of parts. */
  datatype Content =
    | NoContent
    | Plain(text: string)
    | Object(encoded: Option<string>)
    | Parts(parts: seq<ContentPart>)

  /** A parsed item of any of the three formats; every field may be missing. */
  datatype Item = Item(
    id: Option<string>,
    guid: Option<Guid>,
    title: Option<string>,
    link: Option<string>,
    externalUrl: Option<string>,
    content: Content,
    contentHtml: Option<string>,
    links: Option<seq<LinkRef>>)

  /** The parsed document body: RSS and JSON Feed fill `items`, Atom fills `entries`. */
  datatype FeedBody = FeedBody(items: Option<seq<Item>>, entries: Option<seq<Item>>)

  /** A parsed feed: the format tag the parser detected, and the document body if any. */
  datatype ParsedFeed = ParsedFeed(format: string, feed: Option<FeedBody>)

  /** The four non-null strings an item is reduced to before it is stored. */
  datatype Normalized = Normalized(guid: string, title: string, link: string, content: string)

  const NoTitle := "No title"

  /** Every format takes the item's title, or "No title" when it is missing or empty. */
  function Title(item: Item): (r: string)
    ensures r != ""
    ensures Truthy(item.title) ==> r == item.title.value
    ensures !Truthy(item.title) ==> r == NoTitle
  {
    OrElse(item.title, NoTitle)
  }

  /** An RSS item's content: the `encoded` text of a single (non-array) content object. */
  function RssContent(c: Content): (r: string)
    ensures r != "" <==> c.Object? && Truthy(c.encoded)
    ensures r != "" ==> r == c.encoded.value
  {
    match c
    case Object(encoded) => OrElse(encoded, "")
    case _ => ""
  }

  /** The text of one content part: a string part itself, an object part's `encoded`. */
  function PartValue(p: ContentPart): Option<string> {
    match p
    case PartText(s) => Some(s)
    case PartObject(encoded) => encoded
  }

  /**
   * An Atom item's content: a string content as it is; the first part of a
   * non-empty array; anything else (an object, an empty array, nothing) gives "".
   */
  function AtomContent(c: Content): (r: string)
    ensures c.Plain? ==> r == c.text
    ensures c.Parts? && c.parts != [] ==> r == OrElse(PartValue(c.parts[0]), "")
    ensures r != "" ==> c.Plain? || (c.Parts? && c.parts != [])
  {
    match c
    case Plain(s) => s
    case Parts(ps) => if ps != [] then OrElse(PartValue(ps[0]), "") else ""
    case _ => ""
  }

  /** The `href` of the first element of `links`, or "". */
  function FirstHref(links: Option<seq<LinkRef>>): (r: string)
    ensures r != "" <==> links.Some? && links.value != [] && Truthy(links.value[0].href)
    ensures r != "" ==> r == links.value[0].href.value
  {
    if links.Some? && links.value != [] then OrElse(links.value[0].href, "") else ""
  }

  /** The RSS mapping: guid.value, title, link, and the encoded content. */
  function NormalizeRss(item: Item): (n: Normalized)
    ensures n.guid != "" <==> item.guid.Some? && Truthy(item.guid.value.value)
    ensures n.guid != "" ==> n.guid == item.guid.value.value.value
    ensures n.link != "" <==> Truthy(item.link)
    ensures n.link != "" ==> n.link == item.link.value
    ensures n.title == Title(item) && n.content == RssContent(item.content)
  {
    var guid := if item.guid.Some? then OrElse(item.guid.value.value, "") else "";
    Normalized(guid, Title(item), OrElse(item.link, ""), RssContent(item.content))
  }

  /** The JSON Feed mapping: id, title, external_url and content_html. */
  function NormalizeJson(item: Item): (n: Normalized)
    ensures n.guid != "" <==> Truthy(item.id)
    ensures n.guid != "" ==> n.guid == item.id.value
    ensures n.link != "" <==> Truthy(item.externalUrl)
    ensures n.link != "" ==> n.link == item.externalUrl.value
    ensures n.content != "" <==> Truthy(item.contentHtml)
    ensures n.content != "" ==> n.content == item.contentHtml.value
    ensures n.title == Title(item)
  {
    Normalized(OrElse(item.id, ""), Title(item), OrElse(item.externalUrl, ""), OrElse(item.contentHtml, ""))
  }

  /** The Atom mapping: id, title, the first link's href, and the string-or-array content. */
  function NormalizeAtom(item: Item): (n: Normalized)
    ensures n.guid != "" <==> Truthy(item.id)
    ensures n.guid != "" ==> n.guid == item.id.value
    ensures n.title == Title(item) && n.link == FirstHref(item.links)
    ensures n.content == AtomContent(item.content)
  {
    Normalized(OrElse(item.id, ""), Title(item), FirstHref(item.links), AtomContent(item.content))
  }

  /**
   * processItem's switch: the mapping of the item's format, or None for any
   * format tag other than "rss", "json" and "atom".
   */
  function Normalize(item: Item, format: string): (r: Option<Normalized>)
    ensures r.Some? <==> FormatTag(format).Some?
    ensures r.Some? ==> r.value.title != ""
    ensures r.Some? && Truthy(item.title) ==> r.value.title == item.title.value
    ensures format == "rss" ==> r == Some(NormalizeRss(item))
    ensures format == "json" ==> r == Some(NormalizeJson(item))
    ensures format == "atom" ==> r == Some(NormalizeAtom(item))
  {
    match FormatTag(format)
    case None => None
    case Some(Rss) => Some(NormalizeRss(item))
    case Some(Json) => Some(NormalizeJson(item))
    case Some(Atom) => Some(NormalizeAtom(item))
  }

  /** The fields each format reads: two items that agree on them normalise alike. */
  lemma FieldsReadByFormat(a: Item, b: Item)
    ensures a.guid == b.guid && a.title == b.title && a.link == b.link && a.content == b.content
            ==> Normalize(a, "rss") == Normalize(b, "rss")
    ensures a.id == b.id && a.title == b.title && a.externalUrl == b.externalUrl && a.contentHtml == b.contentHtml
            ==> Normalize(a, "json") == Normalize(b, "json")
    ensures a.id == b.id && a.title == b.title && a.links == b.links && a.content == b.content
            ==> Normalize(a, "atom") == Normalize(b, "atom")
  {
  }

  /**
   * The same content is read differently per format: a non-empty string
   * content is kept by Atom and dropped by RSS; a content object's `encoded`
   * is kept by RSS and dropped by Atom; JSON Feed never reads `content`.
   */
  lemma ContentPerFormat(item: Item)
    ensures item.content.Plain? && item.content.text != "" ==>
              Normalize(item, "atom").value.content == item.content.text
              && Normalize(item, "rss").value.content == ""
    ensures item.content.Object? && Truthy(item.content.encoded) ==>
              Normalize(item, "rss").value.content == item.content.encoded.value
              && Normalize(item, "atom").value.content == ""
    ensures Normalize(item, "json").value.content == OrElse(item.contentHtml, "")
  {
  }
}
