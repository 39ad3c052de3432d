/**
 * The entities of the aggregation engine (internal/models/models.go), plus the
 * shapes the two external collaborators hand back: a fetched feed document and
 * the time library.
 */
module Models {

  import opened Wrappers

  /**
   * A subscribed feed, keyed by URL. `unreadCount` is derived: the engine
   * recomputes it and never persists a meaningful value.
   */
  datatype Feed = Feed(url: string, title: string, unreadCount: int)

  /**
   * One entry of the merged reading list. `publishedTime` is the canonical
   * timestamp (0 is Go's zero time.Time), `published` its display form, and
   * `read` / `favorite` a cache of the status store at construction time.
   */
  datatype FeedItem = FeedItem(
    title: string,
    link: string,
    description: string,
    published: string,
    feedTitle: string,
    publishedTime: int,
    read: bool,
    favorite: bool,
    feedURLOrigin: string)

  /**
   * One item of a parsed feed document: the four date representations the
   * parser may supply (a pre-parsed published/updated time, or the raw strings).
   */
  datatype RawItem = RawItem(
    title: string,
    link: string,
    description: string,
    publishedParsed: Option<int>,
    updatedParsed: Option<int>,
    published: string,
    updated: string)

  /** A parsed feed document: its title and its items in document order. */
  datatype Doc = Doc(title: string, items: seq<RawItem>)

  /**
   * The feed-fetch collaborator: fetch and parse the document at a URL, or
   * fail (network error, malformed feed and unsupported format are one outcome).
   */
  type Fetcher = string -> Option<Doc>

  /**
   * The time library: `parse(layout, s)` is time.Parse (None when it returns
   * an error), `format(t, layout)` is time.Time.Format.
   */
  datatype TimeLib = TimeLib(parse: (string, string) -> Option<int>, format: (int, string) -> string)

  /** Go's zero time.Time. */
  const ZeroTime: int := 0
}
