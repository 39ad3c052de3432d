/**
 * The single-file server (main.go): the same aggregation engine kept in
 * package globals. It differs from the Manager in what it records and in
 * its rules: items carry no favorite flag, feeds no unread count, the view
 * has no favorites mode, and toggling read patches memory even when the
 * store write fails.
 */
module Legacy {

  import opened Wrappers
  import opened Sequences
  import opened Ordering
  import Models
  import Dates
  import Database
  import Feeds
  import Mirror

  /** A subscribed feed (main.go:17-21). */
  datatype Feed = Feed(url: string, title: string)

  /** One entry of the merged list (main.go:23-32): no favorite flag. */
  datatype FeedItem = FeedItem(
    title: string,
    link: string,
    description: string,
    published: string,
    feedTitle: string,
    publishedTime: int,
    read: bool,
    feedURLOrigin: string)

  function PublishedTime(item: FeedItem): int { item.publishedTime }

  predicate SortedByDate(items: seq<FeedItem>)
  {
    SortedDesc(items, PublishedTime)
  }

  // The helpers below repeat those of Feeds over this module's own Feed and
  // FeedItem records, which lack the unread count and the favorite flag.

  function HasURL(feedURL: string): Feed -> bool
  {
    (feed: Feed) => feed.url == feedURL
  }

  function HasLink(link: string): FeedItem -> bool
  {
    (item: FeedItem) => item.link == link
  }

  function IsUnread(item: FeedItem): bool { !item.read }

  predicate Subscribed(feeds: seq<Feed>, feedURL: string)
  {
    exists i :: 0 <= i < |feeds| && feeds[i].url == feedURL
  }

  /** A feed's key in the "feeds" bucket: saveFeedToDB keys a record by its URL. */
  function URLOf(feed: Feed): string { feed.url }

  /** Being subscribed is having a record keyed by that URL. */
  lemma SubscribedIsKeyed(feeds: seq<Feed>, feedURL: string)
    ensures Subscribed(feeds, feedURL) <==> Mirror.Keyed(feeds, URLOf, feedURL)
  {
    if Subscribed(feeds, feedURL) {
      var i :| 0 <= i < |feeds| && feeds[i].url == feedURL;
      assert URLOf(feeds[i]) == feedURL;
    }
  }

  function FromFeed(feedURL: string): FeedItem -> bool
  {
    (item: FeedItem) => item.feedURLOrigin == feedURL
  }

  /** The item built from one fetched item, with the date chain of main.go:291-327 and main.go:384-420. */
  function MakeItem(raw: Models.RawItem, feedTitle: string, origin: string, read: bool, lib: Models.TimeLib): FeedItem
  {
    var (pubTime, formatted) := Dates.ResolveDate(raw, lib);
    FeedItem(raw.title, raw.link, raw.description, formatted, feedTitle, pubTime, read, origin)
  }

  /**
   * What a built item holds: the fetched item's own text, the document
   * title, the origin URL and the stored read flag, dated by the date chain.
   */
  lemma MakeItemFields(raw: Models.RawItem, feedTitle: string, origin: string, read: bool, lib: Models.TimeLib)
    ensures var item := MakeItem(raw, feedTitle, origin, read, lib);
            && item.title == raw.title && item.link == raw.link && item.description == raw.description
            && item.feedTitle == feedTitle && item.feedURLOrigin == origin && item.read == read
            && (Dates.HasDate(raw) ==> item.published == lib.format(item.publishedTime, Dates.DisplayLayout))
            && (!Dates.HasDate(raw) ==> item.publishedTime == Models.ZeroTime && item.published == "")
            && (raw.publishedParsed.Some? ==> item.publishedTime == raw.publishedParsed.value)
  {
  }

  /** The items built from a document's items, in order, read flags joined from the store by link. */
  function ItemsOf(raws: seq<Models.RawItem>, feedTitle: string, origin: string,
                   readStatus: map<string, string>, lib: Models.TimeLib): (items: seq<FeedItem>)
    ensures |items| == |raws|
    ensures forall k :: 0 <= k < |items| ==>
              items[k] == MakeItem(raws[k], feedTitle, origin, Database.Flag(readStatus, raws[k].link), lib)
  {
    if raws == [] then []
    else
      var raw := raws[|raws| - 1];
      ItemsOf(raws[..|raws| - 1], feedTitle, origin, readStatus, lib)
        + [MakeItem(raw, feedTitle, origin, Database.Flag(readStatus, raw.link), lib)]
  }

  lemma ItemsOfStep(raws: seq<Models.RawItem>, k: int, feedTitle: string, origin: string,
                    readStatus: map<string, string>, lib: Models.TimeLib)
    requires 0 <= k < |raws|
    ensures ItemsOf(raws[..k + 1], feedTitle, origin, readStatus, lib)
         == ItemsOf(raws[..k], feedTitle, origin, readStatus, lib)
            + [MakeItem(raws[k], feedTitle, origin, Database.Flag(readStatus, raws[k].link), lib)]
  {
    assert raws[..k + 1][..k] == raws[..k];
  }

  /** The items one feed contributes to a refresh: none when its fetch fails. */
  function FetchedItems(feed: Feed, fetch: Models.Fetcher, readStatus: map<string, string>, lib: Models.TimeLib): seq<FeedItem>
  {
    match fetch(feed.url)
    case None => []
    case Some(doc) => ItemsOf(doc.items, doc.title, feed.url, readStatus, lib)
  }

  /** The unsorted list a refresh gathers, feed by feed. */
  function Harvest(feeds: seq<Feed>, fetch: Models.Fetcher, readStatus: map<string, string>, lib: Models.TimeLib): seq<FeedItem>
  {
    if feeds == [] then []
    else Harvest(feeds[..|feeds| - 1], fetch, readStatus, lib) + FetchedItems(feeds[|feeds| - 1], fetch, readStatus, lib)
  }

  lemma HarvestStep(feeds: seq<Feed>, i: int, fetch: Models.Fetcher, readStatus: map<string, string>, lib: Models.TimeLib)
    requires 0 <= i < |feeds|
    ensures Harvest(feeds[..i + 1], fetch, readStatus, lib)
         == Harvest(feeds[..i], fetch, readStatus, lib) + FetchedItems(feeds[i], fetch, readStatus, lib)
  {
    assert feeds[..i + 1][..i] == feeds[..i];
  }

  /** `items` with the first item whose link is `link` set to read-state `read`. */
  function WithRead(items: seq<FeedItem>, link: string, read: bool): (r: seq<FeedItem>)
    ensures |r| == |items|
  {
    var k := FirstIndex(items, HasLink(link));
    if k < |items| then items[k := items[k].(read := read)] else items
  }

  /**
   * When a toggle's write fails, memory is still patched: the first item
   * with that link, which agreed with the store, now disagrees with it.
   */
  lemma FailedToggleDiverges(items: seq<FeedItem>, bucket: map<string, string>, link: string)
    requires FirstIndex(items, HasLink(link)) < |items|
    requires items[FirstIndex(items, HasLink(link))].read == Database.Flag(bucket, link)
    ensures var patched := WithRead(items, link, !Database.Flag(bucket, link));
            && FirstIndex(patched, HasLink(link)) == FirstIndex(items, HasLink(link))
            && patched[FirstIndex(items, HasLink(link))].read != Database.Flag(bucket, link)
  {
    var patched := WithRead(items, link, !Database.Flag(bucket, link));
    assert forall j :: 0 <= j < |items| ==> patched[j].link == items[j].link;
    FirstIndexPointwise(items, patched, HasLink(link));
  }

  /** The item filter of the index page, on a status filter already defaulted. */
  predicate Shown(item: FeedItem, filter: string, feedURL: string)
  {
    && (feedURL == "" || item.feedURLOrigin == feedURL)
    && (filter == "unread" ==> !item.read)
  }

  function ShownBy(filter: string, feedURL: string): FeedItem -> bool
  {
    (item: FeedItem) => Shown(item, filter, feedURL)
  }

  function UnreadLinks(items: seq<FeedItem>): set<string>
  {
    set item | item in items && !item.read :: item.link
  }

  /** What handleAddFeed answers with. */
  datatype AddResponse = EmptyURLPage | ParseErrorPage | Redirect

  /**
   * The Bolt file of main.go: the "feeds" bucket and the "feedItemStatus"
   * bucket (main.go:51-55), with the same flag encoding as the status store.
   */
  class Store {
    var feeds: map<string, Feed>
    var readStatus: map<string, string>

    /**
     * The opening half of init (main.go:62-80): the existing file is opened
     * and missing buckets created, so the store holds what earlier runs
     * persisted (all empty on a first run).
     */
    constructor (storedFeeds: map<string, Feed>, storedRead: map<string, string>)
      ensures feeds == storedFeeds && readStatus == storedRead
    {
      feeds := storedFeeds;
      readStatus := storedRead;
    }

    /** saveFeedToDB (main.go:110-121): keyed by URL; a later save replaces an earlier one. */
    method SaveFeedToDB(feed: Feed) returns (err: bool)
      modifies this
      ensures readStatus == old(readStatus)
      ensures feeds == if err then old(feeds) else old(feeds)[feed.url := feed]
    {
      err :| true;
      if !err {
        feeds := feeds[feed.url := feed];
      }
    }

    /** removeFeedFromDB (main.go:123-128): deletes that URL's key only. */
    method RemoveFeedFromDB(feedURL: string) returns (err: bool)
      modifies this
      ensures readStatus == old(readStatus)
      ensures feeds == if err then old(feeds) else old(feeds) - {feedURL}
    {
      err :| true;
      if !err {
        feeds := feeds - {feedURL};
      }
    }

    /** getFeedItemReadStatus (main.go:132-147): true only for a stored "true". */
    function GetFeedItemReadStatus(link: string): (b: bool)
      reads this
      ensures b <==> link in readStatus && readStatus[link] == "true"
    {
      Database.Flag(readStatus, link)
    }

    /** setFeedItemReadStatus (main.go:150-159): stores "true" or "false" under the link. */
    method SetFeedItemReadStatus(link: string, read: bool) returns (err: bool)
      modifies this
      ensures feeds == old(feeds)
      ensures readStatus == if err then old(readStatus) else old(readStatus)[link := Database.EncodeFlag(read)]
      ensures !err ==> GetFeedItemReadStatus(link) == read
    {
      err :| true;
      if !err {
        readStatus := readStatus[link := Database.EncodeFlag(read)];
      }
    }
  }

  /** The package globals `feeds` and `feedItems` of main.go, with the store they use. */
  class App {
    const store: Store
    var feeds: seq<Feed>
    var feedItems: seq<FeedItem>

    /** The list is a full rebuild from the current feeds against the current store. */
    ghost predicate Refreshed(fetch: Models.Fetcher, lib: Models.TimeLib)
      reads this, store
    {
      && multiset(feedItems) == multiset(Harvest(feeds, fetch, store.readStatus, lib))
      && SortedByDate(feedItems)
    }

    /**
     * The feeds in memory are the records of the "feeds" bucket: their URLs
     * are distinct and are exactly the stored keys.
     */
    ghost predicate InSync()
      reads this, store
    {
      Mirror.Mirrors(feeds, URLOf, store.feeds.Keys)
    }

    /**
     * The rest of init (main.go:82-87): loadFeedsFromDB (main.go:89-108)
     * returned `loaded`, the bucket's records, one per key, in the bucket's
     * order; then one refresh.
     */
    constructor (store: Store, loaded: seq<Feed>, fetch: Models.Fetcher, lib: Models.TimeLib)
      requires Mirror.Mirrors(loaded, URLOf, store.feeds.Keys)
      requires forall i :: 0 <= i < |loaded| ==> loaded[i].url in store.feeds && store.feeds[loaded[i].url] == loaded[i]
      ensures this.store == store
      ensures feeds == loaded
      ensures Refreshed(fetch, lib)
      ensures InSync()
    {
      this.store := store;
      feeds := loaded;
      feedItems := [];
      new;
      RefreshFeeds(fetch, lib);
    }

    /** refreshFeeds (main.go:369-424): rebuild from every feed, skip failed fetches, sort. */
    method RefreshFeeds(fetch: Models.Fetcher, lib: Models.TimeLib)
      modifies this
      ensures feeds == old(feeds)
      ensures Refreshed(fetch, lib)
    {
      feedItems := [];
      var i := 0;
      while i < |feeds|
        invariant 0 <= i <= |feeds|
        invariant feeds == old(feeds)
        invariant feedItems == Harvest(feeds[..i], fetch, store.readStatus, lib)
      {
        var feed := feeds[i];
        HarvestStep(feeds, i, fetch, store.readStatus, lib);
        var parsed := fetch(feed.url);
        if parsed.Some? {
          AppendItems(parsed.value, feed.url, lib);
        }
        i := i + 1;
      }
      assert feeds[..|feeds|] == feeds;
      SortFeedItemsByDate();
    }

    /** The item-building loop of refreshFeeds (main.go:383-420) and handleAddFeed (main.go:289-328). */
    method AppendItems(doc: Models.Doc, origin: string, lib: Models.TimeLib)
      modifies this
      ensures feeds == old(feeds)
      ensures feedItems == old(feedItems) + ItemsOf(doc.items, doc.title, origin, store.readStatus, lib)
    {
      var k := 0;
      while k < |doc.items|
        invariant 0 <= k <= |doc.items|
        invariant feeds == old(feeds)
        invariant feedItems == old(feedItems) + ItemsOf(doc.items[..k], doc.title, origin, store.readStatus, lib)
      {
        var raw := doc.items[k];
        var item := MakeItem(raw, doc.title, origin, store.GetFeedItemReadStatus(raw.link), lib);
        ItemsOfStep(doc.items, k, doc.title, origin, store.readStatus, lib);
        feedItems := feedItems + [item];
        k := k + 1;
      }
      assert doc.items[..|doc.items|] == doc.items;
    }

    /**
     * The state logic of handleAddFeed (main.go:236-333). An empty URL and a
     * failed fetch answer with an error page, a known URL with a redirect,
     * all without change. Otherwise the feed is appended whether or not the
     * save succeeds, its items are appended and the list is sorted.
     */
    method HandleAddFeed(feedURL: string, fetch: Models.Fetcher, lib: Models.TimeLib) returns (response: AddResponse)
      modifies this, store
      ensures store.readStatus == old(store.readStatus)
      ensures feedURL == "" ==> response == EmptyURLPage
      ensures feedURL != "" && fetch(feedURL).None? ==> response == ParseErrorPage
      ensures feedURL != "" && fetch(feedURL).Some? ==> response == Redirect
      ensures feedURL == "" || fetch(feedURL).None? || Subscribed(old(feeds), feedURL) ==>
                feeds == old(feeds) && feedItems == old(feedItems) && store.feeds == old(store.feeds)
      ensures feedURL != "" && fetch(feedURL).Some? && !Subscribed(old(feeds), feedURL) ==>
                var doc := fetch(feedURL).value;
                var newFeed := Feed(feedURL, doc.title);
                && feeds == old(feeds) + [newFeed]
                && (store.feeds == old(store.feeds) || store.feeds == old(store.feeds)[feedURL := newFeed])
                && multiset(feedItems) == multiset(old(feedItems) + ItemsOf(doc.items, doc.title, feedURL, store.readStatus, lib))
                && SortedByDate(feedItems)
                && (old(InSync()) ==> (InSync() <==> feedURL in store.feeds))
    {
      if feedURL == "" {
        return EmptyURLPage;
      }
      var parsed := fetch(feedURL);
      if parsed.None? {
        return ParseErrorPage;
      }
      var doc := parsed.value;
      response := Redirect;

      var i := 0;
      while i < |feeds|
        invariant 0 <= i <= |feeds|
        invariant forall j :: 0 <= j < i ==> feeds[j].url != feedURL
      {
        if feeds[i].url == feedURL {
          return;
        }
        i := i + 1;
      }

      var newFeed := Feed(feedURL, doc.title);
      feeds := feeds + [newFeed];
      var err := store.SaveFeedToDB(newFeed);
      AppendItems(doc, newFeed.url, lib);
      SortFeedItemsByDate();
      if old(InSync()) {
        SubscribedIsKeyed(old(feeds), feedURL);
        Mirror.StoreAppend(old(feeds), URLOf, old(store.feeds), store.feeds, newFeed);
      }
    }

    /**
     * The state logic of handleRemoveFeed (main.go:340-367): an empty URL
     * changes nothing; otherwise the first feed with that URL is dropped, a
     * failed delete is only logged, and the list is always rebuilt.
     */
    method HandleRemoveFeed(feedURL: string, fetch: Models.Fetcher, lib: Models.TimeLib)
      modifies this, store
      ensures store.readStatus == old(store.readStatus)
      ensures feedURL == "" ==> feeds == old(feeds) && feedItems == old(feedItems) && store.feeds == old(store.feeds)
      ensures feedURL != "" ==>
                && feeds == RemoveFirst(old(feeds), HasURL(feedURL))
                && Refreshed(fetch, lib)
                && (store.feeds == old(store.feeds) || store.feeds == old(store.feeds) - {feedURL})
                && (FirstIndex(old(feeds), HasURL(feedURL)) == |old(feeds)| ==> store.feeds == old(store.feeds))
                && (old(InSync()) ==> (InSync() <==> feedURL !in store.feeds))
    {
      if feedURL != "" {
        var i := 0;
        while i < |feeds| && feeds[i].url != feedURL
          invariant 0 <= i <= |feeds|
          invariant forall j :: 0 <= j < i ==> feeds[j].url != feedURL
        {
          i := i + 1;
        }
        assert i == FirstIndex(feeds, HasURL(feedURL));
        if i < |feeds| {
          feeds := feeds[..i] + feeds[i + 1..];
          var err := store.RemoveFeedFromDB(feedURL);
        }
        RefreshFeeds(fetch, lib);
        if old(InSync()) {
          Mirror.StoreRemoveFirst(old(feeds), URLOf, old(store.feeds), store.feeds, HasURL(feedURL), feedURL);
        }
      }
    }

    /**
     * The state logic of handleToggleReadStatus (main.go:427-458): an empty
     * link changes nothing; otherwise the negation of the stored flag is
     * written and the first item with that link is patched even if the
     * write failed.
     */
    method HandleToggleReadStatus(itemLink: string)
      modifies this, store
      ensures feeds == old(feeds) && store.feeds == old(store.feeds)
      ensures itemLink == "" ==> feedItems == old(feedItems) && store.readStatus == old(store.readStatus)
      ensures itemLink != "" ==>
                var newStatus := !old(store.GetFeedItemReadStatus(itemLink));
                && feedItems == WithRead(old(feedItems), itemLink, newStatus)
                && (store.readStatus == old(store.readStatus)
                    || store.readStatus == old(store.readStatus)[itemLink := Database.EncodeFlag(newStatus)])
    {
      if itemLink == "" {
        return;
      }
      var currentStatus := store.GetFeedItemReadStatus(itemLink);
      var newStatus := !currentStatus;
      var err := store.SetFeedItemReadStatus(itemLink, newStatus);
      var i := 0;
      while i < |feedItems| && feedItems[i].link != itemLink
        invariant 0 <= i <= |feedItems|
        invariant forall j :: 0 <= j < i ==> feedItems[j].link != itemLink
      {
        i := i + 1;
      }
      assert i == FirstIndex(feedItems, HasLink(itemLink));
      if i < |feedItems| {
        feedItems := feedItems[i := feedItems[i].(read := newStatus)];
      }
    }

    /**
     * The state logic of handleMarkAllRead (main.go:461-481): each unread
     * item is written as read, failures are only logged, and every item is
     * read in memory.
     */
    method HandleMarkAllRead()
      modifies this, store
      ensures feeds == old(feeds) && store.feeds == old(store.feeds)
      ensures |feedItems| == |old(feedItems)|
      ensures forall k :: 0 <= k < |feedItems| ==> feedItems[k] == old(feedItems)[k].(read := true)
      ensures Database.WritesOnlyTrue(old(store.readStatus), store.readStatus, UnreadLinks(old(feedItems)))
    {
      var i := 0;
      while i < |feedItems|
        invariant 0 <= i <= |feedItems| == |old(feedItems)|
        invariant forall k :: 0 <= k < i ==> feedItems[k] == old(feedItems)[k].(read := true)
        invariant forall k :: i <= k < |feedItems| ==> feedItems[k] == old(feedItems)[k]
        invariant feeds == old(feeds) && store.feeds == old(store.feeds)
        invariant Database.WritesOnlyTrue(old(store.readStatus), store.readStatus, UnreadLinks(old(feedItems)))
      {
        var item := feedItems[i];
        if !item.read {
          assert item in old(feedItems);
          var err := store.SetFeedItemReadStatus(item.link, true);
          feedItems := feedItems[i := item.(read := true)];
        }
        i := i + 1;
      }
    }

    /** sortFeedItemsByDate (main.go:507-511) applied to the global list. */
    method SortFeedItemsByDate()
      modifies this
      ensures feeds == old(feeds)
      ensures multiset(feedItems) == multiset(old(feedItems))
      ensures SortedByDate(feedItems)
    {
      feedItems := SortDesc(feedItems, PublishedTime);
    }

    /**
     * The filter of handleIndex (main.go:181-217): the status filter defaults
     * to "all"; items of one feed when a URL is given, then only the unread
     * ones for "unread" and all of them for any other filter, "favorites"
     * included. Returns the effective filter with the items.
     */
    function IndexItems(filterParam: string, feedURL: string): (r: (string, seq<FeedItem>))
      reads this
      ensures r.0 == if filterParam == "" then "all" else filterParam
      ensures forall k :: 0 <= k < |r.1| ==> r.1[k] in feedItems && Shown(r.1[k], r.0, feedURL)
      ensures forall k :: 0 <= k < |feedItems| && Shown(feedItems[k], r.0, feedURL) ==> feedItems[k] in r.1
    {
      var currentFilter := if filterParam == "" then "all" else filterParam;
      var working := if feedURL != "" then Select(feedItems, FromFeed(feedURL)) else feedItems;
      var shown := if currentFilter == "unread" then Select(working, IsUnread) else working;
      (currentFilter, shown)
    }
  }

  /** The index view is one selection by the item filter of the effective status filter. */
  lemma IndexSelect(a: App, filterParam: string, feedURL: string)
    ensures var r := a.IndexItems(filterParam, feedURL);
            r.1 == Select(a.feedItems, ShownBy(r.0, feedURL))
  {
    var filter := a.IndexItems(filterParam, feedURL).0;
    var items := a.feedItems;
    var shown := ShownBy(filter, feedURL);
    var status: FeedItem -> bool := if filter == "unread" then IsUnread else (item: FeedItem) => true;
    var working := if feedURL != "" then Select(items, FromFeed(feedURL)) else items;
    if feedURL != "" {
      SelectSelect(items, FromFeed(feedURL), status, shown);
    } else {
      SelectExt(items, status, shown);
    }
    if filter != "unread" {
      SelectAll(working, status);
    }
  }

  /** The index view is one order-preserving selection; "favorites" shows everything. */
  lemma IndexIsSelection(a: App, filterParam: string, feedURL: string)
    ensures var r := a.IndexItems(filterParam, feedURL);
            r.1 == Select(a.feedItems, ShownBy(r.0, feedURL))
    ensures IsSubsequence(a.IndexItems(filterParam, feedURL).1, a.feedItems)
    ensures SortedByDate(a.feedItems) ==> SortedByDate(a.IndexItems(filterParam, feedURL).1)
    ensures a.IndexItems("favorites", "").1 == a.feedItems
  {
    var r := a.IndexItems(filterParam, feedURL);
    IndexSelect(a, filterParam, feedURL);
    SelectIsSubsequence(a.feedItems, ShownBy(r.0, feedURL));
    if SortedByDate(a.feedItems) {
      SortedSubsequence(r.1, a.feedItems, PublishedTime);
    }
    IndexSelect(a, "favorites", "");
    SelectAll(a.feedItems, ShownBy("favorites", ""));
  }

  /** The record main.go keeps for a Manager item: the favorite flag dropped. */
  function Project(item: Models.FeedItem): FeedItem
  {
    FeedItem(item.title, item.link, item.description, item.published, item.feedTitle,
             item.publishedTime, item.read, item.feedURLOrigin)
  }

  /**
   * Over the same items, the index page of main.go and the Manager's view
   * show the same items in the same order for every filter but "favorites"
   * (an empty filter counts as "all" in both).
   */
  lemma ViewsAgreeExceptFavorites(a: App, m: Feeds.Manager, filterParam: string, feedURL: string)
    requires a.feedItems == MapSeq(m.feedItems, Project)
    requires filterParam != "favorites"
    ensures a.IndexItems(filterParam, feedURL).1 == MapSeq(m.GetFilteredItems(filterParam, feedURL), Project)
  {
    IndexIsSelection(a, filterParam, feedURL);
    Feeds.FilteredIsSelection(m, filterParam, feedURL);
    var filter := if filterParam == "" then "all" else filterParam;
    SelectMap(m.feedItems, Feeds.ShownBy(filterParam, feedURL), Project, ShownBy(filter, feedURL));
  }
}
