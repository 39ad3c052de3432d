/**
 * The aggregation engine (internal/feeds/feeds.go): the subscribed feeds, the
 * merged reading list built from them, and the operations that rebuild,
 * extend, filter and annotate that list.
 */
module Feeds {

  import opened Wrappers
  import opened Models
  import opened Sequences
  import opened Ordering
  import Dates
  import Database
  import Mirror

  // ---------------------------------------------------------------------------
  // Item predicates and orders

  function PublishedTime(item: FeedItem): int { item.publishedTime }

  /** The merged list is ordered by publication time, latest first. */
  predicate SortedByDate(items: seq<FeedItem>)
  {
    SortedDesc(items, PublishedTime)
  }

  function IsUnread(item: FeedItem): bool { !item.read }

  function IsFavorite(item: FeedItem): bool { item.favorite }

  function FromFeed(feedURL: string): FeedItem -> bool
  {
    (item: FeedItem) => item.feedURLOrigin == feedURL
  }

  function UnreadFrom(feedURL: string): FeedItem -> bool
  {
    (item: FeedItem) => !item.read && item.feedURLOrigin == feedURL
  }

  function HasLink(link: string): FeedItem -> bool
  {
    (item: FeedItem) => item.link == link
  }

  function HasURL(feedURL: string): Feed -> bool
  {
    (feed: Feed) => feed.url == feedURL
  }

  /** Some subscribed feed has this URL. */
  predicate Subscribed(feeds: seq<Feed>, feedURL: string)
  {
    exists i :: 0 <= i < |feeds| && feeds[i].url == feedURL
  }

  /** A feed's key in the store's feed bucket: SaveFeed keys a record by its URL. */
  function URLOf(feed: Feed): string { feed.url }

  /** Being subscribed is having a record keyed by that URL. */
  lemma SubscribedIsKeyed(feeds: seq<Feed>, feedURL: string)
    ensures Subscribed(feeds, feedURL) <==> Mirror.Keyed(feeds, URLOf, feedURL)
  {
    if Subscribed(feeds, feedURL) {
      var i :| 0 <= i < |feeds| && feeds[i].url == feedURL;
      assert URLOf(feeds[i]) == feedURL;
    }
  }

  /** Every item comes from a feed that is subscribed. */
  predicate OriginsSubscribed(feeds: seq<Feed>, items: seq<FeedItem>)
  {
    forall k :: 0 <= k < |items| ==> Subscribed(feeds, items[k].feedURLOrigin)
  }

  // ---------------------------------------------------------------------------
  // Building items from fetched documents

  /** The FeedItem for one fetched item (feeds.go:53-91). */
  function MakeItem(raw: RawItem, feedTitle: string, origin: string, read: bool, favorite: bool, lib: TimeLib): FeedItem
  {
    var (pubTime, formatted) := Dates.ResolveDate(raw, lib);
    FeedItem(raw.title, raw.link, raw.description, formatted, feedTitle, pubTime, read, favorite, origin)
  }

  /**
   * What a built item holds: the fetched item's own text, the document
   * title, the origin URL and the stored flags, dated by the date chain.
   */
  lemma MakeItemFields(raw: RawItem, feedTitle: string, origin: string, read: bool, favorite: bool, lib: TimeLib)
    ensures var item := MakeItem(raw, feedTitle, origin, read, favorite, lib);
            && item.title == raw.title && item.link == raw.link && item.description == raw.description
            && item.feedTitle == feedTitle && item.feedURLOrigin == origin
            && item.read == read && item.favorite == favorite
            && (Dates.HasDate(raw) ==> item.published == lib.format(item.publishedTime, Dates.DisplayLayout))
            && (!Dates.HasDate(raw) ==> item.publishedTime == ZeroTime && item.published == "")
            && (raw.publishedParsed.Some? ==> item.publishedTime == raw.publishedParsed.value)
  {
  }

  /**
   * The items built from a document's items, in document order, with their
   * read and favorite flags joined from the store's buckets by link.
   */
  function ItemsOf(raws: seq<RawItem>, feedTitle: string, origin: string,
                   readStatus: map<string, string>, favoriteStatus: map<string, string>, lib: TimeLib): (items: seq<FeedItem>)
    ensures |items| == |raws|
    ensures forall k :: 0 <= k < |items| ==>
              items[k] == MakeItem(raws[k], feedTitle, origin,
                                   Database.Flag(readStatus, raws[k].link),
                                   Database.Flag(favoriteStatus, raws[k].link), lib)
  {
    if raws == [] then []
    else
      var raw := raws[|raws| - 1];
      ItemsOf(raws[..|raws| - 1], feedTitle, origin, readStatus, favoriteStatus, lib)
        + [MakeItem(raw, feedTitle, origin, Database.Flag(readStatus, raw.link), Database.Flag(favoriteStatus, raw.link), lib)]
  }

  /** The items one feed contributes to a refresh: none when its fetch fails. */
  function FetchedItems(feed: Feed, fetch: Fetcher,
                        readStatus: map<string, string>, favoriteStatus: map<string, string>, lib: TimeLib): seq<FeedItem>
  {
    match fetch(feed.url)
    case None => []
    case Some(doc) => ItemsOf(doc.items, doc.title, feed.url, readStatus, favoriteStatus, lib)
  }

  /** The unsorted list a refresh gathers: each feed's items, in subscription order. */
  function Harvest(feeds: seq<Feed>, fetch: Fetcher,
                   readStatus: map<string, string>, favoriteStatus: map<string, string>, lib: TimeLib): seq<FeedItem>
  {
    if feeds == [] then []
    else Harvest(feeds[..|feeds| - 1], fetch, readStatus, favoriteStatus, lib)
           + FetchedItems(feeds[|feeds| - 1], fetch, readStatus, favoriteStatus, lib)
  }

  /** Every item comes from a subscribed feed whose document was fetched. */
  predicate FromFetchedFeeds(feeds: seq<Feed>, fetch: Fetcher, items: seq<FeedItem>)
  {
    forall k :: 0 <= k < |items| ==> Subscribed(feeds, items[k].feedURLOrigin) && fetch(items[k].feedURLOrigin).Some?
  }

  /**
   * Every gathered item comes from a subscribed feed whose fetch succeeded:
   * a feed that cannot be fetched contributes nothing.
   */
  lemma {:induction false} HarvestOrigins(feeds: seq<Feed>, fetch: Fetcher,
                                          readStatus: map<string, string>, favoriteStatus: map<string, string>, lib: TimeLib)
    ensures FromFetchedFeeds(feeds, fetch, Harvest(feeds, fetch, readStatus, favoriteStatus, lib))
  {
    if feeds != [] {
      var init := feeds[..|feeds| - 1];
      var last := feeds[|feeds| - 1];
      HarvestOrigins(init, fetch, readStatus, favoriteStatus, lib);
      var h0 := Harvest(init, fetch, readStatus, favoriteStatus, lib);
      var tail := FetchedItems(last, fetch, readStatus, favoriteStatus, lib);
      var h := Harvest(feeds, fetch, readStatus, favoriteStatus, lib);
      assert h == h0 + tail;
      forall k | 0 <= k < |h| ensures Subscribed(feeds, h[k].feedURLOrigin) && fetch(h[k].feedURLOrigin).Some? {
        if k < |h0| {
          assert h[k] == h0[k];
          assert Subscribed(init, h0[k].feedURLOrigin);
          var i :| 0 <= i < |init| && init[i].url == h0[k].feedURLOrigin;
          assert feeds[i] == init[i];
        } else {
          assert h[k] == tail[k - |h0|];
          assert fetch(last.url).Some?;
          assert h[k].feedURLOrigin == last.url;
        }
      }
    }
  }

  /** One more raw item appends its built item. */
  lemma ItemsOfStep(raws: seq<RawItem>, k: int, feedTitle: string, origin: string,
                    readStatus: map<string, string>, favoriteStatus: map<string, string>, lib: TimeLib)
    requires 0 <= k < |raws|
    ensures ItemsOf(raws[..k + 1], feedTitle, origin, readStatus, favoriteStatus, lib)
         == ItemsOf(raws[..k], feedTitle, origin, readStatus, favoriteStatus, lib)
            + [MakeItem(raws[k], feedTitle, origin, Database.Flag(readStatus, raws[k].link),
                        Database.Flag(favoriteStatus, raws[k].link), lib)]
  {
    assert raws[..k + 1][..k] == raws[..k];
  }

  /** One more feed appends what its fetch yields. */
  lemma HarvestStep(feeds: seq<Feed>, i: int, fetch: Fetcher,
                    readStatus: map<string, string>, favoriteStatus: map<string, string>, lib: TimeLib)
    requires 0 <= i < |feeds|
    ensures Harvest(feeds[..i + 1], fetch, readStatus, favoriteStatus, lib)
         == Harvest(feeds[..i], fetch, readStatus, favoriteStatus, lib)
            + FetchedItems(feeds[i], fetch, readStatus, favoriteStatus, lib)
  {
    assert feeds[..i + 1][..i] == feeds[..i];
  }

  /** Reordering a list keeps every item's origin subscribed. */
  lemma OriginsPermuted(feeds: seq<Feed>, items: seq<FeedItem>, items': seq<FeedItem>)
    requires multiset(items) == multiset(items')
    requires OriginsSubscribed(feeds, items)
    ensures OriginsSubscribed(feeds, items')
  {
    forall k | 0 <= k < |items'| ensures Subscribed(feeds, items'[k].feedURLOrigin) {
      assert items'[k] in multiset(items);
      var j :| 0 <= j < |items| && items[j] == items'[k];
    }
  }

  /** Appending a feed and items from it keeps every origin subscribed. */
  lemma OriginsAppended(feeds: seq<Feed>, feed: Feed, items: seq<FeedItem>, extra: seq<FeedItem>)
    requires OriginsSubscribed(feeds, items)
    requires forall k :: 0 <= k < |extra| ==> extra[k].feedURLOrigin == feed.url
    ensures OriginsSubscribed(feeds + [feed], items + extra)
  {
    var all := feeds + [feed];
    forall k | 0 <= k < |items + extra| ensures Subscribed(all, (items + extra)[k].feedURLOrigin) {
      if k < |items| {
        var j :| 0 <= j < |feeds| && feeds[j].url == items[k].feedURLOrigin;
        assert all[j] == feeds[j];
      } else {
        assert all[|feeds|] == feed;
      }
    }
  }

  /** `feeds` without the first feed whose URL is `feedURL`, if any. */
  function WithoutFirst(feeds: seq<Feed>, feedURL: string): seq<Feed>
  {
    RemoveFirst(feeds, HasURL(feedURL))
  }

  /** The URL appears at two positions of `feeds`. */
  predicate ListedTwice(feeds: seq<Feed>, feedURL: string)
  {
    exists i, j :: 0 <= i < j < |feeds| && feeds[i].url == feedURL && feeds[j].url == feedURL
  }

  /**
   * Removing the first match shortens the list by one exactly when the URL
   * was subscribed, keeps every other URL's subscription, and leaves the URL
   * itself subscribed exactly when it was listed twice.
   */
  lemma WithoutFirstSubscriptions(feeds: seq<Feed>, feedURL: string)
    ensures |WithoutFirst(feeds, feedURL)| == if Subscribed(feeds, feedURL) then |feeds| - 1 else |feeds|
    ensures forall u :: u != feedURL ==> (Subscribed(WithoutFirst(feeds, feedURL), u) <==> Subscribed(feeds, u))
    ensures Subscribed(WithoutFirst(feeds, feedURL), feedURL) <==> ListedTwice(feeds, feedURL)
  {
    var k := FirstIndex(feeds, HasURL(feedURL));
    var r := WithoutFirst(feeds, feedURL);
    if k < |feeds| {
      assert forall j :: 0 <= j < k ==> r[j] == feeds[j];
      assert forall j :: k <= j < |r| ==> r[j] == feeds[j + 1];
      forall u ensures Subscribed(r, u) ==> Subscribed(feeds, u) {
        if Subscribed(r, u) {
          var j :| 0 <= j < |r| && r[j].url == u;
          if j >= k { assert feeds[j + 1].url == u; }
        }
      }
      forall u | u != feedURL ensures Subscribed(feeds, u) ==> Subscribed(r, u) {
        if Subscribed(feeds, u) {
          var j :| 0 <= j < |feeds| && feeds[j].url == u;
          if j < k { assert r[j].url == u; } else { assert j != k; assert r[j - 1].url == u; }
        }
      }
      if Subscribed(r, feedURL) {
        var j :| 0 <= j < |r| && r[j].url == feedURL;
        assert j >= k;
        assert feeds[k].url == feedURL && feeds[j + 1].url == feedURL;
      }
      if ListedTwice(feeds, feedURL) {
        var i, j :| 0 <= i < j < |feeds| && feeds[i].url == feedURL && feeds[j].url == feedURL;
        assert k <= i;
        assert r[j - 1].url == feedURL;
      }
    }
  }

  /**
   * Dropping the first feed with a URL while the delete of its key may or
   * may not commit: starting from feeds in sync with the stored keys, the
   * URL was subscribed exactly when it was stored, and the remaining feeds
   * (recounted or not) are in sync exactly when the key is gone.
   */
  lemma RemovalSync(before: seq<Feed>, stored: map<string, Feed>, stored': map<string, Feed>,
                    feedURL: string, items: seq<FeedItem>)
    requires Mirror.Mirrors(before, URLOf, stored.Keys)
    requires stored' == stored || stored' == stored - {feedURL}
    ensures Subscribed(before, feedURL) <==> feedURL in stored
    ensures Mirror.Mirrors(WithoutFirst(before, feedURL), URLOf, stored'.Keys) <==> feedURL !in stored'
    ensures Mirror.Mirrors(Recount(WithoutFirst(before, feedURL), items), URLOf, stored'.Keys) <==> feedURL !in stored'
  {
    SubscribedIsKeyed(before, feedURL);
    Mirror.StoreRemoveFirst(before, URLOf, stored, stored', HasURL(feedURL), feedURL);
    RecountMirrors(WithoutFirst(before, feedURL), items, stored'.Keys);
  }

  // ---------------------------------------------------------------------------
  // Unread counts

  /** An earlier feed in the list has the same URL as feed `i`. */
  predicate EarlierDuplicate(feeds: seq<Feed>, i: int)
    requires 0 <= i < |feeds|
  {
    exists j :: 0 <= j < i && feeds[j].url == feeds[i].url
  }

  /**
   * The unread count feed `i` should show: the number of unread items whose
   * origin is its URL, or 0 when an earlier feed has the same URL (that one
   * takes all the counts).
   */
  function UnreadTally(feeds: seq<Feed>, i: int, items: seq<FeedItem>): int
    requires 0 <= i < |feeds|
  {
    if EarlierDuplicate(feeds, i) then 0 else |Select(items, UnreadFrom(feeds[i].url))|
  }

  /** `feeds` with every unread count replaced by its tally over `items`. */
  function Recount(feeds: seq<Feed>, items: seq<FeedItem>): (r: seq<Feed>)
    ensures |r| == |feeds|
    ensures forall i :: 0 <= i < |feeds| ==> r[i] == feeds[i].(unreadCount := UnreadTally(feeds, i, items))
  {
    seq(|feeds|, i requires 0 <= i < |feeds| => feeds[i].(unreadCount := UnreadTally(feeds, i, items)))
  }

  /** Every feed shows the tally of its unread items. */
  predicate CountsMatch(feeds: seq<Feed>, items: seq<FeedItem>)
  {
    forall i :: 0 <= i < |feeds| ==> feeds[i].unreadCount == UnreadTally(feeds, i, items)
  }

  /** Tallies depend only on the feeds' URLs, so a recounted list is up to date. */
  lemma RecountMatches(feeds: seq<Feed>, items: seq<FeedItem>)
    ensures CountsMatch(Recount(feeds, items), items)
    ensures forall u :: Subscribed(Recount(feeds, items), u) <==> Subscribed(feeds, u)
  {
    var r := Recount(feeds, items);
    forall i | 0 <= i < |feeds| ensures UnreadTally(r, i, items) == UnreadTally(feeds, i, items) {
      assert EarlierDuplicate(r, i) <==> EarlierDuplicate(feeds, i) by {
        if EarlierDuplicate(feeds, i) {
          var j :| 0 <= j < i && feeds[j].url == feeds[i].url;
          assert r[j].url == r[i].url;
        }
        if EarlierDuplicate(r, i) {
          var j :| 0 <= j < i && r[j].url == r[i].url;
          assert feeds[j].url == feeds[i].url;
        }
      }
    }
    forall u ensures Subscribed(r, u) <==> Subscribed(feeds, u) {
      if Subscribed(r, u) {
        var i :| 0 <= i < |r| && r[i].url == u;
        assert feeds[i].url == u;
      }
      if Subscribed(feeds, u) {
        var i :| 0 <= i < |feeds| && feeds[i].url == u;
        assert r[i].url == u;
      }
    }
  }

  /** Recounting keeps the URLs, so it keeps a list mirroring the stored keys in sync. */
  lemma RecountMirrors(feeds: seq<Feed>, items: seq<FeedItem>, keys: set<string>)
    ensures Mirror.Mirrors(Recount(feeds, items), URLOf, keys) <==> Mirror.Mirrors(feeds, URLOf, keys)
  {
    var r := Recount(feeds, items);
    assert forall i :: 0 <= i < |feeds| ==> URLOf(feeds[i]) == URLOf(r[i]);
    Mirror.MirrorsPointwise(feeds, r, URLOf, keys);
  }

  /**
   * Counting one more item: it adds 1 to the first feed whose URL is its
   * origin, if it is unread, and nothing to any other feed.
   */
  lemma {:induction false} TallyStep(feeds: seq<Feed>, items: seq<FeedItem>, n: int, i: int)
    requires 0 <= n < |items| && 0 <= i < |feeds|
    ensures UnreadTally(feeds, i, items[..n + 1])
         == UnreadTally(feeds, i, items[..n])
            + (if !items[n].read && i == FirstIndex(feeds, HasURL(items[n].feedURLOrigin)) then 1 else 0)
  {
    var x := items[n];
    assert items[..n + 1] == items[..n] + [x];
    SelectAppend(items[..n], x, UnreadFrom(feeds[i].url));
    var first := FirstIndex(feeds, HasURL(x.feedURLOrigin));
    if EarlierDuplicate(feeds, i) {
      var j :| 0 <= j < i && feeds[j].url == feeds[i].url;
      assert i != first;
    } else if feeds[i].url == x.feedURLOrigin {
      assert first == i;
    }
  }

  /** Once every item is read, every tally is 0. */
  lemma AllReadTalliesZero(feeds: seq<Feed>, items: seq<FeedItem>)
    requires forall k :: 0 <= k < |items| ==> items[k].read
    ensures forall i :: 0 <= i < |feeds| ==> UnreadTally(feeds, i, items) == 0
  {
    forall i | 0 <= i < |feeds| ensures UnreadTally(feeds, i, items) == 0 {
      SelectNone(items, UnreadFrom(feeds[i].url));
    }
  }

  /**
   * Tallies only look at each item's read flag and origin: changing anything
   * else (a favorite flag, say) leaves every tally as it was.
   */
  lemma TalliesIgnoreOtherFields(feeds: seq<Feed>, items: seq<FeedItem>, items': seq<FeedItem>)
    requires |items| == |items'|
    requires forall k :: 0 <= k < |items| ==>
               items[k].read == items'[k].read && items[k].feedURLOrigin == items'[k].feedURLOrigin
    ensures forall i :: 0 <= i < |feeds| ==> UnreadTally(feeds, i, items) == UnreadTally(feeds, i, items')
  {
    forall i | 0 <= i < |feeds| ensures UnreadTally(feeds, i, items) == UnreadTally(feeds, i, items') {
      SelectLengthPointwise(items, UnreadFrom(feeds[i].url), items', UnreadFrom(feeds[i].url));
    }
  }

  // ---------------------------------------------------------------------------
  // Per-item status patches

  /** `items` with the first item whose link is `link` set to read-state `read`. */
  function WithRead(items: seq<FeedItem>, link: string, read: bool): (r: seq<FeedItem>)
    ensures |r| == |items|
  {
    var k := FirstIndex(items, HasLink(link));
    if k < |items| then items[k := items[k].(read := read)] else items
  }

  /** `items` with the first item whose link is `link` set to favorite-state `favorite`: WithRead's patch on the other flag. */
  function WithFavorite(items: seq<FeedItem>, link: string, favorite: bool): (r: seq<FeedItem>)
    ensures |r| == |items|
  {
    var k := FirstIndex(items, HasLink(link));
    if k < |items| then items[k := items[k].(favorite := favorite)] else items
  }

  /**
   * Toggling an item's read flag twice restores the list, provided the cached
   * flag of the first item with that link agreed with the stored one (the
   * store side is FlagAfterWrite applied twice).
   */
  lemma ToggleReadTwice(items: seq<FeedItem>, link: string, stored: bool)
    requires FirstIndex(items, HasLink(link)) < |items| ==> items[FirstIndex(items, HasLink(link))].read == stored
    ensures WithRead(WithRead(items, link, !stored), link, stored) == items
  {
    var k := FirstIndex(items, HasLink(link));
    var items1 := WithRead(items, link, !stored);
    FirstIndexPointwise(items, items1, HasLink(link));
    if k < |items| {
      assert items1[k].(read := stored) == items[k];
      assert items1[k := items1[k].(read := stored)] == items;
    }
  }

  /** The same for the favorite flag. */
  lemma ToggleFavoriteTwice(items: seq<FeedItem>, link: string, stored: bool)
    requires FirstIndex(items, HasLink(link)) < |items| ==> items[FirstIndex(items, HasLink(link))].favorite == stored
    ensures WithFavorite(WithFavorite(items, link, !stored), link, stored) == items
  {
    var k := FirstIndex(items, HasLink(link));
    var items1 := WithFavorite(items, link, !stored);
    FirstIndexPointwise(items, items1, HasLink(link));
    if k < |items| {
      assert items1[k].(favorite := stored) == items[k];
      assert items1[k := items1[k].(favorite := stored)] == items;
    }
  }

  /** Patching flags keeps every publication time, so the list stays in date order. */
  lemma PatchKeepsOrder(items: seq<FeedItem>, items': seq<FeedItem>)
    requires SortedByDate(items)
    requires |items| == |items'|
    requires forall k :: 0 <= k < |items| ==> items'[k].publishedTime == items[k].publishedTime
    ensures SortedByDate(items')
  {
    forall i, j | 0 <= i < j < |items'| ensures PublishedTime(items'[i]) >= PublishedTime(items'[j]) {
      assert PublishedTime(items[i]) >= PublishedTime(items[j]);
    }
  }

  // ---------------------------------------------------------------------------
  // The view filter

  /** An item is shown by the view with these parameters. */
  predicate Shown(item: FeedItem, filter: string, feedURL: string)
  {
    && (feedURL == "" || item.feedURLOrigin == feedURL)
    && (filter == "unread" ==> !item.read)
    && (filter == "favorites" ==> item.favorite)
  }

  function ShownBy(filter: string, feedURL: string): FeedItem -> bool
  {
    (item: FeedItem) => Shown(item, filter, feedURL)
  }

  /** Outcome of AddFeed: `(*Feed, error)` with the nil/nil "already subscribed" case made explicit. */
  datatype AddError = FetchError | SaveError
  datatype AddResult = Added(feed: Feed) | AlreadySubscribed | Failed(error: AddError)

  // ---------------------------------------------------------------------------
  // The manager

  class Manager {
    const db: Database.DB
    var feeds: seq<Feed>
    var feedItems: seq<FeedItem>

    /** Every feed's unread count is up to date. */
    ghost predicate CountsUpToDate()
      reads this
    {
      CountsMatch(feeds, feedItems)
    }

    /**
     * The feeds in memory are the records of the store's feed bucket: their
     * URLs are distinct and are exactly the stored keys.
     */
    ghost predicate InSync()
      reads this, db
    {
      Mirror.Mirrors(feeds, URLOf, db.feeds.Keys)
    }

    /**
     * The list is a full rebuild from the feeds `from` against the current
     * store: the gathered items in date order, and `feeds` is `from` with
     * fresh counts.
     */
    ghost predicate RefreshedFrom(from: seq<Feed>, fetch: Fetcher, lib: TimeLib)
      reads this, db
    {
      && feeds == Recount(from, feedItems)
      && multiset(feedItems) == multiset(Harvest(from, fetch, db.readStatus, db.favoriteStatus, lib))
      && SortedByDate(feedItems)
      && CountsUpToDate()
      && OriginsSubscribed(feeds, feedItems)
    }

    /**
     * NewManager (feeds.go:24-39), given the feeds LoadFeeds returned: the
     * records of the feed bucket, one per key, in the bucket's order
     * (database.go:61-82).
     */
    constructor (db: Database.DB, loaded: seq<Feed>, fetch: Fetcher, lib: TimeLib)
      requires Mirror.Mirrors(loaded, URLOf, db.feeds.Keys)
      requires forall i :: 0 <= i < |loaded| ==> loaded[i].url in db.feeds && db.feeds[loaded[i].url] == loaded[i]
      ensures this.db == db
      ensures RefreshedFrom(loaded, fetch, lib)
      ensures InSync()
    {
      this.db := db;
      feeds := loaded;
      feedItems := [];
      new;
      RefreshFeeds(fetch, lib);
    }

    /**
     * RefreshFeeds (feeds.go:42-96): discards the list and rebuilds it from
     * every feed in subscription order, skipping feeds whose fetch fails;
     * then sorts and recounts.
     */
    method RefreshFeeds(fetch: Fetcher, lib: TimeLib)
      modifies this
      ensures RefreshedFrom(old(feeds), fetch, lib)
      ensures old(InSync()) ==> InSync()
    {
      Gather(fetch, lib);
      ghost var gathered := feedItems;
      HarvestOrigins(feeds, fetch, db.readStatus, db.favoriteStatus, lib);
      assert OriginsSubscribed(feeds, gathered);
      SortFeedItemsByDate();
      OriginsPermuted(feeds, gathered, feedItems);
      UpdateUnreadCounts();
      RecountMatches(old(feeds), feedItems);
      RecountMirrors(old(feeds), feedItems, db.feeds.Keys);
    }

    /**
     * The gathering loop of RefreshFeeds (feeds.go:45-91): the list is
     * replaced by each feed's items in subscription order, a feed whose
     * fetch fails contributing nothing.
     */
    method Gather(fetch: Fetcher, lib: TimeLib)
      modifies this
      ensures feeds == old(feeds)
      ensures feedItems == Harvest(feeds, fetch, db.readStatus, db.favoriteStatus, lib)
    {
      feedItems := [];
      var i := 0;
      while i < |feeds|
        invariant 0 <= i <= |feeds|
        invariant feeds == old(feeds)
        invariant feedItems == Harvest(feeds[..i], fetch, db.readStatus, db.favoriteStatus, lib)
      {
        var feed := feeds[i];
        HarvestStep(feeds, i, fetch, db.readStatus, db.favoriteStatus, lib);
        var parsed := fetch(feed.url);
        if parsed.Some? {
          AppendItems(parsed.value, feed.url, lib);
        }
        i := i + 1;
      }
      assert feeds[..|feeds|] == feeds;
    }

    /** The reset loop of UpdateUnreadCounts (feeds.go:300-302): every count becomes 0. */
    method ResetCounts()
      modifies this
      ensures feedItems == old(feedItems)
      ensures |feeds| == |old(feeds)|
      ensures forall k :: 0 <= k < |feeds| ==> feeds[k] == old(feeds)[k].(unreadCount := 0)
    {
      var i := 0;
      while i < |feeds|
        invariant 0 <= i <= |feeds| == |old(feeds)|
        invariant feedItems == old(feedItems)
        invariant forall k :: 0 <= k < |feeds| ==> feeds[k] == old(feeds)[k].(unreadCount := if k < i then 0 else old(feeds)[k].unreadCount)
      {
        feeds := feeds[i := feeds[i].(unreadCount := 0)];
        i := i + 1;
      }
    }

    /**
     * One step of the counting loop of UpdateUnreadCounts (feeds.go:305-315):
     * item `n`, if unread, adds 1 to the first feed whose URL is its origin,
     * so every count goes from its tally over the first `n` items to its
     * tally over the first `n + 1`.
     */
    method CountItem(ghost from: seq<Feed>, n: nat)
      requires n < |feedItems| && |feeds| == |from|
      requires forall k :: 0 <= k < |from| ==> feeds[k] == from[k].(unreadCount := UnreadTally(from, k, feedItems[..n]))
      modifies this
      ensures feedItems == old(feedItems) && |feeds| == |from|
      ensures forall k :: 0 <= k < |from| ==> feeds[k] == from[k].(unreadCount := UnreadTally(from, k, feedItems[..n + 1]))
    {
      var item := feedItems[n];
      if !item.read {
        var j := FindFeed(item.feedURLOrigin);
        assert forall m :: 0 <= m < |feeds| ==> feeds[m].url == from[m].url;
        FirstIndexPointwise(feeds, from, HasURL(item.feedURLOrigin));
        if j < |feeds| {
          feeds := feeds[j := feeds[j].(unreadCount := feeds[j].unreadCount + 1)];
        }
      }
      forall k | 0 <= k < |from|
        ensures feeds[k] == from[k].(unreadCount := UnreadTally(from, k, feedItems[..n + 1]))
      {
        TallyStep(from, feedItems, n, k);
      }
    }

    /**
     * The "first feed with this URL" search of AddFeed (feeds.go:108-112),
     * RemoveFeed (feeds.go:176-186) and UpdateUnreadCounts (feeds.go:307-313).
     */
    method FindFeed(feedURL: string) returns (i: nat)
      ensures i == FirstIndex(feeds, HasURL(feedURL))
    {
      i := 0;
      while i < |feeds| && feeds[i].url != feedURL
        invariant 0 <= i <= |feeds|
        invariant forall j :: 0 <= j < i ==> feeds[j].url != feedURL
      {
        i := i + 1;
      }
    }

    /**
     * The splice of RemoveFeed (feeds.go:176-186): the first feed with that
     * URL, if any, leaves the list; reports whether one did.
     */
    method DropFeed(feedURL: string) returns (found: bool)
      modifies this
      ensures feedItems == old(feedItems)
      ensures feeds == WithoutFirst(old(feeds), feedURL)
      ensures found <==> Subscribed(old(feeds), feedURL)
    {
      var i := FindFeed(feedURL);
      found := i < |feeds|;
      if found {
        assert feeds[i].url == feedURL;
        feeds := feeds[..i] + feeds[i + 1..];
      }
    }

    /** The "first item with this link" search of the toggles (feeds.go:204-210, 225-231). */
    method FindItem(link: string) returns (i: nat)
      ensures i == FirstIndex(feedItems, HasLink(link))
    {
      i := 0;
      while i < |feedItems| && feedItems[i].link != link
        invariant 0 <= i <= |feedItems|
        invariant forall j :: 0 <= j < i ==> feedItems[j].link != link
      {
        i := i + 1;
      }
    }

    /**
     * The item-building loop shared by RefreshFeeds (feeds.go:52-91) and
     * AddFeed (feeds.go:128-167): appends one item per document item, in
     * document order, with its flags read from the store.
     */
    method AppendItems(doc: Doc, origin: string, lib: TimeLib)
      modifies this
      ensures feeds == old(feeds)
      ensures feedItems == old(feedItems) + ItemsOf(doc.items, doc.title, origin, db.readStatus, db.favoriteStatus, lib)
    {
      var k := 0;
      while k < |doc.items|
        invariant 0 <= k <= |doc.items|
        invariant feeds == old(feeds)
        invariant feedItems == old(feedItems) + ItemsOf(doc.items[..k], doc.title, origin, db.readStatus, db.favoriteStatus, lib)
      {
        var raw := doc.items[k];
        var item := MakeItem(raw, doc.title, origin,
                             db.GetFeedItemReadStatus(raw.link), db.GetFeedItemFavoriteStatus(raw.link), lib);
        ItemsOfStep(doc.items, k, doc.title, origin, db.readStatus, db.favoriteStatus, lib);
        feedItems := feedItems + [item];
        k := k + 1;
      }
      assert doc.items[..|doc.items|] == doc.items;
    }

    /**
     * AddFeed (feeds.go:99-172). The fetch comes first, so a failing fetch
     * reports FetchError even for a URL already subscribed. A SaveFeed error
     * leaves the new feed appended but adds no items and does not recount.
     * The returned feed is the record as saved, with a zero unread count.
     */
    method AddFeed(feedURL: string, fetch: Fetcher, lib: TimeLib) returns (result: AddResult)
      modifies this, db
      ensures db.readStatus == old(db.readStatus) && db.favoriteStatus == old(db.favoriteStatus)
      ensures fetch(feedURL).None? ==> result == Failed(FetchError)
      ensures fetch(feedURL).Some? && Subscribed(old(feeds), feedURL) ==> result == AlreadySubscribed
      ensures result == Failed(FetchError) || result == AlreadySubscribed ==>
                feeds == old(feeds) && feedItems == old(feedItems) && db.feeds == old(db.feeds)
      ensures fetch(feedURL).Some? && !Subscribed(old(feeds), feedURL) ==>
                result == Failed(SaveError) || result == Added(Feed(feedURL, fetch(feedURL).value.title, 0))
      ensures result == Failed(SaveError) ==>
                && feeds == old(feeds) + [Feed(feedURL, fetch(feedURL).value.title, 0)]
                && feedItems == old(feedItems) && db.feeds == old(db.feeds)
      ensures result.Added? ==>
                && db.feeds == old(db.feeds)[feedURL := result.feed]
                && multiset(feedItems) == multiset(old(feedItems) + ItemsOf(fetch(feedURL).value.items, result.feed.title,
                                                                            feedURL, db.readStatus, db.favoriteStatus, lib))
                && SortedByDate(feedItems)
                && feeds == Recount(old(feeds) + [result.feed], feedItems)
                && CountsUpToDate()
      ensures old(OriginsSubscribed(feeds, feedItems)) ==> OriginsSubscribed(feeds, feedItems)
      ensures old(InSync()) ==> (InSync() <==> result != Failed(SaveError))
    {
      var parsed := fetch(feedURL);
      if parsed.None? {
        return Failed(FetchError);
      }
      var doc := parsed.value;

      var i := FindFeed(feedURL);
      if i < |feeds| {
        return AlreadySubscribed;
      }

      var newFeed := Feed(feedURL, doc.title, 0);
      feeds := feeds + [newFeed];

      var err := db.SaveFeed(newFeed);
      if err {
        if old(OriginsSubscribed(feeds, feedItems)) {
          OriginsAppended(old(feeds), newFeed, feedItems, []);
          assert feedItems + [] == feedItems;
        }
        if old(InSync()) {
          SubscribedIsKeyed(old(feeds), feedURL);
          Mirror.StoreAppend(old(feeds), URLOf, old(db.feeds), db.feeds, newFeed);
        }
        return Failed(SaveError);
      }

      AppendItems(doc, newFeed.url, lib);
      ghost var grown := feedItems;
      if old(OriginsSubscribed(feeds, feedItems)) {
        OriginsAppended(old(feeds), newFeed, old(feedItems),
                        ItemsOf(doc.items, doc.title, feedURL, db.readStatus, db.favoriteStatus, lib));
      }
      SortFeedItemsByDate();
      if old(OriginsSubscribed(feeds, feedItems)) {
        OriginsPermuted(feeds, grown, feedItems);
      }
      UpdateUnreadCounts();
      RecountMatches(old(feeds) + [newFeed], feedItems);
      if old(InSync()) {
        SubscribedIsKeyed(old(feeds), feedURL);
        Mirror.StoreAppend(old(feeds), URLOf, old(db.feeds), db.feeds, newFeed);
        RecountMirrors(old(feeds) + [newFeed], feedItems, db.feeds.Keys);
      }
      return Added(newFeed);
    }

    /**
     * RemoveFeed (feeds.go:175-192): drops the first feed with that URL and
     * deletes its key. If the delete fails the error is returned at once:
     * the feed stays dropped but the list is neither rebuilt nor recounted.
     * Otherwise (also when no feed matched) the list is rebuilt.
     */
    method RemoveFeed(feedURL: string, fetch: Fetcher, lib: TimeLib) returns (err: bool)
      modifies this, db
      ensures db.readStatus == old(db.readStatus) && db.favoriteStatus == old(db.favoriteStatus)
      ensures !Subscribed(old(feeds), feedURL) ==> !err && db.feeds == old(db.feeds)
      ensures err ==> feeds == WithoutFirst(old(feeds), feedURL) && feedItems == old(feedItems) && db.feeds == old(db.feeds)
      ensures !err ==> RefreshedFrom(WithoutFirst(old(feeds), feedURL), fetch, lib)
      ensures !err && Subscribed(old(feeds), feedURL) ==> db.feeds == old(db.feeds) - {feedURL}
      ensures old(InSync()) ==> (InSync() <==> !err)
    {
      err := false;
      var found := DropFeed(feedURL);
      if found {
        err := db.RemoveFeed(feedURL);
        if err {
          if old(InSync()) {
            RemovalSync(old(feeds), old(db.feeds), db.feeds, feedURL, feedItems);
          }
          return;
        }
      }
      RefreshFeeds(fetch, lib);
      if old(InSync()) {
        RemovalSync(old(feeds), old(db.feeds), db.feeds, feedURL, feedItems);
      }
    }

    /**
     * ToggleReadStatus (feeds.go:195-213): writes the negation of the STORED
     * flag. On a write error nothing in memory changes; otherwise only the
     * first item with that link is patched and the counts are recomputed.
     */
    method ToggleReadStatus(itemLink: string) returns (err: bool)
      modifies this, db
      ensures var newStatus := !old(db.GetFeedItemReadStatus(itemLink));
              && db.feeds == old(db.feeds) && db.favoriteStatus == old(db.favoriteStatus)
              && db.readStatus == (if err then old(db.readStatus)
                                   else old(db.readStatus)[itemLink := Database.EncodeFlag(newStatus)])
              && (err ==> feeds == old(feeds) && feedItems == old(feedItems))
              && (!err ==> && db.GetFeedItemReadStatus(itemLink) == newStatus
                           && feedItems == WithRead(old(feedItems), itemLink, newStatus)
                           && feeds == Recount(old(feeds), feedItems)
                           && CountsUpToDate())
      ensures old(SortedByDate(feedItems)) ==> SortedByDate(feedItems)
      ensures old(OriginsSubscribed(feeds, feedItems)) ==> OriginsSubscribed(feeds, feedItems)
      ensures old(InSync()) ==> InSync()
    {
      var currentStatus := db.GetFeedItemReadStatus(itemLink);
      var newStatus := !currentStatus;
      err := db.SetFeedItemReadStatus(itemLink, newStatus);
      if err {
        return;
      }
      PatchRead(itemLink, newStatus);
    }

    /**
     * The in-memory half of ToggleReadStatus (feeds.go:204-212): the first
     * item with that link takes the new flag, then the counts are recomputed.
     */
    method PatchRead(itemLink: string, read: bool)
      modifies this
      ensures feedItems == WithRead(old(feedItems), itemLink, read)
      ensures feeds == Recount(old(feeds), feedItems)
      ensures CountsUpToDate()
      ensures old(SortedByDate(feedItems)) ==> SortedByDate(feedItems)
      ensures old(OriginsSubscribed(feeds, feedItems)) ==> OriginsSubscribed(feeds, feedItems)
      ensures old(InSync()) ==> InSync()
    {
      var i := FindItem(itemLink);
      if i < |feedItems| {
        feedItems := feedItems[i := feedItems[i].(read := read)];
      }
      if old(SortedByDate(feedItems)) {
        PatchKeepsOrder(old(feedItems), feedItems);
      }
      UpdateUnreadCounts();
      RecountMatches(old(feeds), feedItems);
      RecountMirrors(old(feeds), feedItems, db.feeds.Keys);
      if old(OriginsSubscribed(feeds, feedItems)) {
        forall k | 0 <= k < |feedItems| ensures Subscribed(feeds, feedItems[k].feedURLOrigin) {
          assert feedItems[k].feedURLOrigin == old(feedItems)[k].feedURLOrigin;
        }
      }
    }

    /**
     * ToggleFavoriteStatus (feeds.go:216-234): as ToggleReadStatus on the
     * favorite flag; it never touches the feeds or their unread counts.
     */
    method ToggleFavoriteStatus(itemLink: string) returns (err: bool)
      modifies this, db
      ensures var newStatus := !old(db.GetFeedItemFavoriteStatus(itemLink));
              && db.feeds == old(db.feeds) && db.readStatus == old(db.readStatus)
              && db.favoriteStatus == (if err then old(db.favoriteStatus)
                                       else old(db.favoriteStatus)[itemLink := Database.EncodeFlag(newStatus)])
              && feeds == old(feeds)
              && (err ==> feedItems == old(feedItems))
              && (!err ==> db.GetFeedItemFavoriteStatus(itemLink) == newStatus
                           && feedItems == WithFavorite(old(feedItems), itemLink, newStatus))
      ensures old(CountsUpToDate()) ==> CountsUpToDate()
      ensures old(SortedByDate(feedItems)) ==> SortedByDate(feedItems)
      ensures old(OriginsSubscribed(feeds, feedItems)) ==> OriginsSubscribed(feeds, feedItems)
      ensures old(InSync()) ==> InSync()
    {
      var currentStatus := db.GetFeedItemFavoriteStatus(itemLink);
      var newStatus := !currentStatus;
      err := db.SetFeedItemFavoriteStatus(itemLink, newStatus);
      if err {
        return;
      }
      PatchFavorite(itemLink, newStatus);
    }

    /**
     * The in-memory half of ToggleFavoriteStatus (feeds.go:225-231): the
     * first item with that link takes the new flag; nothing else changes.
     */
    method PatchFavorite(itemLink: string, favorite: bool)
      modifies this
      ensures feeds == old(feeds)
      ensures feedItems == WithFavorite(old(feedItems), itemLink, favorite)
      ensures old(CountsUpToDate()) ==> CountsUpToDate()
      ensures old(SortedByDate(feedItems)) ==> SortedByDate(feedItems)
      ensures old(OriginsSubscribed(feeds, feedItems)) ==> OriginsSubscribed(feeds, feedItems)
    {
      var i := FindItem(itemLink);
      if i < |feedItems| {
        feedItems := feedItems[i := feedItems[i].(favorite := favorite)];
      }
      TalliesIgnoreOtherFields(feeds, old(feedItems), feedItems);
      if old(SortedByDate(feedItems)) {
        PatchKeepsOrder(old(feedItems), feedItems);
      }
      if old(OriginsSubscribed(feeds, feedItems)) {
        forall k | 0 <= k < |feedItems| ensures Subscribed(feeds, feedItems[k].feedURLOrigin) {
          assert feedItems[k].feedURLOrigin == old(feedItems)[k].feedURLOrigin;
        }
      }
    }

    /**
     * MarkAllRead (feeds.go:237-250): every unread item is written as read,
     * a failed write is logged and skipped, and every item is read in memory
     * whatever the writes did. It always returns nil, so it returns nothing here.
     */
    method MarkAllRead()
      modifies this, db
      ensures |feedItems| == |old(feedItems)|
      ensures forall k :: 0 <= k < |feedItems| ==> feedItems[k] == old(feedItems)[k].(read := true)
      ensures feeds == Recount(old(feeds), feedItems)
      ensures forall i :: 0 <= i < |feeds| ==> feeds[i].unreadCount == 0
      ensures CountsUpToDate()
      ensures db.feeds == old(db.feeds) && db.favoriteStatus == old(db.favoriteStatus)
      ensures Database.WritesOnlyTrue(old(db.readStatus), db.readStatus, UnreadLinks(old(feedItems)))
      ensures old(SortedByDate(feedItems)) ==> SortedByDate(feedItems)
      ensures old(OriginsSubscribed(feeds, feedItems)) ==> OriginsSubscribed(feeds, feedItems)
      ensures old(InSync()) ==> InSync()
    {
      var i := 0;
      while i < |feedItems|
        invariant 0 <= i <= |feedItems| == |old(feedItems)|
        invariant forall k :: 0 <= k < i ==> feedItems[k] == old(feedItems)[k].(read := true)
        invariant forall k :: i <= k < |feedItems| ==> feedItems[k] == old(feedItems)[k]
        invariant feeds == old(feeds)
        invariant db.feeds == old(db.feeds) && db.favoriteStatus == old(db.favoriteStatus)
        invariant Database.WritesOnlyTrue(old(db.readStatus), db.readStatus, UnreadLinks(old(feedItems)))
      {
        var item := feedItems[i];
        if !item.read {
          assert item in old(feedItems);
          var err := db.SetFeedItemReadStatus(item.link, true);
          feedItems := feedItems[i := item.(read := true)];
        }
        i := i + 1;
      }
      if old(SortedByDate(feedItems)) {
        PatchKeepsOrder(old(feedItems), feedItems);
      }
      UpdateUnreadCounts();
      AllReadTalliesZero(old(feeds), feedItems);
      RecountMatches(old(feeds), feedItems);
      RecountMirrors(old(feeds), feedItems, db.feeds.Keys);
      if old(OriginsSubscribed(feeds, feedItems)) {
        forall k | 0 <= k < |feedItems| ensures Subscribed(feeds, feedItems[k].feedURLOrigin) {
          assert feedItems[k].feedURLOrigin == old(feedItems)[k].feedURLOrigin;
        }
      }
    }

    /**
     * GetFilteredItems (feeds.go:253-289): keeps the items of one feed when a
     * URL is given, then the unread items for "unread", the favorites for
     * "favorites", and everything for any other filter. Order is kept.
     */
    function GetFilteredItems(filter: string, feedURL: string): (r: seq<FeedItem>)
      reads this
      ensures forall k :: 0 <= k < |r| ==> r[k] in feedItems && Shown(r[k], filter, feedURL)
      ensures forall k :: 0 <= k < |feedItems| && Shown(feedItems[k], filter, feedURL) ==> feedItems[k] in r
      ensures feedURL == "" && filter != "unread" && filter != "favorites" ==> r == feedItems
    {
      var working := if feedURL != "" then Select(feedItems, FromFeed(feedURL)) else feedItems;
      if filter == "unread" then Select(working, IsUnread)
      else if filter == "favorites" then Select(working, IsFavorite)
      else working
    }

    /**
     * SortFeedItemsByDate (feeds.go:292-296): a permutation of the list with
     * publication times non-increasing; ties in no promised order.
     */
    method SortFeedItemsByDate()
      modifies this
      ensures feeds == old(feeds)
      ensures multiset(feedItems) == multiset(old(feedItems))
      ensures SortedByDate(feedItems)
    {
      feedItems := SortDesc(feedItems, PublishedTime);
    }

    /**
     * UpdateUnreadCounts (feeds.go:299-316): resets every count, then adds
     * each unread item to the first feed whose URL is its origin. Items of no
     * subscribed feed are not counted; a repeated URL gets nothing.
     */
    method UpdateUnreadCounts()
      modifies this
      ensures feedItems == old(feedItems)
      ensures feeds == Recount(old(feeds), feedItems)
      ensures CountsUpToDate()
    {
      ghost var from := feeds;
      ResetCounts();
      var n := 0;
      while n < |feedItems|
        invariant 0 <= n <= |feedItems|
        invariant feedItems == old(feedItems)
        invariant |feeds| == |from|
        invariant forall k :: 0 <= k < |from| ==> feeds[k] == from[k].(unreadCount := UnreadTally(from, k, feedItems[..n]))
      {
        CountItem(from, n);
        n := n + 1;
      }
      assert feedItems[..|feedItems|] == feedItems;
      RecountMatches(from, feedItems);
    }
  }

  /** Reads of a manager's view are one selection, in list order. */
  lemma FilteredIsSelection(m: Manager, filter: string, feedURL: string)
    ensures m.GetFilteredItems(filter, feedURL) == Select(m.feedItems, ShownBy(filter, feedURL))
    ensures IsSubsequence(m.GetFilteredItems(filter, feedURL), m.feedItems)
    ensures SortedByDate(m.feedItems) ==> SortedByDate(m.GetFilteredItems(filter, feedURL))
  {
    var items := m.feedItems;
    var shown := ShownBy(filter, feedURL);
    var status: FeedItem -> bool :=
      if filter == "unread" then IsUnread else if filter == "favorites" then IsFavorite else (item: FeedItem) => true;
    var working := if feedURL != "" then Select(items, FromFeed(feedURL)) else items;
    if feedURL != "" {
      SelectSelect(items, FromFeed(feedURL), status, shown);
    } else {
      SelectExt(items, status, shown);
    }
    if filter != "unread" && filter != "favorites" {
      SelectAll(working, status);
    }
    SelectIsSubsequence(items, shown);
    if SortedByDate(items) {
      SortedSubsequence(m.GetFilteredItems(filter, feedURL), items, PublishedTime);
    }
  }

  /**
   * With counts up to date, a feed's unread count is the number of items the
   * "unread" view of that feed shows (the first feed with that URL).
   */
  lemma UnreadCountIsUnreadView(m: Manager, i: int)
    requires m.CountsUpToDate()
    requires 0 <= i < |m.feeds| && m.feeds[i].url != "" && !EarlierDuplicate(m.feeds, i)
    ensures m.feeds[i].unreadCount == |m.GetFilteredItems("unread", m.feeds[i].url)|
  {
    var u := m.feeds[i].url;
    SelectSelect(m.feedItems, FromFeed(u), IsUnread, UnreadFrom(u));
  }

  /**
   * After a successful RemoveFeed of a URL listed once, no item of that feed
   * remains in the list.
   */
  lemma RemovedFeedHasNoItems(m: Manager, before: seq<Feed>, feedURL: string, fetch: Fetcher, lib: TimeLib)
    requires m.RefreshedFrom(WithoutFirst(before, feedURL), fetch, lib)
    requires !ListedTwice(before, feedURL)
    ensures forall k :: 0 <= k < |m.feedItems| ==> m.feedItems[k].feedURLOrigin != feedURL
  {
    WithoutFirstSubscriptions(before, feedURL);
    RecountMatches(WithoutFirst(before, feedURL), m.feedItems);
  }

  /** The links of the items that are unread. */
  function UnreadLinks(items: seq<FeedItem>): set<string>
  {
    set item | item in items && !item.read :: item.link
  }
}
