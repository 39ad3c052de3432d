# deeL aggregation engine in Dafny

This project models the feed aggregation and per-item status engine of deeL, a small RSS/Atom reader written in Go, and proves properties of that model.

The engine keeps a list of subscribed feeds and one merged reading list built from every feed's items. Each item's read and favorite flags come from a key/value status store. The model covers:

- `feeds.Manager` (`internal/feeds/feeds.go`). A class with two fields, `feeds: seq<Feed>` and `feedItems: seq<FeedItem>`, plus the store it reads and writes. Its methods are refresh, add, remove, toggle read, toggle favorite, mark all read, sort and recount. The view filter is a function.
- The status store (`internal/database/database.go`). A class with three maps: feed records keyed by URL, read flags and favorite flags. A flag is stored as the string `"true"` or `"false"`. It reads as true only when the stored value is exactly `"true"`; an absent key reads as false.
- `utils.ParseDate` (`internal/utils/date.go`). It tries a fixed list of layouts and takes the first one that parses. If none parses, it returns the zero time with no error. `parseDate` in `main.go:484-504` is the same function and is modelled by the same member. The date chain that turns a fetched item into a timestamp and a display string appears four times in the source (`internal/feeds/feeds.go:54-79`, `internal/feeds/feeds.go:129-154`, `main.go:291-316`, `main.go:384-409`). It is defined once, as `Dates.ResolveDate`.
- The single-file server (`main.go`). It runs the same engine over package globals. It is modelled as a second class, `Legacy.App`, with its own store class, so the two variants can be compared. `Legacy.ViewsAgreeExceptFavorites` proves the two views agree for every filter except `"favorites"`.

Modelling choices:

- Time is an `int`. The zero time is `0`, and `time.Time.After` is `>`.
- Fetching and parsing a feed document is a function parameter `Fetcher = string -> Option<Doc>`.
- `time.Parse` and `time.Format` are the two function fields of a `TimeLib` parameter.
- A store write can fail for reasons outside the model, so each write method commits or fails nondeterministically and reports which.
- `sort.Slice` with the `After` comparator is modelled by an insertion sort on a sequence. The contracts promise only what the Go code promises: a permutation with non-increasing publication times. They say nothing about the order of ties.

Two behaviours of the date chain are easy to misread in the code:

- `internal/feeds/feeds.go:68-70` and `76-78` would display the raw date string, but they cannot run: `ParseDate` never returns an error (`internal/utils/date.go:30`). An item whose raw date no layout accepts gets the zero time, displayed as `Format(0)`. `Dates.UnparseableDateIsZero` states this.
- An item with no date at all gets an empty display string. `Dates.ResolveDate` states this.

The feeds in memory and the store's feed bucket are kept in step: the URLs held in memory are distinct and are exactly the bucket's keys (`Mirror.Mirrors`). Start-up establishes this, every successful subscribe and unsubscribe keeps it, and a failed save or delete breaks it, as in the Go code.

## Model

| member | source | states |
|---|---|---|
| Sequences.Select | internal/feeds/feeds.go:260-266 | The filtering loop keeps exactly the elements that satisfy the predicate: everything kept is in the input and satisfies it, and every input element that satisfies it is kept. |
| Sequences.FirstIndex | internal/feeds/feeds.go:204-210 | The "first match, then break" search gives the index of the first element that satisfies the predicate, or the length when there is none. |
| Sequences.RemoveFirst | internal/feeds/feeds.go:176-186 | Splicing out the first match removes exactly that element, keeps the others in order, and changes nothing when there is no match. |
| Sequences.SelectIsSubsequence | internal/feeds/feeds.go:253-289 | A selection is an order-preserving subsequence of its input. |
| Sequences.SelectSelect | internal/feeds/feeds.go:258-285 | Filtering by origin and then by status is the same as one filter by both. |
| Sequences.SelectMap | main.go:194-217 | Selection commutes with a projection that preserves the predicate. |
| Mirror.MirrorsAppend | internal/feeds/feeds.go:108-126 | Appending a feed under a URL not yet stored, and storing that key, keeps the feeds in sync with the keys. Appending without storing breaks the sync. |
| Mirror.MirrorsRemoveFirst | internal/feeds/feeds.go:175-186 | Dropping the first feed with a URL, and deleting that key, keeps the feeds in sync. Dropping it without deleting a stored key breaks the sync. |
| Mirror.MirrorsPointwise | internal/feeds/feeds.go:299-316 | Being in sync depends only on the URLs, position by position. |
| Mirror.StoreAppend | internal/feeds/feeds.go:108-126 | Appending a feed under a new URL while the save of that key may or may not commit: the feeds end in sync with the stored keys exactly when the key was stored. |
| Mirror.StoreRemoveFirst | main.go:340-367 | Dropping the first feed with a URL while the delete of that key may or may not commit: the feeds end in sync exactly when the key is no longer stored. |
| Ordering.SortDesc | internal/feeds/feeds.go:292-296 | The sorted list is a permutation of the input with non-increasing keys. |
| Ordering.SortedSubsequence | internal/feeds/feeds.go:253-289 | A subsequence of a list sorted by date is sorted by date, so filtering never needs to re-sort. |
| Dates.TryLayouts | internal/utils/date.go:23-28 | The result is None exactly when every layout rejects the string. Otherwise it is the parse by the first layout that accepts it. |
| Dates.ParseDate | internal/utils/date.go:9-31 | The error is always nil. The time is the parse by the first accepting layout in the fixed list, or the zero time when none accepts. |
| Dates.DropLosingLayout | internal/utils/date.go:23-28 | A layout that rejects the string, or that comes after one that accepts it, never changes the result: later layouts are not consulted. |
| Dates.DuplicateLayoutNeverDecides | internal/utils/date.go:10-21 | The ninth layout repeats RFC3339 (the fifth), can never be the first to accept, and removing it changes no result. |
| Dates.ResolveDate | internal/feeds/feeds.go:53-79 | A pre-parsed published time wins over a pre-parsed updated time. Any dated item is displayed as its formatted timestamp. An item with no date gets the zero time and an empty display string. |
| Dates.UnparseableDateIsZero | internal/feeds/feeds.go:62-79 | A raw date string that no layout accepts yields the zero time, displayed as the formatted zero time rather than the raw string. |
| Dates.RawDateUsesFirstLayout | internal/feeds/feeds.go:62-67 | A raw date string resolves to the parse by the first layout that accepts it. |
| Database.EncodeFlag | internal/database/database.go:126-135 | A flag is stored as "true" or "false", and decoding the stored value gives the flag back. |
| Database.DecodeFlag | internal/database/database.go:108-123 | A stored flag reads as true exactly when the value is present and equal to "true". |
| Database.Flag | internal/database/database.go:139-154 | A bucket lookup reads as true exactly when the key is present with value "true"; an absent key reads as false. |
| Database.FlagAfterWrite | internal/database/database.go:126-166 | Reading a flag back after writing it gives the written value; other keys read as before. |
| Database.DB.constructor | internal/database/database.go:34-58 | The store opens with exactly the bucket contents earlier runs persisted; buckets that did not exist start empty. |
| Database.DB.SaveFeed | internal/database/database.go:85-96 | On success the record is stored under its URL and replaces any earlier record with that URL. On failure nothing changes. The flag buckets are never touched. |
| Database.DB.RemoveFeed | internal/database/database.go:99-104 | On success only that URL's key is deleted. On failure nothing changes. |
| Database.DB.GetFeedItemReadStatus | internal/database/database.go:108-123 | True exactly when the read bucket holds "true" under the link. |
| Database.DB.SetFeedItemReadStatus | internal/database/database.go:126-135 | On success the read bucket holds the encoded flag under the link and reads back as the written value. Other links, the favorite bucket and the feed records are unchanged. |
| Database.DB.GetFeedItemFavoriteStatus | internal/database/database.go:139-154 | True exactly when the favorite bucket holds "true" under the link. |
| Database.DB.SetFeedItemFavoriteStatus | internal/database/database.go:157-166 | As for the read flag, on the favorite bucket only. |
| Feeds.ItemsOf | internal/feeds/feeds.go:52-91 | One item per fetched item, in document order. Each item has its resolved date, the document title and the feed URL as origin, with read and favorite flags joined from the store by link. |
| Feeds.MakeItemFields | internal/feeds/feeds.go:53-91 | An item keeps the fetched item's title, link and description, takes the document title, the origin URL and the given read and favorite flags. A pre-parsed published time is its timestamp. A dated item is displayed as its formatted timestamp, and an undated one has the zero time and an empty display string. |
| Feeds.HarvestOrigins | internal/feeds/feeds.go:45-50 | Every gathered item comes from a subscribed feed whose fetch succeeded. A feed that fails to fetch contributes nothing. |
| Feeds.RecountMatches | internal/feeds/feeds.go:299-316 | Recounting makes every count equal its tally and keeps the set of subscribed URLs. |
| Feeds.TallyStep | internal/feeds/feeds.go:305-315 | Counting one more item adds one to the first feed whose URL is the item's origin, if the item is unread. No other feed changes, and an item of no subscribed feed counts nowhere. |
| Feeds.AllReadTalliesZero | internal/feeds/feeds.go:237-250 | Once every item is read, every feed's tally is zero. |
| Feeds.TalliesIgnoreOtherFields | internal/feeds/feeds.go:216-234 | Tallies depend only on each item's read flag and origin, so changing a favorite flag leaves every count as it was. |
| Feeds.WithoutFirstSubscriptions | internal/feeds/feeds.go:175-186 | Removing the first feed with a URL shortens the list by one exactly when the URL was subscribed and keeps every other URL subscribed. The URL itself stays subscribed exactly when it was listed twice. |
| Feeds.ToggleReadTwice | internal/feeds/feeds.go:195-213 | Toggling an item's read flag twice restores the list, when its cached flag agreed with the store. |
| Feeds.ToggleFavoriteTwice | internal/feeds/feeds.go:216-234 | Toggling an item's favorite flag twice restores the list, when its cached flag agreed with the store. |
| Feeds.PatchKeepsOrder | internal/feeds/feeds.go:204-210 | Patching flags keeps every publication time, so a list sorted by date stays sorted. |
| Feeds.Manager.constructor | internal/feeds/feeds.go:24-39 | Given the feed bucket's records, one per stored key, a new manager holds them with fresh counts and a list rebuilt from them, and its feeds are in sync with the stored keys. |
| Feeds.Manager.RefreshFeeds | internal/feeds/feeds.go:42-96 | The list becomes a permutation of every feed's items, gathered in subscription order and skipping failed fetches. It is sorted by date, every count matches its tally, and every item's origin is subscribed. Feeds in sync with the stored keys stay in sync. |
| Feeds.Manager.Gather | internal/feeds/feeds.go:45-91 | The list becomes the harvest of the subscribed feeds in subscription order, a feed whose fetch fails contributing nothing, and the feeds are unchanged. |
| Feeds.Manager.AppendItems | internal/feeds/feeds.go:128-167 | The list gains exactly the document's items, in order, after its old contents. The feeds are unchanged. |
| Feeds.Manager.AddFeed | internal/feeds/feeds.go:99-172 | A failed fetch reports FetchError and changes nothing, even for a known URL. A known URL reports AlreadySubscribed and changes nothing. A save error leaves the feed appended with no items added. Success saves the feed and adds its items, sorted and recounted. Every item's origin stays subscribed. Starting in sync with the stored keys, the feeds end in sync exactly when the outcome is not a save error. |
| Feeds.Manager.RemoveFeed | internal/feeds/feeds.go:175-192 | The first feed with that URL is dropped. A failed delete returns the error without a rebuild. Otherwise the list is rebuilt from the remaining feeds, also when nothing matched. The key is deleted only when a feed matched. Starting in sync with the stored keys, the feeds end in sync exactly when no error is returned. |
| Feeds.Manager.DropFeed | internal/feeds/feeds.go:176-186 | The first feed with that URL leaves the list and the others keep their order. It reports a match exactly when the URL was subscribed, and the items are unchanged. |
| Feeds.Manager.ToggleReadStatus | internal/feeds/feeds.go:195-213 | The negation of the stored flag, not the cached one, is written. On error nothing in memory changes. On success only the first item with that link is patched and the counts are recomputed. Sync with the stored keys is kept. |
| Feeds.Manager.PatchRead | internal/feeds/feeds.go:204-212 | The first item with that link takes the new read flag and the counts are recomputed to their tallies. Date order, subscribed origins and sync with the stored keys are kept. |
| Feeds.Manager.ToggleFavoriteStatus | internal/feeds/feeds.go:216-234 | The same shape on the favorite flag. It never touches the feeds, the read flags or the counts. Sync with the stored keys is kept. |
| Feeds.Manager.PatchFavorite | internal/feeds/feeds.go:225-231 | The first item with that link takes the new favorite flag. The feeds are unchanged, and up-to-date counts, date order and subscribed origins are kept. |
| Feeds.Manager.MarkAllRead | internal/feeds/feeds.go:237-250 | Every item becomes read, whatever the writes did, and every count becomes zero. The store only gains "true" under links of items that were unread. Sync with the stored keys is kept. |
| Feeds.Manager.GetFilteredItems | internal/feeds/feeds.go:253-289 | Every returned item matches the origin and status criteria, and every matching item is returned. An empty URL with any filter other than "unread" or "favorites" returns the whole list. |
| Feeds.Manager.SortFeedItemsByDate | internal/feeds/feeds.go:292-296 | The list becomes a permutation of itself with non-increasing publication times. |
| Feeds.Manager.UpdateUnreadCounts | internal/feeds/feeds.go:299-316 | Every feed's count becomes its tally of unread items. A repeated URL gets zero. The items are unchanged. |
| Feeds.Manager.ResetCounts | internal/feeds/feeds.go:300-302 | Every feed keeps its position and fields, with its unread count set to 0. The items are unchanged. |
| Feeds.Manager.CountItem | internal/feeds/feeds.go:305-315 | One step of the tally: if every count is its feed's tally over the first n items, then afterwards every count is its tally over the first n + 1. An unread item adds 1 to the first feed whose URL is its origin only. |
| Feeds.Manager.FindFeed | internal/feeds/feeds.go:108-112 | The index of the first feed with that URL, or the number of feeds when none has it. The same search appears at feeds.go:176-186 and 307-313. |
| Feeds.Manager.FindItem | internal/feeds/feeds.go:204-210 | The index of the first item with that link, or the number of items when none has it. The same search appears at feeds.go:225-231. |
| Feeds.FilteredIsSelection | internal/feeds/feeds.go:253-289 | The view is one selection by origin and status. It is an order-preserving subsequence of the list, and sorted whenever the list is. |
| Feeds.UnreadCountIsUnreadView | internal/feeds/feeds.go:299-316 | With counts up to date, a feed's count equals the number of items its "unread" view shows. |
| Feeds.RemovalSync | internal/feeds/feeds.go:175-192 | Starting in sync, the URL is subscribed exactly when it is stored, and after dropping its first feed, with or without a recount, the feeds are in sync exactly when the key is no longer stored. |
| Feeds.RecountMirrors | internal/feeds/feeds.go:299-316 | Recounting keeps every URL, so it neither makes nor breaks sync with the stored keys. |
| Feeds.RemovedFeedHasNoItems | internal/feeds/feeds.go:175-192 | After a successful removal of a URL listed once, no item of that feed remains. |
| Legacy.ItemsOf | main.go:383-420 | One item per fetched item, in order, with the feed URL as origin and the read flag joined from the store by link. |
| Legacy.MakeItemFields | main.go:384-420 | An item keeps the fetched item's title, link and description, takes the document title, the origin URL and the read flag, and is dated by the same chain as the engine's items. The same literal is built at main.go:291-327. |
| Legacy.FailedToggleDiverges | main.go:440-454 | When the toggle's write fails, memory is still patched, so the first item with that link disagrees with the store. |
| Legacy.Store.constructor | main.go:60-80 | The store opens with exactly the feed and read buckets earlier runs persisted. |
| Legacy.Store.SaveFeedToDB | main.go:110-121 | On success the record is stored under its URL and replaces any earlier one. On failure nothing changes. |
| Legacy.Store.RemoveFeedFromDB | main.go:123-128 | On success only that URL's key is deleted. |
| Legacy.Store.GetFeedItemReadStatus | main.go:132-147 | True exactly when the stored value is "true". |
| Legacy.Store.SetFeedItemReadStatus | main.go:150-159 | On success the flag is stored encoded and reads back as written. |
| Legacy.App.constructor | main.go:82-108 | Given the feed bucket's records, one per stored key, start-up holds them and a list rebuilt from them, sorted, and its feeds are in sync with the stored keys. |
| Legacy.App.RefreshFeeds | main.go:369-424 | The list becomes a permutation of every feed's items, skipping failed fetches, sorted by date. The feeds are unchanged. |
| Legacy.App.AppendItems | main.go:289-328 | The list gains exactly the document's items, in order. |
| Legacy.App.HandleAddFeed | main.go:236-333 | An empty URL or a failed fetch gives an error page with no change. A known URL gives a redirect with no change. Otherwise the feed is appended whether or not the save succeeds, and its items are added and sorted. Starting in sync with the stored keys, the feeds end in sync exactly when the save committed. |
| Legacy.App.HandleRemoveFeed | main.go:340-367 | An empty URL changes nothing. Otherwise the first match is dropped, a failed delete is ignored, and the list is always rebuilt. Starting in sync with the stored keys, the feeds end in sync exactly when the URL is no longer stored. |
| Legacy.App.HandleToggleReadStatus | main.go:427-458 | An empty link changes nothing. Otherwise the negation of the stored flag is written, and the first item with that link is patched even if the write failed. |
| Legacy.App.HandleMarkAllRead | main.go:461-481 | Every item becomes read, whatever the writes did. The store only gains "true" under links of items that were unread. |
| Legacy.App.SortFeedItemsByDate | main.go:507-511 | The list becomes a permutation of itself with non-increasing publication times. |
| Legacy.App.IndexItems | main.go:181-217 | An empty filter defaults to "all". The result is the items of the given feed, and only the unread ones for "unread"; there is no favorites mode. |
| Legacy.IndexIsSelection | main.go:194-217 | The index view is one order-preserving selection, sorted when the list is. "favorites" with no URL shows the whole list. |
| Legacy.ViewsAgreeExceptFavorites | main.go:194-217 | Over the same items, the index page and the Manager's view show the same items in the same order for every filter but "favorites". |

## Left out

- HTTP routing, form parsing, method checks, redirects and template rendering: `internal/handlers/handlers.go`, `cmd/server/main.go`, `main.go:161-179` and the rendering in the handlers. These are I/O. For `main.go` only each handler's effect on the state is modelled, plus which kind of answer `handleAddFeed` gives.
- `handleRefresh` (`main.go:335-338`) only calls `refreshFeeds` and redirects. It is covered by `Legacy.App.RefreshFeeds`.
- The `sync.Mutex` locks: the model is sequential.
- gofeed's network fetch and parsing. These become the `Fetcher` parameter; its internals are a foreign library.
- Bolt transactions, bucket creation and the JSON encoding of feed records. The buckets are maps. The contents persisted by earlier runs are constructor parameters of `Database.DB` and `Legacy.Store`.
- The internals of `time.Parse` and `time.Format`. These become the `TimeLib` parameter.
- Logging, and all static JavaScript files.
- Database.DB.GetFeedItemReadStatus: a failing read transaction, which makes the Go function return false, is not modelled; reads always succeed.
- Database.DB.GetFeedItemFavoriteStatus: a failing read transaction, which makes the Go function return false, is not modelled; reads always succeed.
- Legacy.Store.GetFeedItemReadStatus: a failing read transaction, which makes the Go function return false, is not modelled; reads always succeed.
- Feeds.Manager.constructor: the error `NewManager` returns when `LoadFeeds` fails is not modelled. The loaded feeds are a parameter: the constructor requires them to be the bucket's records, one per key, but leaves their order free, because Bolt enumerates a bucket in its key order, which the model does not fix.
- Legacy.App.constructor: the fatal exits of `init` (template parsing, opening the database, creating buckets) and the error path of `loadFeedsFromDB` are not modelled. The loaded feeds are a parameter, required to be the bucket's records, one per key, in an order left free for the same reason.
- Ordering.SortDesc: this is an insertion sort, not Go's pattern-defeating quicksort. Ties may therefore end up in a different concrete order; the contract deliberately says nothing about ties, as `sort.Slice` promises nothing about them.
- `Database.DB` holds one feed record per URL as a `Feed` value, including the derived unread count. The JSON round trip of that record is not modelled.
