/**
 * The status store (internal/database/database.go): three Bolt buckets,
 * modelled as maps. Bolt transactions and the JSON encoding of a feed record
 * are abstracted away; what is kept is the key/value layout and the string
 * encoding of the two boolean flags.
 *
 * A write transaction may fail for reasons outside the model (disk, a closed
 * database); each write therefore commits or fails nondeterministically and
 * reports which.
 */
module Database {

  import opened Wrappers
  import opened Models

  /** How a flag is stored: the string "true" or "false". */
  function EncodeFlag(b: bool): (v: string)
    ensures v == "true" || v == "false"
    ensures DecodeFlag(Some(v)) == b
  {
    if b then "true" else "false"
  }

  /**
   * How a stored flag is read back: true only for exactly "true"; any other
   * value, and an absent key, read as false.
   */
  function DecodeFlag(stored: Option<string>): (b: bool)
    ensures b <==> stored.Some? && stored.value == "true"
  {
    match stored
    case Some(v) => v == "true"
    case None => false
  }

  /** The stored value under `key`, if any. */
  function Get(bucket: map<string, string>, key: string): Option<string>
  {
    if key in bucket then Some(bucket[key]) else None
  }

  /** The flag `key` reads as in `bucket`. */
  function Flag(bucket: map<string, string>, key: string): (b: bool)
    ensures b <==> key in bucket && bucket[key] == "true"
  {
    DecodeFlag(Get(bucket, key))
  }

  /** Writing a flag and reading it back gives the written value; other keys read as before. */
  lemma {:induction false} FlagAfterWrite(bucket: map<string, string>, key: string, b: bool, other: string)
    ensures Flag(bucket[key := EncodeFlag(b)], key) == b
    ensures other != key ==> Flag(bucket[key := EncodeFlag(b)], other) == Flag(bucket, other)
  {
    assert Get(bucket[key := EncodeFlag(b)], key) == Some(EncodeFlag(b));
  }

  /**
   * `after` differs from `before` only by the value "true" written under
   * some of `keys`: nothing is deleted and no other key changes.
   */
  predicate WritesOnlyTrue(before: map<string, string>, after: map<string, string>, keys: set<string>)
  {
    && before.Keys <= after.Keys
    && forall k :: k in after ==>
         (k in before && after[k] == before[k]) || (k in keys && after[k] == "true")
  }

  class DB {
    /** Bucket "feeds": feed URL to the saved feed record. */
    var feeds: map<string, Feed>
    /** Bucket "feedItemStatus": item link to "true"/"false". */
    var readStatus: map<string, string>
    /** Bucket "feedItemFavorite": item link to "true"/"false". */
    var favoriteStatus: map<string, string>

    /**
     * NewDB (database.go:34-58): opens the existing database file and creates
     * any missing bucket, so the store starts with what earlier runs
     * persisted (given here as the buckets' contents; all empty on a first run).
     */
    constructor (storedFeeds: map<string, Feed>, storedRead: map<string, string>, storedFavorite: map<string, string>)
      ensures feeds == storedFeeds && readStatus == storedRead && favoriteStatus == storedFavorite
    {
      feeds := storedFeeds;
      readStatus := storedRead;
      favoriteStatus := storedFavorite;
    }

    /** SaveFeed (database.go:85-96): the record is keyed by its URL; a later save replaces an earlier one. */
    method SaveFeed(feed: Feed) returns (err: bool)
      modifies this
      ensures readStatus == old(readStatus) && favoriteStatus == old(favoriteStatus)
      ensures feeds == if err then old(feeds) else old(feeds)[feed.url := feed]
    {
      err :| true;
      if !err {
        feeds := feeds[feed.url := feed];
      }
    }

    /** RemoveFeed (database.go:99-104): deletes that URL's key only; deleting an absent key succeeds. */
    method RemoveFeed(feedURL: string) returns (err: bool)
      modifies this
      ensures readStatus == old(readStatus) && favoriteStatus == old(favoriteStatus)
      ensures feeds == if err then old(feeds) else old(feeds) - {feedURL}
    {
      err :| true;
      if !err {
        feeds := feeds - {feedURL};
      }
    }

    /** GetFeedItemReadStatus (database.go:108-123): true only if the stored value is exactly "true". */
    function GetFeedItemReadStatus(link: string): (b: bool)
      reads this
      ensures b <==> link in readStatus && readStatus[link] == "true"
    {
      Flag(readStatus, link)
    }

    /** SetFeedItemReadStatus (database.go:126-135): stores "true"/"false" in the read bucket only. */
    method SetFeedItemReadStatus(link: string, read: bool) returns (err: bool)
      modifies this
      ensures feeds == old(feeds) && favoriteStatus == old(favoriteStatus)
      ensures readStatus == if err then old(readStatus) else old(readStatus)[link := EncodeFlag(read)]
      ensures !err ==> GetFeedItemReadStatus(link) == read
      ensures forall other :: other != link ==> GetFeedItemReadStatus(other) == old(GetFeedItemReadStatus(other))
    {
      err :| true;
      if !err {
        readStatus := readStatus[link := EncodeFlag(read)];
      }
    }

    /** GetFeedItemFavoriteStatus (database.go:139-154): true only if the stored value is exactly "true". */
    function GetFeedItemFavoriteStatus(link: string): (b: bool)
      reads this
      ensures b <==> link in favoriteStatus && favoriteStatus[link] == "true"
    {
      Flag(favoriteStatus, link)
    }

    /** SetFeedItemFavoriteStatus (database.go:157-166): stores "true"/"false" in the favorite bucket only. */
    method SetFeedItemFavoriteStatus(link: string, favorite: bool) returns (err: bool)
      modifies this
      ensures feeds == old(feeds) && readStatus == old(readStatus)
      ensures favoriteStatus == if err then old(favoriteStatus) else old(favoriteStatus)[link := EncodeFlag(favorite)]
      ensures !err ==> GetFeedItemFavoriteStatus(link) == favorite
      ensures forall other :: other != link ==> GetFeedItemFavoriteStatus(other) == old(GetFeedItemFavoriteStatus(other))
    {
      err :| true;
      if !err {
        favoriteStatus := favoriteStatus[link := EncodeFlag(favorite)];
      }
    }
  }
}
