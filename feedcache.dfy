/**
 * The feed reader object: it keeps the downloaded subscription export in two
 * WordPress options (the body and the time it was written), decides from the
 * cache's age whether to download the export again, and builds the export's
 * address from the user name and the base folder.
 */
module FeedCache {
  import opened Wrappers

  /** The stored cache timestamp: never written (the empty option), or the second it was written at. */
  datatype Stamp = Empty | Written(at: int)

  /**
   * The plugin's WordPress options: chBloglinerUsername, chBloglinerBaseFolder,
   * chBloglinerUpdateFrequency (None when it is the empty option),
   * chBloglinerCache and chBloglinerCacheAge.
   */
  class OptionStore {
    var username: string
    var baseFolder: string
    var updateFrequency: Option<int>
    var cacheBody: string
    var cacheStamp: Stamp

    constructor (username: string, baseFolder: string, updateFrequency: Option<int>,
                 cacheBody: string, cacheStamp: Stamp)
      ensures this.username == username && this.baseFolder == baseFolder
      ensures this.updateFrequency == updateFrequency
      ensures this.cacheBody == cacheBody && this.cacheStamp == cacheStamp
    {
      this.username := username;
      this.baseFolder := baseFolder;
      this.updateFrequency := updateFrequency;
      this.cacheBody := cacheBody;
      this.cacheStamp := cacheStamp;
    }
  }

  const ExportPrefix := "http://www.bloglines.com/export?id="
  const FolderParameter := "&folder="
  /** The reader's update frequency when none is given: one hour, in seconds. */
  const DefaultUpdateFrequency := 3600
  /** The age that stands for "there is no cache". */
  const NoCache := -1

  /** The cache's age in seconds at `now`, or -1 when no timestamp is stored. */
  function CacheAge(stamp: Stamp, now: int): int
  {
    match stamp
    case Empty => NoCache
    case Written(at) => now - at
  }

  /**
   * The age reads "no cache" exactly when no timestamp is stored or the stored
   * one lies exactly one second after `now`: the two cases are not told apart.
   */
  lemma NoCacheAge(stamp: Stamp, now: int)
    ensures CacheAge(stamp, now) == NoCache <==> (stamp.Empty? || stamp.at == now + 1)
    ensures stamp.Written? ==> CacheAge(stamp, now) + stamp.at == now
  {
  }

  /** A cache written at `now` is zero seconds old at `now`. */
  lemma FreshAge(now: int)
    ensures CacheAge(Written(now), now) == 0
  {
  }

  /** The age grows by exactly the time that passes. */
  lemma AgeAdvances(at: int, now: int, later: int)
    ensures CacheAge(Written(at), later) == CacheAge(Written(at), now) + (later - now)
  {
  }

  /** The download condition of getFeeds: no cache, or a cache older than the update frequency. */
  predicate NeedsRefresh(age: int, updateFrequency: int)
  {
    age == NoCache || age > updateFrequency
  }

  /** A cache exactly as old as the update frequency is still served (the comparison is strict). */
  lemma RefreshBoundary(age: int, updateFrequency: int)
    requires age != NoCache
    ensures age == updateFrequency ==> !NeedsRefresh(age, updateFrequency)
    ensures age == updateFrequency + 1 ==> NeedsRefresh(age, updateFrequency)
    ensures age <= updateFrequency <==> !NeedsRefresh(age, updateFrequency)
  {
  }

  /**
   * The address the export is downloaded from: the export prefix and the user
   * name, then "&folder=" and the folder when the folder is not empty. Neither
   * part is URL-encoded.
   */
  function ExportUrl(username: string, folder: string): (url: string)
    ensures ExportPrefix + username <= url
    ensures folder == "" <==> url == ExportPrefix + username
    ensures folder != "" ==> url[|ExportPrefix + username|..] == FolderParameter + folder
  {
    var url := ExportPrefix + username;
    if folder != "" then url + FolderParameter + folder else url
  }

  /** The folder part of an export address built for `username` ("" when there is none). */
  function FolderOf(url: string, username: string): string
  {
    var n := |ExportPrefix + username| + |FolderParameter|;
    if |url| > n then url[n..] else ""
  }

  /** The folder can be read back from the address: different folders give different addresses. */
  lemma ExportUrlFolder(username: string, folder: string)
    ensures FolderOf(ExportUrl(username, folder), username) == folder
  {
    if folder != "" {
      var base := ExportPrefix + username;
      var url := ExportUrl(username, folder);
      assert url == base + FolderParameter + folder;
      assert url[|base| + |FolderParameter|..] == folder;
    }
  }

  /** For one user, the address determines the folder. */
  lemma ExportUrlInjective(username: string, f1: string, f2: string)
    requires ExportUrl(username, f1) == ExportUrl(username, f2)
    ensures f1 == f2
  {
    ExportUrlFolder(username, f1);
    ExportUrlFolder(username, f2);
  }

  /** The address for user "alice" and folder "Tech". */
  lemma ExportUrlExample()
    ensures ExportUrl("alice", "Tech") == "http://www.bloglines.com/export?id=alice&folder=Tech"
    ensures ExportUrl("alice", "") == "http://www.bloglines.com/export?id=alice"
  {
  }

  /** The two cache options, as a value. */
  datatype Entry = Entry(body: string, stamp: Stamp)

  /** What one getFeeds call returns, the cache it leaves, and whether it downloaded. */
  datatype Served = Served(feeds: string, after: Entry, fetched: bool)

  /**
   * One getFeeds call at `now`, where `response` is what the download would
   * return: a missing or stale cache is replaced by the download, which is
   * returned; otherwise the cached body is returned and nothing changes.
   */
  function Serve(entry: Entry, now: int, updateFrequency: int, response: string): (s: Served)
    ensures s.fetched <==> NeedsRefresh(CacheAge(entry.stamp, now), updateFrequency)
    ensures s.fetched ==> s.feeds == response && s.after == Entry(response, Written(now))
    ensures !s.fetched ==> s.feeds == entry.body && s.after == entry
  {
    if NeedsRefresh(CacheAge(entry.stamp, now), updateFrequency) then
      Served(response, Entry(response, Written(now)), true)
    else
      Served(entry.body, entry, false)
  }

  /**
   * The download happens exactly when there is no timestamp, the cache is
   * older than the update frequency, or the timestamp lies one second in the
   * future (which reads as "no cache").
   */
  lemma ServeFetches(entry: Entry, now: int, updateFrequency: int, response: string)
    ensures Serve(entry, now, updateFrequency, response).fetched
        <==> (entry.stamp.Empty? || now - entry.stamp.at > updateFrequency || entry.stamp.at == now + 1)
  {
    NoCacheAge(entry.stamp, now);
  }

  /** After a download, the cache holds the download, stamped `now`, and is zero seconds old. */
  lemma RefreshedCache(entry: Entry, now: int, updateFrequency: int, response: string)
    requires Serve(entry, now, updateFrequency, response).fetched
    ensures var after := Serve(entry, now, updateFrequency, response).after;
      after.body == response && after.stamp == Written(now) && CacheAge(after.stamp, now) == 0
  {
  }

  /**
   * After a download at `t`, a call at any `t2` from `t` to `t + updateFrequency`
   * serves the download without downloading, and a later call downloads again.
   */
  lemma CacheWindow(entry: Entry, t: int, t2: int, updateFrequency: int, response: string, response2: string)
    requires Serve(entry, t, updateFrequency, response).fetched
    requires t <= t2
    ensures var second := Serve(Serve(entry, t, updateFrequency, response).after, t2, updateFrequency, response2);
      && (t2 <= t + updateFrequency ==> !second.fetched && second.feeds == response)
      && (t2 > t + updateFrequency ==> second.fetched && second.feeds == response2)
  {
    var after := Serve(entry, t, updateFrequency, response).after;
    assert CacheAge(after.stamp, t2) == t2 - t;
  }

  /**
   * Two calls at the same instant: the second downloads only when the first
   * did and the update frequency is negative; otherwise it serves what the
   * first returned.
   */
  lemma SecondCall(entry: Entry, now: int, updateFrequency: int, response: string, response2: string)
    ensures var first := Serve(entry, now, updateFrequency, response);
      var second := Serve(first.after, now, updateFrequency, response2);
      && (second.fetched <==> first.fetched && updateFrequency < 0)
      && (!second.fetched ==> second.feeds == first.feeds)
  {
    var first := Serve(entry, now, updateFrequency, response);
    if first.fetched {
      FreshAge(now);
    }
  }

  /** A cached answer changes nothing, so serving from the cache can be repeated. */
  lemma CachedIsStable(entry: Entry, now: int, updateFrequency: int, response: string, response2: string)
    requires !Serve(entry, now, updateFrequency, response).fetched
    ensures Serve(entry, now, updateFrequency, response2) == Serve(entry, now, updateFrequency, response)
    ensures Serve(entry, now, updateFrequency, response).after == entry
  {
  }

  /** The reader object: the user, the base folder and the update frequency, over the option store. */
  class FeedReader {
    const bloglinesUsername: string
    const baseFolder: string
    const updateFrequency: int
    const store: OptionStore

    constructor (store: OptionStore, username: string, folder: string := "",
                 updateTime: int := DefaultUpdateFrequency)
      ensures this.store == store && bloglinesUsername == username
      ensures baseFolder == folder && updateFrequency == updateTime
    {
      this.store := store;
      bloglinesUsername := username;
      baseFolder := folder;
      updateFrequency := updateTime;
    }

    /** The cache's current value. */
    function Cache(): Entry
      reads store
    {
      Entry(store.cacheBody, store.cacheStamp)
    }

    /** getCacheAge: the age of the stored cache at `now`. */
    method GetCacheAge(now: int) returns (age: int)
      ensures age == CacheAge(store.cacheStamp, now)
      ensures age == NoCache <==> (store.cacheStamp.Empty? || store.cacheStamp.at == now + 1)
    {
      NoCacheAge(store.cacheStamp, now);
      if store.cacheStamp == Empty {
        age := NoCache;
      } else {
        age := now - store.cacheStamp.at;
      }
    }

    /** updateCache: stores the body and stamps it `now`; no other option changes. */
    method UpdateCache(feedsData: string, now: int)
      modifies store`cacheBody, store`cacheStamp
      ensures store.cacheBody == feedsData && store.cacheStamp == Written(now)
      ensures CacheAge(store.cacheStamp, now) == 0
    {
      store.cacheBody := feedsData;
      store.cacheStamp := Written(now);
    }

    /** getFeedsFromCache: the stored body. */
    method GetFeedsFromCache() returns (feeds: string)
      ensures feeds == store.cacheBody
    {
      feeds := store.cacheBody;
    }

    /**
     * getFeedsFromBloglines: the address it requests and what comes back,
     * `response` standing for the body the HTTP request returns.
     */
    method GetFeedsFromBloglines(response: string) returns (url: string, feeds: string)
      ensures url == ExportUrl(bloglinesUsername, baseFolder)
      ensures (baseFolder == "") <==> url == ExportPrefix + bloglinesUsername
      ensures feeds == response
    {
      url := ExportPrefix + bloglinesUsername;
      if baseFolder != "" {
        url := url + FolderParameter + baseFolder;
      }
      feeds := response;
    }

    /**
     * getFeeds at `now`: follows Serve; `request` is the address downloaded
     * from, when there was a download.
     */
    method GetFeeds(now: int, response: string) returns (feeds: string, request: Option<string>)
      modifies store`cacheBody, store`cacheStamp
      ensures var s := Serve(old(Cache()), now, updateFrequency, response);
        && feeds == s.feeds && Cache() == s.after
        && (request.Some? <==> s.fetched)
        && (request.Some? ==> request.value == ExportUrl(bloglinesUsername, baseFolder))
    {
      var cacheAge := GetCacheAge(now);
      if cacheAge == NoCache || cacheAge > updateFrequency {
        var url;
        url, feeds := GetFeedsFromBloglines(response);
        UpdateCache(feeds, now);
        request := Some(url);
      } else {
        feeds := GetFeedsFromCache();
        request := None;
      }
    }
  }
}
