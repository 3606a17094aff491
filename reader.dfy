/**
 * The template tag that shows the subscriptions on a page: it reads the
 * plugin's options, refuses to work without a user name, sets up the feed
 * reader with the trimmed base folder and the update frequency (one hour when
 * none is stored), picks the templates, and renders the export.
 */
module Reader {
  import opened Wrappers
  import opened Strings
  import opened Outline
  import opened FeedCache

  /** The message the tag stops with when no user name is stored. */
  const UsernameMissing :=
    "BloglineReader error: Username not specified! Go to the Bloglined options page and enter your username."

  /** The preset used when the tag is called without arguments. */
  const DefaultFormatType := "unorderedList"

  /** What the tag sets the reader up with. */
  datatype Settings = Settings(username: string, folder: string, updateFrequency: int, formats: Formats)

  /**
   * The option handling of the tag: an empty user name stops it with the
   * message; otherwise the folder is trimmed, a missing update frequency
   * becomes one hour, and the caller's templates are used only when the
   * preset name is empty.
   */
  function Configure(username: string, baseFolder: string, storedFrequency: Option<int>,
                     formatType: string, format: Formats): (r: Result<Settings, string>)
    ensures r.Failure? <==> username == ""
    ensures r.Failure? ==> r.error == UsernameMissing
    ensures r.Success? ==> r.value.username == username && r.value.folder == Trim(baseFolder)
    ensures r.Success? ==> (storedFrequency.None? ==> r.value.updateFrequency == DefaultUpdateFrequency)
    ensures r.Success? ==> (storedFrequency.Some? ==> r.value.updateFrequency == storedFrequency.value)
    ensures r.Success? ==> (formatType == "" ==> r.value.formats == format)
    ensures r.Success? ==> (formatType != "" ==> r.value.formats == GetFormatForType(formatType))
  {
    var updateFrequency := if storedFrequency.None? then DefaultUpdateFrequency else storedFrequency.value;
    if username == "" then
      Failure(UsernameMissing)
    else
      var formats := if formatType == "" then format else GetFormatForType(formatType);
      Success(Settings(username, Trim(baseFolder), updateFrequency, formats))
  }

  /**
   * The folder the reader is given carries no white space at either end,
   * and trimming the stored folder beforehand changes nothing.
   */
  lemma ConfiguredFolder(username: string, baseFolder: string, storedFrequency: Option<int>,
                         formatType: string, format: Formats)
    requires username != ""
    ensures var s := Configure(username, baseFolder, storedFrequency, formatType, format).value;
      && (s.folder == [] || (!IsTrimChar(s.folder[0]) && !IsTrimChar(s.folder[|s.folder| - 1])))
      && Configure(username, Trim(baseFolder), storedFrequency, formatType, format).value == s
  {
    TrimSlice(baseFolder);
    TrimIdempotent(baseFolder);
  }

  /**
   * With the default arguments the tag uses the 'unorderedList' templates;
   * with any other non-empty preset name it renders nothing at all.
   */
  lemma ConfiguredTemplates(username: string, baseFolder: string, storedFrequency: Option<int>,
                            formatType: string, format: Formats, events: seq<Event>)
    requires username != ""
    ensures formatType == DefaultFormatType
      ==> Configure(username, baseFolder, storedFrequency, formatType, format).value.formats == UnorderedList
    ensures formatType != "" && formatType != DefaultFormatType
      ==> Markup(events, Configure(username, baseFolder, storedFrequency, formatType, format).value.formats) == ""
  {
    if formatType != "" && formatType != DefaultFormatType {
      UnknownPresetRendersNothing(formatType, events);
    }
  }

  /**
   * showBloglinesReader at `now`, where `response` stands for the body the
   * download would return and `parse` for the XML parser's event list. It
   * either stops with the message, touching nothing, or renders the export
   * that getFeeds returns, with getFeeds' effect on the cache.
   */
  method ShowBloglinesReader(store: OptionStore, now: int, response: string, parse: string -> seq<Event>,
                             formatType: string := DefaultFormatType, format: Formats := map[])
    returns (output: Result<string, string>, request: Option<string>)
    modifies store`cacheBody, store`cacheStamp
    ensures var c := Configure(old(store.username), old(store.baseFolder), old(store.updateFrequency),
                               formatType, format);
      && (c.Failure? ==> output == Failure(UsernameMissing) && request == None
                         && store.cacheBody == old(store.cacheBody) && store.cacheStamp == old(store.cacheStamp))
      && (c.Success? ==>
            var s := Serve(old(Entry(store.cacheBody, store.cacheStamp)), now, c.value.updateFrequency, response);
            && output == Success(Markup(parse(s.feeds), c.value.formats))
            && Entry(store.cacheBody, store.cacheStamp) == s.after
            && (request.Some? <==> s.fetched)
            && (request.Some? ==> request.value == ExportUrl(c.value.username, c.value.folder)))
  {
    var userName := store.username;
    var baseFolder := store.baseFolder;
    var updateFrequency := if store.updateFrequency.None? then DefaultUpdateFrequency
                           else store.updateFrequency.value;
    if userName == "" {
      return Failure(UsernameMissing), None;
    }
    var reader := new FeedReader(store, userName, Trim(baseFolder), updateFrequency);
    var formatStrings := if formatType == "" then format else GetFormatForType(formatType);
    var feeds;
    feeds, request := reader.GetFeeds(now, response);
    var markup := ProcessFeedData(parse(feeds), formatStrings);
    output := Success(markup);
  }
}
