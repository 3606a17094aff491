# BloglinesReader, modelled in Dafny

BloglinesReader is a WordPress plugin that shows a blogger's Bloglines
subscriptions on a page. Its template tag `showBloglinesReader` reads the
plugin's options (user name, base folder, update frequency). It stops with an
error message when no user name is stored. Otherwise it builds a feed reader
object and asks it for the OPML export of the subscriptions. The reader
serves the export from a cache kept in two WordPress options (the body and
the second it was written). It downloads the export again when there is no
cache or the cache is older than the update frequency. The export is then
parsed into a flat list of XML events. Every `OUTLINE` event other than
character data emits one or two format strings, taken from a preset or from the caller. In each string the
placeholders `%title%`, `%url%`, `%type%` and `%feedurl%` are replaced, in
that order, by the element's attributes.

The project has five modules:

- `Wrappers`: `Option` and `Result`.
- `Strings`: PHP's `str_replace` and `trim`.
  - `ReplaceAll` is the left-to-right, non-overlapping scan.
  - `StrReplace` is that scan as a loop.
  - `Trim` and its lemmas.
- `Outline`: the event list, the format strings and their presets.
  - `FormatElement` is proved against `Formatted`.
  - `ProcessFeedData` is a loop proved against `Markup`, the in-order concatenation of every event's fragments.
- `FeedCache`: the cache logic.
  - `OptionStore` is a class whose fields are the plugin's WordPress options.
  - `FeedReader` is the reader class. Its methods update the two cache options in place.
  - Pure specifications of the cache's age, the refresh decision (`Serve`) and the export address (`ExportUrl`), with lemmas about them.
- `Reader`: the template tag's option handling (`Configure`) and the tag itself (`ShowBloglinesReader`).

The model follows the code in the places below:

- The four placeholder substitutions are applied one after another. Text put in by one substitution can therefore be rewritten by a later one: a title holding `%url%` comes out as the element's url (`ReplacementOrderMatters`). Under the 'unorderedList' preset, a '%' in a title or url that forms no later placeholder is kept as is (`PercentSample`). With a caller's format string, a title ending in '%' can complete a placeholder that follows `%title%`: the title "100%" turns "%title%url%" into "100" followed by the url (`TrailingPercent`).
- `getCacheAge` uses -1 both for "no timestamp" and for a real age of -1. So a timestamp one second in the future counts as "no cache" and triggers a download (`NoCacheAge`, `ServeFetches`).
- An empty Subscriptions wrapper renders as the list's opening and closing strings only when the parser reports it as an opening and a closing event (`EmptySubscriptions`). If it is reported as one `complete` element, it is treated as a link.

## Model

| member | source | states |
|---|---|---|
| Strings.StrReplace | bloglines-reader.php:139-142 | str_replace as a left-to-right scan that replaces every non-overlapping occurrence; its result equals the reference `ReplaceAll` for every input, including an empty search string, which changes nothing |
| Strings.ReplaceAbsent | bloglines-reader.php:139-142 | a subject that does not contain the search string comes back unchanged |
| Strings.ReplaceIdentity | bloglines-reader.php:139-142 | replacing a string by itself changes nothing |
| Strings.ReplaceSplit | bloglines-reader.php:139-142 | when no occurrence can straddle the seam of a + b, replacing in a + b is replacing in a and in b separately |
| Strings.ReplaceSole | bloglines-reader.php:139-142 | a search string between two parts x and y is replaced in that one place, provided the replacement leaves x and y unchanged and neither x's last character nor y's first character occurs in the search string |
| Strings.KeepBetween | bloglines-reader.php:139-142 | three parts that the replacement leaves unchanged, joined where the left part's last and the right part's first character do not occur in the search string, are left unchanged together |
| Strings.LonePercentAbsent | bloglines-reader.php:139-142 | a '%' with no other '%' around it, not followed by a placeholder's second character, does not start that placeholder |
| Strings.TrimSlice | bloglines-reader.php:209 | trim keeps one contiguous slice of its input, with only white space (space, tab, newline, carriage return, NUL, vertical tab) before and after it, and no white space at either end of the slice |
| Strings.TrimBounds | bloglines-reader.php:209 | where the slice kept by trim starts and ends, with only white space outside it |
| Strings.TrimEnds | bloglines-reader.php:209 | a trimmed string neither starts nor ends with white space |
| Strings.TrimIdempotent | bloglines-reader.php:209 | trimming twice is trimming once |
| Outline.GetFormatForType | bloglines-reader.php:47-58 | 'unorderedList' yields an array holding all six format string keys; any other type yields no array, under which every format string reads as empty |
| Outline.PresetListStrings | bloglines-reader.php:51-52 | the preset's beginFeeds and endFeeds strings are `<ul>` and `</ul>` |
| Outline.PresetFolderStrings | bloglines-reader.php:53-54 | the preset's beginFolder and endFolder strings are `<li>%title%<ul>` and `</ul></li>` |
| Outline.PresetLinkStrings | bloglines-reader.php:55-56 | the preset's beginLink string is `<li><a href="%url%">%title%</a></li>` and its endLink string is empty |
| Outline.FormatElement | bloglines-reader.php:132-145 | formatElement's four str_replace calls in sequence (title, url, type, feedurl), with missing attributes read as empty; proved equal to `Formatted` |
| Outline.NoPlaceholderUnchanged | bloglines-reader.php:138-144 | a format string holding none of the four placeholders comes back unchanged |
| Outline.ReplacementOrderMatters | bloglines-reader.php:139-140 | a title that reads `%url%` is rewritten by the later url replacement into the element's url; with the url replaced first it would have stayed `%url%`; stated for a url without '%', which the later type and feedurl replacements leave alone |
| Outline.TrailingPercent | bloglines-reader.php:139-140 | a title x + "%" (x without '%', not ending in a character of %url%) put in front of the format string's "url%" completes a %url%, so "%title%url%" comes out as x followed by a '%'-free url |
| Outline.PlainTemplate | bloglines-reader.php:138-144 | a format string without '%' passes through all four replacements |
| Outline.KeptBetween | bloglines-reader.php:139-142 | a value that does not hold a placeholder, between two '%'-free literals whose inner edges are not characters of the placeholder, is left alone by that placeholder's replacement |
| Outline.FolderText | bloglines-reader.php:139-142 | `<li>%title%<ul>` filled from an element whose title holds none of %url%, %type% and %feedurl% is `<li>`, the title and `<ul>` |
| Outline.PresetFolder | bloglines-reader.php:171 | the preset's folder opening for an element whose title holds none of %url%, %type% and %feedurl% is `<li>`, the title and `<ul>` |
| Outline.LinkShape | bloglines-reader.php:139-140 | for a string shaped like the link template, the title replacement fills only the %title% slot, and the url replacement then fills only the %url% slot when the title holds no %url% |
| Outline.LinkKept | bloglines-reader.php:141-142 | a filled link string is left alone by the type or feedurl replacement when neither the title nor the url holds that placeholder |
| Outline.FolderLiterals | bloglines-reader.php:53 | the literal parts of the preset's folder string hold no '%', and the characters at their inner edges occur in no placeholder |
| Outline.LinkLiterals | bloglines-reader.php:55 | the literal parts of the preset's link string hold no '%', and the characters at their inner edges occur in no placeholder |
| Outline.LinkText | bloglines-reader.php:139-142 | the link template filled from an element whose title holds none of %url%, %type% and %feedurl%, and whose url holds neither %type% nor %feedurl%, is an anchor to the url, labelled with the title |
| Outline.PresetLink | bloglines-reader.php:187 | the preset's link string for an element with such a title and url is an `<li>` holding an anchor to the url, labelled with the title |
| Outline.PercentSample | bloglines-reader.php:171-187 | a folder titled "100% Pure" and a feed with the percent-encoded url "http://example.com/a%20b" are rendered by the preset with title and url unchanged |
| Outline.SlotRules | bloglines-reader.php:159-190 | the format strings an event selects, each rule in both directions: none unless it is an OUTLINE event other than cdata; beginFeeds for an opening at depth 3 titled Subscriptions and beginFolder for any other opening; endFeeds for a closing at depth 3 and endFolder for any other closing; beginLink then endLink for a complete element |
| Outline.FragmentsAre | bloglines-reader.php:166-188 | an event emits one string per selected format string, each filled from that event |
| Outline.FragmentCount | bloglines-reader.php:157-191 | the number of emitted strings is the number of OUTLINE openings plus closings plus twice the complete elements |
| Outline.EventText | bloglines-reader.php:160-189 | what one event appends to the output, branch by branch as processFeedData lays them out |
| Outline.MarkupAppend | bloglines-reader.php:157-191 | the output for two event lists one after the other is the output for the first followed by the output for the second |
| Outline.MarkupFirst | bloglines-reader.php:157-191 | the output for a non-empty list is the first event's text followed by the output for the rest |
| Outline.MarkupByEvent | bloglines-reader.php:157-191 | the output is the in-order concatenation of each event's own text |
| Outline.IgnoredEvent | bloglines-reader.php:160 | an event of another tag, or character data, contributes nothing wherever it stands |
| Outline.SilentEvents | bloglines-reader.php:160 | a list of events none of which is a non-cdata OUTLINE event produces empty output |
| Outline.EmptySubscriptions | bloglines-reader.php:161-184 | a Subscriptions opening and closing with only ignored events between them render as beginFeeds followed by endFeeds |
| Outline.UnknownPresetRendersNothing | bloglines-reader.php:47-58 | under a format type other than 'unorderedList' the whole output is empty |
| Outline.PresetEvent | bloglines-reader.php:160-189 | what the 'unorderedList' preset makes of each kind of event: `<ul>` and `</ul>` for the Subscriptions wrapper, an `<li>` with the title and a nested `<ul>` for a folder and `</ul></li>` for its end, an `<li>` link for a feed, nothing for the rest (for folders and feeds whose titles and urls hold none of the placeholders replaced after theirs) |
| Outline.OneFolderMarkup | bloglines-reader.php:148-193 | an export holding one folder with one feed, among any events that emit nothing, renders under the preset as a list holding one folder item whose nested list links to the feed (for titles and urls that hold none of the placeholders replaced after theirs) |
| Outline.ProcessFeedData | bloglines-reader.php:148-193 | processFeedData's loop over the parsed events, with its branches; its result is the in-order concatenation of every event's fragments (`Markup`) |
| FeedCache.NoCacheAge | bloglines-reader.php:63-70 | the age is -1 exactly when no timestamp is stored or the stored one lies one second after now; otherwise the age is now minus the stored second |
| FeedCache.FreshAge | bloglines-reader.php:73-76 | a cache stamped now is zero seconds old now |
| FeedCache.AgeAdvances | bloglines-reader.php:68 | the age grows by exactly the time that passes |
| FeedCache.RefreshBoundary | bloglines-reader.php:117 | an existing cache as old as the update frequency is still served, one a second older is downloaded again, and in general it is served iff its age is at most the frequency |
| FeedCache.ExportUrl | bloglines-reader.php:92-93 | the address is the export prefix followed by the user name; "&folder=" and the folder follow exactly when the folder is not empty |
| FeedCache.ExportUrlFolder | bloglines-reader.php:92-93 | the folder can be read back from the address |
| FeedCache.ExportUrlInjective | bloglines-reader.php:92-93 | for one user, different folders give different addresses |
| FeedCache.ExportUrlExample | bloglines-reader.php:92-93 | the addresses for user "alice" with folder "Tech" and with no folder |
| FeedCache.Serve | bloglines-reader.php:113-129 | one getFeeds call: it downloads iff the age is -1 or greater than the update frequency; a download is returned and stored with the timestamp now; otherwise the cached body is returned and the cache is left as it was |
| FeedCache.ServeFetches | bloglines-reader.php:117 | the download happens iff there is no timestamp, the cache is older than the frequency, or the timestamp lies one second in the future |
| FeedCache.RefreshedCache | bloglines-reader.php:119-124 | after a download, the cache body is the download, the timestamp is now and the age is 0 |
| FeedCache.CacheWindow | bloglines-reader.php:113-129 | after a download at t, every call up to t plus the frequency serves that download from the cache; a later call downloads again |
| FeedCache.SecondCall | bloglines-reader.php:113-129 | a second call at the same instant downloads only if the first did and the frequency is negative; otherwise it returns what the first returned |
| FeedCache.CachedIsStable | bloglines-reader.php:125-128 | serving from the cache changes nothing and does not depend on what a download would have returned |
| FeedCache.FeedReader.constructor | bloglines-reader.php:40-44 | the reader keeps the user name, the folder (default empty) and the update frequency (default 3600) |
| FeedCache.FeedReader.GetCacheAge | bloglines-reader.php:63-70 | the stored cache's age: -1 without a timestamp, otherwise now minus the timestamp |
| FeedCache.FeedReader.UpdateCache | bloglines-reader.php:73-76 | stores the body and stamps it now, and changes no other option |
| FeedCache.FeedReader.GetFeedsFromCache | bloglines-reader.php:79-83 | returns the stored body |
| FeedCache.FeedReader.GetFeedsFromBloglines | bloglines-reader.php:86-110 | requests `ExportUrl` of the reader's user and folder and returns what comes back |
| FeedCache.FeedReader.GetFeeds | bloglines-reader.php:113-129 | returns and stores what `Serve` prescribes for the old cache; asks for the export address exactly when it downloads |
| Reader.Configure | bloglines-reader.php:202-214 | an empty user name fails with the plugin's message; otherwise the folder is trimmed, a missing frequency becomes 3600, and the caller's format array is used iff the format type is empty, the preset for that type otherwise |
| Reader.ConfiguredFolder | bloglines-reader.php:209 | the folder the reader gets has no white space at either end, and trimming the stored folder beforehand changes nothing |
| Reader.ConfiguredTemplates | bloglines-reader.php:210-214 | with the default format type the reader uses the 'unorderedList' preset; any other non-empty type renders nothing |
| Reader.ShowBloglinesReader | bloglines-reader.php:199-217 | without a user name: the message, no download, the cache untouched; otherwise the output is the markup of the parsed getFeeds result under the chosen formats, the cache is left as `Serve` prescribes, and the export address is requested exactly when the cache needed a refresh |

## Left out

- HTTP transport (the choice between fopen and curl, and curl's options): the body a download would return is the `response` parameter. A failed download (PHP's `false`) is not modelled.
- The XML parser: `xml_parse_into_struct` is the `parse` parameter, a function from the export's text to the event list.
- The clock: `time()` becomes the `now` parameter. getCacheAge and updateCache each call `time()`, and the model gives both the same instant.
- WordPress's option storage is the `OptionStore` class. A missing update frequency is `None`. PHP's loose `== ''` tests are modelled by that `None` and by the `Empty` timestamp. So the admin page's "clear cache" action, which stores the timestamp 0, is not modelled. Numeric strings stored as the frequency are not modelled either: it is an integer.
- The admin page (bloglines-reader.php:219-291): its form, the saving of options and the cache-expiry text. It is user interface and not part of this model.
- `number_format` and the commented-out debug output in getFeedsFromCache, and the `echo` of the output: the output is the tag's `Success` value.
- `die` becomes a `Failure` holding the message.
- The user name and the folder are put into the address without URL encoding, as in the source.
- A `$format` argument that is not an array: the caller's format strings are a map, with the empty map as default; a missing key reads as the empty string, as PHP's null does in str_replace.
- Outline.PresetEvent: states the preset's output for folders and feeds only when the title holds none of %url%, %type% and %feedurl% and the url neither %type% nor %feedurl%, because a title or url that holds a later placeholder is rewritten by that later replacement.
- Outline.PresetFolder: stated only for such titles, for the same reason.
- Outline.PresetLink: stated only for such titles and urls, for the same reason.
- Outline.OneFolderMarkup: stated only for such titles and urls, for the same reason.
- FeedCache.FeedReader.GetFeeds: getCacheAge and updateCache read the clock separately; the model uses one `now` for both.
