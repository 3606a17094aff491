/**
 * The formatter: walks the flat event list that PHP's xml_parse_into_struct
 * makes of an OPML export and emits one or two format strings per OUTLINE
 * event, each with its placeholders filled from the element's attributes.
 */
module Outline {
  import opened Strings

  /** The type an event has in the parser's output. */
  datatype EventType = Open | Close | Complete | Cdata

  /**
   * One entry of the parser's output: the (upper-cased) tag, the event type,
   * the nesting depth counted from the document element (which is level 1)
   * and the element's attributes.
   */
  datatype Event = Event(tag: string, kind: EventType, level: int, attributes: map<string, string>)

  const OutlineTag := "OUTLINE"

  /** The export nests every subscription under one outline titled "Subscriptions", at depth 3 (opml, body, outline). */
  const SubscriptionsLevel := 3
  const SubscriptionsTitle := "Subscriptions"

  const TitleToken := "%title%"
  const UrlToken := "%url%"
  const TypeToken := "%type%"
  const FeedUrlToken := "%feedurl%"

  /** An attribute's value; a missing attribute reads as the empty string. */
  function Attribute(e: Event, name: string): string
  {
    if name in e.attributes then e.attributes[name] else ""
  }

  /** The six format strings a caller supplies, by role. */
  datatype Slot = BeginFeeds | EndFeeds | BeginFolder | EndFolder | BeginLink | EndLink

  /** The array key under which each format string is looked up. */
  function Key(s: Slot): string
  {
    match s
    case BeginFeeds => "beginFeeds"
    case EndFeeds => "endFeeds"
    case BeginFolder => "beginFolder"
    case EndFolder => "endFolder"
    case BeginLink => "beginLink"
    case EndLink => "endLink"
  }

  /** The associative array of format strings. */
  type Formats = map<string, string>

  /** The format string for a role; a missing entry reads as the empty string. */
  function Template(formats: Formats, s: Slot): string
  {
    if Key(s) in formats then formats[Key(s)] else ""
  }

  /** The built-in 'unorderedList' preset: nested <ul> lists with a link per feed. */
  const UnorderedList: Formats := map[
    "beginFeeds" := "<ul>",
    "endFeeds" := "</ul>",
    "beginFolder" := "<li>%title%<ul>",
    "endFolder" := "</ul></li>",
    "beginLink" := "<li><a href=\"%url%\">%title%</a></li>",
    "endLink" := ""]

  /**
   * getFormatForType: the preset for a format type. Only 'unorderedList'
   * exists; any other type yields no array at all, under which every format
   * string reads as empty.
   */
  function GetFormatForType(formatType: string): (formats: Formats)
    ensures formatType == "unorderedList" ==> forall s: Slot :: Key(s) in formats
    ensures formatType != "unorderedList" ==> forall s: Slot :: Template(formats, s) == ""
  {
    if formatType == "unorderedList" then UnorderedList else map[]
  }

  /**
   * The text formatElement produces: four replacements applied one after the
   * other, title, url, type, feedurl, each on the result of the previous one.
   */
  function Formatted(e: Event, template: string): string
  {
    var withTitle := ReplaceAll(template, TitleToken, Attribute(e, "TITLE"));
    var withUrl := ReplaceAll(withTitle, UrlToken, Attribute(e, "HTMLURL"));
    var withType := ReplaceAll(withUrl, TypeToken, Attribute(e, "TYPE"));
    ReplaceAll(withType, FeedUrlToken, Attribute(e, "XMLURL"))
  }

  /** formatElement: fills a format string from an element's attributes. */
  method FormatElement(opmlElement: Event, formatString: string) returns (formattedString: string)
    ensures formattedString == Formatted(opmlElement, formatString)
  {
    var title := Attribute(opmlElement, "TITLE");
    var url := Attribute(opmlElement, "HTMLURL");
    var kind := Attribute(opmlElement, "TYPE");
    var feedurl := Attribute(opmlElement, "XMLURL");

    formattedString := formatString;
    formattedString := StrReplace(TitleToken, title, formattedString);
    formattedString := StrReplace(UrlToken, url, formattedString);
    formattedString := StrReplace(TypeToken, kind, formattedString);
    formattedString := StrReplace(FeedUrlToken, feedurl, formattedString);
  }

  /** A format string holding none of the four placeholders comes back unchanged. */
  lemma NoPlaceholderUnchanged(e: Event, template: string)
    requires !Contains(template, TitleToken) && !Contains(template, UrlToken)
    requires !Contains(template, TypeToken) && !Contains(template, FeedUrlToken)
    ensures Formatted(e, template) == template
  {
    ReplaceAbsent(template, TitleToken, Attribute(e, "TITLE"));
    ReplaceAbsent(template, UrlToken, Attribute(e, "HTMLURL"));
    ReplaceAbsent(template, TypeToken, Attribute(e, "TYPE"));
    ReplaceAbsent(template, FeedUrlToken, Attribute(e, "XMLURL"));
  }

  /**
   * The replacements are applied in sequence, so text put in by an earlier
   * one is subject to the later ones: a title that reads "%url%" comes out as
   * the element's url, while replacing the url first would have kept it.
   */
  lemma ReplacementOrderMatters(url: string)
    requires '%' !in url
    ensures var e := Event(OutlineTag, Complete, 4, map["TITLE" := UrlToken, "HTMLURL" := url]);
      && Formatted(e, TitleToken) == url
      && ReplaceAll(ReplaceAll(TitleToken, UrlToken, url), TitleToken, UrlToken) == UrlToken
  {
    var e := Event(OutlineTag, Complete, 4, map["TITLE" := UrlToken, "HTMLURL" := url]);
    TitleCarriesPlaceholder(e, url);
    UrlFirst(url);
  }

  /** Title first: the title "%url%" is put in, then replaced by the url. */
  lemma TitleCarriesPlaceholder(e: Event, url: string)
    requires '%' !in url && Attribute(e, "TITLE") == UrlToken && Attribute(e, "HTMLURL") == url
    ensures Formatted(e, TitleToken) == url
  {
    ReplaceWhole(TitleToken, UrlToken);
    ReplaceWhole(UrlToken, url);
    PlainValue(url, TypeToken, Attribute(e, "TYPE"));
    PlainValue(url, FeedUrlToken, Attribute(e, "XMLURL"));
  }

  /** Url first: the template holds no url placeholder yet, so the title "%url%" stays. */
  lemma UrlFirst(url: string)
    ensures ReplaceAll(ReplaceAll(TitleToken, UrlToken, url), TitleToken, UrlToken) == UrlToken
  {
    assert !Contains(TitleToken, UrlToken) by {
      var t := TitleToken;
      assert t[1..][1..] == t[2..] && t[2..][1..] == t[3..];
      assert t[1] != UrlToken[1] && t[1..][0] != UrlToken[0] && t[2..][0] != UrlToken[0];
      ShorterAbsent(t[3..], UrlToken);
    }
    ReplaceAbsent(TitleToken, UrlToken, url);
    ReplaceWhole(TitleToken, UrlToken);
  }

  /**
   * A title ending in '%' can complete a placeholder that a caller's format
   * string puts right after %title%: with the title "100%", the format string
   * "%title%url%" comes out as "100" followed by the element's url.
   */
  lemma TrailingPercent(e: Event, x: string)
    requires Attribute(e, "TITLE") == x + "%" && '%' !in x && (x == [] || x[|x| - 1] !in UrlToken)
    requires '%' !in Attribute(e, "HTMLURL")
    ensures Formatted(e, TitleToken + "url%") == x + Attribute(e, "HTMLURL")
  {
    var t, u := Attribute(e, "TITLE"), Attribute(e, "HTMLURL");
    var y := "url%";
    assert ReplaceAll(TitleToken + y, TitleToken, t) == t + y by {
      ShorterAbsent(y, TitleToken);
      ReplaceAbsent(y, TitleToken, t);
      assert y[0] == 'u';
      ReplaceFront(TitleToken, y, t);
    }
    assert t + y == x + UrlToken + [] by {
      assert "%" + y == UrlToken;
      Regroup(x, "%", y);
    }
    assert ReplaceAll(x + UrlToken + [], UrlToken, u) == x + u + [] by {
      PlainValue(x, UrlToken, u);
      ReplaceSole(x, [], UrlToken, u);
    }
    assert x + u + [] == x + u;
    PlainValue(x + u, TypeToken, Attribute(e, "TYPE"));
    PlainValue(x + u, FeedUrlToken, Attribute(e, "XMLURL"));
  }

  /** A value without '%' passes through any replacement of a placeholder. */
  lemma PlainValue(v: string, token: string, r: string)
    requires token != [] && token[0] == '%' && '%' !in v
    ensures ReplaceAll(v, token, r) == v
  {
    FirstCharAbsent(v, token);
    ReplaceAbsent(v, token, r);
  }

  /** A format string without '%' passes through all four replacements. */
  lemma PlainTemplate(e: Event, s: string)
    requires '%' !in s
    ensures Formatted(e, s) == s
  {
    PlainValue(s, TitleToken, Attribute(e, "TITLE"));
    PlainValue(s, UrlToken, Attribute(e, "HTMLURL"));
    PlainValue(s, TypeToken, Attribute(e, "TYPE"));
    PlainValue(s, FeedUrlToken, Attribute(e, "XMLURL"));
  }

  /** The strings of the 'unorderedList' preset around the whole list. */
  lemma PresetListStrings()
    ensures Template(UnorderedList, BeginFeeds) == "<ul>"
    ensures Template(UnorderedList, EndFeeds) == "</ul>"
  {
  }

  /** The strings of the 'unorderedList' preset around a folder. */
  lemma PresetFolderStrings()
    ensures Template(UnorderedList, BeginFolder) == "<li>" + TitleToken + "<ul>"
    ensures Template(UnorderedList, EndFolder) == "</ul></li>"
  {
  }

  /** The strings of the 'unorderedList' preset for a feed. */
  lemma PresetLinkStrings()
    ensures Template(UnorderedList, BeginLink) == "<li><a href=\"" + UrlToken + "\">" + TitleToken + "</a></li>"
    ensures Template(UnorderedList, EndLink) == ""
  {
  }

  /**
   * A title the replacements after the title's leave alone: it holds none of
   * %url%, %type% and %feedurl% (it may hold '%' and even %title%).
   */
  predicate IntactTitle(t: string)
  {
    !Contains(t, UrlToken) && !Contains(t, TypeToken) && !Contains(t, FeedUrlToken)
  }

  /** A url the replacements after the url's leave alone: it holds neither %type% nor %feedurl%. */
  predicate IntactUrl(u: string)
  {
    !Contains(u, TypeToken) && !Contains(u, FeedUrlToken)
  }

  /**
   * A value that does not hold a placeholder, between two '%'-free literals
   * whose inner edges are not characters of the placeholder, is left alone.
   */
  lemma KeptBetween(x: string, m: string, y: string, token: string, v: string)
    requires token != [] && token[0] == '%'
    requires x != [] && y != [] && '%' !in x && '%' !in y
    requires x[|x| - 1] !in token && y[0] !in token
    requires !Contains(m, token)
    ensures ReplaceAll(x + m + y, token, v) == x + m + y
  {
    PlainValue(x, token, v);
    PlainValue(y, token, v);
    ReplaceAbsent(m, token, v);
    KeepBetween(x, m, y, token, v);
  }

  /** A folder string of the preset's shape, with a title the later replacements leave alone. */
  lemma FolderText(e: Event)
    requires IntactTitle(Attribute(e, "TITLE"))
    ensures Formatted(e, "<li>" + TitleToken + "<ul>") == "<li>" + Attribute(e, "TITLE") + "<ul>"
  {
    var t := Attribute(e, "TITLE");
    assert ReplaceAll("<li>" + TitleToken + "<ul>", TitleToken, t) == "<li>" + t + "<ul>" by {
      PlainValue("<li>", TitleToken, t);
      PlainValue("<ul>", TitleToken, t);
      ReplaceSole("<li>", "<ul>", TitleToken, t);
    }
    var x, y := "<li>", "<ul>";
    FolderLiterals(x, y);
    KeptBetween(x, t, y, UrlToken, Attribute(e, "HTMLURL"));
    KeptBetween(x, t, y, TypeToken, Attribute(e, "TYPE"));
    KeptBetween(x, t, y, FeedUrlToken, Attribute(e, "XMLURL"));
  }

  /** The literal parts of the preset's folder string hold no '%', and their inner edges are separators. */
  lemma FolderLiterals(x: string, y: string)
    requires x == "<li>" && y == "<ul>"
    ensures x != [] && y != [] && '%' !in x && '%' !in y
    ensures Separator(x[|x| - 1]) && Separator(y[0])
  {
    assert x[|x| - 1] == '>' && y[0] == '<';
  }

  /** The preset's folder string with such a title: the title sits between <li> and <ul>. */
  lemma PresetFolder(e: Event)
    requires IntactTitle(Attribute(e, "TITLE"))
    ensures Formatted(e, Template(UnorderedList, BeginFolder)) == "<li>" + Attribute(e, "TITLE") + "<ul>"
  {
    PresetFolderStrings();
    FolderText(e);
  }

  /** The literal head a + %url% + b of a link-shaped string holds no %title%. */
  lemma LinkHead(a: string, b: string, t: string)
    requires a != [] && b != [] && '%' !in a && '%' !in b
    requires a[|a| - 1] !in TitleToken && b[0] !in TitleToken
    ensures ReplaceAll(a + UrlToken + b, TitleToken, t) == a + UrlToken + b
  {
    PlainValue(a, TitleToken, t);
    PlainValue(b, TitleToken, t);
    ShorterAbsent(UrlToken, TitleToken);
    ReplaceAbsent(UrlToken, TitleToken, t);
    ReplaceSplit(a, UrlToken, TitleToken, t);
    ReplaceSplit(a + UrlToken, b, TitleToken, t);
  }

  /**
   * A string shaped like the preset's link string, a + %url% + b + %title% + c
   * with '%'-free literal parts whose seams no placeholder can straddle: the
   * title replacement fills only the %title% slot, and the url replacement
   * then fills only the %url% slot, leaving a title without %url% alone.
   */
  lemma LinkShape(a: string, b: string, c: string, t: string, u: string)
    requires a != [] && b != [] && c != []
    requires '%' !in a && '%' !in b && '%' !in c && !Contains(t, UrlToken)
    requires a[|a| - 1] !in TitleToken && a[|a| - 1] !in UrlToken
    requires b[0] !in TitleToken && b[0] !in UrlToken && b[|b| - 1] !in TitleToken && b[|b| - 1] !in UrlToken
    requires c[0] !in TitleToken && c[0] !in UrlToken
    ensures ReplaceAll(a + UrlToken + b + TitleToken + c, TitleToken, t) == a + UrlToken + (b + t + c)
    ensures ReplaceAll(a + UrlToken + (b + t + c), UrlToken, u) == a + u + b + t + c
  {
    LinkTitleSlot(a, b, c, t);
    var rest := b + t + c;
    assert rest[0] == b[0];
    KeptBetween(b, t, c, UrlToken, u);
    LinkUrlSlot(a, rest, u);
    assert a + u + rest == a + u + b + t + c by {
      Regroup(a + u, b + t, c);
      Regroup(a + u, b, t);
    }
  }

  /** The title replacement on a + %url% + b + %title% + c fills only the %title% slot. */
  lemma LinkTitleSlot(a: string, b: string, c: string, t: string)
    requires a != [] && b != [] && c != []
    requires '%' !in a && '%' !in b && '%' !in c
    requires a[|a| - 1] !in TitleToken && b[0] !in TitleToken && b[|b| - 1] !in TitleToken && c[0] !in TitleToken
    ensures ReplaceAll(a + UrlToken + b + TitleToken + c, TitleToken, t) == a + UrlToken + (b + t + c)
  {
    var head := a + UrlToken + b;
    LinkHead(a, b, t);
    PlainValue(c, TitleToken, t);
    ReplaceSole(head, c, TitleToken, t);
    assert head + t + c == a + UrlToken + (b + t + c) by {
      Regroup(a + UrlToken, b, t);
      Regroup(a + UrlToken, b + t, c);
    }
  }

  /** The url replacement on a + %url% + rest, with a '%'-free a and a rest it leaves alone, fills only the %url% slot. */
  lemma LinkUrlSlot(a: string, rest: string, u: string)
    requires a != [] && '%' !in a && a[|a| - 1] !in UrlToken
    requires ReplaceAll(rest, UrlToken, u) == rest && (rest == [] || rest[0] !in UrlToken)
    ensures ReplaceAll(a + UrlToken + rest, UrlToken, u) == a + u + rest
  {
    PlainValue(a, UrlToken, u);
    ReplaceSole(a, rest, UrlToken, u);
  }

  /**
   * A filled link string a + u + b + t + c, with '%'-free literals whose
   * edges are not characters of the placeholder, is left alone by a
   * placeholder that neither u nor t holds.
   */
  lemma LinkKept(a: string, b: string, c: string, t: string, u: string, token: string, v: string)
    requires token != [] && token[0] == '%'
    requires a != [] && b != [] && c != [] && '%' !in a && '%' !in b && '%' !in c
    requires a[|a| - 1] !in token && b[0] !in token && b[|b| - 1] !in token && c[0] !in token
    requires !Contains(u, token) && !Contains(t, token)
    ensures ReplaceAll(a + u + b + t + c, token, v) == a + u + b + t + c
  {
    KeptBetween(a, u, b, token, v);
    var x := a + u + b;
    assert x[|x| - 1] == b[|b| - 1];
    ReplaceAbsent(t, token, v);
    PlainValue(c, token, v);
    KeepBetween(x, t, c, token, v);
  }

  /** A character that no placeholder holds, so no placeholder can run across it. */
  predicate Separator(ch: char)
  {
    ch !in TitleToken && ch !in UrlToken && ch !in TypeToken && ch !in FeedUrlToken
  }

  /** The literal parts of the preset's link string hold no '%', and their inner edges are separators. */
  lemma LinkLiterals(a: string, b: string, c: string)
    requires a == "<li><a href=\"" && b == "\">" && c == "</a></li>"
    ensures a != [] && b != [] && c != [] && '%' !in a && '%' !in b && '%' !in c
    ensures Separator(a[|a| - 1]) && Separator(b[0]) && Separator(b[|b| - 1]) && Separator(c[0])
  {
    assert a[|a| - 1] == '"' && b[0] == '"' && b[|b| - 1] == '>' && c[0] == '<';
  }

  /** A link string of the preset's shape, with a title and url the later replacements leave alone. */
  lemma LinkText(e: Event)
    requires IntactTitle(Attribute(e, "TITLE")) && IntactUrl(Attribute(e, "HTMLURL"))
    ensures Formatted(e, "<li><a href=\"" + UrlToken + "\">" + TitleToken + "</a></li>")
         == "<li><a href=\"" + Attribute(e, "HTMLURL") + "\">" + Attribute(e, "TITLE") + "</a></li>"
  {
    var t, u := Attribute(e, "TITLE"), Attribute(e, "HTMLURL");
    var a, b, c := "<li><a href=\"", "\">", "</a></li>";
    LinkLiterals(a, b, c);
    LinkShape(a, b, c, t, u);
    LinkKept(a, b, c, t, u, TypeToken, Attribute(e, "TYPE"));
    LinkKept(a, b, c, t, u, FeedUrlToken, Attribute(e, "XMLURL"));
  }

  /** The preset's link string with such a title and url: an anchor to the url labelled with the title. */
  lemma PresetLink(e: Event)
    requires IntactTitle(Attribute(e, "TITLE")) && IntactUrl(Attribute(e, "HTMLURL"))
    ensures Formatted(e, Template(UnorderedList, BeginLink))
         == "<li><a href=\"" + Attribute(e, "HTMLURL") + "\">" + Attribute(e, "TITLE") + "</a></li>"
  {
    PresetLinkStrings();
    LinkText(e);
  }

  /**
   * A '%' on its own is harmless: a folder titled "100% Pure" and a feed whose
   * url is percent-encoded come out of the preset unchanged.
   */
  lemma PercentSample(e: Event)
    requires Attribute(e, "TITLE") == "100% Pure" && Attribute(e, "HTMLURL") == "http://example.com/a%20b"
    ensures Formatted(e, Template(UnorderedList, BeginFolder)) == "<li>" + "100% Pure" + "<ul>"
    ensures Formatted(e, Template(UnorderedList, BeginLink))
         == "<li><a href=\"" + "http://example.com/a%20b" + "\">" + "100% Pure" + "</a></li>"
  {
    var t, u := Attribute(e, "TITLE"), Attribute(e, "HTMLURL");
    assert t == "100" + "%" + " Pure";
    assert u == "http://example.com/a" + "%" + "20b";
    LonePercentAbsent("100", " Pure", UrlToken);
    LonePercentAbsent("100", " Pure", TypeToken);
    LonePercentAbsent("100", " Pure", FeedUrlToken);
    LonePercentAbsent("http://example.com/a", "20b", TypeToken);
    LonePercentAbsent("http://example.com/a", "20b", FeedUrlToken);
    PresetFolder(e);
    PresetLink(e);
  }

  /** An OUTLINE event that is not character data: the only kind that produces output. */
  predicate Emits(e: Event)
  {
    e.tag == OutlineTag && e.kind != Cdata
  }

  /** The opening of the Subscriptions wrapper. */
  predicate OpensSubscriptions(e: Event)
  {
    e.level == SubscriptionsLevel && Attribute(e, "TITLE") == SubscriptionsTitle
  }

  /** The format strings an event selects, in the order they are emitted. */
  function Slots(e: Event): seq<Slot>
  {
    if e.tag != OutlineTag then []
    else match e.kind
      case Open => if OpensSubscriptions(e) then [BeginFeeds] else [BeginFolder]
      case Close => if e.level == SubscriptionsLevel then [EndFeeds] else [EndFolder]
      case Complete => [BeginLink, EndLink]
      case Cdata => []
  }

  /**
   * The selection rules, each in both directions: nothing for a non-OUTLINE
   * or character-data event; the list's opening string for the Subscriptions
   * element and the folder's for any other opening one; the list's closing
   * string at the Subscriptions depth and the folder's elsewhere; the link's
   * two strings for a complete element.
   */
  lemma SlotRules(e: Event)
    ensures Slots(e) == [] <==> !Emits(e)
    ensures Slots(e) == [BeginFeeds] <==> Emits(e) && e.kind == Open && OpensSubscriptions(e)
    ensures Slots(e) == [BeginFolder] <==> Emits(e) && e.kind == Open && !OpensSubscriptions(e)
    ensures Slots(e) == [EndFeeds] <==> Emits(e) && e.kind == Close && e.level == SubscriptionsLevel
    ensures Slots(e) == [EndFolder] <==> Emits(e) && e.kind == Close && e.level != SubscriptionsLevel
    ensures Slots(e) == [BeginLink, EndLink] <==> Emits(e) && e.kind == Complete
  {
  }

  /** The formatted strings one event emits. */
  function Fragments(e: Event, formats: Formats): seq<string>
  {
    var slots := Slots(e);
    seq(|slots|, i requires 0 <= i < |slots| => Formatted(e, Template(formats, slots[i])))
  }

  /** An event emits one string per slot, each slot's format string filled from the event. */
  lemma FragmentsAre(e: Event, formats: Formats)
    ensures |Fragments(e, formats)| == |Slots(e)|
    ensures forall i :: 0 <= i < |Slots(e)| ==> Fragments(e, formats)[i] == Formatted(e, Template(formats, Slots(e)[i]))
  {
  }

  /** The number of emitting events of one type. */
  function CountOf(events: seq<Event>, kind: EventType): nat
  {
    if events == [] then 0
    else (if Emits(events[0]) && events[0].kind == kind then 1 else 0) + CountOf(events[1..], kind)
  }

  /**
   * Every fragment the event list emits, in document order: one per OUTLINE
   * open or close, two per complete element, none for anything else.
   */
  function AllFragments(events: seq<Event>, formats: Formats): seq<string>
  {
    if events == [] then []
    else Fragments(events[0], formats) + AllFragments(events[1..], formats)
  }

  /** One fragment per OUTLINE open or close, two per complete element, none for anything else. */
  lemma {:induction false} FragmentCount(events: seq<Event>, formats: Formats)
    ensures |AllFragments(events, formats)|
         == CountOf(events, Open) + CountOf(events, Close) + 2 * CountOf(events, Complete)
  {
    if events != [] {
      SlotRules(events[0]);
      FragmentsAre(events[0], formats);
      FragmentCount(events[1..], formats);
    }
  }

  /** The concatenation of a list of strings. */
  function Concat(parts: seq<string>): string
  {
    if parts == [] then "" else parts[0] + Concat(parts[1..])
  }

  /** The markup processFeedData returns for a parsed export. */
  function Markup(events: seq<Event>, formats: Formats): string
  {
    Concat(AllFragments(events, formats))
  }

  lemma {:induction false} ConcatAppend(xs: seq<string>, ys: seq<string>)
    ensures Concat(xs + ys) == Concat(xs) + Concat(ys)
  {
    if xs != [] {
      assert (xs + ys)[1..] == xs[1..] + ys;
      ConcatAppend(xs[1..], ys);
    } else {
      assert xs + ys == ys;
    }
  }

  lemma {:induction false} AllFragmentsAppend(a: seq<Event>, b: seq<Event>, formats: Formats)
    ensures AllFragments(a + b, formats) == AllFragments(a, formats) + AllFragments(b, formats)
  {
    if a != [] {
      assert (a + b)[1..] == a[1..] + b;
      AllFragmentsAppend(a[1..], b, formats);
      var f := Fragments(a[0], formats);
      assert f + (AllFragments(a[1..], formats) + AllFragments(b, formats))
          == (f + AllFragments(a[1..], formats)) + AllFragments(b, formats);
    } else {
      assert a + b == b;
      assert AllFragments(a, formats) == [];
    }
  }

  /** The markup of a concatenation of event lists is the concatenation of their markups. */
  lemma MarkupAppend(a: seq<Event>, b: seq<Event>, formats: Formats)
    ensures Markup(a + b, formats) == Markup(a, formats) + Markup(b, formats)
  {
    AllFragmentsAppend(a, b, formats);
    ConcatAppend(AllFragments(a, formats), AllFragments(b, formats));
  }

  /** One event's markup is its fragments, one after the other. */
  lemma MarkupOne(e: Event, formats: Formats)
    ensures Markup([e], formats) == Concat(Fragments(e, formats))
  {
    assert [e][1..] == [];
    assert AllFragments([e][1..], formats) == [];
    assert Fragments(e, formats) + [] == Fragments(e, formats);
  }

  lemma ConcatPair(x: string, y: string)
    ensures Concat([x]) == x && Concat([x, y]) == x + y
  {
    assert [x][1..] == [];
    assert [x, y][1..] == [y];
    assert Concat([y]) == y;
    assert x + (y + "") == x + y;
  }

  /** What one event contributes, case by case, as processFeedData's branches lay it out. */
  lemma EventText(e: Event, formats: Formats)
    ensures !Emits(e) ==> Concat(Fragments(e, formats)) == ""
    ensures Emits(e) && e.kind == Open && OpensSubscriptions(e)
      ==> Concat(Fragments(e, formats)) == Formatted(e, Template(formats, BeginFeeds))
    ensures Emits(e) && e.kind == Open && !OpensSubscriptions(e)
      ==> Concat(Fragments(e, formats)) == Formatted(e, Template(formats, BeginFolder))
    ensures Emits(e) && e.kind == Close && e.level == SubscriptionsLevel
      ==> Concat(Fragments(e, formats)) == Formatted(e, Template(formats, EndFeeds))
    ensures Emits(e) && e.kind == Close && e.level != SubscriptionsLevel
      ==> Concat(Fragments(e, formats)) == Formatted(e, Template(formats, EndFolder))
    ensures Emits(e) && e.kind == Complete ==>
      Concat(Fragments(e, formats)) == Formatted(e, Template(formats, BeginLink)) + Formatted(e, Template(formats, EndLink))
  {
    var fs := Fragments(e, formats);
    SlotRules(e);
    FragmentsAre(e, formats);
    if |fs| == 1 {
      assert fs == [fs[0]];
      ConcatPair(fs[0], "");
    } else if |fs| == 2 {
      assert fs == [fs[0], fs[1]];
      ConcatPair(fs[0], fs[1]);
    }
  }

  /** Events of other tags and character data contribute nothing, wherever they stand. */
  lemma IgnoredEvent(a: seq<Event>, e: Event, b: seq<Event>, formats: Formats)
    requires !Emits(e)
    ensures Markup(a + [e] + b, formats) == Markup(a + b, formats)
  {
    assert Markup([e], formats) == "" by {
      MarkupOne(e, formats);
      EventText(e, formats);
    }
    MarkupAppend(a, [e], formats);
    assert Markup(a + [e], formats) == Markup(a, formats);
    MarkupAppend(a + [e], b, formats);
    MarkupAppend(a, b, formats);
  }

  /** A list of events none of which emits anything has empty markup. */
  lemma {:induction false} SilentEvents(events: seq<Event>, formats: Formats)
    requires forall i :: 0 <= i < |events| ==> !Emits(events[i])
    ensures Markup(events, formats) == ""
  {
    if events != [] {
      SilentEvents(events[1..], formats);
      MarkupAppend([events[0]], events[1..], formats);
      MarkupOne(events[0], formats);
      assert [events[0]] + events[1..] == events;
    }
  }

  /**
   * An empty Subscriptions wrapper, reported as an opening and a closing with
   * only ignored events between, renders as beginFeeds followed by endFeeds.
   */
  lemma EmptySubscriptions(open: Event, inner: seq<Event>, close: Event, formats: Formats)
    requires open.tag == OutlineTag && open.kind == Open && OpensSubscriptions(open)
    requires close.tag == OutlineTag && close.kind == Close && close.level == SubscriptionsLevel
    requires forall i :: 0 <= i < |inner| ==> !Emits(inner[i])
    ensures Markup([open] + inner + [close], formats)
         == Formatted(open, Template(formats, BeginFeeds)) + Formatted(close, Template(formats, EndFeeds))
  {
    MarkupAppend([open] + inner, [close], formats);
    MarkupAppend([open], inner, formats);
    SilentEvents(inner, formats);
    MarkupOne(open, formats);
    MarkupOne(close, formats);
    EventText(open, formats);
    EventText(close, formats);
  }

  /** Under a format type other than 'unorderedList' every fragment is empty, so the markup is too. */
  lemma {:induction false} UnknownPresetRendersNothing(formatType: string, events: seq<Event>)
    requires formatType != "unorderedList"
    ensures Markup(events, GetFormatForType(formatType)) == ""
  {
    var formats := GetFormatForType(formatType);
    if events != [] {
      UnknownPresetRendersNothing(formatType, events[1..]);
      EventText(events[0], formats);
      MarkupAppend([events[0]], events[1..], formats);
      MarkupOne(events[0], formats);
      assert [events[0]] + events[1..] == events;
    }
  }

  /** The markup of a non-empty event list: the first event's fragments, then the rest. */
  lemma MarkupFirst(events: seq<Event>, formats: Formats)
    requires events != []
    ensures Markup(events, formats) == Concat(Fragments(events[0], formats)) + Markup(events[1..], formats)
  {
    ConcatAppend(Fragments(events[0], formats), AllFragments(events[1..], formats));
  }

  /**
   * What the 'unorderedList' preset makes of one event: the Subscriptions
   * element opens and closes a <ul>, a folder is an <li> with its title and a
   * nested <ul>, a feed is an <li> holding a link (for titles and urls that
   * hold none of the placeholders replaced after theirs, which would be
   * rewritten; a '%' on its own is harmless).
   */
  lemma PresetEvent(e: Event)
    ensures !Emits(e) ==> Concat(Fragments(e, UnorderedList)) == ""
    ensures Emits(e) && e.kind == Open && OpensSubscriptions(e) ==> Concat(Fragments(e, UnorderedList)) == "<ul>"
    ensures Emits(e) && e.kind == Open && !OpensSubscriptions(e) && IntactTitle(Attribute(e, "TITLE"))
      ==> Concat(Fragments(e, UnorderedList)) == "<li>" + Attribute(e, "TITLE") + "<ul>"
    ensures Emits(e) && e.kind == Close && e.level == SubscriptionsLevel ==> Concat(Fragments(e, UnorderedList)) == "</ul>"
    ensures Emits(e) && e.kind == Close && e.level != SubscriptionsLevel ==> Concat(Fragments(e, UnorderedList)) == "</ul></li>"
    ensures Emits(e) && e.kind == Complete && IntactTitle(Attribute(e, "TITLE")) && IntactUrl(Attribute(e, "HTMLURL"))
      ==> (Concat(Fragments(e, UnorderedList))
        == "<li><a href=\"" + Attribute(e, "HTMLURL") + "\">" + Attribute(e, "TITLE") + "</a></li>")
  {
    EventText(e, UnorderedList);
    if Emits(e) {
      match e.kind
      case Open =>
        if OpensSubscriptions(e) {
          PresetListStrings();
          PlainTemplate(e, "<ul>");
        } else if IntactTitle(Attribute(e, "TITLE")) {
          PresetFolder(e);
        }
      case Close =>
        if e.level == SubscriptionsLevel {
          PresetListStrings();
          PlainTemplate(e, "</ul>");
        } else {
          PresetFolderStrings();
          PlainTemplate(e, "</ul></li>");
        }
      case Complete =>
        if IntactTitle(Attribute(e, "TITLE")) && IntactUrl(Attribute(e, "HTMLURL")) {
          PresetLink(e);
          PresetLinkStrings();
          PlainTemplate(e, "");
        }
    }
  }


  /**
   * The markup of an event list is the in-order concatenation of the texts
   * of its events, each event's text being the concatenation of its fragments.
   */
  lemma {:induction false} MarkupByEvent(events: seq<Event>, formats: Formats, texts: seq<string>)
    requires |texts| == |events|
    requires forall k :: 0 <= k < |events| ==> Concat(Fragments(events[k], formats)) == texts[k]
    ensures Markup(events, formats) == Concat(texts)
  {
    if events != [] {
      MarkupFirst(events, formats);
      MarkupByEvent(events[1..], formats, texts[1..]);
    }
  }

  /**
   * A Subscriptions element holding one folder with one feed in it, amid any
   * events that emit nothing, becomes under the 'unorderedList' preset a
   * list holding one folder item whose nested list holds a link to the feed
   * (for titles and urls that hold none of the later placeholders).
   */
  lemma OneFolderMarkup(before: seq<Event>, subsOpen: Event, folderOpen: Event, feed: Event,
                        folderClose: Event, subsClose: Event, after: seq<Event>)
    requires forall k :: 0 <= k < |before| ==> !Emits(before[k])
    requires forall k :: 0 <= k < |after| ==> !Emits(after[k])
    requires subsOpen.tag == OutlineTag && subsOpen.kind == Open && OpensSubscriptions(subsOpen)
    requires folderOpen.tag == OutlineTag && folderOpen.kind == Open && !OpensSubscriptions(folderOpen)
    requires feed.tag == OutlineTag && feed.kind == Complete
    requires folderClose.tag == OutlineTag && folderClose.kind == Close && folderClose.level != SubscriptionsLevel
    requires subsClose.tag == OutlineTag && subsClose.kind == Close && subsClose.level == SubscriptionsLevel
    requires IntactTitle(Attribute(folderOpen, "TITLE"))
    requires IntactTitle(Attribute(feed, "TITLE")) && IntactUrl(Attribute(feed, "HTMLURL"))
    ensures Markup(before + [subsOpen, folderOpen, feed, folderClose, subsClose] + after, UnorderedList)
         == "<ul>" + ("<li>" + Attribute(folderOpen, "TITLE") + "<ul>")
            + ("<li><a href=\"" + Attribute(feed, "HTMLURL") + "\">" + Attribute(feed, "TITLE") + "</a></li>")
            + "</ul></li>" + "</ul>"
  {
    var es := [subsOpen, folderOpen, feed, folderClose, subsClose];
    OneFolderList(subsOpen, folderOpen, feed, folderClose, subsClose);
    SilentEvents(before, UnorderedList);
    SilentEvents(after, UnorderedList);
    MarkupAppend(before, es, UnorderedList);
    MarkupAppend(before + es, after, UnorderedList);
    assert Markup(before, UnorderedList) + Markup(es, UnorderedList) == Markup(es, UnorderedList);
  }

  /** The five outline events of the one-folder list, on their own. */
  lemma OneFolderList(subsOpen: Event, folderOpen: Event, feed: Event, folderClose: Event, subsClose: Event)
    requires subsOpen.tag == OutlineTag && subsOpen.kind == Open && OpensSubscriptions(subsOpen)
    requires folderOpen.tag == OutlineTag && folderOpen.kind == Open && !OpensSubscriptions(folderOpen)
    requires feed.tag == OutlineTag && feed.kind == Complete
    requires folderClose.tag == OutlineTag && folderClose.kind == Close && folderClose.level != SubscriptionsLevel
    requires subsClose.tag == OutlineTag && subsClose.kind == Close && subsClose.level == SubscriptionsLevel
    requires IntactTitle(Attribute(folderOpen, "TITLE"))
    requires IntactTitle(Attribute(feed, "TITLE")) && IntactUrl(Attribute(feed, "HTMLURL"))
    ensures Markup([subsOpen, folderOpen, feed, folderClose, subsClose], UnorderedList)
         == "<ul>" + ("<li>" + Attribute(folderOpen, "TITLE") + "<ul>")
            + ("<li><a href=\"" + Attribute(feed, "HTMLURL") + "\">" + Attribute(feed, "TITLE") + "</a></li>")
            + "</ul></li>" + "</ul>"
  {
    MarkupFive(subsOpen, folderOpen, feed, folderClose, subsClose, UnorderedList);
    OneFolderTexts(subsOpen, folderOpen, feed, folderClose, subsClose);
  }

  /** The markup of five events: the text of each, in order. */
  lemma MarkupFive(a: Event, b: Event, c: Event, d: Event, e: Event, formats: Formats)
    ensures Markup([a, b, c, d, e], formats)
         == Concat(Fragments(a, formats)) + Concat(Fragments(b, formats)) + Concat(Fragments(c, formats))
            + Concat(Fragments(d, formats)) + Concat(Fragments(e, formats))
  {
    var s4 := [e];
    var s3 := [d] + s4;
    var s2 := [c] + s3;
    var s1 := [b] + s2;
    var s0 := [a] + s1;
    assert s0 == [a, b, c, d, e];
    var ta, tb, tc := Concat(Fragments(a, formats)), Concat(Fragments(b, formats)), Concat(Fragments(c, formats));
    var td, te := Concat(Fragments(d, formats)), Concat(Fragments(e, formats));
    MarkupOne(e, formats);
    MarkupCons(d, s4, formats);
    MarkupCons(c, s3, formats);
    MarkupCons(b, s2, formats);
    MarkupCons(a, s1, formats);
    assert Markup(s0, formats) == ta + (tb + (tc + (td + te)));
    Regroup(ta, tb, tc + (td + te));
    Regroup(ta + tb, tc, td + te);
    Regroup(ta + tb + tc, td, te);
  }

  /** The markup of an event followed by more: that event's text, then the rest's markup. */
  lemma MarkupCons(e: Event, rest: seq<Event>, formats: Formats)
    ensures Markup([e] + rest, formats) == Concat(Fragments(e, formats)) + Markup(rest, formats)
  {
    MarkupAppend([e], rest, formats);
    MarkupOne(e, formats);
  }

  /** The text each of the five outline events contributes under the preset. */
  lemma OneFolderTexts(subsOpen: Event, folderOpen: Event, feed: Event, folderClose: Event, subsClose: Event)
    requires subsOpen.tag == OutlineTag && subsOpen.kind == Open && OpensSubscriptions(subsOpen)
    requires folderOpen.tag == OutlineTag && folderOpen.kind == Open && !OpensSubscriptions(folderOpen)
    requires feed.tag == OutlineTag && feed.kind == Complete
    requires folderClose.tag == OutlineTag && folderClose.kind == Close && folderClose.level != SubscriptionsLevel
    requires subsClose.tag == OutlineTag && subsClose.kind == Close && subsClose.level == SubscriptionsLevel
    requires IntactTitle(Attribute(folderOpen, "TITLE"))
    requires IntactTitle(Attribute(feed, "TITLE")) && IntactUrl(Attribute(feed, "HTMLURL"))
    ensures Concat(Fragments(subsOpen, UnorderedList)) == "<ul>"
    ensures Concat(Fragments(folderOpen, UnorderedList)) == "<li>" + Attribute(folderOpen, "TITLE") + "<ul>"
    ensures Concat(Fragments(feed, UnorderedList))
         == "<li><a href=\"" + Attribute(feed, "HTMLURL") + "\">" + Attribute(feed, "TITLE") + "</a></li>"
    ensures Concat(Fragments(folderClose, UnorderedList)) == "</ul></li>"
    ensures Concat(Fragments(subsClose, UnorderedList)) == "</ul>"
  {
    assert Concat(Fragments(subsOpen, UnorderedList)) == "<ul>" by { PresetEvent(subsOpen); }
    assert Concat(Fragments(folderOpen, UnorderedList)) == "<li>" + Attribute(folderOpen, "TITLE") + "<ul>" by {
      PresetEvent(folderOpen);
    }
    assert Concat(Fragments(feed, UnorderedList))
        == "<li><a href=\"" + Attribute(feed, "HTMLURL") + "\">" + Attribute(feed, "TITLE") + "</a></li>" by {
      PresetEvent(feed);
    }
    assert Concat(Fragments(folderClose, UnorderedList)) == "</ul></li>" by { PresetEvent(folderClose); }
    assert Concat(Fragments(subsClose, UnorderedList)) == "</ul>" by { PresetEvent(subsClose); }
  }

  /** The markup of one more event of a list: the markup so far, then that event's fragments. */
  lemma MarkupSnoc(events: seq<Event>, i: int, formats: Formats)
    requires 0 <= i < |events|
    ensures Markup(events[..i + 1], formats) == Markup(events[..i], formats) + Concat(Fragments(events[i], formats))
  {
    var prefix := events[..i];
    var e := events[i];
    assert events[..i + 1] == prefix + [e];
    MarkupAppend(prefix, [e], formats);
    MarkupOne(e, formats);
  }

  /** processFeedData, on the already parsed export. */
  method ProcessFeedData(feedsData: seq<Event>, formatStrings: Formats) returns (outputData: string)
    ensures outputData == Markup(feedsData, formatStrings)
  {
    outputData := "";
    for i := 0 to |feedsData|
      invariant outputData == Markup(feedsData[..i], formatStrings)
    {
      var element := feedsData[i];
      var piece := "";
      if element.tag == OutlineTag && element.kind != Cdata {
        if element.kind == Open {
          if element.level == SubscriptionsLevel && Attribute(element, "TITLE") == SubscriptionsTitle {
            piece := FormatElement(element, Template(formatStrings, BeginFeeds));
          } else {
            piece := FormatElement(element, Template(formatStrings, BeginFolder));
          }
        } else if element.kind == Close {
          if element.level == SubscriptionsLevel {
            piece := FormatElement(element, Template(formatStrings, EndFeeds));
          } else {
            piece := FormatElement(element, Template(formatStrings, EndFolder));
          }
        } else if element.kind == Complete {
          var begin := FormatElement(element, Template(formatStrings, BeginLink));
          var end := FormatElement(element, Template(formatStrings, EndLink));
          piece := begin + end;
        }
      }
      assert piece == Concat(Fragments(element, formatStrings)) by {
        EventText(element, formatStrings);
      }
      MarkupSnoc(feedsData, i, formatStrings);
      outputData := outputData + piece;
    }
    assert feedsData[..|feedsData|] == feedsData;
  }
}
