/**
 * The rooms-browser screen: it reads an optional `path` navigation
 * parameter, falls back to the rooms-list path when that is absent or
 * blank, resolves the path to a URL on the site, and shows that URL either
 * as an external-open card (on the web) or as an embedded page (elsewhere).
 * Rendering is abstracted to the tagged choice of view, its title and its URL.
 */
module RoomsBrowser {
  import opened Wrappers
  import opened JsString
  import opened Links

  /** The host platform, as React Native's `Platform.OS` reports it. */
  datatype Os = Ios | Android | Macos | Windows | Web | Native

  /**
   * The two presentations. Both show the resolved path as the title and an
   * "Open in browser" header action for `url`; ExternalOnly adds a "Launch"
   * action for the same `url`, Embedded shows the page at `url` in place.
   */
  datatype View = ExternalOnly(title: string, url: string) | Embedded(title: string, url: string)

  /** The URLs the view's buttons hand to the system browser, in screen order. */
  function ExternalOpens(v: View): (urls: seq<string>)
    ensures urls != []
    ensures forall i :: 0 <= i < |urls| ==> urls[i] == v.url
    ensures |urls| == (if v.ExternalOnly? then 2 else 1)
  {
    match v
    case ExternalOnly(_, url) => [url, url]
    case Embedded(_, url) => [url]
  }

  /** The page the view embeds, if any. */
  function EmbeddedPage(v: View): (page: Option<string>)
    ensures page.Some? <==> v.Embedded?
    ensures page.Some? ==> page.value == v.url
  {
    match v
    case ExternalOnly(_, _) => None
    case Embedded(_, url) => Some(url)
  }

  /** The memoised `resolvedPath`: the trimmed parameter, or the rooms list when that is blank. */
  function ResolvePath(path: Option<string>): (r: string)
    ensures r != []
    ensures Trimmed(r)
    ensures r == RoomsListPath || (path.Some? && r == Trim(path.value))
    ensures path.Some? && !Blank(path.value) ==> r == Trim(path.value)
  {
    match path
    case Some(p) =>
      TrimEmptyIffBlank(p);
      if |Trim(p)| > 0 then Trim(p) else RoomsListPath
    case None => RoomsListPath
  }

  /** The screen's `url`: the site base followed by the resolved path. */
  function BrowserUrl(path: Option<string>): (url: string)
    ensures SiteBaseUrl <= url && url[|SiteBaseUrl|..] == ResolvePath(path)
  {
    RoomsPathUrl(ResolvePath(path))
  }

  /** What the screen renders on the given platform for the given parameter. */
  function Render(os: Os, path: Option<string>): (v: View)
    ensures v.ExternalOnly? <==> os == Web
    ensures v.title == ResolvePath(path)
    ensures v.url == BrowserUrl(path)
  {
    var resolvedPath := ResolvePath(path);
    var url := RoomsPathUrl(resolvedPath);
    if os == Web then ExternalOnly(resolvedPath, url) else Embedded(resolvedPath, url)
  }

  /**
   * A path surrounded by whitespace resolves to the path itself, verbatim:
   * no leading "/" is required or added and nothing is encoded.
   */
  lemma ResolvePathGiven(a: string, p: string, b: string)
    requires Blank(a) && Blank(b)
    requires p != [] && Trimmed(p)
    ensures ResolvePath(Some(a + p + b)) == p
  {
    TrimOfPadded(a, p, b);
  }

  /** The screen URL for such a parameter is the URL of the path itself. */
  lemma BrowserUrlGiven(a: string, p: string, b: string)
    requires Blank(a) && Blank(b)
    requires p != [] && Trimmed(p)
    ensures BrowserUrl(Some(a + p + b)) == RoomsPathUrl(p)
  {
    ResolvePathGiven(a, p, b);
  }

  /** An absent or blank parameter resolves to the rooms list, whose URL is the rooms base. */
  lemma ResolvePathDefault(path: Option<string>)
    ensures ResolvePath(path) == RoomsListPath <==>
              (path == None || Blank(path.value) || Trim(path.value) == RoomsListPath)
    ensures (path == None || Blank(path.value)) ==> BrowserUrl(path) == RoomsBaseUrl
  {
    if path.Some? {
      TrimEmptyIffBlank(path.value);
    }
    RoomsListPathIsRoomsBase();
  }

  /** The resolved path is a fixed point: feeding it back in resolves to itself. */
  lemma ResolvePathFixedPoint(path: Option<string>)
    ensures Trim(ResolvePath(path)) == ResolvePath(path)
    ensures ResolvePath(Some(ResolvePath(path))) == ResolvePath(path)
  {
    var r := ResolvePath(path);
    assert r == [] + r + [];
    TrimOfPadded([], r, []);
    ResolvePathGiven([], r, []);
  }

  /**
   * Every platform shows the web view's title and URL, every external-open
   * action opens the screen's URL, and only the non-web view embeds the page.
   */
  lemma RenderOpensOneUrl(os: Os, path: Option<string>)
    ensures var v := Render(os, path);
      && v.title == Render(Web, path).title && v.url == Render(Web, path).url
      && ExternalOpens(v) != []
      && (forall i :: 0 <= i < |ExternalOpens(v)| ==> ExternalOpens(v)[i] == BrowserUrl(path))
      && EmbeddedPage(v) == (if os == Web then None else Some(BrowserUrl(path)))
  {
  }

  /** A path that starts with a slash and does not end in whitespace resolves to itself. */
  lemma SlashPathResolvesToItself(p: string)
    requires |p| > 0 && p[0] == '/' && !IsWhitespace(p[|p| - 1])
    ensures ResolvePath(Some(p)) == p
  {
    assert p == [] + p + [];
    ResolvePathGiven([], p, []);
  }

  /** The create-room and rooms-list paths need no trimming: each resolves to itself. */
  lemma SitePathsResolveToThemselves()
    ensures ResolvePath(Some(RoomsNewPath)) == RoomsNewPath
    ensures ResolvePath(Some(RoomsListPath)) == RoomsListPath
  {
    SlashPathResolvesToItself(RoomsNewPath);
    SlashPathResolvesToItself(RoomsListPath);
  }

  /** The site path of a numeric room, "/rooms/" and its digits, resolves to itself. */
  lemma NumberRoomPathResolvesToItself(roomId: int)
    requires -MaxExactInteger <= roomId <= MaxExactInteger
    ensures var p := "/rooms/" + NumberToString(roomId); ResolvePath(Some(p)) == p
  {
    var p := "/rooms/" + NumberToString(roomId);
    assert p[0] == '/' && IsDigit(p[|p| - 1]);
    SlashPathResolvesToItself(p);
  }

  /** The screen opened with path "/rooms/new" shows the create-room page under that title. */
  lemma RenderNewRoomPage(os: Os)
    ensures Render(os, Some(RoomsNewPath)).title == "/rooms/new"
    ensures Render(os, Some(RoomsNewPath)).url == RoomsPathUrl("/rooms/new")
  {
    assert RoomsNewPath == [] + RoomsNewPath + [];
    ResolvePathGiven([], RoomsNewPath, []);
  }
}
