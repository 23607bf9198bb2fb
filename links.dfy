/**
 * The link resolver: the site's base URL, the rooms paths, and the two
 * functions that turn a room identifier or a site path into an absolute URL
 * by plain concatenation (no encoding, no validation).
 */
module Links {
  import opened Wrappers
  import opened JsString

  const SiteBaseUrl: string := "https://shankarmaharaj-dhankawadi.com"
  const RoomsBaseUrl: string := SiteBaseUrl + "/rooms"
  const RoomsNewPath: string := "/rooms/new"
  const RoomsListPath: string := "/rooms"

  /** `roomUrl` for a string identifier: the rooms base, a slash, then the identifier verbatim. */
  function RoomUrl(roomId: string): (url: string)
    ensures SiteBaseUrl <= url
    ensures RoomsBaseUrl + "/" <= url
    ensures url[|RoomsBaseUrl| + 1..] == roomId
  {
    RoomsBaseUrl + "/" + roomId
  }

  /** `roomUrl` for an integral number identifier of magnitude at most 2^53, written in exact decimal as JavaScript writes it. */
  function NumberRoomUrl(roomId: int): (url: string)
    requires -MaxExactInteger <= roomId <= MaxExactInteger
    ensures RoomsBaseUrl + "/" <= url && |url| > |RoomsBaseUrl| + 1
    ensures url[|RoomsBaseUrl| + 1] == '-' <==> roomId < 0
    ensures url[|RoomsBaseUrl| + 1..] == NumberToString(roomId)
  {
    RoomUrl(NumberToString(roomId))
  }

  /** `roomsPathUrl`: the site base followed directly by the path, no separator added. */
  function RoomsPathUrl(path: string): (url: string)
    ensures SiteBaseUrl <= url
    ensures url[|SiteBaseUrl|..] == path
  {
    SiteBaseUrl + path
  }

  /** Recovers the room identifier from a URL of the form RoomUrl builds. */
  function RoomIdOf(url: string): Option<string> {
    if RoomsBaseUrl + "/" <= url then Some(url[|RoomsBaseUrl| + 1..]) else None
  }

  /** Recovers the path from a URL of the form RoomsPathUrl builds. */
  function PathOf(url: string): Option<string> {
    if SiteBaseUrl <= url then Some(url[|SiteBaseUrl|..]) else None
  }

  /** RoomIdOf inverts RoomUrl, and accepts only URLs RoomUrl can build. */
  lemma RoomIdOfRoomUrl(roomId: string, url: string)
    ensures RoomIdOf(RoomUrl(roomId)) == Some(roomId)
    ensures RoomIdOf(url) == Some(roomId) <==> url == RoomUrl(roomId)
  {
    if RoomIdOf(url) == Some(roomId) {
      var p := RoomsBaseUrl + "/";
      assert url == url[..|p|] + url[|p|..];
    }
  }

  /** PathOf inverts RoomsPathUrl, and accepts only URLs RoomsPathUrl can build. */
  lemma PathOfRoomsPathUrl(path: string, url: string)
    ensures PathOf(RoomsPathUrl(path)) == Some(path)
    ensures PathOf(url) == Some(path) <==> url == RoomsPathUrl(path)
  {
    if PathOf(url) == Some(path) {
      assert url == url[..|SiteBaseUrl|] + url[|SiteBaseUrl|..];
    }
  }

  /** Distinct room identifiers give distinct room URLs. */
  lemma RoomUrlInjective(a: string, b: string)
    ensures RoomUrl(a) == RoomUrl(b) <==> a == b
  {
    RoomIdOfRoomUrl(a, RoomUrl(b));
  }

  /** Distinct paths give distinct URLs. */
  lemma RoomsPathUrlInjective(a: string, b: string)
    ensures RoomsPathUrl(a) == RoomsPathUrl(b) <==> a == b
  {
    PathOfRoomsPathUrl(a, RoomsPathUrl(b));
  }

  /** Distinct numeric room identifiers give distinct room URLs. */
  lemma NumberRoomUrlInjective(m: int, n: int)
    requires -MaxExactInteger <= m <= MaxExactInteger
    requires -MaxExactInteger <= n <= MaxExactInteger
    ensures NumberRoomUrl(m) == NumberRoomUrl(n) <==> m == n
  {
    RoomUrlInjective(NumberToString(m), NumberToString(n));
    NumberToStringInjective(m, n);
  }

  /**
   * The site base is an absolute https URL with no trailing slash, and both
   * paths start with a slash, so appending a path gives a well-formed URL.
   */
  lemma LinkConstantsShape()
    ensures "https://" <= SiteBaseUrl && SiteBaseUrl[|SiteBaseUrl| - 1] != '/'
    ensures RoomsNewPath[0] == '/' && RoomsListPath[0] == '/'
    ensures RoomsListPath <= RoomsNewPath
  {
  }

  /** The rooms base is the site base followed by "/rooms". */
  lemma RoomsBaseOnSite()
    ensures SiteBaseUrl <= RoomsBaseUrl
    ensures RoomsBaseUrl[|SiteBaseUrl|..] == "/rooms"
  {
  }

  /** The rooms-list path resolves to the rooms base itself. */
  lemma RoomsListPathIsRoomsBase()
    ensures RoomsPathUrl(RoomsListPath) == RoomsBaseUrl
  {
  }

  /** The two resolvers agree: a room's URL is the site path "/rooms/" + identifier. */
  lemma ResolversAgree(roomId: string)
    ensures RoomsPathUrl("/rooms/" + roomId) == RoomUrl(roomId)
  {
    assert "/rooms/" + roomId == "/rooms" + "/" + roomId;
  }

  /** The create-room page and a room whose identifier is "new" share one URL. */
  lemma NewPathIsRoomNamedNew()
    ensures RoomsPathUrl(RoomsNewPath) == RoomUrl("new")
  {
    ResolversAgree("new");
  }

  /** A numeric identifier never reaches the create-room page. */
  lemma NumberRoomNeverNewPath(roomId: int)
    requires -MaxExactInteger <= roomId <= MaxExactInteger
    ensures NumberRoomUrl(roomId) != RoomsPathUrl(RoomsNewPath)
  {
    NewPathIsRoomNamedNew();
    RoomUrlInjective(NumberToString(roomId), "new");
  }
}
