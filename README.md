# Rooms links and the rooms-browser screen, in Dafny

This project models the link logic of a mobile shell whose screens embed
pages of an external rooms web site. Two pieces have decision logic:

- **The link resolver** (`constants/links.ts`). It holds the site base URL,
  the rooms base URL (the site base plus `/rooms`) and the create-room and
  rooms-list paths. `roomUrl` builds `<rooms base>/<id>` and `roomsPathUrl`
  builds `<site base><path>`. Both use plain concatenation: nothing is
  encoded or validated, and no separator is inserted before a path.
- **The rooms-browser screen** (`app/rooms-browser.tsx`). It reads an
  optional `path` navigation parameter and trims it. When the result is
  blank or the parameter is absent, it uses the rooms-list path. It turns
  that path into a URL with `roomsPathUrl`. On the web it shows a card that
  opens the URL in the system browser. Elsewhere it embeds the page. Both
  presentations carry the resolved path as title and an "Open in browser"
  action.

Modules:

- `Wrappers` (`wrappers.dfy`): `Option`, for the absent parameter.
- `JsString` (`js_string.dfy`): JavaScript's `trim` and the conversion of
  an integral number to text in a template literal. Trim is proved against
  an independent characterisation: blank padding around a string with no
  whitespace at its ends. Number text is proved injective through its
  inverse, `DecimalValue`.
- `Links` (`links.dfy`): the four constants and the two resolvers. Each
  resolver has an inverse (`RoomIdOf`, `PathOf`), and injectivity follows
  from the round trips.
- `RoomsBrowser` (`rooms_browser.dfy`): path resolution, the screen URL and
  the tagged render choice `View = ExternalOnly(title, url) | Embedded(title, url)`.

The platform is a parameter (`Os`, the values React Native's
`Platform.OS` can take, including `native`). The navigation parameter is a parameter too (`Option<string>`).
The `useMemo` hook only memoises: the model is the value it computes.

## Model

| member | source | states |
|---|---|---|
| `JsString.IsWhitespace` | app/rooms-browser.tsx:14-15 | the characters `trim` strips; all of them lie in the Basic Multilingual Plane and none is a slash or a digit |
| `JsString.TrimStart` | app/rooms-browser.tsx:14-15 | the result is a suffix of the input; everything dropped is whitespace; the result does not start with whitespace |
| `JsString.TrimEnd` | app/rooms-browser.tsx:14-15 | the result is a prefix of the input; everything dropped is whitespace; the result does not end with whitespace |
| `JsString.Trim` | app/rooms-browser.tsx:14-15 | `trim` never lengthens a string, and its result has no whitespace at either end |
| `JsString.TrimOfPadded` | app/rooms-browser.tsx:14-15 | for blank `a`, `b` and a string `t` with no whitespace at its ends, trimming `a + t + b` gives exactly `t` |
| `JsString.TrimSplit` | app/rooms-browser.tsx:14-15 | every string is its trim with blank padding before and after |
| `JsString.TrimIdempotent` | app/rooms-browser.tsx:14-15 | trimming a trimmed string changes nothing |
| `JsString.TrimEmptyIffBlank` | app/rooms-browser.tsx:14 | `trim().length > 0` fails exactly when every character is whitespace |
| `JsString.NatToDecimal` | constants/links.ts:6 | a natural number is written as a non-empty run of digits with no leading zero |
| `JsString.DecimalValueOfNat` | constants/links.ts:6 | reading the digits back gives the number again |
| `JsString.NumberToString` | constants/links.ts:6 | an integral number of magnitude at most 2^53 is written as a minus sign exactly when negative, followed by digits with no leading zero (except for 0 itself) whose decimal value is its magnitude |
| `JsString.NumberToStringInjective` | constants/links.ts:6 | two numbers are written the same exactly when they are equal |
| `Links.RoomUrl` | constants/links.ts:6 | a room URL starts with the site base and with the rooms base plus "/", and the rest of it is the identifier verbatim |
| `Links.NumberRoomUrl` | constants/links.ts:6 | a numeric room URL starts with the rooms base plus "/", the identifier part starts with "-" exactly when the number is negative, and it is the number's decimal text |
| `Links.RoomsPathUrl` | constants/links.ts:7 | a path URL starts with the site base and the rest of it is the path verbatim, with no separator inserted |
| `Links.RoomIdOfRoomUrl` | constants/links.ts:6 | the room identifier can be recovered from a room URL, and a URL yields an identifier exactly when it is that identifier's room URL |
| `Links.PathOfRoomsPathUrl` | constants/links.ts:7 | the path can be recovered from a path URL, and a URL yields a path exactly when it is that path's URL |
| `Links.RoomUrlInjective` | constants/links.ts:6 | two string identifiers give the same room URL exactly when they are equal |
| `Links.RoomsPathUrlInjective` | constants/links.ts:7 | two paths give the same URL exactly when they are equal |
| `Links.NumberRoomUrlInjective` | constants/links.ts:6 | two numeric identifiers give the same room URL exactly when they are equal |
| `Links.LinkConstantsShape` | constants/links.ts:1-4 | the site base is an https URL without a trailing slash, both paths start with a slash, and the rooms-list path is a prefix of the create-room path |
| `Links.RoomsBaseOnSite` | constants/links.ts:1-2 | the rooms base is the site base followed by "/rooms" |
| `Links.RoomsListPathIsRoomsBase` | constants/links.ts:1-7 | the URL of the rooms-list path is the rooms base |
| `Links.ResolversAgree` | constants/links.ts:1-7 | the URL of the path "/rooms/" + id is the room URL of id |
| `Links.NewPathIsRoomNamedNew` | constants/links.ts:1-7 | the create-room page and a room with identifier "new" have the same URL |
| `Links.NumberRoomNeverNewPath` | constants/links.ts:3-7 | no numeric room identifier leads to the create-room page |
| `RoomsBrowser.ExternalOpens` | app/rooms-browser.tsx:30-52 | every "Open in browser" or "Launch" button opens the view's URL; the external-only view has two such buttons and the embedded view one |
| `RoomsBrowser.EmbeddedPage` | app/rooms-browser.tsx:57-58 | a page is embedded exactly in the embedded view, and it is the view's URL |
| `RoomsBrowser.ResolvePath` | app/rooms-browser.tsx:13-18 | the resolved path is never empty, has no whitespace at its ends, and is either the rooms-list path or the trimmed parameter; a parameter that is not blank resolves to its trim |
| `RoomsBrowser.BrowserUrl` | app/rooms-browser.tsx:20 | the screen URL is the site base followed by the resolved path |
| `RoomsBrowser.Render` | app/rooms-browser.tsx:22-66 | the external-only view is produced exactly on the web; either view is titled with the resolved path and carries the screen URL |
| `RoomsBrowser.ResolvePathGiven` | app/rooms-browser.tsx:13-18 | a parameter made of a non-blank path with whitespace around it resolves to that path verbatim: no leading "/" is required and nothing is encoded |
| `RoomsBrowser.BrowserUrlGiven` | app/rooms-browser.tsx:13-20 | for such a parameter the screen URL is the URL of the path itself |
| `RoomsBrowser.ResolvePathDefault` | app/rooms-browser.tsx:13-20 | the path resolves to "/rooms" exactly when the parameter is absent, blank, or trims to "/rooms"; when absent or blank the URL is the rooms base |
| `RoomsBrowser.ResolvePathFixedPoint` | app/rooms-browser.tsx:13-18 | the resolved path is unchanged by trim, and passing it back as the parameter resolves to itself |
| `RoomsBrowser.RenderOpensOneUrl` | app/rooms-browser.tsx:22-66 | every platform gets the same title and URL as the web view; every external-open action opens the screen URL; only the non-web view embeds it |
| `RoomsBrowser.SlashPathResolvesToItself` | app/rooms-browser.tsx:13-18 | a path that starts with "/" and does not end in whitespace resolves to itself |
| `RoomsBrowser.SitePathsResolveToThemselves` | app/rooms-browser.tsx:13-18 | the create-room and rooms-list paths resolve to themselves |
| `RoomsBrowser.NumberRoomPathResolvesToItself` | app/rooms-browser.tsx:13-18 | the site path "/rooms/" followed by a number's text resolves to itself |
| `RoomsBrowser.RenderNewRoomPage` | app/rooms-browser.tsx:10-66 | with path "/rooms/new" the title is "/rooms/new" and the URL is that of the path "/rooms/new" |

## Left out

- `JsString.IsWhitespace` lists the WhiteSpace and LineTerminator code points of current ECMAScript and Unicode versions. An engine built on an older Unicode table (one that still counts U+180E) trims differently.
- `JsString.NumberToString` covers integral numbers of magnitude at most 2^53, which JavaScript writes in exact decimal. Above 2^53 JavaScript writes the shortest digit string that reads back as the same number, not the exact expansion. Fractional numbers, exponent notation, `NaN` and `Infinity` are also not modelled. All of these depend on floating-point formatting. Every caller in the repository passes a string identifier.
- Strings are sequences of Unicode scalar values, while JavaScript strings are sequences of UTF-16 code units. A lone surrogate in `path` cannot be represented, and `.length` counts code units. Neither matters here: only emptiness is tested, and every character `trim` strips is a single code unit (`JsString.IsWhitespace` proves they all lie in the Basic Multilingual Plane).
- Opening a URL in the system browser (`Linking.openURL`) and loading the embedded page (`WebView`, with its inline-media and JavaScript options) are platform calls. The model records only which URL each one receives.
- Styles, layout and all other JSX structure are presentation only.
- The theme constants (`constants/theme.ts`) are static presentation configuration.
- The landing and live-room screens (`app/(tabs)/index.tsx`, `app/(tabs)/live.tsx`) are not part of this model. Their room-code defaulting is outside the rooms browser.
- Reading the navigation parameter (`useLocalSearchParams`) is represented by its result, an optional string. A parameter passed more than once (an array) is not modelled; the screen declares it as a single string.
