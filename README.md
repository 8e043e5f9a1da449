# F1TV service session model

A Dafny model of the F1TV service object of eXF1TV (`eXF1TV::Service::F1TV`), the Qt client that
turns the `login-session` cookie of the F1TV web player into an authorised session and queries the
F1TV catalogue with it. The model covers:

- **Session state**: the class `Service.F1TV` with the fields `ascendonToken`, `entitlementToken`
  and `locationGroupId` (plus the constant language `ENG` and platform `WEB_HLS`). Every Qt signal
  the object emits is appended to the field `signals`, so "emits once" and "emits nothing" are
  statements about that log.
- **Derived claims** (module `Session`): `authStatus` ("R" with a token, "A" without), `homeCountry`
  and `subStatus`, read from the payload segment of the token. The token is a JSON Web Signature in
  compact serialisation (section 7.1 of RFC 7515); Base64 and JSON decoding of the payload are
  library calls, so the model takes them as a `Decoder` function given to the constructor.
- **Change-only updates**: the cookie handler and the ENTITLEMENT reply handler assign a token and
  announce it only when it differs from the stored one; `revoke` clears both tokens.
- **Requests** (module `Requests`): the path, query items and raw headers of the LOCATION,
  ENTITLEMENT and PAGE requests, as pure functions of the session state, with lemmas that read the
  path segments back.
- **Live-session filter** (module `LiveFilter`): the two nested loops of `queryLiveSessions`, proved
  equal to a reference definition, with lemmas that characterise the result exactly; and the
  one-shot listeners, which react only to page 395.
- **Qt's JSON defaulting** (module `Json`): a missing key or a value of the wrong type reads as an
  empty object, an empty array, `""` or 0; `toInt` gives 0 for a number outside the C++ `int` range.

Two behaviours of the code are undefined in Qt, and the model makes a choice for each:

- For a non-empty token without any '.', `split(".").at(1)` has no element. `Session.Payload`,
  `Session.HomeCountry` and `Session.SubStatus` return `None` for such a token. The methods and
  request builders that evaluate them require `TokenReadable` (the token is empty or holds a '.').
- For an empty `resultObj.userLocation` array, the LOCATION handler indexes `[0]` past the end.
  `Requests.GroupIdOf` returns `None` there, and the handler then emits nothing. The stored id is
  always 0, so this is also what reading the missing element as 0 would give.

Three behaviours of the code differ from what a reader might expect, and the model follows the
code:

- The LOCATION reply handler never stores the new group id, and the signal it emits carries the
  stored id, which stays 0 (`Service.F1TV.OnLocationReply`). One might expect the handler to store
  the new id and announce that.
- `queryPage` sends no headers at all (`Requests.PageRequest`). One might expect it to send the
  entitlement token.
- No handler rejects a stale reply: each one applies whatever arrives.

## Model

| member | source | states |
|---|---|---|
| `Session.AuthStatus` | Source/F1TVService.cxx:185-187 | "R" exactly when the ascendon token is non-empty, "A" exactly when it is empty |
| `Session.Payload` | Source/F1TVService.cxx:194 | the second '.'-separated segment exists exactly when the token holds a '.', and holds no '.' itself |
| `Session.HomeCountry` | Source/F1TVService.cxx:189-198 | empty for an empty token; otherwise the `ExternalAuthorizationsContextData` claim of the payload; defined exactly for readable tokens |
| `Session.SubStatus` | Source/F1TVService.cxx:199-215 | "Anonymous" for an empty token, "Registered" for an empty `SubscribedProduct` claim, otherwise the product of the same length with every space turned into '_' and no space left |
| `Session.EntitlementGate` | Source/F1TVService.cxx:53 | `authStatus() == "R" && subStatus() != "Registered"`; when open, the token is non-empty and names a subscribed product; characterised exactly by `EntitlementGateOpen` |
| `Session.EntitlementGateOpen` | Source/F1TVService.cxx:53 | the entitlement gate is open exactly for a token naming a subscribed product that does not normalise to "Registered" |
| `Session.AnonymousSession` | Source/F1TVService.cxx:185-201 | without a token: auth "A", status "Anonymous", home country empty, gate closed |
| `Session.PayloadOfCompactSerialisation` | Source/F1TVService.cxx:194 | for `header.payload.signature` the segment read is `payload` |
| `Session.ClaimsIgnoreHeaderAndSignature` | Source/F1TVService.cxx:193-207 | two tokens with the same payload give the same home country and subscription status |
| `Text.Split` | Source/F1TVService.cxx:194 | the parts hold no separator; there are two or more exactly when the string holds the separator |
| `Text.JoinSplit` | Source/F1TVService.cxx:194 | joining the parts of a split gives back the string |
| `Text.SplitJoin` | Source/F1TVService.cxx:194 | splitting a join of separator-free parts gives back the parts |
| `Text.Replace` | Source/F1TVService.cxx:214 | same length, every `from` replaced by `to`, every other character kept, no `from` left |
| `Text.IntToString` | Source/F1TVService.cxx:122-123 | `QString::number`: a non-empty numeral that starts with '-' exactly for a negative number; read back by `ParseIntToString`, and free of '/' by `IntToStringCharacters` |
| `Text.IntToStringCharacters` | Source/F1TVService.cxx:122-123 | a formatted number is non-empty and holds no character other than '-' and digits, so never the path separator |
| `Text.ParseIntToString` | Source/F1TVService.cxx:122-123 | the decimal form of a number reads back as that number |
| `Json.Field` | Source/F1TVService.cxx:66-68 | `operator[]` on an object: the value under the key, or undefined when the key is missing |
| `Json.ToObject` | Source/F1TVService.cxx:101-104 | `toObject`: the fields of an object, the empty object for anything else |
| `Json.ToArray` | Source/F1TVService.cxx:144-151 | `toArray`: the items of an array, the empty array for anything else |
| `Json.ToString` | Source/F1TVService.cxx:153-154 | `toString`: the text of a string, "" for anything else |
| `Json.StringFieldIsPresent` | Source/F1TVService.cxx:153-154 | reading a field as a non-empty string gives that string exactly when the object holds it under that key |
| `Json.ToInt` | Source/F1TVService.cxx:101-105 | a whole number within the C++ `int` range is returned as is, anything else gives 0 |
| `Json.LookupNest` | Source/F1TVService.cxx:66-68 | reading a chain of keys finds what was nested under it |
| `Requests.LocationPath` | Source/F1TVService.cxx:81-82 | the string `/1.0/<auth>/<lang>/<platform>/ALL/USER/LOCATION`; read back segment by segment by `LocationPathReadBack` |
| `Requests.EntitlementPath` | Source/F1TVService.cxx:54-56 | the string `/2.0/<auth>/<lang>/<platform>/ALL/USER/ENTITLEMENT`; read back by `EntitlementPathReadBack` |
| `Requests.PagePath` | Source/F1TVService.cxx:120-123 | the string `/2.0/<auth>/<lang>/<platform>/ALL/PAGE/<n>/<subStatus>/<locationGroupId>`; read back by `PagePathReadBack` and `PageNumbersReadBack` |
| `Requests.LocationRequest` | Source/F1TVService.cxx:81-93 | path `/1.0/<auth>/<lang>/<platform>/ALL/USER/LOCATION`; the `homeCountry` item and the `ascendontoken` header (carrying the token) are present exactly when auth is "R"; no other header or item |
| `Requests.EntitlementRequest` | Source/F1TVService.cxx:53-57 | built exactly when the gate is open; then path `/2.0/R/<lang>/<platform>/ALL/USER/ENTITLEMENT`, no query, only the `ascendontoken` header carrying the token |
| `Requests.PageRequest` | Source/F1TVService.cxx:120-124 | path `/2.0/<auth>/<lang>/<platform>/ALL/PAGE/<n>/<subStatus>/<locationGroupId>`, no query and no headers |
| `Requests.PagePathReadBack` | Source/F1TVService.cxx:120-123 | the page path splits into exactly ten parts: the empty part before the leading '/', then version, authorisation, language, platform, `ALL`, `PAGE`, page number, subscription status, location group |
| `Requests.PageNumbersReadBack` | Source/F1TVService.cxx:120-123 | the page number and the location group parse back unchanged from their segments of the page path |
| `Requests.LocationPathReadBack` | Source/F1TVService.cxx:81-82 | the location path splits into exactly its segments |
| `Requests.EntitlementPathReadBack` | Source/F1TVService.cxx:54-56 | the entitlement path splits into exactly its segments |
| `Requests.EntitlementTokenOf` | Source/F1TVService.cxx:64-68 | the string at `resultObj.entitlementToken`, or "" when there is none |
| `Requests.GroupIdOf` | Source/F1TVService.cxx:100-105 | None exactly when `resultObj.userLocation` reads as an empty array; which id it reads is stated by `LocationReplyReadBack` |
| `Requests.LocationReplyReadBack` | Source/F1TVService.cxx:100-105 | for any first user location, the id is its `groupId` read through `toInt` (0 when missing, not a number or outside the `int` range); later locations are ignored |
| `Requests.EntitlementReplyRoundTrip` | Source/F1TVService.cxx:64-68 | a reply carrying a token under `resultObj.entitlementToken` yields exactly that token |
| `Requests.LocationReplyRoundTrip` | Source/F1TVService.cxx:100-105 | a reply whose first user location carries a group id yields exactly that id |
| `LiveFilter.IsLiveSession` | Source/F1TVService.cxx:152-154 | holds exactly for an object with a `metadata` field, `contentType` the string "VIDEO" and `contentSubtype` the string "LIVE" |
| `LiveFilter.Containers` | Source/F1TVService.cxx:144-145 | the items of the array at `resultObj.containers`, or none when that is not an array |
| `LiveFilter.SubContainers` | Source/F1TVService.cxx:148-151 | the items of the array at `retrieveItems.resultObj.containers`, or none when that is not an array |
| `LiveFilter.Candidates` | Source/F1TVService.cxx:146-151 | the second-level containers of every container, in order; characterised by `CandidateMembership` |
| `LiveFilter.LiveSessions` | Source/F1TVService.cxx:142-157 | only live sessions, no more than the candidates; the loops are proved equal to it by `CollectLiveSessions` |
| `LiveFilter.Live` | Source/F1TVService.cxx:150-156 | no longer than its input, and every element kept is a live session |
| `LiveFilter.CollectLiveSessions` | Source/F1TVService.cxx:142-157 | the two nested loops compute exactly the reference definition `LiveSessions` |
| `LiveFilter.LiveAppend` | Source/F1TVService.cxx:145-157 | the filter distributes over concatenation, so it keeps the input order |
| `LiveFilter.LiveMultiplicity` | Source/F1TVService.cxx:152-155 | each live session is kept as often as it occurs, nothing else is kept |
| `LiveFilter.LiveMembership` | Source/F1TVService.cxx:152-155 | a value is kept exactly when it occurs and is a live session |
| `LiveFilter.LiveIsSubsequence` | Source/F1TVService.cxx:150-156 | the result is an in-order subsequence of the candidates |
| `LiveFilter.SubsequenceExtend` | Source/F1TVService.cxx:150-156 | a subsequence stays one when the longer sequence grows |
| `LiveFilter.CandidateMembership` | Source/F1TVService.cxx:145-150 | a candidate is exactly a second-level container of some first-level container |
| `LiveFilter.BelowSomePrefix` | Source/F1TVService.cxx:145-150 | being below some container splits into the front containers and the last one |
| `LiveFilter.LiveSessionsExactly` | Source/F1TVService.cxx:142-157 | a value is collected exactly when it is a live session below some container of the page |
| `LiveFilter.LiveVideoAmongOthers` | Source/F1TVService.cxx:152-155 | of a live video, a replay and an article only the live video is collected |
| `Service.ListenerSignals` | Source/F1TVService.cxx:159-160 | one `liveSessionsAvailable` per pending listener with the collected sessions, none when nothing was collected |
| `Service.F1TV.constructor` | Source/F1TVService.cxx:13-15 | both tokens empty, location group 0, language ENG, platform WEB_HLS, nothing emitted |
| `Service.F1TV.OnCookieAdded` | Source/F1TVService.cxx:32-45 | other cookies are ignored; the `login-session` token is stored, and announced only when it differs |
| `Service.F1TV.OnAscendonTokenUpdated` | Source/F1TVService.cxx:47-48 | a token change leads to the location request and the entitlement request, if any |
| `Service.F1TV.UpdateEntitlement` | Source/F1TVService.cxx:52-59 | the request sent, present exactly when auth is "R" and the status is not "Registered" |
| `Service.F1TV.OnEntitlementReply` | Source/F1TVService.cxx:60-73 | a failed reply changes nothing; otherwise the reply's token is stored and announced only when it differs |
| `Service.F1TV.UpdateLocation` | Source/F1TVService.cxx:80-95 | the LOCATION request sent |
| `Service.F1TV.OnLocationReply` | Source/F1TVService.cxx:96-109 | never writes the location group; emits the stored id 0 exactly when a successful reply names a different group id |
| `Service.F1TV.OnNetReachChanged` | Source/F1TVService.cxx:114-117 | a location request exactly when the network goes online |
| `Service.F1TV.QueryPage` | Source/F1TVService.cxx:119-124 | the PAGE request sent |
| `Service.F1TV.OnPageReply` | Source/F1TVService.cxx:125-163 | a failed reply emits nothing; otherwise `pageQueried`, and for page 395 each pending listener's emission, after which no listener is left; other pages leave the listeners pending |
| `Service.F1TV.QueryLiveSessions` | Source/F1TVService.cxx:137-165 | one more pending listener, and the PAGE request for page 395 |
| `Service.F1TV.Revoke` | Source/F1TVService.cxx:180-183 | both tokens empty, location group unchanged; afterwards auth "A", status "Anonymous", no entitlement request |
| `Service.LoginCookieTwice` | Source/F1TVService.cxx:41-44 | the same login cookie delivered twice stores the token and announces it at most once |
| `Service.EntitlementReplyTwice` | Source/F1TVService.cxx:70-73 | the same entitlement reply handled twice stores the token and announces it at most once |

## Left out

- Network transport: `QNetworkAccessManager`, the asynchronous completion of `QNetworkReply`, and
  `deleteLater`. A reply is a value `{ok, body}` handed to the matching handler method.
- `qDebug` logging of a failed PAGE reply: it has no effect on state or signals.
- Reachability monitoring set up in the constructor (Source/F1TVService.cxx:19-28), including its
  first `updateLocation` call. `onNetReachChanged` is modelled; the first call is equivalent to
  calling `UpdateLocation` after construction.
- The web engine cookie store, percent-decoding of the cookie, and the JSON extraction of
  `subscriptionToken` (Source/F1TVService.cxx:30-39). `OnCookieAdded` takes the cookie name and
  the extracted token.
- Base64 decoding and JSON parsing. The token payload goes through the `Decoder` given to the
  constructor, and a reply body arrives already parsed.
- JSON numbers that are not whole, and the precision limit of Qt storing numbers as doubles: the
  model's JSON numbers are integers.
- The empty stubs `querySessionChannels`, `queryTokenisedUrl`, `searchSeasonEvents`,
  `searchSeasonEpisodes`, `searchEventVideos` and `searchGenreVideos`: they do nothing.
- Rejection of stale replies: the code applies every reply it receives, whatever was stored since
  the request left.
- Service.F1TV.OnPageReply: removes each listener at once. The code defers the deletion with
  `deleteLater`, so a second page-395 reply handled before the event loop runs again could reach
  the same listener once more.
- The signal and slot names of Include/eXF1TV/F1TV.hxx that do not match the implementation
  (`ascendonTokenChanged`, `queryLiveContents`, `queryContentStreams`): Qt glue with no behaviour.
- URL parsing and percent-encoding. A request's path is the string that is appended to the static
  base URL `Requests.BaseUrl` before `QUrl` parses it. A claim holding '?', '#' or '%' would be read
  by `QUrl` as the start of a query, a fragment or an escape, so the path the server sees can
  differ from that string. The percent-encoding of the `homeCountry` query value and the UTF-8
  encoding of header values are not modelled either.
- Service.F1TV.OnCookieAdded: emitting `ascendonTokenUpdated` runs the connected slots
  `updateLocation` and `updateEntitlement` at once, inside the cookie handler
  (Source/F1TVService.cxx:42, 47-48). The model runs them as a separate call,
  `OnAscendonTokenUpdated`. For a changed token without a '.', the undefined `split(".").at(1)`
  is therefore reached inside the cookie handler in the code, but only in the later call in the
  model.
