/**
 * The requests the service sends and the reply fields it reads: LOCATION,
 * ENTITLEMENT and PAGE. A request is the path string appended to the fixed
 * base URL before `QUrl` parses it, its query items and its raw headers;
 * each is built from the session state alone.
 */
module Requests {
  import opened Wrappers
  import opened Json
  import opened Text
  import opened Session

  /** The static `m_baseUrl` every path is appended to. */
  const BaseUrl: string := "https://f1tv.formula1.com"

  /** A named value: a raw header or a query item. */
  datatype Entry = Entry(name: string, value: string)
  type Header = Entry
  type QueryItem = Entry

  datatype Request = Request(path: string, query: seq<QueryItem>, headers: seq<Header>)
  {
    /** The names of all raw headers. */
    function HeaderNames(): set<string>
    {
      Names(headers)
    }

    /** The value of the first header called `name`. */
    function HeaderValue(name: string): Option<string>
    {
      FirstValue(headers, name)
    }

    /** The value of the first query item called `key`. */
    function QueryValue(key: string): Option<string>
    {
      FirstValue(query, key)
    }
  }

  function Names(entries: seq<Entry>): set<string>
  {
    if entries == [] then {} else {entries[0].name} + Names(entries[1..])
  }

  /** The value of the first entry called `name`, if there is one. */
  function FirstValue(entries: seq<Entry>, name: string): (v: Option<string>)
    ensures v.Some? <==> exists k :: 0 <= k < |entries| && entries[k].name == name
  {
    if entries == [] then None
    else if entries[0].name == name then Some(entries[0].value)
    else FirstValue(entries[1..], name)
  }

  const AscendonHeader: string := "ascendontoken"
  const HomeCountryItem: string := "homeCountry"

  /** A path below the base URL: every segment preceded by '/'. */
  function ApiPath(segments: seq<string>): string
    requires |segments| >= 1
  {
    "/" + Join(segments, '/')
  }

  function LocationPath(auth: string, language: string, platform: string): string
  {
    ApiPath(["1.0", auth, language, platform, "ALL", "USER", "LOCATION"])
  }

  function EntitlementPath(auth: string, language: string, platform: string): string
  {
    ApiPath(["2.0", auth, language, platform, "ALL", "USER", "ENTITLEMENT"])
  }

  function PagePath(
    auth: string, language: string, platform: string,
    page: Int32, subStatus: string, locationGroupId: Int32): string
  {
    ApiPath(["2.0", auth, language, platform, "ALL", "PAGE",
             IntToString(page), subStatus, IntToString(locationGroupId)])
  }

  /** Splitting a path at '/' gives back its segments, after the empty run before the first '/'. */
  lemma {:induction false} ApiPathSegments(segments: seq<string>)
    requires |segments| >= 1
    requires forall k :: 0 <= k < |segments| ==> '/' !in segments[k]
    ensures Split(ApiPath(segments), '/') == [""] + segments
  {
    var all := [""] + segments;
    assert all[1..] == segments;
    assert Join(all, '/') == ApiPath(segments);
    SplitJoin(all, '/');
  }

  /** The LOCATION request: the home country and the token are sent only when registered. */
  function LocationRequest(token: string, decode: Decoder, language: string, platform: string): (r: Request)
    requires TokenReadable(token)
    ensures r.path == LocationPath(AuthStatus(token), language, platform)
    ensures r.HeaderNames() == if AuthStatus(token) == "R" then {AscendonHeader} else {}
    ensures r.HeaderValue(AscendonHeader) == if AuthStatus(token) == "R" then Some(token) else None
    ensures r.QueryValue(HomeCountryItem).Some? <==> AuthStatus(token) == "R"
    ensures r.QueryValue(HomeCountryItem).Some? ==> r.QueryValue(HomeCountryItem) == HomeCountry(token, decode)
    ensures |r.query| == |r.headers| <= 1
  {
    var auth := AuthStatus(token);
    var query := if auth == "R" then [Entry(HomeCountryItem, HomeCountry(token, decode).value)] else [];
    var headers := if auth == "R" then [Entry(AscendonHeader, token)] else [];
    assert auth == "R" ==> headers[1..] == [] && Names(headers) == {AscendonHeader};
    var r := Request(LocationPath(auth, language, platform), query, headers);
    r
  }

  /**
   * The ENTITLEMENT request, built only when the gate is open; it always
   * carries the token and reaches the registered ("R") endpoint.
   */
  function EntitlementRequest(token: string, decode: Decoder, language: string, platform: string): (r: Option<Request>)
    requires TokenReadable(token)
    ensures r.Some? <==> EntitlementGate(token, decode)
    ensures r.Some? ==>
      r.value.path == EntitlementPath("R", language, platform) &&
      r.value.query == [] &&
      r.value.HeaderNames() == {AscendonHeader} &&
      r.value.HeaderValue(AscendonHeader) == Some(token)
  {
    if AuthStatus(token) == "R" && SubStatus(token, decode).value != "Registered" then
      var r := Request(EntitlementPath(AuthStatus(token), language, platform), [], [Entry(AscendonHeader, token)]);
      assert r.headers[1..] == [] && Names(r.headers) == {AscendonHeader};
      Some(r)
    else None
  }

  /** The PAGE request for `page`: no query and no headers at all. */
  function PageRequest(
    token: string, decode: Decoder, language: string, platform: string,
    page: Int32, locationGroupId: Int32): (r: Request)
    requires TokenReadable(token)
    ensures r.path == PagePath(AuthStatus(token), language, platform, page,
                               SubStatus(token, decode).value, locationGroupId)
    ensures r.query == [] && r.headers == [] && r.HeaderNames() == {}
  {
    Request(PagePath(AuthStatus(token), language, platform, page,
                     SubStatus(token, decode).value, locationGroupId), [], [])
  }

  /**
   * A page path splits back into its segments: the API version, the
   * authorisation level, the language and platform, and the page number,
   * subscription status and location group exactly as they went in.
   */
  lemma PagePathReadBack(
    auth: string, language: string, platform: string,
    page: Int32, subStatus: string, locationGroupId: Int32)
    requires '/' !in auth && '/' !in language && '/' !in platform && '/' !in subStatus
    ensures Split(PagePath(auth, language, platform, page, subStatus, locationGroupId), '/') ==
      [""] + ["2.0", auth, language, platform, "ALL", "PAGE",
              IntToString(page), subStatus, IntToString(locationGroupId)]
  {
    IntToStringCharacters(page, '/');
    IntToStringCharacters(locationGroupId, '/');
    ApiPathSegments(["2.0", auth, language, platform, "ALL", "PAGE",
                     IntToString(page), subStatus, IntToString(locationGroupId)]);
  }

  /** The page number and the location group read back from a page path unchanged. */
  lemma PageNumbersReadBack(
    auth: string, language: string, platform: string,
    page: Int32, subStatus: string, locationGroupId: Int32)
    requires '/' !in auth && '/' !in language && '/' !in platform && '/' !in subStatus
    ensures var parts := Split(PagePath(auth, language, platform, page, subStatus, locationGroupId), '/');
      |parts| == 10 && ParseInt(parts[7]) == page && ParseInt(parts[9]) == locationGroupId
  {
    var parts := Split(PagePath(auth, language, platform, page, subStatus, locationGroupId), '/');
    var segments := ["2.0", auth, language, platform, "ALL", "PAGE",
                     IntToString(page), subStatus, IntToString(locationGroupId)];
    assert parts == [""] + segments by {
      PagePathReadBack(auth, language, platform, page, subStatus, locationGroupId);
    }
    NumbersAt(parts, segments, page, locationGroupId);
  }

  /** Segments 7 and 9 of a split page path parse back as the numbers formatted into them. */
  lemma NumbersAt(parts: seq<string>, segments: seq<string>, page: int, locationGroupId: int)
    requires |segments| == 9 && parts == [""] + segments
    requires segments[6] == IntToString(page) && segments[8] == IntToString(locationGroupId)
    ensures |parts| == 10 && ParseInt(parts[7]) == page && ParseInt(parts[9]) == locationGroupId
  {
    assert parts[7] == segments[6] && parts[9] == segments[8];
    ParseIntToString(page);
    ParseIntToString(locationGroupId);
  }

  /** The LOCATION path's segments, read back. */
  lemma LocationPathReadBack(auth: string, language: string, platform: string)
    requires '/' !in auth && '/' !in language && '/' !in platform
    ensures Split(LocationPath(auth, language, platform), '/') ==
      [""] + ["1.0", auth, language, platform, "ALL", "USER", "LOCATION"]
  {
    ApiPathSegments(["1.0", auth, language, platform, "ALL", "USER", "LOCATION"]);
  }

  /** The ENTITLEMENT path's segments, read back. */
  lemma EntitlementPathReadBack(auth: string, language: string, platform: string)
    requires '/' !in auth && '/' !in language && '/' !in platform
    ensures Split(EntitlementPath(auth, language, platform), '/') ==
      [""] + ["2.0", auth, language, platform, "ALL", "USER", "ENTITLEMENT"]
  {
    ApiPathSegments(["2.0", auth, language, platform, "ALL", "USER", "ENTITLEMENT"]);
  }

  // Reply fields.

  const EntitlementTokenField: seq<string> := ["resultObj", "entitlementToken"]
  const UserLocationField: seq<string> := ["resultObj", "userLocation"]

  /** `resultObj.entitlementToken` of an ENTITLEMENT reply, or "" when it is not a string. */
  function EntitlementTokenOf(body: Json): (t: string)
    ensures Lookup(body, EntitlementTokenField).Str? ==> t == Lookup(body, EntitlementTokenField).s
    ensures !Lookup(body, EntitlementTokenField).Str? ==> t == ""
  {
    ToString(Lookup(body, EntitlementTokenField))
  }

  /**
   * `resultObj.userLocation[0].groupId` of a LOCATION reply. None for an
   * empty `userLocation`, where the source indexes past the end.
   */
  function GroupIdOf(body: Json): (g: Option<Int32>)
    ensures g.None? <==> ToArray(Lookup(body, UserLocationField)) == []
  {
    var locations := ToArray(Lookup(body, UserLocationField));
    if locations == [] then None else Some(ToInt(Field(ToObject(locations[0]), "groupId")))
  }

  /** A reply carrying `token` under `resultObj.entitlementToken` yields exactly `token`. */
  lemma EntitlementReplyRoundTrip(token: string)
    ensures EntitlementTokenOf(Nest(EntitlementTokenField, Str(token))) == token
  {
    LookupNest(EntitlementTokenField, Str(token));
  }

  /**
   * The group id read from a reply whose first user location has the fields
   * `location`: its `groupId` through `toInt`, so 0 when the field is
   * missing, not a number or outside the `int` range; later locations are
   * ignored.
   */
  lemma LocationReplyReadBack(location: map<string, Json>, others: seq<Json>)
    ensures GroupIdOf(Nest(UserLocationField, Array([Object(location)] + others))) ==
      Some(ToInt(Field(location, "groupId")))
    ensures "groupId" !in location ==>
      GroupIdOf(Nest(UserLocationField, Array([Object(location)] + others))) == Some(0)
  {
    LookupNest(UserLocationField, Array([Object(location)] + others));
  }

  /** A reply whose first user location carries `groupId` yields that id, whatever follows it. */
  lemma LocationReplyRoundTrip(groupId: Int32, others: seq<Json>)
    ensures GroupIdOf(Nest(UserLocationField, Array([Nest(["groupId"], Number(groupId))] + others))) ==
      Some(groupId)
  {
    var locations := Array([Nest(["groupId"], Number(groupId))] + others);
    LookupNest(UserLocationField, locations);
  }
}
