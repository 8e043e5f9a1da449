/**
 * The F1TV service object: the session state it keeps (the ascendon
 * token, the entitlement token and the location group id), the handlers
 * that update it when a cookie or a reply arrives, the requests it issues,
 * and the one-shot live-session listeners. Emitted Qt signals are recorded,
 * in order, in `signals`.
 */
module Service {
  import opened Wrappers
  import opened Json
  import opened Session
  import opened Requests
  import opened LiveFilter

  /** The cookie that carries the ascendon token. */
  const LoginSessionCookie: string := "login-session"

  /** `QNetworkInformation::Reachability`. */
  datatype Reachability = Unknown | Disconnected | Local | Site | Online

  /** A finished reply: whether `error()` was `NoError`, and the parsed document. */
  datatype Reply = Reply(ok: bool, body: Json)

  datatype Signal =
    | AscendonTokenUpdated
    | EntitlementTokenUpdated
    | LocationGroupIdChanged(groupId: Int32)
    | PageQueried(page: Int32, data: map<string, Json>)
    | LiveSessionsAvailable(sessions: seq<Json>)

  /** What `listeners` pending live-session listeners emit when page 395 with `data` arrives. */
  function ListenerSignals(data: map<string, Json>, listeners: nat): (r: seq<Signal>)
    ensures |r| == if LiveSessions(data) == [] then 0 else listeners
    ensures forall k :: 0 <= k < |r| ==> r[k] == LiveSessionsAvailable(LiveSessions(data))
  {
    if listeners == 0 then []
    else ListenerSignals(data, listeners - 1) +
         (if LiveSessions(data) != [] then [LiveSessionsAvailable(LiveSessions(data))] else [])
  }

  class F1TV {
    var ascendonToken: string
    var entitlementToken: string
    var locationGroupId: Int32
    /** Listeners installed by QueryLiveSessions that have not yet seen page 395. */
    var liveListeners: nat
    /** Every signal emitted so far, oldest first. */
    var signals: seq<Signal>
    const language: string
    const platform: string
    /** Base64 and JSON decoding of a token segment. */
    const decode: Decoder

    /** Nothing ever writes the location group id after construction. */
    ghost predicate Valid()
      reads this
    {
      locationGroupId == 0 && language == "ENG" && platform == "WEB_HLS"
    }

    constructor (decode: Decoder)
      ensures Valid()
      ensures ascendonToken == "" && entitlementToken == ""
      ensures liveListeners == 0 && signals == []
      ensures this.decode == decode
    {
      ascendonToken, entitlementToken := "", "";
      locationGroupId := 0;
      language, platform := "ENG", "WEB_HLS";
      liveListeners, signals := 0, [];
      this.decode := decode;
    }

    /**
     * The cookie store's `cookieAdded` handler, given the name of the cookie
     * and the token extracted from it. Only `login-session` counts, and the
     * token is assigned and announced only when it differs.
     */
    method OnCookieAdded(name: string, token: string)
      requires Valid()
      modifies this`ascendonToken, this`signals
      ensures Valid()
      ensures name != LoginSessionCookie ==>
        ascendonToken == old(ascendonToken) && signals == old(signals)
      ensures name == LoginSessionCookie ==> ascendonToken == token
      ensures name == LoginSessionCookie ==>
        signals == old(signals) + if old(ascendonToken) != token then [AscendonTokenUpdated] else []
    {
      if name == LoginSessionCookie {
        if ascendonToken != token {
          ascendonToken := token;
          signals := signals + [AscendonTokenUpdated];
        }
      }
    }

    /**
     * The two slots connected to `ascendonTokenUpdated`, in connection
     * order: a location refresh, then an entitlement refresh.
     */
    method OnAscendonTokenUpdated() returns (location: Request, entitlement: Option<Request>)
      requires Valid() && TokenReadable(ascendonToken)
      ensures location == LocationRequest(ascendonToken, decode, language, platform)
      ensures entitlement == EntitlementRequest(ascendonToken, decode, language, platform)
    {
      location := UpdateLocation();
      entitlement := UpdateEntitlement();
    }

    /** `updateEntitlement`: the request it sends, None when the gate is closed. */
    method UpdateEntitlement() returns (request: Option<Request>)
      requires TokenReadable(ascendonToken)
      ensures request == EntitlementRequest(ascendonToken, decode, language, platform)
      ensures request.Some? <==> AuthStatus(ascendonToken) == "R" &&
                                 SubStatus(ascendonToken, decode).value != "Registered"
    {
      request := EntitlementRequest(ascendonToken, decode, language, platform);
    }

    /** The ENTITLEMENT reply handler: change-only update of the entitlement token. */
    method OnEntitlementReply(reply: Reply)
      requires Valid()
      modifies this`entitlementToken, this`signals
      ensures Valid()
      ensures !reply.ok ==> entitlementToken == old(entitlementToken) && signals == old(signals)
      ensures reply.ok ==> entitlementToken == EntitlementTokenOf(reply.body)
      ensures reply.ok ==>
        signals == old(signals) +
          if old(entitlementToken) != EntitlementTokenOf(reply.body) then [EntitlementTokenUpdated] else []
    {
      if !reply.ok {
        return;
      }
      var token := EntitlementTokenOf(Object(ToObject(reply.body)));
      assert Object(ToObject(reply.body)) != reply.body ==> token == EntitlementTokenOf(reply.body) by {
        if !reply.body.Object? {
          LookupOutsideObject(reply.body, EntitlementTokenField);
        }
      }
      if entitlementToken != token {
        entitlementToken := token;
        signals := signals + [EntitlementTokenUpdated];
      }
    }

    /** `updateLocation`: the LOCATION request it sends. */
    method UpdateLocation() returns (request: Request)
      requires TokenReadable(ascendonToken)
      ensures request == LocationRequest(ascendonToken, decode, language, platform)
    {
      request := LocationRequest(ascendonToken, decode, language, platform);
    }

    /**
     * The LOCATION reply handler. It announces a group id that differs from
     * the stored one, but the signal carries the stored (old) id and the
     * stored id is never written.
     */
    method OnLocationReply(reply: Reply)
      requires Valid()
      modifies this`signals
      ensures Valid()
      ensures !reply.ok || GroupIdOf(reply.body).None? ==> signals == old(signals)
      ensures reply.ok && GroupIdOf(reply.body).Some? ==>
        signals == old(signals) +
          if GroupIdOf(reply.body).value != locationGroupId then [LocationGroupIdChanged(0)] else []
    {
      if !reply.ok {
        return;
      }
      var newLocationId := GroupIdOf(Object(ToObject(reply.body)));
      assert newLocationId == GroupIdOf(reply.body) by {
        if !reply.body.Object? {
          LookupOutsideObject(reply.body, UserLocationField);
        }
      }
      if newLocationId.Some? && newLocationId.value != locationGroupId {
        signals := signals + [LocationGroupIdChanged(locationGroupId)];
      }
    }

    /** `onNetReachChanged`: only going online refreshes the location. */
    method OnNetReachChanged(reachability: Reachability) returns (request: Option<Request>)
      requires TokenReadable(ascendonToken)
      ensures request.Some? <==> reachability == Online
      ensures request.Some? ==> request.value == LocationRequest(ascendonToken, decode, language, platform)
    {
      if reachability == Online {
        var location := UpdateLocation();
        request := Some(location);
      } else {
        request := None;
      }
    }

    /** `queryPage`: the PAGE request it sends. */
    method QueryPage(page: Int32) returns (request: Request)
      requires TokenReadable(ascendonToken)
      ensures request == PageRequest(ascendonToken, decode, language, platform, page, locationGroupId)
    {
      request := PageRequest(ascendonToken, decode, language, platform, page, locationGroupId);
    }

    /**
     * The PAGE reply handler: emits `pageQueried`, which runs every pending
     * live-session listener. On page 395 each of them emits the live
     * sessions, if there are any, and then goes away.
     */
    method OnPageReply(page: Int32, reply: Reply)
      requires Valid()
      modifies this`signals, this`liveListeners
      ensures Valid()
      ensures !reply.ok ==> signals == old(signals) && liveListeners == old(liveListeners)
      ensures reply.ok && page != LiveSessionsPage ==>
        signals == old(signals) + [PageQueried(page, ToObject(reply.body))] &&
        liveListeners == old(liveListeners)
      ensures reply.ok && page == LiveSessionsPage ==>
        signals == old(signals) + [PageQueried(page, ToObject(reply.body))] +
                   ListenerSignals(ToObject(reply.body), old(liveListeners)) &&
        liveListeners == 0
    {
      if !reply.ok {
        return;
      }
      var data := ToObject(reply.body);
      signals := signals + [PageQueried(page, data)];
      if page == LiveSessionsPage {
        var emitted := signals;
        for k := 0 to liveListeners
          invariant signals == emitted + ListenerSignals(data, k)
        {
          var sessions := CollectLiveSessions(data);
          if sessions != [] {
            signals := signals + [LiveSessionsAvailable(sessions)];
          }
        }
        liveListeners := 0;
      }
    }

    /** `queryLiveSessions`: installs one more listener and asks for page 395. */
    method QueryLiveSessions() returns (request: Request)
      requires Valid() && TokenReadable(ascendonToken)
      modifies this`liveListeners
      ensures Valid()
      ensures liveListeners == old(liveListeners) + 1
      ensures request == PageRequest(ascendonToken, decode, language, platform, LiveSessionsPage, locationGroupId)
    {
      liveListeners := liveListeners + 1;
      request := QueryPage(LiveSessionsPage);
    }

    /** `revoke`: forgets both tokens, so the session is anonymous again. */
    method Revoke()
      requires Valid()
      modifies this`ascendonToken, this`entitlementToken
      ensures Valid()
      ensures ascendonToken == "" && entitlementToken == ""
      ensures AuthStatus(ascendonToken) == "A"
      ensures SubStatus(ascendonToken, decode) == Some("Anonymous")
      ensures EntitlementRequest(ascendonToken, decode, language, platform).None?
    {
      ascendonToken := "";
      entitlementToken := "";
    }
  }

  /** Delivering the same login cookie twice announces the token at most once. */
  method LoginCookieTwice(service: F1TV, token: string)
    requires service.Valid()
    modifies service`ascendonToken, service`signals
    ensures service.Valid() && service.ascendonToken == token
    ensures service.signals ==
      old(service.signals) + if old(service.ascendonToken) != token then [AscendonTokenUpdated] else []
  {
    service.OnCookieAdded(LoginSessionCookie, token);
    service.OnCookieAdded(LoginSessionCookie, token);
  }

  /** The same entitlement reply handled twice announces the token at most once. */
  method EntitlementReplyTwice(service: F1TV, reply: Reply)
    requires service.Valid() && reply.ok
    modifies service`entitlementToken, service`signals
    ensures service.Valid() && service.entitlementToken == EntitlementTokenOf(reply.body)
    ensures service.signals ==
      old(service.signals) +
        if old(service.entitlementToken) != EntitlementTokenOf(reply.body) then [EntitlementTokenUpdated] else []
  {
    service.OnEntitlementReply(reply);
    service.OnEntitlementReply(reply);
  }
}
