/**
 * The backend-provider side of the adapter (src/daily.ts): the room-creation
 * request, the domain-ID lookup, and the self-signed meeting token whose
 * claims are filled in from a caller's payload and legacy token options.
 *
 * HTTP exchanges are not performed here: the response the backend gives is a
 * parameter, and the request the code would send is returned. The clock is the
 * parameter `now` (whole seconds). Signing is symbolic: a token carries the
 * claim set and the secret it was signed with.
 */
module Daily {
  import opened Wrappers

  // ---------------------------------------------------------------------------
  // Constants

  const DailyAPIDomain: string := "daily.co"
  /** Root of the backend's REST API. */
  const DailyAPIURL: string := "https://api." + DailyAPIDomain + "/v1"
  /** Lifetime of a token whose expiry nobody chose: one hour. */
  const DefaultTokenLifetime: int := 3600
  /** Longest `data` string a token may echo, in characters. */
  const MaxTokenDataLength: nat := 1024
  /** Participant threshold sent when a server-forwarded topology is forced. */
  const SfuSwitchover: real := 0.5
  /** Largest magnitude (milliseconds) a JavaScript Date can hold; beyond it the time value is NaN. */
  const MaxTimeValue: int := 8_640_000_000_000_000

  // ---------------------------------------------------------------------------
  // Errors, each named after the message the code throws

  datatype DailyError =
    /** "failed to create room" (bad status or empty body), or
        "failed to create room: <cause>)" (the request itself failed) */
    | RoomCreationFailed(transportCause: Option<string>)
    /** "failed to get domain ID: <cause>)"; every failure of the lookup is wrapped */
    | DomainIDFailed(cause: string)
    /** the TypeError `new URL(...)` throws for a room URL it cannot parse */
    | InvalidRoomURL
    /** "OpenTok options or Daily payload must contain domain ID" */
    | MissingDomainID
    /** "invalid expire time provided. Expiry must be a UNIX time stamp: <shown>";
        the number shown is the DEFAULT expiry, not the rejected value */
    | InvalidExpireTime(shown: int)
    /** "Token data must have a maximum length 1024" */
    | DataTooLong

  // ---------------------------------------------------------------------------
  // HTTP boundary

  datatype Verb = Get | Post

  /** `properties` of the room-creation request body. */
  datatype RoomProperties = RoomProperties(start_audio_off: bool, start_video_off: bool, sfu_switchover: Option<real>)

  datatype RoomCreationBody = RoomCreationBody(properties: RoomProperties)

  datatype Request = Request(verb: Verb, url: string, headers: seq<(string, string)>, body: Option<RoomCreationBody>)

  /** What an HTTP call yields: a transport error, or a status and a body (None when the body is falsy). */
  datatype HttpResponse<T> = TransportFailure(cause: string) | Received(status: int, body: Option<T>)

  /** The fields of the backend's room-creation response that the adapter uses. */
  datatype RoomData = RoomData(id: string, name: string, url: string)

  /** The field of the backend's account-info response that the adapter uses. */
  datatype AccountInfo = AccountInfo(domain_id: string)

  function AuthHeaders(apiKey: string): seq<(string, string)>
  {
    [("Authorization", "Bearer " + apiKey), ("Content-Type", "application/json")]
  }

  /** createRoom: builds the request body (adding the SFU switchover only when
      it is forced), POSTs it, and keeps the room data of a 200 response. */
  method CreateRoom(apiKey: string, forceSFU: bool, response: HttpResponse<RoomData>)
    returns (request: Request, room: Result<RoomData, DailyError>)
    ensures request.verb == Post && request.url == DailyAPIURL + "/rooms/"
    ensures request.headers == AuthHeaders(apiKey)
    ensures request.body.Some?
    ensures !request.body.value.properties.start_audio_off
    ensures !request.body.value.properties.start_video_off
    ensures request.body.value.properties.sfu_switchover.Some? <==> forceSFU
    ensures forceSFU ==> request.body.value.properties.sfu_switchover == Some(SfuSwitchover)
    ensures room.Success? <==> response.Received? && response.status == 200 && response.body.Some?
    ensures room.Success? ==> room.value == response.body.value
    ensures response.TransportFailure? ==> room == Failure(RoomCreationFailed(Some(response.cause)))
    ensures response.Received? && room.Failure? ==> room == Failure(RoomCreationFailed(None))
  {
    var properties := RoomProperties(false, false, None);
    if forceSFU {
      properties := properties.(sfu_switchover := Some(SfuSwitchover));
    }
    request := Request(Post, DailyAPIURL + "/rooms/", AuthHeaders(apiKey), Some(RoomCreationBody(properties)));
    match response {
      case TransportFailure(cause) =>
        room := Failure(RoomCreationFailed(Some(cause)));
      case Received(status, body) =>
        if status != 200 || body.None? {
          room := Failure(RoomCreationFailed(None));
        } else {
          room := Success(body.value);
        }
    }
  }

  /** The GET getDomainID sends to the account root. */
  function DomainIDRequest(apiKey: string): Request
  {
    Request(Get, DailyAPIURL, AuthHeaders(apiKey), None)
  }

  /** getDomainID: the domain ID of a 200 response with a body. The status check
      throws inside the promise chain whose catch then wraps it, so every
      failure, transport or not, comes out as DomainIDFailed. */
  function GetDomainID(response: HttpResponse<AccountInfo>): (r: Result<string, DailyError>)
    ensures r.Success? <==> response.Received? && response.status == 200 && response.body.Some?
    ensures r.Success? ==> r.value == response.body.value.domain_id
    ensures r.Failure? ==> r.error.DomainIDFailed?
    ensures response.TransportFailure? ==> r == Failure(DomainIDFailed(response.cause))
  {
    match response
    case TransportFailure(cause) => Failure(DomainIDFailed(cause))
    case Received(status, body) =>
      if status != 200 || body.None? then Failure(DomainIDFailed("Error: failed to get domain ID"))
      else Success(body.value.domain_id)
  }

  // ---------------------------------------------------------------------------
  // Room name

  /** JavaScript `s.replace(target, "")` with a one-character string pattern:
      only the FIRST occurrence is removed. */
  function ReplaceFirst(s: string, target: char): (r: string)
    ensures target !in s ==> r == s
    ensures target in s ==> |r| == |s| - 1
    ensures |s| > 0 && s[0] == target ==> r == s[1..]
  {
    if s == [] then []
    else if s[0] == target then s[1..]
    else [s[0]] + ReplaceFirst(s[1..], target)
  }

  /** Every character of `s` but the first `target` stays, in order. */
  lemma {:induction false} ReplaceFirstAt(s: string, target: char, k: nat)
    requires target in s && k < |s| - 1
    ensures |ReplaceFirst(s, target)| == |s| - 1
    ensures ReplaceFirst(s, target)[k] == if target in s[..k + 1] then s[k + 1] else s[k]
  {
    if s[0] != target {
      if k > 0 {
        ReplaceFirstAt(s[1..], target, k - 1);
        assert s[..k + 1] == [s[0]] + s[1..][..k];
      }
    }
  }

  /** getRoomName: the URL's pathname with its first "/" removed. */
  function RoomName(pathname: string): (name: string)
    ensures |pathname| > 0 && pathname[0] == '/' ==> name == pathname[1..]
    ensures '/' !in pathname ==> name == pathname
    ensures '/' in pathname ==> |name| == |pathname| - 1
  {
    ReplaceFirst(pathname, '/')
  }

  /** What `new URL(roomURL)` yields: a TypeError, or the parsed pathname. */
  datatype RoomURL = Malformed | Parsed(pathname: string)

  // ---------------------------------------------------------------------------
  // Token options and claims

  datatype Role = Subscriber | Publisher | Moderator

  /** `TokenOptions & Domain`: every field may be left out by a JavaScript caller. */
  datatype MeetingOptions = MeetingOptions(
    role: Option<Role>,
    data: Option<string>,
    expireTime: Option<int>,
    initialLayoutClassList: Option<seq<string>>,
    domainID: Option<string>)

  /** A token claim set; an absent claim is left out of the serialised payload. */
  datatype Claims = Claims(
    r: Option<string>,
    d: Option<string>,
    exp: Option<int>,
    o: Option<bool>,
    iat: Option<int>,
    otcd: Option<string>,
    ud: Option<string>,
    u: Option<string>)

  /** The empty payload `{}` used when the caller supplies none. */
  const NoClaims: Claims := Claims(None, None, None, None, None, None, None, None)

  // JavaScript truthiness of the optional fields (NaN is not modelled)
  predicate StrTruthy(v: Option<string>) { v.Some? && v.value != "" }
  predicate NumTruthy(v: Option<int>) { v.Some? && v.value != 0 }
  predicate BoolTruthy(v: Option<bool>) { v == Some(true) }

  function ExpireTimeOf(opts: Option<MeetingOptions>): Option<int>
  {
    if opts.Some? then opts.value.expireTime else None
  }

  predicate IsModerator(opts: Option<MeetingOptions>)
  {
    opts.Some? && opts.value.role == Some(Moderator)
  }

  /** `new Date(v).getTime()`: `v` itself, or NaN (None) outside the Date range. */
  function DateTime(v: int): Option<int>
  {
    if -MaxTimeValue <= v <= MaxTimeValue then Some(v) else None
  }

  /** `new Date(v).getTime() <= 0`; a NaN time value compares false. */
  predicate ExpireTimeRejected(v: int)
  {
    var t := DateTime(v);
    t.Some? && t.value <= 0
  }

  // The conditions under which getMeetingToken throws, in the order it checks them

  predicate RoomURLUnusable(c: Claims, url: RoomURL)
  {
    !StrTruthy(c.r) && url.Malformed?
  }

  predicate DomainMissing(c: Claims, opts: Option<MeetingOptions>)
  {
    !StrTruthy(c.d) && !(opts.Some? && StrTruthy(opts.value.domainID))
  }

  predicate ExpireTimeInvalid(c: Claims, opts: Option<MeetingOptions>)
  {
    var requested := ExpireTimeOf(opts);
    !NumTruthy(c.exp) && NumTruthy(requested) && ExpireTimeRejected(requested.value)
  }

  predicate DataOversized(opts: Option<MeetingOptions>)
  {
    opts.Some? && StrTruthy(opts.value.data) && |opts.value.data.value| > MaxTokenDataLength
  }

  // The steps of getMeetingToken, each on the claims the previous one left

  function FillRoomName(c: Claims, url: RoomURL): Result<Claims, DailyError>
  {
    if StrTruthy(c.r) then Success(c)
    else match url
      case Malformed => Failure(InvalidRoomURL)
      case Parsed(pathname) => Success(c.(r := Some(RoomName(pathname))))
  }

  function FillDomain(c: Claims, opts: Option<MeetingOptions>): Result<Claims, DailyError>
  {
    if StrTruthy(c.d) then Success(c)
    else if opts.None? || !StrTruthy(opts.value.domainID) then Failure(MissingDomainID)
    else Success(c.(d := opts.value.domainID))
  }

  function FillExpiry(c: Claims, opts: Option<MeetingOptions>, now: int): Result<Claims, DailyError>
  {
    if NumTruthy(c.exp) then Success(c)
    else
      var defaultExp := now + DefaultTokenLifetime;
      var requested := ExpireTimeOf(opts);
      if !NumTruthy(requested) then Success(c.(exp := Some(defaultExp)))
      else if ExpireTimeRejected(requested.value) then Failure(InvalidExpireTime(defaultExp))
      else Success(c.(exp := requested))
  }

  function FillOwnerAndIssuedAt(c: Claims, now: int): Claims
  {
    var c' := if BoolTruthy(c.o) then c else c.(o := Some(false));
    if NumTruthy(c'.iat) then c' else c'.(iat := Some(now))
  }

  function ApplyOptions(c: Claims, opts: Option<MeetingOptions>): Result<Claims, DailyError>
  {
    match opts
    case None => Success(c)
    case Some(options) =>
      if StrTruthy(options.data) && |options.data.value| > MaxTokenDataLength then Failure(DataTooLong)
      else
        var c' := if StrTruthy(options.data) then c.(otcd := options.data) else c;
        Success(if options.role == Some(Moderator) then c'.(o := Some(true)) else c')
  }

  /** The claims a getMeetingToken call leaves in its payload object, and the
      error it throws, if any. A failing call keeps what the earlier steps wrote. */
  datatype Minted = Minted(claims: Claims, error: Option<DailyError>)

  /** getMeetingToken's claim filling, starting from payload claims `c`. */
  function Mint(url: RoomURL, opts: Option<MeetingOptions>, c: Claims, now: int): Minted
  {
    match FillRoomName(c, url)
    case Failure(e) => Minted(c, Some(e))
    case Success(c1) =>
      match FillDomain(c1, opts)
      case Failure(e) => Minted(c1, Some(e))
      case Success(c2) =>
        match FillExpiry(c2, opts, now)
        case Failure(e) => Minted(c2, Some(e))
        case Success(c3) =>
          var c4 := FillOwnerAndIssuedAt(c3, now);
          match ApplyOptions(c4, opts)
          case Failure(e) => Minted(c4, Some(e))
          case Success(c5) => Minted(c5, None)
  }

  // ---------------------------------------------------------------------------
  // Signing

  /** A signed token: the claim set and the secret (the API key) that signed it. */
  datatype Token = SignedToken(payload: Claims, secret: string)

  function Sign(c: Claims, apiKey: string): Token
  {
    SignedToken(c, apiKey)
  }

  /** Decoding without verifying the signature, as a client does. */
  function Decode(t: Token): Claims
  {
    t.payload
  }

  /** The value getMeetingToken returns or throws once its claims are filled. */
  function TokenOutcome(m: Minted, apiKey: string): Result<Token, DailyError>
  {
    if m.error.None? then Success(Sign(m.claims, apiKey)) else Failure(m.error.value)
  }

  // ---------------------------------------------------------------------------
  // The payload object

  /** A `DailyTokenPayload` object, which getMeetingToken fills in place. */
  class TokenPayload {
    var r: Option<string>
    var d: Option<string>
    var exp: Option<int>
    var o: Option<bool>
    var iat: Option<int>
    var otcd: Option<string>
    var ud: Option<string>
    var u: Option<string>

    function Value(): Claims
      reads this
    {
      Claims(r, d, exp, o, iat, otcd, ud, u)
    }

    /** `<DailyTokenPayload>{}` */
    constructor Empty()
      ensures Value() == NoClaims
    {
      r, d, exp, o, iat := None, None, None, None, None;
      otcd, ud, u := None, None, None;
    }

    /** A payload a caller has built. */
    constructor Of(c: Claims)
      ensures Value() == c
    {
      r, d, exp, o, iat := c.r, c.d, c.exp, c.o, c.iat;
      otcd, ud, u := c.otcd, c.ud, c.u;
    }
  }

  /** Step helpers of getMeetingToken, one per block of the source; each
      either writes its claims into the payload or reports the error the block
      throws, leaving the payload as it was. */
  method FillRoomNameIn(payload: TokenPayload, roomURL: RoomURL) returns (err: Option<DailyError>)
    modifies payload
    ensures FillRoomName(old(payload.Value()), roomURL) ==
            if err.None? then Success(payload.Value()) else Failure(err.value)
    ensures err.Some? ==> payload.Value() == old(payload.Value())
  {
    err := None;
    if !StrTruthy(payload.r) {
      if roomURL.Malformed? {
        return Some(InvalidRoomURL);
      }
      payload.r := Some(RoomName(roomURL.pathname));
    }
  }

  method FillDomainIn(payload: TokenPayload, opts: Option<MeetingOptions>) returns (err: Option<DailyError>)
    modifies payload
    ensures FillDomain(old(payload.Value()), opts) ==
            if err.None? then Success(payload.Value()) else Failure(err.value)
    ensures err.Some? ==> payload.Value() == old(payload.Value())
  {
    err := None;
    if !StrTruthy(payload.d) {
      if opts.None? || !StrTruthy(opts.value.domainID) {
        return Some(MissingDomainID);
      }
      payload.d := opts.value.domainID;
    }
  }

  method FillExpiryIn(payload: TokenPayload, opts: Option<MeetingOptions>, now: int) returns (err: Option<DailyError>)
    modifies payload
    ensures FillExpiry(old(payload.Value()), opts, now) ==
            if err.None? then Success(payload.Value()) else Failure(err.value)
    ensures err.Some? ==> payload.Value() == old(payload.Value())
  {
    err := None;
    if !NumTruthy(payload.exp) {
      var defaultExp := now + DefaultTokenLifetime;
      var exp := defaultExp;
      var otOptsExp := ExpireTimeOf(opts);
      if NumTruthy(otOptsExp) {
        if ExpireTimeRejected(otOptsExp.value) {
          return Some(InvalidExpireTime(exp));
        }
        exp := otOptsExp.value;
      }
      payload.exp := Some(exp);
    }
  }

  method FillOwnerAndIssuedAtIn(payload: TokenPayload, now: int)
    modifies payload
    ensures payload.Value() == FillOwnerAndIssuedAt(old(payload.Value()), now)
  {
    if !BoolTruthy(payload.o) {
      payload.o := Some(false);
    }
    if !NumTruthy(payload.iat) {
      payload.iat := Some(now);
    }
  }

  method ApplyOptionsIn(payload: TokenPayload, opts: Option<MeetingOptions>) returns (err: Option<DailyError>)
    modifies payload
    ensures ApplyOptions(old(payload.Value()), opts) ==
            if err.None? then Success(payload.Value()) else Failure(err.value)
    ensures err.Some? ==> payload.Value() == old(payload.Value())
  {
    err := None;
    if opts.Some? {
      var data, role := opts.value.data, opts.value.role;
      if StrTruthy(data) {
        if |data.value| > MaxTokenDataLength {
          return Some(DataTooLong);
        }
        payload.otcd := data;
      }
      // a legacy "moderator" is a room owner
      if role == Some(Moderator) {
        payload.o := Some(true);
      }
    }
  }

  /** getMeetingToken: fills the caller's payload (or a fresh one) claim by
      claim, then signs it with the API key. A truthy `r`, `d`, `exp`, `iat`
      or `o` the payload already sets is kept; `otcd` and a falsy `o` give way
      to the options. The caller's object keeps every write made before a
      failure. */
  method GetMeetingToken(apiKey: string, roomURL: RoomURL, opts: Option<MeetingOptions>,
                         dailyPayload: TokenPayload?, now: int)
    returns (token: Result<Token, DailyError>)
    modifies dailyPayload
    ensures var m := Mint(roomURL, opts, if dailyPayload == null then NoClaims else old(dailyPayload.Value()), now);
            token == TokenOutcome(m, apiKey) &&
            (dailyPayload != null ==> dailyPayload.Value() == m.claims)
  {
    var payload: TokenPayload;
    if dailyPayload != null {
      payload := dailyPayload;
    } else {
      payload := new TokenPayload.Empty();
    }

    var err := FillRoomNameIn(payload, roomURL);
    if err.Some? {
      return Failure(err.value);
    }
    err := FillDomainIn(payload, opts);
    if err.Some? {
      return Failure(err.value);
    }
    err := FillExpiryIn(payload, opts, now);
    if err.Some? {
      return Failure(err.value);
    }
    FillOwnerAndIssuedAtIn(payload, now);
    // the legacy options with their backend equivalents
    err := ApplyOptionsIn(payload, opts);
    if err.Some? {
      return Failure(err.value);
    }
    token := Success(Sign(payload.Value(), apiKey));
  }
}
