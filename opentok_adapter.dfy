/**
 * The legacy-API facade (src/index.ts): an adapter object that keeps the
 * caller's API key and a cached domain ID, turns backend rooms into legacy
 * sessions, and mints tokens with the cached domain ID. Every other legacy
 * operation throws "Method not implemented.".
 */
module OpenTokAdapter {
  import opened Wrappers
  import Daily

  datatype MediaMode = Routed | Relayed
  datatype ArchiveMode = Always | Manual

  /** The legacy session options; createSession accepts and ignores them. */
  datatype OTOptions = OTOptions(mediaMode: MediaMode, archiveMode: ArchiveMode)

  /** The legacy operations the adapter keeps only as stubs. */
  datatype LegacyOperation =
    | DeleteArchive | Dial | ForceDisconnect | GetArchive | GetBroadcast | GetStream
    | ListArchives | ListBroadcasts | ListStreams | AddArchiveStream | RemoveArchiveStream
    | AddBroadcastStream | RemoveBroadcastStream | PlayDTMF | SetArchiveLayout
    | SetBroadcastLayout | SetStreamClassLists | Signal | StartArchive | StartBroadcast
    | StopArchive | StopBroadcast

  datatype AdapterError =
    /** "Method not implemented." */
    | NotImplemented
    /** "Daily domain ID is missing. Did you call getDomainID() first?" */
    | DomainIDMissing
    /** "failed to create session: <cause>", passed to the createSession callback */
    | SessionCreationFailed(cause: Daily.DailyError)
    /** an error thrown by src/daily.ts, propagated unchanged */
    | Backend(error: Daily.DailyError)

  /** The legacy session handed to the createSession callback. */
  datatype Session = Session(sessionId: string, mediaMode: MediaMode, archiveMode: ArchiveMode, ot: OpenTokClass)

  /** `{...options, domainID}`: the caller's token options with the domain ID
      forced; a missing options object spreads to nothing. */
  function WithDomain(options: Option<Daily.MeetingOptions>, domainID: string): (opts: Daily.MeetingOptions)
    ensures opts.domainID == Some(domainID)
    ensures options.Some? ==>
              && opts.role == options.value.role
              && opts.data == options.value.data
              && opts.expireTime == options.value.expireTime
              && opts.initialLayoutClassList == options.value.initialLayoutClassList
    ensures options.None? ==>
              opts.role.None? && opts.data.None? && opts.expireTime.None? && opts.initialLayoutClassList.None?
  {
    match options
    case None => Daily.MeetingOptions(None, None, None, None, Some(domainID))
    case Some(given) => given.(domainID := Some(domainID))
  }

  function FromBackend<T>(r: Result<T, Daily.DailyError>): Result<T, AdapterError>
  {
    match r
    case Success(v) => Success(v)
    case Failure(e) => Failure(Backend(e))
  }

  class OpenTokClass {
    /** Read-only after construction. */
    const apiKey: string
    /** The cached domain ID; "" until getDomainID resolves. */
    var domainID: string

    /** The secret is accepted and dropped. */
    constructor (apiKey: string, apiSecret: string)
      ensures this.apiKey == apiKey && domainID == ""
    {
      this.apiKey := apiKey;
      domainID := "";
    }

    /** Every stubbed legacy operation throws and touches no state. */
    method Unsupported(op: LegacyOperation) returns (outcome: Result<(), AdapterError>)
      ensures outcome == Failure(NotImplemented)
    {
      outcome := Failure(NotImplemented);
    }

    /** getDomainID: looks the domain ID up with the stored API key and caches
        what it resolves to; a failed lookup leaves the cache as it was. */
    method GetDomainID(response: Daily.HttpResponse<Daily.AccountInfo>)
      returns (request: Daily.Request, id: Result<string, AdapterError>)
      modifies this`domainID
      ensures request == Daily.DomainIDRequest(apiKey)
      ensures id.Success? <==> response.Received? && response.status == 200 && response.body.Some?
      ensures id.Success? ==> id.value == response.body.value.domain_id && domainID == id.value
      ensures id.Failure? ==> id.error.Backend? && id.error.error.DomainIDFailed?
      ensures id.Failure? ==> domainID == old(domainID)
    {
      request := Daily.DomainIDRequest(apiKey);
      id := FromBackend(Daily.GetDomainID(response));
      if id.Success? {
        domainID := id.value;
      }
    }

    /** createSession: creates a room (never forcing the SFU topology) and
        reports it as a routed, manually archived session whatever options
        were passed. */
    method CreateSession(opts: OTOptions, response: Daily.HttpResponse<Daily.RoomData>)
      returns (request: Daily.Request, session: Result<Session, AdapterError>)
      ensures request.verb == Daily.Post && request.url == Daily.DailyAPIURL + "/rooms/"
      ensures request.headers == Daily.AuthHeaders(apiKey)
      ensures request.body.Some? && request.body.value.properties.sfu_switchover.None?
      ensures session.Success? <==> response.Received? && response.status == 200 && response.body.Some?
      ensures session.Success? ==> session.value == Session(response.body.value.url, Routed, Manual, this)
      ensures session.Failure? ==> session.error.SessionCreationFailed? && session.error.cause.RoomCreationFailed?
    {
      var room;
      request, room := Daily.CreateRoom(apiKey, false, response);
      match room {
        case Success(data) =>
          session := Success(Session(data.url, Routed, Manual, this));
        case Failure(e) =>
          session := Failure(SessionCreationFailed(e));
      }
    }

    /** generateToken: refuses while no domain ID is cached; otherwise mints a
        fresh token with the cached domain ID in place of any the caller gave. */
    method GenerateToken(sessionID: Daily.RoomURL, options: Option<Daily.MeetingOptions>, now: int)
      returns (token: Result<Daily.Token, AdapterError>)
      ensures domainID == "" ==> token == Failure(DomainIDMissing)
      ensures domainID != "" ==>
                token == FromBackend(Daily.TokenOutcome(
                  Daily.Mint(sessionID, Some(WithDomain(options, domainID)), Daily.NoClaims, now), apiKey))
      ensures token.Success? ==> token.value.payload.d == Some(domainID) && token.value.secret == apiKey
      ensures token.Failure? ==> token.error != Backend(Daily.MissingDomainID)
    {
      if domainID == "" {
        return Failure(DomainIDMissing);
      }
      var minted := Daily.GetMeetingToken(apiKey, sessionID, Some(WithDomain(options, domainID)), null, now);
      token := FromBackend(minted);
    }
  }

  /** The module's default export: the second argument lands in the ignored
      secret parameter, so the adapter still starts without a domain ID. */
  method OpenTok(apiKey: string, domainID: string) returns (ot: OpenTokClass)
    ensures fresh(ot) && ot.apiKey == apiKey && ot.domainID == ""
  {
    ot := new OpenTokClass(apiKey, domainID);
  }

  /** A client: a token is refused until getDomainID has resolved, and then
      carries the resolved ID. An empty resolved ID leaves the adapter refusing. */
  method ResolveBeforeMinting(apiKey: string, id: string, now: int)
    returns (refused: Result<Daily.Token, AdapterError>, token: Result<Daily.Token, AdapterError>)
    ensures refused == Failure(DomainIDMissing)
    ensures id == "" ==> token == Failure(DomainIDMissing)
    ensures id != "" ==> token.Success? && token.value.payload.d == Some(id) && token.value.secret == apiKey
  {
    var ot := OpenTok(apiKey, id);
    refused := ot.GenerateToken(Daily.Parsed("/some-room"), None, now);
    var _, resolved := ot.GetDomainID(Daily.Received(200, Some(Daily.AccountInfo(id))));
    token := ot.GenerateToken(Daily.Parsed("/some-room"), None, now);
  }
}
