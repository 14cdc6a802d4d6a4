/** The server's own logic: routing a request in `hello`, choosing the
    listening port from the PORT environment variable, and the order in which
    start-up reads its configuration, fetches the post and picks the port.
    Environment lookups and the two Reddit calls are inputs; binding the
    socket and serving connections are not modelled. */
module Server {
  import opened Wrappers
  import opened U16Parse
  import Reddit

  // ---------------------------------------------------------------------------
  // Routing
  // ---------------------------------------------------------------------------

  /** HTTP request methods: the standard ones and extension tokens. */
  datatype Method =
    | Options | Get | Post | Put | Delete | Head | Trace | Connect | Patch
    | Extension(token: string)

  /** An HTTP status code, three digits. */
  type StatusCode = c: int | 100 <= c <= 999 witness 200

  const OK: StatusCode := 200
  const NOT_FOUND: StatusCode := 404
  const METHOD_NOT_ALLOWED: StatusCode := 405

  /** The body served on the root path. */
  const Greeting: string := "hello, world!"

  datatype Response = Response(status: StatusCode, body: string)

  /** The error type of the service function; `hello` never produces one. */
  datatype HyperError = HyperError(message: string)

  /** `Response::new(body)`: status 200 with that body. */
  function NewResponse(body: string): Response {
    Response(OK, body)
  }

  /** `Response::default()`: status 200 and an empty body. */
  function DefaultResponse(): Response {
    Response(OK, "")
  }

  /** The response after `*rsp.status_mut() = status`. */
  function WithStatus(rsp: Response, status: StatusCode): Response {
    rsp.(status := status)
  }

  /** `hello`, the service function: the greeting for GET on "/", 405 for any
      other method on "/", 404 for every other path. It never fails. */
  function Hello(m: Method, path: string): (r: Result<Response, HyperError>)
    ensures r.Ok?
    ensures r.value.status in {OK, METHOD_NOT_ALLOWED, NOT_FOUND}
    ensures r.value.status == OK <==> m == Get && path == "/"
    ensures r.value.status == METHOD_NOT_ALLOWED <==> m != Get && path == "/"
    ensures r.value.status == NOT_FOUND <==> path != "/"
    ensures r.value.body == if r.value.status == OK then Greeting else ""
  {
    match (m, path)
    case (Get, "/") => Ok(NewResponse(Greeting))
    case (_, "/") => Ok(WithStatus(DefaultResponse(), METHOD_NOT_ALLOWED))
    case _ => Ok(WithStatus(DefaultResponse(), NOT_FOUND))
  }

  /** Off the root path the method is never looked at: GET gets 404 like any other. */
  lemma HelloIgnoresMethodOffRoot(m1: Method, m2: Method, path: string)
    requires path != "/"
    ensures Hello(m1, path) == Hello(m2, path)
  {
  }

  /** On the root path every method other than GET is answered alike. */
  lemma HelloNonGetAlike(m1: Method, m2: Method, path: string)
    requires m1 != Get && m2 != Get
    ensures Hello(m1, path) == Hello(m2, path)
  {
  }

  // ---------------------------------------------------------------------------
  // The listening port
  // ---------------------------------------------------------------------------

  /** Why `env::var(name)` gives no string: the variable is unset, or it is
      set to bytes that are not valid Unicode. */
  datatype VarError = NotPresent | NotUnicode(raw: seq<bv8>)

  /** The outcome of `env::var(name)`. */
  type EnvVar = Result<string, VarError>

  /** The port used when PORT is unset. */
  const DefaultPort: u16 := 3000

  datatype PortError = PortNotUnicode(raw: seq<bv8>) | InvalidPort(kind: IntErrorKind)

  /** `determine_port`: 3000 when PORT is unset, an error when it is not
      Unicode, otherwise the u16 parse of its text, whose failure is an error
      and never a fall-back to 3000. */
  function DeterminePort(port: EnvVar): (r: Result<u16, PortError>)
    ensures port == Err(NotPresent) ==> r == Ok(DefaultPort)
    ensures port.Err? && port.error.NotUnicode? ==> r == Err(PortNotUnicode(port.error.raw))
    ensures port.Ok? ==> (r.Ok? <==> IsU16Text(port.value))
    ensures port.Ok? && r.Ok? ==> r.value == Value(Unsigned(port.value))
    ensures port.Ok? && r.Err? ==>
              Expected(port.value).Err? && r == Err(InvalidPort(Expected(port.value).error))
    ensures port == Ok("") ==> r == Err(InvalidPort(Empty))
  {
    match port
    case Err(NotPresent) => Ok(DefaultPort)
    case Err(NotUnicode(raw)) => Err(PortNotUnicode(raw))
    case Ok(text) =>
      ParseU16Ok(text);
      ParseMatchesExpected(text);
      match ParseU16(text)
      case Ok(n) => Ok(n)
      case Err(kind) => Err(InvalidPort(kind))
  }

  /** PORT set to the decimal text of any u16 selects that port. */
  lemma DeterminePortDecimal(n: u16)
    ensures DeterminePort(Ok(Decimal(n))) == Ok(n)
  {
    ParseDecimal(n);
  }

  /** PORT set to digits beyond 65535 is an error, not 3000 and not a wrapped value. */
  lemma DeterminePortOverflow(text: string)
    requires IsDigits(Unsigned(text)) && Value(Unsigned(text)) > MaxU16
    ensures DeterminePort(Ok(text)) == Err(InvalidPort(PosOverflow))
  {
  }

  // ---------------------------------------------------------------------------
  // Start-up
  // ---------------------------------------------------------------------------

  /** Why the process stops before serving: a missing credential (its
      context message and the lookup error beneath it), a failed Reddit call,
      or an unusable PORT. */
  datatype StartupError =
    | MissingVar(context: string, source: VarError)
    | FetchFailed(cause: Reddit.FetchError)
    | BadPort(reason: PortError)

  /** What start-up has in hand when it binds: the token and post it logged,
      and the port. */
  datatype Ready = Ready(token: string, meme: Reddit.Post, port: u16)

  /** `env::var(name).context(context)`: the string, or the context message
      wrapped around the lookup error. */
  function RequireVar(v: EnvVar, context: string): (r: Result<string, StartupError>)
    ensures v.Ok? <==> r.Ok?
    ensures r.Ok? ==> r.value == v.value
    ensures r.Err? ==> r.error == MissingVar(context, v.error)
  {
    match v
    case Ok(value) => Ok(value)
    case Err(e) => Err(MissingVar(context, e))
  }

  /** The start-up sequence of `main` up to binding: both credentials, then
      the token, then the post, then the port, stopping at the first failure
      and returning its error. `tokenResponse` and `listingResponse` are what
      the two Reddit calls returned; the post is fetched once here, not per
      request. */
  function Startup(clientId: EnvVar, clientSecret: EnvVar,
                   tokenResponse: Result<Reddit.AccessTokenResponse, Reddit.FetchError>,
                   listingResponse: Result<Reddit.Listing, Reddit.FetchError>,
                   port: EnvVar): (r: Result<Ready, StartupError>)
    ensures clientId.Err? ==> r == Err(MissingVar("REDDIT_CLIENT_ID missing", clientId.error))
    ensures clientId.Ok? && clientSecret.Err? ==>
              r == Err(MissingVar("REDDIT_CLIENT_SECRET missing", clientSecret.error))
    ensures clientId.Ok? && clientSecret.Ok? && tokenResponse.Err? ==>
              r == Err(FetchFailed(tokenResponse.error))
    ensures clientId.Ok? && clientSecret.Ok? && tokenResponse.Ok? && listingResponse.Err? ==>
              r == Err(FetchFailed(listingResponse.error))
    ensures clientId.Ok? && clientSecret.Ok? && tokenResponse.Ok? && listingResponse.Ok? &&
            listingResponse.value.data.children == [] ==>
              r == Err(FetchFailed(Reddit.NoPosts))
    ensures clientId.Ok? && clientSecret.Ok? && tokenResponse.Ok? && listingResponse.Ok? &&
            listingResponse.value.data.children != [] && DeterminePort(port).Err? ==>
              r == Err(BadPort(DeterminePort(port).error))
    ensures r.Ok? <==>
              && clientId.Ok? && clientSecret.Ok?
              && tokenResponse.Ok?
              && listingResponse.Ok? && listingResponse.value.data.children != []
              && DeterminePort(port).Ok?
    ensures r.Ok? ==> r.value.token == tokenResponse.value.access_token
    ensures r.Ok? ==> var children := listingResponse.value.data.children;
              r.value.meme == children[|children| - 1].data
    ensures r.Ok? ==> r.value.port == DeterminePort(port).value
  {
    match RequireVar(clientId, "REDDIT_CLIENT_ID missing")
    case Err(e) => Err(e)
    case Ok(_) =>
      match RequireVar(clientSecret, "REDDIT_CLIENT_SECRET missing")
      case Err(e) => Err(e)
      case Ok(_) =>
        match Reddit.AccessToken(tokenResponse)
        case Err(e) => Err(FetchFailed(e))
        case Ok(token) =>
          match Reddit.HotWholesomeMeme(listingResponse)
          case Err(e) => Err(FetchFailed(e))
          case Ok(meme) =>
            match DeterminePort(port)
            case Err(e) => Err(BadPort(e))
            case Ok(p) => Ok(Ready(token, meme, p))
  }

  /** The post is chosen before the port is looked at: an empty listing stops
      start-up with `NoPosts` whatever PORT holds. */
  lemma StartupEmptyListing(clientId: string, clientSecret: string,
                            token: Reddit.AccessTokenResponse, port: EnvVar)
    ensures Startup(Ok(clientId), Ok(clientSecret), Ok(token),
                    Ok(Reddit.Listing(Reddit.ListingData([]))), port)
            == Err(FetchFailed(Reddit.NoPosts))
  {
  }

  /** When start-up succeeds with a full two-post listing, the post it holds
      is the second one, and PORT unset means port 3000. */
  lemma StartupSecondHottest(clientId: string, clientSecret: string,
                             token: Reddit.AccessTokenResponse, listing: Reddit.Listing)
    requires |listing.data.children| == Reddit.ListingLimit
    ensures Startup(Ok(clientId), Ok(clientSecret), Ok(token), Ok(listing), Err(NotPresent))
            == Ok(Ready(token.access_token, listing.data.children[1].data, DefaultPort))
  {
  }
}
