/** The request gate of server.js: the ordered middleware chain that decides,
    for one request, whether a public file is served, the request is refused
    with 403, the loader JSON is returned, or the single-page application's
    index document is returned.

    The gate keeps no state between requests: everything it consults is the
    request itself and the constants below. */
module EdgeGate {
  import opened Text

  datatype Option<T> = None | Some(value: T)

  /** The request methods the gate tells apart: express.static and `app.get`
      routes answer GET and HEAD (a HEAD request falls through to the GET
      route). `Other` stands for every method but GET, HEAD and OPTIONS; an
      OPTIONS request is answered by `cors()` before the gate and never
      reaches it. An `Other` request only passes through the filters. */
  datatype Method = Get | Head | Other

  /** A request as the middleware sees it: `req.path`, the three request
      headers it reads, and the parsed `loader` query value. A missing header
      or parameter is None. */
  datatype Request = Request(
    verb: Method,
    path: string,
    userAgent: Option<string>,
    country: Option<string>,
    referer: Option<string>,
    loader: Option<string>)

  /** What a response carries, symbolically. */
  datatype Reply =
    | ServeFile(path: string)     // express.static answers from public/
    | Rejected(message: string)   // res.status(403).send(message)
    | LoaderJson                  // res.json({ allowed: true })
    | IndexDocument               // res.sendFile(public/index.html)
    | NotHandled                  // no route answered: the framework's 404

  /** The decision for one request: status, reply, and whether the header
      middleware set X-Frame-Options and Content-Security-Policy. */
  datatype Outcome = Outcome(status: nat, reply: Reply, frameHeaders: bool)

  /** What one filter decides: call `next()`, or end the request. */
  datatype Verdict = Pass | Block(message: string)

  const BotsMessage: string := "Bots not allowed"
  const CountryMessage: string := "Access blocked by country"
  const LoaderBlockedMessage: string := "Direct loader access blocked"
  const DirectAccessMessage: string := "Direct access not allowed"

  /** The alternatives of the `blockedBots` pattern, in order. */
  const BotTokens: seq<string> := [
    "bot", "crawl", "spider", "slurp", "bing", "ahrefs", "semrush",
    "facebookexternalhit", "python-requests", "curl", "wget", "java",
    "headless", "node"]

  const UnknownCountry: string := "UNKNOWN"
  const AllowedCountries: set<string> := {"JP"}

  const AllowedOrigin: string := "https://greencrafter.space"
  const LoaderPath: string := "/frontend-loader"
  const AssetExtensions: seq<string> := [
    ".html", ".css", ".js", ".webp", ".jpg", ".png", ".svg", ".mp3", ".mp4"]

  const FrameOptionsHeader: string := "X-Frame-Options"
  const FrameOptionsValue: string := "ALLOWALL"
  const CspHeader: string := "Content-Security-Policy"
  const CspValue: string := "frame-ancestors *"

  /** JavaScript `h || d` on an optional header value: a missing value and the
      empty string are both falsy and give the default. */
  function OrDefault(h: Option<string>, d: string): string {
    if h.None? || h.value == "" then d else h.value
  }

  predicate IsReadMethod(m: Method) {
    m == Get || m == Head
  }

  /** express.static answers the request from public/. `publicFiles` stands
      for the set of request paths that the static middleware resolves, which
      is all the model needs of the directory. */
  predicate StaticHit(req: Request, publicFiles: set<string>) {
    IsReadMethod(req.verb) && req.path in publicFiles
  }

  // ---------------------------------------------------------------------
  // Bot stage

  /** `blockedBots.test(ua)`: the lower-cased User-Agent contains a token.
      Every token has at least three characters, so nothing shorter, and in
      particular not the default "", is a bot. */
  predicate IsBot(ua: string)
    ensures IsBot(ua) ==> |ua| >= 3
  {
    exists k :: 0 <= k < |BotTokens| && Contains(ToLower(ua), BotTokens[k])
  }

  function BotStage(userAgent: Option<string>): (v: Verdict)
    ensures v.Block? ==> v.message == BotsMessage
  {
    if IsBot(OrDefault(userAgent, "")) then Block(BotsMessage) else Pass
  }

  // ---------------------------------------------------------------------
  // Country stage

  /** The upper-cased `cf-ipcountry` value, "UNKNOWN" when missing or empty. */
  function CountryCode(country: Option<string>): string {
    ToUpper(OrDefault(country, UnknownCountry))
  }

  function CountryStage(country: Option<string>): (v: Verdict)
    ensures v.Block? ==> v.message == CountryMessage
  {
    var code := CountryCode(country);
    if code == UnknownCountry then Pass
    else if code !in AllowedCountries then Block(CountryMessage)
    else Pass
  }

  // ---------------------------------------------------------------------
  // Origin stage

  /** The path is "/" or ends with one of the asset extensions. */
  predicate IsAssetPath(p: string) {
    p == "/" || exists k :: 0 <= k < |AssetExtensions| && EndsWith(p, AssetExtensions[k])
  }

  /** Paths the origin stage lets through without looking at the Referer. */
  predicate OriginExempt(p: string) {
    IsAssetPath(p) || p == LoaderPath
  }

  /** The Referer, defaulting to "", starts with the allowed origin; the
      comparison is case-sensitive. */
  predicate RefererAllowed(referer: Option<string>) {
    StartsWith(OrDefault(referer, ""), AllowedOrigin)
  }

  function OriginStage(path: string, referer: Option<string>, loader: Option<string>): (v: Verdict)
    ensures v.Block? ==> v.message in {LoaderBlockedMessage, DirectAccessMessage}
  {
    if IsAssetPath(path) then Pass
    else if path == LoaderPath then Pass
    else if RefererAllowed(referer) then Pass
    else if loader == Some("true") then Block(LoaderBlockedMessage)
    else Block(DirectAccessMessage)
  }

  // ---------------------------------------------------------------------
  // Routes

  /** `app.get("/frontend-loader")` under the framework's default routing:
      matching is case-insensitive and a trailing slash is allowed. This
      differs from the exact comparison of the origin exemption. */
  predicate LoaderRouteMatches(p: string)
    ensures LoaderRouteMatches(p) <==>
      SameIgnoringCase(p, LoaderPath) || SameIgnoringCase(p, LoaderPath + "/")
  {
    LowerEqualsIffSame(p, LoaderPath);
    LowerEqualsIffSame(p, LoaderPath + "/");
    var l := ToLower(p);
    l == LoaderPath || l == LoaderPath + "/"
  }

  /** The filters after the header stage, in source order: bot, country,
      origin. The first one that blocks ends the request. */
  function Filters(req: Request): (v: Verdict)
    ensures v == Pass <==>
      BotStage(req.userAgent) == Pass && CountryStage(req.country) == Pass &&
      OriginStage(req.path, req.referer, req.loader) == Pass
    ensures v.Block? ==>
      v.message in {BotsMessage, CountryMessage, LoaderBlockedMessage, DirectAccessMessage}
    ensures v.Block? && v.message != BotsMessage ==> BotStage(req.userAgent) == Pass
    ensures v.Block? && v.message in {LoaderBlockedMessage, DirectAccessMessage} ==>
      CountryStage(req.country) == Pass
  {
    var bot := BotStage(req.userAgent);
    if bot.Block? then bot
    else
      var country := CountryStage(req.country);
      if country.Block? then country
      else OriginStage(req.path, req.referer, req.loader)
  }

  /** The route handlers reached once every filter has passed. */
  function Route(req: Request): (r: Reply)
    ensures r in {LoaderJson, IndexDocument, NotHandled}
    ensures r == NotHandled <==> !IsReadMethod(req.verb)
    ensures r == LoaderJson ==>
      SameIgnoringCase(req.path, LoaderPath) || SameIgnoringCase(req.path, LoaderPath + "/")
  {
    if IsReadMethod(req.verb) && LoaderRouteMatches(req.path) then LoaderJson
    else if IsReadMethod(req.verb) then IndexDocument
    else NotHandled
  }

  function StatusOf(reply: Reply): nat {
    match reply
    case Rejected(_) => 403
    case NotHandled => 404
    case _ => 200
  }

  /** The whole chain for one request. */
  function Gate(req: Request, publicFiles: set<string>): (o: Outcome)
    ensures o.status == StatusOf(o.reply)
    ensures o.frameHeaders <==> !StaticHit(req, publicFiles)
    ensures o.reply.ServeFile? <==> StaticHit(req, publicFiles)
    ensures o.reply.ServeFile? ==> o.reply.path == req.path
  {
    if StaticHit(req, publicFiles) then
      Outcome(200, ServeFile(req.path), false)
    else
      match Filters(req)
      case Block(message) => Outcome(403, Rejected(message), true)
      case Pass => var reply := Route(req); Outcome(StatusOf(reply), reply, true)
  }
}
