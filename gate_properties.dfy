/** What the gate of server.js promises, stated about the `Gate` function:
    the stage order, what each stage lets through, and what reaches the
    routes. */
module GateProperties {
  import opened Text
  import opened EdgeGate

  // ---------------------------------------------------------------------
  // Bot stage

  /** Reference reading of `/(bot|crawl|...|node)/i.test(ua)`: some
      alternative matches at some position of the User-Agent, comparing
      characters as a case-insensitive pattern does. */
  ghost predicate BlockedBotsPatternMatches(ua: string) {
    exists k, i :: 0 <= k < |BotTokens| && MatchesIgnoringCaseAt(ua, BotTokens[k], i)
  }

  lemma BotTokensHaveNoUpper(k: int)
    requires 0 <= k < |BotTokens|
    ensures HasNoUpper(BotTokens[k])
  {
  }

  /** The containment test of the model is the pattern's test. */
  lemma IsBotIffPatternMatches(ua: string)
    ensures IsBot(ua) <==> BlockedBotsPatternMatches(ua)
  {
    forall k | 0 <= k < |BotTokens|
      ensures Contains(ToLower(ua), BotTokens[k]) <==> exists i :: MatchesIgnoringCaseAt(ua, BotTokens[k], i)
    {
      BotTokensHaveNoUpper(k);
      ContainsLowerIffMatches(ua, BotTokens[k]);
    }
  }

  /** A missing or empty User-Agent is never taken for a bot. */
  lemma MissingUserAgentPasses(h: Option<string>)
    requires h.None? || h.value == ""
    ensures BotStage(h) == Pass
  {
  }

  /** The bot test does not see the case of the User-Agent. */
  lemma BotTestIgnoresCase(ua: string)
    ensures IsBot(ToUpper(ua)) == IsBot(ua)
    ensures IsBot(ToLower(ua)) == IsBot(ua)
  {
    LowerOfUpper(ua);
  }

  /** A token found at some position of the lower-cased User-Agent makes it
      a bot. */
  lemma TokenAtMakesBot(ua: string, k: int, i: int)
    requires 0 <= k < |BotTokens| && 0 <= i && i + |BotTokens[k]| <= |ua|
    requires ToLower(ua[i..i + |BotTokens[k]|]) == BotTokens[k]
    ensures IsBot(ua)
  {
    ToLowerSlice(ua, i, i + |BotTokens[k]|);
    ContainsIff(ToLower(ua), BotTokens[k]);
    assert OccursAt(ToLower(ua), BotTokens[k], i);
  }

  lemma CrawlerIsBot()
    ensures IsBot("Mozilla/5.0 (compatible; Googlebot/2.1)")
  {
    assert "Mozilla/5.0 (compatible; Googlebot/2.1)"[31..34] == "bot";
    TokenAtMakesBot("Mozilla/5.0 (compatible; Googlebot/2.1)", 0, 31);
  }

  lemma CurlIsBot()
    ensures IsBot("curl/7.68.0")
  {
    assert "curl/7.68.0"[0..4] == "curl";
    TokenAtMakesBot("curl/7.68.0", 9, 0);
  }

  lemma HeadlessIsBot()
    ensures IsBot("Mozilla/5.0 HeadlessChrome/120.0")
  {
    assert "Mozilla/5.0 HeadlessChrome/120.0"[12..20] == "Headless";
    assert ToLower("Headless") == "headless";
    TokenAtMakesBot("Mozilla/5.0 HeadlessChrome/120.0", 12, 12);
  }

  /** "Mozilla/5.0" holds none of the tokens: each token has a letter that
      the User-Agent lacks. */
  lemma BrowserNotBot()
    ensures !IsBot("Mozilla/5.0")
  {
    var l := ToLower("Mozilla/5.0");
    assert l == "mozilla/5.0";
    // the position, in each token, of a letter that "mozilla/5.0" lacks
    var missing := [0, 0, 0, 0, 0, 1, 0, 0, 0, 0, 0, 0, 0, 0];
    forall k | 0 <= k < |BotTokens| ensures !Contains(l, BotTokens[k]) {
      MissingCharNotContained(l, BotTokens[k], missing[k]);
    }
  }

  // ---------------------------------------------------------------------
  // Country stage

  /** `cf-ipcountry` passes exactly when it is missing or empty, is some
      casing of "unknown", or is some casing of "JP". */
  lemma CountryStageIff(h: Option<string>)
    ensures CountryStage(h).Pass? <==>
      h.None? || h.value == "" || SameIgnoringCase(h.value, "unknown") ||
      h.value in {"JP", "Jp", "jP", "jp"}
  {
    if h.Some? && h.value != "" {
      var s := h.value;
      assert CountryCode(h) == ToUpper(s);
      UpperEqualsIffSame(s, UnknownCountry);
      assert SameIgnoringCase(s, UnknownCountry) <==> SameIgnoringCase(s, "unknown");
      UpperIsJp(s);
    }
  }

  /** The strings that upper-case to "JP". */
  lemma UpperIsJp(s: string)
    ensures ToUpper(s) == "JP" <==> s in {"JP", "Jp", "jP", "jp"}
  {
    if ToUpper(s) == "JP" {
      assert |s| == 2;
      assert ToUpper(s)[0] == 'J' && ToUpper(s)[1] == 'P';
      assert UpperChar(s[0]) == 'J' && UpperChar(s[1]) == 'P';
      assert s == [s[0], s[1]];
    }
  }

  lemma CountryExamples()
    ensures CountryStage(None) == Pass
    ensures CountryStage(Some("")) == Pass
    ensures CountryStage(Some("Unknown")) == Pass
    ensures CountryStage(Some("jp")) == Pass
    ensures CountryStage(Some("US")) == Block(CountryMessage)
    ensures CountryStage(Some("JPN")) == Block(CountryMessage)
  {
    CountryStageIff(Some("Unknown"));
    CountryStageIff(Some("jp"));
    CountryStageIff(Some("US"));
    CountryStageIff(Some("JPN"));
  }

  // ---------------------------------------------------------------------
  // Origin stage

  /** "/", the asset extensions and the loader path pass the origin stage
      whatever the Referer and the `loader` value. */
  lemma ExemptPathsPass(path: string, referer: Option<string>, loader: Option<string>)
    requires path == "/" || path == LoaderPath ||
      exists k :: 0 <= k < |AssetExtensions| && EndsWith(path, AssetExtensions[k])
    ensures OriginStage(path, referer, loader) == Pass
  {
  }

  /** Any other path passes exactly when the Referer starts, case-sensitively,
      with the allowed origin; a refusal names the loader only when the
      `loader` value is exactly "true". */
  lemma OriginStageIff(path: string, referer: Option<string>, loader: Option<string>)
    requires !OriginExempt(path)
    ensures OriginStage(path, referer, loader).Pass? <==> StartsWith(OrDefault(referer, ""), AllowedOrigin)
    ensures OriginStage(path, referer, loader).Block? ==>
      OriginStage(path, referer, loader).message ==
        if loader == Some("true") then LoaderBlockedMessage else DirectAccessMessage
  {
  }

  /** A path other than "/" whose last character ends none of the extensions
      is not an asset path. */
  lemma NotAssetPathByLastChar(p: string)
    requires p != "/" && p != [] && p[|p| - 1] !in {'l', 's', 'p', 'g', '3', '4'}
    ensures !IsAssetPath(p)
  {
  }

  /** `startsWith` as concatenation: the Referer is allowed exactly when it is
      the allowed origin followed by anything at all. */
  lemma RefererAllowedIffPrefix(referer: Option<string>)
    ensures RefererAllowed(referer) <==> exists rest :: OrDefault(referer, "") == AllowedOrigin + rest
  {
    var r := OrDefault(referer, "");
    if RefererAllowed(referer) {
      assert r == AllowedOrigin + r[|AllowedOrigin|..];
    }
    if rest :| r == AllowedOrigin + rest {
      assert r[..|AllowedOrigin|] == AllowedOrigin;
    }
  }

  /** The Referer test is a bare prefix test and it is case-sensitive. */
  lemma RefererExamples()
    ensures RefererAllowed(Some("https://greencrafter.space/home"))
    ensures RefererAllowed(Some("https://greencrafter.space.other/"))
    ensures !RefererAllowed(Some("HTTPS://GREENCRAFTER.SPACE/"))
    ensures !RefererAllowed(Some("http://greencrafter.space/"))
    ensures !RefererAllowed(None)
  {
    assert "HTTPS://GREENCRAFTER.SPACE/"[0] != AllowedOrigin[0];
    assert "http://greencrafter.space/"[4] != AllowedOrigin[4];
  }

  // ---------------------------------------------------------------------
  // The chain

  /** A public file is served as it is, whatever the headers, and without the
      frame headers: the static middleware ends the request first. */
  lemma StaticHitServedFirst(req: Request, publicFiles: set<string>)
    requires IsReadMethod(req.verb) && req.path in publicFiles
    ensures Gate(req, publicFiles) == Outcome(200, ServeFile(req.path), false)
  {
  }

  /** After the static stage a request is refused as a bot exactly when its
      User-Agent contains a token, whatever its country, Referer and path. */
  lemma BotRefusedIff(req: Request, publicFiles: set<string>)
    requires !StaticHit(req, publicFiles)
    ensures Gate(req, publicFiles).reply == Rejected(BotsMessage) <==> IsBot(OrDefault(req.userAgent, ""))
    ensures IsBot(OrDefault(req.userAgent, "")) ==>
      Gate(req, publicFiles) == Outcome(403, Rejected(BotsMessage), true)
  {
  }

  /** A request that is not a bot is refused by country exactly when the
      country stage blocks, before any Referer is looked at. */
  lemma CountryRefusedIff(req: Request, publicFiles: set<string>)
    requires !StaticHit(req, publicFiles) && !IsBot(OrDefault(req.userAgent, ""))
    ensures Gate(req, publicFiles).reply == Rejected(CountryMessage) <==> CountryStage(req.country).Block?
    ensures CountryStage(req.country).Block? ==>
      Gate(req, publicFiles) == Outcome(403, Rejected(CountryMessage), true)
  {
  }

  /** Once the bot and country stages pass, an exempt path reaches the routes
      whatever its Referer and `loader` value. */
  lemma ExemptReachesRoutes(req: Request, publicFiles: set<string>)
    requires !StaticHit(req, publicFiles)
    requires BotStage(req.userAgent) == Pass && CountryStage(req.country) == Pass
    requires OriginExempt(req.path)
    ensures Gate(req, publicFiles).reply == Route(req)
    ensures Gate(req, publicFiles).frameHeaders
  {
  }

  /** Once the bot and country stages pass, any other path reaches the routes
      exactly when the Referer is allowed, and is refused with the message the
      `loader` value selects otherwise. */
  lemma RefererDecides(req: Request, publicFiles: set<string>)
    requires !StaticHit(req, publicFiles)
    requires BotStage(req.userAgent) == Pass && CountryStage(req.country) == Pass
    requires !OriginExempt(req.path)
    ensures Gate(req, publicFiles).reply == Route(req) <==> RefererAllowed(req.referer)
    ensures !RefererAllowed(req.referer) ==>
      var message := if req.loader == Some("true") then LoaderBlockedMessage else DirectAccessMessage;
      Gate(req, publicFiles) == Outcome(403, Rejected(message), true)
  {
  }

  /** A GET or HEAD that passes every filter gets the loader JSON on the
      loader route and the index document elsewhere, with the frame headers;
      every other method is left to the framework's 404. */
  lemma PassingRequestRouted(req: Request, publicFiles: set<string>)
    requires !StaticHit(req, publicFiles) && Filters(req) == Pass
    ensures IsReadMethod(req.verb) && LoaderRouteMatches(req.path) ==>
      Gate(req, publicFiles) == Outcome(200, LoaderJson, true)
    ensures IsReadMethod(req.verb) && !LoaderRouteMatches(req.path) ==>
      Gate(req, publicFiles) == Outcome(200, IndexDocument, true)
    ensures !IsReadMethod(req.verb) ==> Gate(req, publicFiles) == Outcome(404, NotHandled, true)
  {
  }

  /** Every 403 carries the message of the first stage that blocked, in the
      order bot, country, origin. */
  lemma RefusalsFollowStageOrder(req: Request, publicFiles: set<string>)
    ensures Gate(req, publicFiles).status == 403 <==>
      !StaticHit(req, publicFiles) &&
      (IsBot(OrDefault(req.userAgent, "")) || CountryStage(req.country).Block? ||
       OriginStage(req.path, req.referer, req.loader).Block?)
    ensures Gate(req, publicFiles).reply == Rejected(CountryMessage) ==> !IsBot(OrDefault(req.userAgent, ""))
    ensures Gate(req, publicFiles).reply in {Rejected(LoaderBlockedMessage), Rejected(DirectAccessMessage)} ==>
      !IsBot(OrDefault(req.userAgent, "")) && CountryStage(req.country).Pass?
  {
  }

  /** The outcome depends on the User-Agent only up to ASCII case. */
  lemma GateIgnoresUserAgentCase(req: Request, publicFiles: set<string>)
    requires req.userAgent.Some?
    ensures Gate(req.(userAgent := Some(ToUpper(req.userAgent.value))), publicFiles) == Gate(req, publicFiles)
    ensures Gate(req.(userAgent := Some(ToLower(req.userAgent.value))), publicFiles) == Gate(req, publicFiles)
  {
    var ua := req.userAgent.value;
    BotTestIgnoresCase(ua);
    assert ToUpper(ua) == "" <==> ua == "";
    assert ToLower(ua) == "" <==> ua == "";
  }

  /** The outcome depends on the country header only up to ASCII case. */
  lemma GateIgnoresCountryCase(req: Request, publicFiles: set<string>)
    requires req.country.Some?
    ensures Gate(req.(country := Some(ToLower(req.country.value))), publicFiles) == Gate(req, publicFiles)
    ensures Gate(req.(country := Some(ToUpper(req.country.value))), publicFiles) == Gate(req, publicFiles)
  {
    var c := req.country.value;
    LowerOfUpper(c);
    assert ToLower(c) == "" <==> c == "";
    assert ToUpper(c) == "" <==> c == "";
  }

  /** The loader route matches more paths than the origin exemption names:
      "/FRONTEND-LOADER" and "/frontend-loader/" are routed to the loader
      JSON but need an allowed Referer. */
  lemma LoaderRouteWiderThanExemption(base: Request, publicFiles: set<string>)
    requires base.verb == Get && base.userAgent == None && base.country == None && base.loader == None
    requires "/FRONTEND-LOADER" !in publicFiles && "/frontend-loader/" !in publicFiles
    ensures Gate(base.(path := "/FRONTEND-LOADER", referer := Some(AllowedOrigin)), publicFiles).reply == LoaderJson
    ensures Gate(base.(path := "/FRONTEND-LOADER", referer := None), publicFiles).reply == Rejected(DirectAccessMessage)
    ensures Gate(base.(path := "/frontend-loader/", referer := None), publicFiles).reply == Rejected(DirectAccessMessage)
  {
    MissingUserAgentPasses(None);
    assert ToLower("/FRONTEND-LOADER") == LoaderPath;
    NotAssetPathByLastChar("/FRONTEND-LOADER");
    NotAssetPathByLastChar("/frontend-loader/");
    assert StartsWith(AllowedOrigin, AllowedOrigin);
  }

  /** Two requests: an asset path needs no Referer, and the loader with the
      allowed Referer answers with its JSON. */
  lemma ExemptExamples(publicFiles: set<string>)
    requires "/app.js" !in publicFiles && LoaderPath !in publicFiles
    ensures Gate(Request(Get, "/app.js", None, None, None, None), publicFiles) == Outcome(200, IndexDocument, true)
    ensures Gate(Request(Get, LoaderPath, None, None, Some("https://greencrafter.space/home"), None), publicFiles) ==
      Outcome(200, LoaderJson, true)
  {
    MissingUserAgentPasses(None);
    assert EndsWith("/app.js", AssetExtensions[2]);
    assert ToLower(LoaderPath) == LoaderPath;
  }

  /** A path that is not exempt and has no Referer is refused, with the
      loader message when `loader=true` is given. */
  lemma DirectAccessExamples(publicFiles: set<string>)
    requires "/api/data" !in publicFiles
    ensures Gate(Request(Get, "/api/data", None, None, None, None), publicFiles) ==
      Outcome(403, Rejected(DirectAccessMessage), true)
    ensures Gate(Request(Get, "/api/data", None, None, None, Some("true")), publicFiles) ==
      Outcome(403, Rejected(LoaderBlockedMessage), true)
    ensures Gate(Request(Get, "/api/data", None, None, None, Some("TRUE")), publicFiles) ==
      Outcome(403, Rejected(DirectAccessMessage), true)
  {
    MissingUserAgentPasses(None);
    NotAssetPathByLastChar("/api/data");
  }

  /** A bot from a blocked country without a Referer is refused as a bot; a
      browser from a blocked country is refused by country. */
  lemma StageOrderExamples(publicFiles: set<string>)
    requires "/api/data" !in publicFiles
    ensures Gate(Request(Get, "/api/data", Some("curl/7.68.0"), Some("US"), None, None), publicFiles) ==
      Outcome(403, Rejected(BotsMessage), true)
    ensures Gate(Request(Get, "/api/data", Some("Mozilla/5.0"), Some("US"), None, None), publicFiles) ==
      Outcome(403, Rejected(CountryMessage), true)
  {
    CurlIsBot();
    BrowserNotBot();
    CountryExamples();
  }
}
