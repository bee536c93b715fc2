# Edge gate of the greencrafter front-end server

This project models the request gate of `server.js`, an Express application that serves a
single-page application from `public/`. The gate is an ordered middleware chain. For each request it
decides exactly one of four things:

- serve a public file as it is;
- refuse with 403 and a fixed message;
- answer `GET /frontend-loader` with `{"allowed": true}`;
- fall back to `public/index.html`.

The stages run in this order:

1. static files (`express.static`);
2. the header middleware, which sets `X-Frame-Options: ALLOWALL` and
   `Content-Security-Policy: frame-ancestors *`;
3. the bot filter, which tests the User-Agent against 14 tokens, ignoring case;
4. the country filter on `cf-ipcountry`, which allows only `JP` and lets "unknown" through;
5. the origin filter, which exempts asset paths and the loader path and otherwise needs a Referer
   starting with `https://greencrafter.space`;
6. the loader route;
7. the SPA fallback.

The project has four files:

- `text.dfy` (module `Text`): ASCII case mapping, `startsWith`, `endsWith` and substring search, with
  lemmas that tie them to the case-insensitive character comparison of a regular expression.
- `edge_gate.dfy` (module `EdgeGate`): the request and outcome datatypes, the constants of the source,
  one pure function per stage, and `Gate(req, publicFiles)`, the decision for one request.
  `publicFiles` is the set of request paths the static middleware answers. It stands in for the
  `public/` directory. By default `express.static` answers a GET or HEAD of `/` with
  `public/index.html`, so `/` is in `publicFiles` whenever that file exists: the root page is then
  sent without the frame headers, and the `/` exemption of the origin filter (server.js:77) only
  matters for other methods.
- `gate_properties.dfy` (module `GateProperties`): the properties of the gate, as lemmas.
- `server.dfy` (module `Server`): the imperative form of the chain. A `Response` class stands for the
  shared `res` object: status code, headers set by this file, and what was sent. There is one method per
  middleware, each of which ends the request or hands on. `Handle` runs them in registration order and
  is proved to leave `res` exactly as `Gate` says.

Two points where the code does something other than a reader might expect:

- The Referer test is a case-sensitive `startsWith` (server.js:92), not a case-insensitive one.
  `HTTPS://GREENCRAFTER.SPACE/` is refused. `https://greencrafter.space.other/` passes.
- The country filter lets through more than the literal sentinel "unknown". A missing or empty header
  passes, and so does any casing of "unknown": the value defaults to "UNKNOWN" and is upper-cased
  (server.js:59-60).

## Model

| member | source | states |
|---|---|---|
| EdgeGate.Gate | server.js:24-113 | The status is 403 for a refusal, 404 when no route answers, 200 otherwise. The frame headers are set exactly when the request is not a static hit. A file is served exactly for a GET/HEAD of a public path, and it is the requested path. |
| EdgeGate.BotStage | server.js:45-51 | The bot filter blocks only with "Bots not allowed". |
| EdgeGate.CountryStage | server.js:58-65 | The country filter blocks only with "Access blocked by country". |
| EdgeGate.OriginStage | server.js:72-99 | The origin filter blocks only with "Direct loader access blocked" or "Direct access not allowed". |
| EdgeGate.IsBot | server.js:43-47 | `blockedBots.test(ua)` as a search of the lower-cased User-Agent for the tokens. Every token has at least three characters, so a bot User-Agent has at least three, and the default "" is never a bot. |
| EdgeGate.LoaderRouteMatches | server.js:104 | The Express 4 match of the route path `/frontend-loader`: the path equals `/frontend-loader` or `/frontend-loader/`, ignoring case. |
| EdgeGate.Filters | server.js:45-99 | The bot, country and origin filters in that order. The request passes exactly when all three pass. A refusal carries one of the four messages. A refusal other than the bot's implies the bot filter passed, and an origin refusal implies the country filter passed too. |
| EdgeGate.Route | server.js:104-113 | The two routes after the filters: the reply is the loader JSON, the index document or the framework's 404. It is the 404 exactly for a method other than GET/HEAD. The loader JSON goes only to a path matching the loader route. |
| GateProperties.IsBotIffPatternMatches | server.js:43-47 | Searching the lower-cased User-Agent for the tokens finds a bot exactly when the case-insensitive `blockedBots` pattern matches at some position, comparing characters as a case-insensitive pattern does. |
| GateProperties.TokenAtMakesBot | server.js:43-47 | A token found, in any case, at any position of the User-Agent makes it a bot. |
| GateProperties.MissingUserAgentPasses | server.js:46-47 | A missing or empty User-Agent is read as "" and is never blocked. |
| GateProperties.BotTestIgnoresCase | server.js:43 | Upper- or lower-casing the User-Agent does not change the bot verdict. |
| GateProperties.CrawlerIsBot | server.js:43 | "Mozilla/5.0 (compatible; Googlebot/2.1)" is a bot. |
| GateProperties.CurlIsBot | server.js:43 | "curl/7.68.0" is a bot. |
| GateProperties.HeadlessIsBot | server.js:43 | "Mozilla/5.0 HeadlessChrome/120.0" is a bot. |
| GateProperties.BrowserNotBot | server.js:43 | "Mozilla/5.0" is not a bot. |
| GateProperties.CountryStageIff | server.js:56-64 | The country filter passes exactly when the header is missing or empty, is "unknown" in any casing, or is one of "JP", "Jp", "jP", "jp". |
| GateProperties.UpperIsJp | server.js:59-61 | The strings that upper-case to "JP" are exactly "JP", "Jp", "jP" and "jp". |
| GateProperties.CountryExamples | server.js:56-64 | A missing header, "", "Unknown" and "jp" pass. "US" and "JPN" are blocked by country. |
| GateProperties.ExemptPathsPass | server.js:76-89 | "/", any path ending in one of the nine asset extensions, and "/frontend-loader" pass the origin filter whatever the Referer and `loader` value. |
| GateProperties.NotAssetPathByLastChar | server.js:76-87 | A path other than "/" whose last character ends none of the extensions is not an asset path. |
| GateProperties.OriginStageIff | server.js:91-98 | For any other path the origin filter passes exactly when the Referer, defaulting to "", starts with `https://greencrafter.space`. A refusal says "Direct loader access blocked" exactly when `loader` is the string "true", and "Direct access not allowed" otherwise. |
| GateProperties.RefererAllowedIffPrefix | server.js:91-92 | The Referer, defaulting to "", is allowed exactly when it is the allowed origin followed by some string, possibly empty: `startsWith` as concatenation. |
| GateProperties.RefererExamples | server.js:91-92 | The Referer test is a case-sensitive bare prefix test. The origin followed by "/home" or by ".other/" passes. The upper-cased origin, plain http and a missing Referer do not. |
| GateProperties.StaticHitServedFirst | server.js:24-38 | A GET/HEAD for a public path is served as that file with status 200 and without the frame headers, whatever the User-Agent, country or Referer. |
| GateProperties.BotRefusedIff | server.js:45-51 | After the static stage, a request is refused as a bot exactly when its User-Agent contains a token. Such a request gets 403 "Bots not allowed" with the frame headers, whatever its country, Referer and path. |
| GateProperties.CountryRefusedIff | server.js:58-65 | A non-bot request is refused by country exactly when the country filter blocks, whatever its Referer. |
| GateProperties.ExemptReachesRoutes | server.js:72-89 | Once the bot and country filters pass, an exempt path reaches the routes whatever the Referer. |
| GateProperties.RefererDecides | server.js:91-98 | Once the bot and country filters pass, any other path reaches the routes exactly when the Referer is allowed. Otherwise it gets 403 with the message that the `loader` value selects. |
| GateProperties.PassingRequestRouted | server.js:104-113 | A GET/HEAD that passes every filter gets 200 `{"allowed": true}` on the loader route and the index document on any other path, both with the frame headers. Any other method gets the framework's 404. |
| GateProperties.RefusalsFollowStageOrder | server.js:45-99 | A request gets 403 exactly when it is not a static hit and some filter blocks. A country refusal implies the request was not a bot. An origin refusal implies it was neither a bot nor blocked by country. |
| GateProperties.GateIgnoresUserAgentCase | server.js:43-47 | For any request with a User-Agent, the outcome is unchanged when the User-Agent is upper- or lower-cased. |
| GateProperties.GateIgnoresCountryCase | server.js:58-64 | For any request with a `cf-ipcountry` header, the outcome is unchanged when that header is upper- or lower-cased. |
| GateProperties.LoaderRouteWiderThanExemption | server.js:89-106 | "/FRONTEND-LOADER" with the allowed Referer gets the loader JSON, because the route ignores case. Without a Referer it and "/frontend-loader/" are refused, because the exemption is an exact comparison. |
| GateProperties.ExemptExamples | server.js:76-106 | `GET /app.js` without a Referer gets the index document. `GET /frontend-loader` with Referer `https://greencrafter.space/home` gets the loader JSON. |
| GateProperties.DirectAccessExamples | server.js:91-98 | `GET /api/data` without a Referer is refused with "Direct access not allowed". With `loader=true` it is refused with "Direct loader access blocked". With `loader=TRUE` it gets the plain message again. |
| GateProperties.StageOrderExamples | server.js:45-99 | A curl User-Agent from "US" without a Referer gets "Bots not allowed". A browser from "US" gets "Access blocked by country". |
| Server.FrameHeaders | server.js:35-36 | The header middleware's map holds exactly X-Frame-Options "ALLOWALL" and Content-Security-Policy "frame-ancestors *". |
| Server.Response.SetHeader | server.js:35-36 | Sets one header and leaves status and sent reply alone. It needs nothing sent yet. |
| Server.Response.Status | server.js:48 | Sets the status code only. |
| Server.Response.Send | server.js:48 | Records the reply, which ends the request, and leaves status and headers alone. |
| Server.Refuse | server.js:48 | `res.status(403).send(message)`: status 403, the message sent, headers unchanged. |
| Server.StaticFiles | server.js:24-29 | Hands on exactly when the request is not a static hit. Otherwise it sends the file with status 200. |
| Server.SecurityHeaders | server.js:34-38 | Adds the two frame headers to the response and hands on. |
| Server.BotBlock | server.js:45-51 | Hands on exactly when the bot filter passes. Otherwise it sends 403 "Bots not allowed". |
| Server.CountryBlock | server.js:58-65 | Hands on exactly when the country filter passes. Otherwise it sends 403 "Access blocked by country". |
| Server.AccessControl | server.js:72-99 | Hands on exactly when the origin filter passes. Otherwise it sends 403 with the origin filter's message. |
| Server.FrontendLoader | server.js:104-106 | Answers `{"allowed": true}` exactly for a GET/HEAD whose path matches the loader route. |
| Server.SpaFallback | server.js:111-113 | Answers the index document exactly for a GET/HEAD. |
| Server.NotFound | server.js:104-113 | A request that neither route took gets the framework's 404. |
| Server.Handle | server.js:24-113 | Running the middleware in registration order leaves the response with Gate's status and reply. It adds the two frame headers exactly when Gate says they were set, and changes nothing but the response. |
| Server.HandleTwice | server.js:43-113 | The two responses are freshly allocated and distinct. Two identical requests on them get the same status, reply and headers, and that reply is Gate's. |

## Left out

- `compression()`, `cors()` and `express.json()` (server.js:11-16) run before the chain and are not part of this model. Two consequences are not captured. `cors()` answers every OPTIONS request with 204 before the static stage, so an OPTIONS request never reaches the gate; the method `Other` of the model stands for the methods other than GET, HEAD and OPTIONS. `express.json` refuses oversized or malformed JSON bodies before the gate. The model covers requests that reach line 24.
- File serving by `express.static` and `res.sendFile` is not modelled: the bytes, ETag, Last-Modified, `Cache-Control: max-age`, conditional (304) and range (206) responses, HEAD bodies, directory redirects and dotfile rules. A static hit is the symbolic reply `ServeFile(path)` with status 200. `publicFiles` is the set of paths the static middleware answers. A missing `public/index.html` is not modelled either.
- Server.NotFound: for a `NotHandled` outcome the headers `Handle` promises are the ones server.js set. They are not the ones sent: Express's final 404 handler replaces the `Content-Security-Policy` of server.js:36 with `default-src 'none'`, and that replacement is not modelled.
- Server.Response: only the headers set in server.js are modelled. Headers that the framework and the libraries add (`Content-Type`, CORS headers, the 404 responder's own `Content-Security-Policy`) are not.
- Parsing of `req.path` and `req.query` from the raw URL is not modelled. The path and the `loader` value arrive already parsed. A repeated `loader` parameter, which the framework parses as an array, must be given as None: it is never the string "true".
- IsBot: case is folded for ASCII only, with no Unicode case folding. The pattern has no `u` flag, and such a pattern never canonicalizes a non-ASCII character to an ASCII one, so the ASCII fold makes the same decisions for the ASCII tokens.
- CountryCode: `toUpperCase` is modelled as ASCII upper-casing. Full Unicode upper-casing gives a different string for some non-ASCII input. No such input upper-cases to exactly "UNKNOWN" or "JP", so the country decision is the same.
- LoaderRouteMatches: follows the defaults of Express 4 routing, where matching ignores case and allows a trailing slash, and `app.get("*")` matches every path. Other versions and settings of the framework are not modelled.
- Methods other than GET and HEAD that pass every filter get the opaque reply `NotHandled` with status 404. The body of that response is not modelled.
- Server startup, the `PORT` environment variable and logging (server.js:118-121) are process I/O and are not modelled.
