/** The middleware chain of server.js as the framework runs it: each
    middleware receives the shared response object, either ends the request
    by sending on it or hands on to the next one, and the routes come last.
    `Handle` runs the whole chain and is proved to produce the decision of
    `EdgeGate.Gate`. */
module Server {
  import opened Text
  import opened EdgeGate

  /** The part of the response object the chain writes: the status code,
      the headers set by the middleware of this file, and what was sent.
      Nothing has been sent while `sent` is None. */
  class Response {
    var statusCode: nat
    var headers: map<string, string>
    var sent: Option<Reply>

    /** A fresh response: status 200, no headers, nothing sent. */
    constructor ()
      ensures statusCode == 200 && headers == map[] && sent == None
    {
      statusCode := 200;
      headers := map[];
      sent := None;
    }

    /** `res.setHeader(name, value)`; allowed only before anything is sent. */
    method SetHeader(name: string, value: string)
      requires sent.None?
      modifies this
      ensures headers == old(headers)[name := value]
      ensures statusCode == old(statusCode) && sent == old(sent)
    {
      headers := headers[name := value];
    }

    /** `res.status(code)`. */
    method Status(code: nat)
      modifies this
      ensures statusCode == code
      ensures headers == old(headers) && sent == old(sent)
    {
      statusCode := code;
    }

    /** `res.send`, `res.json` or `res.sendFile`: ends the request. */
    method Send(reply: Reply)
      requires sent.None?
      modifies this
      ensures sent == Some(reply)
      ensures statusCode == old(statusCode) && headers == old(headers)
    {
      sent := Some(reply);
    }
  }

  /** The two headers of the header middleware. */
  function FrameHeaders(): (h: map<string, string>)
    ensures h.Keys == {FrameOptionsHeader, CspHeader}
    ensures h[FrameOptionsHeader] == "ALLOWALL" && h[CspHeader] == "frame-ancestors *"
  {
    map[FrameOptionsHeader := FrameOptionsValue, CspHeader := CspValue]
  }

  /** `res.status(403).send(message)`. */
  method Refuse(res: Response, message: string)
    requires res.sent.None?
    modifies res
    ensures res.statusCode == 403 && res.sent == Some(Rejected(message))
    ensures res.headers == old(res.headers)
  {
    res.Status(403);
    res.Send(Rejected(message));
  }

  /** The static middleware: a GET or HEAD for a public path is answered
      with the file; anything else is handed on untouched. */
  method StaticFiles(req: Request, publicFiles: set<string>, res: Response) returns (next: bool)
    requires res.sent.None?
    modifies res
    ensures next <==> !StaticHit(req, publicFiles)
    ensures next ==> res.sent == None && res.statusCode == old(res.statusCode)
    ensures !next ==> res.sent == Some(ServeFile(req.path)) && res.statusCode == 200
    ensures res.headers == old(res.headers)
  {
    if (req.verb == Get || req.verb == Head) && req.path in publicFiles {
      res.Status(200);
      res.Send(ServeFile(req.path));
      return false;
    }
    return true;
  }

  /** The header middleware: sets the two frame headers and hands on. */
  method SecurityHeaders(res: Response)
    requires res.sent.None?
    modifies res
    ensures res.headers == old(res.headers) + FrameHeaders()
    ensures res.sent == None && res.statusCode == old(res.statusCode)
  {
    res.SetHeader(FrameOptionsHeader, FrameOptionsValue);
    res.SetHeader(CspHeader, CspValue);
    assert res.headers == old(res.headers) + FrameHeaders();
  }

  /** The bot middleware. */
  method BotBlock(req: Request, res: Response) returns (next: bool)
    requires res.sent.None?
    modifies res
    ensures next <==> BotStage(req.userAgent) == Pass
    ensures next ==> res.sent == None && res.statusCode == old(res.statusCode)
    ensures !next ==> res.sent == Some(Rejected(BotsMessage)) && res.statusCode == 403
    ensures res.headers == old(res.headers)
  {
    var ua := OrDefault(req.userAgent, "");
    if IsBot(ua) {
      Refuse(res, BotsMessage);
      return false;
    }
    return true;
  }

  /** The country middleware. */
  method CountryBlock(req: Request, res: Response) returns (next: bool)
    requires res.sent.None?
    modifies res
    ensures next <==> CountryStage(req.country) == Pass
    ensures next ==> res.sent == None && res.statusCode == old(res.statusCode)
    ensures !next ==> res.sent == Some(Rejected(CountryMessage)) && res.statusCode == 403
    ensures res.headers == old(res.headers)
  {
    var country := ToUpper(OrDefault(req.country, UnknownCountry));
    if country == UnknownCountry {
      return true;
    }
    if country !in AllowedCountries {
      Refuse(res, CountryMessage);
      return false;
    }
    return true;
  }

  /** The access-control middleware: exempt paths, then the Referer, then
      the choice of refusal message. */
  method AccessControl(req: Request, res: Response) returns (next: bool)
    requires res.sent.None?
    modifies res
    ensures next <==> OriginStage(req.path, req.referer, req.loader) == Pass
    ensures next ==> res.sent == None && res.statusCode == old(res.statusCode)
    ensures !next ==> res.sent == Some(Rejected(OriginStage(req.path, req.referer, req.loader).message))
    ensures !next ==> res.statusCode == 403
    ensures res.headers == old(res.headers)
  {
    var p := req.path;
    if IsAssetPath(p) {
      return true;
    }
    if p == LoaderPath {
      return true;
    }
    var referer := OrDefault(req.referer, "");
    if StartsWith(referer, AllowedOrigin) {
      return true;
    }
    if req.loader == Some("true") {
      Refuse(res, LoaderBlockedMessage);
      return false;
    }
    Refuse(res, DirectAccessMessage);
    return false;
  }

  /** `app.get("/frontend-loader")`. */
  method FrontendLoader(req: Request, res: Response) returns (handled: bool)
    requires res.sent.None?
    modifies res
    ensures handled <==> IsReadMethod(req.verb) && LoaderRouteMatches(req.path)
    ensures handled ==> res.sent == Some(LoaderJson)
    ensures !handled ==> res.sent == None
    ensures res.statusCode == old(res.statusCode) && res.headers == old(res.headers)
  {
    if IsReadMethod(req.verb) && LoaderRouteMatches(req.path) {
      res.Send(LoaderJson);
      return true;
    }
    return false;
  }

  /** `app.get("*")`: the index document for every GET or HEAD. */
  method SpaFallback(req: Request, res: Response) returns (handled: bool)
    requires res.sent.None?
    modifies res
    ensures handled <==> IsReadMethod(req.verb)
    ensures handled ==> res.sent == Some(IndexDocument)
    ensures !handled ==> res.sent == None
    ensures res.statusCode == old(res.statusCode) && res.headers == old(res.headers)
  {
    if IsReadMethod(req.verb) {
      res.Send(IndexDocument);
      return true;
    }
    return false;
  }

  /** The framework's answer when no route took the request. */
  method NotFound(res: Response)
    requires res.sent.None?
    modifies res
    ensures res.statusCode == 404 && res.sent == Some(NotHandled)
    ensures res.headers == old(res.headers)
  {
    res.Status(404);
    res.Send(NotHandled);
  }

  /** The application: every middleware in registration order, each one
      continuing only when the previous one handed on. It writes nothing but
      the response, and what it writes is `Gate` of the request. */
  method Handle(req: Request, publicFiles: set<string>, res: Response)
    requires res.sent.None? && res.statusCode == 200
    modifies res
    ensures var o := Gate(req, publicFiles);
      res.statusCode == o.status && res.sent == Some(o.reply) &&
      res.headers == if o.frameHeaders then old(res.headers) + FrameHeaders() else old(res.headers)
  {
    var next := StaticFiles(req, publicFiles, res);
    if !next {
      return;
    }
    SecurityHeaders(res);
    next := BotBlock(req, res);
    if !next {
      return;
    }
    next := CountryBlock(req, res);
    if !next {
      return;
    }
    next := AccessControl(req, res);
    if !next {
      return;
    }
    var handled := FrontendLoader(req, res);
    if handled {
      return;
    }
    handled := SpaFallback(req, res);
    if handled {
      return;
    }
    NotFound(res);
  }

  /** Two identical requests, each on a fresh response, are answered
      identically. */
  method HandleTwice(req: Request, publicFiles: set<string>) returns (first: Response, second: Response)
    ensures fresh(first) && fresh(second) && first != second
    ensures first.statusCode == second.statusCode && first.sent == second.sent && first.headers == second.headers
    ensures first.sent == Some(Gate(req, publicFiles).reply)
  {
    first := new Response();
    Handle(req, publicFiles, first);
    second := new Response();
    Handle(req, publicFiles, second);
  }
}
