/**
 * WebServer.go: the server's route table (the `http.ServeMux` it wraps),
 * the constructor with its two built-in routes, route registration, the
 * reverse-proxy director that rewrites a request in place, and the
 * `/ws/<ver>/<pattern>/` prefix under which controllers are served.
 */
module Server {
  import opened Wrappers
  import opened GoText
  import opened GoHttp
  import opened Controllers
  import opened Functions

  /** What a registered pattern serves. */
  datatype Route =
    | StaticFiles(stripPrefix: string, dir: string)  // http.StripPrefix over http.FileServer
    | PingRoute                                      // writes "pong"
    | LocalAlias(path: string)                       // rewrites the path, then re-dispatches
    | RemoteProxy(target: Url)                       // httputil.ReverseProxy with the director below
    | ControllerRoute(ctrl: Controller)              // invokeCtrlMethod on the controller

  /** The routes every new server starts with. */
  const DefaultRoutes: map<string, Route> := map[
    "/includes/" := StaticFiles("/includes", "./includes"),
    "/ping" := PingRoute]

  const ZeroValuedParameter := "parameter can't be zero-valued"
  const ZeroValuedParameters := "parameters can't be zero-valued"

  /** `WebServer`: the mux's pattern table and the listen address. */
  class WebServer {
    var routes: map<string, Route>
    const addrWithPort: string

    constructor (addrWithPort: string)
      ensures this.addrWithPort == addrWithPort && routes == map[]
    {
      this.addrWithPort := addrWithPort;
      routes := map[];
    }

    /** `mux.Handle` / `mux.HandleFunc`: an empty pattern and a pattern
        registered twice make the mux panic; otherwise the pattern is added
        and the other routes are kept. */
    method Handle(pattern: string, route: Route) returns (outcome: Outcome)
      modifies this
      ensures pattern == "" ==> outcome == Panicked("http: invalid pattern") && routes == old(routes)
      ensures pattern != "" && pattern in old(routes) ==>
        outcome == Panicked("http: multiple registrations for " + pattern) && routes == old(routes)
      ensures pattern != "" && pattern !in old(routes) ==>
        outcome == Returned && routes == old(routes)[pattern := route]
    {
      if pattern == "" {
        return Panicked("http: invalid pattern");
      }
      if pattern in routes {
        return Panicked("http: multiple registrations for " + pattern);
      }
      routes := routes[pattern := route];
      return Returned;
    }

    /** `RegisterLocalRoute`: serve `pattern` as if `path` had been asked for. */
    method RegisterLocalRoute(pattern: string, path: string) returns (outcome: Outcome)
      modifies this
      ensures pattern != "" && pattern !in old(routes) ==>
        outcome == Returned && routes == old(routes)[pattern := LocalAlias(path)]
      ensures pattern == "" || pattern in old(routes) ==> outcome.Panicked? && routes == old(routes)
    {
      outcome := Handle(pattern, LocalAlias(path));
    }

    /** `RegisterRemoteRoute`: proxy `pattern` to `remoteUrl`. The parse
        error is dropped, so an unparsable URL leaves `target` nil and the
        read of its query panics before anything is registered. */
    method RegisterRemoteRoute(pattern: string, remoteUrl: string, parseUrl: string -> Option<Url>)
      returns (outcome: Outcome)
      modifies this
      ensures parseUrl(remoteUrl).None? ==>
        outcome == Panicked(NilDereference) && routes == old(routes)
      ensures parseUrl(remoteUrl).Some? && pattern != "" && pattern !in old(routes) ==>
        outcome == Returned && routes == old(routes)[pattern := RemoteProxy(parseUrl(remoteUrl).value)]
      ensures parseUrl(remoteUrl).Some? && (pattern == "" || pattern in old(routes)) ==>
        outcome.Panicked? && routes == old(routes)
    {
      var target := parseUrl(remoteUrl);
      if target.None? {
        return Panicked(NilDereference);
      }
      outcome := Handle(pattern, RemoteProxy(target.value));
    }

    /** `RegisterController`: reject empty arguments and a nil controller;
        otherwise serve the controller under `/ws/<ver>/<pattern>/`. */
    method RegisterController(ctrlPattern: string, ctrlVer: string, ctrl: Controller?)
      returns (err: Option<string>, outcome: Outcome)
      modifies this
      ensures ctrlPattern == "" || ctrlVer == "" || ctrl == null ==>
        err == Some(ZeroValuedParameters) && outcome == Returned && routes == old(routes)
      ensures ctrlPattern != "" && ctrlVer != "" && ctrl != null ==>
        var prefix := ControllerPrefix(ctrlVer, ctrlPattern);
        && (prefix !in old(routes) ==>
              err == None && outcome == Returned && routes == old(routes)[prefix := ControllerRoute(ctrl)])
        && (prefix in old(routes) ==> outcome.Panicked? && routes == old(routes))
    {
      if ctrlPattern == "" || ctrlVer == "" || ctrl == null {
        return Some(ZeroValuedParameters), Returned;
      }
      outcome := Handle("/ws/" + ctrlVer + "/" + ctrlPattern + "/", ControllerRoute(ctrl));
      err := None;
    }
  }

  /** `NewWebServer`: an empty address is rejected; otherwise a server
      with the address and the two built-in routes. */
  method NewWebServer(addrWithPort: string) returns (ws: WebServer?, err: Option<string>)
    ensures addrWithPort == "" ==> ws == null && err == Some(ZeroValuedParameter)
    ensures addrWithPort != "" ==>
      ws != null && fresh(ws) && err == None && ws.addrWithPort == addrWithPort && ws.routes == DefaultRoutes
  {
    if addrWithPort == "" {
      return null, Some(ZeroValuedParameter);
    }
    ws := new WebServer(addrWithPort);
    var _ := ws.Handle("/includes/", StaticFiles("/includes", "./includes"));
    var _ := ws.Handle("/ping", PingRoute);
    err := None;
  }

  /** The handler registered for "/ping". */
  method ServePing(w: ResponseWriter)
    modifies w
    ensures w.body == old(w.body) + "pong" && w.header == old(w.header)
  {
    w.WriteString("pong");
  }

  /** The handler of a local route: the request path is replaced by the
      route's fixed path; nothing else in the request changes. */
  method ServeLocalAlias(path: string, r: Request)
    modifies r
    ensures r.url == old(r.url).(path := path)
    ensures r.header == old(r.header) && r.host == old(r.host) && r.remoteAddr == old(r.remoteAddr)
  {
    r.url := r.url.(path := path);
  }

  // ---------------------------------------------------------------------
  // The reverse-proxy director
  // ---------------------------------------------------------------------

  /** The query string the proxied request carries: the target's query and
      the inbound query, joined by '&' when both are present. */
  function MergeQuery(targetQuery: string, inbound: string): (r: string)
    ensures targetQuery == "" ==> r == inbound
    ensures inbound == "" ==> r == targetQuery
    ensures targetQuery != "" && inbound != "" ==>
      Split(r, '&') == Split(targetQuery, '&') + Split(inbound, '&')
  {
    if targetQuery == "" || inbound == "" then
      targetQuery + inbound
    else
      SplitConcat(targetQuery, inbound, '&');
      targetQuery + "&" + inbound
  }

  const UserAgent := "User-Agent"
  const ForwardedHost := "X-Forwarded-Host"
  const OriginHost := "X-Origin-Host"

  /** The header the director leaves on the request. A missing User-Agent
      is pinned to one empty value (so no default is sent), a present one
      is kept; the inbound host and the target host are appended to the two
      forwarding headers; every other header is untouched. */
  function DirectedHeader(h: Header, inboundHost: string, targetHost: string): (r: Header)
    ensures r.Keys == h.Keys + {UserAgent, ForwardedHost, OriginHost}
    ensures r[UserAgent] == if UserAgent in h then h[UserAgent] else [""]
    ensures r[ForwardedHost] == HeaderValues(h, ForwardedHost) + [inboundHost]
    ensures r[OriginHost] == HeaderValues(h, OriginHost) + [targetHost]
    ensures forall k :: k in h && k != UserAgent && k != ForwardedHost && k != OriginHost ==> r[k] == h[k]
  {
    var withAgent := if UserAgent in h then h else HeaderSet(h, UserAgent, "");
    HeaderAdd(HeaderAdd(withAgent, ForwardedHost, inboundHost), OriginHost, targetHost)
  }

  /** The director of `RegisterRemoteRoute`, applied to one request: the
      scheme is always "http" whatever the target's, the host is the
      target's, the path is joined under the target's path, the query is
      merged, and the header is rewritten as `DirectedHeader` says. Every
      other URL field, the request host and the remote address stay. */
  method Director(target: Url, req: Request)
    modifies req
    ensures req.url == old(req.url).(scheme := "http", host := target.host,
                                     path := SingleJoiningSlash(target.path, old(req.url.path)),
                                     rawQuery := MergeQuery(target.rawQuery, old(req.url.rawQuery)))
    ensures req.header == DirectedHeader(old(req.header), old(req.host), target.host)
    ensures req.host == old(req.host) && req.remoteAddr == old(req.remoteAddr)
  {
    var targetQuery := target.rawQuery;
    req.url := req.url.(scheme := "http");
    req.url := req.url.(host := target.host);
    req.url := req.url.(path := SingleJoiningSlash(target.path, req.url.path));
    if targetQuery == "" || req.url.rawQuery == "" {
      req.url := req.url.(rawQuery := targetQuery + req.url.rawQuery);
    } else {
      req.url := req.url.(rawQuery := targetQuery + "&" + req.url.rawQuery);
    }
    if UserAgent !in req.header {
      req.header := HeaderSet(req.header, UserAgent, "");
    }
    req.header := HeaderAdd(req.header, ForwardedHost, req.host);
    req.header := HeaderAdd(req.header, OriginHost, target.host);
  }

  // ---------------------------------------------------------------------
  // The controller prefix
  // ---------------------------------------------------------------------

  /** The pattern `RegisterController` registers. */
  function ControllerPrefix(ctrlVer: string, ctrlPattern: string): string
  {
    "/ws/" + ctrlVer + "/" + ctrlPattern + "/"
  }

  /** Every path the controller's pattern serves splits into at least five
      elements, so the dispatcher never answers it with the parameter-count
      error and never indexes element 4 out of range. */
  lemma ControllerPrefixReachesMethod(ctrlVer: string, ctrlPattern: string, rest: string,
                                      methods: map<string, Signature>)
    ensures |Split(ControllerPrefix(ctrlVer, ctrlPattern) + rest, '/')| >= 5
    ensures !PlanFor(ControllerPrefix(ctrlVer, ctrlPattern) + rest, methods).InvalidParams?
    ensures !PlanFor(ControllerPrefix(ctrlVer, ctrlPattern) + rest, methods).IndexOutOfRange?
  {
    var path := ControllerPrefix(ctrlVer, ctrlPattern) + rest;
    assert path == "/ws/" + (ctrlVer + ("/" + (ctrlPattern + ("/" + rest))));
    CountConcat("/ws/", ctrlVer + ("/" + (ctrlPattern + ("/" + rest))), '/');
    CountConcat(ctrlVer, "/" + (ctrlPattern + ("/" + rest)), '/');
    CountConcat("/", ctrlPattern + ("/" + rest), '/');
    CountConcat(ctrlPattern, "/" + rest, '/');
    CountConcat("/", rest, '/');
    assert Count("/ws/", '/') == 2;
    SplitLength(path, '/');
  }

  /** With a slash-free version and pattern, what follows the prefix is
      the method selector and its arguments: the path's elements are "",
      "ws", the version, the pattern, then the pieces of the rest. */
  lemma ControllerPrefixElements(ctrlVer: string, ctrlPattern: string, rest: string)
    requires '/' !in ctrlVer && '/' !in ctrlPattern
    ensures Split(ControllerPrefix(ctrlVer, ctrlPattern) + rest, '/')
         == ["", "ws", ctrlVer, ctrlPattern] + Split(rest, '/')
  {
    var t3 := ctrlPattern + "/" + rest;
    var t2 := ctrlVer + "/" + t3;
    var t1 := "ws" + "/" + t2;
    assert ControllerPrefix(ctrlVer, ctrlPattern) + rest == [] + "/" + t1;
    SplitAfterSegment(ctrlPattern, rest);
    SplitAfterSegment(ctrlVer, t3);
    SplitAfterSegment("ws", t2);
    SplitAfterSegment([], t1);
  }
}
