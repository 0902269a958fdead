/** The HTTP layer of package `api` (internal/api/server.go): the per-scanner
    handler, the `/health` answer, the route table and the listen address.
    Network I/O, JSON encoding and the global mux are not modelled; a
    reply is a value. */
module Server {
  import opened Go
  import opened NetHttp
  import Scanner
  import Decimal
  import Strings
  import HeaderScanner
  import SslScanner

  /** `ScanResult`, the JSON body of a successful `/scan/...` reply. */
  datatype ScanResult = ScanResult(scanner: string, domain: string, result: string)

  /** `HealthResult`, the JSON body of `/health`. */
  datatype HealthResult = HealthResult(status: string)

  /** `Server`: the listen port and the scanners. */
  datatype Server = Server(port: int, scanners: seq<Scanner.Kind>)

  /** The parts of an `http.Request` the handlers read. */
  datatype Request = Request(httpMethod: string, path: string, query: Header)

  datatype Body = Text(text: string) | ScanJson(scan: ScanResult) | HealthJson(health: HealthResult)

  /** What the client receives: a reply with status code, content type and
      body, or nothing, when the handler panicked and net/http aborted the
      connection. */
  datatype Reply = Reply(status: int, contentType: string, body: Body) | Aborted(panic: string)

  const StatusOK: int := 200
  const StatusBadRequest: int := 400
  const StatusInternalServerError: int := 500

  const DomainRequired: string := "paramètre 'domain' requis"

  /** `http.Error`: a plain-text reply holding the message and a line break. */
  function HttpError(message: string, code: int): (reply: Reply)
    ensures reply.Reply? && reply.status == code
    ensures reply.contentType == "text/plain; charset=utf-8"
    ensures reply.body.Text? && Strings.Strip(reply.body.text, "", "\n") == Some(message)
  {
    Strings.StripFramed("", message, "\n");
    assert "" + message + "\n" == message + "\n";
    Reply(code, "text/plain; charset=utf-8", Text(message + "\n"))
  }

  /** A scanner's `Scan`, which may also panic. */
  type ScanFunction = string -> Run<Ret<string>>

  /** The handler `makeScanHandler(name, s)` returns. */
  function HandleScan(name: string, scan: ScanFunction, req: Request): (reply: Reply)
    ensures Get(req.query, "domain") == "" ==> reply == HttpError(DomainRequired, StatusBadRequest)
    ensures reply.Reply? && reply.status == StatusOK <==>
              Get(req.query, "domain") != "" && scan(Get(req.query, "domain")).Returned? &&
              scan(Get(req.query, "domain")).value.err.None?
    ensures reply.Reply? && reply.status == StatusOK ==>
              reply.contentType == "application/json" &&
              reply.body == ScanJson(ScanResult(name, Get(req.query, "domain"),
                                                scan(Get(req.query, "domain")).value.value))
    ensures reply.Reply? && reply.status != StatusOK ==> reply.body.Text?
    ensures Get(req.query, "domain") != "" && scan(Get(req.query, "domain")).Panicked? ==>
              reply == Aborted(scan(Get(req.query, "domain")).message)
    ensures Get(req.query, "domain") != "" && scan(Get(req.query, "domain")).Returned? &&
            scan(Get(req.query, "domain")).value.err.Some? ==>
              reply == HttpError(scan(Get(req.query, "domain")).value.err.value, StatusInternalServerError)
  {
    var domain := Get(req.query, "domain");
    if domain == "" then HttpError(DomainRequired, StatusBadRequest)
    else
      match scan(domain)
      case Panicked(p) => Aborted(p)
      case Returned(Ret(result, err)) =>
        if err.Some? then HttpError(err.value, StatusInternalServerError)
        else Reply(StatusOK, "application/json", ScanJson(ScanResult(name, domain, result)))
  }

  /** Without a `domain` parameter the reply is 400 whatever the scanner:
      the scanner is not consulted. */
  lemma MissingDomainSkipsScan(name: string, scan1: ScanFunction, scan2: ScanFunction, req: Request)
    requires Get(req.query, "domain") == ""
    ensures HandleScan(name, scan1, req) == HandleScan(name, scan2, req)
  {
  }

  /** A scan error becomes a 500 reply carrying the error's text. */
  lemma ScanErrorIs500(name: string, scan: ScanFunction, req: Request, text: string, m: string)
    requires Get(req.query, "domain") != ""
    requires scan(Get(req.query, "domain")) == Returned(Ret(text, Some(m)))
    ensures HandleScan(name, scan, req) == HttpError(m, StatusInternalServerError)
  {
  }

  /** The `scanner` field is the name the handler was made with, not one
      obtained from the scanner. */
  lemma NameIsCaptured(name: string, scan: ScanFunction, req: Request)
    requires HandleScan(name, scan, req).Reply? && HandleScan(name, scan, req).body.ScanJson?
    ensures HandleScan(name, scan, req).body.scan.scanner == name
    ensures HandleScan(name, scan, req).body.scan.domain == Get(req.query, "domain")
  {
  }

  /** The `/health` handler. */
  function Health(req: Request): (reply: Reply)
    ensures reply.Reply? && reply.status == StatusOK && reply.contentType == "application/json"
    ensures reply.body.HealthJson? && reply.body.health.status == "ok"
  {
    Reply(StatusOK, "application/json", HealthJson(HealthResult("ok")))
  }

  /** `/health` answers `{"status":"ok"}` to every request. */
  lemma HealthAlwaysOk(r1: Request, r2: Request)
    ensures Health(r1) == Health(r2)
    ensures Health(r1).Reply? && Health(r1).status == StatusOK
    ensures Health(r1).body == HealthJson(HealthResult("ok"))
  {
  }

  /** A `/scan/...` registration: the pattern, the name given to
      `makeScanHandler` and the scanner passed with it. */
  datatype Route = Route(pattern: string, name: string, scanner: Scanner.Kind)

  const HealthPattern: string := "/health"

  const ScanRoutes: seq<Route> := [
    Route("/scan/dns", "dns", Scanner.Dns),
    Route("/scan/ssl", "ssl", Scanner.Ssl),
    Route("/scan/header", "header", Scanner.Header),
    Route("/scan/sensitive", "sensitive", Scanner.Sensitive),
    Route("/scan/subdomain", "subdomain", Scanner.Subdomain)
  ]

  /** The route registered for an exact path. */
  function Lookup(routes: seq<Route>, path: string): (r: Option<Route>)
    ensures r.Some? ==> r.value in routes && r.value.pattern == path
    ensures r.None? ==> forall i :: 0 <= i < |routes| ==> routes[i].pattern != path
  {
    if routes == [] then None
    else if routes[0].pattern == path then Some(routes[0])
    else Lookup(routes[1..], path)
  }

  /** The routes are registered in the order of `Scanner.AllKinds`, each
      under its scanner's `Name()` and the pattern "/scan/" + that name. */
  lemma RouteNames(i: nat)
    requires i < |ScanRoutes|
    ensures |ScanRoutes| == |Scanner.AllKinds|
    ensures ScanRoutes[i].scanner == Scanner.AllKinds[i]
    ensures ScanRoutes[i].name == Scanner.Name(ScanRoutes[i].scanner)
    ensures ScanRoutes[i].pattern == "/scan/" + ScanRoutes[i].name
  {
    if i == 0 {
      assert ScanRoutes[0] == Route("/scan/dns", "dns", Scanner.Dns);
    } else if i == 1 {
      assert ScanRoutes[1] == Route("/scan/ssl", "ssl", Scanner.Ssl);
    } else if i == 2 {
      assert ScanRoutes[2] == Route("/scan/header", "header", Scanner.Header);
    } else if i == 3 {
      assert ScanRoutes[3] == Route("/scan/sensitive", "sensitive", Scanner.Sensitive);
    } else {
      assert ScanRoutes[4] == Route("/scan/subdomain", "subdomain", Scanner.Subdomain);
    }
  }

  /** No pattern is registered twice (which `http.HandleFunc` would reject
      with a panic), and none collides with `/health`. */
  lemma PatternsDistinct(i: nat, j: nat)
    requires i < j < |ScanRoutes|
    ensures ScanRoutes[i].pattern != ScanRoutes[j].pattern
    ensures ScanRoutes[i].pattern != HealthPattern
  {
    RouteNames(i);
    RouteNames(j);
    Scanner.NamesDistinct();
    var p, q := ScanRoutes[i].pattern, ScanRoutes[j].pattern;
    assert p[6..] == ScanRoutes[i].name;
    assert q[6..] == ScanRoutes[j].name;
    assert p[1] == 's' && HealthPattern[1] == 'h';
  }

  lemma {:induction false} LookupFinds(routes: seq<Route>, i: nat, path: string)
    requires i < |routes| && routes[i].pattern == path
    requires forall j :: 0 <= j < i ==> routes[j].pattern != path
    ensures Lookup(routes, path) == Some(routes[i])
    decreases i
  {
    if i > 0 {
      LookupFinds(routes[1..], i - 1, path);
    }
  }

  /** Every scanner is reachable at "/scan/" + its name. */
  lemma EveryScannerRouted(k: Scanner.Kind)
    ensures Lookup(ScanRoutes, "/scan/" + Scanner.Name(k)) ==
              Some(Route("/scan/" + Scanner.Name(k), Scanner.Name(k), k))
  {
    Scanner.NameIdentifies(k);
    var i :| 0 <= i < |Scanner.AllKinds| && Scanner.AllKinds[i] == k;
    RouteNames(i);
    forall j | 0 <= j < i ensures ScanRoutes[j].pattern != "/scan/" + Scanner.Name(k) {
      PatternsDistinct(j, i);
    }
    LookupFinds(ScanRoutes, i, "/scan/" + Scanner.Name(k));
  }

  /** `fmt.Sprintf(":%d", s.Port)`: a colon and then the port in decimal,
      which reads back as the port. */
  function ListenAddress(port: int): (a: string)
    ensures |a| >= 2 && a[0] == ':'
    ensures Decimal.ParseInt(a[1..]) == Some(port)
  {
    var a := ":" + Decimal.IntToString(port);
    assert a[1..] == Decimal.IntToString(port);
    Decimal.IntToStringRoundTrip(port);
    a
  }

  /** `/scan/ssl` when the dial answers with an empty certificate chain
      (which `tls.Dial` does not return on success, as crypto/tls rejects
      an empty certificate message): the unguarded index panics, and the
      client gets no reply at all. */
  lemma EmptyChainAbortsSslRequest(dial: SslScanner.Dialer, req: Request)
    requires Get(req.query, "domain") != ""
    requires dial(SslScanner.Address(Get(req.query, "domain"))) == Answered(SslScanner.ConnectionState([]))
    ensures HandleScan("ssl", d => SslScanner.Scan(d, dial), req) == Aborted(SslScanner.IndexPanic)
  {
  }

  /** `/scan/header` against a host that answers: a 200 JSON reply whose
      result is the formatted security headers. */
  lemma HeaderRouteReportsHeaders(get: Client, req: Request)
    requires Get(req.query, "domain") != ""
    requires get(HeaderScanner.Url(Get(req.query, "domain"))).Answered?
    ensures var domain := Get(req.query, "domain");
            HandleScan("header", d => Returned(HeaderScanner.Scan(d, get)), req) ==
              Reply(StatusOK, "application/json",
                    ScanJson(ScanResult("header", domain,
                                        HeaderScanner.Format(get(HeaderScanner.Url(domain)).value.header))))
  {
  }
}
