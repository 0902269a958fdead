/** `corsMiddleware` (internal/api/middleware.go): sets three CORS headers on
    every response, answers preflight `OPTIONS` requests itself and hands
    every other request to the wrapped handler. */
module Middleware {
  import opened Go
  import opened NetHttp
  import Server

  const AllowOrigin: string := "Access-Control-Allow-Origin"
  const AllowMethods: string := "Access-Control-Allow-Methods"
  const AllowHeaders: string := "Access-Control-Allow-Headers"

  const MethodOptions: string := "OPTIONS"

  /** The response headers after the three `Header().Set` calls. */
  function CorsHeaders(h: Header): (r: Header)
    ensures r.Keys == h.Keys + {AllowOrigin, AllowMethods, AllowHeaders}
    ensures r[AllowOrigin] == ["http://localhost:3000"]
    ensures r[AllowMethods] == ["GET, OPTIONS"]
    ensures r[AllowHeaders] == ["Content-Type"]
    ensures forall k :: k in h && k != AllowOrigin && k != AllowMethods && k != AllowHeaders ==> r[k] == h[k]
  {
    h[AllowOrigin := ["http://localhost:3000"]][AllowMethods := ["GET, OPTIONS"]][AllowHeaders := ["Content-Type"]]
  }

  /** Passing through the middleware twice leaves the same headers as once. */
  lemma CorsIdempotent(h: Header)
    ensures CorsHeaders(CorsHeaders(h)) == CorsHeaders(h)
  {
  }

  /** The part of an `http.ResponseWriter` the middleware touches: the
      header map and the status code, once written. */
  class ResponseWriter {
    var header: Header
    var status: Option<int>

    constructor (h: Header)
      ensures header == h && status == None
    {
      header := h;
      status := None;
    }

    /** `Header().Set(key, value)`: the key now holds exactly that value. */
    method Set(key: string, value: string)
      modifies this
      ensures header == old(header)[key := [value]]
      ensures status == old(status)
    {
      header := header[key := [value]];
    }

    /** `WriteHeader(code)`: only the first status written counts. */
    method WriteHeader(code: int)
      modifies this
      ensures header == old(header)
      ensures status == if old(status).None? then Some(code) else old(status)
    {
      if status.None? {
        status := Some(code);
      }
    }
  }

  /** The wrapped handler. What it does to the response is not modelled; it
      records each call it receives. */
  class Handler {
    var served: seq<(ResponseWriter, Server.Request)>

    constructor ()
      ensures served == []
    {
      served := [];
    }

    method ServeHTTP(w: ResponseWriter, r: Server.Request)
      modifies this
      ensures served == old(served) + [(w, r)]
    {
      served := served + [(w, r)];
    }
  }

  /** The handler `corsMiddleware(next)` returns, applied to `w` and `r`. */
  method Cors(next: Handler, w: ResponseWriter, r: Server.Request)
    modifies w, next
    ensures w.header == CorsHeaders(old(w.header))
    ensures r.httpMethod == MethodOptions ==>
              w.status == (if old(w.status).None? then Some(Server.StatusOK) else old(w.status)) &&
              next.served == old(next.served)
    ensures r.httpMethod != MethodOptions ==>
              w.status == old(w.status) && next.served == old(next.served) + [(w, r)]
  {
    w.Set(AllowOrigin, "http://localhost:3000");
    w.Set(AllowMethods, "GET, OPTIONS");
    w.Set(AllowHeaders, "Content-Type");
    if r.httpMethod == MethodOptions {
      w.WriteHeader(Server.StatusOK);
      return;
    }
    next.ServeHTTP(w, r);
  }
}
