/** The values the scanners receive from the network. The network calls
    themselves (`net.LookupIP`, `tls.Dial`, `http.Get`) are not modelled:
    each scanner takes the call as a function from its argument to the
    answer the network gave. */
module NetHttp {

  /** The outcome of one network call: a transport-level failure with the
      error's text, or the value the call produced. */
  datatype Answer<T> = Failed(message: string) | Answered(value: T)

  newtype byte = b: int | 0 <= b < 256

  /** `http.Header` (also `url.Values`): each key maps to its list of
      values. Keys are taken to be in canonical form already. */
  type Header = map<string, seq<string>>

  /** `Header.Get` / `Values.Get`: the first value stored under `key`, or ""
      when there is none. */
  function Get(h: Header, key: string): (v: string)
    ensures key !in h || h[key] == [] ==> v == ""
    ensures key in h && h[key] != [] ==> v == h[key][0]
  {
    if key in h && |h[key]| > 0 then h[key][0] else ""
  }

  /** The outcome of reading a response body in full (`io.ReadAll`). */
  datatype Body = ReadFailed(message: string) | Bytes(data: seq<byte>)

  /** An `http.Response`: `statusCode` is the number, `status` the text of
      the status line such as "200 OK". */
  datatype Response = Response(statusCode: int, status: string, header: Header, body: Body)

  /** `http.Get` as a function of the URL. */
  type Client = string -> Answer<Response>
}
