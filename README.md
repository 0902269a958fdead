# Domain reconnaissance service — a Dafny model

The system is a small service written in Go. It takes a domain name and runs
five scanners against it:

- **dns** resolves the domain's IP addresses.
- **ssl** reads the leaf TLS certificate.
- **header** reports three HTTP security headers.
- **sensitive** probes six well-known file paths.
- **subdomain** lists the names in crt.sh certificate-transparency entries.

Each scanner sits behind an HTTP route `/scan/<name>?domain=…`, next to
`/health`. The repository also holds:

- a CORS middleware;
- environment-variable helpers;
- two copies of a checked integer addition;
- a `User` greeting;
- the front end's domain-validation regular expression, in TypeScript.

This project models each of these files as a Dafny module:

| file | module | form |
|---|---|---|
| go.dfy | `Go` | Go's `(T, error)` pair `Ret`, panics `Run`, 64-bit `int` with wrap-around |
| nethttp.dfy | `NetHttp` | `http.Header` with `Get`, responses, bodies, and an HTTP client as a function |
| decimal.dfy | `Decimal` | decimal rendering and zero padding (`%d`, `02`, `2006`) with read-back |
| strings.dfy | `Strings` | `strings.Split`-style splitting and prefix/suffix stripping, used to state read-back |
| scanner.dfy | `Scanner` | the five scanners, their names, the `Scanner` interface and `Result` |
| dns.dfy, ssl.dfy, header.dfy, sensitive.dfy, subdomain.dfy | one per scanner | each `Scan` |
| server.dfy | `Server` | `makeScanHandler`, the `/health` handler, the route table, the listen address |
| middleware.dfy | `Middleware` | `corsMiddleware`, written over a `ResponseWriter` class |
| env.dfy | `Config` | `GetEnv`, `RequireEnv` |
| calculator.dfy, program.dfy | `Calculator`, `Program` | the two `Add`s |
| user.dfy | `User` | `User.Greet` |
| validation.dfy | `Validation` | `isValidDomain`, as an automaton proved equal to the regular expression |

## How outside calls are modelled

Network calls are function parameters, so every property holds for every
possible answer:

- `http.Get` is a `Client`, of type `string -> Answer<Response>`. A `Failed`
  answer is a transport error.
- `net.LookupIP` is a `Resolver`.
- `tls.Dial` is a `Dialer`.
- `json.Unmarshal` of the crt.sh body is an `Unmarshal` parameter.

The process environment is a `map<string, string>`.

### Loops

Where the source loops, the model is a method whose loop is proved against a
function:

- `SensitiveScanner.Scan` walks the paths.
- `DnsScanner.Scan` joins the addresses.
- `SubdomainScanner.Scan` builds a set from the entries, then iterates over a
  Go map.

### Subdomain order

Go visits map keys in an unspecified order. The subdomain method therefore
picks any remaining key (`:|`). Its specification is a relation: the text
lists every distinct name exactly once, in some order.

### Panics

A Go panic is a `Run.Panicked` value. This covers `RequireEnv` and the SSL
scanner's unchecked `[0]` indexes. The HTTP handler turns a panic into
`Aborted`, modelling net/http recovering the handler and dropping the
connection.

### How the code differs from its own description

The model follows the code in each case:

- `DNSScanner.Scan` returns only a `string`, with the error folded into the
  text. All other scanners return `(string, error)`, and `dns_test.go` expects
  a pair. So `DNSScanner` does not satisfy the `Scanner` interface
  (`Scanner.ImplementsScanner`), although `server.go:101` registers it as one.
- `Server`, `HealthResult` and `ScanResult` are declared twice in the
  package: once in `models.go` and once in `server.go`. The model declares
  each once, in `Server`.
- `corsMiddleware` is defined but never wrapped around any route in `Start`.
  It is modelled on its own.
- Nothing in the code runs the scanners concurrently. The comments mention
  goroutines, but no fan-out is modelled.
- `Add` works on Go's 64-bit `int` and wraps around on overflow. So
  `Add(MaxInt64, 1)` reports "retour négatif" for a mathematically positive
  sum, and `Add(MinInt64, -1)` succeeds.

## Model

| member | source | states |
|---|---|---|
| Go.Wrap64 | internal/calculator/calculator.go:6 | Go's `+` on `int`: in range it is the exact sum; always congruent to it modulo 2^64 |
| NetHttp.Get | internal/scanner/header.go:30-35 | `Header.Get`: the first value of a present key, "" for an absent key or empty list |
| Decimal.NatToStringRoundTrip | internal/api/server.go:118 | the decimal rendering of a natural reads back to the same number |
| Decimal.NatToStringLength | internal/scanner/ssl.go:35 | a number below 10^w renders in at most w digits |
| Decimal.DigitsValueAppend | internal/scanner/ssl.go:35 | the value of concatenated digit strings is the first shifted by the second's length plus the second |
| Decimal.PadRoundTrip | internal/scanner/ssl.go:35 | a zero-padded field reads back to the padded number |
| Decimal.PadLength | internal/scanner/ssl.go:35 | a number below 10^w pads to exactly w digits |
| Decimal.IntToString | internal/api/server.go:118 | `%d` of an int is non-empty and starts with '-' exactly for negatives |
| Decimal.IntToStringRoundTrip | internal/api/server.go:118 | `%d` of any int reads back to that int |
| Scanner.Name | internal/scanner/dns.go:9 | each scanner's `Name()` is a lower-case word of at least three letters, so "/scan/" + name is a one-segment path (the other four are ssl.go:12, header.go:12, sensitive.go:12, subdomain.go:21) |
| Scanner.KindNamed | internal/scanner/scanner.go:5-8 | a found scanner carries the name looked up; none found means no scanner has that name |
| Scanner.NameIdentifies | internal/scanner/scanner.go:7 | each scanner's `Name()` identifies it, and it is among the five |
| Scanner.NamesDistinct | internal/scanner/scanner.go:7 | the five `Name()` values are pairwise different |
| DnsScanner.Scan | internal/scanner/dns.go:13-28 | the loop builds "Ips pour D: " followed by each address and a space, or "Erreur de DNS" and the error text |
| DnsScanner.SpacedSnoc | internal/scanner/dns.go:24-26 | one more loop step appends the address and a space |
| DnsScanner.SpacedSplits | internal/scanner/dns.go:24-26 | splitting the address list on spaces gives back the addresses, plus a trailing empty field |
| DnsScanner.AddressesRecoverable | internal/scanner/dns.go:23-27 | the addresses can be read back from a successful report |
| DnsScanner.NoAddresses | internal/scanner/dns.go:23-27 | with no addresses the report is just the heading |
| DnsScanner.FailureIsVisible | internal/scanner/dns.go:18-20 | a failure text starts differently from a success text and is the prefix plus the error |
| SslScanner.FormatDate | internal/scanner/ssl.go:35 | the "02/01/2006" rendering is at least ten characters, all digits or '/' |
| SslScanner.DateRoundTrip | internal/scanner/ssl.go:35 | a valid expiry date renders as ten characters "DD/MM/YYYY" and reads back to the same date |
| SslScanner.Scan | internal/scanner/ssl.go:16-36 | it panics exactly when the dial succeeds with an empty chain or an empty issuer organization; a dial failure gives "erreur SSL: " and empty text; a success is exactly the report of the first certificate's common name, first issuer organization and expiry |
| SslScanner.ReportLayout | internal/scanner/ssl.go:32-35 | the report is "Domaine: ", the name, " Émetteur: ", the issuer, " Expire: " and the date, with bars between the three labelled fields |
| SslScanner.SummaryRecoverable | internal/scanner/ssl.go:32-35 | the common name, first issuer organization and rendered expiry read back from the report when the names contain no bar character |
| SslScanner.ReportRecoverable | internal/scanner/ssl.go:28-35 | the leaf certificate's name, issuer and expiry read back from a successful scan's text |
| SslScanner.OnlyLeafMatters | internal/scanner/ssl.go:28-35 | only the leaf certificate's common name, first organization and expiry affect the result |
| SslScanner.ExpiryRecoverable | internal/scanner/ssl.go:32-35 | the expiry date can be read back from the last ten characters of the report |
| HeaderScanner.ReportLayout | internal/scanner/header.go:32 | the report is the three labelled values "HSTS: ", " CSP: " and " X-Frame-Options: " separated by bars |
| HeaderScanner.Scan | internal/scanner/header.go:16-37 | an error exactly when the request fails, with "erreur de header: " and empty text; otherwise the formatted three headers |
| HeaderScanner.OnlySecurityHeadersMatter | internal/scanner/header.go:28-36 | responses that agree on the three security headers give the same result |
| HeaderScanner.AbsentHeaders | internal/scanner/header.go:30-35 | a response without the headers reports three empty values |
| HeaderScanner.RecoverFormat | internal/scanner/header.go:32-36 | the three header values can be read back from the report when none contains a bar character |
| HeaderScanner.RecoverReport | internal/scanner/header.go:32 | reading back a report gives its three values |
| HeaderScanner.SplitReport | internal/scanner/header.go:32 | the report splits on a bar character into exactly three labelled fields |
| Strings.SplitThree | internal/scanner/header.go:32 | three texts without a bar character, joined by bars, split back into the same three |
| HeaderScanner.Framed | internal/scanner/header.go:32 | a labelled field cannot contain a bar character when its parts do not |
| SensitiveScanner.Outcome | internal/scanner/sensitive.go:16-48 | an error has empty text; a success is never empty |
| SensitiveScanner.Scan | internal/scanner/sensitive.go:24-47 | the loop gives exactly the outcome of requesting the six paths in order |
| SensitiveScanner.FailureStops | internal/scanner/sensitive.go:29-32 | the first failed request decides the result; later paths do not matter |
| SensitiveScanner.NewlinesConcat | internal/scanner/sensitive.go:37 | line breaks of a concatenation add up |
| SensitiveScanner.NoNewlines | internal/scanner/sensitive.go:37 | text without '\n' has no line breaks |
| SensitiveScanner.ProbeAnswered | internal/scanner/sensitive.go:28-40 | when every request is answered, the report is empty exactly when no path answered 200, and otherwise ends with a line break |
| SensitiveScanner.ProbeLines | internal/scanner/sensitive.go:36-38 | with clean status texts the report has one line per path answered 200 |
| SensitiveScanner.FirstFailure | internal/scanner/sensitive.go:28-32 | a failure at path k after k answers is returned as "erreur https: " + the error, with empty text |
| SensitiveScanner.NothingFoundExactly | internal/scanner/sensitive.go:42-47 | when all requests are answered, "Aucun fichier sensible trouvé" is returned exactly when no path answered 200 |
| SensitiveScanner.ExposedZero | internal/scanner/sensitive.go:36 | the number of exposed paths is zero exactly when no response has status 200 |
| SensitiveScanner.OneLinePerExposedPath | internal/scanner/sensitive.go:36-47 | the final report has one line per exposed path |
| SubdomainScanner.QueryUrlNamesDomain | internal/scanner/subdomain.go:28 | the crt.sh query URL wraps the domain between a fixed prefix and suffix, so the domain reads back |
| SubdomainScanner.Scan | internal/scanner/subdomain.go:25-62 | the error for request, read and decode failures, in order, with their prefixes and empty text; otherwise "Sous domaines: " followed by every distinct name exactly once, " , "-separated, in some order |
| SubdomainScanner.EnumerationOfNothing | internal/scanner/subdomain.go:56-59 | no names gives no keys |
| SubdomainScanner.NoNames | internal/scanner/subdomain.go:61 | with no entries the report is just "Sous domaines: " |
| SubdomainScanner.EnumerationOfOne | internal/scanner/subdomain.go:56-59 | a single name is listed once |
| SubdomainScanner.RepeatedName | internal/scanner/subdomain.go:48-61 | entries with one repeated name give a one-name report |
| SubdomainScanner.StartsWithHeading | internal/scanner/subdomain.go:61 | every listing starts with "Sous domaines: " |
| SubdomainScanner.Join | internal/scanner/subdomain.go:61 | `strings.Join`: empty for no parts, otherwise its length is the names' lengths plus one separator between each pair |
| SubdomainScanner.TotalLengthRemove | internal/scanner/subdomain.go:56-59 | total length splits off any one element |
| SubdomainScanner.MultisetRemove | internal/scanner/subdomain.go:56-59 | removing an element removes one occurrence from the multiset |
| SubdomainScanner.TotalLengthPermutation | internal/scanner/subdomain.go:56-59 | total length does not depend on order |
| SubdomainScanner.OrderKeepsLength | internal/scanner/subdomain.go:56-61 | whichever key order the map gives, the report has the same length |
| SubdomainScanner.OutcomeShape | internal/scanner/subdomain.go:31-61 | an error has empty text; a success starts with the heading |
| Server.HandleScan | internal/api/server.go:39-73 | no domain gives 400 "paramètre 'domain' requis"; 200 exactly when the scan returns without error, with the JSON `ScanResult`; a scan error gives `http.Error` with the error text and 500; a panic gives `Aborted` with the panic message |
| Server.MissingDomainSkipsScan | internal/api/server.go:43-50 | without a domain the scanner is not consulted |
| Server.ScanErrorIs500 | internal/api/server.go:53-58 | a scan error becomes a 500 carrying the error text |
| Server.NameIsCaptured | internal/api/server.go:62-66 | the JSON carries the handler's scanner name and the requested domain |
| Server.HttpError | internal/api/server.go:48 | `http.Error`: the given status, plain-text content type, and the message followed by one line break, which strips back to the message |
| Server.Health | internal/api/server.go:83-98 | the `/health` reply is 200, JSON, with status "ok" |
| Server.HealthAlwaysOk | internal/api/server.go:83-98 | `/health` answers 200 `{"status":"ok"}` to every request |
| Server.Lookup | internal/api/server.go:101-109 | a found route is registered under that exact path; none found means no route has it |
| Server.RouteNames | internal/api/server.go:101-109 | route i serves the i-th scanner, under its `Name()`, at "/scan/" + name |
| Server.PatternsDistinct | internal/api/server.go:83-109 | no pattern is registered twice, and none clashes with /health |
| Server.LookupFinds | internal/api/server.go:101-109 | lookup returns the first route with the path |
| Server.EveryScannerRouted | internal/api/server.go:101-109 | every scanner is reachable at "/scan/" + its name |
| Server.ListenAddress | internal/api/server.go:118 | ":%d" is a colon then the port in decimal, which reads back as the port |
| Server.EmptyChainAbortsSslRequest | internal/api/server.go:53 | /scan/ssl, given a dial answer with an empty certificate chain (which `tls.Dial` does not return on success), aborts with Go's index-out-of-range panic |
| Server.HeaderRouteReportsHeaders | internal/api/server.go:60-66 | /scan/header against an answering host gives 200 JSON with the formatted headers |
| Middleware.CorsHeaders | internal/api/middleware.go:10-12 | the three CORS headers get their fixed values, and every other header is kept |
| Middleware.CorsIdempotent | internal/api/middleware.go:10-12 | applying the CORS headers twice is the same as once |
| Middleware.ResponseWriter.Set | internal/api/middleware.go:10-12 | `Header().Set` replaces the key's values with the one value and leaves the status alone |
| Middleware.ResponseWriter.WriteHeader | internal/api/middleware.go:16 | only the first status written counts |
| Middleware.Handler.ServeHTTP | internal/api/middleware.go:19 | the wrapped handler receives exactly this request |
| Middleware.Cors | internal/api/middleware.go:9-20 | the headers become `CorsHeaders` of the old ones; OPTIONS writes 200 and does not call next; any other method leaves the status and calls next once with the same writer and request |
| Config.GetEnv | internal/config/env.go:11-17 | the stored value, or the fallback when the key is unset or empty |
| Config.RequireEnv | internal/config/env.go:22-29 | it panics exactly when the key is unset or empty, with "Variable d'environnement requise : " + key; otherwise it returns the non-empty value |
| Config.RequireAgreesWithGetEnv | internal/config/env.go:11-29 | when `RequireEnv` succeeds, `GetEnv` returns the same value whatever the fallback |
| Config.UnsetIsEmpty | internal/config/env.go:12-13 | an unset key and a key set to "" cannot be told apart |
| Config.PanicNamesKey | internal/config/env.go:25 | the panic message ends with the key |
| Calculator.Add | internal/calculator/calculator.go:5-11 | error "retour négatif" with 0 exactly when the wrapped sum is negative; otherwise the non-negative wrapped sum; without overflow, success exactly for a non-negative sum, with that sum |
| Calculator.AddCommutes | internal/calculator/calculator.go:5-11 | the operands can be swapped |
| Calculator.NonNegativeSum | internal/calculator/calculator.go:5-11 | non-negative operands with a sum that fits succeed with the sum |
| Calculator.OverflowReportsNegative | internal/calculator/calculator.go:6-8 | MaxInt64 + 1 wraps and is reported as negative |
| Calculator.UnderflowSucceeds | internal/calculator/calculator.go:6-10 | MinInt64 + (-1) wraps to MaxInt64 and succeeds |
| Program.Add | main.go:24-30 | an error result is 0 with "retour négatif"; a success is non-negative |
| Program.AddIsCalculatorAdd | main.go:24-30 | `add` in main.go agrees with `calculator.Add` on every input |
| Program.MainSum | main.go:15 | `add(5, 3)` returns 8 without error |
| User.Greet | internal/user/user.go:10-12 | the greeting is "Hello, I'm " followed by the name, eleven characters longer than the name |
| User.GreetIgnoresAge | internal/user/user.go:10-12 | the age does not affect the greeting |
| User.GreetDistinguishesNames | internal/user/user.go:10-12 | equal greetings mean equal names |
| User.GreetRecoversName | internal/user/user.go:11 | stripping "Hello, I'm " gives back the name |
| Validation.LastDot | web/src/utils/validation.ts:3 | the position of the last dot after the first character, or none |
| Validation.RunIsExpected | web/src/utils/validation.ts:3-7 | after any prefix, the automaton's state records validity, whether a dot was seen, and the letters since the last dot (capped at 2) |
| Validation.IsValidDomain | web/src/utils/validation.ts:5-7 | `isValidDomain` is true exactly when the domain matches the regular expression |
| Validation.AcceptsExactlyMatches | web/src/utils/validation.ts:3-7 | the automaton accepts exactly the strings matching `^[a-zA-Z0-9]([a-zA-Z0-9-]*\.)+[a-zA-Z]{2,}$` |
| Validation.AcceptedAlphabet | web/src/utils/validation.ts:3 | an accepted domain has at least four characters, starts alphanumeric, and uses only letters, digits, '-' and '.' |
| Validation.TopLevelLabel | web/src/utils/validation.ts:3 | after the last dot an accepted domain has at least two characters, all letters |
| Validation.NeedsDot | web/src/utils/validation.ts:3 | without a dot after the first character nothing is accepted |
| Validation.AcceptsExamples | web/src/utils/validation.ts:5-7 | "daviani.dev", "www.google.com", "a..com" and "a-.com" are accepted |
| Validation.RejectsExamples | web/src/utils/validation.ts:5-7 | "", "pasdedot", "!!!bizarre", "-a.com", "a.c" and "a.co1" are rejected |
| Validation.BadTopLevelLabel | web/src/utils/validation.ts:3 | a one-character label before the only dot, followed by fewer than two characters or ending in a non-letter, is rejected |

## Left out

- Network I/O. `http.Get`, `net.LookupIP`, `tls.Dial` and the crt.sh service are
  parameters, so nothing about timeouts, redirects or TLS verification is
  modelled.
- Closing bodies and connections (`defer ... Close()`). Close errors are
  ignored in the code.
- JSON. Encoding a `ScanResult` or `HealthResult` is modelled as the structured
  body itself. Decoding the crt.sh body is an `Unmarshal` parameter.
- The encoder branches at `internal/api/server.go:67-70` and `:94-97`. Once a
  write to the client has failed, `http.Error` has no observable effect, and
  the model treats encoding as infallible.
- The headers `http.Error` adds besides the content type
  (`X-Content-Type-Options`), and the removal of an earlier `Content-Length`.
- Request routing within the global `http.DefaultServeMux`. Only exact-pattern
  lookup in the registration table is modelled.
- `Start` itself: `http.HandleFunc`, the blocking `ListenAndServe`,
  `log.Fatal` and `fmt.Println`. Only the route table and the listen address
  are modelled.
- Header-key canonicalization (`textproto.CanonicalMIMEHeaderKey`). The model
  compares keys exactly. The CORS keys (`internal/api/middleware.go:10-12`) and
  the keys the header scanner reads are already canonical. The two
  `w.Header().Set("Content-type", …)` calls (`internal/api/server.go:60` and
  `:89`) are canonicalized by Go to `Content-Type`. The model carries that
  header as `Reply.contentType`, not as a map key, so comparing keys exactly
  changes nothing there.
- Rendering of IP addresses (`ip.String()`). Addresses arrive as text.
- Time zones in `NotAfter.Format`. The date is the day, month and year the
  certificate states.
- `SslScanner.Scan`: it does not model the deferred `Close` when the
  index panics.
- The `Dialer` can give answers that crypto/tls never does. A successful
  `tls.Dial` with a nil config always has a non-empty verified chain, because
  crypto/tls rejects an empty certificate message during the handshake. So
  the empty-chain panic (`SslScanner.Scan`, `Server.EmptyChainAbortsSslRequest`)
  is reachable only in the model. An empty issuer organization list is
  possible in practice.
- Go strings are byte strings; the model uses sequences of Dafny characters.
  Lengths such as those in `User.Greet`, `SubdomainScanner.Join` and
  `DnsScanner.FailureIsVisible` count characters, not the bytes `len`
  counts (" → " is three characters but five bytes). Invalid UTF-8 cannot
  arise in the model. No stated property depends on the difference.
- `Middleware.Cors`: what `next` writes into the response, and the effect of a
  status already written before the middleware runs. The header lock after
  `WriteHeader` is not modelled either.
- `isValidExtension` (`web/src/utils/validation.ts:9-12`). It depends on the
  `tldts` public-suffix list, an external library. The web front end
  (`scanner.ts`, the React components) is not part of this model.
- `main`'s printing (`main.go:8-22`). Only `add` and the call `add(5, 3)` are
  modelled.
- Concurrent fan-out of the scanners. It does not exist in the code; only
  the `Result` type that would carry it does.
