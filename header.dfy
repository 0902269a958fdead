/** `HeaderScanner` (internal/scanner/header.go): fetches the domain's root
    page and reports three security headers. */
module HeaderScanner {
  import opened Go
  import opened NetHttp
  import Scanner
  import Strings

  const Hsts: string := "Strict-Transport-Security"
  const Csp: string := "Content-Security-Policy"
  const FrameOptions: string := "X-Frame-Options"

  function Url(domain: string): string
  {
    "https://" + domain
  }

  /** The report for the headers of a response; an absent header reads "". */
  function Format(h: Header): string
  {
    Report(Get(h, Hsts), Get(h, Csp), Get(h, FrameOptions))
  }

  /** The `Sprintf` layout "HSTS: %s | CSP: %s | X-Frame-Options: %s",
      written around its two '|' characters. */
  function Report(hsts: string, csp: string, frameOptions: string): string
  {
    ("HSTS: " + hsts + " ") + "|" + ((" CSP: " + csp + " ") + "|" + (" X-Frame-Options: " + frameOptions))
  }

  /** `Report` is the plain layout of the format string. */
  lemma ReportLayout(a: string, b: string, c: string)
    ensures Report(a, b, c) == "HSTS: " + a + " | CSP: " + b + " | X-Frame-Options: " + c
  {
  }

  /** `HeaderScanner.Scan`: only a failed request is an error; the status
      code and every other header are ignored. */
  function Scan(domain: string, get: Client): (r: Ret<string>)
    ensures Scanner.ErrorMeansEmpty(r)
    ensures r.err.Some? <==> get(Url(domain)).Failed?
    ensures r.err.Some? ==> r.err.value == "erreur de header: " + get(Url(domain)).message
    ensures r.err.None? ==> r.value == Format(get(Url(domain)).value.header) && r.value != ""
  {
    match get(Url(domain))
    case Failed(m) => Ret("", Some("erreur de header: " + m))
    case Answered(resp) => Ret(Format(resp.header), None)
  }

  /** Responses that agree on the three security headers give the same
      report, whatever their status and other headers. */
  lemma OnlySecurityHeadersMatter(domain: string, get1: Client, get2: Client)
    requires get1(Url(domain)).Answered? && get2(Url(domain)).Answered?
    requires forall k :: k in [Hsts, Csp, FrameOptions] ==>
               Get(get1(Url(domain)).value.header, k) == Get(get2(Url(domain)).value.header, k)
    ensures Scan(domain, get1) == Scan(domain, get2)
  {
    assert Hsts in [Hsts, Csp, FrameOptions];
    assert Csp in [Hsts, Csp, FrameOptions];
    assert FrameOptions in [Hsts, Csp, FrameOptions];
  }

  /** Missing headers leave their slots empty and are not an error. */
  lemma AbsentHeaders(h: Header)
    requires Hsts !in h && Csp !in h && FrameOptions !in h
    ensures Format(h) == "HSTS:  | CSP:  | X-Frame-Options: "
  {
  }

  /** The three values a report shows, when it has the report's shape. */
  function Recover(text: string): Option<(string, string, string)>
  {
    var parts := Strings.Split(text, '|');
    if |parts| != 3 then None
    else
      match (Strings.Strip(parts[0], "HSTS: ", " "),
             Strings.Strip(parts[1], " CSP: ", " "),
             Strings.Strip(parts[2], " X-Frame-Options: ", ""))
      case (Some(a), Some(b), Some(c)) => Some((a, b, c))
      case _ => None
  }

  /** A report gives back the three header values it was made from, as long
      as none of them contains '|'. */
  lemma RecoverFormat(h: Header)
    requires '|' !in Get(h, Hsts) && '|' !in Get(h, Csp) && '|' !in Get(h, FrameOptions)
    ensures Recover(Format(h)) == Some((Get(h, Hsts), Get(h, Csp), Get(h, FrameOptions)))
  {
    RecoverReport(Get(h, Hsts), Get(h, Csp), Get(h, FrameOptions));
  }

  lemma RecoverReport(a: string, b: string, c: string)
    requires '|' !in a && '|' !in b && '|' !in c
    ensures Recover(Report(a, b, c)) == Some((a, b, c))
  {
    var p0, p1, p2 := "HSTS: " + a + " ", " CSP: " + b + " ", " X-Frame-Options: " + c;
    assert Strings.Split(Report(a, b, c), '|') == [p0, p1, p2] by {
      SplitReport(a, b, c);
    }
    Strings.StripFramed("HSTS: ", a, " ");
    Strings.StripFramed(" CSP: ", b, " ");
    Strings.StripFramed(" X-Frame-Options: ", c, "");
    assert p2 == " X-Frame-Options: " + c + "";
  }

  lemma SplitReport(a: string, b: string, c: string)
    requires '|' !in a && '|' !in b && '|' !in c
    ensures Strings.Split(Report(a, b, c), '|')
         == ["HSTS: " + a + " ", " CSP: " + b + " ", " X-Frame-Options: " + c]
  {
    var p0, p1, p2 := "HSTS: " + a + " ", " CSP: " + b + " ", " X-Frame-Options: " + c;
    Framed("HSTS: ", a, " ");
    Framed(" CSP: ", b, " ");
    Framed(" X-Frame-Options: ", c, "");
    Strings.SplitThree(p0, p1, p2, '|');
  }

  lemma Framed(prefix: string, m: string, suffix: string)
    requires '|' !in prefix && '|' !in m && '|' !in suffix
    ensures '|' !in prefix + m + suffix
  {
  }
}
