/** `SSLScanner` (internal/scanner/ssl.go): opens a TLS connection to port
    443 and reports the leaf certificate's subject, issuer and expiry. */
module SslScanner {
  import opened Go
  import opened NetHttp
  import opened Decimal
  import Scanner
  import Strings

  /** A calendar date, as `NotAfter` shows it in its own time zone. */
  datatype Date = Date(day: nat, month: nat, year: nat)

  predicate ValidDate(d: Date)
  {
    1 <= d.day <= 31 && 1 <= d.month <= 12 && d.year <= 9999
  }

  datatype Certificate = Certificate(commonName: string, issuerOrganization: seq<string>, notAfter: Date)

  /** What `conn.ConnectionState()` tells about the peer. */
  datatype ConnectionState = ConnectionState(peerCertificates: seq<Certificate>)

  /** `tls.Dial("tcp", address, nil)` as a function of the address. */
  type Dialer = string -> Answer<ConnectionState>

  /** Go's message for indexing an empty slice at 0. */
  const IndexPanic: string := "runtime error: index out of range [0] with length 0"

  function Address(domain: string): string
  {
    domain + ":443"
  }

  /** The layout "02/01/2006": day and month on two digits, year on four,
      all zero-padded. */
  function FormatDate(d: Date): (s: string)
    ensures |s| >= 10
    ensures forall i :: 0 <= i < |s| ==> IsDigit(s[i]) || s[i] == '/'
  {
    Pad(d.day, 2) + "/" + Pad(d.month, 2) + "/" + Pad(d.year, 4)
  }

  /** Reads a "DD/MM/YYYY" text back into a date. */
  function ParseDate(s: string): Option<Date>
  {
    if |s| == 10 && s[2] == '/' && s[5] == '/'
       && AllDigits(s[..2]) && AllDigits(s[3..5]) && AllDigits(s[6..])
    then Some(Date(DigitsValue(s[..2]), DigitsValue(s[3..5]), DigitsValue(s[6..])))
    else None
  }

  /** A valid date is rendered in exactly ten characters and reads back. */
  lemma DateRoundTrip(d: Date)
    requires ValidDate(d)
    ensures |FormatDate(d)| == 10
    ensures ParseDate(FormatDate(d)) == Some(d)
  {
    var dd, mm, yyyy := Pad(d.day, 2), Pad(d.month, 2), Pad(d.year, 4);
    PadLength(d.day, 2);
    PadLength(d.month, 2);
    assert Pow10(4) == 10000;
    PadLength(d.year, 4);
    PadRoundTrip(d.day, 2);
    PadRoundTrip(d.month, 2);
    PadRoundTrip(d.year, 4);
    var s := FormatDate(d);
    assert s[..2] == dd;
    assert s[3..5] == mm;
    assert s[6..] == yyyy;
  }

  /** The layout "Domaine: %s | Émetteur: %s | Expire: %s", written around
      its two '|' characters. */
  function Report(subject: string, issuer: string, expiry: string): string
  {
    ("Domaine: " + subject + " ") + "|" + ((" Émetteur: " + issuer + " ") + "|" + (" Expire: " + expiry))
  }

  /** `Report` is the plain layout of the format string. */
  lemma ReportLayout(a: string, b: string, c: string)
    ensures Report(a, b, c) == "Domaine: " + a + " | Émetteur: " + b + " | Expire: " + c
  {
  }

  /** The report for a certificate: its common name, its first issuer
      organization and its expiry date. */
  function Summary(cert: Certificate): string
    requires |cert.issuerOrganization| > 0
  {
    Report(cert.commonName, cert.issuerOrganization[0], FormatDate(cert.notAfter))
  }

  /** The subject, issuer and expiry texts a report shows, when it has the
      report's shape. */
  function RecoverSummary(text: string): Option<(string, string, string)>
  {
    var parts := Strings.Split(text, '|');
    if |parts| != 3 then None
    else
      match (Strings.Strip(parts[0], "Domaine: ", " "),
             Strings.Strip(parts[1], " Émetteur: ", " "),
             Strings.Strip(parts[2], " Expire: ", ""))
      case (Some(a), Some(b), Some(c)) => Some((a, b, c))
      case _ => None
  }

  /** A report gives back the common name, the first issuer organization and
      the rendered expiry, as long as the two names contain no '|'. */
  lemma SummaryRecoverable(cert: Certificate)
    requires |cert.issuerOrganization| > 0
    requires '|' !in cert.commonName && '|' !in cert.issuerOrganization[0]
    ensures RecoverSummary(Summary(cert))
         == Some((cert.commonName, cert.issuerOrganization[0], FormatDate(cert.notAfter)))
  {
    var a, b, c := cert.commonName, cert.issuerOrganization[0], FormatDate(cert.notAfter);
    var p0, p1, p2 := "Domaine: " + a + " ", " Émetteur: " + b + " ", " Expire: " + c;
    assert '|' !in c by {
      assert forall i :: 0 <= i < |c| ==> c[i] != '|';
    }
    assert '|' !in p0 && '|' !in p1 && '|' !in p2;
    Strings.SplitThree(p0, p1, p2, '|');
    assert Summary(cert) == p0 + ['|'] + (p1 + ['|'] + p2);
    Strings.StripFramed("Domaine: ", a, " ");
    Strings.StripFramed(" Émetteur: ", b, " ");
    Strings.StripFramed(" Expire: ", c, "");
    assert p2 == " Expire: " + c + "";
  }

  /** `SSLScanner.Scan`. A failed dial is an error with empty text. The leaf
      certificate and its first issuer organization are read without a
      check, so an empty chain or an empty organization list panics. */
  function Scan(domain: string, dial: Dialer): (r: Run<Ret<string>>)
    ensures r.Panicked? <==>
              dial(Address(domain)).Answered? &&
              (dial(Address(domain)).value.peerCertificates == [] ||
               dial(Address(domain)).value.peerCertificates[0].issuerOrganization == [])
    ensures r.Returned? ==> Scanner.ErrorMeansEmpty(r.value)
    ensures r.Returned? && r.value.err.None? ==> r.value.value != ""
    ensures r.Returned? && r.value.err.Some? <==> dial(Address(domain)).Failed?
    ensures dial(Address(domain)).Failed? ==>
              r == Returned(Ret("", Some("erreur SSL: " + dial(Address(domain)).message)))
    ensures r.Panicked? ==> r.message == IndexPanic
    ensures r.Returned? && r.value.err.None? ==>
              r.value.value == Summary(dial(Address(domain)).value.peerCertificates[0])
  {
    match dial(Address(domain))
    case Failed(m) => Returned(Ret("", Some("erreur SSL: " + m)))
    case Answered(state) =>
      if state.peerCertificates == [] then Panicked(IndexPanic)
      else
        var cert := state.peerCertificates[0];
        if cert.issuerOrganization == [] then Panicked(IndexPanic)
        else Returned(Ret(Summary(cert), None))
  }

  /** Only the leaf certificate and the first issuer organization are
      reported: the rest of the chain and the other organizations do not
      change the result. */
  lemma OnlyLeafMatters(domain: string, dial1: Dialer, dial2: Dialer)
    requires dial1(Address(domain)).Answered? && dial2(Address(domain)).Answered?
    requires |dial1(Address(domain)).value.peerCertificates| > 0
    requires |dial2(Address(domain)).value.peerCertificates| > 0
    requires
      var c1 := dial1(Address(domain)).value.peerCertificates[0];
      var c2 := dial2(Address(domain)).value.peerCertificates[0];
      c1.commonName == c2.commonName && c1.notAfter == c2.notAfter &&
      |c1.issuerOrganization| > 0 && |c2.issuerOrganization| > 0 &&
      c1.issuerOrganization[0] == c2.issuerOrganization[0]
    ensures Scan(domain, dial1) == Scan(domain, dial2)
  {
  }

  /** The expiry date is the last ten characters of a successful report and
      reads back as the certificate's `NotAfter`. */
  lemma ExpiryRecoverable(domain: string, dial: Dialer)
    requires Scan(domain, dial).Returned? && Scan(domain, dial).value.err.None?
    requires ValidDate(dial(Address(domain)).value.peerCertificates[0].notAfter)
    ensures var text := Scan(domain, dial).value.value;
            |text| >= 10 && ParseDate(text[|text| - 10..]) ==
              Some(dial(Address(domain)).value.peerCertificates[0].notAfter)
  {
    var cert := dial(Address(domain)).value.peerCertificates[0];
    var text := Scan(domain, dial).value.value;
    DateRoundTrip(cert.notAfter);
    ReportLayout(cert.commonName, cert.issuerOrganization[0], FormatDate(cert.notAfter));
    var head := "Domaine: " + cert.commonName + " | Émetteur: " + cert.issuerOrganization[0] + " | Expire: ";
    assert text == head + FormatDate(cert.notAfter);
    assert text[|text| - 10..] == FormatDate(cert.notAfter);
  }

  /** The leaf certificate's subject and issuer read back from a successful
      scan, next to its expiry. */
  lemma ReportRecoverable(domain: string, dial: Dialer)
    requires Scan(domain, dial).Returned? && Scan(domain, dial).value.err.None?
    requires var cert := dial(Address(domain)).value.peerCertificates[0];
             '|' !in cert.commonName && '|' !in cert.issuerOrganization[0]
    ensures var cert := dial(Address(domain)).value.peerCertificates[0];
            RecoverSummary(Scan(domain, dial).value.value)
              == Some((cert.commonName, cert.issuerOrganization[0], FormatDate(cert.notAfter)))
  {
    SummaryRecoverable(dial(Address(domain)).value.peerCertificates[0]);
  }
}
