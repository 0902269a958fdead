/** The scanner contract of internal/scanner/scanner.go: every scanner has a
    fixed name and a scan operation from a domain to text. The five
    scanners are the constructors of `Kind`. */
module Scanner {
  import opened Go

  datatype Kind = Dns | Ssl | Header | Sensitive | Subdomain

  const AllKinds: seq<Kind> := [Dns, Ssl, Header, Sensitive, Subdomain]

  /** `Name()` of each scanner; the scanners are empty structs, so the name
      is a constant of the kind: a lower-case word, usable as one segment
      of a URL path. */
  function Name(k: Kind): (n: string)
    ensures |n| >= 3
    ensures forall i :: 0 <= i < |n| ==> 'a' <= n[i] <= 'z'
  {
    match k
    case Dns => "dns"
    case Ssl => "ssl"
    case Header => "header"
    case Sensitive => "sensitive"
    case Subdomain => "subdomain"
  }

  /** The scanner a name belongs to, if any. */
  function KindNamed(n: string): (k: Option<Kind>)
    ensures k.Some? ==> Name(k.value) == n
    ensures k.None? ==> forall j :: 0 <= j < |AllKinds| ==> Name(AllKinds[j]) != n
  {
    if n == "dns" then Some(Dns)
    else if n == "ssl" then Some(Ssl)
    else if n == "header" then Some(Header)
    else if n == "sensitive" then Some(Sensitive)
    else if n == "subdomain" then Some(Subdomain)
    else None
  }

  /** Names identify scanners: `Name` is inverted by `KindNamed`, so no two
      scanners share a name. */
  lemma NameIdentifies(k: Kind)
    ensures KindNamed(Name(k)) == Some(k)
    ensures k in AllKinds
  {
  }

  lemma NamesDistinct()
    ensures forall i, j :: 0 <= i < j < |AllKinds| ==> Name(AllKinds[i]) != Name(AllKinds[j])
  {
    forall i, j | 0 <= i < j < |AllKinds| ensures Name(AllKinds[i]) != Name(AllKinds[j]) {
      NameIdentifies(AllKinds[i]);
      NameIdentifies(AllKinds[j]);
    }
  }

  /** Whether the scanner's `Scan` has the interface's `(string, error)`
      signature: `DNSScanner.Scan` returns a bare string, so it does not. */
  predicate ImplementsScanner(k: Kind) { k != Dns }

  /** The contract the tests hold every scanner to: an error comes with
      empty text. */
  predicate ErrorMeansEmpty(r: Ret<string>) { r.err.Some? ==> r.value == "" }

  /** `Result`: a scanner's name paired with its text. */
  datatype Result = Result(name: string, result: string)
}
