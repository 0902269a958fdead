/** `DNSScanner` (internal/scanner/dns.go): resolves the domain's addresses.
    Its `Scan` returns a bare string, and a failed lookup is folded into
    that string. */
module DnsScanner {
  import opened Go
  import opened NetHttp
  import Strings

  /** `net.LookupIP` as a function of the host; each address is given in
      its `IP.String()` text form. */
  type Resolver = string -> Answer<seq<string>>

  const FailurePrefix: string := "Erreur de DNS"

  function Heading(domain: string): string
  {
    "Ips pour " + domain + ": "
  }

  /** Each address followed by one space, in lookup order. */
  function Spaced(ips: seq<string>): string
  {
    if ips == [] then "" else ips[0] + " " + Spaced(ips[1..])
  }

  /** What `Scan` returns for the resolver's answer. */
  function Text(domain: string, answer: Answer<seq<string>>): string
  {
    match answer
    case Failed(m) => FailurePrefix + m
    case Answered(ips) => Heading(domain) + Spaced(ips)
  }

  /** The loop of `DNSScanner.Scan`. */
  method Scan(domain: string, lookup: Resolver) returns (text: string)
    ensures text == Text(domain, lookup(domain))
  {
    var answer := lookup(domain);
    if answer.Failed? {
      return FailurePrefix + answer.message;
    }
    var ips := answer.value;
    text := Heading(domain);
    for i := 0 to |ips|
      invariant text == Heading(domain) + Spaced(ips[..i])
    {
      SpacedSnoc(ips[..i], ips[i]);
      assert ips[..i + 1] == ips[..i] + [ips[i]];
      text := text + ips[i] + " ";
    }
    assert ips[..|ips|] == ips;
  }

  lemma {:induction false} SpacedSnoc(ips: seq<string>, ip: string)
    ensures Spaced(ips + [ip]) == Spaced(ips) + ip + " "
    decreases |ips|
  {
    if ips != [] {
      assert (ips + [ip])[1..] == ips[1..] + [ip];
      SpacedSnoc(ips[1..], ip);
    } else {
      assert Spaced([ip]) == ip + " " + Spaced([]);
    }
  }

  /** Splitting the address part on spaces gives the addresses back, in
      order, with the empty piece after the last space. */
  lemma {:induction false} SpacedSplits(ips: seq<string>)
    requires forall i :: 0 <= i < |ips| ==> ' ' !in ips[i]
    ensures Strings.Split(Spaced(ips), ' ') == ips + [""]
    decreases |ips|
  {
    if ips == [] {
      Strings.SplitWithout("", ' ');
    } else {
      var rest := Spaced(ips[1..]);
      assert Spaced(ips) == ips[0] + [' '] + rest;
      SpacedSplits(ips[1..]);
      Strings.SplitFirst(ips[0], ' ', rest);
      assert ips == [ips[0]] + ips[1..];
    }
  }

  /** A successful text reads back as the heading and the addresses in
      lookup order. */
  lemma AddressesRecoverable(domain: string, ips: seq<string>)
    requires forall i :: 0 <= i < |ips| ==> ' ' !in ips[i]
    ensures Strings.Strip(Text(domain, Answered(ips)), Heading(domain), "") == Some(Spaced(ips))
    ensures Strings.Split(Spaced(ips), ' ') == ips + [""]
  {
    Strings.StripFramed(Heading(domain), Spaced(ips), "");
    assert Heading(domain) + Spaced(ips) + "" == Text(domain, Answered(ips));
    SpacedSplits(ips);
  }

  /** No addresses: the text is the heading alone. */
  lemma NoAddresses(domain: string)
    ensures Text(domain, Answered([])) == Heading(domain)
  {
  }

  /** A failure is never reported as empty text (the tests expect "" on
      error, which this scanner never returns), and it cannot be mistaken
      for a success: the two texts start differently. */
  lemma FailureIsVisible(domain: string, m: string, ips: seq<string>)
    ensures Text(domain, Failed(m)) != ""
    ensures Text(domain, Failed(m))[0] == 'E' && Text(domain, Answered(ips))[0] == 'I'
    ensures |Text(domain, Failed(m))| == |FailurePrefix| + |m|
  {
  }
}
