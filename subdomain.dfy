/** `SubdomainScanner` (internal/scanner/subdomain.go): asks the crt.sh
    Certificate Transparency search for the domain's certificates and lists
    the distinct names found in them. */
module SubdomainScanner {
  import opened Go
  import opened NetHttp
  import Scanner
  import Strings

  /** One element of the JSON array crt.sh returns. */
  datatype CrtShEntry = CrtShEntry(nameValue: string)

  /** The outcome of `json.Unmarshal` into `[]CrtShEntry`. */
  datatype Decoded = DecodeFailed(message: string) | Entries(entries: seq<CrtShEntry>)

  /** `json.Unmarshal` as a function of the body's bytes. */
  type Unmarshal = seq<byte> -> Decoded

  const Heading: string := "Sous domaines: "
  const Separator: string := " , "
  const QueryPrefix: string := "https://crt.sh/?q=%25."
  const QuerySuffix: string := "&output=json"

  /** The query URL; the format's `%%25` is the literal text "%25". */
  function QueryUrl(domain: string): string
  {
    QueryPrefix + domain + QuerySuffix
  }

  /** Each domain has its own query URL, from which the domain is read back. */
  lemma QueryUrlNamesDomain(domain: string)
    ensures Strings.Strip(QueryUrl(domain), QueryPrefix, QuerySuffix) == Some(domain)
  {
    Strings.StripFramed(QueryPrefix, domain, QuerySuffix);
  }

  /** `strings.Join`: the parts with one separator between each pair, so
      its length is theirs plus one separator per gap. */
  function Join(xs: seq<string>, sep: string): (r: string)
    ensures xs == [] ==> r == ""
    ensures xs != [] ==> |r| == TotalLength(xs) + |sep| * (|xs| - 1)
  {
    if xs == [] then "" else if |xs| == 1 then xs[0] else xs[0] + sep + Join(xs[1..], sep)
  }

  /** The names that occur in the entries, duplicates collapsed (the
      `unique` map's keys). */
  function NameSet(entries: seq<CrtShEntry>): set<string>
  {
    set i | 0 <= i < |entries| :: entries[i].nameValue
  }

  /** `ks` lists every element of `names` exactly once and nothing else,
      in some order. */
  ghost predicate IsEnumeration(ks: seq<string>, names: set<string>)
  {
    forall x :: multiset(ks)[x] == if x in names then 1 else 0
  }

  /** The texts a successful scan may return for `names`: the heading and
      the names joined in any order (Go's map iteration order is
      unspecified). */
  ghost predicate Lists(text: string, names: set<string>)
  {
    exists ks :: IsEnumeration(ks, names) && text == Heading + Join(ks, Separator)
  }

  /** What `Scan` may return for the answers of the network and of the
      JSON decoder: the three failures in the order they are checked, or
      the list of distinct names. */
  ghost predicate Outcome(domain: string, get: Client, decode: Unmarshal, r: Ret<string>)
  {
    match get(QueryUrl(domain))
    case Failed(m) => r == Ret("", Some("erreur de subdomain: " + m))
    case Answered(resp) =>
      match resp.body
      case ReadFailed(m) => r == Ret("", Some("erreur de lecture: " + m))
      case Bytes(data) =>
        match decode(data)
        case DecodeFailed(m) => r == Ret("", Some("erreur de désérialisation: " + m))
        case Entries(es) => r.err == None && Lists(r.value, NameSet(es))
  }

  method Scan(domain: string, get: Client, decode: Unmarshal) returns (r: Ret<string>)
    ensures Outcome(domain, get, decode, r)
  {
    var answer := get(QueryUrl(domain));
    if answer.Failed? {
      return Ret("", Some("erreur de subdomain: " + answer.message));
    }
    var body := answer.value.body;
    if body.ReadFailed? {
      return Ret("", Some("erreur de lecture: " + body.message));
    }
    var decoded := decode(body.data);
    if decoded.DecodeFailed? {
      return Ret("", Some("erreur de désérialisation: " + decoded.message));
    }
    var results := decoded.entries;

    // De-duplication: a map used as a set.
    var unique: map<string, bool> := map[];
    for i := 0 to |results|
      invariant unique.Keys == NameSet(results[..i])
    {
      assert results[..i + 1] == results[..i] + [results[i]];
      unique := unique[results[i].nameValue := true];
    }
    assert results[..|results|] == results;

    // The keys in the map's iteration order, which is arbitrary.
    var keys: seq<string> := [];
    var rest := unique.Keys;
    while rest != {}
      invariant rest <= unique.Keys
      invariant forall x :: multiset(keys)[x] == if x in unique.Keys - rest then 1 else 0
      decreases |rest|
    {
      var key :| key in rest;
      keys := keys + [key];
      rest := rest - {key};
    }
    assert IsEnumeration(keys, NameSet(results));
    return Ret(Heading + Join(keys, Separator), None);
  }

  lemma EnumerationOfNothing(ks: seq<string>)
    requires IsEnumeration(ks, {})
    ensures ks == []
  {
    assert multiset(ks) == multiset{};
    assert |ks| == |multiset(ks)|;
  }

  /** An empty entry array gives exactly the heading. */
  lemma NoNames(text: string)
    ensures Lists(text, {}) <==> text == Heading
  {
    if Lists(text, {}) {
      var ks :| IsEnumeration(ks, {}) && text == Heading + Join(ks, Separator);
      EnumerationOfNothing(ks);
    }
    if text == Heading {
      assert IsEnumeration([], {});
      assert text == Heading + Join([], Separator);
    }
  }

  lemma EnumerationOfOne(ks: seq<string>, n: string)
    requires IsEnumeration(ks, {n})
    ensures ks == [n]
  {
    assert multiset(ks)[n] == 1;
    assert n in ks;
    var i :| 0 <= i < |ks| && ks[i] == n;
    var rest := ks[..i] + ks[i + 1..];
    assert ks == ks[..i] + [n] + ks[i + 1..];
    assert multiset(ks) == multiset(rest) + multiset{n};
    assert IsEnumeration(rest, {}) by {
      forall x ensures multiset(rest)[x] == 0 {
        assert multiset(ks)[x] == multiset(rest)[x] + (if x == n then 1 else 0);
      }
    }
    EnumerationOfNothing(rest);
  }

  /** Entries that all carry the same name, however many, list that name
      exactly once. */
  lemma RepeatedName(es: seq<CrtShEntry>, n: string, text: string)
    requires |es| > 0
    requires forall i :: 0 <= i < |es| ==> es[i].nameValue == n
    ensures NameSet(es) == {n}
    ensures Lists(text, NameSet(es)) <==> text == Heading + n
  {
    assert es[0].nameValue in NameSet(es);
    assert NameSet(es) == {n};
    if Lists(text, {n}) {
      var ks :| IsEnumeration(ks, {n}) && text == Heading + Join(ks, Separator);
      EnumerationOfOne(ks, n);
    }
    if text == Heading + n {
      assert multiset([n])[n] == 1;
      assert IsEnumeration([n], {n});
      assert text == Heading + Join([n], Separator);
    }
  }

  /** A successful text always begins with the heading. */
  lemma StartsWithHeading(text: string, names: set<string>)
    requires Lists(text, names)
    ensures |text| >= |Heading| && text[..|Heading|] == Heading
  {
    var ks :| IsEnumeration(ks, names) && text == Heading + Join(ks, Separator);
  }

  /** The total length of the strings in `xs`. */
  function TotalLength(xs: seq<string>): nat
  {
    if xs == [] then 0 else |xs[0]| + TotalLength(xs[1..])
  }

  lemma {:induction false} TotalLengthRemove(xs: seq<string>, i: nat)
    requires i < |xs|
    ensures TotalLength(xs) == |xs[i]| + TotalLength(xs[..i] + xs[i + 1..])
    decreases |xs|
  {
    if i > 0 {
      TotalLengthRemove(xs[1..], i - 1);
      assert xs[1..][..i - 1] + xs[1..][i..] == (xs[..i] + xs[i + 1..])[1..];
    } else {
      assert xs[..i] + xs[i + 1..] == xs[1..];
    }
  }

  lemma MultisetRemove(ys: seq<string>, i: nat)
    requires i < |ys|
    ensures multiset(ys[..i] + ys[i + 1..]) == multiset(ys) - multiset{ys[i]}
  {
    assert ys == ys[..i] + [ys[i]] + ys[i + 1..];
    assert multiset(ys) == multiset(ys[..i]) + multiset{ys[i]} + multiset(ys[i + 1..]);
  }

  /** Sequences with the same elements have the same total length. */
  lemma {:induction false} TotalLengthPermutation(xs: seq<string>, ys: seq<string>)
    requires multiset(xs) == multiset(ys)
    ensures TotalLength(xs) == TotalLength(ys)
    decreases |xs|
  {
    if xs != [] {
      assert xs[0] in multiset(ys);
      var i :| 0 <= i < |ys| && ys[i] == xs[0];
      var ys' := ys[..i] + ys[i + 1..];
      MultisetRemove(ys, i);
      MultisetRemove(xs, 0);
      assert xs[..0] + xs[1..] == xs[1..];
      TotalLengthPermutation(xs[1..], ys');
      TotalLengthRemove(ys, i);
    } else {
      assert |ys| == |multiset(ys)| == 0;
    }
  }

  /** The unspecified order does not change the length of the text: every
      text a scan may return for the same names is equally long. */
  lemma OrderKeepsLength(t1: string, t2: string, names: set<string>)
    requires Lists(t1, names) && Lists(t2, names)
    ensures |t1| == |t2|
  {
    var k1 :| IsEnumeration(k1, names) && t1 == Heading + Join(k1, Separator);
    var k2 :| IsEnumeration(k2, names) && t2 == Heading + Join(k2, Separator);
    assert multiset(k1) == multiset(k2);
    assert |k1| == |multiset(k1)| == |multiset(k2)| == |k2|;
    if k1 != [] {
      TotalLengthPermutation(k1, k2);
    } else {
      assert k2 == [];
    }
  }

  /** Every scan that fails returns empty text; one that succeeds names no
      error and starts with the heading. */
  lemma OutcomeShape(domain: string, get: Client, decode: Unmarshal, r: Ret<string>)
    requires Outcome(domain, get, decode, r)
    ensures Scanner.ErrorMeansEmpty(r)
    ensures r.err.None? ==> |r.value| >= |Heading| && r.value[..|Heading|] == Heading
  {
    if r.err.None? {
      var resp := get(QueryUrl(domain)).value;
      var es := decode(resp.body.data).entries;
      StartsWithHeading(r.value, NameSet(es));
    }
  }
}
