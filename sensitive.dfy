/** `SensitiveScanner` (internal/scanner/sensitive.go): requests six
    well-known paths of the domain in turn and reports those answered with
    status 200. */
module SensitiveScanner {
  import opened Go
  import opened NetHttp
  import Scanner

  /** The paths probed, in the order they are requested. */
  const Paths: seq<string> := [".git/config", ".env", ".htaccess", "robots.txt", "sitemap.xml", "wp-config.php"]

  const NothingFound: string := "Aucun fichier sensible trouvé"

  const ErrorPrefix: string := "erreur https: "

  function Url(domain: string, path: string): string
  {
    "https://" + domain + "/" + path
  }

  /** What one response adds to the report: a line for status 200, nothing
      for any other status. */
  function Line(path: string, resp: Response): string
  {
    if resp.statusCode == 200 then path + " → " + resp.status + "\n" else ""
  }

  /** Requesting the paths `ps` in order: the report built so far, or the
      first transport failure met (after which nothing more is requested). */
  function Probe(domain: string, ps: seq<string>, get: Client): Answer<string>
    decreases |ps|
  {
    if ps == [] then Answered("")
    else
      match Probe(domain, ps[..|ps| - 1], get)
      case Failed(m) => Failed(m)
      case Answered(acc) =>
        match get(Url(domain, ps[|ps| - 1]))
        case Failed(m) => Failed(m)
        case Answered(resp) => Answered(acc + Line(ps[|ps| - 1], resp))
  }

  /** What `Scan` returns for the answers `get` gives. */
  function Outcome(domain: string, get: Client): (r: Ret<string>)
    ensures Scanner.ErrorMeansEmpty(r)
    ensures r.err.None? ==> r.value != ""
  {
    match Probe(domain, Paths, get)
    case Failed(m) => Ret("", Some(ErrorPrefix + m))
    case Answered(acc) => if acc == "" then Ret(NothingFound, None) else Ret(acc, None)
  }

  /** The loop of `SensitiveScanner.Scan`. */
  method Scan(domain: string, get: Client) returns (r: Ret<string>)
    ensures r == Outcome(domain, get)
  {
    var result := "";
    for i := 0 to |Paths|
      invariant Probe(domain, Paths[..i], get) == Answered(result)
    {
      assert Paths[..i + 1][..i] == Paths[..i] && Paths[..i + 1][i] == Paths[i];
      var answer := get(Url(domain, Paths[i]));
      if answer.Failed? {
        FailureStops(domain, Paths, get, i, answer.message);
        return Ret("", Some(ErrorPrefix + answer.message));
      }
      ghost var before := result;
      if answer.value.statusCode == 200 {
        result := result + (Paths[i] + " → " + answer.value.status + "\n");
      }
      assert result == before + Line(Paths[i], answer.value);
    }
    assert Paths[..|Paths|] == Paths;
    if result == "" {
      return Ret(NothingFound, None);
    }
    return Ret(result, None);
  }

  /** Once the request for `ps[k]` fails, the failure is the result,
      whatever the answers for the later paths. */
  lemma {:induction false} FailureStops(domain: string, ps: seq<string>, get: Client, k: nat, m: string)
    requires k < |ps|
    requires Probe(domain, ps[..k], get).Answered?
    requires get(Url(domain, ps[k])) == Failed(m)
    ensures Probe(domain, ps, get) == Failed(m)
    decreases |ps|
  {
    var init := ps[..|ps| - 1];
    if k == |ps| - 1 {
      assert init == ps[..k];
    } else {
      assert init[..k] == ps[..k];
      FailureStops(domain, init, get, k, m);
    }
  }

  predicate AllAnswered(domain: string, ps: seq<string>, get: Client)
  {
    forall j :: 0 <= j < |ps| ==> get(Url(domain, ps[j])).Answered?
  }

  /** How many of the paths `ps` answer with status 200. */
  function Exposed(domain: string, ps: seq<string>, get: Client): nat
    requires AllAnswered(domain, ps, get)
    decreases |ps|
  {
    if ps == [] then 0
    else
      var init := ps[..|ps| - 1];
      assert AllAnswered(domain, init, get) by {
        forall j | 0 <= j < |init| ensures get(Url(domain, init[j])).Answered? {
          assert init[j] == ps[j];
        }
      }
      Exposed(domain, init, get)
      + (if get(Url(domain, ps[|ps| - 1])).value.statusCode == 200 then 1 else 0)
  }

  /** The number of line breaks in `s`. */
  function Newlines(s: string): nat
  {
    if s == [] then 0 else Newlines(s[..|s| - 1]) + (if s[|s| - 1] == '\n' then 1 else 0)
  }

  lemma {:induction false} NewlinesConcat(a: string, b: string)
    ensures Newlines(a + b) == Newlines(a) + Newlines(b)
    decreases |b|
  {
    if b == [] {
      assert a + b == a;
    } else {
      assert (a + b)[..|a + b| - 1] == a + b[..|b| - 1];
      NewlinesConcat(a, b[..|b| - 1]);
    }
  }

  lemma {:induction false} NoNewlines(s: string)
    requires '\n' !in s
    ensures Newlines(s) == 0
    decreases |s|
  {
    if s != [] {
      assert s[|s| - 1] in s;
      assert forall c :: c in s[..|s| - 1] ==> c in s;
      NoNewlines(s[..|s| - 1]);
    }
  }

  /** With every request answered, the report is empty exactly when no path
      is exposed, and a non-empty report ends with a line break. */
  lemma {:induction false} ProbeAnswered(domain: string, ps: seq<string>, get: Client)
    requires AllAnswered(domain, ps, get)
    ensures Probe(domain, ps, get).Answered?
    ensures Probe(domain, ps, get).value == "" <==> Exposed(domain, ps, get) == 0
    ensures Probe(domain, ps, get).value != "" ==>
              Probe(domain, ps, get).value[|Probe(domain, ps, get).value| - 1] == '\n'
    decreases |ps|
  {
    if ps != [] {
      var init := ps[..|ps| - 1];
      assert AllAnswered(domain, init, get) by {
        forall j | 0 <= j < |init| ensures get(Url(domain, init[j])).Answered? {
          assert init[j] == ps[j];
        }
      }
      ProbeAnswered(domain, init, get);
      assert get(Url(domain, ps[|ps| - 1])).Answered?;
    }
  }

  predicate StatusLinesClean(domain: string, ps: seq<string>, get: Client)
  {
    forall j :: 0 <= j < |ps| && get(Url(domain, ps[j])).Answered? ==>
      '\n' !in get(Url(domain, ps[j])).value.status
  }

  lemma {:induction false} ProbeLines(domain: string, ps: seq<string>, get: Client)
    requires AllAnswered(domain, ps, get)
    requires StatusLinesClean(domain, ps, get)
    requires forall j :: 0 <= j < |ps| ==> '\n' !in ps[j]
    ensures Probe(domain, ps, get).Answered?
    ensures Newlines(Probe(domain, ps, get).value) == Exposed(domain, ps, get)
    decreases |ps|
  {
    if ps != [] {
      var init := ps[..|ps| - 1];
      var last := ps[|ps| - 1];
      assert forall j :: 0 <= j < |init| ==> init[j] == ps[j];
      ProbeLines(domain, init, get);
      ProbeAnswered(domain, ps, get);
      var resp := get(Url(domain, last)).value;
      var acc := Probe(domain, init, get).value;
      NewlinesConcat(acc, Line(last, resp));
      if resp.statusCode == 200 {
        NoNewlines(last);
        NoNewlines(" → ");
        NoNewlines(resp.status);
        NewlinesConcat(last, " → ");
        NewlinesConcat(last + " → ", resp.status);
        NewlinesConcat(last + " → " + resp.status, "\n");
        assert Newlines("\n") == 1 by { assert "\n"[..0] == ""; }
      } else {
        assert Newlines("") == 0;
      }
    }
  }

  /** Every path requested before `Paths[k]` answered and `Paths[k]` failed:
      the scan reports that failure with empty text, whatever the later
      paths would have answered. */
  lemma FirstFailure(domain: string, get: Client, k: nat, m: string)
    requires k < |Paths|
    requires forall j :: 0 <= j < k ==> get(Url(domain, Paths[j])).Answered?
    requires get(Url(domain, Paths[k])) == Failed(m)
    ensures Outcome(domain, get) == Ret("", Some(ErrorPrefix + m))
  {
    assert AllAnswered(domain, Paths[..k], get);
    ProbeAnswered(domain, Paths[..k], get);
    FailureStops(domain, Paths, get, k, m);
  }

  /** When every request is answered the scan succeeds, and its text is the
      sentinel exactly when no path answered with status 200. */
  lemma NothingFoundExactly(domain: string, get: Client)
    requires AllAnswered(domain, Paths, get)
    ensures Outcome(domain, get).err.None?
    ensures Outcome(domain, get).value == NothingFound <==>
              forall j :: 0 <= j < |Paths| ==> get(Url(domain, Paths[j])).value.statusCode != 200
  {
    ProbeAnswered(domain, Paths, get);
    ExposedZero(domain, Paths, get);
    assert NothingFound[|NothingFound| - 1] != '\n';
  }

  lemma {:induction false} ExposedZero(domain: string, ps: seq<string>, get: Client)
    requires AllAnswered(domain, ps, get)
    ensures Exposed(domain, ps, get) == 0 <==>
              forall j :: 0 <= j < |ps| ==> get(Url(domain, ps[j])).value.statusCode != 200
    decreases |ps|
  {
    if ps != [] {
      var init := ps[..|ps| - 1];
      assert forall j :: 0 <= j < |init| ==> init[j] == ps[j];
      ExposedZero(domain, init, get);
    }
  }

  /** With every request answered, the report has one line per exposed
      path (and the sentinel has none). */
  lemma OneLinePerExposedPath(domain: string, get: Client)
    requires AllAnswered(domain, Paths, get)
    requires StatusLinesClean(domain, Paths, get)
    ensures Outcome(domain, get).err.None?
    ensures Newlines(Outcome(domain, get).value) == Exposed(domain, Paths, get)
  {
    assert forall j :: 0 <= j < |Paths| ==> '\n' !in Paths[j];
    ProbeLines(domain, Paths, get);
    ProbeAnswered(domain, Paths, get);
    NoNewlines(NothingFound);
  }
}
