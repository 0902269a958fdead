/** Splitting and trimming of text, used to state that the scanners'
    output texts can be read back. */
module Strings {
  import opened Go

  /** The index of the first `c` in `s`, or `|s|` when there is none. */
  function IndexOf(s: string, c: char): (i: nat)
    ensures i <= |s|
    ensures i < |s| ==> s[i] == c
    ensures forall j :: 0 <= j < i ==> s[j] != c
  {
    if s == [] then 0 else if s[0] == c then 0 else 1 + IndexOf(s[1..], c)
  }

  /** `strings.Split` on a one-character separator: the pieces between the
      separators, so that `k` separators give `k + 1` pieces. */
  function Split(s: string, c: char): (parts: seq<string>)
    ensures |parts| >= 1
    decreases |s|
  {
    var i := IndexOf(s, c);
    if i == |s| then [s] else [s[..i]] + Split(s[i + 1..], c)
  }

  lemma SplitWithout(x: string, c: char)
    requires c !in x
    ensures Split(x, c) == [x]
  {
    assert forall j :: 0 <= j < |x| ==> x[j] in x;
  }

  lemma SplitFirst(x: string, c: char, y: string)
    requires c !in x
    ensures Split(x + [c] + y, c) == [x] + Split(y, c)
  {
    var s := x + [c] + y;
    var i := IndexOf(s, c);
    assert forall j :: 0 <= j < |x| ==> s[j] == x[j] && x[j] in x;
    assert s[|x|] == c;
    assert i == |x|;
    assert s[..i] == x;
    assert s[i + 1..] == y;
  }

  /** Three pieces without the separator, joined by it, split back into
      the same three. */
  lemma SplitThree(p0: string, p1: string, p2: string, c: char)
    requires c !in p0 && c !in p1 && c !in p2
    ensures Split(p0 + [c] + (p1 + [c] + p2), c) == [p0, p1, p2]
  {
    SplitWithout(p2, c);
    SplitFirst(p1, c, p2);
    SplitFirst(p0, c, p1 + [c] + p2);
  }

  /** The middle of `s` when it starts with `prefix` and ends with `suffix`. */
  function Strip(s: string, prefix: string, suffix: string): Option<string>
  {
    if |s| >= |prefix| + |suffix| && s[..|prefix|] == prefix && s[|s| - |suffix|..] == suffix
    then Some(s[|prefix|..|s| - |suffix|])
    else None
  }

  lemma StripFramed(prefix: string, m: string, suffix: string)
    ensures Strip(prefix + m + suffix, prefix, suffix) == Some(m)
  {
    var s := prefix + m + suffix;
    assert s[..|prefix|] == prefix;
    assert s[|s| - |suffix|..] == suffix;
    assert s[|prefix|..|s| - |suffix|] == m;
  }
}
