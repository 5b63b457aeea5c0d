/**
 * The JavaScript string operations the handlers rely on: `startsWith`, `toLowerCase` (on ASCII
 * letters) and `split` on a one-character separator, with its inverse `join`.
 */
module Text {

  /** `s.startsWith(prefix)`. */
  predicate StartsWith(s: string, prefix: string): (b: bool)
    ensures b <==> exists rest :: s == prefix + rest
  {
    if |prefix| <= |s| && s[..|prefix|] == prefix then
      assert s == prefix + s[|prefix|..];
      true
    else false
  }

  /** `s.indexOf(c)`, with "not found" reported as `|s|` instead of -1. */
  function FirstIndex(s: string, c: char): (k: nat)
    ensures k <= |s|
    ensures c !in s[..k]
    ensures k < |s| ==> s[k] == c
  {
    if s == [] then 0
    else if s[0] == c then 0
    else
      var k := 1 + FirstIndex(s[1..], c);
      assert s[..k] == [s[0]] + s[1..][..k - 1];
      k
  }

  /** `toLowerCase` on one character: ASCII upper-case letters are mapped, the rest kept. */
  function LowerChar(c: char): char {
    if 'A' <= c <= 'Z' then (c as int + 32) as char else c
  }

  predicate IsUpperAscii(c: char) {
    'A' <= c <= 'Z'
  }

  /** `s.toLowerCase()`. */
  function Lower(s: string): (r: string)
    ensures |r| == |s|
    ensures forall i :: 0 <= i < |s| ==> r[i] == LowerChar(s[i])
    ensures forall i :: 0 <= i < |r| ==> !IsUpperAscii(r[i])
  {
    if s == [] then [] else [LowerChar(s[0])] + Lower(s[1..])
  }

  /** Lower-casing twice is lower-casing once. */
  lemma LowerIdempotent(s: string)
    ensures Lower(Lower(s)) == Lower(s)
  {
    var once := Lower(s);
    assert forall i :: 0 <= i < |once| ==> Lower(once)[i] == once[i];
  }

  /**
   * `s.split(sep)`: the pieces between occurrences of `sep`, in order. As in JavaScript there is
   * always at least one piece: `"".split("-")` is `[""]` and `"a-".split("-")` is `["a", ""]`.
   */
  function Split(s: string, sep: char): (parts: seq<string>)
    ensures |parts| >= 1
    ensures forall i :: 0 <= i < |parts| ==> sep !in parts[i]
    decreases |s|
  {
    var k := FirstIndex(s, sep);
    if k == |s| then [s] else [s[..k]] + Split(s[k + 1..], sep)
  }

  /** `parts.join(sep)`. */
  function Join(parts: seq<string>, sep: char): string {
    if |parts| == 0 then ""
    else if |parts| == 1 then parts[0]
    else parts[0] + [sep] + Join(parts[1..], sep)
  }

  /** The first piece of a split is the text before the first separator. */
  lemma SplitHead(s: string, sep: char)
    ensures Split(s, sep)[0] == s[..FirstIndex(s, sep)]
  {
  }

  /** Joining the pieces back with the same separator gives the original string. */
  lemma {:induction false} JoinSplit(s: string, sep: char)
    ensures Join(Split(s, sep), sep) == s
    decreases |s|
  {
    var k := FirstIndex(s, sep);
    if k < |s| {
      var rest := s[k + 1..];
      JoinSplit(rest, sep);
      assert Split(s, sep) == [s[..k]] + Split(rest, sep);
      assert s == s[..k] + [sep] + rest;
    }
  }

  /** A string without the separator splits into itself. */
  lemma SplitWithoutSeparator(s: string, sep: char)
    requires sep !in s
    ensures Split(s, sep) == [s]
  {
    assert FirstIndex(s, sep) == |s|;
  }

  /** Splitting at the first separator peels off the text before it. */
  lemma SplitOnSeparator(p: string, sep: char, q: string)
    requires sep !in p
    ensures Split(p + [sep] + q, sep) == [p] + Split(q, sep)
  {
    var s := p + [sep] + q;
    var k := FirstIndex(s, sep);
    assert s[|p|] == sep;
    assert forall i :: 0 <= i < |p| ==> s[i] == p[i];
    assert k == |p|;
    assert s[..k] == p;
    assert s[k + 1..] == q;
  }

  /** Splitting pieces joined with a separator they do not contain gives the pieces back. */
  lemma {:induction false} SplitJoin(parts: seq<string>, sep: char)
    requires |parts| >= 1
    requires forall i :: 0 <= i < |parts| ==> sep !in parts[i]
    ensures Split(Join(parts, sep), sep) == parts
  {
    if |parts| == 1 {
      SplitWithoutSeparator(parts[0], sep);
    } else {
      SplitJoin(parts[1..], sep);
      SplitOnSeparator(parts[0], sep, Join(parts[1..], sep));
    }
  }

  /**
   * When `s` starts with `p` followed by the separator, `s.split(sep)[0]` is `p` and
   * `s.split(sep)[1]` is the text after that separator up to the next one.
   */
  lemma SplitAfterPrefix(s: string, p: string, sep: char)
    requires StartsWith(s, p + [sep])
    requires sep !in p
    ensures |Split(s, sep)| >= 2
    ensures Split(s, sep)[0] == p
    ensures Split(s, sep)[1] == Split(s[|p| + 1..], sep)[0]
  {
    assert s == p + [sep] + s[|p| + 1..];
    SplitOnSeparator(p, sep, s[|p| + 1..]);
  }
}
