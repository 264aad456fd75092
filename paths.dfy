// URL path joining and id extraction: the two string helpers of
// lib/Neo4jUtils.js that endpoint resolution and entity construction use.

module Paths {

  datatype Option<+T> = None | Some(value: T)

  predicate EndsWithSlash(a: string)
  {
    |a| > 0 && a[|a| - 1] == '/'
  }

  predicate StartsWith(b: string, c: char)
  {
    |b| > 0 && b[0] == c
  }

  /** `a` with exactly the separator it already supplies, or one added. */
  function Directory(a: string): (d: string)
    ensures EndsWithSlash(d) && a <= d && |d| <= |a| + 1
  {
    if EndsWithSlash(a) then a else a + "/"
  }

  /** pathJoin: appends a query verbatim, otherwise joins with one separator.
      Reading past either end of a string gives undefined, which is neither
      '?' nor '/'. */
  function PathJoin(a: string, b: string): (r: string)
    ensures a <= r
    ensures StartsWith(b, '?') ==> r == a + b
    ensures EndsWithSlash(a) && StartsWith(b, '/') ==> r == a + b[1..]
    ensures !EndsWithSlash(a) && !StartsWith(b, '/') && !StartsWith(b, '?') ==> r == a + "/" + b
    ensures b == "" ==> r == Directory(a)
  {
    if StartsWith(b, '?') then a + b
    else if StartsWith(b, '/') then (if EndsWithSlash(a) then a + b[1..] else a + b)
    else if EndsWithSlash(a) then a + b
    else a + "/" + b
  }

  /** Everything but a query suffix is joined as "directory of a" followed by
      b without its one leading separator. */
  lemma JoinIsDirectoryPlusRest(a: string, b: string)
    requires !StartsWith(b, '?')
    ensures PathJoin(a, b) == Directory(a) + (if StartsWith(b, '/') then b[1..] else b)
  {
    if StartsWith(b, '/') && !EndsWithSlash(a) {
      assert b == "/" + b[1..];
    }
  }

  /** The junction never holds "//" unless b itself starts with "//". */
  lemma JoinNoDoubleSlash(a: string, b: string)
    requires |a| > 0 && !(|b| > 1 && b[0] == '/' && b[1] == '/')
    ensures var r := PathJoin(a, b); |r| > |a| ==> !(r[|a| - 1] == '/' && r[|a|] == '/')
  {
  }

  /** Joining "/x" and then "y" gives the path that joining "x/y" gives. */
  lemma {:induction false} JoinAssociative(a: string, x: string, y: string)
    requires |x| > 0 && x[0] != '/' && x[0] != '?' && x[|x| - 1] != '/'
    requires !StartsWith(y, '/') && !StartsWith(y, '?')
    ensures PathJoin(PathJoin(a, "/" + x), y) == PathJoin(a, x + "/" + y)
  {
    JoinIsDirectoryPlusRest(a, "/" + x);
    assert ("/" + x)[1..] == x;
    var ax := Directory(a) + x;
    assert PathJoin(a, "/" + x) == ax;
    assert !EndsWithSlash(ax);
    JoinIsDirectoryPlusRest(a, x + "/" + y);
    assert PathJoin(a, x + "/" + y) == Directory(a) + (x + "/" + y);
  }

  predicate IsDigit(c: char)
  {
    '0' <= c <= '9'
  }

  predicate AllDigits(s: string)
  {
    forall i :: 0 <= i < |s| ==> IsDigit(s[i])
  }

  /** The length of the longest all-digit suffix of s. */
  function DigitSuffixLength(s: string): (n: nat)
    ensures n <= |s|
    ensures AllDigits(s[|s| - n..])
    ensures n < |s| ==> !IsDigit(s[|s| - n - 1])
    decreases |s|
  {
    if s == [] || !IsDigit(s[|s| - 1]) then 0
    else 1 + DigitSuffixLength(s[..|s| - 1])
  }

  /** parseId: the match of /\d+$/, which fails (yields null) when the URL does
      not end in a digit. */
  function ParseId(url: string): (r: Option<string>)
    ensures r.None? <==> (url == [] || !IsDigit(url[|url| - 1]))
    ensures r.Some? ==> 0 < |r.value| <= |url| && AllDigits(r.value)
    ensures r.Some? ==> url == url[..|url| - |r.value|] + r.value
    ensures r.Some? && |r.value| < |url| ==> !IsDigit(url[|url| - |r.value| - 1])
  {
    var n := DigitSuffixLength(url);
    if n == 0 then None else Some(url[|url| - n..])
  }

  lemma {:induction false} DigitSuffixOfJoined(prefix: string, id: string)
    requires AllDigits(id)
    requires prefix == [] || !IsDigit(prefix[|prefix| - 1])
    ensures DigitSuffixLength(prefix + id) == |id|
    decreases |id|
  {
    if id != [] {
      assert (prefix + id)[..|prefix + id| - 1] == prefix + id[..|id| - 1];
      DigitSuffixOfJoined(prefix, id[..|id| - 1]);
    } else {
      assert prefix + id == prefix;
    }
  }

  /** A URL made of a prefix not ending in a digit and a decimal id gives back
      that id. */
  lemma {:induction false} ParseIdOfJoined(prefix: string, id: string)
    requires |id| > 0 && AllDigits(id)
    requires prefix == [] || !IsDigit(prefix[|prefix| - 1])
    ensures ParseId(prefix + id) == Some(id)
  {
    DigitSuffixOfJoined(prefix, id);
    assert (prefix + id)[|prefix|..] == id;
  }
}
