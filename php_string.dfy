/**
 * The PHP and WordPress string helpers the minifier relies on, over `string`.
 */
module PhpString {

  /** `! empty($s)` for a string: PHP counts both "" and "0" as empty. */
  predicate Truthy(s: string) {
    s != "" && s != "0"
  }

  /** `0 === strpos($s, $p)`; an empty `$p` matches at 0, as in PHP 8. */
  predicate StartsWith(s: string, p: string) {
    |p| <= |s| && s[..|p|] == p
  }

  predicate OccursAt(s: string, p: string, i: int) {
    0 <= i && i + |p| <= |s| && s[i..i + |p|] == p
  }

  /** `p` occurs somewhere in `s`. */
  ghost predicate Occurs(s: string, p: string) {
    exists i :: OccursAt(s, p, i)
  }

  /**
   * `str_replace($p, '', $s)`: scans `s` from the left and drops every
   * non-overlapping occurrence of `p`; an empty `p` leaves `s` unchanged.
   */
  function RemoveAll(s: string, p: string): string
    decreases |s|
  {
    if |p| == 0 || |s| == 0 then s
    else if StartsWith(s, p) then RemoveAll(s[|p|..], p)
    else [s[0]] + RemoveAll(s[1..], p)
  }

  /** A string in which `p` does not occur comes back unchanged. */
  lemma {:induction false} RemoveAllIdentity(s: string, p: string)
    requires !Occurs(s, p)
    ensures RemoveAll(s, p) == s
    decreases |s|
  {
    if |p| != 0 && |s| != 0 {
      assert !OccursAt(s, p, 0);
      forall i | OccursAt(s[1..], p, i) ensures false {
        assert s[1..][i..i + |p|] == s[i + 1..i + 1 + |p|];
        assert OccursAt(s, p, i + 1);
      }
      RemoveAllIdentity(s[1..], p);
    }
  }

  /**
   * Removing a non-empty pattern never lengthens a string, and shortens it
   * exactly when the pattern occurs in it.
   */
  lemma {:induction false} RemoveAllLength(s: string, p: string)
    requires |p| > 0
    ensures |RemoveAll(s, p)| <= |s|
    ensures |RemoveAll(s, p)| == |s| <==> !Occurs(s, p)
    decreases |s|
  {
    if |s| == 0 {
      assert !Occurs(s, p);
    } else if StartsWith(s, p) {
      assert OccursAt(s, p, 0);
      RemoveAllLength(s[|p|..], p);
    } else {
      RemoveAllLength(s[1..], p);
      if Occurs(s, p) {
        var i :| OccursAt(s, p, i);
        assert i != 0;
        assert s[1..][i - 1..i - 1 + |p|] == s[i..i + |p|];
        assert OccursAt(s[1..], p, i - 1);
      }
      if Occurs(s[1..], p) {
        var i :| OccursAt(s[1..], p, i);
        assert s[1..][i..i + |p|] == s[i + 1..i + 1 + |p|];
        assert OccursAt(s, p, i + 1);
      }
    }
  }

  /** Index of the first `c` in `s`. */
  function IndexOf(s: string, c: char): (i: nat)
    requires c in s
    ensures i < |s| && s[i] == c && c !in s[..i]
  {
    if s[0] == c then 0
    else
      var j := IndexOf(s[1..], c);
      assert s[..j + 1] == [s[0]] + s[1..][..j];
      j + 1
  }

  /** `implode($sep, $parts)`. */
  function Join(parts: seq<string>, sep: char): string {
    if |parts| == 0 then ""
    else if |parts| == 1 then parts[0]
    else parts[0] + [sep] + Join(parts[1..], sep)
  }

  /** `explode($sep, $s)`. */
  function Split(s: string, sep: char): (r: seq<string>)
    ensures |r| > 0
    decreases |s|
  {
    if sep in s then
      var i := IndexOf(s, sep);
      [s[..i]] + Split(s[i + 1..], sep)
    else [s]
  }

  /** A non-empty list of parts free of the separator survives implode/explode. */
  lemma {:induction false} SplitJoin(parts: seq<string>, sep: char)
    requires |parts| > 0
    requires forall k :: 0 <= k < |parts| ==> sep !in parts[k]
    ensures Split(Join(parts, sep), sep) == parts
  {
    if |parts| == 1 {
      assert Join(parts, sep) == parts[0];
    } else {
      var x, rest := parts[0], Join(parts[1..], sep);
      var s := x + [sep] + rest;
      assert Join(parts, sep) == s;
      assert s[|x|] == sep && s[..|x|] == x;
      var i := IndexOf(s, sep);
      assert i == |x|;
      assert s[i + 1..] == rest;
      SplitJoin(parts[1..], sep);
      assert parts == [x] + parts[1..];
    }
  }

  predicate IsSlash(c: char) {
    c == '/' || c == '\\'
  }

  /** `untrailingslashit`: `rtrim($s, '/\\')`. */
  function Untrailing(s: string): (r: string)
    ensures |r| == 0 || !IsSlash(r[|r| - 1])
    ensures r <= s
  {
    if |s| > 0 && IsSlash(s[|s| - 1]) then Untrailing(s[..|s| - 1]) else s
  }

  /** WordPress `trailingslashit`: exactly one trailing '/'. */
  function TrailingSlashIt(s: string): (r: string)
    ensures |r| > 0 && r[|r| - 1] == '/'
  {
    Untrailing(s) + "/"
  }

  /** Applying `trailingslashit` twice is applying it once. */
  lemma TrailingSlashItIdempotent(s: string)
    ensures TrailingSlashIt(TrailingSlashIt(s)) == TrailingSlashIt(s)
  {
    var u := Untrailing(s);
    assert (u + "/")[..|u|] == u;
    assert Untrailing(u) == u;
    assert Untrailing(u + "/") == Untrailing(u);
  }

  function DigitChar(d: nat): (c: char)
    requires d < 10
    ensures '0' <= c <= '9'
  {
    (48 + d) as char
  }

  /** The decimal rendering PHP gives a non-negative integer in string context. */
  function Decimal(n: nat): (r: string)
    ensures |r| > 0
    ensures n < 10 <==> |r| == 1
    ensures forall i :: 0 <= i < |r| ==> '0' <= r[i] <= '9'
  {
    if n < 10 then [DigitChar(n)] else Decimal(n / 10) + [DigitChar(n % 10)]
  }

  /** Distinct numbers have distinct renderings. */
  lemma {:induction false} DecimalInjective(a: nat, b: nat)
    requires Decimal(a) == Decimal(b)
    ensures a == b
  {
    if a < 10 && b < 10 {
      assert DigitChar(a) as int == 48 + a;
      assert DigitChar(b) as int == 48 + b;
    } else if 10 <= a && 10 <= b {
      var da, db := Decimal(a), Decimal(b);
      assert da[|da| - 1] == DigitChar(a % 10);
      assert db[|db| - 1] == DigitChar(b % 10);
      assert DigitChar(a % 10) as int == 48 + a % 10;
      assert DigitChar(b % 10) as int == 48 + b % 10;
      assert da[..|da| - 1] == Decimal(a / 10);
      assert db[..|db| - 1] == Decimal(b / 10);
      DecimalInjective(a / 10, b / 10);
    }
  }
}
