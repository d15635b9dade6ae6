/** String helpers with the meaning JavaScript gives them: the `\s` class, `trim`,
    `toLowerCase` (restricted to ASCII) and `includes`. */
module Text {
  import opened Wrappers

  /** JavaScript's `\s`: the WhiteSpace and LineTerminator code points of ECMAScript;
      `String.prototype.trim` strips the same set. */
  predicate IsSpace(c: char) {
    var n := c as int;
    n == 0x09 || n == 0x0A || n == 0x0B || n == 0x0C || n == 0x0D || n == 0x20 ||
    n == 0xA0 || n == 0x1680 || (0x2000 <= n <= 0x200A) || n == 0x2028 || n == 0x2029 ||
    n == 0x202F || n == 0x205F || n == 0x3000 || n == 0xFEFF
  }

  /** Some character is not whitespace. */
  predicate HasNonSpace(s: string) {
    exists i | 0 <= i < |s| :: !IsSpace(s[i])
  }

  /** Drops leading whitespace. */
  function TrimStart(s: string): (r: string)
    ensures |r| <= |s| && r == s[|s| - |r|..]
    ensures forall i | 0 <= i < |s| - |r| :: IsSpace(s[i])
    ensures r != [] ==> !IsSpace(r[0])
  {
    if |s| > 0 && IsSpace(s[0]) then TrimStart(s[1..]) else s
  }

  /** Drops trailing whitespace. */
  function TrimEnd(s: string): (r: string)
    ensures |r| <= |s| && r == s[..|r|]
    ensures forall i | |r| <= i < |s| :: IsSpace(s[i])
    ensures r != [] ==> !IsSpace(r[|r| - 1])
  {
    if |s| > 0 && IsSpace(s[|s| - 1]) then TrimEnd(s[..|s| - 1]) else s
  }

  /** `String.prototype.trim`. */
  function Trim(s: string): string {
    TrimEnd(TrimStart(s))
  }

  /** A string trims to the empty string exactly when every character is whitespace;
      this is the truthiness test `name.trim()`. */
  lemma TrimmedNonEmptyIff(s: string)
    ensures Trim(s) != "" <==> HasNonSpace(s)
  {
    var a := TrimStart(s);
    var b := TrimEnd(a);
    if b != "" {
      assert !IsSpace(s[|s| - |a|]);
    } else {
      // a non-empty `a` starts with a non-space, which `TrimEnd` would keep
      assert a == "";
    }
  }

  /** ASCII part of `toLowerCase`. */
  function LowerChar(c: char): char {
    if 'A' <= c <= 'Z' then (c as int + 32) as char else c
  }

  function Lower(s: string): (r: string)
    ensures |r| == |s| && forall i | 0 <= i < |s| :: r[i] == LowerChar(s[i])
  {
    seq(|s|, i requires 0 <= i < |s| => LowerChar(s[i]))
  }

  predicate IsPrefix(p: string, s: string) {
    |p| <= |s| && s[..|p|] == p
  }

  /** `sub` sits in `s` starting at position `i`. */
  predicate OccursAt(s: string, sub: string, i: int) {
    0 <= i && i + |sub| <= |s| && s[i..i + |sub|] == sub
  }

  /** `s.includes(sub)`: `sub` occurs in `s` at some position. */
  function Contains(s: string, sub: string): (r: bool)
    ensures r <==> exists i :: OccursAt(s, sub, i)
    decreases |s|
  {
    if IsPrefix(sub, s) then
      assert OccursAt(s, sub, 0);
      true
    else if |s| == 0 then
      false
    else
      var rest := Contains(s[1..], sub);
      assert forall i :: OccursAt(s[1..], sub, i) <==> OccursAt(s, sub, i + 1);
      assert forall i :: OccursAt(s, sub, i) ==> i > 0 && OccursAt(s[1..], sub, i - 1);
      rest
  }

  /** First position of `c` in `s`, as `indexOf` but `None` for -1. */
  function FirstIndex(s: string, c: char): (r: Option<nat>)
    ensures r.None? <==> c !in s
    ensures r.Some? ==> r.value < |s| && s[r.value] == c && c !in s[..r.value]
  {
    if |s| == 0 then None
    else if s[0] == c then Some(0)
    else match FirstIndex(s[1..], c)
      case None => None
      case Some(k) =>
        assert s[..k + 1] == [s[0]] + s[1..][..k];
        Some(k + 1)
  }

  /** One run of `[^\s@]+`. */
  predicate Token(t: string) {
    |t| > 0 && forall k | 0 <= k < |t| :: !IsSpace(t[k]) && t[k] != '@'
  }

  /** `s` is token `s[..i]`, `@` at `i`, token `s[i+1..j]`, `.` at `j`, token `s[j+1..]`. */
  predicate EmailSplit(s: string, i: int, j: int) {
    0 <= i < j < |s| &&
    Token(s[..i]) && s[i] == '@' && Token(s[i + 1..j]) && s[j] == '.' && Token(s[j + 1..])
  }

  /** What `/^[^\s@]+@[^\s@]+\.[^\s@]+$/.test(s)` means, read off the pattern:
      `s` splits as a token, `@`, a token, `.`, a token. */
  ghost predicate MatchesEmailPattern(s: string) {
    exists i, j :: EmailSplit(s, i, j)
  }

  /** The part after the `@`: a token with a `.` that is neither its first nor its last character. */
  predicate DomainOk(d: string) {
    |d| >= 3 && Token(d) && '.' in d[1..|d| - 1]
  }

  /** A decision procedure for the email pattern. */
  function ValidEmail(s: string): (r: bool)
    ensures r <==> MatchesEmailPattern(s)
  {
    match FirstIndex(s, '@')
    case None =>
      NoAtMeansNoMatch(s);
      false
    case Some(i) =>
      var ok := i > 0 && Token(s[..i]) && DomainOk(s[i + 1..]);
      SplitFromDomain(s, i);
      SplitGivesDomain(s, i);
      ok
  }

  lemma NoAtMeansNoMatch(s: string)
    requires '@' !in s
    ensures !MatchesEmailPattern(s)
  {
    forall i, j | 0 <= i < j < |s| ensures !EmailSplit(s, i, j) {
      assert s[i] in s;
    }
  }

  lemma SplitFromDomain(s: string, i: nat)
    requires i < |s| && s[i] == '@'
    ensures i > 0 && Token(s[..i]) && DomainOk(s[i + 1..]) ==> MatchesEmailPattern(s)
  {
    if i > 0 && Token(s[..i]) && DomainOk(s[i + 1..]) {
      SplitAt(s, i);
    }
  }

  lemma SplitAt(s: string, i: nat)
    requires i < |s| && s[i] == '@'
    requires i > 0 && Token(s[..i]) && DomainOk(s[i + 1..])
    ensures MatchesEmailPattern(s)
  {
    var d := s[i + 1..];
    var m :| 0 <= m < |d[1..|d| - 1]| && d[1..|d| - 1][m] == '.';
    var j := i + 2 + m;
    assert s[i + 1..j] == d[..m + 1];
    assert s[j + 1..] == d[m + 2..];
    assert EmailSplit(s, i, j);
  }

  lemma SplitGivesDomain(s: string, i: nat)
    requires i < |s| && s[i] == '@' && '@' !in s[..i]
    ensures MatchesEmailPattern(s) ==> i > 0 && Token(s[..i]) && DomainOk(s[i + 1..])
  {
    if MatchesEmailPattern(s) {
      var j :| EmailSplit(s, i, j) by {
        var i', j' :| EmailSplit(s, i', j');
        assert i' == i by {
          assert forall k | 0 <= k < i :: s[..i][k] == s[k];
          assert forall k | 0 <= k < i' :: s[..i'][k] == s[k];
        }
      }
      SplitDomain(s, i, j);
    }
  }

  lemma SplitDomain(s: string, i: nat, j: nat)
    requires EmailSplit(s, i, j)
    ensures i > 0 && Token(s[..i]) && DomainOk(s[i + 1..])
  {
    var d, b, c := s[i + 1..], s[i + 1..j], s[j + 1..];
    assert d == b + ['.'] + c;
    forall k | 0 <= k < |d| ensures !IsSpace(d[k]) && d[k] != '@' {
      if k < |b| { assert d[k] == b[k]; }
      else if k > |b| { assert d[k] == c[k - |b| - 1]; }
    }
    assert d[1..|d| - 1][|b| - 1] == '.';
  }
}
