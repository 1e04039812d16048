/** String helpers with JavaScript semantics: `String.prototype.trim` and the
    decimal rendering of a non-negative integer in a template literal. */
module Text {

  /** ECMAScript WhiteSpace and LineTerminator code points, the set `trim`
      removes from both ends of a string. */
  predicate IsJsWhiteSpace(c: char) {
    var n := c as int;
    n == 0x09 || n == 0x0A || n == 0x0B || n == 0x0C || n == 0x0D || n == 0x20
    || n == 0xA0 || n == 0x1680 || (0x2000 <= n <= 0x200A)
    || n == 0x2028 || n == 0x2029 || n == 0x202F || n == 0x205F
    || n == 0x3000 || n == 0xFEFF
  }

  /** Drops leading white space: the result is a suffix of `s`, everything cut
      off is white space, and the result does not start with white space. */
  function TrimStart(s: string): (r: string)
    ensures |r| <= |s| && r == s[|s| - |r|..]
    ensures forall k :: 0 <= k < |s| - |r| ==> IsJsWhiteSpace(s[k])
    ensures r != [] ==> !IsJsWhiteSpace(r[0])
  {
    if s != [] && IsJsWhiteSpace(s[0]) then TrimStart(s[1..]) else s
  }

  /** Drops trailing white space: the result is a prefix of `s`, everything cut
      off is white space, and the result does not end with white space. */
  function TrimEnd(s: string): (r: string)
    ensures |r| <= |s| && r == s[..|r|]
    ensures forall k :: |r| <= k < |s| ==> IsJsWhiteSpace(s[k])
    ensures r != [] ==> !IsJsWhiteSpace(r[|r| - 1])
  {
    if s != [] && IsJsWhiteSpace(s[|s| - 1]) then TrimEnd(s[..|s| - 1]) else s
  }

  /** Number of white-space characters `trim` removes from the front of `s`. */
  function LeadingWhiteSpace(s: string): (n: nat)
    ensures n <= |s|
  {
    |s| - |TrimStart(s)|
  }

  /** `s.trim()`: the piece of `s` after its leading white space, with no
      white space at either end, empty exactly when `s` is all white space. */
  function Trim(s: string): (r: string)
    ensures r != [] ==> !IsJsWhiteSpace(r[0]) && !IsJsWhiteSpace(r[|r| - 1])
    ensures r == [] <==> AllWhiteSpace(s)
    ensures LeadingWhiteSpace(s) + |r| <= |s|
    ensures r == s[LeadingWhiteSpace(s)..LeadingWhiteSpace(s) + |r|]
  {
    var t := TrimStart(s);
    var r := TrimEnd(t);
    TrimEnds(s, t, r);
    TrimKeepsSlice(s, t, r);
    r
  }

  /** `trim` keeps the piece of `s` that starts after its leading white
      space. */
  lemma TrimKeepsSlice(s: string, t: string, r: string)
    requires t == TrimStart(s) && r == TrimEnd(t)
    ensures LeadingWhiteSpace(s) + |r| <= |s|
    ensures r == s[LeadingWhiteSpace(s)..LeadingWhiteSpace(s) + |r|]
  {
    TrimSlice(s, t, r, LeadingWhiteSpace(s));
  }

  /** Everything `trim` drops, before and after the piece it keeps, is white
      space. */
  lemma TrimDropsOnlyWhiteSpace(s: string)
    ensures forall k :: 0 <= k < LeadingWhiteSpace(s) ==> IsJsWhiteSpace(s[k])
    ensures forall k :: LeadingWhiteSpace(s) + |Trim(s)| <= k < |s| ==> IsJsWhiteSpace(s[k])
  {
    var t := TrimStart(s);
    var r := TrimEnd(t);
    var lead := LeadingWhiteSpace(s);
    TrimSlice(s, t, r, lead);
    TrimEndCut(t, r);
    var tail := s[lead + |r|..];
    forall k | lead + |r| <= k < |s| ensures IsJsWhiteSpace(s[k]) {
      assert s[k] == tail[k - lead - |r|];
    }
  }

  /** `trim` leaves no white space at either end and nothing at all exactly
      when `s` is all white space. */
  lemma TrimEnds(s: string, t: string, r: string)
    requires t == TrimStart(s) && r == TrimEnd(t)
    ensures r != [] ==> !IsJsWhiteSpace(r[0]) && !IsJsWhiteSpace(r[|r| - 1])
    ensures r == [] <==> AllWhiteSpace(s)
  {
    TrimEmptyIffAllWhiteSpace(s, t, r);
    if r != [] {
      assert r[0] == t[0];
    }
  }

  /** With `t` the suffix of `s` from `lead` on and `r` a prefix of `t`, `r`
      sits at `lead` in `s` and `s` continues as `t` does after `r`. */
  lemma TrimSlice(s: string, t: string, r: string, lead: nat)
    requires lead + |t| == |s| && t == s[lead..] && |r| <= |t| && r == t[..|r|]
    ensures lead + |r| <= |s| && r == s[lead..lead + |r|] && s[lead + |r|..] == t[|r|..]
  {
    forall k | 0 <= k < |r| ensures r[k] == s[lead + k] {
      assert r[k] == t[k];
    }
  }

  /** What `TrimEnd` cuts off is all white space. */
  lemma TrimEndCut(t: string, r: string)
    requires r == TrimEnd(t)
    ensures AllWhiteSpace(t[|r|..])
  {
    var cut := t[|r|..];
    forall k | 0 <= k < |cut| ensures IsJsWhiteSpace(cut[k]) {
      assert cut[k] == t[|r| + k];
    }
  }

  lemma TrimEmptyIffAllWhiteSpace(s: string, t: string, r: string)
    requires t == TrimStart(s) && r == TrimEnd(t)
    ensures r == [] <==> AllWhiteSpace(s)
  {
    var lead := |s| - |t|;
    if r == [] {
      // t[0] would be white space, so t is empty and all of s was leading white space
      assert t == [];
    } else {
      assert r[0] == t[0] == s[lead];
    }
  }

  predicate AllWhiteSpace(s: string) {
    forall k :: 0 <= k < |s| ==> IsJsWhiteSpace(s[k])
  }

  lemma {:induction false} TrimStartPadded(p: string, u: string)
    requires AllWhiteSpace(p) && u != [] && !IsJsWhiteSpace(u[0])
    ensures TrimStart(p + u) == u
  {
    if p == [] {
      assert p + u == u;
    } else {
      assert (p + u)[0] == p[0];
      assert (p + u)[1..] == p[1..] + u;
      TrimStartPadded(p[1..], u);
    }
  }

  lemma {:induction false} TrimEndPadded(u: string, q: string)
    requires AllWhiteSpace(q) && u != [] && !IsJsWhiteSpace(u[|u| - 1])
    ensures TrimEnd(u + q) == u
  {
    if q == [] {
      assert u + q == u;
    } else {
      var n := |u + q|;
      assert (u + q)[n - 1] == q[|q| - 1];
      assert (u + q)[..n - 1] == u + q[..|q| - 1];
      TrimEndPadded(u, q[..|q| - 1]);
    }
  }

  /** Trimming removes exactly the white-space padding around a word that
      neither starts nor ends with white space. */
  lemma TrimPadded(p: string, w: string, q: string)
    requires AllWhiteSpace(p) && AllWhiteSpace(q)
    requires w != [] && !IsJsWhiteSpace(w[0]) && !IsJsWhiteSpace(w[|w| - 1])
    ensures Trim(p + w + q) == w
  {
    assert p + w + q == p + (w + q);
    assert (w + q)[0] == w[0];
    TrimStartPadded(p, w + q);
    TrimEndPadded(w, q);
  }

  /** Trimming twice is trimming once. */
  lemma TrimIdempotent(s: string)
    ensures Trim(Trim(s)) == Trim(s)
  {
    var r := Trim(s);
    assert TrimStart(r) == r;
    assert TrimEnd(r) == r;
  }

  predicate IsDigit(c: char) {
    '0' <= c <= '9'
  }

  function DigitChar(d: nat): (c: char)
    requires d < 10
    ensures IsDigit(c) && c as int - '0' as int == d
  {
    (d + '0' as int) as char
  }

  /** Decimal rendering of `n` as JavaScript prints an integer: at least one
      digit and no leading zero. */
  function NatToString(n: nat): (s: string)
    ensures |s| >= 1
    ensures forall k :: 0 <= k < |s| ==> IsDigit(s[k])
    ensures |s| > 1 ==> s[0] != '0'
  {
    if n < 10 then [DigitChar(n)] else NatToString(n / 10) + [DigitChar(n % 10)]
  }

  function DigitValue(c: char): (d: nat)
    requires IsDigit(c)
    ensures d < 10
  {
    c as int - '0' as int
  }

  /** Reads a string of decimal digits back as a number. */
  function ParseNat(s: string): nat
    requires forall k :: 0 <= k < |s| ==> IsDigit(s[k])
  {
    if s == [] then 0 else ParseNat(s[..|s| - 1]) * 10 + DigitValue(s[|s| - 1])
  }

  /** Parsing undoes printing. */
  lemma {:induction false} ParseNatToString(n: nat)
    ensures ParseNat(NatToString(n)) == n
  {
    if n >= 10 {
      var s := NatToString(n);
      assert s[..|s| - 1] == NatToString(n / 10);
      ParseNatToString(n / 10);
    }
  }

  /** Different numbers print differently. */
  lemma NatToStringInjective(a: nat, b: nat)
    requires NatToString(a) == NatToString(b)
    ensures a == b
  {
    ParseNatToString(a);
    ParseNatToString(b);
  }
}
