/** String trimming as ECMAScript's String.prototype.trim performs it: strip the
    WhiteSpace and LineTerminator code points from both ends of a string. */
module Text {

  /** The code points ECMAScript classifies as WhiteSpace (TAB, VT, FF, ZWNBSP and the
      space separators) or LineTerminator (LF, CR, LS, PS). */
  predicate IsWhiteSpace(c: char) {
    var n := c as int;
    n == 0x09 || n == 0x0A || n == 0x0B || n == 0x0C || n == 0x0D ||
    n == 0x20 || n == 0xA0 || n == 0x1680 || (0x2000 <= n <= 0x200A) ||
    n == 0x2028 || n == 0x2029 || n == 0x202F || n == 0x205F ||
    n == 0x3000 || n == 0xFEFF
  }

  predicate AllWhiteSpace(s: string) {
    forall k :: 0 <= k < |s| ==> IsWhiteSpace(s[k])
  }

  /** The length of the run of white space that starts `s`. */
  function LeadingWhiteSpace(s: string): (n: nat)
    ensures n <= |s|
    ensures forall k :: 0 <= k < n ==> IsWhiteSpace(s[k])
    ensures n < |s| ==> !IsWhiteSpace(s[n])
  {
    if s != [] && IsWhiteSpace(s[0]) then 1 + LeadingWhiteSpace(s[1..]) else 0
  }

  /** The length of the run of white space that ends `s`. */
  function TrailingWhiteSpace(s: string): (n: nat)
    ensures n <= |s|
    ensures forall k :: |s| - n <= k < |s| ==> IsWhiteSpace(s[k])
    ensures n < |s| ==> !IsWhiteSpace(s[|s| - 1 - n])
  {
    if s != [] && IsWhiteSpace(s[|s| - 1]) then 1 + TrailingWhiteSpace(s[..|s| - 1]) else 0
  }

  /** `s.trim()`: first the leading white space is cut off, then the trailing white
      space of what is left. What remains neither starts nor ends with white space. */
  function Trim(s: string): (r: string)
    ensures r != [] ==> !IsWhiteSpace(r[0]) && !IsWhiteSpace(r[|r| - 1])
  {
    var t := s[LeadingWhiteSpace(s)..];
    assert t != [] ==> t[0] == s[LeadingWhiteSpace(s)];
    t[..|t| - TrailingWhiteSpace(t)]
  }

  /** Trim keeps one contiguous slice of `s`, the one that starts after the leading
      run of white space, and everything it cuts off on either side is white space. */
  lemma TrimIsSlice(s: string)
    ensures var r := Trim(s);
            var i := LeadingWhiteSpace(s);
            && i + |r| <= |s| && r == s[i..i + |r|]
            && (forall k :: 0 <= k < |s| && !(i <= k < i + |r|) ==> IsWhiteSpace(s[k]))
  {
    var i := LeadingWhiteSpace(s);
    var t := s[i..];
    var r := t[..|t| - TrailingWhiteSpace(t)];
    assert r == s[i..i + |r|];
    forall k | 0 <= k < |s| && !(i <= k < i + |r|) ensures IsWhiteSpace(s[k]) {
      if k >= i {
        assert s[k] == t[k - i];
      }
    }
  }

  /** A name trims to the empty string exactly when it is made of white space alone. */
  lemma TrimEmptyIff(s: string)
    ensures Trim(s) == [] <==> AllWhiteSpace(s)
  {
    var i := LeadingWhiteSpace(s);
    TrimIsSlice(s);
    if AllWhiteSpace(s) {
      assert i == |s|;
    }
  }

  /** Trimming a trimmed string changes nothing, so a stored trimmed name is its own trim. */
  lemma {:induction false} TrimIdempotent(s: string)
    ensures Trim(Trim(s)) == Trim(s)
  {
    var t := Trim(s);
    if t != [] {
      assert LeadingWhiteSpace(t) == 0;
      assert TrailingWhiteSpace(t) == 0;
    }
  }
}
