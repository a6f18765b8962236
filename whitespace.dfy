/**
 * String.prototype.trim as the Terminal uses it on the input buffer:
 * remove leading and trailing white space and line terminators
 * (section 22.1.3.32 of ECMA-262, with the WhiteSpace and LineTerminator
 * productions of sections 12.2 and 12.3).
 */
module Whitespace {

  /** The single WhiteSpace and LineTerminator code points (the range U+2000..U+200A is apart). */
  const SpaceChars: set<char> := {
    '\t', '\n', '\U{000B}', '\U{000C}', '\r', ' ', '\U{00A0}', '\U{1680}',
    '\U{2028}', '\U{2029}', '\U{202F}', '\U{205F}', '\U{3000}', '\U{FEFF}'
  }

  /** WhiteSpace or LineTerminator; the Zs category is written out for current Unicode. */
  predicate IsSpace(c: char) {
    c in SpaceChars || '\U{2000}' <= c <= '\U{200A}'
  }

  /** Every character of `s` at an index in `[lo, hi)` is white space. */
  predicate SpaceBetween(s: string, lo: int, hi: int) {
    forall k :: lo <= k < hi && 0 <= k < |s| ==> IsSpace(s[k])
  }

  predicate AllSpace(s: string) {
    SpaceBetween(s, 0, |s|)
  }

  /** The suffix of `s` left after dropping its leading white space. */
  function TrimStart(s: string): (r: string)
    ensures |r| <= |s| && r == s[|s| - |r|..]
    ensures SpaceBetween(s, 0, |s| - |r|)
    ensures r != [] ==> !IsSpace(r[0])
  {
    if s != [] && IsSpace(s[0]) then TrimStart(s[1..]) else s
  }

  /** The prefix of `s` left after dropping its trailing white space. */
  function TrimEnd(s: string): (r: string)
    ensures |r| <= |s| && r == s[..|r|]
    ensures SpaceBetween(s, |r|, |s|)
    ensures r != [] ==> !IsSpace(r[|r| - 1])
  {
    if s != [] && IsSpace(s[|s| - 1]) then TrimEnd(s[..|s| - 1]) else s
  }

  /** How much leading white space `s` has. */
  function Lead(s: string): (i: nat)
    ensures i <= |s|
  {
    |s| - |TrimStart(s)|
  }

  /** `s.trim()`: the infix of `s` between its leading and its trailing white space. */
  function Trim(s: string): (r: string)
    ensures Lead(s) + |r| <= |s| && r == s[Lead(s)..Lead(s) + |r|]
  {
    var t := TrimStart(s);
    var r := TrimEnd(t);
    assert r == s[|s| - |t|..][..|r|];
    r
  }

  /** What `trim` removes is white space, and what it keeps neither starts nor ends with any. */
  lemma TrimStrips(s: string)
    ensures SpaceBetween(s, 0, Lead(s)) && SpaceBetween(s, Lead(s) + |Trim(s)|, |s|)
    ensures Trim(s) != [] ==> !IsSpace(Trim(s)[0]) && !IsSpace(Trim(s)[|Trim(s)| - 1])
  {
    var t := TrimStart(s);
    var r := TrimEnd(t);
    var i := |s| - |t|;
    forall k | i + |r| <= k < |s| ensures IsSpace(s[k]) {
      assert s[k] == t[k - i];
    }
    assert r != [] ==> r[0] == t[0];
  }

  /** The trimmed text is empty exactly when the input is all white space. */
  lemma TrimBlank(s: string)
    ensures Trim(s) == [] <==> AllSpace(s)
  {
    TrimStrips(s);
    var t := TrimStart(s);
    var r := Trim(s);
    var i := Lead(s);
    if r != [] {
      assert s[i] == r[0];
    }
  }

  /** Dropping leading white space stops at the first other character. */
  lemma {:induction false} TrimStartPadded(pre: string, x: string)
    requires AllSpace(pre)
    requires x != [] ==> !IsSpace(x[0])
    ensures TrimStart(pre + x) == x
  {
    if pre == [] {
      assert pre + x == x;
    } else {
      assert (pre + x)[1..] == pre[1..] + x;
      TrimStartPadded(pre[1..], x);
    }
  }

  /** Dropping trailing white space stops at the last other character. */
  lemma {:induction false} TrimEndPadded(x: string, post: string)
    requires AllSpace(post)
    requires x != [] ==> !IsSpace(x[|x| - 1])
    ensures TrimEnd(x + post) == x
  {
    if post == [] {
      assert x + post == x;
    } else {
      var s := x + post;
      assert s[..|s| - 1] == x + post[..|post| - 1];
      TrimEndPadded(x, post[..|post| - 1]);
    }
  }

  /** Trimming surrounding white space off a trimmed text gives that text back. */
  lemma TrimPadded(pre: string, c: string, post: string)
    requires AllSpace(pre) && AllSpace(post)
    requires c != [] ==> !IsSpace(c[0]) && !IsSpace(c[|c| - 1])
    ensures Trim(pre + c + post) == c
  {
    assert pre + c + post == pre + (c + post);
    if c == [] {
      assert c + post == post;
      var s := pre + post;
      assert AllSpace(s) by {
        forall k | 0 <= k < |s| ensures IsSpace(s[k]) {
          if k < |pre| { assert s[k] == pre[k]; } else { assert s[k] == post[k - |pre|]; }
        }
      }
      TrimBlank(s);
    } else {
      TrimStartPadded(pre, c + post);
      TrimEndPadded(c, post);
    }
  }

  /** Trimming is idempotent. */
  lemma TrimIdempotent(s: string)
    ensures Trim(Trim(s)) == Trim(s)
  {
    var r := Trim(s);
    TrimStrips(s);
    assert AllSpace([]);
    assert r + [] + [] == r;
    TrimPadded([], r, []);
  }
}
