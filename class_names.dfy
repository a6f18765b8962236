/**
 * The `cx` class-string composer that both widgets define identically:
 * keep the truthy parts (a falsy part is `false`, `null`, `undefined` or `''`)
 * and join them with single spaces.
 *
 * `Split` is String.prototype.split(' '). It splits at U+0020 only and keeps
 * empty fields. It inverts the join on a non-empty list of space-free words,
 * where its fields are the words the join put together. Its fields are not
 * the ASCII-whitespace tokens of a class attribute.
 */
module ClassNames {
  import opened Wrappers

  /** A part given to `cx`: `None` for `false`, `null` and `undefined`. */
  type Part = Option<string>

  predicate Truthy(p: Part) {
    p.Some? && p.value != ""
  }

  /** What the filter keeps of one part. */
  function KeptOne(p: Part): seq<string> {
    if Truthy(p) then [p.value] else []
  }

  /** `parts.filter(Boolean)`: the texts of the truthy parts, in order. */
  function Kept(parts: seq<Part>): (ws: seq<string>)
    ensures |ws| <= |parts|
    ensures forall i :: 0 <= i < |ws| ==> ws[i] != ""
  {
    if parts == [] then []
    else KeptOne(parts[0]) + Kept(parts[1..])
  }

  /** `ws.join(' ')`. */
  function Join(ws: seq<string>): (s: string)
    ensures ws == [] ==> s == ""
    ensures ws != [] ==> ws[0] <= s
  {
    if |ws| == 0 then ""
    else if |ws| == 1 then ws[0]
    else ws[0] + " " + Join(ws[1..])
  }

  /** `cx(...parts)`. */
  function Cx(parts: seq<Part>): string {
    Join(Kept(parts))
  }

  /** The index of the first space in `s`, or `|s|` when there is none. */
  function SpaceIndex(s: string): (i: nat)
    ensures i <= |s|
    ensures forall k :: 0 <= k < i ==> s[k] != ' '
    ensures i < |s| ==> s[i] == ' '
  {
    if s == [] || s[0] == ' ' then 0 else 1 + SpaceIndex(s[1..])
  }

  /** `s.split(' ')`: the fields between single spaces (always at least one). */
  function Split(s: string): (r: seq<string>)
    ensures |r| >= 1
    decreases |s|
  {
    var i := SpaceIndex(s);
    if i == |s| then [s] else [s[..i]] + Split(s[i + 1..])
  }

  predicate NoSpace(w: string) {
    forall k :: 0 <= k < |w| ==> w[k] != ' '
  }

  /** Splitting a join of a non-empty list of space-free words gives the words back. */
  lemma {:induction false} SplitJoin(ws: seq<string>)
    requires |ws| >= 1
    requires forall i :: 0 <= i < |ws| ==> NoSpace(ws[i])
    ensures Split(Join(ws)) == ws
  {
    var w := ws[0];
    var s := Join(ws);
    var i := SpaceIndex(s);
    if |ws| == 1 {
      assert NoSpace(w);
    } else {
      assert s == w + " " + Join(ws[1..]);
      assert i == |w| by {
        assert NoSpace(w);
        assert forall k :: 0 <= k < |w| ==> s[k] == w[k];
        assert s[|w|] == ' ';
      }
      assert s[..i] == w;
      assert s[i + 1..] == Join(ws[1..]);
      SplitJoin(ws[1..]);
    }
  }

  /** Filtering a part followed by others. */
  lemma KeptCons(p: Part, rest: seq<Part>)
    ensures Kept([p] + rest) == KeptOne(p) + Kept(rest)
  {
    assert ([p] + rest)[1..] == rest;
  }

  /** Filtering six parts, one by one. */
  lemma KeptSix(a: Part, b: Part, c: Part, d: Part, e: Part, f: Part)
    ensures Kept([a, b, c, d, e, f])
            == KeptOne(a) + (KeptOne(b) + (KeptOne(c) + (KeptOne(d) + (KeptOne(e) + (KeptOne(f) + [])))))
  {
    var s := [a, b, c, d, e, f];
    KeptCons(a, s[1..]); assert s == [a] + s[1..];
    KeptCons(b, s[2..]); assert s[1..] == [b] + s[2..];
    KeptCons(c, s[3..]); assert s[2..] == [c] + s[3..];
    KeptCons(d, s[4..]); assert s[3..] == [d] + s[4..];
    KeptCons(e, s[5..]); assert s[4..] == [e] + s[5..];
    KeptCons(f, s[6..]); assert s[5..] == [f] + s[6..];
  }

  /** Filtering distributes over concatenation. */
  lemma {:induction false} KeptAppend(a: seq<Part>, b: seq<Part>)
    ensures Kept(a + b) == Kept(a) + Kept(b)
  {
    if a == [] {
      assert a + b == b;
    } else {
      assert (a + b)[1..] == a[1..] + b;
      KeptAppend(a[1..], b);
    }
  }

  /** Joining one more word adds a separator only when something was there before. */
  lemma {:induction false} JoinSnoc(ws: seq<string>, w: string)
    ensures Join(ws + [w]) == if ws == [] then w else Join(ws) + " " + w
  {
    if |ws| == 0 {
      assert ws + [w] == [w];
    } else if |ws| == 1 {
      assert ws + [w] == [ws[0], w];
    } else {
      assert (ws + [w])[1..] == ws[1..] + [w];
      JoinSnoc(ws[1..], w);
    }
  }

  /** `cx` of a non-empty first class and one more part. */
  lemma CxTwo(a: string, b: Part)
    requires a != ""
    ensures Cx([Some(a), b]) == if Truthy(b) then a + " " + b.value else a
  {
    assert [Some(a), b] == [Some(a)] + [b];
    assert Kept([Some(a)]) == [a] + Kept([]);
    CxSnoc([Some(a)], b);
  }

  /** A single space separates the fields of its two sides. */
  lemma SplitSep(a: string, b: string)
    requires NoSpace(a)
    ensures Split(a + " " + b) == [a] + Split(b)
  {
    var s := a + " " + b;
    var i := SpaceIndex(s);
    assert forall k :: 0 <= k < |a| ==> s[k] == a[k];
    assert s[|a|] == ' ';
    assert i == |a|;
    assert s[..i] == a && s[i + 1..] == b;
  }

  /** The fields of `cx(a, b)` for a non-empty, space-free `a`: `a`, then the fields of `b` if it is truthy. */
  lemma CxTwoFields(a: string, b: Part)
    requires a != "" && NoSpace(a)
    ensures Split(Cx([Some(a), b])) == [a] + (if Truthy(b) then Split(b.value) else [])
  {
    CxTwo(a, b);
    if Truthy(b) {
      SplitSep(a, b.value);
    } else {
      SplitJoin([a]);
    }
  }

  /** Splitting a join of a non-empty list of space-free words, one more space and a rest gives the words, then the rest's fields. */
  lemma {:induction false} SplitJoinSep(ws: seq<string>, t: string)
    requires |ws| >= 1
    requires forall i :: 0 <= i < |ws| ==> NoSpace(ws[i])
    ensures Split(Join(ws) + " " + t) == ws + Split(t)
  {
    if |ws| == 1 {
      SplitSep(ws[0], t);
    } else {
      var rest := Join(ws[1..]);
      Regroup5(ws[0], " ", rest, " ", t);
      SplitSep(ws[0], rest + " " + t);
      SplitJoinSep(ws[1..], t);
      ConsAppend(ws, Split(t));
    }
  }

  lemma Regroup5<T>(a: seq<T>, b: seq<T>, c: seq<T>, d: seq<T>, e: seq<T>)
    ensures a + b + c + d + e == a + b + (c + d + e)
  {
  }

  lemma ConsAppend<T>(s: seq<T>, u: seq<T>)
    requires |s| >= 1
    ensures [s[0]] + (s[1..] + u) == s + u
  {
    assert s == [s[0]] + s[1..];
  }

  /** The fields of a join of a non-empty list of space-free words, with a part appended after one space when it is truthy. */
  lemma JoinThenFields(ws: seq<string>, c: Part)
    requires |ws| >= 1
    requires forall i :: 0 <= i < |ws| ==> NoSpace(ws[i])
    ensures Split(Join(ws) + (if Truthy(c) then " " + c.value else ""))
            == ws + (if Truthy(c) then Split(c.value) else [])
  {
    if Truthy(c) {
      Regroup3(Join(ws), " ", c.value);
      SplitJoinSep(ws, c.value);
    } else {
      assert Join(ws) + "" == Join(ws);
      SplitJoin(ws);
      assert ws + [] == ws;
    }
  }

  lemma Regroup3<T>(a: seq<T>, b: seq<T>, c: seq<T>)
    ensures a + (b + c) == a + b + c
  {
  }

  /** A space-free word is a single field. */
  lemma SplitWord(w: string)
    requires NoSpace(w)
    ensures Split(w) == [w]
  {
  }

  /** `cx(a, b && c)` for non-empty, space-free `a` and `c`: the fields are `a`, then `c` when `b` holds. */
  lemma CxFlagFields(a: string, b: bool, c: string)
    requires a != "" && NoSpace(a) && c != "" && NoSpace(c)
    ensures Split(Cx([Some(a), if b then Some(c) else None])) == [a] + (if b then [c] else [])
  {
    CxTwoFields(a, if b then Some(c) else None);
    if b {
      SplitWord(c);
    }
  }

  /** The class string is empty exactly when no part is truthy. */
  lemma CxEmpty(parts: seq<Part>)
    ensures Cx(parts) == "" <==> Kept(parts) == []
  {
  }

  /**
   * Appending a part to `cx`: a falsy part (false, undefined, '') adds nothing;
   * a truthy one is added after a single space, or alone if nothing came before.
   */
  lemma CxSnoc(parts: seq<Part>, p: Part)
    ensures !Truthy(p) ==> Cx(parts + [p]) == Cx(parts)
    ensures Truthy(p) ==>
              Cx(parts + [p]) == (if Cx(parts) == "" then p.value else Cx(parts) + " " + p.value)
  {
    KeptAppend(parts, [p]);
    assert Kept([p]) == (if Truthy(p) then [p.value] else []) + Kept([]);
    assert Kept(parts + [p]) == Kept(parts) + (if Truthy(p) then [p.value] else []);
    if Truthy(p) {
      JoinSnoc(Kept(parts), p.value);
    } else {
      assert Kept(parts + [p]) == Kept(parts);
    }
    CxEmpty(parts);
  }

  /**
   * When no part contains a space, the fields of the class string are exactly
   * the truthy parts in their original order.
   */
  lemma CxFields(parts: seq<Part>)
    requires Kept(parts) != []
    requires forall i :: 0 <= i < |parts| && parts[i].Some? ==> NoSpace(parts[i].value)
    ensures Split(Cx(parts)) == Kept(parts)
  {
    KeptSpaceFree(parts);
    SplitJoin(Kept(parts));
  }

  lemma {:induction false} KeptSpaceFree(parts: seq<Part>)
    requires forall i :: 0 <= i < |parts| && parts[i].Some? ==> NoSpace(parts[i].value)
    ensures forall i :: 0 <= i < |Kept(parts)| ==> NoSpace(Kept(parts)[i])
  {
    if parts != [] {
      KeptSpaceFree(parts[1..]);
    }
  }
}
