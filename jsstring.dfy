/** The three JavaScript string built-ins the prompt handling relies on:
    String.prototype.trim, String.prototype.split(' ') and Array.prototype.join(' '),
    on strings as sequences of code points. */
module JsString {

  /** The code points `trim` removes: ECMAScript WhiteSpace (TAB, VT, FF, ZWNBSP and
      every Unicode "Zs" space separator) and LineTerminator (LF, CR, LS, PS). */
  predicate IsWhiteSpace(c: char) {
    c == '\t' || c == '\n' || c == '\U{B}' || c == '\U{C}' || c == '\r' || c == ' ' ||
    c == '\U{A0}' || c == '\U{1680}' || ('\U{2000}' <= c <= '\U{200A}') ||
    c == '\U{2028}' || c == '\U{2029}' || c == '\U{202F}' || c == '\U{205F}' ||
    c == '\U{3000}' || c == '\U{FEFF}'
  }

  predicate IsBlank(s: string) {
    forall i :: 0 <= i < |s| ==> IsWhiteSpace(s[i])
  }

  /** Drops the leading white space. */
  function TrimStart(s: string): string {
    if s != [] && IsWhiteSpace(s[0]) then TrimStart(s[1..]) else s
  }

  /** Drops the trailing white space. */
  function TrimEnd(s: string): string {
    if s != [] && IsWhiteSpace(s[|s| - 1]) then TrimEnd(s[..|s| - 1]) else s
  }

  /** What `TrimStart` keeps is a suffix of `s` that starts with a character that is not
      white space, and everything it drops is white space. */
  lemma {:induction false} TrimStartSpec(s: string)
    ensures var r := TrimStart(s);
      && |r| <= |s| && r == s[|s| - |r|..]
      && (r == [] || !IsWhiteSpace(r[0]))
      && IsBlank(s[..|s| - |r|])
  {
    if s != [] && IsWhiteSpace(s[0]) {
      TrimStartSpec(s[1..]);
      var r := TrimStart(s);
      var k := |s| - |r|;
      assert s[1..][..k - 1] == s[1..k];
      assert forall i :: 1 <= i < k ==> s[i] == s[1..k][i - 1];
    }
  }

  /** What `TrimEnd` keeps is a prefix of `s` that ends with a character that is not
      white space, and everything it drops is white space. */
  lemma {:induction false} TrimEndSpec(s: string)
    ensures var r := TrimEnd(s);
      && |r| <= |s| && r == s[..|r|]
      && (r == [] || !IsWhiteSpace(r[|r| - 1]))
      && IsBlank(s[|r|..])
  {
    if s != [] && IsWhiteSpace(s[|s| - 1]) {
      var init := s[..|s| - 1];
      TrimEndSpec(init);
      var r := TrimEnd(s);
      assert init[..|r|] == s[..|r|];
      assert forall i :: |r| <= i < |s| - 1 ==> s[i] == init[|r|..][i - |r|];
    }
  }

  /** `s.trim()`. */
  function Trim(s: string): string {
    TrimEnd(TrimStart(s))
  }

  /** The trimmed string is a slice of the input with white space removed at both ends
      only, and nothing but white space was removed. */
  lemma TrimIsInnerSlice(s: string)
    ensures var r := Trim(s);
      exists k :: 0 <= k && k + |r| <= |s| && r == s[k..k + |r|] &&
        IsBlank(s[..k]) && IsBlank(s[k + |r|..])
    ensures Trim(s) == [] || (!IsWhiteSpace(Trim(s)[0]) && !IsWhiteSpace(Trim(s)[|Trim(s)| - 1]))
  {
    var t := TrimStart(s);
    var r := TrimEnd(t);
    TrimStartSpec(s);
    TrimEndSpec(t);
    var k := |s| - |t|;
    assert r == s[k..k + |r|];
    assert s[k + |r|..] == t[|r|..];
    assert r != [] ==> r[0] == t[0];
  }

  /** `trim()` yields the empty string exactly when the input is all white space. */
  lemma TrimEmptyIffBlank(s: string)
    ensures Trim(s) == [] <==> IsBlank(s)
  {
    var t := TrimStart(s);
    TrimStartSpec(s);
    TrimEndSpec(t);
    if Trim(s) == [] {
      assert t[0..] == t;
      assert t == [];
      assert s[..|s|] == s;
    } else {
      assert t[0] == s[|s| - |t|];
    }
  }

  /** A string with a character that is not white space never trims to "". */
  lemma TrimNotEmpty(s: string, i: nat)
    requires i < |s| && !IsWhiteSpace(s[i])
    ensures Trim(s) != []
  {
    TrimEmptyIffBlank(s);
  }

  /** `a || fallback` for a string `a`: the empty string is falsy. */
  function OrElse(a: string, fallback: string): (r: string)
    ensures a != [] ==> r == a
    ensures a == [] ==> r == fallback
    ensures r != [] <== a != [] || fallback != []
  {
    if a != [] then a else fallback
  }

  /** The number of `' '` characters in `s`. */
  function SpaceCount(s: string): nat {
    if s == [] then 0 else (if s[0] == ' ' then 1 else 0) + SpaceCount(s[1..])
  }

  /** Spaces in a concatenation are the spaces of its parts. */
  lemma {:induction false} SpaceCountAppend(a: string, b: string)
    ensures SpaceCount(a + b) == SpaceCount(a) + SpaceCount(b)
  {
    if a == [] {
      assert a + b == b;
    } else {
      assert (a + b)[1..] == a[1..] + b;
      SpaceCountAppend(a[1..], b);
    }
  }

  /** `s.split(' ')`: the pieces between consecutive spaces, one more than there are
      spaces. */
  function Split(s: string): (pieces: seq<string>)
    ensures |pieces| == SpaceCount(s) + 1
  {
    if s == [] then [""]
    else
      var rest := Split(s[1..]);
      if s[0] == ' ' then [""] + rest
      else [[s[0]] + rest[0]] + rest[1..]
  }

  /** `pieces.join(' ')`. */
  function Join(pieces: seq<string>): string
    requires |pieces| >= 1
  {
    if |pieces| == 1 then pieces[0] else pieces[0] + " " + Join(pieces[1..])
  }

  predicate NoSpaces(pieces: seq<string>) {
    forall i :: 0 <= i < |pieces| ==> ' ' !in pieces[i]
  }

  /** No piece of a split contains a space. */
  lemma {:induction false} SplitHasNoSpaces(s: string)
    ensures NoSpaces(Split(s))
  {
    if s != [] {
      SplitHasNoSpaces(s[1..]);
      var rest := Split(s[1..]);
      if s[0] != ' ' {
        assert ' ' !in [s[0]] + rest[0];
        assert forall i :: 1 <= i < |Split(s)| ==> Split(s)[i] == rest[i];
      } else {
        assert forall i :: 1 <= i < |Split(s)| ==> Split(s)[i] == rest[i - 1];
      }
    }
  }

  /** Joining the pieces of a split gives back the original string. */
  lemma {:induction false} JoinSplit(s: string)
    ensures Join(Split(s)) == s
  {
    if s != [] {
      var rest := Split(s[1..]);
      JoinSplit(s[1..]);
      if s[0] == ' ' {
        assert ([""] + rest)[1..] == rest;
        assert s == [' '] + s[1..];
      } else {
        JoinExtendsFirst([s[0]], rest);
        assert s == [s[0]] + s[1..];
      }
    }
  }

  /** Prefixing the first piece prefixes the join. */
  lemma {:induction false} JoinExtendsFirst(w: string, pieces: seq<string>)
    requires |pieces| >= 1
    ensures Join([w + pieces[0]] + pieces[1..]) == w + Join(pieces)
  {
    assert ([w + pieces[0]] + pieces[1..])[1..] == pieces[1..];
  }

  /** Splitting a space-free word followed by a space splits off exactly that word. */
  lemma {:induction false} SplitAfterWord(w: string, t: string)
    requires ' ' !in w
    ensures Split(w + " " + t) == [w] + Split(t)
  {
    if w == [] {
      assert (w + " " + t)[1..] == t;
    } else {
      var s := w + " " + t;
      assert s[1..] == w[1..] + " " + t;
      SplitAfterWord(w[1..], t);
      assert [w[0]] + w[1..] == w;
    }
  }

  /** A space-free string splits into itself alone. */
  lemma {:induction false} SplitWord(w: string)
    requires ' ' !in w
    ensures Split(w) == [w]
  {
    if w != [] {
      SplitWord(w[1..]);
      assert [w[0]] + w[1..] == w;
    }
  }

  /** Splitting a join of space-free pieces gives back the pieces. */
  lemma {:induction false} SplitJoin(pieces: seq<string>)
    requires |pieces| >= 1 && NoSpaces(pieces)
    ensures Split(Join(pieces)) == pieces
  {
    if |pieces| == 1 {
      SplitWord(pieces[0]);
    } else {
      SplitJoin(pieces[1..]);
      SplitAfterWord(pieces[0], Join(pieces[1..]));
      assert [pieces[0]] + pieces[1..] == pieces;
    }
  }

  /** Joining the first `k` pieces, a space, and the rest is joining them all. */
  lemma {:induction false} JoinAppend(pieces: seq<string>, k: nat)
    requires 1 <= k < |pieces|
    ensures Join(pieces[..k]) + " " + Join(pieces[k..]) == Join(pieces)
  {
    if k > 1 {
      var tail := pieces[1..];
      JoinAppend(tail, k - 1);
      assert pieces[..k][1..] == tail[..k - 1];
      assert tail[k - 1..] == pieces[k..];
    }
  }
}
