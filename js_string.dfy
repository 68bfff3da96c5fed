/**
 * The few JavaScript string built-ins the board relies on: `trim`, `split`
 * followed by `pop`, and the decimal text a template literal gives a number.
 */
module JsString {

  /** The WhiteSpace and LineTerminator characters of ECMAScript, which `trim` strips. */
  predicate IsWhitespace(c: char) {
    || c == '\t' || c == '\n' || c == '\U{000B}' || c == '\U{000C}' || c == '\r'
    || c == ' ' || c == '\U{00A0}' || c == '\U{1680}' || ('\U{2000}' <= c <= '\U{200A}')
    || c == '\U{2028}' || c == '\U{2029}' || c == '\U{202F}' || c == '\U{205F}'
    || c == '\U{3000}' || c == '\U{FEFF}'
  }

  predicate AllWhitespace(s: string) {
    forall i :: 0 <= i < |s| ==> IsWhitespace(s[i])
  }

  /** Drops the leading whitespace: what is kept is a suffix, what is dropped is all whitespace. */
  function TrimStart(s: string): (r: string)
    ensures |r| <= |s| && r == s[|s| - |r|..]
    ensures AllWhitespace(s[..|s| - |r|])
    ensures r == [] || !IsWhitespace(r[0])
  {
    if s == [] || !IsWhitespace(s[0]) then s
    else
      var r := TrimStart(s[1..]);
      assert s[1..][..|s| - 1 - |r|] == s[1..|s| - |r|];
      r
  }

  /** Drops the trailing whitespace: what is kept is a prefix, what is dropped is all whitespace. */
  function TrimEnd(s: string): (r: string)
    ensures |r| <= |s| && r == s[..|r|]
    ensures AllWhitespace(s[|r|..])
    ensures r == [] || !IsWhitespace(r[|r| - 1])
  {
    if s == [] || !IsWhitespace(s[|s| - 1]) then s
    else
      var r := TrimEnd(s[..|s| - 1]);
      assert s[..|s| - 1][|r|..] == s[|r|..|s| - 1];
      r
  }

  /** `s.trim()`: the text between the leading and the trailing whitespace; empty exactly when `s` is all whitespace. */
  function Trim(s: string): (r: string)
    ensures |r| <= |s| - TrimOffset(s) && r == s[TrimOffset(s)..TrimOffset(s) + |r|]
    ensures AllWhitespace(s[TrimOffset(s) + |r|..])
    ensures r != [] ==> !IsWhitespace(r[0]) && !IsWhitespace(r[|r| - 1])
    ensures r == [] <==> AllWhitespace(s)
  {
    var t := TrimStart(s);
    var r := TrimEnd(t);
    TrimmedParts(s, t, r);
    r
  }

  /** How many leading whitespace characters `trim` drops from `s`. */
  function TrimOffset(s: string): (k: nat)
    ensures k <= |s| && AllWhitespace(s[..k])
  {
    |s| - |TrimStart(s)|
  }

  lemma TrimmedParts(s: string, t: string, r: string)
    requires t == TrimStart(s) && r == TrimEnd(t)
    ensures r == s[TrimOffset(s)..TrimOffset(s) + |r|]
    ensures AllWhitespace(s[TrimOffset(s) + |r|..])
    ensures r == [] <==> AllWhitespace(s)
  {
    TrimmedPiece(s, t, r, TrimOffset(s));
  }

  /** The piece `r` kept at the front of `t`, itself kept at offset `k` of `s`. */
  lemma TrimmedPiece(s: string, t: string, r: string, k: nat)
    requires k <= |s| && t == s[k..] && AllWhitespace(s[..k])
    requires |r| <= |t| && r == t[..|r|] && AllWhitespace(t[|r|..])
    requires r == [] || !IsWhitespace(r[0])
    ensures r == s[k..k + |r|]
    ensures AllWhitespace(s[k + |r|..])
    ensures r == [] <==> AllWhitespace(s)
  {
    assert s[k + |r|..] == t[|r|..];
    if r == [] {
      assert t[|r|..] == t;
      WhitespaceAround(s, k);
    } else {
      NotAllWhitespace(s, k, r[0]);
    }
  }

  /** Text holding a character that is not whitespace is not all whitespace. */
  lemma NotAllWhitespace(s: string, k: nat, c: char)
    requires k < |s| && s[k] == c && !IsWhitespace(c)
    ensures !AllWhitespace(s)
  {
  }

  /** Text whose two parts around `k` are all whitespace is all whitespace. */
  lemma WhitespaceAround(s: string, k: nat)
    requires k <= |s|
    requires AllWhitespace(s[..k])
    ensures AllWhitespace(s[k..]) ==> AllWhitespace(s)
  {
    if AllWhitespace(s[k..]) {
      forall i | 0 <= i < |s| ensures IsWhitespace(s[i]) {
        if i < k {
          assert s[..k][i] == s[i];
        } else {
          assert s[k..][i - k] == s[i];
        }
      }
    }
  }

  /**
   * `s.split(sep)`: the pieces between separators, never an empty list. No
   * piece holds the separator and joining them gives back the text, which
   * together determine the pieces.
   */
  function Split(s: string, sep: char): (r: seq<string>)
    ensures |r| >= 1
    ensures forall i :: 0 <= i < |r| ==> sep !in r[i]
    ensures Join(r, sep) == s
  {
    SplitFromPieces(s, sep, []);
    JoinSplitFrom(s, sep, []);
    assert [] + s == s;
    SplitFrom(s, sep, [])
  }

  /** Splitting `s` when the piece in progress already holds `piece`. */
  function SplitFrom(s: string, sep: char, piece: string): (r: seq<string>)
    ensures |r| >= 1
  {
    if s == [] then [piece]
    else if s[0] == sep then [piece] + SplitFrom(s[1..], sep, [])
    else SplitFrom(s[1..], sep, piece + [s[0]])
  }

  /** `parts.join(sep)`: the inverse of `Split`. */
  function Join(parts: seq<string>, sep: char): string {
    if |parts| == 0 then []
    else if |parts| == 1 then parts[0]
    else parts[0] + [sep] + Join(parts[1..], sep)
  }

  /** `xs.pop()` on a non-empty list, as a value: its last element. */
  function Last<T>(xs: seq<T>): (r: T)
    requires |xs| > 0
    ensures xs == xs[..|xs| - 1] + [r]
  {
    xs[|xs| - 1]
  }

  /** No piece of a split from a separator-free piece in progress holds the separator. */
  lemma {:induction false} SplitFromPieces(s: string, sep: char, piece: string)
    requires sep !in piece
    ensures forall i :: 0 <= i < |SplitFrom(s, sep, piece)| ==> sep !in SplitFrom(s, sep, piece)[i]
  {
    if s != [] {
      if s[0] == sep {
        SplitFromPieces(s[1..], sep, []);
      } else {
        SplitFromPieces(s[1..], sep, piece + [s[0]]);
      }
    }
  }

  /** Joining the pieces of a split from `piece` gives back `piece + s`. */
  lemma {:induction false} JoinSplitFrom(s: string, sep: char, piece: string)
    ensures Join(SplitFrom(s, sep, piece), sep) == piece + s
  {
    if s == [] {
      assert piece + s == piece;
    } else if s[0] == sep {
      JoinSplitFrom(s[1..], sep, []);
      var rest := SplitFrom(s[1..], sep, []);
      assert ([piece] + rest)[1..] == rest;
      assert [] + s[1..] == s[1..];
      assert piece + [sep] + s[1..] == piece + s;
    } else {
      JoinSplitFrom(s[1..], sep, piece + [s[0]]);
      assert piece + [s[0]] + s[1..] == piece + s;
    }
  }

  /** Text without the separator splits into itself alone. */
  lemma SplitWithoutSep(s: string, sep: char)
    requires sep !in s
    ensures Split(s, sep) == [s]
  {
    SplitFromWithoutSep(s, sep, []);
    assert [] + s == s;
  }

  lemma {:induction false} SplitFromWithoutSep(s: string, sep: char, piece: string)
    requires sep !in s
    ensures SplitFrom(s, sep, piece) == [piece + s]
  {
    if s == [] {
      assert piece + s == piece;
    } else {
      SplitFromWithoutSep(s[1..], sep, piece + [s[0]]);
      assert piece + [s[0]] + s[1..] == piece + s;
    }
  }

  /** A separator between `a` and `b` splits the text into the pieces of `a` followed by the pieces of `b`. */
  lemma SplitAtSep(a: string, b: string, sep: char)
    ensures Split(a + [sep] + b, sep) == Split(a, sep) + Split(b, sep)
  {
    SplitFromAtSep(a, b, sep, []);
  }

  lemma {:induction false} SplitFromAtSep(a: string, b: string, sep: char, piece: string)
    ensures SplitFrom(a + [sep] + b, sep, piece) == SplitFrom(a, sep, piece) + SplitFrom(b, sep, [])
  {
    var s := a + [sep] + b;
    if a == [] {
      assert s[0] == sep && s[1..] == b;
    } else {
      assert s[0] == a[0] && s[1..] == a[1..] + [sep] + b;
      if a[0] == sep {
        SplitFromAtSep(a[1..], b, sep, []);
      } else {
        SplitFromAtSep(a[1..], b, sep, piece + [a[0]]);
      }
    }
  }

  /** The end of `s` after its last separator, with no separator in it. */
  predicate IsLastPiece(p: string, s: string, sep: char) {
    && sep !in p
    && |p| <= |s| && p == s[|s| - |p|..]
    && (sep !in s ==> p == s)
    && (sep in s ==> |p| < |s| && s[|s| - |p| - 1] == sep)
  }

  /**
   * The last piece of a split is the end of the text after its last separator:
   * a suffix without `sep`, the whole text when there is no separator, and
   * otherwise preceded by a separator.
   */
  lemma LastPiece(s: string, sep: char)
    ensures IsLastPiece(Last(Split(s, sep)), s, sep)
  {
    LastPieceFrom(s, sep, []);
    assert [] + s == s;
  }

  /** The last piece when splitting from a piece in progress is the end of `piece + s` after its last separator. */
  lemma {:induction false} LastPieceFrom(s: string, sep: char, piece: string)
    requires sep !in piece
    ensures IsLastPiece(Last(SplitFrom(s, sep, piece)), piece + s, sep)
  {
    if s == [] {
      assert piece + s == piece;
    } else if s[0] == sep {
      var rest := SplitFrom(s[1..], sep, []);
      LastPieceFrom(s[1..], sep, []);
      assert SplitFrom(s, sep, piece) == [piece] + rest;
      assert Last([piece] + rest) == Last(rest);
      assert [] + s[1..] == s[1..];
      LastPieceAfterSep(piece, s, sep, Last(rest));
    } else {
      var longer := piece + [s[0]];
      LastPieceFrom(s[1..], sep, longer);
      assert SplitFrom(s, sep, piece) == SplitFrom(s[1..], sep, longer);
      SameText(Last(SplitFrom(s[1..], sep, longer)), longer + s[1..], piece + s, sep);
    }
  }

  lemma SameText(p: string, t: string, u: string, sep: char)
    requires IsLastPiece(p, t, sep)
    requires t == u
    ensures IsLastPiece(p, u, sep)
  {
  }

  /** A separator followed by text whose last piece is `p` gives the same last piece. */
  lemma LastPieceAfterSep(piece: string, s: string, sep: char, p: string)
    requires s != [] && s[0] == sep
    requires IsLastPiece(p, s[1..], sep)
    ensures IsLastPiece(p, piece + s, sep)
  {
    var t := piece + s;
    var u := s[1..];
    assert t == (piece + [sep]) + u;
    assert t[|piece|] == sep;
    assert t[|t| - |p|..] == u[|u| - |p|..];
    if sep in u {
      assert t[|t| - |p| - 1] == u[|u| - |p| - 1];
    } else {
      assert t[|t| - |p| - 1] == sep;
    }
  }

  /** The decimal digit character for `d`. */
  function DigitChar(d: nat): (c: char)
    requires d < 10
    ensures '0' <= c <= '9' && c as int - '0' as int == d
  {
    (d + '0' as int) as char
  }

  predicate IsDigit(c: char) {
    '0' <= c <= '9'
  }

  /** The value of a string of decimal digits. */
  function DigitsValue(s: string): nat
    requires forall i :: 0 <= i < |s| ==> IsDigit(s[i])
  {
    if s == [] then 0
    else
      assert IsDigit(s[|s| - 1]);
      DigitsValue(s[..|s| - 1]) * 10 + (s[|s| - 1] as int - '0' as int)
  }

  /** The decimal text of a number, as `${n}` writes it: digits only, no leading zero. */
  function NatToString(n: nat): (r: string)
    ensures |r| >= 1
    ensures forall i :: 0 <= i < |r| ==> IsDigit(r[i])
    ensures r[0] == '0' ==> r == "0"
  {
    if n < 10 then [DigitChar(n)]
    else NatToString(n / 10) + [DigitChar(n % 10)]
  }

  /** Reading the decimal text back gives the number. */
  lemma {:induction false} NatToStringRoundTrip(n: nat)
    ensures DigitsValue(NatToString(n)) == n
  {
    if n >= 10 {
      NatToStringRoundTrip(n / 10);
      var r := NatToString(n);
      assert r[..|r| - 1] == NatToString(n / 10);
    }
  }
}
