/**
 * The JavaScript string built-ins the service relies on, stated over
 * `seq<char>`: the default order of `Array.prototype.sort` on keys,
 * `String.prototype.split` with a one-character separator,
 * `Array.prototype.join`, `String.prototype.trim`, and the quoting of a
 * string by `JSON.stringify`.
 */
module Text {

  /** Lexicographic order by character code, as the default sort compares keys. */
  predicate Less(a: string, b: string)
    decreases |a|
  {
    if a == [] then b != []
    else if b == [] then false
    else if a[0] != b[0] then a[0] < b[0]
    else Less(a[1..], b[1..])
  }

  lemma {:induction false} LessIrreflexive(a: string)
    ensures !Less(a, a)
    decreases |a|
  {
    if a != [] {
      LessIrreflexive(a[1..]);
    }
  }

  lemma {:induction false} LessTransitive(a: string, b: string, c: string)
    ensures Less(a, b) && Less(b, c) ==> Less(a, c)
    decreases |a|
  {
    if a != [] && b != [] && c != [] && a[0] == b[0] && b[0] == c[0] {
      LessTransitive(a[1..], b[1..], c[1..]);
    }
  }

  /** Any two distinct strings are ordered one way or the other. */
  lemma {:induction false} LessTotal(a: string, b: string)
    ensures a == b || Less(a, b) || Less(b, a)
    decreases |a|
  {
    if a != [] && b != [] && a[0] == b[0] {
      LessTotal(a[1..], b[1..]);
      if a[1..] == b[1..] {
        assert a == [a[0]] + a[1..] && b == [b[0]] + b[1..];
      }
    }
  }

  lemma {:induction false} LessAsymmetric(a: string, b: string)
    ensures Less(a, b) ==> !Less(b, a)
    decreases |a|
  {
    if a != [] && b != [] && a[0] == b[0] {
      LessAsymmetric(a[1..], b[1..]);
    }
  }

  /** `parts.join(sep)`. */
  function Join(parts: seq<string>, sep: char): string
    decreases |parts|
  {
    if parts == [] then []
    else if |parts| == 1 then parts[0]
    else parts[0] + [sep] + Join(parts[1..], sep)
  }

  lemma JoinAfterEmpty(rest: seq<string>, sep: char)
    requires rest != []
    ensures Join([[]] + rest, sep) == [sep] + Join(rest, sep)
  {
    assert ([[]] + rest)[1..] == rest;
  }

  lemma JoinExtendHead(c: char, rest: seq<string>, sep: char)
    requires rest != []
    ensures Join([[c] + rest[0]] + rest[1..], sep) == [c] + Join(rest, sep)
  {
    var parts := [[c] + rest[0]] + rest[1..];
    assert parts[1..] == rest[1..];
  }

  /** `s.split(sep)` for a one-character separator: the pieces between separators. */
  function Split(s: string, sep: char): (parts: seq<string>)
    ensures parts != []
    decreases |s|
  {
    if s == [] then [[]]
    else
      var rest := Split(s[1..], sep);
      if s[0] == sep then [[]] + rest else [[s[0]] + rest[0]] + rest[1..]
  }

  /** A split has one more piece than there are separators. */
  lemma {:induction false} SplitCount(s: string, sep: char)
    ensures |Split(s, sep)| == multiset(s)[sep] + 1
    decreases |s|
  {
    if s != [] {
      SplitCount(s[1..], sep);
      assert s == [s[0]] + s[1..];
      assert multiset(s)[sep] == multiset([s[0]])[sep] + multiset(s[1..])[sep];
    }
  }

  /** No piece of a split contains the separator. */
  lemma {:induction false} SplitPieces(s: string, sep: char)
    ensures forall i :: 0 <= i < |Split(s, sep)| ==> sep !in Split(s, sep)[i]
    decreases |s|
  {
    if s != [] {
      var rest := Split(s[1..], sep);
      SplitPieces(s[1..], sep);
      var parts := Split(s, sep);
      if s[0] == sep {
        assert forall i :: 1 <= i < |parts| ==> parts[i] == rest[i - 1];
      } else {
        assert sep !in [s[0]] + rest[0];
        assert forall i :: 1 <= i < |parts| ==> parts[i] == rest[i];
      }
    }
  }

  /** Joining the pieces of a split with the separator gives the string back. */
  lemma {:induction false} SplitJoin(s: string, sep: char)
    ensures Join(Split(s, sep), sep) == s
    decreases |s|
  {
    if s != [] {
      var rest := Split(s[1..], sep);
      SplitJoin(s[1..], sep);
      assert s == [s[0]] + s[1..];
      if s[0] == sep {
        JoinAfterEmpty(rest, sep);
      } else {
        JoinExtendHead(s[0], rest, sep);
      }
    }
  }

  /** What `trim` removes: the WhiteSpace and LineTerminator characters of ECMAScript. */
  predicate IsSpace(c: char) {
    c == '\t' || c == '\n' || c == '\U{B}' || c == '\U{C}' || c == '\r' || c == ' ' || c == '\U{A0}' ||
    c == '\U{1680}' || ('\U{2000}' <= c <= '\U{200A}') || c == '\U{2028}' || c == '\U{2029}' ||
    c == '\U{202F}' || c == '\U{205F}' || c == '\U{3000}' || c == '\U{FEFF}'
  }

  predicate AllSpace(s: string) {
    forall k :: 0 <= k < |s| ==> IsSpace(s[k])
  }

  /** No whitespace at either end. */
  predicate Trimmed(s: string) {
    s == [] || (!IsSpace(s[0]) && !IsSpace(s[|s| - 1]))
  }

  /** The number of whitespace characters `s` starts with. */
  function LeadingSpace(s: string): (i: nat)
    ensures i <= |s| && AllSpace(s[..i]) && (i < |s| ==> !IsSpace(s[i]))
    decreases |s|
  {
    if s != [] && IsSpace(s[0]) then
      var i := 1 + LeadingSpace(s[1..]);
      assert forall k :: 1 <= k < i ==> s[..i][k] == s[1..][..i - 1][k - 1];
      i
    else 0
  }

  /** The length of `s` without the whitespace it ends with. */
  function TrailingStart(s: string): (j: nat)
    ensures j <= |s| && AllSpace(s[j..]) && (j > 0 ==> !IsSpace(s[j - 1]))
    decreases |s|
  {
    if s != [] && IsSpace(s[|s| - 1]) then
      var j := TrailingStart(s[..|s| - 1]);
      assert forall k :: j <= k < |s| - 1 ==> s[k] == s[..|s| - 1][k];
      j
    else |s|
  }

  /** `s.trim()`: `s` without its leading and trailing whitespace, and nothing else removed. */
  function Trim(s: string): (r: string)
    ensures Trimmed(r)
    ensures exists i, j :: 0 <= i <= j <= |s| && s[..i] + r + s[j..] == s && AllSpace(s[..i]) && AllSpace(s[j..])
  {
    var i := LeadingSpace(s);
    var j := if i == |s| then i else i + TrailingStart(s[i..]);
    assert i < |s| ==> s[i..][TrailingStart(s[i..])..] == s[j..];
    assert s[..i] + s[i..j] + s[j..] == s;
    s[i..j]
  }

  /** Trimming only removes characters: what is left was in the string. */
  lemma TrimWithin(s: string)
    ensures forall c :: c in Trim(s) ==> c in s
  {
    var i := LeadingSpace(s);
    var j := if i == |s| then i else i + TrailingStart(s[i..]);
    SliceWithin(s, i, j);
  }

  lemma SliceWithin<T>(s: seq<T>, i: nat, j: nat)
    requires i <= j <= |s|
    ensures forall c :: c in s[i..j] ==> c in s
  {
    forall c | c in s[i..j]
      ensures c in s
    {
      var k :| 0 <= k < j - i && s[i..j][k] == c;
      assert s[i + k] == c;
    }
  }

  /** Trimming an already trimmed string changes nothing. */
  lemma TrimIdempotent(s: string)
    ensures Trim(Trim(s)) == Trim(s)
  {
    var t := Trim(s);
    var i := LeadingSpace(t);
    assert i == 0;
    if t != [] {
      assert TrailingStart(t) == |t|;
    }
  }

  /** The lower-case hexadecimal digit of `n`. */
  function HexDigit(n: nat): char
    requires n < 16
  {
    if n < 10 then ('0' as int + n) as char else ('a' as int + n - 10) as char
  }

  /** How `JSON.stringify` writes one character inside a string literal. */
  function EscapeChar(c: char): (e: string)
    ensures e != [] && (e[0] == '\\' <==> |e| > 1) && e[0] != '"'
    ensures |e| == 1 <==> e == [c]
    ensures |e| > 1 ==> (|e| == 2 || |e| == 6) && (|e| == 6 <==> e[1] == 'u')
  {
    if c == '"' then "\\\""
    else if c == '\\' then "\\\\"
    else if c == '\U{8}' then "\\b"
    else if c == '\t' then "\\t"
    else if c == '\n' then "\\n"
    else if c == '\U{C}' then "\\f"
    else if c == '\r' then "\\r"
    else if c < ' ' then ['\\', 'u', '0', '0', HexDigit(c as int / 16), HexDigit(c as int % 16)]
    else [c]
  }

  function Escape(s: string): string
    decreases |s|
  {
    if s == [] then [] else EscapeChar(s[0]) + Escape(s[1..])
  }

  /** `JSON.stringify(s)` for a string `s`. */
  function Quote(s: string): string {
    "\"" + Escape(s) + "\""
  }

  /** Distinct digits have distinct characters. */
  lemma HexDigitInjective(m: nat, n: nat)
    requires m < 16 && n < 16
    ensures HexDigit(m) == HexDigit(n) ==> m == n
  {
  }

  /** Distinct characters are written differently. */
  lemma EscapeCharInjective(x: char, y: char)
    ensures EscapeChar(x) == EscapeChar(y) ==> x == y
  {
    if |EscapeChar(x)| == 6 && EscapeChar(x) == EscapeChar(y) {
      HexDigitInjective(x as int / 16, y as int / 16);
      HexDigitInjective(x as int % 16, y as int % 16);
    }
  }

  lemma Associative(x: string, y: string, z: string)
    ensures x + y + z == x + (y + z)
  {
  }

  /** Equal strings that start alike continue alike. */
  lemma DropCommon(p: string, s: string, t: string)
    requires p + s == p + t
    ensures s == t
  {
    assert s == (p + s)[|p|..];
    assert t == (p + t)[|p|..];
  }

  /** No escape sequence is a proper prefix of another: a text starting with one determines it. */
  lemma EscapeCharPrefixFree(x: char, y: char, s: string, t: string)
    requires EscapeChar(x) + s == EscapeChar(y) + t
    ensures x == y && s == t
  {
    var ex, ey := EscapeChar(x), EscapeChar(y);
    assert ex[0] == (ex + s)[0] && ey[0] == (ey + t)[0];
    if |ex| > 1 {
      assert ex[1] == (ex + s)[1] && ey[1] == (ey + t)[1];
    }
    assert |ex| == |ey|;
    assert ex == (ex + s)[..|ex|] && ey == (ey + t)[..|ey|];
    EscapeCharInjective(x, y);
    DropCommon(ex, s, t);
  }

  /** The escaped text of a string, followed by a closing quote, determines the string and what follows. */
  lemma {:induction false} EscapePrefixFree(a: string, b: string, s: string, t: string)
    requires Escape(a) + "\"" + s == Escape(b) + "\"" + t
    ensures a == b && s == t
    decreases |a|
  {
    var ta, tb := "\"" + s, "\"" + t;
    Associative(Escape(a), "\"", s);
    Associative(Escape(b), "\"", t);
    if a == [] {
      EscapeHead(b, tb);
      DropCommon("\"", s, t);
    } else {
      EscapeHead(a, ta);
      EscapeHead(b, tb);
      var ra, rb := Escape(a[1..]) + ta, Escape(b[1..]) + tb;
      EscapeCharPrefixFree(a[0], b[0], ra, rb);
      Associative(Escape(a[1..]), "\"", s);
      Associative(Escape(b[1..]), "\"", t);
      EscapePrefixFree(a[1..], b[1..], s, t);
      assert a == [a[0]] + a[1..] && b == [b[0]] + b[1..];
    }
  }

  /** How an escaped, non-empty string followed by a text begins. */
  lemma EscapeHead(a: string, rest: string)
    ensures a == [] ==> Escape(a) + rest == rest
    ensures a != [] ==> Escape(a) + rest == EscapeChar(a[0]) + (Escape(a[1..]) + rest)
    ensures a != [] ==> (Escape(a) + rest)[0] != '"'
  {
    if a == [] {
      assert Escape(a) == [];
    } else {
      var e, tail := EscapeChar(a[0]), Escape(a[1..]);
      assert Escape(a) == e + tail;
      Associative(e, tail, rest);
      assert (e + (tail + rest))[0] == e[0];
    }
  }

  /** A string literal ends where it ends: the literal at the head of a text determines the string and the rest. */
  lemma QuotePrefixFree(a: string, b: string, s: string, t: string)
    requires Quote(a) + s == Quote(b) + t
    ensures a == b && s == t
  {
    assert Quote(a) + s == "\"" + (Escape(a) + "\"" + s);
    assert Quote(b) + t == "\"" + (Escape(b) + "\"" + t);
    DropCommon("\"", Escape(a) + "\"" + s, Escape(b) + "\"" + t);
    EscapePrefixFree(a, b, s, t);
  }
}
