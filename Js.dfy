/** The parts of JavaScript's semantics the app relies on: `trim`,
    `startsWith`, `endsWith`, `includes`, `split` on one character, ASCII
    `toLowerCase`, `find` and `filter` by index on arrays, string
    accumulation, and the value a `catch` receives. */
module Js {
  import opened Wrappers

  /** The code points `String.prototype.trim` removes: the WhiteSpace
      and LineTerminator productions of ECMAScript (TAB, VT, FF, SP,
      NBSP, ZWNBSP, the Zs category, LF, CR, LS, PS). */
  predicate IsWhitespace(c: char)
  {
    || c == '\t' || c == '\n' || c == '\U{B}' || c == '\U{C}' || c == '\r'
    || c == ' ' || c == '\U{A0}' || c == '\U{1680}'
    || ('\U{2000}' <= c <= '\U{200A}')
    || c == '\U{2028}' || c == '\U{2029}' || c == '\U{202F}' || c == '\U{205F}'
    || c == '\U{3000}' || c == '\U{FEFF}'
  }

  /** `s.trimStart()`: the suffix left after dropping leading whitespace. */
  function TrimStart(s: string): (r: string)
    ensures |r| <= |s| && r == s[|s| - |r|..]
    ensures r != [] ==> !IsWhitespace(r[0])
    ensures forall i :: 0 <= i < |s| - |r| ==> IsWhitespace(s[i])
  {
    if s != [] && IsWhitespace(s[0]) then TrimStart(s[1..]) else s
  }

  /** `s.trimEnd()`: the prefix left after dropping trailing whitespace. */
  function TrimEnd(s: string): (r: string)
    ensures |r| <= |s| && r == s[..|r|]
    ensures r != [] ==> !IsWhitespace(r[|r| - 1])
    ensures forall i :: |r| <= i < |s| ==> IsWhitespace(s[i])
  {
    if s != [] && IsWhitespace(s[|s| - 1]) then TrimEnd(s[..|s| - 1]) else s
  }

  /** `s.trim()`. */
  function Trim(s: string): (r: string)
    ensures |r| <= |s|
  {
    TrimEnd(TrimStart(s))
  }

  /** `!s.trim()`: the string is empty or consists of whitespace only,
      that is, `trim` leaves nothing of it (`BlankIffTrimmedEmpty`). */
  predicate IsBlank(s: string)
  {
    forall i :: 0 <= i < |s| ==> IsWhitespace(s[i])
  }

  /** A string is blank exactly when trimming it leaves the empty string. */
  lemma BlankIffTrimmedEmpty(s: string)
    ensures IsBlank(s) <==> Trim(s) == ""
  {
  }

  /** The trimmed string has no whitespace at either end. */
  lemma TrimHasNoOuterWhitespace(s: string)
    ensures var r := Trim(s); r != [] ==> !IsWhitespace(r[0]) && !IsWhitespace(r[|r| - 1])
  {
    var t := TrimStart(s);
    var r := TrimEnd(t);
    if r != [] {
      assert r[0] == t[0];
    }
  }

  /** Trimming only removes characters: what is left is a slice of the
      string. */
  lemma TrimIsSlice(s: string)
    ensures exists i, k :: 0 <= i <= k <= |s| && Trim(s) == s[i..k]
  {
    var t := TrimStart(s);
    var i := |s| - |t|;
    assert Trim(s) == s[i..i + |Trim(s)|];
  }

  /** The UTF-16 code units one character takes: two for a character
      outside the Basic Multilingual Plane (a surrogate pair), one
      otherwise. */
  function CodeUnits(c: char): nat
  {
    if c as int >= 0x1_0000 then 2 else 1
  }

  /** `s.length`: JavaScript counts UTF-16 code units, not characters. */
  function Utf16Length(s: string): (n: nat)
    ensures |s| <= n <= 2 * |s|
  {
    if s == [] then 0 else CodeUnits(s[0]) + Utf16Length(s[1..])
  }

  /** The length of a concatenation is the sum of the lengths. */
  lemma {:induction false} Utf16LengthAppend(a: string, b: string)
    ensures Utf16Length(a + b) == Utf16Length(a) + Utf16Length(b)
    decreases |a|
  {
    if a == [] {
      assert a + b == b;
    } else {
      assert (a + b)[0] == a[0] && (a + b)[1..] == a[1..] + b;
      Utf16LengthAppend(a[1..], b);
    }
  }

  /** A slice is no longer than the whole string. */
  lemma Utf16LengthSlice(s: string, i: nat, k: nat)
    requires i <= k <= |s|
    ensures Utf16Length(s[i..k]) <= Utf16Length(s)
  {
    var head, mid, tail := s[..i], s[i..k], s[k..];
    assert s[..k] == head + mid;
    assert s == s[..k] + tail;
    Utf16LengthAppend(s[..k], tail);
    Utf16LengthAppend(head, mid);
  }

  /** `s.startsWith(p)`. */
  predicate StartsWith(s: string, p: string)
  {
    |p| <= |s| && s[..|p|] == p
  }

  /** `s.endsWith(p)`. */
  predicate EndsWith(s: string, p: string)
  {
    |p| <= |s| && s[|s| - |p|..] == p
  }

  /** `s.includes(p)`: `p` occurs in `s` at some offset. */
  predicate Includes(s: string, p: string)
    decreases |s|
  {
    StartsWith(s, p) || (s != [] && Includes(s[1..], p))
  }

  /** A string includes every string it is built around. */
  lemma {:induction false} IncludesInfix(a: string, p: string, b: string)
    ensures Includes(a + p + b, p)
    decreases |a|
  {
    if a == [] {
      assert a + p + b == p + b;
      assert (p + b)[..|p|] == p;
    } else {
      IncludesInfix(a[1..], p, b);
      assert (a + p + b)[1..] == a[1..] + p + b;
    }
  }

  /** Every character of an included string occurs in the including one,
      so a string lacking one of the needle's characters cannot include it. */
  lemma {:induction false} IncludesOnlyItsCharacters(s: string, p: string, c: char)
    requires Includes(s, p) && c in p
    ensures c in s
    decreases |s|
  {
    if StartsWith(s, p) {
      assert s[..|p|] == p;
      var i :| 0 <= i < |p| && p[i] == c;
      assert s[i] == c;
    } else {
      IncludesOnlyItsCharacters(s[1..], p, c);
    }
  }

  /** ASCII case folding: what `toLowerCase` does on ASCII letters. */
  function ToLowerChar(c: char): char
  {
    if 'A' <= c <= 'Z' then (c as int - 'A' as int + 'a' as int) as char else c
  }

  /** `s.toLowerCase()`, restricted to ASCII letters. */
  function ToLower(s: string): (r: string)
    ensures |r| == |s|
    ensures forall i :: 0 <= i < |s| ==> r[i] == ToLowerChar(s[i])
  {
    if s == [] then [] else [ToLowerChar(s[0])] + ToLower(s[1..])
  }

  /** `s.split(sep)` for a one-character separator. */
  function Split(s: string, sep: char): (parts: seq<string>)
    ensures |parts| >= 1
    decreases |s|
  {
    if s == [] then [""]
    else if s[0] == sep then [""] + Split(s[1..], sep)
    else
      var rest := Split(s[1..], sep);
      [[s[0]] + rest[0]] + rest[1..]
  }

  /** `parts.join(sep)`. */
  function Join(parts: seq<string>, sep: char): string
    requires |parts| >= 1
    decreases |parts|
  {
    if |parts| == 1 then parts[0] else parts[0] + [sep] + Join(parts[1..], sep)
  }

  /** Joining the pieces of a split with the same separator gives the
      original string back, and no piece holds the separator. */
  lemma {:induction false} SplitJoin(s: string, sep: char)
    ensures Join(Split(s, sep), sep) == s
    ensures forall k :: 0 <= k < |Split(s, sep)| ==> sep !in Split(s, sep)[k]
    decreases |s|
  {
    if s == [] {
    } else if s[0] == sep {
      SplitJoin(s[1..], sep);
      assert Split(s, sep) == [""] + Split(s[1..], sep);
      assert Split(s, sep)[1..] == Split(s[1..], sep);
    } else {
      SplitJoin(s[1..], sep);
      var rest := Split(s[1..], sep);
      var parts := Split(s, sep);
      assert parts == [[s[0]] + rest[0]] + rest[1..];
      if |rest| == 1 {
        assert Join(parts, sep) == [s[0]] + rest[0];
      } else {
        assert parts[1..] == rest[1..];
        assert Join(rest, sep) == rest[0] + [sep] + Join(rest[1..], sep);
      }
      forall k | 0 <= k < |parts| ensures sep !in parts[k] {
        if k > 0 {
          assert parts[k] == rest[k];
        }
      }
    }
  }

  /** `array.findIndex(p)`, with the length standing for -1: the index of
      the first element satisfying `p`. */
  function FindIndex<T>(s: seq<T>, p: T -> bool): (i: nat)
    ensures i <= |s|
    ensures i < |s| ==> p(s[i])
    ensures forall j :: 0 <= j < i ==> !p(s[j])
  {
    if s == [] then 0 else if p(s[0]) then 0 else 1 + FindIndex(s[1..], p)
  }

  /** `array.find(p)`: the first element satisfying `p`, if any. */
  function Find<T>(s: seq<T>, p: T -> bool): (r: Option<T>)
    ensures r.Some? <==> exists i :: 0 <= i < |s| && p(s[i])
    ensures r.Some? ==> r.value == s[FindIndex(s, p)]
  {
    var i := FindIndex(s, p);
    if i < |s| then Some(s[i]) else None
  }

  // ---------------------------------------------------------------------
  // Arrays: `+=` over a list of strings, and `filter` by index

  /** The strings of `ss` joined in order, as a `+=` accumulator builds
      them. */
  function Concat(ss: seq<string>): string
  {
    if ss == [] then [] else ss[0] + Concat(ss[1..])
  }

  /** Appending one more string to the accumulator. */
  lemma {:induction false} ConcatSnoc(ss: seq<string>, s: string)
    ensures Concat(ss + [s]) == Concat(ss) + s
  {
    if ss == [] {
      assert [] + [s] == [s];
    } else {
      assert (ss + [s])[1..] == ss[1..] + [s];
      ConcatSnoc(ss[1..], s);
    }
  }

  /** `s.filter((_, i) => i !== idx)`: the list without the element at
      `idx`, or the whole list when `idx` is not one of its indices. */
  function Without<T>(s: seq<T>, idx: int): (r: seq<T>)
    ensures |r| == if 0 <= idx < |s| then |s| - 1 else |s|
    ensures forall i :: 0 <= i < |r| ==> r[i] == s[if 0 <= idx <= i then i + 1 else i]
    decreases |s|
  {
    if s == [] then []
    else
      var rest := Without(s[1..], idx - 1);
      assert forall i :: 0 <= i < |rest| ==> rest[i] == s[1..][if 0 <= idx - 1 <= i then i + 1 else i];
      (if idx == 0 then [] else [s[0]]) + rest
  }

  /** Removing the same index from two lists of one length keeps them of
      one length, and every remaining pair was a pair before. */
  lemma WithoutKeepsPairs<A, B>(a: seq<A>, b: seq<B>, idx: int)
    requires |a| == |b|
    ensures |Without(a, idx)| == |Without(b, idx)|
    ensures forall i :: 0 <= i < |Without(a, idx)| ==>
      exists j :: 0 <= j < |a| && Without(a, idx)[i] == a[j] && Without(b, idx)[i] == b[j]
  {
    var ra, rb := Without(a, idx), Without(b, idx);
    forall i | 0 <= i < |ra|
      ensures exists j :: 0 <= j < |a| && ra[i] == a[j] && rb[i] == b[j]
    {
      var j := if 0 <= idx <= i then i + 1 else i;
      assert ra[i] == a[j] && rb[i] == b[j];
    }
  }

  /** The value a `catch` clause receives: an `Error` instance with its
      message, or some other thrown value (an event, a string). */
  datatype Thrown = ErrorObject(message: string) | OtherValue

  /** `err instanceof Error ? err.message : fallback`. */
  function MessageOr(t: Thrown, fallback: string): (m: string)
    ensures t.ErrorObject? ==> m == t.message
    ensures t.OtherValue? ==> m == fallback
  {
    match t
    case ErrorObject(msg) => msg
    case OtherValue => fallback
  }
}
