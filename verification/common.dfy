/**
 * Shared vocabulary of the model: optional values, the JavaScript string
 * operations the stores rely on (`||` on strings, `trim`, ASCII case mapping,
 * `includes`, `split`, `join`), the array `filter` the stores use to drop
 * entries, and decimal rendering of integers (`String(n)`).
 */
module Common {

  /** `undefined`/`null` versus a present value. */
  datatype Option<T> = None | Some(value: T) {
    function GetOr(default: T): T {
      match this
      case Some(v) => v
      case None => default
    }
  }

  /** JavaScript `a || b` where `a` is an optional string: an absent or empty `a` is falsy. */
  function OrElse(a: Option<string>, b: string): string {
    if a.Some? && a.value != "" then a.value else b
  }

  /** JavaScript `a || b` on two optional strings; `None` stands for `undefined`. */
  function FirstTruthy(a: Option<string>, b: Option<string>): Option<string> {
    if a.Some? && a.value != "" then a else b
  }

  /** A present, non-empty string: what JavaScript treats as truthy. */
  predicate Truthy(a: Option<string>) {
    a.Some? && a.value != ""
  }

  // ---------------------------------------------------------------------------
  // Whitespace and String.prototype.trim

  /** The characters `String.prototype.trim` removes: WhiteSpace and LineTerminator of ECMA-262. */
  predicate IsSpace(c: char) {
    c == '\t' || c == '\n' || c == '\U{000B}' || c == '\U{000C}' || c == '\r' || c == ' '
    || c == '\U{00A0}' || c == '\U{1680}' || ('\U{2000}' <= c <= '\U{200A}')
    || c == '\U{2028}' || c == '\U{2029}' || c == '\U{202F}' || c == '\U{205F}'
    || c == '\U{3000}' || c == '\U{FEFF}'
  }

  function TrimStart(s: string): (r: string)
    ensures |r| <= |s| && r == s[|s| - |r|..]
    ensures r == [] || !IsSpace(r[0])
    ensures forall i :: 0 <= i < |s| - |r| ==> IsSpace(s[i])
  {
    if s == [] || !IsSpace(s[0]) then s else TrimStart(s[1..])
  }

  function TrimEnd(s: string): (r: string)
    ensures |r| <= |s| && r == s[..|r|]
    ensures r == [] || !IsSpace(r[|r| - 1])
    ensures forall i :: |r| <= i < |s| ==> IsSpace(s[i])
  {
    if s == [] || !IsSpace(s[|s| - 1]) then s else TrimEnd(s[..|s| - 1])
  }

  /** `s.trim()`: the longest infix of `s` that neither starts nor ends with whitespace. */
  function Trim(s: string): (r: string)
    ensures |r| <= |s|
    ensures r == [] || (!IsSpace(r[0]) && !IsSpace(r[|r| - 1]))
  {
    TrimEnd(TrimStart(s))
  }

  lemma {:induction false} TrimStartSpaces(w: string, s: string)
    requires forall i :: 0 <= i < |w| ==> IsSpace(w[i])
    ensures TrimStart(w + s) == TrimStart(s)
  {
    if w != [] {
      assert (w + s)[0] == w[0] && (w + s)[1..] == w[1..] + s;
      TrimStartSpaces(w[1..], s);
    } else {
      assert w + s == s;
    }
  }

  lemma {:induction false} TrimEndSpaces(s: string, w: string)
    requires forall i :: 0 <= i < |w| ==> IsSpace(w[i])
    ensures TrimEnd(s + w) == TrimEnd(s)
  {
    if w != [] {
      assert (s + w)[|s + w| - 1] == w[|w| - 1] && (s + w)[..|s + w| - 1] == s + w[..|w| - 1];
      TrimEndSpaces(s, w[..|w| - 1]);
    } else {
      assert s + w == s;
    }
  }

  /** `trim` gives the empty string exactly when every character is whitespace. */
  lemma TrimEmptyIff(s: string)
    ensures Trim(s) == [] <==> forall i :: 0 <= i < |s| ==> IsSpace(s[i])
    ensures Trim(s) == [] <==> TrimStart(s) == []
  {
    var t := TrimStart(s);
    if t != [] {
      TrimEndNonEmpty(t);
      assert s[|s| - |t|] == t[0];
    }
  }

  lemma TrimEndNonEmpty(t: string)
    requires t != [] && !IsSpace(t[0])
    ensures TrimEnd(t) != []
  {
    var c := t[0];
    assert |TrimEnd(t)| == 0 ==> IsSpace(c);
  }

  /** Leading whitespace goes only up to the first other character. */
  lemma {:induction false} TrimStartAppend(x: string, y: string)
    requires TrimStart(x) != []
    ensures TrimStart(x + y) == TrimStart(x) + y
  {
    assert x != [];
    if IsSpace(x[0]) {
      assert (x + y)[0] == x[0] && (x + y)[1..] == x[1..] + y;
      TrimStartAppend(x[1..], y);
    } else {
      assert (x + y)[0] == x[0];
    }
  }

  /** Trailing whitespace goes back only to the last other character. */
  lemma {:induction false} TrimEndPrepend(x: string, y: string)
    requires TrimEnd(y) != []
    ensures TrimEnd(x + y) == x + TrimEnd(y)
  {
    assert y != [];
    var n := |x + y| - 1;
    assert (x + y)[n] == y[|y| - 1];
    if IsSpace(y[|y| - 1]) {
      assert (x + y)[..n] == x + y[..|y| - 1];
      TrimEndPrepend(x, y[..|y| - 1]);
    }
  }

  /**
   * The display name `` `${first} ${last}`.trim() `` for any parts: the first
   * part without its leading whitespace, one space, and the last part without
   * its trailing whitespace; or the trimmed other part alone when one part is
   * blank.
   */
  lemma TrimJoin(first: string, last: string)
    ensures Trim(first) != [] && Trim(last) != [] ==> Trim(first + " " + last) == TrimStart(first) + " " + TrimEnd(last)
    ensures Trim(first) == [] ==> Trim(first + " " + last) == Trim(last)
    ensures Trim(last) == [] ==> Trim(first + " " + last) == Trim(first)
  {
    TrimEmptyIff(first);
    TrimEmptyIff(last);
    if Trim(first) == [] {
      BlankPrefixTrimmed(first, last);
    } else {
      NonBlankPrefixTrimmed(first, last);
    }
  }

  lemma NonBlankPrefixTrimmed(first: string, last: string)
    requires TrimStart(first) != []
    ensures var f := TrimStart(first);
            && (TrimEnd(last) != [] ==> Trim(first + " " + last) == f + " " + TrimEnd(last))
            && ((forall i :: 0 <= i < |last| ==> IsSpace(last[i])) ==> Trim(first + " " + last) == Trim(first))
  {
    var f := TrimStart(first);
    assert first + " " + last == first + (" " + last);
    TrimStartAppend(first, " " + last);
    assert f + (" " + last) == (f + " ") + last;
    assert TrimStart(first + " " + last) == (f + " ") + last;
    if TrimEnd(last) != [] {
      TrimEndLast(f, last);
    }
    if forall i :: 0 <= i < |last| ==> IsSpace(last[i]) {
      BlankSuffixTrimmed(f, last);
      assert TrimStart(f) == f;
    }
  }

  lemma BlankPrefixTrimmed(first: string, last: string)
    requires forall i :: 0 <= i < |first| ==> IsSpace(first[i])
    ensures Trim(first + " " + last) == Trim(last)
  {
    var w := first + " ";
    assert forall i :: 0 <= i < |w| ==> IsSpace(w[i]);
    assert first + " " + last == w + last;
    TrimStartSpaces(w, last);
  }

  lemma BlankSuffixTrimmed(f: string, last: string)
    requires f != [] && !IsSpace(f[0])
    requires forall i :: 0 <= i < |last| ==> IsSpace(last[i])
    ensures TrimEnd((f + " ") + last) == TrimEnd(f)
  {
    var w := " " + last;
    assert forall i :: 0 <= i < |w| ==> IsSpace(w[i]);
    assert (f + " ") + last == f + w;
    TrimEndSpaces(f, w);
  }

  lemma TrimEndLast(f: string, last: string)
    requires TrimEnd(last) != []
    ensures TrimEnd((f + " ") + last) == f + " " + TrimEnd(last)
  {
    TrimEndPrepend(f + " ", last);
  }

  // ---------------------------------------------------------------------------
  // ASCII case mapping (Unicode case mapping is not modelled)

  function LowerChar(c: char): (d: char)
    ensures 'A' <= c <= 'Z' ==> d as int == c as int + 32
    ensures !('A' <= c <= 'Z') ==> d == c
  {
    if 'A' <= c <= 'Z' then (c as int + 32) as char else c
  }

  function UpperChar(c: char): (d: char)
    ensures 'a' <= c <= 'z' ==> d as int == c as int - 32
    ensures !('a' <= c <= 'z') ==> d == c
  {
    if 'a' <= c <= 'z' then (c as int - 32) as char else c
  }

  /** `s.toLowerCase()` restricted to ASCII letters. */
  function ToLower(s: string): (r: string)
    ensures |r| == |s| && forall i :: 0 <= i < |s| ==> r[i] == LowerChar(s[i])
  {
    seq(|s|, i requires 0 <= i < |s| => LowerChar(s[i]))
  }

  // ---------------------------------------------------------------------------
  // Substrings

  predicate IsPrefix(p: string, s: string) {
    |p| <= |s| && s[..|p|] == p
  }

  /** `s.includes(t)`: `t` occurs in `s` at some position. */
  predicate Contains(s: string, t: string)
    decreases |s|
  {
    IsPrefix(t, s) || (s != [] && Contains(s[1..], t))
  }

  // ---------------------------------------------------------------------------
  // String.prototype.split on one character, and Array.prototype.join

  /** `s.split(sep)` for a one-character separator: never empty, no piece holds `sep`. */
  function Split(s: string, sep: char): (parts: seq<string>)
    ensures |parts| >= 1
    ensures forall i :: 0 <= i < |parts| ==> sep !in parts[i]
  {
    if s == [] then [""]
    else if s[0] == sep then [""] + Split(s[1..], sep)
    else
      var rest := Split(s[1..], sep);
      [[s[0]] + rest[0]] + rest[1..]
  }

  /** `parts.join(sep)` for a one-character separator. */
  function Join(parts: seq<string>, sep: char): string {
    if parts == [] then ""
    else if |parts| == 1 then parts[0]
    else parts[0] + [sep] + Join(parts[1..], sep)
  }

  lemma {:induction false} SplitNoSeparator(s: string, sep: char)
    requires sep !in s
    ensures Split(s, sep) == [s]
  {
    if s != [] {
      SplitNoSeparator(s[1..], sep);
      assert [s[0]] + s[1..] == s;
    }
  }

  /** Splitting distributes over any occurrence of the separator. */
  lemma {:induction false} SplitAtSeparator(a: string, sep: char, b: string)
    ensures Split(a + [sep] + b, sep) == Split(a, sep) + Split(b, sep)
  {
    var s := a + [sep] + b;
    if a == [] {
      assert s[0] == sep && s[1..] == b;
    } else if a[0] == sep {
      assert s[0] == sep && s[1..] == a[1..] + [sep] + b;
      SplitAtSeparator(a[1..], sep, b);
    } else {
      assert s[0] == a[0] && s[1..] == a[1..] + [sep] + b;
      SplitAtSeparator(a[1..], sep, b);
      var ra := Split(a[1..], sep);
      assert Split(s[1..], sep) == ra + Split(b, sep);
      assert (ra + Split(b, sep))[1..] == ra[1..] + Split(b, sep);
    }
  }

  /** `s.split(sep).join(sep) == s`. */
  lemma {:induction false} JoinSplit(s: string, sep: char)
    ensures Join(Split(s, sep), sep) == s
  {
    if s != [] {
      JoinSplit(s[1..], sep);
      var rest := Split(s[1..], sep);
      if s[0] == sep {
        assert Split(s, sep) == [""] + rest;
      } else if |rest| > 1 {
        assert Join(rest, sep) == rest[0] + [sep] + Join(rest[1..], sep);
      }
    }
  }

  /** `parts.join(sep).split(sep) == parts` when no part holds the separator. */
  lemma {:induction false} SplitJoin(parts: seq<string>, sep: char)
    requires |parts| >= 1
    requires forall i :: 0 <= i < |parts| ==> sep !in parts[i]
    ensures Split(Join(parts, sep), sep) == parts
  {
    if |parts| == 1 {
      SplitNoSeparator(parts[0], sep);
    } else {
      SplitJoin(parts[1..], sep);
      SplitAtSeparator(parts[0], sep, Join(parts[1..], sep));
      SplitNoSeparator(parts[0], sep);
      assert [parts[0]] + parts[1..] == parts;
    }
  }

  // ---------------------------------------------------------------------------
  // Array.prototype.filter

  function Filter<T>(keep: T -> bool, s: seq<T>): (r: seq<T>)
    ensures |r| <= |s|
    ensures forall i :: 0 <= i < |r| ==> r[i] in s && keep(r[i])
    ensures forall i :: 0 <= i < |s| && keep(s[i]) ==> s[i] in r
  {
    if s == [] then []
    else if keep(s[0]) then [s[0]] + Filter(keep, s[1..])
    else Filter(keep, s[1..])
  }

  /** Filtering works piecewise, so the kept elements stay in their original order. */
  lemma {:induction false} FilterConcat<T>(keep: T -> bool, a: seq<T>, b: seq<T>)
    ensures Filter(keep, a + b) == Filter(keep, a) + Filter(keep, b)
  {
    if a != [] {
      assert (a + b)[0] == a[0] && (a + b)[1..] == a[1..] + b;
      FilterConcat(keep, a[1..], b);
    } else {
      assert a + b == b;
    }
  }

  lemma {:induction false} FilterKeepsAll<T>(keep: T -> bool, s: seq<T>)
    requires forall i :: 0 <= i < |s| ==> keep(s[i])
    ensures Filter(keep, s) == s
  {
    if s != [] {
      FilterKeepsAll(keep, s[1..]);
    }
  }

  // ---------------------------------------------------------------------------
  // Decimal rendering, `String(n)` for an integer n

  function DigitChar(d: int): char
    requires 0 <= d < 10
  {
    "0123456789"[d]
  }

  function NatToString(n: nat): (r: string)
    ensures |r| >= 1
    ensures forall i :: 0 <= i < |r| ==> '0' <= r[i] <= '9'
    ensures r[0] == '0' ==> n == 0
    decreases n
  {
    if n < 10 then [DigitChar(n)] else NatToString(n / 10) + [DigitChar(n % 10)]
  }

  function IntToString(n: int): (r: string)
    ensures |r| >= 1 && (r[0] == '-' <==> n < 0)
  {
    if n < 0 then "-" + NatToString(-n) else NatToString(n)
  }
}
