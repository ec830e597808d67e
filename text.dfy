/** String operations of the JavaScript runtime that the daily-log pipeline relies on:
    `trim`, `toLowerCase`, `includes`, `indexOf`, `split` on one character, `join`,
    `String(n)` and `parseInt` on a run of decimal digits. */
module Text {

  datatype Option<+T> = None | Some(value: T)

  /** The ECMAScript WhiteSpace and LineTerminator code points: exactly what
      `String.prototype.trim` strips and what the regular-expression class `\s` matches. */
  predicate IsSpace(c: char) {
    || c == '\t' || c == '\n' || c == '\U{B}' || c == '\U{C}' || c == '\r' || c == ' '
    || c == '\U{A0}' || c == '\U{1680}' || ('\U{2000}' <= c <= '\U{200A}')
    || c == '\U{2028}' || c == '\U{2029}' || c == '\U{202F}' || c == '\U{205F}'
    || c == '\U{3000}' || c == '\U{FEFF}'
  }

  /** The ECMAScript LineTerminator code points: where a multiline `^` may match. */
  predicate IsLineTerminator(c: char) {
    c == '\n' || c == '\r' || c == '\U{2028}' || c == '\U{2029}'
  }

  /** A string that fits on one line. */
  predicate SingleLine(s: string) {
    forall k :: 0 <= k < |s| ==> !IsLineTerminator(s[k])
  }

  lemma SingleLineHasNoNewline(s: string)
    requires SingleLine(s)
    ensures '\n' !in s
  {
    forall k | 0 <= k < |s|
      ensures s[k] != '\n'
    {
      assert !IsLineTerminator(s[k]);
    }
  }

  /** The regular-expression class `\d`: ASCII digits only. */
  predicate IsDigit(c: char) {
    '0' <= c <= '9'
  }

  // ---------------------------------------------------------------- trim

  function TrimStart(s: string): (r: string)
    ensures |r| <= |s| && r == s[|s| - |r|..]
    ensures forall k :: 0 <= k < |s| - |r| ==> IsSpace(s[k])
    ensures r == [] || !IsSpace(r[0])
  {
    if s != [] && IsSpace(s[0]) then TrimStart(s[1..]) else s
  }

  function TrimEnd(s: string): (r: string)
    ensures |r| <= |s| && r == s[..|r|]
    ensures forall k :: |r| <= k < |s| ==> IsSpace(s[k])
    ensures r == [] || !IsSpace(r[|r| - 1])
  {
    if s != [] && IsSpace(s[|s| - 1]) then TrimEnd(s[..|s| - 1]) else s
  }

  /** `s.trim()`: the longest infix of `s` that neither starts nor ends with white space,
      obtained by dropping only white space. */
  function Trim(s: string): (r: string)
    ensures |r| <= |s|
    ensures r == [] || (!IsSpace(r[0]) && !IsSpace(r[|r| - 1]))
  {
    TrimEnd(TrimStart(s))
  }

  /** What `trim` keeps is the part of `s` after its leading white space. */
  lemma TrimInfix(s: string)
    ensures var lead := |s| - |TrimStart(s)|;
      lead + |Trim(s)| <= |s| && Trim(s) == s[lead..lead + |Trim(s)|]
  {
  }

  /** A string of white space trims to nothing, and only such a string does. */
  lemma TrimEmptyIffBlank(s: string)
    ensures Trim(s) == [] <==> forall k :: 0 <= k < |s| ==> IsSpace(s[k])
  {
    var t := TrimStart(s);
    TrimInfix(s);
    if Trim(s) != [] {
      assert t != [] && t[0] == s[|s| - |t|];
    }
  }

  lemma TrimStartKeeps(s: string)
    requires s == [] || !IsSpace(s[0])
    ensures TrimStart(s) == s
  {
  }

  lemma TrimStartSkip(c: char, s: string)
    requires IsSpace(c)
    ensures TrimStart([c] + s) == TrimStart(s)
  {
    assert ([c] + s)[1..] == s;
  }

  /** Trimming a string that starts with a visible character keeps that character first. */
  lemma TrimKeepsFirst(s: string)
    requires s != [] && !IsSpace(s[0])
    ensures Trim(s) != [] && Trim(s)[0] == s[0]
  {
    TrimStartKeeps(s);
    var t := TrimEnd(s);
    assert |t| >= 1 by {
      assert !IsSpace(s[0]);
    }
  }

  /** A string that neither starts nor ends with white space is its own trim. */
  lemma TrimOfTrimmed(s: string)
    requires s == [] || (!IsSpace(s[0]) && !IsSpace(s[|s| - 1]))
    ensures Trim(s) == s
  {
  }

  // ---------------------------------------------------------------- case

  function LowerChar(c: char): char {
    if 'A' <= c <= 'Z' then (c as int + 32) as char else c
  }

  /** `s.toLowerCase()`, restricted to the ASCII letters. */
  function ToLower(s: string): (r: string)
    ensures |r| == |s|
    ensures forall k :: 0 <= k < |s| ==> r[k] == LowerChar(s[k])
  {
    seq(|s|, k requires 0 <= k < |s| => LowerChar(s[k]))
  }

  // ---------------------------------------------------------------- search

  predicate OccursAt(s: string, pat: string, k: int) {
    0 <= k && k + |pat| <= |s| && s[k..k + |pat|] == pat
  }

  /** `s.indexOf(pat, from)`: the first position at or after `from` where `pat` occurs. */
  function IndexOf(s: string, pat: string, from: nat): (r: Option<nat>)
    ensures r.Some? ==> from <= r.value && OccursAt(s, pat, r.value)
    ensures r.Some? ==> forall k :: from <= k < r.value ==> !OccursAt(s, pat, k)
    ensures r.None? ==> forall k :: from <= k ==> !OccursAt(s, pat, k)
    decreases |s| - from
  {
    if from + |pat| > |s| then None
    else if OccursAt(s, pat, from) then Some(from)
    else IndexOf(s, pat, from + 1)
  }

  /** `s.includes(pat)`. */
  function Includes(s: string, pat: string): (b: bool)
    ensures b <==> exists k :: OccursAt(s, pat, k)
  {
    IndexOf(s, pat, 0).Some?
  }

  predicate StartsWith(s: string, pat: string) {
    OccursAt(s, pat, 0)
  }

  // ---------------------------------------------------------------- sequences

  lemma HeadTail<T>(xs: seq<T>)
    requires xs != []
    ensures [xs[0]] + xs[1..] == xs
  {
  }

  // ---------------------------------------------------------------- split / join

  /** `parts.join(sep)`. */
  function Join(parts: seq<string>, sep: string): string {
    if |parts| == 0 then ""
    else if |parts| == 1 then parts[0]
    else parts[0] + sep + Join(parts[1..], sep)
  }

  function FirstIndexOf(s: string, c: char): (k: nat)
    requires c in s
    ensures k < |s| && s[k] == c && c !in s[..k]
  {
    if s[0] == c then 0 else FirstIndexOf(s[1..], c) + 1
  }

  /** `s.split(sep)` for a one-character separator: the pieces between the separators
      (see `SplitJoin`). */
  function Split(s: string, sep: char): (parts: seq<string>)
    ensures |parts| >= 1
    ensures sep !in s ==> parts == [s]
    decreases |s|
  {
    if sep !in s then [s]
    else
      var k := FirstIndexOf(s, sep);
      [s[..k]] + Split(s[k + 1..], sep)
  }

  /** The pieces of `split` contain no separator and join back to `s`. */
  lemma SplitJoin(s: string, sep: char)
    ensures forall i :: 0 <= i < |Split(s, sep)| ==> sep !in Split(s, sep)[i]
    ensures Join(Split(s, sep), [sep]) == s
  {
    SplitPiecesFree(s, sep);
    SplitJoinBack(s, sep);
  }

  lemma {:induction false} SplitPiecesFree(s: string, sep: char)
    ensures forall i :: 0 <= i < |Split(s, sep)| ==> sep !in Split(s, sep)[i]
    decreases |s|
  {
    if sep in s {
      var k := FirstIndexOf(s, sep);
      var parts, rest := Split(s, sep), Split(s[k + 1..], sep);
      SplitPiecesFree(s[k + 1..], sep);
      forall i | 0 <= i < |parts|
        ensures sep !in parts[i]
      {
        if i > 0 {
          assert parts[i] == rest[i - 1];
        }
      }
    }
  }

  lemma {:induction false} SplitJoinBack(s: string, sep: char)
    ensures Join(Split(s, sep), [sep]) == s
    decreases |s|
  {
    if sep in s {
      var k := FirstIndexOf(s, sep);
      SplitJoinBack(s[k + 1..], sep);
      JoinCons(s[..k], Split(s[k + 1..], sep), sep);
      SplitRejoin(s, k, sep);
    }
  }

  lemma JoinCons(x: string, rest: seq<string>, sep: char)
    requires |rest| >= 1
    ensures Join([x] + rest, [sep]) == x + [sep] + Join(rest, [sep])
  {
    assert ([x] + rest)[1..] == rest;
  }

  lemma SplitRejoin(s: string, k: nat, sep: char)
    requires k < |s| && s[k] == sep
    ensures s[..k] + [sep] + s[k + 1..] == s
  {
  }

  lemma {:induction false} JoinAppend(xs: seq<string>, ys: seq<string>, sep: string)
    requires |xs| >= 1 && |ys| >= 1
    ensures Join(xs + ys, sep) == Join(xs, sep) + sep + Join(ys, sep)
    decreases |xs|
  {
    if |xs| > 1 {
      assert (xs + ys)[1..] == xs[1..] + ys;
      JoinAppend(xs[1..], ys, sep);
    }
  }

  lemma {:induction false} FirstIndexAfterFree(p: string, sep: char, t: string)
    requires sep !in p
    ensures FirstIndexOf(p + [sep] + t, sep) == |p|
    decreases |p|
  {
    if p != [] {
      assert (p + [sep] + t)[1..] == p[1..] + [sep] + t;
      FirstIndexAfterFree(p[1..], sep, t);
    }
  }

  /** The pieces of `split` are the only separator-free pieces that join back to `s`. */
  lemma {:induction false} SplitUnique(parts: seq<string>, sep: char, s: string)
    requires |parts| >= 1
    requires forall i :: 0 <= i < |parts| ==> sep !in parts[i]
    requires Join(parts, [sep]) == s
    ensures Split(s, sep) == parts
    decreases |parts|
  {
    if |parts| > 1 {
      var rest := Join(parts[1..], [sep]);
      assert s == parts[0] + [sep] + rest;
      FirstIndexAfterFree(parts[0], sep, rest);
      assert s[|parts[0]| + 1..] == rest;
      assert s[..|parts[0]|] == parts[0];
      SplitUnique(parts[1..], sep, rest);
    }
  }

  /** Splitting is compositional at a separator: the pieces of `a + sep + b`
      are those of `a` followed by those of `b`. */
  lemma SplitAtSeparator(a: string, sep: char, b: string)
    ensures Split(a + [sep] + b, sep) == Split(a, sep) + Split(b, sep)
  {
    var xs, ys := Split(a, sep), Split(b, sep);
    SplitJoin(a, sep);
    SplitJoin(b, sep);
    JoinAppend(xs, ys, [sep]);
    SplitUnique(xs + ys, sep, a + [sep] + b);
  }

  /** A first piece free of the separator is split off on its own. */
  lemma SplitFirstPiece(first: string, sep: char, rest: string)
    requires sep !in first
    ensures Split(first + [sep] + rest, sep) == [first] + Split(rest, sep)
  {
    SplitAtSeparator(first, sep, rest);
  }

  // ---------------------------------------------------------------- numbers

  function DigitChar(d: nat): char
    requires d < 10
  {
    ('0' as int + d) as char
  }

  /** `String(n)` for a non-negative integer: its decimal digits, without leading zeros. */
  function NatToString(n: nat): (s: string)
    ensures |s| >= 1 && forall k :: 0 <= k < |s| ==> IsDigit(s[k])
    ensures n >= 10 ==> s[0] != '0'
    decreases n
  {
    if n < 10 then [DigitChar(n)] else NatToString(n / 10) + [DigitChar(n % 10)]
  }

  /** `parseInt(ds)` for a string of decimal digits. */
  function DigitsValue(ds: string): (n: nat)
    requires forall k :: 0 <= k < |ds| ==> IsDigit(ds[k])
    decreases |ds|
  {
    if ds == [] then 0
    else
      assert IsDigit(ds[|ds| - 1]);
      DigitsValue(ds[..|ds| - 1]) * 10 + (ds[|ds| - 1] as int - '0' as int)
  }

  /** Reading back what `String(n)` wrote gives `n`. */
  lemma {:induction false} DigitsValueOfNatToString(n: nat)
    ensures DigitsValue(NatToString(n)) == n
    decreases n
  {
    if n >= 10 {
      var s := NatToString(n);
      assert s[..|s| - 1] == NatToString(n / 10);
      DigitsValueOfNatToString(n / 10);
    }
  }

  /** `String(n).padStart(2, '0')` for a day or month number. */
  function Pad2(n: nat): (s: string)
    ensures forall k :: 0 <= k < |s| ==> IsDigit(s[k])
    ensures n < 100 ==> |s| == 2
  {
    if n < 10 then "0" + NatToString(n)
    else
      assert n < 100 ==> |NatToString(n / 10)| == 1;
      NatToString(n)
  }

  lemma {:induction false} DigitsValueLeadingZero(ds: string)
    requires forall k :: 0 <= k < |ds| ==> IsDigit(ds[k])
    ensures DigitsValue("0" + ds) == DigitsValue(ds)
    decreases |ds|
  {
    if ds != [] {
      assert ("0" + ds)[..|ds|] == "0" + ds[..|ds| - 1];
      DigitsValueLeadingZero(ds[..|ds| - 1]);
    }
  }

  /** Reading back a padded day or month number gives the number. */
  lemma Pad2Value(n: nat)
    ensures DigitsValue(Pad2(n)) == n
  {
    DigitsValueOfNatToString(n);
    if n < 10 {
      DigitsValueLeadingZero(NatToString(n));
    }
  }
}
