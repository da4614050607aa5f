/**
 * String and number helpers shared by the model: the failure-carrying
 * wrappers, decimal printing and parsing as JavaScript's template literals
 * and `parseInt(_, 10)` do them, `String.prototype.trim`, and
 * `String.prototype.split` for a one-character or a literal separator.
 */
module Text {

  datatype Option<+T> = None | Some(value: T)

  datatype Result<+T, +E> = Ok(value: T) | Err(error: E)

  // ---------------------------------------------------------------------
  // Decimal digits
  // ---------------------------------------------------------------------

  predicate IsDigit(c: char) { '0' <= c <= '9' }

  predicate AllDigits(s: string) { forall i :: 0 <= i < |s| ==> IsDigit(s[i]) }

  function DigitValue(c: char): nat
    requires IsDigit(c)
  {
    (c as int) - ('0' as int)
  }

  function DigitChar(d: nat): (c: char)
    requires d < 10
    ensures IsDigit(c) && DigitValue(c) == d
  {
    (('0' as int) + d) as char
  }

  /** The decimal text of a natural number, as `${n}` prints it. */
  function NatToString(n: nat): (s: string)
    ensures |s| >= 1 && AllDigits(s)
    ensures s[0] == '0' ==> n == 0
    decreases n
  {
    if n < 10 then [DigitChar(n)] else NatToString(n / 10) + [DigitChar(n % 10)]
  }

  /** `${i}` for an integer: a minus sign before the digits of |i|. */
  function IntToString(i: int): (s: string)
    ensures |s| >= 1
    ensures i < 0 <==> s[0] == '-'
    ensures i >= 0 ==> AllDigits(s)
  {
    if i < 0 then "-" + NatToString(-i) else NatToString(i)
  }

  /** The value of a string of decimal digits. */
  function ParseDigits(s: string): nat
    requires AllDigits(s)
    decreases |s|
  {
    if s == [] then 0 else ParseDigits(s[..|s| - 1]) * 10 + DigitValue(s[|s| - 1])
  }

  /** Printing a natural number and reading it back gives the number. */
  lemma {:induction false} ParseNatToString(n: nat)
    ensures ParseDigits(NatToString(n)) == n
    decreases n
  {
    if n >= 10 {
      var s := NatToString(n);
      assert s[..|s| - 1] == NatToString(n / 10);
      ParseNatToString(n / 10);
    }
  }

  /** Distinct numbers print differently. */
  lemma NatToStringInjective(m: nat, n: nat)
    requires NatToString(m) == NatToString(n)
    ensures m == n
  {
    ParseNatToString(m);
    ParseNatToString(n);
  }

  // ---------------------------------------------------------------------
  // Whitespace and trim
  // ---------------------------------------------------------------------

  /** The characters `String.prototype.trim` removes: white space and line terminators. */
  predicate IsJsSpace(c: char)
  {
    || c == ' ' || c == '\t' || c == '\n' || c == '\r'
    || c == '\U{000B}' || c == '\U{000C}' || c == '\U{00A0}' || c == '\U{1680}'
    || ('\U{2000}' <= c <= '\U{200A}')
    || c == '\U{2028}' || c == '\U{2029}' || c == '\U{202F}' || c == '\U{205F}'
    || c == '\U{3000}' || c == '\U{FEFF}'
  }

  predicate IsBlank(s: string) { forall i :: 0 <= i < |s| ==> IsJsSpace(s[i]) }

  /** `trimStart`: drops the leading white space and nothing else. */
  function TrimStart(s: string): (r: string)
    ensures |r| <= |s| && r == s[|s| - |r|..]
    ensures forall i :: 0 <= i < |s| - |r| ==> IsJsSpace(s[i])
    ensures r != [] ==> !IsJsSpace(r[0])
    decreases |s|
  {
    if s != [] && IsJsSpace(s[0]) then
      var t := s[1..];
      var r := TrimStart(t);
      assert forall i :: 1 <= i < |s| ==> s[i] == t[i - 1];
      r
    else s
  }

  /** `trimEnd`: drops the trailing white space and nothing else. */
  function TrimEnd(s: string): (r: string)
    ensures |r| <= |s| && r == s[..|r|]
    ensures forall i :: |r| <= i < |s| ==> IsJsSpace(s[i])
    ensures r != [] ==> !IsJsSpace(r[|r| - 1])
    decreases |s|
  {
    if s != [] && IsJsSpace(s[|s| - 1]) then
      var t := s[..|s| - 1];
      var r := TrimEnd(t);
      assert forall i :: 0 <= i < |s| - 1 ==> s[i] == t[i];
      r
    else s
  }

  function Trim(s: string): string
  {
    TrimEnd(TrimStart(s))
  }

  /** `s.trim()` is empty exactly when every character of `s` is white space. */
  lemma TrimEmptyIffBlank(s: string)
    ensures Trim(s) == [] <==> IsBlank(s)
  {
    var t := TrimStart(s);
    var r := TrimEnd(t);
    assert t != [] ==> t[0] == s[|s| - |t|];
  }

  // ---------------------------------------------------------------------
  // parseInt(_, 10)
  // ---------------------------------------------------------------------

  /** The longest prefix of `s` made of decimal digits. */
  function DigitPrefix(s: string): (r: string)
    ensures |r| <= |s| && r == s[..|r|] && AllDigits(r)
    ensures |r| < |s| ==> !IsDigit(s[|r|])
    decreases |s|
  {
    if s != [] && IsDigit(s[0]) then [s[0]] + DigitPrefix(s[1..]) else []
  }

  /**
   * `parseInt(s, 10)`: leading white space skipped, an optional sign, then
   * the longest run of digits; no digits gives NaN, here `None`.
   */
  function ParseInt(s: string): Option<int>
  {
    var t := TrimStart(s);
    var negative := t != [] && t[0] == '-';
    var u := if t != [] && (t[0] == '-' || t[0] == '+') then t[1..] else t;
    var d := DigitPrefix(u);
    if d == [] then None
    else
      var v: int := ParseDigits(d);
      Some(if negative then -v else v)
  }

  /** `parseInt` gives NaN exactly when no digit follows the leading white space and the optional sign. */
  lemma ParseIntNaN(s: string)
    ensures ParseInt(s).None? <==> (var t := TrimStart(s);
                                    var u := if t != [] && (t[0] == '-' || t[0] == '+') then t[1..] else t;
                                    u == [] || !IsDigit(u[0]))
  {
    var t := TrimStart(s);
    var u := if t != [] && (t[0] == '-' || t[0] == '+') then t[1..] else t;
    if u != [] && IsDigit(u[0]) {
      assert DigitPrefix(u) != [];
    }
  }

  /** `parseInt` reads back what a template literal printed. */
  lemma ParseIntToString(i: int)
    ensures ParseInt(IntToString(i)) == Some(i)
  {
    var s := IntToString(i);
    var digits := if i < 0 then NatToString(-i) else NatToString(i);
    assert !IsJsSpace(s[0]);
    assert TrimStart(s) == s;
    var u := if s[0] == '-' || s[0] == '+' then s[1..] else s;
    assert u == digits;
    AllDigitsPrefix(digits);
    ParseNatToString(if i < 0 then -i else i);
  }

  lemma {:induction false} AllDigitsPrefix(s: string)
    requires AllDigits(s)
    ensures DigitPrefix(s) == s
    decreases |s|
  {
    if s != [] { AllDigitsPrefix(s[1..]); }
  }

  // ---------------------------------------------------------------------
  // split on one character
  // ---------------------------------------------------------------------

  /** `s.split(c)` for a one-character separator: the pieces between the separators, in order. */
  function Split(s: string, c: char): (parts: seq<string>)
    ensures |parts| >= 1
    ensures forall k :: 0 <= k < |parts| ==> c !in parts[k]
    decreases |s|
  {
    if s == [] then [""]
    else
      var rest := Split(s[1..], c);
      if s[0] == c then [""] + rest else [[s[0]] + rest[0]] + rest[1..]
  }

  /** `parts.join(c)`. */
  function Join(parts: seq<string>, c: char): string
    requires |parts| >= 1
    decreases |parts|
  {
    if |parts| == 1 then parts[0] else parts[0] + [c] + Join(parts[1..], c)
  }

  /** Splitting and joining again on the same character restores the string. */
  lemma {:induction false} JoinSplit(s: string, c: char)
    ensures Join(Split(s, c), c) == s
    decreases |s|
  {
    if s != [] {
      var rest := Split(s[1..], c);
      JoinSplit(s[1..], c);
      if s[0] != c {
        var parts := Split(s, c);
        if |rest| == 1 {
          assert parts == [[s[0]] + rest[0]];
        } else {
          assert parts[1..] == rest[1..];
          assert Join(parts, c) == [s[0]] + rest[0] + [c] + Join(rest[1..], c);
        }
      }
    }
  }

  /** The first piece of `s.split(c)` is the text before the first `c`. */
  lemma {:induction false} SplitFirstPiece(s: string, c: char)
    ensures var p := Split(s, c)[0];
            |p| <= |s| && p == s[..|p|] && (|p| < |s| ==> s[|p|] == c)
    decreases |s|
  {
    if s != [] { SplitFirstPiece(s[1..], c); }
  }

  /** Text with no `c`, followed by nothing or by `c`, is the first piece of the split. */
  lemma {:induction false} SplitFirstPieceOf(id: string, tail: string, c: char)
    requires c !in id
    requires tail == [] || tail[0] == c
    ensures Split(id + tail, c)[0] == id
    decreases |id|
  {
    if id != [] {
      assert (id + tail)[1..] == id[1..] + tail;
      SplitFirstPieceOf(id[1..], tail, c);
      assert [id[0]] + id[1..] == id;
    } else {
      assert id + tail == tail;
    }
  }

  /** `s.split(c)[0]` on its own: the text before the first `c`, or all of `s`. */
  function FirstPiece(s: string, c: char): string
    decreases |s|
  {
    if s == [] || s[0] == c then [] else [s[0]] + FirstPiece(s[1..], c)
  }

  /** The first piece is a prefix of `s` without `c`, followed by nothing or by `c`. */
  lemma {:induction false} FirstPieceFacts(s: string, c: char)
    ensures var p := FirstPiece(s, c);
            && |p| <= |s| && p == s[..|p|] && c !in p
            && (|p| < |s| ==> s[|p|] == c)
    decreases |s|
  {
    if s != [] && s[0] != c { FirstPieceFacts(s[1..], c); }
  }

  /** `FirstPiece` is the first piece of the split. */
  lemma {:induction false} FirstPieceOfSplit(s: string, c: char)
    ensures FirstPiece(s, c) == Split(s, c)[0]
    decreases |s|
  {
    if s != [] && s[0] != c { FirstPieceOfSplit(s[1..], c); }
  }

  /** Text without `c` splits into itself alone. */
  lemma {:induction false} SplitWithout(s: string, c: char)
    requires c !in s
    ensures Split(s, c) == [s]
    decreases |s|
  {
    if s != [] {
      SplitWithout(s[1..], c);
      assert [s[0]] + s[1..] == s;
    }
  }

  /** Text with no `c` followed by `c` is the first piece; the rest splits on its own. */
  lemma {:induction false} SplitAfterSeparator(key: string, tail: string, c: char)
    requires c !in key
    ensures Split(key + [c] + tail, c) == [key] + Split(tail, c)
    decreases |key|
  {
    if key == [] {
      assert key + [c] + tail == [c] + tail;
      assert ([c] + tail)[1..] == tail;
    } else {
      assert (key + [c] + tail)[1..] == key[1..] + [c] + tail;
      SplitAfterSeparator(key[1..], tail, c);
      assert [key[0]] + key[1..] == key;
    }
  }

  // ---------------------------------------------------------------------
  // Searching for a literal separator
  // ---------------------------------------------------------------------

  predicate OccursAt(s: string, pat: string, p: nat)
  {
    p + |pat| <= |s| && forall i :: 0 <= i < |pat| ==> s[p + i] == pat[i]
  }

  /** `s.indexOf(pat, from)`: the first occurrence of `pat` at or after `from`. */
  function IndexOfFrom(s: string, pat: string, from: nat): Option<nat>
    decreases |s| - from
  {
    if from + |pat| > |s| then None
    else if OccursAt(s, pat, from) then Some(from)
    else IndexOfFrom(s, pat, from + 1)
  }

  /** The index found is an occurrence at or after `from`. */
  lemma {:induction false} IndexOfFromFound(s: string, pat: string, from: nat)
    ensures var r := IndexOfFrom(s, pat, from);
            r.Some? ==> from <= r.value && OccursAt(s, pat, r.value)
    decreases |s| - from
  {
    if from + |pat| <= |s| && !OccursAt(s, pat, from) {
      IndexOfFromFound(s, pat, from + 1);
    }
  }

  /**
   * No occurrence lies between `from` and the index found; no index found
   * means there is no occurrence at or after `from`.
   */
  lemma {:induction false} IndexOfFromFirst(s: string, pat: string, from: nat)
    ensures var r := IndexOfFrom(s, pat, from);
            && (r.Some? ==> forall q :: from <= q < r.value ==> !OccursAt(s, pat, q))
            && (r.None? ==> forall q :: from <= q ==> !OccursAt(s, pat, q))
    decreases |s| - from
  {
    if from + |pat| <= |s| && !OccursAt(s, pat, from) {
      IndexOfFromFirst(s, pat, from + 1);
    }
  }
}
