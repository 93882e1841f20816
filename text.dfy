/**
 * The character-level building blocks of java.util.regex that the servlet's
 * patterns rely on, with the default flags plus (?i): ASCII-only case
 * folding, `\d` as the ASCII digits, `.` refusing line terminators, and the
 * non-multiline `$` anchor.
 */
module Text {

  /** `\d` without UNICODE_CHARACTER_CLASS. */
  predicate IsDigit(c: char) {
    '0' <= c <= '9'
  }

  /** The characters `.` refuses when neither DOTALL nor UNIX_LINES is set. */
  predicate IsLineTerminator(c: char) {
    c == '\n' || c == '\r' || c == '\U{0085}' || c == '\U{2028}' || c == '\U{2029}'
  }

  /** Case folding under (?i) without UNICODE_CASE: only 'A'..'Z' change. */
  function Fold(c: char): (r: char)
    ensures 'A' <= c <= 'Z' ==> 'a' <= r <= 'z' && r as int == c as int + 32
    ensures !('A' <= c <= 'Z') ==> r == c
  {
    if 'A' <= c <= 'Z' then (c as int + 32) as char else c
  }

  /** Two characters (?i) cannot tell apart differ at most in ASCII letter case. */
  lemma FoldSame(c: char, d: char)
    requires Fold(c) == Fold(d)
    ensures c == d || ('A' <= c <= 'Z' || 'a' <= c <= 'z')
    ensures IsDigit(c) <==> IsDigit(d)
    ensures IsLineTerminator(c) <==> IsLineTerminator(d)
    ensures c == '/' <==> d == '/'
    ensures c == '\r' <==> d == '\r'
    ensures c == '\n' <==> d == '\n'
  {
  }

  /** The string with 'A'..'Z' folded to lower case: what (?i) compares. */
  function Folded(s: string): (r: string)
    ensures |r| == |s|
    decreases |s|
  {
    if |s| == 0 then [] else [Fold(s[0])] + Folded(s[1..])
  }

  lemma {:induction false} FoldedAt(s: string, i: nat)
    requires i < |s|
    ensures Folded(s)[i] == Fold(s[i])
    decreases i
  {
    if i > 0 {
      FoldedAt(s[1..], i - 1);
    }
  }

  /** `s` and `t` are the same path as far as (?i) is concerned. */
  predicate FoldEqual(s: string, t: string) {
    |s| == |t| && Folded(s) == Folded(t)
  }

  /** Case-equal paths have the same length and differ at most in the letter case of each character. */
  lemma FoldAt(s: string, t: string, i: nat)
    requires FoldEqual(s, t) && i < |s|
    ensures |t| == |s| && Fold(s[i]) == Fold(t[i])
    ensures IsDigit(s[i]) <==> IsDigit(t[i])
    ensures IsLineTerminator(s[i]) <==> IsLineTerminator(t[i])
    ensures s[i] == '/' <==> t[i] == '/'
    ensures s[i] == '\r' <==> t[i] == '\r'
    ensures s[i] == '\n' <==> t[i] == '\n'
  {
    FoldedAt(s, i);
    FoldedAt(t, i);
    FoldSame(s[i], t[i]);
  }

  /** Strings of one length that agree up to case at every position are case-equal. */
  lemma FoldEqualByChars(s: string, t: string)
    requires |s| == |t| && forall i :: 0 <= i < |s| ==> Fold(s[i]) == Fold(t[i])
    ensures FoldEqual(s, t)
  {
    forall i | 0 <= i < |s| ensures Folded(s)[i] == Folded(t)[i] {
      FoldedAt(s, i);
      FoldedAt(t, i);
    }
  }

  /** The same stretch of two case-equal paths is case-equal. */
  lemma FoldEqualSlice(s: string, t: string, i: nat, j: nat)
    requires FoldEqual(s, t) && i <= j <= |s|
    ensures FoldEqual(s[i..j], t[i..j])
  {
    forall k | 0 <= k < j - i ensures Fold(s[i..j][k]) == Fold(t[i..j][k]) {
      FoldAt(s, t, i + k);
    }
    FoldEqualByChars(s[i..j], t[i..j]);
  }

  /** A literal does not occur where one of its characters differs, ignoring case. */
  lemma LiteralMismatch(s: string, i: nat, lit: string, j: nat)
    requires j < |lit|
    requires i + |lit| <= |s| ==> Fold(s[i + j]) != Fold(lit[j])
    ensures !LiteralAt(s, i, lit)
  {
  }

  /** The literal `lit` occurs at position `i` of `s`, ignoring ASCII case. */
  /** x is the stretch of s that starts at i, letter for letter. */
  predicate Stretch(s: string, i: nat, x: string) {
    i + |x| <= |s| && s[i..i + |x|] == x
  }

  predicate LiteralAt(s: string, i: nat, lit: string) {
    i + |lit| <= |s| && forall j :: 0 <= j < |lit| ==> Fold(s[i + j]) == Fold(lit[j])
  }

  /** A path starts with its own first part. */
  lemma LiteralAtStart(a: string, b: string)
    ensures LiteralAt(a + b, 0, a)
  {
    assert forall j :: 0 <= j < |a| ==> (a + b)[j] == a[j];
  }

  /** A literal made of two parts matches where both parts match in turn. */
  lemma LiteralAtConcat(s: string, i: nat, a: string, b: string)
    ensures LiteralAt(s, i, a + b) <==> LiteralAt(s, i, a) && LiteralAt(s, i + |a|, b)
  {
    if LiteralAt(s, i, a) && LiteralAt(s, i + |a|, b) {
      forall j | 0 <= j < |a + b| ensures Fold(s[i + j]) == Fold((a + b)[j]) {
        if j >= |a| {
          assert (a + b)[j] == b[j - |a|];
          assert s[i + j] == s[(i + |a|) + (j - |a|)];
        }
      }
    }
    if LiteralAt(s, i, a + b) {
      forall j | 0 <= j < |b| ensures Fold(s[i + |a| + j]) == Fold(b[j]) {
        assert (a + b)[|a| + j] == b[j];
      }
      forall j | 0 <= j < |a| ensures Fold(s[i + j]) == Fold(a[j]) {
        assert (a + b)[j] == a[j];
      }
    }
  }

  /** A literal matches at i exactly when the text there is the literal up to letter case. */
  lemma LiteralAtSlice(s: string, i: nat, lit: string)
    requires i + |lit| <= |s|
    ensures LiteralAt(s, i, lit) <==> FoldEqual(s[i..i + |lit|], lit)
  {
    var w := s[i..i + |lit|];
    assert forall j :: 0 <= j < |lit| ==> w[j] == s[i + j];
    if LiteralAt(s, i, lit) {
      FoldEqualByChars(w, lit);
    }
    if FoldEqual(w, lit) {
      forall j | 0 <= j < |lit| ensures Fold(s[i + j]) == Fold(lit[j]) {
        FoldAt(w, lit, j);
      }
    }
  }

  /** Whether a literal matches does not depend on the letter case of the path. */
  lemma LiteralAtIgnoresCase(s: string, t: string, i: nat, lit: string)
    requires FoldEqual(s, t)
    ensures LiteralAt(s, i, lit) <==> LiteralAt(t, i, lit)
  {
    if i + |lit| <= |s| {
      forall j | 0 <= j < |lit| ensures Fold(s[i + j]) == Fold(lit[j]) <==> Fold(t[i + j]) == Fold(lit[j]) {
        FoldAt(s, t, i + j);
      }
    }
  }

  /** Every character of s[i..j] is a digit. */
  predicate AllDigits(s: string, i: nat, j: nat)
    requires i <= j <= |s|
  {
    forall k :: i <= k < j ==> IsDigit(s[k])
  }

  /** A non-empty string of ASCII digits: what a `(\d+)` group captures. */
  predicate Numeric(x: string) {
    |x| > 0 && forall k :: 0 <= k < |x| ==> IsDigit(x[k])
  }

  /** No character of s[i..j] is a line terminator, so `.` accepts each one. */
  predicate NoTerminators(s: string, i: nat, j: nat)
    requires i <= j <= |s|
  {
    forall k :: i <= k < j ==> !IsLineTerminator(s[k])
  }

  /**
   * Java's non-multiline `$` at position i: the end of the input, or a final
   * line terminator (but not between '\r' and '\n'), or a final "\r\n".
   */
  predicate AtEnd(s: string, i: nat)
    requires i <= |s|
  {
    || i == |s|
    || (i == |s| - 1 && IsLineTerminator(s[i]) && !(s[i] == '\n' && i > 0 && s[i - 1] == '\r'))
    || (i == |s| - 2 && s[i] == '\r' && s[i + 1] == '\n')
  }

  /** Where `$` holds, no digit, no '/' and no ordinary character follows. */
  lemma AtEndRest(s: string, i: nat)
    requires i <= |s| && AtEnd(s, i)
    ensures i < |s| ==> IsLineTerminator(s[i]) && !IsDigit(s[i]) && s[i] != '/'
  {
  }

  /** `$` means the same in two paths that differ only in letter case. */
  lemma AtEndIgnoresCase(s: string, t: string, i: nat)
    requires FoldEqual(s, t) && i <= |s|
    ensures AtEnd(s, i) <==> AtEnd(t, i)
  {
    if i < |s| { FoldAt(s, t, i); }
    if i + 1 < |s| { FoldAt(s, t, i + 1); }
    if 0 < i <= |s| { FoldAt(s, t, i - 1); }
  }

  /** The length of the longest run of digits starting at i: what greedy `\d+` takes first. */
  function DigitRun(s: string, i: nat): (n: nat)
    requires i <= |s|
    ensures i + n <= |s|
    ensures AllDigits(s, i, i + n)
    ensures i + n == |s| || !IsDigit(s[i + n])
    decreases |s| - i
  {
    if i < |s| && IsDigit(s[i]) then 1 + DigitRun(s, i + 1) else 0
  }

  /** A run of digits ended by a non-digit is the longest run. */
  lemma DigitRunIs(s: string, i: nat, n: nat)
    requires i + n <= |s| && AllDigits(s, i, i + n)
    requires i + n == |s| || !IsDigit(s[i + n])
    ensures DigitRun(s, i) == n
    decreases n
  {
    if n > 0 {
      DigitRunIs(s, i + 1, n - 1);
    }
  }

  /** The length of the longest run of characters `.` accepts, starting at i. */
  function LineRun(s: string, i: nat): (n: nat)
    requires i <= |s|
    ensures i + n <= |s|
    ensures NoTerminators(s, i, i + n)
    ensures i + n == |s| || IsLineTerminator(s[i + n])
    decreases |s| - i
  {
    if i < |s| && !IsLineTerminator(s[i]) then 1 + LineRun(s, i + 1) else 0
  }

  /** `.` accepts s[i..i+k] exactly when k is within the longest such run. */
  lemma NoTerminatorsWithinLineRun(s: string, i: nat, k: nat)
    requires i <= |s|
    ensures i + k <= |s| && NoTerminators(s, i, i + k) <==> k <= LineRun(s, i)
  {
    var n := LineRun(s, i);
    if k > n && i + k <= |s| {
      assert IsLineTerminator(s[i + n]);
    }
  }

  /** Digits are digits in either letter case of a path. */
  lemma AllDigitsIgnoresCase(s: string, t: string, i: nat, j: nat)
    requires FoldEqual(s, t) && i <= j <= |s|
    ensures |t| == |s| && (AllDigits(s, i, j) <==> AllDigits(t, i, j))
  {
    forall k | i <= k < j ensures IsDigit(s[k]) <==> IsDigit(t[k]) {
      FoldAt(s, t, k);
    }
  }

  /** Line terminators are the same in either letter case of a path. */
  lemma NoTerminatorsIgnoresCase(s: string, t: string, i: nat, j: nat)
    requires FoldEqual(s, t) && i <= j <= |s|
    ensures |t| == |s| && (NoTerminators(s, i, j) <==> NoTerminators(t, i, j))
  {
    forall k | i <= k < j ensures IsLineTerminator(s[k]) <==> IsLineTerminator(t[k]) {
      FoldAt(s, t, k);
    }
  }
}
