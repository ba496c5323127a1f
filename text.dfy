/** Character-level helpers shared by the sanitiser: ASCII case folding as the
    JavaScript regular-expression `i` flag applies it to ASCII literals, the
    whitespace set of `String.prototype.trim`, `trim` itself, and the
    "only deletes characters" relation (being a subsequence). */
module Text {

  /** ASCII lower-casing. Under a non-Unicode `i` flag a non-ASCII character
      never canonicalises to an ASCII one, so for the ASCII markers this is
      exactly the case-insensitive comparison of the source's regexes. */
  function Fold(c: char): (r: char)
    ensures 'A' <= c <= 'Z' ==> r as int == c as int + 32
    ensures !('A' <= c <= 'Z') ==> r == c
  {
    if 'A' <= c <= 'Z' then (c as int + 32) as char else c
  }

  lemma FoldIsLt(c: char)
    ensures Fold(c) == '<' <==> c == '<'
  {
  }

  /** Case-insensitive occurrence of the lower-case literal `lit` at index `i` of `s`. */
  predicate MatchesAt(s: string, i: nat, lit: string)
  {
    i + |lit| <= |s| && forall k :: 0 <= k < |lit| ==> Fold(s[i + k]) == lit[k]
  }

  /** `lit` occurs nowhere in `s`, in any case. */
  predicate NoOccurrence(s: string, lit: string)
  {
    forall i: nat :: i < |s| ==> !MatchesAt(s, i, lit)
  }

  /** `lit` begins with '<' and has no other '<': no occurrence of it can
      overlap a later text that begins with '<'. */
  predicate LtOnlyFirst(lit: string)
  {
    |lit| > 0 && lit[0] == '<' && forall k :: 1 <= k < |lit| ==> lit[k] != '<'
  }

  /** An occurrence in `a + t` that starts inside `a` lies wholly inside `a`
      when `t` starts with '<' and `lit` has '<' only in front. */
  lemma MatchInPrefix(a: string, t: string, lit: string, i: nat)
    requires LtOnlyFirst(lit)
    requires t != [] && t[0] == '<'
    requires i < |a| && MatchesAt(a + t, i, lit)
    ensures MatchesAt(a, i, lit)
  {
    var s := a + t;
    if i + |lit| > |a| {
      var m := |a| - i;
      assert 1 <= m < |lit|;
      assert s[i + m] == t[0];
      assert Fold(s[i + m]) == lit[m];
      FoldIsLt(s[i + m]);
      assert false;
    }
    forall k | 0 <= k < |lit|
      ensures Fold(a[i + k]) == lit[k]
    {
      assert s[i + k] == a[i + k];
    }
  }

  /** Occurrences move with the text: index `i` of `s[1..]` is index `i + 1` of `s`. */
  lemma MatchesAtTail(s: string, i: nat, lit: string)
    requires s != []
    ensures MatchesAt(s[1..], i, lit) <==> MatchesAt(s, i + 1, lit)
  {
    if MatchesAt(s, i + 1, lit) {
      forall k | 0 <= k < |lit| ensures Fold(s[1..][i + k]) == lit[k] {
        assert s[1..][i + k] == s[i + 1 + k];
      }
    }
  }

  lemma NoOccurrenceTail(s: string, lit: string)
    requires s != [] && NoOccurrence(s, lit)
    ensures NoOccurrence(s[1..], lit)
  {
    forall i: nat | i < |s[1..]| ensures !MatchesAt(s[1..], i, lit) {
      MatchesAtTail(s, i, lit);
    }
  }

  /** Occurrences move with the text: index `i` of `q` is index `|p| + i` of `p + q`. */
  lemma MatchesAtShift(p: string, q: string, i: nat, lit: string)
    ensures MatchesAt(p + q, |p| + i, lit) <==> MatchesAt(q, i, lit)
  {
    var s := p + q;
    if MatchesAt(q, i, lit) {
      forall k | 0 <= k < |lit| ensures Fold(s[|p| + i + k]) == lit[k] {
        assert s[|p| + i + k] == q[i + k];
      }
    }
    if MatchesAt(s, |p| + i, lit) {
      forall k | 0 <= k < |lit| ensures Fold(q[i + k]) == lit[k] {
        assert s[|p| + i + k] == q[i + k];
      }
    }
  }

  /** An occurrence stays an occurrence when text is appended. */
  lemma MatchesAtExtend(p: string, q: string, i: nat, lit: string)
    requires MatchesAt(p, i, lit)
    ensures MatchesAt(p + q, i, lit)
  {
    forall k | 0 <= k < |lit| ensures Fold((p + q)[i + k]) == lit[k] {
      assert (p + q)[i + k] == p[i + k];
    }
  }

  /** Putting back the head of `a` in front of `a[1..] + r` gives `a + r`. */
  lemma HeadThenRest(a: string, whole: string, tail: string, r: string)
    requires a != [] && whole == [a[0]] + tail && tail == a[1..] + r
    ensures whole == a + r
  {
  }

  /** A text shorter than the literal cannot contain it. */
  lemma ShortHasNoOccurrence(s: string, lit: string)
    requires |s| < |lit|
    ensures NoOccurrence(s, lit)
  {
  }

  /** The characters `String.prototype.trim` removes: the ECMAScript
      WhiteSpace set (TAB, VT, FF, ZWNBSP and the Zs category) and the
      LineTerminator set (LF, CR, LS, PS). */
  predicate IsWhitespace(c: char)
  {
    var n := c as int;
    n == 0x09 || n == 0x0A || n == 0x0B || n == 0x0C || n == 0x0D || n == 0x20 ||
    n == 0xA0 || n == 0x1680 || (0x2000 <= n <= 0x200A) || n == 0x2028 ||
    n == 0x2029 || n == 0x202F || n == 0x205F || n == 0x3000 || n == 0xFEFF
  }

  predicate AllWhitespace(s: string)
  {
    forall i :: 0 <= i < |s| ==> IsWhitespace(s[i])
  }

  /** No whitespace at either end. */
  predicate Trimmed(s: string)
  {
    s == [] || (!IsWhitespace(s[0]) && !IsWhitespace(s[|s| - 1]))
  }

  /** Length of the leading whitespace run. */
  function LeadingWhitespace(s: string): (n: nat)
    ensures n <= |s|
    ensures AllWhitespace(s[..n])
    ensures n < |s| ==> !IsWhitespace(s[n])
  {
    if s == [] || !IsWhitespace(s[0]) then 0
    else
      var m := LeadingWhitespace(s[1..]);
      m + 1
  }

  /** Length of `s` without its trailing whitespace run. */
  function WithoutTrailingWhitespace(s: string): (n: nat)
    ensures n <= |s|
    ensures AllWhitespace(s[n..])
    ensures n > 0 ==> !IsWhitespace(s[n - 1])
  {
    if s == [] || !IsWhitespace(s[|s| - 1]) then |s|
    else
      var m := WithoutTrailingWhitespace(s[..|s| - 1]);
      assert forall i :: 0 <= i < |s| - m - 1 ==> s[m..][i] == s[..|s| - 1][m..][i];
      m
  }

  /** `String.prototype.trim`: drop leading and trailing whitespace. */
  function Trim(s: string): (r: string)
    ensures Trimmed(r)
  {
    var t := s[LeadingWhitespace(s)..];
    t[..WithoutTrailingWhitespace(t)]
  }

  /** `Trim` removes only whitespace, and only at the two ends: the result is
      a contiguous slice of the input whose surroundings are all whitespace. */
  lemma TrimRemovesOnlyOuterWhitespace(s: string)
    ensures exists lo, hi ::
              && 0 <= lo <= hi <= |s| && Trim(s) == s[lo..hi]
              && AllWhitespace(s[..lo]) && AllWhitespace(s[hi..])
  {
    var lo := LeadingWhitespace(s);
    var t := s[lo..];
    var n := WithoutTrailingWhitespace(t);
    var hi := lo + n;
    assert Trim(s) == s[lo..hi];
    assert forall i :: 0 <= i < |s| - hi ==> s[hi..][i] == t[n..][i];
  }

  /** A text that does not start with whitespace keeps its first character. */
  lemma TrimKeepsLeadingNonWhitespace(s: string)
    requires s != [] && !IsWhitespace(s[0])
    ensures Trim(s) != [] && Trim(s)[0] == s[0]
  {
    assert LeadingWhitespace(s) == 0;
    assert s[0..] == s;
  }

  /** A text comes back from `Trim` unchanged exactly when it has no
      whitespace at either end. */
  lemma TrimFixedPoint(s: string)
    ensures Trim(s) == s <==> Trimmed(s)
  {
    if Trimmed(s) {
      assert LeadingWhitespace(s) == 0;
      assert s[0..] == s;
    }
  }

  /** `t` can be obtained from `s` by deleting characters. */
  predicate IsSubsequence(t: string, s: string)
    decreases |s|
  {
    if t == [] then true
    else if s == [] then false
    else (t[0] == s[0] && IsSubsequence(t[1..], s[1..])) || IsSubsequence(t, s[1..])
  }

  lemma {:induction false} SubsequenceLength(t: string, s: string)
    requires IsSubsequence(t, s)
    ensures |t| <= |s|
    decreases |s|
  {
    if t != [] {
      if t[0] == s[0] && IsSubsequence(t[1..], s[1..]) {
        SubsequenceLength(t[1..], s[1..]);
      } else {
        SubsequenceLength(t, s[1..]);
      }
    }
  }

  lemma {:induction false} SubsequenceReflexive(s: string)
    ensures IsSubsequence(s, s)
    decreases |s|
  {
    if s != [] {
      SubsequenceReflexive(s[1..]);
    }
  }

  lemma {:induction false} SubsequenceTransitive(a: string, b: string, c: string)
    requires IsSubsequence(a, b) && IsSubsequence(b, c)
    ensures IsSubsequence(a, c)
    decreases |c|
  {
    if a != [] {
      assert b != [] && c != [];
      if b[0] == c[0] && IsSubsequence(b[1..], c[1..]) {
        if a[0] == b[0] && IsSubsequence(a[1..], b[1..]) {
          SubsequenceTransitive(a[1..], b[1..], c[1..]);
        } else {
          SubsequenceTransitive(a, b[1..], c[1..]);
        }
      } else {
        SubsequenceTransitive(a, b, c[1..]);
      }
    }
  }

  /** A subsequence of `s[k..]` is a subsequence of `s`. */
  lemma {:induction false} SubsequenceOfSuffix(t: string, s: string, k: nat)
    requires k <= |s| && IsSubsequence(t, s[k..])
    ensures IsSubsequence(t, s)
    decreases k
  {
    if k > 0 {
      assert s[1..][k - 1..] == s[k..];
      SubsequenceOfSuffix(t, s[1..], k - 1);
      assert t == [] || IsSubsequence(t, s[1..]);
    }
  }

  /** A kept character followed by a subsequence of the rest. */
  lemma SubsequenceCons(c: char, t: string, s: string)
    requires s != [] && s[0] == c && IsSubsequence(t, s[1..])
    ensures IsSubsequence([c] + t, s)
  {
    assert ([c] + t)[1..] == t;
  }

  /** A slice is a subsequence. */
  lemma SliceIsSubsequence(s: string, lo: nat, hi: nat)
    requires lo <= hi <= |s|
    ensures IsSubsequence(s[lo..hi], s)
  {
    PrefixIsSubsequence(s[lo..], hi - lo);
    assert s[lo..][..hi - lo] == s[lo..hi];
    SubsequenceOfSuffix(s[lo..hi], s, lo);
  }

  lemma {:induction false} PrefixIsSubsequence(s: string, n: nat)
    requires n <= |s|
    ensures IsSubsequence(s[..n], s)
    decreases n
  {
    if n > 0 {
      PrefixIsSubsequence(s[1..], n - 1);
      assert s[1..][..n - 1] == s[..n][1..];
    }
  }

  lemma TrimIsSubsequence(s: string)
    ensures IsSubsequence(Trim(s), s)
  {
    TrimRemovesOnlyOuterWhitespace(s);
    var lo, hi :| 0 <= lo <= hi <= |s| && Trim(s) == s[lo..hi];
    SliceIsSubsequence(s, lo, hi);
  }
}
