/**
 * The few Python `str` built-ins that the skill-list codec and the upload
 * validator rely on, stated over `string` (= `seq<char>`):
 * `s.split(sep)` with a one-character separator, `sep.join(xs)`,
 * `s.strip()`, `s.lower()` (ASCII letters) and the position of the last
 * occurrence of a character, which `s.rsplit(c, 1)` splits at.
 */
module PyText {

  // ---------------------------------------------------------------------
  // Counting and searching
  // ---------------------------------------------------------------------

  /** Number of occurrences of `c` in `s` (Python's `s.count(c)`). */
  function Occurrences(s: string, c: char): nat
  {
    if |s| == 0 then 0
    else (if s[0] == c then 1 else 0) + Occurrences(s[1..], c)
  }

  lemma {:induction false} OccurrencesZero(s: string, c: char)
    ensures (Occurrences(s, c) == 0) <==> c !in s
  {
    if |s| > 0 {
      OccurrencesZero(s[1..], c);
      assert s == [s[0]] + s[1..];
    }
  }

  /** Index of the last `c` in `s`, or -1 when there is none. */
  function LastIndexOf(s: string, c: char): (i: int)
    ensures -1 <= i < |s|
    ensures 0 <= i ==> s[i] == c
    ensures forall k :: i < k < |s| ==> s[k] != c
  {
    if |s| == 0 then -1
    else if s[|s| - 1] == c then |s| - 1
    else LastIndexOf(s[..|s| - 1], c)
  }

  /** The text after the last `c`: `s.rsplit(c, 1)[1]` when `c in s`. */
  function AfterLast(s: string, c: char): (tail: string)
    requires c in s
    ensures c !in tail
    ensures exists k :: 0 <= k < |s| && s[k] == c && s == s[..k] + [c] + tail
  {
    var k := LastIndexOf(s, c);
    assert k >= 0 by {
      var m :| 0 <= m < |s| && s[m] == c;
    }
    assert s == s[..k] + [c] + s[k + 1..];
    s[k + 1..]
  }

  /** Whatever the head, the text after the last `c` of `head + [c] + tail`
      is `tail`, as long as `tail` holds no `c`. */
  lemma AfterLastOfSplit(head: string, c: char, tail: string)
    requires c !in tail
    ensures AfterLast(head + [c] + tail, c) == tail
  {
    var s := head + [c] + tail;
    var k := LastIndexOf(s, c);
    assert s[|head|] == c;
    assert k >= |head|;
    assert forall m :: |head| < m < |s| ==> s[m] == tail[m - |head| - 1];
    assert k == |head|;
    assert s[k + 1..] == tail;
  }

  // ---------------------------------------------------------------------
  // split and join with a one-character separator
  // ---------------------------------------------------------------------

  /** Python's `s.split(sep)` for a single-character `sep`: the maximal
      separator-free pieces, in order; the empty string gives `[""]`. */
  function Split(s: string, sep: char): (parts: seq<string>)
    ensures |parts| >= 1
    decreases |s|
  {
    if |s| == 0 then [""]
    else if s[0] == sep then [""] + Split(s[1..], sep)
    else
      var rest := Split(s[1..], sep);
      [[s[0]] + rest[0]] + rest[1..]
  }

  /** Python's `sep.join(xs)`. */
  function Join(xs: seq<string>, sep: char): string
  {
    if |xs| == 0 then ""
    else if |xs| == 1 then xs[0]
    else xs[0] + [sep] + Join(xs[1..], sep)
  }

  /** No piece of a split holds the separator. */
  lemma {:induction false} SplitPiecesHaveNoSeparator(s: string, sep: char)
    ensures forall i :: 0 <= i < |Split(s, sep)| ==> sep !in Split(s, sep)[i]
  {
    if |s| > 0 {
      SplitPiecesHaveNoSeparator(s[1..], sep);
    }
  }

  /** A split has exactly one piece more than there are separators. */
  lemma {:induction false} SplitCount(s: string, sep: char)
    ensures |Split(s, sep)| == Occurrences(s, sep) + 1
  {
    if |s| > 0 {
      SplitCount(s[1..], sep);
    }
  }

  lemma JoinConsHead(c: char, x: string, t: seq<string>, sep: char)
    ensures Join([[c] + x] + t, sep) == [c] + Join([x] + t, sep)
  {
    if |t| > 0 {
      assert ([[c] + x] + t)[1..] == t;
      assert ([x] + t)[1..] == t;
    }
  }

  /** Joining the pieces gives back the string: the pieces are the text
      between the separators, in order. */
  lemma {:induction false} JoinSplit(s: string, sep: char)
    ensures Join(Split(s, sep), sep) == s
  {
    if |s| > 0 {
      var rest := Split(s[1..], sep);
      JoinSplit(s[1..], sep);
      if s[0] == sep {
        assert ([""] + rest)[1..] == rest;
      } else {
        assert rest == [rest[0]] + rest[1..];
        JoinConsHead(s[0], rest[0], rest[1..], sep);
      }
      assert s == [s[0]] + s[1..];
    }
  }

  /** Splitting at a separator-free prefix extends the first piece. */
  lemma {:induction false} SplitAfterPlainPrefix(a: string, b: string, sep: char)
    requires sep !in a
    ensures Split(a + b, sep) == [a + Split(b, sep)[0]] + Split(b, sep)[1..]
  {
    if |a| > 0 {
      SplitAfterPlainPrefix(a[1..], b, sep);
      var sb := Split(b, sep);
      assert (a + b)[0] == a[0] && a[0] != sep;
      assert (a + b)[1..] == a[1..] + b;
      assert Split(a + b, sep) == [[a[0]] + (a[1..] + sb[0])] + sb[1..];
      assert [a[0]] + (a[1..] + sb[0]) == a + sb[0];
    } else {
      var sb := Split(b, sep);
      assert a + b == b && a + sb[0] == sb[0];
      assert sb == [sb[0]] + sb[1..];
    }
  }

  /** Splitting a join of separator-free pieces gives the pieces back. */
  lemma {:induction false} SplitJoin(xs: seq<string>, sep: char)
    requires |xs| >= 1
    requires forall i :: 0 <= i < |xs| ==> sep !in xs[i]
    ensures Split(Join(xs, sep), sep) == xs
  {
    if |xs| == 1 {
      SplitAfterPlainPrefix(xs[0], "", sep);
      assert xs[0] + "" == xs[0];
    } else {
      SplitJoin(xs[1..], sep);
      var tail := Join(xs[1..], sep);
      assert Join(xs, sep) == xs[0] + ([sep] + tail);
      assert ([sep] + tail)[1..] == tail;
      assert Split([sep] + tail, sep) == [""] + xs[1..];
      SplitAfterPlainPrefix(xs[0], [sep] + tail, sep);
      assert xs[0] + "" == xs[0];
      assert xs == [xs[0]] + xs[1..];
    }
  }

  /** A join of at least one piece is empty only if it is the join of [""]. */
  lemma JoinEmpty(xs: seq<string>, sep: char)
    requires |xs| >= 1
    ensures (Join(xs, sep) == "") <==> xs == [""]
  {
  }

  // ---------------------------------------------------------------------
  // strip
  // ---------------------------------------------------------------------

  /** Python's `str.isspace()` for one character: the ASCII blanks and
      controls \t \n \v \f \r, the separators \x1c-\x1f, and the Unicode
      space characters that `str.strip()` removes. */
  predicate IsSpace(c: char)
  {
    || c == ' '
    || ('\t' <= c <= '\r')
    || ('\U{1C}' <= c <= '\U{1F}')
    || c == '\U{85}' || c == '\U{A0}' || c == '\U{1680}'
    || ('\U{2000}' <= c <= '\U{200A}')
    || c == '\U{2028}' || c == '\U{2029}' || c == '\U{202F}'
    || c == '\U{205F}' || c == '\U{3000}'
  }

  /** Where the text starts once leading white space is skipped. */
  function LeftEnd(s: string): (i: nat)
    ensures i <= |s|
    ensures i == |s| || !IsSpace(s[i])
    ensures forall k :: 0 <= k < i ==> IsSpace(s[k])
  {
    if |s| > 0 && IsSpace(s[0]) then 1 + LeftEnd(s[1..]) else 0
  }

  /** Where the text ends once trailing white space is cut. */
  function RightEnd(s: string): (j: nat)
    ensures j <= |s|
    ensures j == 0 || !IsSpace(s[j - 1])
    ensures forall k :: j <= k < |s| ==> IsSpace(s[k])
  {
    if |s| > 0 && IsSpace(s[|s| - 1]) then RightEnd(s[..|s| - 1]) else |s|
  }

  /** Python's `s.strip()`: leading and trailing white space removed. */
  function Strip(s: string): string
  {
    var t := s[LeftEnd(s)..];
    t[..RightEnd(t)]
  }

  /** Neither end of `s` is white space, so `s.strip() == s`. */
  predicate IsStripped(s: string)
  {
    |s| == 0 || (!IsSpace(s[0]) && !IsSpace(s[|s| - 1]))
  }

  /** What `strip` returns is a contiguous slice of its argument whose ends
      are not white space, with only white space cut at either side. */
  lemma StripShape(s: string)
    ensures IsStripped(Strip(s))
    ensures exists i, j :: 0 <= i <= j <= |s| && Strip(s) == s[i..j]
  {
    var i := LeftEnd(s);
    var t := s[i..];
    var j := RightEnd(t);
    assert Strip(s) == s[i..i + j];
    if j > 0 {
      assert Strip(s)[0] == t[0];
    }
  }

  /** `strip` leaves an already stripped string alone, and is idempotent. */
  lemma StripFixes(s: string)
    ensures IsStripped(s) ==> Strip(s) == s
    ensures Strip(Strip(s)) == Strip(s)
  {
    StripShape(s);
    var t := Strip(s);
    assert LeftEnd(t) == 0;
    assert t[0..] == t;
    assert RightEnd(t) == |t|;
  }

  /** A string of white space strips to "". */
  lemma StripAllSpace(s: string)
    requires forall k :: 0 <= k < |s| ==> IsSpace(s[k])
    ensures Strip(s) == ""
  {
  }

  /** A character absent from `s` is absent from `s.strip()`. */
  lemma StripKeepsAbsent(s: string, c: char)
    requires c !in s
    ensures c !in Strip(s)
  {
    StripShape(s);
    var i, j :| 0 <= i <= j <= |s| && Strip(s) == s[i..j];
    assert forall k :: i <= k < j ==> s[i..j][k - i] == s[k];
  }

  // ---------------------------------------------------------------------
  // lower
  // ---------------------------------------------------------------------

  /** `c.lower()` for the ASCII letters; other characters are unchanged. */
  function LowerChar(c: char): (l: char)
    ensures !('A' <= l <= 'Z')
    ensures c != l ==> 'A' <= c <= 'Z' && (l as int) == (c as int) + 32
  {
    if 'A' <= c <= 'Z' then ((c as int) + 32) as char else c
  }

  /** `s.lower()`, character by character. */
  function Lower(s: string): (r: string)
    ensures |r| == |s|
    ensures forall i :: 0 <= i < |s| ==> r[i] == LowerChar(s[i])
  {
    seq(|s|, i requires 0 <= i < |s| => LowerChar(s[i]))
  }

  lemma LowerIdempotent(s: string)
    ensures Lower(Lower(s)) == Lower(s)
  {
  }

  lemma LowerAppend(a: string, b: string)
    ensures Lower(a + b) == Lower(a) + Lower(b)
  {
  }

  // ---------------------------------------------------------------------
  // string order
  // ---------------------------------------------------------------------

  /** Python's `a < b` on strings: the first differing character decides,
      by code point, and a proper prefix comes first. */
  predicate StrLess(a: string, b: string)
  {
    |b| > 0 && (|a| == 0 || a[0] < b[0] || (a[0] == b[0] && StrLess(a[1..], b[1..])))
  }

  /** No string is below itself. */
  lemma {:induction false} StrLessIrreflexive(a: string)
    ensures !StrLess(a, a)
  {
    if |a| > 0 {
      StrLessIrreflexive(a[1..]);
    }
  }

  lemma {:induction false} StrLessTransitive(a: string, b: string, c: string)
    requires StrLess(a, b) && StrLess(b, c)
    ensures StrLess(a, c)
  {
    if |a| > 0 && a[0] == b[0] && b[0] == c[0] {
      StrLessTransitive(a[1..], b[1..], c[1..]);
    }
  }

  /** Of two different strings, one is below the other. */
  lemma {:induction false} StrLessTotal(a: string, b: string)
    requires a != b
    ensures StrLess(a, b) || StrLess(b, a)
  {
    if |a| > 0 && |b| > 0 && a[0] == b[0] {
      assert a == [a[0]] + a[1..] && b == [b[0]] + b[1..];
      StrLessTotal(a[1..], b[1..]);
    }
  }
}
