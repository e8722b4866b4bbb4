/**
  String helpers the source uses through JavaScript built-ins: decimal formatting of numbers
  (template literals), `substring(0, n)`, `includes`, and `split(' ')` / `join(' ')` as used to
  cut a deep selector path into segments.
 */
module Text {

  // ---------------------------------------------------------------------------
  // Decimal numbers
  // ---------------------------------------------------------------------------

  predicate IsDigit(c: char) {
    '0' <= c <= '9'
  }

  predicate AllDigits(s: string) {
    forall i :: 0 <= i < |s| ==> IsDigit(s[i])
  }

  function DigitChar(d: nat): (c: char)
    requires d < 10
    ensures IsDigit(c)
  {
    (d + 48) as char
  }

  function DigitValue(c: char): (d: nat)
    requires IsDigit(c)
    ensures d < 10
  {
    (c as int) - 48
  }

  /** `${n}` for a non-negative integer: its shortest decimal spelling. */
  function NatToString(n: nat): (s: string)
    ensures |s| > 0 && AllDigits(s)
  {
    if n < 10 then [DigitChar(n)]
    else
      var front := NatToString(n / 10);
      assert forall i :: 0 <= i < |front| ==> IsDigit((front + [DigitChar(n % 10)])[i]);
      front + [DigitChar(n % 10)]
  }

  /** `${i}` for any integer: a minus sign before the magnitude when negative. */
  function IntToString(i: int): (s: string)
    ensures |s| > 0
    ensures i >= 0 <==> AllDigits(s)
  {
    if i < 0 then
      var r := "-" + NatToString(-i);
      assert !IsDigit(r[0]);
      r
    else NatToString(i)
  }

  /** The value of a run of decimal digits (what `parseInt` returns for it). */
  function DigitsValue(s: string): nat
    requires AllDigits(s)
  {
    if s == [] then 0 else DigitsValue(s[..|s| - 1]) * 10 + DigitValue(s[|s| - 1])
  }

  /** Reading back the decimal spelling of a number gives the number. */
  lemma {:induction false} DigitsValueOfNatToString(n: nat)
    ensures DigitsValue(NatToString(n)) == n
  {
    if n >= 10 {
      var s := NatToString(n);
      assert s[..|s| - 1] == NatToString(n / 10);
      DigitsValueOfNatToString(n / 10);
    }
  }

  // ---------------------------------------------------------------------------
  // substring(0, n) and includes
  // ---------------------------------------------------------------------------

  /** `s.substring(0, n)` for n >= 0: the first n characters, or all of s when shorter. */
  function Take(s: string, n: nat): (r: string)
    ensures |r| == if |s| < n then |s| else n
    ensures r <= s
  {
    if |s| <= n then s else s[..n]
  }

  /** `s.includes(t)`. */
  predicate Contains(s: string, t: string) {
    exists i :: 0 <= i <= |s| && t <= s[i..]
  }

  // ---------------------------------------------------------------------------
  // split(' ') and join(' ')
  // ---------------------------------------------------------------------------

  /** `s.split(' ')`: the pieces between single spaces, empty pieces included. */
  function Split(s: string): (parts: seq<string>)
    ensures |parts| >= 1
    ensures forall k :: 0 <= k < |parts| ==> ' ' !in parts[k]
  {
    if s == [] then [""]
    else
      var rest := Split(s[1..]);
      if s[0] == ' ' then [""] + rest
      else [[s[0]] + rest[0]] + rest[1..]
  }

  /** `parts.join(' ')`. */
  function Join(parts: seq<string>): string {
    if parts == [] then ""
    else if |parts| == 1 then parts[0]
    else parts[0] + " " + Join(parts[1..])
  }

  /** The non-empty pieces, in order (`filter(s => s)`). */
  function NonEmpty(parts: seq<string>): (r: seq<string>)
    ensures forall k :: 0 <= k < |r| ==> r[k] != "" && r[k] in parts
    ensures |r| <= |parts|
  {
    if parts == [] then []
    else if parts[0] == "" then NonEmpty(parts[1..])
    else [parts[0]] + NonEmpty(parts[1..])
  }

  /** `s.split(' ').filter(s => s)`: the segments of a deep selector path. */
  function Segments(s: string): (r: seq<string>)
    ensures forall k :: 0 <= k < |r| ==> r[k] != "" && ' ' !in r[k]
  {
    NonEmpty(Split(s))
  }

  /** A well-formed path segment: non-empty and without spaces. */
  predicate IsWord(w: string) {
    w != "" && ' ' !in w
  }

  /** Splitting and re-joining on single spaces gives back the original string. */
  lemma {:induction false} JoinSplit(s: string)
    ensures Join(Split(s)) == s
  {
    if s != [] {
      var rest := Split(s[1..]);
      JoinSplit(s[1..]);
      if s[0] == ' ' {
        assert Split(s) == [""] + rest;
      } else if |rest| == 1 {
        assert Split(s) == [[s[0]] + rest[0]];
      } else {
        assert Split(s) == [[s[0]] + rest[0]] + rest[1..];
        assert Join(rest) == rest[0] + " " + Join(rest[1..]);
      }
    }
  }

  lemma {:induction false} SplitWordPrefix(a: string, tail: string)
    requires ' ' !in a
    ensures Split(a + tail) == [a + Split(tail)[0]] + Split(tail)[1..]
  {
    if a != [] {
      assert (a + tail)[1..] == a[1..] + tail;
      SplitWordPrefix(a[1..], tail);
      var rest := Split(a[1..] + tail);
      assert rest[0] == a[1..] + Split(tail)[0];
      assert rest[1..] == Split(tail)[1..];
      assert (a + tail)[0] == a[0] && a[0] != ' ';
      assert Split(a + tail) == [[a[0]] + rest[0]] + rest[1..];
      assert [a[0]] + (a[1..] + Split(tail)[0]) == a + Split(tail)[0];
    } else {
      assert a + tail == tail;
      assert a + Split(tail)[0] == Split(tail)[0];
      assert [Split(tail)[0]] + Split(tail)[1..] == Split(tail);
    }
  }

  /** Joining space-free pieces and splitting again gives back the pieces. */
  lemma {:induction false} SplitJoin(parts: seq<string>)
    requires |parts| >= 1
    requires forall k :: 0 <= k < |parts| ==> ' ' !in parts[k]
    ensures Split(Join(parts)) == parts
  {
    if |parts| == 1 {
      SplitWordPrefix(parts[0], "");
      assert parts[0] + "" == parts[0];
    } else {
      var j := Join(parts[1..]);
      SplitJoin(parts[1..]);
      assert Join(parts) == parts[0] + (" " + j);
      SplitWordPrefix(parts[0], " " + j);
      assert (" " + j)[1..] == j;
      assert Split(" " + j) == [""] + parts[1..];
      assert parts[0] + "" == parts[0];
    }
  }

  lemma {:induction false} NonEmptyOfWords(parts: seq<string>)
    requires forall k :: 0 <= k < |parts| ==> parts[k] != ""
    ensures NonEmpty(parts) == parts
  {
    if parts != [] {
      NonEmptyOfWords(parts[1..]);
    }
  }

  /** A path built by joining words with single spaces segments back into those words. */
  lemma SegmentsOfJoin(words: seq<string>)
    requires |words| >= 1
    requires forall k :: 0 <= k < |words| ==> IsWord(words[k])
    ensures Segments(Join(words)) == words
  {
    SplitJoin(words);
    NonEmptyOfWords(words);
  }

  lemma {:induction false} NonEmptyEmpty(parts: seq<string>)
    ensures NonEmpty(parts) == [] <==> forall k :: 0 <= k < |parts| ==> parts[k] == ""
  {
    if parts != [] {
      NonEmptyEmpty(parts[1..]);
      if parts[0] == "" {
        assert forall k :: 1 <= k < |parts| ==> parts[k] == parts[1..][k - 1];
      }
    }
  }

  lemma {:induction false} SplitAllEmpty(s: string)
    ensures (forall k :: 0 <= k < |Split(s)| ==> Split(s)[k] == "") <==> (forall i :: 0 <= i < |s| ==> s[i] == ' ')
  {
    if s != [] {
      SplitAllEmpty(s[1..]);
      var rest := Split(s[1..]);
      if s[0] == ' ' {
        assert Split(s) == [""] + rest;
        assert (forall k :: 0 <= k < |Split(s)| ==> Split(s)[k] == "") <==> (forall k :: 0 <= k < |rest| ==> rest[k] == "") by {
          forall k | 0 <= k < |rest| ensures Split(s)[k + 1] == rest[k] { }
        }
        assert (forall i :: 0 <= i < |s| ==> s[i] == ' ') <==> (forall i :: 0 <= i < |s[1..]| ==> s[1..][i] == ' ') by {
          forall i | 0 <= i < |s[1..]| ensures s[i + 1] == s[1..][i] { }
        }
      } else {
        assert Split(s)[0] == [s[0]] + rest[0];
      }
    }
  }

  /** A path yields no segments exactly when it is empty or made only of spaces. */
  lemma NoSegmentsIffBlank(s: string)
    ensures Segments(s) == [] <==> forall i :: 0 <= i < |s| ==> s[i] == ' '
  {
    var parts := Split(s);
    assert Segments(s) == NonEmpty(parts);
    NonEmptyEmpty(parts);
    SplitAllEmpty(s);
  }

  /** Joining two or more words gives a non-empty path. */
  lemma JoinNonEmpty(words: seq<string>)
    requires |words| >= 1 && IsWord(words[0])
    ensures Join(words) != ""
  {
    if |words| > 1 {
      assert Join(words)[0] == words[0][0];
    }
  }
}
