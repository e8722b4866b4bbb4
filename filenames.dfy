/**
  Archive file names. packageBatch names each archive
  `gemini-chats-idx<startIndex>-<chatCount>-<timestamp>.zip`, and re-downloading a batch reads the
  start index back from the name with the pattern `idx(\d+)-`, falling back to 0 when nothing
  matches (`parseInt(undefined) || 0`).

  The pattern search is written out as JavaScript performs it: the leftmost position where
  `idx` is followed by a run of digits and a `-`; the digit run is greedy, and since a `-` is not
  a digit, backtracking to a shorter run can never succeed, so only the maximal run is tried.
 */
module Filenames {
  import opened Wrappers
  import opened Text

  const ArchivePrefix := "gemini-chats-idx"

  /** `iso.slice(0, 19).replace(/[:-]/g, '')`: the ISO time to the second, without `:` and `-`. */
  function Timestamp(iso: string): (r: string)
    ensures |r| <= 19
    ensures forall i :: 0 <= i < |r| ==> r[i] != ':' && r[i] != '-'
    ensures forall c :: c in r ==> c in iso
  {
    Strip(Take(iso, 19))
  }

  /** The characters of `s` other than `:` and `-`, in order. */
  function Strip(s: string): (r: string)
    ensures |r| <= |s|
    ensures forall i :: 0 <= i < |r| ==> r[i] != ':' && r[i] != '-'
    ensures forall c :: c in r ==> c in s
  {
    if s == [] then []
    else
      var front := Strip(s[..|s| - 1]);
      var c := s[|s| - 1];
      if c == ':' || c == '-' then front else front + [c]
  }

  /** The archive name packageBatch builds. */
  function BatchFilename(startIndex: int, chatCount: nat, timestamp: string): string {
    ArchivePrefix + IntToString(startIndex) + "-" + NatToString(chatCount) + "-" + timestamp + ".zip"
  }

  /** The length of the run of digits that starts at `i`. */
  function DigitRun(s: string, i: nat): (n: nat)
    requires i <= |s|
    ensures i + n <= |s| && AllDigits(s[i..i + n])
    ensures i + n == |s| || !IsDigit(s[i + n])
    decreases |s| - i
  {
    if i == |s| || !IsDigit(s[i]) then 0
    else
      var n := DigitRun(s, i + 1);
      assert s[i..i + n + 1] == [s[i]] + s[i + 1..i + 1 + n];
      n + 1
  }

  /** The letters `idx` at position p. */
  predicate IdxAt(s: string, p: nat) {
    p + 3 <= |s| && s[p] == 'i' && s[p + 1] == 'd' && s[p + 2] == 'x'
  }

  /** `idx(\d+)-` tried at position p: the captured digits when it matches there. */
  function MatchAt(s: string, p: nat): (m: Option<string>)
    requires p <= |s|
    ensures m.Some? ==> m.value != [] && AllDigits(m.value)
    ensures m.Some? ==> p + 3 + |m.value| < |s| && IdxAt(s, p) && m.value == s[p + 3..p + 3 + |m.value|]
    ensures m.Some? ==> s[p + 3 + |m.value|] == '-'
  {
    if IdxAt(s, p) then
      var n := DigitRun(s, p + 3);
      if n > 0 && p + 3 + n < |s| && s[p + 3 + n] == '-' then Some(s[p + 3..p + 3 + n]) else None
    else None
  }

  /** The leftmost match at or after position p. */
  function Search(s: string, p: nat): (m: Option<string>)
    requires p <= |s|
    ensures m.Some? ==> m.value != [] && AllDigits(m.value)
    decreases |s| - p
  {
    if MatchAt(s, p).Some? then MatchAt(s, p)
    else if p == |s| then None
    else Search(s, p + 1)
  }

  /** `parseInt(name.match(/idx(\d+)-/)?.[1]) || 0`. */
  function ParseIdx(filename: string): nat {
    match Search(filename, 0)
    case Some(digits) => DigitsValue(digits)
    case None => 0
  }

  /** Positions without a match are passed over. */
  lemma {:induction false} SearchSkips(s: string, p: nat, k: nat)
    requires p <= k <= |s|
    requires forall q :: p <= q < k ==> MatchAt(s, q).None?
    ensures Search(s, p) == Search(s, k)
    decreases k - p
  {
    if p < k {
      SearchSkips(s, p + 1, k);
    }
  }

  /** Within `gemini-chats-idx`, the only `d` follows the only `i` that precedes it directly. */
  lemma PrefixNoMatch(s: string)
    requires |ArchivePrefix| < |s| && s[..|ArchivePrefix|] == ArchivePrefix
    ensures forall q :: 0 <= q < |ArchivePrefix| - 3 ==> MatchAt(s, q).None?
  {
    forall q | 0 <= q < |ArchivePrefix| - 3
      ensures !IdxAt(s, q)
    {
      assert s[q + 1] == ArchivePrefix[q + 1];
    }
  }

  /** A run of digits followed by `-` right after `idx` is what the pattern captures there. */
  lemma MatchAtDigits(s: string, p: nat, d: string)
    requires IdxAt(s, p) && d != [] && AllDigits(d)
    requires p + 3 + |d| < |s| && s[p + 3..p + 3 + |d|] == d && s[p + 3 + |d|] == '-'
    ensures MatchAt(s, p) == Some(d)
  {
    var n := DigitRun(s, p + 3);
    assert forall j :: 0 <= j < |d| ==> s[p + 3 + j] == d[j];
    assert n == |d|;
  }

  /** Where the start index sits in an archive name. */
  lemma FilenameLayout(startIndex: int, chatCount: nat, timestamp: string)
    ensures var s := BatchFilename(startIndex, chatCount, timestamp);
      var d := IntToString(startIndex);
      var k := |ArchivePrefix| + |d|;
      && k < |s| && s[..|ArchivePrefix|] == ArchivePrefix && s[|ArchivePrefix|..k] == d && s[k] == '-'
      && s[k + 1..] == NatToString(chatCount) + "-" + timestamp + ".zip"
  {
    var d := IntToString(startIndex);
    var rest := NatToString(chatCount) + "-" + timestamp + ".zip";
    assert BatchFilename(startIndex, chatCount, timestamp) == ArchivePrefix + d + ("-" + rest);
  }

  /** Reading the start index back from an archive name gives the start index. */
  lemma ParseIdxRoundTrip(startIndex: nat, chatCount: nat, timestamp: string)
    ensures ParseIdx(BatchFilename(startIndex, chatCount, timestamp)) == startIndex
  {
    var s := BatchFilename(startIndex, chatCount, timestamp);
    var d := NatToString(startIndex);
    var p := |ArchivePrefix| - 3;
    FilenameLayout(startIndex, chatCount, timestamp);
    PrefixNoMatch(s);
    SearchSkips(s, 0, p);
    assert s[p] == ArchivePrefix[p] && s[p + 1] == ArchivePrefix[p + 1] && s[p + 2] == ArchivePrefix[p + 2];
    MatchAtDigits(s, p, d);
    DigitsValueOfNatToString(startIndex);
  }

  /** The pattern cannot start where there is no `i`. */
  lemma NoMatchWithoutI(s: string, lo: nat, hi: nat)
    requires lo <= hi <= |s|
    requires forall q :: lo <= q < hi ==> s[q] != 'i'
    ensures forall q :: lo <= q < hi ==> MatchAt(s, q).None?
  {
  }

  /** After the prefix, a middle part without `i` and the extension `.zip` hold no match. */
  lemma NoMatchAfterPrefix(s: string, middle: string)
    requires s == ArchivePrefix + middle + ".zip" && 'i' !in middle
    ensures forall q :: |ArchivePrefix| <= q <= |s| ==> MatchAt(s, q).None?
  {
    var end := |ArchivePrefix| + |middle|;
    forall q | |ArchivePrefix| <= q < end
      ensures s[q] != 'i'
    {
      assert s[q] == middle[q - |ArchivePrefix|];
    }
    NoMatchWithoutI(s, |ArchivePrefix|, end);
    assert s[end] == '.' && s[end + 1] == 'z';
  }

  /**
    A negative start index is spelt with a minus sign, which the pattern does not accept, so it
    reads back as 0 (the timestamp, built from an ISO time, has no `i`).
   */
  lemma ParseIdxNegative(startIndex: int, chatCount: nat, timestamp: string)
    requires startIndex < 0
    requires 'i' !in timestamp
    ensures ParseIdx(BatchFilename(startIndex, chatCount, timestamp)) == 0
  {
    NegativeMiddle(startIndex, chatCount, timestamp);
    ParseIdxSigned(BatchFilename(startIndex, chatCount, timestamp),
                   IntToString(startIndex) + "-" + NatToString(chatCount) + "-" + timestamp);
  }

  /** A name whose part after the prefix starts with a minus sign and holds no `i` reads back as 0. */
  lemma ParseIdxSigned(s: string, middle: string)
    requires s == ArchivePrefix + middle + ".zip"
    requires 'i' !in middle && middle != [] && middle[0] == '-'
    ensures ParseIdx(s) == 0
  {
    var p := |ArchivePrefix| - 3;
    assert s[..|ArchivePrefix|] == ArchivePrefix;
    PrefixNoMatch(s);
    assert !IdxAt(s, p + 1) && !IdxAt(s, p + 2) by {
      assert s[p + 1] == ArchivePrefix[p + 1] && s[p + 2] == ArchivePrefix[p + 2];
    }
    assert s[|ArchivePrefix|] == middle[0];
    NoMatchAfterPrefix(s, middle);
    SearchSkips(s, 0, |s|);
  }

  /** The part of an archive name between the prefix and `.zip`, for a negative start index. */
  lemma NegativeMiddle(startIndex: int, chatCount: nat, timestamp: string)
    requires startIndex < 0
    requires 'i' !in timestamp
    ensures var middle := IntToString(startIndex) + "-" + NatToString(chatCount) + "-" + timestamp;
      && BatchFilename(startIndex, chatCount, timestamp) == ArchivePrefix + middle + ".zip"
      && 'i' !in middle && middle != [] && middle[0] == '-'
  {
    var d, n1, n2 := IntToString(startIndex), NatToString(-startIndex), NatToString(chatCount);
    assert d == "-" + n1;
    NoLetterInDigits(n1);
    NoLetterInDigits(n2);
    MiddleParts(ArchivePrefix, d, n2, timestamp);
  }

  /** The middle of a name `prefix + d + "-" + n + "-" + t + ".zip"`, and where its `i`s can be. */
  lemma MiddleParts(prefix: string, d: string, n: string, t: string)
    requires d != [] && 'i' !in d[1..] && d[0] != 'i' && 'i' !in n && 'i' !in t
    ensures prefix + d + "-" + n + "-" + t + ".zip" == prefix + (d + "-" + n + "-" + t) + ".zip"
    ensures 'i' !in d + "-" + n + "-" + t && (d + "-" + n + "-" + t)[0] == d[0]
  {
    assert d == [d[0]] + d[1..];
  }

  /** A decimal spelling holds no `i`. */
  lemma NoLetterInDigits(s: string)
    requires AllDigits(s)
    ensures 'i' !in s
  {
    forall k | 0 <= k < |s|
      ensures s[k] != 'i'
    {
      assert IsDigit(s[k]);
    }
  }
}
