/** The few JavaScript built-ins the transcription code leans on: nullish
    values and the `??` operator, `String.prototype.trim`, and
    `split(/\s+/)`. Both `trim` and the regular-expression class `\s` use
    the same character set: the ECMAScript WhiteSpace and LineTerminator
    code points. */
module Js {

  /** A value that may be `null` or `undefined` (`None`). */
  datatype Option<T> = None | Some(value: T)

  /** `v ?? d`: the value unless it is nullish. An empty string is not
      nullish, so it is kept. */
  function Coalesce<T>(v: Option<T>, d: T): (r: T)
    ensures v.Some? ==> r == v.value
    ensures v.None? ==> r == d
  {
    match v
    case Some(x) => x
    case None => d
  }

  /** ECMAScript WhiteSpace (TAB, VT, FF, SPACE, NBSP, ZWNBSP and the
      space separators of category Zs) and LineTerminator (LF, CR, LS, PS). */
  predicate IsWhiteSpace(c: char) {
    c == '\t' || c == '\n' || c == '\U{000B}' || c == '\U{000C}' || c == '\r'
    || c == ' ' || c == '\U{00A0}' || c == '\U{1680}'
    || ('\U{2000}' <= c <= '\U{200A}')
    || c == '\U{2028}' || c == '\U{2029}' || c == '\U{202F}' || c == '\U{205F}'
    || c == '\U{3000}' || c == '\U{FEFF}'
  }

  predicate AllWhiteSpace(s: string) {
    forall k :: 0 <= k < |s| ==> IsWhiteSpace(s[k])
  }

  predicate NoWhiteSpace(s: string) {
    forall k :: 0 <= k < |s| ==> !IsWhiteSpace(s[k])
  }

  /** Neither starts nor ends with white space. */
  predicate IsTrimmed(s: string) {
    s == [] || (!IsWhiteSpace(s[0]) && !IsWhiteSpace(s[|s| - 1]))
  }

  /** `s.trim()`: drop white space from both ends. */
  function Trim(s: string): (r: string)
    ensures IsTrimmed(r) && |r| <= |s|
    decreases |s|
  {
    if s == [] then s
    else if IsWhiteSpace(s[0]) then Trim(s[1..])
    else if IsWhiteSpace(s[|s| - 1]) then Trim(s[..|s| - 1])
    else s
  }

  /** `r` sits at offset `i` of `s` with only white space around it. */
  predicate SurroundedByWhiteSpace(s: string, i: nat, r: string) {
    i + |r| <= |s| && r == s[i..i + |r|]
    && AllWhiteSpace(s[..i]) && AllWhiteSpace(s[i + |r|..])
  }

  lemma SurroundedAfterWhiteSpace(s: string, j: nat, r: string)
    requires s != [] && IsWhiteSpace(s[0]) && SurroundedByWhiteSpace(s[1..], j, r)
    ensures SurroundedByWhiteSpace(s, j + 1, r)
  {
    var rest := s[1..];
    assert rest[j..j + |r|] == s[j + 1..j + 1 + |r|];
    assert s[..j + 1] == [s[0]] + rest[..j];
    assert s[j + 1 + |r|..] == rest[j + |r|..];
  }

  lemma SurroundedBeforeWhiteSpace(s: string, i: nat, r: string)
    requires s != [] && IsWhiteSpace(s[|s| - 1]) && SurroundedByWhiteSpace(s[..|s| - 1], i, r)
    ensures SurroundedByWhiteSpace(s, i, r)
  {
    var init := s[..|s| - 1];
    assert init[i..i + |r|] == s[i..i + |r|];
    assert s[..i] == init[..i];
    assert s[i + |r|..] == init[i + |r|..] + [s[|s| - 1]];
  }

  /** `trim()` removes white space only: the result is the contiguous part
      of the input that starts at the returned offset, with nothing but
      white space before and after it. */
  lemma {:induction false} TrimRemovesOnlyOuterWhiteSpace(s: string) returns (i: nat)
    ensures SurroundedByWhiteSpace(s, i, Trim(s))
    decreases |s|
  {
    if s == [] {
      i := 0;
    } else if IsWhiteSpace(s[0]) {
      var j := TrimRemovesOnlyOuterWhiteSpace(s[1..]);
      SurroundedAfterWhiteSpace(s, j, Trim(s));
      i := j + 1;
    } else if IsWhiteSpace(s[|s| - 1]) {
      i := TrimRemovesOnlyOuterWhiteSpace(s[..|s| - 1]);
      SurroundedBeforeWhiteSpace(s, i, Trim(s));
    } else {
      i := 0;
      assert s[0..|s|] == s;
    }
  }

  /** Trimming what is already trimmed changes nothing. */
  lemma TrimFixesTrimmed(s: string)
    requires IsTrimmed(s)
    ensures Trim(s) == s
  {
  }

  /** Trimming twice is trimming once. */
  lemma TrimIdempotent(s: string)
    ensures Trim(Trim(s)) == Trim(s)
  {
    TrimFixesTrimmed(Trim(s));
  }

  /** A trimmed string is empty exactly when the input was all white space. */
  lemma {:induction false} TrimEmptyIffAllWhiteSpace(s: string)
    ensures Trim(s) == [] <==> AllWhiteSpace(s)
    decreases |s|
  {
    if s != [] {
      if IsWhiteSpace(s[0]) {
        var rest := s[1..];
        TrimEmptyIffAllWhiteSpace(rest);
        assert forall k :: 0 <= k < |rest| ==> rest[k] == s[k + 1];
      } else if IsWhiteSpace(s[|s| - 1]) {
        var init := s[..|s| - 1];
        TrimEmptyIffAllWhiteSpace(init);
        assert forall k :: 0 <= k < |init| ==> init[k] == s[k];
      }
    }
  }

  /* ---------------- split(/\s+/) ---------------- */

  /** Index of the first white-space character, or |s| if there is none. */
  function FirstWhiteSpace(s: string): (k: nat)
    ensures k <= |s| && NoWhiteSpace(s[..k])
    ensures k < |s| ==> IsWhiteSpace(s[k])
  {
    if s == [] || IsWhiteSpace(s[0]) then 0
    else
      var k := 1 + FirstWhiteSpace(s[1..]);
      assert s[..k] == [s[0]] + s[1..][..k - 1];
      k
  }

  /** End of the white-space run that starts at `from`. */
  function WhiteSpaceRunEnd(s: string, from: nat): (j: nat)
    requires from <= |s|
    ensures from <= j <= |s| && AllWhiteSpace(s[from..j])
    ensures j < |s| ==> !IsWhiteSpace(s[j])
    ensures from < |s| && IsWhiteSpace(s[from]) ==> from < j
    decreases |s| - from
  {
    if from < |s| && IsWhiteSpace(s[from]) then WhiteSpaceRunEnd(s, from + 1) else from
  }

  /** `s.split(/\s+/)`: the pieces between maximal white-space runs. A
      leading or trailing run yields an empty first or last piece, and
      the empty string splits into one empty piece. */
  function SplitWhiteSpace(s: string): (r: seq<string>)
    ensures |r| >= 1
    ensures forall p :: p in r ==> NoWhiteSpace(p)
    decreases |s|
  {
    var k := FirstWhiteSpace(s);
    if k == |s| then [s]
    else [s[..k]] + SplitWhiteSpace(s[WhiteSpaceRunEnd(s, k)..])
  }

  /** `pieces.filter(Boolean).length`: how many pieces are non-empty. Its
      own contract is only the bound; what the count means on the pieces
      of a split is stated by `SplitCountsRuns`. */
  function CountNonEmpty(pieces: seq<string>): (n: nat)
    ensures n <= |pieces|
  {
    if pieces == [] then 0
    else (if pieces[0] != [] then 1 else 0) + CountNonEmpty(pieces[1..])
  }

  /* ---------------- reference: maximal non-white-space runs ---------------- */

  /** Position i begins a maximal run of non-white-space characters. */
  predicate IsRunStart(s: string, i: nat)
    requires i < |s|
  {
    !IsWhiteSpace(s[i]) && (i == 0 || IsWhiteSpace(s[i - 1]))
  }

  /** Number of run starts at positions i..|s|-1. */
  function RunStartsFrom(s: string, i: nat): nat
    requires i <= |s|
    decreases |s| - i
  {
    if i == |s| then 0 else (if IsRunStart(s, i) then 1 else 0) + RunStartsFrom(s, i + 1)
  }

  /** The number of maximal non-white-space runs in s. */
  function RunCount(s: string): nat {
    RunStartsFrom(s, 0)
  }

  lemma {:induction false} NoRunStartBetween(s: string, a: nat, b: nat)
    requires a <= b <= |s|
    requires forall i :: a <= i < b ==> !IsRunStart(s, i)
    ensures RunStartsFrom(s, a) == RunStartsFrom(s, b)
    decreases b - a
  {
    if a < b {
      NoRunStartBetween(s, a + 1, b);
    }
  }

  /** Counting in a suffix that starts after white space (or at 0) is
      counting in the whole string from the same place. */
  lemma {:induction false} RunStartsShift(s: string, j: nat, i: nat)
    requires j <= i <= |s|
    requires j == 0 || IsWhiteSpace(s[j - 1])
    ensures RunStartsFrom(s, i) == RunStartsFrom(s[j..], i - j)
    decreases |s| - i
  {
    if i < |s| {
      RunStartsShift(s, j, i + 1);
      assert s[j..][i - j] == s[i];
      if i > j { assert s[j..][i - j - 1] == s[i - 1]; }
    }
  }

  /** `split(/\s+/).filter(Boolean).length` counts the maximal runs of
      non-white-space characters. */
  lemma {:induction false} SplitCountsRuns(s: string)
    ensures CountNonEmpty(SplitWhiteSpace(s)) == RunCount(s)
    decreases |s|
  {
    var k := FirstWhiteSpace(s);
    forall i | 0 < i < k ensures !IsRunStart(s, i) {
      assert s[i - 1] == s[..k][i - 1];
    }
    if k == |s| {
      if k > 0 {
        NoRunStartBetween(s, 1, k);
        assert s[..k][0] == s[0];
      }
    } else {
      var j := WhiteSpaceRunEnd(s, k);
      forall i | k <= i < j ensures !IsRunStart(s, i) {
        assert s[i] == s[k..j][i - k];
      }
      NoRunStartBetween(s, if k > 0 then 1 else 0, j);
      if k > 0 { assert s[..k][0] == s[0]; }
      assert s[j - 1] == s[k..j][j - 1 - k];
      RunStartsShift(s, j, j);
      SplitCountsRuns(s[j..]);
      var rest := SplitWhiteSpace(s[j..]);
      assert SplitWhiteSpace(s) == [s[..k]] + rest;
      assert ([s[..k]] + rest)[1..] == rest;
    }
  }
}
