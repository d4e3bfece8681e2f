/** `truncate_diff`: cuts a diff to a byte limit without breaking a character or, if possible, a line. */
module DiffTruncation {
  import opened Utf8

  const NEWLINE: Byte := 0x0A

  /** `str::is_char_boundary`. */
  predicate IsBoundary(s: seq<Byte>, i: nat) {
    i == 0 || i == |s| || (i < |s| && !IsTail(s[i]))
  }

  /** The last boundary at or before `n`. */
  function Floor(s: seq<Byte>, n: nat): (r: nat)
    ensures r <= n && IsBoundary(s, r)
    ensures forall i | r < i <= n :: !IsBoundary(s, i)
  {
    if IsBoundary(s, n) then n else Floor(s, n - 1)
  }

  /** `str::rfind`. */
  function LastNewline(s: seq<Byte>): (r: int)
    ensures r == -1 <==> NEWLINE !in s
    ensures r != -1 ==> 0 <= r < |s| && s[r] == NEWLINE && NEWLINE !in s[r + 1..]
  {
    if s == [] then -1
    else if s[|s| - 1] == NEWLINE then |s| - 1
    else LastNewline(s[..|s| - 1])
  }

  /**
   Main result: the outcome is valid UTF-8, a prefix of the diff, and within the limit.
   A diff that fits is kept whole. One that does not ends just before the last newline
   of the characters that fit; without a newline there, at most 3 bytes are wasted.
   */
  method TruncateDiff(content: seq<Byte>, limit: nat) returns (result: seq<Byte>)
    requires ValidUtf8(content)
    ensures ValidUtf8(result) && result <= content && |result| <= limit
    ensures |content| <= limit ==> result == content
    ensures |content| > limit ==>
              var end := Floor(content, limit);
              && limit - 3 <= end <= limit
              && (NEWLINE in content[..end] ==>
                    |result| < end && content[|result|] == NEWLINE && NEWLINE !in content[|result| + 1..end])
              && (NEWLINE !in content[..end] ==> result == content[..end])
  {
    if |content| <= limit {
      return content;
    }
    var end := limit;
    while end > 0 && !IsBoundary(content, end)
      invariant 0 <= end <= limit
      invariant Floor(content, end) == Floor(content, limit)
    {
      end := end - 1;
    }
    BoundaryIsNear(content, limit);
    BoundarySplits(content, end);
    var truncated := content[..end];
    var newline := LastNewline(truncated);
    if newline != -1 {
      BoundarySplits(truncated, newline);
      assert truncated[newline + 1..] == content[newline + 1..end];
      return truncated[..newline];
    }
    return truncated;
  }

  lemma {:induction false} CharLengthOfPrefix(s: seq<Byte>, i: nat)
    requires 0 < CharLength(s) <= i <= |s|
    ensures CharLength(s[..i]) == CharLength(s)
  {
    var t := s[..i];
    assert forall j | 0 <= j < i :: t[j] == s[j];
  }

  /** Cutting valid text at a boundary gives two valid texts. */
  lemma {:induction false} BoundarySplits(s: seq<Byte>, i: nat)
    requires ValidUtf8(s) && i <= |s| && IsBoundary(s, i)
    ensures ValidUtf8(s[..i]) && ValidUtf8(s[i..])
    decreases |s|
  {
    var k := CharLength(s);
    if i == 0 {
      assert s[..0] == [] && s[0..] == s;
    } else {
      assert i >= k;
      var rest := s[k..];
      assert i < |s| ==> rest[i - k] == s[i];
      BoundarySplits(rest, i - k);
      CharLengthOfPrefix(s, i);
      var front := s[..i];
      assert front[k..] == rest[..i - k] && s[i..] == rest[i - k..];
      assert ValidUtf8(front);
    }
  }

  /** Main result: valid text can be cut exactly at the boundaries. */
  lemma {:induction false} CutIsValidIff(s: seq<Byte>, i: nat)
    requires ValidUtf8(s) && i <= |s|
    ensures ValidUtf8(s[..i]) <==> IsBoundary(s, i)
    decreases |s|
  {
    if IsBoundary(s, i) {
      BoundarySplits(s, i);
    } else {
      var k := CharLength(s);
      if i < k {
        ShortCutIsInvalid(s, i);
      } else {
        var rest, front := s[k..], s[..i];
        assert rest[i - k] == s[i];
        CutIsValidIff(rest, i - k);
        CharLengthOfPrefix(s, i);
        assert front[k..] == rest[..i - k];
      }
    }
  }

  lemma {:induction false} ShortCutIsInvalid(s: seq<Byte>, i: nat)
    requires 0 < i < CharLength(s)
    ensures CharLength(s[..i]) == 0
  {
    var t := s[..i];
    assert forall j | 0 <= j < i :: t[j] == s[j];
  }

  /** A boundary is never more than 3 bytes back. */
  lemma {:induction false} BoundaryIsNear(s: seq<Byte>, n: nat)
    requires ValidUtf8(s) && n <= |s|
    ensures Floor(s, n) >= n - 3
    decreases |s|
  {
    var k := CharLength(s);
    if n >= 4 {
      var rest := s[k..];
      BoundaryIsNear(rest, n - k);
      var f := Floor(rest, n - k);
      assert IsBoundary(s, f + k) by {
        assert f + k < |s| ==> rest[f] == s[f + k];
      }
      assert f + k <= n;
    }
  }
}
