/**
 The snippet edit engine of the `edit_file` tool.

 Text is a sequence of Unicode scalar values. Sizes are counted in UTF-8 bytes, as the
 tool reports them.
 */
module EditFile {
  import opened Utf8

  datatype Edit = Edit(oldStr: string, newStr: string, replaceAll: bool)

  datatype Result =
    | Edited(content: string, editsApplied: nat, originalBytes: nat, newBytes: nat)
    | TargetNotFound(target: string)

  function Bytes(s: string): nat {
    if s == [] then 0 else Width(s[0]) + Bytes(s[1..])
  }

  predicate OccursAt(s: string, pattern: string, i: int) {
    0 <= i <= |s| - |pattern| && s[i..i + |pattern|] == pattern
  }

  predicate Contains(s: string, pattern: string) {
    exists i | 0 <= i <= |s| :: OccursAt(s, pattern, i)
  }

  // ----- Replacing

  /** The parts of `s` between the leftmost non-overlapping matches. */
  function Split(s: string, pattern: string): (parts: seq<string>)
    requires pattern != []
    ensures |parts| >= 1
    decreases |s|
  {
    if |s| < |pattern| then [s]
    else if pattern <= s then [""] + Split(s[|pattern|..], pattern)
    else var rest := Split(s[1..], pattern); [[s[0]] + rest[0]] + rest[1..]
  }

  function Join(parts: seq<string>, separator: string): string
    requires |parts| >= 1
  {
    if |parts| == 1 then parts[0] else parts[0] + separator + Join(parts[1..], separator)
  }

  /** How many matches there are. */
  function Count(s: string, pattern: string): nat
    requires pattern != []
    decreases |s|
  {
    if |s| < |pattern| then 0
    else if pattern <= s then 1 + Count(s[|pattern|..], pattern)
    else Count(s[1..], pattern)
  }

  function ReplaceAll(s: string, target: string, text: string): string
    requires target != []
    decreases |s|
  {
    if |s| < |target| then s
    else if target <= s then text + ReplaceAll(s[|target|..], target, text)
    else [s[0]] + ReplaceAll(s[1..], target, text)
  }

  function ReplaceFirst(s: string, target: string, text: string): string
    requires target != []
    decreases |s|
  {
    if |s| < |target| then s
    else if target <= s then text + s[|target|..]
    else [s[0]] + ReplaceFirst(s[1..], target, text)
  }

  // ----- The edit loop

  /** The matches an edit replaces; an empty target appends once. */
  function Matches(content: string, edit: Edit): nat {
    if edit.oldStr == [] || !edit.replaceAll then 1 else Count(content, edit.oldStr)
  }

  function Rewritten(content: string, edit: Edit): string {
    if edit.oldStr == [] then content + edit.newStr
    else if edit.replaceAll then ReplaceAll(content, edit.oldStr, edit.newStr)
    else ReplaceFirst(content, edit.oldStr, edit.newStr)
  }

  predicate Applicable(content: string, edit: Edit) {
    edit.oldStr == [] || Contains(content, edit.oldStr)
  }

  /** The contents before each edit and after the last, as far as the edits apply. */
  function Stages(content: string, edits: seq<Edit>): (r: seq<string>)
    ensures 1 <= |r| <= |edits| + 1
    decreases |edits|
  {
    if edits == [] || !Applicable(content, edits[0]) then [content]
    else [content] + Stages(Rewritten(content, edits[0]), edits[1..])
  }

  function TotalMatches(content: string, edits: seq<Edit>): nat
    decreases |edits|
  {
    if edits == [] then 0 else Matches(content, edits[0]) + TotalMatches(Rewritten(content, edits[0]), edits[1..])
  }

  lemma {:induction false} NextStage(content: string, edits: seq<Edit>, i: nat)
    requires i < |edits|
    ensures Stages(content, edits[i..])[0] == content
    ensures !Applicable(content, edits[i]) ==> Stages(content, edits[i..]) == [content]
    ensures Applicable(content, edits[i]) ==>
              Stages(content, edits[i..])[1..] == Stages(Rewritten(content, edits[i]), edits[i + 1..])
    ensures TotalMatches(content, edits[i..])
         == Matches(content, edits[i]) + TotalMatches(Rewritten(content, edits[i]), edits[i + 1..])
  {
    assert edits[i..][0] == edits[i] && edits[i..][1..] == edits[i + 1..];
  }

  method ApplyEdits(original: string, edits: seq<Edit>) returns (r: Result)
    ensures var stages := Stages(original, edits);
            if |stages| == |edits| + 1
            then r == Edited(stages[|edits|], TotalMatches(original, edits), Bytes(original), Bytes(stages[|edits|]))
            else r == TargetNotFound(edits[|stages| - 1].oldStr)
  {
    var content, applied := original, 0;
    ghost var stages, total := Stages(original, edits), TotalMatches(original, edits);
    var i := 0;
    while i < |edits|
      invariant 0 <= i <= |edits| && i < |stages|
      invariant stages[i..] == Stages(content, edits[i..])
      invariant applied + TotalMatches(content, edits[i..]) == total
    {
      var edit := edits[i];
      NextStage(content, edits, i);
      if edit.oldStr == [] {
        content := content + edit.newStr;
        applied := applied + 1;
      } else if !Contains(content, edit.oldStr) {
        return TargetNotFound(edit.oldStr);
      } else if edit.replaceAll {
        applied := applied + Count(content, edit.oldStr);
        content := ReplaceAll(content, edit.oldStr, edit.newStr);
      } else {
        content := ReplaceFirst(content, edit.oldStr, edit.newStr);
        applied := applied + 1;
      }
      assert stages[i + 1..] == stages[i..][1..];
      i := i + 1;
    }
    assert edits[i..] == [] && stages[i..][0] == content;
    return Edited(content, applied, Bytes(original), Bytes(content));
  }

  // ----- Replace-all is the leftmost split, joined

  /** `parts` is what is left of `s` when each time the first occurrence of the target is cut out. */
  ghost predicate LeftmostSplit(s: string, target: string, parts: seq<string>)
    requires target != []
    decreases |parts|
  {
    if |parts| <= 1 then parts == [s] && !Contains(s, target)
    else
      && OccursAt(s, target, |parts[0]|)
      && (forall i | 0 <= i < |parts[0]| :: !OccursAt(s, target, i))
      && parts[0] == s[..|parts[0]|]
      && LeftmostSplit(s[|parts[0]| + |target|..], target, parts[1..])
  }

  lemma {:induction false} OccursInTail(s: string, target: string, i: int)
    requires s != []
    ensures i >= 1 ==> (OccursAt(s, target, i) <==> OccursAt(s[1..], target, i - 1))
    ensures target != [] ==> (OccursAt(s, target, 0) <==> target <= s)
  {
    if 1 <= i <= |s| - |target| {
      var n, tail := |target|, s[1..];
      var a, b := tail[i - 1..i - 1 + n], s[i..i + n];
      assert |a| == |b| && forall j | 0 <= j < n :: a[j] == b[j];
      assert a == b;
    }
  }

  lemma {:induction false} SplitIsLeftmost(s: string, target: string)
    requires target != []
    ensures LeftmostSplit(s, target, Split(s, target))
    decreases |s|
  {
    if |s| >= |target| {
      if target <= s {
        SplitIsLeftmost(s[|target|..], target);
        assert ([""] + Split(s[|target|..], target))[1..] == Split(s[|target|..], target);
      } else {
        SplitIsLeftmost(s[1..], target);
        LeftmostSplitShifts(s, target, Split(s[1..], target));
      }
    }
  }

  lemma {:induction false} LeftmostSplitShifts(s: string, target: string, rest: seq<string>)
    requires target != [] && s != [] && !(target <= s) && |rest| >= 1
    requires LeftmostSplit(s[1..], target, rest)
    ensures LeftmostSplit(s, target, [[s[0]] + rest[0]] + rest[1..])
  {
    var parts := [[s[0]] + rest[0]] + rest[1..];
    forall i ensures i >= 1 ==> (OccursAt(s, target, i) <==> OccursAt(s[1..], target, i - 1)) {
      OccursInTail(s, target, i);
    }
    OccursInTail(s, target, 0);
    if |rest| == 1 {
      assert [s[0]] + s[1..] == s && parts == [s];
      forall i | 0 <= i <= |s| ensures !OccursAt(s, target, i) {
        assert i >= 1 && OccursAt(s[1..], target, i - 1) ==> Contains(s[1..], target);
      }
    } else {
      assert parts[1..] == rest[1..];
      assert s[|parts[0]| + |target|..] == s[1..][|rest[0]| + |target|..];
    }
  }

  /** There is only one leftmost split. */
  lemma {:induction false} LeftmostSplitUnique(s: string, target: string, a: seq<string>, b: seq<string>)
    requires target != [] && LeftmostSplit(s, target, a) && LeftmostSplit(s, target, b)
    ensures a == b
    decreases |a|
  {
    if |a| > 1 && |b| > 1 {
      LeftmostSplitUnique(s[|a[0]| + |target|..], target, a[1..], b[1..]);
      assert a == [a[0]] + a[1..] && b == [b[0]] + b[1..];
    }
  }

  /**
   Main result: replace-all joins the leftmost non-overlapping split with the new text,
   and the reported count is the number of joints.
   */
  lemma {:induction false} ReplaceAllJoinsSplit(s: string, target: string, text: string, parts: seq<string>)
    requires target != [] && LeftmostSplit(s, target, parts)
    ensures |parts| >= 1
    ensures ReplaceAll(s, target, text) == Join(parts, text)
    ensures Count(s, target) == |parts| - 1
    ensures s == Join(parts, target)
  {
    SplitIsLeftmost(s, target);
    LeftmostSplitUnique(s, target, parts, Split(s, target));
    JoinOfSplit(s, target, text);
    JoinOfSplit(s, target, target);
    ReplaceBySame(s, target);
  }

  lemma {:induction false} JoinAfterEmpty(parts: seq<string>, text: string)
    requires |parts| >= 1
    ensures Join([""] + parts, text) == text + Join(parts, text)
  {
    assert ([""] + parts)[1..] == parts;
    assert "" + text == text;
  }

  lemma {:induction false} JoinLonger(c: char, parts: seq<string>, text: string)
    requires |parts| >= 1
    ensures Join([[c] + parts[0]] + parts[1..], text) == [c] + Join(parts, text)
  {
    assert ([[c] + parts[0]] + parts[1..])[1..] == parts[1..];
  }

  lemma {:induction false} JoinOfSplit(s: string, target: string, text: string)
    requires target != []
    ensures ReplaceAll(s, target, text) == Join(Split(s, target), text)
    ensures Count(s, target) == |Split(s, target)| - 1
    decreases |s|
  {
    if |s| >= |target| {
      if target <= s {
        JoinOfSplit(s[|target|..], target, text);
        JoinAfterEmpty(Split(s[|target|..], target), text);
      } else {
        JoinOfSplit(s[1..], target, text);
        JoinLonger(s[0], Split(s[1..], target), text);
      }
    }
  }

  lemma {:induction false} ReplaceBySame(s: string, target: string)
    requires target != []
    ensures ReplaceAll(s, target, target) == s
    decreases |s|
  {
    if |s| >= |target| {
      ReplaceBySame(if target <= s then s[|target|..] else s[1..], target);
    }
  }

  ghost predicate FirstAt(s: string, target: string, i: nat) {
    OccursAt(s, target, i) && forall j: nat | j < i :: !OccursAt(s, target, j)
  }

  lemma {:induction false} FirstAtInTail(s: string, target: string, i: nat)
    requires target != [] && 0 < i && FirstAt(s, target, i)
    ensures FirstAt(s[1..], target, i - 1) && !(target <= s) && |target| <= |s|
  {
    OccursInTail(s, target, i);
    assert !OccursAt(s, target, 0);
    forall j: nat | j < i - 1 ensures !OccursAt(s[1..], target, j) {
      OccursInTail(s, target, j + 1);
    }
  }

  lemma {:induction false} CutInTail(s: string, text: string, i: nat, n: nat)
    requires 0 < i && i + n <= |s|
    ensures [s[0]] + (s[1..][..i - 1] + text + s[1..][i - 1 + n..]) == s[..i] + text + s[i + n..]
  {
    assert [s[0]] + s[1..][..i - 1] == s[..i];
  }

  lemma {:induction false} ReplaceFirstAt(s: string, target: string, text: string, i: nat)
    requires target != [] && FirstAt(s, target, i)
    ensures ReplaceFirst(s, target, text) == s[..i] + text + s[i + |target|..]
    decreases |s|
  {
    if i == 0 {
      OccursInTail(s, target, 0);
    } else {
      FirstAtInTail(s, target, i);
      ReplaceFirstAt(s[1..], target, text, i - 1);
      CutInTail(s, text, i, |target|);
    }
  }

  /** Replacing once cuts out the first occurrence. */
  lemma {:induction false} ReplaceFirstCutsFirst(s: string, target: string, text: string) returns (i: nat)
    requires target != [] && Contains(s, target)
    ensures FirstAt(s, target, i)
    ensures ReplaceFirst(s, target, text) == s[..i] + text + s[i + |target|..]
  {
    var k: nat :| k <= |s| && OccursAt(s, target, k);
    i := 0;
    while !OccursAt(s, target, i)
      invariant i <= k && forall j: nat | j < i :: !OccursAt(s, target, j)
      decreases k - i
    {
      i := i + 1;
    }
    ReplaceFirstAt(s, target, text, i);
  }

  // ----- Accounting

  lemma {:induction false} BytesAppend(a: string, b: string)
    ensures Bytes(a + b) == Bytes(a) + Bytes(b)
  {
    if a == [] {
      assert a + b == b;
    } else {
      assert (a + b)[1..] == a[1..] + b;
      BytesAppend(a[1..], b);
    }
  }

  lemma {:induction false} ContainsIffCounted(s: string, target: string)
    requires target != []
    ensures Contains(s, target) <==> Count(s, target) > 0
    decreases |s|
  {
    if |s| >= |target| {
      OccursInTail(s, target, 0);
      if !(target <= s) {
        ContainsIffCounted(s[1..], target);
        forall i ensures i >= 1 ==> (OccursAt(s, target, i) <==> OccursAt(s[1..], target, i - 1)) {
          OccursInTail(s, target, i);
        }
        if Contains(s, target) {
          var i :| 0 <= i <= |s| && OccursAt(s, target, i);
          assert OccursAt(s[1..], target, i - 1);
        }
        if Contains(s[1..], target) {
          var i :| 0 <= i <= |s[1..]| && OccursAt(s[1..], target, i);
          assert OccursAt(s, target, i + 1);
        }
      }
    }
  }

  /** `n` times `each`, summed. */
  function Times(n: nat, each: int): int {
    if n == 0 then 0 else each + Times(n - 1, each)
  }

  lemma {:induction false} TimesIsProduct(n: nat, each: int)
    ensures Times(n, each) == n * each
  {
    if n > 0 {
      TimesIsProduct(n - 1, each);
    }
  }

  lemma {:induction false} ReplaceAllBytes(s: string, target: string, text: string)
    requires target != []
    ensures Bytes(ReplaceAll(s, target, text)) == Bytes(s) + Times(Count(s, target), Bytes(text) - Bytes(target))
    decreases |s|
  {
    if |s| >= |target| {
      if target <= s {
        var rest := s[|target|..];
        ReplaceAllBytes(rest, target, text);
        assert s == target + rest;
        BytesAppend(target, rest);
        BytesAppend(text, ReplaceAll(rest, target, text));
      } else {
        ReplaceAllBytes(s[1..], target, text);
        assert ([s[0]] + ReplaceAll(s[1..], target, text))[1..] == ReplaceAll(s[1..], target, text);
      }
    }
  }

  lemma {:induction false} ReplaceFirstBytes(s: string, target: string, text: string)
    requires target != [] && Contains(s, target)
    ensures Bytes(ReplaceFirst(s, target, text)) == Bytes(s) + Bytes(text) - Bytes(target)
  {
    var i := ReplaceFirstCutsFirst(s, target, text);
    assert s == s[..i] + target + s[i + |target|..];
    BytesAppend(s[..i] + target, s[i + |target|..]);
    BytesAppend(s[..i], target);
    BytesAppend(s[..i] + text, s[i + |target|..]);
    BytesAppend(s[..i], text);
  }

  /** The change in size that an edit makes: its matches times the difference of the two strings. */
  function Growth(content: string, edit: Edit): int {
    Matches(content, edit) * (Bytes(edit.newStr) - Bytes(edit.oldStr))
  }

  function TotalGrowth(content: string, edits: seq<Edit>): int
    decreases |edits|
  {
    if edits == [] then 0 else Growth(content, edits[0]) + TotalGrowth(Rewritten(content, edits[0]), edits[1..])
  }

  lemma {:induction false} EditGrowth(content: string, edit: Edit)
    requires Applicable(content, edit)
    ensures Bytes(Rewritten(content, edit)) == Bytes(content) + Growth(content, edit)
    ensures Matches(content, edit) >= 1
  {
    TimesIsProduct(Matches(content, edit), Bytes(edit.newStr) - Bytes(edit.oldStr));
    if edit.oldStr == [] {
      BytesAppend(content, edit.newStr);
    } else {
      ContainsIffCounted(content, edit.oldStr);
      if edit.replaceAll {
        ReplaceAllBytes(content, edit.oldStr, edit.newStr);
      } else {
        ReplaceFirstBytes(content, edit.oldStr, edit.newStr);
      }
    }
  }

  /**
   Main result: for every list of edits that applies, the new size is the old one plus
   what each edit's matches add, and at least one match is counted per edit.
   */
  lemma {:induction false} EditAccounting(content: string, edits: seq<Edit>)
    requires |Stages(content, edits)| == |edits| + 1
    ensures Bytes(Stages(content, edits)[|edits|]) == Bytes(content) + TotalGrowth(content, edits)
    ensures TotalMatches(content, edits) >= |edits|
    decreases |edits|
  {
    if edits != [] {
      EditGrowth(content, edits[0]);
      assert edits[0..] == edits;
      NextStage(content, edits, 0);
      EditAccounting(Rewritten(content, edits[0]), edits[1..]);
    }
  }

  // ----- What each edit does, and how far a list of edits gets

  lemma {:induction false} BytesAreEncoded(s: string)
    ensures Bytes(s) == |EncodeAll(s)|
  {
    if s != [] {
      EncodedIsOneCharacter(s[0], []);
      BytesAreEncoded(s[1..]);
    }
  }

  /** An empty target appends the new string. */
  lemma {:induction false} EmptyTargetAppends(content: string, edit: Edit)
    requires edit.oldStr == ""
    ensures var r := Rewritten(content, edit);
            |r| == |content| + |edit.newStr| && r[..|content|] == content && r[|content|..] == edit.newStr
    ensures Matches(content, edit) == 1
  {
  }

  /** Without `replace_all`, the first occurrence is replaced. */
  lemma {:induction false} FirstMatchIsReplaced(content: string, edit: Edit, i: nat)
    requires edit.oldStr != "" && !edit.replaceAll && FirstAt(content, edit.oldStr, i)
    ensures Rewritten(content, edit) == content[..i] + edit.newStr + content[i + |edit.oldStr|..]
    ensures Matches(content, edit) == 1
  {
    ReplaceFirstAt(content, edit.oldStr, edit.newStr, i);
  }

  /** With it, the new string joins the parts that the leftmost split leaves. */
  lemma {:induction false} AllMatchesAreReplaced(content: string, edit: Edit, parts: seq<string>)
    requires edit.oldStr != "" && edit.replaceAll && LeftmostSplit(content, edit.oldStr, parts)
    ensures |parts| >= 1 && Rewritten(content, edit) == Join(parts, edit.newStr)
    ensures Matches(content, edit) == |parts| - 1
  {
    ReplaceAllJoinsSplit(content, edit.oldStr, edit.newStr, parts);
  }

  /** The target of the edit is empty or occurs. */
  ghost predicate Found(content: string, edit: Edit) {
    edit.oldStr == "" || exists i: nat :: OccursAt(content, edit.oldStr, i)
  }

  lemma {:induction false} ApplicableIffFound(content: string, edit: Edit)
    ensures Applicable(content, edit) <==> Found(content, edit)
  {
    if i: nat :| OccursAt(content, edit.oldStr, i) {
      assert Contains(content, edit.oldStr);
    }
  }

  /** The edits are applied one after the other, */
  lemma {:induction false} StagesFollow(content: string, edits: seq<Edit>, i: nat)
    ensures var r := Stages(content, edits);
            r[0] == content && (i + 1 < |r| ==> Found(r[i], edits[i]) && r[i + 1] == Rewritten(r[i], edits[i]))
    decreases |edits|
  {
    if edits != [] && Applicable(content, edits[0]) {
      var next, rest := Rewritten(content, edits[0]), edits[1..];
      var q := Stages(next, rest);
      assert Stages(content, edits) == [content] + q;
      if i == 0 {
        ApplicableIffFound(content, edits[0]);
        StagesFollow(next, rest, 0);
      } else {
        StagesFollow(next, rest, i - 1);
        assert i < |q| ==> ([content] + q)[i] == q[i - 1] && ([content] + q)[i + 1] == q[i];
      }
    }
  }

  /** up to the first whose target is not found. */
  lemma {:induction false} StagesEnd(content: string, edits: seq<Edit>)
    ensures var r := Stages(content, edits); |r| <= |edits| ==> !Found(r[|r| - 1], edits[|r| - 1])
    decreases |edits|
  {
    if edits != [] {
      ApplicableIffFound(content, edits[0]);
      if Applicable(content, edits[0]) {
        var next, rest := Rewritten(content, edits[0]), edits[1..];
        StagesEnd(next, rest);
        var q := Stages(next, rest);
        assert Stages(content, edits) == [content] + q;
        assert ([content] + q)[|q|] == q[|q| - 1];
      }
    }
  }

  /** The matches of the first `k` edits, each counted in the content it is applied to. */
  function MatchesUpTo(stages: seq<string>, edits: seq<Edit>, k: nat): nat
    requires k <= |edits| && k <= |stages|
  {
    if k == 0 then 0 else MatchesUpTo(stages, edits, k - 1) + Matches(stages[k - 1], edits[k - 1])
  }

  /** The matches reported are those of all edits. */
  lemma {:induction false} TotalIsSum(content: string, edits: seq<Edit>)
    requires |Stages(content, edits)| == |edits| + 1
    ensures TotalMatches(content, edits) == MatchesUpTo(Stages(content, edits), edits, |edits|)
    decreases |edits|
  {
    TotalSoFar(content, edits, |edits|);
    assert edits[|edits|..] == [];
  }

  lemma {:induction false} TotalSoFar(content: string, edits: seq<Edit>, k: nat)
    requires |Stages(content, edits)| == |edits| + 1 && k <= |edits|
    ensures var stages := Stages(content, edits);
            TotalMatches(content, edits) == MatchesUpTo(stages, edits, k) + TotalMatches(stages[k], edits[k..])
  {
    var stages := Stages(content, edits);
    StagesFollow(content, edits, 0);
    if k == 0 {
      assert edits[0..] == edits;
    } else {
      TotalSoFar(content, edits, k - 1);
      StagesFollow(content, edits, k - 1);
      NextStage(stages[k - 1], edits, k - 1);
    }
  }

  // ----- Reversal and completeness

  predicate Disjoint(a: string, b: string) {
    forall c | c in a :: c !in b
  }

  lemma {:induction false} NothingToReplace(s: string, target: string, text: string)
    requires target != [] && Disjoint(s, target)
    ensures ReplaceAll(s, target, text) == s
    decreases |s|
  {
    if |s| >= |target| {
      assert s[0] in s && target[0] in target;
      assert forall c | c in s[1..] :: c in s;
      NothingToReplace(s[1..], target, text);
    }
  }

  /** Main result: if the new text shares no character with the content, replacing back restores it. */
  lemma {:induction false} ReplaceAllReverses(s: string, target: string, text: string)
    requires target != [] && text != [] && Disjoint(s, text)
    ensures ReplaceAll(ReplaceAll(s, target, text), text, target) == s
    decreases |s|
  {
    if |s| < |target| {
      NothingToReplace(s, text, target);
    } else {
      var n := if target <= s then |target| else 1;
      var rest := ReplaceAll(s[n..], target, text);
      assert forall c | c in s[n..] :: c in s;
      ReplaceAllReverses(s[n..], target, text);
      if target <= s {
        ReplaceAtHead(rest, text, target);
        assert s == target + s[n..];
      } else {
        assert s[0] in s && text[0] in text;
        ReplaceBehind(s[0], rest, text, target);
        assert s == [s[0]] + s[n..];
      }
    }
  }

  lemma {:induction false} ReplaceAtHead(rest: string, target: string, text: string)
    requires target != []
    ensures ReplaceAll(target + rest, target, text) == text + ReplaceAll(rest, target, text)
  {
    assert target <= target + rest && (target + rest)[|target|..] == rest;
  }

  lemma {:induction false} ReplaceBehind(c: char, rest: string, target: string, text: string)
    requires target != [] && c != target[0]
    ensures ReplaceAll([c] + rest, target, text) == [c] + ReplaceAll(rest, target, text)
  {
    assert ([c] + rest)[0] == c && ([c] + rest)[1..] == rest;
    if |rest| < |target| {
      ShortTextKept(rest, target, text);
    }
  }

  lemma {:induction false} ShortTextKept(s: string, target: string, text: string)
    requires target != [] && |s| < |target|
    ensures ReplaceAll(s, target, text) == s
  {
  }

  /** Up to the first replaced match, replacing changes nothing. */
  lemma {:induction false} UntouchedPrefix(s: string, target: string, text: string, k: nat)
    requires target != [] && text != []
    requires k <= |ReplaceAll(s, target, text)|
    requires Disjoint(ReplaceAll(s, target, text)[..k], text)
    ensures k <= |s| && ReplaceAll(s, target, text)[..k] == s[..k]
    decreases |s|
  {
    var r := ReplaceAll(s, target, text);
    if |s| >= |target| && k > 0 {
      assert r[0] in r[..k];
      if target <= s {
        assert false;
      } else {
        var rest := ReplaceAll(s[1..], target, text);
        assert r[..k] == [s[0]] + rest[..k - 1];
        UntouchedPrefix(s[1..], target, text, k - 1);
      }
    }
  }

  lemma {:induction false} NoneBehindText(text: string, rest: string, target: string)
    requires target != [] && Disjoint(text, target) && !Contains(rest, target)
    ensures !Contains(text + rest, target)
  {
    forall i | 0 <= i <= |text + rest| ensures !OccursAt(text + rest, target, i) {
      if 0 <= i - |text| <= |rest| - |target| {
        assert (text + rest)[i..i + |target|] == rest[i - |text|..i - |text| + |target|];
        assert !OccursAt(rest, target, i - |text|);
      } else if i < |text| && i <= |text + rest| - |target| {
        assert text[i] in text && target[0] in target;
        assert (text + rest)[i..i + |target|][0] == text[i];
      }
    }
  }

  lemma {:induction false} NoneBehindCharacter(s: string, target: string, text: string)
    requires target != [] && text != [] && Disjoint(text, target) && |s| >= |target| && !(target <= s)
    requires !Contains(ReplaceAll(s[1..], target, text), target)
    ensures !Contains(ReplaceAll(s, target, text), target)
  {
    var r := ReplaceAll(s, target, text);
    var rest := ReplaceAll(s[1..], target, text);
    assert r == [s[0]] + rest && r[1..] == rest;
    if target <= r {
      assert r[..|target|] == target;
      UntouchedPrefix(s, target, text, |target|);
      assert false;
    }
    forall i | 0 <= i <= |r| ensures !OccursAt(r, target, i) {
      OccursInTail(r, target, i);
      assert i >= 1 ==> !OccursAt(rest, target, i - 1);
    }
  }

  /** Main result: if the new text shares no character with the target, no target is left. */
  lemma {:induction false} ReplaceAllIsComplete(s: string, target: string, text: string)
    requires target != [] && text != [] && Disjoint(text, target)
    ensures !Contains(ReplaceAll(s, target, text), target)
    decreases |s|
  {
    if |s| >= |target| {
      if target <= s {
        ReplaceAllIsComplete(s[|target|..], target, text);
        NoneBehindText(text, ReplaceAll(s[|target|..], target, text), target);
      } else {
        ReplaceAllIsComplete(s[1..], target, text);
        NoneBehindCharacter(s, target, text);
      }
    }
  }

  /** The conditions are needed: an empty replacement can leave a new match behind. */
  lemma {:induction false} EmptyReplacementLeavesMatch()
    ensures ReplaceAll("aabb", "ab", "") == "ab" && Contains("ab", "ab")
  {
    assert "aabb"[1..] == "abb" && "abb"[2..] == "b";
    assert OccursAt("ab", "ab", 0);
  }
}
