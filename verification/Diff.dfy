/**
 The line diff shown in the config push history: a longest-common-subsequence table over
 suffixes, then a greedy walk of the table that emits same/del/add lines.
 */
module Diff {
  import opened Common
  import Text

  datatype Kind = Same | Del | Add

  datatype DiffLine = DiffLine(kind: Kind, text: string)

  type Script = seq<DiffLine>

  // ---------------------------------------------------------------- meaning of an edit script

  /** The lines a script reads: what it keeps or deletes, in order. */
  function OldLines(s: Script): seq<string> {
    if s == [] then []
    else (if s[0].kind == Add then [] else [s[0].text]) + OldLines(s[1..])
  }

  /** The lines a script produces: what it keeps or adds, in order. */
  function NewLines(s: Script): seq<string> {
    if s == [] then []
    else (if s[0].kind == Del then [] else [s[0].text]) + NewLines(s[1..])
  }

  /** `s` turns `a` into `b`, and read backwards `b` into `a`. */
  ghost predicate Turns(s: Script, a: seq<string>, b: seq<string>) {
    OldLines(s) == a && NewLines(s) == b
  }

  function Kept(s: Script): nat {
    if s == [] then 0 else (if s[0].kind == Same then 1 else 0) + Kept(s[1..])
  }

  /** The added plus deleted lines, which the history view counts. */
  function Cost(s: Script): nat {
    if s == [] then 0 else (if s[0].kind == Same then 0 else 1) + Cost(s[1..])
  }

  /** Executes a script on a list of lines; it fails when a kept or deleted line is not the next one. */
  function Patch(lines: seq<string>, s: Script): Option<seq<string>> {
    if s == [] then
      if lines == [] then Some([]) else None
    else if s[0].kind == Add then
      var rest := Patch(lines, s[1..]);
      if rest.Some? then Some([s[0].text] + rest.value) else None
    else if lines == [] || lines[0] != s[0].text then
      None
    else
      var rest := Patch(lines[1..], s[1..]);
      if rest.Some? && s[0].kind == Same then Some([s[0].text] + rest.value) else rest
  }

  /** The script with additions and deletions exchanged. */
  function Inverse(s: Script): Script {
    if s == [] then []
    else
      var k := match s[0].kind case Same => Same case Del => Add case Add => Del;
      [DiffLine(k, s[0].text)] + Inverse(s[1..])
  }

  /** Hunk normal form: within a hunk the deletions come first. */
  ghost predicate DeletionsFirst(s: Script) {
    forall k :: 0 <= k < |s| - 1 && s[k].kind == Add ==> s[k + 1].kind != Del
  }

  function Rank(k: Kind): nat {
    match k case Same => 0 case Del => 1 case Add => 2
  }

  /** The order in which the walk prefers scripts: at the first differing line, same before del before add. */
  ghost predicate NoLaterThan(s: Script, t: Script) {
    s == [] || (t != [] &&
        if s[0].kind == t[0].kind then NoLaterThan(s[1..], t[1..]) else Rank(s[0].kind) < Rank(t[0].kind))
  }

  // ---------------------------------------------------------------- the table and the walk

  function Max(x: nat, y: nat): nat { if x >= y then x else y }

  /** The table entry at `(i, j)`, for the suffixes `a[i..]` and `b[j..]`. */
  function Lcs(a: seq<string>, b: seq<string>, i: nat, j: nat): nat
    requires i <= |a| && j <= |b|
    decreases |a| - i + |b| - j
  {
    if i == |a| || j == |b| then 0
    else if a[i] == b[j] then Lcs(a, b, i + 1, j + 1) + 1
    else Max(Lcs(a, b, i + 1, j), Lcs(a, b, i, j + 1))
  }

  /** The line the walk emits at `(i, j)`. */
  function Choice(a: seq<string>, b: seq<string>, i: nat, j: nat): DiffLine
    requires i <= |a| && j <= |b| && (i < |a| || j < |b|)
  {
    if i == |a| then DiffLine(Add, b[j])
    else if j == |b| then DiffLine(Del, a[i])
    else if a[i] == b[j] then DiffLine(Same, a[i])
    else if Lcs(a, b, i + 1, j) >= Lcs(a, b, i, j + 1) then DiffLine(Del, a[i])
    else DiffLine(Add, b[j])
  }

  /** Everything the walk emits from `(i, j)` on. */
  function Walk(a: seq<string>, b: seq<string>, i: nat, j: nat): (s: Script)
    requires i <= |a| && j <= |b|
    decreases |a| - i + |b| - j
  {
    if i == |a| && j == |b| then []
    else
      var c := Choice(a, b, i, j);
      [c] + Walk(a, b, if c.kind == Add then i else i + 1, if c.kind == Del then j else j + 1)
  }

  function Diff(a: seq<string>, b: seq<string>): Script { Walk(a, b, 0, 0) }

  /** The nested loops: every entry is the value of its pair of suffixes. */
  method FillTable(a: seq<string>, b: seq<string>) returns (dp: array2<nat>)
    ensures dp.Length0 == |a| + 1 && dp.Length1 == |b| + 1
    ensures forall p, q {:trigger dp[p, q]} :: 0 <= p <= |a| && 0 <= q <= |b| ==> dp[p, q] == Lcs(a, b, p, q)
  {
    var n, m := |a|, |b|;
    dp := new nat[n + 1, m + 1]((_, _) => 0);
    for i := n downto 0
      invariant forall p, q {:trigger dp[p, q]} :: i <= p <= n && 0 <= q <= m ==> dp[p, q] == Lcs(a, b, p, q)
      invariant forall p :: 0 <= p <= n ==> dp[p, m] == 0
    {
      for j := m downto 0
        invariant forall p, q {:trigger dp[p, q]} :: i < p <= n && 0 <= q <= m ==> dp[p, q] == Lcs(a, b, p, q)
        invariant forall q {:trigger dp[i, q]} :: j <= q <= m ==> dp[i, q] == Lcs(a, b, i, q)
        invariant forall p :: 0 <= p <= n ==> dp[p, m] == 0
      {
        dp[i, j] := if a[i] == b[j] then dp[i + 1, j + 1] + 1 else Max(dp[i + 1, j], dp[i, j + 1]);
      }
    }
  }

  /** The walk has emitted `done` and stands at `(i, j)`. */
  ghost predicate Reached(done: Script, a: seq<string>, b: seq<string>, i: nat, j: nat)
    requires i <= |a| && j <= |b|
  {
    Diff(a, b) == done + Walk(a, b, i, j)
  }

  lemma WalkOn(done: Script, a: seq<string>, b: seq<string>, i: nat, j: nat)
    requires i <= |a| && j <= |b| && (i < |a| || j < |b|) && Reached(done, a, b, i, j)
    ensures var c := Choice(a, b, i, j);
            Reached(done + [c], a, b, if c.kind == Add then i else i + 1, if c.kind == Del then j else j + 1)
  {
  }

  /** The two loops behind the walk: what is left on one side is deleted or added. */
  method EmitTail(a: seq<string>, b: seq<string>, i0: nat, j0: nat, done: Script) returns (result: Script)
    requires i0 <= |a| && j0 <= |b| && (i0 == |a| || j0 == |b|) && Reached(done, a, b, i0, j0)
    ensures result == Diff(a, b)
  {
    var i, j := i0, j0;
    result := done;
    while i < |a|
      invariant 0 <= i <= |a| && 0 <= j <= |b|
      invariant i < |a| ==> j == |b|
      invariant Reached(result, a, b, i, j)
    {
      WalkOn(result, a, b, i, j);
      result := result + [DiffLine(Del, a[i])];
      i := i + 1;
    }
    while j < |b|
      invariant 0 <= j <= |b|
      invariant Reached(result, a, b, i, j)
    {
      WalkOn(result, a, b, i, j);
      result := result + [DiffLine(Add, b[j])];
      j := j + 1;
    }
  }

  method DiffLines(oldText: string, newText: string) returns (result: Script)
    ensures result == Diff(Text.Split(oldText, '\n'), Text.Split(newText, '\n'))
  {
    var a := Text.Split(oldText, '\n');
    var b := Text.Split(newText, '\n');
    var n, m := |a|, |b|;
    var dp := FillTable(a, b);

    result := [];
    var i, j := 0, 0;
    while i < n && j < m
      invariant 0 <= i <= n && 0 <= j <= m
      invariant forall p, q {:trigger dp[p, q]} :: 0 <= p <= n && 0 <= q <= m ==> dp[p, q] == Lcs(a, b, p, q)
      invariant Reached(result, a, b, i, j)
      decreases n - i + m - j
    {
      WalkOn(result, a, b, i, j);
      if a[i] == b[j] {
        result := result + [DiffLine(Same, a[i])];
        i, j := i + 1, j + 1;
      } else if dp[i + 1, j] >= dp[i, j + 1] {
        result := result + [DiffLine(Del, a[i])];
        i := i + 1;
      } else {
        result := result + [DiffLine(Add, b[j])];
        j := j + 1;
      }
    }
    result := EmitTail(a, b, i, j, result);
  }

  // ---------------------------------------------------------------- replay in both directions

  lemma OneMoreLine(c: DiffLine, s: Script, a: seq<string>, b: seq<string>)
    requires Turns(s, if c.kind == Add then a else if a == [] then [] else a[1..],
                   if c.kind == Del then b else if b == [] then [] else b[1..])
    requires c.kind != Add ==> a != [] && c.text == a[0]
    requires c.kind != Del ==> b != [] && c.text == b[0]
    ensures Turns([c] + s, a, b)
  {
    assert ([c] + s)[1..] == s;
  }

  /** The same+del lines are exactly the old lines, the same+add lines exactly the new ones. */
  lemma {:induction false} WalkTurns(a: seq<string>, b: seq<string>, i: nat, j: nat)
    requires i <= |a| && j <= |b|
    ensures Turns(Walk(a, b, i, j), a[i..], b[j..])
    decreases |a| - i + |b| - j
  {
    if i < |a| || j < |b| {
      var c := Choice(a, b, i, j);
      var i', j' := if c.kind == Add then i else i + 1, if c.kind == Del then j else j + 1;
      WalkTurns(a, b, i', j');
      OneMoreLine(c, Walk(a, b, i', j'), a[i..], b[j..]);
    }
  }

  /** Executing a script and reading off its two sides agree: exactly the scripts for `a` run on `a`. */
  lemma {:induction false} PatchIsTurns(s: Script, a: seq<string>, b: seq<string>)
    ensures Patch(a, s) == Some(b) <==> Turns(s, a, b)
  {
    if s != [] {
      if s[0].kind == Add {
        if b != [] { PatchIsTurns(s[1..], a, b[1..]); }
        if Patch(a, s) == Some(b) {
          assert b[1..] == Patch(a, s[1..]).value;
        }
      } else if a != [] {
        if s[0].kind == Del {
          PatchIsTurns(s[1..], a[1..], b);
        } else {
          if b != [] { PatchIsTurns(s[1..], a[1..], b[1..]); }
          if Patch(a, s) == Some(b) {
            assert b[1..] == Patch(a[1..], s[1..]).value;
          }
        }
      }
    }
  }

  lemma {:induction false} InverseSwapsSides(s: Script)
    ensures OldLines(Inverse(s)) == NewLines(s) && NewLines(Inverse(s)) == OldLines(s)
  {
    if s != [] {
      InverseSwapsSides(s[1..]);
      assert Inverse(s)[1..] == Inverse(s[1..]);
    }
  }

  /** The diff patches the old lines into the new ones, and inverted it patches them back. */
  lemma ReplaysBothWays(a: seq<string>, b: seq<string>)
    ensures Patch(a, Diff(a, b)) == Some(b)
    ensures Patch(b, Inverse(Diff(a, b))) == Some(a)
  {
    WalkTurns(a, b, 0, 0);
    PatchIsTurns(Diff(a, b), a, b);
    InverseSwapsSides(Diff(a, b));
    PatchIsTurns(Inverse(Diff(a, b)), b, a);
  }

  // ---------------------------------------------------------------- optimality

  /** One more line on either side never lowers a table entry and raises it by at most one. */
  lemma {:induction false} LcsStep(a: seq<string>, b: seq<string>, i: nat, j: nat)
    requires i <= |a| && j <= |b|
    ensures i < |a| ==> Lcs(a, b, i + 1, j) <= Lcs(a, b, i, j) <= Lcs(a, b, i + 1, j) + 1
    ensures j < |b| ==> Lcs(a, b, i, j + 1) <= Lcs(a, b, i, j) <= Lcs(a, b, i, j + 1) + 1
    decreases |a| - i + |b| - j
  {
    if i < |a| && j < |b| {
      LcsStep(a, b, i + 1, j);
      LcsStep(a, b, i, j + 1);
      LcsStep(a, b, i + 1, j + 1);
    }
  }

  /** The rest of a script turns the rest of the lines into each other. */
  lemma TurnsTail(s: Script, a: seq<string>, b: seq<string>, i: nat, j: nat)
    requires i <= |a| && j <= |b| && s != [] && Turns(s, a[i..], b[j..])
    ensures s[0].kind != Add ==> i < |a| && s[0].text == a[i]
    ensures s[0].kind != Del ==> j < |b| && s[0].text == b[j]
    ensures Turns(s[1..], a[if s[0].kind == Add then i else i + 1..], b[if s[0].kind == Del then j else j + 1..])
  {
    if s[0].kind != Add { assert OldLines(s)[1..] == OldLines(s[1..]); }
    if s[0].kind != Del { assert NewLines(s)[1..] == NewLines(s[1..]); }
  }

  /** No script between the two lists keeps more lines than the table says. */
  lemma {:induction false} LcsBounds(s: Script, a: seq<string>, b: seq<string>, i: nat, j: nat)
    requires i <= |a| && j <= |b| && Turns(s, a[i..], b[j..])
    ensures Kept(s) <= Lcs(a, b, i, j)
  {
    if s != [] {
      LcsStep(a, b, i, j);
      TurnsTail(s, a, b, i, j);
      LcsBounds(s[1..], a, b, if s[0].kind == Add then i else i + 1, if s[0].kind == Del then j else j + 1);
    }
  }

  /** The walk keeps as many lines as the table says. */
  lemma {:induction false} WalkKeepsLcs(a: seq<string>, b: seq<string>, i: nat, j: nat)
    requires i <= |a| && j <= |b|
    ensures Kept(Walk(a, b, i, j)) == Lcs(a, b, i, j)
    decreases |a| - i + |b| - j
  {
    if i < |a| || j < |b| {
      var c := Choice(a, b, i, j);
      WalkKeepsLcs(a, b, if c.kind == Add then i else i + 1, if c.kind == Del then j else j + 1);
    }
  }

  lemma {:induction false} CostAndKept(s: Script)
    ensures Cost(s) + 2 * Kept(s) == |OldLines(s)| + |NewLines(s)|
  {
    if s != [] { CostAndKept(s[1..]); }
  }

  /** No script that turns the old lines into the new ones has fewer added and deleted lines. */
  lemma DiffIsOptimal(a: seq<string>, b: seq<string>, s: Script)
    requires Turns(s, a, b)
    ensures Kept(s) <= Kept(Diff(a, b))
    ensures Cost(Diff(a, b)) <= Cost(s)
  {
    assert a[0..] == a && b[0..] == b;
    LcsBounds(s, a, b, 0, 0);
    WalkKeepsLcs(a, b, 0, 0);
    WalkTurns(a, b, 0, 0);
    CostAndKept(s);
    CostAndKept(Diff(a, b));
  }

  // ---------------------------------------------------------------- normal form and uniqueness

  /** A strict preference for adding persists: after an added line the walk cannot delete. */
  lemma {:induction false} WalkDeletesFirst(a: seq<string>, b: seq<string>, i: nat, j: nat)
    requires i <= |a| && j <= |b|
    ensures DeletionsFirst(Walk(a, b, i, j))
    decreases |a| - i + |b| - j
  {
    if i < |a| || j < |b| {
      var c := Choice(a, b, i, j);
      var w := Walk(a, b, i, j);
      var i', j' := if c.kind == Add then i else i + 1, if c.kind == Del then j else j + 1;
      WalkDeletesFirst(a, b, i', j');
      if c.kind == Add && i < |a| { LcsStep(a, b, i + 1, j); }
      forall k | 0 <= k < |w| - 1 && w[k].kind == Add
        ensures w[k + 1].kind != Del
      {
        if k > 0 { assert w[k] == w[1..][k - 1] && w[k + 1] == w[1..][k]; }
      }
    }
  }

  /** Among the optimal scripts the walk is the first one in its order of preference. */
  lemma {:induction false} WalkIsFirstOptimal(a: seq<string>, b: seq<string>, i: nat, j: nat, s: Script)
    requires i <= |a| && j <= |b| && Turns(s, a[i..], b[j..])
    requires Kept(s) == Lcs(a, b, i, j)
    ensures NoLaterThan(Walk(a, b, i, j), s)
    decreases |a| - i + |b| - j
  {
    if i < |a| || j < |b| {
      assert s != [];
      TurnsTail(s, a, b, i, j);
      var i', j' := if s[0].kind == Add then i else i + 1, if s[0].kind == Del then j else j + 1;
      LcsBounds(s[1..], a, b, i', j');
      if s[0].kind == Choice(a, b, i, j).kind { WalkIsFirstOptimal(a, b, i', j', s[1..]); }
    }
  }

  lemma {:induction false} NoLaterThanIsAntisymmetric(s: Script, t: Script)
    requires NoLaterThan(s, t) && NoLaterThan(t, s)
    requires OldLines(s) == OldLines(t) && NewLines(s) == NewLines(t)
    ensures s == t
  {
    if s != [] {
      var a, b := OldLines(s), NewLines(s);
      assert a[0..] == a && b[0..] == b;
      TurnsTail(s, a, b, 0, 0);
      TurnsTail(t, a, b, 0, 0);
      NoLaterThanIsAntisymmetric(s[1..], t[1..]);
    }
  }

  /** The declarative definition of the diff: the first cheapest script. */
  ghost predicate IsFirstCheapest(r: Script, a: seq<string>, b: seq<string>) {
    && Turns(r, a, b)
    && (forall s :: Turns(s, a, b) ==> Cost(r) <= Cost(s))
    && (forall s :: Turns(s, a, b) && Cost(s) == Cost(r) ==> NoLaterThan(r, s))
  }

  /** The first cheapest script is what the diff returns, and there is no other. */
  lemma DiffCharacterised(a: seq<string>, b: seq<string>, r: Script)
    ensures IsFirstCheapest(r, a, b) <==> r == Diff(a, b)
  {
    var w := Diff(a, b);
    assert a[0..] == a && b[0..] == b;
    WalkTurns(a, b, 0, 0);
    WalkKeepsLcs(a, b, 0, 0);
    CostAndKept(w);
    forall s | Turns(s, a, b)
      ensures Cost(w) <= Cost(s)
      ensures Cost(s) == Cost(w) ==> NoLaterThan(w, s)
    {
      DiffIsOptimal(a, b, s);
      CostAndKept(s);
      if Cost(s) == Cost(w) { WalkIsFirstOptimal(a, b, 0, 0, s); }
    }
    if IsFirstCheapest(r, a, b) {
      assert Cost(r) == Cost(w);
      NoLaterThanIsAntisymmetric(r, w);
    }
  }

  // ---------------------------------------------------------------- a whole push history

  /** The text before the `i`-th version: its predecessor, and the empty text before the first one. */
  function Before(versions: seq<string>, i: nat): string
    requires i <= |versions|
  {
    if i == 0 then "" else versions[i - 1]
  }

  /** The diffs the history view shows: each version against its predecessor. */
  function HistoryDiffs(versions: seq<string>): seq<Script> {
    seq(|versions|, i requires 0 <= i < |versions| =>
      Diff(Text.Split(Before(versions, i), '\n'), Text.Split(versions[i], '\n')))
  }

  /** Applies a script to a text. */
  function PatchText(text: string, s: Script): Option<string> {
    var lines := Patch(Text.Split(text, '\n'), s);
    if lines.None? then None else Some(Text.Join(lines.value, "\n"))
  }

  /** Applies the first `k` diffs one after the other, starting from the empty text. */
  function Rebuild(diffs: seq<Script>, k: nat): Option<string>
    requires k <= |diffs|
  {
    if k == 0 then Some("")
    else
      var text := Rebuild(diffs, k - 1);
      if text.None? then None else PatchText(text.value, diffs[k - 1])
  }

  lemma DiffPatchesText(oldText: string, newText: string)
    ensures PatchText(oldText, Diff(Text.Split(oldText, '\n'), Text.Split(newText, '\n'))) == Some(newText)
  {
    ReplaysBothWays(Text.Split(oldText, '\n'), Text.Split(newText, '\n'));
    Text.JoinOfSplit(newText, '\n');
  }

  /** Each diff leads from the text before a version to that version. */
  ghost predicate Leads(diffs: seq<Script>, versions: seq<string>) {
    |diffs| == |versions| && forall i {:trigger diffs[i]} :: 0 <= i < |diffs| ==>
      PatchText(Before(versions, i), diffs[i]) == Some(versions[i])
  }

  lemma {:induction false} LeadingDiffsRebuild(diffs: seq<Script>, versions: seq<string>, k: nat)
    requires Leads(diffs, versions) && k <= |versions|
    ensures Rebuild(diffs, k) == Some(Before(versions, k))
  {
    if k > 0 { LeadingDiffsRebuild(diffs, versions, k - 1); }
  }

  /** Folding the displayed diffs from the empty text rebuilds every version, the last one included. */
  lemma HistoryRebuilds(versions: seq<string>, k: nat)
    requires k <= |versions|
    ensures Rebuild(HistoryDiffs(versions), k) == Some(Before(versions, k))
  {
    forall i | 0 <= i < |versions|
      ensures PatchText(Before(versions, i), HistoryDiffs(versions)[i]) == Some(versions[i])
    {
      DiffPatchesText(Before(versions, i), versions[i]);
    }
    LeadingDiffsRebuild(HistoryDiffs(versions), versions, k);
  }
}
