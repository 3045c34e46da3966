/**
 The edit script between two lists of function locations (func.go).
 */
module Diff {

  datatype Edit = None | Add | Del

  datatype Cell = Cell(edit: Edit, cost: nat)

  /** A line of a script, before it is printed. */
  datatype Line = Kept(text: string) | Added(text: string) | Deleted(text: string) {
    function Print(): string {
      match this
      case Kept(s) => s
      case Added(s) => "+ " + s
      case Deleted(s) => "- " + s
    }
  }

  // What a script means.

  /** The list a script starts from: what it keeps and deletes. */
  function Source(script: seq<Line>): seq<string> {
    if script == [] then []
    else (if script[0].Added? then [] else [script[0].text]) + Source(script[1..])
  }

  /** The list a script leads to: what it keeps and adds. */
  function Target(script: seq<Line>): seq<string> {
    if script == [] then []
    else (if script[0].Deleted? then [] else [script[0].text]) + Target(script[1..])
  }

  /** The number of lines added or deleted. */
  function Edits(script: seq<Line>): nat {
    if script == [] then 0 else (if script[0].Kept? then 0 else 1) + Edits(script[1..])
  }

  function Printed(script: seq<Line>): seq<string> {
    seq(|script|, i requires 0 <= i < |script| => script[i].Print())
  }

  ghost predicate Leads(script: seq<Line>, lhs: seq<string>, rhs: seq<string>) {
    Source(script) == lhs && Target(script) == rhs
  }

  ghost predicate Minimal(script: seq<Line>, lhs: seq<string>, rhs: seq<string>) {
    Leads(script, lhs, rhs) && forall other | Leads(other, lhs, rhs) :: Edits(script) <= Edits(other)
  }

  // The cost of matching equal lines greedily, from the first i lines to the first j.

  ghost function Cost(lhs: seq<string>, rhs: seq<string>, i: nat, j: nat): nat
    requires i <= |lhs| && j <= |rhs|
    decreases i + j
  {
    if i == 0 then j
    else if j == 0 then i
    else if lhs[i - 1] == rhs[j - 1] then Cost(lhs, rhs, i - 1, j - 1)
    else
      var del, add := Cost(lhs, rhs, i - 1, j), Cost(lhs, rhs, i, j - 1);
      1 + if del < add then del else add
  }

  /** One more line on either side changes the cost by at most one. */
  lemma {:induction false} CostIsSmooth(lhs: seq<string>, rhs: seq<string>, i: nat, j: nat)
    requires i <= |lhs| && j <= |rhs|
    ensures i > 0 ==> Cost(lhs, rhs, i - 1, j) - 1 <= Cost(lhs, rhs, i, j) <= Cost(lhs, rhs, i - 1, j) + 1
    ensures j > 0 ==> Cost(lhs, rhs, i, j - 1) - 1 <= Cost(lhs, rhs, i, j) <= Cost(lhs, rhs, i, j - 1) + 1
    decreases i + j
  {
    if i > 0 {
      CostIsSmooth(lhs, rhs, i - 1, j);
    }
    if j > 0 {
      CostIsSmooth(lhs, rhs, i, j - 1);
    }
  }

  lemma {:induction false} SourceAppend(script: seq<Line>, l: Line)
    ensures Source(script + [l]) == Source(script) + if l.Added? then [] else [l.text]
  {
    if script == [] {
      assert [l][1..] == [] && script + [l] == [l];
    } else {
      assert (script + [l])[1..] == script[1..] + [l];
      SourceAppend(script[1..], l);
      assert Source(script + [l]) == (if script[0].Added? then [] else [script[0].text]) + Source(script[1..] + [l]);
    }
  }

  lemma {:induction false} TargetAppend(script: seq<Line>, l: Line)
    ensures Target(script + [l]) == Target(script) + if l.Deleted? then [] else [l.text]
  {
    if script == [] {
      assert [l][1..] == [] && script + [l] == [l];
    } else {
      assert (script + [l])[1..] == script[1..] + [l];
      TargetAppend(script[1..], l);
      assert Target(script + [l]) == (if script[0].Deleted? then [] else [script[0].text]) + Target(script[1..] + [l]);
    }
  }

  lemma {:induction false} EditsAppend(script: seq<Line>, l: Line)
    ensures Edits(script + [l]) == Edits(script) + if l.Kept? then 0 else 1
  {
    if script == [] {
      assert [l][1..] == [] && script + [l] == [l];
    } else {
      assert (script + [l])[1..] == script[1..] + [l];
      EditsAppend(script[1..], l);
    }
  }

  lemma EmptyScript()
    ensures Source([]) == [] && Target([]) == [] && Edits([]) == 0
  {
  }

  /** No script does better than the cost, although equal lines are always matched. */
  lemma {:induction false} CostIsLeast(lhs: seq<string>, rhs: seq<string>, i: nat, j: nat, script: seq<Line>)
    requires i <= |lhs| && j <= |rhs| && Leads(script, lhs[..i], rhs[..j])
    ensures Cost(lhs, rhs, i, j) <= Edits(script)
    decreases |script|
  {
    hide Source, Target, Edits;
    if script == [] {
      EmptyScript();
      assert |lhs[..i]| == 0 && |rhs[..j]| == 0;
    } else {
      var init, l := script[..|script| - 1], script[|script| - 1];
      assert script == init + [l];
      SourceAppend(init, l);
      TargetAppend(init, l);
      EditsAppend(init, l);
      CostIsSmooth(lhs, rhs, i, j);
      match l {
        case Kept(t) =>
          LastLine(lhs, i, Source(init), t);
          LastLine(rhs, j, Target(init), t);
          CostIsLeast(lhs, rhs, i - 1, j - 1, init);
        case Added(t) =>
          LastLine(rhs, j, Target(init), t);
          CostIsLeast(lhs, rhs, i, j - 1, init);
        case Deleted(t) =>
          LastLine(lhs, i, Source(init), t);
          CostIsLeast(lhs, rhs, i - 1, j, init);
      }
    }
  }

  lemma LastLine(lines: seq<string>, n: nat, init: seq<string>, t: string)
    requires n <= |lines| && lines[..n] == init + [t]
    ensures n > 0 && init == lines[..n - 1] && t == lines[n - 1]
  {
    assert |lines[..n]| == |init| + 1;
    assert lines[..n][n - 1] == t;
    assert lines[..n][..n - 1] == init;
  }

  lemma {:induction false} NoEdits(script: seq<Line>)
    ensures Edits(script) == 0 ==> Source(script) == Target(script)
  {
    if script != [] {
      NoEdits(script[1..]);
    }
  }

  lemma {:induction false} CostOfEqual(lines: seq<string>, i: nat)
    requires i <= |lines|
    ensures Cost(lines, lines, i, i) == 0
  {
    if i > 0 {
      CostOfEqual(lines, i - 1);
    }
  }

  /** A cell holds the cost and the last step of a script with that cost. */
  ghost predicate Right(c: Cell, lhs: seq<string>, rhs: seq<string>, i: nat, j: nat)
    requires i <= |lhs| && j <= |rhs|
  {
    && c.cost == Cost(lhs, rhs, i, j)
    && match c.edit {
         case None => (i == 0 && j == 0) || (i > 0 && j > 0 && lhs[i - 1] == rhs[j - 1])
         case Del => i > 0 && Cost(lhs, rhs, i, j) == Cost(lhs, rhs, i - 1, j) + 1
         case Add => j > 0 && Cost(lhs, rhs, i, j) == Cost(lhs, rhs, i, j - 1) + 1
       }
  }

  /** Fills the table of costs. */
  method Fill(lhs: seq<string>, rhs: seq<string>) returns (cells: array2<Cell>)
    ensures fresh(cells) && cells.Length0 == |lhs| + 1 && cells.Length1 == |rhs| + 1
    ensures forall i, j :: 0 <= i <= |lhs| && 0 <= j <= |rhs| ==> Right(cells[i, j], lhs, rhs, i, j)
  {
    cells := new Cell[|lhs| + 1, |rhs| + 1]((_, _) => Cell(None, 0));
    for i := 1 to |lhs| + 1
      invariant forall a :: 0 <= a < i ==> Right(cells[a, 0], lhs, rhs, a, 0)
      invariant cells[0, 0] == Cell(None, 0)
    {
      cells[i, 0] := Cell(Del, i);
    }
    for j := 1 to |rhs| + 1
      invariant forall a :: 0 <= a <= |lhs| ==> Right(cells[a, 0], lhs, rhs, a, 0)
      invariant forall b :: 0 <= b < j ==> Right(cells[0, b], lhs, rhs, 0, b)
    {
      cells[0, j] := Cell(Add, j);
    }
    for i := 1 to |lhs| + 1
      invariant forall a :: 0 <= a <= |lhs| ==> Right(cells[a, 0], lhs, rhs, a, 0)
      invariant forall a, b :: 0 <= a < i && 0 <= b <= |rhs| ==> Right(cells[a, b], lhs, rhs, a, b)
    {
      for j := 1 to |rhs| + 1
        invariant forall a :: 0 <= a <= |lhs| ==> Right(cells[a, 0], lhs, rhs, a, 0)
        invariant forall a, b :: 0 <= a < i && 0 <= b <= |rhs| ==> Right(cells[a, b], lhs, rhs, a, b)
        invariant forall b :: 0 <= b < j ==> Right(cells[i, b], lhs, rhs, i, b)
      {
        if lhs[i - 1] == rhs[j - 1] {
          cells[i, j] := Cell(None, cells[i - 1, j - 1].cost);
        } else if cells[i - 1, j].cost < cells[i, j - 1].cost {
          cells[i, j] := Cell(Del, cells[i - 1, j].cost + 1);
        } else {
          cells[i, j] := Cell(Add, cells[i, j - 1].cost + 1);
        }
      }
    }
  }

  /** The script found so far, walking back to (i, j), and what is printed of it, in reverse. */
  ghost predicate Walked(lhs: seq<string>, rhs: seq<string>, i: nat, j: nat, script: seq<Line>, d: seq<string>) {
    && i <= |lhs| && j <= |rhs|
    && Leads(script, lhs[i..], rhs[j..])
    && Edits(script) + Cost(lhs, rhs, i, j) == Cost(lhs, rhs, |lhs|, |rhs|)
    && Backward(d, script)
  }

  /** The lines of a script are printed from the last to the first. */
  ghost predicate Backward(d: seq<string>, script: seq<Line>) {
    |d| == |script| && forall k :: 0 <= k < |d| ==> d[k] == script[|d| - 1 - k].Print()
  }

  lemma BackwardStep(d: seq<string>, script: seq<Line>, l: Line)
    requires Backward(d, script)
    ensures Backward(d + [l.Print()], [l] + script)
  {
    forall k | 0 <= k < |d|
      ensures d[k] == ([l] + script)[|d| - k].Print()
    {
      assert ([l] + script)[|d| - k] == script[|d| - 1 - k];
    }
  }

  lemma Prepend(script: seq<Line>, l: Line)
    ensures Source([l] + script) == (if l.Added? then [] else [l.text]) + Source(script)
    ensures Target([l] + script) == (if l.Deleted? then [] else [l.text]) + Target(script)
    ensures Edits([l] + script) == Edits(script) + if l.Kept? then 0 else 1
  {
    assert ([l] + script)[1..] == script;
  }

  /** One step back, from (i', j') to (i, j). */
  lemma WalkStep(lhs: seq<string>, rhs: seq<string>, i': nat, j': nat, script: seq<Line>, d: seq<string>, l: Line,
                 i: nat, j: nat)
    requires Walked(lhs, rhs, i', j', script, d) && i <= i' && j <= j'
    requires lhs[i..i'] == (if l.Added? then [] else [l.text]) && rhs[j..j'] == (if l.Deleted? then [] else [l.text])
    requires Cost(lhs, rhs, i', j') == Cost(lhs, rhs, i, j) + if l.Kept? then 0 else 1
    ensures Walked(lhs, rhs, i, j, [l] + script, d + [l.Print()])
  {
    hide Cost, Source, Target, Edits, Backward;
    Prepend(script, l);
    BackwardStep(d, script, l);
    assert lhs[i..] == lhs[i..i'] + lhs[i'..] && rhs[j..] == rhs[j..j'] + rhs[j'..];
  }

  lemma WalkBack(lhs: seq<string>, rhs: seq<string>, i: nat, j: nat, script: seq<Line>, d: seq<string>, c: Cell)
    requires Walked(lhs, rhs, i, j, script, d) && Right(c, lhs, rhs, i, j) && (i > 0 || j > 0)
    ensures match c.edit
            case None => i > 0 && j > 0 && Walked(lhs, rhs, i - 1, j - 1, [Kept(lhs[i - 1])] + script, d + [lhs[i - 1]])
            case Add => j > 0 && Walked(lhs, rhs, i, j - 1, [Added(rhs[j - 1])] + script, d + ["+ " + rhs[j - 1]])
            case Del => i > 0 && Walked(lhs, rhs, i - 1, j, [Deleted(lhs[i - 1])] + script, d + ["- " + lhs[i - 1]])
  {
    match c.edit {
      case None =>
        WalkStep(lhs, rhs, i, j, script, d, Kept(lhs[i - 1]), i - 1, j - 1);
      case Add =>
        WalkStep(lhs, rhs, i, j, script, d, Added(rhs[j - 1]), i, j - 1);
      case Del =>
        WalkStep(lhs, rhs, i, j, script, d, Deleted(lhs[i - 1]), i - 1, j);
    }
  }

  /** All but the first i + 1 elements and their opposites have been swapped. */
  ghost predicate Swapped(now: seq<string>, was: seq<string>, i: int) {
    && |now| == |was|
    && (forall k :: 0 <= k < |was| && (k <= i || k >= |was| - 1 - i) ==> now[k] == was[k])
    && (forall k :: i < k < |was| - 1 - i && 0 <= k < |was| ==> now[k] == was[|was| - 1 - k])
  }

  lemma SwapStep(now: seq<string>, was: seq<string>, i: nat)
    requires 2 * i + 1 < |was| && Swapped(now, was, i)
    ensures var opp := |was| - 1 - i; Swapped(now[i := now[opp]][opp := now[i]], was, i - 1)
  {
  }

  /** Reverses in place, from the middle outwards. */
  method Reverse(a: array<string>)
    modifies a
    ensures Swapped(a[..], old(a[..]), -1)
  {
    hide Swapped;
    ghost var was := a[..];
    var i := a.Length / 2 - 1;
    assert Swapped(was, was, i) by {
      NoneSwapped(was);
    }
    while i >= 0
      invariant -1 <= i && 2 * i + 1 < a.Length
      invariant Swapped(a[..], was, i)
    {
      var opp := a.Length - 1 - i;
      SwapStep(a[..], was, i);
      ghost var now := a[..];
      a[i], a[opp] := a[opp], a[i];
      assert a[..] == now[i := now[opp]][opp := now[i]];
      i := i - 1;
    }
  }

  lemma NoneSwapped(was: seq<string>)
    ensures Swapped(was, was, |was| / 2 - 1)
  {
  }

  /**
   The differences between two lists: nothing if they are equal, otherwise a
   printed script from one to the other with as few edits as possible.
   */
  method LocationsDiff(lhs: seq<string>, rhs: seq<string>) returns (d: seq<string>, ghost script: seq<Line>)
    ensures Minimal(script, lhs, rhs)
    ensures d == if lhs == rhs then [] else Printed(script)
    ensures d == [] <==> lhs == rhs
    ensures forall i :: 0 <= i < |d| ==>
              d[i] == match script[i] case Kept(s) => s case Added(s) => "+ " + s case Deleted(s) => "- " + s
  {
    hide Minimal, Walked, Right;
    var cells := Fill(lhs, rhs);
    var i: nat, j: nat, differ := |lhs|, |rhs|, false;
    d, script := [], [];
    WalkStart(lhs, rhs);
    while i > 0 || j > 0
      invariant i <= |lhs| && j <= |rhs| && Walked(lhs, rhs, i, j, script, d) && differ == (Edits(script) > 0)
      modifies {}
      decreases i + j
    {
      WalkBack(lhs, rhs, i, j, script, d, cells[i, j]);
      match cells[i, j].edit {
        case None =>
          Prepend(script, Kept(lhs[i - 1]));
          d, script := d + [lhs[i - 1]], [Kept(lhs[i - 1])] + script;
          i, j := i - 1, j - 1;
        case Add =>
          Prepend(script, Added(rhs[j - 1]));
          d, script := d + ["+ " + rhs[j - 1]], [Added(rhs[j - 1])] + script;
          j, differ := j - 1, true;
        case Del =>
          Prepend(script, Deleted(lhs[i - 1]));
          d, script := d + ["- " + lhs[i - 1]], [Deleted(lhs[i - 1])] + script;
          i, differ := i - 1, true;
      }
    }
    WalkEnd(lhs, rhs, script, d);
    if !differ {
      return [], script;
    }
    d := Backwards(d);
  }

  method Backwards(d: seq<string>) returns (r: seq<string>)
    ensures |r| == |d| && forall k :: 0 <= k < |d| ==> r[k] == d[|d| - 1 - k]
  {
    var a := new string[|d|](k requires 0 <= k < |d| => d[k]);
    assert a[..] == d;
    Reverse(a);
    r := a[..];
  }

  lemma WalkStart(lhs: seq<string>, rhs: seq<string>)
    ensures Walked(lhs, rhs, |lhs|, |rhs|, [], [])
  {
  }

  lemma WalkEnd(lhs: seq<string>, rhs: seq<string>, script: seq<Line>, d: seq<string>)
    requires Walked(lhs, rhs, 0, 0, script, d)
    ensures Minimal(script, lhs, rhs) && (Edits(script) == 0 <==> lhs == rhs)
    ensures |d| == |script| && forall k :: 0 <= k < |d| ==> d[k] == script[|d| - 1 - k].Print()
    ensures lhs != rhs ==> d != []
  {
    assert lhs[..|lhs|] == lhs && rhs[..|rhs|] == rhs;
    forall other | Leads(other, lhs, rhs)
      ensures Edits(script) <= Edits(other)
    {
      CostIsLeast(lhs, rhs, |lhs|, |rhs|, other);
    }
    NoEdits(script);
    if lhs == rhs {
      CostOfEqual(lhs, |lhs|);
    }
  }
}
