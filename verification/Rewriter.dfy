/**
 The G-code post-processor `adaptGCode.py`: it renames axes while the second tool is in
 use and inserts parking moves in front of tool changes, shifting line numbers as it goes.
 */
module Rewriter {
  type Line = string

  const T0_BLOCK: seq<Line> := ["G1 U60 F10000\n", "G1 V325 F15000\n", "G1 U10 F10000\n", "G1 X40 F10000\n"]
  const T1_BLOCK: seq<Line> := ["G1 X60 F10000\n", "G1 Y0 F15000\n", "G1 X10 F10000\n", "G1 U60 F10000\n"]

  /** Whether a line mentions tool "T" followed by `digit`. */
  predicate Mentions(line: Line, digit: char) {
    exists k :: 0 <= k < |line| - 1 && line[k] == 'T' && line[k + 1] == digit
  }

  // ----- renaming axes -------------------------------------------------------------------------

  function NewName(c: char): char {
    if c == 'X' then 'U' else if c == 'Y' then 'V' else c
  }

  function Renamed(s: string): string {
    if s == [] then [] else [NewName(s[0])] + Renamed(s[1..])
  }

  /** Where renaming stops: at the first ';', or without one in front of the last character. */
  function Cut(line: Line): (k: nat)
    ensures k <= |line|
  {
    if ';' in line then Comment(line) else if line == [] then 0 else |line| - 1
  }

  function Comment(line: Line): (k: nat)
    requires ';' in line
    ensures k < |line| && line[k] == ';' && ';' !in line[..k]
  {
    if line[0] == ';' then 0
    else
      var k := Comment(line[1..]) + 1;
      assert line[..k] == [line[0]] + line[1..][..k - 1];
      k
  }

  function EditLine(line: Line): Line {
    Renamed(line[..Cut(line)]) + line[Cut(line)..]
  }

  lemma {:induction false} RenamedAt(s: string, k: nat)
    requires k < |s|
    ensures |Renamed(s)| == |s| && Renamed(s)[k] == NewName(s[k])
  {
    if k > 0 {
      RenamedAt(s[1..], k - 1);
    } else if |s| > 1 {
      RenamedAt(s[1..], 0);
    }
  }

  /** The cut is at the first ';', or at the last character if there is none. */
  ghost predicate IsCut(line: Line, cut: nat) {
    && cut < |line|
    && (forall k :: 0 <= k < cut ==> line[k] != ';')
    && (line[cut] == ';' || (cut == |line| - 1 && ';' !in line))
  }

  lemma CutIs(line: Line)
    ensures line != [] ==> IsCut(line, Cut(line))
    ensures forall cut :: IsCut(line, cut) ==> cut == Cut(line)
  {
  }

  /** Character by character: X and Y become U and V in front of the cut, nothing else changes. */
  lemma EditedAt(line: Line, cut: nat, k: nat)
    requires IsCut(line, cut) && k < |line|
    ensures |EditLine(line)| == |line|
    ensures k < cut && line[k] == 'X' ==> EditLine(line)[k] == 'U'
    ensures k < cut && line[k] == 'Y' ==> EditLine(line)[k] == 'V'
    ensures k < cut && line[k] != 'X' && line[k] != 'Y' ==> EditLine(line)[k] == line[k]
    ensures cut <= k ==> EditLine(line)[k] == line[k]
  {
    CutIs(line);
    if cut > 0 {
      RenamedAt(line[..cut], if k < cut then k else 0);
    }
  }

  /** Comments are never touched. */
  lemma CommentsKept(line: Line, i: nat, k: nat)
    requires i <= k < |line| && line[i] == ';'
    ensures |EditLine(line)| == |line| && EditLine(line)[k] == line[k]
  {
    CutIs(line);
    EditedAt(line, Cut(line), k);
  }

  /**
   A line without a comment loses its last character to the cut: all its axes are renamed
   exactly if that character is not one, as after a line break.
   */
  lemma RenamedInFull(line: Line)
    requires line != [] && ';' !in line
    ensures EditLine(line) == Renamed(line) <==> line[|line| - 1] != 'X' && line[|line| - 1] != 'Y'
  {
    hide EditLine, Renamed;
    forall k | 0 <= k < |line|
      ensures |Renamed(line)| == |line| == |EditLine(line)| && Renamed(line)[k] == NewName(line[k])
      ensures EditLine(line)[k] == if k < |line| - 1 then NewName(line[k]) else line[k]
    {
      RenamedAt(line, k);
      CutIs(line);
      EditedAt(line, Cut(line), k);
    }
    assert NewName(line[|line| - 1]) == line[|line| - 1] <==> EditLine(line)[|line| - 1] == Renamed(line)[|line| - 1];
  }

  /** `out` is `line` with the axes of the second tool, up to the comment or the last character. */
  ghost predicate SecondToolAxes(line: Line, out: Line) {
    && |out| == |line|
    && forall k :: 0 <= k < |line| ==>
         out[k] == if k == |line| - 1 || ';' in line[..k + 1] then line[k]
                   else if line[k] == 'X' then 'U'
                   else if line[k] == 'Y' then 'V'
                   else line[k]
  }

  lemma EditGivesAxes(line: Line)
    ensures SecondToolAxes(line, EditLine(line))
  {
    hide EditLine;
    if line == [] {
      assert EditLine(line) == [] by { NothingToEdit(); }
    } else {
      CutIs(line);
      var cut := Cut(line);
      forall k | 0 <= k < |line|
        ensures |EditLine(line)| == |line|
        ensures EditLine(line)[k] == if k == |line| - 1 || ';' in line[..k + 1] then line[k]
                                     else if line[k] == 'X' then 'U' else if line[k] == 'Y' then 'V' else line[k]
      {
        EditedAt(line, cut, k);
        Behind(line, cut, k);
      }
    }
  }

  lemma NothingToEdit()
    ensures EditLine([]) == []
  {
  }

  lemma Behind(line: Line, cut: nat, k: nat)
    requires IsCut(line, cut) && k < |line|
    ensures k < cut ==> k < |line| - 1 && ';' !in line[..k + 1]
    ensures cut <= k ==> k == |line| - 1 || ';' in line[..k + 1]
  {
    if cut <= k && line[cut] == ';' {
      assert line[..k + 1][cut] == ';';
    }
  }

  /** Whether the axes of line `k` are renamed: since the last tool change before it, T0 winning. */
  function Editing(lines: seq<Line>, k: nat): bool
    requires k <= |lines|
  {
    if k == 0 then false
    else if Mentions(lines[k - 1], '0') then false
    else if Mentions(lines[k - 1], '1') then true
    else Editing(lines, k - 1)
  }

  ghost predicate Contains(line: Line, word: string) {
    exists k :: 0 <= k <= |line| && word <= line[k..]
  }

  lemma MentionsIs(line: Line, digit: char)
    ensures Mentions(line, digit) <==> Contains(line, ['T', digit])
  {
    if Mentions(line, digit) {
      var k :| 0 <= k < |line| - 1 && line[k] == 'T' && line[k + 1] == digit;
      assert ['T', digit] <= line[k..];
    }
    if Contains(line, ['T', digit]) {
      var k :| 0 <= k <= |line| && ['T', digit] <= line[k..];
      assert line[k] == line[k..][0] && line[k + 1] == line[k..][1];
    }
  }

  /** The second tool is in use in line `k`: a line before it selects it, and none since then the first. */
  ghost predicate SecondTool(lines: seq<Line>, k: nat)
    requires k <= |lines|
  {
    exists j :: 0 <= j < k && Contains(lines[j], "T1") && forall l :: j <= l < k ==> !Contains(lines[l], "T0")
  }

  lemma {:induction false} EditingIs(lines: seq<Line>, k: nat)
    requires k <= |lines|
    ensures Editing(lines, k) <==> SecondTool(lines, k)
  {
    hide Mentions, Contains;
    if k > 0 {
      EditingIs(lines, k - 1);
      MentionsIs(lines[k - 1], '0');
      MentionsIs(lines[k - 1], '1');
      assert "T0" == ['T', '0'] && "T1" == ['T', '1'];
    }
  }

  function Edited(lines: seq<Line>, k: nat): Line
    requires k < |lines|
  {
    if Editing(lines, k) then EditLine(lines[k]) else lines[k]
  }

  // ----- the result ------------------------------------------------------------------------------

  /** What becomes of line `k`. */
  function Group(lines: seq<Line>, k: nat): seq<Line>
    requires k < |lines|
  {
    (if Mentions(lines[k], '1') then T1_BLOCK else []) +
    (if Mentions(lines[k], '0') then T0_BLOCK else []) + [Edited(lines, k)]
  }

  function Flat(groups: seq<seq<Line>>): seq<Line> {
    if groups == [] then [] else Flat(groups[..|groups| - 1]) + groups[|groups| - 1]
  }

  /** The whole output: each line in order, behind the blocks that belong in front of it. */
  function Rewritten(lines: seq<Line>): seq<Line> {
    Flat(seq(|lines|, k requires 0 <= k < |lines| => Group(lines, k)))
  }

  // ----- lines and groups --------------------------------------------------------------------------

  /** The number of lines in front of group `i`. */
  function Start(groups: seq<seq<Line>>, i: nat): nat
    requires i <= |groups|
  {
    |Flat(groups[..i])|
  }

  lemma {:induction false} FlatSplit(groups: seq<seq<Line>>, i: nat)
    requires i <= |groups|
    ensures Flat(groups) == Flat(groups[..i]) + Flat(groups[i..])
    decreases |groups| - i
  {
    if i == |groups| {
      assert groups[..i] == groups;
    } else {
      var front := groups[..|groups| - 1];
      assert front[..i] == groups[..i] && front[i..] == groups[i..][..|groups| - 1 - i];
      FlatSplit(front, i);
    }
  }

  lemma FlatOne(group: seq<Line>)
    ensures Flat([group]) == group
  {
    assert [group][..0] == [];
  }

  lemma FlatAround(groups: seq<seq<Line>>, i: nat)
    requires i < |groups|
    ensures Flat(groups) == Flat(groups[..i]) + groups[i] + Flat(groups[i + 1..])
  {
    hide Flat;
    FlatSplit(groups, i);
    FlatSplit(groups[i..], 1);
    assert groups[i..][..1] == [groups[i]] && groups[i..][1..] == groups[i + 1..];
    FlatOne(groups[i]);
  }

  /** Lines inserted at the start of a group join the group. */
  lemma FlatInsert(groups: seq<seq<Line>>, i: nat, block: seq<Line>)
    requires i < |groups|
    ensures var s, p := Flat(groups), Start(groups, i);
            p <= |s| && s[..p] + block + s[p..] == Flat(groups[i := block + groups[i]])
  {
    hide Flat;
    var more := groups[i := block + groups[i]];
    FlatAround(groups, i);
    FlatAround(more, i);
    assert more[..i] == groups[..i] && more[i + 1..] == groups[i + 1..];
    Regroup(Flat(groups[..i]), block, groups[i], Flat(groups[i + 1..]));
  }

  lemma Regroup(a: seq<Line>, block: seq<Line>, g: seq<Line>, b: seq<Line>)
    ensures var s := a + g + b; s[..|a|] + block + s[|a|..] == a + (block + g) + b
  {
    var s := a + g + b;
    assert s[..|a|] == a && s[|a|..] == g + b;
  }

  /** The groups behind it start later by as many lines. */
  lemma {:induction false} StartsShift(groups: seq<seq<Line>>, i: nat, block: seq<Line>, j: nat)
    requires i < |groups| && j <= |groups|
    ensures Start(groups[i := block + groups[i]], j) == Start(groups, j) + if j > i then |block| else 0
  {
    var more := groups[i := block + groups[i]];
    if j <= i {
      assert more[..j] == groups[..j];
    } else {
      assert more[..j][..j - 1] == more[..j - 1] && groups[..j][..j - 1] == groups[..j - 1];
      StartsShift(groups, i, block, j - 1);
    }
  }

  ghost predicate NonEmpty(groups: seq<seq<Line>>) {
    forall k :: 0 <= k < |groups| ==> groups[k] != []
  }

  lemma {:induction false} StartsIncrease(groups: seq<seq<Line>>, i: nat, j: nat)
    requires i < j <= |groups| && NonEmpty(groups)
    ensures Start(groups, i) < Start(groups, j)
    decreases j
  {
    assert groups[..j][..j - 1] == groups[..j - 1];
    if i < j - 1 {
      StartsIncrease(groups, i, j - 1);
    }
  }

  lemma StartsOrdered(groups: seq<seq<Line>>, i: nat, j: nat)
    requires i <= |groups| && j <= |groups| && NonEmpty(groups)
    ensures Start(groups, i) < Start(groups, j) <==> i < j
  {
    if i < j {
      StartsIncrease(groups, i, j);
    } else if j < i {
      StartsIncrease(groups, j, i);
    }
  }

  /** What the program is for: the lines that stand for line `k` in its output. */
  ghost predicate Expected(lines: seq<Line>, k: nat, out: seq<Line>)
    requires k < |lines|
  {
    var parked :=
      (if Contains(lines[k], "T1")
       then ["G1 X60 F10000\n", "G1 Y0 F15000\n", "G1 X10 F10000\n", "G1 U60 F10000\n"] else []) +
      (if Contains(lines[k], "T0")
       then ["G1 U60 F10000\n", "G1 V325 F15000\n", "G1 U10 F10000\n", "G1 X40 F10000\n"] else []);
    && |out| == |parked| + 1
    && out[..|parked|] == parked
    && (SecondTool(lines, k) ==> SecondToolAxes(lines[k], out[|parked|]))
    && (!SecondTool(lines, k) ==> out[|parked|] == lines[k])
  }

  lemma GroupExpected(lines: seq<Line>, k: nat)
    requires k < |lines|
    ensures Expected(lines, k, Group(lines, k))
  {
    hide Mentions, Contains, SecondTool, SecondToolAxes, EditLine, Editing;
    MentionsIs(lines[k], '0');
    MentionsIs(lines[k], '1');
    assert "T0" == ['T', '0'] && "T1" == ['T', '1'];
    EditingIs(lines, k);
    EditGivesAxes(lines[k]);
  }

  /** The output is one part per input line, in order, each as expected. */
  ghost predicate Parts(lines: seq<Line>, out: seq<Line>, parts: seq<seq<Line>>) {
    && out == Flat(parts) && |parts| == |lines|
    && forall k :: 0 <= k < |lines| ==> Expected(lines, k, parts[k])
  }

  // ----- the loops -----------------------------------------------------------------------------------

  ghost predicate Increasing(indices: seq<nat>) {
    forall a, b :: 0 <= a < b < |indices| ==> indices[a] < indices[b]
  }

  /** Entry `a` of `marks` is the line number, from 1, at which group `indices[a]` starts. */
  ghost predicate Marks(marks: seq<int>, indices: seq<nat>, groups: seq<seq<Line>>) {
    && |marks| == |indices|
    && forall a :: 0 <= a < |marks| ==> indices[a] < |groups| && marks[a] == Start(groups, indices[a]) + 1
  }

  function Insert(s: seq<Line>, p: nat, line: Line): seq<Line>
    requires p <= |s|
  {
    s[..p] + [line] + s[p..]
  }

  lemma InsertFour(s: seq<Line>, p: nat, block: seq<Line>)
    requires p <= |s| && |block| == 4
    ensures Insert(Insert(Insert(Insert(s, p, block[0]), p + 1, block[1]), p + 2, block[2]), p + 3, block[3])
              == s[..p] + block + s[p..]
  {
  }

  /** An inner loop: line numbers behind `items` move by four. */
  method ShiftMarks(marks: seq<int>, items: int) returns (shifted: seq<int>)
    ensures |shifted| == |marks|
    ensures forall a :: 0 <= a < |marks| ==> shifted[a] == if marks[a] > items then marks[a] + 4 else marks[a]
  {
    shifted := marks;
    for a := 0 to |marks|
      invariant |shifted| == |marks|
      invariant forall b :: 0 <= b < a ==> shifted[b] == if marks[b] > items then marks[b] + 4 else marks[b]
      invariant forall b :: a <= b < |marks| ==> shifted[b] == marks[b]
    {
      if shifted[a] > items {
        shifted := shifted[a := shifted[a] + 4];
      }
    }
  }

  lemma MarksShift(marks: seq<int>, shifted: seq<int>, indices: seq<nat>,
                   groups: seq<seq<Line>>, i: nat, block: seq<Line>)
    requires Marks(marks, indices, groups) && NonEmpty(groups) && i < |groups| && |block| == 4 && |shifted| == |marks|
    requires forall a :: 0 <= a < |marks| ==>
               shifted[a] == if marks[a] > Start(groups, i) + 1 then marks[a] + 4 else marks[a]
    ensures Marks(shifted, indices, groups[i := block + groups[i]])
  {
    hide Start;
    forall a | 0 <= a < |marks|
      ensures shifted[a] == Start(groups[i := block + groups[i]], indices[a]) + 1
    {
      StartsOrdered(groups, i, indices[a]);
      StartsShift(groups, i, block, indices[a]);
    }
  }

  /** Groups with `block` put in front of those with an index in `indices`. */
  ghost predicate Blocked(groups: seq<seq<Line>>, indices: seq<nat>, block: seq<Line>, result: seq<seq<Line>>) {
    && |result| == |groups|
    && forall k :: 0 <= k < |groups| ==> result[k] == if k in indices then block + groups[k] else groups[k]
  }

  /** One round of an insertion loop. */
  method InsertBlock(changes: seq<Line>, items: int, block: seq<Line>, ghost groups: seq<seq<Line>>, ghost i: nat)
    returns (result: seq<Line>)
    requires changes == Flat(groups) && i < |groups| && items == Start(groups, i) + 1 && |block| == 4
    ensures result == Flat(groups[i := block + groups[i]])
  {
    hide Flat;
    FlatInsert(groups, i, block);
    InsertFour(changes, items - 1, block);
    result := Insert(changes, items - 1, block[0]);
    result := Insert(result, items, block[1]);
    result := Insert(result, items + 1, block[2]);
    result := Insert(result, items + 2, block[3]);
  }

  /** An insertion loop: `block` goes in front of the marked lines, and both lists of marks follow. */
  method InsertBlocks(changes: seq<Line>, marks: seq<int>, others: seq<int>, block: seq<Line>,
                      ghost groups: seq<seq<Line>>, ghost at: seq<nat>, ghost otherAt: seq<nat>)
    returns (result: seq<Line>, marks': seq<int>, others': seq<int>, ghost groups': seq<seq<Line>>)
    requires changes == Flat(groups) && NonEmpty(groups) && |block| == 4
    requires Marks(marks, at, groups) && Marks(others, otherAt, groups) && Increasing(at)
    ensures result == Flat(groups') && NonEmpty(groups')
    ensures Marks(marks', at, groups') && Marks(others', otherAt, groups')
    ensures Blocked(groups, at, block, groups')
  {
    hide Flat, Start;
    result, marks', others', groups' := changes, marks, others, groups;
    assert at[..0] == [];
    var z := 0;
    while z < |marks'|
      invariant 0 <= z <= |marks'| == |marks| && result == Flat(groups') && NonEmpty(groups')
      invariant Marks(marks', at, groups') && Marks(others', otherAt, groups')
      invariant Blocked(groups, at[..z], block, groups')
    {
      var items := marks'[z];
      ghost var i := at[z];
      result := InsertBlock(result, items, block, groups', i);
      var nextMarks := ShiftMarks(marks', items);
      var nextOthers := ShiftMarks(others', items);
      MarksShift(marks', nextMarks, at, groups', i, block);
      MarksShift(others', nextOthers, otherAt, groups', i, block);
      BlockedMore(groups, at, z, block, groups');
      marks', others' := nextMarks, nextOthers;
      groups' := groups'[i := block + groups'[i]];
      z := z + 1;
    }
    assert at[..z] == at;
  }

  lemma BlockedMore(groups: seq<seq<Line>>, at: seq<nat>, z: nat, block: seq<Line>, result: seq<seq<Line>>)
    requires z < |at| && Increasing(at) && Blocked(groups, at[..z], block, result) && at[z] < |groups|
    ensures Blocked(groups, at[..z + 1], block, result[at[z] := block + result[at[z]]])
  {
    assert at[..z + 1] == at[..z] + [at[z]];
    assert at[z] !in at[..z];
  }

  /** `marks` are the numbers, from 1, of the lines that mention a tool, in order; `at` are their indices. */
  ghost predicate Found(lines: seq<Line>, digit: char, marks: seq<int>, at: seq<nat>) {
    && |marks| == |at| && Increasing(at)
    && (forall a :: 0 <= a < |at| ==> at[a] < |lines| && marks[a] == at[a] + 1)
    && (forall k :: 0 <= k < |lines| ==> (k in at <==> Mentions(lines[k], digit)))
  }

  lemma FoundNext(lines: seq<Line>, count: nat, digit: char, marks: seq<int>, at: seq<nat>)
    requires count < |lines| && Found(lines[..count], digit, marks, at)
    ensures Mentions(lines[count], digit) ==> Found(lines[..count + 1], digit, marks + [count + 1], at + [count])
    ensures !Mentions(lines[count], digit) ==> Found(lines[..count + 1], digit, marks, at)
  {
    hide Mentions;
    assert lines[..count + 1] == lines[..count] + [lines[count]];
    if Mentions(lines[count], digit) {
      forall k | 0 <= k <= count
        ensures k in at + [count] <==> Mentions(lines[..count + 1][k], digit)
      {
        assert k < count ==> lines[..count + 1][k] == lines[..count][k];
      }
    } else {
      assert count !in at;
      assert forall k :: 0 <= k < count ==> lines[..count + 1][k] == lines[..count][k];
    }
  }

  /** The counting loop. */
  method CountTools(lines: seq<Line>) returns (t0: seq<int>, t1: seq<int>, ghost at0: seq<nat>, ghost at1: seq<nat>)
    ensures Found(lines, '0', t0, at0) && Found(lines, '1', t1, at1)
  {
    hide Found, Mentions;
    t0, t1, at0, at1 := [], [], [], [];
    NothingFound('0');
    NothingFound('1');
    assert lines[..0] == [];
    for count := 0 to |lines|
      invariant Found(lines[..count], '0', t0, at0) && Found(lines[..count], '1', t1, at1)
    {
      FoundNext(lines, count, '0', t0, at0);
      FoundNext(lines, count, '1', t1, at1);
      if Mentions(lines[count], '0') {
        t0, at0 := t0 + [count + 1], at0 + [count];
      }
      if Mentions(lines[count], '1') {
        t1, at1 := t1 + [count + 1], at1 + [count];
      }
    }
    assert lines[..|lines|] == lines;
  }

  lemma NothingFound(digit: char)
    ensures Found([], digit, [], [])
  {
  }

  lemma FoundBefore(lines: seq<Line>, digit: char, marks: seq<int>, at: seq<nat>, k: nat)
    requires Found(lines, digit, marks, at) && k <= |lines|
    ensures k in marks <==> k > 0 && Mentions(lines[k - 1], digit)
  {
    hide Mentions;
    if k in marks {
      var a :| 0 <= a < |marks| && marks[a] == k;
      assert at[a] == k - 1 && k - 1 in at;
    }
  }

  /** The renaming loop. */
  method EditLines(lines: seq<Line>, t0: seq<int>, t1: seq<int>, ghost at0: seq<nat>, ghost at1: seq<nat>)
    returns (changes: seq<Line>)
    requires Found(lines, '0', t0, at0) && Found(lines, '1', t1, at1)
    ensures |changes| == |lines| && forall k :: 0 <= k < |lines| ==> changes[k] == Edited(lines, k)
  {
    hide Found, Mentions, EditLine;
    changes := lines;
    var edit := false;
    for k := 0 to |lines|
      invariant |changes| == |lines|
      invariant k == 0 ==> !edit
      invariant k > 0 ==> edit == Editing(lines, k - 1)
      invariant forall j :: 0 <= j < k ==> changes[j] == Edited(lines, j)
      invariant forall j :: k <= j < |lines| ==> changes[j] == lines[j]
    {
      FoundBefore(lines, '0', t0, at0, k);
      FoundBefore(lines, '1', t1, at1, k);
      if k in t1 {
        edit := true;
      }
      if k in t0 {
        edit := false;
      }
      if edit {
        changes := changes[k := EditLine(changes[k])];
      }
    }
  }

  lemma FoundIn(lines: seq<Line>, digit: char, marks: seq<int>, at: seq<nat>)
    requires Found(lines, digit, marks, at)
    ensures Increasing(at) && forall k :: 0 <= k < |lines| ==> (k in at <==> Mentions(lines[k], digit))
  {
  }

  lemma {:induction false} FlatSingles(changes: seq<Line>, groups: seq<seq<Line>>)
    requires |groups| == |changes| && forall k :: 0 <= k < |changes| ==> groups[k] == [changes[k]]
    ensures Flat(groups) == changes
  {
    if changes != [] {
      FlatSingles(changes[..|changes| - 1], groups[..|groups| - 1]);
    }
  }

  lemma SinglesMarked(lines: seq<Line>, digit: char, marks: seq<int>, at: seq<nat>,
                      changes: seq<Line>, groups: seq<seq<Line>>)
    requires Found(lines, digit, marks, at) && |changes| == |lines|
    requires |groups| == |changes| && forall k :: 0 <= k < |changes| ==> groups[k] == [changes[k]]
    ensures Marks(marks, at, groups)
  {
    hide Flat, Mentions;
    forall a | 0 <= a < |marks|
      ensures marks[a] == Start(groups, at[a]) + 1
    {
      FlatSingles(changes[..at[a]], groups[..at[a]]);
    }
  }

  /** The whole program: for every input, in place editing and shifting give the intended output. */
  method Rewrite(lines: seq<Line>) returns (changes: seq<Line>, ghost parts: seq<seq<Line>>)
    ensures changes == Rewritten(lines)
    ensures Parts(lines, changes, parts)
  {
    hide Expected, Found, Mentions, Flat, Edited, Marks;
    var t0, t1, at0, at1 := CountTools(lines);
    changes := EditLines(lines, t0, t1, at0, at1);
    ghost var groups := seq(|lines|, k requires 0 <= k < |lines| => [Edited(lines, k)]);
    FlatSingles(changes, groups);
    SinglesMarked(lines, '0', t0, at0, changes, groups);
    SinglesMarked(lines, '1', t1, at1, changes, groups);
    FoundIn(lines, '0', t0, at0);
    FoundIn(lines, '1', t1, at1);
    ghost var groups1, groups2;
    changes, t0, t1, groups1 := InsertBlocks(changes, t0, t1, T0_BLOCK, groups, at0, at1);
    changes, t1, t0, groups2 := InsertBlocks(changes, t1, t0, T1_BLOCK, groups1, at1, at0);
    forall k | 0 <= k < |lines|
      ensures groups2[k] == Group(lines, k) && Expected(lines, k, groups2[k])
    {
      GroupIs(lines, k, groups1[k], groups2[k]);
      GroupExpected(lines, k);
    }
    assert groups2 == seq(|lines|, k requires 0 <= k < |lines| => Group(lines, k));
    parts := groups2;
  }

  lemma GroupIs(lines: seq<Line>, k: nat, g1: seq<Line>, g2: seq<Line>)
    requires k < |lines|
    requires g1 == if Mentions(lines[k], '0') then T0_BLOCK + [Edited(lines, k)] else [Edited(lines, k)]
    requires g2 == if Mentions(lines[k], '1') then T1_BLOCK + g1 else g1
    ensures g2 == Group(lines, k)
  {
    hide Mentions, Edited;
    assert T1_BLOCK + (T0_BLOCK + [Edited(lines, k)]) == T1_BLOCK + T0_BLOCK + [Edited(lines, k)];
  }
}
