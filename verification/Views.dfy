/** What the editor sees: the live characters, and edits to them. */
module Views {
  import opened Ops
  import opened Documents
  import opened Ranges
  import opened Runs

  datatype Edit = Edit(pos: nat, content: string)

  /** All edits of one instruction refer to the same text, so they are applied back to
      front. */
  datatype EditInstruction = InsEdits(edits: seq<Edit>) | DelEdits(edits: seq<Edit>)

  /** What the editor sends: an edit of its text, or a command to undo or redo. */
  datatype EditorOp =
    | EditorIns(pos: nat, content: string)
    | EditorDel(pos: nat, content: string)
    | EditorUndo(context: nat)
    | EditorRedo(context: nat)

  /** An edit that makes sense on the text `v` the editor shows. */
  predicate EditorOpFits(op: EditorOp, v: string) {
    match op
    case EditorIns(pos, content) => pos <= |v| && content != ""
    case EditorDel(pos, content) => content != "" && pos + |content| <= |v| && v[pos..pos + |content|] == content
    case _ => false
  }

  function ApplyEditorOp(op: EditorOp, v: string): string
    requires EditorOpFits(op, v)
  {
    match op
    case EditorIns(pos, content) => Insert(v, pos, content)
    case EditorDel(pos, content) => Remove(v, pos, |content|)
  }

  function Visible(text: string, flags: seq<bool>): (v: string)
    requires |text| == |flags|
  {
    if flags == [] then ""
    else
      var n := |flags| - 1;
      Visible(text[..n], flags[..n]) + if flags[n] then [text[n]] else []
  }

  function Remove<T>(s: seq<T>, at: nat, len: nat): (r: seq<T>)
    requires at + len <= |s|
  {
    s[..at] + s[at + len..]
  }

  /** One edit; None stands for the out-of-bounds errors of the buffer. */
  function ApplyEdit(buffer: string, e: Edit, ins: bool): Option<string> {
    if ins then
      if e.pos > |buffer| then None else Some(Insert(buffer, e.pos, e.content))
    else
      if e.pos + |e.content| > |buffer| then None else Some(Remove(buffer, e.pos, |e.content|))
  }

  function ApplyEdits(buffer: string, edits: seq<Edit>, ins: bool): Option<string>
    decreases |edits|
  {
    if edits == [] then Some(buffer)
    else
      match ApplyEdit(buffer, edits[|edits| - 1], ins)
      case None => None
      case Some(b) => ApplyEdits(b, edits[..|edits| - 1], ins)
  }

  function ApplyInstruction(buffer: string, instr: EditInstruction): Option<string> {
    ApplyEdits(buffer, instr.edits, instr.InsEdits?)
  }

  /** The loop of both buffers: the edits of one instruction, last one first. */
  method EditBuffer(buffer: string, edits: seq<Edit>, ins: bool) returns (b: string, ok: bool)
    ensures ok <==> ApplyEdits(buffer, edits, ins).Some?
    ensures ok ==> Some(b) == ApplyEdits(buffer, edits, ins)
  {
    b, ok := buffer, true;
    var i: nat := |edits|;
    assert edits[..i] == edits;
    while i > 0
      invariant i <= |edits|
      invariant ApplyEdits(b, edits[..i], ins) == ApplyEdits(buffer, edits, ins)
    {
      i := i - 1;
      var e := edits[i];
      assert edits[..i + 1][..i] == edits[..i];
      if ins {
        if e.pos > |b| { return b, false; }
        b := b[..e.pos] + e.content + b[e.pos..];
      } else {
        if e.pos + |e.content| > |b| { return b, false; }
        b := b[..e.pos] + b[e.pos + |e.content|..];
      }
    }
  }

  lemma OneEdit(buffer: string, e: Edit, ins: bool)
    ensures ApplyEdits(buffer, [e], ins) == ApplyEdit(buffer, e, ins)
  {
    assert [e][..0] == [];
    if ApplyEdit(buffer, e, ins).Some? {
      assert ApplyEdits(ApplyEdit(buffer, e, ins).value, [], ins) == ApplyEdit(buffer, e, ins);
    }
  }

  // ---------------------------------------------------------------- visible text of parts

  lemma {:induction false} VisibleAppend(t1: string, f1: seq<bool>, t2: string, f2: seq<bool>)
    requires |t1| == |f1| && |t2| == |f2|
    ensures Visible(t1 + t2, f1 + f2) == Visible(t1, f1) + Visible(t2, f2)
    decreases |f2|
  {
    if f2 == [] {
      assert t1 + t2 == t1 && f1 + f2 == f1;
    } else {
      var n := |f2| - 1;
      assert (t1 + t2)[..|f1| + n] == t1 + t2[..n] && (f1 + f2)[..|f1| + n] == f1 + f2[..n];
      VisibleAppend(t1, f1, t2[..n], f2[..n]);
    }
  }

  lemma {:induction false} VisibleLen(text: string, flags: seq<bool>)
    requires |text| == |flags|
    ensures |Visible(text, flags)| == Count(flags)
    decreases |flags|
  {
    if flags != [] {
      var n := |flags| - 1;
      VisibleLen(text[..n], flags[..n]);
    }
  }

  lemma {:induction false} VisibleUniform(text: string, flags: seq<bool>, v: bool)
    requires |text| == |flags| && forall i :: 0 <= i < |flags| ==> flags[i] == v
    ensures Visible(text, flags) == if v then text else ""
    decreases |flags|
  {
    if flags != [] {
      var n := |flags| - 1;
      VisibleUniform(text[..n], flags[..n], v);
      assert text == text[..n] + [text[n]];
    }
  }

  lemma VisibleSplit(text: string, flags: seq<bool>, k: nat)
    requires |text| == |flags| && k <= |flags|
    ensures Visible(text, flags) == Visible(text[..k], flags[..k]) + Visible(text[k..], flags[k..])
    ensures |Visible(text[..k], flags[..k])| == Count(flags[..k])
  {
    assert text == text[..k] + text[k..] && flags == flags[..k] + flags[k..];
    VisibleAppend(text[..k], flags[..k], text[k..], flags[k..]);
    VisibleLen(text[..k], flags[..k]);
  }

  lemma VisibleThree(text: string, flags: seq<bool>, lo: nat, hi: nat)
    requires |text| == |flags| && lo <= hi <= |flags|
    ensures Visible(text, flags)
         == Visible(text[..lo], flags[..lo]) + Visible(text[lo..hi], flags[lo..hi]) + Visible(text[hi..], flags[hi..])
    ensures |Visible(text[..lo], flags[..lo])| == Count(flags[..lo])
    ensures |Visible(text[lo..hi], flags[lo..hi])| == Count(flags[lo..hi])
  {
    hide Visible, Count;
    VisibleSplit(text, flags, hi);
    VisibleSplit(text[..hi], flags[..hi], lo);
    assert text[..hi][..lo] == text[..lo] && text[..hi][lo..] == text[lo..hi];
    assert flags[..hi][..lo] == flags[..lo] && flags[..hi][lo..] == flags[lo..hi];
    VisibleLen(text[lo..hi], flags[lo..hi]);
  }

  lemma VisibleAround(text: string, flags: seq<bool>, p: nat, s: string, f: seq<bool>)
    requires |text| == |flags| && p <= |flags| && |s| == |f|
    ensures Visible(Insert(text, p, s), Insert(flags, p, f))
         == Visible(text[..p], flags[..p]) + Visible(s, f) + Visible(text[p..], flags[p..])
  {
    hide Visible, Count;
    VisibleAppend(text[..p], flags[..p], s, f);
    VisibleAppend(text[..p] + s, flags[..p] + f, text[p..], flags[p..]);
  }

  /** Live text inserted at internal position `p` shows up at the rank of `p`. */
  lemma VisibleInsert(text: string, flags: seq<bool>, p: nat, s: string)
    requires |text| == |flags| && p <= |flags|
    ensures Count(flags[..p]) <= |Visible(text, flags)|
    ensures Visible(Insert(text, p, s), Insert(flags, p, Repeat(true, |s|))) == Insert(Visible(text, flags), Count(flags[..p]), s)
  {
    hide Visible, Count;
    VisibleSplit(text, flags, p);
    VisibleAround(text, flags, p, s, Repeat(true, |s|));
    VisibleUniform(s, Repeat(true, |s|), true);
  }

  /** Dead text does not show up. */
  lemma VisibleInsertDead(text: string, flags: seq<bool>, p: nat, s: string)
    requires |text| == |flags| && p <= |flags|
    ensures Visible(Insert(text, p, s), Insert(flags, p, Repeat(false, |s|))) == Visible(text, flags)
  {
    hide Visible, Count;
    VisibleSplit(text, flags, p);
    VisibleAround(text, flags, p, s, Repeat(false, |s|));
    VisibleUniform(s, Repeat(false, |s|), false);
  }

  /** Making a dead stretch live inserts its text at its rank; making an interval dead
      removes what was live in it. */
  lemma VisibleSetRange(text: string, flags: seq<bool>, lo: nat, hi: nat, live: bool)
    requires |text| == |flags| && lo <= hi <= |flags|
    requires live ==> Uniform(flags, lo, hi, false)
    ensures Count(flags[..lo]) + Count(flags[lo..hi]) <= |Visible(text, flags)|
    ensures Visible(text, SetRange(flags, lo, hi, live))
         == if live then Insert(Visible(text, flags), Count(flags[..lo]), text[lo..hi])
            else Remove(Visible(text, flags), Count(flags[..lo]), Count(flags[lo..hi]))
  {
    hide Visible, Count;
    var r := SetRange(flags, lo, hi, live);
    VisibleThree(text, flags, lo, hi);
    VisibleThree(text, r, lo, hi);
    assert r[..lo] == flags[..lo] && r[hi..] == flags[hi..];
    VisibleUniform(text[lo..hi], r[lo..hi], live);
    if live { VisibleUniform(text[lo..hi], flags[lo..hi], false); }
    hide SetRange;
    ThreeParts(Visible(text[..lo], flags[..lo]), Visible(text[lo..hi], flags[lo..hi]), Visible(text[hi..], flags[hi..]), text[lo..hi]);
  }

  lemma ThreeParts(x: string, y: string, z: string, t: string)
    ensures Remove(x + y + z, |x|, |y|) == x + z
    ensures y == "" ==> Insert(x + y + z, |x|, t) == x + t + z
    ensures x + "" + z == x + z
  {}

  // ---------------------------------------------------------------- edits for runs

  /** Runs in order, each of liveness `v`; runs of neighbouring segments may touch. */
  predicate OrderedRuns(flags: seq<bool>, v: bool, runs: seq<Run>) {
    && (forall k :: 0 <= k < |runs| ==> RunEnd(runs[k]) <= |flags| && Uniform(flags, runs[k].0, RunEnd(runs[k]), v))
    && (forall j, k :: 0 <= j < k < |runs| ==> RunEnd(runs[j]) <= runs[k].0)
  }

  /** The edit for a run: at the number of live characters before it, with its text. */
  predicate EditFor(text: string, flags: seq<bool>, run: Run, e: Edit)
    requires RunEnd(run) <= |flags|
  {
    RunEnd(run) <= |text| && e.pos == Count(flags[..run.0]) && e.content == text[run.0..RunEnd(run)]
  }

  predicate EditsFor(text: string, flags: seq<bool>, runs: seq<Run>, edits: seq<Edit>)
    requires forall k :: 0 <= k < |runs| ==> RunEnd(runs[k]) <= |flags|
  {
    |edits| == |runs| && forall k :: 0 <= k < |runs| ==> EditFor(text, flags, runs[k], edits[k])
  }

  function SetRuns(flags: seq<bool>, runs: seq<Run>, live: bool): (r: seq<bool>)
    ensures |r| == |flags|
    ensures forall i :: 0 <= i < |flags| ==> r[i] == if Hits(runs, i) then live else flags[i]
  {
    seq(|flags|, i requires 0 <= i < |flags| => if Hits(runs, i) then live else flags[i])
  }

  lemma SetRunsLast(flags: seq<bool>, runs: seq<Run>, live: bool)
    requires runs != []
    ensures SetRuns(SetRange(flags, runs[|runs| - 1].0, RunEnd(runs[|runs| - 1]), live), runs[..|runs| - 1], live)
         == SetRuns(flags, runs, live)
  {
    var n := |runs| - 1;
    assert runs == runs[..n] + [runs[n]];
    forall i | 0 <= i < |flags| ensures Hits(runs, i) <==> Hits(runs[..n], i) || InRun(runs[n], i) { HitsAppend(runs[..n], runs[n], i); }
  }

  /** Runs before the last one see the same flags before them when the last one flips. */
  lemma EarlierRunsUnchanged(text: string, flags: seq<bool>, v: bool, runs: seq<Run>, edits: seq<Edit>)
    requires OrderedRuns(flags, v, runs) && EditsFor(text, flags, runs, edits) && runs != []
    ensures var n := |runs| - 1;
            var r := SetRange(flags, runs[n].0, RunEnd(runs[n]), !v);
            OrderedRuns(r, v, runs[..n]) && EditsFor(text, r, runs[..n], edits[..n])
  {
    hide Count;
    var n := |runs| - 1;
    var r := SetRange(flags, runs[n].0, RunEnd(runs[n]), !v);
    forall k | 0 <= k < n
      ensures Uniform(r, runs[k].0, RunEnd(runs[k]), v) && EditFor(text, r, runs[k], edits[k])
    {
      assert r[..runs[k].0] == flags[..runs[k].0];
    }
  }

  /** Every edit names the part of `v` that is at its position. */
  predicate AsSeen(edits: seq<Edit>, v: string) {
    forall k :: 0 <= k < |edits| ==>
      edits[k].pos + |edits[k].content| <= |v| && v[edits[k].pos..edits[k].pos + |edits[k].content|] == edits[k].content
  }

  /** The edits for live runs name what the editor shows there. */
  lemma LiveRunsAreSeen(text: string, flags: seq<bool>, runs: seq<Run>, edits: seq<Edit>)
    requires |text| == |flags| && OrderedRuns(flags, true, runs) && EditsFor(text, flags, runs, edits)
    ensures AsSeen(edits, Visible(text, flags))
  {
    hide Visible, Count;
    forall k | 0 <= k < |edits|
      ensures var e, v := edits[k], Visible(text, flags); e.pos + |e.content| <= |v| && v[e.pos..e.pos + |e.content|] == e.content
    {
      var lo, hi := runs[k].0, RunEnd(runs[k]);
      assert EditFor(text, flags, runs[k], edits[k]);
      VisibleThree(text, flags, lo, hi);
      VisibleUniform(text[lo..hi], flags[lo..hi], true);
    }
  }

  /** Applying the edits of the runs, last one first, turns the visible text before the
      runs flip into the visible text after; none of them is out of bounds. */
  lemma {:induction false} EditsFlipRuns(text: string, flags: seq<bool>, live: bool, runs: seq<Run>, edits: seq<Edit>)
    requires |text| == |flags| && OrderedRuns(flags, !live, runs) && EditsFor(text, flags, runs, edits)
    ensures ApplyEdits(Visible(text, flags), edits, live) == Some(Visible(text, SetRuns(flags, runs, live)))
    decreases |runs|
  {
    hide Visible, Count, OrderedRuns;
    if runs == [] {
      assert SetRuns(flags, runs, live) == flags;
    } else {
      var n := |runs| - 1;
      var run, e := runs[n], edits[n];
      var r := SetRange(flags, run.0, RunEnd(run), live);
      EarlierRunsUnchanged(text, flags, !live, runs, edits);
      LastRunUniform(flags, !live, runs);
      VisibleSetRange(text, flags, run.0, RunEnd(run), live);
      if !live { CountUniform(flags[run.0..RunEnd(run)], true); }
      assert ApplyEdit(Visible(text, flags), e, live) == Some(Visible(text, r));
      EditsFlipRuns(text, r, live, runs[..n], edits[..n]);
      SetRunsLast(flags, runs, live);
    }
  }

  lemma LastRunUniform(flags: seq<bool>, v: bool, runs: seq<Run>)
    requires OrderedRuns(flags, v, runs) && runs != []
    ensures var run := runs[|runs| - 1];
            RunEnd(run) <= |flags| && Uniform(flags, run.0, RunEnd(run), v)
            && forall i :: 0 <= i < RunEnd(run) - run.0 ==> flags[run.0..RunEnd(run)][i] == v
  {}
}
