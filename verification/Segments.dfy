/** From the segments of a mark to runs, and from runs to segments. */
module Segments {
  import opened Ops
  import opened Documents
  import opened Ranges
  import opened Runs
  import opened Marks
  import opened Views

  /** The edit for a run inside the segment `text` at `pos`. */
  predicate EditOf(flags: seq<bool>, pos: nat, text: string, run: Run, e: Edit) {
    && pos <= run.0 && RunEnd(run) <= pos + |text| && run.0 <= |flags|
    && e.pos == Count(flags[..run.0]) && e.content == text[run.0 - pos..RunEnd(run) - pos]
  }

  /** The runs of the segments of a mark, all in the flags before it, with their edits. */
  predicate SegRuns(text: string, flags: seq<bool>, segs: seq<Seg>, v: bool, runs: seq<Run>, edits: seq<Edit>) {
    && OrderedRuns(flags, v, runs)
    && EditsFor(text, flags, runs, edits)
    && (runs != [] && segs != [] ==> RunEnd(runs[|runs| - 1]) <= segs[|segs| - 1].End())
    && (segs == [] ==> runs == [])
    && forall i :: 0 <= i < |flags| ==> (Hits(runs, i) <==> Covers(segs, i) && flags[i] == v)
  }

  lemma NoSegRuns(text: string, flags: seq<bool>, v: bool)
    ensures SegRuns(text, flags, [], v, [], [])
  {}

  lemma HitsConcat(a: seq<Run>, b: seq<Run>, i: int)
    ensures Hits(a + b, i) <==> Hits(a, i) || Hits(b, i)
  {
    if k :| 0 <= k < |a| && InRun(a[k], i) { assert InRun((a + b)[k], i); }
    if k :| 0 <= k < |b| && InRun(b[k], i) { assert InRun((a + b)[|a| + k], i); }
  }

  lemma CoversSnoc(segs: seq<Seg>, seg: Seg, i: int)
    ensures Covers(segs + [seg], i) <==> Covers(segs, i) || In(seg, i)
  {
    if k :| 0 <= k < |segs| && In(segs[k], i) { assert In((segs + [seg])[k], i); }
    if In(seg, i) { assert In((segs + [seg])[|segs|], i); }
  }

  lemma OrderedConcat(flags: seq<bool>, v: bool, a: seq<Run>, b: seq<Run>, bound: nat)
    requires OrderedRuns(flags, v, a) && OrderedRuns(flags, v, b)
    requires a != [] ==> RunEnd(a[|a| - 1]) <= bound
    requires forall k :: 0 <= k < |b| ==> bound <= b[k].0
    ensures OrderedRuns(flags, v, a + b)
  {
    var c := a + b;
    forall k | 0 <= k < |c| ensures RunEnd(c[k]) <= |flags| && Uniform(flags, c[k].0, RunEnd(c[k]), v) {
      if k < |a| { assert c[k] == a[k]; } else { assert c[k] == b[k - |a|]; }
    }
    forall j, k | 0 <= j < k < |c| ensures RunEnd(c[j]) <= c[k].0 {
      if k < |a| {
        assert c[j] == a[j] && c[k] == a[k];
      } else if j < |a| {
        assert RunEnd(a[j]) <= bound by { if j < |a| - 1 { assert RunEnd(a[j]) <= a[|a| - 1].0; } }
      }
    }
  }

  lemma MaximalOrdered(flags: seq<bool>, lo: nat, hi: nat, v: bool, runs: seq<Run>)
    requires lo <= hi <= |flags| && MaximalRuns(flags, lo, hi, v, runs)
    ensures OrderedRuns(flags, v, runs)
    ensures forall k :: 0 <= k < |runs| ==> lo <= runs[k].0 && RunEnd(runs[k]) <= hi
    ensures forall i :: 0 <= i < |flags| ==> (Hits(runs, i) <==> lo <= i < hi && flags[i] == v)
  {
    forall k, i | 0 <= k < |runs| && runs[k].0 <= i < RunEnd(runs[k]) ensures flags[i] == v {
      assert InRun(runs[k], i);
      assert Hits(runs, i);
    }
  }

  predicate EditsOf(flags: seq<bool>, seg: Seg, more: seq<Run>, edits: seq<Edit>, from: nat) {
    |edits| == from + |more| && forall k :: 0 <= k < |more| ==> EditOf(flags, seg.pos, seg.text, more[k], edits[from + k])
  }

  lemma SubSlice<T>(s: seq<T>, lo: nat, hi: nat, a: nat, b: nat)
    requires lo <= a <= b <= hi <= |s|
    ensures s[lo..hi][a - lo..b - lo] == s[a..b]
  {
    var x, y := s[lo..hi][a - lo..b - lo], s[a..b];
    assert |x| == |y|;
    forall i | 0 <= i < |x| ensures x[i] == y[i] {}
  }

  lemma EditInSegment(text: string, flags: seq<bool>, seg: Seg, run: Run, e: Edit)
    requires |text| == |flags| && SegMatches(seg, text) && RunEnd(run) <= |flags|
    requires EditOf(flags, seg.pos, seg.text, run, e)
    ensures EditFor(text, flags, run, e)
  {
    hide Count;
    SubSlice(text, seg.pos, seg.End(), run.0, RunEnd(run));
  }

  lemma MoreEdits(text: string, flags: seq<bool>, seg: Seg, runs: seq<Run>, more: seq<Run>, edits: seq<Edit>, edits': seq<Edit>)
    requires |text| == |flags| && SegMatches(seg, text)
    requires forall k :: 0 <= k < |runs + more| ==> RunEnd((runs + more)[k]) <= |flags|
    requires forall k :: 0 <= k < |runs| ==> RunEnd(runs[k]) <= |flags|
    requires EditsFor(text, flags, runs, edits)
    requires edits <= edits' && EditsOf(flags, seg, more, edits', |edits|)
    ensures EditsFor(text, flags, runs + more, edits')
  {
    hide Count, EditOf, EditFor, SegMatches;
    var all := runs + more;
    forall k | 0 <= k < |all| ensures EditFor(text, flags, all[k], edits'[k]) {
      if k < |runs| {
        assert edits'[k] == edits[k] && all[k] == runs[k];
      } else {
        assert all[k] == more[k - |runs|];
        EditInSegment(text, flags, seg, all[k], edits'[|edits| + (k - |runs|)]);
      }
    }
  }

  lemma MoreHits(flags: seq<bool>, segs: seq<Seg>, seg: Seg, v: bool, runs: seq<Run>, more: seq<Run>)
    requires forall i :: 0 <= i < |flags| ==> (Hits(runs, i) <==> Covers(segs, i) && flags[i] == v)
    requires forall i :: 0 <= i < |flags| ==> (Hits(more, i) <==> In(seg, i) && flags[i] == v)
    ensures forall i :: 0 <= i < |flags| ==> (Hits(runs + more, i) <==> Covers(segs + [seg], i) && flags[i] == v)
  {
    hide Hits, Covers;
    forall i | 0 <= i < |flags| ensures Hits(runs + more, i) <==> Covers(segs + [seg], i) && flags[i] == v {
      HitsConcat(runs, more, i);
      CoversSnoc(segs, seg, i);
    }
  }

  /** One more segment after the others. */
  lemma MoreSegRuns(text: string, flags: seq<bool>, segs: seq<Seg>, seg: Seg, v: bool,
                    runs: seq<Run>, more: seq<Run>, edits: seq<Edit>, edits': seq<Edit>)
    requires |text| == |flags| && SegRuns(text, flags, segs, v, runs, edits)
    requires segs != [] ==> segs[|segs| - 1].End() <= seg.pos
    requires SegMatches(seg, text) && MaximalRuns(flags, seg.pos, seg.End(), v, more)
    requires edits <= edits' && EditsOf(flags, seg, more, edits', |edits|)
    ensures SegRuns(text, flags, segs + [seg], v, runs + more, edits')
  {
    hide Count, Hits, Covers, MaximalRuns, EditsOf, EditFor, EditsFor, Uniform;
    MaximalOrdered(flags, seg.pos, seg.End(), v, more);
    MoreHits(flags, segs, seg, v, runs, more);
    OrderedConcat(flags, v, runs, more, seg.pos);
    assert forall k :: 0 <= k < |runs + more| ==> RunEnd((runs + more)[k]) <= |flags|;
    hide OrderedRuns;
    MoreEdits(text, flags, seg, runs, more, edits, edits');
  }

  lemma SetRunsIsSetLive(text: string, flags: seq<bool>, segs: seq<Seg>, live: bool, runs: seq<Run>, edits: seq<Edit>)
    requires SegRuns(text, flags, segs, !live, runs, edits)
    ensures SetRuns(flags, runs, live) == SetLive(flags, segs, live)
  {}

  /** The edits of all segments turn the visible text before the mark into the one after. */
  lemma SegRunsFlip(text: string, flags: seq<bool>, segs: seq<Seg>, live: bool, runs: seq<Run>, edits: seq<Edit>)
    requires |text| == |flags| && SegRuns(text, flags, segs, !live, runs, edits)
    ensures ApplyEdits(Visible(text, flags), edits, live) == Some(Visible(text, SetLive(flags, segs, live)))
  {
    SetRunsIsSetLive(text, flags, segs, live, runs, edits);
    EditsFlipRuns(text, flags, live, runs, edits);
  }

  lemma SetLiveSnoc(flags: seq<bool>, segs: seq<Seg>, seg: Seg, live: bool)
    ensures SetRange(SetLive(flags, segs, live), seg.pos, seg.End(), live) == SetLive(flags, segs + [seg], live)
  {
    forall i | 0 <= i < |flags| ensures Covers(segs + [seg], i) <==> Covers(segs, i) || In(seg, i) { CoversSnoc(segs, seg, i); }
  }

  // ---------------------------------------------------------------- runs of a deletion

  /** The segments a deletion emits: its runs with their text. */
  predicate SegsFor(text: string, runs: seq<Run>, segs: seq<Seg>) {
    && |segs| == |runs|
    && forall k :: 0 <= k < |runs| ==>
         segs[k].pos == runs[k].0 && segs[k].End() == RunEnd(runs[k]) && SegMatches(segs[k], text)
  }

  /** The segments never touch each other. */
  predicate Apart(segs: seq<Seg>) {
    forall j, k :: 0 <= j < k < |segs| ==> segs[j].End() < segs[k].pos
  }

  lemma SegsForValid(text: string, flags: seq<bool>, lo: nat, hi: nat, runs: seq<Run>, segs: seq<Seg>, site: SiteId)
    requires |text| == |flags| && lo <= hi <= |flags| && MaximalRuns(flags, lo, hi, true, runs) && SegsFor(text, runs, segs)
    ensures ValidOn(Mark(segs, false, site), text) && Quotes(Mark(segs, false, site), text) && Apart(segs)
    ensures forall i :: 0 <= i < |flags| ==> (Covers(segs, i) <==> lo <= i < hi && flags[i])
    ensures SetLive(flags, segs, false) == SetRange(flags, lo, hi, false)
  {
    forall i | 0 <= i < |flags| ensures Covers(segs, i) <==> Hits(runs, i) {
      if k :| 0 <= k < |segs| && In(segs[k], i) { assert InRun(runs[k], i); }
      if k :| 0 <= k < |runs| && InRun(runs[k], i) { assert In(segs[k], i); }
    }
    MaximalOrdered(flags, lo, hi, true, runs);
    forall j, k | 0 <= j < k < |segs| ensures segs[j].End() < segs[k].pos {
      assert RunEnd(runs[j]) < runs[k].0;
    }
    forall k | 0 <= k < |segs| ensures segs[k].text != "" { assert runs[k].1 > 0; }
  }

  /** The visible text of an interval is the text of its live runs. */
  lemma VisibleOfRun(text: string, flags: seq<bool>, lo: nat, hi: nat, run: Run, skipped: nat)
    requires |text| == |flags| && lo <= run.0 && RunEnd(run) <= hi <= |flags|
    requires Uniform(flags, run.0, RunEnd(run), true)
    requires skipped == Count(flags[lo..run.0])
    ensures skipped + run.1 <= |Visible(text[lo..hi], flags[lo..hi])|
    ensures Visible(text[lo..hi], flags[lo..hi])[skipped..skipped + run.1] == text[run.0..RunEnd(run)]
  {
    hide Visible, Count;
    var t, f := text[lo..hi], flags[lo..hi];
    var (x, y) := (run.0 - lo, RunEnd(run) - lo);
    VisibleThree(t, f, x, y);
    SubSlice(text, lo, hi, run.0, RunEnd(run));
    SubSlice(flags, lo, hi, run.0, RunEnd(run));
    assert f[..x] == flags[lo..run.0];
    forall i | 0 <= i < run.1 ensures f[x..y][i] == true { assert f[x..y][i] == flags[run.0 + i]; }
    VisibleUniform(t[x..y], f[x..y], true);
  }

  lemma NoSegsFor(text: string, runs: seq<Run>)
    ensures SegsFor(text, runs[..0], []) && RunsLen(runs[..0]) == 0 && Quoted([]) == ""
  {}

  lemma MoreSegsFor(text: string, runs: seq<Run>, i: nat, segs: seq<Seg>, content: string, idx: nat)
    requires i < |runs| && SegsFor(text, runs[..i], segs) && idx == RunsLen(runs[..i])
    requires idx + runs[i].1 <= |content| && RunEnd(runs[i]) <= |text|
    requires content[idx..idx + runs[i].1] == text[runs[i].0..RunEnd(runs[i])]
    requires Quoted(segs) == content[..idx]
    ensures var segs' := segs + [Seg(runs[i].0, content[idx..idx + runs[i].1])];
            SegsFor(text, runs[..i + 1], segs') && Quoted(segs') == content[..idx + runs[i].1]
  {
    var seg := Seg(runs[i].0, content[idx..idx + runs[i].1]);
    assert (segs + [seg])[..|segs|] == segs;
    assert content[..idx] + content[idx..idx + runs[i].1] == content[..idx + runs[i].1];
  }

  lemma VisibleInterval(text: string, flags: seq<bool>, lo: nat, hi: nat)
    requires |text| == |flags| && lo <= hi <= |flags|
    ensures var v := Visible(text, flags);
            && Count(flags[..lo]) + Count(flags[lo..hi]) == Count(flags[..hi]) <= |v|
            && v[Count(flags[..lo])..Count(flags[..hi])] == Visible(text[lo..hi], flags[lo..hi])
  {
    hide Visible, Count;
    VisibleThree(text, flags, lo, hi);
    CountMonotone(flags, lo, hi);
  }

  /** More live characters before it: further right. */
  lemma RankOrder(flags: seq<bool>, lo: nat, hi: nat)
    requires lo <= |flags| && hi <= |flags| && Count(flags[..lo]) < Count(flags[..hi])
    ensures lo < hi
  {
    if hi <= lo { CountMonotone(flags, hi, lo); }
  }

  /** The live characters in between are those numbered in between. */
  lemma RankedBetween(flags: seq<bool>, lo: nat, hi: nat)
    requires lo <= hi <= |flags|
    ensures forall i :: 0 <= i < |flags| && flags[i] ==>
              (lo <= i < hi <==> Count(flags[..lo]) <= Count(flags[..i]) < Count(flags[..hi]))
  {
    hide Count;
    forall i | 0 <= i < |flags| && flags[i]
      ensures lo <= i < hi <==> Count(flags[..lo]) <= Count(flags[..i]) < Count(flags[..hi])
    {
      LiveCounts(flags, i);
      if i < lo { CountMonotone(flags, i + 1, lo); } else { CountMonotone(flags, lo, i); }
      if i < hi { CountMonotone(flags, i + 1, hi); } else { CountMonotone(flags, hi, i); }
    }
  }

  lemma LiveCounts(flags: seq<bool>, i: nat)
    requires i < |flags| && flags[i]
    ensures Count(flags[..i + 1]) == Count(flags[..i]) + 1
  {
    assert flags[..i + 1][..i] == flags[..i];
  }

  /** The live characters before run `i` are those of the earlier runs. */
  lemma RunPrefix(flags: seq<bool>, lo: nat, hi: nat, runs: seq<Run>, i: nat)
    requires lo <= hi <= |flags| && MaximalRuns(flags, lo, hi, true, runs) && i < |runs|
    ensures lo <= runs[i].0 && RunEnd(runs[i]) <= hi && Uniform(flags, runs[i].0, RunEnd(runs[i]), true)
    ensures RunsLen(runs[..i]) == Count(flags[lo..runs[i].0])
    ensures RunsLen(runs[..i]) + runs[i].1 == RunsLen(runs[..i + 1]) <= Count(flags[lo..hi])
    decreases |runs|
  {
    hide Count, MaximalRuns;
    var n := |runs| - 1;
    LastRun(flags, lo, hi, true, runs);
    CountOfSplit(flags, lo, runs[n].0, hi, true);
    if i == n {
      assert runs[..n + 1] == runs && runs[..n + 1][..n] == runs[..n];
      RunsCount(flags, lo, runs[n].0, true, runs[..n]);
      RunsCount(flags, lo, hi, true, runs);
    } else {
      RunPrefix(flags, lo, runs[n].0, runs[..n], i);
      assert runs[..n][..i] == runs[..i] && runs[..n][..i + 1] == runs[..i + 1];
    }
  }
}
