/** What editors are shown of an operation. Text that a mark brings back is shown as the mark
    quotes it, which is the document's own text unless the mark misquotes it. */
module Showing {
  import opened Ops
  import opened Documents
  import opened Ranges
  import opened Runs
  import opened Views
  import opened Segments

  /** The character that the segments quote for position `i`. */
  function QuoteAt(segs: seq<Seg>, i: nat): char
    requires Covers(segs, i)
  {
    var last := segs[|segs| - 1];
    if In(last, i) then last.text[i - last.pos] else QuoteAt(segs[..|segs| - 1], i)
  }

  /** `text` with the positions that satisfy `at` replaced by what the segments quote. */
  function Overlaid(text: string, segs: seq<Seg>, at: seq<bool>): (r: string)
    requires |at| == |text| && forall i :: 0 <= i < |text| && at[i] ==> Covers(segs, i)
    ensures |r| == |text|
    ensures forall i :: 0 <= i < |text| ==> r[i] == if at[i] then QuoteAt(segs, i) else text[i]
  {
    seq(|text|, i requires 0 <= i < |text| => if at[i] then QuoteAt(segs, i) else text[i])
  }

  function CoveredBy(segs: seq<Seg>, n: nat): (r: seq<bool>)
    ensures |r| == n && forall i :: 0 <= i < n ==> r[i] == Covers(segs, i)
  {
    seq(n, i requires 0 <= i < n => Covers(segs, i))
  }

  /** The dead characters that a mark makes live. */
  function Revived(d: Doc, op: Op): (r: seq<bool>)
    requires Coherent(d)
    ensures |r| == |d.text|
    ensures op.Mark? ==> forall i :: 0 <= i < |r| && r[i] ==> Covers(op.segs, i)
  {
    seq(|d.text|, i requires 0 <= i < |d.text| => op.Mark? && op.live && Covers(op.segs, i) && !d.live[i])
  }

  /** The text, with the characters that the operation revives as it quotes them. */
  function Restored(d: Doc, op: Op): (r: string)
    requires Coherent(d)
    ensures |r| == |d.text|
  {
    if op.Mark? then Overlaid(d.text, op.segs, Revived(d, op)) else d.text
  }

  /** The document as it is shown after the operation. */
  function Show(d: Doc, op: Op): (r: Doc)
    requires Coherent(d) && Fits(op, |d.text|)
    ensures Coherent(r)
  {
    Apply(Doc(Restored(d, op), d.live), op)
  }

  function View(d: Doc): string
    requires Coherent(d)
  {
    Visible(d.text, d.live)
  }

  /** It is the document after the operation exactly when the operation quotes what it
      revives. */
  lemma ShowIff(d: Doc, op: Op)
    requires Coherent(d) && ValidOn(op, d.text)
    ensures Show(d, op).live == Apply(d, op).live && |Show(d, op).text| == |Apply(d, op).text|
    ensures Show(d, op) == Apply(d, op) <==>
              (op.Mark? && op.live ==>
                 forall i :: 0 <= i < |d.text| && Covers(op.segs, i) && !d.live[i] ==> QuoteAt(op.segs, i) == d.text[i])
    ensures Quotes(op, d.text) ==> Show(d, op) == Apply(d, op)
  {
    if op.Mark? {
      if Quotes(op, d.text) {
        forall i: nat | i < |d.text| && Covers(op.segs, i) ensures QuoteAt(op.segs, i) == d.text[i] {
          QuoteIs(op.segs, d.text, i);
        }
      }
      assert Restored(d, op) == d.text <==> forall i :: 0 <= i < |d.text| ==> Restored(d, op)[i] == d.text[i];
    }
  }

  // ---------------------------------------------------------------- several operations

  /** Whether operations can be applied does not depend on the characters. */
  lemma {:induction false} RunOnSameLength(d: Doc, e: Doc, ops: seq<Op>)
    requires Coherent(d) && Coherent(e) && |d.text| == |e.text| && ValidRun(ops, d)
    ensures ValidRun(ops, e)
    ensures |Replay(d, ops).text| == |Replay(e, ops).text|
    ensures d.live == e.live ==> Replay(d, ops).live == Replay(e, ops).live
    decreases |ops|
  {
    if ops != [] { RunOnSameLength(Apply(d, ops[0]), Apply(e, ops[0]), ops[1..]); }
  }

  /** What is shown after several operations. */
  function ShowAll(d: Doc, ops: seq<Op>): (r: Doc)
    requires Coherent(d) && ValidRun(ops, d)
    ensures Coherent(r)
    decreases |ops|
  {
    if ops == [] then d
    else
      RunOnSameLength(Apply(d, ops[0]), Show(d, ops[0]), ops[1..]);
      ShowAll(Show(d, ops[0]), ops[1..])
  }

  /** It has the liveness of the document, and is the document if all operations quote the
      text they mark. */
  lemma {:induction false} ShowAllIs(d: Doc, ops: seq<Op>)
    requires Coherent(d) && ValidRun(ops, d)
    ensures ShowAll(d, ops).live == Replay(d, ops).live && |ShowAll(d, ops).text| == |Replay(d, ops).text|
    ensures QuotingRun(ops, d) ==> ShowAll(d, ops) == Replay(d, ops)
    decreases |ops|
  {
    hide Restored, Quotes;
    if ops != [] {
      var e, f := Apply(d, ops[0]), Show(d, ops[0]);
      ShowIff(d, ops[0]);
      RunOnSameLength(e, f, ops[1..]);
      ShowAllIs(f, ops[1..]);
    }
  }

  /** Operations that revive nothing show the document as it is. */
  lemma {:induction false} ShownPlainly(d: Doc, ops: seq<Op>)
    requires Coherent(d) && ValidRun(ops, d) && forall i :: 0 <= i < |ops| ==> ops[i].Mark? ==> !ops[i].live
    ensures ShowAll(d, ops) == Replay(d, ops)
    decreases |ops|
  {
    if ops != [] {
      assert Restored(d, ops[0]) == d.text;
      ShownPlainly(Apply(d, ops[0]), ops[1..]);
    }
  }

  lemma {:induction false} QuoteIs(segs: seq<Seg>, text: string, i: nat)
    requires AllMatch(segs, text) && Covers(segs, i) && i < |text|
    ensures QuoteAt(segs, i) == text[i]
    decreases |segs|
  {
    var n := |segs| - 1;
    if In(segs[n], i) {
      assert SegMatches(segs[n], text);
      assert segs[n].text[i - segs[n].pos] == text[segs[n].pos..segs[n].End()][i - segs[n].pos];
    } else {
      CoversInit(segs, i);
      QuoteIs(segs[..n], text, i);
    }
  }

  lemma CoversInit(segs: seq<Seg>, i: nat)
    requires Covers(segs, i) && !In(segs[|segs| - 1], i)
    ensures Covers(segs[..|segs| - 1], i)
  {
    var k :| 0 <= k < |segs| && In(segs[k], i);
    assert In(segs[..|segs| - 1][k], i);
  }

  // ---------------------------------------------------------------- the edits of a mark

  lemma {:induction false} QuoteOf(segs: seq<Seg>, k: nat, i: nat)
    requires Shape(segs) && k < |segs| && In(segs[k], i)
    ensures Covers(segs, i) && QuoteAt(segs, i) == segs[k].text[i - segs[k].pos]
    decreases |segs|
  {
    var n := |segs| - 1;
    if k < n {
      assert !In(segs[n], i);
      assert segs[..n][k] == segs[k];
      QuoteOf(segs[..n], k, i);
    }
  }

  /** Every mark quotes the text that is overlaid with what it quotes. */
  lemma OverlaidMatches(text: string, segs: seq<Seg>)
    requires Shape(segs) && SegsFit(segs, |text|)
    ensures AllMatch(segs, Overlaid(text, segs, CoveredBy(segs, |text|)))
  {
    var r := Overlaid(text, segs, CoveredBy(segs, |text|));
    forall k | 0 <= k < |segs| ensures SegMatches(segs[k], r) {
      var seg := segs[k];
      forall j | 0 <= j < |seg.text| ensures r[seg.pos..seg.End()][j] == seg.text[j] {
        QuoteOf(segs, k, seg.pos + j);
      }
      assert r[seg.pos..seg.End()] == seg.text;
    }
  }

  /** Dead text does not show. */
  lemma {:induction false} VisibleAgree(t1: string, t2: string, flags: seq<bool>)
    requires |t1| == |t2| == |flags| && forall i :: 0 <= i < |flags| && flags[i] ==> t1[i] == t2[i]
    ensures Visible(t1, flags) == Visible(t2, flags)
    decreases |flags|
  {
    if flags != [] {
      var n := |flags| - 1;
      VisibleAgree(t1[..n], t2[..n], flags[..n]);
    }
  }

  /** A deletion does not look at what it deletes. */
  lemma {:induction false} DeletionIgnoresContent(buffer: string, edits: seq<Edit>, other: seq<Edit>)
    requires |edits| == |other|
    requires forall k :: 0 <= k < |edits| ==> edits[k].pos == other[k].pos && |edits[k].content| == |other[k].content|
    ensures ApplyEdits(buffer, edits, false) == ApplyEdits(buffer, other, false)
    decreases |edits|
  {
    if edits != [] {
      var n := |edits| - 1;
      assert ApplyEdit(buffer, edits[n], false) == ApplyEdit(buffer, other[n], false);
      if ApplyEdit(buffer, edits[n], false).Some? {
        DeletionIgnoresContent(ApplyEdit(buffer, edits[n], false).value, edits[..n], other[..n]);
      }
    }
  }

  /** The same runs, with edits for another text that agrees on them. */
  lemma SegRunsFor(t1: string, t2: string, flags: seq<bool>, segs: seq<Seg>, v: bool, runs: seq<Run>, edits: seq<Edit>)
    requires |t1| == |t2| == |flags| && SegRuns(t1, flags, segs, v, runs, edits)
    requires forall i :: 0 <= i < |flags| && Covers(segs, i) && flags[i] == v ==> t1[i] == t2[i]
    ensures SegRuns(t2, flags, segs, v, runs, edits)
  {
    hide Count, Covers, Hits, OrderedRuns;
    forall k | 0 <= k < |runs| ensures EditFor(t2, flags, runs[k], edits[k]) {
      RunIsHit(flags, v, runs, k);
      assert EditFor(t1, flags, runs[k], edits[k]);
      assert t1[runs[k].0..RunEnd(runs[k])] == t2[runs[k].0..RunEnd(runs[k])];
    }
  }

  lemma RunIsHit(flags: seq<bool>, v: bool, runs: seq<Run>, k: nat)
    requires OrderedRuns(flags, v, runs) && k < |runs|
    ensures RunEnd(runs[k]) <= |flags| && forall i :: runs[k].0 <= i < RunEnd(runs[k]) ==> Hits(runs, i)
  {
    forall i | runs[k].0 <= i < RunEnd(runs[k]) ensures Hits(runs, i) { assert InRun(runs[k], i); }
  }

  function Requoted(text: string, runs: seq<Run>, edits: seq<Edit>): (r: seq<Edit>)
    requires |runs| == |edits| && forall k :: 0 <= k < |runs| ==> runs[k].0 <= RunEnd(runs[k]) <= |text|
    ensures |r| == |edits| && forall k :: 0 <= k < |r| ==> r[k] == Edit(edits[k].pos, text[runs[k].0..RunEnd(runs[k])])
  {
    seq(|edits|, k requires 0 <= k < |edits| => Edit(edits[k].pos, text[runs[k].0..RunEnd(runs[k])]))
  }

  /** Where a mark quotes the text, the deletions computed for it name what the editor shows. */
  lemma DeletionsAreSeen(d: Doc, op: Op, runs: seq<Run>, edits: seq<Edit>)
    requires Coherent(d) && op.Mark? && !op.live && ValidOn(op, d.text) && Quotes(op, d.text)
    requires SegRuns(Overlaid(d.text, op.segs, CoveredBy(op.segs, |d.text|)), d.live, op.segs, true, runs, edits)
    ensures AsSeen(edits, View(d))
  {
    hide Visible, QuoteAt;
    var quoted := Overlaid(d.text, op.segs, CoveredBy(op.segs, |d.text|));
    forall i | 0 <= i < |quoted| ensures quoted[i] == d.text[i] {
      if Covers(op.segs, i) {
        var k :| 0 <= k < |op.segs| && In(op.segs[k], i);
        QuoteOf(op.segs, k, i);
        assert SegMatches(op.segs[k], d.text);
        assert d.text[op.segs[k].pos..op.segs[k].End()][i - op.segs[k].pos] == d.text[i];
      }
    }
    assert quoted == d.text;
    LiveRunsAreSeen(d.text, d.live, runs, edits);
  }

  /** The edits computed for a mark, from what it quotes, take what is visible to what is
      shown after the mark. */
  lemma MarkShows(d: Doc, op: Op, runs: seq<Run>, edits: seq<Edit>)
    requires Coherent(d) && op.Mark? && ValidOn(op, d.text)
    requires SegRuns(Overlaid(d.text, op.segs, CoveredBy(op.segs, |d.text|)), d.live, op.segs, !op.live, runs, edits)
    ensures ApplyEdits(View(d), edits, op.live) == Some(View(Show(d, op)))
  {
    hide Visible, SegRuns, QuoteAt;
    var quoted := Overlaid(d.text, op.segs, CoveredBy(op.segs, |d.text|));
    if op.live {
      var restored := Restored(d, op);
      SegRunsFor(quoted, restored, d.live, op.segs, false, runs, edits);
      SegRunsFlip(restored, d.live, op.segs, true, runs, edits);
      VisibleAgree(d.text, restored, d.live);
    } else {
      RequotedRuns(quoted, d.text, d.live, op.segs, runs, edits);
      SegRunsFlip(d.text, d.live, op.segs, false, runs, Requoted(d.text, runs, edits));
      DeletionIgnoresContent(View(d), edits, Requoted(d.text, runs, edits));
      assert Restored(d, op) == d.text;
    }
  }

  lemma RequotedRuns(t1: string, t2: string, flags: seq<bool>, segs: seq<Seg>, runs: seq<Run>, edits: seq<Edit>)
    requires |t1| == |t2| == |flags| && SegRuns(t1, flags, segs, true, runs, edits)
    ensures |runs| == |edits| && forall k :: 0 <= k < |runs| ==> runs[k].0 <= RunEnd(runs[k]) <= |t2|
    ensures SegRuns(t2, flags, segs, true, runs, Requoted(t2, runs, edits))
    ensures forall k :: 0 <= k < |edits| ==> |edits[k].content| == |Requoted(t2, runs, edits)[k].content|
  {
    hide Count, Hits, Covers;
    forall k | 0 <= k < |runs| ensures EditFor(t2, flags, runs[k], Requoted(t2, runs, edits)[k]) {
      assert EditFor(t1, flags, runs[k], edits[k]);
    }
    forall k | 0 <= k < |edits| ensures |edits[k].content| == |Requoted(t2, runs, edits)[k].content| {
      assert EditFor(t1, flags, runs[k], edits[k]);
    }
  }
}
