/** TP1 for lists: one operation against a list, and a list against a list. The text always
    agrees; for liveness there are exact conditions. */
module Convergence {
  import opened Ops
  import opened Documents
  import opened Marks
  import opened Transformation
  import opened Tracking

  /** Operations of different sites. */
  predicate Foreign(a: Op, ops: seq<Op>) {
    forall i :: 0 <= i < |ops| ==> a.site != ops[i].site
  }

  /** Equal up to liveness, or equal altogether. */
  predicate SameDoc(d: Doc, e: Doc, withLiveness: bool) {
    d.text == e.text && |d.live| == |e.live| && (withLiveness ==> d.live == e.live)
  }

  lemma Tp1Square(d: Doc, a: Op, b: Op)
    requires Coherent(d) && ValidOn(a, d.text) && ValidOn(b, d.text) && a.site != b.site
    ensures Fits(a, |d.text|) && Fits(b, |d.text|)
    ensures ValidOn(Transform(b, a), Apply(d, a).text) && ValidOn(Transform(a, b), Apply(d, b).text)
    ensures SameDoc(ViaFirst(d, a, b), ViaFirst(d, b, a), Compatible(a, b))
  {
    ValidFits(a, d.text);
    ValidFits(b, d.text);
    TransformKeepsValid(a, b, d.text);
    TransformKeepsValid(b, a, d.text);
    Tp1(d, a, b);
  }

  /** Validity and the resulting text do not depend on liveness. */
  lemma {:induction false} RunOnSameText(d: Doc, e: Doc, ops: seq<Op>)
    requires Coherent(d) && Coherent(e) && d.text == e.text && ValidRun(ops, d)
    ensures ValidRun(ops, e) && Replay(d, ops).text == Replay(e, ops).text
    decreases |ops|
  {
    if ops != [] {
      ValidFits(ops[0], d.text);
      RunOnSameText(Apply(d, ops[0]), Apply(e, ops[0]), ops[1..]);
    }
  }

  lemma RunOnSameDoc(d: Doc, e: Doc, ops: seq<Op>, withLiveness: bool)
    requires Coherent(d) && Coherent(e) && SameDoc(d, e, withLiveness) && ValidRun(ops, d)
    ensures ValidRun(ops, e) && SameDoc(Replay(d, ops), Replay(e, ops), withLiveness)
  {
    RunOnSameText(d, e, ops);
  }

  /** TP1 for one operation against a list, with validity at every step, up to liveness;
      an insertion agrees altogether. */
  lemma {:induction false} TextAgainstList(d: Doc, a: Op, ops: seq<Op>)
    requires Coherent(d) && ValidOn(a, d.text) && ValidRun(ops, d) && Foreign(a, ops)
    ensures Fits(a, |d.text|)
    ensures ValidRun(Rebase(ops, a), Apply(d, a))
    ensures ValidOn(Batch(a, ops), Replay(d, ops).text)
    ensures Fits(Batch(a, ops), |Replay(d, ops).text|)
    ensures SameDoc(Replay(Apply(d, a), Rebase(ops, a)), Apply(Replay(d, ops), Batch(a, ops)), a.Ins?)
    decreases |ops|
  {
    ValidFits(a, d.text);
    if ops == [] {
      assert Rebase(ops, a) == [];
      assert Batch(a, ops) == a;
    } else {
      var b, rest := ops[0], ops[1..];
      var a', b' := Transform(a, b), Transform(b, a);
      Tp1Square(d, a, b);
      var e, e' := Apply(d, b), Apply(d, a);
      forall i | 0 <= i < |rest| ensures a'.site != rest[i].site { assert rest[i] == ops[i + 1]; }
      TextAgainstList(e, a', rest);
      var tail := Rebase(rest, a');
      RunOnSameDoc(Apply(e, a'), Apply(e', b'), tail, a.Ins?);
      assert Rebase(ops, a) == [b'] + tail;
      assert ([b'] + tail)[0] == b' && ([b'] + tail)[1..] == tail;
      assert ValidRun([b'] + tail, e');
      assert Replay(e', [b'] + tail) == Replay(Apply(e', b'), tail);
    }
  }

  // ---------------------------------------------------------------- liveness

  /** What the last mark among `ops` that covers the character at `p` makes of it. */
  function LastMark(p: nat, ops: seq<Op>): Option<bool>
    decreases |ops|
  {
    if ops == [] then None
    else
      var later := LastMark(TrackOne(p, ops[0]), ops[1..]);
      if later.Some? then later
      else if ops[0].Mark? && Covers(ops[0].segs, p) then Some(ops[0].live)
      else None
  }

  /** Every character that `a` marks has, after `ops`, no mark of theirs or one of the same
      liveness. */
  ghost predicate Harmless(a: Op, ops: seq<Op>) {
    a.Mark? ==> forall p: nat :: Covers(a.segs, p) ==> LastMark(p, ops) != Some(!a.live)
  }

  /** The liveness of a character is what the last mark on it says. */
  lemma {:induction false} LastMarkDecides(d: Doc, ops: seq<Op>, p: nat)
    requires Coherent(d) && ValidRun(ops, d) && p < |d.text|
    ensures Track(p, ops) < |Replay(d, ops).text|
    ensures Replay(d, ops).live[Track(p, ops)] == if LastMark(p, ops).Some? then LastMark(p, ops).value else d.live[p]
    decreases |ops|
  {
    if ops != [] {
      LastMarkDecides(Apply(d, ops[0]), ops[1..], TrackOne(p, ops[0]));
    }
  }

  lemma DifferenceBefore(d: Doc, e: Doc, op: Op, q: nat) returns (p: nat)
    requires Coherent(d) && Coherent(e) && d.text == e.text && ValidOn(op, d.text)
    requires q < |Apply(d, op).live| && Apply(d, op).live[q] != Apply(e, op).live[q]
    ensures p < |d.text| && d.live[p] != e.live[p] && TrackOne(p, op) == q
  {
    p := if op.Ins? && op.seg.End() <= q then q - |op.seg.text| else q;
  }

  /** Two documents with one text differ after a run only where they differed before. */
  lemma {:induction false} DifferenceTracks(d: Doc, e: Doc, ops: seq<Op>, q: nat) returns (p: nat)
    requires Coherent(d) && Coherent(e) && d.text == e.text && ValidRun(ops, d) && ValidRun(ops, e)
    requires |Replay(d, ops).live| == |Replay(e, ops).live|
    requires q < |Replay(d, ops).live| && Replay(d, ops).live[q] != Replay(e, ops).live[q]
    ensures p < |d.text| && d.live[p] != e.live[p] && Track(p, ops) == q
    decreases |ops|
  {
    if ops == [] {
      p := q;
    } else {
      var p1 := DifferenceTracks(Apply(d, ops[0]), Apply(e, ops[0]), ops[1..], q);
      p := DifferenceBefore(d, e, ops[0], p1);
    }
  }

  /** Marks move nothing, so a list rebased over a mark stays as it is. */
  lemma {:induction false} RebaseOverMark(ops: seq<Op>, m: Op)
    requires m.Mark?
    ensures Rebase(ops, m) == ops
    decreases |ops|
  {
    if ops != [] { RebaseOverMark(ops[1..], Transform(m, ops[0])); }
  }

  /** A mark before a list, or carried over it to its end: the same liveness exactly when
      it is harmless. */
  lemma MarkAgainstList(d: Doc, m: Op, ops: seq<Op>)
    requires m.Mark? && Coherent(d) && ValidOn(m, d.text) && ValidRun(ops, d) && ValidRun(ops, Apply(d, m))
    requires ValidOn(Batch(m, ops), Replay(d, ops).text)
    requires |Replay(Apply(d, m), ops).live| == |Replay(d, ops).live|
    ensures Replay(Apply(d, m), ops).live == Apply(Replay(d, ops), Batch(m, ops)).live <==> Harmless(m, ops)
  {
    hide ValidRun, Replay, Batch, Track, Covers, LastMark;
    var x, y := Replay(Apply(d, m), ops), Apply(Replay(d, ops), Batch(m, ops));
    BatchTracks(m, ops, 0);
    if p: nat :| Covers(m.segs, p) && LastMark(p, ops) == Some(!m.live) {
      CoveredInBounds(m, d.text, p);
      MarkSides(d, m, ops, p);
    } else {
      forall q | 0 <= q < |x.live| ensures x.live[q] == y.live[q] {
        if Replay(d, ops).live[q] != x.live[q] {
          var p := DifferenceTracks(d, Apply(d, m), ops, q);
          MarkSides(d, m, ops, p);
        } else if y.live[q] != Replay(d, ops).live[q] {
          var p := CarriedFrom(d, m, ops, q);
          MarkSides(d, m, ops, p);
        }
      }
    }
  }

  lemma CoveredInBounds(m: Op, text: string, p: nat)
    requires m.Mark? && ValidOn(m, text) && Covers(m.segs, p)
    ensures p < |text|
  {}

  /** What the two orders make of the character at `p`. */
  lemma MarkSides(d: Doc, m: Op, ops: seq<Op>, p: nat)
    requires m.Mark? && Coherent(d) && ValidOn(m, d.text) && ValidRun(ops, d) && ValidRun(ops, Apply(d, m)) && p < |d.text|
    requires ValidOn(Batch(m, ops), Replay(d, ops).text)
    ensures var q, x, y := Track(p, ops), Replay(Apply(d, m), ops), Apply(Replay(d, ops), Batch(m, ops));
            && q < |x.live| && q < |y.live|
            && (x.live[q] == y.live[q] <==> !(Covers(m.segs, p) && LastMark(p, ops) == Some(!m.live)))
  {
    hide ValidRun, Replay, Batch, Track, LastMark;
    var q := Track(p, ops);
    LastMarkDecides(d, ops, p);
    LastMarkDecides(Apply(d, m), ops, p);
    BatchTracks(m, ops, q);
    TrackGrows(ops, p);
    assert Covers(Batch(m, ops).segs, q) <==> Covers(m.segs, p) by {
      forall r: nat | r != p ensures Track(r, ops) != q {
        if r < p { TrackKeepsOrder(ops, r, p); } else { TrackKeepsOrder(ops, p, r); }
      }
    }
  }

  lemma CarriedFrom(d: Doc, m: Op, ops: seq<Op>, q: nat) returns (p: nat)
    requires m.Mark? && Coherent(d) && ValidOn(m, d.text) && ValidRun(ops, d)
    requires ValidOn(Batch(m, ops), Replay(d, ops).text)
    requires q < |Replay(d, ops).live| && Apply(Replay(d, ops), Batch(m, ops)).live[q] != Replay(d, ops).live[q]
    ensures p < |d.text| && Track(p, ops) == q
  {
    hide ValidRun, Replay, Batch, Track;
    BatchTracks(m, ops, q);
    assert Covers(Batch(m, ops).segs, q);
    p :| p <= q && Covers(m.segs, p) && Track(p, ops) == q;
  }

  /** TP1 for one operation against a list: every operation can be applied where it comes,
      the text agrees, and liveness agrees exactly when the operation is harmless. */
  lemma OneAgainstList(d: Doc, a: Op, ops: seq<Op>)
    requires Coherent(d) && ValidOn(a, d.text) && ValidRun(ops, d) && Foreign(a, ops)
    ensures Fits(a, |d.text|)
    ensures ValidRun(Rebase(ops, a), Apply(d, a))
    ensures ValidOn(Batch(a, ops), Replay(d, ops).text)
    ensures Fits(Batch(a, ops), |Replay(d, ops).text|)
    ensures var x, y := Replay(Apply(d, a), Rebase(ops, a)), Apply(Replay(d, ops), Batch(a, ops));
            SameDoc(x, y, false) && (SameDoc(x, y, true) <==> Harmless(a, ops))
  {
    hide ValidRun, Replay, Apply, Batch, Rebase, Harmless;
    TextAgainstList(d, a, ops);
    if a.Mark? {
      RebaseOverMark(ops, a);
      SameTextAfterMark(d, a, ops);
      MarkAgainstList(d, a, ops);
    } else {
      assert Harmless(a, ops) by { InsertionIsHarmless(a, ops); }
    }
  }

  lemma SameTextAfterMark(d: Doc, m: Op, ops: seq<Op>)
    requires m.Mark? && Coherent(d) && Fits(m, |d.text|) && ValidRun(ops, d)
    ensures ValidRun(ops, Apply(d, m)) && |Replay(Apply(d, m), ops).live| == |Replay(d, ops).live|
  {
    RunOnSameText(d, Apply(d, m), ops);
  }

  lemma InsertionIsHarmless(a: Op, ops: seq<Op>)
    requires a.Ins?
    ensures Harmless(a, ops)
  {}

  /** Pairwise compatibility along the list is enough. */
  predicate CompatibleAlong(a: Op, ops: seq<Op>)
    decreases |ops|
  {
    ops == [] || (Compatible(a, ops[0]) && CompatibleAlong(Transform(a, ops[0]), ops[1..]))
  }

  lemma {:induction false} CompatibleIsHarmless(a: Op, ops: seq<Op>)
    requires CompatibleAlong(a, ops)
    ensures Harmless(a, ops)
    decreases |ops|
  {
    if a.Mark? && ops != [] {
      var op := ops[0];
      TransformTracks(a, op, 0);
      CompatibleIsHarmless(Transform(a, op), ops[1..]);
      forall p: nat | Covers(a.segs, p) ensures LastMark(p, ops) != Some(!a.live) {
        TransformTracks(a, op, TrackOne(p, op));
        TrackGrows([op], p);
        if op.Mark? && Covers(op.segs, p) { BothCover(a.segs, op.segs, p); }
      }
    }
  }

  lemma BothCover(a: seq<Seg>, b: seq<Seg>, p: nat)
    requires Covers(a, p) && Covers(b, p)
    ensures Overlap(a, b)
  {
    var j :| 0 <= j < |a| && In(a[j], p);
    var k :| 0 <= k < |b| && In(b[k], p);
    assert Meet(a[j], b[k]);
  }

  /** No mark of the opposite liveness at all. */
  predicate Agrees(a: Op, ops: seq<Op>) {
    forall i :: 0 <= i < |ops| && a.Mark? && ops[i].Mark? ==> a.live == ops[i].live
  }

  lemma {:induction false} LastMarkIsAmong(p: nat, ops: seq<Op>)
    requires LastMark(p, ops).Some?
    ensures exists i :: 0 <= i < |ops| && ops[i].Mark? && ops[i].live == LastMark(p, ops).value
    decreases |ops|
  {
    if LastMark(TrackOne(p, ops[0]), ops[1..]).Some? {
      LastMarkIsAmong(TrackOne(p, ops[0]), ops[1..]);
      var i :| 0 <= i < |ops| - 1 && ops[1..][i].Mark? && ops[1..][i].live == LastMark(p, ops).value;
      assert ops[i + 1] == ops[1..][i];
    }
  }

  lemma AgreeingIsHarmless(a: Op, ops: seq<Op>)
    requires Agrees(a, ops)
    ensures Harmless(a, ops)
  {
    if a.Mark? {
      forall p: nat | Covers(a.segs, p) ensures LastMark(p, ops) != Some(!a.live) {
        if LastMark(p, ops).Some? { LastMarkIsAmong(p, ops); }
      }
    }
  }

  // ---------------------------------------------------------------- list against list

  predicate AllForeign(xs: seq<Op>, ys: seq<Op>) {
    forall i :: 0 <= i < |xs| ==> Foreign(xs[i], ys)
  }

  lemma RebaseKeepsForeign(xs: seq<Op>, a: Op, ys: seq<Op>)
    requires AllForeign(xs, ys)
    ensures AllForeign(xs, Rebase(ys, a))
  {
    RebaseKeepsMeta(ys, a);
    var r := Rebase(ys, a);
    forall i, j | 0 <= i < |xs| && 0 <= j < |ys| ensures xs[i].site != r[j].site {
      assert SameMeta(ys[j], r[j]);
    }
  }
}
