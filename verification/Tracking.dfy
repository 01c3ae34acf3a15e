/** Following characters through a history: where they are later, and that the operation
    generated to undo an earlier one names exactly the characters it touched. */
module Tracking {
  import opened Ops
  import opened Documents
  import opened Marks
  import opened Transformation

  /** Where the character at `p` is after `op`. */
  function TrackOne(p: nat, op: Op): nat {
    if op.Ins? && op.seg.pos <= p then p + |op.seg.text| else p
  }

  function Track(p: nat, ops: seq<Op>): nat
    decreases |ops|
  {
    if ops == [] then p else Track(TrackOne(p, ops[0]), ops[1..])
  }

  /** The characters that `op` inserted or marked, where they are right after it. */
  predicate Touches(op: Op, p: nat) {
    if op.Ins? then In(op.seg, p) else Covers(op.segs, p)
  }

  /** Tracking follows identity: the character found there is the same one, and distinct
      characters stay distinct and in order. */
  lemma {:induction false} TrackFollows(d: Doc, ops: seq<Op>, p: nat)
    requires Coherent(d) && ValidRun(ops, d) && p < |d.text|
    ensures Track(p, ops) < |Replay(d, ops).text| && Replay(d, ops).text[Track(p, ops)] == d.text[p]
    decreases |ops|
  {
    if ops != [] {
      ValidFits(ops[0], d.text);
      TrackFollows(Apply(d, ops[0]), ops[1..], TrackOne(p, ops[0]));
    }
  }

  lemma {:induction false} TrackKeepsOrder(ops: seq<Op>, p: nat, q: nat)
    requires p < q
    ensures Track(p, ops) < Track(q, ops)
    decreases |ops|
  {
    if ops != [] { TrackKeepsOrder(ops[1..], TrackOne(p, ops[0]), TrackOne(q, ops[0])); }
  }

  /** `q` is where some character with property `Covers(segs, ·)` has gone. */
  predicate TrackedFrom(segs: seq<Seg>, ops: seq<Op>, q: nat) {
    exists p: nat :: p <= q && Covers(segs, p) && Track(p, ops) == q
  }

  lemma {:induction false} TrackGrows(ops: seq<Op>, p: nat)
    ensures p <= Track(p, ops)
    decreases |ops|
  {
    if ops != [] { TrackGrows(ops[1..], TrackOne(p, ops[0])); }
  }

  lemma TransformTracks(m: Op, op: Op, q: nat)
    requires m.Mark?
    ensures Transform(m, op).Mark?
    ensures Covers(Transform(m, op).segs, q) <==> exists p: nat :: p <= q && Covers(m.segs, p) && TrackOne(p, op) == q
  {
    if op.Ins? {
      TransformSegsCovers(m.segs, op.seg, m.site, op.site, q);
      if q < op.seg.pos {
        assert TrackOne(q, op) == q;
      } else if op.seg.End() <= q {
        assert TrackOne(q - |op.seg.text|, op) == q;
      }
    } else {
      assert TrackOne(q, op) == q;
    }
  }

  /** A mark carried over a list of operations covers exactly the tracked characters. */
  lemma {:induction false} BatchTracks(m: Op, ops: seq<Op>, q: nat)
    requires m.Mark?
    ensures Batch(m, ops).Mark? && Batch(m, ops).live == m.live && Batch(m, ops).site == m.site
    ensures Covers(Batch(m, ops).segs, q) <==> TrackedFrom(m.segs, ops, q)
    decreases |ops|
  {
    if ops == [] {
      assert Track(q, []) == q;
      if Covers(m.segs, q) { assert TrackedFrom(m.segs, ops, q); }
    } else {
      var m', rest := Transform(m, ops[0]), ops[1..];
      TransformTracks(m, ops[0], q);
      BatchTracks(m', rest, q);
      if TrackedFrom(m'.segs, rest, q) {
        var p': nat :| p' <= q && Covers(m'.segs, p') && Track(p', rest) == q;
        TransformTracks(m, ops[0], p');
        var p: nat :| p <= p' && Covers(m.segs, p) && TrackOne(p, ops[0]) == p';
        assert Track(p, ops) == q;
      }
      if TrackedFrom(m.segs, ops, q) {
        var p: nat :| p <= q && Covers(m.segs, p) && Track(p, ops) == q;
        TransformTracks(m, ops[0], TrackOne(p, ops[0]));
        TrackGrows(rest, TrackOne(p, ops[0]));
        assert TrackedFrom(m'.segs, rest, q);
      }
    }
  }

  /** The inverse of an operation can be applied right after it and covers what it touched;
      it quotes the text if the operation did. */
  lemma InverseIsValid(op: Op, d: Doc)
    requires Coherent(d) && ValidOn(op, d.text)
    ensures Fits(op, |d.text|) && ValidOn(Inverse(op), Apply(d, op).text)
    ensures Quotes(op, d.text) ==> Quotes(Inverse(op), Apply(d, op).text)
    ensures forall p: nat :: Covers(Inverse(op).segs, p) <==> Touches(op, p)
  {
    ValidFits(op, d.text);
    if op.Ins? {
      var segs := Inverse(op).segs;
      assert segs == [op.seg];
      forall p: nat ensures Covers(segs, p) <==> In(op.seg, p) {
        if In(op.seg, p) { assert In(segs[0], p); }
      }
    }
  }

  lemma {:induction false} BatchKeepsValid(op: Op, d: Doc, ops: seq<Op>)
    requires Coherent(d) && ValidOn(op, d.text) && ValidRun(ops, d)
    ensures ValidOn(Batch(op, ops), Replay(d, ops).text)
    decreases |ops|
  {
    if ops != [] {
      TransformKeepsValid(op, ops[0], d.text);
      ValidFits(ops[0], d.text);
      BatchKeepsValid(Transform(op, ops[0]), Apply(d, ops[0]), ops[1..]);
    }
  }

  /** Through any list of operations a mark keeps proper segments in bounds, conserves the
      text it quotes, still quotes the document if it did, and depends on no site. */
  lemma {:induction false} BatchKeepsMark(m: Op, d: Doc, ops: seq<Op>, site: SiteId)
    requires m.Mark? && Coherent(d) && ValidOn(m, d.text) && ValidRun(ops, d)
    ensures Batch(m, ops).Mark? && ValidOn(Batch(m, ops), Replay(d, ops).text)
    ensures Quotes(m, d.text) ==> Quotes(Batch(m, ops), Replay(d, ops).text)
    ensures Quoted(Batch(m, ops).segs) == Quoted(m.segs)
    ensures Batch(Mark(m.segs, m.live, site), ops) == Mark(Batch(m, ops).segs, m.live, site)
    decreases |ops|
  {
    if ops != [] {
      hide Quoted, TransformSegs, AllMatch;
      var op := ops[0];
      TransformKeepsValid(m, op, d.text);
      if Quotes(m, d.text) { TransformKeepsQuotes(m, op, d.text); }
      if op.Ins? {
        TransformKeepsShape(m.segs, op.seg, m.site, op.site, |d.text|);
        SitesDoNotMatter(m.segs, op.seg, m.site, op.site, site, op.site);
      }
      BatchKeepsMark(Transform(m, op), Apply(d, op), ops[1..], site);
    }
  }

  /** How much a list of operations inserts. */
  function Inserted(ops: seq<Op>): nat {
    if ops == [] then 0 else (if ops[0].Ins? then |ops[0].seg.text| else 0) + Inserted(ops[1..])
  }

  lemma {:induction false} ReplayLength(d: Doc, ops: seq<Op>)
    requires Coherent(d) && ValidRun(ops, d)
    ensures |Replay(d, ops).text| == |d.text| + Inserted(ops)
    decreases |ops|
  {
    if ops != [] { ReplayLength(Apply(d, ops[0]), ops[1..]); }
  }

  /** Wherever a list of operations inserts, a mark stays in bounds. */
  lemma {:induction false} BatchStaysInBounds(m: Op, len: nat, ops: seq<Op>)
    requires m.Mark? && Shape(m.segs) && SegsFit(m.segs, len)
    ensures var u := Batch(m, ops);
            u.Mark? && u.live == m.live && u.site == m.site && Shape(u.segs) && SegsFit(u.segs, len + Inserted(ops))
    decreases |ops|
  {
    if ops != [] {
      var op := ops[0];
      if op.Ins? { TransformKeepsShape(m.segs, op.seg, m.site, op.site, len); }
      BatchStaysInBounds(Transform(m, op), len + if op.Ins? then |op.seg.text| else 0, ops[1..]);
    }
  }

  /** The operation that undoes the `k`-th operation of a history at its end. */
  function Undoing(history: seq<Op>, k: nat): Op
    requires k < |history|
  {
    Batch(Inverse(history[k]), history[k + 1..])
  }

  /** The `k`-th operation of a history can be applied where it stands. */
  lemma OpInHistory(start: Doc, history: seq<Op>, k: nat)
    requires Coherent(start) && ValidRun(history, start) && k < |history|
    ensures ValidRun(history[..k], start) && ValidOn(history[k], Replay(start, history[..k]).text)
    ensures Fits(history[k], |Replay(start, history[..k]).text|)
    ensures ValidRun(history[k + 1..], Apply(Replay(start, history[..k]), history[k]))
    ensures Replay(Apply(Replay(start, history[..k]), history[k]), history[k + 1..]) == Replay(start, history)
  {
    PrefixRun(start, history, k);
    var d := Replay(start, history[..k]);
    assert history[k..][0] == history[k] && history[k..][1..] == history[k + 1..];
    ValidFits(history[k], d.text);
  }

  /** Undo targeting: over any history that replays, whoever made the later operations,
      the undoing operation is valid at the end and marks exactly the characters that the
      `k`-th operation inserted or marked, in the opposite sense. */
  lemma UndoTargeting(start: Doc, history: seq<Op>, k: nat)
    requires Coherent(start) && ValidRun(history, start) && k < |history|
    ensures var u := Undoing(history, k);
            && u.Mark? && u.site == history[k].site
            && u.live == (history[k].Mark? && !history[k].live)
            && ValidOn(u, Replay(start, history).text)
            && forall q: nat :: Covers(u.segs, q) <==> Reached(history[k], history[k + 1..], q)
  {
    hide ValidRun, Replay, Apply, Batch, Track, Covers;
    OpInHistory(start, history, k);
    var d, op, rest := Replay(start, history[..k]), history[k], history[k + 1..];
    InverseIsValid(op, d);
    BatchKeepsValid(Inverse(op), Apply(d, op), rest);
    BatchTracks(Inverse(op), rest, 0);
    forall q: nat ensures Covers(Batch(Inverse(op), rest).segs, q) <==> Reached(op, rest, q) {
      BatchTracks(Inverse(op), rest, q);
    }
  }

  /** `q` is where some character that `op` touched is after `later`. */
  predicate Reached(op: Op, later: seq<Op>, q: nat) {
    exists p: nat :: p <= q && Touches(op, p) && Track(p, later) == q
  }

  /** And it quotes the text it marks if the `k`-th operation did. */
  lemma UndoQuotes(start: Doc, history: seq<Op>, k: nat)
    requires Coherent(start) && ValidRun(history, start) && k < |history|
    requires (PrefixRun(start, history, k); Quotes(history[k], Replay(start, history[..k]).text))
    ensures Quotes(Undoing(history, k), Replay(start, history).text)
  {
    hide ValidRun, Replay, Apply, Batch, Quotes;
    OpInHistory(start, history, k);
    var d, op, rest := Replay(start, history[..k]), history[k], history[k + 1..];
    InverseIsValid(op, d);
    BatchKeepsMark(Inverse(op), Apply(d, op), rest, op.site);
  }

  // ---------------------------------------------------------------- where targeting ends

  /** What a client keeps of an operation in its history: the operation itself, or for an
      insertion of another site that arrived in front of pending operations the copy
      transformed for its own document, further right. Marks move nothing. */
  predicate CopyOf(kept: Op, original: Op) {
    || kept == original
    || (kept.Mark? && original.Mark? && kept.site == original.site)
    || (kept.Ins? && original.Ins? && kept.site == original.site
        && kept.seg.text == original.seg.text && original.seg.pos <= kept.seg.pos)
  }

  predicate CopiesOf(kept: seq<Op>, originals: seq<Op>) {
    |kept| == |originals| && forall i :: 0 <= i < |kept| ==> CopyOf(kept[i], originals[i])
  }

  /** Carried over the copies, the character at `p` is lost track of: when it comes to
      some insertion, it is between the original's position and the copy's. */
  predicate Misled(p: nat, kept: seq<Op>, originals: seq<Op>)
    requires |kept| == |originals|
  {
    exists i :: 0 <= i < |kept| && MisledAt(p, kept, originals, i)
  }

  predicate MisledAt(p: nat, kept: seq<Op>, originals: seq<Op>, i: nat)
    requires i < |kept| == |originals|
  {
    && kept[i].Ins? && originals[i].Ins?
    && originals[i].seg.pos <= Track(p, originals[..i]) < kept[i].seg.pos
  }

  predicate NoEmptyInsertions(ops: seq<Op>) { forall i :: 0 <= i < |ops| && ops[i].Ins? ==> ops[i].seg.text != "" }

  /** Copies never carry a character further than the originals do. */
  lemma {:induction false} CopiesLagBehind(p: nat, q: nat, kept: seq<Op>, originals: seq<Op>)
    requires p <= q && CopiesOf(kept, originals)
    ensures Track(p, kept) <= Track(q, originals) && (p < q ==> Track(p, kept) < Track(q, originals))
    decreases |kept|
  {
    if kept != [] {
      assert CopyOf(kept[0], originals[0]);
      CopiesLagBehind(TrackOne(p, kept[0]), TrackOne(q, originals[0]), kept[1..], originals[1..]);
    }
  }

  lemma {:induction false} CopiesTrackIff(p: nat, kept: seq<Op>, originals: seq<Op>)
    requires CopiesOf(kept, originals) && NoEmptyInsertions(originals)
    ensures Track(p, kept) == Track(p, originals) <==> !Misled(p, kept, originals)
    decreases |kept|
  {
    if kept != [] {
      var k, o := kept[0], originals[0];
      assert CopyOf(k, o);
      var p1, q1 := TrackOne(p, k), TrackOne(p, o);
      assert originals[..0] == [];
      if MisledAt(p, kept, originals, 0) {
        CopiesLagBehind(p1, q1, kept[1..], originals[1..]);
      } else {
        assert p1 == q1;
        CopiesTrackIff(p1, kept[1..], originals[1..]);
        MisledLater(p, kept, originals);
      }
    }
  }

  lemma MisledLater(p: nat, kept: seq<Op>, originals: seq<Op>)
    requires |kept| == |originals| && kept != [] && !MisledAt(p, kept, originals, 0)
    ensures Misled(p, kept, originals) <==> Misled(TrackOne(p, originals[0]), kept[1..], originals[1..])
  {
    var p1 := TrackOne(p, originals[0]);
    forall i | 1 <= i < |kept| ensures MisledAt(p, kept, originals, i) <==> MisledAt(p1, kept[1..], originals[1..], i - 1) {
      assert originals[..i][0] == originals[0] && originals[..i][1..] == originals[1..][..i - 1];
    }
    if i :| 0 <= i < |kept| && MisledAt(p, kept, originals, i) {
      assert MisledAt(p1, kept[1..], originals[1..], i - 1);
    }
    if i :| 0 <= i < |kept| - 1 && MisledAt(p1, kept[1..], originals[1..], i) {
      assert MisledAt(p, kept, originals, i + 1);
    }
  }

  /** A mark carried over the copies that a client kept covers the same characters as one
      carried over the originals exactly when no character it covers is misled. */
  lemma CopiesTargetIff(m: Op, kept: seq<Op>, originals: seq<Op>)
    requires m.Mark? && CopiesOf(kept, originals) && NoEmptyInsertions(originals)
    ensures Batch(m, kept).Mark? && Batch(m, originals).Mark?
    ensures (forall q: nat :: Covers(Batch(m, kept).segs, q) <==> Covers(Batch(m, originals).segs, q))
        <==> (forall p: nat :: Covers(m.segs, p) ==> !Misled(p, kept, originals))
  {
    hide Covers, Batch, Misled, Track;
    BatchTracks(m, kept, 0);
    BatchTracks(m, originals, 0);
    if p: nat :| Covers(m.segs, p) && Misled(p, kept, originals) {
      var first := FirstMisled(m.segs, kept, originals);
      NotAmongOriginals(m, kept, originals, first);
    } else {
      forall q: nat ensures Covers(Batch(m, kept).segs, q) <==> Covers(Batch(m, originals).segs, q) {
        SameTracks(m, kept, originals, q);
      }
    }
  }

  lemma SameTracks(m: Op, kept: seq<Op>, originals: seq<Op>, q: nat)
    requires m.Mark? && CopiesOf(kept, originals) && NoEmptyInsertions(originals)
    requires forall p: nat :: Covers(m.segs, p) ==> !Misled(p, kept, originals)
    ensures Batch(m, kept).Mark? && Batch(m, originals).Mark?
    ensures Covers(Batch(m, kept).segs, q) <==> Covers(Batch(m, originals).segs, q)
  {
    hide Covers, Batch, Misled, Track;
    BatchTracks(m, kept, q);
    BatchTracks(m, originals, q);
    forall p: nat | Covers(m.segs, p) ensures Track(p, kept) == Track(p, originals) { CopiesTrackIff(p, kept, originals); }
  }

  /** The leftmost covered character that is misled ends where no covered character should be. */
  lemma NotAmongOriginals(m: Op, kept: seq<Op>, originals: seq<Op>, p: nat)
    requires m.Mark? && CopiesOf(kept, originals) && NoEmptyInsertions(originals)
    requires Covers(m.segs, p) && Misled(p, kept, originals)
    requires forall r: nat :: r < p && Covers(m.segs, r) ==> !Misled(r, kept, originals)
    ensures Batch(m, kept).Mark? && Batch(m, originals).Mark?
    ensures Covers(Batch(m, kept).segs, Track(p, kept)) && !Covers(Batch(m, originals).segs, Track(p, kept))
  {
    hide Covers, Batch, Misled, Track;
    var q := Track(p, kept);
    BatchTracks(m, kept, q);
    BatchTracks(m, originals, q);
    TrackGrows(kept, p);
    CopiesTrackIff(p, kept, originals);
    CopiesLagBehind(p, p, kept, originals);
    forall r: nat | Covers(m.segs, r) ensures Track(r, originals) != q {
      if r < p {
        CopiesTrackIff(r, kept, originals);
        TrackKeepsOrder(kept, r, p);
      } else if p < r {
        TrackKeepsOrder(originals, p, r);
      }
    }
  }

  lemma FirstMisled(segs: seq<Seg>, kept: seq<Op>, originals: seq<Op>) returns (p: nat)
    requires |kept| == |originals| && exists p: nat :: Covers(segs, p) && Misled(p, kept, originals)
    ensures Covers(segs, p) && Misled(p, kept, originals)
    ensures forall r: nat :: r < p && Covers(segs, r) ==> !Misled(r, kept, originals)
  {
    hide Covers, Misled;
    var bound: nat :| Covers(segs, bound) && Misled(bound, kept, originals);
    p := 0;
    while !(Covers(segs, p) && Misled(p, kept, originals))
      invariant p <= bound && forall r: nat :: r < p && Covers(segs, r) ==> !Misled(r, kept, originals)
      decreases bound - p
    {
      p := p + 1;
    }
  }

  lemma {:induction false} BatchMovesRight(op: Op, ops: seq<Op>)
    requires op.Ins?
    ensures Batch(op, ops).Ins? && Batch(op, ops).seg.text == op.seg.text && op.seg.pos <= Batch(op, ops).seg.pos
    ensures Batch(op, ops).site == op.site
    decreases |ops|
  {
    if ops != [] { BatchMovesRight(Transform(op, ops[0]), ops[1..]); }
  }

  /** What a client keeps of another site's operation is a copy of it. */
  lemma BatchIsCopy(op: Op, pending: seq<Op>)
    ensures CopyOf(Batch(op, pending), op)
  {
    if op.Ins? { BatchMovesRight(op, pending); } else { BatchTracks(op, pending, 0); }
  }
}
