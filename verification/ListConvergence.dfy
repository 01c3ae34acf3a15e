/** TP1 for a list against a list. Every character is followed through both orders; they
    agree on its liveness exactly when the last marks from the two sides do not conflict. */
module ListConvergence {
  import opened Ops
  import opened Documents
  import opened Marks
  import opened Transformation
  import opened Tracking
  import opened Convergence

  /** The two lists against each other, up to liveness. */
  lemma {:induction false} TextListAgainstList(d: Doc, bases: seq<Op>, ops: seq<Op>)
    requires Coherent(d) && ValidRun(bases, d) && ValidRun(ops, d) && AllForeign(bases, ops)
    ensures ValidRun(RebaseOver(ops, bases), Replay(d, bases))
    ensures ValidRun(RebaseOver(bases, ops), Replay(d, ops))
    ensures SameDoc(Replay(Replay(d, bases), RebaseOver(ops, bases)),
                    Replay(Replay(d, ops), RebaseOver(bases, ops)), false)
    decreases |bases|
  {
    if bases == [] {
      assert RebaseOver(ops, bases) == ops;
      RebaseOverEmpty(ops);
    } else {
      hide Harmless;
      var b, rest := bases[0], bases[1..];
      var ops' := Rebase(ops, b);
      OneAgainstList(d, b, ops);
      RebaseKeepsForeign(rest, b, ops);
      TextListAgainstList(Apply(d, b), rest, ops');
      var b', rest' := Batch(b, ops), RebaseOver(rest, ops');
      var x, y := Replay(Apply(d, b), ops'), Apply(Replay(d, ops), b');
      RunOnSameDoc(x, y, rest', false);
      FirstRebased(bases, ops);
      ConsRun(Replay(d, ops), b', rest');
    }
  }

  lemma {:induction false} RebaseOverEmpty(ops: seq<Op>)
    ensures RebaseOver([], ops) == []
  {}

  lemma FirstRebased(bases: seq<Op>, ops: seq<Op>)
    requires bases != []
    ensures RebaseOver(bases, ops) == [Batch(bases[0], ops)] + RebaseOver(bases[1..], Rebase(ops, bases[0]))
  {
    assert bases == [bases[0]] + bases[1..];
    RebaseOverCons(bases[0], bases[1..], ops);
  }

  lemma ConsRun(d: Doc, op: Op, rest: seq<Op>)
    requires Coherent(d) && ValidOn(op, d.text) && ValidRun(rest, Apply(d, op))
    ensures ValidRun([op] + rest, d) && Replay(d, [op] + rest) == Replay(Apply(d, op), rest)
  {
    assert ([op] + rest)[0] == op && ([op] + rest)[1..] == rest;
  }

  // ---------------------------------------------------------------- one character, both ways

  /** Both ways around a square of operations lead a character to one place. */
  lemma TrackSquare(p: nat, a: Op, b: Op)
    requires a.site != b.site
    ensures TrackOne(TrackOne(p, a), Transform(b, a)) == TrackOne(TrackOne(p, b), Transform(a, b))
  {}

  lemma {:induction false} TrackRebased(p: nat, b: Op, ops: seq<Op>)
    requires Foreign(b, ops)
    ensures Track(TrackOne(p, b), Rebase(ops, b)) == TrackOne(Track(p, ops), Batch(b, ops))
    decreases |ops|
  {
    if ops != [] {
      var o, b' := ops[0], Transform(b, ops[0]);
      TrackSquare(p, b, o);
      assert forall i :: 0 <= i < |ops| - 1 ==> ops[1..][i] == ops[i + 1];
      TrackRebased(TrackOne(p, o), b', ops[1..]);
    }
  }

  /** Where a character is after both lists. */
  lemma {:induction false} TrackBothWays(p: nat, bases: seq<Op>, ops: seq<Op>)
    requires AllForeign(bases, ops)
    ensures Track(Track(p, bases), RebaseOver(ops, bases)) == Track(Track(p, ops), RebaseOver(bases, ops))
    decreases |bases|
  {
    if bases == [] {
      RebaseOverEmpty(ops);
    } else {
      var b, rest := bases[0], bases[1..];
      var b', rest' := Batch(b, ops), RebaseOver(rest, Rebase(ops, b));
      RebaseKeepsForeign(rest, b, ops);
      TrackBothWays(TrackOne(p, b), rest, Rebase(ops, b));
      TrackRebased(p, b, ops);
      FirstRebased(bases, ops);
      assert ([b'] + rest')[0] == b' && ([b'] + rest')[1..] == rest';
    }
  }

  /** A mark covers a character before a concurrent operation exactly when, transformed, it
      covers it after. */
  lemma CoverageMoves(m: Op, b: Op, p: nat)
    requires m.Mark?
    ensures Transform(m, b).Mark? && Transform(m, b).live == m.live
    ensures Covers(Transform(m, b).segs, TrackOne(p, b)) <==> Covers(m.segs, p)
  {
    TransformTracks(m, b, TrackOne(p, b));
    TrackGrows([b], p);
  }

  lemma {:induction false} LastMarkRebased(p: nat, b: Op, ops: seq<Op>)
    requires Foreign(b, ops)
    ensures LastMark(TrackOne(p, b), Rebase(ops, b)) == LastMark(p, ops)
    decreases |ops|
  {
    if ops != [] {
      var o := ops[0];
      assert forall i :: 0 <= i < |ops| - 1 ==> ops[1..][i] == ops[i + 1];
      TrackSquare(p, b, o);
      LastMarkRebased(TrackOne(p, o), Transform(b, o), ops[1..]);
      if o.Mark? { CoverageMoves(o, b, p); }
    }
  }

  /** The last mark that a list makes on a character stays the last one when the list is
      rebased. */
  lemma {:induction false} LastMarkBothWays(p: nat, bases: seq<Op>, ops: seq<Op>)
    requires AllForeign(bases, ops)
    ensures LastMark(Track(p, bases), RebaseOver(ops, bases)) == LastMark(p, ops)
    decreases |bases|
  {
    if bases != [] {
      RebaseKeepsForeign(bases[1..], bases[0], ops);
      LastMarkRebased(p, bases[0], ops);
      LastMarkBothWays(TrackOne(p, bases[0]), bases[1..], Rebase(ops, bases[0]));
    }
  }

  /** A character that `b` inserts is where the transformed `b` inserts it, and concurrent
      operations do not mark it. */
  lemma {:induction false} NewcomerRebased(q: nat, b: Op, ops: seq<Op>)
    requires b.Ins? && In(b.seg, q) && Foreign(b, ops)
    ensures LastMark(q, Rebase(ops, b)) == None
    ensures Batch(b, ops).Ins? && In(Batch(b, ops).seg, Track(q, Rebase(ops, b)))
    decreases |ops|
  {
    if ops != [] {
      var o := ops[0];
      var o', b' := Transform(o, b), Transform(b, o);
      assert forall i :: 0 <= i < |ops| - 1 ==> ops[1..][i] == ops[i + 1];
      NewcomerRebased(TrackOne(q, o'), b', ops[1..]);
      if o.Mark? { TransformSegsCovers(o.segs, b.seg, o.site, b.site, q); }
    }
  }

  // ---------------------------------------------------------------- both orders

  /** No character gets opposite last marks from the two sides. */
  ghost predicate NoConflict(d: Doc, bases: seq<Op>, ops: seq<Op>) {
    forall p: nat :: p < |d.text| ==> !Conflict(p, bases, ops)
  }

  predicate Conflict(p: nat, bases: seq<Op>, ops: seq<Op>) {
    LastMark(p, bases).Some? && LastMark(p, ops).Some? && LastMark(p, bases) != LastMark(p, ops)
  }

  /** A character of the document: the orders disagree exactly on a conflict. */
  lemma OldCharacter(d: Doc, bases: seq<Op>, ops: seq<Op>, p: nat)
    requires Coherent(d) && ValidRun(bases, d) && ValidRun(ops, d) && AllForeign(bases, ops) && p < |d.text|
    requires ValidRun(RebaseOver(ops, bases), Replay(d, bases)) && ValidRun(RebaseOver(bases, ops), Replay(d, ops))
    ensures var x, y := Replay(Replay(d, bases), RebaseOver(ops, bases)), Replay(Replay(d, ops), RebaseOver(bases, ops));
            var q := Track(Track(p, bases), RebaseOver(ops, bases));
            q < |x.live| && q < |y.live| && (x.live[q] != y.live[q] <==> Conflict(p, bases, ops))
  {
    hide ValidRun, Replay, Track, LastMark, RebaseOver;
    TrackBothWays(p, bases, ops);
    LastMarkBothWays(p, bases, ops);
    LastMarkBothWays(p, ops, bases);
    LastMarkDecides(d, bases, p);
    LastMarkDecides(d, ops, p);
    LastMarkDecides(Replay(d, bases), RebaseOver(ops, bases), Track(p, bases));
    LastMarkDecides(Replay(d, ops), RebaseOver(bases, ops), Track(p, ops));
  }

  /** One operation against a list: what differs comes from the document. */
  lemma OneStepDifference(d: Doc, b: Op, ops: seq<Op>, z: nat) returns (p: nat)
    requires Coherent(d) && ValidOn(b, d.text) && ValidRun(ops, d) && Foreign(b, ops)
    requires ValidRun(Rebase(ops, b), Apply(d, b)) && ValidOn(Batch(b, ops), Replay(d, ops).text)
    requires var x, y := Replay(Apply(d, b), Rebase(ops, b)), Apply(Replay(d, ops), Batch(b, ops));
             z < |x.live| == |y.live| && x.live[z] != y.live[z]
    ensures p < |d.text| && Track(TrackOne(p, b), Rebase(ops, b)) == z
  {
    hide ValidRun, Replay, Track, Harmless;
    OneAgainstList(d, b, ops);
    if b.Ins? {
      InsertionIsHarmless(b, ops);
      assert false;
    } else {
      RebaseOverMark(ops, b);
      BatchTracks(b, ops, 0);
      if Replay(d, ops).live[z] != Replay(Apply(d, b), ops).live[z] {
        p := DifferenceTracks(d, Apply(d, b), ops, z);
      } else {
        p := CarriedFrom(d, b, ops, z);
      }
    }
  }

  /** A character inserted by the first of `bases`. */
  lemma Newcomer(d: Doc, bases: seq<Op>, ops: seq<Op>, p1: nat)
    requires Coherent(d) && ValidRun(bases, d) && ValidRun(ops, d) && AllForeign(bases, ops)
    requires bases != [] && bases[0].Ins? && In(bases[0].seg, p1)
    requires ValidRun(RebaseOver(ops, bases), Replay(d, bases)) && ValidRun(RebaseOver(bases, ops), Replay(d, ops))
    ensures var x, y := Replay(Replay(d, bases), RebaseOver(ops, bases)), Replay(Replay(d, ops), RebaseOver(bases, ops));
            var q := Track(Track(p1, bases[1..]), RebaseOver(ops, bases));
            q < |x.live| && q < |y.live| && x.live[q] == y.live[q]
  {
    var b, rest := bases[0], bases[1..];
    var ops1, b' := Rebase(ops, b), Batch(b, ops);
    var rest' := RebaseOver(rest, ops1);
    RebaseKeepsForeign(rest, b, ops);
    assert RebaseOver(ops, bases) == RebaseOver(ops1, rest);
    NewcomerRebased(p1, b, ops);
    FirstRebased(bases, ops);
    assert ([b'] + rest')[0] == b' && ([b'] + rest')[1..] == rest';
    var e, z := Apply(d, b), Track(p1, ops1);
    var f := Replay(d, ops);
    assert ValidOn(b', f.text) && ValidRun(rest', Apply(f, b'));
    assert e.live[p1] && Apply(f, b').live[z];
    assert Replay(d, bases) == Replay(e, rest) && Replay(f, RebaseOver(bases, ops)) == Replay(Apply(f, b'), rest');
    hide ValidRun, Replay, Track, LastMark, RebaseOver, Rebase, Batch, Apply;
    TrackBothWays(p1, rest, ops1);
    LastMarkBothWays(p1, rest, ops1);
    LastMarkBothWays(p1, ops1, rest);
    LastMarkDecides(e, rest, p1);
    LastMarkDecides(Replay(e, rest), RebaseOver(ops1, rest), Track(p1, rest));
    LastMarkDecides(Apply(f, b'), rest', z);
  }

  /** Where the orders disagree there is a character of the document. */
  lemma {:induction false} DisagreementIsOld(d: Doc, bases: seq<Op>, ops: seq<Op>, q: nat) returns (p: nat)
    requires Coherent(d) && ValidRun(bases, d) && ValidRun(ops, d) && AllForeign(bases, ops)
    requires ValidRun(RebaseOver(ops, bases), Replay(d, bases)) && ValidRun(RebaseOver(bases, ops), Replay(d, ops))
    requires var x, y := Replay(Replay(d, bases), RebaseOver(ops, bases)), Replay(Replay(d, ops), RebaseOver(bases, ops));
             q < |x.live| == |y.live| && x.live[q] != y.live[q]
    ensures p < |d.text| && Track(Track(p, bases), RebaseOver(ops, bases)) == q
    decreases |bases|
  {
    if bases == [] {
      RebaseOverEmpty(ops);
      assert false;
    } else {
      var b, rest := bases[0], bases[1..];
      var ops1, b' := Rebase(ops, b), Batch(b, ops);
      var rest' := RebaseOver(rest, ops1);
      OneAgainstList(d, b, ops);
      RebaseKeepsForeign(rest, b, ops);
      TextListAgainstList(Apply(d, b), rest, ops1);
      FirstRebased(bases, ops);
      ConsRun(Replay(d, ops), b', rest');
      var x, y := Replay(Apply(d, b), ops1), Apply(Replay(d, ops), b');
      RunOnSameText(x, y, rest');
      hide ValidRun, Replay, Track, Harmless, RebaseOver, Rebase;
      if Replay(Replay(d, bases), RebaseOver(ops, bases)).live[q] != Replay(x, rest').live[q] {
        var p1 := DisagreementIsOld(Apply(d, b), rest, ops1, q);
        p := BeforeFirst(d, bases, ops, p1, q);
      } else {
        var z := DifferenceTracks(x, y, rest', q);
        p := OneStepDifference(d, b, ops, z);
        TrackBothWays(TrackOne(p, b), rest, ops1);
        TrackFirst(p, bases);
      }
    }
  }

  lemma TrackFirst(p: nat, ops: seq<Op>)
    requires ops != []
    ensures Track(p, ops) == Track(TrackOne(p, ops[0]), ops[1..])
  {}

  lemma BeforeFirst(d: Doc, bases: seq<Op>, ops: seq<Op>, p1: nat, q: nat) returns (p: nat)
    requires Coherent(d) && ValidRun(bases, d) && ValidRun(ops, d) && AllForeign(bases, ops) && bases != []
    requires ValidRun(RebaseOver(ops, bases), Replay(d, bases)) && ValidRun(RebaseOver(bases, ops), Replay(d, ops))
    requires var x, y := Replay(Replay(d, bases), RebaseOver(ops, bases)), Replay(Replay(d, ops), RebaseOver(bases, ops));
             q < |x.live| == |y.live| && x.live[q] != y.live[q]
    requires p1 < |Apply(d, bases[0]).text| && Track(Track(p1, bases[1..]), RebaseOver(ops, bases)) == q
    ensures p < |d.text| && Track(Track(p, bases), RebaseOver(ops, bases)) == q
  {
    var b := bases[0];
    if b.Ins? && In(b.seg, p1) {
      Newcomer(d, bases, ops, p1);
      assert false;
    } else {
      p := if b.Ins? && b.seg.End() <= p1 then p1 - |b.seg.text| else p1;
      TrackFirst(p, bases);
    }
  }

  /** TP1 for a list against a list: every operation can be applied where it comes, the text
      agrees, and liveness agrees exactly when the last marks do not conflict. */
  lemma ListAgainstList(d: Doc, bases: seq<Op>, ops: seq<Op>)
    requires Coherent(d) && ValidRun(bases, d) && ValidRun(ops, d) && AllForeign(bases, ops)
    ensures ValidRun(RebaseOver(ops, bases), Replay(d, bases))
    ensures ValidRun(RebaseOver(bases, ops), Replay(d, ops))
    ensures var x, y := Replay(Replay(d, bases), RebaseOver(ops, bases)), Replay(Replay(d, ops), RebaseOver(bases, ops));
            SameDoc(x, y, false) && (SameDoc(x, y, true) <==> NoConflict(d, bases, ops))
  {
    hide ValidRun, Replay, RebaseOver, Track, LastMark;
    TextListAgainstList(d, bases, ops);
    var x, y := Replay(Replay(d, bases), RebaseOver(ops, bases)), Replay(Replay(d, ops), RebaseOver(bases, ops));
    if p: nat :| p < |d.text| && Conflict(p, bases, ops) {
      OldCharacter(d, bases, ops, p);
    } else {
      forall q | 0 <= q < |x.live| ensures x.live[q] == y.live[q] {
        if x.live[q] != y.live[q] {
          var p := DisagreementIsOld(d, bases, ops, q);
          OldCharacter(d, bases, ops, p);
        }
      }
    }
  }
}
