/** Why linear undo restores text. A history with an undo queue is layered when there is,
    for every point of the queue, a liveness of the present characters such that the
    operation undoing (or redoing) an entry leads exactly from one layer to the next. */
module Layers {
  import opened Ops
  import opened Documents
  import opened Marks
  import opened Transformation
  import opened Ranges
  import opened Runs
  import opened Views
  import opened Tracking

  /** Marking by `u` leads from one side to the other, and marking the opposite leads back. */
  predicate Link(lo: seq<bool>, hi: seq<bool>, u: Op, isDone: bool) {
    && u.Mark?
    && var (from, to) := if isDone then (hi, lo) else (lo, hi);
    && SetLive(from, u.segs, u.live) == to
    && SetLive(to, u.segs, !u.live) == from
  }

  /** `layers[i]` is the liveness when the first `i` entries of the queue are done. */
  ghost predicate Layered(start: Doc, ops: seq<Op>, queue: seq<nat>, done: nat, layers: seq<seq<bool>>) {
    && Coherent(start) && ValidRun(ops, start)
    && |layers| == |queue| + 1 && done <= |queue|
    && (forall i :: 0 <= i < |queue| ==> 1 <= queue[i] <= |ops|)
    && (forall j :: 0 <= j < |layers| ==> |layers[j]| == |Replay(start, ops).text|)
    && layers[done] == Replay(start, ops).live
    && (forall i :: 0 <= i < |queue| ==> Link(layers[i], layers[i + 1], Undoing(ops, queue[i] - 1), i < done))
  }

  lemma UndoingAfter(ops: seq<Op>, k: nat, e: Op)
    requires k < |ops|
    ensures Undoing(ops + [e], k) == Transform(Undoing(ops, k), e)
  {
    assert (ops + [e])[k + 1..] == ops[k + 1..] + [e];
    BatchSnoc(Inverse(ops[k]), ops[k + 1..], e);
  }

  lemma UndoingLast(ops: seq<Op>, e: Op)
    ensures Undoing(ops + [e], |ops|) == Inverse(e)
  {
    assert (ops + [e])[|ops| + 1..] == [];
  }

  /** Undoing the last done entry, or redoing the first undone one. */
  lemma Reverse(start: Doc, ops: seq<Op>, queue: seq<nat>, done: nat, layers: seq<seq<bool>>, i: nat)
    requires Layered(start, ops, queue, done, layers) && i < |queue| && (i + 1 == done || i == done)
    ensures var u := Undoing(ops, queue[i] - 1);
            && ValidOn(u, Replay(start, ops).text) && ValidRun(ops + [u], start)
            && Replay(start, ops + [u]).text == Replay(start, ops).text
            && Layered(start, ops + [u], queue[i := |ops| + 1], if i < done then i else i + 1, layers)
  {
    hide ValidRun, Replay, Batch, Undoing, SetLive, Apply;
    var u := Undoing(ops, queue[i] - 1);
    UndoTargeting(start, ops, queue[i] - 1);
    ReplaySnoc(start, ops, u);
    ApplyMark(Replay(start, ops), u);
    var queue' := queue[i := |ops| + 1];
    var done' := if i < done then i else i + 1;
    forall j | 0 <= j < |queue'|
      ensures Link(layers[j], layers[j + 1], Undoing(ops + [u], queue'[j] - 1), j < done')
    {
      if j == i {
        UndoingLast(ops, u);
      } else {
        UndoingAfter(ops, queue[j] - 1, u);
      }
    }
  }

  lemma ApplyMark(d: Doc, u: Op)
    requires Coherent(d) && u.Mark? && Fits(u, |d.text|)
    ensures Apply(d, u) == Doc(d.text, SetLive(d.live, u.segs, u.live))
  {}

  // ---------------------------------------------------------------- edits

  /** A layer on the document after `e`: inserted characters are dead in old layers. */
  function Lift(layer: seq<bool>, e: Op): seq<bool>
    requires e.Ins? ==> e.seg.pos <= |layer|
  {
    if e.Ins? then Insert(layer, e.seg.pos, Repeat(false, |e.seg.text|)) else layer
  }

  lemma LiftSetLive(layer: seq<bool>, m: Op, live: bool, e: Op)
    requires m.Mark? && (e.Ins? ==> e.seg.pos <= |layer|)
    ensures Transform(m, e).Mark?
    ensures SetLive(Lift(layer, e), Transform(m, e).segs, live) == Lift(SetLive(layer, m.segs, live), e)
  {
    if e.Ins? {
      var segs' := TransformSegs(m.segs, e.seg, m.site, e.site);
      forall i | 0 <= i < |layer| + |e.seg.text|
        ensures SetLive(Lift(layer, e), segs', live)[i] == Lift(SetLive(layer, m.segs, live), e)[i]
      {
        TransformSegsCovers(m.segs, e.seg, m.site, e.site, i);
      }
    }
  }

  lemma LiftLink(lo: seq<bool>, hi: seq<bool>, u: Op, isDone: bool, e: Op)
    requires Link(lo, hi, u, isDone) && |lo| == |hi| && (e.Ins? ==> e.seg.pos <= |lo|)
    ensures Link(Lift(lo, e), Lift(hi, e), Transform(u, e), isDone)
  {
    var (from, to) := if isDone then (hi, lo) else (lo, hi);
    LiftSetLive(from, u, u.live, e);
    LiftSetLive(to, u, !u.live, e);
  }

  lemma LiftVisible(text: string, layer: seq<bool>, e: Op)
    requires |text| == |layer| && (e.Ins? ==> e.seg.pos <= |text|)
    ensures |TextAfter(text, e)| == |Lift(layer, e)|
    ensures Visible(TextAfter(text, e), Lift(layer, e)) == Visible(text, layer)
  {
    if e.Ins? { VisibleInsertDead(text, layer, e.seg.pos, e.seg.text); }
  }

  /** An original edit: an insertion, or a deletion of live characters. */
  predicate OriginalEdit(d: Doc, e: Op)
    requires Coherent(d)
  {
    ValidOn(e, d.text) && (e.Mark? ==> !e.live && forall i :: 0 <= i < |d.live| && Covers(e.segs, i) ==> d.live[i])
  }

  /** Undoing an edit right away, and redoing it, are exact. */
  lemma NewLink(d: Doc, e: Op)
    requires Coherent(d) && OriginalEdit(d, e)
    ensures Fits(e, |d.text|) && Link(Lift(d.live, e), Apply(d, e).live, Inverse(e), true)
  {
    ValidFits(e, d.text);
    if e.Ins? {
      var segs, lifted, after := [e.seg], Lift(d.live, e), Apply(d, e).live;
      forall i | 0 <= i < |after| ensures Covers(segs, i) <==> In(e.seg, i) {
        if In(e.seg, i) { assert In(segs[0], i); }
      }
      assert SetLive(after, segs, false) == lifted;
      assert SetLive(lifted, segs, true) == after;
    } else {
      assert SetLive(SetLive(d.live, e.segs, false), e.segs, true) == d.live;
      assert SetLive(d.live, e.segs, false) == Apply(d, e).live;
    }
  }

  function LiftAll(layers: seq<seq<bool>>, n: nat, e: Op): (r: seq<seq<bool>>)
    requires n <= |layers| && forall j :: 0 <= j < n ==> e.Ins? ==> e.seg.pos <= |layers[j]|
    ensures |r| == n && forall j :: 0 <= j < n ==> r[j] == Lift(layers[j], e)
  {
    seq(n, j requires 0 <= j < n => Lift(layers[j], e))
  }

  function Edited(layers: seq<seq<bool>>, done: nat, e: Op, after: Doc): seq<seq<bool>>
    requires done < |layers| && forall j :: 0 <= j <= done ==> e.Ins? ==> e.seg.pos <= |layers[j]|
  {
    LiftAll(layers, done + 1, e) + [after.live]
  }

  /** An original edit drops the undone entries and adds a layer on top. */
  lemma EditLayers(start: Doc, ops: seq<Op>, queue: seq<nat>, done: nat, layers: seq<seq<bool>>, e: Op)
    requires Layered(start, ops, queue, done, layers) && OriginalEdit(Replay(start, ops), e)
    ensures ValidRun(ops + [e], start)
    ensures var after := Replay(start, ops + [e]);
            Layered(start, ops + [e], queue[..done] + [|ops| + 1], done + 1, Edited(layers, done, e, after))
  {
    hide ValidRun, Replay, Batch, Undoing, SetLive, Link, Lift;
    var d := Replay(start, ops);
    ReplaySnoc(start, ops, e);
    var after := Replay(start, ops + [e]);
    AfterLen(d, e);
    var layers', queue' := Edited(layers, done, e, after), queue[..done] + [|ops| + 1];
    forall j | 0 <= j < |layers'| ensures |layers'[j]| == |after.text| { if j <= done { LiftLen(layers[j], e); } }
    forall i | 0 <= i < |queue'|
      ensures Link(layers'[i], layers'[i + 1], Undoing(ops + [e], queue'[i] - 1), i < done + 1)
    {
      if i == done {
        UndoingLast(ops, e);
        NewLink(d, e);
      } else {
        UndoingAfter(ops, queue[i] - 1, e);
        LiftLink(layers[i], layers[i + 1], Undoing(ops, queue[i] - 1), i < done, e);
      }
    }
  }

  lemma AfterLen(d: Doc, e: Op)
    requires Coherent(d) && ValidOn(e, d.text)
    ensures Fits(e, |d.text|) && |Apply(d, e).text| == |d.text| + if e.Ins? then |e.seg.text| else 0
    ensures Apply(d, e).text == TextAfter(d.text, e)
  {
    ValidFits(e, d.text);
  }

  lemma LiftLen(layer: seq<bool>, e: Op)
    requires e.Ins? ==> e.seg.pos <= |layer|
    ensures |Lift(layer, e)| == |layer| + if e.Ins? then |e.seg.text| else 0
  {}
}
