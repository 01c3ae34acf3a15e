/** What transformation promises: two concurrent operations can be applied in either
    order (TP1), for single operations exactly when they are compatible, and then for
    lists of operations. */
module Transformation {
  import opened Ops
  import opened Documents

  // ---------------------------------------------------------------- marks under insertions

  lemma CoversAppend(a: seq<Seg>, b: seq<Seg>, i: int)
    ensures Covers(a + b, i) <==> Covers(a, i) || Covers(b, i)
  {
    if k :| 0 <= k < |a| && In(a[k], i) { assert In((a + b)[k], i); }
    if k :| 0 <= k < |b| && In(b[k], i) { assert In((a + b)[|a| + k], i); }
  }

  lemma TransformDICovers(seg: Seg, base: Seg, opSite: SiteId, baseSite: SiteId, i: int)
    ensures Covers(TransformDI(seg, base, opSite, baseSite), i)
        <==> (i < base.pos && In(seg, i)) || (base.End() <= i && In(seg, i - |base.text|))
  {
    var r := TransformDI(seg, base, opSite, baseSite);
    if |r| > 0 && In(r[0], i) { assert Covers(r, i); }
    if |r| > 1 && In(r[1], i) { assert Covers(r, i); }
  }

  /** A transformed mark covers the same characters at their new positions, and none
      of the inserted ones, whatever the sites are. */
  lemma {:induction false} TransformSegsCovers(segs: seq<Seg>, base: Seg, opSite: SiteId, baseSite: SiteId, i: int)
    ensures Covers(TransformSegs(segs, base, opSite, baseSite), i)
        <==> (i < base.pos && Covers(segs, i)) || (base.End() <= i && Covers(segs, i - |base.text|))
    decreases |segs|
  {
    if segs != [] {
      var n := |segs| - 1;
      TransformSegsCovers(segs[..n], base, opSite, baseSite, i);
      TransformDICovers(segs[n], base, opSite, baseSite, i);
      CoversAppend(TransformSegs(segs[..n], base, opSite, baseSite), TransformDI(segs[n], base, opSite, baseSite), i);
      assert segs == segs[..n] + [segs[n]];
      CoversAppend(segs[..n], [segs[n]], i);
      CoversAppend(segs[..n], [segs[n]], i - |base.text|);
      assert forall j :: Covers([segs[n]], j) <==> In([segs[n]][0], j);
    }
  }

  lemma {:induction false} TransformSegsFits(segs: seq<Seg>, base: Seg, opSite: SiteId, baseSite: SiteId, len: nat)
    requires SegsFit(segs, len)
    ensures SegsFit(TransformSegs(segs, base, opSite, baseSite), len + |base.text|)
    decreases |segs|
  {
    if segs != [] {
      var n := |segs| - 1;
      TransformSegsFits(segs[..n], base, opSite, baseSite, len);
      assert SegsFit(TransformDI(segs[n], base, opSite, baseSite), len + |base.text|);
    }
  }

  lemma TransformFits(op: Op, base: Op, len: nat)
    requires Fits(op, len) && Fits(base, len)
    ensures Fits(Transform(op, base), len + if base.Ins? then |base.seg.text| else 0)
  {
    if op.Mark? && base.Ins? { TransformSegsFits(op.segs, base.seg, op.site, base.site, len); }
  }

  // ---------------------------------------------------------------- TP1 for two operations

  predicate Overlap(a: seq<Seg>, b: seq<Seg>) {
    exists j, k :: 0 <= j < |a| && 0 <= k < |b| && Meet(a[j], b[k])
  }

  predicate Meet(s: Seg, t: Seg) {
    s.text != "" && t.text != "" && s.pos < t.End() && t.pos < s.End()
  }

  /** The condition under which two concurrent operations can be reordered: two
      insertions at one position need distinct sites (or texts whose order does not
      show), and two overlapping marks must agree on liveness. */
  predicate Compatible(a: Op, b: Op) {
    match (a, b)
    case (Ins(s, siteA), Ins(t, siteB)) => s.pos != t.pos || siteA != siteB || s.text + t.text == t.text + s.text
    case (Mark(s, liveA, _), Mark(t, liveB, _)) => liveA == liveB || !Overlap(s, t)
    case _ => true
  }

  /** Both ways around the square: `a` then the transformed `b`, and `b` then the
      transformed `a`. */
  function ViaFirst(d: Doc, a: Op, b: Op): Doc
    requires Coherent(d) && Fits(a, |d.text|) && Fits(b, |d.text|)
  {
    TransformFits(b, a, |d.text|);
    Apply(Apply(d, a), Transform(b, a))
  }

  lemma InsertSwap<T>(s: seq<T>, p: nat, t: seq<T>, q: nat, u: seq<T>)
    requires p <= q <= |s|
    ensures Insert(Insert(s, p, t), q + |t|, u) == Insert(Insert(s, q, u), p, t)
  {
    var x, y := Insert(s, p, t), Insert(s, q, u);
    assert x[..q + |t|] == s[..p] + t + s[p..q];
    assert x[q + |t|..] == s[q..];
    assert y[..p] == s[..p] && y[p..] == s[p..q] + u + s[q..];
  }

  lemma Tp1SameSite<T>(s: seq<T>, p: nat, t: seq<T>, u: seq<T>)
    requires p <= |s|
    ensures Insert(Insert(s, p, t), p + |t|, u) == Insert(Insert(s, p, u), p + |u|, t) <==> t + u == u + t
  {
    var x, y := Insert(s, p, t), Insert(s, p, u);
    assert x[..p + |t|] == s[..p] + t && x[p + |t|..] == s[p..];
    assert y[..p + |u|] == s[..p] + u && y[p + |u|..] == s[p..];
    var l, r := s[..p] + t + u + s[p..], s[..p] + u + t + s[p..];
    assert Insert(x, p + |t|, u) == l && Insert(y, p + |u|, t) == r;
    assert l[p..p + |t| + |u|] == t + u && r[p..p + |t| + |u|] == u + t;
    if t + u == u + t {
      assert l == s[..p] + (t + u) + s[p..] && r == s[..p] + (u + t) + s[p..];
    }
  }

  /** The two orders of inserting `t` at `a` and `u` at `b`, at the positions that
      transformation gives. */
  lemma InsertBothWays<T>(s: seq<T>, a: Seg, siteA: SiteId, t: seq<T>, b: Seg, siteB: SiteId, u: seq<T>)
    requires a.pos <= |s| && b.pos <= |s| && |t| == |a.text| && |u| == |b.text|
    ensures Insert(Insert(s, a.pos, t), TransformII(b, a, siteB, siteA).pos, u)
         == Insert(Insert(s, b.pos, u), TransformII(a, b, siteA, siteB).pos, t)
        <==> a.pos != b.pos || siteA != siteB || t + u == u + t
  {
    if PosLessThan(a.pos, b.pos, siteA, siteB) {
      InsertSwap(s, a.pos, t, b.pos, u);
    } else if PosLessThan(b.pos, a.pos, siteB, siteA) {
      InsertSwap(s, b.pos, u, a.pos, t);
    } else {
      Tp1SameSite(s, a.pos, t, u);
    }
  }

  lemma Tp1InsIns(d: Doc, a: Op, b: Op)
    requires Coherent(d) && Fits(a, |d.text|) && Fits(b, |d.text|) && a.Ins? && b.Ins?
    ensures ViaFirst(d, a, b) == ViaFirst(d, b, a) <==> Compatible(a, b)
  {
    var lt, lu := Repeat(true, |a.seg.text|), Repeat(true, |b.seg.text|);
    assert lt + lu == lu + lt;
    InsertBothWays(d.text, a.seg, a.site, a.seg.text, b.seg, b.site, b.seg.text);
    InsertBothWays(d.live, a.seg, a.site, lt, b.seg, b.site, lu);
  }

  /** Of two insertions at different places each comes where its site put it. */
  lemma InsertionsApart(d: Doc, a: Op, b: Op)
    requires Coherent(d) && a.Ins? && b.Ins? && a.seg.pos < b.seg.pos <= |d.text|
    ensures Fits(a, |d.text|) && Fits(b, |d.text|)
    ensures var p, q := a.seg.pos, b.seg.pos;
            ViaFirst(d, a, b).text == ViaFirst(d, b, a).text
              == d.text[..p] + a.seg.text + d.text[p..q] + b.seg.text + d.text[q..]
  {
    var p, q, t, u := a.seg.pos, b.seg.pos, a.seg.text, b.seg.text;
    InsertSwap(d.text, p, t, q, u);
    var x := Insert(d.text, p, t);
    assert x[..q + |t|] == d.text[..p] + t + d.text[p..q] && x[q + |t|..] == d.text[q..];
    assert ViaFirst(d, a, b).text == Insert(x, q + |t|, u);
    assert ViaFirst(d, b, a).text == Insert(Insert(d.text, q, u), p, t);
  }

  /** Of two insertions at one place the one of the smaller site comes first, whichever is
      sequenced first. */
  lemma SmallerSiteFirst(d: Doc, a: Op, b: Op)
    requires Coherent(d) && a.Ins? && b.Ins? && a.seg.pos == b.seg.pos <= |d.text| && a.site < b.site
    ensures Fits(a, |d.text|) && Fits(b, |d.text|)
    ensures var p := a.seg.pos;
            ViaFirst(d, a, b).text == ViaFirst(d, b, a).text == d.text[..p] + a.seg.text + b.seg.text + d.text[p..]
  {
    var p, t, u := a.seg.pos, a.seg.text, b.seg.text;
    var x, y := Insert(d.text, p, t), Insert(d.text, p, u);
    assert x[..p + |t|] == d.text[..p] + t && x[p + |t|..] == d.text[p..];
    assert y[..p] == d.text[..p] && y[p..] == u + d.text[p..];
    assert d.text[..p] + t + (u + d.text[p..]) == d.text[..p] + t + u + d.text[p..];
    assert ViaFirst(d, a, b).text == Insert(x, p + |t|, u);
    assert ViaFirst(d, b, a).text == Insert(y, p, t);
  }

  lemma Tp1InsMark(d: Doc, a: Op, b: Op)
    requires Coherent(d) && Fits(a, |d.text|) && Fits(b, |d.text|) && a.Ins? && b.Mark?
    ensures ViaFirst(d, a, b) == ViaFirst(d, b, a)
  {
    var x, y := ViaFirst(d, a, b), ViaFirst(d, b, a);
    forall i | 0 <= i < |x.live| ensures x.live[i] == y.live[i] {
      TransformSegsCovers(b.segs, a.seg, b.site, a.site, i);
    }
    assert x.live == y.live;
  }

  lemma MeetCovers(s: seq<Seg>, t: seq<Seg>)
    ensures Overlap(s, t) <==> exists i: nat :: Covers(s, i) && Covers(t, i)
  {
    if j, k :| 0 <= j < |s| && 0 <= k < |t| && Meet(s[j], t[k]) {
      var i := if s[j].pos < t[k].pos then t[k].pos else s[j].pos;
      assert In(s[j], i) && In(t[k], i);
      assert Covers(s, i) && Covers(t, i);
    }
    if i: nat :| Covers(s, i) && Covers(t, i) {
      var j :| 0 <= j < |s| && In(s[j], i);
      var k :| 0 <= k < |t| && In(t[k], i);
      assert Meet(s[j], t[k]);
    }
  }

  lemma Tp1MarkMark(d: Doc, a: Op, b: Op)
    requires Coherent(d) && Fits(a, |d.text|) && Fits(b, |d.text|) && a.Mark? && b.Mark?
    ensures ViaFirst(d, a, b) == ViaFirst(d, b, a) <==> Compatible(a, b)
  {
    var x, y := ViaFirst(d, a, b), ViaFirst(d, b, a);
    MeetCovers(a.segs, b.segs);
    if Compatible(a, b) {
      assert x.live == y.live;
    } else {
      var i: nat :| Covers(a.segs, i) && Covers(b.segs, i);
      assert x.live[i] == b.live && y.live[i] == a.live;
    }
  }

  /** TP1, exactly: on every document, two operations give the same result in both
      orders if and only if they are compatible. */
  lemma Tp1(d: Doc, a: Op, b: Op)
    requires Coherent(d) && Fits(a, |d.text|) && Fits(b, |d.text|)
    ensures ViaFirst(d, a, b) == ViaFirst(d, b, a) <==> Compatible(a, b)
  {
    match (a, b)
    case (Ins(_, _), Ins(_, _)) => Tp1InsIns(d, a, b);
    case (Ins(_, _), Mark(_, _, _)) => Tp1InsMark(d, a, b);
    case (Mark(_, _, _), Ins(_, _)) => Tp1InsMark(d, b, a);
    case (Mark(_, _, _), Mark(_, _, _)) => Tp1MarkMark(d, a, b);
  }

  lemma TransformOneSeg(seg: Seg, base: Seg, opSite: SiteId, baseSite: SiteId)
    ensures TransformSegs([seg], base, opSite, baseSite) == TransformDI(seg, base, opSite, baseSite)
  {
    assert [seg][..0] == [] && TransformSegs([], base, opSite, baseSite) == [];
  }

  /** A nonempty segment that is not split stays or moves as a whole, whatever the sites. */
  lemma WholeSeg(seg: Seg, base: Seg, opSite: SiteId, baseSite: SiteId)
    requires seg.text != ""
    ensures seg.End() <= base.pos ==> TransformDI(seg, base, opSite, baseSite) == [seg]
    ensures base.pos <= seg.pos ==> TransformDI(seg, base, opSite, baseSite) == [Seg(seg.pos + |base.text|, seg.text)]
  {
    if seg.End() == base.pos { assert seg.text[..|seg.text|] == seg.text; }
    if base.pos == seg.pos { assert seg.text[0..] == seg.text; }
  }

  lemma InverseCommutesIns(a: Seg, siteA: SiteId, b: Seg, siteB: SiteId)
    requires a.text != "" && b.text != ""
    ensures TransformDI(a, TransformII(b, a, siteB, siteA), siteA, siteB) == [TransformII(a, b, siteA, siteB)]
        <==> !(a.pos == b.pos && siteA == siteB)
  {
    hide TransformDI;
    WholeSeg(a, TransformII(b, a, siteB, siteA), siteA, siteB);
    assert [TransformII(a, b, siteA, siteB)][0] == TransformII(a, b, siteA, siteB);
  }

  /** IP3: the inverse of a transformed operation is the transformed inverse, except
      for two insertions by one site at one position. */
  lemma InverseCommutes(a: Op, b: Op)
    requires a.Ins? ==> a.seg.text != ""
    requires b.Ins? ==> b.seg.text != ""
    ensures Transform(Inverse(a), Transform(b, a)) == Inverse(Transform(a, b))
        <==> !(a.Ins? && b.Ins? && a.seg.pos == b.seg.pos && a.site == b.site)
  {
    hide TransformDI, TransformII, TransformSegs;
    if a.Ins? && b.Ins? {
      TransformOneSeg(a.seg, TransformII(b.seg, a.seg, b.site, a.site), a.site, b.site);
      InverseCommutesIns(a.seg, a.site, b.seg, b.site);
    }
  }
}
