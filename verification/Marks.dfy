/** What transformation does to the segments of a mark: their shape, their text, and the
    fact that they keep quoting the document. */
module Marks {
  import opened Ops
  import opened Documents
  import opened Transformation

  /** The text of all segments, in order. */
  function Quoted(segs: seq<Seg>): string {
    if segs == [] then "" else Quoted(segs[..|segs| - 1]) + segs[|segs| - 1].text
  }

  function TextAfter(text: string, op: Op): string
    requires op.Ins? ==> op.seg.pos <= |text|
  {
    if op.Ins? then Insert(text, op.seg.pos, op.seg.text) else text
  }

  /** Where a segment boundary at `p` moves when text is inserted at `base`. */
  function Pushed(p: nat, base: Seg): nat { if p <= base.pos then p else p + |base.text| }

  lemma {:induction false} QuotedAppend(a: seq<Seg>, b: seq<Seg>)
    ensures Quoted(a + b) == Quoted(a) + Quoted(b)
    decreases |b|
  {
    if b == [] {
      assert a + b == a;
    } else {
      var n := |b| - 1;
      assert (a + b)[..|a + b| - 1] == a + b[..n];
      QuotedAppend(a, b[..n]);
    }
  }

  lemma QuotedOfDI(seg: Seg, base: Seg, opSite: SiteId, baseSite: SiteId)
    requires seg.text != ""
    ensures Quoted(TransformDI(seg, base, opSite, baseSite)) == seg.text
  {
    var r := TransformDI(seg, base, opSite, baseSite);
    if |r| == 1 {
      assert r[..0] == [] && Quoted([]) == "";
    } else {
      assert r[..1] == [r[0]] && [r[0]][..0] == [] && Quoted([]) == "";
      assert Quoted([r[0]]) == r[0].text;
      var mid := base.pos - seg.pos;
      assert seg.text[..mid] + seg.text[mid..] == seg.text;
    }
  }

  predicate StartsAt(segs: seq<Seg>, p: nat) {
    forall k :: 0 <= k < |segs| ==> p <= segs[k].pos
  }

  lemma ShapeAppend(a: seq<Seg>, b: seq<Seg>, middle: nat, bound: nat)
    requires Shape(a) && Shape(b) && SegsFit(a, middle) && StartsAt(b, middle)
    requires middle <= bound && SegsFit(b, bound)
    ensures Shape(a + b) && SegsFit(a + b, bound)
  {
    var c := a + b;
    forall k | 0 <= k < |c| ensures c[k].text != "" && c[k].End() <= bound {
      if k < |a| { assert c[k] == a[k]; } else { assert c[k] == b[k - |a|]; }
    }
    forall j, k | 0 <= j < k < |c| ensures c[j].End() <= c[k].pos {
      if k < |a| {
        assert c[j] == a[j] && c[k] == a[k];
      } else if j < |a| {
        assert c[j] == a[j] && c[k] == b[k - |a|];
      } else {
        assert c[j] == b[j - |a|] && c[k] == b[k - |a|];
      }
    }
  }

  lemma DIShape(seg: Seg, base: Seg, opSite: SiteId, baseSite: SiteId, bound: nat)
    requires seg.text != "" && seg.End() <= bound
    ensures var r := TransformDI(seg, base, opSite, baseSite);
            Shape(r) && SegsFit(r, Pushed(bound, base)) && StartsAt(r, Pushed(seg.pos, base))
  {}

  /** Transformation keeps a mark's segments nonempty, in order and disjoint, and
      conserves the text they quote; all of them stay below the pushed bound. */
  lemma {:induction false} TransformKeepsShape(segs: seq<Seg>, base: Seg, opSite: SiteId, baseSite: SiteId, bound: nat)
    requires Shape(segs) && SegsFit(segs, bound)
    ensures var r := TransformSegs(segs, base, opSite, baseSite);
            Shape(r) && SegsFit(r, Pushed(bound, base)) && Quoted(r) == Quoted(segs)
    decreases |segs|
  {
    if segs != [] {
      var n := |segs| - 1;
      var init, last := segs[..n], segs[n];
      assert SegsFit(init, last.pos);
      TransformKeepsShape(init, base, opSite, baseSite, last.pos);
      DIShape(last, base, opSite, baseSite, bound);
      var r1, r2 := TransformSegs(init, base, opSite, baseSite), TransformDI(last, base, opSite, baseSite);
      ShapeAppend(r1, r2, Pushed(last.pos, base), Pushed(bound, base));
      QuotedOfDI(last, base, opSite, baseSite);
      QuotedAppend(r1, r2);
    }
  }

  lemma SitesDoNotMatterDI(seg: Seg, base: Seg, s1: SiteId, s2: SiteId, t1: SiteId, t2: SiteId)
    requires seg.text != ""
    ensures TransformDI(seg, base, s1, s2) == TransformDI(seg, base, t1, t2)
  {
    WholeSeg(seg, base, s1, s2);
    WholeSeg(seg, base, t1, t2);
  }

  /** For nonempty segments the sites decide nothing: a mark has no ties to break. */
  lemma {:induction false} SitesDoNotMatter(segs: seq<Seg>, base: Seg, s1: SiteId, s2: SiteId, t1: SiteId, t2: SiteId)
    requires forall k :: 0 <= k < |segs| ==> segs[k].text != ""
    ensures TransformSegs(segs, base, s1, s2) == TransformSegs(segs, base, t1, t2)
    decreases |segs|
  {
    if segs != [] {
      var n := |segs| - 1;
      SitesDoNotMatter(segs[..n], base, s1, s2, t1, t2);
      hide TransformDI;
      SitesDoNotMatterDI(segs[n], base, s1, s2, t1, t2);
    }
  }

  /** Text that an insertion leaves in place or moves is quoted at its new position. */
  lemma MatchAcrossInsert(text: string, base: Seg, lo: nat, hi: nat)
    requires lo <= hi <= |text| && base.pos <= |text|
    ensures hi <= base.pos ==> Insert(text, base.pos, base.text)[lo..hi] == text[lo..hi]
    ensures base.pos <= lo ==> Insert(text, base.pos, base.text)[lo + |base.text|..hi + |base.text|] == text[lo..hi]
  {}

  lemma DIMatches(seg: Seg, base: Seg, opSite: SiteId, baseSite: SiteId, text: string)
    requires SegMatches(seg, text) && seg.text != "" && base.pos <= |text|
    ensures var r := TransformDI(seg, base, opSite, baseSite);
            forall k :: 0 <= k < |r| ==> SegMatches(r[k], Insert(text, base.pos, base.text))
  {
    if base.pos <= seg.pos || seg.End() <= base.pos {
      MatchAcrossInsert(text, base, seg.pos, seg.End());
      WholeSeg(seg, base, opSite, baseSite);
      hide TransformDI;
    } else {
      MatchAcrossInsert(text, base, seg.pos, base.pos);
      MatchAcrossInsert(text, base, base.pos, seg.End());
      var mid := base.pos - seg.pos;
      assert seg.text[..mid] == text[seg.pos..base.pos] && seg.text[mid..] == text[base.pos..seg.End()];
    }
  }

  lemma {:induction false} TransformKeepsMatch(segs: seq<Seg>, base: Seg, opSite: SiteId, baseSite: SiteId, text: string)
    requires AllMatch(segs, text) && base.pos <= |text|
    requires forall k :: 0 <= k < |segs| ==> segs[k].text != ""
    ensures AllMatch(TransformSegs(segs, base, opSite, baseSite), Insert(text, base.pos, base.text))
    decreases |segs|
  {
    if segs != [] {
      var n := |segs| - 1;
      TransformKeepsMatch(segs[..n], base, opSite, baseSite, text);
      DIMatches(segs[n], base, opSite, baseSite, text);
    }
  }

  /** An operation that can be applied to a document can be applied, once transformed, to
      what a concurrent operation leaves behind. */
  lemma TransformKeepsValid(op: Op, base: Op, text: string)
    requires ValidOn(op, text) && ValidOn(base, text)
    ensures ValidOn(Transform(op, base), TextAfter(text, base))
  {
    if op.Mark? && base.Ins? {
      TransformKeepsShape(op.segs, base.seg, op.site, base.site, |text|);
    }
  }

  /** And it quotes the text there if it did before. */
  lemma TransformKeepsQuotes(op: Op, base: Op, text: string)
    requires ValidOn(op, text) && ValidOn(base, text) && Quotes(op, text)
    ensures Quotes(Transform(op, base), TextAfter(text, base))
  {
    if op.Mark? && base.Ins? {
      TransformKeepsMatch(op.segs, base.seg, op.site, base.site, text);
    }
  }
}
