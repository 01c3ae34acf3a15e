/** TP1 for what is shown. Text that a mark brings back is shown as the mark quotes it, so
    two marks that bring back one character must also quote the same. */
module ShowConvergence {
  import opened Ops
  import opened Documents
  import opened Transformation
  import opened Marks
  import opened Tracking
  import opened Convergence
  import opened Views
  import opened Showing

  /** Alike on one character: both live with the same text, or both dead. */
  predicate SameAt(d: Doc, e: Doc, p: nat)
    requires Coherent(d) && Coherent(e) && p < |d.text| == |e.text|
  {
    d.live[p] == e.live[p] && (d.live[p] ==> d.text[p] == e.text[p])
  }

  /** Documents that show the same and will go on doing so: they differ at most in the text
      of dead characters. */
  predicate Alike(d: Doc, e: Doc) {
    && Coherent(d) && Coherent(e) && |d.text| == |e.text|
    && forall p :: 0 <= p < |d.text| ==> SameAt(d, e, p)
  }

  lemma {:induction false} VisibleTells(t1: string, t2: string, flags: seq<bool>, i: nat)
    requires |t1| == |t2| == |flags| && Visible(t1, flags) == Visible(t2, flags) && i < |flags| && flags[i]
    ensures t1[i] == t2[i]
    decreases |flags|
  {
    var n := |flags| - 1;
    var v1, v2 := Visible(t1[..n], flags[..n]), Visible(t2[..n], flags[..n]);
    if flags[n] {
      assert (v1 + [t1[n]])[|v1|] == t1[n] && |v1 + [t1[n]]| == |v2 + [t2[n]]|;
      assert (v1 + [t1[n]])[..|v1|] == v1 && (v2 + [t2[n]])[..|v2|] == v2;
    } else {
      assert v1 + [] == v1 && v2 + [] == v2;
    }
    if i < n { VisibleTells(t1[..n], t2[..n], flags[..n], i); }
  }

  /** That is: the same characters are live, and the same is to be seen. */
  lemma AlikeIff(d: Doc, e: Doc)
    requires Coherent(d) && Coherent(e)
    ensures Alike(d, e) <==> d.live == e.live && View(d) == View(e)
  {
    hide Visible;
    if Alike(d, e) {
      assert d.live == e.live by {
        forall p | 0 <= p < |d.live| ensures d.live[p] == e.live[p] { assert SameAt(d, e, p); }
      }
      forall i | 0 <= i < |d.live| && d.live[i] ensures d.text[i] == e.text[i] { assert SameAt(d, e, i); }
      VisibleAgree(d.text, e.text, d.live);
    }
    if d.live == e.live && View(d) == View(e) {
      forall p | 0 <= p < |d.text| ensures SameAt(d, e, p) {
        if d.live[p] { VisibleTells(d.text, e.text, d.live, p); }
      }
    }
  }

  // ---------------------------------------------------------------- one operation

  /** What an operation makes of the character at `p`. */
  lemma ShowAt(d: Doc, op: Op, p: nat)
    requires Coherent(d) && Fits(op, |d.text|) && p < |d.text|
    ensures var e, q := Show(d, op), TrackOne(p, op);
            && q < |e.text|
            && e.live[q] == (if op.Mark? && Covers(op.segs, p) then op.live else d.live[p])
            && e.text[q] == if op.Mark? && op.live && Covers(op.segs, p) && !d.live[p] then QuoteAt(op.segs, p) else d.text[p]
  {
    hide QuoteAt, Covers;
    var restored := Restored(d, op);
    if op.Ins? {
      assert restored == d.text;
    } else {
      assert restored[p] == if Revived(d, op)[p] then QuoteAt(op.segs, p) else d.text[p];
    }
  }

  lemma ShowSame(d: Doc, e: Doc, op: Op, p: nat)
    requires Coherent(d) && Coherent(e) && p < |d.text| == |e.text| && Fits(op, |d.text|) && SameAt(d, e, p)
    ensures |Show(d, op).text| == |Show(e, op).text| && TrackOne(p, op) < |Show(d, op).text|
    ensures SameAt(Show(d, op), Show(e, op), TrackOne(p, op))
  {
    hide QuoteAt, Covers;
    ShowAt(d, op, p);
    ShowAt(e, op, p);
    ShowLength(d, e, op);
    hide Show;
  }

  lemma ShowLength(d: Doc, e: Doc, op: Op)
    requires Coherent(d) && Coherent(e) && |d.text| == |e.text| && Fits(op, |d.text|)
    ensures |Show(d, op).text| == |Show(e, op).text| == |d.text| + if op.Ins? then |op.seg.text| else 0
  {}

  /** A character on which two documents differ was there before, and differed. */
  lemma DifferedBefore(d: Doc, e: Doc, op: Op, q: nat) returns (p: nat)
    requires Coherent(d) && Coherent(e) && |d.text| == |e.text| && Fits(op, |d.text|)
    requires q < |Show(d, op).text| == |Show(e, op).text| && !SameAt(Show(d, op), Show(e, op), q)
    ensures p < |d.text| && !SameAt(d, e, p) && TrackOne(p, op) == q
  {
    hide QuoteAt;
    p := if op.Ins? && op.seg.End() <= q then q - |op.seg.text| else q;
    assert TrackOne(p, op) == q && p < |d.text|;
    if SameAt(d, e, p) { ShowSame(d, e, op, p); }
  }

  /** What is shown of an operation does not depend on what is not to be seen. */
  lemma ShowAlike(d: Doc, e: Doc, op: Op)
    requires Alike(d, e) && Fits(op, |d.text|)
    ensures Alike(Show(d, op), Show(e, op))
  {
    hide Show, SameAt;
    ShowLength(d, e, op);
    forall q: nat | q < |Show(d, op).text| ensures SameAt(Show(d, op), Show(e, op), q) {
      if !SameAt(Show(d, op), Show(e, op), q) { var p := DifferedBefore(d, e, op, q); }
    }
  }

  // ---------------------------------------------------------------- several operations

  lemma {:induction false} DifferedEarlier(d: Doc, e: Doc, ops: seq<Op>, q: nat) returns (p: nat)
    requires Coherent(d) && Coherent(e) && |d.text| == |e.text| && ValidRun(ops, d) && ValidRun(ops, e)
    requires q < |ShowAll(d, ops).text| == |ShowAll(e, ops).text| && !SameAt(ShowAll(d, ops), ShowAll(e, ops), q)
    ensures p < |d.text| && !SameAt(d, e, p) && Track(p, ops) == q
    decreases |ops|
  {
    if ops == [] {
      p := q;
    } else {
      hide Show, SameAt;
      ShowLength(d, e, ops[0]);
      FirstShown(d, ops);
      FirstShown(e, ops);
      var p1 := DifferedEarlier(Show(d, ops[0]), Show(e, ops[0]), ops[1..], q);
      p := DifferedBefore(d, e, ops[0], p1);
    }
  }

  lemma FirstShown(d: Doc, ops: seq<Op>)
    requires Coherent(d) && ValidRun(ops, d) && ops != []
    ensures ValidOn(ops[0], d.text) && Fits(ops[0], |d.text|) && ValidRun(ops[1..], Show(d, ops[0]))
    ensures ShowAll(d, ops) == ShowAll(Show(d, ops[0]), ops[1..])
  {
    ShowIff(d, ops[0]);
    RunOnSameLength(Apply(d, ops[0]), Show(d, ops[0]), ops[1..]);
  }

  lemma ShowAllAlike(d: Doc, e: Doc, ops: seq<Op>)
    requires Alike(d, e) && ValidRun(ops, d)
    ensures ValidRun(ops, e) && Alike(ShowAll(d, ops), ShowAll(e, ops))
  {
    hide ShowAll, SameAt, ValidRun;
    RunOnSameLength(d, e, ops);
    ShowAllIs(d, ops);
    ShowAllIs(e, ops);
    forall q: nat | q < |ShowAll(d, ops).text| ensures SameAt(ShowAll(d, ops), ShowAll(e, ops), q) {
      if !SameAt(ShowAll(d, ops), ShowAll(e, ops), q) { var p := DifferedEarlier(d, e, ops, q); }
    }
  }

  lemma {:induction false} ShowAppend(d: Doc, ops1: seq<Op>, ops2: seq<Op>)
    requires Coherent(d) && ValidRun(ops1, d) && ValidRun(ops2, ShowAll(d, ops1))
    ensures ValidRun(ops1 + ops2, d) && ShowAll(d, ops1 + ops2) == ShowAll(ShowAll(d, ops1), ops2)
    decreases |ops1|
  {
    var all := ops1 + ops2;
    if ops1 == [] {
      assert all == ops2;
    } else {
      assert all[0] == ops1[0] && all[1..] == ops1[1..] + ops2 && all != [];
      hide Show, ShowAll, ValidRun, ValidOn, Fits;
      FirstShown(d, ops1);
      ShowAppend(Show(d, ops1[0]), ops1[1..], ops2);
      RunAfterShow(d, all);
      FirstShown(d, all);
    }
  }

  lemma RunAfterShow(d: Doc, ops: seq<Op>)
    requires Coherent(d) && ops != [] && ValidOn(ops[0], d.text) && Fits(ops[0], |d.text|) && ValidRun(ops[1..], Show(d, ops[0]))
    ensures ValidRun(ops, d)
  {
    ShowIff(d, ops[0]);
    RunOnSameLength(Show(d, ops[0]), Apply(d, ops[0]), ops[1..]);
  }

  // ---------------------------------------------------------------- quotes travel along

  lemma QuoteAppend(a: seq<Seg>, b: seq<Seg>, i: nat)
    requires Shape(a + b) && (Covers(a, i) || Covers(b, i))
    ensures Covers(a + b, i)
    ensures Covers(a, i) ==> Shape(a) && QuoteAt(a + b, i) == QuoteAt(a, i)
    ensures Covers(b, i) ==> Shape(b) && QuoteAt(a + b, i) == QuoteAt(b, i)
  {
    hide QuoteAt;
    assert forall k :: 0 <= k < |a| ==> (a + b)[k] == a[k];
    assert forall k :: 0 <= k < |b| ==> (a + b)[|a| + k] == b[k];
    if k :| 0 <= k < |a| && In(a[k], i) {
      QuoteOf(a, k, i);
      QuoteOf(a + b, k, i);
    }
    if k :| 0 <= k < |b| && In(b[k], i) {
      QuoteOf(b, k, i);
      QuoteOf(a + b, |a| + k, i);
    }
  }

  lemma DIQuotes(seg: Seg, base: Seg, opSite: SiteId, baseSite: SiteId, p: nat)
    requires seg.text != "" && In(seg, p)
    ensures var r, q := TransformDI(seg, base, opSite, baseSite), if base.pos <= p then p + |base.text| else p;
            Covers(r, q) && QuoteAt(r, q) == seg.text[p - seg.pos]
  {
    hide QuoteAt;
    var r, q := TransformDI(seg, base, opSite, baseSite), if base.pos <= p then p + |base.text| else p;
    var k := if |r| == 1 then 0 else if base.pos <= p then 1 else 0;
    assert In(r[k], q);
    QuoteOf(r, k, q);
  }

  /** A transformed mark quotes for every character what it quoted before. */
  lemma {:induction false} TransformQuotes(segs: seq<Seg>, base: Seg, opSite: SiteId, baseSite: SiteId, bound: nat, p: nat)
    requires Shape(segs) && SegsFit(segs, bound) && Covers(segs, p)
    ensures var r, q := TransformSegs(segs, base, opSite, baseSite), if base.pos <= p then p + |base.text| else p;
            Covers(r, q) && QuoteAt(r, q) == QuoteAt(segs, p)
    decreases |segs|
  {
    hide QuoteAt, TransformDI;
    var n := |segs| - 1;
    var init, last := segs[..n], segs[n];
    var q := if base.pos <= p then p + |base.text| else p;
    var r1, r2 := TransformSegs(init, base, opSite, baseSite), TransformDI(last, base, opSite, baseSite);
    TransformKeepsShape(segs, base, opSite, baseSite, bound);
    assert segs == init + [last];
    if In(last, p) {
      DIQuotes(last, base, opSite, baseSite, p);
      QuoteAppend(r1, r2, q);
      QuoteOf(segs, n, p);
    } else {
      CoversInit(segs, p);
      TransformQuotes(init, base, opSite, baseSite, bound, p);
      QuoteAppend(r1, r2, q);
      QuoteAppend(init, [last], p);
    }
  }

  lemma TransformedQuotes(m: Op, op: Op, text: string, p: nat)
    requires m.Mark? && ValidOn(m, text) && Covers(m.segs, p)
    ensures Transform(m, op).Mark? && Covers(Transform(m, op).segs, TrackOne(p, op))
    ensures QuoteAt(Transform(m, op).segs, TrackOne(p, op)) == QuoteAt(m.segs, p)
  {
    hide QuoteAt, Covers;
    if op.Ins? { TransformQuotes(m.segs, op.seg, m.site, op.site, |text|, p); }
  }

  lemma {:induction false} BatchQuotes(m: Op, d: Doc, ops: seq<Op>, p: nat)
    requires m.Mark? && Coherent(d) && ValidOn(m, d.text) && ValidRun(ops, d) && Covers(m.segs, p)
    ensures Batch(m, ops).Mark? && Covers(Batch(m, ops).segs, Track(p, ops))
    ensures QuoteAt(Batch(m, ops).segs, Track(p, ops)) == QuoteAt(m.segs, p)
    decreases |ops|
  {
    if ops != [] {
      hide QuoteAt, Covers, ValidOn, Transform, TrackOne, Apply, Fits;
      TransformedQuotes(m, ops[0], d.text, p);
      TransformKeepsValid(m, ops[0], d.text);
      ValidFits(ops[0], d.text);
      assert TextAfter(d.text, ops[0]) == Apply(d, ops[0]).text by { TextAfterIs(d, ops[0]); }
      BatchQuotes(Transform(m, ops[0]), Apply(d, ops[0]), ops[1..], TrackOne(p, ops[0]));
    }
  }

  lemma TextAfterIs(d: Doc, op: Op)
    requires Coherent(d) && Fits(op, |d.text|)
    ensures TextAfter(d.text, op) == Apply(d, op).text
  {}

  // ---------------------------------------------------------------- TP1 for two operations

  /** Two marks that both bring back a dead character quote it alike. */
  predicate Agreed(d: Doc, a: Op, b: Op)
    requires Coherent(d)
  {
    a.Mark? && b.Mark? && a.live && b.live ==>
      forall p :: 0 <= p < |d.text| && !d.live[p] && Covers(a.segs, p) && Covers(b.segs, p) ==>
        QuoteAt(a.segs, p) == QuoteAt(b.segs, p)
  }

  /** Both ways around the square, as shown. */
  function ShowVia(d: Doc, a: Op, b: Op): (r: Doc)
    requires Coherent(d) && Fits(a, |d.text|) && Fits(b, |d.text|)
    ensures Coherent(r)
  {
    TransformFits(b, a, |d.text|);
    Show(Show(d, a), Transform(b, a))
  }

  /** The two orders of two marks, on one character. */
  lemma TwoMarksAt(d: Doc, a: Op, b: Op, p: nat)
    requires Coherent(d) && Fits(a, |d.text|) && Fits(b, |d.text|) && a.Mark? && b.Mark? && p < |d.text|
    ensures var x, y := ShowVia(d, a, b), ShowVia(d, b, a);
            && |x.text| == |y.text| == |d.text|
            && (x.text[p] == y.text[p] && x.live[p] == y.live[p] <==> SameAt(x, y, p))
            && (SameAt(x, y, p) <==>
                  (Covers(a.segs, p) && Covers(b.segs, p) ==>
                     a.live == b.live && (a.live && !d.live[p] ==> QuoteAt(a.segs, p) == QuoteAt(b.segs, p))))
  {
    hide QuoteAt, Covers;
    ShowAt(d, a, p);
    ShowAt(d, b, p);
    ShowAt(Show(d, a), b, p);
    ShowAt(Show(d, b), a, p);
    ShowLength(d, d, a);
    ShowLength(d, d, b);
    ShowLength(Show(d, a), Show(d, b), a);
    ShowLength(Show(d, a), Show(d, b), b);
    hide Show;
  }

  lemma ShowTwoMarks(d: Doc, a: Op, b: Op)
    requires Coherent(d) && ValidOn(a, d.text) && ValidOn(b, d.text) && a.Mark? && b.Mark?
    requires Fits(a, |d.text|) && Fits(b, |d.text|)
    ensures ShowVia(d, a, b) == ShowVia(d, b, a) <==> Compatible(a, b) && Agreed(d, a, b)
    ensures Alike(ShowVia(d, a, b), ShowVia(d, b, a)) <==> Compatible(a, b) && Agreed(d, a, b)
  {
    hide QuoteAt, Covers, ShowVia, Overlap;
    var x, y := ShowVia(d, a, b), ShowVia(d, b, a);
    MeetCovers(a.segs, b.segs);
    forall p: nat | p < |d.text|
      ensures |x.text| == |y.text| == |d.text| && (x.text[p] == y.text[p] && x.live[p] == y.live[p] <==> SameAt(x, y, p))
      ensures SameAt(x, y, p) <==>
                (Covers(a.segs, p) && Covers(b.segs, p) ==>
                   a.live == b.live && (a.live && !d.live[p] ==> QuoteAt(a.segs, p) == QuoteAt(b.segs, p)))
    {
      TwoMarksAt(d, a, b, p);
    }
    ShowLength(d, d, a);
    if p: nat :| Covers(a.segs, p) && Covers(b.segs, p) && a.live != b.live {
      CoveredInBounds(a, d.text, p);
      assert !SameAt(x, y, p);
    }
    assert |x.text| == |y.text| == |d.text| by { SameLength(d, a, b); }
  }

  lemma SameLength(d: Doc, a: Op, b: Op)
    requires Coherent(d) && Fits(a, |d.text|) && Fits(b, |d.text|) && a.Mark? && b.Mark?
    ensures |ShowVia(d, a, b).text| == |ShowVia(d, b, a).text| == |d.text|
  {}

  lemma ProperSegs(m: Op, text: string)
    requires m.Mark? && ValidOn(m, text)
    ensures Shape(m.segs) && SegsFit(m.segs, |text|)
  {}

  lemma InsMarkAt(d: Doc, a: Op, b: Op, q: nat)
    requires Coherent(d) && ValidOn(a, d.text) && ValidOn(b, d.text) && a.Ins? && b.Mark?
    requires Fits(a, |d.text|) && Fits(b, |d.text|) && Fits(Transform(b, a), |Show(d, a).text|)
    requires q < |Show(d, a).text| && !In(a.seg, q)
    ensures var x, y := Show(Show(d, a), Transform(b, a)), Show(Show(d, b), a);
            && q < |x.text| == |y.text| && x.text[q] == y.text[q] && x.live[q] == y.live[q]
  {
    hide QuoteAt, Covers, Show, ValidOn, SegsFit, TransformSegs;
    var p: nat := if q < a.seg.pos then q else q - |a.seg.text|;
    ShowLength(d, d, a);
    ShowLength(d, d, b);
    ShowLength(Show(d, b), d, a);
    ShowLength(Show(d, a), Show(d, a), Transform(b, a));
    ShowAt(d, a, p);
    ShowAt(d, b, p);
    ShowAt(Show(d, b), a, p);
    ShowAt(Show(d, a), Transform(b, a), q);
    TransformSegsCovers(b.segs, a.seg, b.site, a.site, q);
    if Covers(b.segs, p) { ProperSegs(b, d.text); TransformQuotes(b.segs, a.seg, b.site, a.site, |d.text|, p); }
  }

  lemma InsMarkNew(d: Doc, a: Op, b: Op, q: nat)
    requires Coherent(d) && a.Ins? && b.Mark?
    requires Fits(a, |d.text|) && Fits(b, |d.text|) && Fits(Transform(b, a), |Show(d, a).text|)
    requires q < |Show(d, a).text| && In(a.seg, q)
    ensures var x, y := Show(Show(d, a), Transform(b, a)), Show(Show(d, b), a);
            && q < |x.text| == |y.text| && x.text[q] == y.text[q] && x.live[q] == y.live[q]
  {
    hide QuoteAt, Covers;
    ShowAt(Show(d, a), Transform(b, a), q);
    TransformSegsCovers(b.segs, a.seg, b.site, a.site, q);
    assert Restored(d, a) == d.text && Restored(Show(d, b), a) == Show(d, b).text;
    assert Show(d, a).text[q] == a.seg.text[q - a.seg.pos] == Show(Show(d, b), a).text[q];
    assert Show(d, a).live[q] && Show(Show(d, b), a).live[q];
  }

  lemma ShowInsMark(d: Doc, a: Op, b: Op)
    requires Coherent(d) && ValidOn(a, d.text) && ValidOn(b, d.text) && a.Ins? && b.Mark?
    requires Fits(a, |d.text|) && Fits(b, |d.text|)
    ensures ShowVia(d, a, b) == ShowVia(d, b, a)
  {
    hide QuoteAt, Show, ValidOn;
    var x, y := ShowVia(d, a, b), ShowVia(d, b, a);
    ShowLength(d, d, a);
    ShowLength(d, d, b);
    ShowLength(Show(d, b), d, a);
    TransformFits(b, a, |d.text|);
    ShowLength(Show(d, a), Show(d, a), Transform(b, a));
    assert x == Show(Show(d, a), Transform(b, a)) && y == Show(Show(d, b), a);
    forall q: nat | q < |x.text| ensures x.text[q] == y.text[q] && x.live[q] == y.live[q] {
      if In(a.seg, q) { InsMarkNew(d, a, b, q); } else { InsMarkAt(d, a, b, q); }
    }
    assert |x.text| == |y.text| && x.text == y.text && x.live == y.live;
  }

  /** TP1 as shown: the two orders agree if and only if the two are compatible and, where
      both bring a character back, quote it alike. */
  lemma ShowSquare(d: Doc, a: Op, b: Op)
    requires Coherent(d) && ValidOn(a, d.text) && ValidOn(b, d.text) && a.site != b.site
    ensures Fits(a, |d.text|) && Fits(b, |d.text|)
    ensures ShowVia(d, a, b) == ShowVia(d, b, a) <==> Compatible(a, b) && Agreed(d, a, b)
    ensures Alike(ShowVia(d, a, b), ShowVia(d, b, a)) <==> Compatible(a, b) && Agreed(d, a, b)
  {
    ValidFits(a, d.text);
    ValidFits(b, d.text);
    hide ValidOn, Fits;
    match (a, b)
    case (Ins(_, _), Ins(_, _)) => Tp1(d, a, b);
    case (Ins(_, _), Mark(_, _, _)) => ShowInsMark(d, a, b);
    case (Mark(_, _, _), Ins(_, _)) => ShowInsMark(d, b, a);
    case (Mark(_, _, _), Mark(_, _, _)) => ShowTwoMarks(d, a, b);
  }

  // ---------------------------------------------------------------- one operation against a list

  /** Some member of the list makes the character at `p` dead. */
  predicate Killed(p: nat, ops: seq<Op>)
    decreases |ops|
  {
    ops != [] && ((ops[0].Mark? && !ops[0].live && Covers(ops[0].segs, p)) || Killed(TrackOne(p, ops[0]), ops[1..]))
  }

  /** What the first mark of the list that makes the character at `p` live quotes for it. */
  function FirstQuote(p: nat, ops: seq<Op>): Option<char>
    decreases |ops|
  {
    if ops == [] then None
    else if ops[0].Mark? && ops[0].live && Covers(ops[0].segs, p) then Some(QuoteAt(ops[0].segs, p))
    else FirstQuote(TrackOne(p, ops[0]), ops[1..])
  }

  /** `a` and the list both bring the character at `p` back, and quote it differently. */
  predicate Dispute(d: Doc, a: Op, ops: seq<Op>, p: nat)
    requires Coherent(d) && p < |d.text|
  {
    && a.Mark? && a.live && Covers(a.segs, p) && !d.live[p] && !Killed(p, ops)
    && FirstQuote(p, ops).Some? && FirstQuote(p, ops).value != QuoteAt(a.segs, p)
  }

  ghost predicate Undisputed(d: Doc, a: Op, ops: seq<Op>)
    requires Coherent(d)
  {
    forall p: nat :: p < |d.text| ==> !Dispute(d, a, ops, p)
  }

  lemma {:induction false} StaySame(d: Doc, e: Doc, ops: seq<Op>, p: nat)
    requires Coherent(d) && Coherent(e) && p < |d.text| == |e.text| && ValidRun(ops, d) && ValidRun(ops, e)
    requires SameAt(d, e, p)
    ensures Track(p, ops) < |ShowAll(d, ops).text| == |ShowAll(e, ops).text|
    ensures SameAt(ShowAll(d, ops), ShowAll(e, ops), Track(p, ops))
    decreases |ops|
  {
    if ops != [] {
      hide Show, SameAt;
      FirstShown(d, ops);
      FirstShown(e, ops);
      ShowLength(d, e, ops[0]);
      ShowSame(d, e, ops[0], p);
      StaySame(Show(d, ops[0]), Show(e, ops[0]), ops[1..], TrackOne(p, ops[0]));
    }
  }

  /** A live character that nobody deletes keeps its text. */
  lemma {:induction false} StayLive(d: Doc, ops: seq<Op>, p: nat)
    requires Coherent(d) && p < |d.text| && ValidRun(ops, d) && d.live[p] && !Killed(p, ops)
    ensures var x, q := ShowAll(d, ops), Track(p, ops);
            q < |x.text| && x.live[q] && x.text[q] == d.text[p]
    decreases |ops|
  {
    if ops != [] {
      hide Show, QuoteAt;
      FirstShown(d, ops);
      ShowAt(d, ops[0], p);
      StayLive(Show(d, ops[0]), ops[1..], TrackOne(p, ops[0]));
    }
  }

  /** A character that has been deleted shows nothing of what it was. */
  lemma {:induction false} KilledAlike(d: Doc, e: Doc, ops: seq<Op>, p: nat)
    requires Coherent(d) && Coherent(e) && p < |d.text| == |e.text| && ValidRun(ops, d) && ValidRun(ops, e)
    requires Killed(p, ops)
    ensures Track(p, ops) < |ShowAll(d, ops).text| == |ShowAll(e, ops).text|
    ensures SameAt(ShowAll(d, ops), ShowAll(e, ops), Track(p, ops))
    decreases |ops|
  {
    hide Show, QuoteAt, ShowAll;
    var d1, e1, p1 := Show(d, ops[0]), Show(e, ops[0]), TrackOne(p, ops[0]);
    FirstShown(d, ops);
    FirstShown(e, ops);
    ShowLength(d, e, ops[0]);
    ShowAt(d, ops[0], p);
    ShowAt(e, ops[0], p);
    if Killed(p1, ops[1..]) {
      KilledAlike(d1, e1, ops[1..], p1);
    } else {
      StaySame(d1, e1, ops[1..], p1);
    }
  }

  /** A character that is dead in one document and live in the other. */
  lemma {:induction false} BroughtBack(d: Doc, e: Doc, ops: seq<Op>, p: nat)
    requires Coherent(d) && Coherent(e) && p < |d.text| == |e.text| && ValidRun(ops, d) && ValidRun(ops, e)
    requires !d.live[p] && e.live[p] && !Killed(p, ops)
    ensures var x, y, q := ShowAll(d, ops), ShowAll(e, ops), Track(p, ops);
            && q < |x.text| && q < |y.text| && y.live[q] && y.text[q] == e.text[p]
            && (x.live[q] <==> FirstQuote(p, ops).Some?)
            && (x.live[q] ==> x.text[q] == FirstQuote(p, ops).value)
    decreases |ops|
  {
    StayLive(e, ops, p);
    if ops != [] {
      hide Show, QuoteAt;
      var d1, e1, p1 := Show(d, ops[0]), Show(e, ops[0]), TrackOne(p, ops[0]);
      FirstShown(d, ops);
      FirstShown(e, ops);
      ShowLength(d, e, ops[0]);
      ShowAt(d, ops[0], p);
      ShowAt(e, ops[0], p);
      if d1.live[p1] {
        StayLive(d1, ops[1..], p1);
      } else {
        BroughtBack(d1, e1, ops[1..], p1);
      }
    }
  }

  /** The liveness of what is shown. */
  lemma ShownLiveness(d: Doc, ops: seq<Op>, p: nat)
    requires Coherent(d) && ValidRun(ops, d) && p < |d.text|
    ensures Track(p, ops) < |ShowAll(d, ops).text|
    ensures ShowAll(d, ops).live[Track(p, ops)] == if LastMark(p, ops).Some? then LastMark(p, ops).value else d.live[p]
  {
    hide ValidRun, Replay, ShowAll, LastMark;
    ShowAllIs(d, ops);
    LastMarkDecides(d, ops, p);
  }

  /** A mark before the list, or carried over it to its end: what becomes of one character. */
  lemma MarkShownAt(d: Doc, m: Op, ops: seq<Op>, p: nat)
    requires m.Mark? && Coherent(d) && ValidOn(m, d.text) && Fits(m, |d.text|) && p < |d.text|
    requires ValidRun(ops, d) && ValidRun(ops, Show(d, m)) && Fits(Batch(m, ops), |ShowAll(d, ops).text|)
    ensures var x, y, q := ShowAll(Show(d, m), ops), Show(ShowAll(d, ops), Batch(m, ops)), Track(p, ops);
            && q < |x.text| == |y.text|
            && (SameAt(x, y, q) <==> !(Covers(m.segs, p) && LastMark(p, ops) == Some(!m.live)) && !Dispute(d, m, ops, p))
  {
    hide ValidRun, ShowAll, Show, Batch, Track, QuoteAt, LastMark, Covers, Fits, ValidOn, Killed, FirstQuote;
    var d1, z, q := Show(d, m), ShowAll(d, ops), Track(p, ops);
    ShownLiveness(d, ops, p);
    ShowLength(d, d, m);
    ShowAt(d, m, p);
    ShownLiveness(d1, ops, p);
    BatchTracks(m, ops, q);
    ShowAt(z, Batch(m, ops), q);
    CoveredAfter(m, ops, p);
    if Covers(m.segs, p) { BatchQuotes(m, d, ops, p); }
    MarksMoveNothing(m, ops, d, d1);
    if SameAt(d, d1, p) {
      StaySame(d, d1, ops, p);
    } else if Killed(p, ops) {
      KilledAlike(d, d1, ops, p);
    } else if m.live {
      BroughtBack(d, d1, ops, p);
    }
  }

  lemma CoveredAfter(m: Op, ops: seq<Op>, p: nat)
    requires m.Mark?
    ensures Batch(m, ops).Mark? && (Covers(Batch(m, ops).segs, Track(p, ops)) <==> Covers(m.segs, p))
  {
    hide Batch, Track, Covers;
    var q := Track(p, ops);
    BatchTracks(m, ops, q);
    TrackGrows(ops, p);
    forall r: nat | r != p ensures Track(r, ops) != q {
      if r < p { TrackKeepsOrder(ops, r, p); } else { TrackKeepsOrder(ops, p, r); }
    }
  }

  lemma MarksMoveNothing(m: Op, ops: seq<Op>, d: Doc, e: Doc)
    requires Coherent(d) && Coherent(e) && |d.text| == |e.text| && ValidRun(ops, d) && ValidRun(ops, e)
    requires Batch(m, ops).Mark? && Fits(Batch(m, ops), |ShowAll(d, ops).text|)
    ensures |ShowAll(e, ops).text| == |Show(ShowAll(d, ops), Batch(m, ops)).text|
  {
    hide ValidRun, ShowAll, Batch;
    ShowAllIs(d, ops);
    ShowAllIs(e, ops);
    RunOnSameLength(d, e, ops);
  }

  /** A character that the list inserted is the same both ways. */
  lemma NewShownAt(d: Doc, m: Op, ops: seq<Op>, q: nat)
    requires m.Mark? && Coherent(d) && Fits(m, |d.text|)
    requires ValidRun(ops, d) && ValidRun(ops, Show(d, m)) && Fits(Batch(m, ops), |ShowAll(d, ops).text|)
    requires forall p: nat :: p < |d.text| ==> Track(p, ops) != q
    requires !TrackedFrom(m.segs, ops, q) && q < |ShowAll(d, ops).text|
    ensures var x, y := ShowAll(Show(d, m), ops), Show(ShowAll(d, ops), Batch(m, ops));
            q < |x.text| == |y.text| && SameAt(x, y, q)
  {
    hide ValidRun, ShowAll, Show, Batch, Track, QuoteAt, Covers, Fits;
    ShowLength(d, d, m);
    BatchTracks(m, ops, q);
    MarksMoveNothing(m, ops, d, Show(d, m));
    ShowAt(ShowAll(d, ops), Batch(m, ops), q);
    var x, z := ShowAll(Show(d, m), ops), ShowAll(d, ops);
    assert |x.text| == |z.text| by { MarksMoveNothing(m, ops, d, d); }
    if !SameAt(z, x, q) { var p := DifferedEarlier(d, Show(d, m), ops, q); }
  }

  lemma MarkShownAgainstList(d: Doc, m: Op, ops: seq<Op>)
    requires m.Mark? && Coherent(d) && ValidOn(m, d.text) && Fits(m, |d.text|)
    requires ValidRun(ops, d) && ValidRun(ops, Show(d, m)) && Fits(Batch(m, ops), |ShowAll(d, ops).text|)
    ensures Alike(ShowAll(Show(d, m), ops), Show(ShowAll(d, ops), Batch(m, ops))) <==> Harmless(m, ops) && Undisputed(d, m, ops)
  {
    hide ValidRun, ShowAll, Show, Batch, Track, QuoteAt, LastMark, Covers, Fits, ValidOn, Dispute, SameAt, TrackedFrom;
    var x, y := ShowAll(Show(d, m), ops), Show(ShowAll(d, ops), Batch(m, ops));
    if p: nat :| p < |d.text| && (Dispute(d, m, ops, p) || (Covers(m.segs, p) && LastMark(p, ops) == Some(!m.live))) {
      MarkShownAt(d, m, ops, p);
    } else {
      ShowLength(d, d, m);
      BatchTracks(m, ops, 0);
      MarksMoveNothing(m, ops, d, Show(d, m));
      forall q: nat | q < |x.text| ensures SameAt(x, y, q) { ShownEverywhere(d, m, ops, q); }
    }
    if !Harmless(m, ops) {
      var p: nat :| Covers(m.segs, p) && LastMark(p, ops) == Some(!m.live);
      CoveredInBounds(m, d.text, p);
    }
  }

  lemma ShownEverywhere(d: Doc, m: Op, ops: seq<Op>, q: nat)
    requires m.Mark? && Coherent(d) && ValidOn(m, d.text) && Fits(m, |d.text|)
    requires ValidRun(ops, d) && ValidRun(ops, Show(d, m)) && Fits(Batch(m, ops), |ShowAll(d, ops).text|)
    requires forall p: nat :: p < |d.text| ==>
               !Dispute(d, m, ops, p) && !(Covers(m.segs, p) && LastMark(p, ops) == Some(!m.live))
    requires q < |ShowAll(Show(d, m), ops).text| == |Show(ShowAll(d, ops), Batch(m, ops)).text|
    ensures SameAt(ShowAll(Show(d, m), ops), Show(ShowAll(d, ops), Batch(m, ops)), q)
  {
    hide ValidRun, ShowAll, Show, Batch, Track, QuoteAt, LastMark, Covers, Fits, ValidOn, Dispute, SameAt;
    if p: nat :| p < |d.text| && Track(p, ops) == q {
      MarkShownAt(d, m, ops, p);
    } else {
      if TrackedFrom(m.segs, ops, q) {
        var p: nat :| p <= q && Covers(m.segs, p) && Track(p, ops) == q;
        CoveredInBounds(m, d.text, p);
        assert false;
      }
      ShowLength(d, d, m);
      BatchTracks(m, ops, q);
      MarksMoveNothing(m, ops, d, d);
      NewShownAt(d, m, ops, q);
    }
  }

  lemma {:induction false} InsShownAgainstList(d: Doc, a: Op, ops: seq<Op>)
    requires a.Ins? && Coherent(d) && ValidOn(a, d.text) && Fits(a, |d.text|) && ValidRun(ops, d) && Foreign(a, ops)
    requires ValidRun(Rebase(ops, a), Show(d, a)) && Fits(Batch(a, ops), |ShowAll(d, ops).text|)
    ensures ShowAll(Show(d, a), Rebase(ops, a)) == Show(ShowAll(d, ops), Batch(a, ops))
    decreases |ops|
  {
    if ops != [] {
      hide Show, ValidOn, Fits;
      var b, rest := ops[0], ops[1..];
      var a', b' := Transform(a, b), Transform(b, a);
      ValidFits(b, d.text) by { assert ValidOn(b, d.text); }
      ShowSquare(d, a, b);
      FirstShown(d, ops);
      FirstShown(Show(d, a), Rebase(ops, a));
      assert Rebase(ops, a) == [b'] + Rebase(rest, a');
      TransformKeepsValid(a, b, d.text);
      ShowIff(d, b);
      forall i | 0 <= i < |rest| ensures a'.site != rest[i].site { assert rest[i] == ops[i + 1]; }
      InsShownAgainstList(Show(d, b), a', rest);
    }
  }

  /** TP1 as shown, for one operation against a list: the two orders agree if and only if the
      operation is harmless and undisputed. */
  lemma OneShownAgainstList(d: Doc, a: Op, ops: seq<Op>)
    requires Coherent(d) && ValidOn(a, d.text) && ValidRun(ops, d) && Foreign(a, ops)
    ensures Fits(a, |d.text|) && ValidRun(Rebase(ops, a), Show(d, a)) && Fits(Batch(a, ops), |ShowAll(d, ops).text|)
    ensures Alike(ShowAll(Show(d, a), Rebase(ops, a)), Show(ShowAll(d, ops), Batch(a, ops)))
       <==> Harmless(a, ops) && Undisputed(d, a, ops)
  {
    hide ValidRun, Replay, ShowAll, Show, Apply, Batch, Rebase, Harmless, SameAt, Killed, FirstQuote, Covers, QuoteAt;
    OneAgainstList(d, a, ops);
    ShowIff(d, a);
    RunOnSameLength(Apply(d, a), Show(d, a), Rebase(ops, a));
    ShowAllIs(d, ops);
    if a.Mark? {
      RebaseOverMark(ops, a);
      MarkShownAgainstList(d, a, ops);
    } else {
      InsertionIsHarmless(a, ops);
      InsShownAgainstList(d, a, ops);
      AlikeItself(ShowAll(Show(d, a), Rebase(ops, a)));
    }
  }

  lemma AlikeItself(d: Doc)
    requires Coherent(d)
    ensures Alike(d, d)
  {}

  // ---------------------------------------------------------------- when there is no dispute

  lemma {:induction false} FirstQuoteIs(d: Doc, ops: seq<Op>, p: nat)
    requires Coherent(d) && p < |d.text| && ValidRun(ops, d) && QuotingRun(ops, d) && FirstQuote(p, ops).Some?
    ensures FirstQuote(p, ops).value == d.text[p]
    decreases |ops|
  {
    hide QuoteAt, Covers;
    var op := ops[0];
    if op.Mark? && op.live && Covers(op.segs, p) {
      QuoteIs(op.segs, d.text, p);
    } else {
      FirstQuoteIs(Apply(d, op), ops[1..], TrackOne(p, op));
    }
  }

  /** Operations that quote the text they mark are undisputed. */
  lemma QuotingIsUndisputed(d: Doc, a: Op, ops: seq<Op>)
    requires Coherent(d) && ValidOn(a, d.text) && ValidRun(ops, d) && Quotes(a, d.text) && QuotingRun(ops, d)
    ensures Undisputed(d, a, ops)
  {
    hide QuoteAt, Covers, ValidRun, QuotingRun, FirstQuote, Killed;
    forall p: nat | p < |d.text| ensures !Dispute(d, a, ops, p) {
      if Dispute(d, a, ops, p) {
        QuoteIs(a.segs, d.text, p);
        FirstQuoteIs(d, ops, p);
      }
    }
  }

  /** So are operations that bring nothing back. */
  lemma DeletionIsUndisputed(d: Doc, a: Op, ops: seq<Op>)
    requires Coherent(d) && (a.Mark? ==> !a.live)
    ensures Undisputed(d, a, ops)
  {}
}
