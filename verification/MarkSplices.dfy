/** What replacing ranges by a marked range means: the interval has the new liveness, the
    list is normalized, and every cursor can be repaired. */
module MarkSplices {
  import opened Ops
  import opened Documents
  import opened Ranges
  import opened Splices
  import opened Runs

  /** At most one range, of liveness `v`. */
  predicate AtMostOne(rs: seq<Range>, v: bool) {
    |rs| <= 1 && forall k :: 0 <= k < |rs| ==> rs[k].IsLive() == v && rs[k].Len() > 0
  }

  /** The parts that replace the ranges [a, b): a remainder of the other liveness, the
      marked range of length `len`, and another remainder. */
  function Parts(pre: seq<Range>, live: bool, len: nat, post: seq<Range>): seq<Range> {
    pre + [RangeOf(live, len)] + post
  }

  /** The marked range reaches from `lo` to `lo + len`: it covers the interval [pos, end)
      and otherwise only characters that already have its liveness; the remainders are
      what is left of the ranges [a, b). */
  predicate MarkFits(rs: seq<Range>, a: nat, b: nat, pre: seq<Range>, live: bool, len: nat, post: seq<Range>, pos: nat, end: nat) {
    && a <= b <= |rs| && AtMostOne(pre, !live) && AtMostOne(post, !live)
    && var lo := TotalLen(rs[..a]) + TotalLen(pre);
    && lo <= pos < end <= lo + len
    && lo + len + TotalLen(post) == TotalLen(rs[..b]) <= |Flat(rs)|
    && Uniform(Flat(rs), TotalLen(rs[..a]), lo, !live)
    && Uniform(Flat(rs), lo, pos, live)
    && Uniform(Flat(rs), end, lo + len, live)
    && Uniform(Flat(rs), lo + len, TotalLen(rs[..b]), !live)
    && (a > 0 ==> (rs[a - 1].IsLive() == live <==> pre != []))
    && (b < |rs| ==> (rs[b].IsLive() == live <==> post != []))
  }

  lemma FlatOfOne(rs: seq<Range>, v: bool)
    requires AtMostOne(rs, v)
    ensures Flat(rs) == Repeat(v, TotalLen(rs))
  {
    if rs != [] {
      assert rs == [rs[0]];
      FlatOne(rs[0]);
    }
  }

  lemma PartsMeaning(pre: seq<Range>, live: bool, len: nat, post: seq<Range>)
    requires AtMostOne(pre, !live) && AtMostOne(post, !live)
    ensures Flat(Parts(pre, live, len, post)) == Repeat(!live, TotalLen(pre)) + Repeat(live, len) + Repeat(!live, TotalLen(post))
    ensures TotalLen(Parts(pre, live, len, post)) == TotalLen(pre) + len + TotalLen(post)
  {
    hide Flat, TotalLen;
    FlatOfOne(pre, !live);
    FlatOfOne(post, !live);
    FlatOne(RangeOf(live, len));
    FlatThree(pre, [RangeOf(live, len)], post);
  }

  lemma FlatSides(rs: seq<Range>, i: nat)
    requires i <= |rs|
    ensures TotalLen(rs[..i]) <= |Flat(rs)|
    ensures Flat(rs[..i]) == Flat(rs)[..TotalLen(rs[..i])] && Flat(rs[i..]) == Flat(rs)[TotalLen(rs[..i])..]
  {
    hide Flat, TotalLen;
    FlatSplit(rs, i);
    FlatCounts(rs[..i]);
  }

  lemma SpliceBetween(rs: seq<Range>, a: nat, b: nat, mid: seq<Range>)
    requires a <= b <= |rs|
    ensures TotalLen(rs[..a]) <= |Flat(rs)| && TotalLen(rs[..b]) <= |Flat(rs)|
    ensures Flat(Splice(rs, a, b, mid)) == Flat(rs)[..TotalLen(rs[..a])] + Flat(mid) + Flat(rs)[TotalLen(rs[..b])..]
  {
    hide Flat, TotalLen;
    FlatSplice(rs, a, b, mid);
    FlatSides(rs, a);
    FlatSides(rs, b);
  }

  /** Stretches of known liveness around a marked one. */
  lemma FiveStretches(flags: seq<bool>, a: nat, lo: nat, pos: nat, end: nat, hi: nat, b: nat, live: bool)
    requires a <= lo <= pos < end <= hi <= b <= |flags|
    requires Uniform(flags, a, lo, !live) && Uniform(flags, lo, pos, live)
    requires Uniform(flags, end, hi, live) && Uniform(flags, hi, b, !live)
    ensures flags[..a] + (Repeat(!live, lo - a) + Repeat(live, hi - lo) + Repeat(!live, b - hi)) + flags[b..]
         == SetRange(flags, pos, end, live)
  {
    var x := Repeat(!live, lo - a) + Repeat(live, hi - lo) + Repeat(!live, b - hi);
    var l, r := flags[..a] + x + flags[b..], SetRange(flags, pos, end, live);
    assert |l| == |r|;
    forall i | 0 <= i < |l| ensures l[i] == r[i] {
      if a <= i < b { assert l[i] == x[i - a]; }
    }
  }

  lemma MarkFlags(rs: seq<Range>, a: nat, b: nat, pre: seq<Range>, live: bool, len: nat, post: seq<Range>, pos: nat, end: nat)
    requires MarkFits(rs, a, b, pre, live, len, post, pos, end)
    ensures Flat(Splice(rs, a, b, Parts(pre, live, len, post))) == SetRange(Flat(rs), pos, end, live)
  {
    hide Flat, TotalLen, Uniform, AtMostOne, Parts, Splice, SetRange;
    SpliceBetween(rs, a, b, Parts(pre, live, len, post));
    PartsMeaning(pre, live, len, post);
    var lo := TotalLen(rs[..a]) + TotalLen(pre);
    FiveStretches(Flat(rs), TotalLen(rs[..a]), lo, pos, end, lo + len, TotalLen(rs[..b]), live);
  }

  lemma MarkNormalized(rs: seq<Range>, a: nat, b: nat, pre: seq<Range>, live: bool, len: nat, post: seq<Range>, pos: nat, end: nat)
    requires Normalized(rs) && MarkFits(rs, a, b, pre, live, len, post, pos, end)
    ensures Normalized(Splice(rs, a, b, Parts(pre, live, len, post)))
  {
    hide Flat, TotalLen, Uniform;
    NormalizedSplice(rs, a, b, Parts(pre, live, len, post));
  }

  function EditorDelta(live: bool, n: int): int { if live then n else -n }

  /** The change of the live length is the length of what was flipped. */
  lemma MarkDelta(rs: seq<Range>, a: nat, b: nat, pre: seq<Range>, live: bool, len: nat, post: seq<Range>,
          pos: nat, end: nat, flipped: seq<Run>)
    requires MarkFits(rs, a, b, pre, live, len, post, pos, end)
    requires end <= |Flat(rs)| && MaximalRuns(Flat(rs), pos, end, !live, flipped)
    ensures var mid := Parts(pre, live, len, post);
            && TotalLen(mid) == TotalLen(rs[a..b])
            && TotalLive(mid) == TotalLive(rs[a..b]) + EditorDelta(live, RunsLen(flipped))
  {
    hide Flat, TotalLen, TotalLive, Count, Uniform;
    var mid := Parts(pre, live, len, post);
    MarkFlags(rs, a, b, pre, live, len, post, pos, end);
    RunsCount(Flat(rs), pos, end, !live, flipped);
    SetRangeCount(Flat(rs), pos, end, live);
    FlatCounts(rs);
    FlatCounts(Splice(rs, a, b, mid));
    FlatThree(rs[..a], mid, rs[b..]);
    FlatThree(rs[..a], rs[a..b], rs[b..]);
    assert rs == rs[..a] + rs[a..b] + rs[b..];
    PartsMeaning(pre, live, len, post);
    assert rs[..b] == rs[..a] + rs[a..b];
    FlatAppend(rs[..a], rs[a..b]);
  }

  // ---------------------------------------------------------------- repairing cursors

  /** `Cursor::shift`, whose unsigned subtractions must not underflow. */
  predicate CanShift(c: Cursor, editorDelta: int, rangeIdxDelta: int) {
    0 <= c.editorPos + editorDelta && (c.rangeIdx.Some? ==> 0 <= c.rangeIdx.value + rangeIdxDelta)
  }

  function Shift(c: Cursor, editorDelta: int, rangeIdxDelta: int): Cursor
    requires CanShift(c, editorDelta, rangeIdxDelta)
  {
    Cursor(c.editorPos + editorDelta, c.internalPos,
           if c.rangeIdx.Some? then Some(c.rangeIdx.value + rangeIdxDelta) else None)
  }

  /** Cursors in the replaced ranges go to the marking cursor `c`, later ones shift. */
  function Repair(other: Cursor, a: nat, b: nat, c: Cursor, editorDelta: int, rangeIdxDelta: int): Cursor
    requires other.rangeIdx.Some? && other.rangeIdx.value >= b ==> CanShift(other, editorDelta, rangeIdxDelta)
  {
    if other.rangeIdx.Some? && a <= other.rangeIdx.value < b then c
    else if other.rangeIdx.Some? && other.rangeIdx.value >= b then Shift(other, editorDelta, rangeIdxDelta)
    else other
  }

  predicate AllCanShift(cursors: map<SiteId, Cursor>, b: nat, editorDelta: int, rangeIdxDelta: int) {
    forall site :: site in cursors && cursors[site].rangeIdx.Some? && cursors[site].rangeIdx.value >= b ==>
      CanShift(cursors[site], editorDelta, rangeIdxDelta)
  }

  function Repaired(cursors: map<SiteId, Cursor>, a: nat, b: nat, c: Cursor, editorDelta: int, rangeIdxDelta: int): map<SiteId, Cursor>
    requires AllCanShift(cursors, b, editorDelta, rangeIdxDelta)
  {
    map site | site in cursors :: Repair(cursors[site], a, b, c, editorDelta, rangeIdxDelta)
  }

  lemma RepairOk(rs: seq<Range>, a: nat, b: nat, mid: seq<Range>, c: Cursor, other: Cursor, editorDelta: int)
    requires a <= b <= |rs| && mid != [] && CursorOk(rs, c) && CursorOk(rs, other)
    requires c.rangeIdx.Some? ==> c.rangeIdx.value <= a
    requires TotalLen(mid) == TotalLen(rs[a..b]) && TotalLive(mid) == TotalLive(rs[a..b]) + editorDelta
    ensures other.rangeIdx.Some? && other.rangeIdx.value >= b ==> CanShift(other, editorDelta, |mid| - (b - a))
    ensures CursorOk(Splice(rs, a, b, mid), Repair(other, a, b, c, editorDelta, |mid| - (b - a)))
  {
    hide TotalLen, TotalLive;
    CursorBeforeSplice(rs, a, b, mid, c);
    if other.rangeIdx.Some? && other.rangeIdx.value >= b {
      CursorAfterSplice(rs, a, b, mid, other);
    } else if other.rangeIdx.None? || other.rangeIdx.value < a {
      CursorBeforeSplice(rs, a, b, mid, other);
    }
  }

  lemma RepairedOk(rs: seq<Range>, a: nat, b: nat, mid: seq<Range>, c: Cursor, cursors: map<SiteId, Cursor>, editorDelta: int)
    requires a <= b <= |rs| && mid != [] && CursorOk(rs, c) && AllOk(rs, cursors)
    requires c.rangeIdx.Some? ==> c.rangeIdx.value <= a
    requires TotalLen(mid) == TotalLen(rs[a..b]) && TotalLive(mid) == TotalLive(rs[a..b]) + editorDelta
    ensures AllCanShift(cursors, b, editorDelta, |mid| - (b - a))
    ensures AllOk(Splice(rs, a, b, mid), Repaired(cursors, a, b, c, editorDelta, |mid| - (b - a)))
    ensures CursorOk(Splice(rs, a, b, mid), c)
  {
    hide TotalLen, TotalLive, Splice, CursorOk;
    RepairOk(rs, a, b, mid, c, Cursor(0, 0, None), editorDelta) by { NoCursorOk(rs); }
    CursorBeforeSplice(rs, a, b, mid, c) by { assert |Splice(rs, a, b, mid)| > a by { SpliceLonger(rs, a, b, mid); } }
    forall site | site in cursors
      ensures cursors[site].rangeIdx.Some? && cursors[site].rangeIdx.value >= b ==> CanShift(cursors[site], editorDelta, |mid| - (b - a))
      ensures CursorOk(Splice(rs, a, b, mid), Repair(cursors[site], a, b, c, editorDelta, |mid| - (b - a)))
    {
      RepairOk(rs, a, b, mid, c, cursors[site], editorDelta);
    }
  }

  lemma MarkBounds(rs: seq<Range>, a: nat, b: nat, pre: seq<Range>, live: bool, len: nat, post: seq<Range>, pos: nat, end: nat)
    requires MarkFits(rs, a, b, pre, live, len, post, pos, end)
    ensures a <= b <= |rs|
  {}

  lemma SpliceIs(rs: seq<Range>, a: nat, b: nat, mid: seq<Range>)
    requires a <= b <= |rs|
    ensures Splice(rs, a, b, mid) == rs[..a] + mid + rs[b..]
  {}

  lemma NoCursorOk(rs: seq<Range>)
    ensures CursorOk(rs, Cursor(0, 0, None))
  {}

  lemma SpliceLonger(rs: seq<Range>, a: nat, b: nat, mid: seq<Range>)
    requires a <= b <= |rs| && mid != []
    ensures |Splice(rs, a, b, mid)| > a
  {}

  // ---------------------------------------------------------------- finding the ranges

  /** The beginning of a mark at range `a`: `len` reaches back from `end` over what already
      has the new liveness, and the rest of the range before it is kept in `pre`. */
  predicate Leading(rs: seq<Range>, a: nat, pre: seq<Range>, len: nat, pos: nat, end: nat, live: bool) {
    && a < |rs| && AtMostOne(pre, !live)
    && var lo := TotalLen(rs[..a]) + TotalLen(pre);
    && lo <= pos < end == lo + len && end <= |Flat(rs)|
    && Uniform(Flat(rs), TotalLen(rs[..a]), lo, !live)
    && Uniform(Flat(rs), lo, pos, live)
    && (a > 0 ==> (rs[a - 1].IsLive() == live <==> pre != []))
  }

  lemma LeadingSame(rs: seq<Range>, i: nat, pos: nat, end: nat, live: bool)
    requires Normalized(rs) && i < |rs| && rs[i].IsLive() == live
    requires TotalLen(rs[..i]) < pos <= TotalLen(rs[..i + 1]) && pos < end <= |Flat(rs)|
    ensures Leading(rs, i, [], end - TotalLen(rs[..i]), pos, end, live)
  {
    hide Flat, TotalLive, Count;
    RangeUniform(rs, i);
  }

  lemma LeadingOther(rs: seq<Range>, i: nat, pos: nat, end: nat, live: bool)
    requires Normalized(rs) && i < |rs| && rs[i].IsLive() != live
    requires TotalLen(rs[..i]) < pos <= TotalLen(rs[..i + 1]) && pos < end <= |Flat(rs)|
    ensures Leading(rs, i, [RangeOf(!live, pos - TotalLen(rs[..i]))], end - pos, pos, end, live)
  {
    hide Flat, TotalLen, TotalLive, Count;
    RangeUniform(rs, i);
    FlatOne(RangeOf(!live, pos - TotalLen(rs[..i])));
  }

  lemma LeadingStart(rs: seq<Range>, i: nat, pos: nat, end: nat, live: bool)
    requires Normalized(rs) && i < |rs| && (i > 0 ==> rs[i - 1].IsLive() != live)
    requires TotalLen(rs[..i]) == pos < end <= |Flat(rs)|
    ensures Leading(rs, i, [], end - pos, pos, end, live)
  {}

  /** The interval ends inside range `i`, which has the new liveness already. */
  lemma EndInsideSame(rs: seq<Range>, a: nat, i: nat, pre: seq<Range>, len: nat, pos: nat, end: nat, live: bool)
    requires Normalized(rs) && a <= i < |rs| && Leading(rs, a, pre, len, pos, end, live)
    requires TotalLen(rs[..i]) <= end <= TotalLen(rs[..i + 1]) && rs[i].IsLive() == live
    ensures MarkFits(rs, a, i + 1, pre, live, len + (TotalLen(rs[..i + 1]) - end), [], pos, end)
  {
    hide Flat, TotalLive, Count;
    RangeUniform(rs, i);
    assert TotalLen([]) == 0;
    hide TotalLen;
  }

  /** The interval ends inside range `i`, whose rest is kept. */
  lemma EndInsideOther(rs: seq<Range>, a: nat, i: nat, pre: seq<Range>, len: nat, pos: nat, end: nat, live: bool)
    requires Normalized(rs) && a <= i < |rs| && Leading(rs, a, pre, len, pos, end, live)
    requires TotalLen(rs[..i]) <= end < TotalLen(rs[..i + 1]) && rs[i].IsLive() != live
    ensures MarkFits(rs, a, i + 1, pre, live, len, [RangeOf(!live, TotalLen(rs[..i + 1]) - end)], pos, end)
  {
    hide Flat, TotalLen, TotalLive, Count;
    RangeUniform(rs, i);
    FlatOne(RangeOf(!live, TotalLen(rs[..i + 1]) - end));
  }

  /** The interval ends with range `i`; a next range of the new liveness is merged. */
  lemma EndAtBorder(rs: seq<Range>, a: nat, i: nat, pre: seq<Range>, len: nat, pos: nat, end: nat, live: bool)
    requires Normalized(rs) && a <= i < |rs| && Leading(rs, a, pre, len, pos, end, live)
    requires end == TotalLen(rs[..i + 1])
    ensures i + 1 == |rs| || rs[i + 1].IsLive() != live ==> MarkFits(rs, a, i + 1, pre, live, len, [], pos, end)
    ensures i + 1 < |rs| && rs[i + 1].IsLive() == live ==>
              MarkFits(rs, a, i + 2, pre, live, len + rs[i + 1].Len(), [], pos, end)
  {
    hide Flat, TotalLive, Count;
    assert TotalLen([]) == 0;
    hide TotalLen;
    RangeUniform(rs, i);
    if i + 1 < |rs| { RangeUniform(rs, i + 1); }
  }
}
