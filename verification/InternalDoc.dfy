/** The run-length document of collab_mode/src/engine.rs with its cached cursors. Its
    meaning is the liveness of every character; every operation is specified by what it
    does to that, and keeps every cursor exact. */
module InternalDocs {
  import opened Ops
  import opened Documents
  import opened Ranges
  import opened Splices
  import opened RangeIterators
  import opened Runs
  import opened MarkSplices
  import opened Marks
  import opened Views
  import opened Segments
  import opened Showing

  /** Where the editor's position `pos` lands, looked up from cursor `c`: after `pos` live
      characters, at the cursor's own range if that begins there, and otherwise before the
      dead characters that follow them. */
  predicate Lands(flags: seq<bool>, c: Cursor, pos: nat, r: nat) {
    && r <= |flags| && Count(flags[..r]) == pos
    && if pos > 0 && pos == c.editorPos then r == c.internalPos else r == 0 || flags[r - 1]
  }

  /** No earlier position has as many live characters before it. */
  predicate FirstOfRank(flags: seq<bool>, r: nat)
    requires r <= |flags|
  {
    forall q :: 0 <= q < r ==> Count(flags[..q]) < Count(flags[..r])
  }

  lemma FirstAfterLive(flags: seq<bool>, r: nat)
    requires r <= |flags|
    ensures FirstOfRank(flags, r) <==> r == 0 || flags[r - 1]
  {
    hide Count;
    if r > 0 {
      assert flags[..r] == flags[..r - 1] + [flags[r - 1]];
      CountAppend(flags[..r - 1], [flags[r - 1]]);
      OneCount(flags[r - 1]);
      forall q | 0 <= q < r ensures Count(flags[..q]) <= Count(flags[..r - 1]) { CountMonotone(flags, q, r - 1); }
    }
  }

  lemma OneCount(live: bool)
    ensures Count([live]) == if live then 1 else 0
  {
    CountRepeat(live, 1);
    assert [live] == Repeat(live, 1);
  }

  /** Dead characters at the position come after it, as `convert_pos` has it in a comment, if
      and only if the cursor does not stand right after them at the beginning of its range. */
  lemma LandsFirstIff(rs: seq<Range>, c: Cursor, pos: nat, r: nat)
    requires Normalized(rs) && CursorOk(rs, c) && Lands(Flat(rs), c, pos, r)
    ensures !FirstOfRank(Flat(rs), r) <==>
              pos > 0 && pos == c.editorPos && c.rangeIdx.Some? && c.rangeIdx.value > 0 && rs[c.rangeIdx.value].IsLive()
  {
    hide Flat, TotalLen, TotalLive, Count;
    FirstAfterLive(Flat(rs), r);
    NoRanges(rs);
    if pos > 0 && pos == c.editorPos && c.rangeIdx.Some? && c.rangeIdx.value > 0 {
      var i := c.rangeIdx.value;
      NextRange(rs, i - 1);
      InsideRange(rs, i - 1, r - 1);
    }
  }

  /** The cursor of a client stands after the dead character in the middle: position 1 is
      looked up as 2, although 1 has as many live characters before it. */
  lemma LandsAfterDead()
    ensures var rs, c := [Live(1), Dead(1), Live(1)], Cursor(1, 2, Some(2));
            Normalized(rs) && CursorOk(rs, c) && Lands(Flat(rs), c, 1, 2) && !FirstOfRank(Flat(rs), 2)
  {
    hide Flat, TotalLen, TotalLive, Count;
    var rs := [Live(1), Dead(1), Live(1)];
    NoRanges(rs);
    NextRange(rs, 0);
    NextRange(rs, 1);
    NextRange(rs, 2);
    InsideRange(rs, 1, 1);
    InsideRange(rs, 2, 2);
    FirstAfterLive(Flat(rs), 2);
  }

  lemma LandsInNothing(c: Cursor)
    ensures Lands([], c, 0, 0)
  {}

  /** Where a lookup that ends in range `i` lands. */
  lemma SoughtIsFirst(rs: seq<Range>, i: nat, pos: nat)
    requires Normalized(rs) && i < |rs| && 0 < pos && TotalLive(rs[..i]) <= pos <= TotalLive(rs[..i]) + rs[i].LiveLen()
    requires pos == TotalLive(rs[..i]) ==> i == 0 || !rs[i].IsLive()
    ensures var r := TotalLen(rs[..i]) + (pos - TotalLive(rs[..i])); 0 < r <= |Flat(rs)| && Flat(rs)[r - 1]
  {
    hide Flat, TotalLen, TotalLive, Count;
    NoRanges(rs);
    NextRange(rs, i);
    if pos == TotalLive(rs[..i]) {
      NextRange(rs, i - 1);
      InsideRange(rs, i - 1, TotalLen(rs[..i]) - 1);
      InsideRange(rs, i, TotalLen(rs[..i]));
    } else {
      InsideRange(rs, i, TotalLen(rs[..i]) + (pos - TotalLive(rs[..i])) - 1);
    }
  }

  class InternalDoc {
    var ranges: seq<Range>
    var cursors: map<SiteId, Cursor>

    ghost predicate Valid()
      reads this
    {
      Normalized(ranges) && AllOk(ranges, cursors)
    }

    /** What the document stands for. */
    ghost function Flags(): seq<bool>
      reads this
    {
      Flat(ranges)
    }

    constructor (initLen: nat)
      ensures Valid() && cursors == map[]
      ensures Flags() == Repeat(true, initLen)
    {
      ranges := if initLen > 0 then [Live(initLen)] else [];
      cursors := map[];
      new;
      FlatOne(Live(initLen));
    }

    constructor CopyOf(doc: InternalDoc)
      requires doc.Valid()
      ensures Valid() && ranges == doc.ranges && cursors == doc.cursors
    {
      ranges, cursors := doc.ranges, doc.cursors;
    }

    method EditorLen() returns (len: nat)
      ensures len == Count(Flags())
    {
      len := 0;
      for i := 0 to |ranges|
        invariant len == TotalLive(ranges[..i])
      {
        NextRange(ranges, i);
        if ranges[i].Live? { len := len + ranges[i].Len(); }
      }
      AllRanges(ranges);
      FlatCounts(ranges);
    }

    method GetCursor(site: SiteId) returns (c: Cursor)
      requires Valid()
      modifies this`cursors
      ensures Valid() && site in cursors && c == cursors[site]
      ensures cursors == if site in old(cursors) then old(cursors) else old(cursors)[site := Cursor(0, 0, None)]
    {
      if site !in cursors {
        cursors := cursors[site := Cursor(0, 0, None)];
      }
      c := cursors[site];
    }

    /** The range of the cursor contains internal position `p` (or ends there). */
    ghost predicate Reaches(c: Cursor, p: nat)
      reads this
    {
      && CursorOk(ranges, c) && c.rangeIdx.Some?
      && c.internalPos <= p <= c.internalPos + ranges[c.rangeIdx.value].Len()
    }

    /** The cursor is at range `i`, although it may not say so yet. */
    ghost predicate Walking(i: nat, c: Cursor)
      reads this
    {
      && i < |ranges| && c.internalPos == TotalLen(ranges[..i]) && c.editorPos == TotalLive(ranges[..i])
      && (c.rangeIdx.Some? ==> c.rangeIdx.value == i)
    }

    /** The length of range `i` in the positions that are being looked up. */
    ghost function Width(i: nat, editorPos: bool): nat
      requires i < |ranges|
      reads this
    {
      if editorPos then ranges[i].LiveLen() else ranges[i].Len()
    }

    /** The loop of `convert_pos` to the right. */
    method SeekForward(pos: nat, from: nat, cursor: Cursor, editorPos: bool) returns (i: nat, c: Cursor)
      requires Walking(from, cursor) && cursor.Pos(editorPos) < pos
      requires pos <= if editorPos then TotalLive(ranges) else TotalLen(ranges)
      ensures Walking(i, c) && c.Pos(editorPos) < pos <= c.Pos(editorPos) + Width(i, editorPos)
    {
      hide TotalLen, TotalLive;
      i, c := from, cursor;
      AllRanges(ranges);
      while pos > c.Pos(editorPos) + if editorPos then ranges[i].LiveLen() else ranges[i].Len()
        invariant Walking(i, c) && c.Pos(editorPos) < pos
        decreases |ranges| - i
      {
        NextRange(ranges, i);
        PrefixBounds(ranges, i + 1);
        c := c.(internalPos := c.internalPos + ranges[i].Len());
        if ranges[i].IsLive() { c := c.(editorPos := c.editorPos + ranges[i].Len()); }
        i := i + 1;
        c := c.(rangeIdx := Some(i));
      }
    }

    /** The loop of `convert_pos` to the left. */
    method SeekBack(pos: nat, from: nat, cursor: Cursor, editorPos: bool) returns (i: nat, c: Cursor)
      requires Walking(from, cursor) && pos <= cursor.Pos(editorPos) && pos <= cursor.Pos(editorPos) + Width(from, editorPos)
      ensures Walking(i, c) && c.Pos(editorPos) <= pos <= c.Pos(editorPos) + Width(i, editorPos)
      ensures editorPos && pos == c.editorPos ==> i == 0 || !ranges[i].IsLive()
    {
      hide TotalLen, TotalLive;
      i, c := from, cursor;
      NoRanges(ranges);
      while pos < c.Pos(editorPos) || (editorPos && pos == c.Pos(editorPos) && ranges[i].IsLive() && i > 0)
        invariant Walking(i, c) && pos <= c.Pos(editorPos) + Width(i, editorPos)
        decreases i
      {
        NextRange(ranges, i - 1);
        i := i - 1;
        c := c.(rangeIdx := Some(i));
        c := c.(internalPos := c.internalPos - ranges[i].Len());
        if ranges[i].IsLive() { c := c.(editorPos := c.editorPos - ranges[i].Len()); }
      }
    }

    /** `convert_pos`: walk from the cursor to the range with `pos`. From the editor's
        position to an internal one the result has exactly `pos` live characters before
        it, and of those it is where `Lands` says; the other way it is the number of live
        characters before `pos`. */
    method ConvertPos(pos: nat, cursor: Cursor, editorPos: bool) returns (r: nat, c: Cursor)
      requires Valid() && CursorOk(ranges, cursor)
      requires ranges != [] ==> pos <= if editorPos then Count(Flags()) else |Flags()|
      ensures ranges == [] ==> r == 0 && c == cursor
      ensures ranges != [] && editorPos ==> r <= |Flags()| && Count(Flags()[..r]) == pos && Reaches(c, r)
      ensures ranges != [] && editorPos ==> Lands(Flags(), cursor, pos, r)
      ensures ranges != [] && !editorPos ==> r == Count(Flags()[..pos]) && Reaches(c, pos)
      ensures CursorOk(ranges, c)
    {
      hide Flat, TotalLen, TotalLive, Count;
      c := cursor;
      FlatCounts(ranges);
      NoRanges(ranges);
      if pos == 0 {
        if |ranges| > 0 { c := Cursor(0, 0, Some(0)); }
        assert Flags()[..0] == [];
        return 0, c;
      }
      if pos == c.Pos(editorPos) {
        r := c.Pos(!editorPos);
        NextRange(ranges, c.rangeIdx.value);
        InsideRange(ranges, c.rangeIdx.value, c.internalPos);
        return;
      }
      if |ranges| == 0 { return 0, c; }
      var i: nat := if c.rangeIdx.Some? then c.rangeIdx.value else 0;
      if i == 0 { c := c.(editorPos := 0, internalPos := 0); }
      AllRanges(ranges);
      if pos > c.Pos(editorPos) {
        i, c := SeekForward(pos, i, c, editorPos);
      } else {
        i, c := SeekBack(pos, i, c, editorPos);
      }
      c := c.(rangeIdx := Some(i));
      NextRange(ranges, i);
      if editorPos {
        r := c.internalPos + (pos - c.editorPos);
        InsideRange(ranges, i, r);
        SoughtIsFirst(ranges, i, pos);
      } else {
        r := c.editorPos + if ranges[i].IsLive() then pos - c.internalPos else 0;
        InsideRange(ranges, i, pos);
      }
    }

    /** `shift_cursors_right`. The source walks the hash map; the order does not matter. */
    method ShiftCursorsRight(idx: nat, delta: nat, rangeIdxDelta: nat)
      modifies this`cursors
      ensures cursors == ShiftedRight(old(cursors), idx, delta, rangeIdxDelta)
    {
      cursors := ShiftedRight(cursors, idx, delta, rangeIdxDelta);
    }

    /** Replace the ranges [a, b) by `mid` and shift the cursors from `b` on: what every
        case of `apply_ins` does to the stored state, written there as an update in place, an
        insertion, a push, or a removal followed by insertions. */
    method SpliceIns(a: nat, b: nat, mid: seq<Range>, ghost pos: nat, len: nat, ghost c: Cursor)
      requires Valid() && a <= b <= |ranges| && len > 0 && |mid| >= b - a && CursorOk(ranges, c)
      requires TotalLen(ranges[..a]) <= pos && InsertCase(ranges, a, b, mid, pos - TotalLen(ranges[..a]), len)
      modifies this
      ensures ranges == Splice(old(ranges), a, b, mid) && cursors.Keys == old(cursors.Keys)
      ensures pos <= |old(Flags())| && Flags() == Insert(old(Flags()), pos, Repeat(true, len))
      ensures Valid()
      ensures CursorOk(ranges, ShiftRight(c, b, len, |mid| - (b - a)))
      ensures |mid| == 3 ==> CursorOk(ranges, Cursor(TotalLive(old(ranges)[..a]), pos, Some(a + 1)))
    {
      hide Flat, TotalLen, TotalLive, Count, Insert, AllOk, InsertCase, CursorOk, Normalized;
      InsertInto(ranges, a, b, mid, pos, len, cursors, c);
      ranges := ranges[..a] + mid + ranges[b..];
      ShiftCursorsRight(b, len, |mid| - (b - a));
    }

    /** `apply_ins`, with the seven cases of the source: `len` live characters appear at
        `pos`, and all stored cursors stay exact. */
    method ApplyIns(pos: nat, len: nat, cursor: Cursor) returns (c: Cursor)
      requires Valid() && len > 0
      requires if ranges == [] then pos == 0 && CursorOk(ranges, cursor) else Reaches(cursor, pos)
      modifies this
      ensures pos <= |old(Flags())| && Flags() == Insert(old(Flags()), pos, Repeat(true, len))
      ensures Valid() && cursors.Keys == old(cursors.Keys)
      ensures CursorOk(ranges, c)
    {
      hide Flat, TotalLen, TotalLive, Count, Insert, AllOk, Splice;
      c := cursor;
      if |ranges| == 0 {
        // (a)
        InsertEmpty(len, cursors, c);
        ranges := ranges + [Live(len)];
        return;
      }
      var i := c.rangeIdx.value;
      var rangeBeg, rangeEnd := c.internalPos, c.internalPos + ranges[i].Len();
      NextRange(ranges, i);
      assert rangeBeg <= pos <= rangeEnd;
      if ranges[i].IsLive() {
        // (b)
        SpliceIns(i, i + 1, [Live(ranges[i].Len() + len)], pos, len, c);
        return;
      }
      if rangeBeg == pos {
        if i >= 1 {
          // (c) The range before is live: grow it.
          assert ranges[i - 1].IsLive();
          NextRange(ranges, i - 1);
          SpliceIns(i - 1, i, [Live(ranges[i - 1].Len() + len)], pos, len, c);
          c := c.(internalPos := c.internalPos + len, editorPos := c.editorPos + len);
        } else {
          // (d)
          SpliceIns(i, i, [Live(len)], pos, len, c);
          c := Cursor(c.editorPos + len, c.internalPos + len, Some(i + 1));
        }
        return;
      }
      if rangeEnd == pos {
        if i + 1 < |ranges| {
          // (e) The range after is live: grow it.
          assert ranges[i + 1].IsLive();
          SpliceIns(i + 1, i + 2, [Live(ranges[i + 1].Len() + len)], pos, len, c);
        } else {
          // (f) No cursor is after the last range, so none moves.
          SpliceIns(i + 1, i + 1, [Live(len)], pos, len, c);
        }
        return;
      }
      // (g)
      var mid := pos - rangeBeg;
      SpliceIns(i, i + 1, [Dead(mid), Live(len), Dead(ranges[i].Len() - mid)], pos, len, c);
      c := Cursor(c.editorPos, pos, Some(i + 1));
    }

    // -------------------------------------------------------------- marking

    /** Before the first range that overlaps the interval: nothing is collected yet, and a
        range that begins where the interval does has a predecessor of the other liveness
        or none. */
    ghost predicate Seeking(it: RangeIterator, c: Cursor, cursor: Cursor, pos: nat, live: bool)
      requires cursor.rangeIdx.Some?
      reads this
    {
      && it.affectedBeg == it.rangeIdx < |ranges| && it.rangeBeg <= pos && c == cursor
      && (cursor.rangeIdx.value <= it.rangeIdx || (cursor.rangeIdx.value == it.rangeIdx + 1 && it.rangeEnd <= pos))
      && (it.rangeBeg == pos && it.rangeIdx > 0 ==> ranges[it.rangeIdx - 1].IsLive() != live)
    }

    /** After it: a mark has begun, and the flipped runs up to the current range are known. */
    ghost predicate Collecting(it: RangeIterator, c: Cursor, pre: seq<Range>, len: nat, flipped: seq<Run>, pos: nat, end: nat, live: bool)
      reads this
    {
      && it.affectedBeg < it.rangeIdx < |ranges| && pos <= it.rangeBeg < end
      && Leading(ranges, it.affectedBeg, pre, len, pos, end, live)
      && c.rangeIdx.Some? && c.rangeIdx.value <= it.affectedBeg
      && it.rangeBeg <= |Flags()| && MaximalRuns(Flags(), pos, it.rangeBeg, !live, flipped)
      && (flipped != [] ==> RunEnd(flipped[|flipped| - 1]) < it.rangeBeg || it.isLive == live)
    }

    /** A range before the interval that does not touch it with the new liveness. */
    lemma StillSeeking(it: RangeIterator, c: Cursor, cursor: Cursor, pos: nat, live: bool)
      requires Valid() && it.At(ranges) && cursor.rangeIdx.Some? && Seeking(it, c, cursor, pos, live)
      requires it.rangeEnd <= pos && (it.rangeEnd == pos ==> it.isLive != live) && it.rangeIdx + 1 < |ranges|
      ensures Seeking(it.ContractAffectedRight().MoveRight(ranges).ExtendAffectedRight(), c, cursor, pos, live)
    {
      hide Flat, TotalLen, TotalLive, Count, AllOk;
    }

    lemma NowCollecting(it: RangeIterator, c: Cursor, pre: seq<Range>, len: nat, flipped: seq<Run>, pos: nat, end: nat, live: bool)
      requires Valid() && it.At(ranges) && it.affectedBeg <= it.rangeIdx && it.rangeIdx + 1 < |ranges|
      requires Leading(ranges, it.affectedBeg, pre, len, pos, end, live) && pos <= it.rangeEnd < end
      requires c.rangeIdx.Some? && c.rangeIdx.value <= it.affectedBeg
      requires it.rangeEnd <= |Flags()| && MaximalRuns(Flags(), pos, it.rangeEnd, !live, flipped)
      requires it.isLive == live && flipped != [] ==> RunEnd(flipped[|flipped| - 1]) < it.rangeEnd
      ensures Collecting(it.MoveRight(ranges).ExtendAffectedRight(), c, pre, len, flipped, pos, end, live)
    {
      hide Flat, TotalLen, TotalLive, Count, AllOk, MaximalRuns, Leading;
    }

    /** The part of the current range inside the interval flips if the range does not have
        the new liveness. (The source pushes this run in four places, one for each way the
        range can overlap; `push_wo_dup` asserts that runs never touch.) */
    method CollectFlip(it: RangeIterator, pos: nat, end: nat, live: bool, flipped: seq<Run>) returns (res: seq<Run>)
      requires Valid() && it.At(ranges) && it.rangeBeg < end <= |Flags()| && pos < it.rangeEnd && pos < end
      requires MaximalRuns(Flags(), pos, Max(pos, it.rangeBeg), !live, flipped)
      requires flipped != [] ==> pos <= it.rangeBeg && (RunEnd(flipped[|flipped| - 1]) < it.rangeBeg || it.isLive == live)
      ensures MaximalRuns(Flags(), pos, Min(end, it.rangeEnd), !live, res)
      ensures it.isLive == live ==> res == flipped && (res != [] ==> RunEnd(res[|res| - 1]) <= it.rangeBeg)
    {
      hide Flat, TotalLen, TotalLive, Count, AllOk, MaximalRuns;
      RangeUniform(ranges, it.rangeIdx);
      var beg, stop := Max(pos, it.rangeBeg), Min(end, it.rangeEnd);
      if it.isLive == live {
        RunsSkip(Flags(), pos, beg, stop, !live, flipped);
        RunsBound(Flags(), pos, beg, !live, flipped);
        res := flipped;
      } else {
        var run: Run := (beg, stop - beg);
        if flipped != [] { assert RunEnd(flipped[|flipped| - 1]) < run.0; }
        RunsExtend(Flags(), pos, beg, stop, !live, flipped);
        res := flipped + [run];
      }
    }

    /** The first range that overlaps the interval, when it begins before it. */
    method LeadIn(it: RangeIterator, pos: nat, end: nat, live: bool, len: nat, cursor: Cursor)
      returns (pre: seq<Range>, mlen: nat, c: Cursor)
      requires Valid() && it.At(ranges) && it.rangeBeg < pos < it.rangeEnd && pos < end <= |Flags()| && len == end - pos
      requires CursorOk(ranges, cursor) && cursor.rangeIdx.Some? && cursor.rangeIdx.value <= it.rangeIdx
      ensures Leading(ranges, it.rangeIdx, pre, mlen, pos, end, live)
      ensures CursorOk(ranges, c) && c.rangeIdx.Some? && c.rangeIdx.value <= it.rangeIdx
    {
      hide Flat, TotalLen, TotalLive, Count, AllOk, Leading;
      NextRange(ranges, it.rangeIdx);
      var prefixLen := pos - it.rangeBeg;
      if it.isLive == live {
        LeadingSame(ranges, it.rangeIdx, pos, end, live);
        pre, mlen, c := [], len + prefixLen, it.Beginning();
      } else {
        LeadingOther(ranges, it.rangeIdx, pos, end, live);
        pre, mlen, c := [RangeOf(!live, prefixLen)], len, cursor;
      }
    }

    ghost predicate Progress(it: RangeIterator, c: Cursor, cursor: Cursor, pre: seq<Range>, mlen: nat, flipped: seq<Run>,
                             pos: nat, markLen: nat, live: bool)
      requires cursor.rangeIdx.Some?
      reads this
    {
      && it.At(ranges) && it.affectedEnd == it.rangeIdx + 1
      && CursorOk(ranges, c) && c.rangeIdx.Some?
      && (|| (Seeking(it, c, cursor, pos, live) && pre == [] && flipped == [] && mlen == markLen)
          || Collecting(it, c, pre, mlen, flipped, pos, pos + markLen, live))
    }

    /** A range that overlaps the interval, up to where the interval may end. */
    method Overlap(it: RangeIterator, cur: Cursor, ghost cursor: Cursor, pre: seq<Range>, mlen: nat, flipped: seq<Run>,
                   pos: nat, markLen: nat, live: bool)
      returns (pre': seq<Range>, mlen': nat, flipped': seq<Run>, c: Cursor)
      requires Valid() && cursor.rangeIdx.Some? && markLen > 0 && pos + markLen <= |Flags()|
      requires Progress(it, cur, cursor, pre, mlen, flipped, pos, markLen, live) && pos < it.rangeEnd
      ensures it.affectedBeg <= it.rangeIdx && it.rangeBeg < pos + markLen
      ensures Leading(ranges, it.affectedBeg, pre', mlen', pos, pos + markLen, live)
      ensures CursorOk(ranges, c) && c.rangeIdx.Some? && c.rangeIdx.value <= it.affectedBeg
      ensures MaximalRuns(Flags(), pos, Min(pos + markLen, it.rangeEnd), !live, flipped')
      ensures it.isLive == live && flipped' != [] ==> RunEnd(flipped'[|flipped'| - 1]) <= it.rangeBeg
    {
      hide Flat, TotalLen, TotalLive, Count, MaximalRuns, AllOk, Leading;
      pre', mlen', c := pre, mlen, cur;
      NoRuns(Flags(), pos, pos, !live);
      if it.rangeBeg < pos {
        pre', mlen', c := LeadIn(it, pos, pos + markLen, live, mlen, cur);
      } else if it.affectedBeg == it.rangeIdx {
        LeadingStart(ranges, it.rangeIdx, pos, pos + markLen, live);
      }
      flipped' := CollectFlip(it, pos, pos + markLen, live, flipped);
    }

    /** The range in which (or with which) the interval ends. */
    method LeadOut(it: RangeIterator, pos: nat, end: nat, live: bool, pre: seq<Range>, mlen: nat)
      returns (b: nat, parts: seq<Range>, ghost len: nat, ghost post: seq<Range>)
      requires Valid() && it.At(ranges) && it.affectedEnd == it.rangeIdx + 1 && it.affectedBeg <= it.rangeIdx
      requires it.rangeBeg < end <= it.rangeEnd && Leading(ranges, it.affectedBeg, pre, mlen, pos, end, live)
      ensures parts == Parts(pre, live, len, post)
      ensures MarkFits(ranges, it.affectedBeg, b, pre, live, len, post, pos, end)
    {
      hide Flat, TotalLen, TotalLive, Count, AllOk, Leading, MarkFits;
      NextRange(ranges, it.rangeIdx);
      len, post := mlen, [];
      if it.rangeEnd > end {
        var suffixLen := it.rangeEnd - end;
        if it.isLive == live {
          EndInsideSame(ranges, it.affectedBeg, it.rangeIdx, pre, mlen, pos, end, live);
          len := mlen + suffixLen;
          parts := pre + [RangeOf(live, mlen + suffixLen)];
        } else {
          EndInsideOther(ranges, it.affectedBeg, it.rangeIdx, pre, mlen, pos, end, live);
          parts := pre + [RangeOf(live, mlen)] + [RangeOf(!live, suffixLen)];
          post := [RangeOf(!live, suffixLen)];
        }
        b := it.affectedEnd;
      } else {
        EndAtBorder(ranges, it.affectedBeg, it.rangeIdx, pre, mlen, pos, end, live);
        var next, total := it, mlen;
        if it.rangeIdx + 1 < |ranges| {
          next := it.MoveRight(ranges);
          if next.isLive == live {
            total := total + next.RangeLen(ranges);
            next := next.ExtendAffectedRight();
          }
        }
        len := total;
        parts := pre + [RangeOf(live, total)];
        b := next.affectedEnd;
      }
      assert parts == Parts(pre, live, len, post);
    }

    /** A range that ends at or before the beginning of the interval. */
    method Before(it: RangeIterator, cur: Cursor, ghost cursor: Cursor, ghost pre: seq<Range>, mlen: nat, ghost flipped: seq<Run>,
                  pos: nat, markLen: nat, live: bool)
      returns (it': RangeIterator, mlen': nat, c: Cursor)
      requires Valid() && cursor.rangeIdx.Some? && markLen > 0 && pos + markLen <= |Flags()|
      requires Progress(it, cur, cursor, pre, mlen, flipped, pos, markLen, live) && it.rangeEnd <= pos
      requires it.rangeIdx + 1 < |ranges|
      ensures it'.At(ranges) && it'.rangeIdx == it.rangeIdx && it'.affectedEnd == it.affectedEnd
      ensures Progress(it'.MoveRight(ranges).ExtendAffectedRight(), c, cursor, pre, mlen', flipped, pos, markLen, live)
    {
      hide Flat, TotalLen, TotalLive, Count, MaximalRuns, AllOk, Leading;
      it', mlen', c := it, mlen, cur;
      NextRange(ranges, it.rangeIdx);
      if it.rangeEnd < pos || it.isLive != live {
        StillSeeking(it, c, cursor, pos, live);
        it' := it.ContractAffectedRight();
      } else {
        NoRuns(Flags(), pos, pos, !live);
        LeadingSame(ranges, it.rangeIdx, pos, pos + markLen, live);
        mlen' := mlen + it.RangeLen(ranges);
        c := it.Beginning();
        NowCollecting(it, c, pre, mlen', flipped, pos, pos + markLen, live);
      }
    }

    /** The loop that `apply_mark_dead` and `apply_mark_live` share (the two differ only in
        which liveness they set): find the ranges [a, b) to replace, what replaces them, and
        the runs whose liveness flips. */
    method MarkSpan(pos: nat, markLen: nat, cursor: Cursor, live: bool)
      returns (a: nat, b: nat, parts: seq<Range>, flipped: seq<Run>, c: Cursor,
               ghost pre: seq<Range>, ghost len: nat, ghost post: seq<Range>)
      requires Valid() && markLen > 0 && pos + markLen <= |Flags()|
      requires CursorOk(ranges, cursor) && cursor.rangeIdx.Some? && cursor.internalPos <= pos
      ensures parts == Parts(pre, live, len, post)
      ensures MarkFits(ranges, a, b, pre, live, len, post, pos, pos + markLen)
      ensures MaximalRuns(Flags(), pos, pos + markLen, !live, flipped)
      ensures CursorOk(ranges, c) && c.rangeIdx.Some? && c.rangeIdx.value <= a
    {
      hide Flat, TotalLen, TotalLive, Count, MaximalRuns, AllOk, Leading, MarkFits;
      var end := pos + markLen;
      var mlen: nat := markLen;
      var finalRanges: seq<Range> := [];
      c, flipped := cursor, [];
      var it := IteratorAt(ranges, cursor);
      if it.rangeEnd > pos && it.rangeIdx > 0 {
        it := it.MoveLeft(ranges).ShiftAffectedLeft();
      }
      FlatCounts(ranges);
      while true
        invariant Progress(it, c, cursor, finalRanges, mlen, flipped, pos, markLen, live)
        decreases |ranges| - it.rangeIdx
      {
        AllRanges(ranges);
        NextRange(ranges, it.rangeIdx);
        if it.rangeEnd <= pos {
          it, mlen, c := Before(it, c, cursor, finalRanges, mlen, flipped, pos, markLen, live);
        } else {
          finalRanges, mlen, flipped, c := Overlap(it, c, cursor, finalRanges, mlen, flipped, pos, markLen, live);
          if it.rangeEnd >= end {
            b, parts, len, post := LeadOut(it, pos, end, live, finalRanges, mlen);
            a, pre := it.affectedBeg, finalRanges;
            return;
          }
          NowCollecting(it, c, finalRanges, mlen, flipped, pos, end, live);
        }
        it := it.MoveRight(ranges).ExtendAffectedRight();
      }
      assert false;
    }

    /** The body of `apply_mark_dead` and `apply_mark_live`: exactly the interval changes, the
        flipped runs are returned, and every cursor, the caller's included, stays exact. No
        subtraction in `Cursor::shift` underflows (`AllCanShift`). */
    method ApplyMark(pos: nat, len: nat, cursor: Cursor, live: bool) returns (flipped: seq<Run>, c: Cursor)
      requires Valid() && len > 0 && pos + len <= |Flags()|
      requires CursorOk(ranges, cursor) && cursor.rangeIdx.Some? && cursor.internalPos <= pos
      modifies this
      ensures Flags() == SetRange(old(Flags()), pos, pos + len, live)
      ensures MaximalRuns(old(Flags()), pos, pos + len, !live, flipped)
      ensures Valid() && cursors.Keys == old(cursors.Keys)
      ensures CursorOk(ranges, c) && c.rangeIdx.Some?
    {
      hide Flat, TotalLen, TotalLive, Count, MaximalRuns, AllOk, MarkFits, AllCanShift, CursorOk, Normalized, Splice;
      var a, b, parts;
      ghost var pre, mlen, post;
      a, b, parts, flipped, c, pre, mlen, post := MarkSpan(pos, len, cursor, live);
      MarkBounds(ranges, a, b, pre, live, mlen, post, pos, pos + len);
      MarkFlags(ranges, a, b, pre, live, mlen, post, pos, pos + len);
      MarkNormalized(ranges, a, b, pre, live, mlen, post, pos, pos + len);
      MarkDelta(ranges, a, b, pre, live, mlen, post, pos, pos + len, flipped);
      var flippedLen := RunsLen(flipped);
      RepairedOk(ranges, a, b, parts, c, cursors, EditorDelta(live, flippedLen));
      cursors := Repaired(cursors, a, b, c, EditorDelta(live, flippedLen), |parts| - (b - a));
      ghost var before := ranges;
      ranges := ranges[..a] + parts + ranges[b..];
      SpliceIs(before, a, b, parts);
    }

    /** `apply_mark_dead`: also returns the runs that were live. */
    method ApplyMarkDead(pos: nat, len: nat, cursor: Cursor) returns (flipped: seq<Run>, c: Cursor)
      requires Valid() && len > 0 && pos + len <= |Flags()|
      requires CursorOk(ranges, cursor) && cursor.rangeIdx.Some? && cursor.internalPos <= pos
      modifies this
      ensures Flags() == SetRange(old(Flags()), pos, pos + len, false)
      ensures MaximalRuns(old(Flags()), pos, pos + len, true, flipped)
      ensures Valid() && cursors.Keys == old(cursors.Keys)
      ensures CursorOk(ranges, c) && c.rangeIdx.Some?
    {
      flipped, c := ApplyMark(pos, len, cursor, false);
    }

    /** `apply_mark_live`. */
    method ApplyMarkLive(pos: nat, len: nat, cursor: Cursor) returns (c: Cursor)
      requires Valid() && len > 0 && pos + len <= |Flags()|
      requires CursorOk(ranges, cursor) && cursor.rangeIdx.Some? && cursor.internalPos <= pos
      modifies this
      ensures Flags() == SetRange(old(Flags()), pos, pos + len, true)
      ensures Valid() && cursors.Keys == old(cursors.Keys)
      ensures CursorOk(ranges, c) && c.rangeIdx.Some?
    {
      var flipped;
      flipped, c := ApplyMark(pos, len, cursor, true);
    }

    // -------------------------------------------------------------- editor edits of a mark

    /** The edits so far belong to the runs so far. */
    ghost predicate Captured(pos: nat, text: string, edits: seq<Edit>, res: seq<Edit>, runs: seq<Run>)
      reads this
    {
      edits <= res && EditsOf(Flags(), Seg(pos, text), runs, res, |edits|)
    }

    /** The three ways a range of the other liveness can meet the marked interval. */
    method CapturedEdit(it: RangeIterator, markedBeg: nat, text: string, live: bool) returns (e: Edit)
      requires Valid() && it.At(ranges) && it.isLive != live && markedBeg + |text| <= |Flags()|
      requires it.rangeBeg < markedBeg + |text| && markedBeg < it.rangeEnd
      ensures var beg, end := Max(markedBeg, it.rangeBeg), Min(markedBeg + |text|, it.rangeEnd);
              EditOf(Flags(), markedBeg, text, (beg, end - beg), e)
    {
      hide Flat, TotalLen, TotalLive, Count, AllOk;
      var markedEnd := markedBeg + |text|;
      NextRange(ranges, it.rangeIdx);
      if it.rangeBeg <= markedBeg {
        // The range holds the beginning of the interval.
        var capturedEnd := Min(it.rangeEnd, markedEnd) - markedBeg;
        InsideRange(ranges, it.rangeIdx, markedBeg);
        e := Edit(if it.isLive then it.editorRangeBeg + (markedBeg - it.rangeBeg) else it.editorRangeBeg,
                  text[..capturedEnd]);
      } else if it.rangeBeg <= markedEnd && markedEnd <= it.rangeEnd {
        // The range holds the end of the interval.
        InsideRange(ranges, it.rangeIdx, it.rangeBeg);
        e := Edit(it.editorRangeBeg, text[Max(it.rangeBeg, markedBeg) - markedBeg..]);
      } else {
        // The range lies within the interval.
        InsideRange(ranges, it.rangeIdx, it.rangeBeg);
        e := Edit(it.editorRangeBeg, text[it.rangeBeg - markedBeg..it.rangeEnd - markedBeg]);
      }
    }

    /** A range that overlaps the interval adds its part if it will flip. */
    method CaptureRange(it: RangeIterator, pos: nat, text: string, live: bool,
            ghost edits: seq<Edit>, before: seq<Edit>, ghost runs: seq<Run>)
      returns (res: seq<Edit>, ghost more: seq<Run>)
      requires Valid() && it.At(ranges) && it.rangeBeg < pos + |text| <= |Flags()| && pos < it.rangeEnd && text != ""
      requires MaximalRuns(Flags(), pos, Max(pos, it.rangeBeg), !live, runs)
      requires runs != [] ==> pos <= it.rangeBeg && (RunEnd(runs[|runs| - 1]) < it.rangeBeg || it.isLive == live)
      requires Captured(pos, text, edits, before, runs)
      ensures MaximalRuns(Flags(), pos, Min(pos + |text|, it.rangeEnd), !live, more)
      ensures it.isLive == live && more != [] ==> RunEnd(more[|more| - 1]) <= it.rangeBeg
      ensures Captured(pos, text, edits, res, more)
    {
      hide Flat, TotalLen, TotalLive, Count, AllOk, MaximalRuns;
      ghost var beg, stop := Max(pos, it.rangeBeg), Min(pos + |text|, it.rangeEnd);
      RangeUniform(ranges, it.rangeIdx);
      if it.isLive == live {
        RunsSkip(Flags(), pos, beg, stop, !live, runs);
        RunsBound(Flags(), pos, beg, !live, runs);
        res, more := before, runs;
      } else {
        RunsExtend(Flags(), pos, beg, stop, !live, runs);
        var e := CapturedEdit(it, pos, text, live);
        res, more := before + [e], runs + [(beg, stop - beg)];
      }
    }

    /** `mark_to_ins_or_del`: one edit for every maximal run in [pos, pos + |text|) that the
        mark will flip, at its place in the editor and with its part of the text. */
    method MarkToInsOrDel(pos: nat, text: string, cursor: Cursor, edits: seq<Edit>, live: bool)
      returns (res: seq<Edit>, ghost runs: seq<Run>)
      requires Valid() && Reaches(cursor, pos) && pos + |text| <= |Flags()|
      ensures MaximalRuns(Flags(), pos, pos + |text|, !live, runs)
      ensures Captured(pos, text, edits, res, runs)
    {
      hide Flat, TotalLen, TotalLive, Count, AllOk, MaximalRuns;
      res, runs := edits, [];
      NoRuns(Flags(), pos, pos, !live);
      if |text| == 0 { return; }
      var markedEnd := pos + |text|;
      var it := IteratorAt(ranges, cursor);
      FlatCounts(ranges);
      AllRanges(ranges);
      while true
        invariant it.At(ranges) && it.rangeBeg < markedEnd && pos <= it.rangeEnd
        invariant MaximalRuns(Flags(), pos, Max(pos, it.rangeBeg), !live, runs)
        invariant runs != [] ==> pos <= it.rangeBeg && (RunEnd(runs[|runs| - 1]) < it.rangeBeg || it.isLive == live)
        invariant Captured(pos, text, edits, res, runs)
        decreases |ranges| - it.rangeIdx
      {
        NextRange(ranges, it.rangeIdx);
        if pos < it.rangeEnd {
          res, runs := CaptureRange(it, pos, text, live, edits, res, runs);
        }
        if it.rangeIdx + 1 == |ranges| { return; }
        it := it.MoveRight(ranges);
        if it.rangeBeg >= markedEnd { return; }
      }
      assert false;
    }

    // -------------------------------------------------------------- whole operations

    ghost function Doc(text: string): Documents.Doc
      reads this
    {
      Documents.Doc(text, Flags())
    }

    /** The loop of `convert_internal_op_and_apply` that turns the segments of a mark into
        edits, all on the document before the mark. */
    method SegmentsToEdits(segs: seq<Seg>, live: bool, start: Cursor, ghost text: string)
      returns (edits: seq<Edit>, c: Cursor, ghost runs: seq<Run>)
      requires Valid() && CursorOk(ranges, start) && |text| == |Flags()|
      requires Shape(segs) && AllMatch(segs, text)
      ensures CursorOk(ranges, c)
      ensures SegRuns(text, Flags(), segs, !live, runs, edits)
    {
      hide Flat, TotalLen, TotalLive, Count, AllOk, MaximalRuns, SegRuns;
      edits, c, runs := [], start, [];
      NoSegRuns(text, Flags(), !live);
      for i := 0 to |segs|
        invariant CursorOk(ranges, c)
        invariant SegRuns(text, Flags(), segs[..i], !live, runs, edits)
      {
        var seg := segs[i];
        assert SegMatches(seg, text) && seg.text != "";
        NoRanges(ranges);
        var rank;
        rank, c := ConvertPos(seg.pos, c, false);
        ghost var before := edits;
        ghost var more;
        edits, more := MarkToInsOrDel(seg.pos, seg.text, c, edits, live);
        assert i > 0 ==> segs[..i][i - 1].End() <= seg.pos;
        MoreSegRuns(text, Flags(), segs[..i], seg, !live, runs, more, before, edits);
        runs := runs + more;
        assert segs[..i + 1] == segs[..i] + [seg];
      }
      assert segs[..|segs|] == segs;
    }

    /** The loop that applies them. */
    method ApplySegments(segs: seq<Seg>, live: bool, start: Cursor) returns (c: Cursor)
      requires Valid() && CursorOk(ranges, start)
      requires Shape(segs) && SegsFit(segs, |Flags()|)
      modifies this
      ensures Flags() == SetLive(old(Flags()), segs, live)
      ensures Valid() && CursorOk(ranges, c) && cursors.Keys == old(cursors.Keys)
    {
      hide Flat, TotalLen, TotalLive, Count, AllOk, MaximalRuns;
      c := start;
      assert SetLive(Flags(), [], live) == Flags();
      for i := 0 to |segs|
        invariant Valid() && CursorOk(ranges, c) && cursors.Keys == old(cursors.Keys)
        invariant Flags() == SetLive(old(Flags()), segs[..i], live)
      {
        var seg := segs[i];
        assert seg.text != "";
        NoRanges(ranges);
        var rank;
        rank, c := ConvertPos(seg.pos, c, false);
        if live {
          c := ApplyMarkLive(seg.pos, |seg.text|, c);
        } else {
          var flipped;
          flipped, c := ApplyMarkDead(seg.pos, |seg.text|, c);
        }
        SetLiveSnoc(old(Flags()), segs[..i], seg, live);
        assert segs[..i + 1] == segs[..i] + [seg];
      }
      assert segs[..|segs|] == segs;
    }

    /** `convert_internal_op_and_apply`: the document changes as the operation says, and the
        instruction takes the visible text to what is shown after the operation, whether or
        not the operation quotes the text it marks (`ShowIff`). If it does, deletions name the
        text that the editor shows. */
    method ConvertInternalOpAndApply(op: Op, ghost text: string) returns (instr: EditInstruction)
      requires Valid() && |text| == |Flags()| && ValidOn(op, text)
      modifies this
      ensures Fits(op, |text|) && Doc(Show(old(Doc(text)), op).text) == Show(old(Doc(text)), op)
      ensures ApplyInstruction(View(old(Doc(text))), instr) == Some(View(Show(old(Doc(text)), op)))
      ensures instr.DelEdits? <==> op.Mark? && !op.live
      ensures instr.DelEdits? && Quotes(op, text) ==> AsSeen(instr.edits, View(old(Doc(text))))
      ensures Valid()
    {
      hide Flat, TotalLen, TotalLive, Count, AllOk, MaximalRuns, Visible, SegRuns, CursorOk;
      ValidFits(op, text);
      var c := GetCursor(op.site);
      CursorIn(ranges, cursors, op.site);
      ghost var flags := Flags();
      NoRanges(ranges);
      match op
      case Ins(seg, site) =>
        var editorPos;
        editorPos, c := ConvertPos(seg.pos, c, false);
        if ranges == [] { assert flags[..seg.pos] == []; }
        VisibleInsert(text, flags, seg.pos, seg.text);
        c := ApplyIns(seg.pos, |seg.text|, c);
        CursorPut(ranges, cursors, site, c);
        cursors := cursors[site := c];
        instr := InsEdits([Edit(editorPos, seg.text)]);
        OneEdit(Visible(text, flags), Edit(editorPos, seg.text), true);
      case Mark(segs, live, site) =>
        var edits;
        ghost var runs;
        ghost var quoted := Overlaid(text, segs, CoveredBy(segs, |text|));
        OverlaidMatches(text, segs);
        edits, c, runs := SegmentsToEdits(segs, live, c, quoted);
        MarkShows(Documents.Doc(text, flags), op, runs, edits);
        if !live && Quotes(op, text) { DeletionsAreSeen(Documents.Doc(text, flags), op, runs, edits); }
        c := ApplySegments(segs, live, c);
        CursorPut(ranges, cursors, site, c);
        cursors := cursors[site := c];
        instr := if live then InsEdits(edits) else DelEdits(edits);
    }

    /** The segments of a deletion: every flipped run with its part of the deleted text. */
    method RunsToSegments(runs: seq<Run>, content: string, lo: nat, ghost hi: nat, ghost text: string, ghost flags: seq<bool>)
      returns (segs: seq<Seg>)
      requires |text| == |flags| && lo <= hi <= |flags| && MaximalRuns(flags, lo, hi, true, runs)
      requires content == Visible(text[lo..hi], flags[lo..hi])
      ensures SegsFor(text, runs, segs) && Quoted(segs) == content
    {
      hide Visible, Count, MaximalRuns, SegsFor, Quoted, Uniform;
      segs := [];
      var textIdx := 0;
      NoSegsFor(text, runs);
      VisibleLen(text[lo..hi], flags[lo..hi]);
      RunsCount(flags, lo, hi, true, runs);
      for i := 0 to |runs|
        invariant SegsFor(text, runs[..i], segs)
        invariant textIdx == RunsLen(runs[..i]) <= |content|
        invariant Quoted(segs) == content[..textIdx]
      {
        var (pos, len) := runs[i];
        RunPrefix(flags, lo, hi, runs, i);
        VisibleOfRun(text, flags, lo, hi, runs[i], textIdx);
        MoreSegsFor(text, runs, i, segs, content, textIdx);
        segs := segs + [Seg(pos, content[textIdx..textIdx + len])];
        textIdx := textIdx + len;
      }
      assert runs[..|runs|] == runs;
    }

    /** `convert_editor_op_and_apply` for insertions and deletions: the visible text changes
        exactly as the editor says, and the operation emitted for the others does the same
        to the whole document. An insertion lands where `Lands` says; a deletion marks exactly
        the live characters that the editor numbers that way. */
    method ConvertEditorOpAndApply(op: EditorOp, site: SiteId, ghost text: string) returns (res: Op)
      requires Valid() && |text| == |Flags()| && EditorOpFits(op, Visible(text, Flags()))
      modifies this
      ensures res.site == site && (res.Ins? <==> op.EditorIns?) && ValidOn(res, text) && Quotes(res, text)
      ensures Fits(res, |text|) && Doc(Apply(old(Doc(text)), res).text) == Apply(old(Doc(text)), res)
      ensures Visible(Apply(old(Doc(text)), res).text, Apply(old(Doc(text)), res).live)
           == ApplyEditorOp(op, Visible(text, old(Flags())))
      ensures res.Ins? ==> res.seg.text == op.content
      ensures res.Ins? ==>
                Lands(old(Flags()), if site in old(cursors) then old(cursors)[site] else Cursor(0, 0, None), op.pos, res.seg.pos)
      ensures res.Mark? ==> !res.live && Apart(res.segs) && Quoted(res.segs) == op.content
      ensures res.Mark? ==>
                forall i :: 0 <= i < |old(Flags())| ==>
                  (Covers(res.segs, i) <==>
                     old(Flags())[i] && op.pos <= Count(old(Flags())[..i]) < op.pos + |op.content|)
      ensures Valid()
    {
      hide Flat, TotalLen, TotalLive, Count, AllOk, MaximalRuns, Visible, SegRuns, CursorOk, Lands, SetRange, Quoted;
      var c := GetCursor(site);
      CursorIn(ranges, cursors, site);
      ghost var flags := Flags();
      NoRanges(ranges);
      LandsInNothing(c);
      VisibleLen(text, flags);
      match op
      case EditorIns(pos, content) =>
        var internalPos;
        internalPos, c := ConvertPos(pos, c, true);
        if ranges == [] { assert flags[..internalPos] == []; }
        VisibleInsert(text, flags, internalPos, content);
        c := ApplyIns(internalPos, |content|, c);
        CursorPut(ranges, cursors, site, c);
        cursors := cursors[site := c];
        res := Ins(Seg(internalPos, content), site);
      case EditorDel(pos, content) =>
        var lo, hi;
        var other;
        lo, c := ConvertPos(pos, c, true);
        hi, other := ConvertPos(pos + |content|, c, true);
        RankOrder(flags, lo, hi);
        var runs;
        runs, c := ApplyMarkDead(lo, hi - lo, c);
        VisibleInterval(text, flags, lo, hi);
        VisibleSetRange(text, flags, lo, hi, false);
        var segs := RunsToSegments(runs, content, lo, hi, text, flags);
        SegsForValid(text, flags, lo, hi, runs, segs, site);
        RankedBetween(flags, lo, hi);
        CursorPut(ranges, cursors, site, c);
        cursors := cursors[site := c];
        res := Mark(segs, false, site);
        ValidFits(res, text);
    }
  }
}
