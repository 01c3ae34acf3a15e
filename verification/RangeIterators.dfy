/** The iterator that the marking operations walk along the ranges. */
module RangeIterators {
  import opened Ops
  import opened Documents
  import opened Ranges

  /** A range with its borders in both coordinates, and the ranges affected so far. */
  datatype RangeIterator = RangeIterator(
    rangeIdx: nat, rangeBeg: nat, rangeEnd: nat, isLive: bool,
    editorRangeBeg: nat, editorRangeEnd: nat, affectedBeg: nat, affectedEnd: nat)
  {
    /** The borders are those of the range. */
    predicate At(rs: seq<Range>) {
      && rangeIdx < |rs| && isLive == rs[rangeIdx].IsLive()
      && rangeBeg == TotalLen(rs[..rangeIdx]) && rangeEnd == rangeBeg + rs[rangeIdx].Len()
      && editorRangeBeg == TotalLive(rs[..rangeIdx]) && editorRangeEnd == editorRangeBeg + rs[rangeIdx].LiveLen()
    }

    function RangeLen(rs: seq<Range>): nat
      requires At(rs)
    {
      rangeEnd - rangeBeg
    }

    function ShiftAffectedLeft(): RangeIterator
      requires affectedBeg > 0 && affectedEnd > 0
    {
      this.(affectedBeg := affectedBeg - 1, affectedEnd := affectedEnd - 1)
    }

    function ExtendAffectedRight(): RangeIterator { this.(affectedEnd := affectedEnd + 1) }

    function ContractAffectedRight(): RangeIterator { this.(affectedBeg := affectedBeg + 1) }

    function MoveLeft(rs: seq<Range>): (r: RangeIterator)
      requires At(rs) && rangeIdx > 0
      ensures r.At(rs) && r.rangeIdx == rangeIdx - 1 && r.rangeEnd == rangeBeg
    {
      var i := rangeIdx - 1;
      NextRange(rs, i);
      this.(rangeIdx := i, isLive := rs[i].IsLive(),
            rangeEnd := rangeBeg, rangeBeg := rangeBeg - rs[i].Len(),
            editorRangeEnd := editorRangeBeg, editorRangeBeg := editorRangeBeg - rs[i].LiveLen())
    }

    function MoveRight(rs: seq<Range>): (r: RangeIterator)
      requires At(rs) && rangeIdx + 1 < |rs|
      ensures r.At(rs) && r.rangeIdx == rangeIdx + 1 && r.rangeBeg == rangeEnd
    {
      var i := rangeIdx + 1;
      NextRange(rs, rangeIdx);
      this.(rangeIdx := i, isLive := rs[i].IsLive(),
            rangeBeg := rangeEnd, rangeEnd := rangeEnd + rs[i].Len(),
            editorRangeBeg := editorRangeEnd, editorRangeEnd := editorRangeEnd + rs[i].LiveLen())
    }

    /** `Cursor::move_to_beg`. */
    function Beginning(): Cursor { Cursor(editorRangeBeg, rangeBeg, Some(rangeIdx)) }
  }

  function IteratorAt(rs: seq<Range>, c: Cursor): (r: RangeIterator)
    requires CursorOk(rs, c) && c.rangeIdx.Some?
    ensures r.At(rs)
  {
    var i := c.rangeIdx.value;
    RangeIterator(i, c.internalPos, c.internalPos + rs[i].Len(), rs[i].IsLive(),
                  c.editorPos, c.editorPos + rs[i].LiveLen(), i, i + 1)
  }
}
