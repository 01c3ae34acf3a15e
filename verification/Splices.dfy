/** The two kinds of splice that the document performs: an insertion of live text, and a
    mark of an interval. For each, what the spliced ranges mean and where cursors go. */
module Splices {
  import opened Ops
  import opened Documents
  import opened Ranges

  // ---------------------------------------------------------------- insertions

  function ShiftRight(c: Cursor, idx: nat, delta: nat, rangeIdxDelta: nat): Cursor {
    if c.rangeIdx.Some? && c.rangeIdx.value >= idx
    then Cursor(c.editorPos + delta, c.internalPos + delta, Some(c.rangeIdx.value + rangeIdxDelta))
    else c
  }

  function ShiftedRight(cursors: map<SiteId, Cursor>, idx: nat, delta: nat, rangeIdxDelta: nat): map<SiteId, Cursor> {
    map site | site in cursors :: ShiftRight(cursors[site], idx, delta, rangeIdxDelta)
  }

  predicate AllOk(rs: seq<Range>, cursors: map<SiteId, Cursor>) {
    forall site :: site in cursors ==> CursorOk(rs, cursors[site])
  }

  lemma CursorIn(rs: seq<Range>, cursors: map<SiteId, Cursor>, site: SiteId)
    requires AllOk(rs, cursors) && site in cursors
    ensures CursorOk(rs, cursors[site])
  {}

  lemma CursorPut(rs: seq<Range>, cursors: map<SiteId, Cursor>, site: SiteId, c: Cursor)
    requires CursorOk(rs, c) && AllOk(rs, cursors)
    ensures AllOk(rs, cursors[site := c])
  {}

  /** `mid` is the ranges [a, b) with `len` live characters inserted at `off`. */
  predicate Widens(rs: seq<Range>, a: nat, b: nat, mid: seq<Range>, off: nat, len: nat)
    requires a <= b <= |rs|
  {
    off <= |Flat(rs[a..b])| && Flat(mid) == Insert(Flat(rs[a..b]), off, Repeat(true, len))
  }

  lemma InsertMiddle<T>(x: seq<T>, y: seq<T>, z: seq<T>, off: nat, t: seq<T>)
    requires off <= |y|
    ensures x + Insert(y, off, t) + z == Insert(x + y + z, |x| + off, t)
  {}

  lemma WidenCounts(rs: seq<Range>, a: nat, b: nat, mid: seq<Range>, off: nat, len: nat)
    requires a <= b <= |rs| && Widens(rs, a, b, mid, off, len)
    ensures TotalLen(mid) == TotalLen(rs[a..b]) + len && TotalLive(mid) == TotalLive(rs[a..b]) + len
  {
    hide Flat, TotalLen, TotalLive, Count;
    FlatCounts(rs[a..b]);
    FlatCounts(mid);
    CountInsert(Flat(rs[a..b]), off, len);
  }

  lemma ShiftedCursorOk(rs: seq<Range>, a: nat, b: nat, mid: seq<Range>, len: nat, c: Cursor)
    requires a <= b <= |rs| && b <= a + 1 && |mid| >= b - a && mid != [] && CursorOk(rs, c)
    requires TotalLen(mid) == TotalLen(rs[a..b]) + len && TotalLive(mid) == TotalLive(rs[a..b]) + len
    ensures CursorOk(Splice(rs, a, b, mid), ShiftRight(c, b, len, |mid| - (b - a)))
  {
    hide Flat, TotalLen, TotalLive, Count, Splice;
    SpliceLength(rs, a, b, mid);
    if c.rangeIdx.Some? && c.rangeIdx.value >= b {
      CursorAfterSplice(rs, a, b, mid, c);
    } else {
      CursorBeforeSplice(rs, a, b, mid, c);
    }
  }

  /** Replacing [a, b) by `mid` inserts, keeps the list normalized if the borders do, and
      shifts exactly the cursors from `b` on. */
  lemma InsertSplice(rs: seq<Range>, a: nat, b: nat, mid: seq<Range>, pos: nat, len: nat)
    requires a <= b <= |rs| && Normalized(rs) && Normalized(mid) && mid != []
    requires a > 0 ==> rs[a - 1].IsLive() != mid[0].IsLive()
    requires b < |rs| ==> mid[|mid| - 1].IsLive() != rs[b].IsLive()
    requires TotalLen(rs[..a]) <= pos && Widens(rs, a, b, mid, pos - TotalLen(rs[..a]), len)
    ensures Normalized(Splice(rs, a, b, mid))
    ensures pos <= |Flat(rs)| && Flat(Splice(rs, a, b, mid)) == Insert(Flat(rs), pos, Repeat(true, len))
  {
    hide Flat, TotalLen, TotalLive, Count, Normalized, Insert, Splice;
    NormalizedSplice(rs, a, b, mid);
    FlatSplice(rs, a, b, mid);
    FlatCounts(rs[..a]);
    InsertMiddle(Flat(rs[..a]), Flat(rs[a..b]), Flat(rs[b..]), pos - TotalLen(rs[..a]), Repeat(true, len));
  }

  lemma CountInsert(flags: seq<bool>, off: nat, len: nat)
    requires off <= |flags|
    ensures Count(Insert(flags, off, Repeat(true, len))) == Count(flags) + len
  {
    hide Count;
    CountAppend(flags[..off], Repeat(true, len));
    CountAppend(flags[..off] + Repeat(true, len), flags[off..]);
    CountRepeat(true, len);
    assert flags == flags[..off] + flags[off..];
    CountAppend(flags[..off], flags[off..]);
  }

  lemma RepeatInsert(n: nat, off: nat, len: nat)
    requires off <= n
    ensures Repeat(true, n + len) == Insert(Repeat(true, n), off, Repeat(true, len))
  {}

  /** The splices that `apply_ins` performs: growing a live range, putting a new live
      range between ranges, or splitting a dead one. */
  predicate InsertCase(rs: seq<Range>, a: nat, b: nat, mid: seq<Range>, off: nat, len: nat)
    requires a <= b <= |rs|
  {
    || (b == a + 1 && rs[a].IsLive() && off <= rs[a].Len() && mid == [Live(rs[a].Len() + len)])
    || (b == a && off == 0 && mid == [Live(len)] && (a > 0 ==> rs[a - 1].IsDead()) && (a < |rs| ==> rs[a].IsDead()))
    || (b == a + 1 && rs[a].IsDead() && 0 < off < rs[a].Len() && mid == [Dead(off), Live(len), Dead(rs[a].Len() - off)])
  }

  lemma WidenLive(r: Range, off: nat, len: nat)
    requires r.IsLive() && off <= r.Len()
    ensures off <= |Flat([r])| && Flat([Live(r.Len() + len)]) == Insert(Flat([r]), off, Repeat(true, len))
  {
    hide Flat;
    FlatOne(r);
    FlatOne(Live(r.Len() + len));
    RepeatInsert(r.Len(), off, len);
  }

  lemma WidenNothing(len: nat)
    ensures Flat([]) == [] && Flat([Live(len)]) == Insert(Flat([]), 0, Repeat(true, len))
  {
    FlatOne(Live(len));
  }

  lemma SplitDead(n: nat, off: nat, len: nat)
    requires off < n
    ensures off <= |Flat([Dead(n)])|
    ensures Flat([Dead(off), Live(len), Dead(n - off)]) == Insert(Flat([Dead(n)]), off, Repeat(true, len))
  {
    hide Flat, TotalLen, TotalLive;
    FlatOne(Dead(n));
    FlatOne(Dead(off));
    FlatOne(Live(len));
    FlatOne(Dead(n - off));
    FlatThree([Dead(off)], [Live(len)], [Dead(n - off)]);
    assert [Dead(off)] + [Live(len)] + [Dead(n - off)] == [Dead(off), Live(len), Dead(n - off)];
    assert Repeat(false, n)[..off] == Repeat(false, off) && Repeat(false, n)[off..] == Repeat(false, n - off);
  }

  lemma MiddleCursor(rs: seq<Range>, a: nat, b: nat, mid: seq<Range>)
    requires a <= b <= |rs| && |mid| == 3 && mid[0].IsDead()
    ensures CursorOk(Splice(rs, a, b, mid), Cursor(TotalLive(rs[..a]), TotalLen(rs[..a]) + mid[0].Len(), Some(a + 1)))
  {
    hide Flat, TotalLen, TotalLive;
    assert Splice(rs, a, b, mid)[..a + 1] == rs[..a] + [mid[0]];
    FlatAppend(rs[..a], [mid[0]]);
    FlatOne(mid[0]);
  }

  lemma CaseWidens(rs: seq<Range>, a: nat, b: nat, mid: seq<Range>, off: nat, len: nat)
    requires a <= b <= |rs| && InsertCase(rs, a, b, mid, off, len)
    ensures Widens(rs, a, b, mid, off, len)
  {
    hide Flat, TotalLen, TotalLive, Insert;
    if b == a {
      assert rs[a..b] == [];
      WidenNothing(len);
    } else {
      assert rs[a..b] == [rs[a]];
      if rs[a].IsLive() {
        WidenLive(rs[a], off, len);
      } else {
        SplitDead(rs[a].Len(), off, len);
      }
    }
  }

  /** Each of these splices inserts `len` live characters at `pos`; the stored cursors
      `cs` shift, and so does the caller's cursor `c` unless it moves into the middle. */
  lemma InsertInto(rs: seq<Range>, a: nat, b: nat, mid: seq<Range>, pos: nat, len: nat, cs: map<SiteId, Cursor>, c: Cursor)
    requires a <= b <= |rs| && Normalized(rs) && len > 0 && TotalLen(rs[..a]) <= pos
    requires InsertCase(rs, a, b, mid, pos - TotalLen(rs[..a]), len)
    requires AllOk(rs, cs) && CursorOk(rs, c)
    ensures Normalized(Splice(rs, a, b, mid))
    ensures pos <= |Flat(rs)| && Flat(Splice(rs, a, b, mid)) == Insert(Flat(rs), pos, Repeat(true, len))
    ensures AllOk(Splice(rs, a, b, mid), ShiftedRight(cs, b, len, |mid| - (b - a)))
    ensures CursorOk(Splice(rs, a, b, mid), ShiftRight(c, b, len, |mid| - (b - a)))
    ensures |mid| == 3 ==> CursorOk(Splice(rs, a, b, mid), Cursor(TotalLive(rs[..a]), pos, Some(a + 1)))
  {
    hide Flat, TotalLen, TotalLive, Insert;
    CaseWidens(rs, a, b, mid, pos - TotalLen(rs[..a]), len);
    if |mid| == 3 { MiddleCursor(rs, a, b, mid); }
    hide CursorOk;
    WidenCounts(rs, a, b, mid, pos - TotalLen(rs[..a]), len);
    InsertSplice(rs, a, b, mid, pos, len);
    ShiftedCursorOk(rs, a, b, mid, len, c);
    forall site | site in cs
      ensures CursorOk(Splice(rs, a, b, mid), ShiftRight(cs[site], b, len, |mid| - (b - a)))
    {
      ShiftedCursorOk(rs, a, b, mid, len, cs[site]);
    }
  }

  lemma InsertEmpty(len: nat, cs: map<SiteId, Cursor>, c: Cursor)
    requires AllOk([], cs) && CursorOk([], c) && len > 0
    ensures [] + [Live(len)] == [Live(len)] && Normalized([Live(len)])
    ensures Flat([]) == [] && Flat([Live(len)]) == Insert(Flat([]), 0, Repeat(true, len))
    ensures AllOk([Live(len)], cs) && CursorOk([Live(len)], c)
  {
    FlatOne(Live(len));
  }
}
