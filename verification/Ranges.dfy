/** Run-length lists of live and dead text, what they stand for, and what splicing does
    to them and to positions measured in them. */
module Ranges {
  import opened Ops
  import opened Documents

  datatype Range = Live(n: nat) | Dead(n: nat) {
    predicate IsLive() { Live? }
    predicate IsDead() { Dead? }
    function Len(): nat { n }
    function LiveLen(): nat { if Live? then n else 0 }
  }

  function RangeOf(live: bool, n: nat): Range { if live then Live(n) else Dead(n) }

  /** A position remembered in both coordinates, at the beginning of a range. */
  datatype Cursor = Cursor(editorPos: nat, internalPos: nat, rangeIdx: Option<nat>) {
    function Pos(inEditor: bool): nat { if inEditor then editorPos else internalPos }
  }

  // ---------------------------------------------------------------- meaning

  /** The liveness of every character. */
  function Flat(rs: seq<Range>): seq<bool> {
    if rs == [] then [] else Flat(rs[..|rs| - 1]) + Repeat(rs[|rs| - 1].IsLive(), rs[|rs| - 1].Len())
  }

  function TotalLen(rs: seq<Range>): nat {
    if rs == [] then 0 else TotalLen(rs[..|rs| - 1]) + rs[|rs| - 1].Len()
  }

  function TotalLive(rs: seq<Range>): nat {
    if rs == [] then 0 else TotalLive(rs[..|rs| - 1]) + rs[|rs| - 1].LiveLen()
  }

  /** The number of live characters. */
  function Count(flags: seq<bool>): nat {
    if flags == [] then 0 else Count(flags[..|flags| - 1]) + if flags[|flags| - 1] then 1 else 0
  }

  /** No empty range, and no two neighbours of the same liveness. */
  predicate Normalized(rs: seq<Range>) {
    && (forall i :: 0 <= i < |rs| ==> rs[i].Len() > 0)
    && (forall i :: 0 < i < |rs| ==> rs[i - 1].IsLive() != rs[i].IsLive())
  }

  /** The cursor says exactly where its range begins. */
  predicate CursorOk(rs: seq<Range>, c: Cursor) {
    match c.rangeIdx
    case None => c.internalPos == 0 && c.editorPos == 0
    case Some(i) => i < |rs| && c.internalPos == TotalLen(rs[..i]) && c.editorPos == TotalLive(rs[..i])
  }

  // ---------------------------------------------------------------- counting

  lemma {:induction false} CountAppend(a: seq<bool>, b: seq<bool>)
    ensures Count(a + b) == Count(a) + Count(b)
    decreases |b|
  {
    if b == [] {
      assert a + b == a;
    } else {
      var n := |b| - 1;
      assert (a + b)[..|a + b| - 1] == a + b[..n];
      CountAppend(a, b[..n]);
    }
  }

  lemma {:induction false} CountRepeat(live: bool, n: nat)
    ensures Count(Repeat(live, n)) == if live then n else 0
  {
    if n > 0 {
      assert Repeat(live, n)[..n - 1] == Repeat(live, n - 1);
      CountRepeat(live, n - 1);
    }
  }

  lemma {:induction false} CountMonotone(flags: seq<bool>, i: nat, j: nat)
    requires i <= j <= |flags|
    ensures Count(flags[..j]) == Count(flags[..i]) + Count(flags[i..j])
    ensures Count(flags[i..j]) <= j - i
    decreases j - i
  {
    assert flags[..j] == flags[..i] + flags[i..j];
    CountAppend(flags[..i], flags[i..j]);
    if i < j {
      assert flags[i..j][..j - i - 1] == flags[i..j - 1];
      CountMonotone(flags, i, j - 1);
    }
  }

  lemma {:induction false} FlatCounts(rs: seq<Range>)
    ensures |Flat(rs)| == TotalLen(rs) && Count(Flat(rs)) == TotalLive(rs)
    decreases |rs|
  {
    if rs != [] {
      var n := |rs| - 1;
      FlatCounts(rs[..n]);
      CountRepeat(rs[n].IsLive(), rs[n].Len());
      CountAppend(Flat(rs[..n]), Repeat(rs[n].IsLive(), rs[n].Len()));
    }
  }

  lemma {:induction false} FlatAppend(a: seq<Range>, b: seq<Range>)
    ensures Flat(a + b) == Flat(a) + Flat(b)
    ensures TotalLen(a + b) == TotalLen(a) + TotalLen(b)
    ensures TotalLive(a + b) == TotalLive(a) + TotalLive(b)
    decreases |b|
  {
    if b == [] {
      assert a + b == a;
    } else {
      var n := |b| - 1;
      assert (a + b)[..|a + b| - 1] == a + b[..n];
      FlatAppend(a, b[..n]);
    }
  }

  lemma FlatOne(r: Range)
    ensures Flat([r]) == Repeat(r.IsLive(), r.Len()) && TotalLen([r]) == r.Len() && TotalLive([r]) == r.LiveLen()
  {
    assert [r][..0] == [] && Flat([]) == [];
  }

  lemma FlatSplit(rs: seq<Range>, i: nat)
    requires i <= |rs|
    ensures Flat(rs) == Flat(rs[..i]) + Flat(rs[i..])
    ensures TotalLen(rs) == TotalLen(rs[..i]) + TotalLen(rs[i..])
    ensures TotalLive(rs) == TotalLive(rs[..i]) + TotalLive(rs[i..])
  {
    assert rs == rs[..i] + rs[i..];
    FlatAppend(rs[..i], rs[i..]);
  }

  lemma NextRange(rs: seq<Range>, i: nat)
    requires i < |rs|
    ensures TotalLen(rs[..i + 1]) == TotalLen(rs[..i]) + rs[i].Len()
    ensures TotalLive(rs[..i + 1]) == TotalLive(rs[..i]) + rs[i].LiveLen()
  {
    assert rs[..i + 1][..i] == rs[..i];
  }

  /** All characters of range `i` have its liveness; a position in it has the rank of its
      beginning, plus its offset if the range is live. */
  lemma InsideRange(rs: seq<Range>, i: nat, p: nat)
    requires i < |rs| && TotalLen(rs[..i]) <= p <= TotalLen(rs[..i + 1])
    ensures TotalLen(rs[..i + 1]) <= |Flat(rs)|
    ensures p < TotalLen(rs[..i + 1]) ==> Flat(rs)[p] == rs[i].IsLive()
    ensures Count(Flat(rs)[..p]) == TotalLive(rs[..i]) + if rs[i].IsLive() then p - TotalLen(rs[..i]) else 0
  {
    hide Flat, TotalLen, TotalLive, Count;
    NextRange(rs, i);
    FlatAround(rs, i);
    FlatCounts(rs[..i]);
    var before, mine := Flat(rs[..i]), Repeat(rs[i].IsLive(), rs[i].Len());
    var off := p - TotalLen(rs[..i]);
    assert Flat(rs)[..p] == before + mine[..off];
    assert mine[..off] == Repeat(rs[i].IsLive(), off);
    CountAppend(before, mine[..off]);
    CountRepeat(rs[i].IsLive(), off);
  }

  lemma FlatAround(rs: seq<Range>, i: nat)
    requires i < |rs|
    ensures Flat(rs) == Flat(rs[..i]) + Repeat(rs[i].IsLive(), rs[i].Len()) + Flat(rs[i + 1..])
  {
    hide Flat, TotalLen, TotalLive;
    FlatSplit(rs, i);
    FlatSplit(rs[i..], 1);
    assert rs[i..][..1] == [rs[i]] && rs[i..][1..] == rs[i + 1..];
    FlatOne(rs[i]);
  }

  lemma RangeUniform(rs: seq<Range>, i: nat)
    requires i < |rs|
    ensures TotalLen(rs[..i + 1]) == TotalLen(rs[..i]) + rs[i].Len() <= |Flat(rs)|
    ensures forall p :: TotalLen(rs[..i]) <= p < TotalLen(rs[..i + 1]) ==> Flat(rs)[p] == rs[i].IsLive()
  {
    hide Flat, TotalLen, TotalLive, Count;
    NextRange(rs, i);
    InsideRange(rs, i, TotalLen(rs[..i]));
    forall p | TotalLen(rs[..i]) <= p < TotalLen(rs[..i + 1]) ensures Flat(rs)[p] == rs[i].IsLive() {
      InsideRange(rs, i, p);
    }
  }

  lemma PrefixBounds(rs: seq<Range>, i: nat)
    requires i <= |rs|
    ensures TotalLen(rs[..i]) <= TotalLen(rs) && TotalLive(rs[..i]) <= TotalLive(rs)
  {
    FlatSplit(rs, i);
  }

  lemma NoRanges(rs: seq<Range>)
    ensures rs[..0] == [] && Flat([]) == [] && TotalLen([]) == 0 && TotalLive([]) == 0 && Count([]) == 0
  {}

  lemma AllRanges(rs: seq<Range>)
    ensures rs[..|rs|] == rs
  {}

  // ---------------------------------------------------------------- splicing

  /** `rs` with the ranges [a, b) replaced by `mid`. */
  function Splice(rs: seq<Range>, a: nat, b: nat, mid: seq<Range>): seq<Range>
    requires a <= b <= |rs|
  {
    rs[..a] + mid + rs[b..]
  }

  lemma SpliceLength(rs: seq<Range>, a: nat, b: nat, mid: seq<Range>)
    requires a <= b <= |rs|
    ensures |Splice(rs, a, b, mid)| == |rs| - (b - a) + |mid|
  {}

  lemma FlatThree(a: seq<Range>, b: seq<Range>, c: seq<Range>)
    ensures Flat(a + b + c) == Flat(a) + Flat(b) + Flat(c)
    ensures TotalLen(a + b + c) == TotalLen(a) + TotalLen(b) + TotalLen(c)
    ensures TotalLive(a + b + c) == TotalLive(a) + TotalLive(b) + TotalLive(c)
  {
    hide Flat, TotalLen, TotalLive;
    FlatAppend(a, b);
    FlatAppend(a + b, c);
  }

  lemma FlatSplice(rs: seq<Range>, a: nat, b: nat, mid: seq<Range>)
    requires a <= b <= |rs|
    ensures Flat(Splice(rs, a, b, mid)) == Flat(rs[..a]) + Flat(mid) + Flat(rs[b..])
    ensures Flat(rs) == Flat(rs[..a]) + Flat(rs[a..b]) + Flat(rs[b..])
  {
    hide Flat;
    FlatThree(rs[..a], mid, rs[b..]);
    FlatThree(rs[..a], rs[a..b], rs[b..]);
    assert rs == rs[..a] + rs[a..b] + rs[b..];
  }

  lemma NormalizedSplice(rs: seq<Range>, a: nat, b: nat, mid: seq<Range>)
    requires a <= b <= |rs| && Normalized(rs) && Normalized(mid) && mid != []
    requires a > 0 ==> rs[a - 1].IsLive() != mid[0].IsLive()
    requires b < |rs| ==> mid[|mid| - 1].IsLive() != rs[b].IsLive()
    ensures Normalized(Splice(rs, a, b, mid))
  {
    var new' := Splice(rs, a, b, mid);
    forall i | 0 < i < |new'| ensures new'[i - 1].IsLive() != new'[i].IsLive() {
      if i < a {
        assert new'[i - 1] == rs[i - 1] && new'[i] == rs[i];
      } else if a < i < a + |mid| {
        assert new'[i - 1] == mid[i - 1 - a] && new'[i] == mid[i - a];
      } else if i > a + |mid| {
        var j := i - a - |mid| + b;
        assert new'[i - 1] == rs[j - 1] && new'[i] == rs[j];
      }
    }
  }

  /** A cursor at or before the spliced ranges stays exact. */
  lemma CursorBeforeSplice(rs: seq<Range>, a: nat, b: nat, mid: seq<Range>, c: Cursor)
    requires a <= b <= |rs| && CursorOk(rs, c)
    requires c.rangeIdx.Some? ==> c.rangeIdx.value <= a && c.rangeIdx.value < |Splice(rs, a, b, mid)|
    ensures CursorOk(Splice(rs, a, b, mid), c)
  {
    if c.rangeIdx.Some? {
      assert Splice(rs, a, b, mid)[..c.rangeIdx.value] == rs[..c.rangeIdx.value];
    }
  }

  /** Where a cursor after the spliced ranges has to go. */
  lemma CursorAfterSplice(rs: seq<Range>, a: nat, b: nat, mid: seq<Range>, c: Cursor)
    requires a <= b <= |rs| && CursorOk(rs, c) && c.rangeIdx.Some? && b <= c.rangeIdx.value
    ensures var i := c.rangeIdx.value + |mid| - (b - a);
            && i < |Splice(rs, a, b, mid)|
            && TotalLen(Splice(rs, a, b, mid)[..i]) == c.internalPos + TotalLen(mid) - TotalLen(rs[a..b])
            && TotalLive(Splice(rs, a, b, mid)[..i]) == c.editorPos + TotalLive(mid) - TotalLive(rs[a..b])
  {
    hide Flat, TotalLen, TotalLive;
    var j := c.rangeIdx.value;
    var i := j + |mid| - (b - a);
    assert Splice(rs, a, b, mid)[..i] == rs[..a] + mid + rs[b..j];
    FlatThree(rs[..a], mid, rs[b..j]);
    assert rs[..j] == rs[..a] + rs[a..b] + rs[b..j];
    FlatThree(rs[..a], rs[a..b], rs[b..j]);
  }
}
