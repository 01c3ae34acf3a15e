/** Changes made to a file outside any editor: a diff against the text on screen becomes
    operations, last one first. */
module Diffs {
  import opened Ops
  import opened Documents
  import opened Ranges
  import opened Runs
  import opened Views
  import opened Engines
  import opened Showing

  datatype Chunk = Equal(text: string) | Insertion(text: string) | Deletion(text: string)

  predicate Proper(chunks: seq<Chunk>) {
    forall i :: 0 <= i < |chunks| ==> !chunks[i].Equal? ==> chunks[i].text != ""
  }

  function OldText(chunks: seq<Chunk>): string {
    if chunks == [] then ""
    else
      var c := chunks[|chunks| - 1];
      OldText(chunks[..|chunks| - 1]) + if c.Insertion? then "" else c.text
  }

  function NewText(chunks: seq<Chunk>): string {
    if chunks == [] then ""
    else
      var c := chunks[|chunks| - 1];
      NewText(chunks[..|chunks| - 1]) + if c.Deletion? then "" else c.text
  }

  /** The operations of the chunks, in document order. */
  function RawOps(chunks: seq<Chunk>, site: SiteId): (ops: seq<Op>)
    ensures forall i :: 0 <= i < |ops| ==> ops[i].site == site && (ops[i].Mark? ==> !ops[i].live)
  {
    if chunks == [] then []
    else
      var n := |chunks| - 1;
      var pos := |OldText(chunks[..n])|;
      RawOps(chunks[..n], site) +
      match chunks[n]
      case Equal(_) => []
      case Insertion(text) => [Ins(Seg(pos, text), site)]
      case Deletion(text) => [Mark([Seg(pos, text)], false, site)]
  }

  function Reversed<T>(s: seq<T>): (r: seq<T>)
    ensures |r| == |s|
    ensures forall i :: 0 <= i < |s| ==> r[i] == s[|s| - 1 - i]
  {
    seq(|s|, i requires 0 <= i < |s| => s[|s| - 1 - i])
  }

  /** `chunks_to_ops`. */
  method ChunksToOps(chunks: seq<Chunk>, site: SiteId, nextSeq: LocalSeq) returns (fats: seq<FatOp>, newNextSeq: LocalSeq)
    ensures OpsOf(fats) == Reversed(RawOps(chunks, site))
    ensures forall i :: 0 <= i < |fats| ==> fats[i] == FatOp(None, RawOps(chunks, site)[|fats| - 1 - i], nextSeq + i, Original, 0)
    ensures newNextSeq == nextSeq + |fats|
  {
    var raw := [];
    var pos := 0;
    for i := 0 to |chunks|
      invariant raw == RawOps(chunks[..i], site) && pos == |OldText(chunks[..i])|
    {
      assert chunks[..i + 1][..i] == chunks[..i];
      match chunks[i]
      case Equal(s) => pos := pos + |s|;
      case Insertion(s) => raw := raw + [Ins(Seg(pos, s), site)];
      case Deletion(s) =>
        raw := raw + [Mark([Seg(pos, s)], false, site)];
        pos := pos + |s|;
    }
    assert chunks[..|chunks|] == chunks;
    raw := Reversed(raw);
    fats, newNextSeq := [], nextSeq;
    for i := 0 to |raw|
      invariant |fats| == i && newNextSeq == nextSeq + i
      invariant forall k :: 0 <= k < i ==> fats[k] == FatOp(None, raw[k], nextSeq + k, Original, 0)
    {
      fats := fats + [FatOp(None, raw[i], newNextSeq, Original, 0)];
      newNextSeq := newNextSeq + 1;
    }
    assert OpsOf(fats) == raw;
  }

  // ---------------------------------------------------------------- where positions are right

  /** The end of the last change, in the old text. */
  function ChangeEnd(chunks: seq<Chunk>): (e: nat)
    ensures e <= |OldText(chunks)|
  {
    if chunks == [] then 0
    else if chunks[|chunks| - 1].Equal? then ChangeEnd(chunks[..|chunks| - 1])
    else |OldText(chunks)|
  }

  predicate AllLive(flags: seq<bool>, n: nat) { n <= |flags| && forall i :: 0 <= i < n ==> flags[i] }

  lemma {:induction false} CountIsAllLive(flags: seq<bool>, n: nat)
    requires n <= |flags|
    ensures Count(flags[..n]) <= n && (Count(flags[..n]) == n <==> AllLive(flags, n))
    decreases n
  {
    if n > 0 {
      CountIsAllLive(flags, n - 1);
      assert flags[..n][..n - 1] == flags[..n - 1];
    }
  }

  /** An operation of a diff means the place on screen that the diff means: an insertion
      has as many live characters before it, a deletion marks exactly those characters. */
  predicate Denotes(flags: seq<bool>, op: Op) {
    match op
    case Ins(seg, _) => seg.pos <= |flags| && Count(flags[..seg.pos]) == seg.pos
    case Mark(segs, _, _) =>
      && |segs| == 1 && segs[0].End() <= |flags|
      && Count(flags[..segs[0].pos]) == segs[0].pos && Count(flags[..segs[0].End()]) == segs[0].End()
  }

  predicate AllDenote(flags: seq<bool>, ops: seq<Op>) { forall i :: 0 <= i < |ops| ==> Denotes(flags, ops[i]) }

  lemma NothingDenotes(flags: seq<bool>)
    ensures AllDenote(flags, [])
  {}

  lemma AllDenoteSnoc(flags: seq<bool>, ops: seq<Op>, op: Op)
    ensures AllDenote(flags, ops + [op]) <==> AllDenote(flags, ops) && Denotes(flags, op)
  {
    hide Denotes;
    if AllDenote(flags, ops + [op]) {
      forall i | 0 <= i < |ops| ensures Denotes(flags, ops[i]) { assert (ops + [op])[i] == ops[i]; }
      assert (ops + [op])[|ops|] == op;
    }
  }

  /** The positions of a diff count what is on screen, but are used as positions that
      count tombstones. They mean the right place exactly when no tombstone comes before
      the end of the last change. */
  lemma {:induction false} DiffDenotesIff(flags: seq<bool>, chunks: seq<Chunk>, site: SiteId)
    requires |OldText(chunks)| <= |flags|
    ensures AllDenote(flags, RawOps(chunks, site)) <==> AllLive(flags, ChangeEnd(chunks))
    decreases |chunks|
  {
    hide Count, AllDenote;
    if chunks == [] {
      assert AllDenote(flags, RawOps(chunks, site)) by { NothingDenotes(flags); }
    } else {
      var n := |chunks| - 1;
      var init, c := chunks[..n], chunks[n];
      var ops, p, e := RawOps(init, site), |OldText(init)|, |OldText(chunks)|;
      DiffDenotesIff(flags, init, site);
      CountIsAllLive(flags, p);
      CountIsAllLive(flags, e);
      match c
      case Equal(_) => assert RawOps(chunks, site) == ops;
      case Insertion(text) => AllDenoteSnoc(flags, ops, Ins(Seg(p, text), site));
      case Deletion(text) => AllDenoteSnoc(flags, ops, Mark([Seg(p, text)], false, site));
    }
  }

  /** With tombstones in front a diff can change other text than it means: the file says
      "a" where the screen said "ab", and the screen then says "b". */
  lemma TombstoneMisleadsDiff()
    ensures var chunks := [Equal("a"), Deletion("b")];
            var d := Doc("xab", [false, true, true]);
            && Visible(d.text, d.live) == OldText(chunks) && NewText(chunks) == "a"
            && RawOps(chunks, 9) == [Mark([Seg(1, "b")], false, 9)]
            && Fits(RawOps(chunks, 9)[0], 3)
            && Visible(Apply(d, RawOps(chunks, 9)[0]).text, Apply(d, RawOps(chunks, 9)[0]).live) == "b"
  {
    hide OldText, NewText, RawOps, Apply, Visible;
    TombstoneChunks();
    MarkSecond(Doc("xab", [false, true, true]), "b", 9);
    ThreeCharacters("xab", [false, true, true]);
    ThreeCharacters("xab", [false, false, true]);
  }

  lemma TombstoneChunks()
    ensures var chunks := [Equal("a"), Deletion("b")];
            OldText(chunks) == "ab" && NewText(chunks) == "a" && RawOps(chunks, 9) == [Mark([Seg(1, "b")], false, 9)]
  {
    var chunks := [Equal("a"), Deletion("b")];
    assert chunks[..1] == [Equal("a")] && [Equal("a")][..0] == [];
    assert OldText([Equal("a")]) == "a" && NewText([Equal("a")]) == "a" && RawOps([Equal("a")], 9) == [];
  }

  lemma MarkSecond(d: Doc, s: string, site: SiteId)
    requires Coherent(d) && |d.live| == 3 && |s| == 1
    ensures var op := Mark([Seg(1, s)], false, site);
            Fits(op, 3) && Apply(d, op) == Doc(d.text, [d.live[0], false, d.live[2]])
  {
    var segs := [Seg(1, s)];
    OneSegCovers(1, s, 0);
    OneSegCovers(1, s, 1);
    OneSegCovers(1, s, 2);
    assert SetLive(d.live, segs, false) == [d.live[0], false, d.live[2]];
  }

  lemma ThreeCharacters(text: string, flags: seq<bool>)
    requires |text| == |flags| == 3
    ensures Visible(text, flags) == (if flags[0] then [text[0]] else []) + (if flags[1] then [text[1]] else [])
                                  + (if flags[2] then [text[2]] else [])
  {
    var t2, f2 := text[..2], flags[..2];
    var t1, f1 := t2[..1], f2[..1];
    assert t1[..0] == [] && f1[..0] == [];
    assert Visible(t1, f1) == if f1[0] then [t1[0]] else [];
    assert Visible(t2, f2) == Visible(t1, f1) + if f2[1] then [t2[1]] else [];
  }

  // ---------------------------------------------------------------- the result

  lemma ReversedSnoc<T>(s: seq<T>, x: T)
    ensures Reversed(s + [x]) == [x] + Reversed(s)
  {}

  lemma PrefixLive(text: string, flags: seq<bool>, n: nat)
    requires |text| == |flags| && AllLive(flags, n)
    ensures Count(flags[..n]) == n <= |Visible(text, flags)|
    ensures Visible(text, flags)[..n] == text[..n]
  {
    hide Visible, Count;
    VisibleSplit(text, flags, n);
    VisibleUniform(text[..n], flags[..n], true);
  }

  /** Applied in their order, the operations of a diff make the document show the new text;
      `rest` is what follows the compared part. */
  lemma {:induction false} DiffGivesNewText(d: Doc, chunks: seq<Chunk>, rest: string, site: SiteId)
    requires Coherent(d) && Proper(chunks) && AllLive(d.live, ChangeEnd(chunks))
    requires Visible(d.text, d.live) == OldText(chunks) + rest
    ensures var ops := Reversed(RawOps(chunks, site));
            && ValidRun(ops, d)
            && Visible(Replay(d, ops).text, Replay(d, ops).live) == NewText(chunks) + rest
    decreases |chunks|
  {
    hide Visible, Count, Apply, Fits, ValidOn, Reversed, ValidRun, Replay, AllLive;
    if chunks == [] {
      NoOps(d, site);
    } else {
      var n := |chunks| - 1;
      var init, c := chunks[..n], chunks[n];
      var raw, p, s := RawOps(init, site), |OldText(init)|, c.text;
      match c {
        case Equal(_) =>
          Regroup(OldText(init), s, rest);
          Regroup(NewText(init), s, rest);
          assert RawOps(chunks, site) == raw;
          DiffGivesNewText(d, init, s + rest, site);
        case Insertion(_) =>
          var op := Ins(Seg(p, s), site);
          Regroup(OldText(init), "", rest);
          Regroup(NewText(init), s, rest);
          var d' := InsertInDiff(d, OldText(init), s, rest, site);
          DiffGivesNewText(d', init, s + rest, site);
          ReversedSnoc(raw, op);
          FirstOfRun(d, op, Reversed(raw));
        case Deletion(_) =>
          var op := Mark([Seg(p, s)], false, site);
          Regroup(NewText(init), "", rest);
          var d' := DeleteInDiff(d, OldText(init), s, rest, site);
          DiffGivesNewText(d', init, rest, site);
          ReversedSnoc(raw, op);
          FirstOfRun(d, op, Reversed(raw));
      }
    }
  }

  lemma Regroup(a: string, b: string, c: string)
    ensures a + b + c == a + (b + c) && "" + c == c
  {}

  lemma NoOps(d: Doc, site: SiteId)
    requires Coherent(d)
    ensures Reversed(RawOps([], site)) == [] && ValidRun([], d) && Replay(d, []) == d
  {}

  lemma FirstOfRun(d: Doc, op: Op, rest: seq<Op>)
    requires Coherent(d) && ValidOn(op, d.text) && Fits(op, |d.text|) && ValidRun(rest, Apply(d, op))
    ensures ValidRun([op] + rest, d) && Replay(d, [op] + rest) == Replay(Apply(d, op), rest)
  {
    assert ([op] + rest)[0] == op && ([op] + rest)[1..] == rest;
  }

  lemma InsertInDiff(d: Doc, before: string, s: string, rest: string, site: SiteId) returns (d': Doc)
    requires Coherent(d) && s != "" && AllLive(d.live, |before|)
    requires Visible(d.text, d.live) == before + rest
    ensures var op := Ins(Seg(|before|, s), site);
            ValidOn(op, d.text) && Fits(op, |d.text|) && d' == Apply(d, op)
    ensures Visible(d'.text, d'.live) == before + (s + rest)
    ensures forall n: nat :: n <= |before| ==> AllLive(d'.live, n)
  {
    hide Visible, Count;
    var p := |before|;
    PrefixLive(d.text, d.live, p);
    VisibleInsert(d.text, d.live, p, s);
    d' := Apply(d, Ins(Seg(p, s), site));
    assert Insert(before + rest, p, s) == before + (s + rest);
  }

  lemma OneSegCovers(p: nat, s: string, i: int)
    ensures Covers([Seg(p, s)], i) <==> p <= i < p + |s|
  {
    if p <= i < p + |s| { assert In([Seg(p, s)][0], i); }
  }

  /** Marking one segment dead. */
  lemma MarkOne(d: Doc, p: nat, s: string, site: SiteId)
    requires Coherent(d) && s != "" && p + |s| <= |d.text| && d.text[p..p + |s|] == s
    ensures var op := Mark([Seg(p, s)], false, site);
            ValidOn(op, d.text) && Fits(op, |d.text|) && Apply(d, op) == Doc(d.text, SetRange(d.live, p, p + |s|, false))
  {
    var segs := [Seg(p, s)];
    assert SegMatches(segs[0], d.text);
    forall i | 0 <= i < |d.live| ensures Covers(segs, i) <==> p <= i < p + |s| { OneSegCovers(p, s, i); }
    assert SetLive(d.live, segs, false) == SetRange(d.live, p, p + |s|, false);
  }

  lemma DeleteInDiff(d: Doc, before: string, s: string, rest: string, site: SiteId) returns (d': Doc)
    requires Coherent(d) && s != "" && AllLive(d.live, |before| + |s|)
    requires Visible(d.text, d.live) == before + s + rest
    ensures var op := Mark([Seg(|before|, s)], false, site);
            ValidOn(op, d.text) && Fits(op, |d.text|) && d' == Apply(d, op)
    ensures Visible(d'.text, d'.live) == before + rest
    ensures forall n: nat :: n <= |before| ==> AllLive(d'.live, n)
  {
    hide Visible, Count, Apply, ValidOn, Fits;
    var p, q := |before|, |before| + |s|;
    PrefixLive(d.text, d.live, q);
    PrefixLive(d.text, d.live, p);
    MiddleText(d.text, before, s, rest);
    MarkOne(d, p, s, site);
    d' := Doc(d.text, SetRange(d.live, p, q, false));
    VisibleSetRange(d.text, d.live, p, q, false);
    CountSplitLive(d.live, p, q);
    MiddleRemoved(before, s, rest);
  }

  lemma MiddleText(text: string, before: string, s: string, rest: string)
    requires |before| + |s| <= |text| && text[..|before| + |s|] == (before + s + rest)[..|before| + |s|]
    ensures text[|before|..|before| + |s|] == s
  {
    assert text[|before|..|before| + |s|] == text[..|before| + |s|][|before|..];
  }

  lemma MiddleRemoved(before: string, s: string, rest: string)
    ensures Remove(before + s + rest, |before|, |s|) == before + rest
  {}

  lemma CountSplitLive(flags: seq<bool>, p: nat, q: nat)
    requires p <= q && AllLive(flags, q)
    ensures Count(flags[p..q]) == q - p
  {
    CountUniform(flags[p..q], true);
  }

  /** A document has as many characters as live ones, or more. */
  lemma {:induction false} CountBounds(flags: seq<bool>)
    ensures Count(flags) <= |flags|
    decreases |flags|
  {
    if flags != [] { CountBounds(flags[..|flags| - 1]); }
  }

  /** Wherever they point, the operations of a diff are in bounds, and delete or insert. */
  lemma {:induction false} DiffFits(d: Doc, chunks: seq<Chunk>, site: SiteId)
    requires Coherent(d) && Proper(chunks) && |OldText(chunks)| <= |d.text|
    ensures ValidRun(Reversed(RawOps(chunks, site)), d)
    decreases |chunks|, 0
  {
    hide Apply;
    if chunks == [] {
      NoOps(d, site);
    } else {
      var n := |chunks| - 1;
      var init, c := chunks[..n], chunks[n];
      var raw, p := RawOps(init, site), |OldText(init)|;
      match c {
        case Equal(_) =>
          assert RawOps(chunks, site) == raw;
          DiffFits(d, init, site);
        case Insertion(s) => FirstFits(d, init, Ins(Seg(p, s), site), site);
        case Deletion(s) => FirstFits(d, init, Mark([Seg(p, s)], false, site), site);
      }
    }
  }

  /** The operation of the last chunk is applied first. */
  lemma FirstFits(d: Doc, init: seq<Chunk>, op: Op, site: SiteId)
    requires Coherent(d) && Proper(init) && |OldText(init)| <= |d.text| && ValidOn(op, d.text)
    ensures ValidRun(Reversed(RawOps(init, site) + [op]), d)
    decreases |init|, 1
  {
    hide RawOps, OldText;
    DiffFits(Apply(d, op), init, site);
    ReversedSnoc(RawOps(init, site), op);
    FirstOfRun(d, op, Reversed(RawOps(init, site)));
  }

  /** Nothing is revived, so the document is shown as it is. */
  lemma DiffShowsPlainly(d: Doc, chunks: seq<Chunk>, site: SiteId)
    requires Coherent(d) && ValidRun(Reversed(RawOps(chunks, site)), d)
    ensures ShowAll(d, Reversed(RawOps(chunks, site))) == Replay(d, Reversed(RawOps(chunks, site)))
  {
    hide RawOps;
    ShownPlainly(d, Reversed(RawOps(chunks, site)));
  }

  /** The whole of a text against its new content. */
  lemma DiffOfView(d: Doc, chunks: seq<Chunk>, site: SiteId)
    requires Coherent(d) && Proper(chunks) && View(d) == OldText(chunks)
    ensures var ops := Reversed(RawOps(chunks, site));
            && ValidRun(ops, d) && ShowAll(d, ops) == Replay(d, ops)
            && (AllLive(d.live, ChangeEnd(chunks)) ==> View(Replay(d, ops)) == NewText(chunks))
  {
    hide Visible, RawOps, NewText, OldText, AllLive, ChangeEnd, ShowAll, Reversed, ValidRun, Replay;
    VisibleLen(d.text, d.live);
    CountBounds(d.live);
    DiffFits(d, chunks, site);
    DiffShowsPlainly(d, chunks, site);
    if AllLive(d.live, ChangeEnd(chunks)) {
      assert OldText(chunks) + "" == OldText(chunks) && NewText(chunks) + "" == NewText(chunks);
      DiffGivesNewText(d, chunks, "", site);
    }
  }

  lemma {:induction false} AdmitNothing(ops: seq<Op>)
    ensures Admit([], ops) == ops
    decreases |ops|
  {
    if ops != [] { AdmitNothing(ops[1..]); }
  }

  /** Operations whose sender has seen everything are only numbered. */
  lemma SequencedAtCurrentSeq(global: seq<FatOp>, fats: seq<FatOp>)
    ensures Sequenced(global, ContextOps(|global|, fats), |global|) == Numbered(fats, |global|)
  {
    AdmitNothing(OpsOf(fats));
    assert OpsOf(OpsAfter(global, |global|)) == [];
    assert WithOps(fats, OpsOf(fats)) == fats;
  }
}
