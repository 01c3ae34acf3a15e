/** The document as the operations see it: text including tombstones, and for every
    character whether it is live. */
module Documents {
  import opened Ops

  datatype Doc = Doc(text: string, live: seq<bool>)

  predicate Coherent(d: Doc) { |d.text| == |d.live| }

  function Insert<T>(s: seq<T>, at: nat, t: seq<T>): (r: seq<T>)
    requires at <= |s|
    ensures |r| == |s| + |t|
  {
    s[..at] + t + s[at..]
  }

  function Repeat<T>(x: T, n: nat): (r: seq<T>)
    ensures |r| == n && forall i :: 0 <= i < n ==> r[i] == x
  {
    seq(n, _ => x)
  }

  predicate In(seg: Seg, i: int) { seg.pos <= i < seg.End() }

  /** Position `i` lies in one of the segments. */
  predicate Covers(segs: seq<Seg>, i: int) {
    exists k :: 0 <= k < |segs| && In(segs[k], i)
  }

  /** The liveness flags after marking: covered positions get `live`, all others stay. */
  function SetLive(flags: seq<bool>, segs: seq<Seg>, live: bool): (r: seq<bool>)
    ensures |r| == |flags|
    ensures forall i :: 0 <= i < |flags| ==> r[i] == if Covers(segs, i) then live else flags[i]
  {
    seq(|flags|, i requires 0 <= i < |flags| => if Covers(segs, i) then live else flags[i])
  }

  /** The positions of `op` exist in a document of `len` characters. */
  predicate Fits(op: Op, len: nat) {
    match op
    case Ins(seg, _) => seg.pos <= len
    case Mark(segs, _, _) => SegsFit(segs, len)
  }

  predicate SegsFit(segs: seq<Seg>, len: nat) {
    forall k :: 0 <= k < |segs| ==> segs[k].End() <= len
  }

  function Apply(d: Doc, op: Op): (r: Doc)
    requires Coherent(d) && Fits(op, |d.text|)
    ensures Coherent(r)
  {
    match op
    case Ins(seg, _) => Doc(Insert(d.text, seg.pos, seg.text), Insert(d.live, seg.pos, Repeat(true, |seg.text|)))
    case Mark(segs, live, _) => Doc(d.text, SetLive(d.live, segs, live))
  }

  /** Segments are nonempty, in order and disjoint. */
  predicate Shape(segs: seq<Seg>) {
    && (forall k :: 0 <= k < |segs| ==> segs[k].text != "")
    && (forall j, k :: 0 <= j < k < |segs| ==> segs[j].End() <= segs[k].pos)
  }

  /** `op` can be applied to a document with this text: insertions are nonempty and in
      bounds; marks have proper segments that are in bounds. */
  predicate ValidOn(op: Op, text: string) {
    match op
    case Ins(seg, _) => seg.pos <= |text| && seg.text != ""
    case Mark(segs, _, _) => Shape(segs) && SegsFit(segs, |text|)
  }

  lemma ValidFits(op: Op, text: string)
    requires ValidOn(op, text)
    ensures Fits(op, |text|)
  {}

  predicate SegMatches(seg: Seg, text: string) {
    seg.End() <= |text| && text[seg.pos..seg.End()] == seg.text
  }

  predicate AllMatch(segs: seq<Seg>, text: string) {
    forall k :: 0 <= k < |segs| ==> SegMatches(segs[k], text)
  }

  /** The segments of a mark quote the text that they mark. Applying a mark does not depend
      on it; what editors are told does. */
  predicate Quotes(op: Op, text: string) { op.Mark? ==> AllMatch(op.segs, text) }

  /** Every operation can be applied after the ones before it. */
  predicate ValidRun(ops: seq<Op>, d: Doc)
    requires Coherent(d)
  {
    ops == [] || (ValidOn(ops[0], d.text) && (ValidFits(ops[0], d.text); ValidRun(ops[1..], Apply(d, ops[0]))))
  }

  function Replay(d: Doc, ops: seq<Op>): (r: Doc)
    requires Coherent(d) && ValidRun(ops, d)
    ensures Coherent(r)
    decreases |ops|
  {
    if ops == [] then d
    else
      ValidFits(ops[0], d.text);
      Replay(Apply(d, ops[0]), ops[1..])
  }

  /** Every operation quotes the text it is applied to. */
  predicate QuotingRun(ops: seq<Op>, d: Doc)
    requires Coherent(d) && ValidRun(ops, d)
    decreases |ops|
  {
    ops == [] || (Quotes(ops[0], d.text) && QuotingRun(ops[1..], Apply(d, ops[0])))
  }

  lemma {:induction false} ReplayAppend(d: Doc, ops1: seq<Op>, ops2: seq<Op>)
    requires Coherent(d)
    ensures ValidRun(ops1 + ops2, d) <==> ValidRun(ops1, d) && ValidRun(ops2, Replay(d, ops1))
    ensures ValidRun(ops1 + ops2, d) ==> Replay(d, ops1 + ops2) == Replay(Replay(d, ops1), ops2)
    decreases |ops1|
  {
    if ops1 == [] {
      assert ops1 + ops2 == ops2;
    } else {
      assert (ops1 + ops2)[1..] == ops1[1..] + ops2 && (ops1 + ops2)[0] == ops1[0];
      if ValidOn(ops1[0], d.text) {
        ValidFits(ops1[0], d.text);
        ReplayAppend(Apply(d, ops1[0]), ops1[1..], ops2);
      }
    }
  }

  lemma ReplaySnoc(d: Doc, ops: seq<Op>, last: Op)
    requires Coherent(d) && ValidRun(ops, d) && ValidOn(last, Replay(d, ops).text)
    ensures ValidRun(ops + [last], d)
    ensures Fits(last, |Replay(d, ops).text|)
    ensures Replay(d, ops + [last]) == Apply(Replay(d, ops), last)
  {
    var e := Replay(d, ops);
    ReplayAppend(d, ops, [last]);
    ValidFits(last, e.text);
    assert ValidRun([], Apply(e, last));
    assert [last][1..] == [];
    assert Replay(Apply(e, last), []) == Apply(e, last);
  }

  lemma RunOfOne(d: Doc, op: Op)
    requires Coherent(d) && ValidOn(op, d.text)
    ensures Fits(op, |d.text|) && ValidRun([op], d) && Replay(d, [op]) == Apply(d, op)
  {
    ValidFits(op, d.text);
    assert [op][0] == op && [op][1..] == [];
    assert ValidRun([], Apply(d, op));
    assert Replay(Apply(d, op), []) == Apply(d, op);
  }

  lemma {:induction false} PrefixRun(d: Doc, ops: seq<Op>, k: nat)
    requires Coherent(d) && ValidRun(ops, d) && k <= |ops|
    ensures ValidRun(ops[..k], d) && ValidRun(ops[k..], Replay(d, ops[..k]))
    ensures Replay(Replay(d, ops[..k]), ops[k..]) == Replay(d, ops)
  {
    assert ops[..k] + ops[k..] == ops;
    ReplayAppend(d, ops[..k], ops[k..]);
  }

  lemma {:induction false} QuotingAt(d: Doc, ops: seq<Op>, k: nat)
    requires Coherent(d) && ValidRun(ops, d) && QuotingRun(ops, d) && k < |ops|
    ensures ValidRun(ops[..k], d) && Quotes(ops[k], Replay(d, ops[..k]).text)
    decreases |ops|
  {
    if k > 0 {
      QuotingAt(Apply(d, ops[0]), ops[1..], k - 1);
      assert ops[..k][0] == ops[0] && ops[..k][1..] == ops[1..][..k - 1];
    }
  }
}
