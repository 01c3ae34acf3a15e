/** The operations of collab_mode/src/op.rs: insertions, multi-segment marks, the
    pairwise transformation of one against the other, and the loops that lift it to
    lists of operations. */
module Ops {

  type SiteId = nat
  type GlobalSeq = nat
  type LocalSeq = nat
  type GroupSeq = nat

  datatype Option<+T> = None | Some(value: T)

  /** A stretch of text at an internal position (internal positions count tombstones). */
  datatype Seg = Seg(pos: nat, text: string) {
    function End(): nat { pos + |text| }
  }

  /** `Ins` inserts live text; `Mark` makes every segment live or dead. */
  datatype Op =
    | Ins(seg: Seg, site: SiteId)
    | Mark(segs: seq<Seg>, live: bool, site: SiteId)

  datatype OpKind = Original | Undo(delta: nat)

  /** An operation with its sequencing information. */
  datatype FatOp = FatOp(seqNo: Option<GlobalSeq>, op: Op, siteSeq: LocalSeq, kind: OpKind, groupSeq: GroupSeq)

  // ---------------------------------------------------------------- one against one

  predicate PosLessThan(pos1: nat, pos2: nat, site1: SiteId, site2: SiteId) {
    pos1 < pos2 || (pos1 == pos2 && site1 < site2)
  }

  /** An insertion against a concurrent insertion. */
  function TransformII(op: Seg, base: Seg, opSite: SiteId, baseSite: SiteId): Seg {
    if PosLessThan(op.pos, base.pos, opSite, baseSite) then op
    else Seg(op.pos + |base.text|, op.text)
  }

  /** One marked segment against a concurrent insertion: the segment stays, moves, or
      is split around the inserted text. */
  function TransformDI(op: Seg, base: Seg, opSite: SiteId, baseSite: SiteId): seq<Seg> {
    if PosLessThan(op.End(), base.pos, opSite, baseSite) then [op]
    else if PosLessThan(base.pos, op.pos, baseSite, opSite) then [Seg(op.pos + |base.text|, op.text)]
    else
      var mid := base.pos - op.pos;
      var before := Seg(op.pos, op.text[..mid]);
      var after := Seg(base.End(), op.text[mid..]);
      (if |before.text| > 0 then [before] else []) + (if |after.text| > 0 then [after] else [])
  }

  /** Every segment of a mark against a concurrent insertion, in segment order. */
  function TransformSegs(segs: seq<Seg>, base: Seg, opSite: SiteId, baseSite: SiteId): seq<Seg> {
    if segs == [] then []
    else TransformSegs(segs[..|segs| - 1], base, opSite, baseSite)
         + TransformDI(segs[|segs| - 1], base, opSite, baseSite)
  }

  function Transform(op: Op, base: Op): Op {
    match (op, base)
    case (Ins(seg, site), Ins(baseSeg, baseSite)) => Ins(TransformII(seg, baseSeg, site, baseSite), site)
    case (Mark(segs, live, site), Ins(baseSeg, baseSite)) => Mark(TransformSegs(segs, baseSeg, site, baseSite), live, site)
    case _ => op
  }

  function Inverse(op: Op): Op {
    match op
    case Ins(seg, site) => Mark([seg], false, site)
    case Mark(segs, live, site) => Mark(segs, !live, site)
  }

  /** `Op::transform` as the source computes it: new segments are appended in a loop. */
  method TransformOp(op: Op, base: Op) returns (res: Op)
    ensures res == Transform(op, base)
  {
    match (op, base)
    case (Ins(seg, site), Ins(baseSeg, baseSite)) =>
      res := Ins(TransformII(seg, baseSeg, site, baseSite), site);
    case (Mark(segs, live, site), Ins(baseSeg, baseSite)) =>
      var newSegs := [];
      for i := 0 to |segs|
        invariant newSegs == TransformSegs(segs[..i], baseSeg, site, baseSite)
      {
        assert segs[..i + 1][..i] == segs[..i];
        newSegs := newSegs + TransformDI(segs[i], baseSeg, site, baseSite);
      }
      assert segs[..|segs|] == segs;
      res := Mark(newSegs, live, site);
    case _ =>
      res := op;
  }

  // ---------------------------------------------------------------- lists

  /** `op` against every element of `bases`, first to last. */
  function Batch(op: Op, bases: seq<Op>): Op
    decreases |bases|
  {
    if bases == [] then op else Batch(Transform(op, bases[0]), bases[1..])
  }

  /** The list `ops` against the single operation `base`, which moves along it. */
  function Rebase(ops: seq<Op>, base: Op): (res: seq<Op>)
    ensures |res| == |ops|
  {
    if ops == [] then []
    else [Transform(ops[0], base)] + Rebase(ops[1..], Transform(base, ops[0]))
  }

  /** The list `ops` against the list `bases`, one base at a time: what a client does
      to its pending list as remote operations arrive. */
  function RebaseOver(ops: seq<Op>, bases: seq<Op>): (res: seq<Op>)
    ensures |res| == |ops|
    decreases |bases|
  {
    if bases == [] then ops else RebaseOver(Rebase(ops, bases[0]), bases[1..])
  }

  /** The list `ops` against the list `bases`, one op at a time: what a server does to
      a batch it admits. */
  function Admit(bases: seq<Op>, ops: seq<Op>): (res: seq<Op>)
    ensures |res| == |ops|
    decreases |ops|
  {
    if ops == [] then []
    else [Batch(ops[0], bases)] + Admit(Rebase(bases, ops[0]), ops[1..])
  }

  function OpsOf(fats: seq<FatOp>): (ops: seq<Op>)
    ensures |ops| == |fats|
    ensures forall i :: 0 <= i < |fats| ==> ops[i] == fats[i].op
  {
    seq(|fats|, i requires 0 <= i < |fats| => fats[i].op)
  }

  /** `fats` with the operations replaced and all sequencing information kept. */
  function WithOps(fats: seq<FatOp>, ops: seq<Op>): (res: seq<FatOp>)
    requires |fats| == |ops|
    ensures |res| == |fats|
    ensures forall i :: 0 <= i < |fats| ==> res[i] == fats[i].(op := ops[i])
    ensures OpsOf(res) == ops
  {
    seq(|fats|, i requires 0 <= i < |fats| => fats[i].(op := ops[i]))
  }

  lemma {:induction false} BatchSnoc(op: Op, bases: seq<Op>, last: Op)
    ensures Batch(op, bases + [last]) == Transform(Batch(op, bases), last)
    decreases |bases|
  {
    if bases == [] {
      assert bases + [last] == [last];
      assert Batch(op, [last]) == Batch(Transform(op, last), []);
    } else {
      assert (bases + [last])[1..] == bases[1..] + [last];
      BatchSnoc(Transform(op, bases[0]), bases[1..], last);
    }
  }

  lemma {:induction false} RebaseSnoc(ops: seq<Op>, last: Op, base: Op)
    ensures Rebase(ops + [last], base) == Rebase(ops, base) + [Transform(last, Batch(base, ops))]
  {
    if ops == [] {
      assert ops + [last] == [last];
    } else {
      assert (ops + [last])[1..] == ops[1..] + [last];
      RebaseSnoc(ops[1..], last, Transform(base, ops[0]));
    }
  }

  lemma {:induction false} AdmitSnoc(bases: seq<Op>, ops: seq<Op>, last: Op)
    ensures Admit(bases, ops + [last]) == Admit(bases, ops) + [Batch(last, RebaseOver(bases, ops))]
    decreases |ops|
  {
    if ops == [] {
      assert ops + [last] == [last];
    } else {
      assert (ops + [last])[1..] == ops[1..] + [last];
      AdmitSnoc(Rebase(bases, ops[0]), ops[1..], last);
    }
  }

  lemma {:induction false} RebaseOverSnoc(ops: seq<Op>, bases: seq<Op>, last: Op)
    ensures RebaseOver(ops, bases + [last]) == Rebase(RebaseOver(ops, bases), last)
    decreases |bases|
  {
    if bases == [] {
      assert bases + [last] == [last];
      assert RebaseOver(ops, [last]) == RebaseOver(Rebase(ops, last), []);
    } else {
      assert (bases + [last])[1..] == bases[1..] + [last];
      RebaseOverSnoc(Rebase(ops, bases[0]), bases[1..], last);
    }
  }

  /** `FatOp::batch_transform`. */
  method BatchTransform(fat: FatOp, bases: seq<FatOp>) returns (res: FatOp)
    ensures res == fat.(op := Batch(fat.op, OpsOf(bases)))
  {
    res := fat;
    for i := 0 to |bases|
      invariant res == fat.(op := Batch(fat.op, OpsOf(bases[..i])))
    {
      BatchSnoc(fat.op, OpsOf(bases[..i]), bases[i].op);
      assert OpsOf(bases[..i + 1]) == OpsOf(bases[..i]) + [bases[i].op];
      var op := TransformOp(res.op, bases[i].op);
      res := res.(op := op);
    }
    assert bases[..|bases|] == bases;
  }

  /** `FatOp::symmetric_transform`: `fat` moves over `ops` while each of them is
      transformed against `fat` as it stands when it gets there. */
  method SymmetricTransform(fat: FatOp, ops: seq<FatOp>) returns (res: FatOp, newOps: seq<FatOp>)
    ensures res == fat.(op := Batch(fat.op, OpsOf(ops)))
    ensures newOps == WithOps(ops, Rebase(OpsOf(ops), fat.op))
  {
    res, newOps := fat, [];
    for i := 0 to |ops|
      invariant res == fat.(op := Batch(fat.op, OpsOf(ops[..i])))
      invariant newOps == WithOps(ops[..i], Rebase(OpsOf(ops[..i]), fat.op))
    {
      BatchSnoc(fat.op, OpsOf(ops[..i]), ops[i].op);
      RebaseSnoc(OpsOf(ops[..i]), ops[i].op, fat.op);
      assert OpsOf(ops[..i + 1]) == OpsOf(ops[..i]) + [ops[i].op];
      var newOp := TransformOp(ops[i].op, res.op);
      var op := TransformOp(res.op, ops[i].op);
      res := res.(op := op);
      newOps := newOps + [ops[i].(op := newOp)];
    }
    assert ops[..|ops|] == ops;
  }

  /** `quatradic_transform`: both lists against each other. */
  method QuadraticTransform(ops1: seq<FatOp>, ops2: seq<FatOp>) returns (res1: seq<FatOp>, res2: seq<FatOp>)
    ensures res1 == WithOps(ops1, RebaseOver(OpsOf(ops1), OpsOf(ops2)))
    ensures res2 == WithOps(ops2, Admit(OpsOf(ops1), OpsOf(ops2)))
  {
    res1, res2 := ops1, [];
    for i := 0 to |ops2|
      invariant res1 == WithOps(ops1, RebaseOver(OpsOf(ops1), OpsOf(ops2[..i])))
      invariant res2 == WithOps(ops2[..i], Admit(OpsOf(ops1), OpsOf(ops2[..i])))
    {
      RebaseOverSnoc(OpsOf(ops1), OpsOf(ops2[..i]), ops2[i].op);
      AdmitSnoc(OpsOf(ops1), OpsOf(ops2[..i]), ops2[i].op);
      assert OpsOf(ops2[..i + 1]) == OpsOf(ops2[..i]) + [ops2[i].op];
      var fat;
      fat, res1 := SymmetricTransform(ops2[i], res1);
      res2 := res2 + [fat];
    }
    assert ops2[..|ops2|] == ops2;
  }

  // ---------------------------------------------------------------- rebasing algebra

  lemma {:induction false} RebaseOverCons(op: Op, ops: seq<Op>, bases: seq<Op>)
    ensures RebaseOver([op] + ops, bases) == [Batch(op, bases)] + RebaseOver(ops, Rebase(bases, op))
    decreases |bases|
  {
    if bases != [] {
      var b := bases[0];
      assert ([op] + ops)[1..] == ops;
      assert Rebase([op] + ops, b) == [Transform(op, b)] + Rebase(ops, Transform(b, op));
      RebaseOverCons(Transform(op, b), Rebase(ops, Transform(b, op)), bases[1..]);
      var rest := Rebase(bases, op);
      assert rest[0] == Transform(b, op) && rest[1..] == Rebase(bases[1..], Transform(op, b));
    }
  }

  /** The client and the server arrive at the same rebased list, although one walks
      the grid of transformations by rows and the other by columns. */
  lemma {:induction false} ServerAgreesWithClient(bases: seq<Op>, ops: seq<Op>)
    ensures Admit(bases, ops) == RebaseOver(ops, bases)
    decreases |ops|
  {
    if ops == [] {
    } else {
      assert ops == [ops[0]] + ops[1..];
      RebaseOverCons(ops[0], ops[1..], bases);
      ServerAgreesWithClient(Rebase(bases, ops[0]), ops[1..]);
    }
  }

  lemma {:induction false} RebaseOverAppend(ops: seq<Op>, bases1: seq<Op>, bases2: seq<Op>)
    ensures RebaseOver(ops, bases1 + bases2) == RebaseOver(RebaseOver(ops, bases1), bases2)
    decreases |bases1|
  {
    if bases1 == [] {
      assert bases1 + bases2 == bases2;
    } else {
      assert (bases1 + bases2)[1..] == bases1[1..] + bases2;
      RebaseOverAppend(Rebase(ops, bases1[0]), bases1[1..], bases2);
    }
  }

  /** Pending operations that are appended later do not disturb those already sent. */
  lemma {:induction false} RebasePrefix(ops: seq<Op>, more: seq<Op>, base: Op)
    ensures Rebase(ops + more, base)[..|ops|] == Rebase(ops, base)
    decreases |ops|
  {
    if ops != [] {
      assert (ops + more)[1..] == ops[1..] + more;
      RebasePrefix(ops[1..], more, Transform(base, ops[0]));
    }
  }

  /** Transformation changes positions only: site and liveness stay, and so does the
      constructor. */
  predicate SameMeta(a: Op, b: Op) {
    a.site == b.site && (a.Mark? <==> b.Mark?) && (a.Mark? ==> a.live == b.live)
  }

  lemma {:induction false} BatchKeepsMeta(op: Op, bases: seq<Op>)
    ensures SameMeta(op, Batch(op, bases))
    decreases |bases|
  {
    if bases != [] { BatchKeepsMeta(Transform(op, bases[0]), bases[1..]); }
  }

  lemma {:induction false} RebaseKeepsMeta(ops: seq<Op>, base: Op)
    ensures forall i :: 0 <= i < |ops| ==> SameMeta(ops[i], Rebase(ops, base)[i])
    decreases |ops|
  {
    if ops != [] {
      RebaseKeepsMeta(ops[1..], Transform(base, ops[0]));
      var r := Rebase(ops, base);
      forall i | 0 <= i < |ops| ensures SameMeta(ops[i], r[i]) {
        if i > 0 { assert ops[i] == ops[1..][i - 1] && r[i] == r[1..][i - 1]; }
      }
    }
  }

  lemma {:induction false} RebaseOverKeepsMeta(ops: seq<Op>, bases: seq<Op>)
    ensures forall i :: 0 <= i < |ops| ==> SameMeta(ops[i], RebaseOver(ops, bases)[i])
    decreases |bases|
  {
    if bases != [] {
      RebaseKeepsMeta(ops, bases[0]);
      RebaseOverKeepsMeta(Rebase(ops, bases[0]), bases[1..]);
      forall i | 0 <= i < |ops| ensures SameMeta(ops[i], RebaseOver(ops, bases)[i]) {
        assert SameMeta(ops[i], Rebase(ops, bases[0])[i]);
      }
    }
  }
}
