/** The state of the client and server engines of collab_mode/src/engine.rs, apart from
    the internal document, and what each engine operation does to it. The classes in
    ClientEngine.dfy and ServerEngine.dfy compute these functions in place. */
module Engines {
  import opened Ops

  datatype EngineError =
    | OpMissing
    | OpMismatch
    | SeqMismatch(expected: GlobalSeq)
    | SiteSeqMismatch(expectedSite: LocalSeq)
    | SeqMissing
    | EmptyInsert
    | DeleteInEmptyDoc
    | UndoError

  datatype Result<+T> = Ok(value: T) | Err(error: EngineError)

  datatype EditorOpKind = EditOriginal | EditUndo | EditRedo

  /** Pending operations as a client sends them; `context` is the last global operation
      the first of them knows about. */
  datatype ContextOps = ContextOps(context: GlobalSeq, ops: seq<FatOp>)

  /** Acknowledged operations, pending ones, and the undo pointers: positions in
      `global ++ local`, counted from 1. */
  datatype History = History(global: seq<FatOp>, local: seq<FatOp>, undoQueue: seq<GlobalSeq>, undoTip: Option<nat>) {
    function Total(): nat { |global| + |local| }

    function All(): seq<FatOp> { global + local }

    /** Every undo pointer denotes an operation, and the tip denotes a pointer. */
    predicate PointersInRange() {
      && (forall i :: 0 <= i < |undoQueue| ==> 1 <= undoQueue[i] <= Total())
      && (undoTip.Some? ==> undoTip.value < |undoQueue|)
    }

    function Nth(i: nat): FatOp
      requires PointersInRange() && i < |undoQueue|
    {
      var idx := undoQueue[i] - 1;
      if idx < |global| then global[idx] else local[idx - |global|]
    }

    function AllOpsAfter(s: GlobalSeq): seq<FatOp>
      requires s <= Total()
    {
      if s < |global| then global[s..] + local else local[s - |global|..]
    }

    /** The number of operations that are done rather than undone. */
    function Done(): nat
      requires PointersInRange()
    {
      if undoTip.Some? then undoTip.value else |undoQueue|
    }
  }

  /** Position `p` (counted from 1) holds an operation of this site. */
  predicate IsOwn(h: History, site: SiteId, p: nat) {
    1 <= p <= h.Total() && h.All()[p - 1].op.site == site
  }

  /** Every undo pointer denotes an operation of this site. */
  predicate OwnPointers(h: History, site: SiteId) {
    forall i :: 0 <= i < |h.undoQueue| ==> IsOwn(h, site, h.undoQueue[i])
  }

  /** The kind of an undo or a redo command. */
  function CommandKind(redo: bool): EditorOpKind { if redo then EditRedo else EditUndo }

  function OpsAfter(global: seq<FatOp>, s: GlobalSeq): seq<FatOp> {
    if s < |global| then global[s..] else []
  }

  /** `process_opkind`: moves the undo pointers for a new operation `opSeq` at the end
      of the history, and tells which earlier operation it reverses. */
  function ProcessOpKind(h: History, kind: EditorOpKind, opSeq: GlobalSeq): Result<(History, OpKind)>
    requires h.PointersInRange()
  {
    var seqOfNewOp := h.Total() + 2;
    match kind
    case EditOriginal =>
      var queue := if h.undoTip.Some? then h.undoQueue[..h.undoTip.value] else h.undoQueue;
      Ok((h.(undoQueue := queue + [opSeq], undoTip := None), Original))
    case EditUndo =>
      if h.undoTip.Some? then
        var idx := h.undoTip.value;
        if idx == 0 then Err(UndoError)
        else Ok((h.(undoQueue := h.undoQueue[idx - 1 := opSeq], undoTip := Some(idx - 1)),
                 Undo(seqOfNewOp - (h.undoQueue[idx - 1] + 1))))
      else if |h.undoQueue| == 0 then Err(UndoError)
      else
        var tip := |h.undoQueue| - 1;
        Ok((h.(undoQueue := h.undoQueue[tip := opSeq], undoTip := Some(tip)),
            Undo(seqOfNewOp - (h.undoQueue[tip] + 1))))
    case EditRedo =>
      if h.undoTip.Some? then
        var idx := h.undoTip.value;
        var tip := if idx + 1 == |h.undoQueue| then None else Some(idx + 1);
        Ok((h.(undoQueue := h.undoQueue[idx := opSeq], undoTip := tip),
            Undo(seqOfNewOp - (h.undoQueue[idx] + 1))))
      else Err(UndoError)
  }

  /** Append one local operation to the history. */
  function PushLocal(h: History, op: Op, siteSeq: LocalSeq, kind: EditorOpKind, groupSeq: GroupSeq): Result<History>
    requires h.PointersInRange()
  {
    match ProcessOpKind(h, kind, h.Total() + 1)
    case Err(e) => Err(e)
    case Ok((h', opKind)) => Ok(h'.(local := h'.local + [FatOp(None, op, siteSeq, opKind, groupSeq)]))
  }

  lemma PushKeepsPointers(h: History, op: Op, siteSeq: LocalSeq, kind: EditorOpKind, groupSeq: GroupSeq)
    requires h.PointersInRange()
    ensures var r := PushLocal(h, op, siteSeq, kind, groupSeq);
            r.Ok? ==> && r.value.PointersInRange()
                      && r.value.global == h.global
                      && |r.value.local| == |h.local| + 1
                      && r.value.local[..|h.local|] == h.local
                      && r.value.local[|h.local|].op == op
                      && r.value.local[|h.local|].siteSeq == siteSeq
                      && r.value.local[|h.local|].groupSeq == groupSeq
  {}

  /** The same for all operations of one editor command. */
  function PushAll(h: History, ops: seq<Op>, siteSeq: LocalSeq, kind: EditorOpKind, groupSeq: GroupSeq): (r: Result<History>)
    requires h.PointersInRange()
    ensures r.Ok? ==> r.value.PointersInRange()
    decreases |ops|
  {
    if ops == [] then Ok(h)
    else
      PushKeepsPointers(h, ops[0], siteSeq, kind, groupSeq);
      match PushLocal(h, ops[0], siteSeq, kind, groupSeq)
      case Err(e) => Err(e)
      case Ok(h') => PushAll(h', ops[1..], siteSeq, kind, groupSeq)
  }

  /** What pushing does, in terms of how many entries are done. */
  lemma PushShape(h: History, op: Op, siteSeq: LocalSeq, kind: EditorOpKind, group: GroupSeq)
    requires h.PointersInRange()
    ensures var n, r := h.Done(), PushLocal(h, op, siteSeq, kind, group);
            && (r.Ok? <==> !(kind.EditUndo? && n == 0) && !(kind.EditRedo? && n == |h.undoQueue|))
            && (r.Ok? ==>
                  var i := if kind.EditUndo? then n - 1 else n;
                  && r.value.global == h.global && r.value.PointersInRange()
                  && r.value.Done() == (if kind.EditUndo? then n - 1 else n + 1)
                  && r.value.undoQueue == (if kind.EditOriginal? then h.undoQueue[..n] + [h.Total() + 1]
                                           else h.undoQueue[i := h.Total() + 1])
                  && r.value.local == h.local + [FatOp(None, op, siteSeq,
                       if kind.EditOriginal? then Original else Undo(h.Total() + 1 - h.undoQueue[i]), group)])
  {}

  lemma PushOne(h: History, op: Op, siteSeq: LocalSeq, kind: EditorOpKind, group: GroupSeq)
    requires h.PointersInRange()
    ensures PushAll(h, [op], siteSeq, kind, group) == PushLocal(h, op, siteSeq, kind, group)
  {
    hide PushLocal;
    PushKeepsPointers(h, op, siteSeq, kind, group);
    assert [op][1..] == [] && [op][0] == op;
  }

  /** An original edit can always be pushed. */
  lemma OriginalNeverFails(h: History, op: Op, siteSeq: LocalSeq, group: GroupSeq)
    requires h.PointersInRange()
    ensures PushAll(h, [op], siteSeq, EditOriginal, group).Ok?
  {
    PushOne(h, op, siteSeq, EditOriginal, group);
    PushShape(h, op, siteSeq, EditOriginal, group);
  }

  /** Pending undo operations count back to their target; a target before the pending
      section moves one further away when a remote operation arrives. */
  function BumpDeltas(local: seq<FatOp>): (r: seq<FatOp>)
    ensures |r| == |local|
    ensures forall i :: 0 <= i < |local| ==> r[i] == BumpDelta(local[i], i)
  {
    seq(|local|, i requires 0 <= i < |local| => BumpDelta(local[i], i))
  }

  function BumpDelta(fat: FatOp, offset: nat): FatOp {
    if fat.kind.Undo? && offset < fat.kind.delta then fat.(kind := Undo(fat.kind.delta + 1)) else fat
  }

  function BumpQueue(queue: seq<GlobalSeq>, prevSeq: GlobalSeq): (r: seq<GlobalSeq>)
    ensures |r| == |queue|
    ensures forall i :: 0 <= i < |queue| ==> r[i] == if queue[i] > prevSeq then queue[i] + 1 else queue[i]
  {
    seq(|queue|, i requires 0 <= i < |queue| => if queue[i] > prevSeq then queue[i] + 1 else queue[i])
  }

  /** A client engine without its document. */
  datatype Client = Client(gh: History, site: SiteId, currentSeq: GlobalSeq, currentSiteSeq: LocalSeq, lastSent: LocalSeq)

  function NewClient(site: SiteId, baseSeq: GlobalSeq): Client {
    Client(History([], [], [], None), site, baseSeq, 0, 0)
  }

  /** One editor command whose internal operations are `ops`. */
  function LocalOps(c: Client, ops: seq<Op>, kind: EditorOpKind, groupSeq: GroupSeq): Result<Client>
    requires c.gh.PointersInRange()
  {
    match PushAll(c.gh, ops, c.currentSiteSeq + 1, kind, groupSeq)
    case Err(e) => Err(e)
    case Ok(h) => Ok(c.(gh := h, currentSiteSeq := c.currentSiteSeq + 1))
  }

  /** `process_remote_op`: an acknowledgement moves the first pending operation to the
      global section; another site's operation is transformed against the pending ones,
      and they against it. Returns the operation to apply to the document, if any. */
  function RemoteOp(c: Client, fat: FatOp): Result<(Client, Option<Op>)> {
    if fat.seqNo.None? then Err(SeqMissing)
    else if fat.seqNo.value != c.currentSeq + 1 then Err(SeqMismatch(c.currentSeq + 1))
    else if fat.op.site == c.site then
      if |c.gh.local| == 0 then Err(OpMissing)
      else if c.gh.local[0].op.site != fat.op.site || c.gh.local[0].siteSeq != fat.siteSeq then Err(OpMismatch)
      else
        var h := c.gh.(local := c.gh.local[1..], global := c.gh.global + [fat]);
        Ok((c.(gh := h, currentSeq := fat.seqNo.value), None))
    else
      var op := Batch(fat.op, OpsOf(c.gh.local));
      var local := BumpDeltas(WithOps(c.gh.local, Rebase(OpsOf(c.gh.local), fat.op)));
      var h := c.gh.(local := local, global := c.gh.global + [fat.(op := op)],
                     undoQueue := BumpQueue(c.gh.undoQueue, c.currentSeq));
      Ok((c.(gh := h, currentSeq := fat.seqNo.value), Some(op)))
  }

  /** What transformation leaves alone: an operation's number at its site, the group it
      belongs to for undo, and whether it is an edit or reverses one. */
  predicate SameTag(x: FatOp, y: FatOp) {
    x.siteSeq == y.siteSeq && x.groupSeq == y.groupSeq && (x.kind.Original? <==> y.kind.Original?)
  }

  predicate SameTags(xs: seq<FatOp>, ys: seq<FatOp>) {
    |xs| == |ys| && forall i :: 0 <= i < |xs| ==> SameTag(xs[i], ys[i])
  }

  /** Another site's operation changes the payloads of the pending operations and how far
      back they reverse, and of the rest of them nothing; it is kept itself with another
      payload. No counter but the global one moves, and nothing is done or undone. */
  lemma RemoteKeepsTags(c: Client, fat: FatOp)
    requires RemoteOp(c, fat).Ok? && fat.op.site != c.site
    ensures var d, local, n := RemoteOp(c, fat).value.0, RemoteOp(c, fat).value.0.gh.local, |c.gh.global|;
            && SameTags(c.gh.local, local) && (forall i :: 0 <= i < |local| ==> local[i].seqNo == c.gh.local[i].seqNo)
            && |d.gh.global| == n + 1 && d.gh.global[..n] == c.gh.global
            && SameTag(d.gh.global[n], fat) && d.gh.global[n].seqNo == fat.seqNo && d.gh.global[n].kind == fat.kind
            && |d.gh.undoQueue| == |c.gh.undoQueue| && d.gh.undoTip == c.gh.undoTip
            && d.site == c.site && d.currentSeq == c.currentSeq + 1
            && d.currentSiteSeq == c.currentSiteSeq && d.lastSent == c.lastSent
  {
    hide Batch, Rebase, OpsOf;
    var local := RemoteOp(c, fat).value.0.gh.local;
    var rebased := WithOps(c.gh.local, Rebase(OpsOf(c.gh.local), fat.op));
    forall i | 0 <= i < |local| ensures SameTag(c.gh.local[i], local[i]) && local[i].seqNo == c.gh.local[i].seqNo {
      assert local[i] == BumpDelta(rebased[i], i);
    }
  }

  /** Whatever arrives, the undo pointers stay in range. */
  lemma RemoteKeepsPointersInRange(c: Client, fat: FatOp)
    requires c.gh.PointersInRange() && RemoteOp(c, fat).Ok?
    ensures RemoteOp(c, fat).value.0.gh.PointersInRange()
  {}

  predicate PrevOpAcked(c: Client) {
    |c.gh.local| > 0 && c.gh.local[0].siteSeq == c.lastSent + 1
  }

  /** `maybe_package_local_ops`. */
  function Package(c: Client): (Client, Option<ContextOps>) {
    if PrevOpAcked(c) then
      (c.(lastSent := c.gh.local[|c.gh.local| - 1].siteSeq), Some(ContextOps(c.currentSeq, c.gh.local)))
    else (c, None)
  }

  /** `process_ops`: rebase a batch over what its sender had not seen, and number it. */
  function Numbered(fats: seq<FatOp>, from: GlobalSeq): (r: seq<FatOp>)
    ensures |r| == |fats| && OpsOf(r) == OpsOf(fats)
    ensures forall i :: 0 <= i < |fats| ==> r[i] == fats[i].(seqNo := Some(from + i + 1))
  {
    seq(|fats|, i requires 0 <= i < |fats| => fats[i].(seqNo := Some(from + i + 1)))
  }

  function Sequenced(global: seq<FatOp>, batch: ContextOps, currentSeq: GlobalSeq): seq<FatOp> {
    Numbered(WithOps(batch.ops, Admit(OpsOf(OpsAfter(global, batch.context)), OpsOf(batch.ops))), currentSeq)
  }
}
