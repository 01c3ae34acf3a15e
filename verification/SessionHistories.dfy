/** A client's own history, which holds copies of what the server sequenced: what undo makes
    of it, and when it marks the characters it should. */
module SessionHistories {
  import opened Ops
  import opened Documents
  import opened Tracking
  import opened Convergence
  import opened Engines
  import opened UndoGeneration
  import opened Pointers
  import opened Sessions
  import opened SessionInvariants

  // ---------------------------------------------------------------- the copies

  lemma GrowthKeepsHistory(s: Server, t: Server, fats: seq<FatOp>, p: Peer)
    requires HistoryCopies(s, p) && t.global == s.global + fats
    ensures HistoryCopies(t, p)
  {
    var k, n := p.engine.currentSeq, |p.engine.gh.global|;
    assert t.global[k - n..k] == s.global[k - n..k];
  }

  /** One more operation, as received or as transformed for this client's document. */
  lemma ReceiveKeepsHistory(server: Server, p: Peer, q: Peer, kept: FatOp)
    requires HistoryCopies(server, p) && p.engine.currentSeq < |server.global|
    requires var fat := server.global[p.engine.currentSeq];
             CopyOf(kept.op, fat.op) && (kept.op.site == p.engine.site ==> kept.op == fat.op)
    requires q.engine.gh.global == p.engine.gh.global + [kept] && q.engine.currentSeq == p.engine.currentSeq + 1
    requires q.engine.site == p.engine.site
    ensures HistoryCopies(server, q)
  {
    var k, n := p.engine.currentSeq, |p.engine.gh.global|;
    assert server.global[k - n..k + 1] == server.global[k - n..k] + [server.global[k]];
    assert forall i :: 0 <= i < n ==> OpsOf(p.engine.gh.global)[i] == OpsOf(q.engine.gh.global)[i];
  }

  // ---------------------------------------------------------------- pointers

  lemma {:induction false} PushKeepsOwn(h: History, site: SiteId, ops: seq<Op>, siteSeq: LocalSeq, kind: EditorOpKind, group: GroupSeq)
    requires h.PointersInRange() && OwnPointers(h, site) && forall i :: 0 <= i < |ops| ==> ops[i].site == site
    requires PushAll(h, ops, siteSeq, kind, group).Ok?
    ensures OwnPointers(PushAll(h, ops, siteSeq, kind, group).value, site)
    decreases |ops|
  {
    hide PushLocal;
    if ops != [] {
      PushShape(h, ops[0], siteSeq, kind, group);
      var h' := PushLocal(h, ops[0], siteSeq, kind, group).value;
      assert h'.All()[..h.Total()] == h.All();
      forall i | 0 <= i < |h'.undoQueue| ensures IsOwn(h', site, h'.undoQueue[i]) {
        if h'.undoQueue[i] != h.Total() + 1 { assert IsOwn(h, site, h'.undoQueue[i]); }
      }
      PushKeepsOwn(h', site, ops[1..], siteSeq, kind, group);
    }
  }

  /** An engine that holds every operation it has counted keeps own pointers own. */
  lemma RemoteKeepsOwn(c: Client, fat: FatOp)
    requires c.gh.PointersInRange() && AllOwn(c.gh.local, c.site) && Aligned(c) && OwnPointers(c.gh, c.site)
    requires RemoteOp(c, fat).Ok?
    ensures OwnPointers(RemoteOp(c, fat).value.0.gh, c.site)
  {
    hide OwnCount, Identity;
    var h := RemoteOp(c, fat).value.0.gh;
    if fat.op.site == c.site {
      forall i | 0 <= i < |h.undoQueue| ensures IsOwn(h, c.site, h.undoQueue[i]) {
        AckKeepsIdentity(c.gh, h, c.site, fat, c.gh.undoQueue[i]);
      }
    } else {
      RemoteHistory(c, fat);
      forall i | 0 <= i < |h.undoQueue| ensures IsOwn(h, c.site, h.undoQueue[i]) {
        MovedKeepsIdentity(c.gh, h, c.site, h.global[|c.gh.global|], c.gh.undoQueue[i]);
      }
    }
  }

  // ---------------------------------------------------------------- undo in a client's history

  /** The server's operations since the client joined, then the pending ones. */
  function Originals(server: Server, p: Peer): seq<Op>
    requires HistoryCopies(server, p)
  {
    var k, n := p.engine.currentSeq, |p.engine.gh.global|;
    OpsOf(server.global[k - n..k]) + OpsOf(p.engine.gh.local)
  }

  ghost function JoinedAt(start: Doc, server: Server, p: Peer): (d: Doc)
    requires ServerInv(start, server) && HistoryCopies(server, p)
    ensures Coherent(d)
  {
    At(start, server, p.engine.currentSeq - |p.engine.gh.global|)
  }

  /** They replay to the client's text, and the client's history is a copy of them. */
  lemma OriginalsReplay(start: Doc, server: Server, p: Peer)
    requires ServerInv(start, server) && UpToDate(start, server, p, false) && HistoryCopies(server, p)
    ensures var base, originals := JoinedAt(start, server, p), Originals(server, p);
            && ValidRun(originals, base) && Replay(base, originals).text == p.doc.text
            && CopiesOf(OpsOf(p.engine.gh.All()), originals)
  {
    hide ValidRun, Replay;
    var k, n := p.engine.currentSeq, |p.engine.gh.global|;
    SliceRun(start, server, k - n, k);
    ReplayAppend(JoinedAt(start, server, p), OpsOf(server.global[k - n..k]), OpsOf(p.engine.gh.local));
    OpsOfAppend(p.engine.gh.global, p.engine.gh.local);
  }

  lemma OwnIsOriginal(server: Server, p: Peer, q: nat)
    requires HistoryCopies(server, p) && IsOwn(p.engine.gh, p.engine.site, q)
    ensures |Originals(server, p)| == p.engine.gh.Total() && p.engine.gh.All()[q - 1].op == Originals(server, p)[q - 1]
  {}

  lemma {:induction false} CopiesInsertAsMuch(kept: seq<Op>, originals: seq<Op>)
    requires CopiesOf(kept, originals)
    ensures Inserted(kept) == Inserted(originals)
    decreases |kept|
  {
    if kept != [] {
      assert CopyOf(kept[0], originals[0]);
      CopiesInsertAsMuch(kept[1..], originals[1..]);
    }
  }

  /** What is generated for an own operation, wherever others' copies are, stays in bounds. */
  lemma GeneratedStaysInBounds(start: Doc, server: Server, p: Peer, i: nat)
    requires ServerInv(start, server) && UpToDate(start, server, p, false) && HistoryCopies(server, p)
    requires p.engine.gh.PointersInRange() && i < |p.engine.gh.undoQueue|
    requires IsOwn(p.engine.gh, p.engine.site, p.engine.gh.undoQueue[i])
    ensures ValidOn(Generated(p.engine.gh, i, []), p.doc.text)
  {
    hide ValidRun, Replay, Batch;
    var h, q := p.engine.gh, p.engine.gh.undoQueue[i];
    var base, originals := JoinedAt(start, server, p), Originals(server, p);
    OriginalsReplay(start, server, p);
    OwnIsOriginal(server, p, q);
    LaterOps(h, i);
    hide ServerInv, UpToDate, HistoryCopies, Originals, JoinedAt, At, IsOwn, Generated;
    OpInHistory(base, originals, q - 1);
    var d, op := Replay(base, originals[..q - 1]), originals[q - 1];
    InverseIsValid(op, d);
    ReplayLength(Apply(d, op), originals[q..]);
    var later := OpsOf(h.AllOpsAfter(q));
    CopiesInsertAsMuch(later, originals[q..]);
    BatchStaysInBounds(Inverse(op), |Apply(d, op).text|, later);
  }

  /** The entry's operation and what follows it, in the history as one list. */
  lemma LaterOps(h: History, i: nat)
    requires h.PointersInRange() && i < |h.undoQueue|
    ensures var q := h.undoQueue[i];
            && h.Nth(i) == h.All()[q - 1] && OpsOf(h.AllOpsAfter(q)) == OpsOf(h.All())[q..]
            && Generated(h, i, []) == Batch(Inverse(h.Nth(i).op), OpsOf(h.AllOpsAfter(q)))
  {
    var q := h.undoQueue[i];
    assert h.AllOpsAfter(q) == h.All()[q..];
    assert OpsOf(h.AllOpsAfter(q)) + [] == OpsOf(h.AllOpsAfter(q));
  }

  /** So an undo or redo command that takes own operations can be applied, and consists of
      own operations. */
  lemma UndoFits(start: Doc, server: Server, p: Peer, redo: bool)
    requires ServerInv(start, server) && UpToDate(start, server, p, false) && HistoryCopies(server, p)
    requires p.engine.gh.PointersInRange() && OwnCommand(p.engine.gh, redo, p.engine.site)
    ensures ValidRun(GenerateUndo(p.engine.gh, redo), p.doc)
    ensures forall k :: 0 <= k < |GenerateUndo(p.engine.gh, redo)| ==> GenerateUndo(p.engine.gh, redo)[k].site == p.engine.site
  {
    hide ValidRun, Replay, Generated, GenerateUndo, Entries;
    var entries := Entries(p.engine.gh, redo);
    forall k | 0 <= k < |entries| ensures ValidOn(Generated(p.engine.gh, entries[k], []), p.doc.text) {
      GeneratedStaysInBounds(start, server, p, entries[k]);
    }
    CommandFits(p.engine.gh, redo, p.doc);
    CommandSite(p.engine.gh, redo, p.engine.site);
  }

  /** Where the characters are that the entry's operation touched: followed through the
      operations as the server sequenced them. */
  predicate Touched(server: Server, p: Peer, i: nat, x: nat)
    requires HistoryCopies(server, p) && p.engine.gh.PointersInRange() && i < |p.engine.gh.undoQueue|
  {
    Reached(p.engine.gh.Nth(i).op, Originals(server, p)[p.engine.gh.undoQueue[i]..], x)
  }

  lemma {:induction false} NoEmptyOriginals(d: Doc, ops: seq<Op>)
    requires Coherent(d) && ValidRun(ops, d)
    ensures NoEmptyInsertions(ops)
    decreases |ops|
  {
    if ops != [] {
      NoEmptyOriginals(Apply(d, ops[0]), ops[1..]);
      forall i | 0 <= i < |ops| && ops[i].Ins? ensures ops[i].seg.text != "" {
        if i > 0 { assert ops[1..][i - 1] == ops[i]; }
      }
    }
  }

  /** A history `kept` whose operations are copies of those of a history that replays, with
      the `k`-th one unchanged: the operation that undoes it there marks what it touched if
      and only if none of that is misled. */
  lemma UndoAmongCopies(base: Doc, originals: seq<Op>, kept: seq<Op>, k: nat)
    requires Coherent(base) && ValidRun(originals, base) && CopiesOf(kept, originals)
    requires k < |kept| && kept[k] == originals[k]
    ensures Undoing(kept, k).Mark?
    ensures (forall x: nat :: Covers(Undoing(kept, k).segs, x) <==> Reached(kept[k], originals[k + 1..], x))
       <==> (forall c: nat :: Touches(kept[k], c) ==> !Misled(c, kept[k + 1..], originals[k + 1..]))
  {
    hide ValidRun, Replay, Batch, Covers, Misled, Reached, Touches, CopyOf;
    NoEmptyOriginals(base, originals);
    UndoTargeting(base, originals, k);
    OpInHistory(base, originals, k);
    InverseIsValid(originals[k], Replay(base, originals[..k]));
    CopiesTargetIff(Inverse(originals[k]), kept[k + 1..], originals[k + 1..]);
  }

  lemma GeneratedIsUndoing(h: History, i: nat)
    requires h.PointersInRange() && i < |h.undoQueue|
    ensures Generated(h, i, []) == Undoing(OpsOf(h.All()), h.undoQueue[i] - 1)
    ensures h.Nth(i).op == OpsOf(h.All())[h.undoQueue[i] - 1]
  {
    hide Batch;
    LaterOps(h, i);
  }

  /** In every session: what is generated to undo an entry of the undo queue that denotes an
      own operation marks exactly the characters which that operation inserted or marked, if
      and only if none of them comes between the original and the kept copy of a later
      insertion. */
  lemma UndoTargetsIff(start: Doc, server: Server, p: Peer, i: nat)
    requires ServerInv(start, server) && UpToDate(start, server, p, false) && HistoryCopies(server, p)
    requires p.engine.gh.PointersInRange() && i < |p.engine.gh.undoQueue|
    requires IsOwn(p.engine.gh, p.engine.site, p.engine.gh.undoQueue[i])
    ensures Generated(p.engine.gh, i, []).Mark?
    ensures var h, q := p.engine.gh, p.engine.gh.undoQueue[i];
            var kept, originals := OpsOf(h.All())[q..], Originals(server, p)[q..];
            |kept| == |originals| &&
            ((forall x: nat :: Covers(Generated(h, i, []).segs, x) <==> Touched(server, p, i, x))
             <==> (forall c: nat :: Touches(h.Nth(i).op, c) ==> !Misled(c, kept, originals)))
  {
    hide ValidRun, Replay, Undoing, Covers, Misled, Reached, Touches, UpToDate, HistoryCopies, Generated, Originals, JoinedAt,
         ServerInv, At;
    var h, q := p.engine.gh, p.engine.gh.undoQueue[i];
    OriginalsReplay(start, server, p);
    OwnIsOriginal(server, p, q);
    GeneratedIsUndoing(h, i);
    UndoAmongCopies(JoinedAt(start, server, p), Originals(server, p), OpsOf(h.All()), q - 1);
  }
}
