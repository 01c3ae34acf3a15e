/** Quoting, apart from everything else: if what editors, disk changes and undo commands make
    quotes the text it marks, then so does everything that transformation makes of it, and
    editors are shown the documents' own text (`Showing.ShowIff`). */
module SessionQuotes {
  import opened Ops
  import opened Documents
  import opened Marks
  import opened Convergence
  import opened ListConvergence
  import opened Engines
  import opened UndoGeneration
  import opened Sessions
  import opened SessionInvariants
  import opened SessionHistories
  import opened SessionProofs

  // ---------------------------------------------------------------- lists

  lemma {:induction false} QuotingOnSameText(d: Doc, e: Doc, ops: seq<Op>)
    requires Coherent(d) && Coherent(e) && d.text == e.text && ValidRun(ops, d) && ValidRun(ops, e)
    ensures QuotingRun(ops, d) <==> QuotingRun(ops, e)
    decreases |ops|
  {
    if ops != [] { QuotingOnSameText(Apply(d, ops[0]), Apply(e, ops[0]), ops[1..]); }
  }

  lemma {:induction false} QuotingAppend(d: Doc, ops1: seq<Op>, ops2: seq<Op>)
    requires Coherent(d) && ValidRun(ops1, d) && ValidRun(ops2, Replay(d, ops1))
    ensures ValidRun(ops1 + ops2, d)
    ensures QuotingRun(ops1 + ops2, d) <==> QuotingRun(ops1, d) && QuotingRun(ops2, Replay(d, ops1))
    decreases |ops1|
  {
    ReplayAppend(d, ops1, ops2);
    if ops1 == [] {
      assert ops1 + ops2 == ops2;
    } else {
      assert (ops1 + ops2)[1..] == ops1[1..] + ops2 && (ops1 + ops2)[0] == ops1[0];
      QuotingAppend(Apply(d, ops1[0]), ops1[1..], ops2);
    }
  }

  /** One operation against a list: all that quoted its text still does. */
  lemma {:induction false} OneQuotes(d: Doc, a: Op, ops: seq<Op>)
    requires Coherent(d) && ValidOn(a, d.text) && ValidRun(ops, d) && Foreign(a, ops)
    requires Quotes(a, d.text) && QuotingRun(ops, d)
    ensures ValidRun(Rebase(ops, a), Apply(d, a)) && QuotingRun(Rebase(ops, a), Apply(d, a))
    ensures Quotes(Batch(a, ops), Replay(d, ops).text)
    decreases |ops|
  {
    TextAgainstList(d, a, ops);
    if ops != [] {
      hide Quotes;
      var b, rest := ops[0], ops[1..];
      var a', b' := Transform(a, b), Transform(b, a);
      Tp1Square(d, a, b);
      TransformKeepsQuotes(a, b, d.text);
      TransformKeepsQuotes(b, a, d.text);
      var e, e' := Apply(d, b), Apply(d, a);
      forall i | 0 <= i < |rest| ensures a'.site != rest[i].site { assert rest[i] == ops[i + 1]; }
      TextAgainstList(e, a', rest);
      OneQuotes(e, a', rest);
      var tail := Rebase(rest, a');
      RunOnSameText(Apply(e, a'), Apply(e', b'), tail);
      QuotingOnSameText(Apply(e, a'), Apply(e', b'), tail);
      FirstQuotes(e', b', tail);
    }
  }

  lemma FirstQuotes(d: Doc, op: Op, rest: seq<Op>)
    requires Coherent(d) && ValidOn(op, d.text) && ValidRun(rest, Apply(d, op))
    ensures ValidRun([op] + rest, d)
    ensures QuotingRun([op] + rest, d) <==> Quotes(op, d.text) && QuotingRun(rest, Apply(d, op))
  {
    assert ([op] + rest)[0] == op && ([op] + rest)[1..] == rest;
  }

  lemma {:induction false} ListQuotes(d: Doc, bases: seq<Op>, ops: seq<Op>)
    requires Coherent(d) && ValidRun(bases, d) && ValidRun(ops, d) && AllForeign(bases, ops)
    requires QuotingRun(bases, d) && QuotingRun(ops, d)
    ensures ValidRun(RebaseOver(ops, bases), Replay(d, bases)) && QuotingRun(RebaseOver(ops, bases), Replay(d, bases))
    decreases |bases|
  {
    if bases != [] {
      hide Quotes;
      OneQuotes(d, bases[0], ops);
      RebaseKeepsForeign(bases[1..], bases[0], ops);
      ListQuotes(Apply(d, bases[0]), bases[1..], Rebase(ops, bases[0]));
    }
  }

  // ---------------------------------------------------------------- sessions

  ghost predicate PeerQuotes(start: Doc, server: Server, p: Peer)
    requires ServerInv(start, server)
  {
    && p.engine.currentSeq <= |server.global|
    && QuotesFrom(start, server, p.engine.currentSeq, p.engine.gh.local)
    && forall i :: 0 <= i < |p.wire| ==> p.wire[i].context <= |server.global| && QuotesFrom(start, server, p.wire[i].context, p.wire[i].ops)
  }

  ghost predicate QuotesFrom(start: Doc, server: Server, k: nat, fats: seq<FatOp>)
    requires ServerInv(start, server) && k <= |server.global|
  {
    ValidRun(OpsOf(fats), At(start, server, k)) && QuotingRun(OpsOf(fats), At(start, server, k))
  }

  ghost predicate AllQuotes(start: Doc, s: Session) {
    && ServerInv(start, s.server) && QuotingRun(OpsOf(s.server.global), start)
    && forall site :: site in s.peers ==> PeerQuotes(start, s.server, s.peers[site])
  }

  /** What is made in this step quotes the text it marks. */
  ghost predicate MakesQuotes(s: Session, e: Event)
    requires Enabled(s, e)
  {
    match e
    case Edit(site, op, _) => Quotes(op, s.peers[site].doc.text)
    case UndoRedo(site, redo, _) =>
      var p := s.peers[site];
      p.engine.gh.PointersInRange() && Coherent(p.doc) && ValidRun(GenerateUndo(p.engine.gh, redo), p.doc) ==>
        QuotingRun(GenerateUndo(p.engine.gh, redo), p.doc)
    case ChangeOnDisk(fats) => QuotingRun(OpsOf(fats), s.server.doc)
    case _ => true
  }

  lemma GrowthKeepsQuotes(start: Doc, s: Server, t: Server, fats: seq<FatOp>, p: Peer)
    requires Grows(start, s, t, fats) && PeerQuotes(start, s, p)
    ensures PeerQuotes(start, t, p)
  {
    hide ValidRun, Replay, QuotingRun, ServerInv;
    AtGrows(start, s, t, fats, p.engine.currentSeq);
    forall i | 0 <= i < |p.wire| ensures p.wire[i].context <= |t.global| && QuotesFrom(start, t, p.wire[i].context, p.wire[i].ops) {
      AtGrows(start, s, t, fats, p.wire[i].context);
    }
  }

  lemma ServerQuotes(start: Doc, s: Server, t: Server, fats: seq<FatOp>)
    requires Grows(start, s, t, fats) && QuotingRun(OpsOf(s.global), start)
    requires ValidRun(OpsOf(fats), s.doc) && QuotingRun(OpsOf(fats), s.doc)
    ensures QuotingRun(OpsOf(t.global), start)
  {
    OpsOfAppend(s.global, fats);
    QuotingAppend(start, OpsOf(s.global), OpsOf(fats));
  }

  /** A part of a run that quotes quotes where it stands. */
  lemma QuotingTail(d: Doc, ops: seq<Op>, lo: nat)
    requires Coherent(d) && ValidRun(ops, d) && QuotingRun(ops, d) && lo <= |ops|
    ensures ValidRun(ops[..lo], d) && ValidRun(ops[lo..], Replay(d, ops[..lo])) && QuotingRun(ops[lo..], Replay(d, ops[..lo]))
    ensures QuotingRun(ops[..lo], d)
  {
    hide ValidRun, Replay, QuotingRun;
    PrefixRun(d, ops, lo);
    assert ops == ops[..lo] + ops[lo..];
    QuotingAppend(d, ops[..lo], ops[lo..]);
  }

  lemma SliceQuotes(start: Doc, server: Server, lo: nat, hi: nat)
    requires ServerInv(start, server) && QuotingRun(OpsOf(server.global), start) && lo <= hi <= |server.global|
    ensures QuotesFrom(start, server, lo, server.global[lo..hi])
  {
    hide ValidRun, Replay, QuotingRun;
    var ops := OpsOf(server.global);
    QuotingTail(start, ops, hi);
    QuotingTail(start, ops[..hi], lo);
    OpsOfSlice(server.global, lo, hi);
    assert ops[..hi][..lo] == ops[..lo] && ops[..hi][lo..] == ops[lo..hi];
  }

  lemma AdmittedQuotes(start: Doc, s: Session, site: SiteId)
    requires Healthy(start, s, false) && AllQuotes(start, s) && Enabled(s, AdmitBatch(site))
    ensures var fats := Sequenced(s.server.global, s.peers[site].wire[0], s.server.currentSeq);
            ValidRun(OpsOf(fats), s.server.doc) && QuotingRun(OpsOf(fats), s.server.doc)
  {
    hide QuotingRun, ValidRun, Replay, UpToDate, PendingInOrder, HistoryCopies, OwnPointers;
    var p, n := s.peers[site], |s.server.global|;
    var batch := p.wire[0];
    var a, m := BatchInFlight(start, s.server, site, p, false);
    SequencedRebases(s.server, batch);
    SliceQuotes(start, s.server, batch.context, n);
    SliceRun(start, s.server, batch.context, n);
    AllOps(s.server.global);
    assert s.server.global[batch.context..] == s.server.global[batch.context..n];
    ListQuotes(At(start, s.server, batch.context), OpsOf(s.server.global[batch.context..n]), OpsOf(batch.ops));
  }

  /** What a client receives quotes its document once it is transformed, and so do the
      operations it has pending. */
  lemma ReceivedQuotes(start: Doc, s: Session, site: SiteId)
    requires Healthy(start, s, false) && AllQuotes(start, s) && Enabled(s, Receive(site)) && s.peers[site].buffer[0].op.site != site
    ensures var p := s.peers[site];
            var r := RemoteOp(p.engine, p.buffer[0]);
            && r.Ok? && r.value.1.Some? && Quotes(r.value.1.value, p.doc.text)
            && p.engine.currentSeq < |s.server.global| && QuotesFrom(start, s.server, p.engine.currentSeq + 1, r.value.0.gh.local)
  {
    hide QuotingRun, ValidRun, Replay, PendingInOrder, HistoryCopies, OwnPointers, Unacked, RemoteOp, Quotes;
    var p, k := s.peers[site], s.peers[site].engine.currentSeq;
    assert PeerInv(start, s.server, site, p, false);
    ForeignToPending(start, s.server, site, p);
    BufferAdvances(s.server, p);
    RemoteOpRebases(p.engine, p.buffer[0]);
    AtNext(start, s.server, k);
    SliceQuotes(start, s.server, k, k + 1);
    OneOpQuotes(start, s.server, k);
    OneQuotes(At(start, s.server, k), p.buffer[0].op, OpsOf(p.engine.gh.local));
  }

  lemma ForeignToPending(start: Doc, server: Server, site: SiteId, p: Peer)
    requires ServerInv(start, server) && PeerInv(start, server, site, p, false) && p.buffer != [] && p.buffer[0].op.site != site
    ensures Foreign(p.buffer[0].op, OpsOf(p.engine.gh.local))
  {
    hide ValidRun, Replay, Unacked, HistoryCopies, OwnPointers, UpToDate;
  }

  lemma OneOpQuotes(start: Doc, server: Server, k: nat)
    requires ServerInv(start, server) && k < |server.global| && QuotesFrom(start, server, k, server.global[k..k + 1])
    ensures Quotes(server.global[k].op, At(start, server, k).text)
  {
    assert OpsOf(server.global[k..k + 1])[0] == server.global[k].op;
  }

  lemma LocalQuotes(start: Doc, s: Session, site: SiteId, ops: seq<Op>, kind: EditorOpKind, group: GroupSeq)
    requires Healthy(start, s, false) && AllQuotes(start, s) && site in s.peers && Local(s, site, ops, kind, group).Next?
    requires QuotingRun(ops, s.peers[site].doc)
    ensures AllQuotes(start, Local(s, site, ops, kind, group).session)
  {
    hide QuotingRun, ValidRun, Replay, PendingInOrder, HistoryCopies, OwnPointers, Unacked, PushAll;
    var p := s.peers[site];
    var q := Local(s, site, ops, kind, group).session.peers[site];
    LocalOpsAppend(p.engine, ops, kind, group);
    var base, local := At(start, s.server, p.engine.currentSeq), OpsOf(p.engine.gh.local);
    assert PeerInv(start, s.server, site, p, false);
    RunOnSameText(p.doc, Replay(base, local), ops);
    QuotingOnSameText(p.doc, Replay(base, local), ops);
    QuotingAppend(base, local, ops);
  }

  lemma TailQuotes(d: Doc, ops: seq<Op>)
    requires Coherent(d) && ValidRun(ops, d) && QuotingRun(ops, d) && ops != []
    ensures Fits(ops[0], |d.text|) && ValidRun(ops[1..], Apply(d, ops[0])) && QuotingRun(ops[1..], Apply(d, ops[0]))
  {}

  /** An acknowledgement only moves the first pending operation into the history. */
  lemma AckKeepsQuotes(start: Doc, server: Server, site: SiteId, p: Peer, q: Peer)
    requires ServerInv(start, server) && PeerInv(start, server, site, p, false) && PeerQuotes(start, server, p)
    requires p.buffer != [] && p.buffer[0].op.site == site
    requires p.engine.gh.local != [] ==> q.engine.gh.local == p.engine.gh.local[1..]
    requires q.engine.currentSeq == p.engine.currentSeq + 1 && q.wire == p.wire
    ensures PeerQuotes(start, server, q)
  {
    hide QuotingRun, ValidRun, Replay, PendingInOrder, HistoryCopies, OwnPointers, UpToDate, Apply;
    var a: nat, m: nat :| Unacked(start, server, p, a, m);
    AckAgrees(start, server, site, p, a, m);
    BufferAdvances(server, p);
    hide Unacked, Numbering;
    var k := p.engine.currentSeq;
    AtNext(start, server, k);
    TailQuotes(At(start, server, k), OpsOf(p.engine.gh.local));
    assert OpsOf(p.engine.gh.local[1..]) == OpsOf(p.engine.gh.local)[1..];
  }

  lemma ReceiveKeepsQuotes(start: Doc, s: Session, site: SiteId)
    requires Healthy(start, s, false) && AllQuotes(start, s) && Enabled(s, Receive(site)) && Step(s, Receive(site)).Next?
    ensures AllQuotes(start, Step(s, Receive(site)).session)
  {
    hide QuotingRun, ValidRun, Replay, PeerInv, Batch, Rebase, Quotes, Apply, BumpDeltas, BumpQueue;
    var p, q := s.peers[site], Step(s, Receive(site)).session.peers[site];
    if p.buffer[0].op.site != site {
      ReceivedQuotes(start, s, site);
      hide RemoteOp;
      assert PeerQuotes(start, s.server, q);
    } else {
      OwnSite(start, s, site);
      AckKeepsQuotes(start, s.server, site, p, q);
    }
    hide PeerQuotes, RemoteOp;
  }

  /** If what is made in each step quotes the text it marks, everything does. */
  lemma StepKeepsQuotes(start: Doc, s: Session, e: Event)
    requires Healthy(start, s, false) && AllQuotes(start, s) && Enabled(s, e) && MakesQuotes(s, e) && Step(s, e).Next?
    ensures AllQuotes(start, Step(s, e).session)
  {
    hide QuotingRun, ValidRun, Replay, Sequenced, Local, GenerateUndo, Healthy, Quotes, RemoteOp, Buffer, Package;
    match e
    case Join(site) => JoinQuotes(start, s, site);
    case Edit(site, op, group) =>
      assert QuotingRun([op], s.peers[site].doc) by { EditQuotes(s, site, op); }
      LocalQuotes(start, s, site, [op], EditOriginal, group);
    case UndoRedo(site, redo, group) =>
      UndoMadeQuotes(s, site, redo, group);
      LocalQuotes(start, s, site, GenerateUndo(s.peers[site].engine.gh, redo), CommandKind(redo), group);
    case Send(site) => SendQuotes(start, s, site);
    case AdmitBatch(site) => AdmitKeepsQuotes(start, s, site);
    case ChangeOnDisk(fats) => DiskQuotes(start, s, fats);
    case Deliver(site, lo, hi) =>
    case Request(site) =>
      var t := Step(s, e).session.server;
      assert s.server.global + [] == s.server.global;
      forall other | other in s.peers ensures PeerQuotes(start, t, s.peers[other]) {
        GrowthKeepsQuotes(start, s.server, t, [], s.peers[other]);
      }
    case Receive(site) => ReceiveKeepsQuotes(start, s, site);
  }

  lemma EditQuotes(s: Session, site: SiteId, op: Op)
    requires site in s.peers && Coherent(s.peers[site].doc) && ValidOn(op, s.peers[site].doc.text) && Quotes(op, s.peers[site].doc.text)
    ensures ValidRun([op], s.peers[site].doc) && QuotingRun([op], s.peers[site].doc)
  {
    RunOfOne(s.peers[site].doc, op);
    assert [op][0] == op && [op][1..] == [];
    assert QuotingRun([], Apply(s.peers[site].doc, op));
  }

  lemma UndoMadeQuotes(s: Session, site: SiteId, redo: bool, group: GroupSeq)
    requires Enabled(s, UndoRedo(site, redo, group)) && MakesQuotes(s, UndoRedo(site, redo, group))
    requires Step(s, UndoRedo(site, redo, group)).Next?
    ensures s.peers[site].engine.gh.PointersInRange() && Coherent(s.peers[site].doc)
    ensures var ops := GenerateUndo(s.peers[site].engine.gh, redo);
            ValidRun(ops, s.peers[site].doc) && QuotingRun(ops, s.peers[site].doc)
            && Step(s, UndoRedo(site, redo, group)) == Local(s, site, ops, CommandKind(redo), group)
  {
    hide ValidRun, QuotingRun, GenerateUndo, LocalOps;
  }

  lemma JoinQuotes(start: Doc, s: Session, site: SiteId)
    requires AllQuotes(start, s) && Enabled(s, Join(site))
    ensures AllQuotes(start, Step(s, Join(site)).session)
  {
    hide QuotingRun, Replay;
    var t := Step(s, Join(site)).session;
    assert s.server.global + [] == s.server.global;
    NothingQuotes(At(start, t.server, |t.server.global|));
    assert OpsOf(t.peers[site].engine.gh.local) == [];
    forall other | other in s.peers ensures PeerQuotes(start, t.server, s.peers[other]) {
      GrowthKeepsQuotes(start, s.server, t.server, [], s.peers[other]);
    }
  }

  lemma NothingQuotes(d: Doc)
    requires Coherent(d)
    ensures ValidRun([], d) && QuotingRun([], d)
  {}

  lemma SendQuotes(start: Doc, s: Session, site: SiteId)
    requires AllQuotes(start, s) && Enabled(s, Send(site))
    ensures AllQuotes(start, Step(s, Send(site)).session)
  {
    hide QuotingRun, ValidRun, Replay, ServerInv;
  }

  lemma AdmitKeepsQuotes(start: Doc, s: Session, site: SiteId)
    requires Healthy(start, s, false) && AllQuotes(start, s) && Enabled(s, AdmitBatch(site)) && Step(s, AdmitBatch(site)).Next?
    ensures AllQuotes(start, Step(s, AdmitBatch(site)).session)
  {
    hide QuotingRun, ValidRun, Replay, Sequenced, PeerInv, PeerQuotes;
    var t := Step(s, AdmitBatch(site)).session;
    var fats := Sequenced(s.server.global, s.peers[site].wire[0], s.server.currentSeq);
    if t.server != s.server {
      AdmittedQuotes(start, s, site);
      SequenceGrows(start, s.server, s.peers[site].wire[0]);
      assert Grows(start, s.server, t.server, fats);
      ServerQuotes(start, s.server, t.server, fats);
      forall other | other in t.peers ensures PeerQuotes(start, t.server, t.peers[other]) {
        GrowthKeepsQuotes(start, s.server, t.server, fats, s.peers[other]);
        if other == site { LessOnTheWire(start, t.server, s.peers[site], t.peers[site]); }
      }
    } else if t.peers != Dropping(s, site).peers {
      LessOnTheWire(start, t.server, s.peers[site], t.peers[site]);
    }
  }

  lemma LessOnTheWire(start: Doc, server: Server, p: Peer, q: Peer)
    requires ServerInv(start, server) && PeerQuotes(start, server, p) && p.wire != [] && q == p.(wire := p.wire[1..])
    ensures PeerQuotes(start, server, q)
  {
    hide QuotesFrom;
    forall i | 0 <= i < |q.wire|
      ensures q.wire[i].context <= |server.global| && QuotesFrom(start, server, q.wire[i].context, q.wire[i].ops)
    {
      assert q.wire[i] == p.wire[i + 1];
    }
  }

  lemma DiskQuotes(start: Doc, s: Session, fats: seq<FatOp>)
    requires AllQuotes(start, s) && Enabled(s, ChangeOnDisk(fats)) && MakesQuotes(s, ChangeOnDisk(fats))
    requires Step(s, ChangeOnDisk(fats)).Next?
    ensures AllQuotes(start, Step(s, ChangeOnDisk(fats)).session)
  {
    hide QuotingRun, ValidRun, Replay, Sequenced;
    var t, batch := Step(s, ChangeOnDisk(fats)).session, ContextOps(s.server.currentSeq, fats);
    var added := Sequenced(s.server.global, batch, s.server.currentSeq);
    assert OpsOf(added) == OpsOf(fats) by { DiskOps(s.server, fats); }
    SequenceGrows(start, s.server, batch);
    ServerQuotes(start, s.server, t.server, added);
    forall other | other in t.peers ensures PeerQuotes(start, t.server, t.peers[other]) {
      GrowthKeepsQuotes(start, s.server, t.server, added, s.peers[other]);
    }
  }

  lemma DiskOps(server: Server, fats: seq<FatOp>)
    requires server.currentSeq == |server.global|
    ensures OpsOf(Sequenced(server.global, ContextOps(server.currentSeq, fats), server.currentSeq)) == OpsOf(fats)
  {
    assert OpsAfter(server.global, server.currentSeq) == [];
    ServerAgreesWithClient([], OpsOf(fats));
  }
}
