/** What every party to a session shows: the server's buffer and file, and each editor's
    text. The documents of a session are what its histories make of the text; what is shown
    follows the quotes of marks. Here both are carried along, and the buffers converge. */
module Screens {
  import opened Ops
  import opened Documents
  import opened Convergence
  import opened Engines
  import opened UndoGeneration
  import opened Showing
  import opened ShowConvergence
  import opened Sessions
  import opened SessionInvariants
  import opened SessionProofs
  import opened SessionTheorems

  datatype Screens = Screens(server: Doc, peers: map<SiteId, Doc>)

  /** `shown` is how a document with the history of `d` may be shown. */
  predicate Shows(shown: Doc, d: Doc) { Coherent(d) && shown.live == d.live && |shown.text| == |d.text| }

  ghost predicate Watching(s: Session, v: Screens) {
    && v.peers.Keys == s.peers.Keys && Shows(v.server, s.server.doc)
    && forall site :: site in s.peers ==> Shows(v.peers[site], s.peers[site].doc)
  }

  function ShowTo(shown: Doc, d: Doc, ops: seq<Op>): (r: Doc)
    requires Shows(shown, d) && ValidRun(ops, d)
    ensures Shows(r, Replay(d, ops)) && ValidRun(ops, shown) && r == ShowAll(shown, ops)
  {
    RunOnSameLength(d, shown, ops);
    ShowAllIs(shown, ops);
    ShowAll(shown, ops)
  }

  /** The operations of a command can be applied where the step is possible. */
  lemma CommandApplies(s: Session, e: Event)
    requires Enabled(s, e) && Step(s, e).Next? && (e.Edit? || e.UndoRedo?)
    ensures Coherent(s.peers[e.site].doc) && ValidRun(CommandOps(s, e), s.peers[e.site].doc)
    ensures e.site in Step(s, e).session.peers
    ensures Step(s, e).session.peers[e.site].doc == Replay(s.peers[e.site].doc, CommandOps(s, e))
    ensures Step(s, e).session == s.(peers := s.peers[e.site := Step(s, e).session.peers[e.site]])
  {
    hide ValidRun, Replay, LocalOps, GenerateUndo, OwnCommand, ValidOn;
  }

  /** What is shown after a step, from what was shown before. */
  function Watch(s: Session, v: Screens, e: Event): Screens
    requires Enabled(s, e) && Step(s, e).Next? && Watching(s, v)
  {
    match e
    case Join(site) => v.(peers := v.peers[site := v.server])
    case Edit(site, _, _) =>
      CommandApplies(s, e);
      v.(peers := v.peers[site := ShowTo(v.peers[site], s.peers[site].doc, CommandOps(s, e))])
    case UndoRedo(site, _, _) =>
      CommandApplies(s, e);
      v.(peers := v.peers[site := ShowTo(v.peers[site], s.peers[site].doc, CommandOps(s, e))])
    case AdmitBatch(site) =>
      var batch := s.peers[site].wire[0];
      if !SiteSeqExpected(s.server.subscribers, site, batch) then v.(peers := v.peers - {site})
      else v.(server := ShowTo(v.server, s.server.doc, OpsOf(Sequenced(s.server.global, batch, s.server.currentSeq))))
    case ChangeOnDisk(fats) =>
      var batch := ContextOps(s.server.currentSeq, fats);
      v.(server := ShowTo(v.server, s.server.doc, OpsOf(Sequenced(s.server.global, batch, s.server.currentSeq))))
    case Receive(site) =>
      var op := RemoteOp(s.peers[site].engine, s.peers[site].buffer[0]).value.1;
      if op.Some? then v.(peers := v.peers[site := Show(v.peers[site], op.value)]) else v
    case _ => v
  }

  lemma ShowOne(shown: Doc, d: Doc, op: Op)
    requires Shows(shown, d) && Fits(op, |d.text|)
    ensures Shows(Show(shown, op), Apply(d, op))
  {}

  lemma WatchKeeps(s: Session, v: Screens, e: Event)
    requires Enabled(s, e) && Step(s, e).Next? && Watching(s, v)
    ensures Watching(Step(s, e).session, Watch(s, v, e))
  {
    hide ValidRun, Replay, Sequenced, Local, GenerateUndo, OwnCommand, RemoteOp, Package, Buffer, Show, Apply, CommandOps, ValidOn;
    match e
    case Edit(site, _, _) => CommandApplies(s, e);
    case UndoRedo(site, _, _) => CommandApplies(s, e);
    case Receive(site) =>
      var op := RemoteOp(s.peers[site].engine, s.peers[site].buffer[0]).value.1;
      if op.Some? { ShowOne(v.peers[site], s.peers[site].doc, op.value); }
    case _ =>
  }

  /** What is shown at the end of a run. */
  ghost function WatchRun(s: Session, v: Screens, events: seq<Event>): Screens
    requires Legal(s, events, false) && Watching(s, v)
    decreases |events|
  {
    if events == [] || Step(s, events[0]).Fails? then v
    else
      WatchKeeps(s, v, events[0]);
      WatchRun(Step(s, events[0]).session, Watch(s, v, events[0]), events[1..])
  }

  function OpeningScreens(start: Doc): Screens { Screens(start, map[]) }

  // ---------------------------------------------------------------- the invariant

  /** The server's document after the first `k` global operations, as it is shown there. */
  ghost function ShownAt(start: Doc, server: Server, k: nat): (d: Doc)
    requires ServerInv(start, server) && k <= |server.global|
    ensures Coherent(d) && Shows(d, At(start, server, k))
  {
    PrefixRun(start, OpsOf(server.global), k);
    ShowAllIs(start, OpsOf(server.global)[..k]);
    ShowAll(start, OpsOf(server.global)[..k])
  }

  /** What a client shows is what the server showed at the client's position, followed by
      the pending operations. */
  ghost predicate PeerShows(start: Doc, server: Server, p: Peer, shown: Doc)
    requires ServerInv(start, server)
  {
    && p.engine.currentSeq <= |server.global|
    && var base := ShownAt(start, server, p.engine.currentSeq);
    && ValidRun(OpsOf(p.engine.gh.local), base)
    && Alike(shown, ShowAll(base, OpsOf(p.engine.gh.local)))
  }

  ghost predicate AllShow(start: Doc, s: Session, v: Screens) {
    && ServerInv(start, s.server) && v.peers.Keys == s.peers.Keys
    && v.server == ShownAt(start, s.server, |s.server.global|)
    && forall site :: site in s.peers ==> PeerShows(start, s.server, s.peers[site], v.peers[site])
  }

  /** The arriving operation meets no opposite mark and no dispute among the pending ones. */
  ghost predicate Clear(start: Doc, s: Session, e: Event)
    requires ServerInv(start, s.server) && Enabled(s, e)
  {
    e.Receive? ==>
      var p := s.peers[e.site];
      p.buffer[0].op.site != e.site && p.engine.currentSeq <= |s.server.global| ==>
        && Harmless(p.buffer[0].op, OpsOf(p.engine.gh.local))
        && Undisputed(ShownAt(start, s.server, p.engine.currentSeq), p.buffer[0].op, OpsOf(p.engine.gh.local))
  }

  lemma ShownAtGrows(start: Doc, s: Server, t: Server, fats: seq<FatOp>, k: nat)
    requires Grows(start, s, t, fats) && k <= |s.global|
    ensures ShownAt(start, s, k) == ShownAt(start, t, k)
  {
    hide ShowAll, ValidRun, Replay;
    OpsOfAppend(s.global, fats);
    assert OpsOf(t.global)[..k] == OpsOf(s.global)[..k];
  }

  lemma GrowthKeepsShown(start: Doc, s: Server, t: Server, fats: seq<FatOp>, p: Peer, q: Peer, shown: Doc)
    requires Grows(start, s, t, fats) && PeerShows(start, s, p, shown)
    requires q.engine.currentSeq == p.engine.currentSeq && q.engine.gh.local == p.engine.gh.local
    ensures PeerShows(start, t, q, shown)
  {
    hide ShowAll, ValidRun, Replay, ServerInv, Alike;
    ShownAtGrows(start, s, t, fats, p.engine.currentSeq);
  }

  /** The server shows what its longer history makes of the start. */
  lemma ServerShows(start: Doc, s: Server, t: Server, fats: seq<FatOp>, shown: Doc)
    requires Grows(start, s, t, fats) && shown == ShownAt(start, s, |s.global|)
    requires ValidRun(OpsOf(fats), shown)
    ensures ShowAll(shown, OpsOf(fats)) == ShownAt(start, t, |t.global|)
  {
    hide ShowAll, ValidRun, Replay;
    AllOps(s.global);
    AllOps(t.global);
    OpsOfAppend(s.global, fats);
    ShowAppend(start, OpsOf(s.global), OpsOf(fats));
  }

  lemma AlikeChain(c: Doc, d: Doc, e: Doc)
    requires Alike(c, d)
    ensures Alike(c, e) <==> Alike(d, e)
  {
    if Alike(c, e) { forall p | 0 <= p < |d.text| ensures SameAt(d, e, p) { assert SameAt(c, d, p) && SameAt(c, e, p); } }
    if Alike(d, e) { forall p | 0 <= p < |c.text| ensures SameAt(c, e, p) { assert SameAt(c, d, p) && SameAt(d, e, p); } }
  }

  lemma LocalShows(start: Doc, server: Server, p: Peer, q: Peer, shown: Doc, ops: seq<Op>)
    requires ServerInv(start, server) && PeerShows(start, server, p, shown) && ValidRun(ops, shown)
    requires q.engine.currentSeq == p.engine.currentSeq && OpsOf(q.engine.gh.local) == OpsOf(p.engine.gh.local) + ops
    ensures PeerShows(start, server, q, ShowAll(shown, ops))
  {
    hide ShowAll, ValidRun, Replay, ServerInv, SameAt;
    var base, local := ShownAt(start, server, p.engine.currentSeq), OpsOf(p.engine.gh.local);
    ShowAllAlike(shown, ShowAll(base, local), ops);
    ShowAppend(base, local, ops);
  }

  lemma ShownNext(start: Doc, server: Server, k: nat)
    requires ServerInv(start, server) && k < |server.global|
    ensures var op := server.global[k].op;
            && ValidOn(op, ShownAt(start, server, k).text) && Fits(op, |ShownAt(start, server, k).text|)
            && ShownAt(start, server, k + 1) == Show(ShownAt(start, server, k), op)
  {
    hide ShowAll, ValidRun, Replay, Show, ValidOn;
    var ops := OpsOf(server.global);
    AtNext(start, server, k);
    PrefixRun(start, ops, k);
    PrefixRun(start, ops, k + 1);
    assert ops[..k + 1] == ops[..k] + [ops[k]];
    var base := ShownAt(start, server, k);
    ValidSameLength(ops[k], At(start, server, k).text, base.text);
    RunOfOne(base, ops[k]);
    ShowAppend(start, ops[..k], [ops[k]]);
    ShowJustOne(base, ops[k]);
  }

  lemma ValidSameLength(op: Op, t1: string, t2: string)
    requires ValidOn(op, t1) && |t1| == |t2|
    ensures ValidOn(op, t2)
  {}

  lemma ShowJustOne(d: Doc, op: Op)
    requires Coherent(d) && ValidOn(op, d.text)
    ensures Fits(op, |d.text|) && ValidRun([op], d) && ShowAll(d, [op]) == Show(d, op)
  {
    RunOfOne(d, op);
    assert [op][0] == op && [op][1..] == [];
  }

  lemma AckShows(start: Doc, server: Server, p: Peer, q: Peer, shown: Doc)
    requires ServerInv(start, server) && PeerShows(start, server, p, shown)
    requires p.engine.currentSeq < |server.global| && p.engine.gh.local != []
    requires p.engine.gh.local[0].op == server.global[p.engine.currentSeq].op
    requires q.engine.gh.local == p.engine.gh.local[1..] && q.engine.currentSeq == p.engine.currentSeq + 1
    ensures PeerShows(start, server, q, shown)
  {
    hide ShowAll, ValidRun, Replay, ServerInv, Show, SameAt, ValidOn;
    ShownNext(start, server, p.engine.currentSeq);
    assert OpsOf(p.engine.gh.local)[1..] == OpsOf(q.engine.gh.local);
    FirstShown(ShownAt(start, server, p.engine.currentSeq), OpsOf(p.engine.gh.local));
  }

  /** Where convergence of buffers ends: after another site's operation a client still shows
      what its position and its pending operations make of what the server showed, if and
      only if the operation is harmless to the pending ones and undisputed among them. */
  lemma ReceiveShowsIff(start: Doc, server: Server, site: SiteId, p: Peer, shown: Doc)
    requires ServerInv(start, server) && PeerInv(start, server, site, p, false) && p.buffer != []
    requires p.buffer[0].op.site != site && PeerShows(start, server, p, shown) && |shown.text| == |p.doc.text|
    ensures var r, theirs, pending := RemoteOp(p.engine, p.buffer[0]), p.buffer[0].op, OpsOf(p.engine.gh.local);
            && r.Ok? && r.value.1.Some? && Fits(r.value.1.value, |p.doc.text|)
            && (PeerShows(start, server, p.(engine := r.value.0), Show(shown, r.value.1.value))
                <==> Harmless(theirs, pending) && Undisputed(ShownAt(start, server, p.engine.currentSeq), theirs, pending))
  {
    hide RemoteOp, Unacked, Harmless, Undisputed, ValidRun, Replay, Apply, Batch, Rebase, HistoryCopies, OwnPointers,
         Show, ShowAll, Alike, ValidOn, At;
    BufferAdvances(server, p);
    RemoteOpRebases(p.engine, p.buffer[0]);
    var k, theirs, pending := p.engine.currentSeq, p.buffer[0].op, OpsOf(p.engine.gh.local);
    var base := ShownAt(start, server, k);
    ShownNext(start, server, k);
    assert Foreign(theirs, pending);
    OneShownAgainstList(base, theirs, pending);
    AlikeLength(shown, ShowAll(base, pending));
    ShowAlike(shown, ShowAll(base, pending), Batch(theirs, pending));
    var x, y := ShowAll(Show(base, theirs), Rebase(pending, theirs)), Show(ShowAll(base, pending), Batch(theirs, pending));
    AlikeChain(Show(shown, Batch(theirs, pending)), y, x);
    AlikeBothWays(x, y);
  }

  lemma AlikeLength(d: Doc, e: Doc)
    requires Alike(d, e)
    ensures Coherent(d) && Coherent(e) && |d.text| == |e.text|
  {}

  lemma AlikeBothWays(d: Doc, e: Doc)
    ensures Alike(d, e) <==> Alike(e, d)
  {
    if Alike(d, e) { forall p | 0 <= p < |d.text| ensures SameAt(e, d, p) { assert SameAt(d, e, p); } }
    if Alike(e, d) { forall p | 0 <= p < |d.text| ensures SameAt(d, e, p) { assert SameAt(e, d, p); } }
  }

  // ---------------------------------------------------------------- every step

  lemma CommandShows(start: Doc, s: Session, v: Screens, e: Event)
    requires Healthy(start, s, false) && Watching(s, v) && AllShow(start, s, v) && Enabled(s, e) && (e.Edit? || e.UndoRedo?)
    requires Step(s, e).Next?
    ensures AllShow(start, Step(s, e).session, Watch(s, v, e))
  {
    hide Step, Healthy, CommandOps, PeerShows, Shows, ValidRun, Replay, Enabled, LocalOps, ServerInv;
    var site, ops, t := e.site, CommandOps(s, e), Step(s, e).session;
    assert site in s.peers by { CommandSiteIn(s, e); }
    CommandApplies(s, e);
    EngineAfter(s, e, site);
    LocalOpsAppend(s.peers[site].engine, ops, if e.Edit? then EditOriginal else CommandKind(e.redo), e.groupSeq);
    var shown := ShowTo(v.peers[site], s.peers[site].doc, ops);
    assert Watch(s, v, e) == v.(peers := v.peers[site := shown]);
    LocalShows(start, s.server, s.peers[site], t.peers[site], v.peers[site], ops);
  }

  lemma CommandSiteIn(s: Session, e: Event)
    requires Enabled(s, e) && (e.Edit? || e.UndoRedo?)
    ensures e.site in s.peers
  {}

  lemma JoinShows(start: Doc, s: Session, v: Screens, site: SiteId)
    requires Healthy(start, s, false) && Watching(s, v) && AllShow(start, s, v) && Enabled(s, Join(site))
    ensures AllShow(start, Step(s, Join(site)).session, Watch(s, v, Join(site)))
  {
    hide PeerInv, Shows, ValidRun, Replay, ShowAll, Alike;
    var t := Step(s, Join(site)).session;
    SameHistoryGrows(start, s.server, t.server);
    ShownAtGrows(start, s.server, t.server, [], |s.server.global|);
    forall other | other in s.peers ensures PeerShows(start, t.server, s.peers[other], v.peers[other]) {
      GrowthKeepsShown(start, s.server, t.server, [], s.peers[other], s.peers[other], v.peers[other]);
    }
    assert OpsOf(t.peers[site].engine.gh.local) == [];
    NothingShown(v.server);
  }

  lemma NothingShown(d: Doc)
    requires Coherent(d)
    ensures ValidRun([], d) && ShowAll(d, []) == d && Alike(d, d)
  {
    AlikeItself(d);
  }

  /** The server sequences operations; clients change nothing but what is on their way. */
  lemma SequencedShows(start: Doc, s: Session, v: Screens, t: Session, w: Screens, fats: seq<FatOp>)
    requires AllShow(start, s, v) && Grows(start, s.server, t.server, fats) && t.peers.Keys == s.peers.Keys
    requires forall site :: site in s.peers ==> t.peers[site].engine == s.peers[site].engine
    requires ValidRun(OpsOf(fats), v.server) && w == v.(server := ShowAll(v.server, OpsOf(fats)))
    ensures AllShow(start, t, w)
  {
    hide PeerShows, ValidRun, Replay, ShowAll, Alike, ServerInv;
    ServerShows(start, s.server, t.server, fats, v.server);
    forall site | site in t.peers ensures PeerShows(start, t.server, t.peers[site], w.peers[site]) {
      GrowthKeepsShown(start, s.server, t.server, fats, s.peers[site], t.peers[site], v.peers[site]);
    }
  }

  lemma AdmitShows(start: Doc, s: Session, v: Screens, site: SiteId)
    requires Healthy(start, s, false) && Watching(s, v) && AllShow(start, s, v) && Enabled(s, AdmitBatch(site))
    requires Step(s, AdmitBatch(site)).Next?
    ensures AllShow(start, Step(s, AdmitBatch(site)).session, Watch(s, v, AdmitBatch(site)))
  {
    hide Healthy, ValidRun, Replay, ShowAll, Sequenced, PeerShows, Shows;
    var batch, t := s.peers[site].wire[0], Step(s, AdmitBatch(site)).session;
    if SiteSeqExpected(s.server.subscribers, site, batch) {
      SequenceGrows(start, s.server, batch);
      SequencedShows(start, s, v, t, Watch(s, v, AdmitBatch(site)), Sequenced(s.server.global, batch, s.server.currentSeq));
    }
  }

  lemma DiskShows(start: Doc, s: Session, v: Screens, fats: seq<FatOp>)
    requires Healthy(start, s, false) && Watching(s, v) && AllShow(start, s, v) && Enabled(s, ChangeOnDisk(fats))
    requires Step(s, ChangeOnDisk(fats)).Next?
    ensures AllShow(start, Step(s, ChangeOnDisk(fats)).session, Watch(s, v, ChangeOnDisk(fats)))
  {
    hide Healthy, ValidRun, Replay, ShowAll, Sequenced, PeerShows, Shows;
    var batch, t := ContextOps(s.server.currentSeq, fats), Step(s, ChangeOnDisk(fats)).session;
    SequenceGrows(start, s.server, batch);
    SequencedShows(start, s, v, t, Watch(s, v, ChangeOnDisk(fats)), Sequenced(s.server.global, batch, s.server.currentSeq));
  }

  /** The peer after receiving, as the session has it. */
  lemma ReceiveTakes(s: Session, site: SiteId)
    requires Enabled(s, Receive(site)) && Step(s, Receive(site)).Next?
    ensures var p, t := s.peers[site], Step(s, Receive(site)).session;
            && RemoteOp(p.engine, p.buffer[0]).Ok? && t.server == s.server && site in t.peers
            && t == s.(peers := s.peers[site := t.peers[site]])
            && t.peers[site].engine == RemoteOp(p.engine, p.buffer[0]).value.0
  {
    hide RemoteOp, ValidRun, Apply, Fits;
  }

  lemma AckedShows(start: Doc, server: Server, site: SiteId, p: Peer, shown: Doc)
    requires ServerInv(start, server) && PeerInv(start, server, site, p, false) && PeerShows(start, server, p, shown)
    requires p.buffer != [] && p.buffer[0].op.site == site && RemoteOp(p.engine, p.buffer[0]).Ok?
    ensures PeerShows(start, server, p.(engine := RemoteOp(p.engine, p.buffer[0]).value.0), shown)
  {
    hide ValidRun, Replay, HistoryCopies, OwnPointers, UpToDate, InFlight, Admitted, ShowAll, Alike, PeerShows;
    var a: nat, m: nat :| Unacked(start, server, p, a, m);
    AckAgrees(start, server, site, p, a, m);
    BufferAdvances(server, p);
    AckShows(start, server, p, p.(engine := RemoteOp(p.engine, p.buffer[0]).value.0), shown);
  }

  lemma ReceiveShows(start: Doc, s: Session, v: Screens, site: SiteId)
    requires Healthy(start, s, false) && Watching(s, v) && AllShow(start, s, v) && Enabled(s, Receive(site))
    requires Clear(start, s, Receive(site)) && Step(s, Receive(site)).Next?
    ensures AllShow(start, Step(s, Receive(site)).session, Watch(s, v, Receive(site)))
  {
    hide PeerInv, PeerShows, ValidRun, Replay, ShowAll, Alike, RemoteOp, ServerInv, Harmless, Undisputed, Show, Apply;
    var p, shown, t := s.peers[site], v.peers[site], Step(s, Receive(site)).session;
    var q := p.(engine := t.peers[site].engine);
    ReceiveTakes(s, site);
    ForeignOrOwn(start, s.server, site, p);
    if p.buffer[0].op.site == site {
      AckedShows(start, s.server, site, p, shown);
      SameEngineShows(start, s.server, q, t.peers[site], shown);
    } else {
      ReceiveShowsIff(start, s.server, site, p, shown);
      SameEngineShows(start, s.server, q, t.peers[site], Show(shown, RemoteOp(p.engine, p.buffer[0]).value.1.value));
    }
  }

  lemma ForeignOrOwn(start: Doc, server: Server, site: SiteId, p: Peer)
    requires ServerInv(start, server) && PeerInv(start, server, site, p, false) && p.buffer != []
    ensures p.engine.currentSeq <= |server.global|
    ensures p.buffer[0].op.site == site && RemoteOp(p.engine, p.buffer[0]).Ok? ==> RemoteOp(p.engine, p.buffer[0]).value.1.None?
  {
    hide ValidRun, Replay, HistoryCopies, OwnPointers, UpToDate, Unacked, PendingInOrder;
  }

  lemma SameEngineShows(start: Doc, server: Server, p: Peer, q: Peer, shown: Doc)
    requires ServerInv(start, server) && PeerShows(start, server, p, shown) && q.engine == p.engine
    ensures PeerShows(start, server, q, shown)
  {}

  lemma QuietShows(start: Doc, s: Session, v: Screens, e: Event)
    requires Healthy(start, s, false) && Watching(s, v) && AllShow(start, s, v) && Enabled(s, e)
    requires (e.Send? || e.Deliver? || e.Request?) && Step(s, e).Next?
    ensures AllShow(start, Step(s, e).session, Watch(s, v, e))
  {
    hide PeerInv, PeerShows, ValidRun, Replay, ShowAll, Alike, Buffer;
    var t := Step(s, e).session;
    SameHistoryGrows(start, s.server, t.server);
    ShownAtGrows(start, s.server, t.server, [], |s.server.global|);
    forall other | other in s.peers ensures PeerShows(start, t.server, t.peers[other], v.peers[other]) {
      GrowthKeepsShown(start, s.server, t.server, [], s.peers[other], t.peers[other], v.peers[other]);
    }
  }

  /** Every clear step keeps it that way. */
  lemma StepKeepsShowing(start: Doc, s: Session, v: Screens, e: Event)
    requires Healthy(start, s, false) && Watching(s, v) && AllShow(start, s, v) && Enabled(s, e) && Clear(start, s, e)
    ensures Step(s, e).Next? && AllShow(start, Step(s, e).session, Watch(s, v, e))
  {
    hide Healthy, Watching, AllShow, Enabled, Clear, Step, Watch;
    StepKeepsHealthy(start, s, e, false);
    match e
    case Join(site) => JoinShows(start, s, v, site);
    case Edit(_, _, _) => CommandShows(start, s, v, e);
    case UndoRedo(_, _, _) => CommandShows(start, s, v, e);
    case Send(_) => QuietShows(start, s, v, e);
    case AdmitBatch(site) => AdmitShows(start, s, v, site);
    case ChangeOnDisk(fats) => DiskShows(start, s, v, fats);
    case Deliver(_, _, _) => QuietShows(start, s, v, e);
    case Request(_) => QuietShows(start, s, v, e);
    case Receive(site) => ReceiveShows(start, s, v, site);
  }

  // ---------------------------------------------------------------- every run

  ghost predicate AlwaysClear(start: Doc, s: Session, events: seq<Event>)
    requires Healthy(start, s, false) && Legal(s, events, false)
    decreases |events|
  {
    events == [] ||
    (&& Clear(start, s, events[0])
     && (StepKeepsHealthy(start, s, events[0], false);
         AlwaysClear(start, Step(s, events[0]).session, events[1..])))
  }

  lemma {:induction false} RunKeepsShowing(start: Doc, s: Session, v: Screens, events: seq<Event>)
    requires Healthy(start, s, false) && Legal(s, events, false) && AlwaysClear(start, s, events)
    requires Watching(s, v) && AllShow(start, s, v)
    ensures Run(s, events, false).Next? && AllShow(start, Run(s, events, false).session, WatchRun(s, v, events))
    decreases |events|
  {
    hide Healthy, Watching, AllShow, Enabled, Clear, Step, Watch;
    if events != [] {
      StepKeepsHealthy(start, s, events[0], false);
      StepKeepsShowing(start, s, v, events[0]);
      WatchKeeps(s, v, events[0]);
      RunKeepsShowing(start, Step(s, events[0]).session, Watch(s, v, events[0]), events[1..]);
    }
  }

  /** What everybody shows at the end of a run. */
  ghost function ScreensOf(start: Doc, events: seq<Event>): Screens
    requires Coherent(start) && Legal(Opening(start), events, false)
  {
    WatchRun(Opening(start), OpeningScreens(start), events)
  }

  lemma OpeningShows(start: Doc)
    requires Coherent(start)
    ensures Watching(Opening(start), OpeningScreens(start)) && Healthy(start, Opening(start), false)
    ensures AllShow(start, Opening(start), OpeningScreens(start))
  {
    OpeningIsHealthy(start, false);
    assert OpsOf([]) == [];
  }

  ghost predicate ClearRun(start: Doc, events: seq<Event>)
    requires Coherent(start) && Legal(Opening(start), events, false)
  {
    OpeningShows(start);
    AlwaysClear(start, Opening(start), events)
  }

  /** Convergence of buffers. In a clear run every client shows what the server showed at the
      client's position, followed by its pending operations; caught up it shows what the
      server shows, to the character. */
  lemma BuffersConverge(start: Doc, events: seq<Event>, site: SiteId)
    requires Coherent(start) && Legal(Opening(start), events, false) && ClearRun(start, events)
    requires site in EndOf(start, events, false).peers
    ensures var s, v := EndOf(start, events, false), ScreensOf(start, events);
            && ServerInv(start, s.server) && site in v.peers && PeerShows(start, s.server, s.peers[site], v.peers[site])
            && Coherent(v.peers[site]) && Coherent(v.server)
            && (CaughtUp(s, site) ==> v.peers[site].live == v.server.live && View(v.peers[site]) == View(v.server))
  {
    hide Legal, Run, WatchRun, AlwaysClear, Healthy, ShowAll, Alike;
    OpeningShows(start);
    RunKeepsShowing(start, Opening(start), OpeningScreens(start), events);
    var s, v := EndOf(start, events, false), ScreensOf(start, events);
    AlikeLength(v.peers[site], ShowAll(ShownAt(start, s.server, s.peers[site].engine.currentSeq), OpsOf(s.peers[site].engine.gh.local)));
    if CaughtUp(s, site) {
      assert OpsOf(s.peers[site].engine.gh.local) == [];
      NothingShown(v.server);
      AlikeIff(v.peers[site], v.server);
    }
  }

  /** Two clients at the same position with nothing pending show the same, wherever the
      server is. */
  lemma ScreensAgree(start: Doc, s: Session, v: Screens, site1: SiteId, site2: SiteId)
    requires AllShow(start, s, v) && site1 in s.peers && site2 in s.peers
    requires s.peers[site1].engine.currentSeq == s.peers[site2].engine.currentSeq
    requires s.peers[site1].engine.gh.local == [] && s.peers[site2].engine.gh.local == []
    ensures Coherent(v.peers[site1]) && Coherent(v.peers[site2]) && View(v.peers[site1]) == View(v.peers[site2])
  {
    hide ShowAll, Alike;
    assert OpsOf(s.peers[site1].engine.gh.local) == [] == OpsOf(s.peers[site2].engine.gh.local);
    var base := ShownAt(start, s.server, s.peers[site1].engine.currentSeq);
    NothingShown(base);
    AlikeLength(v.peers[site1], base);
    AlikeLength(v.peers[site2], base);
    AlikeIff(v.peers[site1], base);
    AlikeIff(v.peers[site2], base);
  }
}
