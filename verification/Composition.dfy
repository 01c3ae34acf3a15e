/** The objects and the session fit together: in every healthy session what the handlers
    ask for is there, and what they do are the session's steps. The objects' documents are
    those that the screens of a session show. */
module Composition {
  import opened Ops
  import opened Documents
  import opened Convergence
  import opened Engines
  import opened Views
  import opened Showing
  import opened Sessions
  import opened SessionInvariants
  import opened SessionHistories
  import opened SessionProofs
  import opened SessionTheorems
  import opened SessionQuotes
  import opened ShowConvergence
  import opened Screens
  import opened PlainScreens
  import opened ClientEngines
  import opened ServerEngines
  import opened RemoteDocs
  import opened LinearUndo
  import opened UndoGeneration
  import opened Tracking

  // ---------------------------------------------------------------- receiving

  /** The next buffered operation of another site can be applied to the client's document
      once it is transformed. */
  lemma NextIsValid(start: Doc, server: Server, site: SiteId, p: Peer)
    requires ServerInv(start, server) && PeerInv(start, server, site, p, false) && p.buffer != []
    requires p.buffer[0].op.site != site
    ensures var r := RemoteOp(p.engine, p.buffer[0]);
            r.Ok? && r.value.1 == Some(Batch(p.buffer[0].op, OpsOf(p.engine.gh.local)))
            && ValidOn(r.value.1.value, p.doc.text)
  {
    hide RebaseOver, Rebase, Apply, Unacked, Replay, ValidRun, HistoryCopies, OwnPointers, Harmless;
    BufferAdvances(server, p);
    RemoteOpRebases(p.engine, p.buffer[0]);
    AtNext(start, server, p.engine.currentSeq);
    OneAgainstList(At(start, server, p.engine.currentSeq), p.buffer[0].op, OpsOf(p.engine.gh.local));
  }

  lemma ReceiveStep(start: Doc, s: Session, site: SiteId)
    requires Healthy(start, s, false) && site in s.peers && s.peers[site].buffer != [] && Coherent(s.peers[site].doc)
    ensures var p := s.peers[site];
            var r, next := RemoteOp(p.engine, p.buffer[0]), Step(s, Receive(site));
            && r.Ok? && next.Next? && Healthy(start, next.session, false) && site in next.session.peers
            && Coherent(next.session.peers[site].doc)
            && (r.value.1.Some? ==> ValidOn(r.value.1.value, p.doc.text) && Fits(r.value.1.value, |p.doc.text|))
            && next.session == s.(peers := s.peers[site := p.(engine := r.value.0, buffer := p.buffer[1..],
                 doc := if r.value.1.Some? then Apply(p.doc, r.value.1.value) else p.doc)])
  {
    hide Apply, ValidRun, Replay, Unacked, Positioned, PendingInOrder, UpToDate, Batch, Rebase, HistoryCopies, OwnPointers;
    StepKeepsHealthy(start, s, Receive(site), false);
    var p := s.peers[site];
    if p.buffer[0].op.site != site {
      NextIsValid(start, s.server, site, p);
    } else {
      ReceiveAckKeeps(start, s.server, site, p, false);
    }
  }

  /** A `Receive` step, for the session and for what the client shows. */
  lemma ReceiveShown(start: Doc, s: Session, v: Screens, site: SiteId)
    requires Healthy(start, s, false) && Watching(s, v) && site in s.peers && s.peers[site].buffer != []
    ensures Enabled(s, Receive(site)) && Step(s, Receive(site)).Next?
    ensures var p, t, w := s.peers[site], Step(s, Receive(site)).session, Watch(s, v, Receive(site));
            && Healthy(start, t, false) && Watching(t, w) && site in t.peers && site in w.peers
            && t.peers[site].buffer == p.buffer[1..] && Coherent(v.peers[site])
            && var r := RemoteOp(p.engine, p.buffer[0]);
            && r.Ok? && r.value.0 == t.peers[site].engine
            && (if r.value.1.Some? then
                  && ValidOn(r.value.1.value, v.peers[site].text) && Fits(r.value.1.value, |v.peers[site].text|)
                  && w.peers[site] == Show(v.peers[site], r.value.1.value)
                else w.peers[site] == v.peers[site])
  {
    hide RemoteOp, Apply, ValidOn, Fits, PeerInv, ServerInv, Show;
    var p, shown := s.peers[site], v.peers[site];
    assert Shows(shown, p.doc) && Coherent(p.doc);
    ReceiveStep(start, s, site);
    WatchKeeps(s, v, Receive(site));
    var op := RemoteOp(p.engine, p.buffer[0]).value.1;
    if op.Some? {
      ValidSameLength(op.value, p.doc.text, shown.text);
      ValidFits(op.value, shown.text);
    }
  }

  function Receives(site: SiteId, n: nat): (r: seq<Event>)
    ensures |r| == n && forall i :: 0 <= i < n ==> r[i] == Receive(site)
  {
    seq(n, _ => Receive(site))
  }

  /** Processing everything a client has buffered never fails: it is one `Receive` step for
      every operation, and the engine's document becomes what the client then shows. */
  lemma {:induction false} DrainNeverFails(start: Doc, s: Session, v: Screens, site: SiteId)
    requires Healthy(start, s, false) && Watching(s, v) && site in s.peers
    ensures var p, events := s.peers[site], Receives(site, |s.peers[site].buffer|);
            && Coherent(v.peers[site]) && Legal(s, events, false) && Run(s, events, false).Next?
            && var t, w := Run(s, events, false).session, WatchRun(s, v, events);
            && Healthy(start, t, false) && site in t.peers && site in w.peers && t.peers[site].buffer == []
            && ReceiveAll(p.engine, v.peers[site], p.buffer) == Some((t.peers[site].engine, w.peers[site]))
    decreases |s.peers[site].buffer|
  {
    hide RemoteOp, Apply, ValidOn, Healthy, Show, Step, Watch, Enabled, Peaceful;
    var p, events := s.peers[site], Receives(site, |s.peers[site].buffer|);
    assert Shows(v.peers[site], p.doc);
    if p.buffer != [] {
      hide Watching, Shows;
      ReceiveShown(start, s, v, site);
      var t, w := Step(s, Receive(site)).session, Watch(s, v, Receive(site));
      assert events[0] == Receive(site) && events[1..] == Receives(site, |t.peers[site].buffer|);
      DrainNeverFails(start, t, w, site);
    }
  }

  lemma {:induction false} ReceivingMakesNothing(s: Session, site: SiteId, n: nat)
    requires Legal(s, Receives(site, n), false)
    ensures AlwaysQuotes(s, Receives(site, n), false) && AlwaysRevivesNothing(s, Receives(site, n))
    decreases n
  {
    hide Step, Enabled, Peaceful;
    if n > 0 {
      assert Receives(site, n)[0] == Receive(site) && Receives(site, n)[1..] == Receives(site, n - 1);
      if Step(s, Receive(site)).Next? { ReceivingMakesNothing(Step(s, Receive(site)).session, site, n - 1); }
    }
  }

  /** Where everything quotes the text it marks, or nothing has been brought back, the
      engine's document stays the session's, to the character. */
  lemma DrainIsPlain(start: Doc, s: Session, v: Screens, site: SiteId)
    requires Healthy(start, s, false) && Watching(s, v) && Plain(s, v) && site in s.peers
    requires AllQuotes(start, s) || NoLiveMarksAnywhere(s)
    ensures var p, events := s.peers[site], Receives(site, |s.peers[site].buffer|);
            && Coherent(p.doc) && Legal(s, events, false) && Run(s, events, false).Next?
            && var t := Run(s, events, false).session;
            && site in t.peers && ReceiveAll(p.engine, p.doc, p.buffer) == Some((t.peers[site].engine, t.peers[site].doc))
  {
    hide Healthy, AllQuotes, NoLiveMarksAnywhere, Watching, Step, Watch, Enabled, RemoteOp, Legal, Run, WatchRun, AlwaysQuotes,
         AlwaysRevivesNothing, ReceiveAll, Receives;
    var events := Receives(site, |s.peers[site].buffer|);
    DrainNeverFails(start, s, v, site);
    ReceivingMakesNothing(s, site, |s.peers[site].buffer|);
    if AllQuotes(start, s) { QuotingRunIsPlain(start, s, v, events); } else { UnrevivedRunIsPlain(start, s, v, events); }
  }

  lemma {:induction false} AllOf(gaps: seq<nat>, n: nat)
    requires Increasing(gaps) && forall i :: 0 <= i < n ==> i in gaps
    requires forall j :: 0 <= j < |gaps| ==> gaps[j] < n
    ensures |gaps| == n
    decreases n
  {
    if n > 0 {
      assert n - 1 in gaps;
      var j :| 0 <= j < |gaps| && gaps[j] == n - 1;
      var last := gaps[|gaps| - 1];
      assert j == |gaps| - 1;
      forall i | 0 <= i < n - 1 ensures i in gaps[..j] {
        assert i in gaps;
        var k :| 0 <= k < |gaps| && gaps[k] == i;
        assert gaps[..j][k] == i;
      }
      AllOf(gaps[..j], n - 1);
    }
  }

  lemma NoneOf(gaps: seq<nat>, n: nat)
    requires forall j :: 0 <= j < |gaps| ==> gaps[j] < n
    ensures (forall i :: 0 <= i < n ==> i !in gaps) ==> gaps == []
  {
    if gaps != [] { assert gaps[0] in gaps; }
  }

  /** The requests that a delivered part of the history causes, if there is one for every
      operation that leaves a gap. */
  lemma RequestsOfSlice(global: seq<FatOp>, k: nat, buffer: seq<FatOp>, lo: nat, hi: nat, gaps: seq<nat>, requests: seq<GlobalSeq>)
    requires Numbering(global) && lo <= hi <= |global| && Asked(k, buffer, global[lo..hi], hi - lo, gaps, requests)
    ensures |requests| == if k + |buffer| < lo then hi - lo else 0
    ensures forall i :: 0 <= i < |requests| ==> requests[i] == k + |buffer|
    ensures Asks(k, buffer, global[lo..hi]) <==> requests != []
  {
    hide Buffer, LeavesGap, Asks;
    var fats := global[lo..hi];
    DeliveryAsksIff(global, k, buffer, lo, hi);
    if k + |buffer| < lo {
      AllOf(gaps, hi - lo);
      forall i | 0 <= i < |requests| ensures requests[i] == k + |buffer| {
        assert fats[..gaps[i]] == global[lo..lo + gaps[i]];
        SliceIsSkipped(global, k, buffer, lo, gaps[i]);
      }
    } else {
      NoneOf(gaps, hi - lo);
    }
  }

  /** What a client's handler makes of a delivery is the session's `Deliver` step. It asks
      once for every operation delivered, if they begin after the one that comes next, each
      time for what follows the operations it has; it asks for nothing if they repeat or
      continue what it has. */
  method DeliverStep(remote: RemoteDoc, fats: seq<FatOp>, ghost start: Doc, ghost s: Session, ghost site: SiteId,
                     ghost lo: nat, ghost hi: nat) returns (requests: seq<GlobalSeq>, alive: bool)
    requires Healthy(start, s, false) && Enabled(s, Deliver(site, lo, hi)) && fats == s.server.global[lo..hi]
    requires remote.engine.currentSeq == s.peers[site].engine.currentSeq && remote.remoteOpBuffer == s.peers[site].buffer
    modifies remote`remoteOpBuffer
    ensures alive && Step(s, Deliver(site, lo, hi)).Next?
    ensures var p, t := s.peers[site], Step(s, Deliver(site, lo, hi)).session;
            && t == s.(asking := if requests == [] then s.asking else s.asking + {site},
                       peers := s.peers[site := p.(buffer := remote.remoteOpBuffer)])
            && |requests| == (if p.engine.currentSeq + |p.buffer| < lo then hi - lo else 0)
            && forall i :: 0 <= i < |requests| ==> requests[i] == p.engine.currentSeq + |p.buffer|
  {
    hide ValidRun, Replay, PeerInv, Buffer;
    ghost var p := s.peers[site];
    ghost var k, buffer, gaps := p.engine.currentSeq, p.buffer, [];
    requests, alive, gaps := remote.HandleOpFromServer(fats);
    assert AllNumbered(fats);
    forall i | 0 <= i < |fats| ensures i in gaps <==> LeavesGap(k, buffer, fats, i) {
      assert AllNumbered(fats[..i + 1]);
    }
    RequestsOfSlice(s.server.global, k, buffer, lo, hi, gaps, requests);
  }

  // ---------------------------------------------------------------- the server

  lemma WireHolds(start: Doc, server: Server, site: SiteId, p: Peer)
    requires ServerInv(start, server) && PeerInv(start, server, site, p, false) && p.wire != []
    ensures p.wire[0].ops != [] && site in server.subscribers && Coherent(server.doc)
    ensures SiteSeqExpected(server.subscribers, site, p.wire[0]) <==> server.subscribers[site] != 0 || p.wire[0].ops[0].siteSeq == 1
    ensures ValidRun(OpsOf(Sequenced(server.global, p.wire[0], server.currentSeq)), server.doc)
  {
    hide ValidRun, Replay, Sequenced, UpToDate, PendingInOrder, HistoryCopies, OwnPointers;
    var a, m := BatchInFlight(start, server, site, p, false);
    BatchHasOps(start, server, p, p.wire[0], m);
    AdmitIsAccepted(start, server, site, p, p.wire[0], m);
  }

  /** A batch on its way is in bounds for whatever the server shows, and the server's handler
      refuses it exactly if the session does. */
  lemma WireIsAccepted(start: Doc, s: Session, site: SiteId, shown: Doc)
    requires Healthy(start, s, false) && Enabled(s, AdmitBatch(site)) && Shows(shown, s.server.doc)
    ensures var batch := s.peers[site].wire[0];
            var ops := OpsOf(Sequenced(s.server.global, batch, s.server.currentSeq));
            && (SiteSeqExpected(s.server.subscribers, site, batch) <==> !Refused(s, AdmitBatch(site)))
            && Coherent(shown) && ValidRun(ops, s.server.doc) && ValidRun(ops, shown)
  {
    hide ValidRun, Replay, Sequenced, Unacked;
    var p := s.peers[site];
    WireHolds(start, s.server, site, p);
    RunOnSameLength(s.server.doc, shown, OpsOf(Sequenced(s.server.global, p.wire[0], s.server.currentSeq)));
  }

  /** What the handler then does to history, numbers and subscribers is the session's
      `AdmitBatch` step. */
  lemma AdmitStep(start: Doc, s: Session, site: SiteId)
    requires Healthy(start, s, false) && Enabled(s, AdmitBatch(site)) && !Refused(s, AdmitBatch(site))
    ensures Coherent(s.server.doc)
    ensures ValidRun(OpsOf(Sequenced(s.server.global, s.peers[site].wire[0], s.server.currentSeq)), s.server.doc)
    ensures Step(s, AdmitBatch(site)).Next?
    ensures Step(s, AdmitBatch(site)).session.server == Admitting(s.server, site, s.peers[site].wire[0])
  {
    hide ValidRun, Replay, Sequenced, Healthy;
    AdmitKeeps(start, s, site, false);
  }

  /** And what it does to the buffer is what the server shows after that step. */
  lemma AdmitShown(s: Session, v: Screens, site: SiteId)
    requires Watching(s, v) && Enabled(s, AdmitBatch(site)) && Step(s, AdmitBatch(site)).Next?
    requires SiteSeqExpected(s.server.subscribers, site, s.peers[site].wire[0])
    ensures var ops := OpsOf(Sequenced(s.server.global, s.peers[site].wire[0], s.server.currentSeq));
            Coherent(v.server) && ValidRun(ops, v.server)
            && Watch(s, v, AdmitBatch(site)) == v.(server := ShowAll(v.server, ops))
  {
    hide ValidRun, Replay, Sequenced, ShowAll;
    RunOnSameLength(s.server.doc, v.server, OpsOf(Sequenced(s.server.global, s.peers[site].wire[0], s.server.currentSeq)));
  }

  /** A change on disk as the handler makes it is the session's `ChangeOnDisk` step. */
  lemma DiskStep(start: Doc, s: Session, fats: seq<FatOp>, shown: Doc)
    requires Healthy(start, s, false) && Shows(shown, s.server.doc) && OwnedBy(fats, EXTERNAL_SITE) && ValidRun(OpsOf(fats), shown)
    requires Sequenced(s.server.global, ContextOps(s.server.currentSeq, fats), s.server.currentSeq) == fats
    ensures Enabled(s, ChangeOnDisk(fats)) && Step(s, ChangeOnDisk(fats)).Next?
    ensures Step(s, ChangeOnDisk(fats)).session == s.(server := Sequence(s.server, ContextOps(s.server.currentSeq, fats)))
  {
    hide ValidRun, Replay, Sequenced;
    RunOnSameLength(shown, s.server.doc, OpsOf(fats));
  }

  /** And the buffer it leaves is what the server shows after that step. */
  lemma DiskShown(s: Session, v: Screens, fats: seq<FatOp>)
    requires Watching(s, v) && Enabled(s, ChangeOnDisk(fats)) && Step(s, ChangeOnDisk(fats)).Next?
    requires Sequenced(s.server.global, ContextOps(s.server.currentSeq, fats), s.server.currentSeq) == fats && NoLiveMarks(OpsOf(fats))
    ensures Coherent(v.server) && ValidRun(OpsOf(fats), v.server)
    ensures Watch(s, v, ChangeOnDisk(fats)) == v.(server := Replay(v.server, OpsOf(fats)))
  {
    hide ValidRun, Replay, Sequenced, ShowAll;
    RunOnSameLength(s.server.doc, v.server, OpsOf(fats));
    ShownPlainly(v.server, OpsOf(fats));
  }

  // ---------------------------------------------------------------- the editor

  /** The session's event for what the editor sent. */
  function EventOf(op: EditorOp, ops: seq<Op>, site: SiteId, group: GroupSeq): Event
    requires KindOf(op).EditOriginal? ==> |ops| == 1
  {
    match op
    case EditorUndo(_) => UndoRedo(site, false, group)
    case EditorRedo(_) => UndoRedo(site, true, group)
    case _ => Event.Edit(site, ops[0], group)
  }

  /** What `HandleEditorOp` promises is the session's `Edit` or `UndoRedo` step. */
  lemma EditStep(s: Session, site: SiteId, op: EditorOp, ops: seq<Op>, group: GroupSeq, shown: Doc)
    requires site in s.peers && Shows(shown, s.peers[site].doc) && s.peers[site].engine.gh.PointersInRange()
    requires Means(op, s.peers[site].engine.gh, shown, ops) && ValidRun(ops, shown)
    requires forall i :: 0 <= i < |ops| ==> ops[i].site == site
    requires LocalOps(s.peers[site].engine, ops, KindOf(op), group).Ok?
    requires KindOf(op).EditOriginal? || OwnCommand(s.peers[site].engine.gh, KindOf(op).EditRedo?, site)
    ensures ValidRun(ops, s.peers[site].doc)
    ensures var e, p := EventOf(op, ops, site, group), s.peers[site];
            var engine := LocalOps(p.engine, ops, KindOf(op), group).value;
            && Enabled(s, e) && (e.Edit? || e.UndoRedo?) && e.site == site && CommandOps(s, e) == ops
            && Step(s, e) == Next(s.(peers := s.peers[site := p.(engine := engine, doc := Replay(p.doc, ops))]))
  {
    hide Replay, LocalOps, GenerateUndo, Mirrors, OwnCommand, Entries;
    var p := s.peers[site];
    RunOnSameLength(shown, p.doc, ops);
    if KindOf(op).EditOriginal? { assert ops == [ops[0]]; }
  }

  /** And what it shows in the editor is what the client shows after that step. */
  lemma EditShown(s: Session, v: Screens, e: Event)
    requires Watching(s, v) && Enabled(s, e) && (e.Edit? || e.UndoRedo?) && Step(s, e).Next?
    ensures e.site in v.peers && Coherent(v.peers[e.site]) && ValidRun(CommandOps(s, e), v.peers[e.site])
    ensures Watch(s, v, e) == v.(peers := v.peers[e.site := ShowAll(v.peers[e.site], CommandOps(s, e))])
  {
    hide Step, CommandOps, ValidRun, Replay, ShowAll;
    CommandSiteIn(s, e);
    CommandApplies(s, e);
    var shown := ShowTo(v.peers[e.site], s.peers[e.site].doc, CommandOps(s, e));
    assert Coherent(v.peers[e.site]) by { assert Shows(v.peers[e.site], s.peers[e.site].doc); }
  }

  /** What the handler requires for an undo or redo command, and for telling the editor
      what it would do, is there wherever the session allows the command. */
  lemma UndoIsAccepted(start: Doc, s: Session, v: Screens, site: SiteId, redo: bool, group: GroupSeq)
    requires Healthy(start, s, false) && Watching(s, v) && Enabled(s, UndoRedo(site, redo, group))
    ensures var h := s.peers[site].engine.gh;
            && h.PointersInRange() && OwnCommand(h, redo, site) && Coherent(v.peers[site])
            && ValidRun(GenerateUndo(h, redo), v.peers[site])
  {
    hide ValidRun, Replay, Unacked, HistoryCopies, OwnPointers, PendingInOrder, GenerateUndo, OwnCommand, ServerInv;
    var p := s.peers[site];
    assert PeerInv(start, s.server, site, p, false) && Shows(v.peers[site], p.doc);
    UndoFits(start, s.server, p, redo);
    RunOnSameLength(p.doc, v.peers[site], GenerateUndo(p.engine.gh, redo));
  }

  /** An undo or redo command that the editor sends as soon as it has seen what the command
      would do: it is accepted, and the text becomes the one previewed. */
  method CommandAsPreviewed(engine: ClientEngine, redo: bool, group: GroupSeq)
    returns (preview: seq<EditInstruction>, r: Result<seq<EditInstruction>>)
    requires engine.Valid() && ValidRun(GenerateUndo(engine.gh.State(), redo), engine.Doc())
    modifies engine`text, engine`currentSiteSeq, engine.internalDoc, engine.gh
    ensures engine.Valid() && r.Ok?
    ensures ApplyInstructions(old(View(engine.Doc())), preview) == Some(View(engine.Doc()))
    ensures ApplyInstructions(old(View(engine.Doc())), r.value) == Some(View(engine.Doc()))
  {
    hide GenerateUndo, ValidRun, ShowAll, ApplyInstructions, Visible, PushAll;
    var context;
    preview, context := engine.GenerateUndoOp(redo);
    ghost var ops;
    r, ops := engine.ProcessLocalOp(if redo then EditorRedo(context) else EditorUndo(context), group, engine.currentSiteSeq + 1);
  }

  /** A command that was fetched before another edit of the same editor is refused, and
      nothing is undone. */
  method CommandAfterEdit(engine: ClientEngine, redo: bool, edit: EditorOp, group: GroupSeq) returns (r: Result<seq<EditInstruction>>)
    requires engine.Valid() && ValidRun(GenerateUndo(engine.gh.State(), redo), engine.Doc())
    requires KindOf(edit).EditOriginal? && engine.LocalError(edit, engine.currentSiteSeq + 1).None? && engine.LocalOpFits(edit)
    modifies engine`text, engine`currentSiteSeq, engine.internalDoc, engine.gh
    ensures engine.Valid() && r == Err(UndoError)
    ensures ApplyInstructions(old(View(engine.Doc())), [EditOf(edit)]) == Some(View(engine.Doc()))
    ensures |engine.gh.local| == old(|engine.gh.local|) + 1 && engine.gh.local[..old(|engine.gh.local|)] == old(engine.gh.local)
  {
    hide GenerateUndo, ValidRun, ShowAll, ApplyInstructions, Visible, PushAll, Apply, OwnCommand, Mirrors;
    var preview, context := engine.GenerateUndoOp(redo);
    ghost var c, ops := engine.State(), [];
    r, ops := engine.ProcessLocalOp(edit, group, engine.currentSiteSeq + 1);
    PushAllAppends(c.gh, ops, c.currentSiteSeq + 1, KindOf(edit), group);
    r, ops := engine.ProcessLocalOp(if redo then EditorRedo(context) else EditorUndo(context), group, engine.currentSiteSeq + 1);
  }

  /** So is one fetched before another site's operation arrived; an acknowledgement in
      between does not matter. */
  method CommandAfterArrival(engine: ClientEngine, redo: bool, fat: FatOp, group: GroupSeq) returns (r: Result<seq<EditInstruction>>)
    requires engine.Valid() && ValidRun(GenerateUndo(engine.gh.State(), redo), engine.Doc())
    requires RemoteOp(engine.State(), fat).Ok?
    requires RemoteOp(engine.State(), fat).value.1.Some? ==> ValidOn(RemoteOp(engine.State(), fat).value.1.value, engine.text)
    requires fat.op.site == engine.site ==> ValidRun(GenerateUndo(RemoteOp(engine.State(), fat).value.0.gh, redo), engine.Doc())
    modifies engine`text, engine`currentSeq, engine`currentSiteSeq, engine.internalDoc, engine.gh
    ensures engine.Valid()
    ensures if fat.op.site != engine.site then r == Err(UndoError) else r.Ok?
  {
    hide GenerateUndo, ValidRun, ShowAll, Show, ApplyInstruction, ApplyInstructions, Visible, PushAll;
    var preview, context := engine.GenerateUndoOp(redo);
    ghost var c, ops := engine.State(), [];
    var arrived := engine.ProcessRemoteOp(fat);
    r, ops := engine.ProcessLocalOp(if redo then EditorRedo(context) else EditorUndo(context), group, engine.currentSiteSeq + 1);
  }

  // ---------------------------------------------------------------- the buffers

  /** In a clear run, the text of a client that has caught up is the server's buffer. The
      client's document need only be alike what the session's screen shows, for it cannot
      know the text that was deleted before it joined; alike it stays (`ShowAllAlike`). */
  lemma BuffersAreEqual(start: Doc, events: seq<Event>, site: SiteId, hosted: HostedDoc, remote: RemoteDoc)
    requires Coherent(start) && Legal(Opening(start), events, false) && ClearRun(start, events)
    requires CaughtUp(EndOf(start, events, false), site)
    requires hosted.Valid() && hosted.engine.Doc() == ScreensOf(start, events).server
    requires remote.Valid() && site in ScreensOf(start, events).peers
    requires Alike(remote.engine.Doc(), ScreensOf(start, events).peers[site])
    ensures remote.buffer == hosted.buffer
  {
    hide Legal, WatchRun, AlwaysClear, Healthy, PeerShows, Alike, Visible;
    BuffersConverge(start, events, site);
    AlikeLength(remote.engine.Doc(), ScreensOf(start, events).peers[site]);
    AlikeIff(remote.engine.Doc(), ScreensOf(start, events).peers[site]);
  }

  // ---------------------------------------------------------------- undo in a session

  /** The client's history, acknowledged and pending, replays to its document. */
  ghost predicate Replayable(base: Doc, h: History, doc: Doc) {
    Coherent(base) && ValidRun(OpsIn(h), base) && Replay(base, OpsIn(h)) == doc
  }

  /** Local commands keep it that way. */
  lemma LocalKeepsReplayable(base: Doc, c: Client, doc: Doc, ops: seq<Op>, kind: EditorOpKind, group: GroupSeq)
    requires Replayable(base, c.gh, doc) && Coherent(doc) && ValidRun(ops, doc)
    requires c.gh.PointersInRange() && LocalOps(c, ops, kind, group).Ok?
    ensures Replayable(base, LocalOps(c, ops, kind, group).value.gh, Replay(doc, ops))
  {
    hide ValidRun, Replay;
    PushAllAppends(c.gh, ops, c.currentSiteSeq + 1, kind, group);
    var h := LocalOps(c, ops, kind, group).value.gh;
    OpsOfAppend(h.global, h.local);
    OpsOfAppend(c.gh.global, c.gh.local);
    assert OpsIn(h) == OpsIn(c.gh) + ops;
    ReplayAppend(base, OpsIn(c.gh), ops);
  }

  /** So does an acknowledgement with the payload of the first pending operation, which is
      what the server sends (`AckAgrees`). */
  lemma AckKeepsReplayable(base: Doc, c: Client, doc: Doc, fat: FatOp)
    requires Replayable(base, c.gh, doc) && RemoteOp(c, fat).Ok? && fat.op.site == c.site && fat.op == c.gh.local[0].op
    ensures Replayable(base, RemoteOp(c, fat).value.0.gh, doc)
  {
    assert OpsIn(RemoteOp(c, fat).value.0.gh) == OpsIn(c.gh);
  }

  /** What is acknowledged in a session is the first pending operation, group included: one
      of the commands of `LinearUndo`. */
  lemma AckIsSensible(start: Doc, s: Session, site: SiteId, base: Doc)
    requires Healthy(start, s, false) && site in s.peers && s.peers[site].buffer != [] && s.peers[site].buffer[0].op.site == site
    requires Replayable(base, s.peers[site].engine.gh, s.peers[site].doc)
    ensures Sensible(base, s.peers[site].engine.gh, Acked(s.peers[site].buffer[0]))
  {
    hide ValidRun, Replay, HistoryCopies, OwnPointers, PendingInOrder, UpToDate;
    var p := s.peers[site];
    var a: nat, m: nat :| Unacked(start, s.server, p, a, m);
    AckAgrees(start, s.server, site, p, a, m);
  }

  /** And another site's operation, if it arrives when nothing is pending. */
  lemma QuietReceiveKeepsReplayable(base: Doc, c: Client, doc: Doc, fat: FatOp)
    requires Replayable(base, c.gh, doc) && RemoteOp(c, fat).Ok? && fat.op.site != c.site && c.gh.local == []
    requires Coherent(doc) && ValidOn(fat.op, doc.text)
    ensures Fits(fat.op, |doc.text|) && Replayable(base, RemoteOp(c, fat).value.0.gh, Apply(doc, fat.op))
  {
    var h := RemoteOp(c, fat).value.0.gh;
    assert OpsOf(c.gh.local) == [];
    assert OpsIn(h) == OpsIn(c.gh) + [fat.op];
    ReplaySnoc(base, OpsIn(c.gh), fat.op);
  }

  /** In a history that replays, whoever made its operations, what is generated to undo an
      entry of the undo queue marks exactly the characters that the entry's operation
      inserted or marked, wherever they are now. */
  lemma GeneratedTargets(base: Doc, h: History, doc: Doc, i: nat)
    requires Replayable(base, h, doc) && h.PointersInRange() && i < |h.undoQueue|
    ensures var op, later, u := h.Nth(i).op, OpsOf(h.AllOpsAfter(h.undoQueue[i])), Generated(h, i, []);
            && u.Mark? && u.site == op.site && u.live == (op.Mark? && !op.live)
            && ValidOn(u, doc.text) && (QuotingRun(OpsIn(h), base) ==> Quotes(u, doc.text))
            && forall q: nat :: Covers(u.segs, q) <==> Reached(op, later, q)
  {
    hide ValidRun, Replay, Covers, Batch, Reached, Generated, QuotingRun, Quotes;
    var k := h.undoQueue[i];
    GeneratedIs(h, i, []);
    NthIs(h, i);
    UndoTargeting(base, OpsIn(h), k - 1);
    if QuotingRun(OpsIn(h), base) {
      QuotingAt(base, OpsIn(h), k - 1);
      UndoQuotes(base, OpsIn(h), k - 1);
    }
    assert OpsOf(h.AllOpsAfter(k)) == OpsIn(h)[k..] && OpsIn(h)[k - 1] == h.Nth(i).op;
  }

  /** So whole undo and redo commands of a history that replays quote the text they mark, if
      its operations do: what editors are shown is the document itself. */
  lemma UndoQuotesText(base: Doc, h: History, doc: Doc, redo: bool)
    requires Replayable(base, h, doc) && Coherent(doc) && h.PointersInRange() && QuotingRun(OpsIn(h), base)
    ensures ValidRun(GenerateUndo(h, redo), doc) && QuotingRun(GenerateUndo(h, redo), doc)
    ensures ShowAll(doc, GenerateUndo(h, redo)) == Replay(doc, GenerateUndo(h, redo))
  {
    hide ValidRun, Replay, ValidOn, Generated, GenerateUndo, QuotingRun, Quotes, ShowAll;
    forall i | 0 <= i < |h.undoQueue| ensures ValidOn(Generated(h, i, []), doc.text) && Quotes(Generated(h, i, []), doc.text) {
      GeneratedTargets(base, h, doc, i);
    }
    CommandFits(h, redo, doc);
    ShowAllIs(doc, GenerateUndo(h, redo));
  }
}
