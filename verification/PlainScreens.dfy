/** Runs in which everybody is shown the documents as they are: those in which whatever is
    made quotes the text it marks, and those in which no deleted text is brought back. */
module PlainScreens {
  import opened Ops
  import opened Documents
  import opened Convergence
  import opened Engines
  import opened UndoGeneration
  import opened Showing
  import opened ShowConvergence
  import opened Sessions
  import opened SessionInvariants
  import opened SessionProofs
  import opened SessionTheorems
  import opened SessionQuotes
  import opened Screens

  // ---------------------------------------------------------------- they are clear

  /** In a session that quotes the server has always shown its document. */
  lemma ShownIsDocument(start: Doc, server: Server, k: nat)
    requires ServerInv(start, server) && QuotingRun(OpsOf(server.global), start) && k <= |server.global|
    ensures ShownAt(start, server, k) == At(start, server, k)
  {
    hide ShowAll, ValidRun, Replay, QuotingRun;
    QuotingTail(start, OpsOf(server.global), k);
    ShowAllIs(start, OpsOf(server.global)[..k]);
  }

  /** There only opposite marks can keep buffers from converging. */
  lemma QuotingIsClear(start: Doc, s: Session, e: Event)
    requires Healthy(start, s, false) && AllQuotes(start, s) && Enabled(s, e) && Peaceful(s, e)
    ensures Clear(start, s, e)
  {
    hide ValidRun, Replay, QuotingRun, PeerInv, Harmless, Undisputed, Quotes, ShowAll, ValidOn;
    if e.Receive? && s.peers[e.site].buffer[0].op.site != e.site {
      var p, k := s.peers[e.site], s.peers[e.site].engine.currentSeq;
      NextInHistory(start, s.server, e.site, p);
      ShownIsDocument(start, s.server, k);
      AtNext(start, s.server, k);
      SliceQuotes(start, s.server, k, k + 1);
      OneOpQuotes(start, s.server, k);
      QuotingIsUndisputed(At(start, s.server, k), p.buffer[0].op, OpsOf(p.engine.gh.local));
    }
  }

  lemma NextInHistory(start: Doc, server: Server, site: SiteId, p: Peer)
    requires ServerInv(start, server) && PeerInv(start, server, site, p, false) && p.buffer != []
    ensures p.engine.currentSeq < |server.global| && p.buffer[0] == server.global[p.engine.currentSeq]
    ensures p.buffer[0].seqNo == Some(p.engine.currentSeq + 1) && p.engine.site == site
  {
    hide ValidRun, Replay, HistoryCopies, OwnPointers, UpToDate, Unacked, PendingInOrder;
  }

  lemma NothingRevivedIsClear(start: Doc, s: Session, e: Event)
    requires Healthy(start, s, false) && NoLiveMarksAnywhere(s) && Enabled(s, e)
    ensures Clear(start, s, e)
  {
    hide ValidRun, Replay, PeerInv, Harmless, Undisputed, ShowAll;
    QuietReceive(start, s, e, false);
    if e.Receive? && s.peers[e.site].buffer[0].op.site != e.site {
      var p, k := s.peers[e.site], s.peers[e.site].engine.currentSeq;
      NextInHistory(start, s.server, e.site, p);
      assert OpsOf(s.server.global)[k] == p.buffer[0].op;
      DeletionIsUndisputed(ShownAt(start, s.server, k), p.buffer[0].op, OpsOf(p.engine.gh.local));
    }
  }

  /** In every step of the run, what is made quotes the text it marks. */
  ghost predicate AlwaysQuotes(s: Session, events: seq<Event>, peaceful: bool)
    requires Legal(s, events, peaceful)
    decreases |events|
  {
    events == [] ||
    (MakesQuotes(s, events[0]) && (Step(s, events[0]).Next? ==> AlwaysQuotes(Step(s, events[0]).session, events[1..], peaceful)))
  }

  lemma {:induction false} QuotingRunIsClear(start: Doc, s: Session, events: seq<Event>)
    requires Healthy(start, s, false) && AllQuotes(start, s) && Legal(s, events, true) && AlwaysQuotes(s, events, true)
    ensures Legal(s, events, false) && AlwaysClear(start, s, events)
    decreases |events|
  {
    hide Healthy, AllQuotes, Enabled, Peaceful, Clear, Step, MakesQuotes;
    if events != [] {
      StepKeepsHealthy(start, s, events[0], false);
      StepKeepsQuotes(start, s, events[0]);
      QuotingIsClear(start, s, events[0]);
      QuotingRunIsClear(start, Step(s, events[0]).session, events[1..]);
    }
  }

  lemma {:induction false} UnrevivedRunIsClear(start: Doc, s: Session, events: seq<Event>)
    requires Healthy(start, s, false) && NoLiveMarksAnywhere(s) && Legal(s, events, false) && AlwaysRevivesNothing(s, events)
    ensures AlwaysClear(start, s, events)
    decreases |events|
  {
    hide Healthy, NoLiveMarksAnywhere, Enabled, Clear, Step, RevivesNothing;
    if events != [] {
      StepKeepsHealthy(start, s, events[0], false);
      StepHasNoLiveMarks(s, events[0]);
      NothingRevivedIsClear(start, s, events[0]);
      UnrevivedRunIsClear(start, Step(s, events[0]).session, events[1..]);
    }
  }

  lemma OpeningQuotes(start: Doc)
    requires Coherent(start)
    ensures Healthy(start, Opening(start), false) && AllQuotes(start, Opening(start)) && NoLiveMarksAnywhere(Opening(start))
  {
    OpeningIsHealthy(start, false);
    assert OpsOf([]) == [];
  }

  /** If everything made quotes the text it marks, the buffers of clients that have caught up
      are the server's in every peaceful run. */
  lemma QuotingBuffersConverge(start: Doc, events: seq<Event>, site: SiteId)
    requires Coherent(start) && Legal(Opening(start), events, true) && AlwaysQuotes(Opening(start), events, true)
    ensures Legal(Opening(start), events, false)
    ensures var s, v := EndOf(start, events, false), ScreensOf(start, events);
            CaughtUp(s, site) ==>
              && site in v.peers && Coherent(v.peers[site]) && Coherent(v.server)
              && v.peers[site].live == v.server.live && View(v.peers[site]) == View(v.server)
  {
    hide Legal, AlwaysQuotes, Healthy, AllQuotes;
    OpeningQuotes(start);
    QuotingRunIsClear(start, Opening(start), events);
    if CaughtUp(EndOf(start, events, false), site) { BuffersConverge(start, events, site); }
  }

  /** And so they are in every run that brings nothing back. */
  lemma UnrevivedBuffersConverge(start: Doc, events: seq<Event>, site: SiteId)
    requires Coherent(start) && Legal(Opening(start), events, false) && AlwaysRevivesNothing(Opening(start), events)
    ensures var s, v := EndOf(start, events, false), ScreensOf(start, events);
            CaughtUp(s, site) ==>
              && site in v.peers && Coherent(v.peers[site]) && Coherent(v.server)
              && v.peers[site].live == v.server.live && View(v.peers[site]) == View(v.server)
  {
    hide Legal, AlwaysRevivesNothing, Healthy, AllQuotes;
    OpeningQuotes(start);
    UnrevivedRunIsClear(start, Opening(start), events);
    if CaughtUp(EndOf(start, events, false), site) { BuffersConverge(start, events, site); }
  }

  // ---------------------------------------------------------------- what is shown is the document

  /** Everybody shows the session's documents themselves. */
  ghost predicate Plain(s: Session, v: Screens) {
    && v.peers.Keys == s.peers.Keys && v.server == s.server.doc
    && forall site :: site in s.peers ==> v.peers[site] == s.peers[site].doc
  }

  /** What is made in this step quotes the text it marks or brings nothing back, as has
      everything before. */
  ghost predicate Plainly(start: Doc, s: Session, e: Event)
    requires Enabled(s, e)
  {
    (AllQuotes(start, s) && MakesQuotes(s, e)) || (NoLiveMarksAnywhere(s) && RevivesNothing(s, e))
  }

  lemma ShownAsIs(d: Doc, ops: seq<Op>)
    requires Coherent(d) && ValidRun(ops, d) && (QuotingRun(ops, d) || NoLiveMarks(ops))
    ensures ShowAll(d, ops) == Replay(d, ops)
  {
    hide ShowAll, Replay, ValidRun, QuotingRun;
    if QuotingRun(ops, d) { ShowAllIs(d, ops); } else { ShownPlainly(d, ops); }
  }

  lemma CommandIsPlain(start: Doc, s: Session, e: Event)
    requires Enabled(s, e) && Step(s, e).Next? && (e.Edit? || e.UndoRedo?) && Plainly(start, s, e)
    ensures Coherent(s.peers[e.site].doc) && ValidRun(CommandOps(s, e), s.peers[e.site].doc)
    ensures ShowAll(s.peers[e.site].doc, CommandOps(s, e)) == Replay(s.peers[e.site].doc, CommandOps(s, e))
  {
    hide QuotingRun, ShowAll, Replay, ValidRun, AllQuotes, NoLiveMarksAnywhere, NoLiveMarks, LocalOps, GenerateUndo, OwnCommand, Quotes;
    CommandApplies(s, e);
    if e.Edit? && Quotes(e.op, s.peers[e.site].doc.text) { EditQuotes(s, e.site, e.op); }
    ShownAsIs(s.peers[e.site].doc, CommandOps(s, e));
  }

  lemma AdmittedIsPlain(start: Doc, s: Session, site: SiteId)
    requires Healthy(start, s, false) && Enabled(s, AdmitBatch(site)) && Plainly(start, s, AdmitBatch(site))
    ensures var ops := OpsOf(Sequenced(s.server.global, s.peers[site].wire[0], s.server.currentSeq));
            Coherent(s.server.doc) && ValidRun(ops, s.server.doc) && ShowAll(s.server.doc, ops) == Replay(s.server.doc, ops)
  {
    hide QuotingRun, ShowAll, Replay, ValidRun, Sequenced, NoLiveMarks, UpToDate, PendingInOrder, HistoryCopies, OwnPointers;
    var p, batch := s.peers[site], s.peers[site].wire[0];
    var a, m := BatchInFlight(start, s.server, site, p, false);
    AdmitIsAccepted(start, s.server, site, p, batch, m);
    var fats := Sequenced(s.server.global, batch, s.server.currentSeq);
    if AllQuotes(start, s) {
      AdmittedQuotes(start, s, site);
    } else {
      SequencedHasNoLiveMarks(s.server, batch);
      LaterHaveNone(s.server.global, fats);
    }
    ShownAsIs(s.server.doc, OpsOf(fats));
  }

  lemma LaterHaveNone(global: seq<FatOp>, fats: seq<FatOp>)
    requires NoLiveMarks(OpsOf(global + fats))
    ensures NoLiveMarks(OpsOf(fats))
  {
    OpsOfAppend(global, fats);
    forall i | 0 <= i < |OpsOf(fats)| && OpsOf(fats)[i].Mark? ensures !OpsOf(fats)[i].live {
      assert (OpsOf(global) + OpsOf(fats))[|OpsOf(global)| + i] == OpsOf(fats)[i];
    }
  }

  lemma DiskIsPlain(start: Doc, s: Session, fats: seq<FatOp>)
    requires Healthy(start, s, false) && Enabled(s, ChangeOnDisk(fats)) && Plainly(start, s, ChangeOnDisk(fats))
    ensures var ops := OpsOf(Sequenced(s.server.global, ContextOps(s.server.currentSeq, fats), s.server.currentSeq));
            ValidRun(ops, s.server.doc) && ShowAll(s.server.doc, ops) == Replay(s.server.doc, ops)
  {
    hide QuotingRun, ShowAll, Replay, ValidRun, Sequenced, NoLiveMarks, PeerInv, AllQuotes, NoLiveMarksAnywhere;
    DiskOps(s.server, fats);
    ShownAsIs(s.server.doc, OpsOf(fats));
  }

  lemma ReceivedIsPlain(start: Doc, s: Session, site: SiteId)
    requires Healthy(start, s, false) && site in s.peers && s.peers[site].buffer != []
    requires AllQuotes(start, s) || NoLiveMarksAnywhere(s)
    ensures var p := s.peers[site];
            var r := RemoteOp(p.engine, p.buffer[0]);
            r.Ok? && r.value.1.Some? && Coherent(p.doc) && Fits(r.value.1.value, |p.doc.text|) ==>
              Show(p.doc, r.value.1.value) == Apply(p.doc, r.value.1.value)
  {
    hide RemoteOp, Show, Apply, Quotes, ValidOn, AllQuotes, PeerInv, Fits;
    var p := s.peers[site];
    var r := RemoteOp(p.engine, p.buffer[0]);
    if r.Ok? && r.value.1.Some? && Coherent(p.doc) && Fits(r.value.1.value, |p.doc.text|) {
      ForeignOrOwn(start, s.server, site, p);
      if AllQuotes(start, s) {
        ReceivedQuotes(start, s, site);
        QuotedIsShown(p.doc, r.value.1.value);
      } else {
        NextInHistory(start, s.server, site, p);
        RemoteOpRebases(p.engine, p.buffer[0]);
        assert OpsOf(s.server.global)[p.engine.currentSeq] == p.buffer[0].op;
        BatchKeepsMeta(p.buffer[0].op, OpsOf(p.engine.gh.local));
        DeletionIsShown(p.doc, r.value.1.value);
      }
    }
  }

  lemma QuotedIsShown(d: Doc, op: Op)
    requires Coherent(d) && Fits(op, |d.text|) && Quotes(op, d.text)
    ensures Show(d, op) == Apply(d, op)
  {
    if op.Mark? {
      forall i: nat | i < |d.text| && Covers(op.segs, i) ensures QuoteAt(op.segs, i) == d.text[i] { QuoteIs(op.segs, d.text, i); }
      assert Restored(d, op) == d.text;
    }
  }

  lemma DeletionIsShown(d: Doc, op: Op)
    requires Coherent(d) && Fits(op, |d.text|) && (op.Mark? ==> !op.live)
    ensures Show(d, op) == Apply(d, op)
  {
    assert Restored(d, op) == d.text;
  }

  /** While that is so, everybody is shown the documents as they are. */
  lemma StepKeepsPlain(start: Doc, s: Session, v: Screens, e: Event)
    requires Healthy(start, s, false) && Watching(s, v) && Plain(s, v) && Enabled(s, e) && Plainly(start, s, e)
    ensures Step(s, e).Next? && Plain(Step(s, e).session, Watch(s, v, e))
  {
    hide Healthy, Plainly, ValidRun, Replay, ShowAll, Show, Apply, Sequenced, RemoteOp, CommandOps, Local, GenerateUndo, Package, Buffer,
         OwnCommand, ValidOn, Fits;
    StepKeepsHealthy(start, s, e, false);
    match e
    case Edit(site, _, _) =>
      CommandApplies(s, e);
      CommandIsPlain(start, s, e);
    case UndoRedo(site, _, _) =>
      CommandApplies(s, e);
      CommandIsPlain(start, s, e);
    case AdmitBatch(site) => AdmittedIsPlain(start, s, site);
    case ChangeOnDisk(fats) => DiskIsPlain(start, s, fats);
    case Receive(site) =>
      assert AllQuotes(start, s) || NoLiveMarksAnywhere(s) by { PlainlySoFar(start, s, e); }
      ReceivedIsPlain(start, s, site);
    case _ =>
  }

  lemma PlainlySoFar(start: Doc, s: Session, e: Event)
    requires Enabled(s, e) && Plainly(start, s, e)
    ensures AllQuotes(start, s) || NoLiveMarksAnywhere(s)
  {}

  lemma {:induction false} QuotingRunIsPlain(start: Doc, s: Session, v: Screens, events: seq<Event>)
    requires Healthy(start, s, false) && AllQuotes(start, s) && Legal(s, events, false) && AlwaysQuotes(s, events, false)
    requires Watching(s, v) && Plain(s, v)
    ensures Run(s, events, false).Next? && Plain(Run(s, events, false).session, WatchRun(s, v, events))
    decreases |events|
  {
    hide Healthy, AllQuotes, Enabled, Step, MakesQuotes, Watching, Plain, Watch, NoLiveMarksAnywhere, RevivesNothing;
    if events != [] {
      var e := events[0];
      StepKeepsHealthy(start, s, e, false);
      StepKeepsPlain(start, s, v, e);
      StepKeepsQuotes(start, s, e);
      WatchKeeps(s, v, e);
      QuotingRunIsPlain(start, Step(s, e).session, Watch(s, v, e), events[1..]);
    }
  }

  lemma {:induction false} UnrevivedRunIsPlain(start: Doc, s: Session, v: Screens, events: seq<Event>)
    requires Healthy(start, s, false) && NoLiveMarksAnywhere(s) && Legal(s, events, false) && AlwaysRevivesNothing(s, events)
    requires Watching(s, v) && Plain(s, v)
    ensures Run(s, events, false).Next? && Plain(Run(s, events, false).session, WatchRun(s, v, events))
    decreases |events|
  {
    hide Healthy, AllQuotes, Enabled, Step, MakesQuotes, Watching, Plain, Watch, NoLiveMarksAnywhere, RevivesNothing;
    if events != [] {
      var e := events[0];
      StepKeepsHealthy(start, s, e, false);
      StepKeepsPlain(start, s, v, e);
      StepHasNoLiveMarks(s, e);
      WatchKeeps(s, v, e);
      UnrevivedRunIsPlain(start, Step(s, e).session, Watch(s, v, e), events[1..]);
    }
  }

  /** So at the end of every such run. */
  lemma ScreensArePlain(start: Doc, events: seq<Event>)
    requires Coherent(start) && Legal(Opening(start), events, false)
    requires AlwaysQuotes(Opening(start), events, false) || AlwaysRevivesNothing(Opening(start), events)
    ensures Plain(EndOf(start, events, false), ScreensOf(start, events))
  {
    hide Legal, AlwaysQuotes, AlwaysRevivesNothing, Healthy, AllQuotes, NoLiveMarksAnywhere;
    OpeningQuotes(start);
    OpeningShows(start);
    if AlwaysQuotes(Opening(start), events, false) {
      QuotingRunIsPlain(start, Opening(start), OpeningScreens(start), events);
    } else {
      UnrevivedRunIsPlain(start, Opening(start), OpeningScreens(start), events);
    }
  }
}
