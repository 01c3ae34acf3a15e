/** Runs of a session from its beginning, and what single steps do in them. In such runs
    editors and diffs insert and delete; only undo and redo bring text back. */
module SessionExamples {
  import opened Ops
  import opened Documents
  import opened Convergence
  import opened Engines
  import opened UndoGeneration
  import opened Showing
  import opened ShowConvergence
  import opened Sessions
  import opened SessionInvariants
  import opened SessionProofs
  import opened SessionTheorems
  import opened Screens
  import opened PlainScreens
  import opened Diffs

  /** What editors and diffs make: insertions and deletions. */
  predicate Typed(e: Event) {
    match e
    case Edit(_, op, _) => NoLiveMarks([op])
    case ChangeOnDisk(fats) => NoLiveMarks(OpsOf(fats))
    case _ => true
  }

  /** The run of `events` from an empty session on `start` ends in `s`. */
  ghost predicate Reaches(start: Doc, events: seq<Event>, s: Session) {
    && Legal(Opening(start), events, false) && Run(Opening(start), events, false) == Next(s)
    && forall i :: 0 <= i < |events| ==> Typed(events[i])
  }

  lemma {:induction false} RunSnoc(s: Session, events: seq<Event>, e: Event, peaceful: bool)
    requires Legal(s, events, peaceful) && Run(s, events, peaceful).Next? && Enabled(Run(s, events, peaceful).session, e)
    requires peaceful ==> Peaceful(Run(s, events, peaceful).session, e)
    ensures Legal(s, events + [e], peaceful)
    ensures Run(s, events + [e], peaceful) == Step(Run(s, events, peaceful).session, e)
    decreases |events|
  {
    hide Step, Enabled, Peaceful;
    if events == [] {
      assert events + [e] == [e] && [e][1..] == [];
      if Step(s, e).Next? { assert Run(Step(s, e).session, [], peaceful) == Step(s, e); }
    } else {
      assert (events + [e])[0] == events[0] && (events + [e])[1..] == events[1..] + [e];
      RunSnoc(Step(s, events[0]).session, events[1..], e, peaceful);
    }
  }

  lemma ReachesMore(start: Doc, events: seq<Event>, s: Session, e: Event, t: Session)
    requires Reaches(start, events, s) && Enabled(s, e) && Step(s, e) == Next(t) && Typed(e)
    ensures Reaches(start, events + [e], t)
  {
    hide Step, Enabled, Typed;
    RunSnoc(Opening(start), events, e, false);
  }

  // ---------------------------------------------------------------- with what is shown

  /** The run is peaceful, and at its end everybody shows what `v` says. */
  ghost predicate Displays(start: Doc, events: seq<Event>, s: Session, v: Screens) {
    && Coherent(start) && Reaches(start, events, s) && Legal(Opening(start), events, true)
    && Run(Opening(start), events, true) == Next(s)
    && ScreensOf(start, events) == v && Watching(s, v)
  }

  lemma {:induction false} WatchSnoc(s: Session, v: Screens, events: seq<Event>, e: Event)
    requires Legal(s, events, false) && Run(s, events, false).Next? && Enabled(Run(s, events, false).session, e)
    requires Watching(s, v) && Legal(s, events + [e], false) && Step(Run(s, events, false).session, e).Next?
    ensures Watching(Run(s, events, false).session, WatchRun(s, v, events))
    ensures WatchRun(s, v, events + [e]) == Watch(Run(s, events, false).session, WatchRun(s, v, events), e)
    decreases |events|
  {
    hide Step, Enabled, Peaceful, Watch, Watching;
    if events == [] {
      assert events + [e] == [e] && [e][1..] == [];
      WatchKeeps(s, v, e);
      assert WatchRun(Step(s, e).session, Watch(s, v, e), []) == Watch(s, v, e);
    } else {
      assert (events + [e])[0] == events[0] && (events + [e])[1..] == events[1..] + [e];
      WatchKeeps(s, v, events[0]);
      WatchSnoc(Step(s, events[0]).session, Watch(s, v, events[0]), events[1..], e);
    }
  }

  lemma DisplaysMore(start: Doc, events: seq<Event>, s: Session, v: Screens, e: Event, t: Session)
    requires Displays(start, events, s, v) && Enabled(s, e) && Peaceful(s, e) && Step(s, e) == Next(t) && Typed(e)
    ensures Watching(s, v) && Displays(start, events + [e], t, Watch(s, v, e))
  {
    hide Step, Enabled, Peaceful, Typed, Watch, Watching, Legal, Run, WatchRun;
    RunSnoc(Opening(start), events, e, true);
    ReachesMore(start, events, s, e, t);
    assert Watching(Opening(start), OpeningScreens(start)) by { OpeningShows(start); }
    WatchSnoc(Opening(start), OpeningScreens(start), events, e);
    WatchKeeps(s, v, e);
  }

  function PlainOf(s: Session): Screens {
    Screens(s.server.doc, map site | site in s.peers :: s.peers[site].doc)
  }

  /** A run in which nothing has been brought back so far: everybody shows the documents. */
  ghost predicate PlainRun(start: Doc, events: seq<Event>, s: Session) {
    Displays(start, events, s, PlainOf(s)) && NoLiveMarksAnywhere(s)
  }

  lemma NoEvents(start: Doc)
    requires Coherent(start)
    ensures PlainRun(start, [], Opening(start))
  {
    OpeningQuotes(start);
    assert PlainOf(Opening(start)) == OpeningScreens(start);
  }

  lemma PlainMore(start: Doc, events: seq<Event>, s: Session, e: Event, t: Session)
    requires PlainRun(start, events, s) && Enabled(s, e) && RevivesNothing(s, e) && Step(s, e) == Next(t) && Typed(e)
    ensures PlainRun(start, events + [e], t)
  {
    hide Step, Enabled, Peaceful, Typed, Watch, Watching, Legal, Run, WatchRun, RevivesNothing, NoLiveMarksAnywhere, Healthy, ScreensOf;
    EveryRunIsHealthy(start, events, false);
    QuietReceive(start, s, e, false);
    DisplaysMore(start, events, s, PlainOf(s), e, t);
    StepHasNoLiveMarks(s, e);
    StepKeepsPlain(start, s, PlainOf(s), e);
    assert Watch(s, PlainOf(s), e) == PlainOf(t) by {
      var v := Watch(s, PlainOf(s), e);
      assert v.peers == PlainOf(t).peers;
    }
  }

  /** Steps of which nobody is the author. */
  lemma PlainQuiet(start: Doc, events: seq<Event>, s: Session, e: Event, t: Session)
    requires PlainRun(start, events, s) && Enabled(s, e) && Step(s, e) == Next(t)
    requires !e.Edit? && !e.UndoRedo? && !e.ChangeOnDisk?
    ensures PlainRun(start, events + [e], t)
  {
    hide PlainRun, Step, Enabled;
    PlainMore(start, events, s, e, t);
  }

  lemma PlainEdit(start: Doc, events: seq<Event>, s: Session, site: SiteId, op: Op, group: GroupSeq, t: Session)
    requires PlainRun(start, events, s) && Enabled(s, Edit(site, op, group)) && Step(s, Edit(site, op, group)) == Next(t)
    requires NoLiveMarks([op])
    ensures PlainRun(start, events + [Edit(site, op, group)], t)
  {
    hide PlainRun, Step, Enabled;
    PlainMore(start, events, s, Edit(site, op, group), t);
  }

  lemma PlainUndo(start: Doc, events: seq<Event>, s: Session, site: SiteId, redo: bool, group: GroupSeq, t: Session)
    requires PlainRun(start, events, s) && Enabled(s, UndoRedo(site, redo, group)) && Step(s, UndoRedo(site, redo, group)) == Next(t)
    requires site in s.peers && s.peers[site].engine.gh.PointersInRange()
    requires NoLiveMarks(GenerateUndo(s.peers[site].engine.gh, redo))
    ensures PlainRun(start, events + [UndoRedo(site, redo, group)], t)
  {
    hide PlainRun, Step, Enabled, GenerateUndo, NoLiveMarks;
    PlainMore(start, events, s, UndoRedo(site, redo, group), t);
  }

  lemma PlainDisk(start: Doc, events: seq<Event>, s: Session, fats: seq<FatOp>, t: Session)
    requires PlainRun(start, events, s) && Enabled(s, ChangeOnDisk(fats)) && Step(s, ChangeOnDisk(fats)) == Next(t)
    requires NoLiveMarks(OpsOf(fats))
    ensures PlainRun(start, events + [ChangeOnDisk(fats)], t)
  {
    hide PlainRun, Step, Enabled;
    PlainMore(start, events, s, ChangeOnDisk(fats), t);
  }

  lemma PlainReaches(start: Doc, events: seq<Event>, s: Session)
    requires PlainRun(start, events, s)
    ensures Reaches(start, events, s)
  {}

  // ---------------------------------------------------------------- what single steps do

  function One(server: Server, p: Peer): Session { Session(server, map[1 := p], {}) }

  lemma OnlyOne(server: Server, p: Peer, q: Peer)
    ensures One(server, p).peers[1 := q] == One(server, q).peers
  {}

  function Two(server: Server, p1: Peer, p2: Peer): Session { Session(server, map[1 := p1, 2 := p2], {}) }

  lemma OneOfTwo(server: Server, p1: Peer, p2: Peer, q: Peer)
    ensures Two(server, p1, p2).peers[1 := q] == Two(server, q, p2).peers
    ensures Two(server, p1, p2).peers[2 := q] == Two(server, p1, q).peers
  {}

  /** An edit of a client that has undone nothing. */
  lemma EditResult(s: Session, site: SiteId, op: Op)
    requires Enabled(s, Edit(site, op, 0)) && s.peers[site].engine.gh.PointersInRange() && s.peers[site].engine.gh.undoTip.None?
    ensures var p, h := s.peers[site], s.peers[site].engine.gh;
            var local := h.local + [FatOp(None, op, p.engine.currentSiteSeq + 1, Original, 0)];
            var engine := p.engine.(gh := h.(local := local, undoQueue := h.undoQueue + [h.Total() + 1]),
                                    currentSiteSeq := p.engine.currentSiteSeq + 1);
            Step(s, Edit(site, op, 0)) == Next(s.(peers := s.peers[site := p.(engine := engine, doc := Apply(p.doc, op))]))
  {
    hide PushLocal, PushAll;
    var p := s.peers[site];
    RunOfOne(p.doc, op);
    PushOne(p.engine.gh, op, p.engine.currentSiteSeq + 1, EditOriginal, 0);
    PushShape(p.engine.gh, op, p.engine.currentSiteSeq + 1, EditOriginal, 0);
    assert p.engine.gh.undoQueue[..|p.engine.gh.undoQueue|] == p.engine.gh.undoQueue;
    assert PushAll(p.engine.gh, [op], p.engine.currentSiteSeq + 1, EditOriginal, 0).value.undoTip.None? by {
      DoneAll(PushAll(p.engine.gh, [op], p.engine.currentSiteSeq + 1, EditOriginal, 0).value);
    }
  }

  lemma DoneAll(h: History)
    requires h.PointersInRange() && h.Done() == |h.undoQueue|
    ensures h.undoTip.None?
  {}

  /** An undo or redo command that generates `ops`. */
  lemma UndoResult(s: Session, site: SiteId, redo: bool, group: GroupSeq, ops: seq<Op>) returns (t: Session)
    requires site in s.peers && Enabled(s, UndoRedo(site, redo, group))
    requires s.peers[site].engine.gh.PointersInRange() && GenerateUndo(s.peers[site].engine.gh, redo) == ops
    requires Coherent(s.peers[site].doc) && ValidRun(ops, s.peers[site].doc)
    ensures Step(s, UndoRedo(site, redo, group)) == Next(t)
    ensures var p := s.peers[site];
            && LocalOps(p.engine, ops, CommandKind(redo), group).Ok?
            && t == s.(peers := s.peers[site := p.(engine := LocalOps(p.engine, ops, CommandKind(redo), group).value,
                                                   doc := Replay(p.doc, ops))])
  {
    hide PushAll, GenerateUndo, ValidRun, Replay, OwnPointers;
    var c := s.peers[site].engine;
    UndoNeverFails(c.gh, redo, c.currentSiteSeq + 1, group);
    t := Step(s, UndoRedo(site, redo, group)).session;
  }

  /** A batch of one operation whose sender has seen everything but `missed`. */
  lemma SequencedOne(global: seq<FatOp>, context: GlobalSeq, fat: FatOp, missed: seq<Op>)
    requires OpsOf(OpsAfter(global, context)) == missed
    ensures Sequenced(global, ContextOps(context, [fat]), |global|)
         == [fat.(op := Batch(fat.op, missed), seqNo := Some(|global| + 1))]
  {
    assert OpsOf([fat]) == [fat.op];
    assert [fat.op][1..] == [];
    assert Admit(missed, [fat.op]) == [Batch(fat.op, missed)] + Admit(Rebase(missed, fat.op), []);
    assert WithOps([fat], [Batch(fat.op, missed)]) == [fat.(op := Batch(fat.op, missed))];
  }

  lemma AdmitResult(s: Session, site: SiteId, context: GlobalSeq, fat: FatOp, missed: seq<Op>)
    requires site in s.peers && s.peers[site].wire == [ContextOps(context, [fat])] && s.server.currentSeq == |s.server.global|
    requires site in s.server.subscribers && s.server.subscribers[site] + 1 == fat.siteSeq
    requires OpsOf(OpsAfter(s.server.global, context)) == missed
    requires Coherent(s.server.doc) && ValidOn(Batch(fat.op, missed), s.server.doc.text)
    ensures var new' := fat.(op := Batch(fat.op, missed), seqNo := Some(|s.server.global| + 1));
            var server := Server(s.server.global + [new'], |s.server.global| + 1, Apply(s.server.doc, new'.op),
                                 s.server.subscribers[site := fat.siteSeq]);
            Step(s, AdmitBatch(site)) == Next(s.(server := server, peers := s.peers[site := s.peers[site].(wire := [])]))
  {
    hide Sequenced;
    SequencedOne(s.server.global, context, fat, missed);
    var new' := fat.(op := Batch(fat.op, missed), seqNo := Some(|s.server.global| + 1));
    assert OpsOf([new']) == [new'.op];
    RunOfOne(s.server.doc, new'.op);
    assert s.peers[site].wire[1..] == [];
  }

  /** One operation made by a change on disk. */
  lemma DiskResult(s: Session, fat: FatOp)
    requires fat.op.site == EXTERNAL_SITE && s.server.currentSeq == |s.server.global|
    requires Coherent(s.server.doc) && ValidOn(fat.op, s.server.doc.text)
    ensures Enabled(s, ChangeOnDisk([fat]))
    ensures var new' := fat.(seqNo := Some(|s.server.global| + 1));
            var server := Server(s.server.global + [new'], |s.server.global| + 1, Apply(s.server.doc, fat.op), s.server.subscribers);
            Step(s, ChangeOnDisk([fat])) == Next(s.(server := server))
  {
    hide Sequenced;
    assert OpsOf([fat]) == [fat.op];
    RunOfOne(s.server.doc, fat.op);
    assert OpsOf(OpsAfter(s.server.global, s.server.currentSeq)) == [];
    SequencedOne(s.server.global, s.server.currentSeq, fat, []);
    var new' := fat.(seqNo := Some(|s.server.global| + 1));
    assert OpsOf([new']) == [new'.op];
  }

  /** The next operation is delivered to a client that has nothing buffered. */
  lemma DeliverResult(s: Session, site: SiteId, k: nat)
    requires site in s.peers && s.peers[site].buffer == [] && s.peers[site].engine.currentSeq == k
    requires k < |s.server.global| && s.server.global[k].seqNo == Some(k + 1)
    ensures Enabled(s, Deliver(site, k, k + 1))
    ensures Step(s, Deliver(site, k, k + 1)) == Next(s.(peers := s.peers[site := s.peers[site].(buffer := [s.server.global[k]])]))
  {
    assert s.server.global[k..k + 1] == [s.server.global[k]];
    assert [s.server.global[k]][1..] == [] && [] + [s.server.global[k]] == [s.server.global[k]];
    assert Buffer(k, [s.server.global[k]], []) == [s.server.global[k]];
  }

  lemma SendResult(s: Session, site: SiteId, fat: FatOp)
    requires site in s.peers && s.peers[site].engine.gh.local == [fat] && fat.siteSeq == s.peers[site].engine.lastSent + 1
    requires s.peers[site].wire == []
    ensures var p := s.peers[site];
            Step(s, Send(site)) == Next(s.(peers := s.peers[site := p.(engine := p.engine.(lastSent := fat.siteSeq),
                                                                       wire := [ContextOps(p.engine.currentSeq, [fat])])]))
  {
    var p := s.peers[site];
    assert p.wire + [ContextOps(p.engine.currentSeq, [fat])] == [ContextOps(p.engine.currentSeq, [fat])];
  }

  lemma AckResult(s: Session, site: SiteId, fat: FatOp, pending: FatOp)
    requires site in s.peers && s.peers[site].buffer == [fat] && s.peers[site].engine.gh.local == [pending]
    requires fat.seqNo == Some(s.peers[site].engine.currentSeq + 1) && s.peers[site].engine.site == site
    requires fat.op.site == site == pending.op.site && fat.siteSeq == pending.siteSeq
    ensures var p, h := s.peers[site], s.peers[site].engine.gh;
            var engine := p.engine.(gh := h.(local := [], global := h.global + [fat]), currentSeq := p.engine.currentSeq + 1);
            Step(s, Receive(site)) == Next(s.(peers := s.peers[site := p.(engine := engine, buffer := [])]))
  {
    assert [pending][1..] == [] && [fat][1..] == [];
  }

  /** Another site's operation arrives at a client with one pending operation. */
  lemma ForeignResult(s: Session, site: SiteId, fat: FatOp, mine: FatOp, theirs': Op, mine': Op)
    requires site in s.peers && s.peers[site].buffer == [fat] && s.peers[site].engine.gh.local == [mine]
    requires fat.seqNo == Some(s.peers[site].engine.currentSeq + 1) && fat.op.site != s.peers[site].engine.site
    requires theirs' == Transform(fat.op, mine.op) && mine' == Transform(mine.op, fat.op)
    requires Coherent(s.peers[site].doc) && Fits(theirs', |s.peers[site].doc.text|)
    ensures var p, h := s.peers[site], s.peers[site].engine.gh;
            var engine := p.engine.(gh := h.(local := [BumpDelta(mine.(op := mine'), 0)], global := h.global + [fat.(op := theirs')],
                                             undoQueue := BumpQueue(h.undoQueue, p.engine.currentSeq)),
                                    currentSeq := p.engine.currentSeq + 1);
            Step(s, Receive(site)) == Next(s.(peers := s.peers[site := p.(engine := engine, buffer := [], doc := Apply(p.doc, theirs'))]))
  {
    assert OpsOf([mine]) == [mine.op] && [fat][1..] == [];
    assert Batch(fat.op, [mine.op]) == Batch(theirs', []) == theirs';
    assert Rebase([mine.op], fat.op) == [mine'] + Rebase([], theirs') == [mine'];
    assert WithOps([mine], [mine']) == [mine.(op := mine')];
    assert BumpDeltas([mine.(op := mine')]) == [BumpDelta(mine.(op := mine'), 0)];
  }

  // ---------------------------------------------------------------- several operations at once

  lemma JoinResult(s: Session, site: SiteId)
    requires site != EXTERNAL_SITE
    ensures Enabled(s, Join(site))
    ensures var p := Peer(NewClient(site, s.server.currentSeq), s.server.doc, [], []);
            Step(s, Join(site))
            == Next(s.(server := s.server.(subscribers := s.server.subscribers[site := 0]), peers := s.peers[site := p]))
  {}

  /** A client sends everything it has pending. */
  lemma SendAll(s: Session, site: SiteId)
    requires site in s.peers && PrevOpAcked(s.peers[site].engine) && s.peers[site].wire == []
    ensures Enabled(s, Send(site))
    ensures var p, local := s.peers[site], s.peers[site].engine.gh.local;
            Step(s, Send(site)) == Next(s.(peers := s.peers[site := p.(engine := p.engine.(lastSent := local[|local| - 1].siteSeq),
                                                                       wire := [ContextOps(p.engine.currentSeq, local)])]))
  {
    var p := s.peers[site];
    assert p.wire + [ContextOps(p.engine.currentSeq, p.engine.gh.local)] == [ContextOps(p.engine.currentSeq, p.engine.gh.local)];
  }

  /** The server makes `fats` of a batch. */
  lemma AdmitAs(s: Session, site: SiteId, batch: ContextOps, fats: seq<FatOp>)
    requires site in s.peers && s.peers[site].wire == [batch] && batch.ops != []
    requires site in s.server.subscribers && s.server.subscribers[site] + 1 == batch.ops[0].siteSeq
    requires Sequenced(s.server.global, batch, s.server.currentSeq) == fats
    requires Coherent(s.server.doc) && ValidRun(OpsOf(fats), s.server.doc)
    ensures Enabled(s, AdmitBatch(site))
    ensures var server := Server(s.server.global + fats, s.server.currentSeq + |fats|, Replay(s.server.doc, OpsOf(fats)),
                                 s.server.subscribers[site := batch.ops[|batch.ops| - 1].siteSeq]);
            Step(s, AdmitBatch(site)) == Next(s.(server := server, peers := s.peers[site := s.peers[site].(wire := [])]))
  {
    hide Sequenced, ValidRun, Replay;
    assert s.peers[site].wire[1..] == [];
  }

  /** Everything that is missing is delivered. */
  lemma DeliverRest(s: Session, site: SiteId)
    requires site in s.peers && s.peers[site].buffer == [] && s.peers[site].engine.currentSeq <= |s.server.global|
    requires Numbering(s.server.global)
    ensures var k := s.peers[site].engine.currentSeq;
            && Enabled(s, Deliver(site, k, |s.server.global|))
            && Step(s, Deliver(site, k, |s.server.global|))
               == Next(s.(peers := s.peers[site := s.peers[site].(buffer := s.server.global[k..])]))
  {
    var k, global := s.peers[site].engine.currentSeq, s.server.global;
    assert global[k..|global|] == global[k..] && [] == global[k..k + 0];
    RequestFillsGap(global, k, [], k);
    DeliveryAsksIff(global, k, [], k, |global|);
  }

  lemma AckNext(s: Session, site: SiteId)
    requires site in s.peers && s.peers[site].buffer != [] && s.peers[site].engine.gh.local != []
    requires s.peers[site].buffer[0].seqNo == Some(s.peers[site].engine.currentSeq + 1) && s.peers[site].engine.site == site
    requires var fat, mine := s.peers[site].buffer[0], s.peers[site].engine.gh.local[0];
             fat.op.site == site == mine.op.site && fat.siteSeq == mine.siteSeq
    ensures Enabled(s, Receive(site)) && Peaceful(s, Receive(site))
    ensures var p, h := s.peers[site], s.peers[site].engine.gh;
            var engine := p.engine.(gh := h.(local := h.local[1..], global := h.global + [p.buffer[0]]),
                                    currentSeq := p.engine.currentSeq + 1);
            && RemoteOp(p.engine, p.buffer[0]) == Ok((engine, None))
            && Step(s, Receive(site)) == Next(s.(peers := s.peers[site := p.(engine := engine, buffer := p.buffer[1..])]))
  {}

  /** Another site's mark arrives while only marks of one kind are pending. */
  lemma ForeignMark(s: Session, site: SiteId)
    requires site in s.peers && s.peers[site].buffer != [] && s.peers[site].engine.site == site
    requires var p := s.peers[site];
             && p.buffer[0].seqNo == Some(p.engine.currentSeq + 1) && p.buffer[0].op.site != site && p.buffer[0].op.Mark?
             && AllMarks(OpsOf(p.engine.gh.local)) && Agrees(p.buffer[0].op, OpsOf(p.engine.gh.local))
             && Coherent(p.doc) && Fits(p.buffer[0].op, |p.doc.text|)
    ensures Enabled(s, Receive(site)) && Peaceful(s, Receive(site))
    ensures var p, h, op := s.peers[site], s.peers[site].engine.gh, s.peers[site].buffer[0].op;
            var engine := p.engine.(gh := h.(local := BumpDeltas(h.local), global := h.global + [p.buffer[0]],
                                             undoQueue := BumpQueue(h.undoQueue, p.engine.currentSeq)),
                                    currentSeq := p.engine.currentSeq + 1);
            && RemoteOp(p.engine, p.buffer[0]) == Ok((engine, Some(op)))
            && Step(s, Receive(site)) == Next(s.(peers := s.peers[site := p.(engine := engine, doc := Apply(p.doc, op),
                                                                                buffer := p.buffer[1..])]))
  {
    var p, op := s.peers[site], s.peers[site].buffer[0].op;
    var pending := OpsOf(p.engine.gh.local);
    AgreeingIsHarmless(op, pending);
    BatchOverMarks(op, [], pending);
    assert [] + pending == pending;
    RebaseOverMark(pending, op);
    assert WithOps(p.engine.gh.local, pending) == p.engine.gh.local;
    assert p.buffer[0].(op := op) == p.buffer[0];
    hide BumpDeltas, BumpQueue, Apply, Fits, Batch, Rebase, Harmless;
  }

  lemma PushTwo(h: History, first: Op, second: Op, siteSeq: LocalSeq, kind: EditorOpKind, group: GroupSeq, h1: History)
    requires h.PointersInRange() && PushLocal(h, first, siteSeq, kind, group) == Ok(h1) && h1.PointersInRange()
    ensures PushAll(h, [first, second], siteSeq, kind, group) == PushLocal(h1, second, siteSeq, kind, group)
  {
    hide PushLocal;
    assert [first, second][1..] == [second];
    PushOne(h1, second, siteSeq, kind, group);
  }

  /** A mark of one segment, position by position. */
  lemma OneSegApplies(d: Doc, seg: Seg, live: bool, site: SiteId, e: Doc)
    requires Coherent(d) && Coherent(e) && |e.text| == |d.text| && seg.text != "" && seg.End() <= |d.text|
    requires e.text == d.text && forall p :: 0 <= p < |d.text| ==> e.live[p] == if In(seg, p) then live else d.live[p]
    ensures var m := Mark([seg], live, site);
            ValidOn(m, d.text) && Fits(m, |d.text|) && Apply(d, m) == e
  {
    var m := Mark([seg], live, site);
    forall p | 0 <= p < |d.text| ensures Apply(d, m).live[p] == e.live[p] {
      if In(seg, p) { assert In(m.segs[0], p); }
    }
    assert Apply(d, m).live == e.live;
  }

  lemma OneSegShows(d: Doc, seg: Seg, live: bool, site: SiteId, e: Doc)
    requires Coherent(d) && Coherent(e) && |e.text| == |d.text| && seg.text != "" && seg.End() <= |d.text|
    requires forall p :: 0 <= p < |d.text| ==>
               && e.live[p] == (if In(seg, p) then live else d.live[p])
               && e.text[p] == if In(seg, p) && live && !d.live[p] then seg.text[p - seg.pos] else d.text[p]
    ensures var m := Mark([seg], live, site);
            ValidOn(m, d.text) && Fits(m, |d.text|) && Show(d, m) == e
  {
    var m := Mark([seg], live, site);
    forall p | 0 <= p < |d.text| ensures Show(d, m).live[p] == e.live[p] && Show(d, m).text[p] == e.text[p] {
      ShowAt(d, m, p);
      if In(seg, p) {
        assert In(m.segs[0], p);
        QuoteOf(m.segs, 0, p);
      }
    }
    assert Show(d, m).live == e.live && Show(d, m).text == e.text;
  }

  /** Two operations in a row. */
  lemma TwoApply(d: Doc, first: Op, second: Op)
    requires Coherent(d) && ValidOn(first, d.text) && Fits(first, |d.text|) && ValidOn(second, Apply(d, first).text)
    requires Fits(second, |Apply(d, first).text|)
    ensures ValidRun([first, second], d) && Replay(d, [first, second]) == Apply(Apply(d, first), second)
  {
    RunOfOne(Apply(d, first), second);
    assert [first, second][1..] == [second] && [first, second][0] == first;
  }

  lemma TwoShow(d: Doc, first: Op, second: Op)
    requires Coherent(d) && ValidRun([first, second], d)
    ensures Fits(first, |d.text|) && Fits(second, |Show(d, first).text|)
    ensures ShowAll(d, [first, second]) == Show(Show(d, first), second)
  {
    hide Show;
    FirstShown(d, [first, second]);
    assert [first, second][1..] == [second];
    FirstShown(Show(d, first), [second]);
    assert [second][1..] == [];
  }

  // ---------------------------------------------------------------- what screens show

  lemma CommandIsShown(s: Session, v: Screens, e: Event, ops: seq<Op>)
    requires Watching(s, v) && Enabled(s, e) && e.UndoRedo? && Step(s, e).Next? && e.site in v.peers
    requires s.peers[e.site].engine.gh.PointersInRange() && GenerateUndo(s.peers[e.site].engine.gh, e.redo) == ops
    requires Coherent(v.peers[e.site]) && ValidRun(ops, v.peers[e.site])
    ensures Watch(s, v, e) == v.(peers := v.peers[e.site := ShowAll(v.peers[e.site], ops)])
  {
    hide Step, ValidRun, Replay, ShowAll, GenerateUndo, OwnCommand;
    CommandApplies(s, e);
    assert CommandOps(s, e) == ops;
    var shown := ShowTo(v.peers[e.site], s.peers[e.site].doc, ops);
  }

  lemma AdmissionIsShown(s: Session, v: Screens, site: SiteId, batch: ContextOps, fats: seq<FatOp>)
    requires Watching(s, v) && Enabled(s, AdmitBatch(site)) && Step(s, AdmitBatch(site)).Next?
    requires s.peers[site].wire == [batch] && SiteSeqExpected(s.server.subscribers, site, batch)
    requires Sequenced(s.server.global, batch, s.server.currentSeq) == fats
    ensures Coherent(v.server) && ValidRun(OpsOf(fats), v.server)
    ensures Watch(s, v, AdmitBatch(site)) == v.(server := ShowAll(v.server, OpsOf(fats)))
  {
    hide Sequenced, ValidRun, Replay, ShowAll;
    RunOnSameLength(s.server.doc, v.server, OpsOf(fats));
  }

  lemma MarkIsShown(s: Session, v: Screens, site: SiteId, engine: Engines.Client, op: Op)
    requires Watching(s, v) && Enabled(s, Receive(site)) && Step(s, Receive(site)).Next? && site in v.peers
    requires RemoteOp(s.peers[site].engine, s.peers[site].buffer[0]) == Ok((engine, Some(op)))
    ensures Coherent(v.peers[site]) && Fits(op, |v.peers[site].text|)
    ensures Watch(s, v, Receive(site)) == v.(peers := v.peers[site := Show(v.peers[site], op)])
  {
    hide RemoteOp, Apply, Fits, Show;
    assert Shows(v.peers[site], s.peers[site].doc);
  }

  lemma AckShowsNothing(s: Session, v: Screens, site: SiteId, engine: Engines.Client)
    requires Watching(s, v) && Enabled(s, Receive(site)) && Step(s, Receive(site)).Next?
    requires RemoteOp(s.peers[site].engine, s.peers[site].buffer[0]) == Ok((engine, None))
    ensures Watch(s, v, Receive(site)) == v
  {
    hide RemoteOp;
  }

  /** The next acknowledgement, with what everybody shows. */
  lemma DisplaysAck(start: Doc, events: seq<Event>, s: Session, v: Screens, site: SiteId) returns (t: Session)
    requires Displays(start, events, s, v) && site in s.peers && s.peers[site].buffer != [] && s.peers[site].engine.gh.local != []
    requires s.peers[site].buffer[0].seqNo == Some(s.peers[site].engine.currentSeq + 1) && s.peers[site].engine.site == site
    requires var fat, mine := s.peers[site].buffer[0], s.peers[site].engine.gh.local[0];
             fat.op.site == site == mine.op.site && fat.siteSeq == mine.siteSeq
    ensures var p, h := s.peers[site], s.peers[site].engine.gh;
            var engine := p.engine.(gh := h.(local := h.local[1..], global := h.global + [p.buffer[0]]),
                                    currentSeq := p.engine.currentSeq + 1);
            t == s.(peers := s.peers[site := p.(engine := engine, buffer := p.buffer[1..])])
    ensures Displays(start, events + [Receive(site)], t, v)
  {
    hide Step, Displays, Peaceful, Watching;
    AckNext(s, site);
    t := Step(s, Receive(site)).session;
    DisplaysMore(start, events, s, v, Receive(site), t);
    AckShowsNothing(s, v, site, RemoteOp(s.peers[site].engine, s.peers[site].buffer[0]).value.0);
  }

  /** A step in which nothing is shown to anybody. */
  lemma DisplaysQuiet(start: Doc, events: seq<Event>, s: Session, v: Screens, e: Event, t: Session)
    requires Displays(start, events, s, v) && Enabled(s, e) && Step(s, e) == Next(t) && (e.Send? || e.Deliver?)
    ensures Displays(start, events + [e], t, v)
  {
    hide Step, Displays;
    DisplaysMore(start, events, s, v, e, t);
  }
}
