/** Whole runs of a session: what can fail, documents converge, batches go out one at a
    time, and where these promises end. */
module SessionTheorems {
  import opened Ops
  import opened Documents
  import opened Marks
  import opened Convergence
  import opened Engines
  import opened UndoGeneration
  import opened Sessions
  import opened SessionInvariants
  import opened SessionProofs

  function Opening(start: Doc): Session { Session(Server([], 0, start, map[]), map[], {}) }

  /** Events that the surroundings may bring about one after the other; in a peaceful run
      no client receives a mark that its pending operations conflict with. */
  ghost predicate Legal(s: Session, events: seq<Event>, peaceful: bool)
    decreases |events|
  {
    events == [] ||
    (&& Enabled(s, events[0])
     && (peaceful ==> Peaceful(s, events[0]))
     && (Step(s, events[0]).Next? ==> Legal(Step(s, events[0]).session, events[1..], peaceful)))
  }

  ghost function Run(s: Session, events: seq<Event>, peaceful: bool): Outcome
    requires Legal(s, events, peaceful)
    decreases |events|
  {
    if events == [] then Next(s)
    else
      match Step(s, events[0])
      case Fails(f) => Fails(f)
      case Next(t) => Run(t, events[1..], peaceful)
  }

  lemma {:induction false} RunKeepsHealthy(start: Doc, s: Session, events: seq<Event>, peaceful: bool)
    requires Healthy(start, s, peaceful) && Legal(s, events, peaceful)
    ensures Run(s, events, peaceful).Next? && Healthy(start, Run(s, events, peaceful).session, peaceful)
    decreases |events|
  {
    hide Step, Healthy, Enabled, Peaceful;
    if events != [] {
      StepKeepsHealthy(start, s, events[0], peaceful);
      RunKeepsHealthy(start, Step(s, events[0]).session, events[1..], peaceful);
    }
  }

  lemma OpeningIsHealthy(start: Doc, peaceful: bool)
    requires Coherent(start)
    ensures Healthy(start, Opening(start), peaceful)
  {
    assert OpsOf([]) == [];
  }

  /** In every run, with edits anywhere in bounds, with undo and redo as the engine generates
      them, with lost, repeated and reordered deliveries, requests for what was missed, refused
      batches, hosts that come back and changes made on disk: nothing fails, no sequence check
      of an engine fires, no operation is out of bounds, and the session stays healthy. */
  lemma EveryRunIsHealthy(start: Doc, events: seq<Event>, peaceful: bool)
    requires Coherent(start) && Legal(Opening(start), events, peaceful)
    ensures Run(Opening(start), events, peaceful).Next?
    ensures Healthy(start, Run(Opening(start), events, peaceful).session, peaceful)
  {
    OpeningIsHealthy(start, peaceful);
    RunKeepsHealthy(start, Opening(start), events, peaceful);
  }

  /** The session at the end of a run. */
  ghost function EndOf(start: Doc, events: seq<Event>, peaceful: bool): (s: Session)
    requires Coherent(start) && Legal(Opening(start), events, peaceful)
    ensures Healthy(start, s, peaceful)
  {
    EveryRunIsHealthy(start, events, peaceful);
    Run(Opening(start), events, peaceful).session
  }

  // ---------------------------------------------------------------- convergence

  predicate CaughtUp(s: Session, site: SiteId) {
    && site in s.peers
    && s.peers[site].engine.currentSeq == |s.server.global|
    && s.peers[site].engine.gh.local == []
  }

  /** Convergence of histories. A client's document is what the server's history up to the
      client's position, followed by the pending operations, makes of the start; caught up, it
      has the text that the server's history makes, and its liveness if the run was peaceful.
      What is shown of it is in `Screens.BuffersConverge`. */
  lemma ClientsConverge(start: Doc, events: seq<Event>, site: SiteId, peaceful: bool)
    requires Coherent(start) && Legal(Opening(start), events, peaceful)
    requires site in EndOf(start, events, peaceful).peers
    ensures var s := EndOf(start, events, peaceful);
            && ServerInv(start, s.server)
            && UpToDate(start, s.server, s.peers[site], peaceful)
            && (CaughtUp(s, site) ==> SameDoc(s.peers[site].doc, s.server.doc, peaceful))
  {
    var s := EndOf(start, events, peaceful);
    AllOps(s.server.global);
    if CaughtUp(s, site) { assert OpsOf(s.peers[site].engine.gh.local) == []; }
  }

  /** Two clients at the same position with nothing pending have the same document, wherever
      the server is; they show the same by `Screens.ScreensAgree`. */
  lemma ClientsAgree(start: Doc, s: Session, site1: SiteId, site2: SiteId, peaceful: bool)
    requires Healthy(start, s, peaceful) && site1 in s.peers && site2 in s.peers
    requires s.peers[site1].engine.currentSeq == s.peers[site2].engine.currentSeq
    requires s.peers[site1].engine.gh.local == [] && s.peers[site2].engine.gh.local == []
    ensures SameDoc(s.peers[site1].doc, s.peers[site2].doc, peaceful)
  {
    assert OpsOf(s.peers[site1].engine.gh.local) == [] == OpsOf(s.peers[site2].engine.gh.local);
  }

  /** Where convergence ends: receiving another site's operation keeps the client's document
      equal to the server's view of it if and only if, on every character it marks, the
      pending operations leave no mark of the opposite liveness. */
  lemma ReceiveConvergesIff(start: Doc, server: Server, site: SiteId, p: Peer)
    requires ServerInv(start, server) && PeerInv(start, server, site, p, true) && p.buffer != []
    requires p.buffer[0].op.site != site
    ensures var r, theirs := RemoteOp(p.engine, p.buffer[0]), p.buffer[0].op;
            && r.Ok? && r.value.1.Some? && Fits(r.value.1.value, |p.doc.text|)
            && (UpToDate(start, server, p.(engine := r.value.0, doc := Apply(p.doc, r.value.1.value)), true)
                <==> Harmless(theirs, OpsOf(p.engine.gh.local)))
  {
    hide RemoteOp, Unacked, Harmless, ValidRun, Replay, Apply, Batch, Rebase, HistoryCopies, OwnPointers;
    BufferAdvances(server, p);
    RemoteOpRebases(p.engine, p.buffer[0]);
    var k, theirs, pending := p.engine.currentSeq, p.buffer[0].op, OpsOf(p.engine.gh.local);
    AtNext(start, server, k);
    assert Foreign(theirs, pending);
    OneAgainstList(At(start, server, k), theirs, pending);
    assert p.doc == Replay(At(start, server, k), pending);
  }

  // ---------------------------------------------------------------- peaceful runs

  predicate NoLiveMarks(ops: seq<Op>) {
    forall i :: 0 <= i < |ops| && ops[i].Mark? ==> !ops[i].live
  }

  /** No step that revives deleted text: no mark that makes text live is made, not even by
      an undo or redo. */
  predicate RevivesNothing(s: Session, e: Event)
    requires Enabled(s, e)
  {
    match e
    case Edit(_, op, _) => NoLiveMarks([op])
    case UndoRedo(site, redo, _) =>
      s.peers[site].engine.gh.PointersInRange() ==> NoLiveMarks(GenerateUndo(s.peers[site].engine.gh, redo))
    case ChangeOnDisk(fats) => NoLiveMarks(OpsOf(fats))
    case _ => true
  }

  predicate NoLiveMarksAnywhere(s: Session) {
    && NoLiveMarks(OpsOf(s.server.global))
    && forall site :: site in s.peers ==>
         && NoLiveMarks(OpsOf(s.peers[site].engine.gh.local))
         && forall i :: 0 <= i < |s.peers[site].wire| ==> NoLiveMarks(OpsOf(s.peers[site].wire[i].ops))
  }

  lemma RebasedHasNoLiveMarks(x: seq<FatOp>, between: seq<FatOp>, y: seq<FatOp>)
    requires Rebased(x, between, y) && NoLiveMarks(OpsOf(x))
    ensures NoLiveMarks(OpsOf(y))
  {
    RebaseOverKeepsMeta(OpsOf(x), OpsOf(between));
    forall i | 0 <= i < |y| && OpsOf(y)[i].Mark? ensures !OpsOf(y)[i].live {
      assert SameMeta(OpsOf(x)[i], OpsOf(y)[i]);
    }
  }

  lemma SequencedHasNoLiveMarks(server: Server, batch: ContextOps)
    requires NoLiveMarks(OpsOf(batch.ops)) && NoLiveMarks(OpsOf(server.global))
    ensures NoLiveMarks(OpsOf(server.global + Sequenced(server.global, batch, server.currentSeq)))
  {
    var fats := Sequenced(server.global, batch, server.currentSeq);
    ServerAgreesWithClient(OpsOf(OpsAfter(server.global, batch.context)), OpsOf(batch.ops));
    RebasedHasNoLiveMarks(batch.ops, OpsAfter(server.global, batch.context), fats);
    OpsOfAppend(server.global, fats);
  }

  lemma RemoteOpHasNoLiveMarks(c: Engines.Client, fat: FatOp)
    requires NoLiveMarks(OpsOf(c.gh.local)) && RemoteOp(c, fat).Ok?
    ensures NoLiveMarks(OpsOf(RemoteOp(c, fat).value.0.gh.local))
  {
    if fat.op.site == c.site {
      assert OpsOf(c.gh.local[1..]) == OpsOf(c.gh.local)[1..];
    } else {
      RemoteOpRebases(c, fat);
      RebasedHasNoLiveMarks(c.gh.local, [fat], RemoteOp(c, fat).value.0.gh.local);
    }
  }

  lemma EditHasNoLiveMarks(p: Engines.Client, ops: seq<Op>, kind: EditorOpKind, group: GroupSeq)
    requires p.gh.PointersInRange() && LocalOps(p, ops, kind, group).Ok?
    requires NoLiveMarks(OpsOf(p.gh.local)) && NoLiveMarks(ops)
    ensures NoLiveMarks(OpsOf(LocalOps(p, ops, kind, group).value.gh.local))
  {
    LocalOpsAppend(p, ops, kind, group);
  }

  lemma LocalHasNoLiveMarks(s: Session, site: SiteId, ops: seq<Op>, kind: EditorOpKind, group: GroupSeq)
    requires NoLiveMarksAnywhere(s) && site in s.peers && NoLiveMarks(ops) && Local(s, site, ops, kind, group).Next?
    ensures NoLiveMarksAnywhere(Local(s, site, ops, kind, group).session)
  {
    hide ValidRun, Replay, PushAll;
    EditHasNoLiveMarks(s.peers[site].engine, ops, kind, group);
  }

  lemma StepHasNoLiveMarks(s: Session, e: Event)
    requires NoLiveMarksAnywhere(s) && Enabled(s, e) && RevivesNothing(s, e) && Step(s, e).Next?
    ensures NoLiveMarksAnywhere(Step(s, e).session)
  {
    hide ValidRun, Replay, RebaseOver, Admit, Rebase, Apply, Sequenced, Local, NoLiveMarks;
    match e
    case Join(site) => NothingPending(site, s.server.currentSeq);
    case Edit(site, op, group) => LocalHasNoLiveMarks(s, site, [op], EditOriginal, group);
    case UndoRedo(site, redo, group) =>
      LocalHasNoLiveMarks(s, site, GenerateUndo(s.peers[site].engine.gh, redo), CommandKind(redo), group);
    case Send(site) =>
    case AdmitBatch(site) => SequencedHasNoLiveMarks(s.server, s.peers[site].wire[0]);
    case ChangeOnDisk(fats) => SequencedHasNoLiveMarks(s.server, ContextOps(s.server.currentSeq, fats));
    case Deliver(site, lo, hi) =>
    case Request(site) =>
    case Receive(site) => RemoteOpHasNoLiveMarks(s.peers[site].engine, s.peers[site].buffer[0]);
  }

  lemma NothingPending(site: SiteId, baseSeq: GlobalSeq)
    ensures NoLiveMarks(OpsOf(NewClient(site, baseSeq).gh.local))
  {}

  ghost predicate AlwaysRevivesNothing(s: Session, events: seq<Event>)
    requires Legal(s, events, false)
    decreases |events|
  {
    events == [] ||
    (RevivesNothing(s, events[0]) && (Step(s, events[0]).Next? ==> AlwaysRevivesNothing(Step(s, events[0]).session, events[1..])))
  }

  /** Runs in which deleted text is never revived are peaceful, so they converge completely. */
  lemma {:induction false} NothingRevivedIsPeaceful(start: Doc, s: Session, events: seq<Event>)
    requires Healthy(start, s, true) && NoLiveMarksAnywhere(s) && Legal(s, events, false) && AlwaysRevivesNothing(s, events)
    ensures Legal(s, events, true)
    decreases |events|
  {
    hide Step, ValidRun, Replay, RevivesNothing, NoLiveMarks, Refused;
    if events != [] {
      var e := events[0];
      QuietReceive(start, s, e, true);
      StepKeepsHealthy(start, s, e, true);
      if Step(s, e).Next? {
        StepHasNoLiveMarks(s, e);
        NothingRevivedIsPeaceful(start, Step(s, e).session, events[1..]);
      }
    }
  }

  lemma QuietReceive(start: Doc, s: Session, e: Event, peaceful: bool)
    requires Healthy(start, s, peaceful) && NoLiveMarksAnywhere(s) && Enabled(s, e)
    ensures Peaceful(s, e)
  {
    hide ValidRun, Replay, Unacked, UpToDate, Harmless;
    if e.Receive? {
      var p := s.peers[e.site];
      assert p.buffer[0] == s.server.global[p.engine.currentSeq];
      assert OpsOf(s.server.global)[p.engine.currentSeq] == p.buffer[0].op;
      AgreeingIsHarmless(p.buffer[0].op, OpsOf(p.engine.gh.local));
    }
  }

  // ---------------------------------------------------------------- stop and wait

  /** At most one batch of a client is on its way; no operation of this client is among those
      it will be rebased over, and until it is back nothing more is sent. */
  lemma OneBatchAtATime(start: Doc, s: Session, site: SiteId, peaceful: bool)
    requires Healthy(start, s, peaceful) && site in s.peers
    ensures |s.peers[site].wire| <= 1
    ensures s.peers[site].wire != [] ==>
              && NoneOf(s.server.global, site, s.peers[site].wire[0].context)
              && Package(s.peers[site].engine).1.None?
  {
    hide ValidRun, Replay, RebaseOver, Admit, Rebase, Apply;
    var p := s.peers[site];
    var a: nat, m: nat :| Unacked(start, s.server, p, a, m);
  }

  /** The server expects what the client sends next or has sent. */
  predicate InStep(s: Session, site: SiteId) {
    && site in s.peers && site in s.server.subscribers
    && var p := s.peers[site];
       if p.wire == [] then s.server.subscribers[site] == p.engine.lastSent
       else p.wire[0].ops != [] && s.server.subscribers[site] + 1 == p.wire[0].ops[0].siteSeq
  }

  lemma SendKeepsInStep(start: Doc, s: Session, site: SiteId)
    requires Healthy(start, s, false) && InStep(s, site)
    ensures InStep(Sending(s, site), site)
  {
    hide Healthy;
    OneBatchAtATime(start, s, site, false);
  }

  lemma AdmitKeepsInStep(start: Doc, s: Session, site: SiteId)
    requires Healthy(start, s, false) && Enabled(s, AdmitBatch(site)) && Step(s, AdmitBatch(site)).Next?
    ensures site in Step(s, AdmitBatch(site)).session.peers ==> InStep(Step(s, AdmitBatch(site)).session, site)
  {
    hide ValidRun, Replay, HistoryCopies, OwnPointers, UpToDate, Unacked, Sequenced, Rebased, NoneOf;
    var a, m := BatchInFlight(start, s.server, site, s.peers[site], false);
  }

  lemma JoinIsInStep(s: Session, site: SiteId)
    requires Enabled(s, Join(site))
    ensures InStep(Step(s, Join(site)).session, site)
  {}

  /** Only a request of the client itself puts it out of step. */
  lemma StepKeepsInStep(start: Doc, s: Session, e: Event, site: SiteId)
    requires Healthy(start, s, false) && Enabled(s, e) && e != Request(site) && Step(s, e).Next?
    requires InStep(s, site) || e == Join(site)
    ensures site in Step(s, e).session.peers ==> InStep(Step(s, e).session, site)
  {
    hide Healthy;
    if e == Send(site) {
      SendKeepsInStep(start, s, site);
    } else if e == AdmitBatch(site) {
      AdmitKeepsInStep(start, s, site);
    } else if e == Join(site) {
      JoinIsInStep(s, site);
    } else {
      hide Step;
      SentUnchanged(s, e, site);
    }
  }

  /** Other steps leave alone what the client has sent and what the server expects of it. */
  lemma SentUnchanged(s: Session, e: Event, site: SiteId)
    requires Enabled(s, e) && Step(s, e).Next? && e != Send(site) && e != AdmitBatch(site) && e != Request(site)
    requires site in s.peers && site in s.server.subscribers && e != Join(site)
    ensures var t := Step(s, e).session;
            && site in t.peers && site in t.server.subscribers && t.server.subscribers[site] == s.server.subscribers[site]
            && t.peers[site].wire == s.peers[site].wire && t.peers[site].engine.lastSent == s.peers[site].engine.lastSent
  {
    hide ValidRun, Replay, Sequenced, PushAll, GenerateUndo, OwnPointers, Buffer, Batch, Rebase, Apply, Fits, Package;
  }

  lemma InStepIsAccepted(start: Doc, s: Session, site: SiteId)
    requires Healthy(start, s, false) && InStep(s, site) && Enabled(s, AdmitBatch(site))
    ensures !Refused(s, AdmitBatch(site)) && SiteSeqExpected(s.server.subscribers, site, s.peers[site].wire[0])
  {}

  ghost predicate AllInStep(s: Session) { forall site :: site in s.peers ==> InStep(s, site) }

  /** So in a run without requests nobody is lost. */
  lemma {:induction false} NoRequestNobodyLost(start: Doc, s: Session, events: seq<Event>)
    requires Healthy(start, s, false) && AllInStep(s) && Legal(s, events, false)
    requires forall i :: 0 <= i < |events| ==> !events[i].Request?
    ensures Run(s, events, false).Next? && s.peers.Keys <= Run(s, events, false).session.peers.Keys
    decreases |events|
  {
    hide Step, Healthy, InStep, Refused;
    if events != [] {
      var e := events[0];
      StepKeepsHealthy(start, s, e, false);
      if e.AdmitBatch? { InStepIsAccepted(start, s, e.site); }
      var t := Step(s, e).session;
      forall site | site in s.peers ensures site in t.peers { DropsIff(start, s, e, site); }
      forall site | site in t.peers ensures InStep(t, site) {
        PeersComeByJoining(s, e, site);
        StepKeepsInStep(start, s, e, site);
      }
      NoRequestNobodyLost(start, t, events[1..]);
    }
  }

  /** No delivery begins after the operation that the client needs next. */
  ghost predicate Gapless(s: Session, events: seq<Event>)
    requires Legal(s, events, false)
    decreases |events|
  {
    events != [] ==>
      && (events[0].Deliver? ==>
            var p := s.peers[events[0].site];
            events[0].lo == events[0].hi || events[0].lo <= p.engine.currentSeq + |p.buffer|)
      && (Step(s, events[0]).Next? ==> Gapless(Step(s, events[0]).session, events[1..]))
  }

  /** Only a delivery that leaves a gap makes a client ask. */
  lemma AsksIff(start: Doc, s: Session, e: Event)
    requires Healthy(start, s, false) && Enabled(s, e) && Step(s, e).Next?
    ensures var t := Step(s, e).session;
            match e
            case Deliver(site, lo, hi) =>
              var reached := s.peers[site].engine.currentSeq + |s.peers[site].buffer|;
              t.asking == s.asking + if lo < hi && reached < lo then {site} else {}
            case _ => t.asking == s.asking
  {
    hide ValidRun, Replay, Sequenced, PushAll, GenerateUndo, RemoteOp, Package, PeerInv, Asks, Buffer;
    if e.Deliver? {
      var p := s.peers[e.site];
      DeliveryAsksIff(s.server.global, p.engine.currentSeq, p.buffer, e.lo, e.hi);
    }
  }

  lemma {:induction false} GaplessIsUnasked(start: Doc, s: Session, events: seq<Event>)
    requires Healthy(start, s, false) && Legal(s, events, false) && Gapless(s, events) && s.asking == {}
    ensures forall i :: 0 <= i < |events| ==> !events[i].Request?
    decreases |events|
  {
    hide Step, Healthy;
    if events != [] {
      var e := events[0];
      StepKeepsHealthy(start, s, e, false);
      AsksIff(start, s, e);
      GaplessIsUnasked(start, Step(s, e).session, events[1..]);
      assert forall i :: 0 < i < |events| ==> events[i] == events[1..][i - 1];
    }
  }

  /** A run whose deliveries only repeat or continue what the clients have makes nobody ask,
      so it loses nobody. */
  lemma GaplessRunsLoseNobody(start: Doc, s: Session, events: seq<Event>)
    requires Healthy(start, s, false) && AllInStep(s) && Legal(s, events, false) && Gapless(s, events) && s.asking == {}
    ensures Run(s, events, false).Next? && s.peers.Keys <= Run(s, events, false).session.peers.Keys
  {
    hide Healthy, Run, Legal, Gapless;
    GaplessIsUnasked(start, s, events);
    NoRequestNobodyLost(start, s, events);
  }

  lemma PeersComeByJoining(s: Session, e: Event, site: SiteId)
    requires Enabled(s, e) && Step(s, e).Next? && site in Step(s, e).session.peers
    ensures site in s.peers || e == Join(site)
  {
    hide ValidRun, Replay, Sequenced, PushAll, GenerateUndo, RemoteOp, Package, Buffer;
  }

  /** After a request the batch on the wire is refused unless it begins with number 1, and if
      none is on the wire the next one unless the client has never sent anything. */
  lemma AfterRequest(s: Session, site: SiteId)
    requires InStep(s, site)
    ensures s.peers[site].wire != [] ==>
              (Refused(Requesting(s, site), AdmitBatch(site)) <==> s.peers[site].wire[0].ops[0].siteSeq != 1)
    ensures s.peers[site].wire == [] && Package(s.peers[site].engine).1.Some? ==>
              (Refused(Sending(Requesting(s, site), site), AdmitBatch(site)) <==> s.peers[site].engine.lastSent != 0)
  {}

  /** Whatever got lost before: one answered request, from any position that the client
      had reached, brings everything the server has. */
  lemma {:induction false} RequestFillsGap(global: seq<FatOp>, k: nat, buffer: seq<FatOp>, after: nat)
    requires Numbering(global) && k + |buffer| <= |global| && buffer == global[k..k + |buffer|]
    requires after <= k + |buffer|
    ensures Buffer(k, buffer, global[after..]) == global[k..]
    decreases |global| - after
  {
    if after < |global| {
      assert global[after..][0] == global[after] && global[after..][1..] == global[after + 1..];
      if after == k + |buffer| {
        var more := buffer + [global[after]];
        assert more == global[k..k + |more|];
        RequestFillsGap(global, k, more, after + 1);
      } else {
        RequestFillsGap(global, k, buffer, after + 1);
      }
    } else {
      assert global[k..k + |buffer|] == global[k..];
    }
  }

  // ---------------------------------------------------------------- sending again

  predicate IsPending(local: seq<FatOp>, n: LocalSeq) {
    exists i :: 0 <= i < |local| && local[i].siteSeq == n
  }

  /** The client waits for an operation under a number for which there is none. */
  predicate Stuck(c: Engines.Client) {
    c.lastSent < c.currentSiteSeq && !IsPending(c.gh.local, c.lastSent + 1)
  }

  /** With everything sent acknowledged, a client sends if and only if an operation with the
      next number is pending. */
  lemma PendingOpsGoOutIff(start: Doc, s: Session, site: SiteId)
    requires Healthy(start, s, false) && site in s.peers
    requires s.peers[site].wire == [] && NoneOf(s.server.global, site, s.peers[site].engine.currentSeq)
    ensures Package(s.peers[site].engine).1.Some? <==> IsPending(s.peers[site].engine.gh.local, s.peers[site].engine.lastSent + 1)
    ensures !Stuck(s.peers[site].engine) && s.peers[site].engine.gh.local != [] ==> Package(s.peers[site].engine).1.Some?
  {
    hide ValidRun, Replay, HistoryCopies, OwnPointers, UpToDate;
    var p := s.peers[site];
    var a: nat, m: nat :| Unacked(start, s.server, p, a, m);
    var local := p.engine.gh.local;
    if local != [] {
      assert a < |s.server.global| && p.engine.currentSeq <= a ==> s.server.global[a].op.site != site;
      assert m == 0 && p.engine.lastSent < local[0].siteSeq;
      if IsPending(local, p.engine.lastSent + 1) {
        var i :| 0 <= i < |local| && local[i].siteSeq == p.engine.lastSent + 1;
        assert local[0].siteSeq <= local[i].siteSeq;
      }
    }
  }

  lemma AckedIsPending(c: Engines.Client)
    ensures PrevOpAcked(c) ==> IsPending(c.gh.local, c.lastSent + 1)
  {
    if PrevOpAcked(c) { assert c.gh.local[0].siteSeq == c.lastSent + 1; }
  }

  /** A command adds the next number if it yields an operation, and no other. */
  lemma CommandNumbers(c: Engines.Client, d: Engines.Client, ops: seq<Op>, n: LocalSeq)
    requires Appended(c, d, ops)
    ensures IsPending(d.gh.local, n) <==> IsPending(c.gh.local, n) || (ops != [] && n == d.currentSiteSeq)
  {
    assert forall i :: 0 <= i < |c.gh.local| ==> d.gh.local[..|c.gh.local|][i] == c.gh.local[i];
    if IsPending(c.gh.local, n) {
      var i :| 0 <= i < |c.gh.local| && c.gh.local[i].siteSeq == n;
      assert d.gh.local[i].siteSeq == n;
    }
    if ops != [] { assert d.gh.local[|c.gh.local|].siteSeq == d.currentSiteSeq; }
  }

  /** A stuck client never sends again, whatever its editor does and whatever arrives. */
  lemma StuckForever(c: Engines.Client, ops: seq<Op>, kind: EditorOpKind, group: GroupSeq, fat: FatOp)
    requires c.gh.PointersInRange() && Stuck(c)
    ensures Package(c) == (c, None)
    ensures LocalOps(c, ops, kind, group).Ok? ==> Stuck(LocalOps(c, ops, kind, group).value)
    ensures RemoteOp(c, fat).Ok? ==> Stuck(RemoteOp(c, fat).value.0)
  {
    hide PushAll, Batch, Rebase;
    AckedIsPending(c);
    if LocalOps(c, ops, kind, group).Ok? {
      LocalOpsAppend(c, ops, kind, group);
      CommandNumbers(c, LocalOps(c, ops, kind, group).value, ops, c.lastSent + 1);
    }
    if RemoteOp(c, fat).Ok? { RemoteKeepsNumbers(c, fat, c.lastSent + 1); }
  }

  /** What arrives leaves the numbers as they are, but for the first one if it is own. */
  lemma RemoteNumbers(c: Engines.Client, fat: FatOp)
    requires RemoteOp(c, fat).Ok?
    ensures var c', shift := RemoteOp(c, fat).value.0, if fat.op.site == c.site then 1 else 0;
            && c'.lastSent == c.lastSent && c'.currentSiteSeq == c.currentSiteSeq
            && |c'.gh.local| + shift == |c.gh.local|
            && forall i :: 0 <= i < |c'.gh.local| ==> c'.gh.local[i].siteSeq == c.gh.local[i + shift].siteSeq
  {
    hide Batch, Rebase, WithOps, BumpDeltas, BumpDelta, BumpQueue, OpsOf;
    var c' := RemoteOp(c, fat).value.0;
    if fat.op.site == c.site {
      assert c'.gh.local == c.gh.local[1..];
    } else {
      var local := WithOps(c.gh.local, Rebase(OpsOf(c.gh.local), fat.op));
      assert c'.gh.local == BumpDeltas(local);
      forall i | 0 <= i < |local| ensures c'.gh.local[i].siteSeq == c.gh.local[i].siteSeq { BumpKeepsNumber(local[i], i); }
    }
  }

  lemma BumpKeepsNumber(fat: FatOp, offset: nat)
    ensures BumpDelta(fat, offset).siteSeq == fat.siteSeq
  {}

  lemma RemoteKeepsNumbers(c: Engines.Client, fat: FatOp, n: LocalSeq)
    requires RemoteOp(c, fat).Ok?
    ensures var c' := RemoteOp(c, fat).value.0;
            && c'.lastSent == c.lastSent && c'.currentSiteSeq == c.currentSiteSeq
            && (IsPending(c'.gh.local, n) ==> IsPending(c.gh.local, n))
            && (IsPending(c.gh.local, n) && (fat.op.site == c.site ==> c.gh.local != [] && c.gh.local[0].siteSeq != n)
                ==> IsPending(c'.gh.local, n))
  {
    hide RemoteOp;
    RemoteNumbers(c, fat);
    var c' := RemoteOp(c, fat).value.0;
    var shift := if fat.op.site == c.site then 1 else 0;
    if IsPending(c.gh.local, n) {
      var i :| 0 <= i < |c.gh.local| && c.gh.local[i].siteSeq == n;
      if i >= shift { assert c'.gh.local[i - shift].siteSeq == n; }
    }
  }

  /** A command gets a client stuck exactly if it yields no operation when everything before
      it has been sent. */
  lemma CommandSticksIff(c: Engines.Client, ops: seq<Op>, kind: EditorOpKind, group: GroupSeq)
    requires c.gh.PointersInRange() && c.lastSent <= c.currentSiteSeq && LocalOps(c, ops, kind, group).Ok?
    requires forall i :: 0 <= i < |c.gh.local| ==> c.gh.local[i].siteSeq <= c.currentSiteSeq
    ensures Stuck(LocalOps(c, ops, kind, group).value) <==> Stuck(c) || (ops == [] && c.lastSent == c.currentSiteSeq)
  {
    hide PushAll;
    LocalOpsAppend(c, ops, kind, group);
    CommandNumbers(c, LocalOps(c, ops, kind, group).value, ops, c.lastSent + 1);
  }

  /** Sending gets a client stuck exactly if its last command yielded no operation. */
  lemma SendSticksIff(c: Engines.Client)
    requires PrevOpAcked(c) && forall i, j :: 0 <= i < j < |c.gh.local| ==> c.gh.local[i].siteSeq <= c.gh.local[j].siteSeq
    ensures Stuck(Package(c).0) <==> c.gh.local[|c.gh.local| - 1].siteSeq < c.currentSiteSeq
  {
    var local := c.gh.local;
    assert forall i :: 0 <= i < |local| ==> local[i].siteSeq <= local[|local| - 1].siteSeq;
  }

  /** The operations of a command. */
  function CommandOps(s: Session, e: Event): seq<Op>
    requires Enabled(s, e)
  {
    match e
    case Edit(_, op, _) => [op]
    case UndoRedo(site, redo, _) =>
      if s.peers[site].engine.gh.PointersInRange() then GenerateUndo(s.peers[site].engine.gh, redo) else []
    case _ => []
  }

  /** What a step makes of the engine of one client. */
  lemma EngineAfter(s: Session, e: Event, site: SiteId)
    requires Enabled(s, e) && Step(s, e).Next? && site in s.peers && e != Join(site)
    requires site in Step(s, e).session.peers
    ensures var c, d := s.peers[site].engine, Step(s, e).session.peers[site].engine;
            if (e.Edit? || e.UndoRedo?) && e.site == site then
              var kind := if e.Edit? then EditOriginal else CommandKind(e.redo);
              c.gh.PointersInRange() && LocalOps(c, CommandOps(s, e), kind, e.groupSeq) == Ok(d)
            else if e == Send(site) then d == Package(c).0
            else if e == Receive(site) then
              s.peers[site].buffer != [] && RemoteOp(c, s.peers[site].buffer[0]).Ok? && d == RemoteOp(c, s.peers[site].buffer[0]).value.0
            else d == c
  {
    hide ValidRun, Replay, Sequenced, LocalOps, GenerateUndo, RemoteOp, Package, OwnPointers, Buffer, Fits, Apply, ValidOn;
  }

  /** Exactly these steps get a client stuck: a command of its own that yields no operation
      when everything before it has been sent, and sending when its last command yielded none. */
  lemma StepSticksIff(start: Doc, s: Session, e: Event, site: SiteId)
    requires Healthy(start, s, false) && Enabled(s, e) && Step(s, e).Next? && site in s.peers && e != Join(site)
    requires site in Step(s, e).session.peers
    ensures var c, t := s.peers[site].engine, Step(s, e).session;
            (Stuck(t.peers[site].engine) <==>
              || Stuck(c)
              || ((e.Edit? || e.UndoRedo?) && e.site == site && CommandOps(s, e) == [] && c.lastSent == c.currentSiteSeq)
              || (e == Send(site) && PrevOpAcked(c) && c.gh.local[|c.gh.local| - 1].siteSeq < c.currentSiteSeq))
  {
    hide Step, Healthy, LocalOps, RemoteOp, Stuck, CommandOps, Enabled;
    var c := s.peers[site].engine;
    EngineAfter(s, e, site);
    NumbersInOrder(start, s, site);
    if (e.Edit? || e.UndoRedo?) && e.site == site {
      CommandSticksIff(c, CommandOps(s, e), if e.Edit? then EditOriginal else CommandKind(e.redo), e.groupSeq);
    } else if e == Send(site) {
      if PrevOpAcked(c) {
        SendSticksIff(c);
        NextIsPending(c);
      }
    } else if e == Receive(site) {
      ReceiveSticksNobody(start, s, site);
    }
  }

  lemma NumbersInOrder(start: Doc, s: Session, site: SiteId)
    requires Healthy(start, s, false) && site in s.peers
    ensures PendingInOrder(s.peers[site])
  {
    hide ValidRun, Replay, UpToDate, HistoryCopies, OwnPointers, Unacked, ServerInv;
  }

  lemma NextIsPending(c: Engines.Client)
    requires PrevOpAcked(c)
    ensures !Stuck(c)
  {
    AckedIsPending(c);
  }

  /** What a client receives of its own is its first pending operation, sent before. */
  lemma AckIsSent(start: Doc, s: Session, site: SiteId)
    requires Healthy(start, s, false) && site in s.peers && s.peers[site].buffer != [] && s.peers[site].buffer[0].op.site == site
    ensures var c := s.peers[site].engine; c.gh.local != [] && c.gh.local[0].siteSeq <= c.lastSent
  {
    hide ValidRun, Replay, HistoryCopies, OwnPointers, UpToDate, InFlight, Admitted;
    var p := s.peers[site];
    var a: nat, m: nat :| Unacked(start, s.server, p, a, m);
    AckAgrees(start, s.server, site, p, a, m);
  }

  lemma RemoteSticksNobody(c: Engines.Client, fat: FatOp)
    requires RemoteOp(c, fat).Ok? && (fat.op.site == c.site ==> c.gh.local != [] && c.gh.local[0].siteSeq <= c.lastSent)
    ensures Stuck(RemoteOp(c, fat).value.0) <==> Stuck(c)
  {
    hide RemoteOp, IsPending;
    RemoteKeepsNumbers(c, fat, c.lastSent + 1);
  }

  lemma ReceiveSticksNobody(start: Doc, s: Session, site: SiteId)
    requires Healthy(start, s, false) && site in s.peers && s.peers[site].buffer != []
    requires RemoteOp(s.peers[site].engine, s.peers[site].buffer[0]).Ok?
    ensures var p := s.peers[site]; Stuck(RemoteOp(p.engine, p.buffer[0]).value.0) <==> Stuck(p.engine)
  {
    hide Healthy, RemoteOp, Stuck;
    var p := s.peers[site];
    OwnSite(start, s, site);
    if p.buffer[0].op.site == site { AckIsSent(start, s, site); }
    RemoteSticksNobody(p.engine, p.buffer[0]);
  }

  /** While every command yields an operation nobody gets stuck. */
  predicate NoneMissing(c: Engines.Client) {
    if c.gh.local == [] then c.lastSent == c.currentSiteSeq else c.gh.local[|c.gh.local| - 1].siteSeq == c.currentSiteSeq
  }

  lemma JoinerMissesNone(s: Session, site: SiteId)
    requires Enabled(s, Join(site))
    ensures NoneMissing(Step(s, Join(site)).session.peers[site].engine)
  {}

  lemma RemoteMissesNone(p: Peer, fat: FatOp)
    requires PendingInOrder(p) && NoneMissing(p.engine) && RemoteOp(p.engine, fat).Ok?
    requires fat.op.site == p.engine.site ==> p.engine.gh.local != [] && p.engine.gh.local[0].siteSeq <= p.engine.lastSent
    ensures NoneMissing(RemoteOp(p.engine, fat).value.0)
  {
    hide RemoteOp;
    RemoteNumbers(p.engine, fat);
  }

  lemma ReceiveMissesNone(start: Doc, s: Session, site: SiteId)
    requires Healthy(start, s, false) && site in s.peers && s.peers[site].buffer != [] && NoneMissing(s.peers[site].engine)
    requires RemoteOp(s.peers[site].engine, s.peers[site].buffer[0]).Ok?
    ensures NoneMissing(RemoteOp(s.peers[site].engine, s.peers[site].buffer[0]).value.0)
  {
    hide Healthy, RemoteOp, NoneMissing, PendingInOrder;
    var p := s.peers[site];
    OwnSite(start, s, site);
    NumbersInOrder(start, s, site);
    if p.buffer[0].op.site == site { AckIsSent(start, s, site); }
    RemoteMissesNone(p, p.buffer[0]);
  }

  lemma CommandMissesNone(c: Engines.Client, ops: seq<Op>, kind: EditorOpKind, group: GroupSeq)
    requires c.gh.PointersInRange() && LocalOps(c, ops, kind, group).Ok? && ops != []
    ensures NoneMissing(LocalOps(c, ops, kind, group).value)
  {
    hide LocalOps;
    LocalOpsAppend(c, ops, kind, group);
  }

  lemma SendMissesNone(c: Engines.Client)
    requires NoneMissing(c)
    ensures NoneMissing(Package(c).0)
  {}

  /** While every command of its editor yields an operation, a client does not get stuck. */
  lemma StepMissesNone(start: Doc, s: Session, e: Event, site: SiteId)
    requires Healthy(start, s, false) && Enabled(s, e) && Step(s, e).Next? && site in Step(s, e).session.peers
    requires (site in s.peers && NoneMissing(s.peers[site].engine)) || e == Join(site)
    requires (e.Edit? || e.UndoRedo?) && e.site == site ==> CommandOps(s, e) != []
    ensures NoneMissing(Step(s, e).session.peers[site].engine)
    ensures site in s.peers && e != Join(site) && !Stuck(s.peers[site].engine) ==> !Stuck(Step(s, e).session.peers[site].engine)
  {
    if e == Join(site) {
      JoinerMissesNone(s, site);
    } else {
      hide Step, Healthy, LocalOps, RemoteOp, Stuck, CommandOps, Enabled, NoneMissing, Package;
      var c := s.peers[site].engine;
      EngineAfter(s, e, site);
      StepSticksIff(start, s, e, site);
      if (e.Edit? || e.UndoRedo?) && e.site == site {
        CommandMissesNone(c, CommandOps(s, e), if e.Edit? then EditOriginal else CommandKind(e.redo), e.groupSeq);
      } else if e == Send(site) {
        LastIsNext(c);
        SendMissesNone(c);
      } else if e == Receive(site) {
        ReceiveMissesNone(start, s, site);
      }
    }
  }

  lemma LastIsNext(c: Engines.Client)
    requires NoneMissing(c)
    ensures PrevOpAcked(c) ==> c.gh.local[|c.gh.local| - 1].siteSeq == c.currentSiteSeq
  {}
}
