/** A run in which two clients insert at one place at once. Whichever insertion is sequenced
    first, everybody ends with that of the smaller site in front. */
module Together {
  import opened Ops
  import opened Documents
  import opened Transformation
  import opened Convergence
  import opened Engines
  import opened Sessions
  import opened SessionInvariants
  import opened SessionTheorems
  import opened SessionExamples

  /** Two sites that insert at one position: the insertion of `f` is sequenced first, that
      of `g` second. */
  datatype Pair = Pair(start: Doc, f: SiteId, textF: string, g: SiteId, textG: string, pos: nat)

  predicate Ok(x: Pair) {
    && Coherent(x.start) && x.pos <= |x.start.text| && x.textF != "" && x.textG != ""
    && x.f != x.g && x.f != EXTERNAL_SITE && x.g != EXTERNAL_SITE
  }

  function OpF(x: Pair): Op { Ins(Seg(x.pos, x.textF), x.f) }
  function OpG(x: Pair): Op { Ins(Seg(x.pos, x.textG), x.g) }
  function Typing(op: Op): FatOp { FatOp(None, op, 1, Original, 0) }

  /** The second insertion as the server sequences it. */
  function G2(x: Pair): FatOp { Typing(Transform(OpG(x), OpF(x))).(seqNo := Some(2)) }
  function F1(x: Pair): FatOp { Typing(OpF(x)).(seqNo := Some(1)) }

  function Opened(x: Pair): Server { Server([], 0, x.start, map[x.f := 0, x.g := 0]) }
  function AfterF(x: Pair): Server
    requires Ok(x)
  { Server([F1(x)], 1, Apply(x.start, OpF(x)), map[x.f := 1, x.g := 0]) }
  function AfterG(x: Pair): Server
    requires Ok(x)
  { Server([F1(x), G2(x)], 2, ViaFirst(x.start, OpF(x), OpG(x)), map[x.f := 1, x.g := 1]) }

  function Both(x: Pair, server: Server, pf: Peer, pg: Peer): Session { Session(server, map[x.f := pf, x.g := pg], {}) }

  lemma OneOfBoth(x: Pair, server: Server, pf: Peer, pg: Peer, q: Peer)
    requires Ok(x)
    ensures Both(x, server, pf, pg).peers[x.f := q] == Both(x, server, q, pg).peers
    ensures Both(x, server, pf, pg).peers[x.g := q] == Both(x, server, pf, q).peers
  {}

  function Fresh(x: Pair, site: SiteId): Peer { Peer(NewClient(site, 0), x.start, [], []) }

  function Typed(x: Pair, op: Op, sent: LocalSeq, buffer: seq<FatOp>, wire: seq<ContextOps>): Peer
    requires Ok(x) && (op == OpF(x) || op == OpG(x))
  {
    Peer(Client(History([], [Typing(op)], [1], None), op.site, 0, 1, sent), Apply(x.start, op), buffer, wire)
  }

  function AckedF(x: Pair, buffer: seq<FatOp>): Peer
    requires Ok(x)
  {
    Peer(Client(History([F1(x)], [], [1], None), x.f, 1, 1, 1), Apply(x.start, OpF(x)), buffer, [])
  }

  function DoneF(x: Pair): Peer
    requires Ok(x)
  {
    Peer(Client(History([F1(x), G2(x)], [], [1], None), x.f, 2, 1, 1), ViaFirst(x.start, OpF(x), OpG(x)), [], [])
  }

  function ReceivedG(x: Pair, buffer: seq<FatOp>): Peer
    requires Ok(x)
  {
    Peer(Client(History([F1(x).(op := Transform(OpF(x), OpG(x)))], [G2(x).(seqNo := None)], [2], None), x.g, 1, 1, 1),
         ViaFirst(x.start, OpG(x), OpF(x)), buffer, [])
  }

  function DoneG(x: Pair): Peer
    requires Ok(x)
  {
    Peer(Client(History([F1(x).(op := Transform(OpF(x), OpG(x))), G2(x)], [], [2], None), x.g, 2, 1, 1),
         ViaFirst(x.start, OpG(x), OpF(x)), [], [])
  }

  lemma BothFit(x: Pair)
    requires Ok(x)
    ensures ValidOn(OpF(x), x.start.text) && ValidOn(OpG(x), x.start.text)
    ensures G2(x).op.site == x.g
    ensures var d := Apply(x.start, OpF(x)); ValidOn(G2(x).op, d.text) && Apply(d, G2(x).op) == ViaFirst(x.start, OpF(x), OpG(x))
    ensures var d, op := Apply(x.start, OpG(x)), Transform(OpF(x), OpG(x));
            Fits(op, |d.text|) && Apply(d, op) == ViaFirst(x.start, OpG(x), OpF(x))
  {}

  lemma BothOpen(x: Pair) returns (events: seq<Event>)
    requires Ok(x)
    ensures PlainRun(x.start, events, Both(x, Opened(x), Fresh(x, x.f), Fresh(x, x.g)))
  {
    hide PlainRun, Step;
    var s0 := Opening(x.start);
    NoEvents(x.start);
    JoinResult(s0, x.f);
    var s1 := Session(Server([], 0, x.start, map[x.f := 0]), map[x.f := Fresh(x, x.f)], {});
    assert map[][x.f := 0] == map[x.f := 0] && map[][x.f := Fresh(x, x.f)] == map[x.f := Fresh(x, x.f)];
    PlainQuiet(x.start, [], s0, Join(x.f), s1);
    JoinResult(s1, x.g);
    assert map[x.f := 0][x.g := 0] == map[x.f := 0, x.g := 0];
    assert map[x.f := Fresh(x, x.f)][x.g := Fresh(x, x.g)] == map[x.f := Fresh(x, x.f), x.g := Fresh(x, x.g)];
    events := [] + [Join(x.f)] + [Join(x.g)];
    PlainQuiet(x.start, [] + [Join(x.f)], s1, Join(x.g), Both(x, Opened(x), Fresh(x, x.f), Fresh(x, x.g)));
  }

  /** Both type before either hears of the other. */
  lemma BothType(x: Pair, before: seq<Event>) returns (events: seq<Event>)
    requires Ok(x) && PlainRun(x.start, before, Both(x, Opened(x), Fresh(x, x.f), Fresh(x, x.g)))
    ensures PlainRun(x.start, events, Both(x, Opened(x), Typed(x, OpF(x), 0, [], []), Typed(x, OpG(x), 0, [], [])))
    ensures Edit(x.f, OpF(x), 0) in events && Edit(x.g, OpG(x), 0) in events
  {
    hide PlainRun, Step, Apply;
    BothFit(x);
    var s0 := Both(x, Opened(x), Fresh(x, x.f), Fresh(x, x.g));
    var s1 := Both(x, Opened(x), Typed(x, OpF(x), 0, [], []), Fresh(x, x.g));
    var s2 := Both(x, Opened(x), Typed(x, OpF(x), 0, [], []), Typed(x, OpG(x), 0, [], []));
    assert forall op :: [] + [Typing(op)] == [Typing(op)];
    assert [] + [1] == [1];
    OneOfBoth(x, Opened(x), Fresh(x, x.f), Fresh(x, x.g), Typed(x, OpF(x), 0, [], []));
    OneOfBoth(x, Opened(x), Typed(x, OpF(x), 0, [], []), Fresh(x, x.g), Typed(x, OpG(x), 0, [], []));
    EditResult(s0, x.f, OpF(x));
    PlainEdit(x.start, before, s0, x.f, OpF(x), 0, s1);
    EditResult(s1, x.g, OpG(x));
    events := before + [Edit(x.f, OpF(x), 0)] + [Edit(x.g, OpG(x), 0)];
    PlainEdit(x.start, before + [Edit(x.f, OpF(x), 0)], s1, x.g, OpG(x), 0, s2);
  }

  lemma BothSend(x: Pair, before: seq<Event>) returns (events: seq<Event>)
    requires Ok(x) && PlainRun(x.start, before, Both(x, Opened(x), Typed(x, OpF(x), 0, [], []), Typed(x, OpG(x), 0, [], [])))
    ensures PlainRun(x.start, events, Both(x, Opened(x), Typed(x, OpF(x), 1, [], [ContextOps(0, [Typing(OpF(x))])]),
                                                         Typed(x, OpG(x), 1, [], [ContextOps(0, [Typing(OpG(x))])])))
    ensures forall e :: e in before ==> e in events
  {
    hide PlainRun, Step, Apply;
    var wf, wg := [ContextOps(0, [Typing(OpF(x))])], [ContextOps(0, [Typing(OpG(x))])];
    var s0 := Both(x, Opened(x), Typed(x, OpF(x), 0, [], []), Typed(x, OpG(x), 0, [], []));
    var s1 := Both(x, Opened(x), Typed(x, OpF(x), 1, [], wf), Typed(x, OpG(x), 0, [], []));
    var s2 := Both(x, Opened(x), Typed(x, OpF(x), 1, [], wf), Typed(x, OpG(x), 1, [], wg));
    OneOfBoth(x, Opened(x), Typed(x, OpF(x), 0, [], []), Typed(x, OpG(x), 0, [], []), Typed(x, OpF(x), 1, [], wf));
    OneOfBoth(x, Opened(x), Typed(x, OpF(x), 1, [], wf), Typed(x, OpG(x), 0, [], []), Typed(x, OpG(x), 1, [], wg));
    SendResult(s0, x.f, Typing(OpF(x)));
    PlainQuiet(x.start, before, s0, Send(x.f), s1);
    SendResult(s1, x.g, Typing(OpG(x)));
    events := before + [Send(x.f)] + [Send(x.g)];
    PlainQuiet(x.start, before + [Send(x.f)], s1, Send(x.g), s2);
  }

  lemma BothSequenced(x: Pair, before: seq<Event>) returns (events: seq<Event>)
    requires Ok(x) && PlainRun(x.start, before, Both(x, Opened(x), Typed(x, OpF(x), 1, [], [ContextOps(0, [Typing(OpF(x))])]),
                                                                   Typed(x, OpG(x), 1, [], [ContextOps(0, [Typing(OpG(x))])])))
    ensures PlainRun(x.start, events, Both(x, AfterG(x), Typed(x, OpF(x), 1, [], []), Typed(x, OpG(x), 1, [], [])))
    ensures forall e :: e in before ==> e in events
  {
    hide PlainRun, Step, Apply, Transform;
    BothFit(x);
    var wf, wg := [ContextOps(0, [Typing(OpF(x))])], [ContextOps(0, [Typing(OpG(x))])];
    var s0 := Both(x, Opened(x), Typed(x, OpF(x), 1, [], wf), Typed(x, OpG(x), 1, [], wg));
    var s1 := Both(x, AfterF(x), Typed(x, OpF(x), 1, [], []), Typed(x, OpG(x), 1, [], wg));
    var s2 := Both(x, AfterG(x), Typed(x, OpF(x), 1, [], []), Typed(x, OpG(x), 1, [], []));
    OneOfBoth(x, Opened(x), Typed(x, OpF(x), 1, [], wf), Typed(x, OpG(x), 1, [], wg), Typed(x, OpF(x), 1, [], []));
    OneOfBoth(x, AfterF(x), Typed(x, OpF(x), 1, [], []), Typed(x, OpG(x), 1, [], wg), Typed(x, OpG(x), 1, [], []));
    assert OpsOf(OpsAfter([], 0)) == [] && Batch(OpF(x), []) == OpF(x);
    assert [] + [F1(x)] == [F1(x)] && map[x.f := 0, x.g := 0][x.f := 1] == map[x.f := 1, x.g := 0];
    AdmitResult(s0, x.f, 0, Typing(OpF(x)), []);
    PlainQuiet(x.start, before, s0, AdmitBatch(x.f), s1);
    assert OpsOf(OpsAfter([F1(x)], 0)) == [OpF(x)] && Batch(OpG(x), [OpF(x)]) == Batch(G2(x).op, []) == G2(x).op;
    assert [F1(x)] + [G2(x)] == [F1(x), G2(x)] && map[x.f := 1, x.g := 0][x.g := 1] == map[x.f := 1, x.g := 1];
    AdmitResult(s1, x.g, 0, Typing(OpG(x)), [OpF(x)]);
    events := before + [AdmitBatch(x.f)] + [AdmitBatch(x.g)];
    PlainQuiet(x.start, before + [AdmitBatch(x.f)], s1, AdmitBatch(x.g), s2);
  }

  /** The client whose insertion came first: its own, then the other one. */
  lemma FirstCatchesUp(x: Pair, pg: Peer, before: seq<Event>) returns (events: seq<Event>)
    requires Ok(x) && PlainRun(x.start, before, Both(x, AfterG(x), Typed(x, OpF(x), 1, [], []), pg))
    ensures PlainRun(x.start, events, Both(x, AfterG(x), DoneF(x), pg))
    ensures forall e :: e in before ==> e in events
  {
    hide PlainRun, Step, Apply, Transform, Reaches;
    BothFit(x);
    var s0 := Both(x, AfterG(x), Typed(x, OpF(x), 1, [], []), pg);
    var s1 := Both(x, AfterG(x), Typed(x, OpF(x), 1, [F1(x)], []), pg);
    var s2 := Both(x, AfterG(x), AckedF(x, []), pg);
    var s3 := Both(x, AfterG(x), AckedF(x, [G2(x)]), pg);
    OneOfBoth(x, AfterG(x), Typed(x, OpF(x), 1, [], []), pg, Typed(x, OpF(x), 1, [F1(x)], []));
    OneOfBoth(x, AfterG(x), Typed(x, OpF(x), 1, [F1(x)], []), pg, AckedF(x, []));
    OneOfBoth(x, AfterG(x), AckedF(x, []), pg, AckedF(x, [G2(x)]));
    OneOfBoth(x, AfterG(x), AckedF(x, [G2(x)]), pg, DoneF(x));
    DeliverResult(s0, x.f, 0);
    PlainQuiet(x.start, before, s0, Deliver(x.f, 0, 1), s1);
    assert [] + [F1(x)] == [F1(x)];
    AckResult(s1, x.f, F1(x), Typing(OpF(x)));
    PlainQuiet(x.start, before + [Deliver(x.f, 0, 1)], s1, Receive(x.f), s2);
    DeliverResult(s2, x.f, 1);
    PlainQuiet(x.start, before + [Deliver(x.f, 0, 1)] + [Receive(x.f)], s2, Deliver(x.f, 1, 2), s3);
    assert [F1(x)] + [G2(x)] == [F1(x), G2(x)] && BumpQueue([1], 1) == [1];
    QuietResult(s3, x.f, G2(x));
    events := before + [Deliver(x.f, 0, 1)] + [Receive(x.f)] + [Deliver(x.f, 1, 2)] + [Receive(x.f)];
    PlainQuiet(x.start, before + [Deliver(x.f, 0, 1)] + [Receive(x.f)] + [Deliver(x.f, 1, 2)], s3, Receive(x.f),
               Both(x, AfterG(x), DoneF(x), pg));
  }

  /** Another site's operation arrives while nothing is pending. */
  lemma QuietResult(s: Session, site: SiteId, fat: FatOp)
    requires site in s.peers && s.peers[site].buffer == [fat] && s.peers[site].engine.gh.local == []
    requires fat.seqNo == Some(s.peers[site].engine.currentSeq + 1) && fat.op.site != s.peers[site].engine.site
    requires Coherent(s.peers[site].doc) && Fits(fat.op, |s.peers[site].doc.text|)
    ensures var p, h := s.peers[site], s.peers[site].engine.gh;
            var engine := p.engine.(gh := h.(global := h.global + [fat], undoQueue := BumpQueue(h.undoQueue, p.engine.currentSeq)),
                                    currentSeq := p.engine.currentSeq + 1);
            Step(s, Receive(site)) == Next(s.(peers := s.peers[site := p.(engine := engine, buffer := [], doc := Apply(p.doc, fat.op))]))
  {
    hide Apply, Fits;
    assert OpsOf([]) == [] && Batch(fat.op, []) == fat.op && [fat][1..] == [] && fat.(op := fat.op) == fat;
    assert WithOps([], []) == [] && BumpDeltas([]) == [];
  }

  /** And the other one: the first insertion, then its own. */
  lemma SecondCatchesUp(x: Pair, pf: Peer, before: seq<Event>) returns (events: seq<Event>)
    requires Ok(x) && PlainRun(x.start, before, Both(x, AfterG(x), pf, Typed(x, OpG(x), 1, [], [])))
    ensures PlainRun(x.start, events, Both(x, AfterG(x), pf, DoneG(x)))
    ensures forall e :: e in before ==> e in events
  {
    hide PlainRun, Step, Apply, Transform, Reaches;
    BothFit(x);
    var s0 := Both(x, AfterG(x), pf, Typed(x, OpG(x), 1, [], []));
    var s1 := Both(x, AfterG(x), pf, Typed(x, OpG(x), 1, [F1(x)], []));
    var s2 := Both(x, AfterG(x), pf, ReceivedG(x, []));
    var s3 := Both(x, AfterG(x), pf, ReceivedG(x, [G2(x)]));
    OneOfBoth(x, AfterG(x), pf, Typed(x, OpG(x), 1, [], []), Typed(x, OpG(x), 1, [F1(x)], []));
    OneOfBoth(x, AfterG(x), pf, Typed(x, OpG(x), 1, [F1(x)], []), ReceivedG(x, []));
    OneOfBoth(x, AfterG(x), pf, ReceivedG(x, []), ReceivedG(x, [G2(x)]));
    OneOfBoth(x, AfterG(x), pf, ReceivedG(x, [G2(x)]), DoneG(x));
    DeliverResult(s0, x.g, 0);
    PlainQuiet(x.start, before, s0, Deliver(x.g, 0, 1), s1);
    assert [] + [F1(x).(op := Transform(OpF(x), OpG(x)))] == [F1(x).(op := Transform(OpF(x), OpG(x)))] && BumpQueue([1], 0) == [2];
    ForeignResult(s1, x.g, F1(x), Typing(OpG(x)), Transform(OpF(x), OpG(x)), Transform(OpG(x), OpF(x)));
    PlainQuiet(x.start, before + [Deliver(x.g, 0, 1)], s1, Receive(x.g), s2);
    DeliverResult(s2, x.g, 1);
    PlainQuiet(x.start, before + [Deliver(x.g, 0, 1)] + [Receive(x.g)], s2, Deliver(x.g, 1, 2), s3);
    assert ReceivedG(x, []).engine.gh.global + [G2(x)] == DoneG(x).engine.gh.global;
    AckResult(s3, x.g, G2(x), G2(x).(seqNo := None));
    events := before + [Deliver(x.g, 0, 1)] + [Receive(x.g)] + [Deliver(x.g, 1, 2)] + [Receive(x.g)];
    PlainQuiet(x.start, before + [Deliver(x.g, 0, 1)] + [Receive(x.g)] + [Deliver(x.g, 1, 2)], s3, Receive(x.g),
               Both(x, AfterG(x), pf, DoneG(x)));
  }

  /** Two clients open the same document, and both insert at one place before either hears of
      the other. Whichever insertion reaches the server first, there is a run after which
      both have caught up, with the text of the smaller site first at the server and at both. */
  lemma SmallerSiteFirstForAll(x: Pair)
    requires Ok(x)
    ensures var first, second := if x.f < x.g then x.textF else x.textG, if x.f < x.g then x.textG else x.textF;
            var text := x.start.text[..x.pos] + first + second + x.start.text[x.pos..];
            exists events, s :: PlainRun(x.start, events, s) && Edit(x.f, OpF(x), 0) in events && Edit(x.g, OpG(x), 0) in events
              && OpsOf(s.server.global) == [OpF(x), G2(x).op] && CaughtUp(s, x.f) && CaughtUp(s, x.g)
              && s.server.doc.text == s.peers[x.f].doc.text == s.peers[x.g].doc.text == text
  {
    hide PlainRun, Transform, Apply, ViaFirst;
    var events := BothOpen(x);
    events := BothType(x, events);
    events := BothSend(x, events);
    events := BothSequenced(x, events);
    events := FirstCatchesUp(x, Typed(x, OpG(x), 1, [], []), events);
    events := SecondCatchesUp(x, DoneF(x), events);
    assert OpsOf([F1(x), G2(x)]) == [OpF(x), G2(x).op];
    if x.f < x.g { SmallerSiteFirst(x.start, OpF(x), OpG(x)); } else { SmallerSiteFirst(x.start, OpG(x), OpF(x)); }
  }
}
