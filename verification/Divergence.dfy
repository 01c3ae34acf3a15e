/** A run after which, with everything acknowledged, a client's document differs from the
    server's: a deletion is undone while somebody else's deletion of the same text is on
    its way. */
module Divergence {
  import opened Ops
  import opened Documents
  import opened Engines
  import opened UndoGeneration
  import opened Sessions
  import opened SessionTheorems
  import opened SessionExamples

  /** Site `site` makes the only character live or dead. */
  function X(live: bool, site: SiteId): Op { Mark([Seg(0, "x")], live, site) }

  function D(live: bool): Doc { Doc("x", [live]) }

  function F(site: SiteId, seqNo: Option<GlobalSeq>, live: bool, siteSeq: LocalSeq, kind: OpKind): FatOp {
    FatOp(seqNo, X(live, site), siteSeq, kind, 0)
  }

  lemma XApplies(was: bool, live: bool, site: SiteId)
    ensures ValidOn(X(live, site), "x") && Fits(X(live, site), 1) && Apply(D(was), X(live, site)) == D(live)
  {
    assert In([Seg(0, "x")][0], 0);
    assert Apply(D(was), X(live, site)).live == [live];
  }

  lemma XBatch(live: bool, site: SiteId, marks: seq<Op>)
    requires AllMarks(marks)
    ensures Batch(X(live, site), marks) == X(live, site)
  {
    BatchOverMarks(X(live, site), [], marks);
    assert [] + marks == marks;
  }

  // ---------------------------------------------------------------- the states

  /** Client 1 after joining, after deleting, after the acknowledgement, and so on. */
  function Fresh(site: SiteId): Peer { Peer(NewClient(site, 0), D(true), [], []) }

  function Deleted(site: SiteId, sent: LocalSeq, wire: seq<ContextOps>): Peer {
    Peer(Client(History([], [F(site, None, false, 1, Original)], [1], None), site, 0, 1, sent), D(false), [], wire)
  }

  /** What the server makes of the deletion of 1, the deletion of 2 and the undo of 1. */
  const FIRST: FatOp := F(1, Some(1), false, 1, Original)
  const SECOND: FatOp := F(2, Some(2), false, 1, Original)
  const THIRD: FatOp := F(1, Some(3), true, 2, Undo(2))

  function Acked(): Peer { Peer(Client(History([FIRST], [], [1], None), 1, 1, 1, 1), D(false), [], []) }

  function Undone(buffer: seq<FatOp>): Peer {
    Peer(Client(History([FIRST], [F(1, None, true, 2, Undo(1))], [2], Some(0)), 1, 1, 2, 1), D(true), buffer, [])
  }

  function Overruled(sent: LocalSeq, buffer: seq<FatOp>, wire: seq<ContextOps>): Peer {
    Peer(Client(History([FIRST, SECOND], [F(1, None, true, 2, Undo(2))], [3], Some(0)), 1, 2, 2, sent), D(false), buffer, wire)
  }

  function CaughtUpAtLast(): Peer {
    Peer(Client(History([FIRST, SECOND, THIRD], [], [3], Some(0)), 1, 3, 2, 2), D(false), [], [])
  }

  function Server0(): Server { Server([], 0, D(true), map[1 := 0, 2 := 0]) }
  function Server1(): Server { Server([FIRST], 1, D(false), map[1 := 1, 2 := 0]) }
  function Server2(): Server { Server([FIRST, SECOND], 2, D(false), map[1 := 1, 2 := 1]) }
  function Server3(): Server { Server([FIRST, SECOND, THIRD], 3, D(true), map[1 := 2, 2 := 1]) }

  // ---------------------------------------------------------------- the run

  lemma BothJoin() returns (events: seq<Event>)
    ensures Reaches(D(true), events, Two(Server0(), Fresh(1), Fresh(2)))
  {
    var s0 := Opening(D(true));
    var s1 := Session(Server([], 0, D(true), map[1 := 0]), map[1 := Fresh(1)], {});
    assert map[][1 := 0] == map[1 := 0] && map[][1 := Fresh(1)] == map[1 := Fresh(1)];
    assert Step(s0, Join(1)) == Next(s1);
    NoEvents(D(true));
    PlainReaches(D(true), [], s0);
    ReachesMore(D(true), [], s0, Join(1), s1);
    var s2 := Two(Server0(), Fresh(1), Fresh(2));
    assert Step(s1, Join(2)) == Next(s2);
    events := [] + [Join(1)] + [Join(2)];
    ReachesMore(D(true), [] + [Join(1)], s1, Join(2), s2);
  }

  lemma BothDelete(before: seq<Event>) returns (events: seq<Event>)
    requires Reaches(D(true), before, Two(Server0(), Fresh(1), Fresh(2)))
    ensures Reaches(D(true), events, Two(Server0(), Deleted(1, 0, []), Deleted(2, 0, [])))
  {
    hide Step, Reaches;
    var s0, s1 := Two(Server0(), Fresh(1), Fresh(2)), Two(Server0(), Fresh(1), Deleted(2, 0, []));
    var s2 := Two(Server0(), Deleted(1, 0, []), Deleted(2, 0, []));
    XApplies(true, false, 1);
    XApplies(true, false, 2);
    EditResult(s0, 2, X(false, 2));
    OneOfTwo(Server0(), Fresh(1), Fresh(2), Deleted(2, 0, []));
    var engine := s0.peers[2].engine;
    assert [] + [F(2, None, false, 1, Original)] == [F(2, None, false, 1, Original)] && [] + [1] == [1];
    ReachesMore(D(true), before, s0, Edit(2, X(false, 2), 0), s1);
    EditResult(s1, 1, X(false, 1));
    OneOfTwo(Server0(), Fresh(1), Deleted(2, 0, []), Deleted(1, 0, []));
    events := before + [Edit(2, X(false, 2), 0)] + [Edit(1, X(false, 1), 0)];
    assert [] + [F(1, None, false, 1, Original)] == [F(1, None, false, 1, Original)];
    ReachesMore(D(true), before + [Edit(2, X(false, 2), 0)], s1, Edit(1, X(false, 1), 0), s2);
  }

  /** Client 1 sends its deletion and has it acknowledged. */
  lemma FirstAcked(before: seq<Event>) returns (events: seq<Event>)
    requires Reaches(D(true), before, Two(Server0(), Deleted(1, 0, []), Deleted(2, 0, [])))
    ensures Reaches(D(true), events, Two(Server1(), Acked(), Deleted(2, 0, [])))
  {
    hide Step, Reaches;
    var mine, other := F(1, None, false, 1, Original), Deleted(2, 0, []);
    var s0, s1 := Two(Server0(), Deleted(1, 0, []), other), Two(Server0(), Deleted(1, 1, [ContextOps(0, [mine])]), other);
    SendResult(s0, 1, mine);
    OneOfTwo(Server0(), Deleted(1, 0, []), other, Deleted(1, 1, [ContextOps(0, [mine])]));
    ReachesMore(D(true), before, s0, Send(1), s1);
    var s2 := Two(Server1(), Deleted(1, 1, []), other);
    XApplies(true, false, 1);
    XBatch(false, 1, []);
    assert OpsOf(OpsAfter([], 0)) == [];
    AdmitResult(s1, 1, 0, mine, []);
    OneOfTwo(Server1(), Deleted(1, 1, [ContextOps(0, [mine])]), other, Deleted(1, 1, []));
    assert [] + [FIRST] == [FIRST] && map[1 := 0, 2 := 0][1 := 1] == map[1 := 1, 2 := 0];
    ReachesMore(D(true), before + [Send(1)], s1, AdmitBatch(1), s2);
    events := AcknowledgeFirst(before + [Send(1)] + [AdmitBatch(1)]);
  }

  lemma AcknowledgeFirst(before: seq<Event>) returns (events: seq<Event>)
    requires Reaches(D(true), before, Two(Server1(), Deleted(1, 1, []), Deleted(2, 0, [])))
    ensures Reaches(D(true), events, Two(Server1(), Acked(), Deleted(2, 0, [])))
  {
    hide Step, Reaches;
    var other, p := Deleted(2, 0, []), Deleted(1, 1, []);
    var s0, s1 := Two(Server1(), p, other), Two(Server1(), p.(buffer := [FIRST]), other);
    DeliverResult(s0, 1, 0);
    OneOfTwo(Server1(), p, other, p.(buffer := [FIRST]));
    ReachesMore(D(true), before, s0, Deliver(1, 0, 1), s1);
    AckResult(s1, 1, FIRST, F(1, None, false, 1, Original));
    OneOfTwo(Server1(), p.(buffer := [FIRST]), other, Acked());
    assert [] + [FIRST] == [FIRST];
    events := before + [Deliver(1, 0, 1)] + [Receive(1)];
    ReachesMore(D(true), before + [Deliver(1, 0, 1)], s1, Receive(1), Two(Server1(), Acked(), other));
  }

  lemma UndoPushed(h: History)
    requires h == Acked().engine.gh
    ensures PushAll(h, [X(true, 1)], 2, EditUndo, 0) == Ok(Undone([]).engine.gh)
  {
    PushOne(h, X(true, 1), 2, EditUndo, 0);
    assert PushLocal(h, X(true, 1), 2, EditUndo, 0) == Ok(Undone([]).engine.gh) by {
      assert [] + [F(1, None, true, 2, Undo(1))] == [F(1, None, true, 2, Undo(1))];
      assert h.undoQueue[0 := 2] == [2] && h.Total() == 1;
    }
  }

  /** Client 1 undoes it. */
  lemma FirstUndone(before: seq<Event>) returns (events: seq<Event>)
    requires Reaches(D(true), before, Two(Server1(), Acked(), Deleted(2, 0, [])))
    ensures Reaches(D(true), events, Two(Server1(), Undone([]), Deleted(2, 0, [])))
  {
    hide Reaches, Step;
    var s0, h := Two(Server1(), Acked(), Deleted(2, 0, [])), Acked().engine.gh;
    UndoOfFirst(h);
    UndoPushed(h);
    XApplies(false, true, 1);
    RunOfOne(D(false), X(true, 1));
    hide PushAll, GenerateUndo, ValidRun, Replay, ValidOn, Apply;
    assert IsOwn(h, 1, 1);
    var t := UndoResult(s0, 1, false, 0, [X(true, 1)]);
    OneOfTwo(Server1(), Acked(), Deleted(2, 0, []), Undone([]));
    events := before + [UndoRedo(1, false, 0)];
    ReachesMore(D(true), before, s0, UndoRedo(1, false, 0), Two(Server1(), Undone([]), Deleted(2, 0, [])));
  }

  lemma UndoOfFirst(h: History)
    requires h == Acked().engine.gh
    ensures GenerateUndo(h, false) == [X(true, 1)]
  {
    hide Batch;
    assert OpsOf(h.AllOpsAfter(1)) + [] == [];
    XBatch(true, 1, []);
    assert Generated(h, 0, []) == X(true, 1);
    assert UndoLoop(h, 1, None, []) == UndoLoop(h, 0, Some(0), [] + [X(true, 1)]);
    assert [] + [X(true, 1)] == [X(true, 1)];
  }

  /** The concurrent deletion of client 2 is sequenced and arrives at client 1. */
  lemma SecondArrives(before: seq<Event>) returns (events: seq<Event>)
    requires Reaches(D(true), before, Two(Server1(), Undone([]), Deleted(2, 0, [])))
    ensures Reaches(D(true), events, Two(Server2(), Overruled(1, [], []), Deleted(2, 1, [])))
  {
    hide Step, Reaches;
    var mine, p := F(2, None, false, 1, Original), Undone([]);
    var s0, s1 := Two(Server1(), p, Deleted(2, 0, [])), Two(Server1(), p, Deleted(2, 1, [ContextOps(0, [mine])]));
    SendResult(s0, 2, mine);
    OneOfTwo(Server1(), p, Deleted(2, 0, []), Deleted(2, 1, [ContextOps(0, [mine])]));
    ReachesMore(D(true), before, s0, Send(2), s1);
    XApplies(false, false, 2);
    XBatch(false, 2, [FIRST.op]);
    assert OpsOf(OpsAfter([FIRST], 0)) == [FIRST.op];
    AdmitResult(s1, 2, 0, mine, [FIRST.op]);
    OneOfTwo(Server2(), p, Deleted(2, 1, [ContextOps(0, [mine])]), Deleted(2, 1, []));
    assert [FIRST] + [SECOND] == [FIRST, SECOND] && map[1 := 1, 2 := 0][2 := 1] == map[1 := 1, 2 := 1];
    ReachesMore(D(true), before + [Send(2)], s1, AdmitBatch(2), Two(Server2(), p, Deleted(2, 1, [])));
    events := SecondReceived(before + [Send(2)] + [AdmitBatch(2)]);
  }

  lemma SecondReceived(before: seq<Event>) returns (events: seq<Event>)
    requires Reaches(D(true), before, Two(Server2(), Undone([]), Deleted(2, 1, [])))
    ensures Reaches(D(true), events, Two(Server2(), Overruled(1, [], []), Deleted(2, 1, [])))
  {
    hide Step, Reaches;
    var other := Deleted(2, 1, []);
    var s0, s1 := Two(Server2(), Undone([]), other), Two(Server2(), Undone([SECOND]), other);
    DeliverResult(s0, 1, 1);
    OneOfTwo(Server2(), Undone([]), other, Undone([SECOND]));
    ReachesMore(D(true), before, s0, Deliver(1, 1, 2), s1);
    XApplies(true, false, 2);
    ForeignResult(s1, 1, SECOND, F(1, None, true, 2, Undo(1)), X(false, 2), X(true, 1));
    OneOfTwo(Server2(), Undone([SECOND]), other, Overruled(1, [], []));
    assert [FIRST] + [SECOND] == [FIRST, SECOND] && BumpQueue([2], 1) == [3];
    events := before + [Deliver(1, 1, 2)] + [Receive(1)];
    ReachesMore(D(true), before + [Deliver(1, 1, 2)], s1, Receive(1), Two(Server2(), Overruled(1, [], []), other));
  }

  /** The undo is sent, sequenced and acknowledged. */
  lemma UndoAcked(before: seq<Event>) returns (events: seq<Event>)
    requires Reaches(D(true), before, Two(Server2(), Overruled(1, [], []), Deleted(2, 1, [])))
    ensures Reaches(D(true), events, Two(Server3(), CaughtUpAtLast(), Deleted(2, 1, [])))
  {
    hide Step, Reaches;
    var mine, other, batch := F(1, None, true, 2, Undo(2)), Deleted(2, 1, []), [ContextOps(2, [F(1, None, true, 2, Undo(2))])];
    var s0, s1 := Two(Server2(), Overruled(1, [], []), other), Two(Server2(), Overruled(2, [], batch), other);
    SendResult(s0, 1, mine);
    OneOfTwo(Server2(), Overruled(1, [], []), other, Overruled(2, [], batch));
    ReachesMore(D(true), before, s0, Send(1), s1);
    XApplies(false, true, 1);
    XBatch(true, 1, []);
    assert OpsOf(OpsAfter([FIRST, SECOND], 2)) == [];
    AdmitResult(s1, 1, 2, mine, []);
    OneOfTwo(Server3(), Overruled(2, [], batch), other, Overruled(2, [], []));
    assert [FIRST, SECOND] + [THIRD] == [FIRST, SECOND, THIRD] && map[1 := 1, 2 := 1][1 := 2] == map[1 := 2, 2 := 1];
    ReachesMore(D(true), before + [Send(1)], s1, AdmitBatch(1), Two(Server3(), Overruled(2, [], []), other));
    events := LastReceived(before + [Send(1)] + [AdmitBatch(1)]);
  }

  lemma LastReceived(before: seq<Event>) returns (events: seq<Event>)
    requires Reaches(D(true), before, Two(Server3(), Overruled(2, [], []), Deleted(2, 1, [])))
    ensures Reaches(D(true), events, Two(Server3(), CaughtUpAtLast(), Deleted(2, 1, [])))
  {
    hide Step, Reaches;
    var other := Deleted(2, 1, []);
    var s0, s1 := Two(Server3(), Overruled(2, [], []), other), Two(Server3(), Overruled(2, [THIRD], []), other);
    DeliverResult(s0, 1, 2);
    OneOfTwo(Server3(), Overruled(2, [], []), other, Overruled(2, [THIRD], []));
    ReachesMore(D(true), before, s0, Deliver(1, 2, 3), s1);
    AckResult(s1, 1, THIRD, F(1, None, true, 2, Undo(2)));
    OneOfTwo(Server3(), Overruled(2, [THIRD], []), other, CaughtUpAtLast());
    assert [FIRST, SECOND] + [THIRD] == [FIRST, SECOND, THIRD];
    events := before + [Deliver(1, 2, 3)] + [Receive(1)];
    ReachesMore(D(true), before + [Deliver(1, 2, 3)], s1, Receive(1), Two(Server3(), CaughtUpAtLast(), other));
  }

  /** There is a run of deletions and one undo after which a client that has caught up, with
      nothing pending, has a character deleted that is live at the server. */
  lemma LivenessCanDiverge()
    ensures exists events, s :: Reaches(D(true), events, s) && CaughtUp(s, 1)
                             && s.peers[1].doc == Doc("x", [false]) && s.server.doc == Doc("x", [true])
  {
    hide Reaches;
    var events := BothJoin();
    events := BothDelete(events);
    events := FirstAcked(events);
    events := FirstUndone(events);
    events := SecondArrives(events);
    events := UndoAcked(events);
    var s := Two(Server3(), CaughtUpAtLast(), Deleted(2, 1, []));
    assert CaughtUp(s, 1);
    assert Reaches(D(true), events, s);
  }
}
