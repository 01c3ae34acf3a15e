/** A peaceful run after which a client that has caught up shows other text than the server:
    an undo that went astray deleted another site's "r" as if it were the user's "a", and its
    redo brings it back as "a", while the other site brings it back as "r". */
module ScreensDiverge {
  import opened Ops
  import opened Documents
  import opened Convergence
  import opened Engines
  import opened UndoGeneration
  import opened Showing
  import opened ShowConvergence
  import opened Sessions
  import opened SessionInvariants
  import opened SessionTheorems
  import opened SessionExamples
  import opened Screens
  import opened Diffs
  import opened UndoMisses

  /** The marks of client 1: on its own "xx", and on the "r", which they quote as "a". */
  function MarkXX(live: bool): Op { Mark([Seg(0, "xx")], live, 1) }
  function MarkA(live: bool): Op { Mark([Seg(2, "a")], live, 1) }

  /** The marks of client 2 on the "r", before and after the "xx". */
  function MarkR(pos: nat, live: bool): Op { Mark([Seg(pos, "r")], live, 2) }

  function N(fat: FatOp, n: GlobalSeq): FatOp { fat.(seqNo := Some(n)) }

  function D(live: seq<bool>): Doc { Doc("xxra", live) }

  const NONE_BUT_A: seq<bool> := [false, false, false, true]
  const RA: seq<bool> := [false, false, true, true]
  const ALL: seq<bool> := [true, true, true, true]

  const DEAD_XX: FatOp := FatOp(None, MarkXX(false), 3, Undo(1), 1)
  const DEAD_A: FatOp := FatOp(None, MarkA(false), 3, Undo(4), 1)
  const PENDING: seq<FatOp> := [XX(), DEAD_XX, DEAD_A]

  function History1(global: seq<FatOp>, local: seq<FatOp>): History { History(global, local, [5, 4], Some(0)) }

  const COPIES: seq<FatOp> := [A(Some(1)), R(Some(2), 2)]

  /** Client 1 after the undo. */
  function Undone(sent: LocalSeq, wire: seq<ContextOps>): Peer {
    Peer(Client(History1(COPIES, PENDING), 1, 2, 3, sent), D(NONE_BUT_A), [], wire)
  }

  lemma TheUndo()
    ensures var h := Received().engine.gh;
            && h.PointersInRange() && GenerateUndo(h, false) == [MarkXX(false), MarkA(false)]
            && NoLiveMarks([MarkXX(false), MarkA(false)]) && OwnCommand(h, false, 1)
            && PushAll(h, [MarkXX(false), MarkA(false)], 3, EditUndo, 1) == Ok(History1(COPIES, PENDING))
  {
    hide GenerateUndo;
    var h := Received().engine.gh;
    UndoBoth(A(Some(1)), XX(), R(Some(2), 2));
    var h1 := History(COPIES, [XX(), DEAD_XX], [1, 4], Some(1));
    assert [XX()] + [DEAD_XX] == [XX(), DEAD_XX] && [1, 3][1 := 4] == [1, 4];
    PushShape(h, MarkXX(false), 3, EditUndo, 1);
    assert PushLocal(h, MarkXX(false), 3, EditUndo, 1) == Ok(h1);
    assert [XX(), DEAD_XX] + [DEAD_A] == PENDING && [1, 4][0 := 5] == [5, 4];
    PushShape(h1, MarkA(false), 3, EditUndo, 1);
    PushTwo(h, MarkXX(false), MarkA(false), 3, EditUndo, 1, h1);
    TakesBoth(h);
    assert IsOwn(h, 1, 1) && IsOwn(h, 1, 3);
  }

  lemma UndoneBoth(before: seq<Event>) returns (events: seq<Event>)
    requires PlainRun(Live(""), before, One(Server2(), Received()))
    ensures PlainRun(Live(""), events, One(Server2(), Undone(1, [])))
  {
    hide PlainRun, Step, GenerateUndo, ValidRun, Replay, PushAll, OwnCommand, NoLiveMarks;
    var s := One(Server2(), Received());
    TheUndo();
    TwoMarks();
    var t := UndoResult(s, 1, false, 1, [MarkXX(false), MarkA(false)]);
    OnlyOne(Server2(), Received(), Undone(1, []));
    events := before + [UndoRedo(1, false, 1)];
    PlainUndo(Live(""), before, s, 1, false, 1, t);
  }

  // ---------------------------------------------------------------- client 2

  function Subscribed(server: Server, first: LocalSeq, second: LocalSeq): Server {
    server.(subscribers := map[1 := first, 2 := second])
  }

  const DELETION: FatOp := FatOp(None, MarkR(0, false), 1, Original, 0)
  const RESTORATION: FatOp := FatOp(None, MarkR(0, true), 2, Undo(1), 0)
  function Batch1(): ContextOps { ContextOps(2, PENDING) }
  function Batch2(): ContextOps { ContextOps(2, [DELETION, RESTORATION]) }

  function Late(): Peer { Peer(NewClient(2, 2), Live("ra"), [], []) }
  function Deleted(): Peer { Peer(Client(History([], [DELETION], [1], None), 2, 2, 1, 0), Doc("ra", [false, true]), [], []) }
  function Restored2(sent: LocalSeq, wire: seq<ContextOps>): Peer {
    Peer(Client(History([], [DELETION, RESTORATION], [2], Some(0)), 2, 2, 2, sent), Live("ra"), [], wire)
  }

  /** Client 1 sends; client 2 joins and deletes the "r". */
  lemma SecondJoins(before: seq<Event>) returns (events: seq<Event>)
    requires PlainRun(Live(""), before, One(Server2(), Undone(1, [])))
    ensures PlainRun(Live(""), events, Two(Subscribed(Server2(), 1, 0), Undone(3, [Batch1()]), Late()))
  {
    hide PlainRun, Step;
    var server, p := Subscribed(Server2(), 1, 0), Undone(3, [Batch1()]);
    var s0, s1, s2 := One(Server2(), Undone(1, [])), One(Server2(), p), Two(server, p, Late());
    SendAll(s0, 1);
    OnlyOne(Server2(), Undone(1, []), p);
    PlainQuiet(Live(""), before, s0, Send(1), s1);
    JoinResult(s1, 2);
    assert s1.peers[2 := Late()] == s2.peers && s1.server.subscribers[2 := 0] == server.subscribers;
    events := before + [Send(1)] + [Join(2)];
    PlainQuiet(Live(""), before + [Send(1)], s1, Join(2), s2);
  }

  lemma SecondDeletes(before: seq<Event>) returns (events: seq<Event>)
    requires PlainRun(Live(""), before, Two(Subscribed(Server2(), 1, 0), Undone(3, [Batch1()]), Late()))
    ensures PlainRun(Live(""), events, Two(Subscribed(Server2(), 1, 0), Undone(3, [Batch1()]), Deleted()))
  {
    hide PlainRun, Step;
    var server, p := Subscribed(Server2(), 1, 0), Undone(3, [Batch1()]);
    var s := Two(server, p, Late());
    OneSegApplies(Live("ra"), Seg(0, "r"), false, 2, Doc("ra", [false, true]));
    EditResult(s, 2, MarkR(0, false));
    assert [] + [DELETION] == [DELETION] && [] + [1] == [1];
    OneOfTwo(server, p, Late(), Deleted());
    assert NoLiveMarks([MarkR(0, false)]);
    events := before + [Edit(2, MarkR(0, false), 0)];
    PlainEdit(Live(""), before, s, 2, MarkR(0, false), 0, Two(server, p, Deleted()));
  }

  const FIVE: seq<FatOp> := [A(Some(1)), R(Some(2), 0), N(XX(), 3), N(DEAD_XX, 4), N(DEAD_A, 5)]

  function Server5(): Server { Server(FIVE, 5, D(NONE_BUT_A), map[1 := 3, 2 := 0]) }

  lemma FirstBatchApplies()
    ensures var ops := [XX().op, MarkXX(false), MarkA(false)];
            ValidRun(ops, Live("ra")) && Replay(Live("ra"), ops) == D(NONE_BUT_A)
  {
    InsertLive("ra", XX().op);
    TwoMarks();
    var ops := [XX().op, MarkXX(false), MarkA(false)];
    assert ops[0] == XX().op && ops[1..] == [MarkXX(false), MarkA(false)];
    assert Insert("ra", 0, "xx") == "xxra";
  }

  function ThirdToFifth(): seq<FatOp> { [N(XX(), 3), N(DEAD_XX, 4), N(DEAD_A, 5)] }

  lemma FirstBatch()
    ensures Sequenced(Server2().global, Batch1(), 2) == ThirdToFifth()
    ensures OpsOf(ThirdToFifth()) == [XX().op, MarkXX(false), MarkA(false)]
    ensures Server2().global + ThirdToFifth() == FIVE
  {
    hide Sequenced;
    SequencedAtCurrentSeq(Server2().global, PENDING);
    assert Numbered(PENDING, 2) == ThirdToFifth();
  }

  lemma FirstBatchAdmitted(before: seq<Event>) returns (events: seq<Event>)
    requires PlainRun(Live(""), before, Two(Subscribed(Server2(), 1, 0), Undone(3, [Batch1()]), Deleted()))
    ensures PlainRun(Live(""), events, Two(Server5(), Undone(3, []), Deleted()))
  {
    hide PlainRun, Step, Sequenced, ValidRun, Replay, OpsOf, ThirdToFifth;
    var s, t := Two(Subscribed(Server2(), 1, 0), Undone(3, [Batch1()]), Deleted()), Two(Server5(), Undone(3, []), Deleted());
    FirstBatchApplies();
    FirstBatch();
    AdmitAs(s, 1, Batch1(), ThirdToFifth());
    assert map[1 := 1, 2 := 0][1 := 3] == map[1 := 3, 2 := 0] && |ThirdToFifth()| == |FIVE| - 2;
    OneOfTwo(Server5(), Undone(3, [Batch1()]), Deleted(), Undone(3, []));
    events := before + [AdmitBatch(1)];
    PlainQuiet(Live(""), before, s, AdmitBatch(1), t);
  }

  // ---------------------------------------------------------------- the "r" is brought back

  function V(server: Doc, first: Doc, second: Doc): Screens { Screens(server, map[1 := first, 2 := second]) }

  lemma TheRestoration()
    ensures var h := Deleted().engine.gh;
            && h.PointersInRange() && GenerateUndo(h, false) == [MarkR(0, true)] && OwnCommand(h, false, 2)
            && PushAll(h, [MarkR(0, true)], 2, EditUndo, 0) == Ok(Restored2(0, []).engine.gh)
  {
    var h := Deleted().engine.gh;
    assert OpsOf(h.AllOpsAfter(1)) + [] == [];
    assert Generated(h, 0, []) == MarkR(0, true);
    assert UndoLoop(h, 0, Some(0), [MarkR(0, true)]) == [MarkR(0, true)];
    assert [] + [MarkR(0, true)] == [MarkR(0, true)];
    assert UndoEntries(h, 0, Some(0)) == [] && UndoEntries(h, 1, None) == [0] + [];
    assert IsOwn(h, 2, 1);
    PushOne(h, MarkR(0, true), 2, EditUndo, 0);
    PushShape(h, MarkR(0, true), 2, EditUndo, 0);
    assert [DELETION] + [RESTORATION] == [DELETION, RESTORATION] && [1][0 := 2] == [2];
  }

  lemma RestoredDoc()
    ensures var d, op := Doc("ra", [false, true]), MarkR(0, true);
            && ValidRun([op], d) && Replay(d, [op]) == Live("ra") && ShowAll(d, [op]) == Live("ra")
  {
    var d, op := Doc("ra", [false, true]), MarkR(0, true);
    OneSegApplies(d, Seg(0, "r"), true, 2, Live("ra"));
    OneSegShows(d, Seg(0, "r"), true, 2, Live("ra"));
    RunOfOne(d, op);
    ShowJustOne(d, op);
  }

  lemma SecondRestores(before: seq<Event>) returns (events: seq<Event>)
    requires PlainRun(Live(""), before, Two(Server5(), Undone(3, []), Deleted()))
    ensures Displays(Live(""), events, Two(Server5(), Undone(3, []), Restored2(0, [])),
                     V(D(NONE_BUT_A), D(NONE_BUT_A), Live("ra")))
  {
    hide Displays, NoLiveMarksAnywhere, Step, GenerateUndo, ValidRun, Replay, ShowAll, PushAll, OwnCommand, Watching;
    var s, t, op := Two(Server5(), Undone(3, []), Deleted()), Two(Server5(), Undone(3, []), Restored2(0, [])), MarkR(0, true);
    var v := V(D(NONE_BUT_A), D(NONE_BUT_A), Doc("ra", [false, true]));
    assert PlainOf(s) == v by { assert PlainOf(s).peers == v.peers; }
    TheRestoration();
    RestoredDoc();
    var t' := UndoResult(s, 2, false, 0, [op]);
    OneOfTwo(Server5(), Undone(3, []), Deleted(), Restored2(0, []));
    assert t' == t;
    DisplaysMore(Live(""), before, s, v, UndoRedo(2, false, 0), t);
    CommandIsShown(s, v, UndoRedo(2, false, 0), [op]);
    assert v.peers[2 := Live("ra")] == V(D(NONE_BUT_A), D(NONE_BUT_A), Live("ra")).peers;
    events := before + [UndoRedo(2, false, 0)];
  }

  // ---------------------------------------------------------------- client 2's batch

  const DELETION6: FatOp := N(DELETION, 6).(op := MarkR(2, false))
  const RESTORATION7: FatOp := N(RESTORATION, 7).(op := MarkR(2, true))
  const SEVEN: seq<FatOp> := FIVE + [DELETION6, RESTORATION7]

  function Server7(): Server { Server(SEVEN, 7, D(RA), map[1 := 3, 2 := 2]) }

  lemma OverXX(live: bool)
    ensures Batch(MarkR(0, live), [XX().op, MarkXX(false), MarkA(false)]) == MarkR(2, live)
  {
    var m, marks := MarkR(0, live), [MarkXX(false), MarkA(false)];
    assert [XX().op, MarkXX(false), MarkA(false)] == [XX().op] + marks;
    BatchOverMarks(m, [XX().op], marks);
    assert [Seg(0, "r")][..0] == [];
    assert TransformDI(Seg(0, "r"), XX().op.seg, 2, 1) == [Seg(2, "r")];
    assert TransformSegs([Seg(0, "r")], XX().op.seg, 2, 1) == [] + [Seg(2, "r")];
    assert Batch(m, [XX().op]) == Batch(Transform(m, XX().op), []) == MarkR(2, live);
  }

  lemma AdmitTwoMarks(missed: seq<Op>, first: Op, second: Op)
    requires first.Mark?
    ensures Admit(missed, [first, second]) == [Batch(first, missed), Batch(second, missed)]
  {
    hide Batch;
    RebaseOverMark(missed, first);
    assert [first, second][1..] == [second] && [second][1..] == [];
    assert Admit(missed, [second]) == [Batch(second, missed)] + Admit(Rebase(missed, second), []);
  }

  lemma SecondBatch()
    ensures Sequenced(FIVE, Batch2(), 5) == [DELETION6, RESTORATION7]
  {
    hide Batch, Admit;
    var missed := [XX().op, MarkXX(false), MarkA(false)];
    assert FIVE[2..] == [N(XX(), 3), N(DEAD_XX, 4), N(DEAD_A, 5)];
    assert OpsOf(OpsAfter(FIVE, 2)) == missed;
    assert OpsOf(Batch2().ops) == [MarkR(0, false), MarkR(0, true)];
    AdmitTwoMarks(missed, MarkR(0, false), MarkR(0, true));
    OverXX(false);
    OverXX(true);
  }

  lemma SecondBatchApplies()
    ensures var ops := [MarkR(2, false), MarkR(2, true)];
            && ValidRun(ops, D(NONE_BUT_A)) && Replay(D(NONE_BUT_A), ops) == D(RA) && ShowAll(D(NONE_BUT_A), ops) == D(RA)
  {
    var d := D(NONE_BUT_A);
    OneSegApplies(d, Seg(2, "r"), false, 2, d);
    OneSegShows(d, Seg(2, "r"), false, 2, d);
    OneSegApplies(d, Seg(2, "r"), true, 2, D(RA));
    OneSegShows(d, Seg(2, "r"), true, 2, D(RA));
    TwoApply(d, MarkR(2, false), MarkR(2, true));
    TwoShow(d, MarkR(2, false), MarkR(2, true));
  }

  lemma SecondSends(before: seq<Event>) returns (events: seq<Event>)
    requires Displays(Live(""), before, Two(Server5(), Undone(3, []), Restored2(0, [])), V(D(NONE_BUT_A), D(NONE_BUT_A), Live("ra")))
    ensures Displays(Live(""), events, Two(Server7(), Undone(3, []), Restored2(2, [])), V(D(RA), D(NONE_BUT_A), Live("ra")))
  {
    hide Displays, Step, Sequenced, ValidRun, Replay, ShowAll;
    var s, t := Two(Server5(), Undone(3, []), Restored2(0, [])), Two(Server5(), Undone(3, []), Restored2(2, [Batch2()]));
    var u, v := Two(Server7(), Undone(3, []), Restored2(2, [])), V(D(NONE_BUT_A), D(NONE_BUT_A), Live("ra"));
    SendAll(s, 2);
    OneOfTwo(Server5(), Undone(3, []), Restored2(0, []), Restored2(2, [Batch2()]));
    DisplaysQuiet(Live(""), before, s, v, Send(2), t);
    SecondBatch();
    SecondBatchApplies();
    assert OpsOf([DELETION6, RESTORATION7]) == [MarkR(2, false), MarkR(2, true)];
    AdmitAs(t, 2, Batch2(), [DELETION6, RESTORATION7]);
    OneOfTwo(Server7(), Undone(3, []), Restored2(2, [Batch2()]), Restored2(2, []));
    assert map[1 := 3, 2 := 0][2 := 2] == map[1 := 3, 2 := 2];
    DisplaysMore(Live(""), before + [Send(2)], t, v, AdmitBatch(2), u);
    AdmissionIsShown(t, v, 2, Batch2(), [DELETION6, RESTORATION7]);
    events := before + [Send(2)] + [AdmitBatch(2)];
  }

  // ---------------------------------------------------------------- client 1 receives, redoes and receives

  /** Client 1 with some of the sequenced operations behind it. */
  function Reading(n: nat, local: seq<FatOp>): Peer
    requires n <= 5
  {
    Peer(Client(History1(COPIES + SEVEN[2..2 + n], local), 1, 2 + n, 3, 3), D(NONE_BUT_A), SEVEN[2 + n..], [])
  }

  lemma ReadMore(n: nat)
    requires n < 5
    ensures SEVEN[2 + n..][0] == SEVEN[2 + n] && SEVEN[2 + n..][1..] == SEVEN[3 + n..]
    ensures COPIES + SEVEN[2..2 + n] + [SEVEN[2 + n]] == COPIES + SEVEN[2..3 + n]
  {}

  lemma FirstReads(before: seq<Event>) returns (events: seq<Event>)
    requires Displays(Live(""), before, Two(Server7(), Undone(3, []), Restored2(2, [])), V(D(RA), D(NONE_BUT_A), Live("ra")))
    ensures Displays(Live(""), events, Two(Server7(), Reading(3, []), Restored2(2, [])), V(D(RA), D(NONE_BUT_A), Live("ra")))
  {
    hide Displays, Step;
    var server, other, v := Server7(), Restored2(2, []), V(D(RA), D(NONE_BUT_A), Live("ra"));
    var s := Two(server, Undone(3, []), other);
    DeliverRest(s, 1);
    assert COPIES + SEVEN[2..2] == COPIES;
    OneOfTwo(server, Undone(3, []), other, Reading(0, PENDING));
    DisplaysQuiet(Live(""), before, s, v, Deliver(1, 2, 7), Two(server, Reading(0, PENDING), other));
    events := before + [Deliver(1, 2, 7)];
    ReadMore(0);
    var s1 := DisplaysAck(Live(""), events, Two(server, Reading(0, PENDING), other), v, 1);
    OneOfTwo(server, Reading(0, PENDING), other, Reading(1, PENDING[1..]));
    events := events + [Receive(1)];
    ReadMore(1);
    var s2 := DisplaysAck(Live(""), events, Two(server, Reading(1, PENDING[1..]), other), v, 1);
    assert PENDING[1..][1..] == PENDING[2..];
    OneOfTwo(server, Reading(1, PENDING[1..]), other, Reading(2, PENDING[2..]));
    events := events + [Receive(1)];
    ReadMore(2);
    var s3 := DisplaysAck(Live(""), events, Two(server, Reading(2, PENDING[2..]), other), v, 1);
    assert PENDING[2..][1..] == [];
    OneOfTwo(server, Reading(2, PENDING[2..]), other, Reading(3, []));
    events := events + [Receive(1)];
  }

  lemma DeletionArrives(before: seq<Event>) returns (events: seq<Event>)
    requires Displays(Live(""), before, Two(Server7(), Reading(3, []), Restored2(2, [])), V(D(RA), D(NONE_BUT_A), Live("ra")))
    ensures Displays(Live(""), events, Two(Server7(), Reading(4, []), Restored2(2, [])), V(D(RA), D(NONE_BUT_A), Live("ra")))
  {
    hide Displays, Step;
    var server, other, v := Server7(), Restored2(2, []), V(D(RA), D(NONE_BUT_A), Live("ra"));
    var s, t := Two(server, Reading(3, []), other), Two(server, Reading(4, []), other);
    ReadMore(3);
    OneSegApplies(D(NONE_BUT_A), Seg(2, "r"), false, 2, D(NONE_BUT_A));
    OneSegShows(D(NONE_BUT_A), Seg(2, "r"), false, 2, D(NONE_BUT_A));
    assert OpsOf(Reading(3, []).engine.gh.local) == [];
    ForeignMark(s, 1);
    assert BumpQueue([5, 4], 5) == [5, 4] && BumpDeltas([]) == [];
    OneOfTwo(server, Reading(3, []), other, Reading(4, []));
    DisplaysMore(Live(""), before, s, v, Receive(1), t);
    MarkIsShown(s, v, 1, Reading(4, []).engine, MarkR(2, false));
    assert v.peers[1 := D(NONE_BUT_A)] == v.peers;
    events := before + [Receive(1)];
  }

  function Revival(mark: Op, delta: nat): FatOp { FatOp(None, mark, 4, Undo(delta), 2) }

  /** What client 1 shows once it has brought back its "a". */
  const XXAA: Doc := Doc("xxaa", ALL)

  function Redone(known: nat, local: seq<FatOp>, queue: seq<GlobalSeq>, sent: LocalSeq, wire: seq<ContextOps>): Peer
    requires known <= 5
  {
    Peer(Client(History(COPIES + SEVEN[2..2 + known], local, queue, None), 1, 2 + known, 4, sent), D(ALL), SEVEN[2 + known..], wire)
  }

  lemma TheReversals(h: History)
    requires h == History1(COPIES + SEVEN[2..6], [])
    ensures h.PointersInRange() && Generated(h, 0, []) == MarkA(true) && Generated(h, 1, []) == MarkXX(true)
  {
    hide Batch;
    assert h.All() == COPIES + SEVEN[2..6];
    assert h.All()[4] == N(DEAD_A, 5) && h.All()[3] == N(DEAD_XX, 4) && h.All()[5] == DELETION6;
    assert OpsOf(h.AllOpsAfter(5)) + [] == [MarkR(2, false)] by { assert h.AllOpsAfter(5) == [DELETION6]; }
    assert OpsOf(h.AllOpsAfter(4)) + [] == [MarkA(false), MarkR(2, false)] by { assert h.AllOpsAfter(4) == [N(DEAD_A, 5), DELETION6]; }
    BatchOverMarks(MarkA(true), [], [MarkR(2, false)]);
    BatchOverMarks(MarkXX(true), [], [MarkA(false), MarkR(2, false)]);
    assert [] + [MarkR(2, false)] == [MarkR(2, false)] && [] + [MarkA(false), MarkR(2, false)] == [MarkA(false), MarkR(2, false)];
    BatchNothing(MarkA(true));
    BatchNothing(MarkXX(true));
  }

  lemma TheRedo(h: History)
    requires h == History1(COPIES + SEVEN[2..6], [])
    ensures h.PointersInRange() && GenerateUndo(h, true) == [MarkA(true), MarkXX(true)] && OwnCommand(h, true, 1)
    ensures PushAll(h, [MarkA(true), MarkXX(true)], 4, EditRedo, 2)
         == Ok(Redone(4, [Revival(MarkA(true), 2), Revival(MarkXX(true), 4)], [7, 8], 3, []).engine.gh)
  {
    hide Generated;
    TheReversals(h);
    assert h.All() == COPIES + SEVEN[2..6];
    assert h.Nth(0) == N(DEAD_A, 5) && h.Nth(1) == N(DEAD_XX, 4);
    assert RedoEntries(h, 2, Some(1)) == [] && RedoEntries(h, 1, Some(1)) == [1] + [] && RedoEntries(h, 0, None) == [0] + [1];
    CommandTakes(h, true);
    assert Reversals(h, [0, 1]) == [MarkA(true), MarkXX(true)];
    assert IsOwn(h, 1, 5) && IsOwn(h, 1, 4);
    RedoPushed(h);
  }

  lemma RedoPushed(h: History)
    requires h == History1(COPIES + SEVEN[2..6], [])
    ensures h.PointersInRange()
    ensures PushAll(h, [MarkA(true), MarkXX(true)], 4, EditRedo, 2)
         == Ok(Redone(4, [Revival(MarkA(true), 2), Revival(MarkXX(true), 4)], [7, 8], 3, []).engine.gh)
  {
    var h1 := History(COPIES + SEVEN[2..6], [Revival(MarkA(true), 2)], [7, 4], Some(1));
    assert [] + [Revival(MarkA(true), 2)] == [Revival(MarkA(true), 2)] && [5, 4][0 := 7] == [7, 4];
    PushShape(h, MarkA(true), 4, EditRedo, 2);
    assert PushLocal(h, MarkA(true), 4, EditRedo, 2) == Ok(h1);
    assert [Revival(MarkA(true), 2)] + [Revival(MarkXX(true), 4)] == [Revival(MarkA(true), 2), Revival(MarkXX(true), 4)];
    assert [7, 4][1 := 8] == [7, 8];
    PushShape(h1, MarkXX(true), 4, EditRedo, 2);
    PushTwo(h, MarkA(true), MarkXX(true), 4, EditRedo, 2, h1);
  }

  lemma RevivalsApply()
    ensures var ops := [MarkA(true), MarkXX(true)];
            && ValidRun(ops, D(NONE_BUT_A)) && Replay(D(NONE_BUT_A), ops) == D(ALL) && ShowAll(D(NONE_BUT_A), ops) == XXAA
            && ValidRun(ops, D(RA)) && Replay(D(RA), ops) == D(ALL) && ShowAll(D(RA), ops) == D(ALL)
  {
    OneSegApplies(D(NONE_BUT_A), Seg(2, "a"), true, 1, D(RA));
    OneSegApplies(D(RA), Seg(2, "a"), true, 1, D(RA));
    OneSegApplies(D(RA), Seg(0, "xx"), true, 1, D(ALL));
    TwoApply(D(NONE_BUT_A), MarkA(true), MarkXX(true));
    TwoApply(D(RA), MarkA(true), MarkXX(true));
    OneSegShows(D(NONE_BUT_A), Seg(2, "a"), true, 1, Doc("xxaa", RA));
    OneSegShows(Doc("xxaa", RA), Seg(0, "xx"), true, 1, XXAA);
    OneSegShows(D(RA), Seg(2, "a"), true, 1, D(RA));
    OneSegShows(D(RA), Seg(0, "xx"), true, 1, D(ALL));
    TwoShow(D(NONE_BUT_A), MarkA(true), MarkXX(true));
    TwoShow(D(RA), MarkA(true), MarkXX(true));
  }

  function Revivals(first: nat, second: nat): seq<FatOp> { [Revival(MarkA(true), first), Revival(MarkXX(true), second)] }

  lemma FirstRedoes(before: seq<Event>) returns (events: seq<Event>)
    requires Displays(Live(""), before, Two(Server7(), Reading(4, []), Restored2(2, [])), V(D(RA), D(NONE_BUT_A), Live("ra")))
    ensures Displays(Live(""), events, Two(Server7(), Redone(4, Revivals(2, 4), [7, 8], 3, []), Restored2(2, [])),
                     V(D(RA), XXAA, Live("ra")))
  {
    hide Displays, Step, GenerateUndo, ValidRun, Replay, ShowAll, PushAll, OwnCommand, Watching;
    var server, other, v := Server7(), Restored2(2, []), V(D(RA), D(NONE_BUT_A), Live("ra"));
    var s, t := Two(server, Reading(4, []), other), Two(server, Redone(4, Revivals(2, 4), [7, 8], 3, []), other);
    var ops := [MarkA(true), MarkXX(true)];
    TheRedo(Reading(4, []).engine.gh);
    RevivalsApply();
    var t' := UndoResult(s, 1, true, 2, ops);
    OneOfTwo(server, Reading(4, []), other, Redone(4, Revivals(2, 4), [7, 8], 3, []));
    assert t' == t;
    DisplaysMore(Live(""), before, s, v, UndoRedo(1, true, 2), t);
    CommandIsShown(s, v, UndoRedo(1, true, 2), ops);
    assert v.peers[1 := XXAA] == V(D(RA), XXAA, Live("ra")).peers;
    events := before + [UndoRedo(1, true, 2)];
  }

  lemma RoomForSeven()
    ensures BumpQueue([7, 8], 6) == [8, 9] && BumpDeltas(Revivals(2, 4)) == Revivals(3, 5)
  {}

  /** The other site's restoration arrives: the character is live already. */
  lemma RestorationArrives(before: seq<Event>) returns (events: seq<Event>)
    requires Displays(Live(""), before, Two(Server7(), Redone(4, Revivals(2, 4), [7, 8], 3, []), Restored2(2, [])),
                      V(D(RA), XXAA, Live("ra")))
    ensures Displays(Live(""), events, Two(Server7(), Redone(5, Revivals(3, 5), [8, 9], 3, []), Restored2(2, [])),
                     V(D(RA), XXAA, Live("ra")))
  {
    hide Displays, Step;
    var server, other, v := Server7(), Restored2(2, []), V(D(RA), XXAA, Live("ra"));
    var p, q := Redone(4, Revivals(2, 4), [7, 8], 3, []), Redone(5, Revivals(3, 5), [8, 9], 3, []);
    var s, t := Two(server, p, other), Two(server, q, other);
    ReadMore(4);
    OneSegApplies(D(ALL), Seg(2, "r"), true, 2, D(ALL));
    OneSegShows(XXAA, Seg(2, "r"), true, 2, XXAA);
    assert OpsOf(p.engine.gh.local) == [MarkA(true), MarkXX(true)];
    ForeignMark(s, 1);
    RoomForSeven();
    OneOfTwo(server, p, other, q);
    DisplaysMore(Live(""), before, s, v, Receive(1), t);
    MarkIsShown(s, v, 1, q.engine, MarkR(2, true));
    assert v.peers[1 := XXAA] == v.peers;
    events := before + [Receive(1)];
  }

  // ---------------------------------------------------------------- client 1 catches up

  function Last(first: nat, second: nat): seq<FatOp> { [N(Revival(MarkA(true), first), 8), N(Revival(MarkXX(true), second), 9)] }

  function Server9(): Server { Server(SEVEN + Last(3, 5), 9, D(ALL), map[1 := 4, 2 := 2]) }

  function Batch3(): ContextOps { ContextOps(7, Revivals(3, 5)) }

  lemma FirstSendsAgain(before: seq<Event>) returns (events: seq<Event>)
    requires Displays(Live(""), before, Two(Server7(), Redone(5, Revivals(3, 5), [8, 9], 3, []), Restored2(2, [])),
                      V(D(RA), XXAA, Live("ra")))
    ensures Displays(Live(""), events, Two(Server9(), Redone(5, Revivals(3, 5), [8, 9], 4, []), Restored2(2, [])),
                     V(D(ALL), XXAA, Live("ra")))
  {
    hide Displays, Step, Sequenced, ValidRun, Replay, ShowAll;
    var other, v := Restored2(2, []), V(D(RA), XXAA, Live("ra"));
    var p, q := Redone(5, Revivals(3, 5), [8, 9], 3, []), Redone(5, Revivals(3, 5), [8, 9], 4, [Batch3()]);
    var s, t := Two(Server7(), p, other), Two(Server7(), q, other);
    var u := Two(Server9(), Redone(5, Revivals(3, 5), [8, 9], 4, []), other);
    SendAll(s, 1);
    OneOfTwo(Server7(), p, other, q);
    DisplaysQuiet(Live(""), before, s, v, Send(1), t);
    SequencedAtCurrentSeq(SEVEN, Revivals(3, 5));
    assert Numbered(Revivals(3, 5), 7) == Last(3, 5);
    RevivalsApply();
    assert OpsOf(Last(3, 5)) == [MarkA(true), MarkXX(true)];
    AdmitAs(t, 1, Batch3(), Last(3, 5));
    OneOfTwo(Server9(), q, other, Redone(5, Revivals(3, 5), [8, 9], 4, []));
    assert map[1 := 3, 2 := 2][1 := 4] == map[1 := 4, 2 := 2];
    DisplaysMore(Live(""), before + [Send(1)], t, v, AdmitBatch(1), u);
    AdmissionIsShown(t, v, 1, Batch3(), Last(3, 5));
    events := before + [Send(1)] + [AdmitBatch(1)];
  }

  lemma FirstCatchesUp(before: seq<Event>) returns (events: seq<Event>, t: Session)
    requires Displays(Live(""), before, Two(Server9(), Redone(5, Revivals(3, 5), [8, 9], 4, []), Restored2(2, [])),
                      V(D(ALL), XXAA, Live("ra")))
    ensures Displays(Live(""), events, t, V(D(ALL), XXAA, Live("ra"))) && CaughtUp(t, 1)
    ensures t.server == Server9() && t.peers[1].doc == D(ALL)
  {
    hide Displays, Step;
    var other, v := Restored2(2, []), V(D(ALL), XXAA, Live("ra"));
    var p := Redone(5, Revivals(3, 5), [8, 9], 4, []);
    var s := Two(Server9(), p, other);
    assert Server9().global[7..] == Last(3, 5) && SEVEN[7..] == [];
    DeliverRest(s, 1);
    OneOfTwo(Server9(), p, other, p.(buffer := Last(3, 5)));
    DisplaysQuiet(Live(""), before, s, v, Deliver(1, 7, 9), Two(Server9(), p.(buffer := Last(3, 5)), other));
    events := before + [Deliver(1, 7, 9)];
    t := DisplaysAck(Live(""), events, Two(Server9(), p.(buffer := Last(3, 5)), other), v, 1);
    events := events + [Receive(1)];
    t := DisplaysAck(Live(""), events, t, v, 1);
    events := events + [Receive(1)];
  }

  /** There is a run of insertions, deletions, undos and one redo, in which every client
      receives only what is harmless to it, and after which a client that has caught up has
      the server's document but shows other text. */
  lemma ScreensCanDiverge()
    ensures exists events, s, v :: Displays(Live(""), events, s, v) && CaughtUp(s, 1) && s.peers[1].doc == s.server.doc
              && 1 in v.peers && v.peers[1] == Doc("xxaa", ALL) && v.server == Doc("xxra", ALL)
  {
    hide Displays, PlainRun;
    var events := JoinAndType();
    events := FirstAcked(events);
    events := OtherSequenced(events);
    events := OtherArrives(events);
    events := UndoneBoth(events);
    events := SecondJoins(events);
    events := SecondDeletes(events);
    events := FirstBatchAdmitted(events);
    events := SecondRestores(events);
    events := SecondSends(events);
    events := FirstReads(events);
    events := DeletionArrives(events);
    events := FirstRedoes(events);
    events := RestorationArrives(events);
    events := FirstSendsAgain(events);
    var s;
    events, s := FirstCatchesUp(events);
    var v := V(D(ALL), XXAA, Live("ra"));
    assert Displays(Live(""), events, s, v);
  }
}
