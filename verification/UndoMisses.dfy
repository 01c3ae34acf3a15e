/** Two runs in which undo goes wrong: it marks another site's text, and a client that
    joined later undoes another site's operation, out of bounds. */
module UndoMisses {
  import opened Ops
  import opened Documents
  import opened Engines
  import opened UndoGeneration
  import opened Tracking
  import opened Sessions
  import opened SessionInvariants
  import opened SessionHistories
  import opened SessionTheorems
  import opened SessionExamples

  function A(seqNo: Option<GlobalSeq>): FatOp { FatOp(seqNo, Ins(Seg(0, "a"), 1), 1, Original, 0) }
  function XX(): FatOp { FatOp(None, Ins(Seg(0, "xx"), 1), 2, Original, 0) }
  function R(seqNo: Option<GlobalSeq>, pos: nat): FatOp { FatOp(seqNo, Ins(Seg(pos, "r"), EXTERNAL_SITE), 1, Original, 0) }

  function Live(text: string): Doc { Doc(text, Repeat(true, |text|)) }

  lemma InsertLive(text: string, op: Op)
    requires op.Ins? && op.seg.pos <= |text| && op.seg.text != ""
    ensures ValidOn(op, text) && Apply(Live(text), op) == Live(Insert(text, op.seg.pos, op.seg.text))
  {}

  function Engine(global: seq<FatOp>, local: seq<FatOp>, queue: seq<GlobalSeq>,
          currentSeq: GlobalSeq, siteSeq: LocalSeq, sent: LocalSeq): Engines.Client {
    Engines.Client(History(global, local, queue, None), 1, currentSeq, siteSeq, sent)
  }

  function Server0(): Server { Server([], 0, Live(""), map[1 := 0]) }
  function Server1(): Server { Server([A(Some(1))], 1, Live("a"), map[1 := 1]) }
  function Server2(): Server { Server([A(Some(1)), R(Some(2), 0)], 2, Live("ra"), map[1 := 1]) }

  function Joined(): Peer { Peer(NewClient(1, 0), Live(""), [], []) }
  function Typed(sent: LocalSeq, buffer: seq<FatOp>, wire: seq<ContextOps>): Peer {
    Peer(Engine([], [A(None)], [1], 0, 1, sent), Live("a"), buffer, wire)
  }
  function Acked(): Peer { Peer(Engine([A(Some(1))], [], [1], 1, 1, 1), Live("a"), [], []) }
  function TypedMore(buffer: seq<FatOp>): Peer { Peer(Engine([A(Some(1))], [XX()], [1, 2], 1, 2, 1), Live("xxa"), buffer, []) }
  function Received(): Peer { Peer(Engine([A(Some(1)), R(Some(2), 2)], [XX()], [1, 3], 2, 2, 1), Live("xxra"), [], []) }

  lemma JoinAndType() returns (events: seq<Event>)
    ensures PlainRun(Live(""), events, One(Server0(), Typed(0, [], [])))
  {
    hide PlainRun;
    var s0, s1 := Opening(Live("")), One(Server0(), Joined());
    NoEvents(Live(""));
    assert map[][1 := 0] == map[1 := 0] && map[][1 := Joined()] == map[1 := Joined()];
    assert Step(s0, Join(1)) == Next(s1);
    PlainQuiet(Live(""), [], s0, Join(1), s1);
    hide Step;
    InsertLive("", A(None).op);
    EditResult(s1, 1, A(None).op);
    assert [] + [A(None)] == [A(None)] && [] + [1] == [1] && Insert("", 0, "a") == "a";
    OnlyOne(Server0(), Joined(), Typed(0, [], []));
    events := [] + [Join(1)] + [Edit(1, A(None).op, 0)];
    PlainEdit(Live(""), [] + [Join(1)], s1, 1, A(None).op, 0, One(Server0(), Typed(0, [], [])));
  }

  lemma FirstAcked(before: seq<Event>) returns (events: seq<Event>)
    requires PlainRun(Live(""), before, One(Server0(), Typed(0, [], [])))
    ensures PlainRun(Live(""), events, One(Server1(), Acked()))
  {
    hide Step, PlainRun;
    var batch := [ContextOps(0, [A(None)])];
    var s1, s2, s3 := One(Server0(), Typed(1, [], batch)), One(Server1(), Typed(1, [], [])), One(Server1(), Typed(1, [A(Some(1))], []));
    SendResult(One(Server0(), Typed(0, [], [])), 1, A(None));
    OnlyOne(Server0(), Typed(0, [], []), Typed(1, [], batch));
    PlainQuiet(Live(""), before, One(Server0(), Typed(0, [], [])), Send(1), s1);
    InsertLive("", A(None).op);
    assert OpsOf(OpsAfter([], 0)) == [] && Batch(A(None).op, []) == A(None).op && Insert("", 0, "a") == "a";
    AdmitResult(s1, 1, 0, A(None), []);
    OnlyOne(Server1(), Typed(1, [], batch), Typed(1, [], []));
    assert [] + [A(Some(1))] == [A(Some(1))] && map[1 := 0][1 := 1] == map[1 := 1];
    PlainQuiet(Live(""), before + [Send(1)], s1, AdmitBatch(1), s2);
    DeliverResult(s2, 1, 0);
    OnlyOne(Server1(), Typed(1, [], []), Typed(1, [A(Some(1))], []));
    PlainQuiet(Live(""), before + [Send(1)] + [AdmitBatch(1)], s2, Deliver(1, 0, 1), s3);
    AckResult(s3, 1, A(Some(1)), A(None));
    OnlyOne(Server1(), Typed(1, [A(Some(1))], []), Acked());
    events := before + [Send(1)] + [AdmitBatch(1)] + [Deliver(1, 0, 1)] + [Receive(1)];
    PlainQuiet(Live(""), before + [Send(1)] + [AdmitBatch(1)] + [Deliver(1, 0, 1)], s3, Receive(1), One(Server1(), Acked()));
  }

  lemma OtherSequenced(before: seq<Event>) returns (events: seq<Event>)
    requires PlainRun(Live(""), before, One(Server1(), Acked()))
    ensures PlainRun(Live(""), events, One(Server2(), TypedMore([R(Some(2), 0)])))
  {
    hide Step, PlainRun;
    var s0, s1, s2 := One(Server1(), Acked()), One(Server1(), TypedMore([])), One(Server2(), TypedMore([]));
    InsertLive("a", XX().op);
    EditResult(s0, 1, XX().op);
    assert [] + [XX()] == [XX()] && [1] + [2] == [1, 2] && Insert("a", 0, "xx") == "xxa";
    OnlyOne(Server1(), Acked(), TypedMore([]));
    PlainEdit(Live(""), before, s0, 1, XX().op, 0, s1);
    InsertLive("a", R(None, 0).op);
    DiskResult(s1, R(None, 0));
    assert [A(Some(1))] + [R(Some(2), 0)] == [A(Some(1)), R(Some(2), 0)] && Insert("a", 0, "r") == "ra";
    var disk := ChangeOnDisk([R(None, 0)]);
    PlainDisk(Live(""), before + [Edit(1, XX().op, 0)], s1, [R(None, 0)], s2);
    DeliverResult(s2, 1, 1);
    OnlyOne(Server2(), TypedMore([]), TypedMore([R(Some(2), 0)]));
    events := before + [Edit(1, XX().op, 0)] + [disk] + [Deliver(1, 1, 2)];
    PlainQuiet(Live(""), before + [Edit(1, XX().op, 0)] + [disk], s2, Deliver(1, 1, 2), One(Server2(), TypedMore([R(Some(2), 0)])));
  }

  lemma OtherArrives(before: seq<Event>) returns (events: seq<Event>)
    requires PlainRun(Live(""), before, One(Server2(), TypedMore([R(Some(2), 0)])))
    ensures PlainRun(Live(""), events, One(Server2(), Received()))
  {
    hide Step, PlainRun;
    var s := One(Server2(), TypedMore([R(Some(2), 0)]));
    InsertLive("xxa", R(None, 2).op);
    ForeignResult(s, 1, R(Some(2), 0), XX(), R(None, 2).op, XX().op);
    assert Insert("xxa", 2, "r") == "xxra" && BumpQueue([1, 2], 1) == [1, 3];
    assert [A(Some(1))] + [R(Some(2), 2)] == [A(Some(1)), R(Some(2), 2)];
    OnlyOne(Server2(), TypedMore([R(Some(2), 0)]), Received());
    events := before + [Receive(1)];
    PlainQuiet(Live(""), before, s, Receive(1), One(Server2(), Received()));
  }

  lemma UndoBoth(fatA: FatOp, fatX: FatOp, fatR: FatOp)
    requires fatA.op == Ins(Seg(0, "a"), 1) && fatX.op == Ins(Seg(0, "xx"), 1) && fatR.op == Ins(Seg(2, "r"), EXTERNAL_SITE)
    requires fatA.groupSeq == fatX.groupSeq
    ensures GenerateUndo(History([fatA, fatR], [fatX], [1, 3], None), false)
         == [Mark([Seg(0, "xx")], false, 1), Mark([Seg(2, "a")], false, 1)]
  {
    hide Batch;
    var h := History([fatA, fatR], [fatX], [1, 3], None);
    var undoX, undoA := Mark([Seg(0, "xx")], false, 1), Mark([Seg(2, "a")], false, 1);
    MarkOverInsertions(fatR.op, fatX.op);
    assert Generated(h, 1, []) == undoX by {
      assert OpsOf(h.AllOpsAfter(3)) + [] == [];
      BatchNothing(Inverse(fatX.op));
    }
    assert Generated(h, 0, [undoX]) == undoA by {
      assert OpsOf(h.AllOpsAfter(1)) + [undoX] == [fatR.op, fatX.op, undoX];
    }
    assert UndoLoop(h, 1, Some(fatX.groupSeq), [undoX]) == UndoLoop(h, 0, Some(fatA.groupSeq), [undoX] + [undoA]);
    assert [] + [undoX] == [undoX] && [undoX] + [undoA] == [undoX, undoA];
  }

  lemma BatchNothing(op: Op)
    ensures Batch(op, []) == op
  {}

  lemma MarkOverInsertions(copy: Op, x: Op)
    requires copy == Ins(Seg(2, "r"), EXTERNAL_SITE) && x == Ins(Seg(0, "xx"), 1)
    ensures Batch(Mark([Seg(0, "a")], false, 1), [copy, x, Mark([Seg(0, "xx")], false, 1)]) == Mark([Seg(2, "a")], false, 1)
  {
    hide Batch;
    var m, moved, undoX := Mark([Seg(0, "a")], false, 1), Mark([Seg(2, "a")], false, 1), Mark([Seg(0, "xx")], false, 1);
    assert Transform(m, copy) == m by {
      assert [Seg(0, "a")][..0] == [];
      assert TransformSegs([Seg(0, "a")], copy.seg, 1, EXTERNAL_SITE) == [] + [Seg(0, "a")];
    }
    assert Transform(m, x) == moved by {
      assert [Seg(0, "a")][..0] == [];
      assert TransformDI(Seg(0, "a"), x.seg, 1, 1) == [Seg(2, "a")];
      assert TransformSegs([Seg(0, "a")], x.seg, 1, 1) == [] + [Seg(2, "a")];
    }
    BatchSnoc(m, [copy, x], undoX);
    BatchSnoc(m, [copy], x);
    BatchSnoc(m, [], copy);
    BatchNothing(m);
    assert [copy, x] + [undoX] == [copy, x, undoX] && [copy] + [x] == [copy, x] && [] + [copy] == [copy];
  }

  lemma TwoMarks()
    ensures var ops := [Mark([Seg(0, "xx")], false, 1), Mark([Seg(2, "a")], false, 1)];
            ValidRun(ops, Live("xxra")) && Replay(Live("xxra"), ops) == Doc("xxra", [false, false, false, true])
  {
    var m1, m2 := Mark([Seg(0, "xx")], false, 1), Mark([Seg(2, "a")], false, 1);
    var d := Live("xxra");
    assert In(m1.segs[0], 0) && In(m1.segs[0], 1) && In(m2.segs[0], 2);
    var d1 := Apply(d, m1);
    assert d1 == Doc("xxra", [false, false, true, true]);
    assert Apply(d1, m2) == Doc("xxra", [false, false, false, true]);
    RunOfOne(d1, m2);
    assert [m1, m2][0] == m1 && [m1, m2][1..] == [m2];
  }

  lemma UndoStep() returns (t: Session)
    ensures var s := One(Server2(), Received());
            Enabled(s, UndoRedo(1, false, 0)) && Step(s, UndoRedo(1, false, 0)) == Next(t)
            && 1 in t.peers && t.peers[1].doc == Doc("xxra", [false, false, false, true])
  {
    var s, h := One(Server2(), Received()), Received().engine.gh;
    UndoBoth(A(Some(1)), XX(), R(Some(2), 2));
    TwoMarks();
    assert IsOwn(h, 1, 1) && IsOwn(h, 1, 3);
    hide Step, GenerateUndo, ValidRun, Replay;
    t := UndoResult(s, 1, false, 0, [Mark([Seg(0, "xx")], false, 1), Mark([Seg(2, "a")], false, 1)]);
  }

  /** Of the entry 0, the user's own insertion of "a", the character at `x` is left. */
  ghost predicate OwnAt(server: Server, p: Peer, x: nat)
    requires HistoryCopies(server, p) && p.engine.gh.PointersInRange() && 0 < |p.engine.gh.undoQueue|
  {
    p.engine.gh.Nth(0).op == Ins(Seg(0, "a"), 1) && forall y: nat :: Touched(server, p, 0, y) <==> y == x
  }

  /** Of another site's insertion of "r", second in the server's history, the character at
      `x` is left. */
  ghost predicate OtherAt(server: Server, p: Peer, x: nat)
    requires HistoryCopies(server, p)
  {
    && |Originals(server, p)| == 3 && Originals(server, p)[1] == R(None, 0).op
    && forall y: nat :: Reached(R(None, 0).op, Originals(server, p)[2..], y) <==> y == x
  }

  /** An undo command takes entry 0, and marks the character at `x` for it. */
  ghost predicate MarksFirst(h: History, x: nat)
    requires h.PointersInRange() && 0 < |h.undoQueue|
  {
    && 0 in Entries(h, false) && Generated(h, 0, []) in GenerateUndo(h, false)
    && Generated(h, 0, []).Mark? && Covers(Generated(h, 0, []).segs, x)
  }

  /** The undo of "a", which is at 3, is going to delete another site's "r" at 2. */
  ghost predicate UndoGoesAstray(server: Server, p: Peer) {
    && HistoryCopies(server, p) && p.engine.gh.PointersInRange() && 0 < |p.engine.gh.undoQueue|
    && p.doc == Live("xxra") && OwnAt(server, p, 3) && OtherAt(server, p, 2) && MarksFirst(p.engine.gh, 2)
  }

  lemma OneReached(ops: seq<Op>, text: string, site: SiteId, q: nat)
    requires |text| == 1 && Track(0, ops) == q
    ensures forall x: nat :: Reached(Ins(Seg(0, text), site), ops, x) <==> x == q
  {
    var op := Ins(Seg(0, text), site);
    TrackGrows(ops, 0);
    assert Touches(op, 0) && forall p: nat :: Touches(op, p) ==> p == 0;
  }

  lemma MarksR(h: History)
    requires h == Received().engine.gh
    ensures h.PointersInRange() && MarksFirst(h, 2)
  {
    hide Batch, Entries, GenerateUndo, History.AllOpsAfter;
    var undoA := Mark([Seg(2, "a")], false, 1);
    UndoBoth(A(Some(1)), XX(), R(Some(2), 2));
    TakesBoth(h);
    CommandTakes(h, false);
    assert Generated(h, 0, []) == Reversals(h, Entries(h, false))[1] == undoA;
    assert In(undoA.segs[0], 2);
  }

  lemma ReceivedOriginals()
    ensures HistoryCopies(Server2(), Received())
    ensures Originals(Server2(), Received()) == [A(None).op, R(None, 0).op, XX().op]
  {
    assert Server2().global[0..2] == Server2().global;
  }

  lemma ReceivedGoesAstray()
    ensures UndoGoesAstray(Server2(), Received()) && Enabled(One(Server2(), Received()), UndoRedo(1, false, 0))
  {
    hide HistoryCopies, Originals, MarksFirst, Reached;
    var p, h := Received(), Received().engine.gh;
    MarksR(h);
    TakesBoth(h);
    ReceivedOriginals();
    var originals := [A(None).op, R(None, 0).op, XX().op];
    assert originals[1..] == [R(None, 0).op, XX().op] && originals[2..] == [XX().op];
    assert [R(None, 0).op, XX().op][1..] == [XX().op] && [XX().op][1..] == [];
    OneReached(originals[1..], "a", 1, 3);
    OneReached(originals[2..], "r", EXTERNAL_SITE, 2);
    assert IsOwn(h, 1, 1) && IsOwn(h, 1, 3);
  }

  lemma TakesBoth(h: History)
    requires h == Received().engine.gh
    ensures Entries(h, false) == [1, 0]
  {
    assert UndoEntries(h, 0, Some(0)) == [];
    assert UndoEntries(h, 1, Some(0)) == [0] + UndoEntries(h, 0, Some(0));
    assert UndoEntries(h, 2, None) == [1] + UndoEntries(h, 1, Some(0));
  }

  /** There is a run in which an undo marks another site's text: the user inserted "a"
      (acknowledged) and "xx" before it (pending); another site's "r", also before the "a",
      arrives; undoing both deletes the "r" and leaves the "a". */
  lemma UndoMarksAnotherCharacter()
    ensures exists events, s :: Reaches(Live(""), events, s) && 1 in s.peers && UndoGoesAstray(s.server, s.peers[1])
              && Enabled(s, UndoRedo(1, false, 0)) && Step(s, UndoRedo(1, false, 0)).Next?
              && 1 in Step(s, UndoRedo(1, false, 0)).session.peers
              && Step(s, UndoRedo(1, false, 0)).session.peers[1].doc == Doc("xxra", [false, false, false, true])
  {
    hide Reaches, Step, UndoGoesAstray, PlainRun;
    var events := JoinAndType();
    events := FirstAcked(events);
    events := OtherSequenced(events);
    events := OtherArrives(events);
    PlainReaches(Live(""), events, One(Server2(), Received()));
    ReceivedGoesAstray();
    var t := UndoStep();
  }

  // ---------------------------------------------------------------- joining later

  function AAA(): FatOp { FatOp(None, Ins(Seg(0, "aaa"), 1), 1, Original, 0) }
  function B(): FatOp { FatOp(Some(1), Ins(Seg(0, "b"), EXTERNAL_SITE), 1, Original, 0) }
  function Later(buffer: seq<FatOp>): Peer { Peer(Engine([], [AAA()], [1], 1, 1, 0), Live("aaab"), buffer, []) }
  function LaterReceived(): Peer { Peer(Engine([R(Some(2), 3)], [AAA()], [1], 2, 1, 0), Live("aaarb"), [], []) }
  function LateServer(): Server { Server([B(), R(Some(2), 0)], 2, Live("rb"), map[1 := 0]) }

  lemma JoinLater() returns (events: seq<Event>)
    ensures Reaches(Live(""), events, One(LateServer(), Later([])))
  {
    hide Reaches;
    var s0, s1 := Opening(Live("")), Session(Server([B()], 1, Live("b"), map[]), map[], {});
    var b := B().(seqNo := None);
    assert Reaches(Live(""), [], s0) by { NoEvents(Live("")); PlainReaches(Live(""), [], s0); }
    InsertLive("", b.op);
    DiskResult(s0, b);
    assert [] + [B()] == [B()] && Insert("", 0, "b") == "b";
    var server, p := Server([B()], 1, Live("b"), map[1 := 0]), Peer(NewClient(1, 1), Live("b"), [], []);
    assert map[][1 := 0] == map[1 := 0] && map[][1 := p] == map[1 := p];
    assert Step(s1, Join(1)) == Next(One(server, p));
    hide Step;
    ReachesMore(Live(""), [], s0, ChangeOnDisk([b]), s1);
    ReachesMore(Live(""), [] + [ChangeOnDisk([b])], s1, Join(1), One(server, p));
    events := TypeLater([] + [ChangeOnDisk([b])] + [Join(1)], server, p);
  }

  lemma TypeLater(before: seq<Event>, server: Server, p: Peer) returns (events: seq<Event>)
    requires server == Server([B()], 1, Live("b"), map[1 := 0]) && p == Peer(NewClient(1, 1), Live("b"), [], [])
    requires Reaches(Live(""), before, One(server, p))
    ensures Reaches(Live(""), events, One(LateServer(), Later([])))
  {
    hide Reaches, Step;
    var s, r := One(server, p), R(None, 0);
    InsertLive("b", AAA().op);
    EditResult(s, 1, AAA().op);
    assert [] + [AAA()] == [AAA()] && [] + [1] == [1] && Insert("b", 0, "aaa") == "aaab";
    OnlyOne(server, p, Later([]));
    ReachesMore(Live(""), before, s, Edit(1, AAA().op, 0), One(server, Later([])));
    InsertLive("b", r.op);
    DiskResult(One(server, Later([])), r);
    assert [B()] + [R(Some(2), 0)] == [B(), R(Some(2), 0)] && Insert("b", 0, "r") == "rb";
    events := before + [Edit(1, AAA().op, 0)] + [ChangeOnDisk([r])];
    ReachesMore(Live(""), before + [Edit(1, AAA().op, 0)], One(server, Later([])), ChangeOnDisk([r]), One(LateServer(), Later([])));
  }

  /** The undo of another site's operation, as it is kept among the operations that were
      pending when it arrived, and carried over these once more. */
  lemma UndoAstray(fatR: FatOp)
    requires fatR.op == Ins(Seg(3, "r"), EXTERNAL_SITE)
    ensures GenerateUndo(History([fatR], [AAA()], [1], None), false) == [Mark([Seg(6, "r")], false, EXTERNAL_SITE)]
  {
    hide Batch;
    var h, m, moved := History([fatR], [AAA()], [1], None), Inverse(fatR.op), Mark([Seg(6, "r")], false, EXTERNAL_SITE);
    assert Transform(m, AAA().op) == moved by {
      assert [Seg(3, "r")][..0] == [];
      assert TransformDI(Seg(3, "r"), AAA().op.seg, EXTERNAL_SITE, 1) == [Seg(6, "r")];
      assert TransformSegs([Seg(3, "r")], AAA().op.seg, EXTERNAL_SITE, 1) == [] + [Seg(6, "r")];
    }
    BatchSnoc(m, [], AAA().op);
    BatchNothing(m);
    assert [] + [AAA().op] == [AAA().op];
    assert OpsOf(h.AllOpsAfter(1)) + [] == [AAA().op];
    assert [] + [moved] == [moved];
  }

  /** The only undo pointer of client 1, for its only pending operation, denotes another
      site's operation, and the undo it leads to is that site's and out of bounds. */
  predicate PointsAstray(s: Session) {
    1 in s.peers &&
    var h := s.peers[1].engine.gh;
    && h.PointersInRange() && |h.undoQueue| == 1 && |h.local| == 1 && h.Nth(0).op.site == EXTERNAL_SITE
    && |GenerateUndo(h, false)| == 1 && GenerateUndo(h, false)[0].site == EXTERNAL_SITE
    && !ValidOn(GenerateUndo(h, false)[0], s.peers[1].doc.text)
  }

  lemma LaterPointsAstray()
    ensures PointsAstray(One(LateServer(), LaterReceived()))
  {
    hide GenerateUndo;
    UndoAstray(R(Some(2), 3));
    var h, m := LaterReceived().engine.gh, Mark([Seg(6, "r")], false, EXTERNAL_SITE);
    assert h == History([R(Some(2), 3)], [AAA()], [1], None) && GenerateUndo(h, false) == [m];
    assert !ValidOn(m, LaterReceived().doc.text) by { assert m.segs[0].End() == 7 && |LaterReceived().doc.text| == 5; }
  }

  /** There is a run after which a client that joined later points astray. */
  lemma LateJoinerLosesPointer()
    ensures exists events, s :: Reaches(Live(""), events, s) && PointsAstray(s)
  {
    hide Reaches, Step, PointsAstray;
    var before := JoinLater();
    var s0, s1, s2 := One(LateServer(), Later([])), One(LateServer(), Later([R(Some(2), 0)])), One(LateServer(), LaterReceived());
    DeliverResult(s0, 1, 1);
    OnlyOne(LateServer(), Later([]), Later([R(Some(2), 0)]));
    ReachesMore(Live(""), before, s0, Deliver(1, 1, 2), s1);
    InsertLive("aaab", R(None, 3).op);
    ForeignResult(s1, 1, R(Some(2), 0), AAA(), R(None, 3).op, AAA().op);
    assert Insert("aaab", 3, "r") == "aaarb" && BumpQueue([1], 1) == [1] && [] + [R(Some(2), 3)] == [R(Some(2), 3)];
    OnlyOne(LateServer(), Later([R(Some(2), 0)]), LaterReceived());
    ReachesMore(Live(""), before + [Deliver(1, 1, 2)], s1, Receive(1), s2);
    LaterPointsAstray();
  }
}
