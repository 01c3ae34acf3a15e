/** Two runs in which a client's work is lost: its batch is refused after a gap, and it
    waits for ever for a number that no operation has. */
module Refusals {
  import opened Ops
  import opened Documents
  import opened Engines
  import opened UndoGeneration
  import opened Sessions
  import opened SessionProofs
  import opened SessionTheorems
  import opened SessionExamples
  import opened UndoMisses

  // ---------------------------------------------------------------- refused

  function Waiting(): Peer { Peer(Engine([A(Some(1))], [XX()], [1, 2], 1, 2, 2), Live("xxa"), [], [ContextOps(1, [XX()])]) }

  function Server3(sent: LocalSeq): Server {
    Server([A(Some(1)), R(Some(2), 0), R(Some(3), 0)], 3, Live("rra"), map[1 := sent])
  }

  lemma SecondSent(before: seq<Event>) returns (events: seq<Event>)
    requires PlainRun(Live(""), before, One(Server1(), Acked()))
    ensures PlainRun(Live(""), events, One(Server1(), Waiting()))
  {
    hide Step, PlainRun;
    var s0, s1 := One(Server1(), Acked()), One(Server1(), TypedMore([]));
    InsertLive("a", XX().op);
    EditResult(s0, 1, XX().op);
    assert [] + [XX()] == [XX()] && [1] + [2] == [1, 2] && Insert("a", 0, "xx") == "xxa";
    OnlyOne(Server1(), Acked(), TypedMore([]));
    PlainEdit(Live(""), before, s0, 1, XX().op, 0, s1);
    SendAll(s1, 1);
    OnlyOne(Server1(), TypedMore([]), Waiting());
    events := before + [Edit(1, XX().op, 0)] + [Send(1)];
    PlainQuiet(Live(""), before + [Edit(1, XX().op, 0)], s1, Send(1), One(Server1(), Waiting()));
  }

  lemma TwoChanges(before: seq<Event>) returns (events: seq<Event>)
    requires PlainRun(Live(""), before, One(Server1(), Waiting()))
    ensures PlainRun(Live(""), events, One(Server3(1), Waiting()))
  {
    hide Step, PlainRun;
    var s0, s1, s2 := One(Server1(), Waiting()), One(Server2(), Waiting()), One(Server3(1), Waiting());
    InsertLive("a", R(None, 0).op);
    DiskResult(s0, R(None, 0));
    assert [A(Some(1))] + [R(Some(2), 0)] == [A(Some(1)), R(Some(2), 0)] && Insert("a", 0, "r") == "ra";
    PlainDisk(Live(""), before, s0, [R(None, 0)], s1);
    InsertLive("ra", R(None, 0).op);
    DiskResult(s1, R(None, 0));
    assert [A(Some(1)), R(Some(2), 0)] + [R(Some(3), 0)] == Server3(1).global && Insert("ra", 0, "r") == "rra";
    events := before + [ChangeOnDisk([R(None, 0)])] + [ChangeOnDisk([R(None, 0)])];
    PlainDisk(Live(""), before + [ChangeOnDisk([R(None, 0)])], s1, [R(None, 0)], s2);
  }

  /** The operation after the missing one is delivered, and skipped; so the client asks for
      what is missing. */
  lemma GapIsSkipped()
    ensures var s := One(Server3(1), Waiting());
            Enabled(s, Deliver(1, 2, 3)) && Step(s, Deliver(1, 2, 3)) == Next(s.(asking := {1}))
  {
    var s := One(Server3(1), Waiting());
    DeliveryAsksIff(s.server.global, 1, [], 2, 3);
    OnlyOne(Server3(1), Waiting(), Waiting());
  }

  /** There is a run in which a client loses its work: an operation gets lost on its way to
      it while its second batch is on the way to the server, the next one arrives, so it
      requests what is missing; then the batch arrives and is refused. */
  lemma BatchIsRefused()
    ensures exists events, s :: Reaches(Live(""), events + [Deliver(1, 2, 3)] + [Request(1)], s)
              && 1 in s.peers && s.peers[1].buffer == [] && s.peers[1].engine.currentSeq == 1 && s.peers[1].engine.gh.local == [XX()]
              && Enabled(s, AdmitBatch(1)) && Refused(s, AdmitBatch(1)) && Step(s, AdmitBatch(1)) == Next(Dropping(s, 1))
  {
    hide PlainRun, Reaches;
    var events := JoinAndType();
    events := FirstAcked(events);
    events := SecondSent(events);
    events := TwoChanges(events);
    var s, t := One(Server3(1), Waiting()), One(Server3(0), Waiting()).(asking := {1});
    GapIsSkipped();
    assert Step(s.(asking := {1}), Request(1)) == Next(t) by { assert map[1 := 1][1 := 0] == map[1 := 0]; }
    assert Refused(t, AdmitBatch(1)) && Step(t, AdmitBatch(1)) == Next(Dropping(t, 1));
    hide Step;
    PlainReaches(Live(""), events, s);
    ReachesMore(Live(""), events, s, Deliver(1, 2, 3), s.(asking := {1}));
    ReachesMore(Live(""), events + [Deliver(1, 2, 3)], s.(asking := {1}), Request(1), t);
  }

  // ---------------------------------------------------------------- stuck

  function Idle(): Peer { Peer(Engine([], [], [], 0, 1, 0), Live(""), [], []) }
  function Tried(): Peer { Peer(Engine([], [A(None).(siteSeq := 2)], [1], 0, 2, 0), Live("a"), [], []) }

  lemma NothingToUndo()
    ensures var h := Joined().engine.gh;
            && h.PointersInRange() && GenerateUndo(h, false) == [] && OwnCommand(h, false, 1)
            && LocalOps(Joined().engine, [], EditUndo, 0) == Ok(Idle().engine)
            && ValidRun([], Live("")) && Replay(Live(""), []) == Live("")
  {}

  /** There is a run after which a client waits for ever: an undo with nothing to undo uses
      up its first number, and what the user types then never goes out (`StuckForever`). */
  lemma ClientGetsStuck()
    ensures exists events, s :: Reaches(Live(""), events, s) && 1 in s.peers
              && Stuck(s.peers[1].engine) && s.peers[1].engine.gh.local != [] && s.server.global == []
  {
    hide Reaches, PlainRun;
    var s0, s1, s2, s3 := Opening(Live("")), One(Server0(), Joined()), One(Server0(), Idle()), One(Server0(), Tried());
    NoEvents(Live(""));
    PlainReaches(Live(""), [], s0);
    JoinResult(s0, 1);
    assert map[][1 := 0] == map[1 := 0] && map[][1 := Joined()] == map[1 := Joined()];
    NothingToUndo();
    InsertLive("", A(None).op);
    assert !IsPending(Tried().engine.gh.local, 1);
    hide Step, GenerateUndo, ValidRun, Replay, LocalOps, OwnCommand;
    ReachesMore(Live(""), [], s0, Join(1), s1);
    var t := UndoResult(s1, 1, false, 0, []);
    OnlyOne(Server0(), Joined(), Idle());
    ReachesMore(Live(""), [] + [Join(1)], s1, UndoRedo(1, false, 0), s2);
    EditResult(s2, 1, A(None).op);
    assert [] + [A(None).(siteSeq := 2)] == [A(None).(siteSeq := 2)] && [] + [1] == [1] && Insert("", 0, "a") == "a";
    OnlyOne(Server0(), Idle(), Tried());
    ReachesMore(Live(""), [] + [Join(1)] + [UndoRedo(1, false, 0)], s2, Edit(1, A(None).op, 0), s3);
  }
}
