/** Linear undo and redo restore text: the engine's history with its undo queue behaves
    like a plain list of earlier and later texts with a position in it. */
module LinearUndo {
  import opened Ops
  import opened Documents
  import opened Engines
  import opened Views
  import opened Tracking
  import opened Layers
  import opened UndoGeneration

  // ---------------------------------------------------------------- the reference

  /** `texts[i]` is the text when the first `i` edits are done; edits of one group are
      undone and redone together. */
  datatype Timeline = Timeline(texts: seq<string>, groups: seq<GroupSeq>, at: nat) {
    predicate Ok() { |texts| == |groups| + 1 && at <= |groups| }

    function Now(): string
      requires Ok()
    {
      texts[at]
    }

    function Edit(text: string, group: GroupSeq): Timeline
      requires Ok()
    {
      Timeline(texts[..at + 1] + [text], groups[..at] + [group], at + 1)
    }

    /** Back to before the run of edits that have the group of the last one. */
    function Undo(group: GroupSeq): Timeline
      requires Ok()
    {
      var to := if at == 0 then 0 else RunBegin(groups, at, groups[at - 1]);
      this.(at := to, groups := Regroup(groups, to, at, group))
    }

    /** Forward over the run of edits that have the group of the next one. */
    function Redo(group: GroupSeq): Timeline
      requires Ok()
    {
      var to := if at == |groups| then at else RunFinish(groups, at, groups[at]);
      this.(at := to, groups := Regroup(groups, at, to, group))
    }
  }

  function RunBegin(groups: seq<GroupSeq>, i: nat, group: GroupSeq): (r: nat)
    requires i <= |groups|
    ensures r <= i && forall k :: r <= k < i ==> groups[k] == group
    ensures r > 0 ==> groups[r - 1] != group
    decreases i
  {
    if i > 0 && groups[i - 1] == group then RunBegin(groups, i - 1, group) else i
  }

  function RunFinish(groups: seq<GroupSeq>, i: nat, group: GroupSeq): (r: nat)
    requires i <= |groups|
    ensures i <= r <= |groups| && forall k :: i <= k < r ==> groups[k] == group
    ensures r < |groups| ==> groups[r] != group
    decreases |groups| - i
  {
    if i < |groups| && groups[i] == group then RunFinish(groups, i + 1, group) else i
  }

  function Regroup(groups: seq<GroupSeq>, lo: nat, hi: nat, group: GroupSeq): (r: seq<GroupSeq>)
    ensures |r| == |groups| && forall k :: 0 <= k < |groups| ==> r[k] == if lo <= k < hi then group else groups[k]
  {
    seq(|groups|, k requires 0 <= k < |groups| => if lo <= k < hi then group else groups[k])
  }

  /** An undo followed by a redo is back where it began, unless the edit that was next to
      be redone already has the group that the editor gave to the undo command. */
  lemma RedoReversesUndo(t: Timeline, g: GroupSeq, g': GroupSeq)
    requires t.Ok() && t.at > 0
    ensures t.Undo(g).Ok() && t.Undo(g).Redo(g').texts == t.texts
    ensures t.Undo(g).Redo(g').at == t.at <==> (t.at == |t.groups| || t.groups[t.at] != g)
  {
    var u := t.Undo(g);
    var to := RunFinish(u.groups, u.at, g);
    assert u.at < t.at;
    assert forall k :: u.at <= k < t.at ==> u.groups[k] == g;
    assert t.at < |t.groups| ==> u.groups[t.at] == t.groups[t.at];
  }

  // ---------------------------------------------------------------- the engine represents it

  function OpsIn(h: History): seq<Op> { OpsOf(h.All()) }

  ghost predicate Represents(start: Doc, h: History, layers: seq<seq<bool>>, t: Timeline) {
    && h.PointersInRange() && t.Ok()
    && Layered(start, OpsIn(h), h.undoQueue, h.Done(), layers)
    && t.at == h.Done() && |t.groups| == |h.undoQueue|
    && (forall i :: 0 <= i < |h.undoQueue| ==> t.groups[i] == h.Nth(i).groupSeq)
    && (forall j :: 0 <= j < |layers| ==> t.texts[j] == Visible(Replay(start, OpsIn(h)).text, layers[j]))
  }

  lemma NthIs(h: History, i: nat)
    requires h.PointersInRange() && i < |h.undoQueue|
    ensures h.Nth(i) == h.All()[h.undoQueue[i] - 1]
    ensures h.AllOpsAfter(h.undoQueue[i]) == h.All()[h.undoQueue[i]..]
  {}

  /** The operation that reverses entry `i`, as the history stands. */
  function Reversing(h: History, i: nat): Op
    requires h.PointersInRange() && i < |h.undoQueue|
  {
    Undoing(OpsIn(h), h.undoQueue[i] - 1)
  }

  /** What a command generates does not depend on what it generated before. */
  lemma GeneratedIs(h: History, i: nat, acc: seq<Op>)
    requires h.PointersInRange() && i < |h.undoQueue| && AllMarks(acc)
    ensures Generated(h, i, acc) == Reversing(h, i) && Generated(h, i, acc).Mark?
    ensures AllMarks(acc + [Generated(h, i, acc)])
  {
    NthIs(h, i);
    var k := h.undoQueue[i];
    assert OpsOf(h.All()[k..]) == OpsIn(h)[k..] && OpsIn(h)[k - 1] == h.Nth(i).op;
    BatchOverMarks(Inverse(h.Nth(i).op), OpsOf(h.AllOpsAfter(k)), acc);
    BatchKeepsMeta(Inverse(h.Nth(i).op), OpsIn(h)[k..]);
  }

  function UndoList(h: History, s: nat, t: nat): seq<Op>
    requires h.PointersInRange() && s <= t <= |h.undoQueue|
    decreases t
  {
    if s == t then [] else [Reversing(h, t - 1)] + UndoList(h, s, t - 1)
  }

  function RedoList(h: History, s: nat, t: nat): seq<Op>
    requires h.PointersInRange() && s <= t <= |h.undoQueue|
    decreases t - s
  {
    if s == t then [] else [Reversing(h, s)] + RedoList(h, s + 1, t)
  }

  predicate GroupsOf(h: History, groups: seq<GroupSeq>)
    requires h.PointersInRange()
  {
    |groups| == |h.undoQueue| && forall i :: 0 <= i < |groups| ==> groups[i] == h.Nth(i).groupSeq
  }

  lemma {:induction false} UndoLoopIs(h: History, i: nat, group: Option<GroupSeq>, acc: seq<Op>, groups: seq<GroupSeq>)
    requires h.PointersInRange() && i <= |h.undoQueue| && AllMarks(acc) && GroupsOf(h, groups)
    ensures var s := if i == 0 then 0 else RunBegin(groups, i, if group.Some? then group.value else groups[i - 1]);
            UndoLoop(h, i, group, acc) == acc + UndoList(h, s, i)
    decreases i
  {
    hide Reversing, Generated, Undoing;
    if i == 0 || (group.Some? && group.value != h.Nth(i - 1).groupSeq) {
    } else {
      var g := h.Nth(i - 1).groupSeq;
      GeneratedIs(h, i - 1, acc);
      UndoLoopIs(h, i - 1, Some(g), acc + [Generated(h, i - 1, acc)], groups);
      var s := RunBegin(groups, i, g);
      assert UndoList(h, s, i) == [Reversing(h, i - 1)] + UndoList(h, s, i - 1);
    }
  }

  lemma {:induction false} RedoLoopIs(h: History, i: nat, group: Option<GroupSeq>, acc: seq<Op>, groups: seq<GroupSeq>)
    requires h.PointersInRange() && i <= |h.undoQueue| && AllMarks(acc) && GroupsOf(h, groups)
    ensures var t := if i == |groups| then i else RunFinish(groups, i, if group.Some? then group.value else groups[i]);
            RedoLoop(h, i, group, acc) == acc + RedoList(h, i, t)
    decreases |h.undoQueue| - i
  {
    hide Reversing, Generated, Undoing;
    if i == |h.undoQueue| || (group.Some? && group.value != h.Nth(i).groupSeq) {
    } else {
      var g := h.Nth(i).groupSeq;
      GeneratedIs(h, i, acc);
      RedoLoopIs(h, i + 1, Some(g), acc + [Generated(h, i, acc)], groups);
      var t := RunFinish(groups, i, g);
      assert RedoList(h, i, t) == [Reversing(h, i)] + RedoList(h, i + 1, t);
    }
  }

  // ---------------------------------------------------------------- one entry at a time

  /** Undoing the last done entry, or redoing the first undone one, moves by one. */
  lemma PushReverse(start: Doc, h: History, layers: seq<seq<bool>>, t: Timeline, redo: bool, siteSeq: LocalSeq, group: GroupSeq)
    requires Represents(start, h, layers, t)
    requires if redo then h.Done() < |h.undoQueue| else h.Done() > 0
    ensures var i := if redo then h.Done() else h.Done() - 1;
            var u := Reversing(h, i);
            var r := PushLocal(h, u, siteSeq, CommandKind(redo), group);
            && ValidOn(u, Replay(start, OpsIn(h)).text)
            && r.Ok? && OpsIn(r.value) == OpsIn(h) + [u] && r.value.undoQueue == h.undoQueue[i := |OpsIn(h)| + 1]
            && Represents(start, r.value, layers,
                          t.(at := if redo then t.at + 1 else t.at - 1, groups := t.groups[i := group]))
  {
    hide Layered, Undoing, Visible, ValidRun, Replay, PushLocal;
    var i := if redo then h.Done() else h.Done() - 1;
    assert Layered(start, OpsIn(h), h.undoQueue, h.Done(), layers);
    LayeredBounds(start, OpsIn(h), h.undoQueue, h.Done(), layers);
    Reverse(start, OpsIn(h), h.undoQueue, h.Done(), layers, i);
    var u := Reversing(h, i);
    PushShape(h, u, siteSeq, CommandKind(redo), group);
    var h' := PushLocal(h, u, siteSeq, CommandKind(redo), group).value;
    assert OpsIn(h') == OpsIn(h) + [u];
    ReversedGroups(h, h', i, group);
  }

  /** The entry that was reversed now has the group of the command, the others keep theirs. */
  lemma ReversedGroups(h: History, h': History, i: nat, group: GroupSeq)
    requires h.PointersInRange() && h'.PointersInRange() && i < |h.undoQueue|
    requires h'.global == h.global && |h'.local| == |h.local| + 1 && h'.local[..|h.local|] == h.local
    requires h'.local[|h.local|].groupSeq == group && h'.undoQueue == h.undoQueue[i := h.Total() + 1]
    ensures forall j :: 0 <= j < |h'.undoQueue| ==> h'.Nth(j).groupSeq == if j == i then group else h.Nth(j).groupSeq
  {
    assert h'.All()[..h.Total()] == h.All();
    forall j | 0 <= j < |h'.undoQueue| ensures h'.Nth(j).groupSeq == if j == i then group else h.Nth(j).groupSeq {
      NthIs(h', j);
      if j != i { NthIs(h, j); }
    }
  }

  lemma LayeredBounds(start: Doc, ops: seq<Op>, queue: seq<nat>, done: nat, layers: seq<seq<bool>>)
    requires Layered(start, ops, queue, done, layers)
    ensures Coherent(start) && ValidRun(ops, start) && |layers| == |queue| + 1 && done <= |queue|
    ensures forall j :: 0 <= j < |layers| ==> |layers[j]| == |Replay(start, ops).text|
    ensures layers[done] == Replay(start, ops).live
  {}

  /** A mark at the end of the history changes no other reversing operation. */
  lemma ReversingStays(h: History, h': History, i: nat, u: Op)
    requires h.PointersInRange() && h'.PointersInRange() && i < |h.undoQueue| == |h'.undoQueue|
    requires OpsIn(h') == OpsIn(h) + [u] && u.Mark? && h'.undoQueue[i] == h.undoQueue[i]
    ensures Reversing(h', i) == Reversing(h, i)
  {
    UndoingAfter(OpsIn(h), h.undoQueue[i] - 1, u);
  }

  lemma {:induction false} UndoListStays(h: History, h': History, s: nat, i: nat, u: Op)
    requires h.PointersInRange() && h'.PointersInRange() && s <= i <= |h.undoQueue| == |h'.undoQueue|
    requires OpsIn(h') == OpsIn(h) + [u] && u.Mark? && forall j :: s <= j < i ==> h'.undoQueue[j] == h.undoQueue[j]
    ensures UndoList(h', s, i) == UndoList(h, s, i)
    decreases i
  {
    hide Reversing, OpsIn;
    if s < i {
      ReversingStays(h, h', i - 1, u);
      UndoListStays(h, h', s, i - 1, u);
    }
  }

  lemma {:induction false} RedoListStays(h: History, h': History, i: nat, e: nat, u: Op)
    requires h.PointersInRange() && h'.PointersInRange() && i <= e <= |h.undoQueue| == |h'.undoQueue|
    requires OpsIn(h') == OpsIn(h) + [u] && u.Mark? && forall j :: i <= j < e ==> h'.undoQueue[j] == h.undoQueue[j]
    ensures RedoList(h', i, e) == RedoList(h, i, e)
    decreases e - i
  {
    hide Reversing, OpsIn;
    if i < e {
      ReversingStays(h, h', i, u);
      RedoListStays(h, h', i + 1, e, u);
    }
  }

  // ---------------------------------------------------------------- whole commands

  lemma RepresentsBasics(start: Doc, h: History, layers: seq<seq<bool>>, t: Timeline)
    requires Represents(start, h, layers, t)
    ensures Coherent(start) && ValidRun(OpsIn(h), start)
    ensures h.PointersInRange() && t.Ok() && t.at == h.Done() && |t.groups| == |h.undoQueue|
  {}

  lemma EmptyRun(d: Doc)
    requires Coherent(d)
    ensures ValidRun([], d)
  {}

  /** A run of entries is undone. */
  lemma {:induction false} PushUndoRun(start: Doc, h: History, layers: seq<seq<bool>>, t: Timeline, s: nat,
          siteSeq: LocalSeq, group: GroupSeq)
    requires Represents(start, h, layers, t) && s <= h.Done()
    ensures var ops := UndoList(h, s, h.Done());
            var r := PushAll(h, ops, siteSeq, EditUndo, group);
            && ValidRun(ops, Replay(start, OpsIn(h))) && r.Ok?
            && Represents(start, r.value, layers, t.(at := s, groups := Regroup(t.groups, s, t.at, group)))
    decreases h.Done()
  {
    hide Represents, Undoing, Visible, Layered, Reversing, PushLocal, Replay, ValidRun, OpsIn;
    RepresentsBasics(start, h, layers, t);
    if s == h.Done() {
      EmptyRun(Replay(start, OpsIn(h)));
      assert Regroup(t.groups, s, t.at, group) == t.groups;
    } else {
      var i := h.Done() - 1;
      var u := Reversing(h, i);
      PushReverse(start, h, layers, t, false, siteSeq, group);
      GeneratedIs(h, i, []);
      var h' := PushLocal(h, u, siteSeq, EditUndo, group).value;
      var t' := t.(at := i, groups := t.groups[i := group]);
      RepresentsBasics(start, h', layers, t');
      UndoListStays(h, h', s, i, u);
      PushUndoRun(start, h', layers, t', s, siteSeq, group);
      ConsRun(start, OpsIn(h), u, UndoList(h, s, i));
      assert Regroup(t'.groups, s, i, group) == Regroup(t.groups, s, t.at, group);
    }
  }

  lemma {:induction false} PushRedoRun(start: Doc, h: History, layers: seq<seq<bool>>, t: Timeline, e: nat,
          siteSeq: LocalSeq, group: GroupSeq)
    requires Represents(start, h, layers, t) && h.Done() <= e <= |h.undoQueue|
    ensures var ops := RedoList(h, h.Done(), e);
            var r := PushAll(h, ops, siteSeq, EditRedo, group);
            && ValidRun(ops, Replay(start, OpsIn(h))) && r.Ok?
            && Represents(start, r.value, layers, t.(at := e, groups := Regroup(t.groups, t.at, e, group)))
    decreases e - h.Done()
  {
    hide Represents, Undoing, Visible, Layered, Reversing, PushLocal, Replay, ValidRun, OpsIn;
    RepresentsBasics(start, h, layers, t);
    if e == h.Done() {
      EmptyRun(Replay(start, OpsIn(h)));
      assert Regroup(t.groups, t.at, e, group) == t.groups;
    } else {
      var i := h.Done();
      var u := Reversing(h, i);
      PushReverse(start, h, layers, t, true, siteSeq, group);
      GeneratedIs(h, i, []);
      var h' := PushLocal(h, u, siteSeq, EditRedo, group).value;
      var t' := t.(at := i + 1, groups := t.groups[i := group]);
      RepresentsBasics(start, h', layers, t');
      RedoListStays(h, h', i + 1, e, u);
      PushRedoRun(start, h', layers, t', e, siteSeq, group);
      ConsRun(start, OpsIn(h), u, RedoList(h, i + 1, e));
      assert Regroup(t'.groups, i + 1, e, group) == Regroup(t.groups, t.at, e, group);
    }
  }

  lemma ConsRun(start: Doc, ops: seq<Op>, u: Op, rest: seq<Op>)
    requires Coherent(start) && ValidRun(ops, start) && ValidOn(u, Replay(start, ops).text)
    requires ValidRun(ops + [u], start) && ValidRun(rest, Replay(start, ops + [u]))
    ensures ValidRun([u] + rest, Replay(start, ops))
  {
    ReplaySnoc(start, ops, u);
    assert ([u] + rest)[0] == u && ([u] + rest)[1..] == rest;
  }

  /** What a single user does; an acknowledgement moves an operation to the global
      section without changing what it does. */
  datatype Command =
    | Edits(op: Op, group: GroupSeq)
    | Undoes(group: GroupSeq)
    | Redoes(group: GroupSeq)
    | Acked(fat: FatOp)

  predicate Sensible(start: Doc, h: History, c: Command)
    requires Coherent(start) && ValidRun(OpsIn(h), start)
  {
    match c
    case Edits(op, _) => OriginalEdit(Replay(start, OpsIn(h)), op)
    case Acked(fat) => h.local != [] && fat.op == h.local[0].op && fat.groupSeq == h.local[0].groupSeq
    case _ => true
  }

  function Execute(h: History, c: Command, siteSeq: LocalSeq): Result<History>
    requires h.PointersInRange()
  {
    match c
    case Edits(op, group) => PushAll(h, [op], siteSeq, EditOriginal, group)
    case Undoes(group) => PushAll(h, GenerateUndo(h, false), siteSeq, EditUndo, group)
    case Redoes(group) => PushAll(h, GenerateUndo(h, true), siteSeq, EditRedo, group)
    case Acked(fat) => if h.local == [] then Err(OpMissing) else Ok(h.(global := h.global + [fat], local := h.local[1..]))
  }

  function Expected(t: Timeline, c: Command, now: string): Timeline
    requires t.Ok()
  {
    match c
    case Edits(_, group) => t.Edit(now, group)
    case Undoes(group) => t.Undo(group)
    case Redoes(group) => t.Redo(group)
    case Acked(_) => t
  }

  function VisibleText(start: Doc, h: History): string
    requires Coherent(start) && ValidRun(OpsIn(h), start)
  {
    var d := Replay(start, OpsIn(h));
    Visible(d.text, d.live)
  }

  lemma RepresentsReplay(start: Doc, h: History, layers: seq<seq<bool>>, t: Timeline)
    requires Represents(start, h, layers, t)
    ensures Coherent(start) && ValidRun(OpsIn(h), start) && t.Now() == VisibleText(start, h)
  {}

  lemma EditKeepsTimeline(start: Doc, h: History, layers: seq<seq<bool>>, t: Timeline, op: Op, siteSeq: LocalSeq, group: GroupSeq)
    returns (layers': seq<seq<bool>>)
    requires Represents(start, h, layers, t) && OriginalEdit(Replay(start, OpsIn(h)), op)
    ensures var r := PushAll(h, [op], siteSeq, EditOriginal, group);
            r.Ok? && ValidRun(OpsIn(r.value), start)
            && Represents(start, r.value, layers', t.Edit(VisibleText(start, r.value), group))
  {
    hide Represents, Undoing, Visible, ValidRun, Replay, PushLocal, OriginalEdit, OpsIn;
    RepresentsBasics(start, h, layers, t);
    PushShape(h, op, siteSeq, EditOriginal, group);
    PushOne(h, op, siteSeq, EditOriginal, group);
    layers' := EditRepresents(start, h, PushLocal(h, op, siteSeq, EditOriginal, group).value, layers, t, op, group);
  }

  /** The history after an original edit represents the timeline after it. */
  lemma EditRepresents(start: Doc, h: History, h': History, layers: seq<seq<bool>>, t: Timeline, op: Op, group: GroupSeq)
    returns (layers': seq<seq<bool>>)
    requires Represents(start, h, layers, t) && OriginalEdit(Replay(start, OpsIn(h)), op)
    requires h'.PointersInRange() && h'.global == h.global && |h'.local| == |h.local| + 1 && h'.local[..|h.local|] == h.local
    requires h'.local[|h.local|].op == op && h'.local[|h.local|].groupSeq == group
    requires h'.undoQueue == h.undoQueue[..h.Done()] + [h.Total() + 1] && h'.Done() == h.Done() + 1
    ensures ValidRun(OpsIn(h'), start)
    ensures Represents(start, h', layers', t.Edit(VisibleText(start, h'), group))
  {
    hide Layered, Undoing, Visible, ValidRun, Replay, Lift, OriginalEdit, OpsIn, Apply, Edited;
    LayeredBounds(start, OpsIn(h), h.undoQueue, h.Done(), layers);
    var ops, done := OpsIn(h), h.Done();
    EditIsValid(Replay(start, ops), op);
    EditLayers(start, ops, h.undoQueue, done, layers, op);
    assert h'.local == h.local + [h'.local[|h.local|]];
    OpsInSnoc(h, h', h'.local[|h.local|]);
    layers' := Edited(layers, done, op, Replay(start, ops + [op]));
    EditedGroups(h, h', done);
    EditedTexts(start, ops, layers, done, op);
  }

  lemma OpsInSnoc(h: History, h': History, fat: FatOp)
    requires h'.global == h.global && h'.local == h.local + [fat]
    ensures OpsIn(h') == OpsIn(h) + [fat.op] && |OpsIn(h)| == h.Total()
  {}

  /** The layers below an edit show what they showed, the layer on top is the document. */
  lemma EditedTexts(start: Doc, ops: seq<Op>, layers: seq<seq<bool>>, done: nat, op: Op)
    requires Coherent(start) && ValidRun(ops, start) && ValidOn(op, Replay(start, ops).text) && done < |layers|
    requires forall j :: 0 <= j < |layers| ==> |layers[j]| == |Replay(start, ops).text|
    ensures ValidRun(ops + [op], start)
    ensures var after := Replay(start, ops + [op]);
            var layers' := Edited(layers, done, op, after);
            && |layers'| == done + 2 && layers'[done + 1] == after.live
            && forall j :: 0 <= j <= done ==>
                 |layers'[j]| == |after.text| && Visible(after.text, layers'[j]) == Visible(Replay(start, ops).text, layers[j])
  {
    hide Visible, ValidRun, Replay, Lift;
    ReplaySnoc(start, ops, op);
    AfterLen(Replay(start, ops), op);
    var text' := Replay(start, ops + [op]).text;
    var layers' := Edited(layers, done, op, Replay(start, ops + [op]));
    forall j | 0 <= j <= done
      ensures |layers'[j]| == |text'| && Visible(text', layers'[j]) == Visible(Replay(start, ops).text, layers[j])
    {
      LiftVisible(Replay(start, ops).text, layers[j], op);
    }
  }

  lemma EditIsValid(d: Doc, e: Op)
    requires Coherent(d) && OriginalEdit(d, e)
    ensures ValidOn(e, d.text)
  {}

  /** Entries that stay keep their groups. */
  lemma EditedGroups(h: History, h': History, done: nat)
    requires h.PointersInRange() && h'.PointersInRange() && done <= |h.undoQueue|
    requires h'.global == h.global && |h'.local| == |h.local| + 1 && h'.local[..|h.local|] == h.local
    requires h'.undoQueue == h.undoQueue[..done] + [h.Total() + 1]
    ensures forall j :: 0 <= j < done ==> h'.Nth(j).groupSeq == h.Nth(j).groupSeq
    ensures h'.Nth(done) == h'.local[|h.local|]
  {
    assert h'.All()[..h.Total()] == h.All();
    forall j | 0 <= j < done ensures h'.Nth(j).groupSeq == h.Nth(j).groupSeq {
      NthIs(h', j);
      NthIs(h, j);
    }
  }

  lemma AckKeepsTimeline(start: Doc, h: History, layers: seq<seq<bool>>, t: Timeline, fat: FatOp)
    requires Represents(start, h, layers, t)
    requires h.local != [] && fat.op == h.local[0].op && fat.groupSeq == h.local[0].groupSeq
    ensures Represents(start, h.(global := h.global + [fat], local := h.local[1..]), layers, t)
  {
    hide Layered, Visible, ValidRun, Replay, OpsIn;
    AckedHistory(h, h.(global := h.global + [fat], local := h.local[1..]), fat);
  }

  lemma AckedHistory(h: History, h': History, fat: FatOp)
    requires h.PointersInRange() && h.local != [] && fat.op == h.local[0].op && fat.groupSeq == h.local[0].groupSeq
    requires h' == h.(global := h.global + [fat], local := h.local[1..])
    ensures OpsIn(h') == OpsIn(h) && h'.PointersInRange() && h'.Done() == h.Done()
    ensures forall i :: 0 <= i < |h.undoQueue| ==> h'.Nth(i).groupSeq == h.Nth(i).groupSeq
  {
    assert OpsIn(h') == OpsIn(h);
    forall i | 0 <= i < |h.undoQueue| ensures h'.Nth(i).groupSeq == h.Nth(i).groupSeq {
      NthIs(h, i);
      NthIs(h', i);
    }
  }

  /** Every command does to the visible text what the timeline says. */
  lemma CommandKeepsTimeline(start: Doc, h: History, layers: seq<seq<bool>>, t: Timeline, c: Command, siteSeq: LocalSeq)
    returns (layers': seq<seq<bool>>)
    requires Represents(start, h, layers, t) && Coherent(start) && ValidRun(OpsIn(h), start) && Sensible(start, h, c)
    ensures var r := Execute(h, c, siteSeq);
            r.Ok? && ValidRun(OpsIn(r.value), start)
            && Represents(start, r.value, layers', Expected(t, c, VisibleText(start, r.value)))
  {
    hide Layered, Undoing, Visible, ValidRun, Replay, PushAll;
    layers' := layers;
    match c
    case Edits(op, group) =>
      layers' := EditKeepsTimeline(start, h, layers, t, op, siteSeq, group);
    case Undoes(group) =>
      UndoLoopIs(h, h.Done(), None, [], t.groups);
      var s := if t.at == 0 then 0 else RunBegin(t.groups, t.at, t.groups[t.at - 1]);
      assert [] + UndoList(h, s, h.Done()) == UndoList(h, s, h.Done());
      PushUndoRun(start, h, layers, t, s, siteSeq, group);
      RepresentsReplay(start, Execute(h, c, siteSeq).value, layers, t.Undo(group));
    case Redoes(group) =>
      RedoLoopIs(h, h.Done(), None, [], t.groups);
      var e := if t.at == |t.groups| then t.at else RunFinish(t.groups, t.at, t.groups[t.at]);
      assert [] + RedoList(h, h.Done(), e) == RedoList(h, h.Done(), e);
      PushRedoRun(start, h, layers, t, e, siteSeq, group);
      RepresentsReplay(start, Execute(h, c, siteSeq).value, layers, t.Redo(group));
    case Acked(fat) =>
      AckKeepsTimeline(start, h, layers, t, fat);
      RepresentsReplay(start, Execute(h, c, siteSeq).value, layers, t);
  }

  // ---------------------------------------------------------------- every sequence of commands

  /** The site sequence number of the next command; an acknowledgement takes none. */
  function NextSiteSeq(c: Command, siteSeq: LocalSeq): LocalSeq { if c.Acked? then siteSeq else siteSeq + 1 }

  /** A run of commands beside the timeline; None if a command makes no sense or fails. */
  ghost function RunBeside(start: Doc, h: History, t: Timeline, commands: seq<Command>, siteSeq: LocalSeq): Option<(History, Timeline)>
    requires Coherent(start) && t.Ok()
    decreases |commands|
  {
    if commands == [] then Some((h, t))
    else if !h.PointersInRange() || !ValidRun(OpsIn(h), start) || !Sensible(start, h, commands[0]) then None
    else
      match Execute(h, commands[0], siteSeq)
      case Err(_) => None
      case Ok(h') =>
        if !ValidRun(OpsIn(h'), start) || !Expected(t, commands[0], VisibleText(start, h')).Ok() then None
        else RunBeside(start, h', Expected(t, commands[0], VisibleText(start, h')), commands[1..], NextSiteSeq(commands[0], siteSeq))
  }

  /** Every command makes sense when it comes. */
  ghost predicate AllSensible(start: Doc, h: History, commands: seq<Command>, siteSeq: LocalSeq)
    requires Coherent(start)
    decreases |commands|
  {
    commands == [] ||
    (h.PointersInRange() && ValidRun(OpsIn(h), start) ==>
      && Sensible(start, h, commands[0])
      && (Execute(h, commands[0], siteSeq).Ok? ==>
            AllSensible(start, Execute(h, commands[0], siteSeq).value, commands[1..], NextSiteSeq(commands[0], siteSeq))))
  }

  /** For every sequence of edits, undos, redos and acknowledgements: no command fails, and
      at the end the visible text is the timeline's. */
  lemma {:induction false} LinearUndoRestoresText(start: Doc, h: History, layers: seq<seq<bool>>, t: Timeline,
          commands: seq<Command>, siteSeq: LocalSeq)
    requires Represents(start, h, layers, t) && Coherent(start) && AllSensible(start, h, commands, siteSeq)
    ensures var r := RunBeside(start, h, t, commands, siteSeq);
            && r.Some?
            && var (h', t') := r.value;
               t'.Ok() && ValidRun(OpsIn(h'), start) && VisibleText(start, h') == t'.Now()
    decreases |commands|
  {
    RepresentsReplay(start, h, layers, t);
    RepresentsOk(start, h, layers, t);
    if commands != [] {
      hide Represents, Execute, Expected, Sensible, VisibleText;
      var layers' := CommandKeepsTimeline(start, h, layers, t, commands[0], siteSeq);
      var h' := Execute(h, commands[0], siteSeq).value;
      var t' := Expected(t, commands[0], VisibleText(start, h'));
      RepresentsOk(start, h', layers', t');
      LinearUndoRestoresText(start, h', layers', t', commands[1..], NextSiteSeq(commands[0], siteSeq));
    }
  }

  lemma RepresentsOk(start: Doc, h: History, layers: seq<seq<bool>>, t: Timeline)
    requires Represents(start, h, layers, t)
    ensures t.Ok() && h.PointersInRange()
  {}

  /** The beginning: nothing done, nothing to undo. */
  lemma FreshRepresents(start: Doc)
    requires Coherent(start)
    ensures Represents(start, History([], [], [], None), [start.live], Timeline([Visible(start.text, start.live)], [], 0))
  {
    assert OpsIn(History([], [], [], None)) == [];
  }
}
