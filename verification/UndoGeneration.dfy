/** `generate_undo_op_1`: the operations that undo or redo the next group, and what they
    keep whatever the history is. */
module UndoGeneration {
  import opened Ops
  import opened Documents
  import opened Engines

  /** The inverse of entry `i` of the undo queue, carried to the end of the history and
      over what this command has generated already. */
  function Generated(h: History, i: nat, acc: seq<Op>): Op
    requires h.PointersInRange() && i < |h.undoQueue|
  {
    Batch(Inverse(h.Nth(i).op), OpsOf(h.AllOpsAfter(h.undoQueue[i])) + acc)
  }

  /** The loop for undo: backwards from `i` while the group stays the same. */
  function UndoLoop(h: History, i: nat, group: Option<GroupSeq>, acc: seq<Op>): seq<Op>
    requires h.PointersInRange() && i <= |h.undoQueue|
    decreases i
  {
    if i == 0 then acc
    else if group.Some? && group.value != h.Nth(i - 1).groupSeq then acc
    else UndoLoop(h, i - 1, Some(h.Nth(i - 1).groupSeq), acc + [Generated(h, i - 1, acc)])
  }

  /** The loop for redo: forwards. */
  function RedoLoop(h: History, i: nat, group: Option<GroupSeq>, acc: seq<Op>): seq<Op>
    requires h.PointersInRange() && i <= |h.undoQueue|
    decreases |h.undoQueue| - i
  {
    if i == |h.undoQueue| then acc
    else if group.Some? && group.value != h.Nth(i).groupSeq then acc
    else RedoLoop(h, i + 1, Some(h.Nth(i).groupSeq), acc + [Generated(h, i, acc)])
  }

  function GenerateUndo(h: History, redo: bool): seq<Op>
    requires h.PointersInRange()
  {
    if redo then
      if h.undoTip.None? then [] else RedoLoop(h, h.undoTip.value, None, [])
    else
      UndoLoop(h, h.Done(), None, [])
  }

  lemma {:induction false} UndoLoopLength(h: History, i: nat, group: Option<GroupSeq>, acc: seq<Op>)
    requires h.PointersInRange() && i <= |h.undoQueue|
    ensures |UndoLoop(h, i, group, acc)| <= |acc| + i
    decreases i
  {
    hide Generated;
    if i > 0 && !(group.Some? && group.value != h.Nth(i - 1).groupSeq) {
      UndoLoopLength(h, i - 1, Some(h.Nth(i - 1).groupSeq), acc + [Generated(h, i - 1, acc)]);
    }
  }

  lemma {:induction false} RedoLoopLength(h: History, i: nat, group: Option<GroupSeq>, acc: seq<Op>)
    requires h.PointersInRange() && i <= |h.undoQueue|
    ensures |RedoLoop(h, i, group, acc)| <= |acc| + |h.undoQueue| - i
    decreases |h.undoQueue| - i
  {
    hide Generated;
    if i < |h.undoQueue| && !(group.Some? && group.value != h.Nth(i).groupSeq) {
      RedoLoopLength(h, i + 1, Some(h.Nth(i).groupSeq), acc + [Generated(h, i, acc)]);
    }
  }

  lemma {:induction false} PushManyOk(h: History, ops: seq<Op>, siteSeq: LocalSeq, redo: bool, group: GroupSeq)
    requires h.PointersInRange() && |ops| <= if redo then |h.undoQueue| - h.Done() else h.Done()
    ensures PushAll(h, ops, siteSeq, CommandKind(redo), group).Ok?
    decreases |ops|
  {
    hide PushLocal;
    if ops != [] {
      var kind := CommandKind(redo);
      PushShape(h, ops[0], siteSeq, kind, group);
      PushManyOk(PushLocal(h, ops[0], siteSeq, kind, group).value, ops[1..], siteSeq, redo, group);
    }
  }

  /** The operations a command generates never run past either end of the undo queue. */
  lemma UndoNeverFails(h: History, redo: bool, siteSeq: LocalSeq, group: GroupSeq)
    requires h.PointersInRange()
    ensures PushAll(h, GenerateUndo(h, redo), siteSeq, CommandKind(redo), group).Ok?
  {
    UndoLoopLength(h, h.Done(), None, []);
    RedoLoopLength(h, h.Done(), None, []);
    PushManyOk(h, GenerateUndo(h, redo), siteSeq, redo, group);
  }

  // ---------------------------------------------------------------- what is generated

  predicate AllMarks(ops: seq<Op>) { forall i :: 0 <= i < |ops| ==> ops[i].Mark? }

  lemma {:induction false} BatchOverMarks(op: Op, bases: seq<Op>, marks: seq<Op>)
    requires AllMarks(marks)
    ensures Batch(op, bases + marks) == Batch(op, bases)
    decreases |marks|
  {
    if marks == [] {
      assert bases + marks == bases;
    } else {
      var n := |marks| - 1;
      assert bases + marks == (bases + marks[..n]) + [marks[n]];
      BatchSnoc(op, bases + marks[..n], marks[n]);
      BatchOverMarks(op, bases, marks[..n]);
    }
  }

  lemma GeneratedAlone(h: History, i: nat, acc: seq<Op>)
    requires h.PointersInRange() && i < |h.undoQueue| && AllMarks(acc)
    ensures Generated(h, i, acc) == Generated(h, i, []) && Generated(h, i, acc).Mark?
  {
    var later := OpsOf(h.AllOpsAfter(h.undoQueue[i]));
    BatchOverMarks(Inverse(h.Nth(i).op), later, acc);
    BatchKeepsMeta(Inverse(h.Nth(i).op), later);
    assert later + [] == later;
  }

  /** The entries that an undo command takes, from `i` backwards. */
  function UndoEntries(h: History, i: nat, group: Option<GroupSeq>): (r: seq<nat>)
    requires h.PointersInRange() && i <= |h.undoQueue|
    ensures forall k :: 0 <= k < |r| ==> r[k] < |h.undoQueue|
    decreases i
  {
    if i == 0 then []
    else if group.Some? && group.value != h.Nth(i - 1).groupSeq then []
    else [i - 1] + UndoEntries(h, i - 1, Some(h.Nth(i - 1).groupSeq))
  }

  /** And a redo command, forwards. */
  function RedoEntries(h: History, i: nat, group: Option<GroupSeq>): (r: seq<nat>)
    requires h.PointersInRange() && i <= |h.undoQueue|
    ensures forall k :: 0 <= k < |r| ==> r[k] < |h.undoQueue|
    decreases |h.undoQueue| - i
  {
    if i == |h.undoQueue| then []
    else if group.Some? && group.value != h.Nth(i).groupSeq then []
    else [i] + RedoEntries(h, i + 1, Some(h.Nth(i).groupSeq))
  }

  /** The entries of the undo queue that a command reverses, in its order. */
  function Entries(h: History, redo: bool): (r: seq<nat>)
    requires h.PointersInRange()
    ensures forall k :: 0 <= k < |r| ==> r[k] < |h.undoQueue|
  {
    if redo then RedoEntries(h, h.Done(), None) else UndoEntries(h, h.Done(), None)
  }

  /** What is generated for each of the entries alone. */
  function Reversals(h: History, entries: seq<nat>): (r: seq<Op>)
    requires h.PointersInRange() && forall k :: 0 <= k < |entries| ==> entries[k] < |h.undoQueue|
    ensures |r| == |entries| && forall k :: 0 <= k < |r| ==> r[k] == Generated(h, entries[k], [])
  {
    seq(|entries|, k requires 0 <= k < |entries| => Generated(h, entries[k], []))
  }

  lemma OneMoreReversal(h: History, i: nat, acc: seq<Op>, rest: seq<nat>)
    requires h.PointersInRange() && i < |h.undoQueue| && AllMarks(acc)
    requires forall k :: 0 <= k < |rest| ==> rest[k] < |h.undoQueue|
    ensures AllMarks(acc + [Generated(h, i, acc)])
    ensures acc + [Generated(h, i, acc)] + Reversals(h, rest) == acc + Reversals(h, [i] + rest)
  {
    hide Generated;
    GeneratedAlone(h, i, acc);
    assert Reversals(h, [i] + rest) == [Generated(h, i, [])] + Reversals(h, rest);
  }

  lemma {:induction false} UndoLoopTakes(h: History, i: nat, group: Option<GroupSeq>, acc: seq<Op>)
    requires h.PointersInRange() && i <= |h.undoQueue| && AllMarks(acc)
    ensures UndoLoop(h, i, group, acc) == acc + Reversals(h, UndoEntries(h, i, group))
    decreases i
  {
    hide Generated, AllMarks;
    if i > 0 && !(group.Some? && group.value != h.Nth(i - 1).groupSeq) {
      var next := Some(h.Nth(i - 1).groupSeq);
      OneMoreReversal(h, i - 1, acc, UndoEntries(h, i - 1, next));
      UndoLoopTakes(h, i - 1, next, acc + [Generated(h, i - 1, acc)]);
    } else {
      assert acc + Reversals(h, []) == acc;
    }
  }

  lemma {:induction false} RedoLoopTakes(h: History, i: nat, group: Option<GroupSeq>, acc: seq<Op>)
    requires h.PointersInRange() && i <= |h.undoQueue| && AllMarks(acc)
    ensures RedoLoop(h, i, group, acc) == acc + Reversals(h, RedoEntries(h, i, group))
    decreases |h.undoQueue| - i
  {
    hide Generated, AllMarks;
    if i < |h.undoQueue| && !(group.Some? && group.value != h.Nth(i).groupSeq) {
      var next := Some(h.Nth(i).groupSeq);
      OneMoreReversal(h, i, acc, RedoEntries(h, i + 1, next));
      RedoLoopTakes(h, i + 1, next, acc + [Generated(h, i, acc)]);
    } else {
      assert acc + Reversals(h, []) == acc;
    }
  }

  /** A command is made of marks: the reversals of the entries it takes, each what would be
      generated for that entry alone. */
  lemma CommandTakes(h: History, redo: bool)
    requires h.PointersInRange()
    ensures GenerateUndo(h, redo) == Reversals(h, Entries(h, redo))
    ensures AllMarks(GenerateUndo(h, redo))
  {
    hide Generated, Reversals;
    UndoLoopTakes(h, h.Done(), None, []);
    RedoLoopTakes(h, h.Done(), None, []);
    hide UndoEntries, RedoEntries, UndoLoop;
    var entries := Entries(h, redo);
    assert [] + Reversals(h, entries) == Reversals(h, entries);
    forall k | 0 <= k < |entries| ensures Reversals(h, entries)[k].Mark? { GeneratedAlone(h, entries[k], []); }
  }

  /** A generated operation has the site of the entry's operation. */
  lemma GeneratedSite(h: History, i: nat, acc: seq<Op>)
    requires h.PointersInRange() && i < |h.undoQueue|
    ensures Generated(h, i, acc).site == h.Nth(i).op.site
  {
    BatchKeepsMeta(Inverse(h.Nth(i).op), OpsOf(h.AllOpsAfter(h.undoQueue[i])) + acc);
  }

  /** Every entry that the command takes denotes an operation of this site. */
  predicate OwnCommand(h: History, redo: bool, site: SiteId)
    requires h.PointersInRange()
  {
    forall k :: 0 <= k < |Entries(h, redo)| ==> IsOwn(h, site, h.undoQueue[Entries(h, redo)[k]])
  }

  /** A command consists of own operations if and only if the entries it takes are own. */
  lemma CommandSite(h: History, redo: bool, site: SiteId)
    requires h.PointersInRange()
    ensures OwnCommand(h, redo, site) <==> forall k :: 0 <= k < |GenerateUndo(h, redo)| ==> GenerateUndo(h, redo)[k].site == site
  {
    hide Generated, GenerateUndo, Entries;
    CommandTakes(h, redo);
    var ops, entries := GenerateUndo(h, redo), Entries(h, redo);
    forall k | 0 <= k < |ops| ensures ops[k].site == site <==> IsOwn(h, site, h.undoQueue[entries[k]]) {
      GeneratedSite(h, entries[k], []);
    }
  }

  // ---------------------------------------------------------------- what arrives leaves it alone

  /** Every undo pointer leads to an operation of the same group as before. */
  predicate SameGroups(h: History, k: History)
    requires h.PointersInRange() && k.PointersInRange()
  {
    && |h.undoQueue| == |k.undoQueue| && h.undoTip == k.undoTip
    && forall i :: 0 <= i < |h.undoQueue| ==> h.Nth(i).groupSeq == k.Nth(i).groupSeq
  }

  lemma {:induction false} SameUndoEntries(h: History, k: History, i: nat, group: Option<GroupSeq>)
    requires h.PointersInRange() && k.PointersInRange() && SameGroups(h, k) && i <= |h.undoQueue|
    ensures UndoEntries(h, i, group) == UndoEntries(k, i, group)
    decreases i
  {
    hide History.Nth;
    if i > 0 && !(group.Some? && group.value != h.Nth(i - 1).groupSeq) {
      SameUndoEntries(h, k, i - 1, Some(h.Nth(i - 1).groupSeq));
    }
  }

  lemma {:induction false} SameRedoEntries(h: History, k: History, i: nat, group: Option<GroupSeq>)
    requires h.PointersInRange() && k.PointersInRange() && SameGroups(h, k) && i <= |h.undoQueue|
    ensures RedoEntries(h, i, group) == RedoEntries(k, i, group)
    decreases |h.undoQueue| - i
  {
    hide History.Nth;
    if i < |h.undoQueue| && !(group.Some? && group.value != h.Nth(i).groupSeq) {
      SameRedoEntries(h, k, i + 1, Some(h.Nth(i).groupSeq));
    }
  }

  lemma SameEntries(h: History, k: History, redo: bool)
    requires h.PointersInRange() && k.PointersInRange() && SameGroups(h, k)
    ensures Entries(h, redo) == Entries(k, redo)
  {
    SameUndoEntries(h, k, h.Done(), None);
    SameRedoEntries(h, k, h.Done(), None);
  }

  /** Another site's operation never changes what the next undo or redo takes, as long as no
      pointer lies between the operations this engine holds and the number of operations that
      exist: pointers move on to the same operations (`Pointers.RemoteKeepsPointersIff`), and
      these keep their groups. */
  lemma RemoteKeepsEntries(c: Client, fat: FatOp, redo: bool)
    requires c.gh.PointersInRange() && RemoteOp(c, fat).Ok? && fat.op.site != c.site && |c.gh.global| <= c.currentSeq
    requires forall i :: 0 <= i < |c.gh.undoQueue| ==> c.gh.undoQueue[i] <= |c.gh.global| || c.currentSeq < c.gh.undoQueue[i]
    ensures var h := RemoteOp(c, fat).value.0.gh; h.PointersInRange() && Entries(h, redo) == Entries(c.gh, redo)
  {
    hide Batch, Rebase, OpsOf, WithOps, BumpDeltas, BumpDelta;
    var h := RemoteOp(c, fat).value.0.gh;
    RemoteKeepsPointersInRange(c, fat);
    RemoteKeepsTags(c, fat);
    assert h.undoQueue == BumpQueue(c.gh.undoQueue, c.currentSeq);
    forall i | 0 <= i < |h.undoQueue| ensures h.Nth(i).groupSeq == c.gh.Nth(i).groupSeq {
      var p := c.gh.undoQueue[i];
      if p <= |c.gh.global| {
        assert h.global[..|c.gh.global|][p - 1] == c.gh.global[p - 1];
      } else {
        assert SameTag(c.gh.local[p - 1 - |c.gh.global|], h.local[p - 1 - |c.gh.global|]);
      }
    }
    hide RemoteOp, History.Nth;
    SameEntries(c.gh, h, redo);
  }

  /** Nor does an acknowledgement with the group of the first pending operation. */
  lemma AckKeepsEntries(c: Client, fat: FatOp, redo: bool)
    requires c.gh.PointersInRange() && RemoteOp(c, fat).Ok? && fat.op.site == c.site
    requires fat.groupSeq == c.gh.local[0].groupSeq
    ensures var h := RemoteOp(c, fat).value.0.gh; h.PointersInRange() && Entries(h, redo) == Entries(c.gh, redo)
  {
    var h := RemoteOp(c, fat).value.0.gh;
    SameEntries(c.gh, h, redo);
  }

  // ---------------------------------------------------------------- applying it

  predicate MarksOn(ops: seq<Op>, text: string) { forall i :: 0 <= i < |ops| ==> ops[i].Mark? && ValidOn(ops[i], text) }

  /** Marks leave the text alone, so marks that can be applied now can be applied in a row. */
  lemma {:induction false} MarksRun(ops: seq<Op>, d: Doc)
    requires Coherent(d) && MarksOn(ops, d.text)
    ensures ValidRun(ops, d)
    ensures (forall i :: 0 <= i < |ops| ==> Quotes(ops[i], d.text)) ==> QuotingRun(ops, d)
    decreases |ops|
  {
    if ops != [] { MarksRun(ops[1..], Apply(d, ops[0])); }
  }

  /** If what is generated for each entry that a command takes can be applied, the command
      can; and if that quotes the text, so does the command. */
  lemma CommandFits(h: History, redo: bool, d: Doc)
    requires h.PointersInRange() && Coherent(d)
    requires forall k :: 0 <= k < |Entries(h, redo)| ==> ValidOn(Generated(h, Entries(h, redo)[k], []), d.text)
    ensures ValidRun(GenerateUndo(h, redo), d)
    ensures (forall k :: 0 <= k < |Entries(h, redo)| ==> Quotes(Generated(h, Entries(h, redo)[k], []), d.text))
              ==> QuotingRun(GenerateUndo(h, redo), d)
  {
    hide Generated, GenerateUndo, Entries, ValidRun, QuotingRun, ValidOn, Quotes;
    CommandTakes(h, redo);
    var ops, entries := GenerateUndo(h, redo), Entries(h, redo);
    assert forall k :: 0 <= k < |ops| ==> ops[k] == Generated(h, entries[k], []);
    MarksRun(ops, d);
  }
}
