/** The history of an engine as an object; its meaning is a value of type `History`. */
module GlobalHistories {
  import opened Ops
  import opened Engines

  class GlobalHistory {
    var global: seq<FatOp>
    var local: seq<FatOp>
    var undoQueue: seq<GlobalSeq>
    var undoTip: Option<nat>

    function State(): History
      reads this
    {
      History(global, local, undoQueue, undoTip)
    }

    constructor ()
      ensures State() == History([], [], [], None)
    {
      global, local, undoQueue, undoTip := [], [], [], None;
    }

    method ProcessOpKind(kind: EditorOpKind, opSeq: GlobalSeq) returns (r: Result<OpKind>)
      requires State().PointersInRange()
      modifies this
      ensures match Engines.ProcessOpKind(old(State()), kind, opSeq)
              case Err(e) => r == Err(e) && State() == old(State())
              case Ok((h, opKind)) => r == Ok(opKind) && State() == h
    {
      var seqOfNewOp := |global| + |local| + 1 + 1;
      match kind
      case EditOriginal =>
        if undoTip.Some? {
          undoQueue := undoQueue[..undoTip.value];
        }
        undoTip := None;
        undoQueue := undoQueue + [opSeq];
        r := Ok(Original);
      case EditUndo =>
        var original;
        if undoTip.Some? {
          var idx := undoTip.value;
          if idx == 0 { return Err(UndoError); }
          original := undoQueue[idx - 1];
          undoTip := Some(idx - 1);
        } else {
          if |undoQueue| == 0 { return Err(UndoError); }
          original := undoQueue[|undoQueue| - 1];
          undoTip := Some(|undoQueue| - 1);
        }
        undoQueue := undoQueue[undoTip.value := opSeq];
        r := Ok(Undo(seqOfNewOp - (original + 1)));
      case EditRedo =>
        if undoTip.None? { return Err(UndoError); }
        var idx := undoTip.value;
        var inverse := undoQueue[idx];
        undoTip := if idx + 1 == |undoQueue| then None else Some(idx + 1);
        undoQueue := undoQueue[idx := opSeq];
        r := Ok(Undo(seqOfNewOp - (inverse + 1)));
    }

    /** The end of `process_remote_op` for another site's operation: pending undo operations
        and undo pointers make room for it. */
    method MakeRoom(prevSeq: GlobalSeq)
      modifies this`local, this`undoQueue
      ensures local == BumpDeltas(old(local)) && undoQueue == BumpQueue(old(undoQueue), prevSeq)
      ensures |local| == old(|local|) && |undoQueue| == old(|undoQueue|)
      ensures forall i :: 0 <= i < |local| ==>
                local[i] == old(local)[i].(kind := match old(local)[i].kind
                                                   case Original => Original
                                                   case Undo(delta) => Undo(if i < delta then delta + 1 else delta))
    {
      var ops := local;
      for offset := 0 to |ops|
        invariant |local| == |ops| && undoQueue == old(undoQueue)
        invariant forall i :: 0 <= i < |ops| ==> local[i] == if i < offset then BumpDelta(ops[i], i) else ops[i]
      {
        var kind := local[offset].kind;
        if kind.Undo? && offset < kind.delta {
          local := local[offset := local[offset].(kind := Undo(kind.delta + 1))];
        }
      }
      assert local == BumpDeltas(ops);
      var queue := undoQueue;
      for i := 0 to |queue|
        invariant |undoQueue| == |queue| && local == BumpDeltas(ops)
        invariant forall k :: 0 <= k < |queue| ==> undoQueue[k] == if k < i && queue[k] > prevSeq then queue[k] + 1 else queue[k]
      {
        if undoQueue[i] > prevSeq { undoQueue := undoQueue[i := undoQueue[i] + 1]; }
      }
      assert undoQueue == BumpQueue(queue, prevSeq);
    }
  }
}
