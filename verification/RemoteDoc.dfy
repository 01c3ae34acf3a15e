/** A client's side of a document: the engine, the editor's text as the server process
    keeps it, and the global operations received but not yet processed. */
module RemoteDocs {
  import opened Ops
  import opened Documents
  import opened Engines
  import opened UndoGeneration
  import opened Ranges
  import opened Views
  import opened ClientEngines
  import opened ServerEngines
  import opened Sessions
  import opened Showing

  /** Processing the buffered operations in order, as the session's `Receive` does, on the
      document as it is shown. */
  ghost function ReceiveAll(c: Client, d: Doc, fats: seq<FatOp>): Option<(Client, Doc)>
    requires Coherent(d)
    decreases |fats|
  {
    if fats == [] then Some((c, d))
    else match RemoteOp(c, fats[0])
         case Err(_) => None
         case Ok((c', op)) =>
           if op.None? then ReceiveAll(c', d, fats[1..])
           else if !ValidOn(op.value, d.text) then None
           else
             ValidFits(op.value, d.text);
             ReceiveAll(c', Show(d, op.value), fats[1..])
  }

  predicate Increasing(xs: seq<nat>) { forall j, k :: 0 <= j < k < |xs| ==> xs[j] < xs[k] }

  /** What is asked for, and because of which operations, among the first `n` of `fats`. */
  ghost predicate Asked(k: GlobalSeq, buffer: seq<FatOp>, fats: seq<FatOp>, n: nat, gaps: seq<nat>, requests: seq<GlobalSeq>)
    requires n <= |fats|
  {
    && Increasing(gaps) && (forall j :: 0 <= j < |gaps| ==> gaps[j] < n)
    && (forall i :: 0 <= i < n ==> (i in gaps <==> LeavesGap(k, buffer, fats, i)))
    && |requests| == |gaps|
    && forall j :: 0 <= j < |gaps| ==> requests[j] == k + |Buffer(k, buffer, fats[..gaps[j]])|
  }

  lemma NothingAsked(k: GlobalSeq, buffer: seq<FatOp>, fats: seq<FatOp>)
    ensures Asked(k, buffer, fats, 0, [], [])
  {}

  lemma AskedMore(k: GlobalSeq, buffer: seq<FatOp>, fats: seq<FatOp>, n: nat, gaps: seq<nat>, requests: seq<GlobalSeq>)
    requires n < |fats| && Asked(k, buffer, fats, n, gaps, requests)
    ensures if LeavesGap(k, buffer, fats, n)
            then Asked(k, buffer, fats, n + 1, gaps + [n], requests + [k + |Buffer(k, buffer, fats[..n])|])
            else Asked(k, buffer, fats, n + 1, gaps, requests)
  {
    hide Buffer, LeavesGap;
  }

  lemma {:induction false} BufferOnlyGrows(k: GlobalSeq, buffer: seq<FatOp>, fats: seq<FatOp>, i: nat, n: nat)
    requires i <= n <= |fats| && AllNumbered(fats[..n])
    ensures |buffer| <= |Buffer(k, buffer, fats[..i])| <= |Buffer(k, buffer, fats[..n])|
    decreases n
  {
    hide Buffer;
    if n > 0 {
      assert forall j :: 0 <= j < n ==> fats[j] == fats[..n][j];
      BufferMore(k, buffer, fats, n - 1);
      BufferOnlyGrows(k, buffer, fats, if i < n then i else n - 1, n - 1);
    } else {
      assert fats[..0] == [];
      BufferOfNone(k, buffer);
    }
  }

  lemma BufferOfNone(k: GlobalSeq, buffer: seq<FatOp>)
    ensures Buffer(k, buffer, []) == buffer
  {}

  /** What is asked for when the loop ends, at the first operation without a number or after
      all of them. */
  lemma AskedExactly(k: GlobalSeq, buffer: seq<FatOp>, fats: seq<FatOp>, n: nat, gaps: seq<nat>, requests: seq<GlobalSeq>)
    requires n <= |fats| && AllNumbered(fats[..n]) && Asked(k, buffer, fats, n, gaps, requests)
    requires n < |fats| ==> fats[n].seqNo.None?
    ensures AllNumbered(fats) <==> n == |fats|
    ensures Increasing(gaps) && forall j :: 0 <= j < |gaps| ==> gaps[j] < |fats|
    ensures forall i :: 0 <= i < |fats| ==>
              (i in gaps <==> AllNumbered(fats[..i + 1]) && fats[i].seqNo.value > k + |Buffer(k, buffer, fats[..i])| + 1)
    ensures |requests| == |gaps|
    ensures forall j :: 0 <= j < |gaps| ==> requests[j] == k + |Buffer(k, buffer, fats[..gaps[j]])|
    ensures requests == [] && n == |fats| ==>
              forall i :: 0 <= i < |fats| ==> fats[i].seqNo.value <= k + |Buffer(k, buffer, fats)|
    ensures forall j :: 0 <= j < |requests| ==> k <= requests[j] <= k + |Buffer(k, buffer, fats)|
  {
    hide Buffer;
    assert fats[..|fats|] == fats;
    if n < |fats| { BufferStops(k, buffer, fats, n); }
    assert forall j :: 0 <= j < n ==> fats[j] == fats[..n][j];
    forall i | 0 <= i < |fats|
      ensures i in gaps <==> AllNumbered(fats[..i + 1]) && fats[i].seqNo.value > k + |Buffer(k, buffer, fats[..i])| + 1
    {
      assert forall j :: 0 <= j <= i ==> fats[..i + 1][j] == fats[j];
      if i < n {
        assert AllNumbered(fats[..i + 1]);
      } else {
        assert fats[..i + 1][n] == fats[n];
      }
    }
    forall j | 0 <= j < |requests| ensures k <= requests[j] <= k + |Buffer(k, buffer, fats[..n])| {
      BufferOnlyGrows(k, buffer, fats, gaps[j], n);
    }
    if requests == [] && n == |fats| {
      forall i | 0 <= i < n ensures fats[i].seqNo.value <= k + |Buffer(k, buffer, fats)| {
        assert !LeavesGap(k, buffer, fats, i);
        BufferOnlyGrows(k, buffer, fats, i + 1, n);
        assert forall j :: 0 <= j < i ==> fats[..i][j] == fats[j];
        BufferMore(k, buffer, fats, i);
      }
    }
  }

  class RemoteDoc {
    const engine: ClientEngine
    var buffer: string
    var remoteOpBuffer: seq<FatOp>
    var nextSiteSeq: LocalSeq

    ghost predicate Valid()
      reads this, engine, engine.gh, engine.internalDoc
    {
      engine.Valid() && buffer == View(engine.Doc()) && nextSiteSeq == engine.currentSiteSeq + 1
    }

    constructor (engine: ClientEngine, content: string)
      requires engine.Valid() && content == View(engine.Doc()) && engine.currentSiteSeq == 0
      ensures Valid() && this.engine == engine && remoteOpBuffer == [] && buffer == content
    {
      this.engine, buffer, remoteOpBuffer, nextSiteSeq := engine, content, [], 1;
    }

    /** `handle_op_from_server`: keep what continues the buffered run, skip what was seen,
        ask for what is missing. Each operation beyond the one expected when it comes, and no
        other, causes a request, for what follows the operations reached by then. An operation
        without a number ends the document. */
    method HandleOpFromServer(fats: seq<FatOp>) returns (requests: seq<GlobalSeq>, alive: bool, ghost gaps: seq<nat>)
      modifies this`remoteOpBuffer
      ensures remoteOpBuffer == Buffer(engine.currentSeq, old(remoteOpBuffer), fats)
      ensures alive <==> AllNumbered(fats)
      ensures Increasing(gaps) && forall k :: 0 <= k < |gaps| ==> gaps[k] < |fats|
      ensures forall i :: 0 <= i < |fats| ==>
                (i in gaps <==>
                   && AllNumbered(fats[..i + 1])
                   && fats[i].seqNo.value > engine.currentSeq + |Buffer(engine.currentSeq, old(remoteOpBuffer), fats[..i])| + 1)
      ensures |requests| == |gaps|
      ensures forall k :: 0 <= k < |gaps| ==>
                requests[k] == engine.currentSeq + |Buffer(engine.currentSeq, old(remoteOpBuffer), fats[..gaps[k]])|
      ensures alive && requests == [] ==> forall i :: 0 <= i < |fats| ==> fats[i].seqNo.value <= engine.currentSeq + |remoteOpBuffer|
      ensures forall i :: 0 <= i < |requests| ==> engine.currentSeq <= requests[i] <= engine.currentSeq + |remoteOpBuffer|
    {
      assert fats[..0] == [] && fats[..|fats|] == fats;
      BufferOfNone(engine.currentSeq, remoteOpBuffer);
      hide Buffer, Asked, Increasing;
      requests, alive, gaps := [], true, [];
      NothingAsked(engine.currentSeq, remoteOpBuffer, fats);
      for i := 0 to |fats|
        invariant alive && AllNumbered(fats[..i])
        invariant remoteOpBuffer == Buffer(engine.currentSeq, old(remoteOpBuffer), fats[..i])
        invariant Asked(engine.currentSeq, old(remoteOpBuffer), fats, i, gaps, requests)
      {
        var expected := engine.currentSeq + |remoteOpBuffer| + 1;
        BufferMore(engine.currentSeq, old(remoteOpBuffer), fats, i);
        AskedMore(engine.currentSeq, old(remoteOpBuffer), fats, i, gaps, requests);
        if fats[i].seqNo.None? {
          BufferStops(engine.currentSeq, old(remoteOpBuffer), fats, i);
          AskedExactly(engine.currentSeq, old(remoteOpBuffer), fats, i, gaps, requests);
          return requests, false, gaps;
        }
        var gseq := fats[i].seqNo.value;
        if gseq < expected {
        } else if gseq > expected {
          requests, gaps := requests + [expected - 1], gaps + [i];
        } else {
          remoteOpBuffer := remoteOpBuffer + [fats[i]];
        }
      }
      AskedExactly(engine.currentSeq, old(remoteOpBuffer), fats, |fats|, gaps, requests);
    }

    /** The edits of one instruction, last one first. */
    method ApplyInstructionUnchecked(instr: EditInstruction) returns (r: Handled<bool>)
      modifies this`buffer
      ensures match ApplyInstruction(old(buffer), instr)
              case Some(b) => r.Done? && buffer == b
              case None => r.DocFatal?
    {
      var edited, ok := EditBuffer(buffer, instr.edits, instr.InsEdits?);
      buffer := edited;
      r := if ok then Done(true) else DocFatal;
    }

    method VerifySync() returns (r: Handled<bool>)
      requires engine.Valid()
      ensures r.Done? <==> |buffer| == |View(engine.Doc())|
    {
      VisibleLen(engine.text, engine.internalDoc.Flags());
      var engineLen := engine.internalDoc.EditorLen();
      r := if engineLen != |buffer| then DocFatal else Done(true);
    }

    /** The instructions of one command, in order. */
    method ApplyInOrder(instrs: seq<EditInstruction>) returns (r: Handled<bool>)
      requires ApplyInstructions(buffer, instrs).Some?
      modifies this`buffer
      ensures r.Done? && ApplyInstructions(old(buffer), instrs) == Some(buffer)
    {
      hide ApplyInstruction;
      r := Done(true);
      for i := 0 to |instrs|
        invariant r.Done? && ApplyInstructions(old(buffer), instrs[..i]) == Some(buffer)
      {
        assert instrs[..i + 1][..i] == instrs[..i];
        InstructionsPrefix(old(buffer), instrs, i + 1);
        r := ApplyInstructionUnchecked(instrs[i]);
        if r.DocFatal? { return; }
      }
      assert instrs[..|instrs|] == instrs;
    }

    /** `apply_edit_instruction`: with the comparison of lengths at the end. */
    method ApplyChecked(instr: EditInstruction) returns (r: Handled<bool>)
      requires engine.Valid() && ApplyInstruction(buffer, instr) == Some(View(engine.Doc()))
      modifies this`buffer
      ensures r.Done? && buffer == View(engine.Doc())
    {
      hide ApplyInstruction, Visible;
      r := ApplyInstructionUnchecked(instr);
      if r.DocFatal? { return; }
      r := VerifySync();
    }

    /** One editor operation of `handle_send_ops_from_editor`: the engine processes it, and
        its instructions take the text to the engine's new view. */
    method HandleEditorOp(op: EditorOp, groupSeq: GroupSeq) returns (r: Handled<bool>, ghost ops: seq<Op>)
      requires Valid() && (engine.LocalError(op, nextSiteSeq).None? ==> engine.LocalOpFits(op))
      modifies this`buffer, this`nextSiteSeq, engine`text, engine`currentSiteSeq, engine.internalDoc, engine.gh
      ensures Valid() && remoteOpBuffer == old(remoteOpBuffer)
      ensures r.Done? <==>
                match op
                case EditorIns(_, content) => content != ""
                case EditorDel(_, _) => |old(engine.internalDoc.Flags())| > 0
                case EditorUndo(context) => context == old(|engine.gh.global| + |engine.gh.local|)
                case EditorRedo(context) => context == old(|engine.gh.global| + |engine.gh.local|)
      ensures r.Done? ==>
                && Means(op, old(engine.gh.State()), old(engine.Doc()), ops) && ValidRun(ops, old(engine.Doc()))
                && (KindOf(op).EditOriginal? || OwnCommand(old(engine.gh.State()), KindOf(op).EditRedo?, engine.site) ==>
                      forall i :: 0 <= i < |ops| ==> ops[i].site == engine.site)
                && LocalOps(old(engine.State()), ops, KindOf(op), groupSeq) == Ok(engine.State())
                && engine.Doc() == ShowAll(old(engine.Doc()), ops)
      ensures r.DocFatal? ==> engine.Doc() == old(engine.Doc()) && engine.gh.State() == old(engine.gh.State())
    {
      hide PushAll, Visible, Apply, ApplyInstruction, ApplyInstructions, Restored, ShowAll, ValidRun, OwnCommand, Mirrors, GenerateUndo;
      var siteSeq := nextSiteSeq;
      nextSiteSeq := nextSiteSeq + 1;
      var result;
      result, ops := engine.ProcessLocalOp(op, groupSeq, siteSeq);
      if result.Err? { return DocFatal, ops; }
      r := ApplyInOrder(result.value);
      if r.DocFatal? { return; }
      r := VerifySync();
    }

    /** The second loop: all buffered operations are processed in order. What the editor is
        told to apply, one instruction after the other, gives the new text. */
    method ProcessBuffered() returns (r: Handled<seq<EditInstruction>>)
      requires Valid() && ReceiveAll(engine.State(), engine.Doc(), remoteOpBuffer).Some?
      modifies this`buffer, this`remoteOpBuffer, engine`text, engine`currentSeq, engine.internalDoc, engine.gh
      ensures Valid() && r.Done? && remoteOpBuffer == []
      ensures Some((engine.State(), engine.Doc())) == old(ReceiveAll(engine.State(), engine.Doc(), remoteOpBuffer))
      ensures ApplyInstructions(old(buffer), r.value) == Some(buffer)
    {
      hide RemoteOp, Visible, Apply, ApplyInstruction, Fits, ValidOn, Restored;
      var fats := remoteOpBuffer;
      remoteOpBuffer := [];
      ghost var before, end := buffer, ReceiveAll(engine.State(), engine.Doc(), fats);
      var leanOps := [];
      for i := 0 to |fats|
        invariant Valid() && remoteOpBuffer == [] && end.Some?
        invariant ReceiveAll(engine.State(), engine.Doc(), fats[i..]) == end
        invariant ApplyInstructions(before, leanOps) == Some(buffer)
      {
        assert fats[i..][0] == fats[i] && fats[i..][1..] == fats[i + 1..];
        var result := engine.ProcessRemoteOp(fats[i]);
        if result.Err? { return DocFatal; }
        if result.value.Some? {
          var instr := result.value.value.0;
          MoreInstructions(before, leanOps, instr);
          var applied := ApplyChecked(instr);
          if applied.DocFatal? { return DocFatal; }
          leanOps := leanOps + [instr];
        }
      }
      return Done(leanOps);
    }
  }
}
