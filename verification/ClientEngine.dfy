/** The client engine as an object: history, internal document and sequence numbers. Every
    method is tied to the functions of `Engines` for the history and to `Show` for the
    document, and what it tells the editor keeps the editor's text equal to the view. */
module ClientEngines {
  import opened Ops
  import opened Documents
  import opened Engines
  import opened Views
  import opened InternalDocs
  import opened UndoGeneration
  import opened GlobalHistories
  import opened Layers
  import opened Ranges
  import opened Marks
  import opened Showing

  function KindOf(op: EditorOp): EditorOpKind {
    match op
    case EditorIns(_, _) => EditOriginal
    case EditorDel(_, _) => EditOriginal
    case EditorUndo(_) => EditUndo
    case EditorRedo(_) => EditRedo
  }

  /** Instructions one after the other, each on the text the one before it leaves. */
  function ApplyInstructions(buffer: string, instrs: seq<EditInstruction>): Option<string>
    decreases |instrs|
  {
    if instrs == [] then Some(buffer)
    else match ApplyInstructions(buffer, instrs[..|instrs| - 1])
         case None => None
         case Some(b) => ApplyInstruction(b, instrs[|instrs| - 1])
  }

  /** The instruction that mirrors an edit of the editor back to its own text. */
  function EditOf(op: EditorOp): EditInstruction {
    match op
    case EditorIns(pos, content) => InsEdits([Edit(pos, content)])
    case EditorDel(pos, content) => DelEdits([Edit(pos, content)])
    case _ => InsEdits([])
  }

  lemma EditInView(op: EditorOp, v: string)
    requires EditorOpFits(op, v)
    ensures ApplyInstruction(v, EditOf(op)) == Some(ApplyEditorOp(op, v))
  {
    OneEdit(v, EditOf(op).edits[0], op.EditorIns?);
  }

  lemma OneInstruction(buffer: string, instr: EditInstruction)
    ensures ApplyInstructions(buffer, [instr]) == ApplyInstruction(buffer, instr)
  {
    assert [instr][..0] == [];
    assert ApplyInstructions(buffer, []) == Some(buffer);
  }

  lemma MoreInstructions(buffer: string, instrs: seq<EditInstruction>, instr: EditInstruction)
    requires ApplyInstructions(buffer, instrs).Some?
    ensures ApplyInstructions(buffer, instrs + [instr]) == ApplyInstruction(ApplyInstructions(buffer, instrs).value, instr)
  {
    assert (instrs + [instr])[..|instrs|] == instrs;
  }

  lemma {:induction false} InstructionsPrefix(buffer: string, instrs: seq<EditInstruction>, i: nat)
    requires ApplyInstructions(buffer, instrs).Some? && i <= |instrs|
    ensures ApplyInstructions(buffer, instrs[..i]).Some?
    decreases |instrs|
  {
    if i < |instrs| {
      assert instrs[..|instrs| - 1][..i] == instrs[..i];
      InstructionsPrefix(buffer, instrs[..|instrs| - 1], i);
    } else {
      assert instrs[..i] == instrs;
    }
  }

  /** `res` does to the document what the edit `op` does to the text the editor shows. */
  ghost predicate Mirrors(op: EditorOp, d: Doc, res: Op)
    requires Coherent(d)
  {
    && OriginalEdit(d, res) && Quotes(res, d.text)
    && EditorOpFits(op, View(d)) && View(Apply(d, res)) == ApplyEditorOp(op, View(d))
  }

  /** The operations `ops` are what the editor's command means on document `d`. */
  ghost predicate Means(op: EditorOp, h: History, d: Doc, ops: seq<Op>)
    requires Coherent(d) && h.PointersInRange()
  {
    match op
    case EditorUndo(_) => ops == GenerateUndo(h, false)
    case EditorRedo(_) => ops == GenerateUndo(h, true)
    case EditorIns(_, content) => |ops| == 1 && ops[0].Ins? && ops[0].seg.text == content && Mirrors(op, d, ops[0])
    case EditorDel(_, content) => |ops| == 1 && ops[0].Mark? && Quoted(ops[0].segs) == content && Mirrors(op, d, ops[0])
  }

  class ClientEngine {
    const gh: GlobalHistory
    const internalDoc: InternalDoc
    const site: SiteId
    var currentSeq: GlobalSeq
    var currentSiteSeq: LocalSeq
    var lastSiteSeqSentOut: LocalSeq
    /** The characters of the internal document, tombstones included. */
    ghost var text: string

    ghost predicate Valid()
      reads this, gh, internalDoc
    {
      && internalDoc.Valid() && |text| == |internalDoc.Flags()|
      && gh.State().PointersInRange()
    }

    function State(): Client
      reads this, gh
    {
      Client(gh.State(), site, currentSeq, currentSiteSeq, lastSiteSeqSentOut)
    }

    ghost function Doc(): Documents.Doc
      reads this, internalDoc
    {
      Documents.Doc(text, internalDoc.Flags())
    }

    constructor (site: SiteId, baseSeq: GlobalSeq, internalDoc: InternalDoc, ghost text: string)
      requires internalDoc.Valid() && |text| == |internalDoc.Flags()|
      ensures Valid() && fresh(gh) && this.internalDoc == internalDoc
      ensures State() == NewClient(site, baseSeq) && Doc() == internalDoc.Doc(text)
    {
      this.site, this.internalDoc, this.text := site, internalDoc, text;
      currentSeq, currentSiteSeq, lastSiteSeqSentOut := baseSeq, 0, 0;
      gh := new GlobalHistory();
    }

    method PrevOpAcked() returns (b: bool)
      ensures b == Engines.PrevOpAcked(State())
    {
      if |gh.local| > 0 {
        if gh.local[0].siteSeq == lastSiteSeqSentOut + 1 { return true; }
      }
      return false;
    }

    method MaybePackageLocalOps() returns (batch: Option<ContextOps>)
      modifies this`lastSiteSeqSentOut
      ensures batch.Some? <==> |gh.local| > 0 && gh.local[0].siteSeq == old(lastSiteSeqSentOut) + 1
      ensures batch.Some? ==> batch.value.ops == gh.local && batch.value.context == currentSeq
      ensures Package(old(State())) == (State(), batch)
    {
      var acked := PrevOpAcked();
      if acked {
        var ops := gh.local;
        lastSiteSeqSentOut := ops[|ops| - 1].siteSeq;
        batch := Some(ContextOps(currentSeq, ops));
      } else {
        batch := None;
      }
    }

    // -------------------------------------------------------------- undo

    /** One round of the loop: the inverse of an entry, carried to the end of the history
        and over what was generated before. */
    method GenerateOne(idx: nat, ops: seq<FatOp>) returns (more: seq<FatOp>)
      requires gh.State().PointersInRange() && idx < |gh.undoQueue|
      ensures OpsOf(more) == OpsOf(ops) + [Generated(gh.State(), idx, OpsOf(ops))]
    {
      hide Batch;
      var h := gh.State();
      var op := h.Nth(idx);
      op := op.(op := Inverse(op.op));
      var transformBase := h.AllOpsAfter(gh.undoQueue[idx]) + ops;
      assert OpsOf(transformBase) == OpsOf(h.AllOpsAfter(h.undoQueue[idx])) + OpsOf(ops);
      op := BatchTransform(op, transformBase);
      more := ops + [op];
      assert OpsOf(more) == OpsOf(ops) + [op.op];
    }

    /** `generate_undo_op_1`; only the operations of the result matter. */
    method GenerateUndoOps(redo: bool) returns (ops: seq<FatOp>)
      requires gh.State().PointersInRange()
      ensures OpsOf(ops) == GenerateUndo(gh.State(), redo)
    {
      hide Generated;
      var h := gh.State();
      ops := [];
      assert OpsOf(ops) == [];
      var idx: nat;
      if redo {
        if gh.undoTip.None? { return; }
        idx := gh.undoTip.value;
      } else {
        idx := if gh.undoTip.Some? then gh.undoTip.value else |gh.undoQueue|;
        if idx == 0 { return; }
      }
      var prevGroup: Option<GroupSeq> := None;
      while if redo then idx < |gh.undoQueue| else idx > 0
        invariant idx <= |h.undoQueue|
        invariant redo ==> GenerateUndo(h, true) == RedoLoop(h, idx, prevGroup, OpsOf(ops))
        invariant !redo ==> GenerateUndo(h, false) == UndoLoop(h, idx, prevGroup, OpsOf(ops))
        decreases if redo then |gh.undoQueue| - idx else idx
      {
        if !redo { idx := idx - 1; }
        var group := h.Nth(idx).groupSeq;
        if prevGroup.Some? && prevGroup.value != group { return; }
        prevGroup := Some(group);
        ops := GenerateOne(idx, ops);
        if redo { idx := idx + 1; }
      }
    }

    /** `convert_internal_op_and_apply` of the client engine. The ghost text follows what is
        shown. */
    method ConvertAndApply(op: Op) returns (instr: EditInstruction)
      requires Valid() && ValidOn(op, text)
      modifies this`text, internalDoc
      ensures Valid() && Fits(op, |old(text)|) && Doc() == Show(old(Doc()), op)
      ensures ApplyInstruction(old(View(Doc())), instr) == Some(View(Doc()))
    {
      ghost var d := Doc();
      ValidFits(op, text);
      instr := internalDoc.ConvertInternalOpAndApply(op, text);
      text := Show(d, op).text;
    }

    /** The loop of an undo command: every operation is applied, and the instructions in
        order take the editor's text to the new one. */
    method ApplyGenerated(ops: seq<Op>) returns (instrs: seq<EditInstruction>)
      requires Valid() && ValidRun(ops, Doc())
      modifies this`text, internalDoc
      ensures Valid() && Doc() == ShowAll(old(Doc()), ops)
      ensures ApplyInstructions(old(View(Doc())), instrs) == Some(View(Doc()))
    {
      hide Visible, ApplyInstruction, Apply, Restored;
      ghost var d := Doc();
      instrs := [];
      for i := 0 to |ops|
        invariant Valid() && ValidRun(ops[i..], Doc()) && ShowAll(Doc(), ops[i..]) == ShowAll(d, ops)
        invariant ApplyInstructions(View(d), instrs) == Some(View(Doc()))
      {
        assert ops[i..][0] == ops[i] && ops[i..][1..] == ops[i + 1..];
        ShowIff(Doc(), ops[i]);
        RunOnSameLength(Apply(Doc(), ops[i]), Show(Doc(), ops[i]), ops[i + 1..]);
        var instr := ConvertAndApply(ops[i]);
        MoreInstructions(View(d), instrs, instr);
        instrs := instrs + [instr];
      }
    }

    /** `convert_internal_ops_dont_apply`: the same on a copy of the document. */
    method ConvertDontApply(ops: seq<Op>) returns (instrs: seq<EditInstruction>)
      requires Valid() && ValidRun(ops, Doc())
      ensures ApplyInstructions(View(Doc()), instrs) == Some(View(ShowAll(Doc(), ops)))
    {
      var copy := new InternalDoc.CopyOf(internalDoc);
      var scratch := new ClientEngine(site, currentSeq, copy, text);
      assert scratch.Doc() == Doc();
      instrs := scratch.ApplyGenerated(ops);
    }

    /** `generate_undo_op` and `generate_redo_op`: what the editor should do, and the length
        of the history as context; nothing changes yet. */
    method GenerateUndoOp(redo: bool) returns (instrs: seq<EditInstruction>, context: nat)
      requires Valid() && ValidRun(GenerateUndo(gh.State(), redo), Doc())
      ensures context == gh.State().Total()
      ensures ApplyInstructions(View(Doc()), instrs) == Some(View(ShowAll(Doc(), GenerateUndo(gh.State(), redo))))
    {
      var ops := GenerateUndoOps(redo);
      instrs := ConvertDontApply(OpsOf(ops));
      context := |gh.global| + |gh.local|;
    }

    // -------------------------------------------------------------- local operations

    /** The last loop of `process_local_op`: every operation goes to the history. */
    method PushOps(ops: seq<Op>, siteSeq: LocalSeq, kind: EditorOpKind, groupSeq: GroupSeq) returns (r: Result<bool>)
      requires gh.State().PointersInRange()
      modifies gh
      ensures match PushAll(old(gh.State()), ops, siteSeq, kind, groupSeq)
              case Err(e) => r == Err(e)
              case Ok(h) => r.Ok? && gh.State() == h && h.PointersInRange()
    {
      hide Engines.ProcessOpKind;
      ghost var h := gh.State();
      for i := 0 to |ops|
        invariant gh.State().PointersInRange()
        invariant PushAll(gh.State(), ops[i..], siteSeq, kind, groupSeq) == PushAll(h, ops, siteSeq, kind, groupSeq)
      {
        assert ops[i..][0] == ops[i] && ops[i..][1..] == ops[i + 1..];
        PushKeepsPointers(gh.State(), ops[i], siteSeq, kind, groupSeq);
        var inferredSeq := |gh.global| + |gh.local| + 1;
        var opKind := gh.ProcessOpKind(kind, inferredSeq);
        if opKind.Err? { return Err(opKind.error); }
        gh.local := gh.local + [FatOp(None, ops[i], siteSeq, opKind.value, groupSeq)];
      }
      return Ok(true);
    }

    /** The checks of `process_local_op`; the sequence number is taken even when one fails
        after the first. */
    ghost function LocalError(op: EditorOp, siteSeq: LocalSeq): Option<EngineError>
      reads this, gh, internalDoc
    {
      if siteSeq != currentSiteSeq + 1 then Some(SiteSeqMismatch(currentSiteSeq + 1))
      else match op
           case EditorIns(_, content) => if content == "" then Some(EmptyInsert) else None
           case EditorDel(_, _) => if internalDoc.Flags() == [] then Some(DeleteInEmptyDoc) else None
           case EditorUndo(context) => if gh.State().Total() != context then Some(UndoError) else None
           case EditorRedo(context) => if gh.State().Total() != context then Some(UndoError) else None
    }

    /** An edit fits the text the editor shows; what an undo or redo command generates is in
        bounds, which `SessionHistories.UndoFits` shows while undo pointers denote own operations. */
    ghost predicate LocalOpFits(op: EditorOp)
      requires Valid()
      reads this, gh, internalDoc
    {
      match op
      case EditorIns(_, _) => EditorOpFits(op, View(Doc()))
      case EditorDel(_, _) => EditorOpFits(op, View(Doc()))
      case EditorUndo(_) => ValidRun(GenerateUndo(gh.State(), false), Doc())
      case EditorRedo(_) => ValidRun(GenerateUndo(gh.State(), true), Doc())
    }

    /** An edit of the editor becomes one operation, applied to the document. */
    method ConvertEdit(op: EditorOp) returns (res: Op)
      requires Valid() && EditorOpFits(op, View(Doc()))
      modifies this`text, internalDoc
      ensures Valid() && res.site == site && Means(op, gh.State(), old(Doc()), [res])
      ensures ValidRun([res], old(Doc())) && Doc() == ShowAll(old(Doc()), [res])
      ensures ApplyInstructions(old(View(Doc())), [EditOf(op)]) == Some(View(Doc()))
    {
      hide Visible, ApplyInstruction;
      ghost var d := Doc();
      res := internalDoc.ConvertEditorOpAndApply(op, site, text);
      text := Apply(d, res).text;
      assert OriginalEdit(d, res);
      RunOfOne(d, res);
      ShowAllIs(d, [res]);
      assert [res][0] == res && [res][1..] == [];
      assert QuotingRun([], Apply(d, res)) && QuotingRun([res], d);
      OneInstruction(View(d), EditOf(op));
      EditInView(op, View(d));
    }

    /** `process_local_op`. The new history is the old one with the operations pushed, the
        document is the old one with them applied, and the instructions take the editor's
        text to the new view. */
    method ProcessLocalOp(op: EditorOp, groupSeq: GroupSeq, siteSeq: LocalSeq)
      returns (r: Result<seq<EditInstruction>>, ghost ops: seq<Op>)
      requires Valid() && (LocalError(op, siteSeq).None? ==> LocalOpFits(op))
      modifies this`text, this`currentSiteSeq, internalDoc, gh
      ensures Valid()
      ensures siteSeq != old(currentSiteSeq) + 1 ==> r == Err(SiteSeqMismatch(old(currentSiteSeq) + 1))
      ensures siteSeq == old(currentSiteSeq) + 1 ==>
                match op
                case EditorIns(_, content) => if content == "" then r == Err(EmptyInsert) else r.Ok?
                case EditorDel(_, _) => if |old(internalDoc.Flags())| == 0 then r == Err(DeleteInEmptyDoc) else r.Ok?
                case EditorUndo(context) => if context != old(|gh.global| + |gh.local|) then r == Err(UndoError) else r.Ok?
                case EditorRedo(context) => if context != old(|gh.global| + |gh.local|) then r == Err(UndoError) else r.Ok?
      ensures r.Err? ==> Doc() == old(Doc()) && gh.State() == old(gh.State())
      ensures old(LocalError(op, siteSeq)).Some? ==>
                && r == Err(old(LocalError(op, siteSeq)).value) && Doc() == old(Doc())
                && State() == if siteSeq == old(currentSiteSeq) + 1 then old(State()).(currentSiteSeq := siteSeq) else old(State())
      ensures old(LocalError(op, siteSeq)).None? ==>
                && r.Ok? && Means(op, old(gh.State()), old(Doc()), ops) && ValidRun(ops, old(Doc()))
                && (KindOf(op).EditOriginal? || OwnCommand(old(gh.State()), KindOf(op).EditRedo?, site) ==>
                      forall i :: 0 <= i < |ops| ==> ops[i].site == site)
                && LocalOps(old(State()), ops, KindOf(op), groupSeq) == Ok(State())
                && Doc() == ShowAll(old(Doc()), ops)
                && ApplyInstructions(old(View(Doc())), r.value) == Some(View(Doc()))
                && (KindOf(op).EditOriginal? ==> r.value == [EditOf(op)])
    {
      hide PushAll, Visible, Apply, ApplyInstruction, GenerateUndo, Restored, ShowAll;
      ops := [];
      if siteSeq != currentSiteSeq + 1 { return Err(SiteSeqMismatch(currentSiteSeq + 1)), ops; }
      currentSiteSeq := siteSeq;
      ghost var h, d := gh.State(), Doc();
      var newOps: seq<Op>, instrs: seq<EditInstruction>;
      match op {
      case EditorIns(pos, content) =>
        if |content| == 0 { return Err(EmptyInsert), ops; }
        var newOp := ConvertEdit(op);
        newOps, instrs := [newOp], [InsEdits([Edit(pos, content)])];
        OriginalNeverFails(h, newOp, siteSeq, groupSeq);
      case EditorDel(pos, content) =>
        NoRanges(internalDoc.ranges);
        if |internalDoc.ranges| == 0 { return Err(DeleteInEmptyDoc), ops; }
        var newOp := ConvertEdit(op);
        newOps, instrs := [newOp], [DelEdits([Edit(pos, content)])];
        OriginalNeverFails(h, newOp, siteSeq, groupSeq);
      case EditorUndo(context) =>
        if |gh.global| + |gh.local| != context { return Err(UndoError), ops; }
        var fats := GenerateUndoOps(false);
        newOps := OpsOf(fats);
        instrs := ApplyGenerated(newOps);
        UndoNeverFails(h, false, siteSeq, groupSeq);
        CommandSite(h, false, site);
      case EditorRedo(context) =>
        if |gh.global| + |gh.local| != context { return Err(UndoError), ops; }
        var fats := GenerateUndoOps(true);
        newOps := OpsOf(fats);
        instrs := ApplyGenerated(newOps);
        UndoNeverFails(h, true, siteSeq, groupSeq);
        CommandSite(h, true, site);
      }
      ops := newOps;
      var pushed := PushOps(newOps, siteSeq, KindOf(op), groupSeq);
      r := match pushed case Err(e) => Err(e) case Ok(_) => Ok(instrs);
    }

    // -------------------------------------------------------------- remote operations

    /** `process_remote_op`. Where it fails because the acknowledged operation is not the
        first pending one, that one has been removed already. */
    method ProcessRemoteOp(fat: FatOp) returns (r: Result<Option<(EditInstruction, GlobalSeq)>>)
      requires Valid()
      requires RemoteOp(State(), fat).Ok? && RemoteOp(State(), fat).value.1.Some? ==> ValidOn(RemoteOp(State(), fat).value.1.value, text)
      modifies this`text, this`currentSeq, internalDoc, gh
      ensures fat.seqNo.None? ==> r == Err(SeqMissing)
      ensures fat.seqNo.Some? && fat.seqNo.value != old(currentSeq) + 1 ==> r == Err(SeqMismatch(old(currentSeq) + 1))
      ensures fat.seqNo == Some(old(currentSeq) + 1) && fat.op.site == site ==>
                if old(|gh.local|) == 0 then r == Err(OpMissing)
                else if old(gh.local)[0].op.site != site || old(gh.local)[0].siteSeq != fat.siteSeq then r == Err(OpMismatch)
                else r == Ok(None) && gh.local == old(gh.local)[1..] && gh.global == old(gh.global) + [fat]
      ensures fat.seqNo == Some(old(currentSeq) + 1) && fat.op.site != site ==>
                && r.Ok? && r.value.Some? && |gh.local| == old(|gh.local|)
                && forall i :: 0 <= i < |gh.local| ==>
                     && gh.local[i] == old(gh.local)[i].(op := gh.local[i].op, kind := gh.local[i].kind)
                     && (gh.local[i].kind.Original? <==> old(gh.local)[i].kind.Original?)
      ensures match RemoteOp(old(State()), fat)
              case Err(e) =>
                && r == Err(e) && Doc() == old(Doc())
                && State() == if e.OpMismatch? then old(State()).(gh := old(gh.State()).(local := old(gh.local)[1..])) else old(State())
              case Ok((c, None)) => Valid() && r == Ok(None) && State() == c && Doc() == old(Doc())
              case Ok((c, Some(op))) =>
                && Valid() && State() == c && Fits(op, |old(text)|) && Doc() == Show(old(Doc()), op)
                && r.Ok? && r.value.Some? && r.value.value.1 == currentSeq
                && ApplyInstruction(old(View(Doc())), r.value.value.0) == Some(View(Doc()))
    {
      hide Apply, Visible, ApplyInstruction, Batch, Rebase, ValidOn, Fits, Restored;
      if RemoteOp(State(), fat).Ok? { RemoteKeepsPointersInRange(State(), fat); }
      if fat.seqNo.None? { return Err(SeqMissing); }
      var seqNo := fat.seqNo.value;
      if seqNo != currentSeq + 1 { return Err(SeqMismatch(currentSeq + 1)); }
      if fat.op.site == site {
        if |gh.local| == 0 { return Err(OpMissing); }
        var localOp := gh.local[0];
        gh.local := gh.local[1..];
        if localOp.op.site != fat.op.site || localOp.siteSeq != fat.siteSeq { return Err(OpMismatch); }
        currentSeq := seqNo;
        gh.global := gh.global + [fat];
        return Ok(None);
      } else {
        var op, newLocal := SymmetricTransform(fat, gh.local);
        currentSeq := seqNo;
        gh.local := newLocal;
        gh.global := gh.global + [op];
        gh.MakeRoom(currentSeq - 1);
        var instr := ConvertAndApply(op.op);
        return Ok(Some((instr, seqNo)));
      }
    }
  }
}
