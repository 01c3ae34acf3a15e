/** The server engine, and a hosted document: the engine beside the buffer that is saved
    to disk. */
module ServerEngines {
  import opened Ops
  import opened Documents
  import opened Engines
  import opened Ranges
  import opened Runs
  import opened Views
  import opened InternalDocs
  import opened GlobalHistories
  import opened ClientEngines
  import opened Sessions
  import opened Diffs
  import opened Showing

  class ServerEngine {
    const gh: GlobalHistory
    const internalDoc: InternalDoc
    var currentSeq: GlobalSeq
    ghost var text: string

    ghost predicate Valid()
      reads this, gh, internalDoc
    {
      internalDoc.Valid() && |text| == |internalDoc.Flags()| && currentSeq == |gh.global|
    }

    ghost function Doc(): Documents.Doc
      reads this, internalDoc
    {
      Documents.Doc(text, internalDoc.Flags())
    }

    constructor (ghost text: string, initLen: nat)
      requires |text| == initLen
      ensures Valid() && fresh(gh) && fresh(internalDoc)
      ensures gh.global == [] && currentSeq == 0 && Doc() == Documents.Doc(text, Repeat(true, initLen))
    {
      gh := new GlobalHistory();
      internalDoc := new InternalDoc(initLen);
      currentSeq, this.text := 0, text;
    }

    method GlobalOpsAfter(after: GlobalSeq) returns (fats: seq<FatOp>)
      ensures fats == OpsAfter(gh.global, after)
    {
      fats := if after < |gh.global| then gh.global[after..] else [];
    }

    /** `process_ops`: a batch is rebased over what its sender had not seen, numbered and
        added to the history. */
    method ProcessOps(ops: seq<FatOp>, context: GlobalSeq) returns (r: seq<FatOp>)
      requires Valid()
      modifies this`currentSeq, gh
      ensures Valid() && r == Sequenced(old(gh.global), ContextOps(context, ops), old(currentSeq))
      ensures gh.global == old(gh.global) + r && currentSeq == old(currentSeq) + |r|
      ensures |r| == |ops|
      ensures forall i :: 0 <= i < |r| ==> r[i] == ops[i].(op := r[i].op, seqNo := Some(old(currentSeq) + i + 1))
    {
      var l1 := GlobalOpsAfter(context);
      var rebased;
      rebased, r := QuadraticTransform(l1, ops);
      ghost var admitted := r;
      for i := 0 to |r|
        invariant currentSeq == old(currentSeq) + i && gh.global == old(gh.global)
        invariant |r| == |admitted|
        invariant forall k :: 0 <= k < |r| ==> r[k] == if k < i then admitted[k].(seqNo := Some(old(currentSeq) + k + 1)) else admitted[k]
      {
        r := r[i := r[i].(seqNo := Some(currentSeq + 1))];
        currentSeq := currentSeq + 1;
      }
      assert r == Numbered(admitted, old(currentSeq));
      gh.global := gh.global + r;
    }

    method ConvertAndApply(fat: FatOp) returns (instr: EditInstruction)
      requires Valid() && ValidOn(fat.op, text)
      modifies this`text, internalDoc
      ensures Valid() && Fits(fat.op, |old(text)|) && Doc() == Show(old(Doc()), fat.op)
      ensures ApplyInstruction(old(View(Doc())), instr) == Some(View(Doc()))
    {
      ghost var d := Doc();
      ValidFits(fat.op, text);
      instr := internalDoc.ConvertInternalOpAndApply(fat.op, text);
      text := Show(d, fat.op).text;
    }
  }

  /** What a handler does when something is wrong with the document. */
  datatype Handled<+T> = Done(value: T) | DocFatal

  /** What the server answers to a batch. */
  datatype Answer = Broadcast(fats: seq<FatOp>) | NotOpen | SiteSeqWrong(expectedSeq: LocalSeq)

  class HostedDoc {
    const engine: ServerEngine
    var buffer: string
    var subscribers: map<SiteId, LocalSeq>
    var nextExternalSiteSeq: LocalSeq

    /** The buffer is what the engine's document shows. */
    ghost predicate Valid()
      reads this, engine, engine.gh, engine.internalDoc
    {
      engine.Valid() && buffer == View(engine.Doc())
    }

    ghost function State(): Server
      reads this, engine, engine.gh, engine.internalDoc
    {
      Server(engine.gh.global, engine.currentSeq, engine.Doc(), subscribers)
    }

    constructor (content: string)
      ensures Valid() && fresh(engine) && fresh(engine.gh) && fresh(engine.internalDoc)
      ensures buffer == content && State() == Server([], 0, Documents.Doc(content, Repeat(true, |content|)), map[])
      ensures nextExternalSiteSeq == 1
    {
      engine := new ServerEngine(content, |content|);
      buffer, subscribers, nextExternalSiteSeq := content, map[], 1;
      new;
      VisibleUniform(content, Repeat(true, |content|), true);
    }

    /** `Doc::apply_op`: the buffer follows the engine, no edit is out of bounds, and the
        lengths that are compared at the end agree. */
    method ApplyOp(fat: FatOp) returns (r: Handled<bool>)
      requires Valid() && ValidOn(fat.op, engine.text)
      modifies this`buffer, engine`text, engine.internalDoc
      ensures Valid() && r.Done? && Fits(fat.op, |old(engine.text)|) && engine.Doc() == Show(old(engine.Doc()), fat.op)
    {
      hide Visible, Apply, Fits, ValidOn, Restored;
      var instr := engine.ConvertAndApply(fat);
      var edited, ok := EditBuffer(buffer, instr.edits, instr.InsEdits?);
      buffer := edited;
      if !ok { return DocFatal; }
      var engineLen := engine.internalDoc.EditorLen();
      VisibleLen(engine.text, engine.internalDoc.Flags());
      r := if engineLen != |buffer| then DocFatal else Done(true);
    }

    /** The loop over processed operations. */
    method ApplyAll(fats: seq<FatOp>) returns (r: Handled<bool>)
      requires Valid() && ValidRun(OpsOf(fats), engine.Doc())
      modifies this`buffer, engine`text, engine.internalDoc
      ensures Valid() && r.Done? && engine.Doc() == ShowAll(old(engine.Doc()), OpsOf(fats))
    {
      hide Visible, Apply, Restored;
      ghost var d, ops := engine.Doc(), OpsOf(fats);
      r := Done(true);
      for i := 0 to |fats|
        invariant Valid() && r.Done?
        invariant ValidRun(ops[i..], engine.Doc()) && ShowAll(engine.Doc(), ops[i..]) == ShowAll(d, ops)
      {
        assert ops[i..][0] == fats[i].op && ops[i..][1..] == ops[i + 1..];
        ShowIff(engine.Doc(), ops[i]);
        RunOnSameLength(Apply(engine.Doc(), ops[i]), Show(engine.Doc(), ops[i]), ops[i + 1..]);
        r := ApplyOp(fats[i]);
      }
    }

    /** `handle_op_from_client`, after the permission check. */
    method HandleOpFromClient(site: SiteId, batch: ContextOps) returns (answer: Answer, r: Handled<bool>)
      requires Valid()
      requires SiteSeqExpected(subscribers, site, batch) ==>
                 ValidRun(OpsOf(Sequenced(engine.gh.global, batch, engine.currentSeq)), engine.Doc())
      modifies this`buffer, this`subscribers, engine, engine.gh, engine.internalDoc
      ensures Valid() && r.Done?
      ensures answer == NotOpen <==> site !in old(subscribers)
      ensures site in old(subscribers) ==>
                (answer == SiteSeqWrong(old(subscribers)[site] + 1) <==>
                   batch.ops != [] && batch.ops[0].siteSeq != old(subscribers)[site] + 1)
      ensures answer.Broadcast? ==>
                && |answer.fats| == |batch.ops| && engine.gh.global == old(engine.gh.global) + answer.fats
                && subscribers == if batch.ops == [] then old(subscribers)
                                  else old(subscribers)[site := batch.ops[|batch.ops| - 1].siteSeq]
      ensures if SiteSeqExpected(old(subscribers), site, batch) then
                && var fats := Sequenced(old(engine.gh.global), batch, old(engine.currentSeq));
                && State() == Admitting(old(State()), site, batch).(doc := ShowAll(old(engine.Doc()), OpsOf(fats)))
                && answer == Broadcast(Sequenced(old(engine.gh.global), batch, old(engine.currentSeq)))
              else
                && State() == old(State())
                && answer == if site in subscribers then SiteSeqWrong(subscribers[site] + 1) else NotOpen
    {
      hide Visible, Apply, Sequenced, Restored, ShowAll;
      r := Done(true);
      if site !in subscribers { return NotOpen, r; }
      var expectedSeq := subscribers[site] + 1;
      if |batch.ops| > 0 && batch.ops[0].siteSeq != expectedSeq { return SiteSeqWrong(expectedSeq), r; }
      var processed := engine.ProcessOps(batch.ops, batch.context);
      if |batch.ops| > 0 {
        subscribers := subscribers[site := batch.ops[|batch.ops| - 1].siteSeq];
      }
      r := ApplyAll(processed);
      answer := Broadcast(processed);
    }

    /** `handle_request_ops`: what the subscriber lacks; it counts its batches from the
        beginning again. */
    method HandleRequestOps(site: SiteId, after: GlobalSeq) returns (fats: seq<FatOp>)
      requires Valid()
      modifies this`subscribers
      ensures Valid() && fats == if after < |engine.gh.global| then engine.gh.global[after..] else []
      ensures State() == old(State()).(subscribers := old(subscribers)[site := 0])
    {
      subscribers := subscribers[site := 0];
      fats := engine.GlobalOpsAfter(after);
    }

    /** `reset_doc_from_disk`, given the diff: a change on disk by the operations of the diff,
        as the session's `ChangeOnDisk`. The buffer becomes the new content if no tombstone
        comes before the end of the last change. */
    method ResetFromDisk(chunks: seq<Chunk>) returns (fats: seq<FatOp>, r: Handled<bool>)
      requires Valid() && Proper(chunks) && buffer == OldText(chunks)
      modifies this`buffer, this`nextExternalSiteSeq, engine, engine.gh, engine.internalDoc
      ensures Valid() && r.Done?
      ensures old(AllLive(engine.internalDoc.Flags(), ChangeEnd(chunks))) ==> buffer == NewText(chunks)
      ensures OpsOf(fats) == Reversed(RawOps(chunks, EXTERNAL_SITE)) && ValidRun(OpsOf(fats), old(engine.Doc()))
      ensures Sequenced(old(engine.gh.global), ContextOps(old(engine.currentSeq), fats), old(engine.currentSeq)) == fats
      ensures State() == Sequence(old(State()), ContextOps(old(engine.currentSeq), fats))
      ensures forall i :: 0 <= i < |fats| ==> fats[i].siteSeq == old(nextExternalSiteSeq) + i
                                              && fats[i].seqNo == Some(old(engine.currentSeq) + i + 1)
      ensures nextExternalSiteSeq == old(nextExternalSiteSeq) + |fats|
    {
      hide Visible, Apply, Sequenced, RawOps, NewText, OldText, AllLive, ChangeEnd, Restored, ShowAll, Reversed, ValidRun, Replay;
      DiffOfView(engine.Doc(), chunks, EXTERNAL_SITE);
      var raw;
      raw, nextExternalSiteSeq := ChunksToOps(chunks, EXTERNAL_SITE, nextExternalSiteSeq);
      SequencedAtCurrentSeq(engine.gh.global, raw);
      fats := engine.ProcessOps(raw, engine.currentSeq);
      SequencedAtCurrentSeq(old(engine.gh.global), fats);
      assert Numbered(fats, old(engine.currentSeq)) == fats;
      r := ApplyAll(fats);
    }
  }
}
