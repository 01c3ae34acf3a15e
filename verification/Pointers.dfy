/** The undo pointers are positions in the history, and the history shifts under them. An
    engine that has seen every global operation keeps them right: its queue and its undo
    deltas follow a stack of operation identities that no arriving operation touches. */
module Pointers {
  import opened Ops
  import opened Documents
  import opened Engines
  import opened UndoGeneration

  // ---------------------------------------------------------------- identities

  function OwnCount(fats: seq<FatOp>, site: SiteId): (n: nat)
    ensures n <= |fats|
  {
    if fats == [] then 0
    else OwnCount(fats[..|fats| - 1], site) + if fats[|fats| - 1].op.site == site then 1 else 0
  }

  /** The identity of the own operation at position `p`: it is the `n`-th one this site
      ever made. */
  function Identity(h: History, site: SiteId, p: nat): nat
    requires p <= h.Total()
  {
    OwnCount(h.All()[..p], site)
  }

  predicate AllOwn(fats: seq<FatOp>, site: SiteId) { forall i :: 0 <= i < |fats| ==> fats[i].op.site == site }

  lemma {:induction false} OwnCountAppend(fats: seq<FatOp>, own: seq<FatOp>, site: SiteId)
    requires AllOwn(own, site)
    ensures OwnCount(fats + own, site) == OwnCount(fats, site) + |own|
    decreases |own|
  {
    if own == [] {
      assert fats + own == fats;
    } else {
      var n := |own| - 1;
      assert (fats + own)[..|fats + own| - 1] == fats + own[..n];
      OwnCountAppend(fats, own[..n], site);
    }
  }

  lemma OwnCountSnoc(fats: seq<FatOp>, last: FatOp, site: SiteId)
    ensures OwnCount(fats + [last], site) == OwnCount(fats, site) + if last.op.site == site then 1 else 0
  {
    assert (fats + [last])[..|fats|] == fats;
  }

  /** Pending operations are all own, so identities count on from the global section. */
  lemma IdentityIs(h: History, site: SiteId, p: nat)
    requires p <= h.Total() && AllOwn(h.local, site)
    ensures p <= |h.global| ==> Identity(h, site, p) == OwnCount(h.global[..p], site)
    ensures p >= |h.global| ==> Identity(h, site, p) == OwnCount(h.global, site) + p - |h.global|
  {
    if p <= |h.global| { assert h.All()[..p] == h.global[..p]; }
    if p >= |h.global| {
      assert h.All()[..p] == h.global + h.local[..p - |h.global|];
      OwnCountAppend(h.global, h.local[..p - |h.global|], site);
    }
  }

  /** Different own operations have different identities. */
  lemma {:induction false} OwnCountGrows(fats: seq<FatOp>, site: SiteId, p: nat, q: nat)
    requires p <= q <= |fats|
    ensures OwnCount(fats[..p], site) <= OwnCount(fats[..q], site)
    ensures p < q && fats[q - 1].op.site == site ==> OwnCount(fats[..p], site) < OwnCount(fats[..q], site)
    decreases q
  {
    if p < q {
      assert fats[..q][..q - 1] == fats[..q - 1];
      OwnCountGrows(fats, site, p, q - 1);
    }
  }

  lemma IdentityIsInjective(h: History, site: SiteId, p: nat, q: nat)
    requires IsOwn(h, site, p) && IsOwn(h, site, q)
    ensures Identity(h, site, p) == Identity(h, site, q) <==> p == q
  {
    if p < q { OwnCountGrows(h.All(), site, p, q); }
    if q < p { OwnCountGrows(h.All(), site, q, p); }
  }

  // ---------------------------------------------------------------- the reference

  /** Undo by identity: entries before `done` can be undone, the others redone;
      `reverses[k]` is what own operation `k + 1` was made to reverse, 0 if nothing. */
  datatype UndoStack = UndoStack(ids: seq<nat>, done: nat, reverses: seq<nat>) {
    predicate Ok() {
      && done <= |ids|
      && (forall i :: 0 <= i < |ids| ==> 1 <= ids[i] <= |reverses|)
      && (forall i, j :: 0 <= i < j < |ids| ==> ids[i] != ids[j])
    }

    function Push(kind: EditorOpKind): (r: Option<UndoStack>)
      requires Ok()
      ensures r.Some? ==> r.value.Ok()
    {
      var id := |reverses| + 1;
      match kind
      case EditOriginal => Some(UndoStack(ids[..done] + [id], done + 1, reverses + [0]))
      case EditUndo =>
        if done == 0 then None else Some(UndoStack(ids[done - 1 := id], done - 1, reverses + [ids[done - 1]]))
      case EditRedo =>
        if done == |ids| then None else Some(UndoStack(ids[done := id], done + 1, reverses + [ids[done]]))
    }

    function PushTimes(kind: EditorOpKind, n: nat): (r: Option<UndoStack>)
      requires Ok()
      ensures r.Some? ==> r.value.Ok()
      decreases n
    {
      if n == 0 then Some(this)
      else match Push(kind)
           case None => None
           case Some(u) => u.PushTimes(kind, n - 1)
    }
  }

  /** A pending undo operation, counting back from its own place, arrives at the operation
      that the stack says it reverses. */
  predicate TargetIs(h: History, site: SiteId, u: UndoStack, j: nat)
    requires j < |h.local| && |u.reverses| == OwnCount(h.global, site) + |h.local|
  {
    var id := u.reverses[OwnCount(h.global, site) + j];
    match h.local[j].kind
    case Original => id == 0
    case Undo(delta) =>
      && 1 <= delta <= |h.global| + j
      && IsOwn(h, site, |h.global| + j + 1 - delta)
      && Identity(h, site, |h.global| + j + 1 - delta) == id
  }

  predicate QueueFollows(h: History, site: SiteId, u: UndoStack) {
    && |u.ids| == |h.undoQueue|
    && forall i :: 0 <= i < |h.undoQueue| ==>
         IsOwn(h, site, h.undoQueue[i]) && Identity(h, site, h.undoQueue[i]) == u.ids[i]
  }

  predicate DeltasFollow(h: History, site: SiteId, u: UndoStack) {
    && |u.reverses| == OwnCount(h.global, site) + |h.local|
    && forall j :: 0 <= j < |h.local| ==> TargetIs(h, site, u, j)
  }

  /** The engine's positions denote what the stack's identities say. */
  predicate Follows(h: History, site: SiteId, u: UndoStack) {
    && h.PointersInRange() && AllOwn(h.local, site) && u.Ok()
    && u.done == h.Done()
    && QueueFollows(h, site, u) && DeltasFollow(h, site, u)
  }

  /** So no two pointers denote the same operation. */
  lemma PointersAreDistinct(h: History, site: SiteId, u: UndoStack, i: nat, j: nat)
    requires Follows(h, site, u) && i < j < |h.undoQueue|
    ensures h.undoQueue[i] != h.undoQueue[j]
  {
    assert u.ids[i] != u.ids[j];
  }

  // ---------------------------------------------------------------- one operation pushed

  /** Pushing at the end leaves everything before it where it is. */
  lemma PushKeepsIdentities(h: History, h': History, site: SiteId, fat: FatOp, p: nat)
    requires h'.global == h.global && h'.local == h.local + [fat] && p <= h.Total()
    ensures Identity(h', site, p) == Identity(h, site, p)
    ensures IsOwn(h, site, p) ==> IsOwn(h', site, p)
  {
    assert h'.All()[..p] == h.All()[..p];
  }

  lemma LastIsOwn(h: History, site: SiteId)
    requires AllOwn(h.local, site) && h.local != []
    ensures IsOwn(h, site, h.Total()) && Identity(h, site, h.Total()) == OwnCount(h.global, site) + |h.local|
  {
    IdentityIs(h, site, h.Total());
  }

  lemma PushKeepsDeltas(h: History, h': History, site: SiteId, u: UndoStack, u': UndoStack, fat: FatOp)
    requires h.PointersInRange() && AllOwn(h.local, site) && DeltasFollow(h, site, u) && fat.op.site == site
    requires h'.global == h.global && h'.local == h.local + [fat]
    requires |u'.reverses| == |u.reverses| + 1 && u'.reverses[..|u.reverses|] == u.reverses
    requires match fat.kind
             case Original => u'.reverses[|u.reverses|] == 0
             case Undo(delta) => 1 <= delta <= h.Total() && IsOwn(h, site, h.Total() + 1 - delta)
                                 && Identity(h, site, h.Total() + 1 - delta) == u'.reverses[|u.reverses|]
    ensures DeltasFollow(h', site, u')
  {
    hide OwnCount, Identity, IsOwn;
    forall j | 0 <= j < |h'.local| ensures TargetIs(h', site, u', j) {
      if j < |h.local| {
        assert TargetIs(h, site, u, j);
        if h.local[j].kind.Undo? { PushKeepsIdentities(h, h', site, fat, |h.global| + j + 1 - h.local[j].kind.delta); }
      } else if fat.kind.Undo? {
        PushKeepsIdentities(h, h', site, fat, h.Total() + 1 - fat.kind.delta);
      }
    }
  }

  lemma PushFollows(h: History, site: SiteId, u: UndoStack, op: Op, siteSeq: LocalSeq, kind: EditorOpKind, group: GroupSeq)
    requires Follows(h, site, u) && op.site == site
    ensures PushLocal(h, op, siteSeq, kind, group).Ok? <==> u.Push(kind).Some?
    ensures u.Push(kind).Some? ==>
              var h' := PushLocal(h, op, siteSeq, kind, group).value;
              h'.global == h.global && Follows(h', site, u.Push(kind).value)
  {
    hide OwnCount, Identity, IsOwn, PushLocal, DeltasFollow;
    PushShape(h, op, siteSeq, kind, group);
    if u.Push(kind).Some? {
      var h', u' := PushLocal(h, op, siteSeq, kind, group).value, u.Push(kind).value;
      var fat := h'.local[|h.local|];
      assert |u.reverses| == OwnCount(h.global, site) + |h.local| by { assert DeltasFollow(h, site, u); CountOfDeltas(h, site, u); }
      PushKeepsDeltas(h, h', site, u, u', fat);
      LastIsOwn(h', site);
      forall i | 0 <= i < |h'.undoQueue|
        ensures IsOwn(h', site, h'.undoQueue[i]) && Identity(h', site, h'.undoQueue[i]) == u'.ids[i]
      {
        if h'.undoQueue[i] != h'.Total() { PushKeepsIdentities(h, h', site, fat, h.undoQueue[i]); }
      }
    }
  }

  lemma CountOfDeltas(h: History, site: SiteId, u: UndoStack)
    requires DeltasFollow(h, site, u)
    ensures |u.reverses| == OwnCount(h.global, site) + |h.local|
  {}

  lemma {:induction false} PushAllFollows(h: History, site: SiteId, u: UndoStack, ops: seq<Op>, siteSeq: LocalSeq,
          kind: EditorOpKind, group: GroupSeq)
    requires Follows(h, site, u) && forall i :: 0 <= i < |ops| ==> ops[i].site == site
    ensures PushAll(h, ops, siteSeq, kind, group).Ok? <==> u.PushTimes(kind, |ops|).Some?
    ensures u.PushTimes(kind, |ops|).Some? ==>
              var h' := PushAll(h, ops, siteSeq, kind, group).value;
              h'.global == h.global && Follows(h', site, u.PushTimes(kind, |ops|).value)
    decreases |ops|
  {
    hide PushLocal, QueueFollows, DeltasFollow;
    if ops != [] {
      PushFollows(h, site, u, ops[0], siteSeq, kind, group);
      if u.Push(kind).Some? {
        PushAllFollows(PushLocal(h, ops[0], siteSeq, kind, group).value, site, u.Push(kind).value, ops[1..], siteSeq, kind, group);
      }
    }
  }

  // ---------------------------------------------------------------- another site's operation

  /** Where an operation at position `p` is after a remote operation was put at the end
      of the global section. */
  function Moved(h: History, p: nat): nat { if p <= |h.global| then p else p + 1 }

  lemma MovedKeepsIdentity(h: History, h': History, site: SiteId, fat: FatOp, p: nat)
    requires AllOwn(h.local, site) && AllOwn(h'.local, site) && fat.op.site != site
    requires h'.global == h.global + [fat] && |h'.local| == |h.local| && p <= h.Total()
    ensures OwnCount(h'.global, site) == OwnCount(h.global, site)
    ensures Identity(h', site, Moved(h, p)) == Identity(h, site, p)
    ensures IsOwn(h, site, p) ==> IsOwn(h', site, Moved(h, p))
  {
    OwnCountSnoc(h.global, fat, site);
    IdentityIs(h, site, p);
    IdentityIs(h', site, Moved(h, p));
    if p <= |h.global| { assert h'.global[..p] == h.global[..p]; }
  }

  /** The history after `process_remote_op` accepts another site's operation. */
  lemma RemoteHistory(c: Client, fat: FatOp)
    requires c.gh.PointersInRange() && AllOwn(c.gh.local, c.site) && fat.op.site != c.site && RemoteOp(c, fat).Ok?
    ensures var c' := RemoteOp(c, fat).value.0; c'.site == c.site && c'.currentSeq == c.currentSeq + 1
    ensures var h := RemoteOp(c, fat).value.0.gh;
            && h.global == c.gh.global + [h.global[|c.gh.global|]] && h.global[|c.gh.global|].op.site != c.site
            && |h.local| == |c.gh.local| && AllOwn(h.local, c.site)
            && (forall j :: 0 <= j < |h.local| ==> h.local[j].kind == BumpDelta(c.gh.local[j], j).kind)
            && h.undoQueue == BumpQueue(c.gh.undoQueue, c.currentSeq) && h.undoTip == c.gh.undoTip
  {
    var h := RemoteOp(c, fat).value.0.gh;
    var pending := OpsOf(c.gh.local);
    BatchKeepsMeta(fat.op, pending);
    RebaseKeepsMeta(pending, fat.op);
    var rebased := Rebase(pending, fat.op);
    forall j | 0 <= j < |h.local| ensures h.local[j].op.site == c.site && h.local[j].kind == BumpDelta(c.gh.local[j], j).kind {
      assert SameMeta(pending[j], rebased[j]);
      assert h.local[j] == BumpDelta(c.gh.local[j].(op := rebased[j]), j);
    }
  }

  /** The queue moves right, each pointer still denoting the same own operation, exactly
      when no pointer lies between the operations this engine holds and the number of
      operations that exist. */
  lemma RemoteKeepsPointersIff(c: Client, fat: FatOp)
    requires c.gh.PointersInRange() && AllOwn(c.gh.local, c.site) && fat.op.site != c.site && RemoteOp(c, fat).Ok?
    requires |c.gh.global| <= c.currentSeq && OwnPointers(c.gh, c.site)
    ensures var h := RemoteOp(c, fat).value.0.gh;
            (forall i :: 0 <= i < |c.gh.undoQueue| ==>
               IsOwn(h, c.site, h.undoQueue[i]) && Identity(h, c.site, h.undoQueue[i]) == Identity(c.gh, c.site, c.gh.undoQueue[i]))
            <==> (forall i :: 0 <= i < |c.gh.undoQueue| ==> c.gh.undoQueue[i] <= |c.gh.global| || c.currentSeq < c.gh.undoQueue[i])
  {
    hide OwnCount, Identity, IsOwn, RemoteOp;
    RemoteHistory(c, fat);
    var h := RemoteOp(c, fat).value.0.gh;
    forall i | 0 <= i < |c.gh.undoQueue|
      ensures IsOwn(h, c.site, h.undoQueue[i]) && Identity(h, c.site, h.undoQueue[i]) == Identity(c.gh, c.site, c.gh.undoQueue[i])
         <==> h.undoQueue[i] == Moved(c.gh, c.gh.undoQueue[i])
    {
      var p, q := c.gh.undoQueue[i], h.undoQueue[i];
      MovedKeepsIdentity(c.gh, h, c.site, h.global[|c.gh.global|], p);
      if IsOwn(h, c.site, q) { IdentityIsInjective(h, c.site, q, Moved(c.gh, p)); }
    }
  }

  /** An engine that holds every operation it has counted keeps following its stack, which
      does not change, when another site's operation arrives. */
  lemma RemoteFollows(c: Client, fat: FatOp, u: UndoStack)
    requires Follows(c.gh, c.site, u) && c.currentSeq == |c.gh.global|
    requires fat.op.site != c.site && RemoteOp(c, fat).Ok?
    ensures var c' := RemoteOp(c, fat).value.0;
            Follows(c'.gh, c.site, u) && c'.currentSeq == |c'.gh.global| && c'.site == c.site
  {
    hide OwnCount, Identity, IsOwn, RemoteOp;
    RemoteHistory(c, fat);
    var h := RemoteOp(c, fat).value.0.gh;
    var last := h.global[|c.gh.global|];
    MovedKeepsIdentity(c.gh, h, c.site, last, 0);
    forall i | 0 <= i < |h.undoQueue|
      ensures IsOwn(h, c.site, h.undoQueue[i]) && Identity(h, c.site, h.undoQueue[i]) == u.ids[i]
    {
      MovedKeepsIdentity(c.gh, h, c.site, last, c.gh.undoQueue[i]);
    }
    forall j | 0 <= j < |h.local| ensures TargetIs(h, c.site, u, j) {
      assert TargetIs(c.gh, c.site, u, j);
      if c.gh.local[j].kind.Undo? {
        MovedKeepsIdentity(c.gh, h, c.site, last, |c.gh.global| + j + 1 - c.gh.local[j].kind.delta);
      }
    }
  }

  // ---------------------------------------------------------------- an acknowledgement

  lemma AckKeepsIdentity(h: History, h': History, site: SiteId, fat: FatOp, p: nat)
    requires AllOwn(h.local, site) && h.local != [] && fat.op.site == site && p <= h.Total()
    requires h'.global == h.global + [fat] && h'.local == h.local[1..]
    ensures Identity(h', site, p) == Identity(h, site, p)
    ensures OwnCount(h'.global, site) == OwnCount(h.global, site) + 1
    ensures IsOwn(h, site, p) ==> IsOwn(h', site, p)
  {
    OwnCountSnoc(h.global, fat, site);
    IdentityIs(h, site, p);
    IdentityIs(h', site, p);
    if p <= |h.global| { assert h'.global[..p] == h.global[..p]; }
  }

  lemma AckFollows(c: Client, fat: FatOp, u: UndoStack)
    requires Follows(c.gh, c.site, u) && c.currentSeq == |c.gh.global|
    requires fat.op.site == c.site && RemoteOp(c, fat).Ok?
    ensures var c' := RemoteOp(c, fat).value.0;
            Follows(c'.gh, c.site, u) && c'.currentSeq == |c'.gh.global| && c'.site == c.site
  {
    hide OwnCount, Identity;
    var h := RemoteOp(c, fat).value.0.gh;
    AckKeepsIdentity(c.gh, h, c.site, fat, 0);
    forall i | 0 <= i < |h.undoQueue|
      ensures IsOwn(h, c.site, h.undoQueue[i]) && Identity(h, c.site, h.undoQueue[i]) == u.ids[i]
    {
      AckKeepsIdentity(c.gh, h, c.site, fat, c.gh.undoQueue[i]);
    }
    forall j | 0 <= j < |h.local| ensures TargetIs(h, c.site, u, j) {
      assert TargetIs(c.gh, c.site, u, j + 1);
      var kind := c.gh.local[j + 1].kind;
      if kind.Undo? { AckKeepsIdentity(c.gh, h, c.site, fat, |c.gh.global| + j + 2 - kind.delta); }
    }
  }

  // ---------------------------------------------------------------- every run

  /** Packaging changes nothing here. */
  datatype EngineStep =
    | Local(ops: seq<Op>, kind: EditorOpKind, groupSeq: GroupSeq)
    | Remote(fat: FatOp)

  function Run(c: Client, steps: seq<EngineStep>): Result<Client>
    requires c.gh.PointersInRange()
    decreases |steps|
  {
    if steps == [] then Ok(c)
    else match steps[0]
         case Local(ops, kind, group) =>
           (match LocalOps(c, ops, kind, group)
            case Err(e) => Err(e)
            case Ok(c') => Run(c', steps[1..]))
         case Remote(fat) =>
           (match RemoteOp(c, fat)
            case Err(e) => Err(e)
            case Ok((c', _)) => RemoteKeepsPointersInRange(c, fat); Run(c', steps[1..]))
  }

  /** The stack does not hear of operations that arrive. */
  function RunStack(u: UndoStack, steps: seq<EngineStep>): Option<UndoStack>
    requires u.Ok()
    decreases |steps|
  {
    if steps == [] then Some(u)
    else match steps[0]
         case Local(ops, kind, _) =>
           (match u.PushTimes(kind, |ops|)
            case None => None
            case Some(u') => RunStack(u', steps[1..]))
         case Remote(_) => RunStack(u, steps[1..])
  }

  predicate OwnSteps(site: SiteId, steps: seq<EngineStep>) {
    forall k :: 0 <= k < |steps| ==> steps[k].Local? ==> forall i :: 0 <= i < |steps[k].ops| ==> steps[k].ops[i].site == site
  }

  lemma LocalFollows(c: Client, u: UndoStack, ops: seq<Op>, kind: EditorOpKind, group: GroupSeq)
    requires Follows(c.gh, c.site, u) && c.currentSeq == |c.gh.global|
    requires (forall i :: 0 <= i < |ops| ==> ops[i].site == c.site) && LocalOps(c, ops, kind, group).Ok?
    ensures u.PushTimes(kind, |ops|).Some?
    ensures var c' := LocalOps(c, ops, kind, group).value;
            Follows(c'.gh, c.site, u.PushTimes(kind, |ops|).value) && c'.currentSeq == |c'.gh.global| && c'.site == c.site
  {
    hide PushAll, QueueFollows, DeltasFollow;
    PushAllFollows(c.gh, c.site, u, ops, c.currentSiteSeq + 1, kind, group);
  }

  /** Through every run of local commands, acknowledgements and other sites' operations,
      an engine that holds every operation it has counted keeps all pointers in range and
      distinct, each denoting the own operation the stack says, and every pending undo
      counting back to its target. */
  lemma {:induction false} EveryRunFollows(c: Client, u: UndoStack, steps: seq<EngineStep>)
    requires Follows(c.gh, c.site, u) && c.currentSeq == |c.gh.global| && OwnSteps(c.site, steps)
    requires Run(c, steps).Ok?
    ensures RunStack(u, steps).Some?
    ensures Follows(Run(c, steps).value.gh, c.site, RunStack(u, steps).value)
    decreases |steps|
  {
    if steps != [] {
      var rest := steps[1..];
      assert OwnSteps(c.site, rest) by {
        forall k | 0 <= k < |rest| && rest[k].Local? ensures forall i :: 0 <= i < |rest[k].ops| ==> rest[k].ops[i].site == c.site {
          assert rest[k] == steps[k + 1];
        }
      }
      hide LocalOps, RemoteOp, Follows, OwnSteps;
      match steps[0]
      case Local(ops, kind, group) =>
        LocalFollows(c, u, ops, kind, group);
        EveryRunFollows(LocalOps(c, ops, kind, group).value, u.PushTimes(kind, |ops|).value, rest);
      case Remote(fat) =>
        if fat.op.site == c.site { AckFollows(c, fat, u); } else { RemoteFollows(c, fat, u); }
        EveryRunFollows(RemoteOp(c, fat).value.0, u, rest);
    }
  }

  /** A new engine that starts at sequence number 0 holds every operation it has counted. */
  lemma FreshFollows(site: SiteId)
    ensures Follows(NewClient(site, 0).gh, site, UndoStack([], 0, []))
    ensures NewClient(site, 0).currentSeq == |NewClient(site, 0).gh.global|
  {}
}
