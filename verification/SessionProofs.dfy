/** Every step of a session keeps the invariant. */
module SessionProofs {
  import opened Ops
  import opened Documents
  import opened Marks
  import opened Convergence
  import opened Tracking
  import opened ListConvergence
  import opened Engines
  import opened UndoGeneration
  import opened Sessions
  import opened SessionInvariants
  import opened SessionHistories

  // ---------------------------------------------------------------- growing the history

  /** The server's history grew by valid operations. */
  ghost predicate Grows(start: Doc, s: Server, t: Server, fats: seq<FatOp>) {
    ServerInv(start, s) && ServerInv(start, t) && t.global == s.global + fats
  }

  lemma AtGrows(start: Doc, s: Server, t: Server, fats: seq<FatOp>, k: nat)
    requires Grows(start, s, t, fats) && k <= |s.global|
    ensures At(start, s, k) == At(start, t, k)
  {
    OpsOfAppend(s.global, fats);
    assert OpsOf(t.global)[..k] == OpsOf(s.global)[..k];
  }

  lemma SameHistoryGrows(start: Doc, s: Server, t: Server)
    requires ServerInv(start, s) && t == s.(subscribers := t.subscribers)
    ensures Grows(start, s, t, [])
  {
    assert s.global + [] == s.global;
  }

  lemma SequenceGrows(start: Doc, server: Server, batch: ContextOps)
    requires ServerInv(start, server)
    requires ValidRun(OpsOf(Sequenced(server.global, batch, server.currentSeq)), server.doc)
    ensures Grows(start, server, Sequence(server, batch), Sequenced(server.global, batch, server.currentSeq))
  {
    hide ValidRun, Replay, Admit, Numbered, WithOps;
    var fats := Sequenced(server.global, batch, server.currentSeq);
    OpsOfAppend(server.global, fats);
    ReplayAppend(start, OpsOf(server.global), OpsOf(fats));
  }

  lemma SlicesGrow(xs: seq<FatOp>, ys: seq<FatOp>, lo: nat, hi: nat)
    requires lo <= hi <= |xs|
    ensures (xs + ys)[lo..hi] == xs[lo..hi]
  {}

  lemma OthersKeepInFlight(start: Doc, s: Server, t: Server, fats: seq<FatOp>, p: Peer, batch: ContextOps, m: nat)
    requires Grows(start, s, t, fats) && InFlight(start, s, p, batch, m)
    requires NoneOf(fats, p.engine.site, 0)
    requires p.engine.site in t.subscribers && t.subscribers[p.engine.site] == s.subscribers[p.engine.site]
    ensures InFlight(start, t, p, batch, m)
  {
    AtGrows(start, s, t, fats, batch.context);
    SlicesGrow(s.global, fats, batch.context, p.engine.currentSeq);
    forall i | batch.context <= i < |t.global| ensures t.global[i].op.site != p.engine.site {
      if i >= |s.global| { assert t.global[i] == fats[i - |s.global|]; }
    }
  }

  lemma OthersKeepAdmitted(start: Doc, s: Server, t: Server, fats: seq<FatOp>, p: Peer, a: nat, m: nat) returns (b: nat)
    requires Grows(start, s, t, fats) && Admitted(s, p, a, m)
    requires NoneOf(fats, p.engine.site, 0)
    requires p.engine.site in t.subscribers && t.subscribers[p.engine.site] == s.subscribers[p.engine.site]
    ensures Admitted(t, p, b, m)
  {
    b := if m > 0 then a else |t.global|;
    var k := p.engine.currentSeq;
    forall i | k <= i < |t.global| ensures t.global[i].op.site == p.engine.site <==> b <= i < b + m {
      if i >= |s.global| { assert t.global[i] == fats[i - |s.global|]; }
    }
    if m > 0 {
      SlicesGrow(s.global, fats, a, a + m);
      SlicesGrow(s.global, fats, k, a);
    }
  }

  /** Operations of other sites at the end of the history leave a client as it was. */
  lemma OthersKeepPeer(start: Doc, s: Server, t: Server, fats: seq<FatOp>, site: SiteId, p: Peer, withLiveness: bool)
    requires Grows(start, s, t, fats) && PeerInv(start, s, site, p, withLiveness)
    requires NoneOf(fats, site, 0)
    requires site in t.subscribers && t.subscribers[site] == s.subscribers[site]
    ensures PeerInv(start, t, site, p, withLiveness)
  {
    hide ValidRun, Replay, RebaseOver, Admit, Rebase, Apply, HistoryCopies, OwnPointers;
    GrowthKeepsPosition(start, s, t, fats, site, p, withLiveness);
    GrowthKeepsHistory(s, t, fats, p);
    var a: nat, m: nat :| Unacked(start, s, p, a, m);
    var b := a;
    if |p.wire| == 1 {
      OthersKeepInFlight(start, s, t, fats, p, p.wire[0], m);
    } else {
      b := OthersKeepAdmitted(start, s, t, fats, p, a, m);
    }
    assert Unacked(start, t, p, b, m);
  }

  // ---------------------------------------------------------------- rebasing in stages

  lemma RebasedCompose(x: seq<FatOp>, s: seq<FatOp>, y: seq<FatOp>, t: seq<FatOp>, z: seq<FatOp>)
    requires Rebased(x, s, y)
    ensures Rebased(y, t, z) <==> Rebased(x, s + t, z)
  {
    OpsOfAppend(s, t);
    RebaseOverAppend(OpsOf(x), OpsOf(s), OpsOf(t));
  }

  lemma RebasedOverNothing(x: seq<FatOp>)
    ensures Rebased(x, [], x)
  {
    assert OpsOf([]) == [];
  }

  lemma RebasedPrefix(x: seq<FatOp>, fat: FatOp, y: seq<FatOp>, m: nat)
    requires Rebased(x, [fat], y) && m <= |x|
    ensures Rebased(x[..m], [fat], y[..m])
  {
    assert OpsOf([fat]) == [fat.op];
    assert RebaseOver(OpsOf(x), [fat.op]) == RebaseOver(Rebase(OpsOf(x), fat.op), []);
    assert RebaseOver(OpsOf(x)[..m], [fat.op]) == RebaseOver(Rebase(OpsOf(x)[..m], fat.op), []);
    assert OpsOf(x)[..m] + OpsOf(x)[m..] == OpsOf(x);
    RebasePrefix(OpsOf(x)[..m], OpsOf(x)[m..], fat.op);
    assert OpsOf(x[..m]) == OpsOf(x)[..m] && OpsOf(y[..m]) == OpsOf(y)[..m];
  }

  lemma RebasedOwner(x: seq<FatOp>, s: seq<FatOp>, y: seq<FatOp>, site: SiteId)
    requires Rebased(x, s, y) && OwnedBy(x, site)
    ensures OwnedBy(y, site)
  {
    RebaseOverKeepsMeta(OpsOf(x), OpsOf(s));
    forall i | 0 <= i < |y| ensures y[i].op.site == site {
      assert SameMeta(OpsOf(x)[i], OpsOf(y)[i]);
    }
  }

  // ---------------------------------------------------------------- admitting

  /** Sequencing changes an operation's payload and global number, and nothing else of it. */
  lemma SequencingChangesOnly(global: seq<FatOp>, batch: ContextOps, currentSeq: GlobalSeq)
    ensures var fats := Sequenced(global, batch, currentSeq);
            |fats| == |batch.ops| &&
            forall i :: 0 <= i < |fats| ==>
              && fats[i].seqNo == Some(currentSeq + i + 1)
              && fats[i].siteSeq == batch.ops[i].siteSeq && fats[i].groupSeq == batch.ops[i].groupSeq
              && fats[i].kind == batch.ops[i].kind && fats[i].op.site == batch.ops[i].op.site
  {
    hide Batch;
    var missed, ops := OpsOf(OpsAfter(global, batch.context)), OpsOf(batch.ops);
    ServerAgreesWithClient(missed, ops);
    RebaseOverKeepsMeta(ops, missed);
    forall i | 0 <= i < |ops| ensures Admit(missed, ops)[i].site == ops[i].site {
      assert SameMeta(ops[i], RebaseOver(ops, missed)[i]);
    }
  }

  /** What the server makes of a batch is the batch rebased over everything its sender
      had not seen. */
  lemma SequencedRebases(server: Server, batch: ContextOps)
    requires batch.context <= |server.global|
    ensures Rebased(batch.ops, server.global[batch.context..], Sequenced(server.global, batch, server.currentSeq))
  {
    assert OpsAfter(server.global, batch.context) == server.global[batch.context..];
    ServerAgreesWithClient(OpsOf(server.global[batch.context..]), OpsOf(batch.ops));
  }

  lemma SequencedIsValid(start: Doc, server: Server, p: Peer, batch: ContextOps, m: nat)
    requires ServerInv(start, server) && InFlight(start, server, p, batch, m)
    ensures ValidRun(OpsOf(Sequenced(server.global, batch, server.currentSeq)), server.doc)
  {
    var n, c := |server.global|, batch.context;
    var missed, ops := OpsOf(server.global[c..n]), OpsOf(batch.ops);
    assert server.global[c..] == server.global[c..n];
    SequencedRebases(server, batch);
    SliceRun(start, server, c, n);
    AllOps(server.global);
    assert AllForeign(missed, ops);
    TextListAgainstList(At(start, server, c), missed, ops);
  }

  /** The batch in flight turns, at the server, into exactly what the client will turn
      its pending operations into. */
  lemma AdmitRebases(start: Doc, server: Server, p: Peer, batch: ContextOps, m: nat)
    requires ServerInv(start, server) && InFlight(start, server, p, batch, m)
    ensures var fats := Sequenced(server.global, batch, server.currentSeq);
            Rebased(p.engine.gh.local[..m], server.global[p.engine.currentSeq..], fats) && OwnedBy(fats, p.engine.site)
  {
    var k, c := p.engine.currentSeq, batch.context;
    var fats := Sequenced(server.global, batch, server.currentSeq);
    SequencedRebases(server, batch);
    assert server.global[c..] == server.global[c..k] + server.global[k..];
    RebasedCompose(batch.ops, server.global[c..k], p.engine.gh.local[..m], server.global[k..], fats);
    RebasedOwner(batch.ops, server.global[c..], fats, p.engine.site);
  }

  lemma AdmitKeepsUnacked(start: Doc, s: Server, t: Server, p: Peer, batch: ContextOps, m: nat)
    requires ServerInv(start, s) && ServerInv(start, t) && InFlight(start, s, p, batch, m)
    requires t.global == s.global + Sequenced(s.global, batch, s.currentSeq)
    requires t.subscribers == Record(s.subscribers, p.engine.site, batch)
    ensures Admitted(t, p, |s.global|, m)
  {
    hide ValidRun, Replay, RebaseOver, Admit, Rebase, Apply, At, Numbering, Sequenced;
    var fats := Sequenced(s.global, batch, s.currentSeq);
    var n, k := |s.global|, p.engine.currentSeq;
    AdmitRebases(start, s, p, batch, m);
    forall i | k <= i < |t.global| ensures t.global[i].op.site == p.engine.site <==> n <= i < n + m {
      if i >= n { assert t.global[i] == fats[i - n]; }
    }
    assert t.global[n..n + m] == fats;
    assert t.global[k..n] == s.global[k..];
  }

  lemma AdmitIsAccepted(start: Doc, s: Server, site: SiteId, p: Peer, batch: ContextOps, m: nat)
    requires ServerInv(start, s) && InFlight(start, s, p, batch, m) && p.engine.site == site
    ensures var fats := Sequenced(s.global, batch, s.currentSeq);
            && (SiteSeqExpected(s.subscribers, site, batch) <==> s.subscribers[site] != 0 || batch.ops[0].siteSeq == 1)
            && ValidRun(OpsOf(fats), s.doc) && OwnedBy(fats, site)
            && Grows(start, s, Admitting(s, site, batch), fats)
  {
    AdmitRebases(start, s, p, batch, m);
    SequencedIsValid(start, s, p, batch, m);
    SequenceGrows(start, s, batch);
  }

  /** Steps that change neither engine nor document keep what concerns only these. */
  lemma GrowthKeepsPosition(start: Doc, s: Server, t: Server, fats: seq<FatOp>, site: SiteId, p: Peer, withLiveness: bool)
    requires Grows(start, s, t, fats) && Positioned(s, site, p) && UpToDate(start, s, p, withLiveness)
    requires site in t.subscribers
    ensures Positioned(t, site, p) && UpToDate(start, t, p, withLiveness)
  {
    var k := p.engine.currentSeq;
    AtGrows(start, s, t, fats, k);
    SlicesGrow(s.global, fats, k, k + |p.buffer|);
  }

  lemma SameEngineHistory(server: Server, p: Peer, q: Peer)
    requires HistoryCopies(server, p) && q.engine.gh.global == p.engine.gh.global
    requires q.engine.currentSeq == p.engine.currentSeq && q.engine.site == p.engine.site
    ensures HistoryCopies(server, q)
  {}

  lemma WireLeaves(start: Doc, s: Server, t: Server, fats: seq<FatOp>, site: SiteId, p: Peer, q: Peer, a: nat, m: nat, withLiveness: bool)
    requires Grows(start, s, t, fats) && PeerInv(start, s, site, p, withLiveness) && |p.wire| == 1
    requires Unacked(start, s, p, a, m) && Admitted(t, p, |s.global|, m)
    requires q == p.(wire := [])
    ensures PeerInv(start, t, site, q, withLiveness)
  {
    hide ValidRun, Replay, RebaseOver, Admit, Rebase, Apply, At, InFlight, Rebased, OwnBlock, Numbering, HistoryCopies, OwnPointers;
    GrowthKeepsPosition(start, s, t, fats, site, p, withLiveness);
    GrowthKeepsHistory(s, t, fats, p);
    assert HistoryCopies(t, q) by { SameEngineHistory(t, p, q); }
    assert Positioned(t, site, q) && PendingInOrder(q);
    assert UpToDate(start, t, q, withLiveness) by {
      assert q.engine == p.engine && q.doc == p.doc;
    }
    assert Unacked(start, t, q, |s.global|, m) by {
      assert q.engine == p.engine && |q.wire| == 0;
      assert Admitted(t, q, |s.global|, m);
    }
  }

  lemma BatchInFlight(start: Doc, s: Server, site: SiteId, p: Peer, withLiveness: bool) returns (a: nat, m: nat)
    requires ServerInv(start, s) && PeerInv(start, s, site, p, withLiveness) && p.wire != []
    ensures |p.wire| == 1 && Unacked(start, s, p, a, m) && InFlight(start, s, p, p.wire[0], m)
  {
    hide ValidRun, Replay, RebaseOver, Admit, Rebase, Apply;
    a, m :| Unacked(start, s, p, a, m);
  }

  // ---------------------------------------------------------------- receiving

  /** The acknowledgement a client receives is the operation at the head of its pending
      list, with its payload, number and group. */
  lemma AckAgrees(start: Doc, server: Server, site: SiteId, p: Peer, a: nat, m: nat)
    requires ServerInv(start, server) && Positioned(server, site, p) && Unacked(start, server, p, a, m) && p.buffer != []
    requires p.buffer[0].op.site == site
    ensures p.wire == [] && a == p.engine.currentSeq && m > 0
    ensures Rebased(p.engine.gh.local[..m], [], server.global[a..a + m])
    ensures p.engine.gh.local[0].op == p.buffer[0].op && SameTag(p.engine.gh.local[0], p.buffer[0])
  {
    var k := p.engine.currentSeq;
    assert p.buffer[0] == server.global[k];
    assert server.global[k..k] == [];
    assert OpsOf(server.global[k..k + m])[0] == server.global[k].op;
    assert OpsOf(p.engine.gh.local[..m])[0] == p.engine.gh.local[0].op;
    assert server.global[k..k + m][0] == server.global[k] && p.engine.gh.local[..m][0] == p.engine.gh.local[0];
  }

  lemma AtNext(start: Doc, server: Server, k: nat)
    requires ServerInv(start, server) && k < |server.global|
    ensures ValidOn(server.global[k].op, At(start, server, k).text)
    ensures Fits(server.global[k].op, |At(start, server, k).text|)
    ensures At(start, server, k + 1) == Apply(At(start, server, k), server.global[k].op)
  {
    SliceRun(start, server, k, k + 1);
    var op, d := server.global[k].op, At(start, server, k);
    assert OpsOf(server.global[k..k + 1]) == [op];
    assert [op][0] == op && [op][1..] == [];
    ValidFits(op, d.text);
    assert Replay(Apply(d, op), []) == Apply(d, op);
  }

  lemma BufferAdvances(server: Server, p: Peer)
    requires p.buffer != [] && p.engine.currentSeq + |p.buffer| <= |server.global|
    requires p.buffer == server.global[p.engine.currentSeq..p.engine.currentSeq + |p.buffer|]
    ensures p.buffer[0] == server.global[p.engine.currentSeq]
    ensures p.buffer[1..] == server.global[p.engine.currentSeq + 1..p.engine.currentSeq + |p.buffer|]
  {}

  lemma RebasedTails(x: seq<FatOp>, y: seq<FatOp>)
    requires Rebased(x, [], y) && x != []
    ensures Rebased(x[1..], [], y[1..])
  {
    assert OpsOf([]) == [];
    assert OpsOf(x[1..]) == OpsOf(x)[1..] && OpsOf(y[1..]) == OpsOf(y)[1..];
  }

  lemma AckKeepsUnacked(start: Doc, server: Server, site: SiteId, p: Peer, q: Peer, a: nat, m: nat)
    requires ServerInv(start, server) && Positioned(server, site, p) && Unacked(start, server, p, a, m) && p.buffer != []
    requires p.buffer[0].op.site == site && |p.engine.gh.local| > 0
    requires q.engine.gh.local == p.engine.gh.local[1..] && q.engine.currentSeq == p.engine.currentSeq + 1
    requires q.engine.site == site && q.engine.lastSent == p.engine.lastSent && q.wire == p.wire
    ensures m > 0 && Unacked(start, server, q, a + 1, m - 1)
  {
    hide ValidRun, Replay, RebaseOver, Admit, Rebase, Apply;
    AckAgrees(start, server, site, p, a, m);
    var local, global := p.engine.gh.local, server.global;
    RebasedTails(local[..m], global[a..a + m]);
    assert local[..m][1..] == q.engine.gh.local[..m - 1];
    assert global[a..a + m][1..] == global[a + 1..a + m];
    assert global[a + 1..a + 1] == [];
  }

  lemma AckKeepsUpToDate(start: Doc, server: Server, p: Peer, q: Peer, withLiveness: bool)
    requires ServerInv(start, server) && UpToDate(start, server, p, withLiveness)
    requires p.engine.currentSeq < |server.global| && p.engine.gh.local != []
    requires p.engine.gh.local[0].op == server.global[p.engine.currentSeq].op
    requires q.engine.gh.local == p.engine.gh.local[1..] && q.engine.currentSeq == p.engine.currentSeq + 1 && q.doc == p.doc
    ensures UpToDate(start, server, q, withLiveness)
  {
    AtNext(start, server, p.engine.currentSeq);
    assert OpsOf(p.engine.gh.local)[1..] == OpsOf(q.engine.gh.local);
  }

  lemma ReceiveAckKeeps(start: Doc, server: Server, site: SiteId, p: Peer, withLiveness: bool)
    requires ServerInv(start, server) && PeerInv(start, server, site, p, withLiveness) && p.buffer != []
    requires p.buffer[0].op.site == site
    ensures var r := RemoteOp(p.engine, p.buffer[0]);
            r.Ok? && r.value.1.None?
            && PeerInv(start, server, site, p.(engine := r.value.0, buffer := p.buffer[1..]), withLiveness)
  {
    hide ValidRun, Replay, RebaseOver, Admit, Rebase, Apply, HistoryCopies, OwnPointers, InFlight, Admitted, At;
    var a: nat, m: nat :| Unacked(start, server, p, a, m);
    AckAgrees(start, server, site, p, a, m);
    BufferAdvances(server, p);
    var q := p.(engine := RemoteOp(p.engine, p.buffer[0]).value.0, buffer := p.buffer[1..]);
    AckKeepsUpToDate(start, server, p, q, withLiveness);
    AckKeepsUnacked(start, server, site, p, q, a, m);
    ReceiveKeepsHistory(server, p, q, p.buffer[0]);
    if Aligned(q.engine) { RemoteKeepsOwn(p.engine, p.buffer[0]); }
    hide UpToDate, Unacked, ServerInv;
    assert Positioned(server, site, q) && PendingInOrder(q);
  }

  lemma BumpKeepsOps(local: seq<FatOp>)
    ensures OpsOf(BumpDeltas(local)) == OpsOf(local) && SameTags(BumpDeltas(local), local)
  {}

  lemma RemoteOpRebases(c: Engines.Client, fat: FatOp)
    requires fat.seqNo == Some(c.currentSeq + 1) && fat.op.site != c.site
    ensures var r := RemoteOp(c, fat);
            && r.Ok? && r.value.1 == Some(Batch(fat.op, OpsOf(c.gh.local))) && r.value.0.currentSeq == c.currentSeq + 1
            && OpsOf(r.value.0.gh.local) == Rebase(OpsOf(c.gh.local), fat.op)
            && Rebased(c.gh.local, [fat], r.value.0.gh.local)
  {
    var ops := OpsOf(c.gh.local);
    BumpKeepsOps(WithOps(c.gh.local, Rebase(ops, fat.op)));
    assert OpsOf([fat]) == [fat.op];
    assert RebaseOver(ops, [fat.op]) == RebaseOver(Rebase(ops, fat.op), []);
  }

  /** Another site's operation: the document moves to the transformed one, the pending
      operations to theirs. */
  lemma ForeignKeepsUpToDate(start: Doc, server: Server, p: Peer, q: Peer, op': Op, withLiveness: bool)
    requires ServerInv(start, server) && UpToDate(start, server, p, withLiveness)
    requires p.engine.currentSeq < |server.global|
    requires var ops, op := OpsOf(p.engine.gh.local), server.global[p.engine.currentSeq].op;
             && op' == Batch(op, ops) && OpsOf(q.engine.gh.local) == Rebase(ops, op)
             && Foreign(op, ops) && (withLiveness ==> Harmless(op, ops))
    requires q.engine.currentSeq == p.engine.currentSeq + 1
    requires Fits(op', |p.doc.text|) ==> q.doc == Apply(p.doc, op')
    ensures Fits(op', |p.doc.text|) && UpToDate(start, server, q, withLiveness)
  {
    var k := p.engine.currentSeq;
    var ops, op := OpsOf(p.engine.gh.local), server.global[k].op;
    AtNext(start, server, k);
    var base := At(start, server, k);
    OneAgainstList(base, op, ops);
    var d := Replay(base, ops);
    assert SameDoc(Apply(p.doc, op'), Apply(d, op'), withLiveness);
  }

  /** `q` is `p` after another site's operation at `p`'s position. */
  predicate Passed(global: seq<FatOp>, p: Engines.Client, q: Engines.Client) {
    && p.currentSeq < |global| && global[p.currentSeq].op.site != p.site
    && q.currentSeq == p.currentSeq + 1 && q.site == p.site && q.lastSent == p.lastSent
    && Rebased(p.gh.local, [global[p.currentSeq]], q.gh.local)
  }

  lemma ForeignKeepsInFlight(start: Doc, server: Server, p: Peer, q: Peer, batch: ContextOps, m: nat)
    requires ServerInv(start, server) && InFlight(start, server, p, batch, m)
    requires Passed(server.global, p.engine, q.engine)
    ensures InFlight(start, server, q, batch, m)
  {
    hide ValidRun, Replay, RebaseOver, Admit, Rebase, Apply;
    var k, local, local', global := p.engine.currentSeq, p.engine.gh.local, q.engine.gh.local, server.global;
    RebasedPrefix(local, global[k], local', m);
    assert global[batch.context..k + 1] == global[batch.context..k] + [global[k]];
    RebasedCompose(batch.ops, global[batch.context..k], local[..m], [global[k]], local'[..m]);
  }

  lemma ForeignKeepsAdmitted(server: Server, p: Peer, q: Peer, a: nat, m: nat) returns (b: nat)
    requires Admitted(server, p, a, m) && Passed(server.global, p.engine, q.engine)
    ensures Admitted(server, q, b, m)
  {
    hide ValidRun, Replay, RebaseOver, Admit, Rebase, Apply;
    var k, local, local', global := p.engine.currentSeq, p.engine.gh.local, q.engine.gh.local, server.global;
    b := if m > 0 then a else k + 1;
    if m > 0 {
      RebasedPrefix(local, global[k], local', m);
      assert global[k..a] == [global[k]] + global[k + 1..a];
      RebasedCompose(local[..m], [global[k]], local'[..m], global[k + 1..a], global[a..a + m]);
    }
  }

  lemma ForeignKeepsUnacked(start: Doc, server: Server, p: Peer, q: Peer, a: nat, m: nat) returns (b: nat)
    requires ServerInv(start, server) && Unacked(start, server, p, a, m)
    requires Passed(server.global, p.engine, q.engine) && q.wire == p.wire
    ensures Unacked(start, server, q, b, m)
  {
    hide ValidRun, Replay, RebaseOver, Admit, Rebase, Apply;
    b := a;
    if |p.wire| == 1 {
      ForeignKeepsInFlight(start, server, p, q, p.wire[0], m);
    } else {
      b := ForeignKeepsAdmitted(server, p, q, a, m);
    }
  }

  lemma ForeignKeepsOrder(p: Peer, q: Peer, fat: FatOp)
    requires PendingInOrder(p) && Rebased(p.engine.gh.local, [fat], q.engine.gh.local)
    requires q.engine.site == p.engine.site && q.engine.lastSent == p.engine.lastSent
    requires q.engine.currentSiteSeq == p.engine.currentSiteSeq
    ensures PendingInOrder(q)
  {
    RebasedOwner(p.engine.gh.local, [fat], q.engine.gh.local, p.engine.site);
  }

  lemma ForeignKeepsHistory(server: Server, p: Peer, q: Peer)
    requires HistoryCopies(server, p) && p.buffer != [] && p.engine.currentSeq < |server.global|
    requires p.buffer[0] == server.global[p.engine.currentSeq] && p.buffer[0].op.site != p.engine.site
    requires RemoteOp(p.engine, p.buffer[0]).Ok? && q.engine == RemoteOp(p.engine, p.buffer[0]).value.0
    ensures HistoryCopies(server, q)
  {
    hide HistoryCopies, Batch, Rebase;
    var fat, pending := p.buffer[0], OpsOf(p.engine.gh.local);
    BatchIsCopy(fat.op, pending);
    BatchKeepsMeta(fat.op, pending);
    ReceiveKeepsHistory(server, p, q, fat.(op := Batch(fat.op, pending)));
  }

  lemma ForeignKeepsOwn(p: Peer, q: Peer, fat: FatOp)
    requires p.engine.gh.PointersInRange() && PendingInOrder(p) && (Aligned(p.engine) ==> OwnPointers(p.engine.gh, p.engine.site))
    requires RemoteOp(p.engine, fat).Ok? && q.engine == RemoteOp(p.engine, fat).value.0 && fat.op.site != p.engine.site
    ensures Aligned(q.engine) ==> OwnPointers(q.engine.gh, p.engine.site)
  {
    hide OwnPointers, BumpDeltas, BumpQueue, WithOps;
    if Aligned(q.engine) { RemoteKeepsOwn(p.engine, fat); }
  }

  lemma ReceiveForeignKeeps(start: Doc, server: Server, site: SiteId, p: Peer, withLiveness: bool)
    requires ServerInv(start, server) && PeerInv(start, server, site, p, withLiveness) && p.buffer != []
    requires p.buffer[0].op.site != site
    requires withLiveness ==> Harmless(p.buffer[0].op, OpsOf(p.engine.gh.local))
    ensures var r := RemoteOp(p.engine, p.buffer[0]);
            r.Ok? && r.value.1.Some? && Fits(r.value.1.value, |p.doc.text|)
            && PeerInv(start, server, site,
                       p.(engine := r.value.0, doc := Apply(p.doc, r.value.1.value), buffer := p.buffer[1..]), withLiveness)
  {
    hide ValidRun, Replay, RebaseOver, Admit, Rebase, Apply, At, Rebased, BumpDeltas, BumpQueue, WithOps, Harmless;
    BufferAdvances(server, p);
    RemoteOpRebases(p.engine, p.buffer[0]);
    var r := RemoteOp(p.engine, p.buffer[0]).value;
    var doc := if Fits(r.1.value, |p.doc.text|) then Apply(p.doc, r.1.value) else p.doc;
    var q := p.(engine := r.0, doc := doc, buffer := p.buffer[1..]);
    ForeignKeepsUpToDate(start, server, p, q, r.1.value, withLiveness);
    ForeignKeepsOrder(p, q, p.buffer[0]);
    RemoteKeepsPointersInRange(p.engine, p.buffer[0]);
    ForeignKeepsHistory(server, p, q);
    ForeignKeepsOwn(p, q, p.buffer[0]);
    hide HistoryCopies, OwnPointers, UpToDate, InFlight, Admitted, PendingInOrder, Aligned;
    assert Positioned(server, site, q);
    var a: nat, m: nat :| Unacked(start, server, p, a, m);
    var b := ForeignKeepsUnacked(start, server, p, q, a, m);
  }

  // ---------------------------------------------------------------- local steps

  lemma {:induction false} PushAllAppends(h: History, ops: seq<Op>, siteSeq: LocalSeq, kind: EditorOpKind, groupSeq: GroupSeq)
    requires h.PointersInRange()
    ensures var r := PushAll(h, ops, siteSeq, kind, groupSeq);
            r.Ok? ==> && r.value.PointersInRange() && r.value.global == h.global
                      && |r.value.local| == |h.local| + |ops|
                      && r.value.local[..|h.local|] == h.local
                      && OpsOf(r.value.local) == OpsOf(h.local) + ops
                      && forall i :: |h.local| <= i < |r.value.local| ==> r.value.local[i].siteSeq == siteSeq
    decreases |ops|
  {
    if ops != [] {
      hide PushLocal;
      PushShape(h, ops[0], siteSeq, kind, groupSeq);
      var r := PushLocal(h, ops[0], siteSeq, kind, groupSeq);
      if r.Ok? {
        var h' := r.value;
        PushAllAppends(h', ops[1..], siteSeq, kind, groupSeq);
        var r' := PushAll(h', ops[1..], siteSeq, kind, groupSeq);
        if r'.Ok? { AppendedTwice(h.local, h'.local[|h.local|], ops, r'.value.local, siteSeq); }
      }
    }
  }

  lemma AppendedTwice(local: seq<FatOp>, first: FatOp, ops: seq<Op>, all: seq<FatOp>, siteSeq: LocalSeq)
    requires ops != [] && first.op == ops[0] && first.siteSeq == siteSeq
    requires |all| == |local| + |ops| && all[..|local| + 1] == local + [first]
    requires OpsOf(all) == OpsOf(local + [first]) + ops[1..]
    ensures all[..|local|] == local && OpsOf(all) == OpsOf(local) + ops && all[|local|].siteSeq == siteSeq
  {
    assert all[..|local|] == all[..|local| + 1][..|local|];
    assert all[|local|] == all[..|local| + 1][|local|];
    assert OpsOf(local + [first]) == OpsOf(local) + [ops[0]];
    assert OpsOf(local) + [ops[0]] + ops[1..] == OpsOf(local) + ops;
  }

  /** `q` is `p` with `ops` appended to the pending operations, under the next site
      sequence number. */
  predicate Appended(p: Engines.Client, q: Engines.Client, ops: seq<Op>) {
    && q.gh.PointersInRange() && q.gh.global == p.gh.global
    && |q.gh.local| == |p.gh.local| + |ops| && q.gh.local[..|p.gh.local|] == p.gh.local
    && OpsOf(q.gh.local) == OpsOf(p.gh.local) + ops
    && q.currentSeq == p.currentSeq && q.site == p.site && q.lastSent == p.lastSent
    && q.currentSiteSeq == p.currentSiteSeq + 1
    && forall i :: |p.gh.local| <= i < |q.gh.local| ==> q.gh.local[i].siteSeq == q.currentSiteSeq
  }

  lemma LocalOpsAppend(p: Engines.Client, ops: seq<Op>, kind: EditorOpKind, group: GroupSeq)
    requires p.gh.PointersInRange() && LocalOps(p, ops, kind, group).Ok?
    ensures Appended(p, LocalOps(p, ops, kind, group).value, ops)
  {
    PushAllAppends(p.gh, ops, p.currentSiteSeq + 1, kind, group);
  }

  lemma EditKeepsUpToDate(start: Doc, server: Server, p: Peer, q: Peer, ops: seq<Op>, withLiveness: bool)
    requires ServerInv(start, server) && UpToDate(start, server, p, withLiveness) && ValidRun(ops, p.doc)
    requires Appended(p.engine, q.engine, ops) && q.doc == Replay(p.doc, ops)
    ensures UpToDate(start, server, q, withLiveness)
  {
    var base, local := At(start, server, p.engine.currentSeq), OpsOf(p.engine.gh.local);
    RunOnSameDoc(p.doc, Replay(base, local), ops, withLiveness);
    ReplayAppend(base, local, ops);
  }

  lemma EditKeepsOrder(p: Peer, q: Peer, ops: seq<Op>)
    requires PendingInOrder(p) && forall i :: 0 <= i < |ops| ==> ops[i].site == p.engine.site
    requires Appended(p.engine, q.engine, ops)
    ensures PendingInOrder(q)
  {
    var local, local' := p.engine.gh.local, q.engine.gh.local;
    assert forall i :: 0 <= i < |local| ==> local'[i] == local'[..|local|][i];
    forall i | |local| <= i < |local'| ensures local'[i].op.site == p.engine.site {
      assert OpsOf(local')[i] == ops[i - |local|];
    }
  }

  lemma EditKeeps(start: Doc, server: Server, site: SiteId, p: Peer, q: Peer, ops: seq<Op>, withLiveness: bool)
    requires ServerInv(start, server) && PeerInv(start, server, site, p, withLiveness)
    requires forall i :: 0 <= i < |ops| ==> ops[i].site == site
    requires ValidRun(ops, p.doc) && Appended(p.engine, q.engine, ops)
    requires q.doc == Replay(p.doc, ops) && q.wire == p.wire && q.buffer == p.buffer
    requires OwnPointers(p.engine.gh, site) ==> OwnPointers(q.engine.gh, site)
    ensures PeerInv(start, server, site, q, withLiveness)
  {
    hide ValidRun, Replay, RebaseOver, Admit, Rebase, Apply, UpToDate, Unacked, At, ServerInv, OwnPointers, HistoryCopies;
    SameEngineHistory(server, p, q);
    EditKeepsUpToDate(start, server, p, q, ops, withLiveness);
    EditKeepsOrder(p, q, ops);
    var a: nat, m: nat :| Unacked(start, server, p, a, m);
    EditKeepsUnacked(start, server, p, q, a, m);
  }

  lemma EditKeepsUnacked(start: Doc, server: Server, p: Peer, q: Peer, a: nat, m: nat)
    requires ServerInv(start, server) && Unacked(start, server, p, a, m)
    requires |p.engine.gh.local| <= |q.engine.gh.local| && q.engine.gh.local[..|p.engine.gh.local|] == p.engine.gh.local
    requires forall i :: |p.engine.gh.local| <= i < |q.engine.gh.local| ==> q.engine.gh.local[i].siteSeq > p.engine.lastSent
    requires q.engine.currentSeq == p.engine.currentSeq && q.engine.site == p.engine.site
    requires q.engine.lastSent == p.engine.lastSent && q.wire == p.wire
    ensures Unacked(start, server, q, a, m)
  {
    var local, local' := p.engine.gh.local, q.engine.gh.local;
    assert forall i :: 0 <= i < |local| ==> local'[i] == local'[..|local|][i];
    assert local'[..m] == local[..m];
    if |p.wire| == 1 {
      assert InFlight(start, server, q, p.wire[0], m);
    } else {
      assert Admitted(server, q, a, m);
    }
  }

  /** Sending happens only when everything sent before is acknowledged, and the batch
      starts with the site sequence number that the server expects. */
  lemma SendKeeps(start: Doc, server: Server, site: SiteId, p: Peer, withLiveness: bool)
    requires ServerInv(start, server) && PeerInv(start, server, site, p, withLiveness)
    ensures PrevOpAcked(p.engine) ==> p.wire == []
    ensures var (engine, batch) := Package(p.engine);
            PeerInv(start, server, site, p.(engine := engine, wire := p.wire + if batch.Some? then [batch.value] else []), withLiveness)
  {
    hide ValidRun, Replay, RebaseOver, Admit, Rebase, Apply;
    var (engine, batch) := Package(p.engine);
    var q := p.(engine := engine, wire := p.wire + if batch.Some? then [batch.value] else []);
    var a: nat, m: nat :| Unacked(start, server, p, a, m);
    if batch.None? {
      assert q == p;
    } else {
      var local := p.engine.gh.local;
      assert m == 0;
      assert |p.wire| == 0 && Admitted(server, p, a, m);
      assert q.wire == [batch.value];
      var k := p.engine.currentSeq;
      assert server.global[k..k] == [] && local[..|local|] == local;
      RebasedOverNothing(local);
      assert InFlight(start, server, q, batch.value, |local|);
      assert Unacked(start, server, q, a, |local|);
      SameEngineHistory(server, p, q);
    }
  }

  /** Lost, repeated and reordered deliveries leave the buffered operations a contiguous
      continuation of what the client has processed. */
  lemma {:induction false} BufferContinues(global: seq<FatOp>, k: nat, buffer: seq<FatOp>, fats: seq<FatOp>)
    requires Numbering(global) && k + |buffer| <= |global| && buffer == global[k..k + |buffer|]
    requires forall i :: 0 <= i < |fats| ==> fats[i] in global
    ensures var b := Buffer(k, buffer, fats);
            |buffer| <= |b| && k + |b| <= |global| && b == global[k..k + |b|]
    decreases |fats|
  {
    if fats != [] {
      assert fats[0] in global;
      var j :| 0 <= j < |global| && global[j] == fats[0];
      if fats[0].seqNo.value == k + |buffer| + 1 {
        assert j == k + |buffer|;
        assert buffer + [fats[0]] == global[k..k + |buffer + [fats[0]]|];
        BufferContinues(global, k, buffer + [fats[0]], fats[1..]);
      } else {
        BufferContinues(global, k, buffer, fats[1..]);
      }
    }
  }

  /** A slice that begins where the client has got to, or before, leaves no gap on its way. */
  lemma {:induction false} SliceReaches(global: seq<FatOp>, k: nat, buffer: seq<FatOp>, lo: nat, n: nat)
    requires Numbering(global) && lo <= k + |buffer| && lo + n <= |global|
    ensures var reached := k + |Buffer(k, buffer, global[lo..lo + n])|;
            reached == if lo + n <= k + |buffer| then k + |buffer| else lo + n
    decreases n
  {
    if n > 0 {
      var fats := global[lo..lo + n];
      assert fats[..n - 1] == global[lo..lo + n - 1] && fats[..n] == fats;
      SliceReaches(global, k, buffer, lo, n - 1);
      BufferMore(k, buffer, fats, n - 1);
    }
  }

  lemma {:induction false} SliceIsSkipped(global: seq<FatOp>, k: nat, buffer: seq<FatOp>, lo: nat, n: nat)
    requires Numbering(global) && k + |buffer| < lo && lo + n <= |global|
    ensures Buffer(k, buffer, global[lo..lo + n]) == buffer
    decreases n
  {
    if n > 0 {
      var fats := global[lo..lo + n];
      assert fats[..n - 1] == global[lo..lo + n - 1] && fats[..n] == fats;
      SliceIsSkipped(global, k, buffer, lo, n - 1);
      BufferMore(k, buffer, fats, n - 1);
    }
  }

  /** A delivered part of the history makes the client ask if and only if it begins after
      the operation that comes next; then every operation of it does, and none is kept. */
  lemma DeliveryAsksIff(global: seq<FatOp>, k: nat, buffer: seq<FatOp>, lo: nat, hi: nat)
    requires Numbering(global) && lo <= hi <= |global|
    ensures forall i :: 0 <= i < hi - lo ==> (LeavesGap(k, buffer, global[lo..hi], i) <==> k + |buffer| < lo)
    ensures Asks(k, buffer, global[lo..hi]) <==> lo < hi && k + |buffer| < lo
    ensures k + |buffer| < lo ==> Buffer(k, buffer, global[lo..hi]) == buffer
  {
    var fats := global[lo..hi];
    forall i | 0 <= i < hi - lo ensures LeavesGap(k, buffer, fats, i) <==> k + |buffer| < lo {
      assert fats[..i] == global[lo..lo + i] && fats[i].seqNo == Some(lo + i + 1);
      if k + |buffer| < lo { SliceIsSkipped(global, k, buffer, lo, i); } else { SliceReaches(global, k, buffer, lo, i); }
    }
    if k + |buffer| < lo {
      SliceIsSkipped(global, k, buffer, lo, hi - lo);
      if lo < hi { assert LeavesGap(k, buffer, fats, 0); }
    }
  }

  lemma DeliverKeeps(start: Doc, s: Session, site: SiteId, lo: nat, hi: nat, withLiveness: bool)
    requires Healthy(start, s, withLiveness) && site in s.peers && lo <= hi <= |s.server.global|
    ensures var p := s.peers[site];
            PeerInv(start, s.server, site,
                    p.(buffer := Buffer(p.engine.currentSeq, p.buffer, s.server.global[lo..hi])), withLiveness)
  {
    hide ValidRun, Replay, RebaseOver, Admit, Rebase, Apply, UpToDate, HistoryCopies, OwnPointers, At;
    var p := s.peers[site];
    var slice := s.server.global[lo..hi];
    BufferContinues(s.server.global, p.engine.currentSeq, p.buffer, slice);
    var q := p.(buffer := Buffer(p.engine.currentSeq, p.buffer, slice));
    var a: nat, m: nat :| Unacked(start, s.server, p, a, m);
    assert q.engine.gh.local[..|p.engine.gh.local|] == p.engine.gh.local;
    EditKeepsUnacked(start, s.server, p, q, a, m);
    SameEngineHistory(s.server, p, q);
    SameEngineUpToDate(start, s.server, p, q, withLiveness);
  }

  lemma SameEngineUpToDate(start: Doc, server: Server, p: Peer, q: Peer, withLiveness: bool)
    requires ServerInv(start, server) && UpToDate(start, server, p, withLiveness)
    requires q.engine.gh.local == p.engine.gh.local && q.engine.currentSeq == p.engine.currentSeq && q.doc == p.doc
    ensures UpToDate(start, server, q, withLiveness)
  {}

  lemma JoinKeeps(start: Doc, s: Session, site: SiteId, withLiveness: bool)
    requires Healthy(start, s, withLiveness) && Enabled(s, Join(site))
    ensures Healthy(start, Step(s, Join(site)).session, withLiveness)
  {
    hide ValidRun, Replay, Numbering, UpToDate, Unacked, PendingInOrder, HistoryCopies, OwnPointers;
    var t := Step(s, Join(site)).session;
    SameHistoryGrows(start, s.server, t.server);
    JoinerIsFine(start, t.server, site, withLiveness);
    forall other | other in t.peers ensures PeerInv(start, t.server, other, t.peers[other], withLiveness) {
      if other != site { OthersKeepPeer(start, s.server, t.server, [], other, s.peers[other], withLiveness); }
    }
  }

  /** Whoever opens the document now starts from the server's document. */
  lemma JoinerIsFine(start: Doc, server: Server, site: SiteId, withLiveness: bool)
    requires ServerInv(start, server) && site != EXTERNAL_SITE && site in server.subscribers && server.subscribers[site] == 0
    ensures PeerInv(start, server, site, Peer(NewClient(site, server.currentSeq), server.doc, [], []), withLiveness)
  {
    hide ServerInv, Positioned, PendingInOrder, UpToDate, HistoryCopies, OwnPointers, Unacked;
    JoinerIsUpToDate(start, server, site, withLiveness);
    JoinerHasNothing(start, server, site);
  }

  lemma JoinerHasNothing(start: Doc, server: Server, site: SiteId)
    requires ServerInv(start, server) && server.currentSeq == |server.global|
    requires site != EXTERNAL_SITE && site in server.subscribers && server.subscribers[site] == 0
    ensures var p := Peer(NewClient(site, server.currentSeq), server.doc, [], []);
            && Positioned(server, site, p) && PendingInOrder(p) && HistoryCopies(server, p) && OwnPointers(p.engine.gh, site)
            && Unacked(start, server, p, |server.global|, 0)
  {
    hide ServerInv;
    var p, n := Peer(NewClient(site, server.currentSeq), server.doc, [], []), |server.global|;
    assert server.global[n..n] == [];
    assert OpsOf(server.global[n..n]) == [] == OpsOf(p.engine.gh.global);
    assert Admitted(server, p, n, 0);
  }

  lemma JoinerIsUpToDate(start: Doc, server: Server, site: SiteId, withLiveness: bool)
    requires ServerInv(start, server)
    ensures UpToDate(start, server, Peer(NewClient(site, server.currentSeq), server.doc, [], []), withLiveness)
    ensures server.currentSeq == |server.global|
  {
    hide Numbering;
    AllOps(server.global);
    assert OpsOf([]) == [];
    assert At(start, server, |server.global|) == server.doc;
  }

  lemma ChangeOnDiskKeeps(start: Doc, s: Session, fats: seq<FatOp>, withLiveness: bool)
    requires Healthy(start, s, withLiveness) && Enabled(s, ChangeOnDisk(fats))
    ensures Step(s, ChangeOnDisk(fats)).Next? && Healthy(start, Step(s, ChangeOnDisk(fats)).session, withLiveness)
  {
    var batch := ContextOps(s.server.currentSeq, fats);
    assert OpsAfter(s.server.global, batch.context) == [];
    ServerAgreesWithClient([], OpsOf(fats));
    var added := Sequenced(s.server.global, batch, s.server.currentSeq);
    assert OpsOf(added) == OpsOf(fats);
    SequenceGrows(start, s.server, batch);
    forall i | 0 <= i < |added| ensures added[i].op.site == EXTERNAL_SITE { assert added[i].op == OpsOf(fats)[i]; }
    OthersKeep(start, s, Step(s, ChangeOnDisk(fats)).session.server, added, EXTERNAL_SITE, withLiveness);
  }

  // ---------------------------------------------------------------- every step, every run

  /** The only steps in which a client's liveness drifts: it receives a mark on a character
      that its pending operations leave marked the opposite way. */
  ghost predicate Peaceful(s: Session, e: Event)
    requires Enabled(s, e)
  {
    e.Receive? ==>
      var p := s.peers[e.site];
      p.buffer[0].op.site != e.site ==> Harmless(p.buffer[0].op, OpsOf(p.engine.gh.local))
  }

  /** After a request the server counts from the beginning, and refuses a batch that does not
      begin with number 1. */
  predicate Refused(s: Session, e: Event)
    requires Enabled(s, e)
  {
    e.AdmitBatch? && e.site in s.server.subscribers && s.server.subscribers[e.site] == 0
    && var batch := s.peers[e.site].wire[0]; batch.ops != [] && batch.ops[0].siteSeq != 1
  }

  lemma OnePeerChanges(start: Doc, s: Session, site: SiteId, q: Peer, withLiveness: bool)
    requires Healthy(start, s, withLiveness) && PeerInv(start, s.server, site, q, withLiveness)
    ensures Healthy(start, s.(peers := s.peers[site := q]), withLiveness)
  {}

  lemma OthersKeep(start: Doc, s: Session, t: Server, fats: seq<FatOp>, site: SiteId, withLiveness: bool)
    requires Healthy(start, s, withLiveness) && Grows(start, s.server, t, fats) && OwnedBy(fats, site)
    requires forall other :: other in s.server.subscribers && other != site ==>
               other in t.subscribers && t.subscribers[other] == s.server.subscribers[other]
    ensures forall other :: other in s.peers && other != site ==> PeerInv(start, t, other, s.peers[other], withLiveness)
  {
    hide ValidRun, Replay, RebaseOver, Admit, Rebase, Apply, UpToDate, Unacked, PendingInOrder, At, Numbering;
    forall other | other in s.peers && other != site ensures PeerInv(start, t, other, s.peers[other], withLiveness) {
      OthersKeepPeer(start, s.server, t, fats, other, s.peers[other], withLiveness);
    }
  }

  lemma AdmitKeeps(start: Doc, s: Session, site: SiteId, withLiveness: bool)
    requires Healthy(start, s, withLiveness) && Enabled(s, AdmitBatch(site))
    ensures Step(s, AdmitBatch(site)).Next? && Healthy(start, Step(s, AdmitBatch(site)).session, withLiveness)
    ensures Refused(s, AdmitBatch(site)) ==> Step(s, AdmitBatch(site)) == Next(Dropping(s, site))
    ensures !Refused(s, AdmitBatch(site)) ==> Step(s, AdmitBatch(site)).session.peers.Keys == s.peers.Keys
  {
    hide ValidRun, Replay, RebaseOver, Admit, Rebase, Apply, Sequenced, UpToDate, Unacked, PendingInOrder, InFlight, Admitted, At;
    var p := s.peers[site];
    var a, m := BatchInFlight(start, s.server, site, p, withLiveness);
    AdmitIsAccepted(start, s.server, site, p, p.wire[0], m);
    assert p.wire[0].ops != [] by { BatchHasOps(start, s.server, p, p.wire[0], m); }
    if Refused(s, AdmitBatch(site)) {
      hide PeerInv, ServerInv;
    } else {
      var fats, t := Sequenced(s.server.global, p.wire[0], s.server.currentSeq), Admitting(s.server, site, p.wire[0]);
      AdmitKeepsUnacked(start, s.server, t, p, p.wire[0], m);
      WireLeaves(start, s.server, t, fats, site, p, p.(wire := p.wire[1..]), a, m, withLiveness);
      OthersKeep(start, s, t, fats, site, withLiveness);
    }
  }

  lemma BatchHasOps(start: Doc, server: Server, p: Peer, batch: ContextOps, m: nat)
    requires ServerInv(start, server) && InFlight(start, server, p, batch, m)
    ensures batch.ops != []
  {}

  /** A request only makes the server count from the beginning. */
  lemma RequestKeeps(start: Doc, s: Session, site: SiteId, withLiveness: bool)
    requires Healthy(start, s, withLiveness) && Enabled(s, Request(site))
    ensures Healthy(start, Step(s, Request(site)).session, withLiveness)
  {
    hide ValidRun, Replay, RebaseOver, Admit, Rebase, Apply;
    var t := Step(s, Request(site)).session;
    SameHistoryGrows(start, s.server, t.server);
    OthersKeep(start, s, t.server, [], site, withLiveness);
    if site in s.peers { RequestKeepsPeer(start, s.server, t.server, site, s.peers[site], withLiveness); }
  }

  lemma RequestKeepsPeer(start: Doc, server: Server, t: Server, site: SiteId, p: Peer, withLiveness: bool)
    requires ServerInv(start, server) && PeerInv(start, server, site, p, withLiveness)
    requires t == server.(subscribers := server.subscribers[site := 0])
    ensures ServerInv(start, t) && PeerInv(start, t, site, p, withLiveness)
  {
    hide ValidRun, Replay, RebaseOver, Admit, Rebase, Apply, HistoryCopies, OwnPointers;
    SameHistoryGrows(start, server, t);
    GrowthKeepsPosition(start, server, t, [], site, p, withLiveness);
    GrowthKeepsHistory(server, t, [], p);
    var a: nat, m: nat :| Unacked(start, server, p, a, m);
    if |p.wire| == 1 {
      AtGrows(start, server, t, [], p.wire[0].context);
      assert InFlight(start, t, p, p.wire[0], m);
    } else {
      assert Admitted(t, p, a, m);
    }
    assert Unacked(start, t, p, a, m);
  }

  /** A command of the editor: operations of the client's own site that can be applied. */
  lemma LocalKeeps(start: Doc, s: Session, site: SiteId, ops: seq<Op>, kind: EditorOpKind, group: GroupSeq, withLiveness: bool)
    requires Healthy(start, s, withLiveness) && site in s.peers
    requires var p := s.peers[site];
             && (forall i :: 0 <= i < |ops| ==> ops[i].site == site)
             && p.engine.gh.PointersInRange() && Coherent(p.doc) && ValidRun(ops, p.doc)
             && PushAll(p.engine.gh, ops, p.engine.currentSiteSeq + 1, kind, group).Ok?
    ensures Local(s, site, ops, kind, group).Next? && Healthy(start, Local(s, site, ops, kind, group).session, withLiveness)
  {
    hide ValidRun, Replay, RebaseOver, Admit, Rebase, Apply, PushAll;
    var p := s.peers[site];
    LocalOpsAppend(p.engine, ops, kind, group);
    var q := Local(s, site, ops, kind, group).session.peers[site];
    if OwnPointers(p.engine.gh, site) { PushKeepsOwn(p.engine.gh, site, ops, p.engine.currentSiteSeq + 1, kind, group); }
    EditKeeps(start, s.server, site, p, q, ops, withLiveness);
    OnePeerChanges(start, s, site, q, withLiveness);
  }

  lemma EditStepKeeps(start: Doc, s: Session, site: SiteId, op: Op, group: GroupSeq, withLiveness: bool)
    requires Healthy(start, s, withLiveness) && Enabled(s, Edit(site, op, group))
    ensures Step(s, Edit(site, op, group)).Next? && Healthy(start, Step(s, Edit(site, op, group)).session, withLiveness)
  {
    hide PushAll, UpToDate, Unacked, PendingInOrder, HistoryCopies;
    var p := s.peers[site];
    RunOfOne(p.doc, op);
    OriginalNeverFails(p.engine.gh, op, p.engine.currentSiteSeq + 1, group);
    LocalKeeps(start, s, site, [op], EditOriginal, group, withLiveness);
  }

  lemma UndoStepKeeps(start: Doc, s: Session, site: SiteId, redo: bool, group: GroupSeq, withLiveness: bool)
    requires Healthy(start, s, withLiveness) && Enabled(s, UndoRedo(site, redo, group))
    ensures Step(s, UndoRedo(site, redo, group)).Next? && Healthy(start, Step(s, UndoRedo(site, redo, group)).session, withLiveness)
  {
    hide PushAll, Unacked, PendingInOrder, HistoryCopies, GenerateUndo, ValidRun, Replay;
    var p := s.peers[site];
    UndoFits(start, s.server, p, redo);
    UndoNeverFails(p.engine.gh, redo, p.engine.currentSiteSeq + 1, group);
    LocalKeeps(start, s, site, GenerateUndo(p.engine.gh, redo), CommandKind(redo), group, withLiveness);
  }

  lemma ReceiveKeeps(start: Doc, s: Session, site: SiteId, withLiveness: bool)
    requires Healthy(start, s, withLiveness) && Enabled(s, Receive(site))
    requires withLiveness ==> Peaceful(s, Receive(site))
    ensures Step(s, Receive(site)).Next? && Healthy(start, Step(s, Receive(site)).session, withLiveness)
  {
    hide ValidRun, Replay, RebaseOver, Admit, Rebase, Apply;
    if s.peers[site].buffer[0].op.site == site {
      ReceiveAckKeeps(start, s.server, site, s.peers[site], withLiveness);
    } else {
      ReceiveForeignKeeps(start, s.server, site, s.peers[site], withLiveness);
    }
  }

  /** No step fails, and every step keeps the session healthy. */
  lemma StepKeepsHealthy(start: Doc, s: Session, e: Event, withLiveness: bool)
    requires Healthy(start, s, withLiveness) && Enabled(s, e)
    requires withLiveness ==> Peaceful(s, e)
    ensures Step(s, e).Next? && Healthy(start, Step(s, e).session, withLiveness)
  {
    hide ValidRun, Replay, RebaseOver, Admit, Rebase, Apply, Local, GenerateUndo, PeerInv;
    match e
    case Join(site) => JoinKeeps(start, s, site, withLiveness);
    case Edit(site, op, group) => EditStepKeeps(start, s, site, op, group, withLiveness);
    case UndoRedo(site, redo, group) => UndoStepKeeps(start, s, site, redo, group, withLiveness);
    case Send(site) =>
      SendKeeps(start, s.server, site, s.peers[site], withLiveness);
      OnePeerChanges(start, s, site, Step(s, e).session.peers[site], withLiveness);
    case AdmitBatch(site) => AdmitKeeps(start, s, site, withLiveness);
    case ChangeOnDisk(fats) => ChangeOnDiskKeeps(start, s, fats, withLiveness);
    case Deliver(site, lo, hi) =>
      DeliverKeeps(start, s, site, lo, hi, withLiveness);
      OnePeerChanges(start, s, site, Step(s, e).session.peers[site], withLiveness);
    case Request(site) => RequestKeeps(start, s, site, withLiveness);
    case Receive(site) => ReceiveKeeps(start, s, site, withLiveness);
  }

  /** A client is lost exactly where its batch is refused. */
  lemma DropsIff(start: Doc, s: Session, e: Event, site: SiteId)
    requires Healthy(start, s, false) && Enabled(s, e) && site in s.peers
    ensures Step(s, e).Next? && (site !in Step(s, e).session.peers <==> e == AdmitBatch(site) && Refused(s, e))
  {
    hide Healthy, ValidRun, Replay, Sequenced, PushAll, GenerateUndo, RemoteOp, Package, Buffer, OwnCommand;
    StepKeepsHealthy(start, s, e, false);
    if e.AdmitBatch? { AdmitKeeps(start, s, e.site, false); }
  }

  /** The undo pointers of a client that joined at sequence number 0 always denote its own
      operations. */
  lemma AlignedPointers(start: Doc, s: Session, site: SiteId, withLiveness: bool)
    requires Healthy(start, s, withLiveness) && site in s.peers && Aligned(s.peers[site].engine)
    ensures forall redo, group :: Enabled(s, UndoRedo(site, redo, group))
  {
    hide ValidRun, Replay, Unacked;
    assert PeerInv(start, s.server, site, s.peers[site], withLiveness);
  }

  /** Whatever arrives at a client that joined at sequence number 0, an undo or redo command
      takes the same entries after it as before. */
  lemma ArrivalsKeepEntries(start: Doc, s: Session, site: SiteId, redo: bool)
    requires Healthy(start, s, false) && site in s.peers && s.peers[site].buffer != [] && Aligned(s.peers[site].engine)
    ensures var c, r := s.peers[site].engine, RemoteOp(s.peers[site].engine, s.peers[site].buffer[0]);
            && r.Ok? && c.gh.PointersInRange() && r.value.0.gh.PointersInRange()
            && Entries(r.value.0.gh, redo) == Entries(c.gh, redo)
  {
    hide ValidRun, Replay, HistoryCopies, OwnPointers, UpToDate, InFlight, Admitted, Entries;
    var p := s.peers[site];
    assert PeerInv(start, s.server, site, p, false);
    BufferAdvances(s.server, p);
    if p.buffer[0].op.site == site {
      var a: nat, m: nat :| Unacked(start, s.server, p, a, m);
      AckAgrees(start, s.server, site, p, a, m);
      AckKeepsEntries(p.engine, p.buffer[0], redo);
    } else {
      RemoteOpRebases(p.engine, p.buffer[0]);
      RemoteKeepsEntries(p.engine, p.buffer[0], redo);
    }
  }
}
