/** The invariant of a session: what the server, and each client with what it has sent and
    received, always satisfy. */
module SessionInvariants {
  import opened Ops
  import opened Documents
  import opened Tracking
  import opened Convergence
  import opened Engines
  import opened Sessions

  predicate Numbering(global: seq<FatOp>) {
    forall i :: 0 <= i < |global| ==> global[i].seqNo == Some(i + 1)
  }

  /** The server's document is the replay of its history. */
  ghost predicate ServerInv(start: Doc, server: Server) {
    && Coherent(start)
    && ValidRun(OpsOf(server.global), start)
    && server.doc == Replay(start, OpsOf(server.global))
    && server.currentSeq == |server.global|
    && Numbering(server.global)
  }

  /** The document after the first `k` global operations. */
  ghost function At(start: Doc, server: Server, k: nat): (d: Doc)
    requires ServerInv(start, server) && k <= |server.global|
    ensures Coherent(d)
  {
    PrefixRun(start, OpsOf(server.global), k);
    Replay(start, OpsOf(server.global)[..k])
  }

  ghost predicate Positioned(server: Server, site: SiteId, p: Peer) {
    var k := p.engine.currentSeq;
    && p.engine.site == site && site != EXTERNAL_SITE && site in server.subscribers
    && k + |p.buffer| <= |server.global|
    && p.buffer == server.global[k..k + |p.buffer|]
    && p.engine.gh.PointersInRange()
  }

  ghost predicate PendingInOrder(p: Peer) {
    var local := p.engine.gh.local;
    && OwnedBy(local, p.engine.site)
    && p.engine.lastSent <= p.engine.currentSiteSeq
    && (forall i :: 0 <= i < |local| ==> local[i].siteSeq <= p.engine.currentSiteSeq)
    && (forall i, j :: 0 <= i < j < |local| ==> local[i].siteSeq <= local[j].siteSeq)
  }

  /** The client's document is what the server's history up to the client's position,
      followed by the pending operations, makes of the starting document. */
  ghost predicate UpToDate(start: Doc, server: Server, p: Peer, withLiveness: bool)
    requires ServerInv(start, server)
  {
    && p.engine.currentSeq <= |server.global|
    && Coherent(p.doc)
    && var base := At(start, server, p.engine.currentSeq);
    && ValidRun(OpsOf(p.engine.gh.local), base)
    && SameDoc(p.doc, Replay(base, OpsOf(p.engine.gh.local)), withLiveness)
  }

  /** `now` is what `sent` becomes when it is rebased over `between`. */
  predicate Rebased(sent: seq<FatOp>, between: seq<FatOp>, now: seq<FatOp>) {
    OpsOf(now) == RebaseOver(OpsOf(sent), OpsOf(between)) && SameTags(sent, now)
  }

  /** No operation of `site` from position `k` on. */
  predicate NoneOf(global: seq<FatOp>, site: SiteId, k: nat) {
    forall i :: k <= i < |global| ==> global[i].op.site != site
  }

  /** The server expects number `n` next, unless a request has made it count from the
      beginning again. */
  predicate Expecting(subscribers: map<SiteId, LocalSeq>, site: SiteId, n: LocalSeq) {
    site in subscribers && (subscribers[site] + 1 == n || subscribers[site] == 0)
  }

  /** The server has not seen the batch yet: it consists of the first `m` pending
      operations as they were when the batch was sent. */
  ghost predicate InFlight(start: Doc, server: Server, p: Peer, batch: ContextOps, m: nat)
    requires ServerInv(start, server)
  {
    var k, local := p.engine.currentSeq, p.engine.gh.local;
    && 0 < m == |batch.ops| && m <= |local|
    && batch.context <= k <= |server.global|
    && NoneOf(server.global, p.engine.site, batch.context)
    && Rebased(batch.ops, server.global[batch.context..k], local[..m])
    && OwnedBy(batch.ops, p.engine.site)
    && ValidRun(OpsOf(batch.ops), At(start, server, batch.context))
    && Expecting(server.subscribers, p.engine.site, batch.ops[0].siteSeq)
    && batch.ops[m - 1].siteSeq == p.engine.lastSent
  }

  /** Among the operations from `k` on, those of `site` are the ones in [a, b). */
  predicate OwnBlock(global: seq<FatOp>, site: SiteId, k: nat, a: nat, b: nat) {
    forall i :: k <= i < |global| ==> (global[i].op.site == site <==> a <= i < b)
  }

  /** The server has admitted the first `m` pending operations at position `a` of its
      history, exactly as this client will have them when it gets there. */
  ghost predicate Admitted(server: Server, p: Peer, a: nat, m: nat) {
    var k, local, global := p.engine.currentSeq, p.engine.gh.local, server.global;
    && m <= |local|
    && OwnBlock(global, p.engine.site, k, a, a + m)
    && (m > 0 ==> k <= a && a + m <= |global| && Rebased(local[..m], global[k..a], global[a..a + m]))
    && Expecting(server.subscribers, p.engine.site, p.engine.lastSent + 1)
  }

  /** Stop-and-wait: the first `m` pending operations are sent and unacknowledged, at
      most one batch is in flight, and nothing else has been sent. */
  ghost predicate Unacked(start: Doc, server: Server, p: Peer, a: nat, m: nat)
    requires ServerInv(start, server)
  {
    var local := p.engine.gh.local;
    && m <= |local|
    && (forall i :: 0 <= i < |local| ==> (local[i].siteSeq <= p.engine.lastSent <==> i < m))
    && |p.wire| <= 1
    && (if |p.wire| == 1 then InFlight(start, server, p, p.wire[0], m) else Admitted(server, p, a, m))
  }

  /** The global section of the client's history holds a copy of every operation since the
      client joined, its own ones unchanged. */
  predicate HistoryCopies(server: Server, p: Peer) {
    var kept, k, n := p.engine.gh.global, p.engine.currentSeq, |p.engine.gh.global|;
    && n <= k <= |server.global|
    && CopiesOf(OpsOf(kept), OpsOf(server.global[k - n..k]))
    && forall i :: 0 <= i < n && kept[i].op.site == p.engine.site ==> kept[i].op == server.global[k - n + i].op
  }

  /** A client that joined at sequence number 0. */
  predicate Aligned(c: Engines.Client) { c.currentSeq == |c.gh.global| }

  ghost predicate PeerInv(start: Doc, server: Server, site: SiteId, p: Peer, withLiveness: bool)
    requires ServerInv(start, server)
  {
    && Positioned(server, site, p)
    && PendingInOrder(p)
    && UpToDate(start, server, p, withLiveness)
    && HistoryCopies(server, p)
    && (Aligned(p.engine) ==> OwnPointers(p.engine.gh, site))
    && exists a: nat, m: nat :: Unacked(start, server, p, a, m)
  }

  ghost predicate Healthy(start: Doc, s: Session, withLiveness: bool) {
    && ServerInv(start, s.server)
    && forall site :: site in s.peers ==> PeerInv(start, s.server, site, s.peers[site], withLiveness)
  }

  lemma OwnSite(start: Doc, s: Session, site: SiteId)
    requires Healthy(start, s, false) && site in s.peers
    ensures s.peers[site].engine.site == site
  {
    hide ValidRun, Replay, UpToDate, HistoryCopies, OwnPointers, Unacked, ServerInv, PendingInOrder;
  }

  lemma OpsOfAppend(a: seq<FatOp>, b: seq<FatOp>)
    ensures OpsOf(a + b) == OpsOf(a) + OpsOf(b)
  {}

  lemma OpsOfSlice(a: seq<FatOp>, lo: nat, hi: nat)
    requires lo <= hi <= |a|
    ensures OpsOf(a[lo..hi]) == OpsOf(a)[lo..hi]
  {}

  lemma SliceRun(start: Doc, server: Server, lo: nat, hi: nat)
    requires ServerInv(start, server) && lo <= hi <= |server.global|
    ensures ValidRun(OpsOf(server.global[lo..hi]), At(start, server, lo))
    ensures Replay(At(start, server, lo), OpsOf(server.global[lo..hi])) == At(start, server, hi)
  {
    var ops := OpsOf(server.global);
    OpsOfSlice(server.global, lo, hi);
    PrefixRun(start, ops, hi);
    PrefixRun(start, ops[..hi], lo);
    assert ops[..hi][..lo] == ops[..lo] && ops[..hi][lo..] == ops[lo..hi];
  }

  lemma AllOps(global: seq<FatOp>)
    ensures global[..|global|] == global
    ensures OpsOf(global)[..|global|] == OpsOf(global)
  {}
}
