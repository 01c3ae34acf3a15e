/** A whole editing session: one server, any number of clients, and every interleaving of
    joining, editing, undoing, sending, admitting, delivering, requesting and receiving.
    Deliveries may be lost, repeated or out of order. */
module Sessions {
  import opened Ops
  import opened Documents
  import opened Engines
  import opened UndoGeneration

  /** The site of changes made to the file outside any editor. */
  const EXTERNAL_SITE: SiteId := 0xFFFF_FFFF

  /** A client with its document, the global operations received but not yet processed,
      and the batches on their way to the server. */
  datatype Peer = Peer(engine: Client, doc: Doc, buffer: seq<FatOp>, wire: seq<ContextOps>)

  datatype Server = Server(global: seq<FatOp>, currentSeq: GlobalSeq, doc: Doc, subscribers: map<SiteId, LocalSeq>)

  /** `asking` are the sites with a request for missed operations on its way; a client sends
      one for every operation that leaves a gap, so one may always follow another. */
  datatype Session = Session(server: Server, peers: map<SiteId, Peer>, asking: set<SiteId>)

  datatype Event =
    | Join(site: SiteId)
    | Edit(site: SiteId, op: Op, groupSeq: GroupSeq)
    | UndoRedo(site: SiteId, redo: bool, groupSeq: GroupSeq)
    | Send(site: SiteId)
    | AdmitBatch(site: SiteId)
    | ChangeOnDisk(fats: seq<FatOp>)
    | Deliver(site: SiteId, lo: nat, hi: nat)
    | Request(site: SiteId)
    | Receive(site: SiteId)

  /** `InvalidOps` stands for the panics and out-of-bounds edits of operations that do not fit. */
  datatype Failure = EngineFailure(EngineError) | InvalidOps

  datatype Outcome = Next(session: Session) | Fails(Failure)

  // ---------------------------------------------------------------- protocol steps

  /** `handle_op_from_server`: keep what continues the buffered run; skip operations
      already seen and operations after a gap. */
  function Buffer(currentSeq: GlobalSeq, buffer: seq<FatOp>, fats: seq<FatOp>): seq<FatOp>
    decreases |fats|
  {
    if fats == [] then buffer
    else if fats[0].seqNo.None? then buffer
    else if fats[0].seqNo.value == currentSeq + |buffer| + 1 then Buffer(currentSeq, buffer + [fats[0]], fats[1..])
    else Buffer(currentSeq, buffer, fats[1..])
  }

  predicate AllNumbered(fats: seq<FatOp>) { forall i :: 0 <= i < |fats| ==> fats[i].seqNo.Some? }

  /** A delivered operation that is beyond the one expected when it comes. */
  predicate LeavesGap(currentSeq: GlobalSeq, buffer: seq<FatOp>, fats: seq<FatOp>, i: nat)
    requires i < |fats|
  {
    fats[i].seqNo.Some? && fats[i].seqNo.value > currentSeq + |Buffer(currentSeq, buffer, fats[..i])| + 1
  }

  /** Something is missing, so the client sends a request. */
  predicate Asks(currentSeq: GlobalSeq, buffer: seq<FatOp>, fats: seq<FatOp>) {
    exists i :: 0 <= i < |fats| && LeavesGap(currentSeq, buffer, fats, i)
  }

  lemma {:induction false} BufferMore(currentSeq: GlobalSeq, buffer: seq<FatOp>, fats: seq<FatOp>, i: nat)
    requires i < |fats| && AllNumbered(fats[..i])
    ensures var b := Buffer(currentSeq, buffer, fats[..i]);
            Buffer(currentSeq, buffer, fats[..i + 1])
              == if fats[i].seqNo == Some(currentSeq + |b| + 1) then b + [fats[i]] else b
    decreases i
  {
    if i == 0 {
      assert fats[..1][1..] == [] && fats[..0] == [];
    } else {
      assert fats[..i][1..] == fats[1..][..i - 1] && fats[..i + 1][1..] == fats[1..][..i];
      assert forall k :: 0 <= k < i - 1 ==> fats[1..][k] == fats[..i][k + 1];
      assert fats[0] == fats[..i][0];
      var next := if fats[0].seqNo == Some(currentSeq + |buffer| + 1) then buffer + [fats[0]] else buffer;
      BufferMore(currentSeq, next, fats[1..], i - 1);
    }
  }

  lemma {:induction false} BufferStops(currentSeq: GlobalSeq, buffer: seq<FatOp>, fats: seq<FatOp>, i: nat)
    requires i < |fats| && AllNumbered(fats[..i]) && fats[i].seqNo.None?
    ensures Buffer(currentSeq, buffer, fats) == Buffer(currentSeq, buffer, fats[..i])
    decreases i
  {
    if i == 0 {
      assert fats[..0] == [];
    } else {
      assert fats[..i][1..] == fats[1..][..i - 1];
      assert forall k :: 0 <= k < i - 1 ==> fats[1..][k] == fats[..i][k + 1];
      assert fats[0] == fats[..i][0];
      var next := if fats[0].seqNo == Some(currentSeq + |buffer| + 1) then buffer + [fats[0]] else buffer;
      BufferStops(currentSeq, next, fats[1..], i - 1);
    }
  }

  /** The site-sequence check of `handle_op_from_client`. */
  predicate SiteSeqExpected(subscribers: map<SiteId, LocalSeq>, site: SiteId, batch: ContextOps) {
    site in subscribers && (batch.ops != [] ==> batch.ops[0].siteSeq == subscribers[site] + 1)
  }

  function Record(subscribers: map<SiteId, LocalSeq>, site: SiteId, batch: ContextOps): map<SiteId, LocalSeq> {
    if batch.ops == [] then subscribers else subscribers[site := batch.ops[|batch.ops| - 1].siteSeq]
  }

  function Sequence(server: Server, batch: ContextOps): Server
    requires Coherent(server.doc) && ValidRun(OpsOf(Sequenced(server.global, batch, server.currentSeq)), server.doc)
  {
    var fats := Sequenced(server.global, batch, server.currentSeq);
    server.(global := server.global + fats, currentSeq := server.currentSeq + |fats|, doc := Replay(server.doc, OpsOf(fats)))
  }

  /** The server after admitting a batch of `site`. */
  function Admitting(server: Server, site: SiteId, batch: ContextOps): Server
    requires Coherent(server.doc) && ValidRun(OpsOf(Sequenced(server.global, batch, server.currentSeq)), server.doc)
  {
    Sequence(server, batch).(subscribers := Record(server.subscribers, site, batch))
  }

  predicate OwnedBy(fats: seq<FatOp>, site: SiteId) {
    forall i :: 0 <= i < |fats| ==> fats[i].op.site == site
  }

  /** What the surroundings may do next: hosts open the document (again), editors send
      edits that are in bounds and undo and redo commands, the network delivers slices of
      the history, a request that a client made for missed operations reaches the server. A
      command has to reverse the user's own operations; that of a client that joined at
      sequence number 0 always does (`SessionProofs.AlignedPointers`), that of one that joined
      later may not (`UndoMisses.LateJoinerLosesPointer`). */
  predicate Enabled(s: Session, e: Event) {
    match e
    case Join(site) => site != EXTERNAL_SITE
    case Edit(site, op, _) =>
      site in s.peers && op.site == site && Coherent(s.peers[site].doc) && ValidOn(op, s.peers[site].doc.text)
    case UndoRedo(site, redo, _) =>
      site in s.peers && (s.peers[site].engine.gh.PointersInRange() ==> OwnCommand(s.peers[site].engine.gh, redo, site))
    case Send(site) => site in s.peers
    case AdmitBatch(site) => site in s.peers && s.peers[site].wire != []
    case ChangeOnDisk(fats) => OwnedBy(fats, EXTERNAL_SITE) && Coherent(s.server.doc) && ValidRun(OpsOf(fats), s.server.doc)
    case Deliver(site, lo, hi) => site in s.peers && lo <= hi <= |s.server.global|
    case Request(site) => site in s.asking
    case Receive(site) => site in s.peers && s.peers[site].buffer != []
  }

  /** A command of a client's editor whose internal operations are `ops`. */
  function Local(s: Session, site: SiteId, ops: seq<Op>, kind: EditorOpKind, group: GroupSeq): Outcome
    requires site in s.peers
  {
    var p := s.peers[site];
    if !p.engine.gh.PointersInRange() || !Coherent(p.doc) || !ValidRun(ops, p.doc) then Fails(InvalidOps)
    else match LocalOps(p.engine, ops, kind, group)
         case Err(error) => Fails(EngineFailure(error))
         case Ok(engine) => Next(s.(peers := s.peers[site := p.(engine := engine, doc := Replay(p.doc, ops))]))
  }

  /** A client packages what it has pending, if it may. */
  function Sending(s: Session, site: SiteId): Session
    requires site in s.peers
  {
    var p := s.peers[site];
    var (engine, batch) := Package(p.engine);
    s.(peers := s.peers[site := p.(engine := engine, wire := p.wire + if batch.Some? then [batch.value] else [])])
  }

  /** A request for missed operations makes the server count from the beginning. */
  function Requesting(s: Session, site: SiteId): Session {
    s.(server := s.server.(subscribers := s.server.subscribers[site := 0]))
  }

  /** The client whose batch has been refused drops the document. */
  function Dropping(s: Session, site: SiteId): Session { s.(peers := s.peers - {site}) }

  function Step(s: Session, e: Event): Outcome
    requires Enabled(s, e)
  {
    match e
    case Join(site) =>
      var peer := Peer(NewClient(site, s.server.currentSeq), s.server.doc, [], []);
      Next(s.(server := s.server.(subscribers := s.server.subscribers[site := 0]), peers := s.peers[site := peer]))
    case Edit(site, op, group) => Local(s, site, [op], EditOriginal, group)
    case UndoRedo(site, redo, group) =>
      if !s.peers[site].engine.gh.PointersInRange() then Fails(InvalidOps)
      else Local(s, site, GenerateUndo(s.peers[site].engine.gh, redo), CommandKind(redo), group)
    case Send(site) => Next(Sending(s, site))
    case AdmitBatch(site) =>
      var p := s.peers[site];
      var batch := p.wire[0];
      var peers := s.peers[site := p.(wire := p.wire[1..])];
      if !SiteSeqExpected(s.server.subscribers, site, batch) then Next(Dropping(s, site))
      else if Coherent(s.server.doc) && ValidRun(OpsOf(Sequenced(s.server.global, batch, s.server.currentSeq)), s.server.doc) then
        Next(s.(server := Admitting(s.server, site, batch), peers := peers))
      else Fails(InvalidOps)
    case ChangeOnDisk(fats) =>
      var batch := ContextOps(s.server.currentSeq, fats);
      if ValidRun(OpsOf(Sequenced(s.server.global, batch, s.server.currentSeq)), s.server.doc) then
        Next(s.(server := Sequence(s.server, batch)))
      else Fails(InvalidOps)
    case Deliver(site, lo, hi) =>
      var p, fats := s.peers[site], s.server.global[lo..hi];
      Next(s.(peers := s.peers[site := p.(buffer := Buffer(p.engine.currentSeq, p.buffer, fats))],
              asking := if Asks(p.engine.currentSeq, p.buffer, fats) then s.asking + {site} else s.asking))
    case Request(site) => Next(Requesting(s, site))
    case Receive(site) =>
      var p := s.peers[site];
      match RemoteOp(p.engine, p.buffer[0])
      case Err(error) => Fails(EngineFailure(error))
      case Ok((engine, op)) =>
        if op.Some? && !(Coherent(p.doc) && Fits(op.value, |p.doc.text|)) then Fails(InvalidOps)
        else
          var doc := if op.Some? then Apply(p.doc, op.value) else p.doc;
          Next(s.(peers := s.peers[site := p.(engine := engine, doc := doc, buffer := p.buffer[1..])]))
  }
}
