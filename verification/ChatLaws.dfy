/**
 What every run of the chat relay keeps: nothing accepted is lost, no cursor claims rows the document
 lacks, and a complete backfill leaves the document complete.
 */
module ChatLaws {
  import opened Prelude
  import opened ChatLog
  import opened ChatSync
  import opened ChatClient

  // ── the invariant ─────────────────────────────────────────────────────────

  /** `ops` holds everything the first `n` accepted rows carry. */
  ghost predicate Covers(accepted: seq<LogRow>, n: nat, ops: set<OpId>) {
    n <= |accepted| && forall i :: 0 <= i < n ==> accepted[i].update.ops <= ops
  }

  /** The same, but for one row. */
  ghost predicate CoversBut(accepted: seq<LogRow>, n: nat, ops: set<OpId>, but: Option<LogRow>) {
    n <= |accepted| && forall i :: 0 <= i < n && but != Some(accepted[i]) ==> accepted[i].update.ops <= ops
  }

  ghost predicate RowOk(accepted: seq<LogRow>, row: LogRow) {
    1 <= row.serial <= |accepted| && accepted[row.serial - 1] == row
  }

  ghost predicate FrontierOk(accepted: seq<LogRow>, covered: nat, frontier: Frontier) {
    frontier.Some? ==> Covers(accepted, covered, frontier.value)
  }

  ghost predicate CheckpointOk(accepted: seq<LogRow>, log: Log) {
    log.checkpoint.Some? ==>
      && Covers(accepted, log.floor, log.checkpoint.value.blob.ops)
      && FrontierOk(accepted, log.floor, log.checkpoint.value.frontier)
  }

  /** A frontier has all of the posted document, except on a first checkpoint, which claims no row. */
  predicate FrontierNamed(post: Post) {
    post.frontier.Some? && post.covered > 0 ==> post.blob.ops <= post.frontier.value
  }

  /**
   Nothing is assumed of who captures when. What a cursor was noted for is held but for the row landing
   then, or else claims no more than a checkpoint already committed, because only a client raised to a
   checkpoint it has yet to import can claim more.
   */
  ghost predicate NoteOk(accepted: seq<LogRow>, log: Log, note: Noted, ops: set<OpId>) {
    && (note.landing.Some? ==> RowOk(accepted, note.landing.value))
    && (CoversBut(accepted, note.cursor, ops, note.landing) || (log.checkpoint.Some? && note.cursor <= log.floor))
  }

  ghost predicate PostOk(accepted: seq<LogRow>, log: Log, post: Post) {
    FrontierNamed(post) && NoteOk(accepted, log, Noted(post.covered, post.landing), post.blob.ops)
  }

  ghost predicate Issued(issued: map<string, (string, Update)>, c: string, batch: string, update: Update) {
    batch in issued && issued[batch] == (c, update)
  }

  ghost predicate OwnHeld(issued: map<string, (string, Update)>, c: string, doc: set<OpId>) {
    forall b :: b in issued && issued[b].0 == c ==> issued[b].1.ops <= doc
  }

  ghost predicate AcceptedOk(accepted: seq<LogRow>, issued: map<string, (string, Update)>) {
    forall i :: 0 <= i < |accepted| ==> Issued(issued, accepted[i].device, accepted[i].batch, accepted[i].update)
  }

  ghost predicate HeadOk(accepted: seq<LogRow>, log: Log, h: Head) {
    && h.head <= |accepted| && h.covered <= log.floor
    && (if h.present then log.checkpoint.Some? && FrontierOk(accepted, h.covered, h.frontier) else h.covered == 0)
  }

  ghost predicate FrameOk(accepted: seq<LogRow>, log: Log, c: string, cursor: nat, f: Down) {
    match f
    case State(h) => HeadOk(accepted, log, h)
    case RowDown(row) => RowOk(accepted, row)
    case RowsDone(head, after, owed) =>
      && head <= |accepted| && after <= cursor
      && (owed.Some? ==> forall i :: after <= i < head ==> accepted[i].update.ops <= owed.value)
    case Ack(batch, serial) => 1 <= serial <= |accepted| && accepted[serial - 1].device == c
    case ErrorDown(_, _) => true
  }

  ghost predicate FramesOk(accepted: seq<LogRow>, log: Log, c: string, cursor: nat, q: seq<Down>) {
    forall i :: 0 <= i < |q| ==> FrameOk(accepted, log, c, cursor, q[i])
  }

  function Gained(f: Down): set<OpId> {
    if f.RowDown? then f.row.update.ops else {}
  }

  /** Whatever a rows-done frame owes has arrived by the time it is reached. */
  ghost predicate Whole(held: set<OpId>, q: seq<Down>)
    decreases |q|
  {
    q != [] ==>
      && (q[0].RowsDone? && q[0].owed.Some? ==> q[0].owed.value <= held)
      && Whole(held + Gained(q[0]), q[1..])
  }

  /** Every frame the client has yet to handle, oldest first. */
  function Inflow(k: Client): seq<Down> {
    if k.phase.Fetching? then k.phase.buffered + k.down else k.down
  }

  /** The document with the row that is landing. */
  function Reached(k: Client): set<OpId> {
    k.doc + if k.landing.Some? then k.landing.value.update.ops else {}
  }

  ghost predicate UpOk(issued: map<string, (string, Update)>, c: string, cursor: nat, u: Up) {
    match u
    case Hello => true
    case RowsReq(after, _) => after <= cursor
    case PushUp(batch, update) => Issued(issued, c, batch, update)
  }

  ghost predicate CursorOk(accepted: seq<LogRow>, log: Log, k: Client) {
    if k.raised then log.checkpoint.Some? && k.cursor <= log.floor else CoversBut(accepted, k.cursor, k.doc, k.landing)
  }

  ghost predicate LandingOk(accepted: seq<LogRow>, k: Client) {
    k.landing.Some? ==> RowOk(accepted, k.landing.value) && (k.phase.Backfill? || k.phase.Steady?)
  }

  /** The captures under way. */
  ghost predicate CapturesOk(accepted: seq<LogRow>, log: Log, k: Client) {
    && (forall n :: n in k.notes ==> NoteOk(accepted, log, n, k.doc))
    && (forall d :: d in k.drafts ==> d.blob.ops <= k.doc && NoteOk(accepted, log, d.note, d.blob.ops))
  }

  ghost predicate PhaseOk(accepted: seq<LogRow>, k: Client) {
    match k.phase
    case Offline => k.up == [] && k.down == []
    case Greeting =>
      && (forall u :: u in k.up ==> u.Hello?)
      && (forall f :: f in k.down ==> !f.RowsDone?)
      && (forall f :: f in k.down && f.State? && k.raised ==> f.header.present && k.cursor <= f.header.covered)
    case Fetching(state, buffered, got) =>
      && k.raised && k.cursor == state.covered
      && (got.Some? ==> Covers(accepted, state.covered, got.value.blob.ops))
    case Backfill => !k.raised
    case Steady => !k.raised
  }

  ghost predicate ClientOk(log: Log, accepted: seq<LogRow>, issued: map<string, (string, Update)>, c: string, k: Client) {
    && OwnHeld(issued, c, k.doc)
    && (forall p :: p in k.pending ==> Issued(issued, c, p.batch, p.update))
    && (forall u :: u in k.up ==> UpOk(issued, c, k.cursor, u))
    && FramesOk(accepted, log, c, k.cursor, Inflow(k))
    && Whole(Reached(k), Inflow(k))
    && CursorOk(accepted, log, k)
    && LandingOk(accepted, k)
    && CapturesOk(accepted, log, k)
    && PhaseOk(accepted, k)
    && Covers(accepted, k.saved.1, k.saved.0)
    && Covers(accepted, k.caught, k.doc)
  }

  ghost predicate ServerOk(w: World) {
    && LogOk(w.log, w.accepted) && CheckpointOk(w.accepted, w.log) && AcceptedOk(w.accepted, w.issued)
    && forall p :: p in w.posts ==> PostOk(w.accepted, w.log, p)
  }

  ghost predicate Inv(w: World) {
    && ServerOk(w)
    && forall c :: c in w.clients ==> ClientOk(w.log, w.accepted, w.issued, c, w.clients[c])
  }

  // ── queues ────────────────────────────────────────────────────────────────

  ghost function Gain(q: seq<Down>): set<OpId> {
    if q == [] then {} else Gained(q[0]) + Gain(q[1..])
  }

  lemma {:induction false} WholeMore(held: set<OpId>, more: set<OpId>, q: seq<Down>)
    requires Whole(held, q) && held <= more
    ensures Whole(more, q)
    decreases |q|
  {
    if q != [] {
      WholeMore(held + Gained(q[0]), more + Gained(q[0]), q[1..]);
    }
  }

  lemma {:induction false} WholeConcat(held: set<OpId>, q: seq<Down>, r: seq<Down>)
    requires Whole(held, q) && Whole(held + Gain(q), r)
    ensures Whole(held, q + r)
    decreases |q|
  {
    if q == [] {
      assert q + r == r && held + Gain(q) == held;
    } else {
      assert (q + r)[0] == q[0] && (q + r)[1..] == q[1..] + r;
      assert held + Gain(q) == held + Gained(q[0]) + Gain(q[1..]);
      WholeConcat(held + Gained(q[0]), q[1..], r);
    }
  }

  /** Frames that owe nothing. */
  lemma {:induction false} OwesNothing(held: set<OpId>, q: seq<Down>)
    requires forall f :: f in q ==> !f.RowsDone?
    ensures Whole(held, q)
    decreases |q|
  {
    if q != [] {
      OwesNothing(held + Gained(q[0]), q[1..]);
    }
  }

  lemma {:induction false} GainHas(q: seq<Down>, f: Down)
    requires f in q
    ensures Gained(f) <= Gain(q)
    decreases |q|
  {
    if f != q[0] {
      GainHas(q[1..], f);
    }
  }

  lemma FramesAppended(accepted: seq<LogRow>, log: Log, c: string, cursor: nat, q: seq<Down>, more: seq<Down>)
    requires FramesOk(accepted, log, c, cursor, q) && FramesOk(accepted, log, c, cursor, more)
    ensures FramesOk(accepted, log, c, cursor, q + more)
  {
  }

  // ── growth of the world ───────────────────────────────────────────────────

  /** A later log: rows may have been accepted and checkpoints committed. */
  ghost predicate Later(log: Log, a: seq<LogRow>, more: Log, b: seq<LogRow>) {
    a <= b && log.floor <= more.floor && (log.checkpoint.Some? ==> more.checkpoint.Some?)
  }

  lemma CoversGrow(a: seq<LogRow>, b: seq<LogRow>, n: nat, ops: set<OpId>, more: set<OpId>)
    requires Covers(a, n, ops) && a <= b && ops <= more
    ensures Covers(b, n, more)
  {
  }

  /** The log may accept rows and commit checkpoints without any client being told. */
  lemma ClientGrows(log: Log, a: seq<LogRow>, more: Log, b: seq<LogRow>, issued: map<string, (string, Update)>, c: string, k: Client)
    requires ClientOk(log, a, issued, c, k)
    requires Later(log, a, more, b)
    ensures ClientOk(more, b, issued, c, k)
  {
  }

  /** New frames at the end of a client's socket. */
  lemma ClientHears(log: Log, accepted: seq<LogRow>, issued: map<string, (string, Update)>, c: string, k: Client, more: seq<Down>)
    requires ClientOk(log, accepted, issued, c, k) && !k.phase.Offline?
    requires FramesOk(accepted, log, c, k.cursor, more) && Whole(Reached(k) + Gain(Inflow(k)), more)
    requires k.phase.Greeting? ==>
               forall f :: f in more ==> !f.RowsDone? && (f.State? && k.raised ==> f.header.present && k.cursor <= f.header.covered)
    ensures ClientOk(log, accepted, issued, c, k.(down := k.down + more))
  {
    var after := k.(down := k.down + more);
    assert Inflow(after) == Inflow(k) + more by {
      if k.phase.Fetching? {
        Regroup(k.phase.buffered, k.down, more);
      }
    }
    FramesAppended(accepted, log, c, k.cursor, Inflow(k), more);
    WholeConcat(Reached(k), Inflow(k), more);
  }

  /** A request leaves the queue. */
  lemma ClientSent(log: Log, accepted: seq<LogRow>, issued: map<string, (string, Update)>, c: string, k: Client)
    requires ClientOk(log, accepted, issued, c, k) && k.up != []
    ensures ClientOk(log, accepted, issued, c, k.(up := k.up[1..])) && UpOk(issued, c, k.cursor, k.up[0])
  {
  }

  // ── the server's answers ──────────────────────────────────────────────────

  lemma RowsReplyOwes(w: World, c: string, doc: set<OpId>, after: nat, excludeOwn: bool)
    requires ServerOk(w) && OwnHeld(w.issued, c, doc) && w.log.floor <= after
    ensures OpsFrom(w.accepted, after) <= doc + Gain(RowFrames(RowsAfter(w.log.rows, after, if excludeOwn then c else "")))
  {
    var exclude := if excludeOwn then c else "";
    var rows := RowsAfter(w.log.rows, after, exclude);
    RowsAfterAre(w.log.rows, after, exclude);
    forall i | after <= i < |w.accepted|
      ensures w.accepted[i].update.ops <= doc + Gain(RowFrames(rows))
    {
      var row := w.accepted[i];
      assert row == w.log.rows[i - w.log.floor] && row in w.log.rows;
      assert Issued(w.issued, row.device, row.batch, row.update);
      if !Excluded(row, exclude) {
        var j :| 0 <= j < |rows| && rows[j] == row;
        assert RowFrames(rows)[j] == RowDown(row);
        GainHas(RowFrames(rows), RowDown(row));
      }
    }
  }

  lemma RowFramesOk(w: World, c: string, cursor: nat, after: nat, exclude: string)
    requires ServerOk(w)
    ensures FramesOk(w.accepted, w.log, c, cursor, RowFrames(RowsAfter(w.log.rows, after, exclude)))
  {
    var rows := RowsAfter(w.log.rows, after, exclude);
    RowsAfterAre(w.log.rows, after, exclude);
    forall i | 0 <= i < |rows|
      ensures FrameOk(w.accepted, w.log, c, cursor, RowDown(rows[i]))
    {
      assert rows[i] in rows;
      var j :| 0 <= j < |w.log.rows| && w.log.rows[j] == rows[i];
      assert w.log.rows[j] == w.accepted[w.log.floor + j];
    }
  }

  lemma DoneOwes(held: set<OpId>, frames: seq<Down>, done: Down)
    requires done.RowsDone? && forall f :: f in frames ==> !f.RowsDone?
    requires done.owed.Some? ==> done.owed.value <= held + Gain(frames)
    ensures Whole(held, frames + [done])
  {
    OwesNothing(held, frames);
    assert [done][1..] == [];
    assert Whole(held + Gain(frames), [done]);
    WholeConcat(held, frames, [done]);
  }

  lemma RowsReplyOk(w: World, c: string, k: Client, after: nat, excludeOwn: bool)
    requires ServerOk(w) && ClientOk(w.log, w.accepted, w.issued, c, k) && after <= k.cursor
    ensures FramesOk(w.accepted, w.log, c, k.cursor, RowsReply(w, c, after, excludeOwn))
    ensures Whole(Reached(k) + Gain(Inflow(k)), RowsReply(w, c, after, excludeOwn))
  {
    var frames := RowFrames(RowsAfter(w.log.rows, after, if excludeOwn then c else ""));
    var done := RowsDone(w.log.head, after, if w.log.floor <= after then Some(OpsFrom(w.accepted, after)) else None);
    RowFramesOk(w, c, k.cursor, after, if excludeOwn then c else "");
    assert FrameOk(w.accepted, w.log, c, k.cursor, done);
    FramesAppended(w.accepted, w.log, c, k.cursor, frames, [done]);
    if w.log.floor <= after {
      RowsReplyOwes(w, c, k.doc, after, excludeOwn);
    }
    DoneOwes(Reached(k) + Gain(Inflow(k)), frames, done);
  }

  /** A frame that carries no debt can be appended to any queue. */
  lemma OneFrameOwesNothing(held: set<OpId>, f: Down)
    requires !f.RowsDone?
    ensures Whole(held, [f])
  {
  }

  lemma AnswersKeep(w: World, c: string)
    requires Inv(w) && c in w.clients && !w.clients[c].phase.Offline? && w.clients[c].up != []
    requires !w.clients[c].up[0].PushUp?
    ensures Inv(ServeUp(w, c))
  {
    var k := w.clients[c];
    ClientSent(w.log, w.accepted, w.issued, c, k);
    var sent := k.(up := k.up[1..]);
    match k.up[0] {
      case Hello =>
        var f := State(StateOf(w.log));
        assert FrameOk(w.accepted, w.log, c, k.cursor, f);
        OneFrameOwesNothing(Reached(k) + Gain(Inflow(sent)), f);
        ClientHears(w.log, w.accepted, w.issued, c, sent, [f]);
      case RowsReq(after, excludeOwn) =>
        assert !k.phase.Greeting? by {
          assert k.up[0] in k.up;
        }
        RowsReplyOk(w, c, sent, after, excludeOwn);
        ClientHears(w.log, w.accepted, w.issued, c, sent, RowsReply(w, c, after, excludeOwn));
    }
  }

  // ── a push ────────────────────────────────────────────────────────────────

  /** The table and the history after a push. */
  ghost function AfterAppend(w: World, c: string, batch: string, update: Update): World {
    w.(log := LogAfterPush(w.log, c, batch, update), accepted := AcceptedAfterPush(w.log, w.accepted, c, batch, update))
  }

  lemma LogGrows(w: World, c: string, batch: string, update: Update)
    requires LogOk(w.log, w.accepted)
    ensures var n := AfterAppend(w, c, batch, update);
            LogOk(n.log, n.accepted) && Later(w.log, w.accepted, n.log, n.accepted) && n.log.checkpoint == w.log.checkpoint
            && n.log.floor == w.log.floor
  {
    AppendEffect(w.log, w.accepted, c, batch, update);
  }

  lemma AppendKeeps(w: World, c: string, batch: string, update: Update)
    requires Inv(w) && Issued(w.issued, c, batch, update)
    ensures Inv(AfterAppend(w, c, batch, update))
  {
    LogGrows(w, c, batch, update);
    var n := AfterAppend(w, c, batch, update);
    if n.log.checkpoint.Some? {
      CheckpointGrows(w, n.accepted);
    }
    forall p | p in n.posts
      ensures PostOk(n.accepted, n.log, p)
    {
      PostGrows(w.log, w.accepted, n.log, n.accepted, p);
    }
    forall d | d in n.clients
      ensures ClientOk(n.log, n.accepted, n.issued, d, n.clients[d])
    {
      ClientGrows(w.log, w.accepted, n.log, n.accepted, w.issued, d, w.clients[d]);
    }
  }

  lemma PostGrows(log: Log, a: seq<LogRow>, more: Log, b: seq<LogRow>, p: Post)
    requires PostOk(a, log, p) && Later(log, a, more, b)
    ensures PostOk(b, more, p)
  {
  }

  lemma CheckpointGrows(w: World, b: seq<LogRow>)
    requires CheckpointOk(w.accepted, w.log) && w.log.checkpoint.Some? && w.accepted <= b
    ensures CheckpointOk(b, w.log)
  {
  }

  /** Every other socket hears of the push what it should. */
  lemma RelayKeeps(w: World, c: string, frames: seq<Down>)
    requires Inv(w) && forall f :: f in frames ==> f.RowDown? && RowOk(w.accepted, f.row)
    ensures Inv(w.(clients := Relay(w.clients, c, frames)))
  {
    forall d | d in w.clients
      ensures ClientOk(w.log, w.accepted, w.issued, d, Relay(w.clients, c, frames)[d])
    {
      OwesNothing(Reached(w.clients[d]) + Gain(Inflow(w.clients[d])), frames);
      if d != c && Ready(w.clients[d]) {
        forall i | 0 <= i < |frames|
          ensures FrameOk(w.accepted, w.log, d, w.clients[d].cursor, frames[i])
        {
          assert frames[i] in frames;
        }
        ClientHears(w.log, w.accepted, w.issued, d, w.clients[d], frames);
      }
    }
  }

  lemma OneClient(w: World, c: string, k: Client)
    requires Inv(w) && ClientOk(w.log, w.accepted, w.issued, c, k)
    ensures Inv(w.(clients := w.clients[c := k]))
  {
  }

  /** The sender's answer, whatever became of the push. */
  lemma ReplyKeeps(w: World, c: string, f: Down)
    requires Inv(w) && c in w.clients && !w.clients[c].phase.Offline? && w.clients[c].up != []
    requires f.Ack? || f.ErrorDown?
    requires FrameOk(w.accepted, w.log, c, w.clients[c].cursor, f)
    ensures var k := w.clients[c];
            Inv(w.(clients := w.clients[c := k.(up := k.up[1..], down := k.down + [f])]))
  {
    var k := w.clients[c];
    ClientSent(w.log, w.accepted, w.issued, c, k);
    var sent := k.(up := k.up[1..]);
    OneFrameOwesNothing(Reached(sent) + Gain(Inflow(sent)), f);
    ClientHears(w.log, w.accepted, w.issued, c, sent, [f]);
    OneClient(w, c, sent.(down := sent.down + [f]));
  }

  /** The number a batch is acknowledged with names a row of the same device, and what is relayed is a row. */
  lemma AnswerIsOk(w: World, c: string, batch: string, update: Update, cursor: nat)
    requires Inv(w) && Issued(w.issued, c, batch, update)
    ensures var n := AfterAppend(w, c, batch, update);
            && FrameOk(n.accepted, n.log, c, cursor, PushReply(w.log, c, batch, update))
            && forall f :: f in PushRelay(w.log, c, batch, update) ==> f.RowDown? && RowOk(n.accepted, f.row)
  {
  }

  lemma PushKeeps(w: World, c: string, batch: string, update: Update)
    requires Inv(w) && c in w.clients && !w.clients[c].phase.Offline? && w.clients[c].up != []
    requires w.clients[c].up[0] == PushUp(batch, update)
    ensures Inv(ServePush(w, c, batch, update))
  {
    ClientSent(w.log, w.accepted, w.issued, c, w.clients[c]);
    AppendKeeps(w, c, batch, update);
    AnswerIsOk(w, c, batch, update, w.clients[c].cursor);
    var n := AfterAppend(w, c, batch, update);
    var frames := PushRelay(w.log, c, batch, update);
    RelayKeeps(n, c, frames);
    ReplyKeeps(n.(clients := Relay(n.clients, c, frames)), c, PushReply(w.log, c, batch, update));
  }

  // ── the client's steps ────────────────────────────────────────────────────

  /** Taking the next frame off the queue when it is handled. */
  lemma Popped(log: Log, accepted: seq<LogRow>, issued: map<string, (string, Update)>, c: string, k: Client)
    requires ClientOk(log, accepted, issued, c, k) && k.down != [] && !k.phase.Fetching? && k.landing.None?
    ensures FrameOk(accepted, log, c, k.cursor, k.down[0])
    ensures FramesOk(accepted, log, c, k.cursor, k.down[1..])
    ensures Whole(k.doc + Gained(k.down[0]), k.down[1..])
    ensures k.down[0].RowsDone? && k.down[0].owed.Some? ==> k.down[0].owed.value <= k.doc
    ensures forall f :: f in k.down[1..] ==> f in k.down
  {
    assert Reached(k) == k.doc;
  }

  lemma CursorRaised(accepted: seq<LogRow>, log: Log, c: string, cursor: nat, more: nat, q: seq<Down>)
    requires FramesOk(accepted, log, c, cursor, q) && (cursor <= more || forall f :: f in q ==> !f.RowsDone?)
    ensures FramesOk(accepted, log, c, more, q)
  {
  }

  lemma {:induction false} DropBatchKeeps(pending: seq<Pending>, batch: string)
    ensures forall p :: p in DropBatch(pending, batch) ==> p in pending
  {
    if pending != [] {
      DropBatchKeeps(pending[1..], batch);
    }
  }

  /** One row, or the acknowledgement of an own row, moves the cursor by at most one place. */
  lemma WalkKeeps(accepted: seq<LogRow>, k: Client, row: LogRow)
    requires Covers(accepted, k.cursor, k.doc) && RowOk(accepted, row)
    ensures k.cursor <= Walk(k, row.serial).cursor && CoversBut(accepted, Walk(k, row.serial).cursor, k.doc, Some(row))
    ensures row.update.ops <= k.doc ==> Covers(accepted, Walk(k, row.serial).cursor, k.doc)
  {
  }

  /** After the state frame: whichever plan is chosen, the cursor claims nothing the plan will not bring. */
  lemma PlanKeeps(log: Log, accepted: seq<LogRow>, k: Client, h: Head)
    requires CursorOk(accepted, log, k) && HeadOk(accepted, log, h) && k.landing.None?
    requires k.raised ==> h.present && k.cursor <= h.covered
    ensures CursorOk(accepted, log, OnState(k, h))
  {
  }

  lemma RequestsOk(issued: map<string, (string, Update)>, c: string, cursor: nat, k: Client, resumed: bool)
    requires forall u :: u in k.up ==> u.Hello?
    requires forall p :: p in k.pending ==> Issued(issued, c, p.batch, p.update)
    ensures forall u :: u in k.up + [RowsReq(cursor, resumed)] + Pushes(k.pending) ==> UpOk(issued, c, cursor, u)
  {
  }

  /** What the state frame changes about a client, given that its new cursor is honest. */
  lemma Greeted(log: Log, accepted: seq<LogRow>, issued: map<string, (string, Update)>, c: string, k: Client, s: Client)
    requires ClientOk(log, accepted, issued, c, k) && k.phase.Greeting? && k.down != [] && k.down[0].State?
    requires s.doc == k.doc && s.landing == k.landing && s.notes == k.notes && s.drafts == k.drafts && s.pending == k.pending
    requires s.saved == k.saved && s.caught == k.caught
    requires Inflow(s) == k.down[1..] && CursorOk(accepted, log, s) && PhaseOk(accepted, s)
    requires forall u :: u in s.up ==> UpOk(issued, c, s.cursor, u)
    ensures ClientOk(log, accepted, issued, c, s)
  {
    Popped(log, accepted, issued, c, k);
    CursorRaised(accepted, log, c, k.cursor, s.cursor, k.down[1..]);
    assert Reached(s) == k.doc + Gained(k.down[0]);
  }

  lemma StateKeeps(log: Log, accepted: seq<LogRow>, issued: map<string, (string, Update)>, c: string, k: Client)
    requires ClientOk(log, accepted, issued, c, k) && k.phase.Greeting? && k.down != [] && k.down[0].State?
    ensures ClientOk(log, accepted, issued, c, Receive(k))
  {
    var h := k.down[0].header;
    var d := k.(down := k.down[1..]);
    assert k.down[0] in k.down && HeadOk(accepted, log, h) by {
      assert FrameOk(accepted, log, c, k.cursor, k.down[0]);
    }
    PlanKeeps(log, accepted, d, h);
    StateIsTaken(d, h);
    StateAsks(d, h);
    RequestsOk(issued, c, OnState(d, h).cursor, d, d.resumed);
    Greeted(log, accepted, issued, c, k, OnState(d, h));
  }

  lemma RepairKeeps(log: Log, accepted: seq<LogRow>, issued: map<string, (string, Update)>, c: string, k: Client)
    requires ClientOk(log, accepted, issued, c, k) && k.phase.Steady? && k.landing.None?
    ensures ClientOk(log, accepted, issued, c, RepairGap(k))
  {
  }

  /** What a frame may change about a client that is following the log. */
  lemma Followed(log: Log, accepted: seq<LogRow>, issued: map<string, (string, Update)>, c: string, k: Client, s: Client)
    requires ClientOk(log, accepted, issued, c, k) && k.down != [] && (k.phase.Backfill? || k.phase.Steady?)
    requires k.landing.None? && s.doc == k.doc && s.notes == k.notes && s.drafts == k.drafts
    requires s.phase == k.phase && s.up == k.up && s.down == k.down[1..] && s.raised == k.raised && s.caught == k.caught
    requires Reached(s) == k.doc + Gained(k.down[0]) && LandingOk(accepted, s)
    requires k.cursor <= s.cursor && CoversBut(accepted, s.cursor, s.doc, s.landing)
    requires (s.landing.None? && s.saved == (s.doc, s.cursor)) || s.saved == k.saved
    requires forall p :: p in s.pending ==> p in k.pending
    ensures ClientOk(log, accepted, issued, c, s)
  {
    Popped(log, accepted, issued, c, k);
    CursorRaised(accepted, log, c, k.cursor, s.cursor, k.down[1..]);
  }

  lemma RowFollows(accepted: seq<LogRow>, k: Client, row: LogRow)
    requires Covers(accepted, k.cursor, k.doc) && RowOk(accepted, row) && k.landing.None? && (k.phase.Backfill? || k.phase.Steady?)
    ensures var s := HandleFrame(k, RowDown(row));
            && k.cursor <= s.cursor && CoversBut(accepted, s.cursor, s.doc, s.landing)
            && LandingOk(accepted, s) && Reached(s) == k.doc + row.update.ops
  {
    WalkKeeps(accepted, k, row);
    RowWalks(k, row);
  }

  lemma RowKeeps(log: Log, accepted: seq<LogRow>, issued: map<string, (string, Update)>, c: string, k: Client)
    requires ClientOk(log, accepted, issued, c, k) && k.down != [] && (k.phase.Backfill? || k.phase.Steady?)
    requires k.down[0].RowDown? && k.landing.None?
    ensures ClientOk(log, accepted, issued, c, HandleFrame(k.(down := k.down[1..]), k.down[0]))
  {
    var d, row := k.(down := k.down[1..]), k.down[0].row;
    assert FrameOk(accepted, log, c, k.cursor, k.down[0]);
    RowFollows(accepted, d, row);
    RowWalks(d, row);
    Followed(log, accepted, issued, c, k, HandleFrame(d, RowDown(row)));
  }

  lemma AckKeeps(log: Log, accepted: seq<LogRow>, issued: map<string, (string, Update)>, c: string, k: Client)
    requires ClientOk(log, accepted, issued, c, k) && k.down != [] && (k.phase.Backfill? || k.phase.Steady?)
    requires AcceptedOk(accepted, issued) && (forall i :: 0 <= i < |accepted| ==> accepted[i].serial == i + 1)
    requires k.down[0].Ack? && k.landing.None?
    ensures ClientOk(log, accepted, issued, c, HandleFrame(k.(down := k.down[1..]), k.down[0]))
  {
    var f := k.down[0];
    Popped(log, accepted, issued, c, k);
    OwnRowHeld(accepted, issued, c, k.doc, f.serial);
    WalkKeeps(accepted, k, accepted[f.serial - 1]);
    AckWalks(k.(down := k.down[1..]), f.batch, f.serial);
    Followed(log, accepted, issued, c, k, HandleFrame(k.(down := k.down[1..]), f));
  }

  lemma OwnRowHeld(accepted: seq<LogRow>, issued: map<string, (string, Update)>, c: string, doc: set<OpId>, serial: nat)
    requires AcceptedOk(accepted, issued) && OwnHeld(issued, c, doc)
    requires 1 <= serial <= |accepted| && accepted[serial - 1].device == c
    ensures accepted[serial - 1].update.ops <= doc
  {
  }

  lemma HandleKeeps(log: Log, accepted: seq<LogRow>, issued: map<string, (string, Update)>, c: string, k: Client)
    requires ClientOk(log, accepted, issued, c, k) && k.down != [] && (k.phase.Backfill? || k.phase.Steady?)
    requires LogOk(log, accepted) && AcceptedOk(accepted, issued) && k.landing.None?
    ensures ClientOk(log, accepted, issued, c, HandleFrame(k.(down := k.down[1..]), k.down[0]))
  {
    var f := k.down[0];
    if f.RowDown? {
      RowKeeps(log, accepted, issued, c, k);
    } else if f.Ack? {
      AckKeeps(log, accepted, issued, c, k);
    } else {
      if f.ErrorDown? {
        DropBatchKeeps(k.pending, f.batch);
      }
      Followed(log, accepted, issued, c, k, HandleFrame(k.(down := k.down[1..]), f));
    }
  }

  /** The end of a backfill that owes something finds it all held. */
  lemma DoneHolds(log: Log, accepted: seq<LogRow>, issued: map<string, (string, Update)>, c: string, k: Client)
    requires ClientOk(log, accepted, issued, c, k) && k.down != [] && (k.phase.Backfill? || k.phase.Steady?)
    requires k.down[0].RowsDone? && k.landing.None? && k.down[0].owed.Some?
    ensures Covers(accepted, k.down[0].head, k.doc)
  {
    var f := k.down[0];
    Popped(log, accepted, issued, c, k);
    forall i | 0 <= i < f.head
      ensures accepted[i].update.ops <= k.doc
    {
      if i >= f.after {
        assert accepted[i].update.ops <= f.owed.value;
      }
    }
  }

  lemma DoneKeeps(log: Log, accepted: seq<LogRow>, issued: map<string, (string, Update)>, c: string, k: Client)
    requires ClientOk(log, accepted, issued, c, k) && k.down != [] && (k.phase.Backfill? || k.phase.Steady?)
    requires k.down[0].RowsDone? && k.landing.None?
    ensures ClientOk(log, accepted, issued, c, OnRowsDone(k.(down := k.down[1..]), k.down[0]))
  {
    var f := k.down[0];
    Popped(log, accepted, issued, c, k);
    if f.owed.Some? {
      DoneHolds(log, accepted, issued, c, k);
    }
    var d := k.(down := k.down[1..], caught := if f.owed.Some? then f.head else k.caught,
                whole := k.whole || f.owed.Some?);
    assert Inflow(d) == k.down[1..] && k.doc + Gained(f) == k.doc;
    assert ClientOk(log, accepted, issued, c, d);
    if k.phase.Backfill? {
      RepairKeeps(log, accepted, issued, c, d.(resumed := true, phase := Steady));
    }
  }

  /** Anything that arrives before the state frame is dropped. */
  lemma SkipKeeps(log: Log, accepted: seq<LogRow>, issued: map<string, (string, Update)>, c: string, k: Client)
    requires ClientOk(log, accepted, issued, c, k) && k.phase.Greeting? && k.down != []
    ensures ClientOk(log, accepted, issued, c, k.(down := k.down[1..]))
  {
    Popped(log, accepted, issued, c, k);
    OwesNothing(Reached(k), k.down[1..]);
  }

  lemma SteadyKeeps(log: Log, accepted: seq<LogRow>, issued: map<string, (string, Update)>, c: string, k: Client)
    requires ClientOk(log, accepted, issued, c, k) && k.down != [] && k.landing.None? && k.phase.Steady?
    requires LogOk(log, accepted) && AcceptedOk(accepted, issued)
    ensures ClientOk(log, accepted, issued, c, Receive(k))
  {
    if k.down[0].RowsDone? { DoneKeeps(log, accepted, issued, c, k); } else {
      var h := HandleFrame(k.(down := k.down[1..]), k.down[0]);
      HandleKeeps(log, accepted, issued, c, k);
      if !k.down[0].RowDown? {
        RepairKeeps(log, accepted, issued, c, h);
      }
    }
  }

  /** A frame set aside during a fetch is still to come. */
  lemma BufferKeeps(log: Log, accepted: seq<LogRow>, issued: map<string, (string, Update)>, c: string, k: Client)
    requires ClientOk(log, accepted, issued, c, k) && k.down != [] && k.phase.Fetching?
    ensures ClientOk(log, accepted, issued, c, Receive(k))
  {
    assert k.phase.buffered + k.down == (k.phase.buffered + [k.down[0]]) + k.down[1..];
    assert Inflow(Receive(k)) == Inflow(k) && Reached(Receive(k)) == Reached(k);
  }

  lemma ReceiveKeeps(log: Log, accepted: seq<LogRow>, issued: map<string, (string, Update)>, c: string, k: Client)
    requires ClientOk(log, accepted, issued, c, k) && k.down != [] && k.landing.None?
    requires LogOk(log, accepted) && AcceptedOk(accepted, issued)
    ensures ClientOk(log, accepted, issued, c, Receive(k))
  {
    match k.phase
    case Offline =>
    case Greeting =>
      if k.down[0].State? {
        StateKeeps(log, accepted, issued, c, k);
      } else {
        SkipKeeps(log, accepted, issued, c, k);
      }
    case Fetching(state, buffered, got) => BufferKeeps(log, accepted, issued, c, k);
    case Backfill =>
      if k.down[0].RowsDone? { DoneKeeps(log, accepted, issued, c, k); } else { HandleKeeps(log, accepted, issued, c, k); }
    case Steady => SteadyKeeps(log, accepted, issued, c, k);
  }

  /** What was noted or drafted stays good as the document grows. */
  lemma CapturesWiden(accepted: seq<LogRow>, log: Log, k: Client, s: Client)
    requires CapturesOk(accepted, log, k) && k.doc <= s.doc && s.notes == k.notes && s.drafts == k.drafts
    ensures CapturesOk(accepted, log, s)
  {
  }

  /** The row is imported: now the document has all that the cursor claims. */
  lemma LandKeeps(log: Log, accepted: seq<LogRow>, issued: map<string, (string, Update)>, c: string, k: Client)
    requires ClientOk(log, accepted, issued, c, k) && k.landing.Some?
    ensures ClientOk(log, accepted, issued, c, ImportRow(k))
  {
    var s := Save(k.(doc := k.doc + k.landing.value.update.ops, landing := None));
    assert Inflow(s) == Inflow(k) && Reached(s) == Reached(k);
    assert Covers(accepted, s.cursor, s.doc);
    CoversGrow(accepted, accepted, k.caught, k.doc, s.doc);
    CapturesWiden(accepted, log, k, s);
    assert ClientOk(log, accepted, issued, c, s);
    if s.phase.Steady? {
      RepairKeeps(log, accepted, issued, c, s);
    }
  }

  lemma ImportKeeps(log: Log, accepted: seq<LogRow>, issued: map<string, (string, Update)>, c: string, k: Client)
    requires ClientOk(log, accepted, issued, c, k) && k.phase.Fetching? && k.phase.got.Some?
    ensures ClientOk(log, accepted, issued, c, Import(k))
  {
    var s := Import(k);
    CapturesWiden(accepted, log, k, s);
    CoversGrow(accepted, accepted, k.caught, k.doc, s.doc);
    CoversGrow(accepted, accepted, k.cursor, k.phase.got.value.blob.ops, s.doc);
    assert Inflow(s) == Inflow(k);
    WholeMore(Reached(k), Reached(s), Inflow(k));
  }

  lemma FetchKeeps(w: World, c: string)
    requires Inv(w) && c in w.clients && w.clients[c].phase.Fetching?
    ensures Inv(Do(w, Fetch(c)))
  {
    var k := w.clients[c];
    if w.log.checkpoint.Some? {
      assert k.cursor <= w.log.floor;
      var s := k.(phase := k.phase.(got := w.log.checkpoint));
      assert Inflow(s) == Inflow(k);
      OneClient(w, c, s);
    } else {
      HangupKeeps(w.log, w.accepted, w.issued, c, k);
      OneClient(w, c, Hangup(k));
    }
  }

  lemma HangupKeeps(log: Log, accepted: seq<LogRow>, issued: map<string, (string, Update)>, c: string, k: Client)
    requires ClientOk(log, accepted, issued, c, k) && k.landing.None?
    ensures ClientOk(log, accepted, issued, c, Hangup(k))
  {
  }

  /** The writer holds its new batch; everyone else only learns of one more issued batch. */
  lemma IssueKeeps(w: World, c: string, batch: string, update: Update, d: string, k: Client)
    requires Inv(w) && batch !in w.issued && ClientOk(w.log, w.accepted, w.issued, d, k)
    requires d == c ==> update.ops <= k.doc
    ensures ClientOk(w.log, w.accepted, w.issued[batch := (c, update)], d, k)
  {
  }

  lemma WiderDoc(log: Log, accepted: seq<LogRow>, issued: map<string, (string, Update)>, c: string, k: Client, ops: set<OpId>)
    requires ClientOk(log, accepted, issued, c, k)
    ensures ClientOk(log, accepted, issued, c, k.(doc := k.doc + ops))
  {
    var s := k.(doc := k.doc + ops);
    assert Inflow(s) == Inflow(k);
    WholeMore(Reached(k), Reached(s), Inflow(k));
    CoversGrow(accepted, accepted, k.caught, k.doc, s.doc);
    CapturesWiden(accepted, log, k, s);
  }

  lemma MorePending(log: Log, accepted: seq<LogRow>, issued: map<string, (string, Update)>, c: string, k: Client, p: Pending)
    requires ClientOk(log, accepted, issued, c, k) && Issued(issued, c, p.batch, p.update)
    ensures ClientOk(log, accepted, issued, c, k.(pending := k.pending + [p]))
  {
  }

  lemma WriteKeeps(w: World, c: string, batch: string, update: Update)
    requires Inv(w) && c in w.clients && batch !in w.issued
    ensures Inv(Do(w, Write(c, batch, update)))
  {
    var issued := w.issued[batch := (c, update)];
    var n := Do(w, Write(c, batch, update));
    forall d | d in n.clients
      ensures ClientOk(n.log, n.accepted, n.issued, d, n.clients[d])
    {
      var k := w.clients[d];
      if d == c {
        var wide := k.(doc := k.doc + update.ops);
        WiderDoc(w.log, w.accepted, w.issued, c, k, update.ops);
        IssueKeeps(w, c, batch, update, c, wide);
        if update.size <= MAX_PUSH_BYTES {
          MorePending(w.log, w.accepted, issued, c, wide, Pending(batch, update));
        }
      } else {
        IssueKeeps(w, c, batch, update, d, k);
      }
    }
    WriteServerOk(w, c, batch, update);
  }

  lemma WriteServerOk(w: World, c: string, batch: string, update: Update)
    requires ServerOk(w) && batch !in w.issued
    ensures ServerOk(w.(issued := w.issued[batch := (c, update)]))
  {
  }

  lemma DialKeeps(log: Log, accepted: seq<LogRow>, issued: map<string, (string, Update)>, c: string, k: Client)
    requires ClientOk(log, accepted, issued, c, k) && k.phase.Offline?
    ensures ClientOk(log, accepted, issued, c, k.(phase := Greeting, up := [Hello], down := []))
  {
  }

  lemma NudgeKeeps(log: Log, accepted: seq<LogRow>, issued: map<string, (string, Update)>, c: string, k: Client)
    requires ClientOk(log, accepted, issued, c, k) && k.phase.Steady? && k.landing.None?
    ensures ClientOk(log, accepted, issued, c, k.(up := k.up + Pushes(k.pending)))
  {
  }

  predicate GoesThrough(log: Log, post: Post) {
    Commit(log, post.covered, post.frontier, post.blob).outcome.Committed?
  }

  /** The commit goes through and replaces a checkpoint that claims just as many rows. */
  predicate AtTheFloor(log: Log, post: Post) {
    log.checkpoint.Some? && post.covered == log.floor && GoesThrough(log, post)
  }

  /** If a row was landing when the cursor was noted, and the cursor claims it, the document exported later has it. */
  predicate RowLanded(post: Post) {
    post.landing.Some? && post.landing.value.serial <= post.covered ==> post.landing.value.update.ops <= post.blob.ops
  }

  /** The two branches that matter: a claim no larger than the current checkpoint's, and a row then landing. */
  ghost predicate Harmless(accepted: seq<LogRow>, log: Log, post: Post) {
    GoesThrough(log, post) ==>
      if AtTheFloor(log, post) then Covers(accepted, log.floor, post.blob.ops) else RowLanded(post)
  }

  /** Past the floor, a post has the rows it claims exactly when it has the one that was landing. */
  lemma HoldsItsClaimIff(w: World, post: Post)
    requires Inv(w) && post in w.posts && GoesThrough(w.log, post) && !AtTheFloor(w.log, post)
    ensures Covers(w.accepted, post.covered, post.blob.ops) <==> RowLanded(post)
  {
    assert PostOk(w.accepted, w.log, post);
    assert CoversBut(w.accepted, post.covered, post.blob.ops, post.landing);
    if RowLanded(post) {
      forall i | 0 <= i < post.covered
        ensures w.accepted[i].update.ops <= post.blob.ops
      {
        assert w.accepted[i].serial == i + 1;
      }
    }
  }

  lemma CommittedCovers(w: World, post: Post)
    requires Inv(w) && post in w.posts && GoesThrough(w.log, post) && Harmless(w.accepted, w.log, post)
    ensures Covers(w.accepted, post.covered, post.blob.ops) && FrontierOk(w.accepted, post.covered, post.frontier)
  {
    assert PostOk(w.accepted, w.log, post);
    if !AtTheFloor(w.log, post) {
      HoldsItsClaimIff(w, post);
    }
    if post.frontier.Some? && post.covered > 0 {
      CoversGrow(w.accepted, w.accepted, post.covered, post.blob.ops, post.frontier.value);
    }
  }

  lemma CommittedCheckpointOk(log: Log, accepted: seq<LogRow>, post: Post)
    requires LogOk(log, accepted) && CheckpointOk(accepted, log)
    requires GoesThrough(log, post) ==> Covers(accepted, post.covered, post.blob.ops) && FrontierOk(accepted, post.covered, post.frontier)
    ensures var n := Commit(log, post.covered, post.frontier, post.blob).log;
            LogOk(n, accepted) && CheckpointOk(accepted, n) && Later(log, accepted, n, accepted)
  {
    CommitEffect(log, accepted, post.covered, post.frontier, post.blob);
  }

  lemma CommitKeeps(w: World, post: Post)
    requires Inv(w) && post in w.posts && Harmless(w.accepted, w.log, post)
    ensures Inv(Do(w, CommitPost(post)))
  {
    if GoesThrough(w.log, post) {
      CommittedCovers(w, post);
    }
    CommittedCheckpointOk(w.log, w.accepted, post);
    LogReplaced(w, Do(w, CommitPost(post)).log);
  }

  /** Posts and clients learn nothing of a new log. */
  lemma LogReplaced(w: World, log: Log)
    requires Inv(w) && LogOk(log, w.accepted) && CheckpointOk(w.accepted, log) && Later(w.log, w.accepted, log, w.accepted)
    ensures Inv(w.(log := log))
  {
    forall p | p in w.posts
      ensures PostOk(w.accepted, log, p)
    {
      PostGrows(w.log, w.accepted, log, w.accepted, p);
    }
    forall d | d in w.clients
      ensures ClientOk(log, w.accepted, w.issued, d, w.clients[d])
    {
      ClientGrows(w.log, w.accepted, log, w.accepted, w.issued, d, w.clients[d]);
    }
  }

  lemma NoteKeeps(log: Log, accepted: seq<LogRow>, issued: map<string, (string, Update)>, c: string, k: Client)
    requires ClientOk(log, accepted, issued, c, k)
    ensures ClientOk(log, accepted, issued, c, k.(notes := k.notes + {Noted(k.cursor, k.landing)}))
  {
    var s := k.(notes := k.notes + {Noted(k.cursor, k.landing)});
    assert Inflow(s) == Inflow(k) && Reached(s) == Reached(k);
    assert NoteOk(accepted, log, Noted(k.cursor, k.landing), k.doc);
  }

  lemma ExportKeeps(log: Log, accepted: seq<LogRow>, issued: map<string, (string, Update)>, c: string, k: Client, note: Noted, size: nat)
    requires ClientOk(log, accepted, issued, c, k) && note in k.notes
    ensures ClientOk(log, accepted, issued, c, k.(drafts := k.drafts + {Draft(note, Update(k.doc, size))}))
  {
    var s := k.(drafts := k.drafts + {Draft(note, Update(k.doc, size))});
    assert Inflow(s) == Inflow(k) && Reached(s) == Reached(k);
  }

  lemma CaptureKeeps(w: World, c: string, draft: Draft)
    requires Inv(w) && c in w.clients
    ensures Inv(Do(w, Capture(c, draft)))
  {
    var k := w.clients[c];
    assert ClientOk(w.log, w.accepted, w.issued, c, k);
    if draft in k.drafts {
      assert PostOk(w.accepted, w.log, Post(draft.note.cursor, Some(k.doc), draft.blob, draft.note.landing));
    }
  }

  lemma SeedKeeps(w: World, frontier: Frontier, blob: Update)
    requires Inv(w)
    ensures Inv(Do(w, SeedRoom(frontier, blob)))
  {
    assert PostOk(w.accepted, w.log, Post(0, frontier, blob, None));
  }

  // ── every run ─────────────────────────────────────────────────────────────

  /** No commit that goes through brings less than it claims, as far as the two branches can tell. */
  ghost predicate GuardedStep(w: World, step: Step) {
    step.CommitPost? && step.post in w.posts ==> Harmless(w.accepted, w.log, step.post)
  }

  ghost predicate Guarded(devices: set<string>, steps: seq<Step>)
    decreases |steps|
  {
    steps != [] ==>
      Guarded(devices, steps[..|steps| - 1]) && GuardedStep(Run(devices, steps[..|steps| - 1]), steps[|steps| - 1])
  }

  lemma StepKeeps(w: World, step: Step)
    requires Inv(w) && GuardedStep(w, step)
    ensures Inv(Do(w, step))
  {
    match step
    case CommitPost(post) => if post in w.posts { CommitKeeps(w, post); }
    case SeedRoom(frontier, blob) => SeedKeeps(w, frontier, blob);
    case Capture(c, draft) => if c in w.clients { CaptureKeeps(w, c, draft); }
    case Write(c, batch, update) => if c in w.clients && batch !in w.issued { WriteKeeps(w, c, batch, update); }
    case Serve(c) =>
      if c in w.clients && !w.clients[c].phase.Offline? && w.clients[c].up != [] {
        if w.clients[c].up[0].PushUp? {
          PushKeeps(w, c, w.clients[c].up[0].batch, w.clients[c].up[0].update);
        } else {
          AnswersKeep(w, c);
        }
      }
    case Fetch(c) => if c in w.clients && w.clients[c].phase.Fetching? { FetchKeeps(w, c); }
    case _ =>
      if step.c in w.clients {
        ClientStepKeeps(w.log, w.accepted, w.issued, step.c, w.clients[step.c], step);
        OneClient(w, step.c, ClientStep(w.clients[step.c], step));
      }
  }

  lemma ClientStepKeeps(log: Log, accepted: seq<LogRow>, issued: map<string, (string, Update)>, c: string, k: Client, step: Step)
    requires ClientOk(log, accepted, issued, c, k) && LogOk(log, accepted) && AcceptedOk(accepted, issued)
    ensures ClientOk(log, accepted, issued, c, ClientStep(k, step))
  {
    match step
    case Dial(_) => if k.phase.Offline? { DialKeeps(log, accepted, issued, c, k); }
    case Deliver(_) => if k.down != [] && k.landing.None? { ReceiveKeeps(log, accepted, issued, c, k); }
    case Land(_) => if k.landing.Some? { LandKeeps(log, accepted, issued, c, k); }
    case ImportFetched(_) => if k.phase.Fetching? && k.phase.got.Some? { ImportKeeps(log, accepted, issued, c, k); }
    case Cut(_) => if k.landing.None? { HangupKeeps(log, accepted, issued, c, k); }
    case Nudge(_) => if k.phase.Steady? && k.landing.None? { NudgeKeeps(log, accepted, issued, c, k); }
    case Note(_) => NoteKeeps(log, accepted, issued, c, k);
    case Export(_, note, size) => if note in k.notes { ExportKeeps(log, accepted, issued, c, k, note, size); }
    case _ =>
  }

  lemma {:induction false} RunsKeepInv(devices: set<string>, steps: seq<Step>)
    requires Guarded(devices, steps)
    ensures Inv(Run(devices, steps))
    decreases |steps|
  {
    if steps != [] {
      RunsKeepInv(devices, steps[..|steps| - 1]);
      StepKeeps(Run(devices, steps[..|steps| - 1]), steps[|steps| - 1]);
    }
  }

  /** Throughout the run, the current checkpoint holds every row it claims. */
  ghost predicate ClaimsHold(devices: set<string>, steps: seq<Step>)
    decreases |steps|
  {
    && CheckpointOk(Run(devices, steps).accepted, Run(devices, steps).log)
    && (steps != [] ==> ClaimsHold(devices, steps[..|steps| - 1]))
  }

  lemma BadCommitLies(w: World, post: Post)
    requires Inv(w) && post in w.posts && !Harmless(w.accepted, w.log, post)
    ensures !CheckpointOk(w.accepted, Do(w, CommitPost(post)).log)
  {
    if !AtTheFloor(w.log, post) {
      HoldsItsClaimIff(w, post);
    }
  }

  lemma ClaimHoldsIff(w: World, step: Step)
    requires Inv(w)
    ensures CheckpointOk(Do(w, step).accepted, Do(w, step).log) <==> GuardedStep(w, step)
  {
    if GuardedStep(w, step) {
      StepKeeps(w, step);
    } else {
      BadCommitLies(w, step.post);
    }
  }

  /**
   Exactly which runs keep the room sound, whoever captures what and when: those in which each commit at
   the floor brings the rows it claims and each other commit brings the row that was landing when its
   cursor was noted. No other commit can go wrong.
   */
  lemma {:induction false} ClaimsHoldIff(devices: set<string>, steps: seq<Step>)
    ensures ClaimsHold(devices, steps) <==> Guarded(devices, steps)
    decreases |steps|
  {
    if steps == [] {
      StartClaims(devices);
    } else {
      var front := steps[..|steps| - 1];
      ClaimsHoldIff(devices, front);
      if Guarded(devices, front) {
        RunsKeepInv(devices, front);
        ClaimHoldsIff(Run(devices, front), steps[|steps| - 1]);
      }
    }
  }

  lemma StartClaims(devices: set<string>)
    ensures ClaimsHold(devices, []) && Guarded(devices, [])
  {
  }

  // ── two ways to be guarded ────────────────────────────────────────────────

  /** The server's check: a commit that goes through moves the floor, unless it is the first. */
  ghost predicate StrictStep(w: World, step: Step) {
    step.CommitPost? && step.post in w.posts
    && Commit(w.log, step.post.covered, step.post.frontier, step.post.blob).outcome.Committed? && w.log.checkpoint.Some?
    ==> w.log.floor < step.post.covered
  }

  ghost predicate Strict(devices: set<string>, steps: seq<Step>)
    decreases |steps|
  {
    steps != [] ==>
      Strict(devices, steps[..|steps| - 1]) && StrictStep(Run(devices, steps[..|steps| - 1]), steps[|steps| - 1])
  }

  /** What one step does to the captures under way. */
  ghost predicate CapturesFollow(k: Client, step: Step, s: Client) {
    && k.doc <= s.doc
    && (s.notes == k.notes || (step.Note? && s.notes == k.notes + {Noted(k.cursor, k.landing)}))
    && (s.drafts == k.drafts
        || (step.Export? && step.note in k.notes && s.drafts == k.drafts + {Draft(step.note, Update(k.doc, step.size))}))
  }

  ghost predicate SameCaptures(k: Client, s: Client) {
    s.doc == k.doc && s.notes == k.notes && s.drafts == k.drafts
  }

  lemma DoneKeepsCaptures(k: Client, f: Down)
    requires f.RowsDone?
    ensures SameCaptures(k, OnRowsDone(k, f))
  {
  }

  lemma HandleKeepsCaptures(k: Client, f: Down)
    ensures SameCaptures(k, HandleFrame(k, f))
  {
    match f {
      case RowDown(row) => RowWalks(k, row);
      case Ack(batch, serial) => AckWalks(k, batch, serial);
      case ErrorDown(code, batch) => ErrorsRetire(k, code, batch);
      case State(_) =>
      case RowsDone(_, _, _) =>
    }
  }

  lemma RepairKeepsCaptures(k: Client)
    ensures SameCaptures(k, RepairGap(k))
  {
  }

  lemma ReceiveKeepsCaptures(k: Client)
    requires k.down != []
    ensures SameCaptures(k, Receive(k))
  {
    var f, d := k.down[0], k.(down := k.down[1..]);
    if k.phase.Backfill? || k.phase.Steady? {
      if f.RowsDone? { DoneKeepsCaptures(d, f); } else {
        HandleKeepsCaptures(d, f);
        RepairKeepsCaptures(HandleFrame(d, f));
      }
    }
  }

  lemma ClientCapturesFollow(k: Client, step: Step)
    ensures CapturesFollow(k, step, ClientStep(k, step))
  {
    if step.Deliver? && k.down != [] && k.landing.None? {
      ReceiveKeepsCaptures(k);
    }
  }

  lemma CapturesStay(w: World, step: Step, c: string)
    requires c in w.clients
    ensures c in Do(w, step).clients && CapturesFollow(w.clients[c], step, Do(w, step).clients[c])
    ensures Do(w, step).clients[c].notes == w.clients[c].notes || step.c == c
  {
    if step.CommitPost? || step.SeedRoom? {
    } else if step.Write? || step.Serve? || step.Fetch? || step.Capture? {
    } else {
      ClientCapturesFollow(w.clients[c], step);
    }
  }

  /** Half of the client's discipline: no cursor is noted while a row is landing. */
  ghost predicate BetweenRowsStep(w: World, step: Step) {
    step.Note? && step.c in w.clients ==> w.clients[step.c].landing.None?
  }

  ghost predicate BetweenRows(devices: set<string>, steps: seq<Step>)
    decreases |steps|
  {
    steps != [] ==>
      BetweenRows(devices, steps[..|steps| - 1]) && BetweenRowsStep(Run(devices, steps[..|steps| - 1]), steps[|steps| - 1])
  }

  ghost predicate NotedBetweenRows(k: Client) {
    (forall n :: n in k.notes ==> n.landing.None?) && forall d :: d in k.drafts ==> d.note.landing.None?
  }

  ghost predicate NothingNotedLanding(w: World) {
    && (forall p :: p in w.posts ==> p.landing.None?)
    && forall c :: c in w.clients ==> NotedBetweenRows(w.clients[c])
  }

  lemma BetweenRowsKeeps(w: World, step: Step)
    requires NothingNotedLanding(w) && BetweenRowsStep(w, step)
    ensures NothingNotedLanding(Do(w, step))
  {
    var n := Do(w, step);
    forall c | c in n.clients
      ensures NotedBetweenRows(n.clients[c])
    {
      ClientsStay(w, step);
      CapturesStay(w, step, c);
    }
    if step.Capture? && step.c in w.clients {
      assert NotedBetweenRows(w.clients[step.c]);
    }
    if !step.Capture? && !step.SeedRoom? {
      PostsStay(w, step);
    }
  }

  lemma ClientsStay(w: World, step: Step)
    ensures Do(w, step).clients.Keys == w.clients.Keys
  {
  }

  /**
   A server that refuses commits at the floor is safe from premature captures; it needs of its clients
   only that none notes its cursor while a row is landing.
   */
  lemma {:induction false} StrictIsGuarded(devices: set<string>, steps: seq<Step>)
    requires Strict(devices, steps) && BetweenRows(devices, steps)
    ensures Guarded(devices, steps) && NothingNotedLanding(Run(devices, steps))
    decreases |steps|
  {
    if steps != [] {
      StrictIsGuarded(devices, steps[..|steps| - 1]);
      BetweenRowsKeeps(Run(devices, steps[..|steps| - 1]), steps[|steps| - 1]);
    }
  }

  /**
   The client's whole discipline: no cursor is noted between raising it to a checkpoint's number and
   importing that checkpoint, nor between walking it to a row's and importing that row.
   */
  ghost predicate CarefulStep(w: World, step: Step) {
    step.Note? && step.c in w.clients ==> !w.clients[step.c].raised && w.clients[step.c].landing.None?
  }

  ghost predicate Careful(devices: set<string>, steps: seq<Step>)
    decreases |steps|
  {
    steps != [] ==>
      Careful(devices, steps[..|steps| - 1]) && CarefulStep(Run(devices, steps[..|steps| - 1]), steps[|steps| - 1])
  }

  ghost predicate NotedHeld(accepted: seq<LogRow>, k: Client) {
    && (forall n :: n in k.notes ==> Covers(accepted, n.cursor, k.doc))
    && forall d :: d in k.drafts ==> Covers(accepted, d.note.cursor, d.blob.ops)
  }

  ghost predicate CapturesCover(w: World) {
    && (forall p :: p in w.posts ==> Covers(w.accepted, p.covered, p.blob.ops))
    && forall c :: c in w.clients ==> NotedHeld(w.accepted, w.clients[c])
  }

  lemma AcceptedGrows(w: World, step: Step)
    requires ServerOk(w)
    ensures w.accepted <= Do(w, step).accepted
  {
    if step.Serve? && step.c in w.clients && w.clients[step.c].up != [] && w.clients[step.c].up[0].PushUp? {
      var u := w.clients[step.c].up[0];
      LogGrows(w, step.c, u.batch, u.update);
    }
  }

  lemma PostsStay(w: World, step: Step)
    requires !step.Capture? && !step.SeedRoom?
    ensures Do(w, step).posts == w.posts
  {
  }

  lemma NotedHeldGrows(w: World, step: Step, c: string)
    requires Inv(w) && CarefulStep(w, step) && c in w.clients && NotedHeld(w.accepted, w.clients[c])
    ensures c in Do(w, step).clients && NotedHeld(Do(w, step).accepted, Do(w, step).clients[c])
  {
    var n := Do(w, step);
    AcceptedGrows(w, step);
    CapturesStay(w, step, c);
    assert ClientOk(w.log, w.accepted, w.issued, c, w.clients[c]);
    forall note | note in n.clients[c].notes
      ensures Covers(n.accepted, note.cursor, n.clients[c].doc)
    {
      CoversGrow(w.accepted, n.accepted, note.cursor, w.clients[c].doc, n.clients[c].doc);
    }
    forall d | d in n.clients[c].drafts
      ensures Covers(n.accepted, d.note.cursor, d.blob.ops)
    {
      CoversGrow(w.accepted, n.accepted, d.note.cursor, d.blob.ops, d.blob.ops);
    }
  }

  /** A new post is one of the client's drafts; the others stay. */
  lemma PostsHeldGrow(w: World, step: Step, p: Post)
    requires ServerOk(w) && CapturesCover(w) && p in Do(w, step).posts
    ensures Covers(Do(w, step).accepted, p.covered, p.blob.ops)
  {
    AcceptedGrows(w, step);
    if p in w.posts {
      CoversGrow(w.accepted, Do(w, step).accepted, p.covered, p.blob.ops, p.blob.ops);
    } else if step.Capture? && step.c in w.clients {
      assert NotedHeld(w.accepted, w.clients[step.c]);
    } else if !step.SeedRoom? {
      PostsStay(w, step);
    }
  }

  lemma CarefulCovers(w: World, step: Step)
    requires Inv(w) && CapturesCover(w) && CarefulStep(w, step)
    ensures CapturesCover(Do(w, step))
  {
    var n := Do(w, step);
    ClientsStay(w, step);
    forall c | c in n.clients
      ensures NotedHeld(n.accepted, n.clients[c])
    {
      NotedHeldGrows(w, step, c);
    }
    forall p | p in n.posts
      ensures Covers(n.accepted, p.covered, p.blob.ops)
    {
      PostsHeldGrow(w, step, p);
    }
  }

  lemma CoveringIsHarmless(w: World, post: Post)
    requires Inv(w) && post in w.posts && Covers(w.accepted, post.covered, post.blob.ops)
    ensures Harmless(w.accepted, w.log, post)
  {
    assert PostOk(w.accepted, w.log, post);
  }

  /** Clients that keep the discipline are safe with the server as it is. */
  lemma {:induction false} CarefulIsGuarded(devices: set<string>, steps: seq<Step>)
    requires Careful(devices, steps)
    ensures Guarded(devices, steps) && CapturesCover(Run(devices, steps))
    decreases |steps|
  {
    if steps != [] {
      var front, last := steps[..|steps| - 1], steps[|steps| - 1];
      CarefulIsGuarded(devices, front);
      RunsKeepInv(devices, front);
      CarefulCovers(Run(devices, front), last);
      if last.CommitPost? && last.post in Run(devices, front).posts {
        CoveringIsHarmless(Run(devices, front), last.post);
      }
    }
  }

  // ── what every run guarantees ─────────────────────────────────────────────

  /** Everything a fresh reader can still get from the room. */
  ghost function HeldBy(log: Log): set<OpId> {
    (if log.checkpoint.Some? then log.checkpoint.value.blob.ops else {})
    + StoredOps(log)
  }

  function StoredOps(log: Log): set<OpId> {
    set i, op | 0 <= i < |log.rows| && op in log.rows[i].update.ops :: op
  }

  /** No accepted update is lost to the room. */
  ghost predicate NothingLost(w: World) {
    forall i :: 0 <= i < |w.accepted| ==> w.accepted[i].update.ops <= HeldBy(w.log)
  }

  /**
   What a commit costs, wherever it lands: an accepted update is lost to the room exactly when the new
   blob lacks something of the rows it replaces that no row left in the table carries as well.
   */
  lemma CommitLosesNothingIff(w: World, post: Post)
    requires Inv(w) && post in w.posts && GoesThrough(w.log, post)
    ensures var n := Do(w, CommitPost(post));
            NothingLost(n)
            <==> forall i :: 0 <= i < post.covered ==> w.accepted[i].update.ops <= post.blob.ops + StoredOps(n.log)
  {
    var n := Do(w, CommitPost(post));
    CommitEffect(w.log, w.accepted, post.covered, post.frontier, post.blob);
    assert HeldBy(n.log) == post.blob.ops + StoredOps(n.log);
    forall i | post.covered <= i < |w.accepted|
      ensures w.accepted[i].update.ops <= StoredOps(n.log)
    {
      assert n.log.rows[i - post.covered] == w.accepted[i];
    }
  }

  /** Whatever is pruned, no accepted update is ever lost to the room. */
  lemma NothingAcceptedIsLost(devices: set<string>, steps: seq<Step>)
    requires Guarded(devices, steps)
    ensures NothingLost(Run(devices, steps))
  {
    RunsKeepInv(devices, steps);
    var w := Run(devices, steps);
    forall i | 0 <= i < |w.accepted|
      ensures w.accepted[i].update.ops <= HeldBy(w.log)
    {
      AcceptedIsHeld(w.log, w.accepted, i);
    }
  }

  /**
   In particular, nothing is lost by a server that commits only past the floor as long as no client notes
   its cursor while a row is landing, however early it captures otherwise.
   */
  lemma StrictRunsLoseNothing(devices: set<string>, steps: seq<Step>)
    requires Strict(devices, steps) && BetweenRows(devices, steps)
    ensures NothingLost(Run(devices, steps))
  {
    StrictIsGuarded(devices, steps);
    NothingAcceptedIsLost(devices, steps);
  }

  lemma AcceptedIsHeld(log: Log, accepted: seq<LogRow>, i: nat)
    requires LogOk(log, accepted) && CheckpointOk(accepted, log) && i < |accepted|
    ensures accepted[i].update.ops <= HeldBy(log)
  {
  }

  lemma ClientIsOk(w: World, c: string)
    requires Inv(w) && c in w.clients
    ensures ClientOk(w.log, w.accepted, w.issued, c, w.clients[c]) && LogOk(w.log, w.accepted) && AcceptedOk(w.accepted, w.issued)
  {
  }

  lemma HonestClient(log: Log, accepted: seq<LogRow>, issued: map<string, (string, Update)>, c: string, k: Client)
    requires ClientOk(log, accepted, issued, c, k)
    ensures !k.raised ==> Covers(accepted, k.cursor, Reached(k))
    ensures !k.raised && k.landing.None? ==> Covers(accepted, k.cursor, k.doc)
    ensures Covers(accepted, k.saved.1, k.saved.0)
  {
    if !k.raised {
      assert CoversBut(accepted, k.cursor, k.doc, k.landing);
    }
  }

  /**
   In every run a cursor claims only rows the document holds, but for the row that is landing, and except
   between raising it to a checkpoint and importing that checkpoint; the persisted pair has no exception.
   */
  lemma CursorsAreHonest(devices: set<string>, steps: seq<Step>, c: string)
    requires Guarded(devices, steps) && c in Run(devices, steps).clients
    ensures var w := Run(devices, steps);
            var k := w.clients[c];
            && (!k.raised ==> Covers(w.accepted, k.cursor, Reached(k)))
            && (!k.raised && k.landing.None? ==> Covers(w.accepted, k.cursor, k.doc))
            && Covers(w.accepted, k.saved.1, k.saved.0)
  {
    RunsKeepInv(devices, steps);
    var w := Run(devices, steps);
    ClientIsOk(w, c);
    HonestClient(w.log, w.accepted, w.issued, c, w.clients[c]);
  }

  /**
   Catch-up completeness: in every run, when the end of a backfill is handled whose cursor was not
   behind the floor, the document holds every update accepted up to the head it reports, whether or
   not own rows were left out and whatever was pushed, retried or pruned meanwhile.
   */
  lemma CatchUpCompletes(devices: set<string>, steps: seq<Step>, c: string)
    requires Guarded(devices, steps) && c in Run(devices, steps).clients
    requires var k := Run(devices, steps).clients[c];
             && (k.phase.Backfill? || k.phase.Steady?) && k.landing.None? && k.down != []
             && k.down[0].RowsDone? && k.down[0].owed.Some?
    ensures var w := Run(devices, steps);
            var k := w.clients[c];
            Covers(w.accepted, k.down[0].head, k.doc) && Receive(k).doc == k.doc
  {
    RunsKeepInv(devices, steps);
    var w := Run(devices, steps);
    ClientIsOk(w, c);
    ReceiveKeepsCaptures(w.clients[c]);
    DoneHolds(w.log, w.accepted, w.issued, c, w.clients[c]);
  }

  /** A plan made from the current state never asks for rows from behind the floor. */
  lemma PlanReachesTheFloor(log: Log, accepted: seq<LogRow>, cursor: nat, contained: bool)
    requires LogOk(log, accepted)
    ensures log.floor <= PlanCatchUp(cursor, StateOf(log), contained).after <= log.head
  {
  }

  /** A rows request is answered with every later row exactly when its cursor is not behind the floor. */
  lemma BackfillIsWholeIff(log: Log, accepted: seq<LogRow>, after: nat)
    requires LogOk(log, accepted) && after <= log.head
    ensures RowsAfter(log.rows, after, "") == accepted[after..] <==> log.floor <= after
  {
    RowsAfterIsTail(log.rows, log.floor, after);
    if log.floor <= after {
      assert log.rows[after - log.floor..] == accepted[after..];
    } else {
      assert RowsAfter(log.rows, after, "") == log.rows;
      assert |log.rows| != |accepted[after..]|;
    }
  }

  // ── checkpoints a client skips ────────────────────────────────────────────

  /** A frontier that says anything has all that its checkpoint holds. */
  predicate NamesItsBlob(frontier: Frontier, blob: Update) {
    frontier.Some? && frontier.value != {} ==> blob.ops <= frontier.value
  }

  ghost predicate DraftsHeld(k: Client) {
    forall d :: d in k.drafts ==> d.blob.ops <= k.doc
  }

  ghost predicate FrontiersOk(w: World) {
    && (w.log.checkpoint.Some? ==> NamesItsBlob(w.log.checkpoint.value.frontier, w.log.checkpoint.value.blob))
    && (forall p :: p in w.posts ==> NamesItsBlob(p.frontier, p.blob))
    && forall c :: c in w.clients ==> DraftsHeld(w.clients[c])
  }

  lemma CheckpointStays(w: World, step: Step)
    requires !step.CommitPost?
    ensures Do(w, step).log.checkpoint == w.log.checkpoint
  {
  }

  lemma FrontiersStay(w: World, step: Step)
    requires FrontiersOk(w)
    ensures FrontiersOk(Do(w, step))
  {
    var n := Do(w, step);
    ClientsStay(w, step);
    forall c | c in n.clients
      ensures DraftsHeld(n.clients[c])
    {
      CapturesStay(w, step, c);
    }
    if step.Capture? && step.c in w.clients {
      assert DraftsHeld(w.clients[step.c]);
    }
    if !step.Capture? && !step.SeedRoom? {
      PostsStay(w, step);
    }
    if !step.CommitPost? {
      CheckpointStays(w, step);
    }
  }

  lemma {:induction false} RunsKeepFrontiers(devices: set<string>, steps: seq<Step>)
    ensures FrontiersOk(Run(devices, steps))
    decreases |steps|
  {
    if steps != [] {
      RunsKeepFrontiers(devices, steps[..|steps| - 1]);
      FrontiersStay(Run(devices, steps[..|steps| - 1]), steps[|steps| - 1]);
    }
  }

  /**
   In every run a client told to fetch rows only already holds everything in the checkpoint it skips,
   a seed that covers no row included: an empty or unreadable frontier never lets it skip.
   */
  lemma SkippedCheckpointsAreHeld(devices: set<string>, steps: seq<Step>, doc: set<OpId>, cursor: nat)
    requires Run(devices, steps).log.checkpoint.Some?
    requires var state := StateOf(Run(devices, steps).log);
             PlanCatchUp(cursor, state, ContainsFrontier(doc, state.frontier)).RowsOnly?
    ensures Run(devices, steps).log.checkpoint.value.blob.ops <= doc
  {
    RunsKeepFrontiers(devices, steps);
  }

  // ── reachable worlds ──────────────────────────────────────────────────────

  /** Reached by a run that never commits at the floor. */
  ghost predicate Reachable(devices: set<string>, w: World) {
    exists steps :: Strict(devices, steps) && Run(devices, steps) == w
  }

  lemma ReachStart(devices: set<string>)
    ensures Reachable(devices, Start(devices))
  {
    assert Strict(devices, []) && Run(devices, []) == Start(devices);
  }

  lemma ReachStep(devices: set<string>, w: World, step: Step)
    requires Reachable(devices, w) && StrictStep(w, step)
    ensures Reachable(devices, Do(w, step))
  {
    var steps :| Strict(devices, steps) && Run(devices, steps) == w;
    var more := steps + [step];
    assert more[..|more| - 1] == steps && more[|more| - 1] == step;
    assert Strict(devices, more) && Run(devices, more) == Do(w, step);
  }
}
