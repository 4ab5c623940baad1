/**
 Local updates on the chat relay are never lost: an update stays queued until the room has accepted it
 or refused it for good (`crates/sync/src/chat_client.rs`, `edge/src/chat-room.ts`).
 */
module ChatConservation {
  import opened Prelude
  import opened ChatLog
  import opened ChatSync
  import opened ChatLaws

  ghost predicate WasAccepted(accepted: seq<LogRow>, batch: string) {
    exists i :: 0 <= i < |accepted| && accepted[i].batch == batch
  }

  /** What the client does not queue or the room refuses for good. */
  predicate Illegal(batch: string, update: Update) {
    BadName(batch) || update.size == 0 || update.size > MAX_PUSH_BYTES
  }

  ghost predicate Settled(w: World, batch: string) {
    WasAccepted(w.accepted, batch) || (batch in w.issued && Illegal(batch, w.issued[batch].1))
  }

  function BatchesOf(pending: seq<Pending>): set<string> {
    set i | 0 <= i < |pending| :: pending[i].batch
  }

  /** A frame that makes a client forget a batch finds the batch settled. */
  ghost predicate TellsTruth(w: World, f: Down) {
    && (f.Ack? ==> WasAccepted(w.accepted, f.batch))
    && (f.ErrorDown? && Permanent(f.code) && f.batch != "" ==> Settled(w, f.batch))
  }

  ghost predicate Unlost(w: World, c: string, k: Client) {
    && (forall b :: b in w.issued && w.issued[b].0 == c ==> b in BatchesOf(k.pending) || Settled(w, b))
    && (forall f :: f in Inflow(k) ==> TellsTruth(w, f))
  }

  ghost predicate AllUnlost(w: World) {
    forall c :: c in w.clients ==> Unlost(w, c, w.clients[c])
  }

  lemma {:induction false} DropBatchLeaves(pending: seq<Pending>, batch: string)
    ensures BatchesOf(DropBatch(pending, batch)) == BatchesOf(pending) - {batch}
  {
    if pending != [] {
      var rest := pending[1..];
      DropBatchLeaves(rest, batch);
      assert forall x :: x in BatchesOf(pending) <==> x == pending[0].batch || x in BatchesOf(rest) by {
        BatchesCons(pending);
      }
      var head := if pending[0].batch != batch then [pending[0]] else [];
      if head != [] {
        BatchesCons(head + DropBatch(rest, batch));
        assert (head + DropBatch(rest, batch))[1..] == DropBatch(rest, batch);
      } else {
        assert head + DropBatch(rest, batch) == DropBatch(rest, batch);
      }
    }
  }

  lemma BatchesCons(pending: seq<Pending>)
    requires pending != []
    ensures BatchesOf(pending) == {pending[0].batch} + BatchesOf(pending[1..])
  {
  }

  ghost predicate Extended(w: World, n: World) {
    w.accepted <= n.accepted && forall b :: b in w.issued ==> b in n.issued && n.issued[b] == w.issued[b]
  }

  /** A client that only hears truthful frames, and forgets nothing unsettled, loses nothing. */
  lemma StaysUnlost(w: World, n: World, c: string, k: Client, s: Client)
    requires Unlost(w, c, k) && Extended(w, n)
    requires forall b :: b in n.issued && n.issued[b].0 == c && b !in w.issued ==> b in BatchesOf(s.pending) || Illegal(b, n.issued[b].1)
    requires forall b :: b in BatchesOf(k.pending) ==> b in BatchesOf(s.pending) || Settled(n, b)
    requires forall f :: f in Inflow(s) ==> f in Inflow(k) || TellsTruth(n, f)
    ensures Unlost(n, c, s)
  {
  }

  // ── what is sent was written ──────────────────────────────────────────────

  /** A batch this client wrote, and not too long to push. */
  ghost predicate Pushable(issued: map<string, (string, Update)>, c: string, batch: string, update: Update) {
    Issued(issued, c, batch, update) && update.size <= MAX_PUSH_BYTES
  }

  /** Whatever a client queues or pushes is such a batch. */
  ghost predicate Sends(issued: map<string, (string, Update)>, c: string, k: Client) {
    && (forall p :: p in k.pending ==> Pushable(issued, c, p.batch, p.update))
    && (forall u :: u in k.up && u.PushUp? ==> Pushable(issued, c, u.batch, u.update))
  }

  /** All that conservation of local updates rests on; what checkpoints hold plays no part. */
  ghost predicate Base(w: World) {
    LogOk(w.log, w.accepted) && forall c :: c in w.clients ==> Sends(w.issued, c, w.clients[c])
  }

  lemma PushesAre(pending: seq<Pending>, u: Up)
    requires u in Pushes(pending)
    ensures u.PushUp? && Pending(u.batch, u.update) in pending
  {
    var i :| 0 <= i < |pending| && Pushes(pending)[i] == u;
    assert pending[i] in pending;
  }

  lemma RepairSends(k: Client, u: Up)
    requires u in RepairGap(k).up && u.PushUp?
    ensures u in k.up
  {
  }

  lemma DoneSends(k: Client, f: Down, u: Up)
    requires f.RowsDone? && u in OnRowsDone(k, f).up && u.PushUp?
    ensures u in k.up
  {
    var d := if f.owed.Some? then k.(caught := f.head, whole := true) else k;
    if d.phase.Backfill? {
      RepairSends(d.(resumed := true, phase := Steady), u);
    }
  }

  lemma StateSends(k: Client, h: Head, u: Up)
    requires u in OnState(k, h).up && u.PushUp?
    ensures u in k.up || Pending(u.batch, u.update) in k.pending
  {
    if u in Pushes(k.pending) {
      PushesAre(k.pending, u);
    }
  }

  lemma HandleSends(k: Client, f: Down)
    ensures HandleFrame(k, f).up == k.up
  {
  }

  /** What one frame may add to a client's requests: rows requests, and pushes of what is queued. */
  lemma ReceiveSends(k: Client, u: Up)
    requires k.down != [] && u in Receive(k).up && u.PushUp?
    ensures u in k.up || Pending(u.batch, u.update) in k.pending
  {
    var f, d := k.down[0], k.(down := k.down[1..]);
    match k.phase
    case Greeting => if f.State? { StateSends(d, f.header, u); }
    case Backfill => if f.RowsDone? { DoneSends(d, f, u); } else { HandleSends(d, f); }
    case Steady =>
      if f.RowsDone? { DoneSends(d, f, u); } else {
        HandleSends(d, f);
        if !f.RowDown? {
          RepairSends(HandleFrame(d, f), u);
        }
      }
    case _ =>
  }

  lemma ReceiveKeepsSends(issued: map<string, (string, Update)>, c: string, k: Client)
    requires Sends(issued, c, k) && k.down != []
    ensures Sends(issued, c, Receive(k))
  {
    ReceiveQueue(k);
    DropBatchKeeps(k.pending, if Forgets(k.down[0]) then k.down[0].batch else "");
    forall u | u in Receive(k).up && u.PushUp?
      ensures Pushable(issued, c, u.batch, u.update)
    {
      ReceiveSends(k, u);
    }
  }

  lemma HearersSend(w: World, c: string, d: string)
    requires c in w.clients && d in w.clients && d != c && w.clients[c].up != []
    ensures var n := ServeUp(w, c);
            n.clients[d].pending == w.clients[d].pending && n.clients[d].up == w.clients[d].up
  {
  }

  lemma PushedLog(w: World, c: string, batch: string, update: Update)
    requires c in w.clients && w.clients[c].up != []
    ensures var n := ServePush(w, c, batch, update);
            && n.issued == w.issued && n.clients.Keys == w.clients.Keys
            && n.log == LogAfterPush(w.log, c, batch, update)
            && n.accepted == AcceptedAfterPush(w.log, w.accepted, c, batch, update)
  {
  }

  lemma ServeKeepsLog(w: World, c: string)
    requires LogOk(w.log, w.accepted) && c in w.clients && w.clients[c].up != []
    ensures var n := ServeUp(w, c);
            LogOk(n.log, n.accepted) && n.issued == w.issued && n.clients.Keys == w.clients.Keys
  {
    var u := w.clients[c].up[0];
    if u.PushUp? {
      PushedLog(w, c, u.batch, u.update);
      assert ServeUp(w, c) == ServePush(w, c, u.batch, u.update);
      LogGrows(w, c, u.batch, u.update);
    }
  }

  lemma ServeKeepsBase(w: World, c: string)
    requires Base(w) && c in w.clients && w.clients[c].up != []
    ensures Base(ServeUp(w, c))
  {
    var n := ServeUp(w, c);
    ServeKeepsLog(w, c);
    forall d | d in n.clients
      ensures Sends(n.issued, d, n.clients[d])
    {
      if d == c {
        ServedClient(w, c);
      } else {
        HearersSend(w, c, d);
      }
    }
  }

  lemma LogStays(w: World, step: Step)
    requires !step.Serve? && !step.CommitPost?
    ensures Do(w, step).log == w.log && Do(w, step).accepted == w.accepted
  {
  }

  lemma WriteKeepsSends(w: World, c: string, batch: string, update: Update, d: string)
    requires Base(w) && d in w.clients
    ensures var n := Do(w, Write(c, batch, update)); d in n.clients && Sends(n.issued, d, n.clients[d])
  {
    var n := Do(w, Write(c, batch, update));
    assert Sends(w.issued, d, w.clients[d]);
    forall p | p in n.clients[d].pending
      ensures Pushable(n.issued, d, p.batch, p.update)
    {
      assert p in w.clients[d].pending || (d == c && n != w && p == Pending(batch, update));
    }
  }

  lemma ClientKeepsSends(w: World, step: Step, d: string)
    requires Base(w) && d in w.clients && !step.Serve? && !step.Deliver?
    ensures d in Do(w, step).clients && Sends(Do(w, step).issued, d, Do(w, step).clients[d])
  {
    if step.Write? {
      WriteKeepsSends(w, step.c, step.batch, step.update, d);
    } else {
      QuietClientSends(w, step, d);
    }
  }

  lemma QuietClientSends(w: World, step: Step, d: string)
    requires Base(w) && d in w.clients && !step.Serve? && !step.Deliver? && !step.Write?
    ensures d in Do(w, step).clients && Sends(Do(w, step).issued, d, Do(w, step).clients[d])
  {
    var k, s := w.clients[d], Do(w, step).clients[d];
    assert s.pending == k.pending;
    forall u | u in s.up && u.PushUp?
      ensures u in k.up || Pending(u.batch, u.update) in k.pending
    {
      if u in Pushes(k.pending) {
        PushesAre(k.pending, u);
      }
    }
  }

  lemma StepKeepsBase(w: World, step: Step)
    requires Base(w)
    ensures Base(Do(w, step))
  {
    var n := Do(w, step);
    if step.Serve? {
      if step.c in w.clients && !w.clients[step.c].phase.Offline? && w.clients[step.c].up != [] {
        ServeKeepsBase(w, step.c);
      }
    } else if step.Deliver? {
      LogStays(w, step);
      if step.c in w.clients && w.clients[step.c].down != [] && w.clients[step.c].landing.None? {
        ReceiveKeepsSends(w.issued, step.c, w.clients[step.c]);
      }
    } else {
      if step.CommitPost? {
        CommitEffect(w.log, w.accepted, step.post.covered, step.post.frontier, step.post.blob);
      } else {
        LogStays(w, step);
      }
      forall d | d in n.clients
        ensures Sends(n.issued, d, n.clients[d])
      {
        ClientKeepsSends(w, step, d);
      }
    }
  }

  lemma {:induction false} RunsKeepBase(devices: set<string>, steps: seq<Step>)
    ensures Base(Run(devices, steps))
    decreases |steps|
  {
    if steps != [] {
      RunsKeepBase(devices, steps[..|steps| - 1]);
      StepKeepsBase(Run(devices, steps[..|steps| - 1]), steps[|steps| - 1]);
    }
  }

  /** In every run no push is ever too large for the room, so no batch is retired for its length. */
  lemma NothingTooLargeIsSent(devices: set<string>, steps: seq<Step>, c: string, u: Up)
    requires c in Run(devices, steps).clients && u in Run(devices, steps).clients[c].up && u.PushUp?
    ensures u.update.size <= 1024 * 1024 - 4096
    ensures PushReply(Run(devices, steps).log, c, u.batch, u.update) != ErrorDown("too_large", u.batch)
  {
    RunsKeepBase(devices, steps);
    assert Pushable(Run(devices, steps).issued, c, u.batch, u.update);
  }

  // ── receiving ─────────────────────────────────────────────────────────────

  predicate Forgets(f: Down) {
    f.Ack? || (f.ErrorDown? && Permanent(f.code) && f.batch != "")
  }

  /** The queue of unpushed batches and the frames to come, as a frame leaves them. */
  ghost predicate KeepsQueue(k: Client, s: Client) {
    s.pending == k.pending && (Inflow(s) == Inflow(k) || Inflow(s) == [])
  }

  lemma RepairKeepsQueue(k: Client)
    requires !k.phase.Fetching?
    ensures KeepsQueue(k, RepairGap(k))
  {
  }

  lemma DoneKeepsQueue(k: Client, f: Down)
    requires f.RowsDone? && !k.phase.Fetching?
    ensures KeepsQueue(k, OnRowsDone(k, f))
  {
  }

  lemma StateKeepsQueue(k: Client, h: Head)
    requires k.phase.Greeting?
    ensures KeepsQueue(k, OnState(k, h))
  {
  }

  lemma HandleKeepsQueue(k: Client, f: Down)
    requires !k.phase.Fetching?
    ensures Inflow(HandleFrame(k, f)) == Inflow(k) && HandleFrame(k, f).phase == k.phase
    ensures HandleFrame(k, f).pending == if Forgets(f) then DropBatch(k.pending, f.batch) else k.pending
  {
  }

  lemma ReceiveQueue(k: Client)
    requires k.down != []
    ensures var s := Receive(k);
            && (s.pending == k.pending || (Forgets(k.down[0]) && s.pending == DropBatch(k.pending, k.down[0].batch)))
            && (Inflow(s) == Inflow(k) || Inflow(s) == k.down[1..] || Inflow(s) == [])
  {
    var f, d := k.down[0], k.(down := k.down[1..]);
    match k.phase
    case Offline =>
    case Greeting =>
      if f.State? { StateKeepsQueue(d, f.header); }
    case Fetching(state, buffered, got) =>
      assert (buffered + [f]) + k.down[1..] == buffered + k.down;
    case Backfill =>
      if f.RowsDone? { DoneKeepsQueue(d, f); } else { HandleKeepsQueue(d, f); }
    case Steady =>
      if f.RowsDone? { DoneKeepsQueue(d, f); } else {
        HandleKeepsQueue(d, f);
        if !f.RowDown? {
          RepairKeepsQueue(HandleFrame(d, f));
        }
      }
  }

  lemma ReceiveForgetsSettled(w: World, c: string, k: Client)
    requires Unlost(w, c, k) && k.down != []
    ensures Unlost(w, c, Receive(k))
  {
    var s, f := Receive(k), k.down[0];
    ReceiveQueue(k);
    assert f in Inflow(k) && forall g :: g in k.down[1..] ==> g in Inflow(k) by {
      assert f in k.down && forall g :: g in k.down[1..] ==> g in k.down;
    }
    if s.pending != k.pending {
      DropBatchLeaves(k.pending, f.batch);
      assert TellsTruth(w, f);
    }
    StaysUnlost(w, w, c, k, s);
  }

  // ── serving ───────────────────────────────────────────────────────────────

  /** What the server answers the sender of one request. */
  ghost function ReplyTo(w: World, c: string, u: Up): seq<Down> {
    match u
    case Hello => [State(StateOf(w.log))]
    case RowsReq(after, excludeOwn) => RowsReply(w, c, after, excludeOwn)
    case PushUp(batch, update) => [PushReply(w.log, c, batch, update)]
  }

  lemma ServedClient(w: World, c: string)
    requires c in w.clients && w.clients[c].up != []
    ensures var k, n := w.clients[c], ServeUp(w, c);
            c in n.clients && n.clients[c] == k.(up := k.up[1..], down := k.down + ReplyTo(w, c, k.up[0]))
  {
  }

  lemma ServedWorld(w: World, c: string)
    requires LogOk(w.log, w.accepted) && c in w.clients && w.clients[c].up != []
    ensures Extended(w, ServeUp(w, c)) && ServeUp(w, c).issued == w.issued
  {
  }

  lemma AckIsTrue(w: World, c: string, batch: string, update: Update)
    requires LogOk(w.log, w.accepted) && Append(w.log, c, batch, update).outcome.Appended?
    ensures WasAccepted(AcceptedAfter(w.log, w.accepted, c, batch, update), batch)
  {
    AppendEffect(w.log, w.accepted, c, batch, update);
    var after := AcceptedAfter(w.log, w.accepted, c, batch, update);
    assert after[Append(w.log, c, batch, update).outcome.serial - 1].batch == batch;
  }

  lemma ReplyIsTrue(w: World, c: string, f: Down)
    requires LogOk(w.log, w.accepted) && c in w.clients && w.clients[c].up != []
    requires w.clients[c].up[0].PushUp? ==> Issued(w.issued, c, w.clients[c].up[0].batch, w.clients[c].up[0].update)
    requires f in ReplyTo(w, c, w.clients[c].up[0])
    ensures TellsTruth(ServeUp(w, c), f)
  {
    var u := w.clients[c].up[0];
    if u.PushUp? && f.Ack? {
      AckIsTrue(w, c, u.batch, u.update);
    }
  }

  /** Frames another socket hears are rows. */
  lemma OthersHearRows(w: World, c: string, d: string)
    requires c in w.clients && d in w.clients && d != c && w.clients[c].up != []
    ensures var n := ServeUp(w, c);
            && n.clients[d].pending == w.clients[d].pending
            && forall f :: f in Inflow(n.clients[d]) ==> f in Inflow(w.clients[d]) || f.RowDown?
  {
    var n := ServeUp(w, c);
    forall f | f in Inflow(n.clients[d])
      ensures f in Inflow(w.clients[d]) || f.RowDown?
    {
      if f in n.clients[d].down && f !in w.clients[d].down {
        assert f.RowDown?;
      }
    }
  }

  lemma SenderStaysUnlost(w: World, c: string)
    requires Base(w) && AllUnlost(w) && c in w.clients && w.clients[c].up != []
    ensures Unlost(ServeUp(w, c), c, ServeUp(w, c).clients[c])
  {
    var k, n := w.clients[c], ServeUp(w, c);
    assert k.up[0] in k.up;
    ServedWorld(w, c);
    ServedClient(w, c);
    forall f | f in Inflow(n.clients[c])
      ensures f in Inflow(k) || TellsTruth(n, f)
    {
      if f in ReplyTo(w, c, k.up[0]) {
        ReplyIsTrue(w, c, f);
      }
    }
    StaysUnlost(w, n, c, k, n.clients[c]);
  }

  lemma HearerStaysUnlost(w: World, c: string, d: string)
    requires Base(w) && AllUnlost(w) && c in w.clients && d in w.clients && d != c && w.clients[c].up != []
    ensures Unlost(ServeUp(w, c), d, ServeUp(w, c).clients[d])
  {
    ServedWorld(w, c);
    OthersHearRows(w, c, d);
    StaysUnlost(w, ServeUp(w, c), d, w.clients[d], ServeUp(w, c).clients[d]);
  }

  lemma ServeKeepsUnlost(w: World, c: string)
    requires Base(w) && AllUnlost(w) && c in w.clients && !w.clients[c].phase.Offline? && w.clients[c].up != []
    ensures AllUnlost(ServeUp(w, c))
  {
    forall d | d in ServeUp(w, c).clients
      ensures Unlost(ServeUp(w, c), d, ServeUp(w, c).clients[d])
    {
      if d == c {
        SenderStaysUnlost(w, c);
      } else {
        HearerStaysUnlost(w, c, d);
      }
    }
  }

  lemma DeliverKeepsUnlost(w: World, c: string)
    requires AllUnlost(w) && c in w.clients && w.clients[c].down != [] && w.clients[c].landing.None?
    ensures AllUnlost(Do(w, Deliver(c)))
  {
    var n := Do(w, Deliver(c));
    ReceiveForgetsSettled(w, c, w.clients[c]);
    forall d | d in n.clients
      ensures Unlost(n, d, n.clients[d])
    {
      StaysUnlost(w, n, d, n.clients[d], n.clients[d]);
    }
  }

  lemma StepKeepsUnlost(w: World, step: Step)
    requires Base(w) && AllUnlost(w)
    ensures AllUnlost(Do(w, step))
  {
    if step.Serve? && step.c in w.clients && !w.clients[step.c].phase.Offline? && w.clients[step.c].up != [] {
      ServeKeepsUnlost(w, step.c);
    } else if step.Deliver? && step.c in w.clients && w.clients[step.c].down != [] && w.clients[step.c].landing.None? {
      DeliverKeepsUnlost(w, step.c);
    } else if !step.Serve? && !step.Deliver? {
      forall d | d in Do(w, step).clients
        ensures Unlost(Do(w, step), d, Do(w, step).clients[d])
      {
        QuietStep(w, step, d);
      }
    }
  }

  lemma LandKeepsQueue(k: Client)
    requires k.landing.Some?
    ensures KeepsQueue(k, ImportRow(k))
  {
  }

  /** A client's own steps keep its queue and add no frame. */
  lemma QuietClient(k: Client, step: Step)
    requires !step.Deliver?
    ensures ClientStep(k, step).pending == k.pending
    ensures forall f :: f in Inflow(ClientStep(k, step)) ==> f in Inflow(k)
  {
    if step.Land? && k.landing.Some? {
      LandKeepsQueue(k);
    }
  }

  lemma WriteQueues(pending: seq<Pending>, p: Pending)
    ensures BatchesOf(pending + [p]) == BatchesOf(pending) + {p.batch}
  {
    assert (pending + [p])[|pending|] == p;
    forall b | b in BatchesOf(pending)
      ensures b in BatchesOf(pending + [p])
    {
      var i :| 0 <= i < |pending| && pending[i].batch == b;
      assert (pending + [p])[i].batch == b;
    }
  }

  lemma WriteStep(w: World, c: string, batch: string, update: Update, d: string)
    requires AllUnlost(w) && d in w.clients
    ensures Unlost(Do(w, Write(c, batch, update)), d, Do(w, Write(c, batch, update)).clients[d])
  {
    var n := Do(w, Write(c, batch, update));
    if c == d && n != w && update.size <= MAX_PUSH_BYTES {
      WriteQueues(w.clients[d].pending, Pending(batch, update));
    }
    StaysUnlost(w, n, d, w.clients[d], n.clients[d]);
  }

  /** Every other step keeps the queue of every client and adds no frame. */
  lemma QuietStep(w: World, step: Step, d: string)
    requires AllUnlost(w) && !step.Serve? && !step.Deliver? && d in w.clients
    ensures Unlost(Do(w, step), d, Do(w, step).clients[d])
  {
    if step.Write? {
      WriteStep(w, step.c, step.batch, step.update, d);
    } else {
      var n := Do(w, step);
      if !step.Fetch? && !step.Capture? && !step.SeedRoom? && !step.CommitPost? {
        QuietClient(w.clients[d], step);
      }
      StaysUnlost(w, n, d, w.clients[d], n.clients[d]);
    }
  }

  lemma {:induction false} RunsLoseNoUpdate(devices: set<string>, steps: seq<Step>)
    ensures AllUnlost(Run(devices, steps))
    decreases |steps|
  {
    if steps != [] {
      RunsLoseNoUpdate(devices, steps[..|steps| - 1]);
      RunsKeepBase(devices, steps[..|steps| - 1]);
      StepKeepsUnlost(Run(devices, steps[..|steps| - 1]), steps[|steps| - 1]);
    }
  }

  /**
   In every run, whatever checkpoints are posted, a local update is still queued at its author, accepted
   by the room, too long to be queued, or empty or of a name the room refuses.
   */
  lemma LocalUpdatesSurvive(devices: set<string>, steps: seq<Step>, c: string, batch: string)
    requires var w := Run(devices, steps); c in w.clients && batch in w.issued && w.issued[batch].0 == c
    ensures var w := Run(devices, steps);
            || batch in BatchesOf(w.clients[c].pending)
            || WasAccepted(w.accepted, batch)
            || Illegal(batch, w.issued[batch].1)
  {
    RunsLoseNoUpdate(devices, steps);
  }
}
