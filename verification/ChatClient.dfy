/**
 What a chat client does with each frame, and what the room tells it: the catch-up decision, the walk of
 the cursor, gaps and their repair (`crates/sync/src/chat_client.rs`, `edge/src/chat-room.ts`).
 */
module ChatClient {
  import opened Prelude
  import opened ChatLog
  import opened ChatSync

  // ── planning ──────────────────────────────────────────────────────────────

  /** A cursor the room has never reached counts for nothing. */
  function Known(cursor: nat, head: nat): nat {
    if cursor > head then 0 else cursor
  }

  /**
   The checkpoint is fetched exactly if there is one the document does not contain; rows are then asked for
   from where it ends, and otherwise from the cursor or, if further, from where the contained one ends.
   */
  lemma PlanIs(cursor: nat, state: Head, contained: bool)
    ensures var plan := PlanCatchUp(cursor, state, contained);
            && (plan.CheckpointThenRows? <==> state.present && !contained)
            && (state.present && !contained ==> plan.after == state.covered)
            && (state.present && contained ==> plan.after == Max(Known(cursor, state.head), state.covered))
            && (!state.present ==> plan.after == Known(cursor, state.head))
  {
  }

  /** A client told rows only either met no checkpoint or holds all that a readable, non-empty frontier names. */
  lemma RowsOnlyIff(log: Log, doc: set<OpId>, cursor: nat)
    ensures var state := StateOf(log);
            PlanCatchUp(cursor, state, !state.present || ContainsFrontier(doc, state.frontier)).RowsOnly?
            <==> log.checkpoint.None?
                 || (log.checkpoint.value.frontier.Some? && log.checkpoint.value.frontier.value != {}
                     && log.checkpoint.value.frontier.value <= doc)
  {
  }

  /** The state header says where the room stands. */
  lemma StateIs(log: Log, accepted: seq<LogRow>)
    requires LogOk(log, accepted)
    ensures var h := StateOf(log);
            && h.head == |accepted| && h.covered == log.floor && (h.present <==> log.checkpoint.Some?)
            && (log.checkpoint.Some? ==> h.frontier == log.checkpoint.value.frontier)
  {
  }

  /**
   What a plan made from the current state asks for brings everything the client cannot have: with no
   checkpoint and a cursor past the head, as after a reset, the whole log; otherwise all rows after the
   cursor or the checkpoint, and none from before the later of the two.
   */
  lemma PlannedRowsAreWhole(log: Log, accepted: seq<LogRow>, cursor: nat, contained: bool)
    requires LogOk(log, accepted)
    ensures var after := PlanCatchUp(cursor, StateOf(log), contained).after;
            && RowsAfter(log.rows, after, "") == accepted[after..]
            && (cursor > log.head && log.checkpoint.None? ==> RowsAfter(log.rows, after, "") == accepted)
            && after <= Max(Known(cursor, log.head), log.floor)
  {
    var after := PlanCatchUp(cursor, StateOf(log), contained).after;
    RowsAfterIsTail(log.rows, log.floor, after);
    assert log.rows[after - log.floor..] == accepted[after..];
    if cursor > log.head && log.checkpoint.None? {
      assert accepted[0..] == accepted;
    }
  }

  // ── the state frame ───────────────────────────────────────────────────────

  /** The cursor a session starts from: once per client, one above the checkpoint is taken back to it. */
  function Trusted(k: Client, h: Head): nat {
    var floor := if h.present then h.covered else 0;
    if k.amnestied then k.cursor else Min(k.cursor, floor)
  }

  predicate Holds(k: Client, h: Head) {
    h.frontier.Some? && h.frontier.value != {} && h.frontier.value <= k.doc
  }

  /** What the state frame makes of everything but the requests. */
  lemma StateIsTaken(k: Client, h: Head)
    ensures var s := OnState(k, h);
            && s.cursor == PlanCatchUp(Trusted(k, h), h, !h.present || Holds(k, h)).after
            && (s.raised <==> h.present && !Holds(k, h))
            && s.phase == (if s.raised then Fetching(h, [], None) else Backfill)
            && s == k.(cursor := s.cursor, raised := s.raised, phase := s.phase, up := s.up,
                       amnestied := true, repairs := 0, since := h.head, whole := false)
  {
  }

  /**
   The state frame is answered with one rows request, from where the plan says, that leaves own rows out only
   once a backfill has ended, and then with every queued push in order; the session has all its repairs left.
   */
  lemma StateIsAnswered(k: Client)
    requires k.phase.Greeting? && k.down != [] && k.down[0].State?
    ensures var h, s := k.down[0].header, Receive(k);
            && s.cursor == PlanCatchUp(Trusted(k, h), h, !h.present || Holds(k, h)).after
            && (s.raised <==> h.present && !Holds(k, h))
            && s.phase == (if s.raised then Fetching(h, [], None) else Backfill)
            && |s.up| == |k.up| + 1 + |k.pending| && s.up[..|k.up|] == k.up && s.up[|k.up|] == RowsReq(s.cursor, k.resumed)
            && (forall i :: 0 <= i < |k.pending| ==> s.up[|k.up| + 1 + i] == PushUp(k.pending[i].batch, k.pending[i].update))
            && s == k.(cursor := s.cursor, raised := s.raised, phase := s.phase, up := s.up, down := k.down[1..],
                       amnestied := true, repairs := 0, since := h.head, whole := false)
  {
    var d := k.(down := k.down[1..]);
    StateIsTaken(d, k.down[0].header);
    RequestsAre(d, k.down[0].header);
    assert Receive(k) == OnState(d, k.down[0].header);
  }

  lemma RequestsAre(k: Client, h: Head)
    ensures var s := OnState(k, h);
            && |s.up| == |k.up| + 1 + |k.pending| && s.up[..|k.up|] == k.up && s.up[|k.up|] == RowsReq(s.cursor, k.resumed)
            && forall i :: 0 <= i < |k.pending| ==> s.up[|k.up| + 1 + i] == PushUp(k.pending[i].batch, k.pending[i].update)
  {
    var s := OnState(k, h);
    assert s.up == k.up + [RowsReq(s.cursor, k.resumed)] + Pushes(k.pending) by {
      StateAsks(k, h);
    }
    InThree(k.up, RowsReq(s.cursor, k.resumed), Pushes(k.pending));
  }

  lemma StateAsks(k: Client, h: Head)
    ensures OnState(k, h).up == k.up + [RowsReq(OnState(k, h).cursor, k.resumed)] + Pushes(k.pending)
  {
  }

  lemma InThree(a: seq<Up>, u: Up, b: seq<Up>)
    ensures var all := a + [u] + b;
            && |all| == |a| + 1 + |b| && all[..|a|] == a && all[|a|] == u
            && forall i :: 0 <= i < |b| ==> all[|a| + 1 + i] == b[i]
  {
  }

  /** Before the state frame everything is skipped; during a fetch everything is set aside, in order. */
  lemma OthersWait(k: Client)
    requires k.down != []
    ensures k.phase.Greeting? && !k.down[0].State? ==> Receive(k) == k.(down := k.down[1..])
    ensures k.phase.Fetching? ==>
              Receive(k) == k.(down := k.down[1..], phase := k.phase.(buffered := k.phase.buffered + [k.down[0]]))
  {
  }

  // ── rows, acks and errors ─────────────────────────────────────────────────

  /** The next number moves the cursor, an old one does nothing, and a later one only flags a gap. */
  ghost predicate Walked(k: Client, serial: nat, s: Client) {
    && (serial == k.cursor + 1 ==> s.cursor == serial && s.gap == k.gap)
    && (serial <= k.cursor ==> s.cursor == k.cursor && s.gap == k.gap)
    && (serial > k.cursor + 1 ==> s.cursor == k.cursor && s.gap)
  }

  lemma RowWalks(k: Client, row: LogRow)
    ensures var s := HandleFrame(k, RowDown(row));
            Walked(k, row.serial, s) && s == k.(cursor := s.cursor, gap := s.gap, landing := Some(row))
  {
  }

  lemma {:induction false} DropBatchIs(pending: seq<Pending>, batch: string)
    ensures forall p :: p in DropBatch(pending, batch) <==> p in pending && p.batch != batch
  {
    if pending != [] {
      DropBatchIs(pending[1..], batch);
      assert forall p :: p in pending <==> p == pending[0] || p in pending[1..];
    }
  }

  /** An ack walks the cursor, takes the batch it names out of the queue, and persists the document with the cursor. */
  lemma AckWalks(k: Client, batch: string, serial: nat)
    ensures var s := HandleFrame(k, Ack(batch, serial));
            && Walked(k, serial, s) && s.saved == (k.doc, s.cursor)
            && (forall p :: p in s.pending <==> p in k.pending && p.batch != batch)
            && s == k.(cursor := s.cursor, gap := s.gap, saved := s.saved, pending := s.pending)
  {
    DropBatchIs(k.pending, batch);
  }

  /** A verdict on a batch that will never change retires the batch; any other error leaves the queue alone. */
  lemma ErrorsRetire(k: Client, code: string, batch: string)
    ensures var s := HandleFrame(k, ErrorDown(code, batch));
            && s == k.(pending := s.pending)
            && (batch != "" && (code == "too_large" || code == "empty" || code == "bad_push") ==>
                  forall p :: p in s.pending <==> p in k.pending && p.batch != batch)
            && (batch == "" || (code != "too_large" && code != "empty" && code != "bad_push") ==> s.pending == k.pending)
  {
    DropBatchIs(k.pending, batch);
  }

  // ── gaps ──────────────────────────────────────────────────────────────────

  /**
   What becomes of a client that has finished with a frame: with no gap it sends nothing; with one, the last
   thing it sends is a request for every row after its cursor, own ones included, or after three of those in
   one session it hangs up. Either way no gap is left flagged.
   */
  ghost predicate Repaired(k: Client, gap: bool, s: Client) {
    && !s.gap
    && (if !gap then s.phase.Steady? && s.up == k.up && s.repairs == k.repairs
        else if k.repairs < 3 then
          s.phase.Steady? && s.up == k.up + [RowsReq(s.cursor, false)] && s.repairs == k.repairs + 1
        else s.phase.Offline? && s.up == [] && s.down == [])
  }

  /** A row has landed: the document has it, and document and cursor are persisted together. */
  lemma RowLands(k: Client)
    requires k.landing.Some?
    ensures var s := ImportRow(k);
            && s.landing.None? && s.doc == k.doc + k.landing.value.update.ops && s.cursor == k.cursor && s.saved == (s.doc, k.cursor)
            && (k.phase.Steady? ==> Repaired(k, k.gap, s))
            && (!k.phase.Steady? ==> s == k.(landing := None, doc := s.doc, saved := s.saved))
  {
  }

  /** So is an ack in steady state. */
  lemma SteadyAckIsRepaired(k: Client)
    requires k.phase.Steady? && k.down != [] && k.down[0].Ack?
    ensures var s := Receive(k);
            Repaired(k, k.gap || k.down[0].serial > k.cursor + 1, s) && (s.phase.Steady? ==> s.down == k.down[1..])
  {
  }

  /** The end of the backfill makes the client steady, and a gap flagged on the way is asked for then. */
  lemma BackfillEnds(k: Client)
    requires k.phase.Backfill? && k.down != [] && k.down[0].RowsDone?
    ensures var s := Receive(k);
            && s.resumed && Repaired(k, k.gap, s) && s.doc == k.doc && s.cursor == k.cursor
            && (k.down[0].owed.Some? ==> s.whole && s.caught == k.down[0].head)
  {
  }

  /** The checkpoint has landed under the number the state frame gave, and the frames set aside come before any other. */
  lemma CheckpointLands(k: Client)
    requires k.phase.Fetching? && k.phase.got.Some?
    ensures var s := Import(k);
            && s.doc == k.doc + k.phase.got.value.blob.ops && s.saved == (s.doc, k.phase.state.covered)
            && s.cursor == Max(k.cursor, k.phase.state.covered) && !s.raised && s.phase.Backfill?
            && s.down == k.phase.buffered + k.down && s.up == k.up && s.pending == k.pending && s.gap == k.gap
  {
  }

  ghost predicate NoGapLeft(k: Client) {
    k.phase.Steady? && k.landing.None? ==> !k.gap
  }

  lemma StepLeavesNoGap(k: Client, step: Step)
    requires NoGapLeft(k)
    ensures NoGapLeft(ClientStep(k, step))
  {
    if step.Deliver? {
      if k.down != [] && k.landing.None? {
        DeliveryLeavesNoGap(k);
      }
    } else if step.Land? && k.landing.Some? {
      RowLands(k);
    }
  }

  lemma DeliveryLeavesNoGap(k: Client)
    requires NoGapLeft(k) && k.down != [] && k.landing.None?
    ensures NoGapLeft(Receive(k))
  {
    match k.phase
    case Backfill =>
      if k.down[0].RowsDone? {
        BackfillEnds(k);
      }
    case Steady =>
      if k.down[0].Ack? {
        SteadyAckIsRepaired(k);
      }
    case _ =>
  }

  ghost predicate SessionKept(k: Client, s: Client) {
    s.gap == k.gap && s.landing == k.landing && (s.phase == k.phase || !s.phase.Steady?)
  }

  lemma PushKeepsSession(w: World, c: string, batch: string, update: Update, d: string)
    requires c in w.clients && d in w.clients && w.clients[c].up != []
    ensures d in ServePush(w, c, batch, update).clients && SessionKept(w.clients[d], ServePush(w, c, batch, update).clients[d])
  {
  }

  lemma ServingKeepsSession(w: World, c: string, d: string)
    requires c in w.clients && d in w.clients && w.clients[c].up != []
    ensures d in ServeUp(w, c).clients && SessionKept(w.clients[d], ServeUp(w, c).clients[d])
  {
    if w.clients[c].up[0].PushUp? {
      PushKeepsSession(w, c, w.clients[c].up[0].batch, w.clients[c].up[0].update, d);
    }
  }

  /** Writes, captures and what the room does leave a client's session where it is, unless its fetch fails. */
  lemma SessionStays(w: World, step: Step, c: string)
    requires c in w.clients && (step.Write? || step.Serve? || step.Fetch? || step.Capture? || step.CommitPost? || step.SeedRoom?)
    ensures c in Do(w, step).clients && SessionKept(w.clients[c], Do(w, step).clients[c])
  {
    if step.Serve? {
      if step.c in w.clients && w.clients[step.c].up != [] {
        ServingKeepsSession(w, step.c, c);
      }
    }
  }

  lemma OthersLeaveNoGap(w: World, step: Step, c: string)
    requires c in w.clients && NoGapLeft(w.clients[c])
    ensures c in Do(w, step).clients && NoGapLeft(Do(w, step).clients[c])
  {
    if step.Write? || step.Serve? || step.Fetch? || step.Capture? || step.CommitPost? || step.SeedRoom? {
      SessionStays(w, step, c);
    } else {
      StepLeavesNoGap(w.clients[c], step);
    }
  }

  lemma {:induction false} ClientsOfRun(devices: set<string>, steps: seq<Step>)
    ensures Run(devices, steps).clients.Keys == devices
    decreases |steps|
  {
    if steps != [] {
      ClientsOfRun(devices, steps[..|steps| - 1]);
      KeysStay(Run(devices, steps[..|steps| - 1]), steps[|steps| - 1]);
    }
  }

  lemma KeysStay(w: World, step: Step)
    ensures Do(w, step).clients.Keys == w.clients.Keys
  {
  }

  /** In every run a steady client with no row landing has no gap it has not asked about. */
  lemma {:induction false} NoGapIsLeft(devices: set<string>, steps: seq<Step>, c: string)
    requires c in devices
    ensures c in Run(devices, steps).clients && NoGapLeft(Run(devices, steps).clients[c])
    decreases |steps|
  {
    ClientsOfRun(devices, steps);
    if steps != [] {
      NoGapIsLeft(devices, steps[..|steps| - 1], c);
      OthersLeaveNoGap(Run(devices, steps[..|steps| - 1]), steps[|steps| - 1], c);
    }
  }

  // ── what a repair brings ──────────────────────────────────────────────────

  /** The rows of an answer, handled and imported one after the other. */
  function HandleRows(k: Client, rows: seq<LogRow>): Client
    decreases |rows|
  {
    if rows == [] then k else HandleRows(ImportRow(HandleFrame(k, RowDown(rows[0]))), rows[1..])
  }

  /** Consecutive rows from no later than the cursor carry it to the last of them without a gap. */
  lemma {:induction false} ConsecutiveRowsAreFollowed(k: Client, rows: seq<LogRow>, after: nat)
    requires k.phase.Steady? && !k.gap && after <= k.cursor
    requires forall i :: 0 <= i < |rows| ==> rows[i].serial == after + 1 + i
    ensures var s := HandleRows(k, rows);
            && s.phase.Steady? && !s.gap && s.up == k.up && s.cursor == Max(k.cursor, after + |rows|)
            && k.doc <= s.doc && (forall i :: 0 <= i < |rows| ==> rows[i].update.ops <= s.doc)
            && (rows != [] ==> s.saved == (s.doc, s.cursor))
    decreases |rows|
  {
    if rows != [] {
      RowWalks(k, rows[0]);
      var h := HandleFrame(k, RowDown(rows[0]));
      RowLands(h);
      ConsecutiveRowsAreFollowed(ImportRow(h), rows[1..], after + 1);
    }
  }

  /** The answer to a repair request brings the cursor to the head of the log, with everything on the way. */
  lemma RepairFillsTheGap(log: Log, accepted: seq<LogRow>, k: Client)
    requires LogOk(log, accepted) && log.floor <= k.cursor <= log.head && k.phase.Steady? && !k.gap
    ensures var s := HandleRows(k, RowsAfter(log.rows, k.cursor, ""));
            && s.phase.Steady? && !s.gap && s.up == k.up && s.cursor == log.head
            && forall i :: k.cursor <= i < |accepted| ==> accepted[i].update.ops <= s.doc
  {
    RowsAfterIsTail(log.rows, log.floor, k.cursor);
    var rows := accepted[k.cursor..];
    assert log.rows[k.cursor - log.floor..] == rows;
    ConsecutiveRowsAreFollowed(k, rows, k.cursor);
    forall i | k.cursor <= i < |accepted|
      ensures accepted[i].update.ops <= HandleRows(k, rows).doc
    {
      assert rows[i - k.cursor] == accepted[i];
    }
  }

  // ── the room's answers ────────────────────────────────────────────────────

  ghost predicate InOrder(rows: seq<LogRow>) {
    forall i, j :: 0 <= i < j < |rows| ==> rows[i].serial < rows[j].serial
  }

  lemma PutFirst(row: LogRow, rest: seq<LogRow>)
    requires InOrder(rest) && forall r :: r in rest ==> row.serial < r.serial
    ensures InOrder([row] + rest)
  {
  }

  lemma {:induction false} RowsAfterInOrder(rows: seq<LogRow>, after: nat, exclude: string)
    requires InOrder(rows)
    ensures InOrder(RowsAfter(rows, after, exclude))
  {
    if rows != [] {
      assert InOrder(rows[1..]);
      RowsAfterInOrder(rows[1..], after, exclude);
      RowsAfterAre(rows[1..], after, exclude);
      var rest := RowsAfter(rows[1..], after, exclude);
      forall r | r in rest
        ensures rows[0].serial < r.serial
      {
        assert r in rows[1..];
      }
      PutFirst(rows[0], rest);
    }
  }

  /** A rows request is answered with the stored rows after it, own ones left out if asked, in order, and the head. */
  lemma RowsAnswerIs(log: Log, accepted: seq<LogRow>, device: string, after: nat, excludeOwn: bool, owed: Option<set<OpId>>)
    requires LogOk(log, accepted)
    ensures var out := RowsAnswer(log, device, after, excludeOwn, owed);
            var n := |out| - 1;
            && n >= 0 && out[n] == RowsDone(log.head, after, owed)
            && (forall i :: 0 <= i < n ==> out[i].RowDown?)
            && (forall i, j :: 0 <= i < j < n ==> out[i].row.serial < out[j].row.serial)
            && forall row :: RowDown(row) in out
                 <==> row in log.rows && row.serial > after && !(excludeOwn && device != "" && row.device == device)
  {
    var exclude := if excludeOwn then device else "";
    var rows := RowsAfter(log.rows, after, exclude);
    RowsAfterAre(log.rows, after, exclude);
    StoredInOrder(log, accepted);
    RowsAfterInOrder(log.rows, after, exclude);
    FramesAre(rows, RowsDone(log.head, after, owed));
    assert forall r :: Excluded(r, exclude) <==> excludeOwn && device != "" && r.device == device;
  }

  lemma StoredInOrder(log: Log, accepted: seq<LogRow>)
    requires LogOk(log, accepted)
    ensures InOrder(log.rows)
  {
    assert forall i :: 0 <= i < |log.rows| ==> log.rows[i] == accepted[log.floor + i];
  }

  lemma FramesAre(rows: seq<LogRow>, done: Down)
    requires done.RowsDone?
    ensures var out := RowFrames(rows) + [done];
            && |out| == |rows| + 1 && out[|rows|] == done && (forall i :: 0 <= i < |rows| ==> out[i] == RowDown(rows[i]))
            && forall row :: RowDown(row) in out <==> row in rows
  {
    var out := RowFrames(rows) + [done];
    forall row
      ensures RowDown(row) in out <==> row in rows
    {
      if row in rows {
        var i :| 0 <= i < |rows| && rows[i] == row;
        assert out[i] == RowDown(row);
      } else {
        assert forall i :: 0 <= i < |out| ==> out[i] != RowDown(row);
      }
    }
  }

  /**
   The sender of a push hears an ack with the number of a row that carries its batch, or the reason it was
   refused: a name that is empty or too long, nothing in it, or more than a mebibyte.
   */
  lemma PushIsAnswered(log: Log, accepted: seq<LogRow>, device: string, batch: string, update: Update)
    requires LogOk(log, accepted)
    ensures var reply, after := PushReply(log, device, batch, update), AcceptedAfterPush(log, accepted, device, batch, update);
            && (batch == "" || |batch| > 128 ==> reply == ErrorDown("bad_push", batch))
            && (batch != "" && |batch| <= 128 && update.size == 0 ==> reply == ErrorDown("empty", batch))
            && (batch != "" && |batch| <= 128 && update.size > 1024 * 1024 ==> reply == ErrorDown("too_large", batch))
            && (batch != "" && |batch| <= 128 && 0 < update.size <= 1024 * 1024 ==>
                  && reply.Ack? && reply.batch == batch && log.floor < reply.serial <= |after|
                  && after[reply.serial - 1].batch == batch
                  && LogAfterPush(log, device, batch, update).head == |after|)
  {
    AppendEffect(log, accepted, device, batch, update);
  }

  /** Every other socket that has said hello hears the row a push added, if it added one; nobody else hears anything. */
  lemma PushIsHeard(w: World, c: string, batch: string, update: Update, d: string)
    requires LogOk(w.log, w.accepted) && c in w.clients && w.clients[c].up != [] && d in w.clients && d != c
    ensures var n := ServePush(w, c, batch, update);
            && d in n.clients
            && n.clients[d] == w.clients[d].(down := w.clients[d].down
                 + if |n.accepted| > |w.accepted| && !w.clients[d].phase.Offline? && (w.clients[d].up == [] || !w.clients[d].up[0].Hello?)
                   then [RowDown(n.accepted[|w.accepted|])] else [])
            && (|n.accepted| > |w.accepted| ==>
                  n.accepted == w.accepted + [LogRow(|w.accepted| + 1, c, batch, update)])
  {
    AppendEffect(w.log, w.accepted, c, batch, update);
    assert w.clients[d].down + [] == w.clients[d].down;
  }
}
