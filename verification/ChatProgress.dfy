/**
 Nothing stands in a chat client's way: every run can be continued so that the client has nothing left to
 send and holds what the room has accepted (`crates/sync/src/chat_client.rs`, `edge/src/chat-room.ts`).
 */
module ChatProgress {
  import opened Prelude
  import opened ChatLog
  import opened ChatSync
  import opened ChatClient
  import opened ChatLaws
  import opened ChatConservation
  import opened ChatFollowing

  // ── going on from a world ─────────────────────────────────────────────────

  /** The steps of one client's session and of the room serving it. */
  predicate SessionStep(step: Step, c: string) {
    match step
    case Dial(d) => d == c
    case Serve(d) => d == c
    case Deliver(d) => d == c
    case Land(d) => d == c
    case Fetch(d) => d == c
    case ImportFetched(d) => d == c
    case Cut(d) => d == c
    case _ => false
  }

  ghost function After(w: World, steps: seq<Step>): World
    decreases |steps|
  {
    if steps == [] then w else Do(After(w, steps[..|steps| - 1]), steps[|steps| - 1])
  }

  ghost predicate Leads(w: World, c: string, v: World, more: seq<Step>) {
    After(w, more) == v && forall s :: s in more ==> SessionStep(s, c)
  }

  /** Steps of the one client lead from `w` to `v`. */
  ghost predicate Reaches(w: World, c: string, v: World) {
    Base(v) && c in v.clients && exists more :: Leads(w, c, v, more)
  }

  lemma Stay(w: World, c: string)
    requires Base(w) && c in w.clients
    ensures Reaches(w, c, w)
  {
    assert Leads(w, c, w, []);
  }

  lemma GoOn(w: World, c: string, v: World, step: Step)
    requires Reaches(w, c, v) && SessionStep(step, c)
    ensures Reaches(w, c, Do(v, step))
  {
    var more :| Leads(w, c, v, more);
    assert (more + [step])[..|more|] == more;
    assert Leads(w, c, Do(v, step), more + [step]);
    StepKeepsBase(v, step);
    KeysStay(v, step);
  }

  lemma {:induction false} RunGoesOn(devices: set<string>, steps: seq<Step>, more: seq<Step>)
    ensures Run(devices, steps + more) == After(Run(devices, steps), more)
    decreases |more|
  {
    if more == [] {
      assert steps + more == steps;
    } else {
      RunGoesOn(devices, steps, more[..|more| - 1]);
      assert (steps + more)[..|steps + more| - 1] == steps + more[..|more| - 1];
    }
  }

  // ── one step of one client ────────────────────────────────────────────────

  lemma Delivered(w: World, c: string)
    requires c in w.clients && w.clients[c].down != [] && w.clients[c].landing.None?
    ensures var v := Do(w, Deliver(c));
            v.log == w.log && c in v.clients && v.clients[c] == Receive(w.clients[c])
  {
  }

  lemma Landed(w: World, c: string)
    requires c in w.clients && w.clients[c].landing.Some?
    ensures var v := Do(w, Land(c));
            v.log == w.log && c in v.clients && v.clients[c] == ImportRow(w.clients[c])
  {
  }

  lemma ServedRows(w: World, c: string)
    requires c in w.clients && !w.clients[c].phase.Offline? && w.clients[c].up != [] && w.clients[c].up[0].RowsReq?
    requires w.log.floor <= w.clients[c].up[0].after
    ensures var k, v := w.clients[c], Do(w, Serve(c));
            var answer := RowsAnswer(w.log, c, k.up[0].after, k.up[0].excludeOwn, Some(OpsFrom(w.accepted, k.up[0].after)));
            v.log == w.log && c in v.clients && v.clients[c] == k.(up := k.up[1..], down := k.down + answer)
  {
  }

  // ── a session from the start ──────────────────────────────────────────────

  ghost predicate SameQueue(w: World, v: World, c: string)
    requires c in w.clients && c in v.clients
  {
    v.clients[c].pending == w.clients[c].pending
  }

  /** Whatever the client was doing, it is now offline. */
  lemma HangingUp(w0: World, c: string, w: World) returns (v: World)
    requires Reaches(w0, c, w)
    ensures Reaches(w0, c, v) && SameQueue(w, v, c)
    ensures v.clients[c].phase.Offline? && v.clients[c].landing.None?
  {
    var u := w;
    if w.clients[c].landing.Some? {
      u := Do(w, Land(c));
      GoOn(w0, c, w, Land(c));
      RowLands(w.clients[c]);
    }
    v := Do(u, Cut(c));
    GoOn(w0, c, u, Cut(c));
  }

  lemma Dialled(w: World, c: string)
    requires c in w.clients && w.clients[c].phase.Offline?
    ensures var v := Do(w, Dial(c));
            && v.log == w.log && c in v.clients
            && v.clients[c] == w.clients[c].(phase := ChatSync.Greeting, up := [Hello], down := [])
  {
  }

  lemma ServedHello(w: World, c: string)
    requires c in w.clients && !w.clients[c].phase.Offline? && w.clients[c].up != [] && w.clients[c].up[0].Hello?
    ensures var k, v := w.clients[c], Do(w, Serve(c));
            && v.log == w.log && c in v.clients
            && v.clients[c] == k.(up := k.up[1..], down := k.down + [State(StateOf(w.log))])
  {
  }

  /** The hello is answered with where the room stands. */
  lemma Greeting(w0: World, c: string, w: World) returns (v: World)
    requires Reaches(w0, c, w) && w.clients[c].phase.Offline? && w.clients[c].landing.None?
    ensures Reaches(w0, c, v) && SameQueue(w, v, c)
    ensures var k := v.clients[c];
            k.phase.Greeting? && k.landing.None? && k.up == [] && k.down == [State(StateOf(v.log))]
  {
    Dialled(w, c);
    var u := Do(w, Dial(c));
    GoOn(w0, c, w, Dial(c));
    ServedHello(u, c);
    v := Do(u, Serve(c));
    GoOn(w0, c, u, Serve(c));
    assert [] + [State(StateOf(u.log))] == [State(StateOf(u.log))] && [Hello][1..] == [];
  }

  /** The cursor lies between the floor and the head, and a rows request from it is the next thing the room sees. */
  ghost predicate Asking(w: World, c: string)
    requires c in w.clients
  {
    var k := w.clients[c];
    && k.phase.Backfill? && k.landing.None? && k.repairs == 0 && w.log.floor <= k.cursor <= w.log.head
    && k.up == [RowsReq(k.cursor, k.resumed)] + Pushes(k.pending) && k.down == []
  }

  /** What the state frame of the room as it stands makes of a client. */
  ghost predicate Planned(log: Log, k: Client, s: Client) {
    && s.pending == k.pending && s.resumed == k.resumed && s.landing.None? && s.repairs == 0 && s.down == []
    && log.floor <= s.cursor <= log.head && s.up == [RowsReq(s.cursor, s.resumed)] + Pushes(s.pending)
    && (s.phase.Backfill? || (s.phase == Fetching(StateOf(log), [], None) && log.checkpoint.Some? && s.cursor == log.floor))
  }

  lemma Planning(log: Log, accepted: seq<LogRow>, k: Client)
    requires LogOk(log, accepted)
    requires k.phase.Greeting? && k.landing.None? && k.up == [] && k.down == [State(StateOf(log))]
    ensures Planned(log, k, Receive(k))
  {
    var h, s := StateOf(log), Receive(k);
    StateIsAnswered(k);
    StateAsks(k.(down := k.down[1..]), h);
    StateIs(log, accepted);
    PlannedFromFloor(log, accepted, Trusted(k, h), !h.present || Holds(k, h));
    assert [] + [RowsReq(s.cursor, k.resumed)] + Pushes(k.pending) == [RowsReq(s.cursor, k.resumed)] + Pushes(k.pending);
  }

  lemma FetchedAndImported(w: World, c: string)
    requires LogOk(w.log, w.accepted) && c in w.clients
    requires Planned(w.log, w.clients[c], w.clients[c]) && w.clients[c].phase.Fetching?
    ensures var f := Do(w, Fetch(c));
            && c in f.clients && f.log == w.log && f.clients[c].phase.Fetching?
            && var v := Do(f, ImportFetched(c));
               c in v.clients && Asking(v, c) && v.clients[c].pending == w.clients[c].pending
  {
    var f := Do(w, Fetch(c));
    StateIs(w.log, w.accepted);
    CheckpointLands(f.clients[c]);
    assert f.clients[c].phase.buffered + f.clients[c].down == [];
  }

  /** The state frame is answered, and the checkpoint fetched and imported if the plan says so. */
  lemma Starting(w0: World, c: string, w: World) returns (v: World)
    requires Reaches(w0, c, w)
    requires var k := w.clients[c];
             k.phase.Greeting? && k.landing.None? && k.up == [] && k.down == [State(StateOf(w.log))]
    ensures Reaches(w0, c, v) && SameQueue(w, v, c) && Asking(v, c)
  {
    Planning(w.log, w.accepted, w.clients[c]);
    Delivered(w, c);
    var u := Do(w, Deliver(c));
    GoOn(w0, c, w, Deliver(c));
    if u.clients[c].phase.Backfill? {
      v := u;
    } else {
      FetchedAndImported(u, c);
      GoOn(w0, c, u, Fetch(c));
      v := Do(Do(u, Fetch(c)), ImportFetched(c));
      GoOn(w0, c, Do(u, Fetch(c)), ImportFetched(c));
    }
  }

  lemma PlannedFromFloor(log: Log, accepted: seq<LogRow>, cursor: nat, contained: bool)
    requires LogOk(log, accepted)
    ensures var plan := PlanCatchUp(cursor, StateOf(log), contained);
            && log.floor <= plan.after <= log.head && (plan.CheckpointThenRows? ==> plan.after == log.floor)
  {
    PlanIs(cursor, StateOf(log), contained);
  }

  // ── the backfill ──────────────────────────────────────────────────────────

  /** The rest of the answer to a rows request. */
  ghost predicate Answering(w: World, c: string, rest: seq<LogRow>)
    requires c in w.clients
  {
    var k := w.clients[c];
    && |k.down| == |rest| + 1 && k.down[..|rest|] == RowFrames(rest) && k.down[|rest|].RowsDone? && k.down[|rest|].owed.Some?
    && (forall i :: 0 <= i < |rest| ==> rest[i].serial <= w.log.head)
    && k.landing.None? && w.log.floor <= k.cursor <= w.log.head
  }

  ghost predicate Filling(w: World, c: string, rest: seq<LogRow>)
    requires c in w.clients
  {
    var k := w.clients[c];
    Answering(w, c, rest) && k.phase.Backfill? && k.repairs == 0 && k.up == Pushes(k.pending)
  }

  lemma StoredSerials(log: Log, accepted: seq<LogRow>, row: LogRow)
    requires LogOk(log, accepted) && row in log.rows
    ensures row.serial <= log.head
  {
    var j :| 0 <= j < |log.rows| && log.rows[j] == row;
    assert log.rows[j] == accepted[log.floor + j];
  }

  lemma FramesSplit(rows: seq<LogRow>, done: Down)
    ensures var out := RowFrames(rows) + [done];
            |out| == |rows| + 1 && out[..|rows|] == RowFrames(rows) && out[|rows|] == done
  {
  }

  /** The rows an answer brings; the whole tail of the history if own ones are not left out. */
  lemma Answered(log: Log, accepted: seq<LogRow>, device: string, after: nat, excludeOwn: bool, owed: Option<set<OpId>>)
    returns (rows: seq<LogRow>)
    requires LogOk(log, accepted)
    ensures var out := RowsAnswer(log, device, after, excludeOwn, owed);
            && |out| == |rows| + 1 && out[..|rows|] == RowFrames(rows) && out[|rows|] == RowsDone(log.head, after, owed)
    ensures forall i :: 0 <= i < |rows| ==> rows[i].serial <= log.head
    ensures !excludeOwn && log.floor <= after <= log.head ==> rows == accepted[after..]
  {
    var exclude := if excludeOwn then device else "";
    rows := RowsAfter(log.rows, after, exclude);
    RowsAfterAre(log.rows, after, exclude);
    FramesSplit(rows, RowsDone(log.head, after, owed));
    forall i | 0 <= i < |rows|
      ensures rows[i].serial <= log.head
    {
      assert rows[i] in rows;
      StoredSerials(log, accepted, rows[i]);
    }
    if !excludeOwn && log.floor <= after <= log.head {
      TailIsAfter(log, accepted, after);
    }
  }

  lemma TailIsAfter(log: Log, accepted: seq<LogRow>, after: nat)
    requires LogOk(log, accepted) && log.floor <= after <= log.head
    ensures RowsAfter(log.rows, after, "") == accepted[after..]
  {
    RowsAfterIsTail(log.rows, log.floor, after);
    assert log.rows[after - log.floor..] == accepted[after..];
  }

  lemma Asked(w0: World, c: string, w: World) returns (v: World, rest: seq<LogRow>)
    requires Reaches(w0, c, w) && Asking(w, c)
    ensures Reaches(w0, c, v) && SameQueue(w, v, c) && Filling(v, c, rest)
  {
    var k := w.clients[c];
    v := Do(w, Serve(c));
    GoOn(w0, c, w, Serve(c));
    rest := Answered(w.log, w.accepted, c, k.cursor, k.resumed, Some(OpsFrom(w.accepted, k.cursor)));
    ServedRows(w, c);
    assert k.up[1..] == Pushes(k.pending);
    var out := RowsAnswer(w.log, c, k.cursor, k.resumed, Some(OpsFrom(w.accepted, k.cursor)));
    assert [] + out == out;
  }

  lemma AnswerTail(w: World, c: string, rest: seq<LogRow>)
    requires c in w.clients && Answering(w, c, rest) && rest != []
    ensures var down := w.clients[c].down;
            && down[0] == RowDown(rest[0]) && |down[1..]| == |rest[1..]| + 1
            && down[1..][..|rest[1..]|] == RowFrames(rest[1..]) && down[1..][|rest[1..]|] == down[|rest|]
  {
    var down := w.clients[c].down;
    assert down[..|rest|][0] == RowFrames(rest)[0];
    assert RowFrames(rest)[1..] == RowFrames(rest[1..]);
    assert down[1..][..|rest| - 1] == down[..|rest|][1..];
  }

  lemma {:induction false} Fill(w0: World, c: string, w: World, rest: seq<LogRow>) returns (v: World)
    requires Reaches(w0, c, w) && Filling(w, c, rest)
    ensures Reaches(w0, c, v) && SameQueue(w, v, c) && Filling(v, c, [])
    decreases |rest|
  {
    if rest == [] {
      v := w;
    } else {
      var k := w.clients[c];
      AnswerTail(w, c, rest);
      var u := Do(w, Deliver(c));
      GoOn(w0, c, w, Deliver(c));
      Delivered(w, c);
      RowWalks(k.(down := k.down[1..]), rest[0]);
      var s := Do(u, Land(c));
      GoOn(w0, c, u, Land(c));
      Landed(u, c);
      RowLands(u.clients[c]);
      v := Fill(w0, c, s, rest[1..]);
    }
  }

  /** Steady after a whole backfill: the queue is on its way, and behind it a repair request if a gap was met. */
  ghost predicate Settling(w: World, c: string)
    requires c in w.clients
  {
    var k := w.clients[c];
    && k.phase.Steady? && k.whole && k.landing.None? && !k.gap && k.down == [] && w.log.floor <= k.cursor <= w.log.head
    && k.up == Pushes(k.pending) + if k.repairs == 0 then [] else [RowsReq(k.cursor, false)]
  }

  lemma Filled(w0: World, c: string, w: World) returns (v: World)
    requires Reaches(w0, c, w) && Filling(w, c, [])
    ensures Reaches(w0, c, v) && SameQueue(w, v, c) && Settling(v, c)
  {
    var k := w.clients[c];
    v := Do(w, Deliver(c));
    GoOn(w0, c, w, Deliver(c));
    Delivered(w, c);
    BackfillEnds(k);
    assert k.down[1..] == [];
    assert Pushes(k.pending) + [] == Pushes(k.pending);
  }

  /** A whole session up to the end of its backfill, from anywhere. */
  lemma Session(w0: World, c: string, w: World) returns (v: World)
    requires Reaches(w0, c, w)
    ensures Reaches(w0, c, v) && SameQueue(w, v, c) && Settling(v, c)
  {
    var a := HangingUp(w0, c, w);
    var b := Greeting(w0, c, a);
    var d := Starting(w0, c, b);
    var e, rest := Asked(w0, c, d);
    var f := Fill(w0, c, e, rest);
    v := Filled(w0, c, f);
  }

  // ── the queue ─────────────────────────────────────────────────────────────

  ghost predicate Named(k: Client) {
    forall p :: p in k.pending ==> p.batch != ""
  }

  lemma {:induction false} DropShortens(pending: seq<Pending>, batch: string)
    ensures |DropBatch(pending, batch)| <= |pending|
    ensures pending != [] && pending[0].batch == batch ==> |DropBatch(pending, batch)| < |pending|
  {
    if pending != [] {
      DropShortens(pending[1..], batch);
    }
  }

  /** The first batch of the queue is taken up and answered. */
  lemma PushServed(w: World, c: string)
    requires Base(w) && c in w.clients && Settling(w, c) && Named(w.clients[c]) && w.clients[c].pending != []
    ensures var k, p := w.clients[c], w.clients[c].pending[0];
            var reply := PushReply(w.log, c, p.batch, p.update);
            && c in Do(w, Serve(c)).clients && Do(w, Serve(c)).clients[c] == k.(up := k.up[1..], down := [reply])
            && (reply.Ack? || (reply.ErrorDown? && Permanent(reply.code))) && reply.batch == p.batch && p.batch != ""
  {
    var k := w.clients[c];
    var p := k.pending[0];
    assert p in k.pending;
    assert k.up[0] == PushUp(p.batch, p.update);
    PushIsAnswered(w.log, w.accepted, c, p.batch, p.update);
    assert [] + [PushReply(w.log, c, p.batch, p.update)] == [PushReply(w.log, c, p.batch, p.update)];
    ServedAlone(w, c, p.batch, p.update);
  }

  lemma ServedAlone(w: World, c: string, batch: string, update: Update)
    requires c in w.clients && w.clients[c].up != [] && w.clients[c].up[0] == PushUp(batch, update) && !w.clients[c].phase.Offline?
    ensures var k, v := w.clients[c], Do(w, Serve(c));
            c in v.clients && v.clients[c] == k.(up := k.up[1..], down := k.down + [PushReply(w.log, c, batch, update)])
  {
  }

  lemma SteadyReceives(k: Client)
    requires k.phase.Steady? && k.down != [] && (k.down[0].Ack? || k.down[0].ErrorDown?)
    ensures Receive(k) == RepairGap(HandleFrame(k.(down := k.down[1..]), k.down[0]))
  {
  }

  lemma HandledIs(k: Client, f: Down)
    requires f.Ack? || (f.ErrorDown? && Permanent(f.code) && f.batch != "")
    ensures HandleFrame(k, f).pending == DropBatch(k.pending, f.batch)
  {
  }

  /** The verdict on the first batch of the queue takes it out. */
  lemma AnswerDrops(k: Client)
    requires k.phase.Steady? && Named(k) && k.pending != [] && k.pending[0].batch != "" && k.down != []
    requires k.down[0].Ack? || (k.down[0].ErrorDown? && Permanent(k.down[0].code))
    requires k.down[0].batch == k.pending[0].batch
    ensures Named(Receive(k)) && |Receive(k).pending| < |k.pending|
  {
    SteadyReceives(k);
    HandledIs(k.(down := k.down[1..]), k.down[0]);
    RepairKeepsQueue(HandleFrame(k.(down := k.down[1..]), k.down[0]));
    DropBatchIs(k.pending, k.pending[0].batch);
    DropShortens(k.pending, k.pending[0].batch);
  }

  /** The first batch of the queue is pushed and answered, and leaves it. */
  lemma PushOne(w0: World, c: string, w: World) returns (v: World)
    requires Reaches(w0, c, w) && Settling(w, c) && Named(w.clients[c]) && w.clients[c].pending != []
    ensures Reaches(w0, c, v) && Named(v.clients[c]) && |v.clients[c].pending| < |w.clients[c].pending|
  {
    PushServed(w, c);
    var u := Do(w, Serve(c));
    GoOn(w0, c, w, Serve(c));
    v := Do(u, Deliver(c));
    GoOn(w0, c, u, Deliver(c));
    Delivered(u, c);
    AnswerDrops(u.clients[c]);
  }

  // ── the last repair ───────────────────────────────────────────────────────

  /** Nothing to send, nothing to come, nothing landing, after a whole backfill. */
  ghost predicate AtRest(k: Client) {
    k.phase.Steady? && k.whole && k.landing.None? && !k.gap && k.up == [] && k.down == [] && k.pending == []
  }

  ghost predicate Repairing(w: World, c: string, rest: seq<LogRow>, after: nat)
    requires c in w.clients
  {
    var k := w.clients[c];
    && Answering(w, c, rest) && k.phase.Steady? && k.whole && !k.gap && k.up == [] && k.pending == []
    && after <= k.cursor && forall i :: 0 <= i < |rest| ==> rest[i].serial == after + 1 + i
  }

  lemma RepairOne(w: World, c: string, rest: seq<LogRow>, after: nat)
    requires c in w.clients && Repairing(w, c, rest, after) && rest != []
    ensures var u := Do(w, Deliver(c));
            && c in u.clients && u.clients[c].landing.Some?
            && var s := Do(u, Land(c));
               c in s.clients && Repairing(s, c, rest[1..], after + 1)
  {
    var k := w.clients[c];
    AnswerTail(w, c, rest);
    Delivered(w, c);
    RowWalks(k.(down := k.down[1..]), rest[0]);
    Landed(Do(w, Deliver(c)), c);
    RowLands(Do(w, Deliver(c)).clients[c]);
  }

  lemma {:induction false} Repair(w0: World, c: string, w: World, rest: seq<LogRow>, after: nat) returns (v: World)
    requires Reaches(w0, c, w) && Repairing(w, c, rest, after)
    ensures Reaches(w0, c, v) && AtRest(v.clients[c])
    decreases |rest|
  {
    var u := Do(w, Deliver(c));
    GoOn(w0, c, w, Deliver(c));
    if rest == [] {
      Delivered(w, c);
      assert w.clients[c].down[1..] == [];
      v := u;
    } else {
      RepairOne(w, c, rest, after);
      GoOn(w0, c, u, Land(c));
      v := Repair(w0, c, Do(u, Land(c)), rest[1..], after + 1);
    }
  }

  lemma AnsweredWhole(log: Log, accepted: seq<LogRow>, device: string, after: nat, owed: Option<set<OpId>>) returns (rows: seq<LogRow>)
    requires LogOk(log, accepted) && log.floor <= after <= log.head
    ensures var out := RowsAnswer(log, device, after, false, owed);
            && |out| == |rows| + 1 && out[..|rows|] == RowFrames(rows) && out[|rows|] == RowsDone(log.head, after, owed)
    ensures forall i :: 0 <= i < |rows| ==> rows[i].serial == after + 1 + i && rows[i].serial <= log.head
  {
    rows := Answered(log, accepted, device, after, false, owed);
    assert forall i :: 0 <= i < |rows| ==> rows[i] == accepted[after + i];
  }

  /** The repair request is taken up: it is answered with everything after the cursor. */
  lemma RepairStarts(w: World, c: string) returns (rest: seq<LogRow>)
    requires Base(w) && c in w.clients && Settling(w, c) && w.clients[c].pending == [] && w.clients[c].repairs != 0
    ensures var u := Do(w, Serve(c)); c in u.clients && Repairing(u, c, rest, w.clients[c].cursor)
  {
    var k := w.clients[c];
    assert k.up == [RowsReq(k.cursor, false)] && k.up[1..] == [];
    ServedRows(w, c);
    var owed := Some(OpsFrom(w.accepted, k.cursor));
    rest := AnsweredWhole(w.log, w.accepted, c, k.cursor, owed);
    assert [] + RowsAnswer(w.log, c, k.cursor, false, owed) == RowsAnswer(w.log, c, k.cursor, false, owed);
  }

  lemma Finish(w0: World, c: string, w: World) returns (v: World)
    requires Reaches(w0, c, w) && Settling(w, c) && w.clients[c].pending == []
    ensures Reaches(w0, c, v) && AtRest(v.clients[c])
  {
    if w.clients[c].repairs == 0 {
      v := w;
    } else {
      var rest := RepairStarts(w, c);
      GoOn(w0, c, w, Serve(c));
      v := Repair(w0, c, Do(w, Serve(c)), rest, w.clients[c].cursor);
    }
  }

  /** One session for each batch in the queue, and one more. */
  lemma {:induction false} Sessions(w0: World, c: string, w: World) returns (v: World)
    requires Reaches(w0, c, w) && Named(w.clients[c])
    ensures Reaches(w0, c, v) && AtRest(v.clients[c])
    decreases |w.clients[c].pending|
  {
    var s := Session(w0, c, w);
    if s.clients[c].pending == [] {
      v := Finish(w0, c, s);
    } else {
      var u := PushOne(w0, c, s);
      v := Sessions(w0, c, u);
    }
  }

  // ── what single steps do ──────────────────────────────────────────────────

  /** A nudge sends the whole queue again, in order. */
  lemma NudgeSendsTheQueue(w: World, c: string)
    requires c in w.clients && w.clients[c].phase.Steady? && w.clients[c].landing.None?
    ensures var k, s := w.clients[c], Do(w, Nudge(c)).clients[c];
            && |s.up| == |k.up| + |k.pending| && s.up[..|k.up|] == k.up
            && (forall i :: 0 <= i < |k.pending| ==> s.up[|k.up| + i] == PushUp(k.pending[i].batch, k.pending[i].update))
            && s == k.(up := s.up)
  {
  }

  /** A local update is in the document at once and queued behind everything else unless it is too long; its batch is issued only once. */
  lemma WritesAreQueued(w: World, c: string, batch: string, update: Update)
    requires c in w.clients
    ensures var v := Do(w, Write(c, batch, update));
            && v.log == w.log && batch in v.issued
            && (batch in w.issued ==> v == w)
            && (batch !in w.issued ==>
                  && v.issued == w.issued[batch := (c, update)]
                  && v.clients[c].doc == w.clients[c].doc + update.ops
                  && v.clients[c].pending == (w.clients[c].pending + if update.size <= 1024 * 1024 - 4096 then [Pending(batch, update)] else [])
                  && v.clients[c].phase == w.clients[c].phase && v.clients[c].up == w.clients[c].up)
  {
  }

  // ── every client can catch up ─────────────────────────────────────────────

  lemma {:induction false} StaysGuarded(devices: set<string>, steps: seq<Step>, more: seq<Step>, c: string)
    requires Guarded(devices, steps) && forall s :: s in more ==> SessionStep(s, c)
    ensures Guarded(devices, steps + more)
    decreases |more|
  {
    if more == [] {
      assert steps + more == steps;
    } else {
      var front := more[..|more| - 1];
      StaysGuarded(devices, steps, front, c);
      assert (steps + more)[..|steps + more| - 1] == steps + front;
      assert more[|more| - 1] in more;
    }
  }

  /**
   From every world of every run, steps of one client's own sessions bring it to rest: steady, with nothing
   to send, to handle or to ask for. All it ever wrote has then been accepted, or was too long to be queued,
   or is empty or of a name the room refuses; and where checkpoints hold what they claim, it holds every update the room has accepted.
   */
  lemma EveryClientCanCatchUp(devices: set<string>, steps: seq<Step>, c: string) returns (more: seq<Step>)
    requires c in Run(devices, steps).clients && Named(Run(devices, steps).clients[c])
    ensures forall s :: s in more ==> SessionStep(s, c)
    ensures var v := Run(devices, steps + more);
            && c in v.clients && AtRest(v.clients[c])
            && (forall b :: b in v.issued && v.issued[b].0 == c ==> WasAccepted(v.accepted, b) || Illegal(b, v.issued[b].1))
            && (Guarded(devices, steps) ==> Covers(v.accepted, |v.accepted|, v.clients[c].doc))
  {
    var w := Run(devices, steps);
    RunsKeepBase(devices, steps);
    Stay(w, c);
    var v := Sessions(w, c, w);
    more :| Leads(w, c, v, more);
    RunGoesOn(devices, steps, more);
    forall b | b in v.issued && v.issued[b].0 == c
      ensures WasAccepted(v.accepted, b) || Illegal(b, v.issued[b].1)
    {
      LocalUpdatesSurvive(devices, steps + more, c, b);
    }
    if Guarded(devices, steps) {
      StaysGuarded(devices, steps, more, c);
      FollowersAreCurrent(devices, steps + more, c);
    }
  }
}
