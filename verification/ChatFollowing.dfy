/**
 Convergence on the chat relay: a client that has caught up in its session and has nothing left to handle
 holds every update the room has accepted (`crates/sync/src/chat_client.rs`, `edge/src/chat-room.ts`).
 */
module ChatFollowing {
  import opened Prelude
  import opened ChatLog
  import opened ChatSync
  import opened ChatClient
  import opened ChatLaws
  import opened ChatConservation

  /** `have` holds everything accepted from row `n` on. */
  ghost predicate Heard(accepted: seq<LogRow>, n: nat, have: set<OpId>) {
    forall i :: n <= i < |accepted| ==> accepted[i].update.ops <= have
  }

  /** What the client has or will have once everything on its way has been handled. */
  ghost function Coming(k: Client): set<OpId> {
    Reached(k) + Gain(Inflow(k))
  }

  /**
   From the state frame on the client hears of every row. The end of a backfill is no older than that frame,
   and once one was complete the document has everything from before it too.
   */
  ghost predicate Follows(accepted: seq<LogRow>, k: Client) {
    match k.phase
    case Offline => true
    case Greeting =>
      (k.up == [Hello] && k.down == [])
      || (k.up == [] && k.down != [] && k.down[0].State? && Heard(accepted, k.down[0].header.head, k.doc + Gain(k.down[1..])))
    case _ =>
      && k.since <= |accepted| && Heard(accepted, k.since, Coming(k))
      && (forall u :: u in k.up ==> !u.Hello?)
      && (forall f :: f in Inflow(k) && f.RowsDone? ==> k.since <= f.head)
      && (k.whole ==> Covers(accepted, k.since, k.doc))
  }

  ghost predicate AllFollow(w: World) {
    forall c :: c in w.clients ==> Follows(w.accepted, w.clients[c])
  }

  lemma {:induction false} GainConcat(a: seq<Down>, b: seq<Down>)
    ensures Gain(a + b) == Gain(a) + Gain(b)
  {
    if a == [] {
      assert a + b == b;
    } else {
      assert (a + b)[0] == a[0] && (a + b)[1..] == a[1..] + b;
      GainConcat(a[1..], b);
    }
  }

  // ── the client's own steps ────────────────────────────────────────────────

  /** A session that goes on with as much as before still follows. */
  lemma FollowsOn(accepted: seq<LogRow>, k: Client, s: Client)
    requires Follows(accepted, k) && !k.phase.Offline? && !k.phase.Greeting? && !s.phase.Offline? && !s.phase.Greeting?
    requires s.since == k.since && Coming(k) <= Coming(s) && k.doc <= s.doc
    requires forall u :: u in s.up ==> u in k.up || !u.Hello?
    requires forall f :: f in Inflow(s) ==> f in Inflow(k)
    requires s.whole ==> k.whole || Covers(accepted, k.since, s.doc)
    ensures Follows(accepted, s)
  {
  }

  lemma StateFollows(log: Log, accepted: seq<LogRow>, k: Client)
    requires Follows(accepted, k) && k.phase.Greeting? && k.down != [] && k.down[0].State? && k.landing.None?
    requires HeadOk(accepted, log, k.down[0].header) && forall f :: f in k.down ==> !f.RowsDone?
    ensures Follows(accepted, Receive(k))
  {
    var s := Receive(k);
    StateIsAnswered(k);
    StateAsks(k.(down := k.down[1..]), k.down[0].header);
    assert Inflow(s) == k.down[1..] && Reached(s) == k.doc;
  }

  lemma RepairFollows(accepted: seq<LogRow>, k: Client)
    requires Follows(accepted, k) && k.phase.Steady?
    ensures Follows(accepted, RepairGap(k))
  {
    if k.gap && k.repairs < 3 {
      FollowsOn(accepted, k, RepairGap(k));
    }
  }

  lemma HandleFollows(accepted: seq<LogRow>, k: Client)
    requires Follows(accepted, k) && (k.phase.Backfill? || k.phase.Steady?) && k.down != [] && k.landing.None? && !k.down[0].RowsDone?
    ensures Follows(accepted, HandleFrame(k.(down := k.down[1..]), k.down[0]))
  {
    var d, f := k.(down := k.down[1..]), k.down[0];
    var s := HandleFrame(d, f);
    match f {
      case RowDown(row) => RowWalks(d, row);
      case Ack(batch, serial) => AckWalks(d, batch, serial);
      case ErrorDown(code, batch) => ErrorsRetire(d, code, batch);
      case State(_) =>
    }
    assert Gain(k.down) == Gained(f) + Gain(k.down[1..]);
    FollowsOn(accepted, k, s);
  }

  lemma DoneFollows(log: Log, accepted: seq<LogRow>, issued: map<string, (string, Update)>, c: string, k: Client)
    requires ClientOk(log, accepted, issued, c, k) && Follows(accepted, k)
    requires (k.phase.Backfill? || k.phase.Steady?) && k.down != [] && k.landing.None? && k.down[0].RowsDone?
    ensures Follows(accepted, OnRowsDone(k.(down := k.down[1..]), k.down[0]))
  {
    var f := k.down[0];
    assert f in Inflow(k);
    var d := k.(down := k.down[1..], caught := if f.owed.Some? then f.head else k.caught, whole := k.whole || f.owed.Some?);
    if f.owed.Some? {
      DoneHolds(log, accepted, issued, c, k);
    }
    assert Gain(k.down) == Gained(f) + Gain(k.down[1..]);
    FollowsOn(accepted, k, d);
    if k.phase.Backfill? {
      var steady := d.(resumed := true, phase := Steady);
      FollowsOn(accepted, d, steady);
      RepairFollows(accepted, steady);
    }
  }

  lemma ReceiveFollows(log: Log, accepted: seq<LogRow>, issued: map<string, (string, Update)>, c: string, k: Client)
    requires ClientOk(log, accepted, issued, c, k) && Follows(accepted, k) && k.down != [] && k.landing.None?
    ensures Follows(accepted, Receive(k))
  {
    match k.phase
    case Offline =>
    case Greeting =>
      assert k.down[0] in k.down && FrameOk(accepted, log, c, k.cursor, k.down[0]);
      StateFollows(log, accepted, k);
    case Fetching(state, buffered, got) =>
      OthersWait(k);
      assert buffered + k.down == (buffered + [k.down[0]]) + k.down[1..];
      assert Inflow(Receive(k)) == Inflow(k);
      FollowsOn(accepted, k, Receive(k));
    case Backfill =>
      if k.down[0].RowsDone? { DoneFollows(log, accepted, issued, c, k); } else { HandleFollows(accepted, k); }
    case Steady =>
      if k.down[0].RowsDone? { DoneFollows(log, accepted, issued, c, k); } else {
        HandleFollows(accepted, k);
        if !k.down[0].RowDown? {
          RepairFollows(accepted, HandleFrame(k.(down := k.down[1..]), k.down[0]));
        }
      }
  }

  lemma LandFollows(accepted: seq<LogRow>, k: Client)
    requires Follows(accepted, k) && k.landing.Some? && (k.phase.Backfill? || k.phase.Steady?)
    ensures Follows(accepted, ImportRow(k))
  {
    var s := Save(k.(doc := k.doc + k.landing.value.update.ops, landing := None));
    assert Inflow(s) == Inflow(k) && Reached(s) == Reached(k);
    FollowsOn(accepted, k, s);
    if s.phase.Steady? {
      RepairFollows(accepted, s);
    }
  }

  lemma ImportFollows(accepted: seq<LogRow>, k: Client)
    requires Follows(accepted, k) && k.phase.Fetching? && k.phase.got.Some?
    ensures Follows(accepted, Import(k))
  {
    CheckpointLands(k);
    assert Inflow(Import(k)) == Inflow(k);
    FollowsOn(accepted, k, Import(k));
  }

  lemma PushesFollow(accepted: seq<LogRow>, k: Client)
    requires Follows(accepted, k) && k.phase.Steady?
    ensures Follows(accepted, k.(up := k.up + Pushes(k.pending)))
  {
    FollowsOn(accepted, k, k.(up := k.up + Pushes(k.pending)));
  }

  /** Notes and exports do not concern the session. */
  lemma CapturingFollows(accepted: seq<LogRow>, k: Client, s: Client)
    requires Follows(accepted, k) && s == k.(notes := s.notes, drafts := s.drafts)
    ensures Follows(accepted, s)
  {
    assert Inflow(s) == Inflow(k) && Reached(s) == Reached(k);
  }

  lemma ClientStepFollows(log: Log, accepted: seq<LogRow>, issued: map<string, (string, Update)>, c: string, k: Client, step: Step)
    requires ClientOk(log, accepted, issued, c, k) && Follows(accepted, k)
    ensures Follows(accepted, ClientStep(k, step))
  {
    match step
    case Deliver(_) => if k.down != [] && k.landing.None? { ReceiveFollows(log, accepted, issued, c, k); }
    case Land(_) => if k.landing.Some? { LandFollows(accepted, k); }
    case ImportFetched(_) => if k.phase.Fetching? && k.phase.got.Some? { ImportFollows(accepted, k); }
    case Nudge(_) => if k.phase.Steady? && k.landing.None? { PushesFollow(accepted, k); }
    case Note(_) => CapturingFollows(accepted, k, ClientStep(k, step));
    case Export(_, note, size) => if note in k.notes { CapturingFollows(accepted, k, ClientStep(k, step)); }
    case _ =>
  }

  // ── the room's steps ──────────────────────────────────────────────────────

  /** New frames at the end of the socket, and rows accepted meanwhile that are held or among them. */
  lemma HearFollows(a: seq<LogRow>, b: seq<LogRow>, k: Client, more: seq<Down>)
    requires Follows(a, k) && !k.phase.Offline? && (k.phase.Greeting? ==> k.up == []) && a <= b
    requires Heard(b, |a|, k.doc + Gain(more))
    requires forall f :: f in more && f.RowsDone? ==> k.phase.Greeting? || k.since <= f.head
    ensures Follows(b, k.(down := k.down + more))
  {
    var s := k.(down := k.down + more);
    if k.phase.Greeting? {
      assert (k.down + more)[1..] == k.down[1..] + more;
      GainConcat(k.down[1..], more);
    } else {
      assert Inflow(s) == Inflow(k) + more by {
        if k.phase.Fetching? {
          Regroup(k.phase.buffered, k.down, more);
        }
      }
      GainConcat(Inflow(k), more);
      forall i | k.since <= i < |b|
        ensures b[i].update.ops <= Coming(s)
      {
        if i < |a| {
          assert a[i] == b[i];
        }
      }
    }
  }

  lemma SentFollows(accepted: seq<LogRow>, k: Client)
    requires Follows(accepted, k) && k.up != [] && !k.up[0].Hello?
    ensures Follows(accepted, k.(up := k.up[1..])) && !k.phase.Greeting?
  {
    var s := k.(up := k.up[1..]);
    assert Inflow(s) == Inflow(k);
  }

  lemma GreetingFollows(w: World, c: string)
    requires LogOk(w.log, w.accepted) && c in w.clients && Follows(w.accepted, w.clients[c])
    requires !w.clients[c].phase.Offline? && w.clients[c].up != [] && w.clients[c].up[0].Hello?
    ensures Follows(w.accepted, ServeUp(w, c).clients[c])
  {
    var k := w.clients[c];
    var f := State(StateOf(w.log));
    assert k.up[0] in k.up;
    assert k.up[1..] == [] && k.down + [f] == [f] && [f][1..] == [];
    StateIs(w.log, w.accepted);
  }

  lemma AnswerFollows(w: World, c: string)
    requires LogOk(w.log, w.accepted) && c in w.clients && Follows(w.accepted, w.clients[c])
    requires !w.clients[c].phase.Offline? && w.clients[c].up != [] && w.clients[c].up[0].RowsReq?
    ensures Follows(w.accepted, ServeUp(w, c).clients[c])
  {
    var k := w.clients[c];
    var u := k.up[0];
    SentFollows(w.accepted, k);
    var more := RowsReply(w, c, u.after, u.excludeOwn);
    HearFollows(w.accepted, w.accepted, k.(up := k.up[1..]), more);
  }

  /** The pusher holds its own row; everyone else who is ready hears it. */
  lemma PushFollows(w: World, c: string, batch: string, update: Update, d: string)
    requires Inv(w) && AllFollow(w) && c in w.clients && !w.clients[c].phase.Offline? && w.clients[c].up != []
    requires w.clients[c].up[0] == PushUp(batch, update) && d in w.clients
    ensures d in ServePush(w, c, batch, update).clients
    ensures Follows(ServePush(w, c, batch, update).accepted, ServePush(w, c, batch, update).clients[d])
  {
    var n := ServePush(w, c, batch, update);
    var k := w.clients[d];
    LogGrows(w, c, batch, update);
    if d == c {
      assert w.clients[c].up[0] in w.clients[c].up;
      ClientIsOk(w, c);
      SentFollows(w.accepted, k);
      var more := [PushReply(w.log, c, batch, update)];
      PusherHolds(w, c, batch, update);
      HearFollows(w.accepted, n.accepted, k.(up := k.up[1..]), more);
    } else {
      PushIsHeard(w, c, batch, update, d);
      HearerFollows(w, n, k, n.clients[d]);
    }
  }

  lemma PusherHolds(w: World, c: string, batch: string, update: Update)
    requires Inv(w) && c in w.clients && Issued(w.issued, c, batch, update)
    ensures Heard(AcceptedAfterPush(w.log, w.accepted, c, batch, update), |w.accepted|, w.clients[c].doc)
  {
    AppendEffect(w.log, w.accepted, c, batch, update);
    ClientIsOk(w, c);
  }

  lemma HearerFollows(w: World, n: World, k: Client, s: Client)
    requires Follows(w.accepted, k) && w.accepted <= n.accepted && |n.accepted| <= |w.accepted| + 1
    requires s == k.(down := k.down + if |n.accepted| > |w.accepted| && !k.phase.Offline? && (k.up == [] || !k.up[0].Hello?)
                                       then [RowDown(n.accepted[|w.accepted|])] else [])
    ensures Follows(n.accepted, s)
  {
    if |n.accepted| == |w.accepted| {
      assert n.accepted == w.accepted && s == k by {
        assert k.down + [] == k.down;
      }
    } else if !k.phase.Offline? && (k.up == [] || !k.up[0].Hello?) {
      var f := RowDown(n.accepted[|w.accepted|]);
      assert [f][1..] == [];
      HearFollows(w.accepted, n.accepted, k, [f]);
    } else {
      assert k.down + [] == k.down;
      assert k.up != [] ==> k.up[0] in k.up;
    }
  }

  lemma ServeFollows(w: World, c: string, d: string)
    requires Inv(w) && AllFollow(w) && c in w.clients && !w.clients[c].phase.Offline? && w.clients[c].up != [] && d in w.clients
    ensures d in ServeUp(w, c).clients && Follows(ServeUp(w, c).accepted, ServeUp(w, c).clients[d])
  {
    match w.clients[c].up[0]
    case Hello => if d == c { GreetingFollows(w, c); }
    case RowsReq(_, _) => if d == c { AnswerFollows(w, c); }
    case PushUp(batch, update) => PushFollows(w, c, batch, update, d);
  }

  lemma WriteFollows(w: World, c: string, batch: string, update: Update, d: string)
    requires AllFollow(w) && d in w.clients
    ensures Follows(w.accepted, Do(w, Write(c, batch, update)).clients[d])
  {
    var k, s := w.clients[d], Do(w, Write(c, batch, update)).clients[d];
    assert Inflow(s) == Inflow(k);
    if !k.phase.Offline? && !k.phase.Greeting? {
      FollowsOn(w.accepted, k, s);
    }
  }

  lemma GotFollows(accepted: seq<LogRow>, k: Client, got: Option<Checkpoint>)
    requires Follows(accepted, k) && k.phase.Fetching?
    ensures Follows(accepted, k.(phase := k.phase.(got := got)))
  {
    var s := k.(phase := k.phase.(got := got));
    assert Inflow(s) == Inflow(k);
    FollowsOn(accepted, k, s);
  }

  lemma FetchFollows(w: World, c: string)
    requires AllFollow(w) && c in w.clients
    ensures Follows(w.accepted, Do(w, Fetch(c)).clients[c])
  {
    if w.clients[c].phase.Fetching? && w.log.checkpoint.Some? {
      GotFollows(w.accepted, w.clients[c], w.log.checkpoint);
    }
  }

  /** What one client does on its own. */
  lemma OwnStepFollows(w: World, step: Step, d: string)
    requires Inv(w) && AllFollow(w) && d in w.clients
    requires !step.Write? && !step.Serve? && !step.Fetch? && !step.Capture? && !step.SeedRoom? && !step.CommitPost?
    ensures d in Do(w, step).clients && Follows(Do(w, step).accepted, Do(w, step).clients[d])
  {
    if step.c == d {
      ClientIsOk(w, d);
      ClientStepFollows(w.log, w.accepted, w.issued, d, w.clients[d], step);
    }
  }

  lemma RoomStepFollows(w: World, step: Step, d: string)
    requires AllFollow(w) && d in w.clients
    requires step.Fetch? || step.Capture? || step.SeedRoom? || step.CommitPost?
    ensures d in Do(w, step).clients && Follows(Do(w, step).accepted, Do(w, step).clients[d])
  {
    if step.Fetch? && step.c == d {
      FetchFollows(w, d);
    }
  }

  lemma StepFollows(w: World, step: Step, d: string)
    requires Inv(w) && AllFollow(w) && d in w.clients
    ensures d in Do(w, step).clients && Follows(Do(w, step).accepted, Do(w, step).clients[d])
  {
    if step.Write? {
      WriteFollows(w, step.c, step.batch, step.update, d);
    } else if step.Serve? {
      if step.c in w.clients && !w.clients[step.c].phase.Offline? && w.clients[step.c].up != [] {
        ServeFollows(w, step.c, d);
      }
    } else if step.Fetch? || step.Capture? || step.SeedRoom? || step.CommitPost? {
      RoomStepFollows(w, step, d);
    } else {
      OwnStepFollows(w, step, d);
    }
  }

  lemma {:induction false} RunsFollow(devices: set<string>, steps: seq<Step>)
    requires Guarded(devices, steps)
    ensures AllFollow(Run(devices, steps))
    decreases |steps|
  {
    if steps != [] {
      var front := steps[..|steps| - 1];
      RunsFollow(devices, front);
      RunsKeepInv(devices, front);
      ClientsStay(Run(devices, front), steps[|steps| - 1]);
      forall d | d in Run(devices, steps).clients
        ensures Follows(Run(devices, steps).accepted, Run(devices, steps).clients[d])
      {
        StepFollows(Run(devices, front), steps[|steps| - 1], d);
      }
    }
  }

  /**
   Convergence: in every run whose checkpoints hold what they claim, a steady client that had one complete
   backfill in its session, and has handled everything sent to it, holds every update the room has accepted.
   */
  lemma FollowersAreCurrent(devices: set<string>, steps: seq<Step>, c: string)
    requires Guarded(devices, steps) && c in Run(devices, steps).clients
    requires var k := Run(devices, steps).clients[c];
             k.phase.Steady? && k.whole && k.down == [] && k.landing.None?
    ensures var w := Run(devices, steps); Covers(w.accepted, |w.accepted|, w.clients[c].doc)
  {
    RunsFollow(devices, steps);
    var w := Run(devices, steps);
    var k := w.clients[c];
    assert Coming(k) == k.doc;
  }
}
