/**
 Nothing stands in a replica's way: every run can be continued so that a replica's queue reaches the
 server and the replica reads what the server stores (`crates/sync/src/registry.rs`,
 `edge/src/registry-room.ts`).
 */
module RegistryProgress {
  import opened Prelude
  import opened Hlc
  import opened RegistryCore
  import opened RegistrySize
  import opened RegistryRoom
  import opened RegistryDoc
  import opened RegistryFlight
  import opened RegistrySync
  import opened RegistryReseed
  import opened RegistryReads

  // ── going on from a world ─────────────────────────────────────────────────

  ghost function After(w: World, steps: seq<Step>): World
    decreases |steps|
  {
    if steps == [] then w else Do(After(w, steps[..|steps| - 1]), steps[|steps| - 1])
  }

  lemma AfterSnoc(w: World, steps: seq<Step>, step: Step)
    ensures After(w, steps + [step]) == Do(After(w, steps), step)
  {
    assert (steps + [step])[..|steps|] == steps;
  }

  lemma {:induction false} AfterConcat(w: World, a: seq<Step>, b: seq<Step>)
    ensures After(w, a + b) == After(After(w, a), b)
    decreases |b|
  {
    if b == [] {
      assert a + b == a;
    } else {
      AfterConcat(w, a, b[..|b| - 1]);
      assert (a + b)[..|a + b| - 1] == a + b[..|b| - 1];
    }
  }

  lemma AfterCons(w: World, step: Step, rest: seq<Step>)
    ensures After(w, [step] + rest) == After(Do(w, step), rest)
  {
    assert [] + [step] == [step];
    AfterSnoc(w, [], step);
    AfterConcat(w, [step], rest);
  }

  lemma {:induction false} RunGoesOn(devices: map<nat, string>, steps: seq<Step>, more: seq<Step>)
    ensures Run(devices, steps + more) == After(Run(devices, steps), more)
    decreases |more|
  {
    if more == [] {
      assert steps + more == steps;
    } else {
      RunGoesOn(devices, steps, more[..|more| - 1]);
      assert (steps + more)[..|steps + more| - 1] == steps + more[..|more| - 1];
    }
  }

  // ── a session with everything on its way ──────────────────────────────────

  /** The session is past its greeting, and the whole queue is in flight. */
  ghost predicate Talking(w: World, c: nat) {
    && Inv(w) && c in w.replicas
    && var r := w.replicas[c];
       && r.link.Link? && r.link.ready && r.link.synced && (forall f :: f in r.link.down ==> !f.StateFrame?)
       && (forall b :: b in r.doc.pending ==> b.inFlight) && Deliverable(r.doc.pending)
  }

  /** What is on its way to the server is a batch of the queue, and fits. */
  lemma NextFits(w: World, c: nat)
    requires Talking(w, c) && w.replicas[c].link.up != []
    ensures var u := w.replicas[c].link.up[0]; u.PushUp? && u.frame.size <= MAX_FRAME_BYTES
  {
    var r := w.replicas[c];
    assert ReplicaOk(c, r, w.table, w.handled);
    assert r.link.up[0] in r.link.up;
    var x: Written :| Carries(r.doc.pending, x, r.link.up[0]);
    var i :| 0 <= i < |r.doc.pending| && r.doc.pending[i].id == x.id && r.doc.pending[i].ops == x.ops;
    ToFrameOps(r.doc.pending[i]);
    assert r.doc.pending[i] in r.doc.pending;
  }

  lemma PushServed(w: World, c: nat)
    requires c in w.replicas && w.replicas[c].link.Link? && w.replicas[c].link.ready && w.replicas[c].link.up != []
    requires var u := w.replicas[c].link.up[0]; u.PushUp? && u.frame.size <= MAX_FRAME_BYTES
    ensures var r, v := w.replicas[c], Do(w, TakeUp(c));
            var p := Push(w.table, r.link.up[0].frame);
            c in v.replicas
            && v.replicas[c] == r.(link := r.link.(up := r.link.up[1..],
                                                   down := r.link.down + Broadcast(w.table, p) + [PushReply(r.link.up[0].frame, p)]))
  {
  }

  lemma AnswersAreNoGreetings(down: seq<Frame>, t: Table, frame: PushFrame)
    requires forall f :: f in down ==> !f.StateFrame?
    ensures var p := Push(t, frame);
            forall f :: f in down + Broadcast(t, p) + [PushReply(frame, p)] ==> !f.StateFrame?
  {
  }

  /** The server takes up the next push. */
  lemma TakeOne(w: World, c: nat)
    requires Talking(w, c) && w.replicas[c].link.up != []
    ensures var v := Do(w, TakeUp(c));
            Talking(v, c) && v.replicas[c].link.up == w.replicas[c].link.up[1..] && v.replicas[c].doc == w.replicas[c].doc
  {
    NextFits(w, c);
    StepKeeps(w, TakeUp(c));
    PushServed(w, c);
    AnswersAreNoGreetings(w.replicas[c].link.down, w.table, w.replicas[c].link.up[0].frame);
  }

  lemma {:induction false} TakeAll(w: World, c: nat) returns (more: seq<Step>)
    requires Talking(w, c)
    ensures forall s :: s in more ==> s == TakeUp(c)
    ensures Talking(After(w, more), c) && After(w, more).replicas[c].link.up == []
    decreases |w.replicas[c].link.up|
  {
    if w.replicas[c].link.up == [] {
      more := [];
    } else {
      TakeOne(w, c);
      var rest := TakeAll(Do(w, TakeUp(c)), c);
      more := [TakeUp(c)] + rest;
      AfterCons(w, TakeUp(c), rest);
    }
  }

  lemma {:induction false} SomeOrder(keys: set<Key>) returns (order: seq<Key>)
    ensures Enumerates(order, keys)
    decreases keys
  {
    if keys == {} {
      order := [];
    } else {
      var k :| k in keys;
      var rest := SomeOrder(keys - {k});
      order := [k] + rest;
      assert forall j :: 0 < j < |order| ==> order[j] in rest;
    }
  }

  lemma {:induction false} RetainIn(pending: seq<Batch>, batch: string)
    ensures forall b :: b in Retain(pending, batch) ==> b in pending
  {
    if pending != [] {
      RetainIn(pending[1..], batch);
    }
  }

  /** The replica handles the next frame. */
  lemma DeliverOne(w: World, c: nat) returns (step: Step)
    requires Talking(w, c) && w.replicas[c].link.up == [] && w.replicas[c].link.down != []
    ensures step.Deliver? && step.c == c
    ensures var v := Do(w, step);
            && Talking(v, c) && v.replicas[c].link.up == []
            && v.replicas[c].link.down == w.replicas[c].link.down[1..]
  {
    var r := w.replicas[c];
    var order := SomeOrder(r.doc.authoritative.Keys);
    step := Deliver(c, order, []);
    StepKeeps(w, step);
    assert r.link.down[0] in r.link.down;
    if r.link.down[0].AckFrame? {
      RetainIn(r.doc.pending, r.link.down[0].batch);
    }
  }

  lemma {:induction false} DeliverAll(w: World, c: nat) returns (more: seq<Step>)
    requires Talking(w, c) && w.replicas[c].link.up == []
    ensures forall s :: s in more ==> s.Deliver? && s.c == c
    ensures Talking(After(w, more), c)
    ensures After(w, more).replicas[c].link.up == [] && After(w, more).replicas[c].link.down == []
    decreases |w.replicas[c].link.down|
  {
    if w.replicas[c].link.down == [] {
      more := [];
    } else {
      var step := DeliverOne(w, c);
      var rest := DeliverAll(Do(w, step), c);
      more := [step] + rest;
      AfterCons(w, step, rest);
    }
  }

  /** Once nothing is on the link, nothing is queued. */
  lemma NothingIsLeft(w: World, c: nat)
    requires Talking(w, c) && w.replicas[c].link.up == [] && w.replicas[c].link.down == []
    ensures w.replicas[c].doc.pending == []
  {
    var r := w.replicas[c];
    assert ReplicaOk(c, r, w.table, w.handled);
    assert AckIds([]) + UpIds([]) == [];
    if r.doc.pending != [] {
      assert r.doc.pending[0] in r.doc.pending;
      ToFrameOps(r.doc.pending[0]);
    }
  }

  /** The server takes up what is on its way, and then the replica does. */
  lemma TalkEnds(w: World, c: nat) returns (more: seq<Step>)
    requires Talking(w, c)
    ensures forall s :: s in more ==> s == TakeUp(c) || (s.Deliver? && s.c == c)
    ensures Inv(After(w, more)) && c in After(w, more).replicas && Quiet(After(w, more).replicas[c])
  {
    var up := TakeAll(w, c);
    var down := DeliverAll(After(w, up), c);
    more := up + down;
    AfterConcat(w, up, down);
    NothingIsLeft(After(w, more), c);
  }

  // ── a greeting is sent once a session ─────────────────────────────────────

  ghost predicate GreetedOnce(link: Link) {
    link.Link? ==> forall i :: 0 <= i < |link.down| && link.down[i].StateFrame? ==> i == 0 && !link.synced
  }

  ghost predicate AllGreetedOnce(w: World) {
    forall c :: c in w.replicas ==> GreetedOnce(w.replicas[c].link)
  }

  lemma HearGreets(r: Replica, t: Table, frame: PushFrame)
    requires GreetedOnce(r.link)
    ensures GreetedOnce(Hear(r, Broadcast(t, Push(t, frame))).link)
  {
  }

  lemma ReplyGreets(r: Replica, frame: Frame)
    requires GreetedOnce(r.link) && r.link.Link? && r.link.up != [] && !frame.StateFrame?
    ensures GreetedOnce(Reply(r, frame).link)
  {
  }

  lemma ServeGreets(w: World, c: nat, frame: PushFrame)
    requires AllGreetedOnce(w)
    requires c in w.replicas && w.replicas[c].link.Link? && w.replicas[c].link.up != [] && w.replicas[c].link.ready
    ensures AllGreetedOnce(ServePush(w, c, frame))
  {
    var p := Push(w.table, frame);
    forall d | d in w.replicas
      ensures GreetedOnce(Hear(w.replicas[d], Broadcast(w.table, p)).link)
    {
      assert GreetedOnce(w.replicas[d].link);
      HearGreets(w.replicas[d], w.table, frame);
    }
    ReplyGreets(Hear(w.replicas[c], Broadcast(w.table, p)), PushReply(frame, p));
  }

  lemma StepGreets(w: World, step: Step)
    requires Inv(w) && AllGreetedOnce(w)
    ensures AllGreetedOnce(Do(w, step))
  {
    if !step.Collect? && step.c in w.replicas {
      var r := w.replicas[step.c];
      assert ReplicaOk(step.c, r, w.table, w.handled) && GreetedOnce(r.link);
      if step.TakeUp? && r.link.Link? && r.link.up != [] && r.link.up[0].PushUp?
         && r.link.up[0].frame.size <= MAX_FRAME_BYTES && r.link.ready {
        ServeGreets(w, step.c, r.link.up[0].frame);
      } else if step.TakeUp? && r.link.Link? && r.link.up != [] && r.link.up[0].Hello? {
        UpsArePushes(r.doc.pending, r.link.up);
      }
    }
  }

  lemma {:induction false} RunsGreetOnce(devices: map<nat, string>, steps: seq<Step>)
    ensures AllGreetedOnce(Run(devices, steps))
    decreases |steps|
  {
    if steps != [] {
      RunsGreetOnce(devices, steps[..|steps| - 1]);
      RunsKeepInv(devices, steps[..|steps| - 1]);
      StepGreets(Run(devices, steps[..|steps| - 1]), steps[|steps| - 1]);
    }
  }

  // ── every queue can reach the server ──────────────────────────────────────

  /** Everything ever written here has been accepted, and reads are the server's. */
  ghost predicate CaughtUp(w: World, c: nat) {
    && c in w.replicas && Quiet(w.replicas[c])
    && (forall x :: x in w.replicas[c].issued ==> (c, FrameOf(x)) in w.handled)
    && forall key :: Overlay(w.replicas[c].doc, key) == ServerView(w.table, key)
  }

  lemma QuietIsCaughtUp(devices: map<nat, string>, steps: seq<Step>, c: nat)
    requires c in Run(devices, steps).replicas && Quiet(Run(devices, steps).replicas[c])
    ensures CaughtUp(Run(devices, steps), c)
  {
    var w := Run(devices, steps);
    forall x | x in w.replicas[c].issued
      ensures (c, FrameOf(x)) in w.handled
    {
      LocalWritesSurvive(devices, steps, c, x);
    }
    forall key
      ensures Overlay(w.replicas[c].doc, key) == ServerView(w.table, key)
    {
      QuietReplicasAgree(devices, steps, c, key);
    }
  }

  lemma NudgeTalks(w: World, c: nat)
    requires Inv(w) && AllGreetedOnce(w) && c in w.replicas && w.replicas[c].link.Link? && w.replicas[c].link.synced
    requires Deliverable(w.replicas[c].doc.pending)
    ensures Talking(Do(w, Nudge(c)), c)
  {
    StepKeeps(w, Nudge(c));
    assert ReplicaOk(c, w.replicas[c], w.table, w.handled) && GreetedOnce(w.replicas[c].link);
    MarkedIsDeliverable(w.replicas[c].doc.pending, true);
  }

  /**
   From every world of every run, a session past its greeting whose queue the room does not refuse can be
   finished as it stands: a nudge, the pushes taken up, the answers delivered, and the replica is caught up.
   */
  lemma EverySessionCanFinish(devices: map<nat, string>, steps: seq<Step>, c: nat) returns (more: seq<Step>)
    requires var w := Run(devices, steps);
             && c in w.replicas && w.replicas[c].link.Link? && w.replicas[c].link.synced
             && Deliverable(w.replicas[c].doc.pending)
    ensures forall s :: s in more ==> s == Nudge(c) || s == TakeUp(c) || (s.Deliver? && s.c == c)
    ensures CaughtUp(Run(devices, steps + more), c)
  {
    var w := Run(devices, steps);
    RunsKeepInv(devices, steps);
    RunsGreetOnce(devices, steps);
    NudgeTalks(w, c);
    var rest := TalkEnds(Do(w, Nudge(c)), c);
    more := [Nudge(c)] + rest;
    AfterCons(w, Nudge(c), rest);
    RunGoesOn(devices, steps, more);
    QuietIsCaughtUp(devices, steps + more, c);
  }

  lemma MarkedIsDeliverable(pending: seq<Batch>, flag: bool)
    requires Deliverable(pending)
    ensures Deliverable(Marked(pending, flag))
  {
    forall b | b in Marked(pending, flag)
      ensures !Refused(b) && PushSize(b.id, b.ops) <= 1_000_000
    {
      var i :| 0 <= i < |pending| && b == pending[i].(inFlight := flag);
      assert pending[i] in pending;
      ToFrameOps(pending[i]);
      ToFrameOps(b);
    }
  }

  /** The link is cut, dialled again, and the greeting answered. */
  function Redial(c: nat, order: seq<Key>, now: seq<int>): seq<Step> {
    [Drop(c), Dial(c), TakeUp(c), Deliver(c, order, now)]
  }

  /** What the replica has queued once its new greeting has been answered: the old queue and any seeds. */
  ghost function QueueAfterHello(w: World, c: nat, order: seq<Key>, now: seq<int>): seq<Batch>
    requires c in w.replicas
  {
    var d := Disconnect(w.replicas[c]).doc;
    Handle(d, HelloReply(w.table, HelloCursor(d)), order, now).pending
  }

  lemma RedialledIs(w: World, c: nat, order: seq<Key>, now: seq<int>)
    requires Inv(w) && c in w.replicas && Enumerates(order, w.replicas[c].doc.authoritative.Keys)
    ensures var v := After(w, Redial(c, order, now));
            && Inv(v) && c in v.replicas
            && var r := v.replicas[c];
               && r.link.Link? && r.link.ready && r.link.synced && r.link.down == []
               && r.doc.pending == Marked(QueueAfterHello(w, c, order, now), true)
  {
    var w1 := Do(w, Drop(c));
    StepKeeps(w, Drop(c));
    var w2 := Do(w1, Dial(c));
    StepKeeps(w1, Dial(c));
    var w3 := Do(w2, TakeUp(c));
    StepKeeps(w2, TakeUp(c));
    var w4 := Do(w3, Deliver(c, order, now));
    StepKeeps(w3, Deliver(c, order, now));
    AfterFour(w, Drop(c), Dial(c), TakeUp(c), Deliver(c, order, now));
  }

  lemma AfterFour(w: World, a: Step, b: Step, c: Step, d: Step)
    ensures After(w, [a, b, c, d]) == Do(Do(Do(Do(w, a), b), c), d)
  {
    assert [a, b, c, d] == [a, b, c] + [d] && [a, b, c] == [a, b] + [c] && [a, b] == [a] + [b] && [a] == [] + [a];
    AfterSnoc(w, [a, b, c], d);
    AfterSnoc(w, [a, b], c);
    AfterSnoc(w, [a], b);
    AfterSnoc(w, [], a);
  }

  /**
   From every world of every run, whatever was lost on the way, redialling catches a replica up if nothing
   it then has queued, seeds included, is refused.
   */
  lemma EveryReplicaCanReconnect(devices: map<nat, string>, steps: seq<Step>, c: nat, order: seq<Key>, now: seq<int>)
    returns (more: seq<Step>)
    requires var w := Run(devices, steps);
             && c in w.replicas && Enumerates(order, w.replicas[c].doc.authoritative.Keys)
             && Deliverable(QueueAfterHello(w, c, order, now))
    ensures Redial(c, order, now) <= more
    ensures forall s :: s in more[4..] ==> s == TakeUp(c) || (s.Deliver? && s.c == c)
    ensures CaughtUp(Run(devices, steps + more), c)
  {
    var w := Run(devices, steps);
    RunsKeepInv(devices, steps);
    RedialledIs(w, c, order, now);
    MarkedIsDeliverable(QueueAfterHello(w, c, order, now), true);
    var rest := TalkEnds(After(w, Redial(c, order, now)), c);
    more := Redial(c, order, now) + rest;
    AfterConcat(w, Redial(c, order, now), rest);
    RunGoesOn(devices, steps, more);
    QuietIsCaughtUp(devices, steps + more, c);
  }

  /** Nothing is seeded while the cursor has not been passed by a purge, so the old queue is all that counts. */
  lemma UnlessPurgedNothingIsSeeded(devices: map<nat, string>, steps: seq<Step>, c: nat, order: seq<Key>, now: seq<int>)
    requires c in devices && c in Run(devices, steps).replicas
    requires var w := Run(devices, steps);
             0 < w.replicas[c].doc.serial && w.table.gcFloor <= w.replicas[c].doc.serial
    ensures var w := Run(devices, steps);
            && QueueAfterHello(w, c, order, now) == Marked(w.replicas[c].doc.pending, false)
            && (Deliverable(w.replicas[c].doc.pending) ==> Deliverable(QueueAfterHello(w, c, order, now)))
  {
    CursorAgreement(devices, steps, c);
    var w := Run(devices, steps);
    if Deliverable(w.replicas[c].doc.pending) {
      MarkedIsDeliverable(w.replicas[c].doc.pending, false);
    }
  }

  // ── what single steps do ──────────────────────────────────────────────────

  /** Taking up a push: over a million characters it ends the session, before the hello it is refused unread. */
  lemma PushesAreTaken(w: World, c: nat)
    requires c in w.replicas && w.replicas[c].link.Link? && w.replicas[c].link.up != [] && w.replicas[c].link.up[0].PushUp?
    ensures var r, v := w.replicas[c], Do(w, TakeUp(c));
            var frame := r.link.up[0].frame;
            if frame.size > 1_000_000 then v.table == w.table && v.replicas[c].link.NoLink?
            else if !r.link.ready then
              && v.table == w.table && v.replicas[c].link.Link? && v.replicas[c].link.up == r.link.up[1..]
              && v.replicas[c].link.down == r.link.down + [ErrorFrame("bad_push")]
            else
              && v.table == Push(w.table, frame).table && v.replicas[c].link.Link? && v.replicas[c].link.up == r.link.up[1..]
              && v.replicas[c].link.down == r.link.down + Broadcast(w.table, Push(w.table, frame)) + [PushReply(frame, Push(w.table, frame))]
  {
  }

  /** The alarm leaves everything but tombstones from before the horizon, at every world. */
  lemma OldTombstonesGo(w: World, horizon: Clock, key: Key)
    requires TableOk(w.table)
    ensures var v := Do(w, Collect(horizon));
            && v.replicas == w.replicas
            && (key in v.table.rows <==>
                  key in w.table.rows && !(w.table.rows[key].deleted && w.table.rows[key].delHlc.Some? && w.table.rows[key].delHlc.value < horizon))
  {
    PurgeEffect(w.table, horizon);
  }

  /** A local write is queued behind everything else, op for op. */
  lemma WritesAreQueued(w: World, c: nat, ops: seq<Op>, now: seq<int>)
    requires c in w.replicas && LocalOps(ops)
    ensures var v := Do(w, Write(c, ops, now));
            && v.table == w.table && c in v.replicas && v.replicas[c].link == w.replicas[c].link
            && v.replicas[c].doc.authoritative == w.replicas[c].doc.authoritative
            && PendingOps(v.replicas[c].doc.pending) == PendingOps(w.replicas[c].doc.pending) + ops
            && w.replicas[c].issued <= v.replicas[c].issued
            && forall op :: op in ops ==> exists x :: x in v.replicas[c].issued && op in x.ops
  {
    var d := w.replicas[c].doc;
    EnqueuedOps(d, ops, now);
    var batches := Cut(d.device, d.clock, ops, now);
    CutIsFaithful(d.device, d.clock, ops, now);
    forall op | op in ops
      ensures exists x :: x in Do(w, Write(c, ops, now)).replicas[c].issued && op in x.ops
    {
      var i := InABatch(batches, op);
      assert Written(batches[i].id, batches[i].ops) in Do(w, Write(c, ops, now)).replicas[c].issued;
    }
  }

  lemma {:induction false} InABatch(batches: seq<Batch>, op: Op) returns (i: nat)
    requires op in PendingOps(batches)
    ensures i < |batches| && op in batches[i].ops
  {
    if op in batches[0].ops {
      i := 0;
    } else {
      var j := InABatch(batches[1..], op);
      i := j + 1;
    }
  }

  /** A cut link leaves the queue as it is, with everything in it to be sent again. */
  lemma CutsLoseNothing(w: World, c: nat)
    requires c in w.replicas
    ensures var r, s := w.replicas[c], Do(w, Drop(c)).replicas[c];
            && s.link.NoLink? && MirrorOf(s.doc) == MirrorOf(r.doc)
            && |s.doc.pending| == |r.doc.pending|
            && forall i :: 0 <= i < |r.doc.pending| ==>
                 Of(s.doc.pending[i]) == Of(r.doc.pending[i]) && !s.doc.pending[i].inFlight
  {
  }

  /** Rows and acks move the cursor up to their number, never back. */
  lemma CursorFollows(d: Doc, frame: Frame, order: seq<Key>, now: seq<int>)
    requires frame.RowsFrame? || frame.AckFrame?
    ensures var e := Handle(d, frame, order, now);
            && d.serial <= e.serial && frame.serial <= e.serial && (e.serial == d.serial || e.serial == frame.serial)
            && e.gcFloor == d.gcFloor && e.device == d.device && e.clock == d.clock
  {
  }

  // ── who asks for everything ───────────────────────────────────────────────

  /** A replica that counts no change is as new, and one past its greeting has counted one. */
  ghost predicate Counts(r: Replica, device: string) {
    && (r.doc.generation == 0 ==> r.doc == NewDoc(device))
    && (r.link.Link? && r.link.synced ==> r.doc.generation > 0)
  }

  lemma HandleCounts(r: Replica, device: string, order: seq<Key>, now: seq<int>)
    requires Counts(r, device) && r.link.Link? && r.link.down != []
    ensures Counts(DeliverTo(r, order, now), device)
  {
  }

  lemma {:induction false} RunsCount(devices: map<nat, string>, steps: seq<Step>, c: nat)
    requires c in devices
    ensures c in Run(devices, steps).replicas && Counts(Run(devices, steps).replicas[c], devices[c])
    decreases |steps|
  {
    if steps != [] {
      var front, step := steps[..|steps| - 1], steps[|steps| - 1];
      RunsCount(devices, front, c);
      var r := Run(devices, front).replicas[c];
      if step.Deliver? && step.c == c && r.link.Link? && r.link.down != [] {
        HandleCounts(r, devices[c], step.order, step.now);
      }
      assert Marked([], false) == [] && Marked([], true) == [];
    }
  }

  /** In every run the replicas that ask for everything are the ones that have never seen or written anything. */
  lemma OnlyNewReplicasAskForEverything(devices: map<nat, string>, steps: seq<Step>, c: nat)
    requires c in devices
    ensures c in Run(devices, steps).replicas
    ensures var d := Run(devices, steps).replicas[c].doc;
            && (HelloCursor(d).None? <==> d == NewDoc(devices[c]))
            && (HelloCursor(d).Some? ==> HelloCursor(d).value == d.serial)
  {
    RunsCount(devices, steps, c);
  }
}
