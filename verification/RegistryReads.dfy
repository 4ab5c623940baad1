/**
 What a replica shows of its own unacknowledged writes, and what the two ends say to each other
 (`crates/doc/src/registry.rs`, `crates/sync/src/registry.rs`, `edge/src/registry-room.ts`).
 */
module RegistryReads {
  import opened Prelude
  import opened Hlc
  import opened RegistryCore
  import opened RegistryLaws
  import opened RegistrySize
  import opened RegistryRoom
  import opened RegistryDoc
  import opened RegistryFlight
  import opened RegistrySync
  import opened RegistryReseed

  // ── reads see the queue ───────────────────────────────────────────────────

  ghost predicate Deliverable(batches: seq<Batch>) {
    forall b :: b in batches ==> !Refused(b) && PushSize(b.id, b.ops) <= 1_000_000
  }

  /** What is read now is what the server will show once the queue has been pushed. */
  lemma OverlayIsWhatWillBeStored(d: Doc, t: Table, key: Key)
    requires TableOk(t) && Bare(Get(t.rows, key)) == Bare(Get(d.authoritative, key)) && Deliverable(d.pending)
    ensures Bare(Overlay(d, key)) == Bare(ServerView(PushBatches(t, d.pending), key))
  {
    forall b | b in d.pending
      ensures !Refused(b) && !Oversize(b)
    {
    }
    AllDelivered(d.pending);
    OverlayPredictsTheServer(t, d.pending, key);
    ApplyAllBare(Get(t.rows, key), Get(d.authoritative, key), OpsAt(PendingOps(d.pending), key));
  }

  /**
   In every run a connected replica with nothing coming in reads, of every row the server stores or it does
   not hold itself, what the server will show once its queue has been pushed.
   */
  lemma ReadsAreAhead(devices: map<nat, string>, steps: seq<Step>, c: nat, key: Key)
    requires var w := Run(devices, steps);
             && c in w.replicas && w.replicas[c].link.Link? && w.replicas[c].link.ready && w.replicas[c].link.down == []
             && Deliverable(w.replicas[c].doc.pending)
             && (key in w.table.rows || key !in w.replicas[c].doc.authoritative)
    ensures var w := Run(devices, steps);
            var d := w.replicas[c].doc;
            Bare(Overlay(d, key)) == Bare(ServerView(PushBatches(w.table, d.pending), key))
  {
    RunsKeepInv(devices, steps);
    var w := Run(devices, steps);
    var d := w.replicas[c].doc;
    assert ReplicaOk(c, w.replicas[c], w.table, w.handled);
    assert Final(SeenAll(MirrorOf(d), []), w.table);
    OverlayIsWhatWillBeStored(d, w.table, key);
  }

  // ── a local write is seen at once ─────────────────────────────────────────

  lemma {:induction false} NoneAt(ops: seq<Op>, key: Key)
    requires forall op :: op in ops ==> op.At() != key
    ensures OpsAt(ops, key) == []
  {
    if ops != [] {
      NoneAt(ops[1..], key);
    }
  }

  lemma {:induction false} OnlyOneAt(ops: seq<Op>, i: nat)
    requires OnePerRow(ops) && i < |ops|
    ensures OpsAt(ops, ops[i].At()) == [ops[i]]
    decreases |ops|
  {
    var rest := ops[1..];
    assert forall j :: 0 <= j < |rest| ==> rest[j] == ops[j + 1];
    if i == 0 {
      forall op | op in rest
        ensures op.At() != ops[0].At()
      {
        var j :| 0 <= j < |rest| && rest[j] == op;
      }
      NoneAt(rest, ops[0].At());
    } else {
      OnlyOneAt(rest, i - 1);
    }
  }

  /** Writing puts the ops behind everything queued. */
  lemma WrittenRow(r: Replica, ops: seq<Op>, now: seq<int>, i: nat)
    requires LocalOps(ops) && i < |ops|
    ensures var key := ops[i].At();
            Replayed(r.doc.authoritative, WriteLocal(r, ops, now).doc.pending, key)
            == Apply(Replayed(r.doc.authoritative, r.doc.pending, key), ops[i]).row
  {
    var key := ops[i].At();
    EnqueuedOps(r.doc, ops, now);
    OnlyOneAt(ops, i);
    OpsAtConcat(PendingOps(r.doc.pending), ops, key);
    ApplyAllConcat(Get(r.doc.authoritative, key), OpsAt(PendingOps(r.doc.pending), key), [ops[i]]);
    ApplyAllOne(Replayed(r.doc.authoritative, r.doc.pending, key), ops[i]);
  }

  /** The clock is newer than everything the row, if there is one, was ever written with. */
  ghost predicate Beats(hlc: Clock, row: Option<Row>) {
    row.Some? ==>
      && (forall f :: f in row.value.clocks ==> row.value.clocks[f] < hlc)
      && (row.value.delHlc.Some? ==> row.value.delHlc.value < hlc)
  }

  /** The row has every field as the op writes it, and no field it clears. */
  ghost predicate Shows(row: Row, op: Op) {
    forall f :: f in op.Writes() ==> Get(row.fields, f) == op.Writes()[f]
  }

  lemma UpsertLands(row: Option<Row>, op: Op)
    requires op.op.Upsert? && op.writes.Some? && op.clocks == map[] && Beats(op.hlc, row)
    ensures var out := Apply(row, op).row;
            && out.Some? && !out.value.deleted && Shows(out.value, op)
            && (row.Some? && !row.value.deleted ==>
                  forall f :: f !in op.Writes() ==> Get(out.value.fields, f) == Get(row.value.fields, f))
  {
    var base := if row.None? then Fresh(op.kind, op.id) else if row.value.deleted then Emptied(row.value) else row.value;
    forall f
      ensures Get(Merge(base, op).fields, f) == if f in op.Writes() then op.Writes()[f] else Get(base.fields, f)
    {
      MergeGet(base, op, f);
    }
    if row.Some? && !row.value.deleted && Winners(row.value, op) == {} {
      assert forall f :: f in op.Writes() ==> f in Winners(row.value, op);
    }
  }

  /**
   An upsert newer than the row is read back at once, whatever else is queued: the row is live, has every
   field as written and keeps the others.
   */
  lemma UpsertIsSeen(r: Replica, ops: seq<Op>, now: seq<int>, i: nat)
    requires LocalOps(ops) && i < |ops| && ops[i].op.Upsert? && ops[i].writes.Some? && ops[i].clocks == map[]
    requires Beats(ops[i].hlc, Replayed(r.doc.authoritative, r.doc.pending, ops[i].At()))
    ensures var before, after := Overlay(r.doc, ops[i].At()), Overlay(WriteLocal(r, ops, now).doc, ops[i].At());
            && after.Some? && !after.value.deleted && Shows(after.value, ops[i])
            && (before.Some? ==> forall f :: f !in ops[i].Writes() ==> Get(after.value.fields, f) == Get(before.value.fields, f))
  {
    WrittenRow(r, ops, now, i);
    UpsertLands(Replayed(r.doc.authoritative, r.doc.pending, ops[i].At()), ops[i]);
  }

  lemma UpdateLands(row: Option<Row>, op: Op)
    requires op.op.Update? && op.writes.Some? && op.clocks == map[] && Beats(op.hlc, row)
    ensures var out := Apply(row, op).row;
            if row.None? || row.value.deleted then out == row
            else out.Some? && !out.value.deleted && Shows(out.value, op)
                 && forall f :: f !in op.Writes() ==> Get(out.value.fields, f) == Get(row.value.fields, f)
  {
    if row.Some? && !row.value.deleted {
      forall f
        ensures Get(Merge(row.value, op).fields, f) == if f in op.Writes() then op.Writes()[f] else Get(row.value.fields, f)
      {
        MergeGet(row.value, op, f);
      }
      if Winners(row.value, op) == {} {
        assert forall f :: f in op.Writes() ==> f in Winners(row.value, op);
      }
    }
  }

  /** An update newer than the row is read back if the row was there, and shows no row otherwise. */
  lemma UpdateIsSeen(r: Replica, ops: seq<Op>, now: seq<int>, i: nat)
    requires LocalOps(ops) && i < |ops| && ops[i].op.Update? && ops[i].writes.Some? && ops[i].clocks == map[]
    requires Beats(ops[i].hlc, Replayed(r.doc.authoritative, r.doc.pending, ops[i].At()))
    ensures var before, after := Overlay(r.doc, ops[i].At()), Overlay(WriteLocal(r, ops, now).doc, ops[i].At());
            && (before.None? ==> after.None?)
            && (before.Some? ==> after.Some? && Shows(after.value, ops[i])
                                 && forall f :: f !in ops[i].Writes() ==> Get(after.value.fields, f) == Get(before.value.fields, f))
  {
    WrittenRow(r, ops, now, i);
    UpdateLands(Replayed(r.doc.authoritative, r.doc.pending, ops[i].At()), ops[i]);
  }

  /** A delete newer than the row hides it at once. */
  lemma DeleteIsSeen(r: Replica, ops: seq<Op>, now: seq<int>, i: nat)
    requires LocalOps(ops) && i < |ops| && ops[i].op.Delete?
    requires Beats(ops[i].hlc, Replayed(r.doc.authoritative, r.doc.pending, ops[i].At()))
    ensures Overlay(WriteLocal(r, ops, now).doc, ops[i].At()) == None
  {
    var row := Replayed(r.doc.authoritative, r.doc.pending, ops[i].At());
    WrittenRow(r, ops, now, i);
    if row.Some? {
      MaxClockIsNewest(row.value);
    }
  }

  /** A write leaves every other row's read alone. */
  lemma OtherRowsReadTheSame(r: Replica, ops: seq<Op>, now: seq<int>, key: Key)
    requires LocalOps(ops) && forall op :: op in ops ==> op.At() != key
    ensures Overlay(WriteLocal(r, ops, now).doc, key) == Overlay(r.doc, key)
  {
    EnqueuedOps(r.doc, ops, now);
    NoneAt(ops, key);
    OpsAtConcat(PendingOps(r.doc.pending), ops, key);
    assert OpsAt(PendingOps(r.doc.pending), key) + [] == OpsAt(PendingOps(r.doc.pending), key);
  }

  // ── what the room says ────────────────────────────────────────────────────

  /** The answer to a hello: everything, or exactly what was stamped after the cursor. */
  lemma HelloIsAnswered(t: Table, cursor: Option<nat>)
    requires TableOk(t)
    ensures var reply := HelloReply(t, cursor);
            && reply.StateFrame? && reply.serial == t.serial && reply.gcFloor == t.gcFloor
            && (reply.full <==> cursor.None? || cursor.value < t.gcFloor || t.serial < cursor.value)
            && forall k :: Get(reply.rows, k)
                 == if k in t.rows && (reply.full || cursor.value < t.rows[k].serial) then Some(t.rows[k]) else None
  {
  }

  /**
   Reconnecting is incremental: in every run a replica that has a cursor is sent just the rows stamped after
   it, unless a purge has passed it.
   */
  lemma ReconnectIsIncremental(devices: map<nat, string>, steps: seq<Step>, c: nat, key: Key)
    requires c in devices && c in Run(devices, steps).replicas && Run(devices, steps).replicas[c].doc.serial > 0
    ensures var w := Run(devices, steps);
            var d := w.replicas[c].doc;
            var reply := HelloReply(w.table, HelloCursor(d));
            && (reply.full <==> d.serial < w.table.gcFloor)
            && (!reply.full ==> (key in reply.rows <==> key in w.table.rows && d.serial < w.table.rows[key].serial))
  {
    CursorAgreement(devices, steps, c);
    RunsKeepInv(devices, steps);
  }

  /** The ops of the batch that change the row they find. */
  ghost function ChangedAt(rows: map<Key, Row>, ops: seq<Op>, stamp: nat, n: nat): set<nat>
    requires n <= |ops|
  {
    set i: nat | i < n && Apply(Get(StoreAll(rows, ops[..i], stamp), ops[i].At()), ops[i]).changed
  }

  lemma {:induction false} CountIsCount(rows: map<Key, Row>, ops: seq<Op>, stamp: nat, n: nat)
    requires n <= |ops|
    ensures CountChanges(rows, ops[..n], stamp) == |ChangedAt(rows, ops, stamp, n)|
  {
    if n == 0 {
      assert ChangedAt(rows, ops, stamp, 0) == {};
    } else {
      CountIsCount(rows, ops, stamp, n - 1);
      StoreNext(rows, ops, n - 1, stamp);
      ChangedNext(rows, ops, stamp, n - 1);
    }
  }

  lemma ChangedNext(rows: map<Key, Row>, ops: seq<Op>, stamp: nat, n: nat)
    requires n < |ops|
    ensures |ChangedAt(rows, ops, stamp, n + 1)|
         == |ChangedAt(rows, ops, stamp, n)|
            + if Apply(Get(StoreAll(rows, ops[..n], stamp), ops[n].At()), ops[n]).changed then 1 else 0
  {
    var c := Apply(Get(StoreAll(rows, ops[..n], stamp), ops[n].At()), ops[n]).changed;
    assert ChangedAt(rows, ops, stamp, n + 1) == ChangedAt(rows, ops, stamp, n) + if c then {n} else {};
  }

  /** Its identifiers match, it is not too long, and it carries fields exactly when it is not a delete. */
  ghost predicate Acceptable(w: WireOp) {
    && w.patternsOk && w.size <= 16_384
    && match w.op.op
       case Delete => w.op.writes.None?
       case Upsert => w.op.writes.Some?
       case Update => w.op.writes.Some?
  }

  lemma AcceptableIs(w: WireOp)
    ensures Acceptable(w) <==> ValidateOp(w)
  {
  }

  /** Which pushes are refused, and with what. */
  lemma PushIsRefused(t: Table, frame: PushFrame)
    requires TableOk(t)
    ensures var outcome := Push(t, frame).outcome;
            if frame.batch == "" || |frame.ops| == 0 || |frame.ops| > 500 then outcome == Rejected("bad_push")
            else if exists i :: 0 <= i < |frame.ops| && !Acceptable(frame.ops[i]) then outcome == Rejected("invalid_op")
            else outcome.Accepted? && outcome.serial == Push(t, frame).table.serial
                 && outcome.applied == CountChanges(t.rows, Ops(frame), t.serial + 1)
  {
    forall i | 0 <= i < |frame.ops|
      ensures Acceptable(frame.ops[i]) <==> ValidateOp(frame.ops[i])
    {
      AcceptableIs(frame.ops[i]);
    }
  }

  /** The sender of a push hears an ack that names its batch and counts the ops that changed something, or an error. */
  lemma PushIsAnswered(t: Table, frame: PushFrame)
    requires TableOk(t)
    ensures var p := Push(t, frame);
            PushReply(frame, p)
            == if frame.batch == "" || |frame.ops| == 0 || |frame.ops| > 500 then ErrorFrame("bad_push")
               else if exists i :: 0 <= i < |frame.ops| && !Acceptable(frame.ops[i]) then ErrorFrame("invalid_op")
               else AckFrame(frame.batch, p.table.serial, |ChangedAt(t.rows, Ops(frame), t.serial + 1, |frame.ops|)|)
  {
    PushIsRefused(t, frame);
    CountIsCount(t.rows, Ops(frame), t.serial + 1, |frame.ops|);
    assert Ops(frame)[..|frame.ops|] == Ops(frame);
  }

  /** Everyone ready hears exactly the rows that changed, as they now are, or nothing if none did. */
  lemma PushIsHeard(t: Table, frame: PushFrame)
    requires TableOk(t)
    ensures var p := Push(t, frame);
            var news := Broadcast(t, p);
            if p.table.rows == t.rows then news == []
            else |news| == 1 && news[0].RowsFrame? && news[0].serial == p.table.serial == t.serial + 1
                 && forall k :: Get(news[0].rows, k) == if Get(p.table.rows, k) != Get(t.rows, k) then Get(p.table.rows, k) else None
  {
    PushEffect(t, frame);
  }

  // ── what the replica does ─────────────────────────────────────────────────

  /** Pushing puts everything queued in flight and sends what was not. */
  lemma PushingSendsTheRest(r: Replica)
    requires r.link.Link?
    ensures var s := PushPending(r);
            && Ids(s.doc.pending) == Ids(r.doc.pending) && (forall b :: b in s.doc.pending ==> b.inFlight)
            && s.link.Link? && r.link.up <= s.link.up
            && forall b :: b in r.doc.pending && !b.inFlight ==> PushUp(ToFrame(b)) in s.link.up[|r.link.up|..]
  {
    var s := PushPending(r);
    var out := Pushes(Pushable(r.doc.pending));
    assert s.link.up[|r.link.up|..] == out;
    forall b | b in r.doc.pending && !b.inFlight
      ensures PushUp(ToFrame(b)) in out
    {
      PushableHas(r.doc.pending, b);
      var i :| 0 <= i < |Pushable(r.doc.pending)| && Pushable(r.doc.pending)[i] == b.(inFlight := true);
      ToFrameOps(b);
      ToFrameOps(b.(inFlight := true));
      assert out[i] == PushUp(ToFrame(b));
    }
  }

  lemma {:induction false} PushableHas(pending: seq<Batch>, b: Batch)
    requires b in pending && !b.inFlight
    ensures b.(inFlight := true) in Pushable(pending)
  {
    if b != pending[0] {
      PushableHas(pending[1..], b);
    }
  }

  /** The state frame ends the greeting and everything queued goes out, seeds included; a nudge does the same. */
  lemma StateFrameStartsPushing(r: Replica, order: seq<Key>, now: seq<int>)
    requires r.link.Link? && !r.link.synced && r.link.down != [] && r.link.down[0].StateFrame?
    ensures var d := Handle(r.doc, r.link.down[0], order, now);
            var s := DeliverTo(r, order, now);
            && s.link.Link? && s.link.synced && s.link.down == r.link.down[1..]
            && Ids(s.doc.pending) == Ids(d.pending) && (forall b :: b in s.doc.pending ==> b.inFlight)
            && forall b :: b in d.pending && !b.inFlight ==> PushUp(ToFrame(b)) in s.link.up
  {
    var d := Handle(r.doc, r.link.down[0], order, now);
    var popped := r.(link := r.link.(down := r.link.down[1..]));
    PushingSendsTheRest(popped.(doc := d, link := popped.link.(synced := true)));
  }

  /** Which of its three answers a state frame gets. */
  lemma StateOutcomeIs(d: Doc, serial: nat, full: bool, gcFloor: nat, rows: map<Key, Row>, order: seq<Key>, now: seq<int>)
    requires ReplicaRows(d.authoritative) && Enumerates(order, d.authoritative.Keys)
    ensures var s := ApplyState(d, serial, full, gcFloor, rows, order, now);
            && s.doc.serial == serial && s.doc.gcFloor == gcFloor
            && (s.outcome.Delta? <==> !full)
            && (s.outcome.Reseeded? <==> full && (serial < d.serial || exists k :: k in d.authoritative && k !in rows))
  {
    var missing := Missing(d.authoritative, rows);
    if full && serial >= d.serial {
      if k :| k in d.authoritative && k !in rows {
        assert k in missing;
        SeedOpsAtKey(missing, order, k);
        assert OpsAt([], k) == [];
      } else {
        assert missing == map[];
        NoSeeds(order);
      }
    }
  }

  lemma {:induction false} NoSeeds(order: seq<Key>)
    ensures SeedOps(map[], order) == []
  {
    if order != [] {
      NoSeeds(order[1..]);
    }
  }

  /** The change counter never goes back, and moves with every change to what is mirrored or queued. */
  lemma EveryMutationIsCounted(d: Doc, frame: Frame, order: seq<Key>, now: seq<int>, ops: seq<Op>)
    ensures var e := Handle(d, frame, order, now);
            d.generation <= e.generation
            && (e.authoritative != d.authoritative || e.pending != d.pending ==> d.generation < e.generation)
    ensures ops != [] ==> d.generation < Enqueue(d, ops, now).generation
  {
    if frame.AckFrame? {
      RetainedAll(d.pending, frame.batch);
    }
  }

  lemma {:induction false} RetainedAll(pending: seq<Batch>, batch: string)
    ensures |Retain(pending, batch)| <= |pending|
    ensures |Retain(pending, batch)| == |pending| ==> Retain(pending, batch) == pending
  {
    if pending != [] {
      RetainedAll(pending[1..], batch);
    }
  }

  /** Only the last batch of a list of ops is short. */
  lemma {:induction false} BatchesAreFull(device: string, clock: Stamp, ops: seq<Op>, now: seq<int>, i: nat)
    requires i + 1 < |Cut(device, clock, ops, now)|
    ensures |Cut(device, clock, ops, now)[i].ops| == 400
    decreases |ops|
  {
    if |ops| > MAX_OPS_PER_BATCH && i > 0 {
      BatchesAreFull(device, Tick(clock, Reading(now, 0)), ops[MAX_OPS_PER_BATCH..], Rest(now), i - 1);
    }
  }

  // ── tombstones are purged by age ──────────────────────────────────────────

  /** The horizon the alarm compares with: the padded milliseconds and a dash. */
  function HorizonHlc(ms: nat): string {
    PadStart(Decimal(ms), 13) + "-"
  }

  lemma HorizonOrder(s: Stamp, device: string, horizon: nat)
    requires Fits(s) && horizon < 10_000_000_000_000
    ensures LexLess(EncodeHlc(s.ms, s.counter, device), HorizonHlc(horizon)) <==> s.ms < horizon
  {
    TenPowers();
    var msWidth: nat, counterWidth: nat :| msWidth == 13 && counterWidth == 6;
    EncodedShape(s, device, msWidth, counterWidth);
    PadStartIsFixed(horizon, msWidth);
    var x := Fixed(s.counter, counterWidth) + ("-" + device);
    FixedOrder(s.ms, horizon, msWidth, "-" + x, "-");
    assert ("-" + x)[1..] == x && "-"[1..] == "";
  }

  /** Exactly the tombstones from before the horizon go, by the time they were made; live rows never do. */
  lemma PurgeIsByAge(t: Table, key: Key, s: Stamp, device: string, horizon: nat)
    requires TableOk(t) && Fits(s) && horizon < 10_000_000_000_000 && |device| <= 128 && key in t.rows
    requires t.rows[key].deleted ==> t.rows[key].delHlc == Some(ClockOf(EncodeHlc(s.ms, s.counter, device)))
    ensures key in Purge(t, ClockOf(HorizonHlc(horizon))).rows <==> !t.rows[key].deleted || horizon <= s.ms
  {
    EncodedForm(s, device);
    TenPowers();
    var msWidth: nat :| msWidth == 13;
    PadStartIsFixed(horizon, msWidth);
    FixedIsDigits(horizon, msWidth);
    HorizonOrder(s, device, horizon);
    ClockOfIsFaithful(EncodeHlc(s.ms, s.counter, device), HorizonHlc(horizon));
    PurgeEffect(t, ClockOf(HorizonHlc(horizon)));
  }
}
