/**
 What the optimistic overlay predicts and what a re-seed restores: the server applying a queue of
 batches does to each row what replaying the queue over the replica does.
 */
module RegistryReseed {
  import opened Prelude
  import opened Hlc
  import opened RegistryCore
  import opened RegistryLaws
  import opened RegistrySize
  import opened RegistryRoom
  import opened RegistryDoc
  import opened RegistrySync

  // ── rows up to their sequence number ──────────────────────────────────────

  function Bare(row: Option<Row>): Option<Row> {
    if row.None? then None else Some(row.value.(serial := 0))
  }

  /** The sequence number plays no part in the merge rule. */
  lemma ApplyBare(row: Option<Row>, other: Option<Row>, op: Op)
    requires Bare(row) == Bare(other)
    ensures Bare(Apply(row, op).row) == Bare(Apply(other, op).row)
    ensures Apply(row, op).changed == Apply(other, op).changed
  {
  }

  lemma {:induction false} ApplyAllBare(row: Option<Row>, other: Option<Row>, ops: seq<Op>)
    requires Bare(row) == Bare(other)
    ensures Bare(ApplyAll(row, ops)) == Bare(ApplyAll(other, ops))
    decreases |ops|
  {
    if ops != [] {
      ApplyAllBare(row, other, ops[..|ops| - 1]);
      ApplyBare(ApplyAll(row, ops[..|ops| - 1]), ApplyAll(other, ops[..|ops| - 1]), ops[|ops| - 1]);
    }
  }

  // ── the server replays what the overlay replays ───────────────────────────

  lemma StoreOneAt(rows: map<Key, Row>, op: Op, stamp: nat)
    ensures Bare(Get(StoreOne(rows, op, stamp), op.At())) == Bare(Apply(Get(rows, op.At()), op).row)
  {
  }

  lemma StoredStep(rows: map<Key, Row>, row: Option<Row>, op: Op, stamp: nat, key: Key)
    requires Bare(Get(rows, key)) == Bare(row)
    ensures Bare(Get(StoreOne(rows, op, stamp), key)) == Bare(if op.At() == key then Apply(row, op).row else row)
  {
    if op.At() == key {
      StoreOneAt(rows, op, stamp);
      ApplyBare(Get(rows, key), row, op);
    }
  }

  /** One batch on the table, seen from one row: its ops at that row, in order. */
  lemma {:induction false} StoreAllAt(rows: map<Key, Row>, ops: seq<Op>, stamp: nat, key: Key)
    ensures Bare(Get(StoreAll(rows, ops, stamp), key)) == Bare(ApplyAll(Get(rows, key), OpsAt(ops, key)))
    decreases |ops|
  {
    if ops != [] {
      var front, op := ops[..|ops| - 1], ops[|ops| - 1];
      StoreAllAt(rows, front, stamp, key);
      StoredStep(StoreAll(rows, front, stamp), ApplyAll(Get(rows, key), OpsAt(front, key)), op, stamp, key);
      assert ops[..|front| + 1] == ops;
      ReplayStep(Get(rows, key), ops, |front|, key);
    }
  }

  /** A push frame over the budget makes the room close the socket. */
  ghost predicate Oversize(b: Batch) {
    ToFrame(b).size > MAX_FRAME_BYTES
  }

  /**
   Pushing a queue over the socket. Every session starts it from the front, so nothing queued behind a
   frame over the budget is ever taken up, while a batch the room refuses is only passed over.
   */
  ghost function PushBatches(t: Table, batches: seq<Batch>): Table
    decreases |batches|
  {
    if batches == [] || Oversize(batches[0]) then t
    else PushBatches(Push(t, ToFrame(batches[0])).table, batches[1..])
  }

  /** The batches of the queue that reach the table. */
  ghost function Delivered(batches: seq<Batch>): seq<Batch>
    decreases |batches|
  {
    if batches == [] || Oversize(batches[0]) then []
    else (if Refused(batches[0]) then [] else [batches[0]]) + Delivered(batches[1..])
  }

  lemma RefusedChangesNothing(t: Table, b: Batch)
    requires TableOk(t) && Refused(b)
    ensures Push(t, ToFrame(b)).table == t
  {
    PushEffect(t, ToFrame(b));
  }

  lemma AcceptedAt(t: Table, b: Batch, key: Key)
    requires TableOk(t) && !Refused(b)
    ensures Bare(Get(Push(t, ToFrame(b)).table.rows, key)) == Bare(Replayed(t.rows, [b], key))
  {
    ToFrameOps(b);
    PushStoresAll(t, ToFrame(b));
    StoreAllAt(t.rows, b.ops, t.serial + 1, key);
    PendingOpsOne(b);
  }

  /**
   What the overlay shows is what the server will store: pushing a queue onto a table gives every row the
   value that replaying the delivered batches over that table's row gives.
   */
  lemma {:induction false} OverlayPredictsTheServer(t: Table, batches: seq<Batch>, key: Key)
    requires TableOk(t)
    ensures TableOk(PushBatches(t, batches))
    ensures Bare(Get(PushBatches(t, batches).rows, key)) == Bare(Replayed(t.rows, Delivered(batches), key))
    decreases |batches|
  {
    if batches != [] && !Oversize(batches[0]) {
      var b, later := batches[0], Delivered(batches[1..]);
      var next := Push(t, ToFrame(b)).table;
      PushEffect(t, ToFrame(b));
      OverlayPredictsTheServer(next, batches[1..], key);
      if Refused(b) {
        RefusedChangesNothing(t, b);
        assert [] + later == later;
      } else {
        AcceptedAt(t, b, key);
        ReplayedConcat(t.rows, [b], later, key);
        ApplyAllBare(Get(next.rows, key), Replayed(t.rows, [b], key), OpsAt(PendingOps(later), key));
      }
    }
  }

  /** The overlay of a replica that mirrors the table is exact when everything queued is delivered. */
  lemma {:induction false} AllDelivered(batches: seq<Batch>)
    requires forall b :: b in batches ==> !Refused(b) && !Oversize(b)
    ensures Delivered(batches) == batches
    decreases |batches|
  {
    if batches != [] {
      AllDelivered(batches[1..]);
    }
  }

  /** A row of which the queue has at most one op keeps it or loses it. */
  lemma {:induction false} DeliveredAt(batches: seq<Batch>, key: Key)
    requires |OpsAt(PendingOps(batches), key)| <= 1
    ensures OpsAt(PendingOps(Delivered(batches)), key) == [] || OpsAt(PendingOps(Delivered(batches)), key) == OpsAt(PendingOps(batches), key)
    decreases |batches|
  {
    if batches != [] && !Oversize(batches[0]) {
      var b, rest, later := batches[0], batches[1..], Delivered(batches[1..]);
      OpsAtConcat(b.ops, PendingOps(rest), key);
      DeliveredAt(rest, key);
      if Refused(b) {
        assert [] + later == later;
      } else {
        PendingOpsOne(b);
        PendingOpsConcat([b], later);
        OpsAtConcat(b.ops, PendingOps(later), key);
      }
    }
  }

  lemma {:induction false} OpsIn(batches: seq<Batch>, op: Op)
    ensures op in PendingOps(batches) <==> exists b :: b in batches && op in b.ops
    decreases |batches|
  {
    if batches != [] {
      OpsIn(batches[1..], op);
      assert forall b :: b in batches <==> b == batches[0] || b in batches[1..];
    }
  }

  lemma {:induction false} DeliveredAreQueued(batches: seq<Batch>, op: Op)
    requires op in PendingOps(Delivered(batches))
    ensures op in PendingOps(batches)
    decreases |batches|
  {
    if !Refused(batches[0]) {
      PendingOpsConcat([batches[0]], Delivered(batches[1..]));
      PendingOpsOne(batches[0]);
    } else {
      assert [] + Delivered(batches[1..]) == Delivered(batches[1..]);
    }
    if op !in batches[0].ops {
      DeliveredAreQueued(batches[1..], op);
    }
  }

  lemma OnePerRowSplit(a: seq<Op>, b: seq<Op>, op: Op)
    requires OnePerRow(a + b)
    ensures OnePerRow(b) && !(op in a && op in b)
  {
    assert forall i :: 0 <= i < |b| ==> (a + b)[|a| + i] == b[i];
    if op in a {
      var i :| 0 <= i < |a| && a[i] == op;
      forall j | 0 <= j < |b|
        ensures b[j] != op
      {
        assert (a + b)[i] == op && (a + b)[|a| + j] == b[j];
      }
    }
  }

  /** An op queued once, in a batch that is refused or over the budget, does not reach the table. */
  lemma {:induction false} NotDelivered(batches: seq<Batch>, b: Batch, op: Op)
    requires OnePerRow(PendingOps(batches)) && b in batches && op in b.ops && (Refused(b) || Oversize(b))
    ensures op !in PendingOps(Delivered(batches))
    decreases |batches|
  {
    if !Oversize(batches[0]) {
      var head, rest, later := batches[0], batches[1..], Delivered(batches[1..]);
      OnePerRowSplit(head.ops, PendingOps(rest), op);
      OpsIn(rest, op);
      if op in PendingOps(later) {
        DeliveredAreQueued(rest, op);
      }
      if b in rest {
        NotDelivered(rest, b, op);
      }
      if Refused(head) {
        assert [] + later == later;
      } else {
        PendingOpsConcat([head], later);
        PendingOpsOne(head);
      }
    }
  }

  // ── what one seed op restores ─────────────────────────────────────────────

  /** A row after a trip through its own seed op. */
  function Restored(row: Row): Row {
    if row.deleted then Buried(Fresh(row.kind, row.id), if row.delHlc.Some? then row.delHlc.value else 0)
    else Fresh(row.kind, row.id).(fields := row.fields,
                                  clocks := map k | k in row.clocks && k in row.fields :: row.clocks[k])
  }

  /** On a table without the row, the seed op writes every field with its original clock. */
  lemma SeedRestores(row: Row)
    requires WellFormed(row)
    ensures Apply(None, RowToSeedOp(row)) == Applied(Some(Restored(row)), true)
  {
    var base, op := Fresh(row.kind, row.id), RowToSeedOp(row);
    if !row.deleted {
      forall k
        ensures Get(Merge(base, op).fields, k) == Get(row.fields, k)
        ensures Get(Merge(base, op).clocks, k) == Get(Restored(row).clocks, k)
      {
        MergeGet(base, op, k);
      }
      SameLookups(Merge(base, op).fields, row.fields);
      SameLookups(Merge(base, op).clocks, Restored(row).clocks);
    }
  }

  /**
   Exactly which rows survive the trip whole: every tombstone, and every live row that has no cleared
   field and was never deleted. The clock of a cleared field and an old tombstone clock are lost.
   */
  lemma RestoredIsLosslessIff(row: Row)
    requires WellFormed(row)
    ensures Bare(Some(Restored(row))) == Bare(Some(row))
       <==> row.deleted || (row.delHlc.None? && row.clocks.Keys == row.fields.Keys)
  {
    if !row.deleted && row.clocks.Keys == row.fields.Keys {
      assert Restored(row).clocks == row.clocks;
    }
    assert Restored(row).clocks.Keys == row.clocks.Keys * row.fields.Keys;
  }

  /** A row already holds everything its own seed op carries. */
  lemma SeedIsAbsorbed(row: Row)
    requires WellFormed(row)
    ensures Apply(Some(row), RowToSeedOp(row)) == Applied(Some(row), false)
  {
  }

  lemma {:induction false} SeedOpsAtKey(rows: map<Key, Row>, order: seq<Key>, key: Key)
    requires forall k :: k in rows ==> rows[k].At() == k
    requires forall i, j :: 0 <= i < j < |order| ==> order[i] != order[j]
    ensures OpsAt(SeedOps(rows, order), key) == if key in rows && key in order then [RowToSeedOp(rows[key])] else []
  {
    if order != [] {
      var rest := order[1..];
      assert forall i :: 0 <= i < |rest| ==> rest[i] == order[i + 1];
      SeedOpsAtKey(rows, rest, key);
      assert key in order <==> key == order[0] || key in rest;
      assert key == order[0] ==> key !in rest;
      if order[0] in rows {
        var seed := RowToSeedOp(rows[order[0]]);
        assert seed.At() == order[0];
        OpsAtConcat([seed], SeedOps(rows, rest), key);
        OpsAtOne(seed, key);
      } else {
        assert SeedOps(rows, order) == SeedOps(rows, rest);
      }
    }
  }

  // ── a whole table ─────────────────────────────────────────────────────────

  ghost predicate ReplicaRows(rows: map<Key, Row>) {
    forall k :: k in rows ==> rows[k].At() == k && WellFormed(rows[k])
  }

  const EMPTY_TABLE: Table := Table(map[], 0, 0)

  /** The replica after an emptied server has answered its hello. */
  ghost function AfterWipe(d: Doc, order: seq<Key>, now: seq<int>): Doc {
    Handle(d, HelloReply(EMPTY_TABLE, HelloCursor(d)), order, now)
  }

  lemma AfterWipeQueue(d: Doc, order: seq<Key>, now: seq<int>)
    requires QueueOk(d) && ReplicaRows(d.authoritative) && d.serial > 0
    requires Enumerates(order, d.authoritative.Keys)
    ensures var e := AfterWipe(d, order, now);
            && (forall b :: b in e.pending ==> BatchOk(b))
            && PendingOps(e.pending) == PendingOps(d.pending) + SeedOps(d.authoritative, order)
  {
    var reply := HelloReply(EMPTY_TABLE, HelloCursor(d));
    assert reply == StateFrame(0, true, 0, map[]);
    ApplyStateKeeps(d, reply, order, now);
    EnqueuedOps(d.(serial := 0, gcFloor := 0, generation := d.generation + 1, authoritative := d.authoritative + map[]),
                SeedOps(d.authoritative, order), now);
  }

  /** A row's seed reaches the table with the queue. */
  ghost predicate SeedArrives(rows: map<Key, Row>, batches: seq<Batch>, key: Key) {
    key in rows && RowToSeedOp(rows[key]) in PendingOps(Delivered(batches))
  }

  /** A row the table lacks and no earlier op names is whatever its seed makes it, if the seed arrives. */
  lemma SeededFrom(t: Table, batches: seq<Batch>, prior: seq<Op>, rows: map<Key, Row>, order: seq<Key>, keys: set<Key>, key: Key)
    requires TableOk(t) && key !in t.rows
    requires PendingOps(batches) == prior + SeedOps(rows, order) && OpsAt(prior, key) == []
    requires ReplicaRows(rows) && Enumerates(order, keys) && rows.Keys <= keys
    ensures Bare(Get(PushBatches(t, batches).rows, key)) == if SeedArrives(rows, batches, key) then Some(Restored(rows[key])) else None
  {
    OverlayPredictsTheServer(t, batches, key);
    OpsAtConcat(prior, SeedOps(rows, order), key);
    SeedOpsAtKey(rows, order, key);
    var all, arrived := OpsAt(PendingOps(batches), key), OpsAt(PendingOps(Delivered(batches)), key);
    assert all == OpsAt(SeedOps(rows, order), key);
    DeliveredAt(batches, key);
    OpsAtAreAt(PendingOps(Delivered(batches)), key);
    if key in rows {
      var seed := RowToSeedOp(rows[key]);
      assert arrived == if seed in arrived then [seed] else [];
      SeedRestores(rows[key]);
      ApplyAllOne(None, seed);
    }
  }

  /**
   Recovery after a wipe, seen from the replica: greet the empty server, apply its answer, push the
   queue. A row with no local op queued comes back as its seed restores it exactly if the seed arrives,
   and no other appears.
   */
  lemma WipedServerIsRebuilt(d: Doc, order: seq<Key>, now: seq<int>, key: Key)
    requires QueueOk(d) && ReplicaRows(d.authoritative) && d.serial > 0
    requires Enumerates(order, d.authoritative.Keys)
    requires OpsAt(PendingOps(d.pending), key) == []
    ensures var queue := AfterWipe(d, order, now).pending;
            Bare(Get(PushBatches(EMPTY_TABLE, queue).rows, key))
            == if SeedArrives(d.authoritative, queue, key) then Some(Restored(d.authoritative[key])) else None
  {
    AfterWipeQueue(d, order, now);
    SeededFrom(EMPTY_TABLE, AfterWipe(d, order, now).pending, PendingOps(d.pending),
               d.authoritative, order, d.authoritative.Keys, key);
  }

  // ── exactly when the whole table comes back ───────────────────────────────

  ghost predicate Rebuilt(t: Table, rows: map<Key, Row>) {
    forall key :: Bare(Get(t.rows, key)) == if key in rows then Some(Restored(rows[key])) else None
  }

  /** Seeding a map of rows yields at most one op per row, which the room accepts exactly if it fits. */
  lemma SeedOpsAreSendableIff(rows: map<Key, Row>, order: seq<Key>)
    requires ReplicaRows(rows) && forall i, j :: 0 <= i < j < |order| ==> order[i] != order[j]
    ensures OnePerRow(SeedOps(rows, order))
    ensures forall op :: op in SeedOps(rows, order) ==>
              && op.At() in rows && op == RowToSeedOp(rows[op.At()])
              && (ValidateOp(WireOp(op, true, OpSize(op))) <==> OpFits(op))
  {
    SeedOpsOnePerRow(rows, order);
    forall op | op in SeedOps(rows, order)
      ensures op.At() in rows && op == RowToSeedOp(rows[op.At()])
    {
      SeedOpsAtKey(rows, order, op.At());
      OpsAtAreAt(SeedOps(rows, order), op.At());
    }
  }

  lemma SeedIsQueued(rows: map<Key, Row>, order: seq<Key>, key: Key)
    requires ReplicaRows(rows) && Enumerates(order, rows.Keys) && key in rows
    ensures RowToSeedOp(rows[key]) in SeedOps(rows, order)
  {
    SeedOpsAtKey(rows, order, key);
    OpsAtAreAt(SeedOps(rows, order), key);
  }

  lemma RefusedIffInvalid(b: Batch)
    requires BatchOk(b)
    ensures Refused(b) <==> exists op :: op in b.ops && !ValidateOp(WireOp(op, true, OpSize(op)))
  {
    var frame := ToFrame(b);
    assert forall i :: 0 <= i < |b.ops| ==> frame.ops[i] == WireOp(b.ops[i], true, OpSize(b.ops[i])) && b.ops[i] in b.ops;
  }

  /** A batch of seeds is refused exactly if one of them does not fit. */
  lemma SeedBatchRefusedIff(rows: map<Key, Row>, order: seq<Key>, batches: seq<Batch>, b: Batch)
    requires ReplicaRows(rows) && Enumerates(order, rows.Keys)
    requires b in batches && BatchOk(b) && PendingOps(batches) == SeedOps(rows, order)
    ensures Refused(b) <==> exists op :: op in b.ops && !OpFits(op)
  {
    SeedOpsAreSendableIff(rows, order);
    RefusedIffInvalid(b);
    forall op | op in b.ops
      ensures ValidateOp(WireOp(op, true, OpSize(op))) <==> OpFits(op)
    {
      OpsIn(batches, op);
    }
  }

  /** Every seed fits, and no batch of them is over the frame budget. */
  ghost predicate AllSent(rows: map<Key, Row>, batches: seq<Batch>) {
    (forall k :: k in rows ==> OpFits(RowToSeedOp(rows[k]))) && forall b :: b in batches ==> !Oversize(b)
  }

  lemma SentArrive(rows: map<Key, Row>, order: seq<Key>, batches: seq<Batch>)
    requires ReplicaRows(rows) && Enumerates(order, rows.Keys) && (forall b :: b in batches ==> BatchOk(b))
    requires PendingOps(batches) == SeedOps(rows, order) && AllSent(rows, batches)
    ensures forall key :: key in rows ==> SeedArrives(rows, batches, key)
  {
    forall b | b in batches
      ensures !Refused(b)
    {
      SeedBatchRefusedIff(rows, order, batches, b);
      SeedOpsAreSendableIff(rows, order);
      forall op | op in b.ops
        ensures OpFits(op)
      {
        OpsIn(batches, op);
      }
    }
    AllDelivered(batches);
    forall key | key in rows
      ensures SeedArrives(rows, batches, key)
    {
      SeedIsQueued(rows, order, key);
    }
  }

  lemma UnsentAreMissed(rows: map<Key, Row>, order: seq<Key>, batches: seq<Batch>)
    requires ReplicaRows(rows) && Enumerates(order, rows.Keys) && (forall b :: b in batches ==> BatchOk(b))
    requires PendingOps(batches) == SeedOps(rows, order) && !AllSent(rows, batches)
    ensures exists key :: key in rows && !SeedArrives(rows, batches, key)
  {
    SeedOpsAreSendableIff(rows, order);
    if k :| k in rows && !OpFits(RowToSeedOp(rows[k])) {
      var op := RowToSeedOp(rows[k]);
      SeedIsQueued(rows, order, k);
      OpsIn(batches, op);
      var b :| b in batches && op in b.ops;
      SeedBatchRefusedIff(rows, order, batches, b);
      NotDelivered(batches, b, op);
      assert !SeedArrives(rows, batches, k);
    } else {
      var b :| b in batches && Oversize(b);
      var op := b.ops[0];
      OpsIn(batches, op);
      NotDelivered(batches, b, op);
      assert !SeedArrives(rows, batches, op.At());
    }
  }

  /**
   With nothing else queued the whole table comes back exactly when every row's seed fits and no batch of
   seeds is over the frame budget: one row too long loses every row that shares its batch, and one batch
   too long every row seeded after it.
   */
  lemma WipedServerIsRebuiltIff(d: Doc, order: seq<Key>, now: seq<int>)
    requires QueueOk(d) && ReplicaRows(d.authoritative) && d.serial > 0 && d.pending == []
    requires Enumerates(order, d.authoritative.Keys)
    ensures var queue := AfterWipe(d, order, now).pending;
            Rebuilt(PushBatches(EMPTY_TABLE, queue), d.authoritative) <==> AllSent(d.authoritative, queue)
  {
    var rows, queue := d.authoritative, AfterWipe(d, order, now).pending;
    AfterWipeQueue(d, order, now);
    assert PendingOps(queue) == SeedOps(rows, order);
    forall key
      ensures Bare(Get(PushBatches(EMPTY_TABLE, queue).rows, key))
           == if SeedArrives(rows, queue, key) then Some(Restored(rows[key])) else None
    {
      WipedServerIsRebuilt(d, order, now, key);
    }
    if AllSent(rows, queue) {
      SentArrive(rows, order, queue);
    } else {
      UnsentAreMissed(rows, order, queue);
    }
  }

  lemma EnqueuedOps(d: Doc, ops: seq<Op>, now: seq<int>)
    ensures PendingOps(Enqueue(d, ops, now).pending) == PendingOps(d.pending) + ops
  {
    if ops == [] {
      assert PendingOps(d.pending) + ops == PendingOps(d.pending);
    } else {
      CutIsFaithful(d.device, d.clock, ops, now);
      PendingOpsConcat(d.pending, Cut(d.device, d.clock, ops, now));
    }
  }

  /** The wipe can hit any run at any moment: every replica that ever had a cursor can rebuild what it can send. */
  lemma EveryReplicaCanRebuild(devices: map<nat, string>, steps: seq<Step>, c: nat, order: seq<Key>, now: seq<int>, key: Key)
    requires c in Run(devices, steps).replicas && c in devices
    requires var d := Run(devices, steps).replicas[c].doc;
             d.serial > 0 && Enumerates(order, d.authoritative.Keys) && OpsAt(PendingOps(d.pending), key) == []
    ensures var d := Run(devices, steps).replicas[c].doc;
            var queue := AfterWipe(d, order, now).pending;
            && (Bare(Get(PushBatches(EMPTY_TABLE, queue).rows, key))
                == if SeedArrives(d.authoritative, queue, key) then Some(Restored(d.authoritative[key])) else None)
            && (d.pending == [] ==> (Rebuilt(PushBatches(EMPTY_TABLE, queue), d.authoritative) <==> AllSent(d.authoritative, queue)))
  {
    RunsKeepInv(devices, steps);
    CursorAgreement(devices, steps, c);
    var w := Run(devices, steps);
    assert ReplicaOk(c, w.replicas[c], w.table, w.handled);
    WipedServerIsRebuilt(w.replicas[c].doc, order, now, key);
    if w.replicas[c].doc.pending == [] {
      WipedServerIsRebuiltIff(w.replicas[c].doc, order, now);
    }
  }

  // ── a full answer from a server that purged ───────────────────────────────

  /** The replica after a server that is not behind it has sent its whole table. */
  ghost function AfterReplace(d: Doc, t: Table, order: seq<Key>, now: seq<int>): Doc {
    Handle(d, HelloReply(t, HelloCursor(d)), order, now)
  }

  lemma AfterReplaceQueue(d: Doc, t: Table, order: seq<Key>, now: seq<int>)
    requires TableOk(t) && NeedsFull(t, HelloCursor(d)) && d.serial <= t.serial
    requires QueueOk(d) && ReplicaRows(d.authoritative) && Enumerates(order, d.authoritative.Keys)
    ensures var e := AfterReplace(d, t, order, now);
            && e.authoritative == t.rows && (forall b :: b in e.pending ==> BatchOk(b))
            && PendingOps(e.pending) == PendingOps(d.pending) + SeedOps(Missing(d.authoritative, t.rows), order)
  {
    var reply := HelloReply(t, HelloCursor(d));
    assert Since(t.rows, 0) == t.rows;
    ApplyStateKeeps(d, reply, order, now);
    EnqueuedOps(d.(serial := t.serial, gcFloor := t.gcFloor, generation := d.generation + 1, authoritative := t.rows),
                SeedOps(Missing(d.authoritative, t.rows), order), now);
  }

  /**
   A full answer replaces the mirror but does not make a purged delete final: whatever row of the
   replica the server no longer has, live ones included, is seeded back onto the table if its seed arrives.
   */
  lemma PurgedRowsComeBack(d: Doc, t: Table, order: seq<Key>, now: seq<int>, key: Key)
    requires TableOk(t) && NeedsFull(t, HelloCursor(d)) && d.serial <= t.serial
    requires QueueOk(d) && ReplicaRows(d.authoritative) && Enumerates(order, d.authoritative.Keys)
    requires key !in t.rows && OpsAt(PendingOps(d.pending), key) == []
    ensures var queue := AfterReplace(d, t, order, now).pending;
            && key !in AfterReplace(d, t, order, now).authoritative
            && Bare(Get(PushBatches(t, queue).rows, key))
               == if SeedArrives(d.authoritative, queue, key) then Some(Restored(d.authoritative[key])) else None
  {
    AfterReplaceQueue(d, t, order, now);
    SeededFrom(t, AfterReplace(d, t, order, now).pending, PendingOps(d.pending),
               Missing(d.authoritative, t.rows), order, d.authoritative.Keys, key);
  }

  // ── seeding a table that holds the rows ───────────────────────────────────

  ghost predicate Holds(t: Table, rows: map<Key, Row>) {
    forall k :: k in rows ==> k in t.rows && Bare(Some(t.rows[k])) == Bare(Some(rows[k]))
  }

  lemma {:induction false} SeedOpsSettled(t: Table, rows: map<Key, Row>, order: seq<Key>)
    requires ReplicaRows(rows) && Holds(t, rows)
    ensures forall op :: op in SeedOps(rows, order) ==> Settled(t.rows, op)
  {
    if order != [] {
      SeedOpsSettled(t, rows, order[1..]);
      if order[0] in rows {
        var row := rows[order[0]];
        SeedIsAbsorbed(row);
        ApplyBare(Some(t.rows[order[0]]), Some(row), RowToSeedOp(row));
      }
    }
  }

  lemma {:induction false} SettledQueueChangesNothing(t: Table, batches: seq<Batch>)
    requires TableOk(t) && forall op :: op in PendingOps(batches) ==> Settled(t.rows, op)
    ensures PushBatches(t, batches) == t
    decreases |batches|
  {
    if batches != [] {
      var b, later := batches[0], PendingOps(batches[1..]);
      assert PendingOps(batches) == b.ops + later;
      SettledPush(t, b);
      forall op | op in later
        ensures Settled(t.rows, op)
      {
        assert op in b.ops + later;
      }
      SettledQueueChangesNothing(t, batches[1..]);
    }
  }

  lemma SettledPush(t: Table, b: Batch)
    requires TableOk(t) && forall op :: op in b.ops ==> Settled(t.rows, op)
    ensures Push(t, ToFrame(b)).table == t
  {
    if Refused(b) {
      RefusedChangesNothing(t, b);
    } else {
      ToFrameOps(b);
      SettledBatchChangesNothing(t.rows, b.ops, t.serial + 1);
    }
  }

  /** Seeding twice is seeding once: a table that already holds the rows is left alone, `seq` included. */
  lemma SeedingAgainChangesNothing(t: Table, rows: map<Key, Row>, order: seq<Key>, device: string, clock: Stamp, now: seq<int>)
    requires TableOk(t) && ReplicaRows(rows) && Holds(t, rows) && Enumerates(order, rows.Keys)
    ensures PushBatches(t, Cut(device, clock, SeedOps(rows, order), now)) == t
  {
    var seeds := SeedOps(rows, order);
    SeedOpsSettled(t, rows, order);
    CutIsFaithful(device, clock, seeds, now);
    SettledQueueChangesNothing(t, Cut(device, clock, seeds, now));
  }
}
