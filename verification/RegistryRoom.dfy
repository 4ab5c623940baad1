/**
 The server's table: batch apply with its cache of touched rows, delta reads by cursor, and the
 tombstone purge guarded by `gcFloor` (`edge/src/registry-room.ts`).
 */
module RegistryRoom {
  import opened Prelude
  import opened Hlc
  import opened RegistryCore
  import opened RegistryLaws
  import opened RegistrySize

  /** `serial` is the meta counter `seq`. */
  datatype Table = Table(rows: map<Key, Row>, serial: nat, gcFloor: nat)

  /** Rows are filed under their own key, stamped by a past batch, and well formed. */
  ghost predicate TableOk(t: Table) {
    && t.gcFloor <= t.serial
    && forall k :: k in t.rows ==> t.rows[k].At() == k && 1 <= t.rows[k].serial <= t.serial && WellFormed(t.rows[k])
  }

  // ── the batch, op by op ───────────────────────────────────────────────────

  ghost function StoreOne(rows: map<Key, Row>, op: Op, stamp: nat): map<Key, Row> {
    var out := Apply(Get(rows, op.At()), op);
    if out.changed && out.row.Some? then rows[op.At() := out.row.value.(serial := stamp)] else rows
  }

  ghost function StoreAll(rows: map<Key, Row>, ops: seq<Op>, stamp: nat): map<Key, Row>
    decreases |ops|
  {
    if ops == [] then rows
    else StoreOne(StoreAll(rows, ops[..|ops| - 1], stamp), ops[|ops| - 1], stamp)
  }

  /** How many ops of the batch change a row when they are stored one by one. */
  ghost function CountChanges(rows: map<Key, Row>, ops: seq<Op>, stamp: nat): nat
    decreases |ops|
  {
    if ops == [] then 0
    else
      var front := ops[..|ops| - 1];
      var op := ops[|ops| - 1];
      CountChanges(rows, front, stamp)
      + if Apply(Get(StoreAll(rows, front, stamp), op.At()), op).changed then 1 else 0
  }

  /** `SELECT … WHERE seq > cursor`. */
  function Since(rows: map<Key, Row>, cursor: nat): map<Key, Row> {
    map k | k in rows && rows[k].serial > cursor :: rows[k]
  }

  ghost predicate Stamped(rows: map<Key, Row>, top: nat) {
    forall k :: k in rows ==> rows[k].At() == k && 1 <= rows[k].serial <= top && WellFormed(rows[k])
  }

  /** What storing a batch does to the table as a whole. */
  ghost predicate BatchEffect(rows: map<Key, Row>, after: map<Key, Row>, stamp: nat, changes: nat) {
    && Stamped(after, stamp)
    && rows.Keys <= after.Keys
    && (forall k :: k in after ==> (after[k].serial == stamp <==> k !in rows || after[k] != rows[k]))
    && (changes == 0 <==> after == rows)
  }

  lemma {:induction false} StoreAllEffect(rows: map<Key, Row>, ops: seq<Op>, stamp: nat)
    requires stamp >= 1 && Stamped(rows, stamp - 1)
    ensures BatchEffect(rows, StoreAll(rows, ops, stamp), stamp, CountChanges(rows, ops, stamp))
    decreases |ops|
  {
    if ops != [] {
      var front, op := ops[..|ops| - 1], ops[|ops| - 1];
      StoreAllEffect(rows, front, stamp);
      StoreOneEffect(rows, StoreAll(rows, front, stamp), op, stamp, CountChanges(rows, front, stamp));
    }
  }

  lemma StoreOneEffect(rows: map<Key, Row>, mid: map<Key, Row>, op: Op, stamp: nat, changes: nat)
    requires stamp >= 1 && Stamped(rows, stamp - 1)
    requires BatchEffect(rows, mid, stamp, changes)
    ensures var c := Apply(Get(mid, op.At()), op).changed;
            BatchEffect(rows, StoreOne(mid, op, stamp), stamp, changes + if c then 1 else 0)
  {
    var before := Get(mid, op.At());
    ApplyKeeps(before, op);
    var out := Apply(before, op);
    var after := StoreOne(mid, op, stamp);
    if out.changed {
      assert after[op.At()].serial == stamp;
      assert op.At() in rows ==> rows[op.At()].serial < stamp;
    }
  }

  // ── the push ──────────────────────────────────────────────────────────────

  const MAX_BATCH_OPS: nat := 500

  /** An op off the wire: the verdict of the identifier patterns, and how long its JSON text is. */
  datatype WireOp = WireOp(op: Op, patternsOk: bool, size: nat)

  /** `size` is how long the whole frame is, which is looked at before the frame is read. */
  datatype PushFrame = PushFrame(batch: string, ops: seq<WireOp>, size: nat)

  predicate ValidateOp(w: WireOp) {
    w.patternsOk && (w.op.op.Delete? <==> w.op.writes.None?) && w.size <= MAX_OP_BYTES
  }

  function Ops(frame: PushFrame): (ops: seq<Op>)
    ensures |ops| == |frame.ops|
    ensures forall i :: 0 <= i < |ops| ==> ops[i] == frame.ops[i].op
  {
    seq(|frame.ops|, i requires 0 <= i < |frame.ops| => frame.ops[i].op)
  }

  datatype Outcome = Rejected(code: string) | Accepted(serial: nat, applied: nat)

  predicate WellFormedPush(frame: PushFrame) {
    frame.batch != "" && 0 < |frame.ops| <= MAX_BATCH_OPS
  }

  predicate ValidPush(frame: PushFrame) {
    WellFormedPush(frame) && forall i :: 0 <= i < |frame.ops| ==> ValidateOp(frame.ops[i])
  }

  datatype Pushed = Pushed(table: Table, outcome: Outcome)

  ghost function Push(t: Table, frame: PushFrame): Pushed {
    if !WellFormedPush(frame) then Pushed(t, Rejected("bad_push"))
    else if !ValidPush(frame) then Pushed(t, Rejected("invalid_op"))
    else
      var applied := CountChanges(t.rows, Ops(frame), t.serial + 1);
      if applied == 0 then Pushed(t, Accepted(t.serial, 0))
      else Pushed(t.(rows := StoreAll(t.rows, Ops(frame), t.serial + 1), serial := t.serial + 1),
                  Accepted(t.serial + 1, applied))
  }

  /**
   A batch is one step of the table: `seq` rises by exactly one iff some op changed a row, exactly the
   changed rows carry the new value, no row is lost, and a rejected batch leaves everything alone.
   */
  lemma PushEffect(t: Table, frame: PushFrame)
    requires TableOk(t)
    ensures var p := Push(t, frame);
            && TableOk(p.table) && p.table.gcFloor == t.gcFloor
            && (p.outcome.Rejected? <==> !ValidPush(frame))
            && (p.outcome.Rejected? ==> p.table == t)
            && (p.outcome.Accepted? ==> p.outcome.serial == p.table.serial)
            && (p.outcome.Accepted? && p.outcome.applied > 0 ==> p.table.serial == t.serial + 1)
            && (p.outcome.Accepted? && p.outcome.applied == 0 ==> p.table == t)
            && t.rows.Keys <= p.table.rows.Keys
            && (forall k :: k in p.table.rows ==>
                  (p.table.rows[k].serial > t.serial <==> k !in t.rows || p.table.rows[k] != t.rows[k]))
            && (p.table == t <==> p.table.rows == t.rows)
  {
    StoreAllEffect(t.rows, Ops(frame), t.serial + 1);
  }

  /** After an accepted batch the stored table is the ops stored one by one, changed or not. */
  lemma PushStoresAll(t: Table, frame: PushFrame)
    requires TableOk(t) && ValidPush(frame)
    ensures Push(t, frame).table.rows == StoreAll(t.rows, Ops(frame), t.serial + 1)
  {
    StoreAllEffect(t.rows, Ops(frame), t.serial + 1);
  }

  // ── one op per row ────────────────────────────────────────────────────────

  ghost predicate OnePerRow(ops: seq<Op>) {
    forall i, j :: 0 <= i < j < |ops| ==> ops[i].At() != ops[j].At()
  }

  /** Replaying the op over what is stored changes nothing. */
  ghost predicate Settled(rows: map<Key, Row>, op: Op) {
    !Apply(Get(rows, op.At()), op).changed
  }

  ghost predicate SettledAll(rows: map<Key, Row>, ops: seq<Op>) {
    forall i :: 0 <= i < |ops| ==> Settled(rows, ops[i])
  }

  lemma StoreOneSettles(rows: map<Key, Row>, op: Op, stamp: nat)
    requires op.At() in rows ==> rows[op.At()].At() == op.At() && WellFormed(rows[op.At()])
    ensures Settled(StoreOne(rows, op, stamp), op)
  {
  }

  lemma StoreOneElsewhere(rows: map<Key, Row>, op: Op, other: Op, stamp: nat)
    requires op.At() != other.At()
    ensures Get(StoreOne(rows, op, stamp), other.At()) == Get(rows, other.At())
  {
  }

  /** A batch with at most one op per row is settled by its own application. */
  lemma {:induction false} StoreAllSettles(rows: map<Key, Row>, ops: seq<Op>, stamp: nat)
    requires stamp >= 1 && Stamped(rows, stamp - 1) && OnePerRow(ops)
    ensures SettledAll(StoreAll(rows, ops, stamp), ops)
    decreases |ops|
  {
    if ops != [] {
      var front, op := ops[..|ops| - 1], ops[|ops| - 1];
      StoreAllSettles(rows, front, stamp);
      var mid := StoreAll(rows, front, stamp);
      StoreAllEffect(rows, front, stamp);
      StoreOneSettles(mid, op, stamp);
      forall i | 0 <= i < |ops|
        ensures Settled(StoreAll(rows, ops, stamp), ops[i])
      {
        if i < |front| {
          assert front[i] == ops[i];
          assert Settled(mid, front[i]);
          StoreOneElsewhere(mid, op, ops[i], stamp);
        }
      }
    }
  }

  lemma {:induction false} SettledBatchChangesNothing(rows: map<Key, Row>, ops: seq<Op>, stamp: nat)
    requires SettledAll(rows, ops)
    ensures StoreAll(rows, ops, stamp) == rows
    ensures CountChanges(rows, ops, stamp) == 0
    decreases |ops|
  {
    if ops != [] {
      var front := ops[..|ops| - 1];
      assert SettledAll(rows, front) by {
        forall i | 0 <= i < |front| ensures Settled(rows, front[i]) { assert front[i] == ops[i]; }
      }
      SettledBatchChangesNothing(rows, front, stamp);
      assert Settled(rows, ops[|ops| - 1]);
    }
  }

  /** At-least-once delivery is safe: the second push of a one-op-per-row batch changes nothing. */
  lemma PushTwiceIsOnce(t: Table, frame: PushFrame)
    requires TableOk(t) && OnePerRow(Ops(frame))
    ensures Push(Push(t, frame).table, frame).table == Push(t, frame).table
  {
    PushEffect(t, frame);
    if ValidPush(frame) {
      PushStoresAll(t, frame);
      StoreAllSettles(t.rows, Ops(frame), t.serial + 1);
      SettledBatchChangesNothing(Push(t, frame).table.rows, Ops(frame), Push(t, frame).table.serial + 1);
    }
  }

  // ── tombstone purge ───────────────────────────────────────────────────────

  predicate Expired(row: Row, horizon: Clock) {
    row.deleted && row.delHlc.Some? && row.delHlc.value < horizon
  }

  ghost function PurgedSerials(rows: map<Key, Row>, horizon: Clock): set<nat> {
    set k | k in rows && Expired(rows[k], horizon) :: rows[k].serial
  }

  ghost function Purge(t: Table, horizon: Clock): Table {
    var gone := PurgedSerials(t.rows, horizon);
    if gone == {} || MaxOf(gone) == 0 then t
    else
      t.(rows := map k | k in t.rows && !Expired(t.rows[k], horizon) :: t.rows[k],
         gcFloor := Max(t.gcFloor, MaxOf(gone)))
  }

  /** The purge drops only tombstones, and every cursor that may have missed one falls below the floor. */
  lemma PurgeEffect(t: Table, horizon: Clock)
    requires TableOk(t)
    ensures var p := Purge(t, horizon);
            && TableOk(p) && p.serial == t.serial && p.gcFloor >= t.gcFloor
            && (forall k :: k in p.rows ==> k in t.rows && p.rows[k] == t.rows[k])
            && (forall k :: k in t.rows ==>
                  (k !in p.rows <==> t.rows[k].deleted && t.rows[k].delHlc.Some? && t.rows[k].delHlc.value < horizon))
            && (forall k :: k in t.rows && k !in p.rows ==> t.rows[k].serial <= p.gcFloor)
            && (p.gcFloor == t.gcFloor || exists k :: k in t.rows && k !in p.rows && t.rows[k].serial == p.gcFloor)
  {
    var gone := PurgedSerials(t.rows, horizon);
    forall k | k in t.rows && Expired(t.rows[k], horizon)
      ensures t.rows[k].serial in gone && t.rows[k].serial <= MaxOf(gone) <= t.serial
    {
      assert t.rows[k].serial in gone;
    }
  }

  // ── hello ─────────────────────────────────────────────────────────────────

  /** A missing cursor, one from before the purge horizon, or one ahead of the server forces `full`. */
  predicate NeedsFull(t: Table, cursor: Option<nat>) {
    cursor.None? || cursor.value < t.gcFloor || cursor.value > t.serial
  }

  /** Frames the server sends; a row list is modelled by what it holds per key. */
  datatype Frame =
    | StateFrame(serial: nat, full: bool, gcFloor: nat, rows: map<Key, Row>)
    | RowsFrame(serial: nat, rows: map<Key, Row>)
    | AckFrame(batch: string, serial: nat, applied: nat)
    | ErrorFrame(code: string)

  function HelloReply(t: Table, cursor: Option<nat>): Frame {
    StateFrame(t.serial, NeedsFull(t, cursor), t.gcFloor,
               if NeedsFull(t, cursor) then Since(t.rows, 0) else Since(t.rows, cursor.value))
  }

  ghost function Broadcast(t: Table, p: Pushed): seq<Frame> {
    if p.outcome.Accepted? && p.outcome.applied > 0 then [RowsFrame(p.table.serial, Since(p.table.rows, t.serial))] else []
  }

  ghost function PushReply(frame: PushFrame, p: Pushed): Frame {
    if p.outcome.Rejected? then ErrorFrame(p.outcome.code)
    else AckFrame(frame.batch, p.outcome.serial, p.outcome.applied)
  }

  /** Filing a freshly stamped row in the cache is filing it in the table. */
  lemma TouchStep(rows: map<Key, Row>, touched: map<Key, Row>, op: Op, row: Row, cursor: nat)
    requires row.serial > cursor && touched == Since(rows + touched, cursor)
    ensures rows + touched[op.At() := row] == (rows + touched)[op.At() := row]
    ensures touched[op.At() := row] == Since(rows + touched[op.At() := row], cursor)
  {
  }

  /** `Some(code)` rejects the whole batch before anything is applied. */
  method CheckBatch(frame: PushFrame) returns (verdict: Option<string>)
    ensures verdict.None? <==> ValidPush(frame)
    ensures verdict.Some? ==> verdict.value == if WellFormedPush(frame) then "invalid_op" else "bad_push"
  {
    if frame.batch == "" || |frame.ops| == 0 || |frame.ops| > MAX_BATCH_OPS {
      return Some("bad_push");
    }
    for n := 0 to |frame.ops|
      invariant forall i :: 0 <= i < n ==> ValidateOp(frame.ops[i])
    {
      if !ValidateOp(frame.ops[n]) {
        return Some("invalid_op");
      }
    }
    verdict := None;
  }

  /** The op loop: each op sees the batch's own earlier writes through the cache. */
  method ApplyTouched(rows: map<Key, Row>, frame: PushFrame, serial: nat) returns (touched: map<Key, Row>, applied: nat)
    requires forall k :: k in rows ==> rows[k].serial <= serial
    ensures rows + touched == StoreAll(rows, Ops(frame), serial + 1)
    ensures touched == Since(rows + touched, serial)
    ensures applied == CountChanges(rows, Ops(frame), serial + 1)
  {
    touched, applied := map[], 0;
    ghost var ops := Ops(frame);
    assert rows + touched == rows;
    assert Since(rows, serial) == map[];
    for i := 0 to |frame.ops|
      invariant rows + touched == StoreAll(rows, ops[..i], serial + 1)
      invariant touched == Since(rows + touched, serial)
      invariant applied == CountChanges(rows, ops[..i], serial + 1)
    {
      var op := frame.ops[i].op;
      StoreNext(rows, ops, i, serial + 1);
      var before := if op.At() in touched then Some(touched[op.At()]) else Get(rows, op.At());
      assert before == Get(rows + touched, op.At());
      var row, changed := ApplyOp(before, op);
      if changed && row.Some? {
        TouchStep(rows, touched, op, row.value.(serial := serial + 1), serial);
        touched := touched[op.At() := row.value.(serial := serial + 1)];
      }
      if changed {
        applied := applied + 1;
      }
    }
    assert ops[..|ops|] == ops;
  }

  lemma StoreNext(rows: map<Key, Row>, ops: seq<Op>, i: nat, stamp: nat)
    requires i < |ops|
    ensures StoreAll(rows, ops[..i + 1], stamp) == StoreOne(StoreAll(rows, ops[..i], stamp), ops[i], stamp)
    ensures CountChanges(rows, ops[..i + 1], stamp)
         == CountChanges(rows, ops[..i], stamp)
            + if Apply(Get(StoreAll(rows, ops[..i], stamp), ops[i].At()), ops[i]).changed then 1 else 0
  {
    var next := ops[..i + 1];
    assert |next| == i + 1 && next[..i] == ops[..i] && next[i] == ops[i];
  }

  // ── the room object ───────────────────────────────────────────────────────

  datatype SocketId = SocketId(number: nat)

  class Room {
    var rows: map<Key, Row>
    var serial: nat
    var gcFloor: nat
    /** Sockets whose hello has been handled. */
    var ready: set<SocketId>
    /** Everything sent on each socket, oldest first. */
    var sent: map<SocketId, seq<Frame>>

    ghost function TableNow(): Table
      reads this
    {
      Table(rows, serial, gcFloor)
    }

    ghost predicate Valid()
      reads this
    {
      TableOk(TableNow()) && ready <= sent.Keys
    }

    constructor ()
      ensures Valid() && TableNow() == Table(map[], 0, 0) && ready == {} && sent == map[]
    {
      rows, serial, gcFloor, ready, sent := map[], 0, 0, {}, map[];
    }

    method Accept(ws: SocketId)
      requires Valid() && ws !in sent
      modifies this
      ensures Valid() && TableNow() == old(TableNow()) && ready == old(ready)
      ensures sent == old(sent)[ws := []]
    {
      sent := sent[ws := []];
    }

    method Send(ws: SocketId, frame: Frame)
      requires ws in sent
      modifies this`sent
      ensures sent == old(sent)[ws := old(sent)[ws] + [frame]]
    {
      sent := sent[ws := sent[ws] + [frame]];
    }

    method HandleHello(ws: SocketId, cursor: Option<nat>)
      requires Valid() && ws in sent
      modifies this
      ensures Valid() && TableNow() == old(TableNow()) && ready == old(ready) + {ws}
      ensures sent == old(sent)[ws := old(sent)[ws] + [HelloReply(old(TableNow()), cursor)]]
    {
      ready := ready + {ws};
      var full := cursor.None? || cursor.value < gcFloor || cursor.value > serial;
      var delta := if full then Since(rows, 0) else Since(rows, cursor.value);
      Send(ws, StateFrame(serial, full, gcFloor, delta));
    }

    method HandlePush(ws: SocketId, frame: PushFrame)
      requires Valid() && ws in sent
      modifies this
      ensures Valid() && ready == old(ready)
      ensures ws !in ready ==>
                TableNow() == old(TableNow()) && sent == old(sent)[ws := old(sent)[ws] + [ErrorFrame("bad_push")]]
      ensures ws in ready ==>
                var p := Push(old(TableNow()), frame);
                && TableNow() == p.table
                && sent.Keys == old(sent).Keys
                && forall s :: s in sent ==>
                     (sent[s] == old(sent)[s] + (if s in ready then Broadcast(old(TableNow()), p) else [])
                                 + (if s == ws then [PushReply(frame, p)] else []))
    {
      if ws !in ready {
        Send(ws, ErrorFrame("bad_push"));
        return;
      }
      var outcome := ApplyPushBatch(frame);
      match outcome {
        case Rejected(code) => Send(ws, ErrorFrame(code));
        case Accepted(seqNo, applied) => Send(ws, AckFrame(frame.batch, seqNo, applied));
      }
    }

    method ApplyPushBatch(frame: PushFrame) returns (outcome: Outcome)
      requires Valid()
      modifies this
      ensures Valid() && ready == old(ready)
      ensures var p := Push(old(TableNow()), frame);
              && TableNow() == p.table && outcome == p.outcome
              && sent.Keys == old(sent).Keys
              && forall s :: s in sent ==> sent[s] == old(sent)[s] + if s in ready then Broadcast(old(TableNow()), p) else []
    {
      ghost var t := TableNow();
      PushEffect(t, frame);
      var verdict := CheckBatch(frame);
      if verdict.Some? {
        return Rejected(verdict.value);
      }
      var touched, applied := ApplyTouched(rows, frame, serial);
      if applied > 0 {
        rows, serial := rows + touched, serial + 1;
        assert TableNow() == Push(t, frame).table;
        BroadcastRows(RowsFrame(serial, touched));
      }
      outcome := Accepted(serial, applied);
    }

    method BroadcastRows(frame: Frame)
      requires ready <= sent.Keys
      modifies this`sent
      ensures sent.Keys == old(sent).Keys
      ensures forall s :: s in sent ==> sent[s] == old(sent)[s] + if s in ready then [frame] else []
    {
      var todo := ready;
      while todo != {}
        invariant todo <= ready && sent.Keys == old(sent).Keys
        invariant forall s :: s in sent ==>
                    sent[s] == old(sent)[s] + if s in ready && s !in todo then [frame] else []
        decreases todo
      {
        var ws :| ws in todo;
        Send(ws, frame);
        todo := todo - {ws};
      }
    }

    method CollectGarbage(horizon: Clock)
      requires Valid()
      modifies this
      ensures Valid() && TableNow() == Purge(old(TableNow()), horizon)
      ensures ready == old(ready) && sent == old(sent)
    {
      PurgeEffect(TableNow(), horizon);
      ghost var gone := PurgedSerials(rows, horizon);
      var purgedMax := 0;
      var todo := rows.Keys;
      while todo != {}
        invariant todo <= rows.Keys
        invariant purgedMax == 0 || purgedMax in gone
        invariant forall k :: k in rows && k !in todo && Expired(rows[k], horizon) ==> rows[k].serial <= purgedMax
        decreases todo
      {
        var k :| k in todo;
        if Expired(rows[k], horizon) {
          purgedMax := Max(purgedMax, rows[k].serial);
        }
        todo := todo - {k};
      }
      if purgedMax > 0 {
        assert purgedMax == MaxOf(gone);
        rows := map k | k in rows && !Expired(rows[k], horizon) :: rows[k];
        gcFloor := Max(gcFloor, purgedMax);
      }
    }
  }
}
