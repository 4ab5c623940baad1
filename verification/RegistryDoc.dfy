/**
 The client's replica: authoritative rows, the queue of unacknowledged batches, and the optimistic
 overlay that reads replay over them (`crates/doc/src/registry.rs`).
 */
module RegistryDoc {
  import opened Prelude
  import opened Hlc
  import opened RegistryCore
  import opened RegistryLaws
  import opened RegistryRoom

  const MAX_OPS_PER_BATCH: nat := 400

  datatype Batch = Batch(id: string, ops: seq<Op>, inFlight: bool)

  datatype Doc = Doc(
    device: string,
    authoritative: map<Key, Row>,
    serial: nat,
    gcFloor: nat,
    clock: Stamp,
    pending: seq<Batch>,
    generation: nat)

  function NewDoc(device: string): Doc {
    Doc(device, map[], 0, 0, Stamp(0, 0), [], 0)
  }

  /** A batch is named by the clock tick taken when it was queued. */
  function BatchId(tick: Stamp, device: string): string {
    "b-" + EncodeHlc(tick.ms, tick.counter, device)
  }

  lemma BatchIdIsUnique(a: Stamp, b: Stamp, device: string)
    requires BatchId(a, device) == BatchId(b, device)
    ensures a == b
  {
    assert EncodeHlc(a.ms, a.counter, device) == BatchId(a, device)[2..];
    assert EncodeHlc(b.ms, b.counter, device) == BatchId(b, device)[2..];
    EncodedTickIsUnique(a, b, device);
  }

  // ── queueing ──────────────────────────────────────────────────────────────

  /** Successive readings of the wall clock; the model of the clock is total. */
  function Reading(now: seq<int>, i: nat): int {
    if i < |now| then now[i] else 0
  }

  function Rest(now: seq<int>): seq<int> {
    if now == [] then [] else now[1..]
  }

  /** The batches that a list of ops is cut into, each named by a fresh tick. */
  function Cut(device: string, clock: Stamp, ops: seq<Op>, now: seq<int>): (out: seq<Batch>)
    decreases |ops|
  {
    if ops == [] then []
    else
      var tick := Tick(clock, Reading(now, 0));
      if |ops| > MAX_OPS_PER_BATCH
      then [Batch(BatchId(tick, device), ops[..MAX_OPS_PER_BATCH], false)] + Cut(device, tick, ops[MAX_OPS_PER_BATCH..], Rest(now))
      else [Batch(BatchId(tick, device), ops, false)]
  }

  /** One tick per batch. */
  function ClockAfter(clock: Stamp, ops: seq<Op>, now: seq<int>): Stamp
    decreases |ops|
  {
    if ops == [] then clock
    else ClockAfter(Tick(clock, Reading(now, 0)), ops[Min(|ops|, MAX_OPS_PER_BATCH)..], Rest(now))
  }

  lemma CutStep(device: string, clock: Stamp, ops: seq<Op>, now: seq<int>)
    requires ops != []
    ensures var tick := Tick(clock, Reading(now, 0));
            var split := Min(|ops|, MAX_OPS_PER_BATCH);
            Cut(device, clock, ops, now)
            == [Batch(BatchId(tick, device), ops[..split], false)] + Cut(device, tick, ops[split..], Rest(now))
  {
    if |ops| <= MAX_OPS_PER_BATCH {
      assert ops[..|ops|] == ops && ops[|ops|..] == [];
    }
  }

  function Enqueue(d: Doc, ops: seq<Op>, now: seq<int>): Doc {
    if ops == [] then d
    else
      d.(pending := d.pending + Cut(d.device, d.clock, ops, now),
         clock := ClockAfter(d.clock, ops, now),
         generation := d.generation + 1)
  }

  function PendingOps(pending: seq<Batch>): seq<Op> {
    if pending == [] then [] else pending[0].ops + PendingOps(pending[1..])
  }

  /** `id` encodes a tick later than `lo` and no later than `hi`. */
  ghost predicate NamedWithin(id: string, device: string, lo: Stamp, hi: Stamp) {
    exists tick :: StampLess(lo, tick) && !StampLess(hi, tick) && id == BatchId(tick, device)
  }

  ghost predicate FreshNames(device: string, lo: Stamp, batches: seq<Batch>, hi: Stamp) {
    && (forall i :: 0 <= i < |batches| ==> NamedWithin(batches[i].id, device, lo, hi))
    && (forall i, j :: 0 <= i < j < |batches| ==> batches[i].id != batches[j].id)
  }

  lemma {:induction false} ClockAdvances(clock: Stamp, ops: seq<Op>, now: seq<int>)
    ensures !StampLess(ClockAfter(clock, ops, now), clock)
    decreases |ops|
  {
    if ops != [] {
      ClockAdvances(Tick(clock, Reading(now, 0)), ops[Min(|ops|, MAX_OPS_PER_BATCH)..], Rest(now));
    }
  }

  lemma NamesAfter(head: Batch, device: string, lo: Stamp, tick: Stamp, tail: seq<Batch>, hi: Stamp)
    requires StampLess(lo, tick) && !StampLess(hi, tick) && head.id == BatchId(tick, device)
    requires FreshNames(device, tick, tail, hi)
    ensures FreshNames(device, lo, [head] + tail, hi)
  {
    var out := [head] + tail;
    forall i | 0 <= i < |out|
      ensures NamedWithin(out[i].id, device, lo, hi) && (i > 0 ==> out[i].id != head.id)
    {
      if i > 0 {
        assert NamedWithin(tail[i - 1].id, device, tick, hi);
        var later :| StampLess(tick, later) && !StampLess(hi, later) && out[i].id == BatchId(later, device);
        if out[i].id == head.id {
          BatchIdIsUnique(later, tick, device);
        }
      }
    }
  }

  /** Every batch is named by a tick taken after `clock`, and no name is used twice. */
  lemma {:induction false} CutNamesAreFresh(device: string, clock: Stamp, ops: seq<Op>, now: seq<int>)
    ensures FreshNames(device, clock, Cut(device, clock, ops, now), ClockAfter(clock, ops, now))
    decreases |ops|
  {
    if ops != [] {
      var tick, split := Tick(clock, Reading(now, 0)), Min(|ops|, MAX_OPS_PER_BATCH);
      CutStep(device, clock, ops, now);
      CutNamesAreFresh(device, tick, ops[split..], Rest(now));
      ClockAdvances(tick, ops[split..], Rest(now));
      NamesAfter(Cut(device, clock, ops, now)[0], device, clock, tick,
                 Cut(device, tick, ops[split..], Rest(now)), ClockAfter(clock, ops, now));
    }
  }

  /** Queueing loses, repeats and reorders nothing and never makes a batch the room would refuse for its size. */
  lemma {:induction false} CutIsFaithful(device: string, clock: Stamp, ops: seq<Op>, now: seq<int>)
    ensures var out := Cut(device, clock, ops, now);
            && PendingOps(out) == ops
            && (forall i :: 0 <= i < |out| ==> 1 <= |out[i].ops| <= MAX_OPS_PER_BATCH <= MAX_BATCH_OPS && !out[i].inFlight)
    decreases |ops|
  {
    if ops != [] {
      var tick, split := Tick(clock, Reading(now, 0)), Min(|ops|, MAX_OPS_PER_BATCH);
      CutStep(device, clock, ops, now);
      CutIsFaithful(device, tick, ops[split..], Rest(now));
      assert Cut(device, clock, ops, now)[1..] == Cut(device, tick, ops[split..], Rest(now));
      assert ops == ops[..split] + ops[split..];
    }
  }

  // ── server frames ─────────────────────────────────────────────────────────

  /** `order` lists the keys of a hash map in the order its iterator happens to visit them. */
  ghost predicate Enumerates(order: seq<Key>, keys: set<Key>) {
    && (forall i, j :: 0 <= i < j < |order| ==> order[i] != order[j])
    && (forall k :: k in order <==> k in keys)
  }

  ghost function SeedOps(rows: map<Key, Row>, order: seq<Key>): seq<Op> {
    if order == [] then []
    else (if order[0] in rows then [RowToSeedOp(rows[order[0]])] else []) + SeedOps(rows, order[1..])
  }

  function Missing(rows: map<Key, Row>, incoming: map<Key, Row>): map<Key, Row> {
    map k | k in rows && k !in incoming :: rows[k]
  }

  datatype StateOutcome = Delta | Replaced | Reseeded

  datatype StateApplied = StateApplied(doc: Doc, outcome: StateOutcome)

  ghost function ApplyState(d: Doc, serial: nat, full: bool, gcFloor: nat, rows: map<Key, Row>,
                            order: seq<Key>, now: seq<int>): StateApplied
  {
    var seen := d.(serial := serial, gcFloor := gcFloor, generation := d.generation + 1);
    if !full then
      StateApplied(seen.(authoritative := d.authoritative + rows), Delta)
    else if serial < d.serial then
      StateApplied(Enqueue(seen.(authoritative := d.authoritative + rows), SeedOps(d.authoritative, order), now), Reseeded)
    else
      var seeds := SeedOps(Missing(d.authoritative, rows), order);
      StateApplied(Enqueue(seen.(authoritative := rows), seeds, now), if seeds == [] then Replaced else Reseeded)
  }

  function ApplyRows(d: Doc, serial: nat, rows: map<Key, Row>): Doc {
    d.(authoritative := d.authoritative + rows, serial := Max(d.serial, serial), generation := d.generation + 1)
  }

  /** The batches not named `batch`, in order. */
  function Retain(pending: seq<Batch>, batch: string): seq<Batch> {
    if pending == [] then []
    else (if pending[0].id != batch then [pending[0]] else []) + Retain(pending[1..], batch)
  }

  function AckBatch(d: Doc, batch: string, serial: nat): Doc {
    var rest := Retain(d.pending, batch);
    d.(pending := rest, serial := Max(d.serial, serial),
       generation := if |rest| != |d.pending| then d.generation + 1 else d.generation)
  }

  function Marked(pending: seq<Batch>, inFlight: bool): (out: seq<Batch>)
    ensures |out| == |pending|
    ensures forall i :: 0 <= i < |out| ==> out[i] == pending[i].(inFlight := inFlight)
  {
    seq(|pending|, i requires 0 <= i < |pending| => pending[i].(inFlight := inFlight))
  }

  /** What goes on the wire now, and what remembers that it did. */
  function Pushable(pending: seq<Batch>): seq<Batch> {
    if pending == [] then []
    else (if !pending[0].inFlight then [pending[0].(inFlight := true)] else []) + Pushable(pending[1..])
  }

  // ── overlay reads ─────────────────────────────────────────────────────────

  function OpsAt(ops: seq<Op>, key: Key): seq<Op> {
    if ops == [] then []
    else (if ops[0].At() == key then [ops[0]] else []) + OpsAt(ops[1..], key)
  }

  /** The authoritative row with every pending op replayed over it. */
  ghost function Replayed(rows: map<Key, Row>, pending: seq<Batch>, key: Key): Option<Row> {
    ApplyAll(Get(rows, key), OpsAt(PendingOps(pending), key))
  }

  ghost function Overlay(d: Doc, key: Key): Option<Row> {
    var row := Replayed(d.authoritative, d.pending, key);
    if row.Some? && row.value.deleted then None else row
  }

  lemma {:induction false} OpsAtConcat(a: seq<Op>, b: seq<Op>, key: Key)
    ensures OpsAt(a + b, key) == OpsAt(a, key) + OpsAt(b, key)
  {
    if a == [] {
      assert a + b == b;
    } else {
      var head := if a[0].At() == key then [a[0]] else [];
      assert (a + b)[0] == a[0] && (a + b)[1..] == a[1..] + b;
      OpsAtConcat(a[1..], b, key);
      Regroup(head, OpsAt(a[1..], key), OpsAt(b, key));
    }
  }

  lemma OpsAtOne(op: Op, key: Key)
    ensures OpsAt([op], key) == if op.At() == key then [op] else []
  {
  }

  lemma {:induction false} OpsAtAreAt(ops: seq<Op>, key: Key)
    ensures AllAt(key, OpsAt(ops, key))
    ensures forall op :: op in OpsAt(ops, key) <==> op in ops && op.At() == key
  {
    if ops != [] {
      OpsAtAreAt(ops[1..], key);
      assert forall op :: op in ops <==> op == ops[0] || op in ops[1..];
    }
  }

  lemma {:induction false} ApplyAllConcat(row: Option<Row>, a: seq<Op>, b: seq<Op>)
    ensures ApplyAll(row, a + b) == ApplyAll(ApplyAll(row, a), b)
    decreases |b|
  {
    if b == [] {
      assert a + b == a;
    } else {
      ApplyAllConcat(row, a, b[..|b| - 1]);
      assert (a + b)[..|a + b| - 1] == a + b[..|b| - 1];
    }
  }

  lemma ApplyAllOne(row: Option<Row>, op: Op)
    ensures ApplyAll(row, [op]) == Apply(row, op).row
  {
  }

  lemma {:induction false} PendingOpsConcat(a: seq<Batch>, b: seq<Batch>)
    ensures PendingOps(a + b) == PendingOps(a) + PendingOps(b)
  {
    if a == [] {
      assert a + b == b;
    } else {
      assert (a + b)[0] == a[0] && (a + b)[1..] == a[1..] + b;
      PendingOpsConcat(a[1..], b);
      Regroup(a[0].ops, PendingOps(a[1..]), PendingOps(b));
    }
  }

  lemma PendingOpsOne(batch: Batch)
    ensures PendingOps([batch]) == batch.ops
  {
  }

  /** Replaying `a` then `b` is replaying the queue `a + b`. */
  lemma ReplayedConcat(rows: map<Key, Row>, a: seq<Batch>, b: seq<Batch>, key: Key)
    ensures Replayed(rows, a + b, key) == ApplyAll(Replayed(rows, a, key), OpsAt(PendingOps(b), key))
  {
    PendingOpsConcat(a, b);
    OpsAtConcat(PendingOps(a), PendingOps(b), key);
    ApplyAllConcat(Get(rows, key), OpsAt(PendingOps(a), key), OpsAt(PendingOps(b), key));
  }

  // ── no flicker ────────────────────────────────────────────────────────────

  /** The only op of the batch at `key`, if there is one, is settled. */
  lemma SettledAt(rows: map<Key, Row>, ops: seq<Op>, key: Key)
    requires OnePerRow(ops) && SettledAll(rows, ops)
    ensures OpsAt(ops, key) == [] || exists op :: op in ops && op.At() == key && OpsAt(ops, key) == [op] && Settled(rows, op)
  {
  }

  /** Replaying one batch that is already reflected in the rows changes no read. */
  lemma ReplayOfSettledBatch(rows: map<Key, Row>, batch: Batch, key: Key)
    requires OnePerRow(batch.ops) && SettledAll(rows, batch.ops)
    ensures Replayed(rows, [batch], key) == Get(rows, key)
  {
    PendingOpsOne(batch);
    SettledAt(rows, batch.ops, key);
    if OpsAt(batch.ops, key) != [] {
      var op :| op in batch.ops && op.At() == key && OpsAt(batch.ops, key) == [op] && Settled(rows, op);
      ApplyAllOne(Get(rows, key), op);
      SettledMeansUnchanged(Get(rows, key), op);
    }
  }

  lemma SettledMeansUnchanged(row: Option<Row>, op: Op)
    requires !Apply(row, op).changed
    ensures Apply(row, op).row == row
  {
  }

  lemma RetiringTheHeadIsInvisible(rows: map<Key, Row>, batch: Batch, rest: seq<Batch>, key: Key)
    requires OnePerRow(batch.ops) && SettledAll(rows, batch.ops)
    ensures Replayed(rows, [batch] + rest, key) == Replayed(rows, rest, key)
  {
    ReplayedConcat(rows, [batch], rest, key);
    ReplayOfSettledBatch(rows, batch, key);
  }

  /**
   No flicker, whatever else is pending: once the merged rows of a one-op-per-row batch are in place,
   taking the batch out of the queue leaves the read unchanged, provided replaying the batches
   queued before it does not bring a tombstone of that row back.
   */
  lemma RetiringAnywhereIsInvisible(rows: map<Key, Row>, before: seq<Batch>, batch: Batch, after: seq<Batch>, key: Key)
    requires OnePerRow(batch.ops) && SettledAll(rows, batch.ops)
    requires key in rows && rows[key].At() == key && WellFormed(rows[key])
    requires forall i :: 0 <= i < |batch.ops| ==> Grounded(batch.ops[i])
    requires NeverRevives(Some(rows[key]), OpsAt(PendingOps(before), key))
    ensures Replayed(rows, before + [batch] + after, key) == Replayed(rows, before + after, key)
  {
    var early := OpsAt(PendingOps(before), key);
    OpsAtAreAt(PendingOps(before), key);
    PendingOpsOne(batch);
    SettledAt(rows, batch.ops, key);
    ReplayedConcat(rows, before, [batch], key);
    ReplayedConcat(rows, before + [batch], after, key);
    ReplayedConcat(rows, before, after, key);
    if OpsAt(batch.ops, key) != [] {
      var op :| op in batch.ops && op.At() == key && OpsAt(batch.ops, key) == [op] && Settled(rows, op);
      NoOpIffAbsorbed(rows[key], op);
      AbsorbedSurvivesAll(key, rows[key], op, early);
      NoOpIffAbsorbed(ApplyAll(Some(rows[key]), early).value, op);
      ApplyAllOne(ApplyAll(Some(rows[key]), early), op);
    }
  }

  method RetainLoop(pending: seq<Batch>, batch: string) returns (kept: seq<Batch>)
    ensures kept == Retain(pending, batch)
  {
    kept := [];
    for i := 0 to |pending|
      invariant kept + Retain(pending[i..], batch) == Retain(pending, batch)
    {
      var mine := if pending[i].id != batch then [pending[i]] else [];
      assert pending[i..][1..] == pending[i + 1..];
      Regroup(kept, mine, Retain(pending[i + 1..], batch));
      kept := kept + mine;
    }
  }

  /** The inner loop of `overlay_row`: one batch over the row so far. */
  method ReplayOps(start: Option<Row>, ops: seq<Op>, key: Key) returns (row: Option<Row>)
    ensures row == ApplyAll(start, OpsAt(ops, key))
  {
    row := start;
    assert ops[..0] == [];
    for j := 0 to |ops|
      invariant row == ApplyAll(start, OpsAt(ops[..j], key))
    {
      ReplayStep(start, ops, j, key);
      if ops[j].At() == key {
        var next, changed := ApplyOp(row, ops[j]);
        MissingStaysMissing(row, ops[j]);
        if next.Some? {
          row := next;
        }
      }
    }
    assert ops[..|ops|] == ops;
  }

  lemma ReplayStep(start: Option<Row>, ops: seq<Op>, j: nat, key: Key)
    requires j < |ops|
    ensures ApplyAll(start, OpsAt(ops[..j + 1], key))
         == if ops[j].At() == key then Apply(ApplyAll(start, OpsAt(ops[..j], key)), ops[j]).row
            else ApplyAll(start, OpsAt(ops[..j], key))
  {
    assert ops[..j + 1] == ops[..j] + [ops[j]];
    OpsAtConcat(ops[..j], [ops[j]], key);
    OpsAtOne(ops[j], key);
    ApplyAllConcat(start, OpsAt(ops[..j], key), OpsAt([ops[j]], key));
    ApplyAllOne(ApplyAll(start, OpsAt(ops[..j], key)), ops[j]);
  }

  /** Only an update of a missing row yields no row. */
  lemma MissingStaysMissing(row: Option<Row>, op: Op)
    ensures Apply(row, op).row.None? ==> row.None?
  {
  }

  // ── the replica object ────────────────────────────────────────────────────

  class RegistryReplica {
    const device: string
    var authoritative: map<Key, Row>
    var serial: nat
    var gcFloor: nat
    const clock: HlcClock
    var pending: seq<Batch>
    var generation: nat

    ghost function Now(): Doc
      reads this, clock
    {
      Doc(device, authoritative, serial, gcFloor, clock.Now(), pending, generation)
    }

    constructor (device: string)
      ensures Now() == NewDoc(device) && fresh(clock)
    {
      this.device := device;
      authoritative, serial, gcFloor, pending, generation := map[], 0, 0, [], 0;
      clock := new HlcClock();
    }

    method PutAuthoritative(rows: map<Key, Row>)
      modifies this`authoritative
      ensures authoritative == old(authoritative) + rows
    {
      var todo := rows.Keys;
      while todo != {}
        invariant todo <= rows.Keys
        invariant authoritative.Keys == old(authoritative).Keys + (rows.Keys - todo)
        invariant forall k :: k in authoritative ==>
                    authoritative[k] == if k in rows && k !in todo then rows[k] else old(authoritative)[k]
        decreases todo
      {
        var k :| k in todo;
        authoritative := authoritative[k := rows[k]];
        todo := todo - {k};
      }
    }

    method NameBatch(ops: seq<Op>, nowMs: int) returns (batch: Batch)
      modifies clock
      ensures clock.Now() == Tick(old(clock.Now()), nowMs)
      ensures batch == Batch(BatchId(clock.Now(), device), ops, false)
    {
      var h := clock.Next(nowMs, device);
      batch := Batch("b-" + h, ops, false);
    }

    /** The loop over a shrinking vector: split off a head of at most 400 ops, name it, queue it. */
    method EnqueueOps(all: seq<Op>, readings: seq<int>)
      modifies this`pending, this`generation, clock
      ensures Now() == Enqueue(old(Now()), all, readings)
    {
      if all == [] {
        return;
      }
      generation := generation + 1;
      var ops, now := all, readings;
      ghost var queued: seq<Batch> := [];
      ghost var start := clock.Now();
      while ops != []
        invariant pending == old(pending) + queued
        invariant ClockAfter(start, all, readings) == ClockAfter(clock.Now(), ops, now)
        invariant Cut(device, start, all, readings) == queued + Cut(device, clock.Now(), ops, now)
        invariant generation == old(generation) + 1
        decreases |ops|
      {
        CutStep(device, clock.Now(), ops, now);
        var tail: seq<Op> := [];
        if |ops| > MAX_OPS_PER_BATCH {
          tail, ops := ops[MAX_OPS_PER_BATCH..], ops[..MAX_OPS_PER_BATCH];
        }
        var batch := NameBatch(ops, Reading(now, 0));
        Regroup(queued, [batch], Cut(device, clock.Now(), tail, Rest(now)));
        Regroup(old(pending), queued, [batch]);
        pending := pending + [batch];
        queued := queued + [batch];
        ops, now := tail, Rest(now);
      }
    }

    /** `order` is the iteration order of the row map. */
    method ApplyStateFrame(seqNo: nat, full: bool, floor: nat, rows: map<Key, Row>, order: seq<Key>, now: seq<int>)
      returns (outcome: StateOutcome)
      modifies this, clock
      ensures StateApplied(Now(), outcome) == ApplyState(old(Now()), seqNo, full, floor, rows, order, now)
    {
      generation := generation + 1;
      if !full {
        PutAuthoritative(rows);
        serial, gcFloor := seqNo, floor;
        return Delta;
      }
      if seqNo < serial {
        var seed := CollectSeeds(authoritative, order);
        PutAuthoritative(rows);
        serial, gcFloor := seqNo, floor;
        EnqueueOps(seed, now);
        return Reseeded;
      }
      var seed := CollectSeeds(Missing(authoritative, rows), order);
      authoritative, serial, gcFloor := rows, seqNo, floor;
      EnqueueOps(seed, now);
      outcome := if seed == [] then Replaced else Reseeded;
    }

    method CollectSeeds(rows: map<Key, Row>, order: seq<Key>) returns (seeds: seq<Op>)
      ensures seeds == SeedOps(rows, order)
    {
      seeds := [];
      for i := 0 to |order|
        invariant seeds + SeedOps(rows, order[i..]) == SeedOps(rows, order)
      {
        assert order[i..][1..] == order[i + 1..];
        if order[i] in rows {
          var op := SeedOpOf(rows[order[i]]);
          seeds := seeds + [op];
        }
      }
    }

    method SeedOpOf(row: Row) returns (op: Op)
      ensures op == RowToSeedOp(row)
    {
      var newest := row.delHlc;
      if !row.deleted {
        newest := NewestClock(row);
      }
      var hlc: Clock;
      if newest.Some? {
        hlc := newest.value;
      } else {
        hlc := Rank(SEED_HLC, MAX_HLC_LENGTH);
      }
      if row.deleted {
        op := Op(row.kind, row.id, Delete, None, hlc, map[]);
      } else {
        op := Op(row.kind, row.id, Upsert, Some(map k | k in row.fields :: Some(row.fields[k])), hlc, row.clocks);
      }
    }

    method ApplyRowsFrame(seqNo: nat, rows: map<Key, Row>)
      modifies this
      ensures Now() == ApplyRows(old(Now()), seqNo, rows)
    {
      generation := generation + 1;
      PutAuthoritative(rows);
      if seqNo > serial {
        serial := seqNo;
      }
    }

    method Ack(batch: string, seqNo: nat) returns (existed: bool)
      modifies this
      ensures Now() == AckBatch(old(Now()), batch, seqNo)
      ensures existed <==> |pending| != |old(pending)|
    {
      var kept := RetainLoop(pending, batch);
      existed := |kept| != |pending|;
      pending := kept;
      if seqNo > serial {
        serial := seqNo;
      }
      if existed {
        generation := generation + 1;
      }
    }

    method TakePushable() returns (out: seq<Batch>)
      modifies this`pending
      ensures out == Pushable(old(pending))
      ensures pending == Marked(old(pending), true)
    {
      out := [];
      var was := pending;
      for i := 0 to |was|
        invariant |pending| == |was|
        invariant out + Pushable(was[i..]) == Pushable(was)
        invariant forall j :: 0 <= j < i ==> pending[j] == was[j].(inFlight := true)
        invariant forall j :: i <= j < |was| ==> pending[j] == was[j]
      {
        assert was[i..][1..] == was[i + 1..];
        if !was[i].inFlight {
          pending := pending[i := was[i].(inFlight := true)];
          out := out + [pending[i]];
        }
      }
    }

    method MarkDisconnected()
      modifies this`pending
      ensures pending == Marked(old(pending), false)
    {
      var was := pending;
      for i := 0 to |was|
        invariant |pending| == |was|
        invariant forall j :: 0 <= j < i ==> pending[j] == was[j].(inFlight := false)
        invariant forall j :: i <= j < |was| ==> pending[j] == was[j]
      {
        pending := pending[i := was[i].(inFlight := false)];
      }
    }

    method OverlayRow(kind: string, id: string) returns (row: Option<Row>)
      ensures row == Overlay(Now(), Key(kind, id))
    {
      var key := Key(kind, id);
      row := Get(authoritative, key);
      assert pending[..0] == [];
      for i := 0 to |pending|
        invariant row == Replayed(authoritative, pending[..i], key)
      {
        row := ReplayOps(row, pending[i].ops, key);
        assert pending[..i + 1] == pending[..i] + [pending[i]];
        ReplayedConcat(authoritative, pending[..i], [pending[i]], key);
        PendingOpsOne(pending[i]);
      }
      assert pending[..|pending|] == pending;
      if row.Some? && row.value.deleted {
        row := None;
      }
    }
  }
}
