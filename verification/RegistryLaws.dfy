/**
 Laws of the merge rule: when order does not matter, when a replay is harmless, how deletes
 interact with writes, and what a re-seed op restores.
 */
module RegistryLaws {
  import opened Prelude
  import opened Hlc
  import opened RegistryCore

  // ── order independence ────────────────────────────────────────────────────

  ghost predicate DeleteFree(ops: seq<Op>) {
    forall i :: 0 <= i < |ops| ==> !ops[i].op.Delete?
  }

  /** Two writes of one field with one clock write one value: clocks are unique per writer and tick. */
  ghost predicate ClocksAgree(ops: seq<Op>) {
    forall i, j, k ::
      (0 <= i < |ops| && 0 <= j < |ops| && k in ops[i].Writes() && k in ops[j].Writes()
       && ops[i].ClockFor(k) == ops[j].ClockFor(k))
      ==> ops[i].Writes()[k] == ops[j].Writes()[k]
  }

  ghost predicate WrittenBy(ops: seq<Op>, k: string, clock: Clock, value: Option<Json>) {
    exists i :: 0 <= i < |ops| && k in ops[i].Writes() && ops[i].ClockFor(k) == clock && ops[i].Writes()[k] == value
  }

  ghost predicate Writes(ops: seq<Op>, k: string) {
    exists i :: 0 <= i < |ops| && k in ops[i].Writes()
  }

  /** Field `k` of `out` is the write with the largest clock among `start` and `ops`. */
  ghost predicate NewestWrite(start: Row, ops: seq<Op>, out: Row, k: string) {
    && (k in out.clocks <==> k in start.clocks || Writes(ops, k))
    && (k !in out.clocks ==> Get(out.fields, k) == Get(start.fields, k))
    && (k in out.clocks ==>
          && AtMost(Get(start.clocks, k), Some(out.clocks[k]))
          && (forall i :: 0 <= i < |ops| && k in ops[i].Writes() ==> ops[i].ClockFor(k) <= out.clocks[k])
          && (if Get(start.clocks, k) == Some(out.clocks[k]) then Get(out.fields, k) == Get(start.fields, k)
              else WrittenBy(ops, k, out.clocks[k], Get(out.fields, k))))
  }

  ghost predicate HoldsNewestWrites(start: Row, ops: seq<Op>, out: Row) {
    && out.At() == start.At() && out.serial == start.serial && out.delHlc == start.delHlc && !out.deleted
    && forall k :: NewestWrite(start, ops, out, k)
  }

  lemma MergeGet(base: Row, op: Op, k: string)
    ensures Get(Merge(base, op).fields, k) == if k in Winners(base, op) then op.Writes()[k] else Get(base.fields, k)
    ensures Get(Merge(base, op).clocks, k) == if k in Winners(base, op) then Some(op.ClockFor(k)) else Get(base.clocks, k)
  {
  }

  lemma NothingToMerge(base: Row, op: Op)
    requires !base.deleted && Winners(base, op) == {}
    ensures Merge(base, op) == base
  {
  }

  lemma WritesStep(ops: seq<Op>, op: Op, k: string)
    ensures Writes(ops + [op], k) <==> Writes(ops, k) || k in op.Writes()
    ensures forall c, v :: WrittenBy(ops, k, c, v) ==> WrittenBy(ops + [op], k, c, v)
    ensures k in op.Writes() ==> WrittenBy(ops + [op], k, op.ClockFor(k), op.Writes()[k])
  {
    var all := ops + [op];
    assert all[|ops|] == op;
    if Writes(ops, k) {
      var i :| 0 <= i < |ops| && k in ops[i].Writes();
      assert all[i] == ops[i];
    }
    forall c, v | WrittenBy(ops, k, c, v)
      ensures WrittenBy(all, k, c, v)
    {
      var i :| 0 <= i < |ops| && k in ops[i].Writes() && ops[i].ClockFor(k) == c && ops[i].Writes()[k] == v;
      assert all[i] == ops[i];
    }
  }

  lemma NewestWriteStep(start: Row, ops: seq<Op>, mid: Row, op: Op, k: string)
    requires NewestWrite(start, ops, mid, k)
    ensures NewestWrite(start, ops + [op], Merge(mid, op), k)
  {
    var all, out := ops + [op], Merge(mid, op);
    MergeGet(mid, op, k);
    WritesStep(ops, op, k);
    assert Get(out.clocks, k).Some? <==> k in out.clocks;
    assert Get(mid.clocks, k).Some? <==> k in mid.clocks;
    if k in out.clocks {
      forall i | 0 <= i < |all| && k in all[i].Writes()
        ensures all[i].ClockFor(k) <= out.clocks[k]
      {
        if i < |ops| {
          assert all[i] == ops[i];
          assert Writes(ops, k);
        }
      }
    }
  }

  lemma NewestWritesStep(start: Row, ops: seq<Op>, mid: Row, op: Op)
    requires HoldsNewestWrites(start, ops, mid)
    ensures HoldsNewestWrites(start, ops + [op], Merge(mid, op))
  {
    forall k
      ensures NewestWrite(start, ops + [op], Merge(mid, op), k)
    {
      NewestWriteStep(start, ops, mid, op, k);
    }
  }

  /** The closed form of a delete-free history. */
  lemma {:induction false} NewestWritesWin(start: Row, ops: seq<Op>)
    requires !start.deleted && DeleteFree(ops)
    ensures ApplyAll(Some(start), ops).Some?
    ensures HoldsNewestWrites(start, ops, ApplyAll(Some(start), ops).value)
    decreases |ops|
  {
    if ops != [] {
      var front, op := ops[..|ops| - 1], ops[|ops| - 1];
      NewestWritesWin(start, front);
      var mid := ApplyAll(Some(start), front).value;
      if Winners(mid, op) == {} {
        NothingToMerge(mid, op);
      }
      NewestWritesStep(start, front, mid, op);
      assert front + [op] == ops;
    }
  }

  ghost predicate SameOps(a: seq<Op>, b: seq<Op>) {
    forall op :: op in a <==> op in b
  }

  lemma WrittenInBoth(a: seq<Op>, b: seq<Op>, k: string, clock: Clock, value: Option<Json>)
    requires SameOps(a, b)
    requires WrittenBy(a, k, clock, value)
    ensures WrittenBy(b, k, clock, value) && Writes(b, k)
    ensures exists i :: 0 <= i < |b| && k in b[i].Writes() && b[i].ClockFor(k) == clock
  {
    var i :| 0 <= i < |a| && k in a[i].Writes() && a[i].ClockFor(k) == clock && a[i].Writes()[k] == value;
    assert a[i] in b;
    var j :| 0 <= j < |b| && b[j] == a[i];
  }

  lemma NewestClockAgrees(start: Row, a: seq<Op>, b: seq<Op>, x: Row, y: Row, k: string)
    requires SameOps(a, b)
    requires NewestWrite(start, a, x, k) && NewestWrite(start, b, y, k)
    requires k in x.clocks
    ensures k in y.clocks && x.clocks[k] <= y.clocks[k]
  {
    if Get(start.clocks, k) != Some(x.clocks[k]) {
      WrittenInBoth(a, b, k, x.clocks[k], Get(x.fields, k));
    }
  }

  lemma SameField(start: Row, a: seq<Op>, b: seq<Op>, x: Row, y: Row, k: string)
    requires SameOps(a, b) && ClocksAgree(a)
    requires NewestWrite(start, a, x, k) && NewestWrite(start, b, y, k)
    ensures Get(x.clocks, k) == Get(y.clocks, k) && Get(x.fields, k) == Get(y.fields, k)
  {
    if k in x.clocks || k in y.clocks {
      if k in x.clocks { NewestClockAgrees(start, a, b, x, y, k); }
      if k in y.clocks { NewestClockAgrees(start, b, a, y, x, k); }
      if Get(start.clocks, k) != Some(x.clocks[k]) {
        WrittenInBoth(b, a, k, y.clocks[k], Get(y.fields, k));
      }
    }
  }

  /**
   From a live row, any two delete-free histories made of the same ops give the same row: reordering
   and duplicating updates and upserts changes nothing.
   */
  lemma OrderIndependence(start: Row, a: seq<Op>, b: seq<Op>)
    requires !start.deleted
    requires DeleteFree(a) && DeleteFree(b) && SameOps(a, b) && ClocksAgree(a)
    ensures ApplyAll(Some(start), a) == ApplyAll(Some(start), b)
  {
    NewestWritesWin(start, a);
    NewestWritesWin(start, b);
    var x, y := ApplyAll(Some(start), a).value, ApplyAll(Some(start), b).value;
    forall k
      ensures Get(x.clocks, k) == Get(y.clocks, k) && Get(x.fields, k) == Get(y.fields, k)
    {
      SameField(start, a, b, x, y, k);
    }
    SameLookups(x.clocks, y.clocks);
    SameLookups(x.fields, y.fields);
  }

  // ── replay ────────────────────────────────────────────────────────────────

  /** The row already reflects `op`. */
  ghost predicate Absorbed(row: Row, op: Op) {
    if op.op.Delete? then !HlcNewer(op.hlc, DeleteBar(row))
    else if row.deleted then op.op.Update? || !HlcNewer(op.hlc, row.delHlc)
    else forall k :: k in op.Writes() ==> k in row.clocks && op.ClockFor(k) <= row.clocks[k]
  }

  /** Re-applying an op is a no-op exactly on the rows that already reflect it. */
  lemma NoOpIffAbsorbed(row: Row, op: Op)
    ensures Apply(Some(row), op) == Applied(Some(row), false) <==> Absorbed(row, op)
    ensures !Apply(Some(row), op).changed <==> Absorbed(row, op)
  {
    if !op.op.Delete? && !row.deleted {
      forall k | k in op.Writes()
        ensures k in Winners(row, op) <==> !(k in row.clocks && op.ClockFor(k) <= row.clocks[k])
      {
      }
      if Absorbed(row, op) {
        assert Winners(row, op) == {};
      }
    }
  }

  lemma ApplyAbsorbs(row: Option<Row>, op: Op)
    requires Apply(row, op).row.Some?
    ensures Absorbed(Apply(row, op).row.value, op)
  {
    var out := Apply(row, op).row.value;
    if row.Some? && !Apply(row, op).changed {
      NoOpIffAbsorbed(row.value, op);
    } else if !op.op.Delete? {
      var base := if row.None? then Fresh(op.kind, op.id) else if row.value.deleted then Emptied(row.value) else row.value;
      assert out == Merge(base, op);
      forall k | k in op.Writes()
        ensures k in out.clocks && op.ClockFor(k) <= out.clocks[k]
      {
        MergeGet(base, op, k);
      }
    }
  }

  /**
   Some field write is at least as new as the op itself. True of every op without clock overrides
   whose set is not empty, and of deletes and updates for want of anything to protect.
   */
  ghost predicate Grounded(op: Op) {
    op.op.Upsert? ==> exists k :: k in op.Writes() && op.hlc <= op.ClockFor(k)
  }

  lemma PlainOpsAreGrounded(op: Op)
    requires op.clocks == map[]
    requires op.op.Upsert? ==> op.Writes() != map[]
    ensures Grounded(op)
  {
  }

  ghost predicate Revives(row: Option<Row>, op: Op) {
    row.Some? && row.value.deleted && Apply(row, op).row.Some? && !Apply(row, op).row.value.deleted
  }

  lemma AbsorbedSurvives(row: Row, op: Op, later: Op)
    requires WellFormed(row)
    requires Grounded(op) && Absorbed(row, op)
    requires !Revives(Some(row), later)
    ensures Apply(Some(row), later).row.Some?
    ensures Absorbed(Apply(Some(row), later).row.value, op)
  {
    var out := Apply(Some(row), later).row.value;
    MaxClockIsNewest(row);
    MaxClockIsNewest(out);
    if !later.op.Delete? && !row.deleted && Winners(row, later) != {} {
      NewestOfMerge(row, later);
      forall k | k in op.Writes() && !op.op.Delete?
        ensures k in out.clocks && op.ClockFor(k) <= out.clocks[k]
      {
        MergeGet(row, later, k);
      }
    }
  }

  /** No op of the history brings a tombstone back. */
  ghost predicate NeverRevives(row: Option<Row>, ops: seq<Op>) {
    forall i :: 0 <= i < |ops| ==> !Revives(ApplyAll(row, ops[..i]), ops[i])
  }

  lemma NeverRevivesFront(row: Option<Row>, ops: seq<Op>)
    requires ops != [] && NeverRevives(row, ops)
    ensures NeverRevives(row, ops[..|ops| - 1])
    ensures !Revives(ApplyAll(row, ops[..|ops| - 1]), ops[|ops| - 1])
  {
    var front := ops[..|ops| - 1];
    forall i | 0 <= i < |front|
      ensures !Revives(ApplyAll(row, front[..i]), front[i])
    {
      assert front[..i] == ops[..i];
    }
  }

  lemma {:induction false} AbsorbedSurvivesAll(key: Key, row: Row, op: Op, later: seq<Op>)
    requires row.At() == key && WellFormed(row) && AllAt(key, later)
    requires Grounded(op) && Absorbed(row, op)
    requires NeverRevives(Some(row), later)
    ensures ApplyAll(Some(row), later).Some?
    ensures Absorbed(ApplyAll(Some(row), later).value, op)
    decreases |later|
  {
    if later != [] {
      var front := later[..|later| - 1];
      NeverRevivesFront(Some(row), later);
      AbsorbedSurvivesAll(key, row, op, front);
      HistoryKeeps(key, Some(row), front, 0);
      AbsorbedSurvives(ApplyAll(Some(row), front).value, op, later[|later| - 1]);
    }
  }

  /**
   Replay stays harmless: an op that has been applied, and whose row exists, changes nothing when it
   arrives again after any history that does not revive the row.
   */
  lemma ReplayIsHarmless(key: Key, before: Option<Row>, op: Op, later: seq<Op>)
    requires WellFormedOpt(before) && (before.Some? ==> before.value.At() == key) && op.At() == key
    requires Grounded(op) && AllAt(key, later)
    requires Apply(before, op).row.Some?
    requires NeverRevives(Apply(before, op).row, later)
    ensures var now := ApplyAll(Apply(before, op).row, later);
            now.Some? && Apply(now, op) == Applied(now, false)
  {
    ApplyKeeps(before, op);
    ApplyAbsorbs(before, op);
    AbsorbedSurvivesAll(key, Apply(before, op).row.value, op, later);
    NoOpIffAbsorbed(ApplyAll(Apply(before, op).row, later).value, op);
  }

  function Write1(op: OpKind, field: string, value: string, hlc: Clock): Op {
    Op("chats", "c", op, Some(map[field := Some(Json(value))]), hlc, map[])
  }

  function Delete1(hlc: Clock): Op {
    Op("chats", "c", OpKind.Delete, None, hlc, map[])
  }

  /**
   Revival is the exception, and a real one: it clears the clocks, so an old write that had already
   been applied lands a second time on a field the reviving upsert does not carry.
   */
  lemma ReplayAfterRevivalLands()
    ensures var title := Write1(Upsert, "title", "old", 1);
            var history := [title, Delete1(2), Write1(Upsert, "path", "p", 3)];
            var now := ApplyAll(None, history);
            && now.Some? && !now.value.deleted && "title" !in now.value.fields
            && Apply(now, title).changed
            && "title" in Apply(now, title).row.value.fields
  {
    var title, path := Write1(Upsert, "title", "old", 1), Write1(Upsert, "path", "p", 3);
    var h1, h2, h3 := [title], [title, Delete1(2)], [title, Delete1(2), path];
    assert h3[..2] == h2 && h2[..1] == h1 && h1[..0] == [];
    var r1 := Merge(Fresh("chats", "c"), title);
    assert ApplyAll(None, h1) == Some(r1);
    MergeGet(Fresh("chats", "c"), title, "title");
    assert r1.clocks.Keys == {"title"};
    MaxClockIsNewest(r1);
    assert IsNewest(r1, Some(1)) by {
      assert r1.clocks["title"] == 1;
    }
    var r2 := Buried(r1, 2);
    assert ApplyAll(None, h2) == Some(r2);
    var r3 := Merge(Emptied(r2), path);
    assert ApplyAll(None, h3) == Some(r3);
    MergeGet(Emptied(r2), path, "title");
    MergeGet(Emptied(r2), path, "path");
    assert "title" in Winners(r3, title);
    MergeGet(r3, title, "title");
  }

  // ── rows are never invented ───────────────────────────────────────────────

  /** Updates and deletes alone never make a missing or deleted row live, in any number and order. */
  lemma {:induction false} OnlyUpsertsMakeRowsLive(row: Option<Row>, ops: seq<Op>)
    requires row.Some? ==> row.value.deleted
    requires forall i :: 0 <= i < |ops| ==> !ops[i].op.Upsert?
    ensures ApplyAll(row, ops).Some? ==> ApplyAll(row, ops).value.deleted
    decreases |ops|
  {
    if ops != [] {
      OnlyUpsertsMakeRowsLive(row, ops[..|ops| - 1]);
    }
  }

  /**
   A tombstone holds: in any history at one row that starts from it, the row is live at the end only if
   some upsert in it was newer than the tombstone.
   */
  lemma {:induction false} TombstonesHold(row: Row, ops: seq<Op>)
    requires row.deleted && row.delHlc.Some?
    requires forall i :: 0 <= i < |ops| && ops[i].op.Upsert? ==> ops[i].hlc <= row.delHlc.value
    ensures var out := ApplyAll(Some(row), ops);
            out.Some? && out.value.deleted && out.value.delHlc.Some? && row.delHlc.value <= out.value.delHlc.value
    decreases |ops|
  {
    if ops != [] {
      TombstonesHold(row, ops[..|ops| - 1]);
    }
  }

  // ── deletes against writes ────────────────────────────────────────────────

  ghost function Both(row: Row, first: Op, second: Op): Option<Row> {
    Apply(Apply(Some(row), first).row, second).row
  }

  /**
   A delete and a write of one live row commute exactly when the delete loses to the row outright, or
   it also beats every field the write would win and the write does not revive the tombstone.
   */
  lemma DeleteCommutesIff(row: Row, del: Op, write: Op)
    requires WellFormed(row) && !row.deleted
    requires del.op.Delete? && !write.op.Delete?
    ensures Both(row, del, write) == Both(row, write, del)
       <==> || !HlcNewer(del.hlc, MaxClock(row))
            || ((write.op.Update? || write.hlc <= del.hlc)
                && forall k :: k in Winners(row, write) ==> write.ClockFor(k) < del.hlc)
  {
    var merged := Merge(row, write);
    MaxClockIsNewest(row);
    MaxClockIsNewest(merged);
    NewestOfMerge(row, write);
    if Winners(row, write) == {} {
      NothingToMerge(row, write);
    }
    assert Apply(Some(row), write).row == Some(merged);
    if HlcNewer(del.hlc, MaxClock(row)) {
      assert HlcNewer(del.hlc, MaxClock(merged)) <==> forall k :: k in Winners(row, write) ==> write.ClockFor(k) < del.hlc by {
        DeleteBeatsMerge(row, write, del.hlc);
      }
    }
  }

  lemma DeleteBeatsMerge(row: Row, write: Op, hlc: Clock)
    requires HlcNewer(hlc, MaxClock(row))
    ensures HlcNewer(hlc, MaxClock(Merge(row, write))) <==> forall k :: k in Winners(row, write) ==> write.ClockFor(k) < hlc
  {
    var merged := Merge(row, write);
    MaxClockIsNewest(row);
    MaxClockIsNewest(merged);
    forall k | k in Winners(row, write)
      ensures k in merged.clocks && merged.clocks[k] == write.ClockFor(k)
    {
      MergeGet(row, write, k);
    }
    forall k | k in merged.clocks && k !in Winners(row, write)
      ensures merged.clocks[k] < hlc
    {
      MergeGet(row, write, k);
      assert k in row.clocks;
    }
  }
}
