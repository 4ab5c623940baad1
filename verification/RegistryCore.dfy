/**
 The registry's merge rule: rows, ops, and what one op does to one row
 (`edge/src/registry-core.ts`, mirrored by `crates/doc/src/registry.rs`).
 */
module RegistryCore {
  import opened Prelude
  import opened Hlc

  /** A JSON field value that is not `null`. */
  datatype Json = Json(text: string)

  /** Where a row lives in the table. */
  datatype Key = Key(kind: string, id: string)

  /** `serial` is the wire's `seq`: the server sequence number of the batch that last touched the row. */
  datatype Row = Row(
    kind: string,
    id: string,
    serial: nat,
    deleted: bool,
    delHlc: Option<Clock>,
    fields: map<string, Json>,
    clocks: map<string, Clock>)
  {
    function At(): Key {
      Key(kind, id)
    }
  }

  datatype OpKind = Upsert | Update | Delete

  /** `writes` is the wire's `set`; a `None` value is JSON `null` and deletes the field. */
  datatype Op = Op(
    kind: string,
    id: string,
    op: OpKind,
    writes: Option<map<string, Option<Json>>>,
    hlc: Clock,
    clocks: map<string, Clock>)
  {
    function At(): Key {
      Key(kind, id)
    }

    function Writes(): map<string, Option<Json>> {
      if writes.Some? then writes.value else map[]
    }

    function ClockFor(field: string): Clock {
      if field in clocks then clocks[field] else hlc
    }
  }

  /** Strictly newer; a clock that was never written loses to any. */
  predicate HlcNewer(a: Clock, b: Option<Clock>) {
    b.None? || a > b.value
  }

  predicate AtMost(a: Option<Clock>, b: Option<Clock>) {
    a.None? || (b.Some? && a.value <= b.value)
  }

  // ── the newest clock of a row ─────────────────────────────────────────────

  ghost function AllClocks(row: Row): set<Clock> {
    (set k | k in row.clocks :: row.clocks[k]) + (if row.delHlc.Some? then {row.delHlc.value} else {})
  }

  ghost function MaxOf(s: set<nat>): (m: nat)
    requires s != {}
    ensures m in s
    ensures forall x :: x in s ==> x <= m
  {
    var x :| x in s;
    if s == {x} then x
    else
      var m := MaxOf(s - {x});
      assert forall y :: y in s ==> y == x || y in s - {x};
      if m < x then x else m
  }

  ghost function MaxClock(row: Row): Option<Clock> {
    if AllClocks(row) == {} then None else Some(MaxOf(AllClocks(row)))
  }

  /** What the running maximum of `maxClock` computes. */
  ghost predicate IsNewest(row: Row, max: Option<Clock>) {
    && (max.None? ==> row.delHlc.None? && row.clocks == map[])
    && AtMost(row.delHlc, max)
    && (forall k :: k in row.clocks ==> AtMost(Some(row.clocks[k]), max))
    && (max.Some? ==> max == row.delHlc || exists k :: k in row.clocks && row.clocks[k] == max.value)
  }

  lemma MaxClockIsNewest(row: Row)
    ensures IsNewest(row, MaxClock(row))
    ensures forall max :: IsNewest(row, max) ==> max == MaxClock(row)
  {
    forall k | k in row.clocks
      ensures row.clocks[k] in AllClocks(row)
    {
    }
    if row.delHlc.Some? {
      assert row.delHlc.value in AllClocks(row);
    }
    forall max | IsNewest(row, max)
      ensures max == MaxClock(row)
    {
      if max.Some? {
        assert max.value in AllClocks(row);
        assert forall c :: c in AllClocks(row) ==> c <= max.value;
      } else {
        assert AllClocks(row) == {};
      }
    }
  }

  method NewestClock(row: Row) returns (max: Option<Clock>)
    ensures max == MaxClock(row)
  {
    max := row.delHlc;
    var todo := row.clocks.Keys;
    while todo != {}
      invariant todo <= row.clocks.Keys
      invariant AtMost(row.delHlc, max)
      invariant forall k :: k in row.clocks && k !in todo ==> AtMost(Some(row.clocks[k]), max)
      invariant max.None? ==> row.delHlc.None? && row.clocks.Keys == todo
      invariant max.Some? ==> max == row.delHlc || exists k :: k in row.clocks && row.clocks[k] == max.value
      decreases todo
    {
      var k :| k in todo;
      var clock := row.clocks[k];
      if max.None? || clock > max.value {
        max := Some(clock);
      }
      todo := todo - {k};
    }
    MaxClockIsNewest(row);
  }

  // ── one op on one row ─────────────────────────────────────────────────────

  /** The fields of `op` whose clock beats the stored one. */
  ghost function Winners(base: Row, op: Op): set<string> {
    set k | k in op.Writes() && HlcNewer(op.ClockFor(k), Get(base.clocks, k))
  }

  ghost function MergedFields(base: Row, op: Op): map<string, Json> {
    map k | k in base.fields.Keys + op.Writes().Keys
            && (if k in Winners(base, op) then op.Writes()[k].Some? else k in base.fields)
      :: if k in Winners(base, op) then op.Writes()[k].value else base.fields[k]
  }

  ghost function MergedClocks(base: Row, op: Op): map<string, Clock> {
    map k | k in base.clocks.Keys + Winners(base, op)
      :: if k in Winners(base, op) then op.ClockFor(k) else base.clocks[k]
  }

  ghost function Merge(base: Row, op: Op): Row {
    base.(deleted := false, fields := MergedFields(base, op), clocks := MergedClocks(base, op))
  }

  function Buried(row: Row, hlc: Clock): Row {
    row.(deleted := true, delHlc := Some(hlc), fields := map[], clocks := map[])
  }

  function Emptied(row: Row): Row {
    row.(deleted := false, fields := map[], clocks := map[])
  }

  function Fresh(kind: string, id: string): Row {
    Row(kind, id, 0, false, None, map[], map[])
  }

  /** The clock a delete has to beat. */
  ghost function DeleteBar(row: Row): Option<Clock> {
    if row.deleted then row.delHlc else MaxClock(row)
  }

  datatype Applied = Applied(row: Option<Row>, changed: bool)

  ghost function Apply(row: Option<Row>, op: Op): Applied {
    if op.op.Delete? then
      if row.None? then Applied(Some(Buried(Fresh(op.kind, op.id), op.hlc)), true)
      else if HlcNewer(op.hlc, DeleteBar(row.value)) then Applied(Some(Buried(row.value, op.hlc)), true)
      else Applied(row, false)
    else if row.None? then
      if op.op.Update? then Applied(None, false)
      else Applied(Some(Merge(Fresh(op.kind, op.id), op)), true)
    else if row.value.deleted then
      if op.op.Update? || !HlcNewer(op.hlc, row.value.delHlc) then Applied(row, false)
      else Applied(Some(Merge(Emptied(row.value), op)), true)
    else if Winners(row.value, op) == {} then Applied(row, false)
    else Applied(Some(Merge(row.value, op)), true)
  }

  /** The loop of `applyOp`: write field by field, skipping writes that lose to the stored clock. */
  method WriteFields(base: Row, op: Op)
    returns (fields: map<string, Json>, clocks: map<string, Clock>, won: bool)
    ensures fields == MergedFields(base, op)
    ensures clocks == MergedClocks(base, op)
    ensures won <==> Winners(base, op) != {}
  {
    fields, clocks, won := base.fields, base.clocks, false;
    var todo := op.Writes().Keys;
    ghost var w: set<string> := {};
    while todo != {}
      invariant todo <= op.Writes().Keys
      invariant w == Winners(base, op) - todo
      invariant won <==> w != {}
      invariant forall k :: Get(clocks, k) == if k in w then Some(op.ClockFor(k)) else Get(base.clocks, k)
      invariant forall k :: Get(fields, k) == if k in w then op.Writes()[k] else Get(base.fields, k)
      decreases todo
    {
      var key :| key in todo;
      assert Get(clocks, key) == Get(base.clocks, key);
      todo := todo - {key};
      if HlcNewer(op.ClockFor(key), Get(clocks, key)) {
        w := w + {key};
        fields := SetOrDelete(fields, key, op.Writes()[key]);
        clocks := clocks[key := op.ClockFor(key)];
        won := true;
      }
    }
    SameLookups(clocks, MergedClocks(base, op));
    SameLookups(fields, MergedFields(base, op));
  }

  /** `null` deletes, anything else writes. */
  function SetOrDelete(fields: map<string, Json>, key: string, value: Option<Json>): (out: map<string, Json>)
    ensures forall k :: Get(out, k) == if k == key then value else Get(fields, k)
  {
    if value.None? then fields - {key} else fields[key := value.value]
  }

  lemma SameLookups<V>(m: map<string, V>, n: map<string, V>)
    requires forall k :: Get(m, k) == Get(n, k)
    ensures m == n
  {
    forall k
      ensures k in m <==> k in n
      ensures k in m ==> m[k] == n[k]
    {
      assert Get(m, k) == Get(n, k);
    }
  }

  method ApplyOp(before: Option<Row>, op: Op) returns (row: Option<Row>, changed: bool)
    ensures Applied(row, changed) == Apply(before, op)
  {
    if op.op.Delete? {
      if before.None? {
        return Some(Buried(Fresh(op.kind, op.id), op.hlc)), true;
      }
      var bar := before.value.delHlc;
      if !before.value.deleted {
        bar := NewestClock(before.value);
      }
      if HlcNewer(op.hlc, bar) {
        return Some(Buried(before.value, op.hlc)), true;
      }
      return before, false;
    }
    var base: Row;
    if before.None? {
      if op.op.Update? {
        return None, false;
      }
      base := Fresh(op.kind, op.id);
    } else if before.value.deleted {
      if op.op.Update? || !HlcNewer(op.hlc, before.value.delHlc) {
        return before, false;
      }
      base := Emptied(before.value);
    } else {
      base := before.value;
    }
    var fields, clocks, won := WriteFields(base, op);
    changed := before.None? || before.value.deleted || won;
    if !changed {
      return Some(base), false;
    }
    row := Some(base.(deleted := false, fields := fields, clocks := clocks));
  }

  // ── re-seeding ────────────────────────────────────────────────────────────

  /** The stand-in clock of a row that carries none. */
  const SEED_HLC: string := EncodeHlc(0, 0, "seed")

  ghost function SeedClock(max: Option<Clock>): Clock {
    if max.Some? then max.value else ClockOf(SEED_HLC)
  }

  /** A row as one op: an upsert with the row's own field clocks, or a delete for a tombstone. */
  ghost function RowToSeedOp(row: Row): Op {
    if row.deleted then Op(row.kind, row.id, Delete, None, SeedClock(row.delHlc), map[])
    else Op(row.kind, row.id, Upsert, Some(map k | k in row.fields :: Some(row.fields[k])), SeedClock(MaxClock(row)), row.clocks)
  }

  // ── what every op keeps ───────────────────────────────────────────────────

  /** Tombstones carry a clock and nothing else; every live field has a clock. */
  ghost predicate WellFormed(row: Row) {
    if row.deleted then row.fields == map[] && row.clocks == map[] && row.delHlc.Some?
    else row.fields.Keys <= row.clocks.Keys
  }

  ghost predicate WellFormedOpt(row: Option<Row>) {
    row.Some? ==> WellFormed(row.value)
  }

  ghost function Newest(row: Option<Row>): Option<Clock> {
    if row.None? then None else MaxClock(row.value)
  }

  lemma ApplyKeeps(row: Option<Row>, op: Op)
    requires WellFormedOpt(row)
    requires row.Some? ==> row.value.At() == op.At()
    ensures var out := Apply(row, op);
            && WellFormedOpt(out.row)
            && (row.Some? ==> out.row.Some?)
            && (out.row.Some? ==> out.row.value.At() == op.At())
            && (!out.changed ==> out.row == row)
            && (out.changed ==> out.row.Some? && out.row != row)
            && AtMost(Newest(row), Newest(out.row))
  {
    var out := Apply(row, op);
    if row.Some? {
      MaxClockIsNewest(row.value);
    }
    if out.row.Some? {
      MaxClockIsNewest(out.row.value);
    }
    if row.Some? && out.changed && !op.op.Delete? && !row.value.deleted {
      var k :| k in Winners(row.value, op);
      assert out.row.value.clocks[k] == op.ClockFor(k);
      assert k in row.value.clocks ==> out.row.value.clocks[k] != row.value.clocks[k];
      NewestOfMerge(row.value, op);
    }
  }

  lemma NewestOfMerge(base: Row, op: Op)
    ensures AtMost(MaxClock(base), MaxClock(Merge(base, op)))
  {
    MaxClockIsNewest(base);
    MaxClockIsNewest(Merge(base, op));
    var max := MaxClock(base);
    if max.Some? && max != base.delHlc {
      var k :| k in base.clocks && base.clocks[k] == max.value;
      assert k in Merge(base, op).clocks;
    }
  }

  // ── many ops on one row ───────────────────────────────────────────────────

  ghost function ApplyAll(row: Option<Row>, ops: seq<Op>): Option<Row>
    decreases |ops|
  {
    if ops == [] then row
    else Apply(ApplyAll(row, ops[..|ops| - 1]), ops[|ops| - 1]).row
  }

  ghost predicate AllAt(key: Key, ops: seq<Op>) {
    forall i :: 0 <= i < |ops| ==> ops[i].At() == key
  }

  /** Over any op sequence the row invariants hold and the newest clock never goes back. */
  lemma {:induction false} HistoryKeeps(key: Key, row: Option<Row>, ops: seq<Op>, cut: nat)
    requires WellFormedOpt(row) && (row.Some? ==> row.value.At() == key)
    requires AllAt(key, ops)
    requires cut <= |ops|
    ensures WellFormedOpt(ApplyAll(row, ops))
    ensures ApplyAll(row, ops).Some? ==> ApplyAll(row, ops).value.At() == key
    ensures AtMost(Newest(ApplyAll(row, ops[..cut])), Newest(ApplyAll(row, ops)))
    decreases |ops|
  {
    if ops != [] {
      var front := ops[..|ops| - 1];
      if cut == |ops| {
        assert ops[..cut] == ops;
        HistoryKeeps(key, row, front, 0);
      } else {
        HistoryKeeps(key, row, front, cut);
        assert front[..cut] == ops[..cut];
      }
      ApplyKeeps(ApplyAll(row, front), ops[|ops| - 1]);
    } else {
      assert ops[..cut] == ops;
    }
  }
}
