/**
 How long an op and a push frame are as JSON text: the room measures both
 (`edge/src/registry-core.ts`, `edge/src/registry-room.ts`).
 */
module RegistrySize {
  import opened Prelude
  import opened Hlc
  import opened RegistryCore
  import opened RegistryLaws

  /** One op, in characters. */
  const MAX_OP_BYTES: nat := 16 * 1024

  /** One frame, in characters. */
  const MAX_FRAME_BYTES: nat := 1_000_000

  // ── sums over the entries of an object ────────────────────────────────────

  ghost function Total(sizes: map<string, nat>): nat {
    if sizes == map[] then 0
    else
      var k :| k in sizes;
      sizes[k] + Total(sizes - {k})
  }

  /** The order in which the entries are added up does not matter. */
  lemma {:induction false} TotalAt(sizes: map<string, nat>, k: string)
    requires k in sizes
    ensures Total(sizes) == sizes[k] + Total(sizes - {k})
    decreases |sizes|
  {
    var j :| j in sizes && Total(sizes) == sizes[j] + Total(sizes - {j});
    if j != k {
      TotalAt(sizes - {j}, k);
      TotalAt(sizes - {k}, j);
      assert sizes - {j} - {k} == sizes - {k} - {j};
    }
  }

  /** The entries between the braces, with their commas. */
  ghost function EntriesSize(sizes: map<string, nat>): nat {
    Total(sizes) + if sizes == map[] then 0 else |sizes| - 1
  }

  lemma OneEntry(k: string, n: nat)
    ensures EntriesSize(map[k := n]) == n
  {
    TotalAt(map[k := n], k);
    assert map[k := n] - {k} == map[];
  }

  /** Two of the entries are no longer than all of them. */
  lemma TwoEntries(sizes: map<string, nat>, j: string, k: string)
    requires j in sizes && k in sizes && j != k
    ensures EntriesSize(sizes) >= sizes[j] + sizes[k]
  {
    TotalAt(sizes, j);
    TotalAt(sizes - {j}, k);
  }

  // ── ops ───────────────────────────────────────────────────────────────────

  ghost predicate Spells(h: string, clock: Clock) {
    |h| <= MAX_HLC_LENGTH && ClockOf(h) == clock
  }

  /** The length of the string a clock stands for. */
  ghost function ClockSize(clock: Clock): (n: nat)
    ensures n <= MAX_HLC_LENGTH
  {
    if exists h :: Spells(h, clock) then
      var h :| Spells(h, clock);
      |h|
    else 0
  }

  lemma ClockSizeIs(h: string)
    requires |h| <= MAX_HLC_LENGTH
    ensures ClockSize(ClockOf(h)) == |h|
  {
    assert Spells(h, ClockOf(h));
    forall g | Spells(g, ClockOf(h))
      ensures g == h
    {
      ClockOfIsFaithful(g, h);
    }
  }

  /** `"field":value`; a deleted field is `null`. */
  function WriteSize(field: string, value: Option<Json>): nat {
    |field| + 3 + if value.Some? then |value.value.text| else 4
  }

  ghost function SetSize(writes: map<string, Option<Json>>): nat {
    2 + EntriesSize(map f | f in writes :: WriteSize(f, writes[f]))
  }

  /** `"field":"clock"`. */
  ghost function ClocksSize(clocks: map<string, Clock>): nat {
    2 + EntriesSize(map f | f in clocks :: |f| + 5 + ClockSize(clocks[f]))
  }

  /** `{"kind":"…","id":"…","op":"…","hlc":"…"}` with its optional `,"set":{…}` and `,"clocks":{…}`. */
  ghost function OpSize(op: Op): nat {
    36 + |op.kind| + |op.id| + |"upsert"| + ClockSize(op.hlc)
    + (if op.writes.Some? then 7 + SetSize(op.writes.value) else 0)
    + (if op.clocks != map[] then 10 + ClocksSize(op.clocks) else 0)
  }

  ghost predicate OpFits(op: Op) {
    OpSize(op) <= MAX_OP_BYTES
  }

  /** The JSON text of an op that writes one field, and of the same op with the field's clock given apart. */
  function OneWriteText(kind: string, id: string, field: string, value: string, hlc: string): string {
    "{\"kind\":\"" + kind + "\",\"id\":\"" + id + "\",\"op\":\"upsert\",\"set\":{\"" + field + "\":" + value
    + "},\"hlc\":\"" + hlc + "\"}"
  }

  function OneSeedText(kind: string, id: string, field: string, value: string, hlc: string, clock: string): string {
    "{\"kind\":\"" + kind + "\",\"id\":\"" + id + "\",\"op\":\"upsert\",\"set\":{\"" + field + "\":" + value
    + "},\"hlc\":\"" + hlc + "\",\"clocks\":{\"" + field + "\":\"" + clock + "\"}}"
  }

  function DeleteText(kind: string, id: string, hlc: string): string {
    "{\"kind\":\"" + kind + "\",\"id\":\"" + id + "\",\"op\":\"delete\",\"hlc\":\"" + hlc + "\"}"
  }

  lemma OneWriteSize(field: string, value: string)
    ensures SetSize(map[field := Some(Json(value))]) == 5 + |field| + |value|
  {
    var writes: map<string, Option<Json>> := map[field := Some(Json(value))];
    OneEntry(field, WriteSize(field, Some(Json(value))));
    assert (map f | f in writes :: WriteSize(f, writes[f])) == map[field := WriteSize(field, Some(Json(value)))];
  }

  lemma OnlyEntry(sizes: map<string, nat>, k: string)
    requires sizes.Keys == {k}
    ensures EntriesSize(sizes) == sizes[k]
  {
    assert sizes == map[k := sizes[k]];
    OneEntry(k, sizes[k]);
  }

  lemma OneClockSize(field: string, clock: Clock)
    ensures ClocksSize(map[field := clock]) == 7 + |field| + ClockSize(clock)
  {
    var clocks := map[field := clock];
    OnlyEntry(map f | f in clocks :: |f| + 5 + ClockSize(clocks[f]), field);
  }

  lemma TextLengths(kind: string, id: string, field: string, value: string, hlc: string, clock: string)
    ensures |OneWriteText(kind, id, field, value, hlc)| == 54 + |kind| + |id| + |field| + |value| + |hlc|
    ensures |OneSeedText(kind, id, field, value, hlc, clock)| == 71 + |kind| + |id| + 2 * |field| + |value| + |hlc| + |clock|
    ensures |DeleteText(kind, id, hlc)| == 42 + |kind| + |id| + |hlc|
  {
  }

  /** What is counted for an op is the length of its text. */
  lemma OpSizeIsTextLength(kind: string, id: string, field: string, value: string, hlc: string, clock: string)
    requires |hlc| <= MAX_HLC_LENGTH && |clock| <= MAX_HLC_LENGTH
    ensures OpSize(Op(kind, id, Upsert, Some(map[field := Some(Json(value))]), ClockOf(hlc), map[]))
         == |OneWriteText(kind, id, field, value, hlc)|
    ensures OpSize(Op(kind, id, Upsert, Some(map[field := Some(Json(value))]), ClockOf(hlc), map[field := ClockOf(clock)]))
         == |OneSeedText(kind, id, field, value, hlc, clock)|
    ensures OpSize(Op(kind, id, Delete, None, ClockOf(hlc), map[])) == |DeleteText(kind, id, hlc)|
  {
    TextLengths(kind, id, field, value, hlc, clock);
    ClockSizeIs(hlc);
    ClockSizeIs(clock);
    OneWriteSize(field, value);
    OneClockSize(field, ClockOf(clock));
  }

  /** One entry more is its own length and a comma more. */
  lemma EntryAdds(sizes: map<string, nat>, k: string, n: nat)
    requires k !in sizes && sizes != map[]
    ensures EntriesSize(sizes[k := n]) == EntriesSize(sizes) + 1 + n
  {
    TotalAt(sizes[k := n], k);
    assert sizes[k := n] - {k} == sizes;
  }

  // ── frames ────────────────────────────────────────────────────────────────

  ghost function OpsSize(ops: seq<Op>): nat {
    if ops == [] then 0 else OpSize(ops[0]) + (if |ops| > 1 then 1 else 0) + OpsSize(ops[1..])
  }

  /** `{"t":"push","batch":"…","ops":[…]}`. */
  ghost function PushSize(batch: string, ops: seq<Op>): nat {
    32 + |batch| + OpsSize(ops)
  }

  /** What is counted for a frame: the text around its ops, the ops, and a comma between any two. */
  lemma {:induction false} PushSizeIs(batch: string, ops: seq<Op>, last: Op)
    ensures PushSize(batch, [last]) == |"{\"t\":\"push\",\"batch\":\"" + batch + "\",\"ops\":["| + OpSize(last) + |"]}"|
    ensures ops != [] ==> PushSize(batch, ops + [last]) == PushSize(batch, ops) + 1 + OpSize(last)
    decreases |ops|
  {
    assert [last][1..] == [];
    if ops != [] {
      assert (ops + [last])[0] == ops[0] && (ops + [last])[1..] == ops[1..] + [last];
      PushSizeIs(batch, ops[1..], last);
      if |ops| == 1 {
        assert ops[1..] + [last] == [last];
      }
    }
  }

  // ── a row outgrows its seed ───────────────────────────────────────────────

  /** One long field. */
  function LongWrite(kind: string, id: string, op: OpKind, field: string, value: Json, hlc: Clock): Op {
    Op(kind, id, op, Some(map[field := Some(value)]), hlc, map[])
  }

  lemma LongWriteFits(kind: string, id: string, op: OpKind, field: string, value: Json, hlc: Clock)
    requires |kind| <= 32 && |id| <= 256 && |field| <= 64 && |value.text| <= 15_000
    ensures OpFits(LongWrite(kind, id, op, field, value, hlc))
  {
    var w := LongWrite(kind, id, op, field, value, hlc);
    OneEntry(field, WriteSize(field, Some(value)));
    assert (map f | f in w.writes.value :: WriteSize(f, w.writes.value[f])) == map[field := WriteSize(field, Some(value))];
  }

  /** The row after both writes holds both values. */
  lemma BothFieldsHeld(create: Op, update: Op, f: string, g: string)
    requires create.op.Upsert? && update.op.Update? && f != g
    requires create.writes.Some? && create.writes.value.Keys == {f} && create.writes.value[f].Some?
    requires update.writes.Some? && update.writes.value.Keys == {g} && update.writes.value[g].Some?
    ensures var row := Apply(Apply(None, create).row, update).row;
            && row.Some? && !row.value.deleted
            && f in row.value.fields && row.value.fields[f] == create.writes.value[f].value
            && g in row.value.fields && row.value.fields[g] == update.writes.value[g].value
  {
    var base := Fresh(create.kind, create.id);
    var first := Merge(base, create);
    MergeGet(base, create, f);
    MergeGet(base, create, g);
    MergeGet(first, update, f);
    MergeGet(first, update, g);
    assert Apply(None, create).row == Some(first) && g in Winners(first, update);
  }

  lemma TwoLongFields(row: Row, f: string, g: string)
    requires !row.deleted && f != g && f in row.fields && g in row.fields
    ensures OpSize(RowToSeedOp(row)) > |row.fields[f].text| + |row.fields[g].text|
  {
    var writes := RowToSeedOp(row).writes.value;
    TwoEntries(map x | x in writes :: WriteSize(x, writes[x]), f, g);
  }

  /**
   Two ops that the room accepts can make a row whose seed it refuses: each writes one long field, and the
   seed has to carry both.
   */
  lemma SeedOutgrowsItsOps(kind: string, id: string, f: string, g: string, v: Json, w: Json, older: Clock, newer: Clock)
    requires |kind| <= 32 && |id| <= 256 && |f| <= 64 && |g| <= 64 && f != g
    requires 8_192 <= |v.text| <= 15_000 && 8_192 <= |w.text| <= 15_000
    ensures var create, update := LongWrite(kind, id, Upsert, f, v, older), LongWrite(kind, id, Update, g, w, newer);
            && OpFits(create) && OpFits(update)
            && var row := Apply(Apply(None, create).row, update).row;
               row.Some? && !row.value.deleted && !OpFits(RowToSeedOp(row.value))
  {
    LongWriteFits(kind, id, Upsert, f, v, older);
    LongWriteFits(kind, id, Update, g, w, newer);
    var create, update := LongWrite(kind, id, Upsert, f, v, older), LongWrite(kind, id, Update, g, w, newer);
    BothFieldsHeld(create, update, f, g);
    TwoLongFields(Apply(Apply(None, create).row, update).row.value, f, g);
  }
}
