/**
 Wide values over narrow rows: the chunked update log and blob store (`edge/src/update-log.ts`,
 `edge/src/blobs.ts`), and the fragments a wide update travels in (`edge/src/session-room.ts`).
 */
module UpdateLog {
  import opened Prelude

  type Bytes = seq<byte>

  const CHUNK_BYTES: nat := 1_500_000
  const FRAGMENT_BYTES: nat := 200_000

  // ── chunking ──────────────────────────────────────────────────────────────

  function Join(pieces: seq<Bytes>): Bytes {
    if pieces == [] then [] else pieces[0] + Join(pieces[1..])
  }

  // ── the update log ────────────────────────────────────────────────────────

  datatype Row = Row(bytes: Bytes, cont: bool)

  /** The rows of one update: the first starts it, the others continue it. */
  function RowsFrom(update: Bytes, size: nat, off: nat): (out: seq<Row>)
    requires size > 0 && off <= |update|
    decreases |update| - off
  {
    if off == |update| then []
    else
      var end := Min(off + size, |update|);
      [Row(update[off..end], off != 0)] + RowsFrom(update, size, end)
  }

  /** Regrouping: `open` is the update being put together, if any. */
  function Collect(rows: seq<Row>, open: Option<Bytes>): seq<Bytes>
    decreases |rows|
  {
    if rows == [] then (if open.Some? then [open.value] else [])
    else if !rows[0].cont && open.Some? then [open.value] + Collect(rows[1..], Some(rows[0].bytes))
    else Collect(rows[1..], Some((if open.Some? then open.value else []) + rows[0].bytes))
  }

  function AllRows(updates: seq<Bytes>, size: nat): seq<Row>
    requires size > 0
  {
    if updates == [] then [] else RowsFrom(updates[0], size, 0) + AllRows(updates[1..], size)
  }

  function NonEmpty(updates: seq<Bytes>): seq<Bytes> {
    if updates == [] then []
    else (if updates[0] == [] then [] else [updates[0]]) + NonEmpty(updates[1..])
  }

  /** Continuation rows only ever extend the open update. */
  lemma {:induction false} CollectTail(update: Bytes, size: nat, off: nat, rest: seq<Row>, open: Bytes)
    requires size > 0 && 0 < off <= |update|
    ensures Collect(RowsFrom(update, size, off) + rest, Some(open)) == Collect(rest, Some(open + update[off..]))
    decreases |update| - off
  {
    var rows := RowsFrom(update, size, off);
    if off == |update| {
      assert rows + rest == rest && open + update[off..] == open;
    } else {
      var end := Min(off + size, |update|);
      var all := rows + rest;
      assert all[0] == rows[0] && all[1..] == RowsFrom(update, size, end) + rest;
      assert (open + update[off..end]) + update[end..] == open + update[off..];
      CollectTail(update, size, end, rest, open + update[off..end]);
    }
  }

  /** One whole update on the log closes whatever was open and leaves itself open. */
  lemma CollectOne(update: Bytes, size: nat, rest: seq<Row>, open: Option<Bytes>)
    requires size > 0 && update != []
    ensures Collect(RowsFrom(update, size, 0) + rest, open)
         == (if open.Some? then [open.value] else []) + Collect(rest, Some(update))
  {
    var end := Min(size, |update|);
    var all := RowsFrom(update, size, 0) + rest;
    assert all[0] == Row(update[..end], false) && all[1..] == RowsFrom(update, size, end) + rest;
    assert [] + update[..end] == update[..end];
    CollectTail(update, size, end, rest, update[..end]);
    assert update[..end] + update[end..] == update;
  }

  lemma {:induction false} CollectUpdates(updates: seq<Bytes>, size: nat, open: Option<Bytes>)
    requires size > 0
    ensures Collect(AllRows(updates, size), open) == (if open.Some? then [open.value] else []) + NonEmpty(updates)
    decreases |updates|
  {
    if updates != [] {
      var u, rest := updates[0], AllRows(updates[1..], size);
      if u == [] {
        assert RowsFrom(u, size, 0) + rest == rest;
        CollectUpdates(updates[1..], size, open);
      } else {
        CollectOne(u, size, rest, open);
        CollectUpdates(updates[1..], size, Some(u));
      }
    }
  }

  lemma {:induction false} RowsFit(update: Bytes, size: nat, off: nat)
    requires size > 0 && off <= |update|
    ensures forall r :: r in RowsFrom(update, size, off) ==> 0 < |r.bytes| <= size
    decreases |update| - off
  {
    if off < |update| {
      RowsFit(update, size, Min(off + size, |update|));
    }
  }

  /** An update takes no more rows than it needs: every one but its last is full. */
  lemma {:induction false} RowsAreFull(update: Bytes, size: nat, off: nat, i: nat)
    requires size > 0 && off <= |update| && i + 1 < |RowsFrom(update, size, off)|
    ensures |RowsFrom(update, size, off)[i].bytes| == size
    decreases |update| - off
  {
    if i > 0 {
      RowsAreFull(update, size, Min(off + size, |update|), i - 1);
    }
  }

  /** Reading the log returns exactly the non-empty updates appended, in order, whatever their width. */
  lemma LogRoundTrip(updates: seq<Bytes>)
    ensures Collect(AllRows(updates, CHUNK_BYTES), None) == NonEmpty(updates)
  {
    CollectUpdates(updates, CHUNK_BYTES, None);
    assert [] + NonEmpty(updates) == NonEmpty(updates);
  }

  lemma {:induction false} AllRowsSnoc(updates: seq<Bytes>, update: Bytes, size: nat)
    requires size > 0
    ensures AllRows(updates + [update], size) == AllRows(updates, size) + RowsFrom(update, size, 0)
  {
    if updates == [] {
      assert [update][1..] == [];
      assert RowsFrom(update, size, 0) + [] == RowsFrom(update, size, 0);
      assert updates + [update] == [update];
    } else {
      assert (updates + [update])[0] == updates[0] && (updates + [update])[1..] == updates[1..] + [update];
      AllRowsSnoc(updates[1..], update, size);
      Regroup(RowsFrom(updates[0], size, 0), AllRows(updates[1..], size), RowsFrom(update, size, 0));
    }
  }

  class UpdateTable {
    var rows: seq<Row>
    /** Every update appended, oldest first. */
    ghost var appended: seq<Bytes>

    ghost predicate Valid()
      reads this
    {
      && rows == AllRows(appended, CHUNK_BYTES)
      && forall i :: 0 <= i < |rows| ==> 0 < |rows[i].bytes| <= CHUNK_BYTES
    }

    constructor ()
      ensures Valid() && appended == []
    {
      rows, appended := [], [];
    }

    method AppendUpdateRow(update: Bytes)
      requires Valid()
      modifies this
      ensures Valid() && appended == old(appended) + [update]
    {
      ghost var whole := RowsFrom(update, CHUNK_BYTES, 0);
      ghost var before := rows;
      RowsFit(update, CHUNK_BYTES, 0);
      var off := 0;
      while off < |update|
        invariant off <= |update| && appended == old(appended)
        invariant before + whole == rows + RowsFrom(update, CHUNK_BYTES, off)
        decreases |update| - off
      {
        var end := Min(off + CHUNK_BYTES, |update|);
        var row := Row(update[off..end], off != 0);
        Regroup(rows, [row], RowsFrom(update, CHUNK_BYTES, end));
        rows := rows + [row];
        off := end;
      }
      assert rows + [] == rows;
      AllRowsSnoc(appended, update, CHUNK_BYTES);
      appended := appended + [update];
      forall i | 0 <= i < |rows|
        ensures 0 < |rows[i].bytes| <= CHUNK_BYTES
      {
        if i >= |before| {
          assert rows[i] == whole[i - |before|] && rows[i] in whole;
        }
      }
    }

    method ReadUpdateRows() returns (out: seq<Bytes>)
      requires Valid()
      ensures out == NonEmpty(appended)
    {
      LogRoundTrip(appended);
      out := [];
      var parts: seq<Bytes> := [];
      assert rows[0..] == rows;
      for i := 0 to |rows|
        invariant out + Collect(rows[i..], if parts == [] then None else Some(Join(parts))) == NonEmpty(appended)
      {
        assert rows[i..][0] == rows[i] && rows[i..][1..] == rows[i + 1..];
        assert [] + rows[i].bytes == rows[i].bytes;
        if !rows[i].cont && parts != [] {
          Regroup(out, [Join(parts)], Collect(rows[i + 1..], Some(rows[i].bytes)));
          out := out + [Join(parts)];
          parts := [];
        }
        JoinSnoc(parts, rows[i].bytes);
        parts := parts + [rows[i].bytes];
      }
      if parts != [] {
        out := out + [Join(parts)];
      }
    }
  }

  lemma {:induction false} JoinSnoc(parts: seq<Bytes>, last: Bytes)
    ensures Join(parts + [last]) == Join(parts) + last
  {
    if parts == [] {
      assert parts + [last] == [last] && [last][1..] == [];
      assert last + [] == [] + last;
    } else {
      assert (parts + [last])[0] == parts[0] && (parts + [last])[1..] == parts[1..] + [last];
      JoinSnoc(parts[1..], last);
      Regroup(parts[0], Join(parts[1..]), last);
    }
  }

  // ── blobs ─────────────────────────────────────────────────────────────────

  /** Chunk rows by name, in index order. */
  class BlobStore {
    var chunks: map<string, seq<Bytes>>

    function Stored(name: string): Option<Bytes>
      reads this
    {
      if name in chunks && chunks[name] != [] then Some(Join(chunks[name])) else None
    }

    constructor ()
      ensures forall name :: Stored(name) == None
    {
      chunks := map[];
    }

    /** An empty blob is one empty chunk, so that it can be told from no blob. */
    method Put(name: string, bytes: Bytes)
      modifies this
      ensures Stored(name) == Some(bytes)
      ensures forall other :: other != name ==> Stored(other) == old(Stored(other))
      ensures forall c :: c in chunks[name] ==> |c| <= CHUNK_BYTES
      ensures forall i :: 0 <= i < |chunks[name]| - 1 ==> |chunks[name][i]| == 1_500_000
    {
      chunks := chunks - {name};
      var rows: seq<Bytes> := [];
      var i := 0;
      while i == 0 || i < |bytes|
        invariant chunks == old(chunks) - {name}
        invariant i == 0 <==> rows == []
        invariant Join(rows) == bytes[..Min(i, |bytes|)]
        invariant forall c :: c in rows ==> |c| <= CHUNK_BYTES
        invariant forall k :: 0 <= k < |rows| && (k < |rows| - 1 || i < |bytes|) ==> |rows[k]| == CHUNK_BYTES
        decreases |bytes| + CHUNK_BYTES - i
      {
        var end := Min(i + CHUNK_BYTES, |bytes|);
        JoinSnoc(rows, bytes[i..end]);
        assert bytes[..i] + bytes[i..end] == bytes[..end];
        rows := rows + [bytes[i..end]];
        i := i + CHUNK_BYTES;
      }
      assert bytes[..|bytes|] == bytes;
      chunks := chunks[name := rows];
      assert forall other :: other != name ==> Get(chunks, other) == Get(old(chunks), other);
    }

    /** Sized first, then filled chunk by chunk at a moving offset. */
    method Read(name: string) returns (out: Option<Bytes>)
      ensures out == Stored(name)
    {
      if name !in chunks || chunks[name] == [] {
        return None;
      }
      var parts := chunks[name];
      var filled: Bytes := [];
      for i := 0 to |parts|
        invariant filled + Join(parts[i..]) == Join(parts)
      {
        assert parts[i..][0] == parts[i] && parts[i..][1..] == parts[i + 1..];
        Regroup(filled, parts[i], Join(parts[i + 1..]));
        filled := filled + parts[i];
      }
      assert filled + [] == filled;
      out := Some(filled);
    }

    method Delete(name: string)
      modifies this
      ensures Stored(name) == None
      ensures forall other :: other != name ==> Stored(other) == old(Stored(other))
    {
      chunks := chunks - {name};
    }
  }

  // ── fragments ─────────────────────────────────────────────────────────────

  function FragmentCount(n: nat, size: nat): nat
    requires size > 0
  {
    (n + size - 1) / size
  }

  function Fragment(update: Bytes, size: nat, i: nat): Bytes
    requires size > 0
  {
    update[Min(i * size, |update|)..Min((i + 1) * size, |update|)]
  }

  /** A wide update leaves as `count` fragments, none empty and none over the cap. */
  method EmitFragments(update: Bytes) returns (count: nat, fragments: seq<Bytes>)
    requires |update| > FRAGMENT_BYTES
    ensures count == |fragments| == FragmentCount(|update|, FRAGMENT_BYTES)
    ensures forall i :: 0 <= i < count ==> fragments[i] == Fragment(update, FRAGMENT_BYTES, i)
    ensures forall i :: 0 <= i < count ==> 0 < |fragments[i]| <= FRAGMENT_BYTES
  {
    count, fragments := FragmentCount(|update|, FRAGMENT_BYTES), [];
    for i := 0 to count
      invariant |fragments| == i
      invariant forall k :: 0 <= k < i ==> fragments[k] == Fragment(update, FRAGMENT_BYTES, k) && 0 < |fragments[k]| <= FRAGMENT_BYTES
    {
      FragmentBound(|update|, FRAGMENT_BYTES, i);
      fragments := fragments + [update[i * FRAGMENT_BYTES..Min((i + 1) * FRAGMENT_BYTES, |update|)]];
    }
  }

  function Narrow(updates: seq<Bytes>): seq<Bytes> {
    if updates == [] then []
    else (if |updates[0]| > FRAGMENT_BYTES then [] else [updates[0]]) + Narrow(updates[1..])
  }

  function Unpacked(batches: seq<seq<Bytes>>): seq<Bytes> {
    if batches == [] then [] else batches[0] + Unpacked(batches[1..])
  }

  lemma {:induction false} UnpackedSnoc(batches: seq<seq<Bytes>>, last: seq<Bytes>)
    ensures Unpacked(batches + [last]) == Unpacked(batches) + last
  {
    if batches == [] {
      assert batches + [last] == [last] && [last][1..] == [];
      assert last + [] == [] + last;
    } else {
      assert (batches + [last])[0] == batches[0] && (batches + [last])[1..] == batches[1..] + [last];
      UnpackedSnoc(batches[1..], last);
      Regroup(batches[0], Unpacked(batches[1..]), last);
    }
  }

  /** The frame could not have taken the update. */
  ghost predicate NoRoom(frame: seq<Bytes>, update: Bytes) {
    |Join(frame)| + |update| > 200_000
  }

  ghost predicate NeededAt(frames: seq<seq<Bytes>>, j: nat)
    requires 0 < j < |frames|
  {
    frames[j] != [] && NoRoom(frames[j - 1], frames[j][0])
  }

  /** No frame could have taken the first update of the next. */
  ghost predicate Packed(frames: seq<seq<Bytes>>) {
    forall j :: 0 < j < |frames| ==> NeededAt(frames, j)
  }

  ghost predicate Follows(frames: seq<seq<Bytes>>, frame: seq<Bytes>) {
    frames != [] ==> frame != [] && NoRoom(frames[|frames| - 1], frame[0])
  }

  lemma PackedSnoc(frames: seq<seq<Bytes>>, frame: seq<Bytes>)
    requires Packed(frames) && Follows(frames, frame)
    ensures Packed(frames + [frame])
  {
    forall j | 0 < j < |frames + [frame]|
      ensures NeededAt(frames + [frame], j)
    {
      if j < |frames| {
        assert NeededAt(frames, j);
      }
    }
  }

  /** The narrow updates leave in order, packed into frames that stay under the cap. */
  method PackNarrow(updates: seq<Bytes>) returns (batches: seq<seq<Bytes>>)
    ensures Unpacked(batches) == Narrow(updates)
    ensures forall b :: b in batches ==> b != [] && |Join(b)| <= FRAGMENT_BYTES
    ensures Packed(batches)
  {
    batches := [];
    var batch: seq<Bytes> := [];
    var batchBytes := 0;
    ghost var sent: seq<Bytes> := [];
    assert updates[0..] == updates;
    for i := 0 to |updates|
      invariant batchBytes == |Join(batch)| <= FRAGMENT_BYTES
      invariant sent == Unpacked(batches) + batch
      invariant sent + Narrow(updates[i..]) == Narrow(updates)
      invariant forall b :: b in batches ==> b != [] && |Join(b)| <= FRAGMENT_BYTES
      invariant Packed(batches) && Follows(batches, batch)
    {
      assert updates[i..][0] == updates[i] && updates[i..][1..] == updates[i + 1..];
      if |updates[i]| > FRAGMENT_BYTES {
        continue;
      }
      if batchBytes + |updates[i]| > FRAGMENT_BYTES && batch != [] {
        UnpackedSnoc(batches, batch);
        PackedSnoc(batches, batch);
        assert NoRoom(batch, updates[i]);
        batches := batches + [batch];
        batch, batchBytes := [], 0;
        assert sent == Unpacked(batches) + batch;
      }
      JoinSnoc(batch, updates[i]);
      Regroup(sent, [updates[i]], Narrow(updates[i + 1..]));
      Regroup(Unpacked(batches), batch, [updates[i]]);
      sent := sent + [updates[i]];
      batch := batch + [updates[i]];
      batchBytes := batchBytes + |updates[i]|;
    }
    assert sent + [] == sent;
    if batch != [] {
      UnpackedSnoc(batches, batch);
      PackedSnoc(batches, batch);
      batches := batches + [batch];
    }
  }

  /** A batch being put back together; `None` marks an index skipped past the announced count. */
  datatype Batch = Batch(parts: seq<Option<Bytes>>, received: nat, total: nat)

  datatype Arrival = Waiting(batch: Batch) | Whole(bytes: Bytes) | Overflow

  function Announce(count: nat, total: nat): Batch {
    Batch(seq(count, _ => Some([])), 0, total)
  }

  function PutAt(parts: seq<Option<Bytes>>, index: nat, bytes: Bytes): seq<Option<Bytes>> {
    if index < |parts| then parts[index := Some(bytes)]
    else parts + seq(index - |parts|, _ => None) + [Some(bytes)]
  }

  function Flat(parts: seq<Option<Bytes>>): Option<Bytes> {
    if parts == [] then Some([])
    else
      var rest := Flat(parts[1..]);
      if parts[0].Some? && rest.Some? then Some(parts[0].value + rest.value) else None
  }

  function Padding(n: nat): Bytes {
    seq(n, _ => 0)
  }

  /** The parts copied one after the other into a zeroed buffer of the announced size. */
  function Assemble(b: Batch): Arrival {
    var flat := Flat(b.parts);
    if flat.None? || |flat.value| > b.total then Overflow else Whole(flat.value + Padding(b.total - |flat.value|))
  }

  function Arrive(b: Batch, index: nat, bytes: Bytes): Arrival {
    var next := Batch(PutAt(b.parts, index, bytes), b.received + 1, b.total);
    if next.received < |next.parts| then Waiting(next) else Assemble(next)
  }

  /** Fragments of `update` arriving in the order `order`. */
  function ArriveAll(b: Batch, update: Bytes, size: nat, order: seq<nat>): Arrival
    requires size > 0
    decreases |order|
  {
    if order == [] then Waiting(b)
    else
      var next := Arrive(b, order[0], Fragment(update, size, order[0]));
      if next.Waiting? then ArriveAll(next.batch, update, size, order[1..]) else next
  }

  ghost predicate EachOnce(order: seq<nat>, count: nat) {
    && |order| == count
    && (forall i :: 0 <= i < |order| ==> order[i] < count)
    && (forall i, j :: 0 <= i < j < |order| ==> order[i] != order[j])
  }

  /** The batch once the fragments in `seen` have arrived. */
  ghost predicate Holds(b: Batch, update: Bytes, size: nat, seen: set<nat>)
    requires size > 0
  {
    && b.total == |update| && |b.parts| == FragmentCount(|update|, size) && b.received == |seen|
    && (forall i :: i in seen ==> i < |b.parts|)
    && forall i :: 0 <= i < |b.parts| ==> b.parts[i] == Some(if i in seen then Fragment(update, size, i) else [])
  }

  lemma FragmentBound(n: nat, size: nat, i: nat)
    requires size > 0
    ensures i < FragmentCount(n, size) <==> i * size < n
  {
    var c := FragmentCount(n, size);
    assert n + size - 1 == c * size + (n + size - 1) % size;
    if i < c {
      assert (i + 1) * size <= c * size;
    } else {
      assert c * size <= i * size;
    }
  }

  lemma FragmentSplit(update: Bytes, size: nat, i: nat)
    requires size > 0
    ensures update[Min(i * size, |update|)..] == Fragment(update, size, i) + update[Min((i + 1) * size, |update|)..]
  {
  }

  /** The fragments in index order are the update. */
  lemma {:induction false} FlatFragments(parts: seq<Option<Bytes>>, update: Bytes, size: nat, i: nat)
    requires size > 0 && |update| <= (i + |parts|) * size
    requires forall k :: 0 <= k < |parts| ==> parts[k] == Some(Fragment(update, size, i + k))
    ensures Flat(parts) == Some(update[Min(i * size, |update|)..])
    decreases |parts|
  {
    if parts == [] {
      assert update[Min(i * size, |update|)..] == [];
    } else {
      FlatFragments(parts[1..], update, size, i + 1);
      FragmentSplit(update, size, i);
    }
  }

  function UpTo(n: nat): set<nat> {
    if n == 0 then {} else UpTo(n - 1) + {n - 1}
  }

  lemma {:induction false} UpToIs(n: nat)
    ensures |UpTo(n)| == n && forall i: nat :: i in UpTo(n) <==> i < n
  {
    if n > 0 {
      UpToIs(n - 1);
    }
  }

  lemma AllSeen(seen: set<nat>, count: nat)
    requires forall i :: i in seen ==> i < count
    requires |seen| == count
    ensures forall i: nat :: i < count ==> i in seen
  {
    UpToIs(count);
    forall x: nat | x < count
      ensures x in seen
    {
      if x !in seen {
        Within(seen, UpTo(count) - {x});
      }
    }
  }

  lemma {:induction false} Within(a: set<nat>, b: set<nat>)
    requires a <= b
    ensures |a| <= |b|
  {
    if x :| x in a {
      Within(a - {x}, b - {x});
    }
  }

  lemma PutHolds(b: Batch, update: Bytes, size: nat, seen: set<nat>, i: nat)
    requires size > 0 && Holds(b, update, size, seen) && i < |b.parts| && i !in seen
    ensures Holds(Batch(PutAt(b.parts, i, Fragment(update, size, i)), b.received + 1, b.total), update, size, seen + {i})
  {
  }

  lemma AssembleWhole(b: Batch, update: Bytes, size: nat, seen: set<nat>)
    requires size > 0 && Holds(b, update, size, seen) && |seen| == |b.parts|
    ensures Assemble(b) == Whole(update)
  {
    AllSeen(seen, |b.parts|);
    assert Flat(b.parts) == Some(update) by {
      FlatWhole(b.parts, update, size);
    }
    assert update + Padding(0) == update;
  }

  lemma FlatWhole(parts: seq<Option<Bytes>>, update: Bytes, size: nat)
    requires size > 0 && |parts| == FragmentCount(|update|, size)
    requires forall k :: 0 <= k < |parts| ==> parts[k] == Some(Fragment(update, size, k))
    ensures Flat(parts) == Some(update)
  {
    FragmentBound(|update|, size, |parts|);
    FlatFragments(parts, update, size, 0);
    assert update[0..] == update;
  }

  lemma ArriveStep(b: Batch, update: Bytes, size: nat, seen: set<nat>, i: nat)
    requires size > 0 && Holds(b, update, size, seen) && i < |b.parts| && i !in seen
    ensures var next := Arrive(b, i, Fragment(update, size, i));
            if |seen| + 1 < |b.parts| then next.Waiting? && Holds(next.batch, update, size, seen + {i})
            else next == Whole(update)
  {
    PutHolds(b, update, size, seen, i);
    var more := seen + {i};
    if |more| >= |b.parts| {
      UpToIs(|b.parts|);
      Within(more, UpTo(|b.parts|));
      AssembleWhole(Batch(PutAt(b.parts, i, Fragment(update, size, i)), b.received + 1, b.total), update, size, more);
    }
  }

  lemma {:induction false} ArriveAllFrom(b: Batch, update: Bytes, size: nat, seen: set<nat>, order: seq<nat>)
    requires size > 0 && Holds(b, update, size, seen) && order != []
    requires |order| + |seen| == |b.parts|
    requires forall i :: 0 <= i < |order| ==> order[i] < |b.parts| && order[i] !in seen
    requires forall i, j :: 0 <= i < j < |order| ==> order[i] != order[j]
    ensures ArriveAll(b, update, size, order) == Whole(update)
    decreases |order|
  {
    ArriveStep(b, update, size, seen, order[0]);
    if |order| > 1 {
      ArriveAllFrom(Arrive(b, order[0], Fragment(update, size, order[0])).batch, update, size, seen + {order[0]}, order[1..]);
    }
  }

  /** Fragments arriving once each, in any order, put the update back together, and not before the last. */
  lemma FragmentsReassemble(update: Bytes, order: seq<nat>)
    requires |update| > FRAGMENT_BYTES
    requires EachOnce(order, FragmentCount(|update|, FRAGMENT_BYTES))
    ensures ArriveAll(Announce(|order|, |update|), update, FRAGMENT_BYTES, order) == Whole(update)
  {
    FragmentBound(|update|, FRAGMENT_BYTES, 0);
    ArriveAllFrom(Announce(|order|, |update|), update, FRAGMENT_BYTES, {}, order);
  }

  /** Once each matters: a repeated fragment is counted, and the batch completes with a hole. */
  lemma RepeatedFragmentCorrupts()
    ensures ArriveAll(Announce(2, 2), [5, 6], 1, [0, 0]) == Whole([5, 0])
  {
    var update: Bytes := [5, 6];
    var b := Announce(2, 2);
    assert b.parts == [Some([]), Some([])];
    assert Fragment(update, 1, 0) == [5];
    var one := Batch([Some([5]), Some([])], 1, 2);
    assert Arrive(b, 0, [5]) == Waiting(one);
    var two := Batch([Some([5]), Some([])], 2, 2);
    assert PutAt(one.parts, 0, [5]) == two.parts;
    var hole: seq<Option<Bytes>>, nothing: Bytes, five: Bytes := [Some([])], [], [5];
    assert nothing + nothing == nothing && five + nothing == five;
    assert two.parts[1..] == hole && hole[1..] == [];
    assert Flat(hole) == Some([]);
    assert Flat(two.parts) == Some([5]);
    assert Padding(1) == [0];
    assert Arrive(one, 0, [5]) == Whole([5, 0]);
    assert [0, 0][1..] == [0 as nat] && [0 as nat][1..] == [];
  }

  // ── exactly the orders that reassemble ────────────────────────────────────

  /** The parts once the fragments in `seen` have arrived, however often each did. */
  ghost predicate Got(parts: seq<Option<Bytes>>, update: Bytes, size: nat, seen: set<nat>)
    requires size > 0
  {
    && |parts| == FragmentCount(|update|, size)
    && forall i :: 0 <= i < |parts| ==> parts[i] == Some(if i in seen then Fragment(update, size, i) else [])
  }

  function PutAll(parts: seq<Option<Bytes>>, update: Bytes, size: nat, order: seq<nat>): seq<Option<Bytes>>
    requires size > 0
    decreases |order|
  {
    if order == [] then parts else PutAll(PutAt(parts, order[0], Fragment(update, size, order[0])), update, size, order[1..])
  }

  function SetOf(order: seq<nat>): set<nat> {
    set x | x in order
  }

  lemma SetOfCons(order: seq<nat>)
    requires order != []
    ensures SetOf(order) == {order[0]} + SetOf(order[1..])
  {
    assert order == [order[0]] + order[1..];
  }

  lemma {:induction false} PutAllGets(parts: seq<Option<Bytes>>, update: Bytes, size: nat, seen: set<nat>, order: seq<nat>)
    requires size > 0 && Got(parts, update, size, seen) && forall i :: 0 <= i < |order| ==> order[i] < |parts|
    ensures Got(PutAll(parts, update, size, order), update, size, seen + SetOf(order))
    decreases |order|
  {
    if order == [] {
      assert seen + SetOf(order) == seen;
    } else {
      var next := PutAt(parts, order[0], Fragment(update, size, order[0]));
      assert Got(next, update, size, seen + {order[0]});
      PutAllGets(next, update, size, seen + {order[0]}, order[1..]);
      SetOfCons(order);
      assert seen + SetOf(order) == seen + {order[0]} + SetOf(order[1..]);
    }
  }

  /** As many arrivals as announced, all in range: the batch is assembled at the last one. */
  lemma {:induction false} AssembledAtLast(b: Batch, update: Bytes, size: nat, order: seq<nat>)
    requires size > 0 && order != [] && b.received + |order| == |b.parts|
    requires forall i :: 0 <= i < |order| ==> order[i] < |b.parts|
    ensures ArriveAll(b, update, size, order) == Assemble(Batch(PutAll(b.parts, update, size, order), |b.parts|, b.total))
    decreases |order|
  {
    var next := Batch(PutAt(b.parts, order[0], Fragment(update, size, order[0])), b.received + 1, b.total);
    if |order| == 1 {
      assert order[1..] == [];
    } else {
      AssembledAtLast(next, update, size, order[1..]);
    }
  }

  /** Where fragment `i` starts. */
  function Edge(n: nat, size: nat, i: nat): nat {
    Min(i * size, n)
  }

  lemma FragmentLength(update: Bytes, size: nat, i: nat)
    requires size > 0
    ensures Edge(|update|, size, i) <= Edge(|update|, size, i + 1) <= |update|
    ensures |Fragment(update, size, i)| == Edge(|update|, size, i + 1) - Edge(|update|, size, i)
    ensures i * size < |update| ==> |Fragment(update, size, i)| > 0
  {
    assert i * size + size == (i + 1) * size;
  }

  /** A missing fragment leaves the parts short of the update. */
  lemma {:induction false} MissingIsShort(parts: seq<Option<Bytes>>, update: Bytes, size: nat, seen: set<nat>, i: nat, m: nat)
    requires size > 0
    requires forall k :: 0 <= k < |parts| ==> parts[k] == Some(if i + k in seen then Fragment(update, size, i + k) else [])
    ensures Flat(parts).Some? && |Flat(parts).value| + Edge(|update|, size, i) <= |update|
    ensures i <= m < i + |parts| && m !in seen && m * size < |update| ==> |Flat(parts).value| + Edge(|update|, size, i) < |update|
    decreases |parts|
  {
    FragmentLength(update, size, i);
    if parts != [] {
      var rest := parts[1..];
      assert forall k :: 0 <= k < |rest| ==> rest[k] == parts[k + 1];
      MissingIsShort(rest, update, size, seen, i + 1, m);
    }
  }

  lemma {:induction false} SetOfIsSmall(order: seq<nat>)
    ensures |SetOf(order)| <= |order|
    ensures |SetOf(order)| == |order| <==> forall i, j :: 0 <= i < j < |order| ==> order[i] != order[j]
    decreases |order|
  {
    if order != [] {
      var rest := order[1..];
      SetOfIsSmall(rest);
      SetOfCons(order);
      if order[0] in rest {
        assert SetOf(order) == SetOf(rest);
        var j :| 0 <= j < |rest| && rest[j] == order[0];
        assert order[0] == order[j + 1];
      } else {
        assert forall j :: 0 <= j < |rest| ==> order[j + 1] == rest[j];
        if forall i, j :: 0 <= i < j < |rest| ==> rest[i] != rest[j] {
          forall i, j | 0 <= i < j < |order|
            ensures order[i] != order[j]
          {
            assert order[j] == rest[j - 1] && (i > 0 ==> order[i] == rest[i - 1]);
            assert rest[j - 1] in rest;
          }
        } else {
          var i, j :| 0 <= i < j < |rest| && rest[i] == rest[j];
          assert order[i + 1] == order[j + 1];
        }
      }
    }
  }

  /** As many in-range indices as there are fragments: either each occurs once, or one is missing. */
  lemma OnceOrMissing(order: seq<nat>, count: nat)
    requires |order| == count && forall i :: 0 <= i < |order| ==> order[i] < count
    ensures EachOnce(order, count) || exists m: nat :: m < count && m !in order
  {
    SetOfIsSmall(order);
    if forall m: nat :: m < count ==> m in order {
      UpToIs(count);
      assert SetOf(order) == UpTo(count);
    }
  }

  function Ones(n: nat): Bytes {
    seq(n, _ => 1)
  }

  /** Parts that fall short are padded with zeros. */
  lemma ShortShows(b: Batch, n: nat)
    requires b.total == n && Flat(b.parts).Some? && |Flat(b.parts).value| < n
    ensures Assemble(b) != Whole(Ones(n))
  {
    var flat := Flat(b.parts).value;
    var out := flat + Padding(n - |flat|);
    assert out[n - 1] == 0 && Ones(n)[n - 1] == 1;
  }

  lemma MissingShowsAt(n: nat, size: nat, order: seq<nat>, m: nat)
    requires size > 0 && n > 0 && order != [] && |order| == FragmentCount(n, size)
    requires forall i :: 0 <= i < |order| ==> order[i] < |order|
    requires m < |order| && m !in order
    ensures ArriveAll(Announce(|order|, n), Ones(n), size, order) != Whole(Ones(n))
  {
    var update, b := Ones(n), Announce(|order|, n);
    AssembledAtLast(b, update, size, order);
    PutAllGets(b.parts, update, size, {}, order);
    var parts := PutAll(b.parts, update, size, order);
    FragmentBound(n, size, m);
    MissingIsShort(parts, update, size, {} + SetOf(order), 0, m);
    ShortShows(Batch(parts, |b.parts|, n), n);
  }

  /** With a fragment missing, an update of non-zero bytes does not come back. */
  lemma MissingShows(n: nat, order: seq<nat>, m: nat)
    requires n > FRAGMENT_BYTES && |order| == FragmentCount(n, FRAGMENT_BYTES)
    requires forall i :: 0 <= i < |order| ==> order[i] < |order|
    requires m < |order| && m !in order
    ensures ArriveAll(Announce(|order|, n), Ones(n), FRAGMENT_BYTES, order) != Whole(Ones(n))
  {
    MissingShowsAt(n, FRAGMENT_BYTES, order, m);
  }

  /**
   Exactly which arrivals reassemble: of all orders of the announced length with indices in range, those
   in which every fragment arrives once are the ones that put every update of the size back together.
   */
  lemma ReassemblesIff(n: nat, order: seq<nat>)
    requires n > FRAGMENT_BYTES && |order| == FragmentCount(n, FRAGMENT_BYTES)
    requires forall i :: 0 <= i < |order| ==> order[i] < |order|
    ensures (forall update: Bytes :: |update| == n ==> ArriveAll(Announce(|order|, n), update, FRAGMENT_BYTES, order) == Whole(update))
       <==> EachOnce(order, |order|)
  {
    if EachOnce(order, |order|) {
      forall update: Bytes | |update| == n
        ensures ArriveAll(Announce(|order|, n), update, FRAGMENT_BYTES, order) == Whole(update)
      {
        FragmentsReassemble(update, order);
      }
    } else {
      OnceOrMissing(order, |order|);
      var m: nat :| m < |order| && m !in order;
      MissingShows(n, order, m);
      assert |Ones(n)| == n;
    }
  }

  // ── the reassembly buffer ─────────────────────────────────────────────────

  const MAX_REASSEMBLED_BYTES: nat := 32 * 1024 * 1024
  const MAX_FRAGMENT_COUNT: nat := 4096

  /** `Unknown` asks the sender to start the batch over. */
  datatype Verdict = Buffered | Assembled(bytes: Bytes) | Unknown | Broken

  /** The batches of one socket that are still coming in. */
  class FragmentBuffer {
    var batches: map<string, Batch>

    constructor ()
      ensures batches == map[]
    {
      batches := map[];
    }

    /** Buffers exist only for batches within the size limits. */
    method HandleHeader(id: string, count: nat, total: nat) returns (accepted: bool)
      modifies this
      ensures accepted <==> total <= MAX_REASSEMBLED_BYTES && count <= MAX_FRAGMENT_COUNT
      ensures batches == if accepted then old(batches)[id := Announce(count, total)] else old(batches)
    {
      if total > MAX_REASSEMBLED_BYTES || count > MAX_FRAGMENT_COUNT {
        return false;
      }
      batches := batches[id := Announce(count, total)];
      accepted := true;
    }

    method HandleFragment(id: string, index: nat, bytes: Bytes) returns (verdict: Verdict)
      modifies this
      ensures id !in old(batches) ==> verdict == Unknown && batches == old(batches)
      ensures id in old(batches) ==>
                match Arrive(old(batches)[id], index, bytes)
                case Waiting(next) => verdict == Buffered && batches == old(batches)[id := next]
                case Whole(update) => verdict == Assembled(update) && batches == old(batches) - {id}
                case Overflow => verdict == Broken && batches == old(batches) - {id}
    {
      if id !in batches {
        return Unknown;
      }
      var b := batches[id];
      b := Batch(PutAt(b.parts, index, bytes), b.received + 1, b.total);
      if b.received < |b.parts| {
        batches := batches[id := b];
        return Buffered;
      }
      batches := batches - {id};
      var filled: Bytes := [];
      PrefixedByNothing(Flat(b.parts));
      assert b.parts[0..] == b.parts;
      for i := 0 to |b.parts|
        invariant batches == old(batches) - {id}
        invariant Flat(b.parts) == Prefixed(filled, Flat(b.parts[i..]))
      {
        assert b.parts[i..][0] == b.parts[i] && b.parts[i..][1..] == b.parts[i + 1..];
        if b.parts[i].None? {
          return Broken;
        }
        PrefixedOn(filled, b.parts[i].value, Flat(b.parts[i + 1..]));
        filled := filled + b.parts[i].value;
      }
      assert filled + [] == filled;
      if |filled| > b.total {
        return Broken;
      }
      verdict := Assembled(filled + Padding(b.total - |filled|));
    }
  }

  function Prefixed(front: Bytes, rest: Option<Bytes>): Option<Bytes> {
    if rest.Some? then Some(front + rest.value) else None
  }

  lemma PrefixedByNothing(rest: Option<Bytes>)
    ensures Prefixed([], rest) == rest
  {
    if rest.Some? {
      assert [] + rest.value == rest.value;
    }
  }

  lemma PrefixedOn(front: Bytes, next: Bytes, rest: Option<Bytes>)
    ensures Prefixed(front, Prefixed(next, rest)) == Prefixed(front + next, rest)
  {
    if rest.Some? {
      Regroup(front, next, rest.value);
    }
  }
}
