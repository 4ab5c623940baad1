/**
 The whole registry protocol as a step system: one server table, any number of replicas, each with a
 FIFO link in both directions that can be cut at any moment. Every theorem is about every run.
 */
module RegistrySync {
  import opened Prelude
  import opened Hlc
  import opened RegistryCore
  import opened RegistryLaws
  import opened RegistrySize
  import opened RegistryRoom
  import opened RegistryDoc
  import opened RegistryFlight

  // ── the world ─────────────────────────────────────────────────────────────

  datatype Up = Hello(cursor: Option<nat>) | PushUp(frame: PushFrame)

  /** `ready`: the server handled the hello. `synced`: the client applied the state frame. */
  datatype Link = NoLink | Link(up: seq<Up>, down: seq<Frame>, ready: bool, synced: bool)

  /** `issued` remembers, for the theorems only, every batch of local writes ever made here. */
  datatype Replica = Replica(doc: Doc, link: Link, issued: set<Written>)

  /** `handled` remembers which push frames of which client the server has accepted. */
  datatype World = World(table: Table, replicas: map<nat, Replica>, handled: set<(nat, PushFrame)>)

  function Start(devices: map<nat, string>): World {
    World(Table(map[], 0, 0), map c | c in devices :: Replica(NewDoc(devices[c]), NoLink, {}), {})
  }

  datatype Step =
    | Dial(c: nat)
    | TakeUp(c: nat)
    | Deliver(c: nat, order: seq<Key>, now: seq<int>)
    | Drop(c: nat)
    | Write(c: nat, ops: seq<Op>, now: seq<int>)
    | Nudge(c: nat)
    | Collect(horizon: Clock)

  // ── the client's half of each step ────────────────────────────────────────

  function HelloCursor(d: Doc): Option<nat> {
    if d.serial == 0 && d.pending == [] && d.generation == 0 then None else Some(d.serial)
  }

  /** What a client writes meets the identifier patterns; how long it is, nobody has looked at yet. */
  ghost function WireOps(ops: seq<Op>): (out: seq<WireOp>)
    ensures |out| == |ops|
    ensures forall i :: 0 <= i < |out| ==> out[i] == WireOp(ops[i], true, OpSize(ops[i]))
  {
    seq(|ops|, i requires 0 <= i < |ops| => WireOp(ops[i], true, OpSize(ops[i])))
  }

  ghost function ToFrame(b: Batch): PushFrame {
    PushFrame(b.id, WireOps(b.ops), PushSize(b.id, b.ops))
  }

  ghost function Pushes(batches: seq<Batch>): (out: seq<Up>)
    ensures |out| == |batches|
    ensures forall i :: 0 <= i < |out| ==> out[i] == PushUp(ToFrame(batches[i]))
  {
    seq(|batches|, i requires 0 <= i < |batches| => PushUp(ToFrame(batches[i])))
  }

  /** `take_pushable`, then one push frame per batch. */
  ghost function PushPending(r: Replica): Replica
    requires r.link.Link?
  {
    r.(doc := r.doc.(pending := Marked(r.doc.pending, true)),
       link := r.link.(up := r.link.up + Pushes(Pushable(r.doc.pending))))
  }

  /** The ops the typed write API builds: at least one, one per row, of whatever length. */
  ghost predicate LocalOps(ops: seq<Op>) {
    ops != [] && OnePerRow(ops)
  }

  ghost function WriteLocal(r: Replica, ops: seq<Op>, now: seq<int>): Replica {
    var doc := Enqueue(r.doc, ops, now);
    var batches := Cut(r.doc.device, r.doc.clock, ops, now);
    r.(doc := doc, issued := r.issued + set i | 0 <= i < |batches| :: Written(batches[i].id, batches[i].ops))
  }

  ghost function Handle(d: Doc, frame: Frame, order: seq<Key>, now: seq<int>): Doc {
    match frame
    case StateFrame(serial, full, gcFloor, rows) => ApplyState(d, serial, full, gcFloor, rows, order, now).doc
    case RowsFrame(serial, rows) => ApplyRows(d, serial, rows)
    case AckFrame(batch, serial, _) => AckBatch(d, batch, serial)
    case ErrorFrame(_) => d
  }

  /** Before the state frame everything else is skipped; right after it the queue is pushed. */
  ghost function DeliverTo(r: Replica, order: seq<Key>, now: seq<int>): Replica
    requires r.link.Link? && r.link.down != []
  {
    var frame := r.link.down[0];
    var popped := r.(link := r.link.(down := r.link.down[1..]));
    if r.link.synced then popped.(doc := Handle(r.doc, frame, order, now))
    else if frame.StateFrame? then
      PushPending(popped.(doc := Handle(r.doc, frame, order, now), link := popped.link.(synced := true)))
    else popped
  }

  function Disconnect(r: Replica): Replica {
    r.(doc := r.doc.(pending := Marked(r.doc.pending, false)), link := NoLink)
  }

  // ── the server's half ─────────────────────────────────────────────────────

  /** Broadcasts reach every socket whose hello has been handled. */
  function Hear(r: Replica, frames: seq<Frame>): Replica {
    if r.link.Link? && r.link.ready then r.(link := r.link.(down := r.link.down + frames)) else r
  }

  function Reply(r: Replica, frame: Frame): Replica
    requires r.link.Link? && r.link.up != []
  {
    r.(link := r.link.(up := r.link.up[1..], down := r.link.down + [frame]))
  }

  function Greet(r: Replica, t: Table, cursor: Option<nat>): Replica
    requires r.link.Link? && r.link.up != []
  {
    var g := Reply(r, HelloReply(t, cursor));
    g.(link := g.link.(ready := true))
  }

  /** A frame within the budget; one that is not makes the room close the socket, in `Do`. */
  ghost function ServePush(w: World, c: nat, frame: PushFrame): World
    requires c in w.replicas && w.replicas[c].link.Link? && w.replicas[c].link.up != []
  {
    if !w.replicas[c].link.ready then
      w.(replicas := w.replicas[c := Reply(w.replicas[c], ErrorFrame("bad_push"))])
    else
      var p := Push(w.table, frame);
      var heard := map d | d in w.replicas :: Hear(w.replicas[d], Broadcast(w.table, p));
      World(p.table, heard[c := Reply(heard[c], PushReply(frame, p))], if p.outcome.Accepted? then w.handled + {(c, frame)} else w.handled)
  }

  ghost function Do(w: World, step: Step): World {
    match step
    case Dial(c) =>
      if c in w.replicas && w.replicas[c].link.NoLink? then
        var r := w.replicas[c];
        w.(replicas := w.replicas[c := r.(link := Link([Hello(HelloCursor(r.doc))], [], false, false))])
      else w
    case TakeUp(c) =>
      if c in w.replicas && w.replicas[c].link.Link? && w.replicas[c].link.up != [] then
        match w.replicas[c].link.up[0]
        case Hello(cursor) => w.(replicas := w.replicas[c := Greet(w.replicas[c], w.table, cursor)])
        case PushUp(frame) =>
          if frame.size > MAX_FRAME_BYTES then w.(replicas := w.replicas[c := Disconnect(w.replicas[c])])
          else ServePush(w, c, frame)
      else w
    case Deliver(c, order, now) =>
      if c in w.replicas && w.replicas[c].link.Link? && w.replicas[c].link.down != []
         && Enumerates(order, w.replicas[c].doc.authoritative.Keys) then
        w.(replicas := w.replicas[c := DeliverTo(w.replicas[c], order, now)])
      else w
    case Drop(c) =>
      if c in w.replicas then w.(replicas := w.replicas[c := Disconnect(w.replicas[c])]) else w
    case Write(c, ops, now) =>
      if c in w.replicas && LocalOps(ops) then w.(replicas := w.replicas[c := WriteLocal(w.replicas[c], ops, now)]) else w
    case Nudge(c) =>
      if c in w.replicas && w.replicas[c].link.Link? && w.replicas[c].link.synced then
        w.(replicas := w.replicas[c := PushPending(w.replicas[c])])
      else w
    case Collect(horizon) => w.(table := Purge(w.table, horizon))
  }

  ghost function Run(devices: map<nat, string>, steps: seq<Step>): World
    decreases |steps|
  {
    if steps == [] then Start(devices) else Do(Run(devices, steps[..|steps| - 1]), steps[|steps| - 1])
  }

  // ── what a replica mirrors ────────────────────────────────────────────────

  /** The part of a replica that server frames determine. */
  datatype Mirror = Mirror(rows: map<Key, Row>, cursor: nat)

  function MirrorOf(d: Doc): Mirror {
    Mirror(d.authoritative, d.serial)
  }

  function Seen(m: Mirror, frame: Frame): Mirror {
    match frame
    case StateFrame(serial, full, _, rows) =>
      if !full || serial < m.cursor then Mirror(m.rows + rows, serial) else Mirror(rows, serial)
    case RowsFrame(serial, rows) => Mirror(m.rows + rows, Max(m.cursor, serial))
    case AckFrame(_, serial, _) => Mirror(m.rows, Max(m.cursor, serial))
    case ErrorFrame(_) => m
  }

  function SeenAll(m: Mirror, frames: seq<Frame>): Mirror
    decreases |frames|
  {
    if frames == [] then m else SeenAll(Seen(m, frames[0]), frames[1..])
  }

  /**
   Agreement at a cursor: every stored row at or below it is held exactly, and once the cursor has
   reached the purge floor no row the server has dropped is still live here.
   */
  ghost predicate Good(m: Mirror, t: Table) {
    && m.cursor <= t.serial
    && (forall k :: k in m.rows ==> m.rows[k].At() == k && WellFormed(m.rows[k]))
    && (forall k :: k in t.rows && t.rows[k].serial <= m.cursor ==> k in m.rows && m.rows[k] == t.rows[k])
    && (m.cursor >= t.gcFloor ==> forall k :: k in m.rows && !m.rows[k].deleted ==> k in t.rows)
  }

  /** Nothing missing: every stored row is held, and everything else held is a tombstone. */
  ghost predicate Final(m: Mirror, t: Table) {
    && m.cursor == t.serial
    && (forall k :: k in m.rows ==> m.rows[k].At() == k && WellFormed(m.rows[k]))
    && (forall k :: k in t.rows ==> k in m.rows && m.rows[k] == t.rows[k])
    && (forall k :: k in m.rows && !m.rows[k].deleted ==> k in t.rows)
  }

  lemma {:induction false} SeenAllSnoc(m: Mirror, frames: seq<Frame>, frame: Frame)
    ensures SeenAll(m, frames + [frame]) == Seen(SeenAll(m, frames), frame)
    decreases |frames|
  {
    var all := frames + [frame];
    if frames == [] {
      assert all == [frame];
      assert SeenAll(m, all) == SeenAll(Seen(m, frame), all[1..]);
    } else {
      assert all[0] == frames[0] && all[1..] == frames[1..] + [frame];
      SeenAllSnoc(Seen(m, frames[0]), frames[1..], frame);
    }
  }

  lemma GoodAfterPush(m: Mirror, t: Table, frame: PushFrame)
    requires TableOk(t) && Good(m, t)
    ensures Good(m, Push(t, frame).table)
  {
    PushEffect(t, frame);
    var after := Push(t, frame).table;
    forall k | k in after.rows && after.rows[k].serial <= m.cursor
      ensures k in m.rows && m.rows[k] == after.rows[k]
    {
      assert after.rows[k].serial <= t.serial;
    }
  }

  lemma GoodAfterPurge(m: Mirror, t: Table, horizon: Clock)
    requires TableOk(t) && Good(m, t)
    ensures Good(m, Purge(t, horizon))
  {
    PurgeEffect(t, horizon);
    var after := Purge(t, horizon);
    if m.cursor >= after.gcFloor {
      forall k | k in m.rows && !m.rows[k].deleted
        ensures k in after.rows
      {
        assert k in t.rows && (t.rows[k].serial <= m.cursor ==> m.rows[k] == t.rows[k]);
      }
    }
  }

  lemma FinalAfterPush(m: Mirror, t: Table, frame: PushFrame)
    requires TableOk(t) && Final(m, t)
    ensures var p := Push(t, frame);
            Final(SeenAll(m, Broadcast(t, p)), p.table)
  {
    PushEffect(t, frame);
    var p := Push(t, frame);
    var frames := Broadcast(t, p);
    if frames != [] {
      var news := RowsFrame(p.table.serial, Since(p.table.rows, t.serial));
      assert frames == [news] && frames[1..] == [];
      assert SeenAll(Seen(m, news), []) == Seen(m, news);
      assert SeenAll(m, frames) == Seen(m, news);
      forall k | k in p.table.rows
        ensures k in Seen(m, news).rows && Seen(m, news).rows[k] == p.table.rows[k]
      {
        if p.table.rows[k].serial <= t.serial {
          assert k in t.rows && t.rows[k] == p.table.rows[k];
        }
      }
    } else {
      assert p.table == t;
    }
  }

  lemma FinalAfterPurge(m: Mirror, t: Table, horizon: Clock)
    requires TableOk(t) && Final(m, t)
    ensures Final(m, Purge(t, horizon))
  {
  }

  /** The answer to a hello completes any mirror that is good at the cursor it sent. */
  lemma HelloCompletes(m: Mirror, t: Table, cursor: Option<nat>)
    requires TableOk(t) && Good(m, t)
    requires cursor.Some? ==> cursor.value == m.cursor
    ensures Final(Seen(m, HelloReply(t, cursor)), t)
  {
  }

  // ── the invariant of one replica ──────────────────────────────────────────

  /** However much of the queue is delivered before the link is cut, the replica is left good. */
  ghost predicate PrefixesGood(m: Mirror, down: seq<Frame>, t: Table) {
    forall i :: 0 <= i <= |down| ==> Good(SeenAll(m, down[..i]), t)
  }

  function AckIds(frames: seq<Frame>): seq<string> {
    if frames == [] then [] else (if frames[0].AckFrame? then [frames[0].batch] else []) + AckIds(frames[1..])
  }

  function UpIds(up: seq<Up>): seq<string> {
    if up == [] then [] else (if up[0].PushUp? then [up[0].frame.batch] else []) + UpIds(up[1..])
  }

  ghost predicate Queued(pending: seq<Batch>, x: Written) {
    exists i :: 0 <= i < |pending| && pending[i].id == x.id && pending[i].ops == x.ops
  }

  /** The frame that carries a batch of local writes. */
  ghost function FrameOf(x: Written): PushFrame {
    ToFrame(Batch(x.id, x.ops, true))
  }

  /** The room refuses the batch whenever it sees it. */
  ghost predicate Refused(b: Batch) {
    !ValidPush(ToFrame(b))
  }

  /** The same, of a batch whatever its flag. */
  ghost function Refusal(): Written -> bool {
    x => !ValidPush(FrameOf(x))
  }

  /** The batch is queued, accepted, and already reflected in the mirror that will see it acknowledged. */
  ghost predicate Reflected(c: nat, d: Doc, m: Mirror, x: Written, serial: nat, handled: set<(nat, PushFrame)>) {
    Queued(d.pending, x) && serial <= m.cursor && SettledAll(m.rows, x.ops) && (c, FrameOf(x)) in handled
  }

  /** The ack at position `j` names a batch, and comes after the rows it acknowledges. */
  ghost predicate AckOk(c: nat, d: Doc, down: seq<Frame>, j: nat, handled: set<(nat, PushFrame)>)
    requires j < |down| && down[j].AckFrame?
  {
    exists x: Written ::
      x.id == down[j].batch && Reflected(c, d, SeenAll(MirrorOf(d), down[..j]), x, down[j].serial, handled)
  }

  ghost predicate AcksOk(c: nat, d: Doc, down: seq<Frame>, handled: set<(nat, PushFrame)>) {
    forall j :: 0 <= j < |down| && down[j].AckFrame? ==> AckOk(c, d, down, j, handled)
  }

  ghost predicate Carries(pending: seq<Batch>, x: Written, u: Up) {
    u == PushUp(FrameOf(x)) && Queued(pending, x)
  }

  ghost predicate UpsOk(pending: seq<Batch>, up: seq<Up>) {
    forall u :: u in up ==> exists x: Written :: Carries(pending, x, u)
  }

  ghost predicate InFlight(pending: seq<Batch>, transit: seq<string>) {
    Matches(pending, transit, Refusal())
  }

  ghost predicate LinkOk(c: nat, d: Doc, link: Link, t: Table, handled: set<(nat, PushFrame)>) {
    match link
    case NoLink => Good(MirrorOf(d), t) && InFlight(d.pending, [])
    case Link(up, down, ready, synced) =>
      if !ready then
        && !synced && down == [] && Good(MirrorOf(d), t) && InFlight(d.pending, [])
        && |up| == 1 && up[0].Hello? && (up[0].cursor.Some? ==> up[0].cursor.value == d.serial)
      else
        && PrefixesGood(MirrorOf(d), down, t) && Final(SeenAll(MirrorOf(d), down), t)
        && AcksOk(c, d, down, handled) && UpsOk(d.pending, up) && InFlight(d.pending, AckIds(down) + UpIds(up))
        && (!synced ==> up == [] && down != [] && down[0].StateFrame? && AckIds(down) == [])
  }

  ghost predicate BatchOk(b: Batch) {
    b.id != "" && 1 <= |b.ops| <= MAX_OPS_PER_BATCH && OnePerRow(b.ops)
  }

  /** The clock has not yet reached any tick whose name would repeat a queued one. */
  ghost predicate Unused(device: string, clock: Stamp, pending: seq<Batch>) {
    forall tick, i :: StampLess(clock, tick) && 0 <= i < |pending| ==> pending[i].id != BatchId(tick, device)
  }

  ghost predicate QueueOk(d: Doc) {
    && (forall i :: 0 <= i < |d.pending| ==> BatchOk(d.pending[i]))
    && Distinct(d.pending)
    && Unused(d.device, d.clock, d.pending)
  }

  /** Every batch of local writes is still queued here or was accepted by the server, op for op. */
  ghost predicate NothingLost(c: nat, r: Replica, handled: set<(nat, PushFrame)>) {
    forall x :: x in r.issued ==> Queued(r.doc.pending, x) || (c, FrameOf(x)) in handled
  }

  ghost predicate ReplicaOk(c: nat, r: Replica, t: Table, handled: set<(nat, PushFrame)>) {
    && LinkOk(c, r.doc, r.link, t, handled)
    && QueueOk(r.doc)
    && NothingLost(c, r, handled)
  }

  ghost predicate Inv(w: World) {
    && TableOk(w.table)
    && (forall c :: c in w.replicas ==> ReplicaOk(c, w.replicas[c], w.table, w.handled))
    && forall h :: h in w.handled ==> ValidPush(h.1)
  }

  // ── batches in flight ─────────────────────────────────────────────────────

  lemma {:induction false} AckIdsConcat(a: seq<Frame>, b: seq<Frame>)
    ensures AckIds(a + b) == AckIds(a) + AckIds(b)
  {
    if a == [] {
      assert a + b == b;
    } else {
      assert (a + b)[0] == a[0] && (a + b)[1..] == a[1..] + b;
      AckIdsConcat(a[1..], b);
      Regroup(if a[0].AckFrame? then [a[0].batch] else [], AckIds(a[1..]), AckIds(b));
    }
  }

  lemma AckIdsOne(frame: Frame)
    ensures AckIds([frame]) == if frame.AckFrame? then [frame.batch] else []
  {
  }

  lemma {:induction false} AckIdsHas(frames: seq<Frame>, j: nat)
    requires j < |frames| && frames[j].AckFrame?
    ensures frames[j].batch in AckIds(frames)
  {
    if j > 0 {
      AckIdsHas(frames[1..], j - 1);
    }
  }

  lemma {:induction false} UpIdsConcat(a: seq<Up>, b: seq<Up>)
    ensures UpIds(a + b) == UpIds(a) + UpIds(b)
  {
    if a == [] {
      assert a + b == b;
    } else {
      assert (a + b)[0] == a[0] && (a + b)[1..] == a[1..] + b;
      UpIdsConcat(a[1..], b);
      Regroup(if a[0].PushUp? then [a[0].frame.batch] else [], UpIds(a[1..]), UpIds(b));
    }
  }

  lemma {:induction false} UpIdsHas(up: seq<Up>, u: Up)
    requires u in up && u.PushUp?
    ensures u.frame.batch in UpIds(up)
  {
    if u != up[0] {
      UpIdsHas(up[1..], u);
    }
  }

  // ── frames appended ───────────────────────────────────────────────────────

  lemma PrefixesGoodSnoc(m: Mirror, down: seq<Frame>, frame: Frame, t: Table)
    requires PrefixesGood(m, down, t)
    requires Good(SeenAll(m, down + [frame]), t)
    ensures PrefixesGood(m, down + [frame], t)
  {
    var all := down + [frame];
    forall i | 0 <= i <= |all|
      ensures Good(SeenAll(m, all[..i]), t)
    {
      if i <= |down| {
        assert all[..i] == down[..i];
      } else {
        assert all[..i] == all;
      }
    }
  }

  /** Appending a frame leaves every earlier ack as it was. */
  lemma AcksOkSnoc(c: nat, d: Doc, down: seq<Frame>, frame: Frame, handled: set<(nat, PushFrame)>)
    requires AcksOk(c, d, down, handled)
    requires frame.AckFrame? ==> AckOk(c, d, down + [frame], |down|, handled)
    ensures AcksOk(c, d, down + [frame], handled)
  {
    var all := down + [frame];
    forall j | 0 <= j < |all| && all[j].AckFrame?
      ensures AckOk(c, d, all, j, handled)
    {
      if j < |down| {
        assert all[..j] == down[..j] && all[j] == down[j];
        assert AckOk(c, d, down, j, handled);
      }
    }
  }

  lemma FinalIsGood(m: Mirror, t: Table)
    requires TableOk(t) && Final(m, t)
    ensures Good(m, t)
  {
  }

  // ── server steps ──────────────────────────────────────────────────────────

  lemma PrefixesGoodAfterPush(m: Mirror, down: seq<Frame>, t: Table, frame: PushFrame)
    requires TableOk(t) && PrefixesGood(m, down, t)
    ensures PrefixesGood(m, down, Push(t, frame).table)
  {
    forall i | 0 <= i <= |down|
      ensures Good(SeenAll(m, down[..i]), Push(t, frame).table)
    {
      GoodAfterPush(SeenAll(m, down[..i]), t, frame);
    }
  }

  /** One more frame at the end of the queue, with the table it was built from. */
  lemma FrameAppended(m: Mirror, down: seq<Frame>, frame: Frame, t: Table)
    requires TableOk(t) && PrefixesGood(m, down, t)
    requires Final(Seen(SeenAll(m, down), frame), t)
    ensures PrefixesGood(m, down + [frame], t) && Final(SeenAll(m, down + [frame]), t)
  {
    SeenAllSnoc(m, down, frame);
    FinalIsGood(SeenAll(m, down + [frame]), t);
    PrefixesGoodSnoc(m, down, frame, t);
  }

  lemma BroadcastKeepsMirror(m: Mirror, down: seq<Frame>, t: Table, frame: PushFrame)
    requires TableOk(t) && PrefixesGood(m, down, t) && Final(SeenAll(m, down), t)
    ensures var p := Push(t, frame);
            var all := down + Broadcast(t, p);
            PrefixesGood(m, all, p.table) && Final(SeenAll(m, all), p.table)
  {
    var p := Push(t, frame);
    PushEffect(t, frame);
    PrefixesGoodAfterPush(m, down, t, frame);
    FinalAfterPush(SeenAll(m, down), t, frame);
    var news := Broadcast(t, p);
    if news == [] {
      assert down + news == down;
    } else {
      assert news == [news[0]] && news[1..] == [];
      assert SeenAll(Seen(SeenAll(m, down), news[0]), []) == Seen(SeenAll(m, down), news[0]);
      FrameAppended(m, down, news[0], p.table);
    }
  }

  lemma BroadcastKeepsAcks(c: nat, d: Doc, down: seq<Frame>, news: seq<Frame>, handled: set<(nat, PushFrame)>)
    requires AcksOk(c, d, down, handled)
    requires |news| <= 1 && (news != [] ==> news[0].RowsFrame?)
    ensures AcksOk(c, d, down + news, handled) && AckIds(down + news) == AckIds(down)
  {
    if news == [] {
      assert down + news == down;
    } else {
      assert news == [news[0]];
      AckIdsConcat(down, news);
      AckIdsOne(news[0]);
      AcksOkSnoc(c, d, down, news[0], handled);
    }
  }

  lemma HearKeeps(c: nat, r: Replica, t: Table, frame: PushFrame, handled: set<(nat, PushFrame)>)
    requires TableOk(t) && ReplicaOk(c, r, t, handled)
    ensures ReplicaOk(c, Hear(r, Broadcast(t, Push(t, frame))), Push(t, frame).table, handled)
  {
    if r.link.NoLink? || !r.link.ready {
      GoodAfterPush(MirrorOf(r.doc), t, frame);
    } else {
      BroadcastKeepsMirror(MirrorOf(r.doc), r.link.down, t, frame);
      BroadcastKeepsAcks(c, r.doc, r.link.down, Broadcast(t, Push(t, frame)), handled);
    }
  }

  lemma ToFrameOps(b: Batch)
    ensures Ops(ToFrame(b)) == b.ops && ToFrame(b) == FrameOf(Written(b.id, b.ops))
  {
  }

  /** What is settled on the server's table is settled on any complete mirror of it. */
  lemma SettledInMirror(m: Mirror, t: Table, ops: seq<Op>)
    requires Final(m, t) && SettledAll(t.rows, ops)
    ensures SettledAll(m.rows, ops)
  {
  }

  lemma FrameSettles(t: Table, frame: PushFrame)
    requires TableOk(t) && ValidPush(frame) && OnePerRow(Ops(frame))
    ensures SettledAll(Push(t, frame).table.rows, Ops(frame))
  {
    PushStoresAll(t, frame);
    StoreAllSettles(t.rows, Ops(frame), t.serial + 1);
  }

  lemma QueuedIsOk(d: Doc, x: Written)
    requires QueueOk(d) && Queued(d.pending, x)
    ensures OnePerRow(x.ops) && Ops(FrameOf(x)) == x.ops
    ensures forall b :: b in d.pending && b.id == x.id ==> b.ops == x.ops
  {
  }

  lemma ReplyIsAck(t: Table, frame: PushFrame)
    requires TableOk(t) && Push(t, frame).outcome.Accepted?
    ensures var ack := PushReply(frame, Push(t, frame));
            ack.AckFrame? && ack.batch == frame.batch && ack.serial == Push(t, frame).table.serial
  {
  }

  /** The ack of an accepted batch is consistent with what is already queued. */
  lemma AckAppended(c: nat, d: Doc, x: Written, down: seq<Frame>, t0: Table, handled: set<(nat, PushFrame)>)
    requires TableOk(t0) && QueueOk(d) && Queued(d.pending, x) && ValidPush(FrameOf(x))
    requires Final(SeenAll(MirrorOf(d), down), Push(t0, FrameOf(x)).table)
    ensures var ack := PushReply(FrameOf(x), Push(t0, FrameOf(x)));
            && ack.AckFrame? && ack.batch == x.id && Seen(SeenAll(MirrorOf(d), down), ack) == SeenAll(MirrorOf(d), down)
            && AckOk(c, d, down + [ack], |down|, handled + {(c, FrameOf(x))})
  {
    var f := FrameOf(x);
    QueuedIsOk(d, x);
    FrameSettles(t0, f);
    PushEffect(t0, f);
    ReplyIsAck(t0, f);
    SettledInMirror(SeenAll(MirrorOf(d), down), Push(t0, f).table, x.ops);
    var ack := PushReply(f, Push(t0, f));
    assert (down + [ack])[..|down|] == down;
    assert Reflected(c, d, SeenAll(MirrorOf(d), down), x, ack.serial, handled + {(c, f)});
  }

  /** One request has left the socket and one frame has entered it. */
  lemma Replied(c: nat, d: Doc, link: Link, frame: Frame, t: Table, handled: set<(nat, PushFrame)>)
    requires link.Link? && link.ready && link.synced && link.up != [] && UpsOk(d.pending, link.up)
    requires PrefixesGood(MirrorOf(d), link.down + [frame], t) && Final(SeenAll(MirrorOf(d), link.down + [frame]), t)
    requires AcksOk(c, d, link.down + [frame], handled)
    requires InFlight(d.pending, AckIds(link.down) + (if frame.AckFrame? then [frame.batch] else []) + UpIds(link.up[1..]))
    ensures LinkOk(c, d, link.(up := link.up[1..], down := link.down + [frame]), t, handled)
  {
    AckIdsConcat(link.down, [frame]);
    AckIdsOne(frame);
    assert forall u :: u in link.up[1..] ==> u in link.up;
  }

  /** The sender's side of an accepted push: its rows are already in the queue when its ack is appended. */
  lemma AckKeeps(c: nat, r: Replica, t0: Table, t: Table, handled: set<(nat, PushFrame)>)
    requires r.link.Link? && r.link.ready && r.link.up != [] && r.link.up[0].PushUp?
    requires TableOk(t0) && t == Push(t0, r.link.up[0].frame).table && TableOk(t)
    requires Push(t0, r.link.up[0].frame).outcome.Accepted? && ReplicaOk(c, r, t, handled)
    ensures var f := r.link.up[0].frame;
            ReplicaOk(c, Reply(r, PushReply(f, Push(t0, f))), t, handled + {(c, f)})
  {
    var f, d, up, down := r.link.up[0].frame, r.doc, r.link.up, r.link.down;
    var more, ack := handled + {(c, f)}, PushReply(f, Push(t0, f));
    assert up[0] in up;
    var x: Written :| Carries(d.pending, x, up[0]);
    PushEffect(t0, f);
    AckAppended(c, d, x, down, t0, handled);
    FrameAppended(MirrorOf(d), down, ack, t);
    AcksOkMonotone(c, d, down, handled, more);
    AcksOkSnoc(c, d, down, ack, more);
    Regroup(AckIds(down), [f.batch], UpIds(up[1..]));
    assert UpIds(up) == [f.batch] + UpIds(up[1..]);
    Replied(c, d, r.link, ack, t, more);
  }

  lemma SentIsRefused(d: Doc, u: Up)
    requires QueueOk(d) && u.PushUp? && !ValidPush(u.frame) && exists x: Written :: Carries(d.pending, x, u)
    ensures forall b :: b in d.pending && b.id == u.frame.batch ==> Refusal()(Of(b))
  {
    var x: Written :| Carries(d.pending, x, u);
    QueuedIsOk(d, x);
    assert forall b :: b in d.pending && b.id == x.id ==> Of(b) == x;
  }

  /** A refused batch is in transit no longer. */
  lemma RefusalDrops(d: Doc, down: seq<Frame>, up: seq<Up>)
    requires QueueOk(d) && up != [] && up[0].PushUp? && !ValidPush(up[0].frame) && UpsOk(d.pending, up)
    requires InFlight(d.pending, AckIds(down) + UpIds(up))
    ensures InFlight(d.pending, AckIds(down) + UpIds(up[1..]))
  {
    assert up[0] in up;
    SentIsRefused(d, up[0]);
    DropOne(d.pending, AckIds(down), up[0].frame.batch, UpIds(up[1..]), Refusal());
  }

  /** The sender's side of a refused push: an error frame names no batch. */
  lemma RefusalKeeps(c: nat, r: Replica, code: string, t: Table, handled: set<(nat, PushFrame)>)
    requires r.link.Link? && r.link.ready && r.link.up != [] && r.link.up[0].PushUp?
    requires TableOk(t) && !ValidPush(r.link.up[0].frame) && ReplicaOk(c, r, t, handled)
    ensures ReplicaOk(c, Reply(r, ErrorFrame(code)), t, handled)
  {
    var d, up, down := r.doc, r.link.up, r.link.down;
    RefusalDrops(d, down, up);
    FrameAppended(MirrorOf(d), down, ErrorFrame(code), t);
    AcksOkSnoc(c, d, down, ErrorFrame(code), handled);
    assert AckIds(down) + [] == AckIds(down);
    Replied(c, d, r.link, ErrorFrame(code), t, handled);
  }

  lemma AcksOkMonotone(c: nat, d: Doc, down: seq<Frame>, a: set<(nat, PushFrame)>, b: set<(nat, PushFrame)>)
    requires AcksOk(c, d, down, a) && a <= b
    ensures AcksOk(c, d, down, b)
  {
  }

  lemma ReplicaOkMonotone(c: nat, r: Replica, t: Table, a: set<(nat, PushFrame)>, b: set<(nat, PushFrame)>)
    requires ReplicaOk(c, r, t, a) && a <= b
    ensures ReplicaOk(c, r, t, b)
  {
  }

  lemma UpsArePushes(pending: seq<Batch>, up: seq<Up>)
    ensures UpsOk(pending, up) && up != [] ==> up[0].PushUp?
  {
    if up != [] {
      assert up[0] in up;
    }
  }

  /** The state frame is the first frame of a session. */
  lemma Greeted(m: Mirror, t: Table, cursor: Option<nat>)
    requires TableOk(t) && Good(m, t) && (cursor.Some? ==> cursor.value == m.cursor)
    ensures PrefixesGood(m, [HelloReply(t, cursor)], t) && Final(SeenAll(m, [HelloReply(t, cursor)]), t)
  {
    HelloCompletes(m, t, cursor);
    assert PrefixesGood(m, [], t) && SeenAll(m, []) == m;
    FrameAppended(m, [], HelloReply(t, cursor), t);
    assert [] + [HelloReply(t, cursor)] == [HelloReply(t, cursor)];
  }

  lemma GreetKeeps(c: nat, r: Replica, t: Table, handled: set<(nat, PushFrame)>)
    requires TableOk(t) && ReplicaOk(c, r, t, handled)
    requires r.link.Link? && r.link.up != [] && r.link.up[0].Hello?
    ensures ReplicaOk(c, Greet(r, t, r.link.up[0].cursor), t, handled)
  {
    UpsArePushes(r.doc.pending, r.link.up);
    assert !r.link.ready;
    var reply := HelloReply(t, r.link.up[0].cursor);
    Greeted(MirrorOf(r.doc), t, r.link.up[0].cursor);
    assert r.link.down + [reply] == [reply] && r.link.up[1..] == [];
    AckIdsOne(reply);
    assert AckIds([reply]) + UpIds([]) == [];
  }

  lemma PurgeKeeps(c: nat, r: Replica, t: Table, horizon: Clock, handled: set<(nat, PushFrame)>)
    requires TableOk(t) && ReplicaOk(c, r, t, handled)
    ensures ReplicaOk(c, r, Purge(t, horizon), handled)
  {
    var m := MirrorOf(r.doc);
    if r.link.NoLink? || !r.link.ready {
      GoodAfterPurge(m, t, horizon);
    } else {
      forall i | 0 <= i <= |r.link.down|
        ensures Good(SeenAll(m, r.link.down[..i]), Purge(t, horizon))
      {
        GoodAfterPurge(SeenAll(m, r.link.down[..i]), t, horizon);
      }
      FinalAfterPurge(SeenAll(m, r.link.down), t, horizon);
    }
  }

  // ── queueing steps ────────────────────────────────────────────────────────

  lemma {:induction false} CutBatchesAreOk(device: string, clock: Stamp, ops: seq<Op>, now: seq<int>)
    requires OnePerRow(ops)
    ensures forall b :: b in Cut(device, clock, ops, now) ==> BatchOk(b)
    decreases |ops|
  {
    if ops != [] {
      CutStep(device, clock, ops, now);
      var split := Min(|ops|, MAX_OPS_PER_BATCH);
      var tail := ops[split..];
      assert forall i :: 0 <= i < |tail| ==> tail[i] == ops[split + i];
      CutBatchesAreOk(device, Tick(clock, Reading(now, 0)), tail, Rest(now));
      assert Cut(device, clock, ops, now)[0].id[0] == 'b';
    }
  }

  /** What queueing adds to a document: fresh batches, in order, none of them in flight. */
  ghost predicate Extends(d: Doc, e: Doc) {
    && e.device == d.device && |d.pending| <= |e.pending|
    && (forall i :: 0 <= i < |d.pending| ==> e.pending[i] == d.pending[i])
    && (forall i :: |d.pending| <= i < |e.pending| ==> !e.pending[i].inFlight)
  }

  lemma FreshQueued(device: string, lo: Stamp, hi: Stamp, pending: seq<Batch>, batches: seq<Batch>)
    requires Unused(device, lo, pending) && FreshNames(device, lo, batches, hi) && !StampLess(hi, lo)
    ensures Unused(device, hi, pending + batches)
    ensures forall i, j :: 0 <= i < |pending| && 0 <= j < |batches| ==> pending[i].id != batches[j].id
  {
    forall tick, i | StampLess(hi, tick) && 0 <= i < |pending + batches|
      ensures (pending + batches)[i].id != BatchId(tick, device)
    {
      if i >= |pending| {
        var b := batches[i - |pending|];
        assert NamedWithin(b.id, device, lo, hi);
        var t :| StampLess(lo, t) && !StampLess(hi, t) && b.id == BatchId(t, device);
        if b.id == BatchId(tick, device) {
          BatchIdIsUnique(t, tick, device);
        }
      }
    }
    forall i, j | 0 <= i < |pending| && 0 <= j < |batches|
      ensures pending[i].id != batches[j].id
    {
      assert NamedWithin(batches[j].id, device, lo, hi);
    }
  }

  lemma AllQueued(pending: seq<Batch>, batches: seq<Batch>)
    ensures forall b :: b in batches ==> Queued(pending + batches, Written(b.id, b.ops))
  {
    forall b | b in batches
      ensures Queued(pending + batches, Written(b.id, b.ops))
    {
      var i :| 0 <= i < |batches| && batches[i] == b;
      assert (pending + batches)[|pending| + i] == b;
    }
  }

  lemma EnqueueKeeps(d: Doc, ops: seq<Op>, now: seq<int>)
    requires QueueOk(d) && OnePerRow(ops)
    ensures var e := Enqueue(d, ops, now);
            && QueueOk(e) && Extends(d, e) && MirrorOf(e) == MirrorOf(d)
            && forall b :: b in Cut(d.device, d.clock, ops, now) ==> Queued(e.pending, Written(b.id, b.ops))
  {
    if ops != [] {
      var batches := Cut(d.device, d.clock, ops, now);
      CutIsFaithful(d.device, d.clock, ops, now);
      CutBatchesAreOk(d.device, d.clock, ops, now);
      CutNamesAreFresh(d.device, d.clock, ops, now);
      ClockAdvances(d.clock, ops, now);
      FreshQueued(d.device, d.clock, ClockAfter(d.clock, ops, now), d.pending, batches);
      AllQueued(d.pending, batches);
    }
  }

  lemma {:induction false} SeedOpsAt(rows: map<Key, Row>, order: seq<Key>)
    requires forall k :: k in rows ==> rows[k].At() == k
    ensures forall op :: op in SeedOps(rows, order) ==> op.At() in order
  {
    if order != [] {
      SeedOpsAt(rows, order[1..]);
    }
  }

  /** Seeding a map of rows yields at most one op per row. */
  lemma {:induction false} SeedOpsOnePerRow(rows: map<Key, Row>, order: seq<Key>)
    requires forall k :: k in rows ==> rows[k].At() == k
    requires forall i, j :: 0 <= i < j < |order| ==> order[i] != order[j]
    ensures OnePerRow(SeedOps(rows, order))
  {
    if order != [] {
      var rest := order[1..];
      assert forall i :: 0 <= i < |rest| ==> rest[i] == order[i + 1];
      SeedOpsOnePerRow(rows, rest);
      SeedOpsAt(rows, rest);
      var tail, all := SeedOps(rows, rest), SeedOps(rows, order);
      if order[0] in rows {
        var seed := RowToSeedOp(rows[order[0]]);
        assert all == [seed] + tail;
        forall i, j | 0 <= i < j < |all|
          ensures all[i].At() != all[j].At()
        {
          assert all[j] == tail[j - 1] && tail[j - 1] in tail;
          if i > 0 {
            assert all[i] == tail[i - 1];
          }
        }
      } else {
        assert all == tail;
      }
    }
  }

  /** Applying a state frame moves the mirror as `Seen` says and only ever extends the queue. */
  lemma ApplyStateKeeps(d: Doc, frame: Frame, order: seq<Key>, now: seq<int>)
    requires frame.StateFrame? && QueueOk(d)
    requires forall k :: k in d.authoritative ==> d.authoritative[k].At() == k
    requires Enumerates(order, d.authoritative.Keys)
    ensures var e := Handle(d, frame, order, now);
            QueueOk(e) && Extends(d, e) && MirrorOf(e) == Seen(MirrorOf(d), frame)
  {
    var seen := d.(serial := frame.serial, gcFloor := frame.gcFloor, generation := d.generation + 1);
    var merged := seen.(authoritative := d.authoritative + frame.rows);
    if frame.full {
      if frame.serial < d.serial {
        SeedOpsOnePerRow(d.authoritative, order);
        EnqueueKeeps(merged, SeedOps(d.authoritative, order), now);
      } else {
        var missing := Missing(d.authoritative, frame.rows);
        SeedOpsOnePerRow(missing, order);
        EnqueueKeeps(seen.(authoritative := frame.rows), SeedOps(missing, order), now);
      }
    }
  }

  /** Every queued batch is still queued, whatever its flag. */
  ghost predicate StillQueued(d: Doc, e: Doc) {
    forall x: Written :: Queued(d.pending, x) ==> Queued(e.pending, x)
  }

  lemma AcksOkExtends(c: nat, d: Doc, e: Doc, down: seq<Frame>, handled: set<(nat, PushFrame)>)
    requires AcksOk(c, d, down, handled) && MirrorOf(e) == MirrorOf(d) && StillQueued(d, e)
    ensures AcksOk(c, e, down, handled)
  {
    forall j | 0 <= j < |down| && down[j].AckFrame?
      ensures AckOk(c, e, down, j, handled)
    {
      assert AckOk(c, d, down, j, handled);
      var m := SeenAll(MirrorOf(d), down[..j]);
      var x: Written :| x.id == down[j].batch && Reflected(c, d, m, x, down[j].serial, handled);
      assert Reflected(c, e, m, x, down[j].serial, handled);
    }
  }

  lemma UpsOkExtends(d: Doc, e: Doc, up: seq<Up>)
    requires UpsOk(d.pending, up) && StillQueued(d, e)
    ensures UpsOk(e.pending, up)
  {
    forall u | u in up
      ensures exists x: Written :: Carries(e.pending, x, u)
    {
      var x: Written :| Carries(d.pending, x, u);
      assert Carries(e.pending, x, u);
    }
  }

  lemma ExtendsQueue(d: Doc, e: Doc)
    requires Extends(d, e)
    ensures StillQueued(d, e) && forall transit :: InFlight(d.pending, transit) ==> InFlight(e.pending, transit)
  {
    var more := e.pending[|d.pending|..];
    assert e.pending == d.pending + more;
    forall x: Written | Queued(d.pending, x)
      ensures Queued(e.pending, x)
    {
      var i :| 0 <= i < |d.pending| && d.pending[i].id == x.id && d.pending[i].ops == x.ops;
      assert e.pending[i] == d.pending[i];
    }
    forall transit | InFlight(d.pending, transit)
      ensures InFlight(e.pending, transit)
    {
      MatchesQueued(d.pending, transit, more, Refusal());
    }
  }

  lemma ExtendKeepsLink(c: nat, d: Doc, e: Doc, link: Link, t: Table, handled: set<(nat, PushFrame)>)
    requires LinkOk(c, d, link, t, handled) && Extends(d, e) && MirrorOf(e) == MirrorOf(d)
    ensures LinkOk(c, e, link, t, handled)
  {
    ExtendsQueue(d, e);
    if link.Link? && link.ready {
      AcksOkExtends(c, d, e, link.down, handled);
      UpsOkExtends(d, e, link.up);
    }
  }

  lemma WriteKeeps(c: nat, r: Replica, t: Table, handled: set<(nat, PushFrame)>, ops: seq<Op>, now: seq<int>)
    requires ReplicaOk(c, r, t, handled) && LocalOps(ops)
    ensures ReplicaOk(c, WriteLocal(r, ops, now), t, handled)
  {
    EnqueueKeeps(r.doc, ops, now);
    var s := WriteLocal(r, ops, now);
    ExtendKeepsLink(c, r.doc, s.doc, r.link, t, handled);
    forall x | x in s.issued
      ensures Queued(s.doc.pending, x) || (c, FrameOf(x)) in handled
    {
      if x in r.issued && Queued(r.doc.pending, x) {
        var i :| 0 <= i < |r.doc.pending| && r.doc.pending[i].id == x.id && r.doc.pending[i].ops == x.ops;
        assert s.doc.pending[i] == r.doc.pending[i];
      }
    }
  }

  // ── pushing the queue ─────────────────────────────────────────────────────

  lemma {:induction false} PushedIds(batches: seq<Batch>)
    ensures UpIds(Pushes(batches)) == Ids(batches)
  {
    if batches != [] {
      PushedIds(batches[1..]);
      assert Pushes(batches)[1..] == Pushes(batches[1..]);
      assert Ids(batches) == [batches[0].id] + Ids(batches[1..]);
    }
  }

  lemma MarkedKeeps(d: Doc, flag: bool)
    requires QueueOk(d)
    ensures QueueOk(d.(pending := Marked(d.pending, flag))) && StillQueued(d, d.(pending := Marked(d.pending, flag)))
  {
    var pending := Marked(d.pending, flag);
    forall x: Written | Queued(d.pending, x)
      ensures Queued(pending, x)
    {
      var i :| 0 <= i < |d.pending| && d.pending[i].id == x.id && d.pending[i].ops == x.ops;
      assert pending[i].id == x.id && pending[i].ops == x.ops;
    }
  }

  lemma {:induction false} PushableAre(pending: seq<Batch>, b: Batch)
    requires b in Pushable(pending)
    ensures Queued(pending, Written(b.id, b.ops))
  {
    if !pending[0].inFlight && b == Pushable(pending)[0] {
      assert pending[0].id == b.id;
    } else {
      PushableAre(pending[1..], b);
      var i :| 0 <= i < |pending[1..]| && pending[1..][i].id == b.id && pending[1..][i].ops == b.ops;
      assert pending[i + 1].id == b.id && pending[i + 1].ops == b.ops;
    }
  }

  lemma PushedUps(pending: seq<Batch>)
    ensures UpsOk(pending, Pushes(Pushable(pending)))
  {
    var batches := Pushable(pending);
    forall u | u in Pushes(batches)
      ensures exists x: Written :: Carries(pending, x, u)
    {
      var i :| 0 <= i < |batches| && Pushes(batches)[i] == u;
      PushableAre(pending, batches[i]);
      ToFrameOps(batches[i]);
      assert Carries(pending, Written(batches[i].id, batches[i].ops), u);
    }
  }

  lemma PushPendingKeeps(c: nat, r: Replica, t: Table, handled: set<(nat, PushFrame)>)
    requires ReplicaOk(c, r, t, handled)
    requires r.link.Link? && r.link.ready && r.link.synced
    ensures ReplicaOk(c, PushPending(r), t, handled)
  {
    var d, e, up, down := r.doc, PushPending(r).doc, r.link.up, r.link.down;
    var out := Pushes(Pushable(d.pending));
    MarkedKeeps(d, true);
    AcksOkExtends(c, d, e, down, handled);
    PushedUps(d.pending);
    UpsOkExtends(d, e, up);
    UpsOkExtends(d, e, out);
    assert UpsOk(e.pending, up + out);
    MatchesPushed(d.pending, AckIds(down) + UpIds(up), Refusal());
    PushedIds(Pushable(d.pending));
    UpIdsConcat(up, out);
    Regroup(AckIds(down), UpIds(up), UpIds(out));
  }

  lemma DisconnectKeeps(c: nat, r: Replica, t: Table, handled: set<(nat, PushFrame)>)
    requires ReplicaOk(c, r, t, handled)
    ensures ReplicaOk(c, Disconnect(r), t, handled)
  {
    MarkedKeeps(r.doc, false);
    MatchesNone(Marked(r.doc.pending, false), Refusal());
    if r.link.Link? && r.link.ready {
      assert r.link.down[..0] == [];
      assert Good(SeenAll(MirrorOf(r.doc), r.link.down[..0]), t);
    }
  }

  lemma DialKeeps(c: nat, r: Replica, t: Table, handled: set<(nat, PushFrame)>)
    requires ReplicaOk(c, r, t, handled) && r.link.NoLink?
    ensures ReplicaOk(c, r.(link := Link([Hello(HelloCursor(r.doc))], [], false, false)), t, handled)
  {
  }

  // ── delivering a frame ────────────────────────────────────────────────────

  lemma {:induction false} RetainHas(pending: seq<Batch>, batch: string, x: Written)
    requires Queued(pending, x) && x.id != batch
    ensures Queued(Retain(pending, batch), x)
  {
    var i :| 0 <= i < |pending| && pending[i].id == x.id && pending[i].ops == x.ops;
    var kept := Retain(pending, batch);
    if i == 0 {
      assert kept[0] == pending[0];
    } else {
      assert pending[1..][i - 1] == pending[i];
      RetainHas(pending[1..], batch, x);
      var j :| 0 <= j < |Retain(pending[1..], batch)| && Retain(pending[1..], batch)[j].id == x.id
               && Retain(pending[1..], batch)[j].ops == x.ops;
      assert kept[|kept| - |Retain(pending[1..], batch)| + j] == Retain(pending[1..], batch)[j];
    }
  }

  lemma PopPrefix(m: Mirror, down: seq<Frame>, i: nat)
    requires down != [] && i < |down|
    ensures SeenAll(Seen(m, down[0]), down[1..][..i]) == SeenAll(m, down[..i + 1])
  {
    var whole := down[..i + 1];
    assert whole[0] == down[0] && whole[1..] == down[1..][..i];
  }

  lemma PopPrefixes(m: Mirror, down: seq<Frame>, t: Table)
    requires down != [] && PrefixesGood(m, down, t)
    ensures PrefixesGood(Seen(m, down[0]), down[1..], t)
  {
    forall i | 0 <= i <= |down[1..]|
      ensures Good(SeenAll(Seen(m, down[0]), down[1..][..i]), t)
    {
      PopPrefix(m, down, i);
      assert Good(SeenAll(m, down[..i + 1]), t);
    }
  }

  lemma PopAcks(c: nat, d: Doc, e: Doc, down: seq<Frame>, handled: set<(nat, PushFrame)>)
    requires down != [] && AcksOk(c, d, down, handled) && MirrorOf(e) == Seen(MirrorOf(d), down[0])
    requires forall x: Written :: Queued(d.pending, x) && x.id in AckIds(down[1..]) ==> Queued(e.pending, x)
    ensures AcksOk(c, e, down[1..], handled)
  {
    var rest := down[1..];
    forall j | 0 <= j < |rest| && rest[j].AckFrame?
      ensures AckOk(c, e, rest, j, handled)
    {
      assert rest[j] == down[j + 1];
      assert AckOk(c, d, down, j + 1, handled);
      PopPrefix(MirrorOf(d), down, j);
      AckIdsHas(rest, j);
      var m := SeenAll(MirrorOf(d), down[..j + 1]);
      var x: Written :| x.id == rest[j].batch && Reflected(c, d, m, x, rest[j].serial, handled);
      assert Reflected(c, e, m, x, rest[j].serial, handled);
    }
  }

  lemma PopUps(d: Doc, e: Doc, up: seq<Up>)
    requires UpsOk(d.pending, up)
    requires forall x: Written :: Queued(d.pending, x) && x.id in UpIds(up) ==> Queued(e.pending, x)
    ensures UpsOk(e.pending, up)
  {
    forall u | u in up
      ensures exists x: Written :: Carries(e.pending, x, u)
    {
      var x: Written :| Carries(d.pending, x, u);
      UpIdsHas(up, u);
      assert Carries(e.pending, x, u);
    }
  }

  /** What handling the first frame leaves of the queue: every batch still in transit. */
  ghost predicate QueueFollows(d: Doc, e: Doc, frame: Frame, rest: seq<string>) {
    && QueueOk(e) && MirrorOf(e) == Seen(MirrorOf(d), frame) && InFlight(e.pending, rest)
    && forall x: Written :: Queued(d.pending, x) && x.id in rest ==> Queued(e.pending, x)
  }

  lemma PopLink(c: nat, d: Doc, e: Doc, link: Link, t: Table, handled: set<(nat, PushFrame)>)
    requires link.Link? && link.ready && link.down != [] && LinkOk(c, d, link, t, handled)
    requires QueueFollows(d, e, link.down[0], AckIds(link.down[1..]) + UpIds(link.up))
    ensures LinkOk(c, e, link.(down := link.down[1..], synced := true), t, handled)
  {
    PopPrefixes(MirrorOf(d), link.down, t);
    PopAcks(c, d, e, link.down, handled);
    PopUps(d, e, link.up);
  }

  /** The batch an ack names was accepted and is already reflected. */
  lemma AckReflected(c: nat, d: Doc, down: seq<Frame>, p: nat, handled: set<(nat, PushFrame)>)
    requires QueueOk(d) && down != [] && down[0].AckFrame? && AcksOk(c, d, down, handled)
    requires p < |d.pending| && d.pending[p].id == down[0].batch
    ensures (c, ToFrame(d.pending[p])) in handled && SettledAll(d.authoritative, d.pending[p].ops) && down[0].serial <= d.serial
  {
    assert AckOk(c, d, down, 0, handled);
    assert down[..0] == [];
    var x: Written :| x.id == down[0].batch && Reflected(c, d, SeenAll(MirrorOf(d), down[..0]), x, down[0].serial, handled);
    QueuedIsOk(d, x);
    assert d.pending[p] in d.pending;
    ToFrameOps(d.pending[p]);
  }

  /** Every batch before it in the queue is one the room refuses. */
  lemma AckNames(d: Doc, down: seq<Frame>, up: seq<Up>) returns (p: nat)
    requires QueueOk(d) && down != [] && down[0].AckFrame? && InFlight(d.pending, AckIds(down) + UpIds(up))
    ensures p < |d.pending| && d.pending[p].id == down[0].batch
    ensures forall i :: 0 <= i < p ==> Refused(d.pending[i])
    ensures Retain(d.pending, down[0].batch) == d.pending[..p] + d.pending[p + 1..]
    ensures InFlight(Retain(d.pending, down[0].batch), AckIds(down[1..]) + UpIds(up))
    ensures down[0].batch !in AckIds(down[1..]) + UpIds(up)
  {
    var transit := AckIds(down) + UpIds(up);
    assert AckIds(down) == [down[0].batch] + AckIds(down[1..]);
    assert transit[0] == down[0].batch && transit[1..] == AckIds(down[1..]) + UpIds(up);
    p := MatchesHead(d.pending, transit, Refusal());
    RetainAllBut(d.pending, p);
    MatchesOnly(d.pending[p + 1..], transit[1..], down[0].batch, Refusal());
  }

  /** Whatever leaves the queue with an ack was accepted. */
  lemma AckedWasHandled(c: nat, r: Replica, batch: string, p: nat, handled: set<(nat, PushFrame)>)
    requires QueueOk(r.doc) && NothingLost(c, r, handled)
    requires p < |r.doc.pending| && r.doc.pending[p].id == batch && (c, ToFrame(r.doc.pending[p])) in handled
    ensures forall x: Written :: Queued(r.doc.pending, x) && x.id != batch ==> Queued(Retain(r.doc.pending, batch), x)
    ensures NothingLost(c, r.(doc := r.doc.(pending := Retain(r.doc.pending, batch))), handled)
  {
    forall x: Written | Queued(r.doc.pending, x)
      ensures x.id != batch ==> Queued(Retain(r.doc.pending, batch), x)
      ensures x.id == batch ==> (c, FrameOf(x)) in handled
    {
      if x.id != batch {
        RetainHas(r.doc.pending, batch, x);
      } else {
        QueuedIsOk(r.doc, x);
        assert r.doc.pending[p] in r.doc.pending;
        ToFrameOps(r.doc.pending[p]);
      }
    }
  }

  lemma RetainKeepsQueue(d: Doc, p: nat)
    requires QueueOk(d) && p < |d.pending|
    ensures QueueOk(d.(pending := d.pending[..p] + d.pending[p + 1..]))
  {
    var kept := d.pending[..p] + d.pending[p + 1..];
    assert forall i :: 0 <= i < |kept| ==> kept[i] == d.pending[if i < p then i else i + 1];
  }

  lemma AckFollows(c: nat, r: Replica, t: Table, handled: set<(nat, PushFrame)>)
    requires r.link.Link? && r.link.ready && r.link.down != [] && r.link.down[0].AckFrame?
    requires ReplicaOk(c, r, t, handled)
    ensures var frame := r.link.down[0];
            var e := AckBatch(r.doc, frame.batch, frame.serial);
            QueueFollows(r.doc, e, frame, AckIds(r.link.down[1..]) + UpIds(r.link.up)) && NothingLost(c, r.(doc := e), handled)
  {
    var d, down := r.doc, r.link.down;
    var p := AckNames(d, down, r.link.up);
    AckReflected(c, d, down, p, handled);
    AckedWasHandled(c, r, down[0].batch, p, handled);
    RetainKeepsQueue(d, p);
  }

  lemma OtherFollows(c: nat, r: Replica, e: Doc, t: Table, handled: set<(nat, PushFrame)>)
    requires r.link.Link? && r.link.ready && r.link.down != [] && !r.link.down[0].AckFrame?
    requires ReplicaOk(c, r, t, handled)
    requires QueueOk(e) && MirrorOf(e) == Seen(MirrorOf(r.doc), r.link.down[0]) && Extends(r.doc, e)
    ensures QueueFollows(r.doc, e, r.link.down[0], AckIds(r.link.down[1..]) + UpIds(r.link.up))
    ensures NothingLost(c, r.(doc := e), handled)
  {
    ExtendsQueue(r.doc, e);
    assert AckIds(r.link.down) == AckIds(r.link.down[1..]);
  }

  /** What handling the first frame does to the document, whichever frame it is. */
  lemma HandleKeeps(c: nat, r: Replica, order: seq<Key>, now: seq<int>, t: Table, handled: set<(nat, PushFrame)>)
    requires r.link.Link? && r.link.ready && r.link.down != []
    requires ReplicaOk(c, r, t, handled)
    requires Enumerates(order, r.doc.authoritative.Keys)
    ensures var frame := r.link.down[0];
            var e := Handle(r.doc, frame, order, now);
            && QueueFollows(r.doc, e, frame, AckIds(r.link.down[1..]) + UpIds(r.link.up))
            && NothingLost(c, r.(doc := e), handled)
  {
    var d, down := r.doc, r.link.down;
    var frame := down[0];
    if frame.AckFrame? {
      AckFollows(c, r, t, handled);
    } else {
      if frame.StateFrame? {
        assert down[..0] == [] && Good(SeenAll(MirrorOf(d), down[..0]), t);
        ApplyStateKeeps(d, frame, order, now);
      }
      OtherFollows(c, r, Handle(d, frame, order, now), t, handled);
    }
  }

  lemma DeliverKeeps(c: nat, r: Replica, order: seq<Key>, now: seq<int>, t: Table, handled: set<(nat, PushFrame)>)
    requires r.link.Link? && r.link.down != [] && ReplicaOk(c, r, t, handled)
    requires Enumerates(order, r.doc.authoritative.Keys)
    ensures ReplicaOk(c, DeliverTo(r, order, now), t, handled)
  {
    HandleKeeps(c, r, order, now, t, handled);
    var e := Handle(r.doc, r.link.down[0], order, now);
    PopLink(c, r.doc, e, r.link, t, handled);
    if !r.link.synced {
      PushPendingKeeps(c, Replica(e, r.link.(down := r.link.down[1..], synced := true), r.issued), t, handled);
    }
  }

  // ── every step keeps the invariant ────────────────────────────────────────

  lemma ServeKeeps(w: World, c: nat, frame: PushFrame)
    requires Inv(w) && c in w.replicas && w.replicas[c].link.Link?
    requires w.replicas[c].link.up != [] && w.replicas[c].link.up[0] == PushUp(frame)
    ensures Inv(ServePush(w, c, frame))
  {
    PushEffect(w.table, frame);
    var p := Push(w.table, frame);
    var after := ServePush(w, c, frame);
    assert ReplicaOk(c, w.replicas[c], w.table, w.handled);
    forall d | d in after.replicas
      ensures ReplicaOk(d, after.replicas[d], p.table, after.handled)
    {
      assert ReplicaOk(d, w.replicas[d], w.table, w.handled);
      HearKeeps(d, w.replicas[d], w.table, frame, w.handled);
      var heard := Hear(w.replicas[d], Broadcast(w.table, p));
      if d != c {
        ReplicaOkMonotone(d, heard, p.table, w.handled, after.handled);
      } else if p.outcome.Accepted? {
        AckKeeps(d, heard, w.table, p.table, w.handled);
      } else {
        RefusalKeeps(d, heard, p.outcome.code, w.table, w.handled);
      }
    }
  }

  lemma CollectKeeps(w: World, horizon: Clock)
    requires Inv(w)
    ensures Inv(Do(w, Collect(horizon)))
  {
    PurgeEffect(w.table, horizon);
    forall c | c in w.replicas
      ensures ReplicaOk(c, w.replicas[c], Purge(w.table, horizon), w.handled)
    {
      PurgeKeeps(c, w.replicas[c], w.table, horizon, w.handled);
    }
  }

  lemma OneReplica(w: World, c: nat, r: Replica)
    requires Inv(w) && ReplicaOk(c, r, w.table, w.handled)
    ensures Inv(w.(replicas := w.replicas[c := r]))
  {
  }

  lemma StepKeeps(w: World, step: Step)
    requires Inv(w)
    ensures Inv(Do(w, step))
  {
    match step
    case Collect(horizon) => CollectKeeps(w, horizon);
    case TakeUp(c) =>
      if c in w.replicas && w.replicas[c].link.Link? && w.replicas[c].link.up != [] {
        match w.replicas[c].link.up[0]
        case Hello(cursor) =>
          GreetKeeps(c, w.replicas[c], w.table, w.handled);
          OneReplica(w, c, Greet(w.replicas[c], w.table, cursor));
        case PushUp(frame) =>
          if frame.size > MAX_FRAME_BYTES {
            DisconnectKeeps(c, w.replicas[c], w.table, w.handled);
            OneReplica(w, c, Disconnect(w.replicas[c]));
          } else {
            ServeKeeps(w, c, frame);
          }
      }
    case _ => LocalStepKeeps(w, step);
  }

  lemma LocalStepKeeps(w: World, step: Step)
    requires Inv(w) && !step.Collect? && !step.TakeUp?
    ensures Inv(Do(w, step))
  {
    if step.c in w.replicas {
      var r := w.replicas[step.c];
      match step
      case Dial(c) =>
        if r.link.NoLink? { DialKeeps(c, r, w.table, w.handled); }
      case Deliver(c, order, now) =>
        if r.link.Link? && r.link.down != [] && Enumerates(order, r.doc.authoritative.Keys) {
          DeliverKeeps(c, r, order, now, w.table, w.handled);
        }
      case Drop(c) => DisconnectKeeps(c, r, w.table, w.handled);
      case Write(c, ops, now) =>
        if LocalOps(ops) { WriteKeeps(c, r, w.table, w.handled, ops, now); }
      case Nudge(c) =>
        if r.link.Link? && r.link.synced { PushPendingKeeps(c, r, w.table, w.handled); }
    }
  }

  lemma StartIsOk(devices: map<nat, string>)
    ensures Inv(Start(devices))
  {
  }

  /** The invariant holds in every run: any replicas, any interleaving, any cut of any link. */
  lemma {:induction false} RunsKeepInv(devices: map<nat, string>, steps: seq<Step>)
    ensures Inv(Run(devices, steps))
    decreases |steps|
  {
    if steps == [] {
      StartIsOk(devices);
    } else {
      RunsKeepInv(devices, steps[..|steps| - 1]);
      StepKeeps(Run(devices, steps[..|steps| - 1]), steps[|steps| - 1]);
    }
  }

  // ── what every run guarantees ─────────────────────────────────────────────

  function Live(rows: map<Key, Row>): map<Key, Row> {
    map k | k in rows && !rows[k].deleted :: rows[k]
  }

  /**
   In every run each replica agrees with the server on every stored row up to its cursor and, once the
   cursor has reached the purge floor, shows no row the server has dropped.
   */
  lemma CursorAgreement(devices: map<nat, string>, steps: seq<Step>, c: nat)
    requires c in devices
    ensures var w := Run(devices, steps);
            c in w.replicas && Good(MirrorOf(w.replicas[c].doc), w.table)
  {
    RunsKeepInv(devices, steps);
    ReplicasStay(devices, steps, c);
    var w := Run(devices, steps);
    var r := w.replicas[c];
    assert ReplicaOk(c, r, w.table, w.handled);
    if r.link.Link? && r.link.ready {
      assert r.link.down[..0] == [];
      assert Good(SeenAll(MirrorOf(r.doc), r.link.down[..0]), w.table);
    }
  }

  lemma {:induction false} ReplicasStay(devices: map<nat, string>, steps: seq<Step>, c: nat)
    requires c in devices
    ensures c in Run(devices, steps).replicas && Run(devices, steps).replicas[c].doc.device == devices[c]
    decreases |steps|
  {
    if steps != [] {
      var was := Run(devices, steps[..|steps| - 1]);
      ReplicasStay(devices, steps[..|steps| - 1], c);
      var step := steps[|steps| - 1];
    }
  }

  /**
   In every run, whatever the server has queued for a connected replica leads it to exactly the live
   rows of the server.
   */
  lemma InFlightCompletes(devices: map<nat, string>, steps: seq<Step>, c: nat)
    requires var w := Run(devices, steps);
             c in w.replicas && w.replicas[c].link.Link? && w.replicas[c].link.ready
    ensures var w := Run(devices, steps);
            var r := w.replicas[c];
            var m := SeenAll(MirrorOf(r.doc), r.link.down);
            Live(m.rows) == Live(w.table.rows) && m.cursor == w.table.serial
  {
    RunsKeepInv(devices, steps);
    var w := Run(devices, steps);
    assert ReplicaOk(c, w.replicas[c], w.table, w.handled);
  }

  /** A replica with an empty queue and nothing in flight. */
  ghost predicate Quiet(r: Replica) {
    r.link.Link? && r.link.ready && r.link.down == [] && r.doc.pending == []
  }

  /** What a reader of the server's table would see. */
  function ServerView(t: Table, key: Key): Option<Row> {
    Get(Live(t.rows), key)
  }

  /** Convergence: in every run, a quiet replica reads exactly the server's live rows. */
  lemma QuietReplicasAgree(devices: map<nat, string>, steps: seq<Step>, c: nat, key: Key)
    requires var w := Run(devices, steps); c in w.replicas && Quiet(w.replicas[c])
    ensures var w := Run(devices, steps);
            Overlay(w.replicas[c].doc, key) == ServerView(w.table, key)
  {
    InFlightCompletes(devices, steps, c);
    var w := Run(devices, steps);
    var d := w.replicas[c].doc;
    assert OpsAt(PendingOps(d.pending), key) == [];
    assert Live(d.authoritative) == Live(w.table.rows);
    assert key in d.authoritative && !d.authoritative[key].deleted <==> key in Live(d.authoritative);
  }

  /**
   In every run an ack takes out of the queue just the batch it names and does not move the cursor. The
   batches queued before it, if there are any, are ones the room refuses; a row none of them writes reads
   the same before and after.
   */
  lemma AcksAreInvisible(devices: map<nat, string>, steps: seq<Step>, c: nat, key: Key) returns (p: nat)
    requires var w := Run(devices, steps);
             && c in w.replicas && w.replicas[c].link.Link? && w.replicas[c].link.down != []
             && w.replicas[c].link.down[0].AckFrame?
    ensures var d := Run(devices, steps).replicas[c].doc;
            var e := Handle(d, Run(devices, steps).replicas[c].link.down[0], [], []);
            && p < |d.pending| && d.pending[p].id == Run(devices, steps).replicas[c].link.down[0].batch
            && e.pending == d.pending[..p] + d.pending[p + 1..] && e.serial == d.serial
            && (forall i :: 0 <= i < p ==> Refused(d.pending[i]))
            && (OpsAt(PendingOps(d.pending[..p]), key) == [] ==> Overlay(e, key) == Overlay(d, key))
  {
    RunsKeepInv(devices, steps);
    var w := Run(devices, steps);
    var r := w.replicas[c];
    assert ReplicaOk(c, r, w.table, w.handled);
    p := AckNames(r.doc, r.link.down, r.link.up);
    AckReflected(c, r.doc, r.link.down, p, w.handled);
    if OpsAt(PendingOps(r.doc.pending[..p]), key) == [] {
      RetiringPastOthersIsInvisible(r.doc.authoritative, r.doc.pending, p, key);
    }
  }

  lemma RetiringPastOthersIsInvisible(rows: map<Key, Row>, pending: seq<Batch>, p: nat, key: Key)
    requires p < |pending| && OnePerRow(pending[p].ops) && SettledAll(rows, pending[p].ops)
    requires OpsAt(PendingOps(pending[..p]), key) == []
    ensures Replayed(rows, pending[..p] + pending[p + 1..], key) == Replayed(rows, pending, key)
  {
    var before, after := pending[..p], pending[p + 1..];
    assert pending == before + ([pending[p]] + after);
    ReplayedConcat(rows, before, [pending[p]] + after, key);
    ReplayedConcat(rows, before, after, key);
    RetiringTheHeadIsInvisible(rows, pending[p], after, key);
    ReplayedConcat(rows, [], [pending[p]] + after, key);
    ReplayedConcat(rows, [], after, key);
    assert [] + ([pending[p]] + after) == [pending[p]] + after && [] + after == after;
  }

  /**
   In every run, no local write is lost: its batch is still queued or the server accepted it. One that
   the room refuses is therefore queued for good.
   */
  lemma LocalWritesSurvive(devices: map<nat, string>, steps: seq<Step>, c: nat, x: Written)
    requires var w := Run(devices, steps); c in w.replicas && x in w.replicas[c].issued
    ensures var w := Run(devices, steps);
            && (Queued(w.replicas[c].doc.pending, x) || (c, FrameOf(x)) in w.handled)
            && (!ValidPush(FrameOf(x)) ==> Queued(w.replicas[c].doc.pending, x))
  {
    RunsKeepInv(devices, steps);
    var w := Run(devices, steps);
    assert ReplicaOk(c, w.replicas[c], w.table, w.handled);
  }
}
