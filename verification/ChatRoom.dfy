/**
 The two ends of the chat relay as objects: the room with its sockets (`edge/src/chat-room.ts`) and the
 sink that persists a document with its cursor (`crates/engine/src/chat2_host.rs`).
 */
module ChatRoom {
  import opened Prelude
  import opened ChatLog
  import opened ChatSync
  import opened ChatConservation

  /** Frames as they are on the wire. */
  datatype Wire =
    | WState(header: Head)
    | WRow(row: LogRow)
    | WRowsDone(head: nat)
    | WAck(batch: string, serial: nat)
    | WError(code: string, batch: string)

  function OnWire(f: Down): Wire {
    match f
    case State(h) => WState(h)
    case RowDown(row) => WRow(row)
    case RowsDone(head, _, _) => WRowsDone(head)
    case Ack(batch, serial) => WAck(batch, serial)
    case ErrorDown(code, batch) => WError(code, batch)
  }

  function AllOnWire(frames: seq<Down>): (out: seq<Wire>)
    ensures |out| == |frames|
    ensures forall i :: 0 <= i < |out| ==> out[i] == OnWire(frames[i])
  {
    seq(|frames|, i requires 0 <= i < |frames| => OnWire(frames[i]))
  }

  lemma WireConcat(a: seq<Down>, b: seq<Down>)
    ensures AllOnWire(a + b) == AllOnWire(a) + AllOnWire(b)
  {
  }

  lemma WireOne(f: Down)
    ensures AllOnWire([f]) == [OnWire(f)]
  {
  }

  /** The handlers below are the server's half of the step system, frame for frame: the sender's side. */
  lemma PushAnswersTheSender(w: World, c: string, batch: string, update: Update)
    requires c in w.clients && w.clients[c].up != [] && w.clients[c].up[0] == PushUp(batch, update)
    ensures AllOnWire(ServeUp(w, c).clients[c].down)
         == AllOnWire(w.clients[c].down) + [OnWire(PushReply(w.log, c, batch, update))]
  {
    ServedClient(w, c);
    WireConcat(w.clients[c].down, ReplyTo(w, c, PushUp(batch, update)));
    WireOne(PushReply(w.log, c, batch, update));
  }

  /** … and everyone else's. */
  lemma PushRelaysToOthers(w: World, c: string, batch: string, update: Update, d: string)
    requires c in w.clients && w.clients[c].up != [] && w.clients[c].up[0] == PushUp(batch, update)
    requires d in w.clients && d != c
    ensures AllOnWire(ServeUp(w, c).clients[d].down)
         == AllOnWire(w.clients[d].down) + if Ready(w.clients[d]) then AllOnWire(PushRelay(w.log, c, batch, update)) else []
  {
    var frames := PushRelay(w.log, c, batch, update);
    if Ready(w.clients[d]) {
      assert ServeUp(w, c).clients[d].down == w.clients[d].down + frames;
      WireConcat(w.clients[d].down, frames);
    }
  }

  datatype SocketId = SocketId(number: nat)

  class ChatRoomObject {
    const store: ChatStore
    var device: map<SocketId, string>
    var ready: set<SocketId>
    /** Everything sent on each socket, oldest first. */
    var sent: map<SocketId, seq<Wire>>

    ghost predicate Valid()
      reads this
    {
      ready <= sent.Keys && sent.Keys == device.Keys
    }

    constructor ()
      ensures Valid() && fresh(store) && store.Now() == EMPTY_LOG && sent == map[] && ready == {}
    {
      store := new ChatStore();
      device, ready, sent := map[], {}, map[];
    }

    method Accept(ws: SocketId, name: string)
      requires Valid() && ws !in sent
      modifies this
      ensures Valid() && ready == old(ready)
      ensures sent == old(sent)[ws := []] && device == old(device)[ws := name]
    {
      sent, device := sent[ws := []], device[ws := name];
    }

    method Send(ws: SocketId, frame: Wire)
      requires ws in sent
      modifies this`sent
      ensures sent == old(sent)[ws := old(sent)[ws] + [frame]]
    {
      sent := sent[ws := sent[ws] + [frame]];
    }

    method HandleHello(ws: SocketId, name: string)
      requires Valid() && ws in sent
      modifies this
      ensures Valid() && ready == old(ready) + {ws}
      ensures device == if name != "" then old(device)[ws := name] else old(device)
      ensures sent == old(sent)[ws := old(sent)[ws] + [WState(StateOf(store.Now()))]]
    {
      if name != "" {
        device := device[ws := name];
      }
      ready := ready + {ws};
      var present := store.checkpoint.Some?;
      Send(ws, WState(Head(store.head, if present then store.checkpoint.value.covered else 0, present,
                           if present then store.checkpoint.value.frontier else None)));
    }

    method HandleRowsReq(ws: SocketId, after: nat, excludeOwn: bool)
      requires Valid() && ws in sent
      modifies this`sent
      ensures Valid()
      ensures ws !in ready ==> sent == old(sent)[ws := old(sent)[ws] + [WError("hello_first", "")]]
      ensures ws in ready ==>
                sent == old(sent)[ws := old(sent)[ws] + AllOnWire(RowsAnswer(store.Now(), device[ws], after, excludeOwn, None))]
    {
      if ws !in ready {
        Send(ws, WError("hello_first", ""));
        return;
      }
      var rows := store.ReadAfter(after, if excludeOwn then device[ws] else "");
      ghost var frames := AllOnWire(RowFrames(rows));
      assert frames[..0] == [] && old(sent)[ws] + [] == old(sent)[ws];
      assert sent == old(sent)[ws := old(sent)[ws]];
      for i := 0 to |rows|
        invariant sent == old(sent)[ws := old(sent)[ws] + frames[..i]]
      {
        assert frames[..i + 1] == frames[..i] + [WRow(rows[i])];
        Regroup(old(sent)[ws], frames[..i], [WRow(rows[i])]);
        Send(ws, WRow(rows[i]));
      }
      assert frames[..|rows|] == frames;
      WireConcat(RowFrames(rows), [RowsDone(store.head, after, None)]);
      WireOne(RowsDone(store.head, after, None));
      Regroup(old(sent)[ws], frames, [WRowsDone(store.head)]);
      Send(ws, WRowsDone(store.head));
    }

    method HandlePush(ws: SocketId, batch: string, update: Update)
      requires Valid() && ws in sent
      modifies this`sent, store
      ensures Valid()
      ensures ws !in ready ==>
                store.Now() == old(store.Now()) && sent == old(sent)[ws := old(sent)[ws] + [WError("bad_push", batch)]]
      ensures ws in ready ==>
                && store.Now() == LogAfterPush(old(store.Now()), device[ws], batch, update)
                && sent.Keys == old(sent).Keys
                && forall s :: s in sent ==>
                     sent[s] == old(sent)[s]
                       + (if s != ws && s in ready then AllOnWire(PushRelay(old(store.Now()), device[ws], batch, update)) else [])
                       + (if s == ws then [OnWire(PushReply(old(store.Now()), device[ws], batch, update))] else [])
    {
      if ws !in ready || batch == "" || |batch| > 128 {
        Send(ws, WError("bad_push", batch));
        return;
      }
      var outcome := store.AppendRow(device[ws], batch, update);
      match outcome {
        case Refused(error) =>
          Send(ws, WError(error, batch));
        case Appended(serial, dup) =>
          if !dup {
            RelayToOthers(ws, WRow(LogRow(serial, device[ws], batch, update)));
          }
          Send(ws, WAck(batch, serial));
      }
    }

    /** Every other ready socket; the sender has its own bytes. */
    method RelayToOthers(ws: SocketId, frame: Wire)
      requires ready <= sent.Keys && ws in sent
      modifies this`sent
      ensures sent.Keys == old(sent).Keys
      ensures forall s :: s in sent ==> sent[s] == old(sent)[s] + if s != ws && s in ready then [frame] else []
    {
      var todo := ready - {ws};
      while todo != {}
        invariant todo <= ready - {ws} && sent.Keys == old(sent).Keys
        invariant forall s :: s in sent ==>
                    sent[s] == old(sent)[s] + if s != ws && s in ready && s !in todo then [frame] else []
        decreases todo
      {
        var s :| s in todo;
        Send(s, frame);
        todo := todo - {s};
      }
    }
  }

  // ── the sink ──────────────────────────────────────────────────────────────

  /** Where remote bytes land: a document, and what was last persisted with which cursor. */
  class ChatSink {
    var doc: set<OpId>
    var saved: (set<OpId>, nat)

    constructor ()
      ensures doc == {} && saved == ({}, 0)
    {
      doc, saved := {}, ({}, 0);
    }

    method PersistWithCursor(cursor: nat)
      modifies this`saved
      ensures saved == (doc, cursor)
    {
      saved := (doc, cursor);
    }

    /** The row whose number the cursor has just been given reaches the document, and both are persisted. */
    method ApplyRow(k: Client)
      requires doc == k.doc && saved == k.saved && k.landing.Some?
      modifies this
      ensures doc == ImportRow(k).doc && saved == ImportRow(k).saved
    {
      doc := doc + k.landing.value.update.ops;
      PersistWithCursor(k.cursor);
    }

    /** Importing the fetched checkpoint persists it under the number the state frame gave. */
    method ApplyCheckpoint(k: Client)
      requires doc == k.doc && saved == k.saved && k.phase.Fetching? && k.phase.got.Some?
      modifies this
      ensures doc == Import(k).doc && saved == Import(k).saved
    {
      doc := doc + k.phase.got.value.blob.ops;
      PersistWithCursor(k.phase.state.covered);
    }

    /** Only a frontier that decodes, is not empty and is included lets a checkpoint be skipped. */
    method Contains(frontier: Frontier) returns (contained: bool)
      ensures contained == ContainsFrontier(doc, frontier)
      ensures contained ==> frontier.Some? && frontier.value <= doc
    {
      if frontier.None? || frontier.value == {} {
        return false;
      }
      contained := frontier.value <= doc;
    }
  }
}
