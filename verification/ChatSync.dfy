/**
 The chat relay as a step system: one log, any number of clients, FIFO sockets that can be cut at any
 moment, checkpoints posted by the clients themselves and committed whenever they arrive
 (`edge/src/chat-room.ts`, `crates/sync/src/chat_client.rs`, `crates/engine/src/chat2_host.rs`).
 */
module ChatSync {
  import opened Prelude
  import opened ChatLog

  const MAX_GAP_REPAIRS: nat := 3

  /** The most a client queues: the room's limit less what the frame around the bytes may take. */
  const MAX_PUSH_BYTES: nat := 1024 * 1024 - 4096

  // ── frames ────────────────────────────────────────────────────────────────

  /** The state header; `present` is "checkpointSize is not zero". */
  datatype Head = Head(head: nat, covered: nat, present: bool, frontier: Frontier)

  datatype Up =
    | Hello
    | RowsReq(after: nat, excludeOwn: bool)
    | PushUp(batch: string, update: Update)

  /**
   `owed` is not on the wire: it records, for the theorems only, what the answer to a rows request is
   meant to complete, and is `None` when the floor had already passed the requested cursor.
   */
  datatype Down =
    | State(header: Head)
    | RowDown(row: LogRow)
    | RowsDone(head: nat, after: nat, owed: Option<set<OpId>>)
    | Ack(batch: string, serial: nat)
    | ErrorDown(code: string, batch: string)

  // ── the client ────────────────────────────────────────────────────────────

  datatype Phase =
    | Offline
    | Greeting
    | Fetching(state: Head, buffered: seq<Down>, got: Option<Checkpoint>)
    | Backfill
    | Steady

  datatype Pending = Pending(batch: string, update: Update)

  /** What a checkpoint capture reads first: the cursor. `landing` records, for the theorems only, the row then landing. */
  datatype Noted = Noted(cursor: nat, landing: Option<LogRow>)

  /** What it reads next: the document's snapshot. */
  datatype Draft = Draft(note: Noted, blob: Update)

  /**
   `cursor` is the number the client believes its document reaches; `raised` marks the stretch between
   raising it to a checkpoint's number and importing that checkpoint, and `landing` is the row whose
   number the cursor has walked to and whose bytes the document has yet to import. `notes` and `drafts`
   are the captures under way. `saved` is what the last sink call persisted. For the theorems only,
   `caught` is the head of the last complete backfill, `since` the head of the state frame this session
   began with, and `whole` whether a backfill of this session was complete.
   */
  datatype Client = Client(
    doc: set<OpId>,
    cursor: nat,
    raised: bool,
    landing: Option<LogRow>,
    notes: set<Noted>,
    drafts: set<Draft>,
    pending: seq<Pending>,
    resumed: bool,
    amnestied: bool,
    gap: bool,
    repairs: nat,
    phase: Phase,
    up: seq<Up>,
    down: seq<Down>,
    saved: (set<OpId>, nat),
    caught: nat,
    since: nat,
    whole: bool)

  function NewClient(): Client {
    Client({}, 0, false, None, {}, {}, [], false, false, false, 0, Offline, [], [], ({}, 0), 0, 0, false)
  }

  // ── catch-up planning ─────────────────────────────────────────────────────

  datatype Plan = RowsOnly(after: nat) | CheckpointThenRows(after: nat)

  /** The decision table. */
  function PlanCatchUp(cursor: nat, state: Head, contained: bool): Plan {
    var cursor := if cursor > state.head then 0 else cursor;
    if !state.present then RowsOnly(cursor)
    else if contained then RowsOnly(if cursor < state.covered then state.covered else cursor)
    else CheckpointThenRows(state.covered)
  }

  /** An unreadable or empty frontier proves nothing and forces the fetch. */
  function ContainsFrontier(doc: set<OpId>, frontier: Frontier): bool {
    frontier.Some? && frontier.value != {} && frontier.value <= doc
  }

  /** Once per client: a cursor above the checkpoint is taken back to it. */
  function Amnesty(c: Client, state: Head): Client {
    var floor := if state.present then state.covered else 0;
    if !c.amnestied && c.cursor > floor then c.(amnestied := true, cursor := floor) else c.(amnestied := true)
  }

  function Pushes(pending: seq<Pending>): (out: seq<Up>)
    ensures |out| == |pending|
    ensures forall i :: 0 <= i < |out| ==> out[i] == PushUp(pending[i].batch, pending[i].update)
  {
    seq(|pending|, i requires 0 <= i < |pending| => PushUp(pending[i].batch, pending[i].update))
  }

  /** The state frame decides the plan, raises the cursor to it, and asks for rows before any fetch. */
  function OnState(c: Client, state: Head): Client {
    var d := Amnesty(c, state);
    var contained := !state.present || ContainsFrontier(d.doc, state.frontier);
    var plan := PlanCatchUp(d.cursor, state, contained);
    d.(cursor := plan.after,
       raised := plan.CheckpointThenRows?,
       up := d.up + [RowsReq(plan.after, d.resumed)] + Pushes(d.pending),
       repairs := 0, since := state.head, whole := false,
       phase := if plan.CheckpointThenRows? then Fetching(state, [], None) else Backfill)
  }

  /** The contiguity rule: the cursor walks one row at a time and never jumps a gap. */
  function Walk(c: Client, serial: nat): Client {
    if serial > c.cursor + 1 then c.(gap := true)
    else c.(cursor := if c.cursor < serial then serial else c.cursor)
  }

  function DropBatch(pending: seq<Pending>, batch: string): seq<Pending> {
    if pending == [] then []
    else (if pending[0].batch != batch then [pending[0]] else []) + DropBatch(pending[1..], batch)
  }

  predicate Permanent(code: string) {
    code == "too_large" || code == "empty" || code == "bad_push"
  }

  function Save(c: Client): Client {
    c.(saved := (c.doc, c.cursor))
  }

  /** A row only moves the cursor here; its bytes reach the document in `ImportRow`. */
  function HandleFrame(c: Client, frame: Down): Client {
    match frame
    case RowDown(row) => Walk(c, row.serial).(landing := Some(row))
    case Ack(batch, serial) => var d := Walk(c, serial); Save(d.(pending := DropBatch(d.pending, batch)))
    case ErrorDown(code, batch) => if Permanent(code) && batch != "" then c.(pending := DropBatch(c.pending, batch)) else c
    case State(_) => c
    case RowsDone(_, _, _) => c
  }

  function Hangup(c: Client): Client {
    c.(phase := Offline, up := [], down := [])
  }

  /** A flagged gap asks for the rows again, three times per session, then hangs up. */
  function RepairGap(c: Client): Client {
    if !c.gap then c
    else if c.repairs + 1 > MAX_GAP_REPAIRS then Hangup(c.(gap := false))
    else c.(gap := false, repairs := c.repairs + 1, up := c.up + [RowsReq(c.cursor, false)])
  }

  /** The sink imports the row and persists the document with the cursor the row was given. */
  function ImportRow(c: Client): Client
    requires c.landing.Some?
  {
    var d := Save(c.(doc := c.doc + c.landing.value.update.ops, landing := None));
    if d.phase.Steady? then RepairGap(d) else d
  }

  function OnRowsDone(c: Client, frame: Down): Client
    requires frame.RowsDone?
  {
    var d := if frame.owed.Some? then c.(caught := frame.head, whole := true) else c;
    if d.phase.Backfill? then RepairGap(d.(resumed := true, phase := Steady)) else d
  }

  /** Take the next frame: skipped before the state, set aside during a fetch, handled afterwards. */
  function Receive(c: Client): Client
    requires c.down != []
  {
    var frame := c.down[0];
    var d := c.(down := c.down[1..]);
    match c.phase
    case Offline => d
    case Greeting => if frame.State? then OnState(d, frame.header) else d
    case Fetching(state, buffered, got) => d.(phase := Fetching(state, buffered + [frame], got))
    case Backfill => if frame.RowsDone? then OnRowsDone(d, frame) else HandleFrame(d, frame)
    case Steady =>
      if frame.RowsDone? then OnRowsDone(d, frame)
      else if frame.RowDown? then HandleFrame(d, frame)
      else RepairGap(HandleFrame(d, frame))
  }

  /** The checkpoint is imported and persisted, then the frames set aside are handled before any other. */
  function Import(c: Client): Client
    requires c.phase.Fetching? && c.phase.got.Some?
  {
    var doc := c.doc + c.phase.got.value.blob.ops;
    var covered := c.phase.state.covered;
    c.(doc := doc, saved := (doc, covered), raised := false,
       cursor := if c.cursor < covered then covered else c.cursor,
       down := c.phase.buffered + c.down, phase := Backfill)
  }

  // ── the world ─────────────────────────────────────────────────────────────

  datatype Post = Post(covered: nat, frontier: Frontier, blob: Update, landing: Option<LogRow>)

  /** `accepted` and `issued` record, for the theorems only, every accepted row and every batch written. */
  datatype World = World(
    log: Log,
    clients: map<string, Client>,
    posts: set<Post>,
    accepted: seq<LogRow>,
    issued: map<string, (string, Update)>)

  function Start(devices: set<string>): World {
    World(EMPTY_LOG, map d | d in devices :: NewClient(), {}, [], map[])
  }

  /**
   A client's session runs `Dial` to `Nudge`, with `Land` finishing what `Deliver` began on a row; writes
   and captures run beside it. A capture is three steps, each of which others may come between: `Note`
   reads the cursor, `Export` the document, and `Capture` the frontier. `SeedRoom` posts a first
   checkpoint whose frontier may be unreadable or empty, as some rooms have.
   */
  datatype Step =
    | Write(c: string, batch: string, update: Update)
    | Dial(c: string)
    | Serve(c: string)
    | Deliver(c: string)
    | Land(c: string)
    | Fetch(c: string)
    | ImportFetched(c: string)
    | Cut(c: string)
    | Nudge(c: string)
    | Note(c: string)
    | Export(c: string, note: Noted, size: nat)
    | Capture(c: string, draft: Draft)
    | SeedRoom(frontier: Frontier, blob: Update)
    | CommitPost(post: Post)

  /** The steps that concern one client alone. While a row is landing its session does nothing else. */
  function ClientStep(k: Client, step: Step): Client {
    match step
    case Dial(_) => if k.phase.Offline? then k.(phase := Greeting, up := [Hello], down := []) else k
    case Deliver(_) => if k.down != [] && k.landing.None? then Receive(k) else k
    case Land(_) => if k.landing.Some? then ImportRow(k) else k
    case ImportFetched(_) => if k.phase.Fetching? && k.phase.got.Some? then Import(k) else k
    case Cut(_) => if k.landing.None? then Hangup(k) else k
    case Nudge(_) => if k.phase.Steady? && k.landing.None? then k.(up := k.up + Pushes(k.pending)) else k
    case Note(_) => k.(notes := k.notes + {Noted(k.cursor, k.landing)})
    case Export(_, note, size) => if note in k.notes then k.(drafts := k.drafts + {Draft(note, Update(k.doc, size))}) else k
    case _ => k
  }

  /** An update too long to push is not queued: it reaches others with the next checkpoint only. */
  function Enqueue(k: Client, p: Pending): Client {
    if p.update.size > MAX_PUSH_BYTES then k else k.(pending := k.pending + [p])
  }

  function StateOf(log: Log): Head {
    if log.checkpoint.Some? then Head(log.head, log.checkpoint.value.covered, true, log.checkpoint.value.frontier)
    else Head(log.head, 0, false, None)
  }

  function RowFrames(rows: seq<LogRow>): (out: seq<Down>)
    ensures |out| == |rows|
    ensures forall i :: 0 <= i < |out| ==> out[i] == RowDown(rows[i])
  {
    seq(|rows|, i requires 0 <= i < |rows| => RowDown(rows[i]))
  }

  /** Every operation accepted after row `after`. */
  ghost function OpsFrom(accepted: seq<LogRow>, after: nat): set<OpId> {
    set i, op | after <= i < |accepted| && op in accepted[i].update.ops :: op
  }

  function RowsAnswer(log: Log, device: string, after: nat, excludeOwn: bool, owed: Option<set<OpId>>): seq<Down> {
    RowFrames(RowsAfter(log.rows, after, if excludeOwn then device else "")) + [RowsDone(log.head, after, owed)]
  }

  ghost function RowsReply(w: World, c: string, after: nat, excludeOwn: bool): seq<Down> {
    RowsAnswer(w.log, c, after, excludeOwn, if w.log.floor <= after then Some(OpsFrom(w.accepted, after)) else None)
  }

  predicate Ready(c: Client) {
    !c.phase.Offline? && (c.up == [] || !c.up[0].Hello?)
  }

  /** Every other socket whose hello has been handled hears a new row. */
  function Relay(clients: map<string, Client>, sender: string, frames: seq<Down>): map<string, Client> {
    map d | d in clients :: if d != sender && Ready(clients[d]) then clients[d].(down := clients[d].down + frames) else clients[d]
  }

  predicate BadName(batch: string) {
    batch == "" || |batch| > 128
  }

  /** What the sender of a push hears, … */
  function PushReply(log: Log, device: string, batch: string, update: Update): Down {
    if BadName(batch) then ErrorDown("bad_push", batch)
    else
      match Append(log, device, batch, update).outcome
      case Refused(error) => ErrorDown(error, batch)
      case Appended(serial, _) => Ack(batch, serial)
  }

  /** … what everyone else hears, … */
  function PushRelay(log: Log, device: string, batch: string, update: Update): seq<Down> {
    if BadName(batch) then []
    else
      match Append(log, device, batch, update).outcome
      case Refused(_) => []
      case Appended(serial, dup) => if dup then [] else [RowDown(LogRow(serial, device, batch, update))]
  }

  /** … and what is stored. */
  function LogAfterPush(log: Log, device: string, batch: string, update: Update): Log {
    if BadName(batch) then log else Append(log, device, batch, update).log
  }

  ghost function AcceptedAfterPush(log: Log, accepted: seq<LogRow>, device: string, batch: string, update: Update): seq<LogRow> {
    if BadName(batch) then accepted else AcceptedAfter(log, accepted, device, batch, update)
  }

  ghost function ServePush(w: World, c: string, batch: string, update: Update): World
    requires c in w.clients && w.clients[c].up != []
  {
    var me := w.clients[c];
    var heard := Relay(w.clients, c, PushRelay(w.log, c, batch, update));
    w.(log := LogAfterPush(w.log, c, batch, update),
       accepted := AcceptedAfterPush(w.log, w.accepted, c, batch, update),
       clients := heard[c := me.(up := me.up[1..], down := me.down + [PushReply(w.log, c, batch, update)])])
  }

  ghost function ServeUp(w: World, c: string): World
    requires c in w.clients && w.clients[c].up != []
  {
    var me := w.clients[c].(up := w.clients[c].up[1..]);
    match w.clients[c].up[0]
    case Hello => w.(clients := w.clients[c := me.(down := me.down + [State(StateOf(w.log))])])
    case RowsReq(after, excludeOwn) => w.(clients := w.clients[c := me.(down := me.down + RowsReply(w, c, after, excludeOwn))])
    case PushUp(batch, update) => ServePush(w, c, batch, update)
  }

  ghost function Do(w: World, step: Step): World {
    match step
    case Write(c, batch, update) =>
      if c in w.clients && batch !in w.issued then
        var me := w.clients[c];
        w.(issued := w.issued[batch := (c, update)],
           clients := w.clients[c := Enqueue(me.(doc := me.doc + update.ops), Pending(batch, update))])
      else w
    case Serve(c) =>
      if c in w.clients && !w.clients[c].phase.Offline? && w.clients[c].up != [] then ServeUp(w, c) else w
    case Fetch(c) =>
      if c in w.clients && w.clients[c].phase.Fetching? then
        var me := w.clients[c];
        w.(clients := w.clients[c := if w.log.checkpoint.Some? then me.(phase := me.phase.(got := w.log.checkpoint)) else Hangup(me)])
      else w
    case Capture(c, draft) =>
      if c in w.clients && draft in w.clients[c].drafts then
        w.(posts := w.posts + {Post(draft.note.cursor, Some(w.clients[c].doc), draft.blob, draft.note.landing)})
      else w
    case SeedRoom(frontier, blob) =>
      if frontier.Some? ==> frontier.value == {} || blob.ops <= frontier.value then
        w.(posts := w.posts + {Post(0, frontier, blob, None)})
      else w
    case CommitPost(post) =>
      if post in w.posts then w.(log := Commit(w.log, post.covered, post.frontier, post.blob).log) else w
    case _ =>
      if step.c in w.clients then w.(clients := w.clients[step.c := ClientStep(w.clients[step.c], step)]) else w
  }

  ghost function Run(devices: set<string>, steps: seq<Step>): World
    decreases |steps|
  {
    if steps == [] then Start(devices) else Do(Run(devices, steps[..|steps| - 1]), steps[|steps| - 1])
  }
}
