/**
 The relay's storage: an append-only log of opaque update rows and one checkpoint that replaces a
 prefix of it (`edge/src/chat-log.ts`).
 */
module ChatLog {
  import opened Prelude

  const MAX_ROW_BYTES: nat := 1024 * 1024

  /** One operation of the replicated document. */
  type OpId = nat

  /** An update blob: what it holds, and how long it is on the wire. */
  datatype Update = Update(ops: set<OpId>, size: nat)

  /** `serial` is the column `seq`. */
  datatype LogRow = LogRow(serial: nat, device: string, batch: string, update: Update)

  /** A version vector as the set of operations it claims; `None` when the bytes do not decode. */
  type Frontier = Option<set<OpId>>

  datatype Checkpoint = Checkpoint(covered: nat, blob: Update, frontier: Frontier)

  datatype Log = Log(rows: seq<LogRow>, head: nat, floor: nat, checkpoint: Option<Checkpoint>)

  const EMPTY_LOG: Log := Log([], 0, 0, None)

  /** Row `i` of everything ever accepted has sequence number `i + 1`; what is stored is the rest after the floor. */
  ghost predicate LogOk(log: Log, accepted: seq<LogRow>) {
    && log.floor <= log.head == |accepted|
    && (forall i :: 0 <= i < |accepted| ==> accepted[i].serial == i + 1)
    && log.rows == accepted[log.floor..]
    && (log.checkpoint.None? ==> log.floor == 0)
    && (log.checkpoint.Some? ==> log.checkpoint.value.covered == log.floor && log.checkpoint.value.blob.size > 0)
  }

  // ── appending ─────────────────────────────────────────────────────────────

  datatype AppendOutcome = Appended(serial: nat, dup: bool) | Refused(error: string)

  datatype AppendResult = AppendResult(log: Log, outcome: AppendOutcome)

  /** The first stored row with the batch id, or the number of rows. */
  function FindBatch(rows: seq<LogRow>, batch: string, i: nat): (p: nat)
    requires i <= |rows|
    ensures i <= p <= |rows|
    ensures p < |rows| ==> rows[p].batch == batch
    ensures forall j :: i <= j < p ==> rows[j].batch != batch
    decreases |rows| - i
  {
    if i == |rows| || rows[i].batch == batch then i else FindBatch(rows, batch, i + 1)
  }

  function Append(log: Log, device: string, batch: string, update: Update): AppendResult {
    if update.size == 0 then AppendResult(log, Refused("empty"))
    else if update.size > MAX_ROW_BYTES then AppendResult(log, Refused("too_large"))
    else
      var p := FindBatch(log.rows, batch, 0);
      if p < |log.rows| then AppendResult(log, Appended(log.rows[p].serial, true))
      else
        AppendResult(log.(rows := log.rows + [LogRow(log.head + 1, device, batch, update)], head := log.head + 1),
                     Appended(log.head + 1, false))
  }

  /** The history after the append. */
  ghost function AcceptedAfter(log: Log, accepted: seq<LogRow>, device: string, batch: string, update: Update): seq<LogRow> {
    if Append(log, device, batch, update).log == log then accepted
    else accepted + [LogRow(log.head + 1, device, batch, update)]
  }

  /**
   A batch still in the log is acknowledged with its original number and changes nothing; anything else
   that fits becomes the next row. Once a checkpoint has pruned a batch its retry is a new row.
   */
  lemma AppendEffect(log: Log, accepted: seq<LogRow>, device: string, batch: string, update: Update)
    requires LogOk(log, accepted)
    ensures var r := Append(log, device, batch, update);
            var after := AcceptedAfter(log, accepted, device, batch, update);
            && LogOk(r.log, after) && r.log.floor == log.floor && r.log.checkpoint == log.checkpoint
            && accepted <= after
            && (r.outcome.Refused? <==> update.size == 0 || update.size > MAX_ROW_BYTES)
            && (r.outcome.Refused? ==> r.log == log)
            && (r.outcome.Appended? ==>
                  && 1 <= r.outcome.serial <= |after|
                  && after[r.outcome.serial - 1].batch == batch && r.outcome.serial > log.floor
                  && (r.outcome.dup <==> exists i :: log.floor <= i < |accepted| && accepted[i].batch == batch)
                  && (r.outcome.dup ==> r.log == log && after == accepted)
                  && (!r.outcome.dup ==> after == accepted + [LogRow(|accepted| + 1, device, batch, update)]))
  {
  }

  /** A retry of what was just appended is acknowledged with the same number and stores nothing. */
  lemma AppendTwiceIsOnce(log: Log, accepted: seq<LogRow>, device: string, batch: string, update: Update)
    requires LogOk(log, accepted)
    ensures var once := Append(log, device, batch, update);
            var twice := Append(once.log, device, batch, update);
            twice.log == once.log
            && (once.outcome.Appended? ==> twice.outcome == Appended(once.outcome.serial, true))
  {
    AppendEffect(log, accepted, device, batch, update);
    var once := Append(log, device, batch, update);
    if once.outcome.Appended? && !once.outcome.dup {
      var p := FindBatch(once.log.rows, batch, 0);
      assert once.log.rows[|log.rows|].batch == batch;
      assert forall j :: 0 <= j < |log.rows| ==> once.log.rows[j] == log.rows[j];
      assert p == |log.rows|;
    }
  }

  // ── reading ───────────────────────────────────────────────────────────────

  predicate Excluded(row: LogRow, exclude: string) {
    exclude != "" && row.device == exclude
  }

  function RowsAfter(rows: seq<LogRow>, after: nat, exclude: string): seq<LogRow> {
    if rows == [] then []
    else (if rows[0].serial > after && !Excluded(rows[0], exclude) then [rows[0]] else []) + RowsAfter(rows[1..], after, exclude)
  }

  lemma {:induction false} RowsAfterAre(rows: seq<LogRow>, after: nat, exclude: string)
    ensures forall r :: r in RowsAfter(rows, after, exclude) <==> r in rows && r.serial > after && !Excluded(r, exclude)
  {
    if rows != [] {
      RowsAfterAre(rows[1..], after, exclude);
      assert rows == [rows[0]] + rows[1..];
    }
  }

  lemma {:induction false} AllRowsAfter(rows: seq<LogRow>, after: nat)
    requires forall i :: 0 <= i < |rows| ==> rows[i].serial > after
    ensures RowsAfter(rows, after, "") == rows
  {
    if rows != [] {
      AllRowsAfter(rows[1..], after);
    }
  }

  /** The stored rows past a cursor: the tail of the history from the cursor or the floor on. */
  lemma {:induction false} RowsAfterIsTail(rows: seq<LogRow>, first: nat, after: nat)
    requires forall i :: 0 <= i < |rows| ==> rows[i].serial == first + i + 1
    ensures RowsAfter(rows, after, "") == rows[Min(Max(after - first, 0), |rows|)..]
    decreases |rows|
  {
    if rows != [] {
      if after <= first {
        AllRowsAfter(rows, after);
      } else {
        RowsAfterIsTail(rows[1..], first + 1, after);
      }
    }
  }

  // ── checkpoints ───────────────────────────────────────────────────────────

  datatype CommitOutcome = Committed(floor: nat, pruned: int) | NotCommitted(error: string)

  datatype CommitResult = CommitResult(log: Log, outcome: CommitOutcome)

  function Keep(rows: seq<LogRow>, covered: nat): seq<LogRow> {
    RowsAfter(rows, covered, "")
  }

  function Commit(log: Log, covered: nat, frontier: Frontier, blob: Update): CommitResult {
    if blob.size == 0 then CommitResult(log, NotCommitted("empty"))
    else if covered < log.floor then CommitResult(log, NotCommitted("floor_regression"))
    else if covered > log.head then CommitResult(log, NotCommitted("ahead_of_head"))
    else
      var rows := Keep(log.rows, covered);
      CommitResult(Log(rows, log.head, covered, Some(Checkpoint(covered, blob, frontier))),
                   Committed(covered, |log.rows| - |rows|))
  }

  /** A commit moves the floor forward only, up to the head at most, and drops exactly the rows it covers. */
  lemma CommitEffect(log: Log, accepted: seq<LogRow>, covered: nat, frontier: Frontier, blob: Update)
    requires LogOk(log, accepted)
    ensures var r := Commit(log, covered, frontier, blob);
            && LogOk(r.log, accepted) && r.log.head == log.head && log.floor <= r.log.floor
            && (r.outcome.Committed? <==> blob.size > 0 && log.floor <= covered <= log.head)
            && (r.outcome.NotCommitted? ==> r.log == log)
            && (r.outcome.Committed? ==> r.log.floor == covered && r.outcome.pruned == covered - log.floor
                                         && r.log.rows == accepted[covered..])
  {
    RowsAfterIsTail(log.rows, log.floor, covered);
  }

  // ── the log object ────────────────────────────────────────────────────────

  class ChatStore {
    var rows: seq<LogRow>
    var head: nat
    var floor: nat
    var checkpoint: Option<Checkpoint>

    function Now(): Log
      reads this
    {
      Log(rows, head, floor, checkpoint)
    }

    constructor ()
      ensures Now() == EMPTY_LOG
    {
      rows, head, floor, checkpoint := [], 0, 0, None;
    }

    method AppendRow(device: string, batch: string, update: Update) returns (outcome: AppendOutcome)
      modifies this
      ensures AppendResult(Now(), outcome) == Append(old(Now()), device, batch, update)
    {
      if update.size == 0 {
        return Refused("empty");
      }
      if update.size > MAX_ROW_BYTES {
        return Refused("too_large");
      }
      var p := FindBatch(rows, batch, 0);
      if p < |rows| {
        return Appended(rows[p].serial, true);
      }
      rows := rows + [LogRow(head + 1, device, batch, update)];
      head := head + 1;
      outcome := Appended(head, false);
    }

    method ReadAfter(after: nat, exclude: string) returns (out: seq<LogRow>)
      ensures out == RowsAfter(rows, after, exclude)
    {
      out := [];
      for i := 0 to |rows|
        invariant out + RowsAfter(rows[i..], after, exclude) == RowsAfter(rows, after, exclude)
      {
        assert rows[i..][1..] == rows[i + 1..];
        var mine := if rows[i].serial > after && !Excluded(rows[i], exclude) then [rows[i]] else [];
        Regroup(out, mine, RowsAfter(rows[i + 1..], after, exclude));
        out := out + mine;
      }
    }

    method CommitCheckpoint(covered: nat, frontier: Frontier, blob: Update) returns (outcome: CommitOutcome)
      modifies this
      ensures CommitResult(Now(), outcome) == Commit(old(Now()), covered, frontier, blob)
    {
      if blob.size == 0 {
        return NotCommitted("empty");
      }
      if covered < floor {
        return NotCommitted("floor_regression");
      }
      if covered > head {
        return NotCommitted("ahead_of_head");
      }
      checkpoint := Some(Checkpoint(covered, blob, frontier));
      var before := |rows|;
      rows := ReadAfter(covered, "");
      floor := covered;
      outcome := Committed(covered, before - |rows|);
    }
  }
}
