/**
 The session room's durability: what a crash rolls back, how replay deaths are counted, when the log is
 dropped and when the disaster backup may be written (`edge/src/session-room.ts`).
 */
module SessionRoom {
  import opened Prelude

  const REPLAY_CRASH_LIMIT: nat := 3

  /** An update blob: the operations in it, and its length. */
  datatype Update = Update(ops: set<nat>, size: nat)

  /** Everything in the object's storage that these rules read or write. `backed` is the `backupVV` meta key. */
  datatype Store = Store(snapshot: set<nat>, log: seq<Update>, attempts: nat, postReset: bool, dirty: bool, backed: Option<set<nat>>)

  /** `Replaying` is between the two syncs of a cold start: a crash there is a replay death. */
  datatype Phase = Serving | Replaying

  /**
   `store` is what the code sees, `durable` what a crash falls back to; `pending` and `live` are in
   memory. `backup` is the object outside, which no crash rolls back. `deaths` and `redrop` only
   record history: replay deaths since the last finished replay or drop, and whether the last drop's
   own replay has yet to finish.
   */
  datatype Room = Room(
    store: Store,
    durable: Store,
    pending: seq<Update>,
    live: bool,
    phase: Phase,
    backup: Option<set<nat>>,
    deaths: nat,
    redrop: bool)

  const NEW_STORE: Store := Store({}, [], 0, false, false, None)
  const NEW_ROOM: Room := Room(NEW_STORE, NEW_STORE, [], false, Serving, None, 0, false)

  function OpsOf(updates: seq<Update>): set<nat> {
    if updates == [] then {} else updates[0].ops + OpsOf(updates[1..])
  }

  /** What a replay of snapshot, log and buffer materializes. */
  function Content(r: Room): set<nat> {
    r.store.snapshot + OpsOf(r.store.log) + OpsOf(r.pending)
  }

  function Real(updates: seq<Update>): seq<Update> {
    if updates == [] then [] else (if updates[0].size > 0 then [updates[0]] else []) + Real(updates[1..])
  }

  // ── the room's own steps ──────────────────────────────────────────────────

  datatype Step =
    | StartReplay
    | FinishReplay
    | Crash
    | Commit
    | Record(updates: seq<Update>)
    | Flush
    | Fold
    | Release
    | Backup

  function DropLog(r: Room): Room {
    r.(store := r.store.(snapshot := {}, log := [], postReset := true), pending := [])
  }

  predicate Drops(r: Room) {
    r.store.attempts >= REPLAY_CRASH_LIMIT
  }

  /** The count is raised and made durable before the risky part. */
  function Started(r: Room): Room {
    var attempts := r.store.attempts;
    var d := if Drops(r) then DropLog(r).(deaths := 0, redrop := true) else r;
    var store := d.store.(attempts := attempts + 1);
    d.(store := store, durable := store, phase := Replaying)
  }

  function Finished(r: Room): Room {
    var store := r.store.(attempts := 0);
    r.(store := store, durable := store, live := true, phase := Serving, deaths := 0, redrop := false)
  }

  function Crashed(r: Room): Room {
    r.(store := r.durable, pending := [], live := false, phase := Serving,
       deaths := if r.phase.Replaying? then r.deaths + 1 else r.deaths)
  }

  /** An accepted batch with nothing in it records nothing and clears nothing. */
  function Recorded(r: Room, updates: seq<Update>): Room {
    if Real(updates) == [] then r
    else r.(pending := r.pending + Real(updates), store := r.store.(dirty := true, postReset := false))
  }

  function Flushed(r: Room): Room {
    r.(store := r.store.(log := r.store.log + r.pending), pending := [])
  }

  function Folded(r: Room): Room {
    r.(store := r.store.(snapshot := Content(r), log := []))
  }

  /** The put must include what was last put. */
  predicate MayBackUp(r: Room) {
    r.store.dirty && !r.store.postReset && (r.store.backed.Some? ==> r.store.backed.value <= Content(r))
  }

  function BackedUp(r: Room): Room {
    if !MayBackUp(r) then r
    else r.(backup := Some(Content(r)), store := r.store.(backed := Some(Content(r)), dirty := false))
  }

  predicate Enabled(r: Room, step: Step) {
    match step
    case StartReplay => r.phase.Serving? && !r.live
    case FinishReplay => r.phase.Replaying?
    case Crash => true
    case Commit => r.phase.Serving?
    case Record(_) => r.phase.Serving? && r.live
    case Flush => r.phase.Serving?
    case Fold => r.phase.Serving? && r.live
    case Release => r.phase.Serving?
    case Backup => r.phase.Serving? && r.live
  }

  function Do(r: Room, step: Step): Room {
    if !Enabled(r, step) then r
    else
      match step
      case StartReplay => Started(r)
      case FinishReplay => Finished(r)
      case Crash => Crashed(r)
      case Commit => r.(durable := r.store)
      case Record(updates) => Recorded(r, updates)
      case Flush => Flushed(r)
      case Fold => Folded(r)
      case Release => r.(live := false)
      case Backup => BackedUp(r)
  }

  function Run(steps: seq<Step>): Room
    decreases |steps|
  {
    if steps == [] then NEW_ROOM else Do(Run(steps[..|steps| - 1]), steps[|steps| - 1])
  }

  // ── what the room holds ───────────────────────────────────────────────────

  lemma {:induction false} OpsOfConcat(a: seq<Update>, b: seq<Update>)
    ensures OpsOf(a + b) == OpsOf(a) + OpsOf(b)
  {
    if a == [] {
      assert a + b == b;
    } else {
      assert (a + b)[0] == a[0] && (a + b)[1..] == a[1..] + b;
      OpsOfConcat(a[1..], b);
    }
  }

  /**
   Flushing, folding, releasing, committing and replaying keep exactly what the room holds, recording
   adds exactly the non-empty updates, and a crash falls back to what was last durable. Only a drop
   takes anything away.
   */
  lemma ContentIsKept(r: Room, step: Step)
    requires Enabled(r, step) && !(step.StartReplay? && Drops(r))
    ensures Content(Do(r, step))
         == if step.Crash? then r.durable.snapshot + OpsOf(r.durable.log)
            else if step.Record? then Content(r) + OpsOf(Real(step.updates))
            else Content(r)
  {
    if step.Record? {
      OpsOfConcat(r.pending, Real(step.updates));
    } else if step.Flush? {
      OpsOfConcat(r.store.log, r.pending);
    }
  }

  // ── counting replay deaths ────────────────────────────────────────────────

  /**
   Outside the replay window the durable counter is exactly the number of consecutive replay deaths,
   plus the count a drop was made at while that drop's own replay has not finished.
   */
  ghost predicate CountOk(r: Room) {
    && r.store.attempts == r.durable.attempts
    && r.deaths <= REPLAY_CRASH_LIMIT
    && (r.phase.Serving? ==> if r.redrop then r.store.attempts > REPLAY_CRASH_LIMIT && r.deaths == 1
                             else r.store.attempts == r.deaths)
    && (r.phase.Replaying? ==> if r.redrop then r.store.attempts > REPLAY_CRASH_LIMIT && r.deaths == 0
                               else r.store.attempts == r.deaths + 1 && r.deaths < REPLAY_CRASH_LIMIT)
  }

  lemma StepCounts(r: Room, step: Step)
    requires CountOk(r)
    ensures CountOk(Do(r, step))
  {
  }

  lemma {:induction false} RunsCount(steps: seq<Step>)
    ensures CountOk(Run(steps))
    decreases |steps|
  {
    if steps != [] {
      RunsCount(steps[..|steps| - 1]);
      StepCounts(Run(steps[..|steps| - 1]), steps[|steps| - 1]);
    }
  }

  /** No log suffers a fourth consecutive replay death, whatever is rolled back. */
  lemma AtMostThreeDeaths(steps: seq<Step>)
    ensures Run(steps).deaths <= REPLAY_CRASH_LIMIT
    ensures var r := Run(steps);
            r.phase.Serving? && !r.live && r.deaths == REPLAY_CRASH_LIMIT ==>
              var n := Do(r, StartReplay);
              n.durable.log == [] && n.durable.snapshot == {} && n.pending == [] && n.durable.postReset
  {
    RunsCount(steps);
  }

  /** The log is dropped only at the third consecutive replay death, or when a drop's own empty replay died. */
  lemma DropsOnlyAfterThreeDeaths(steps: seq<Step>)
    requires var r := Run(steps); Enabled(r, StartReplay) && Drops(r)
    ensures Run(steps).deaths == REPLAY_CRASH_LIMIT || Run(steps).redrop
  {
    RunsCount(steps);
  }

  ghost predicate CrashesOutside(steps: seq<Step>)
    decreases |steps|
  {
    steps != [] ==>
      CrashesOutside(steps[..|steps| - 1]) && (steps[|steps| - 1].Crash? ==> Run(steps[..|steps| - 1]).phase.Serving?)
  }

  /** However often the room crashes outside the replay window, the durable counter stays zero and nothing is dropped. */
  lemma {:induction false} CrashesOutsideNeverCount(steps: seq<Step>)
    requires CrashesOutside(steps)
    ensures var r := Run(steps);
            r.deaths == 0 && !r.redrop && (r.phase.Serving? ==> r.durable.attempts == 0 && !Drops(r))
    decreases |steps|
  {
    RunsCount(steps);
    if steps != [] {
      CrashesOutsideNeverCount(steps[..|steps| - 1]);
      RunsCount(steps[..|steps| - 1]);
    }
  }

  // ── the backup between a drop and the first real update ───────────────────

  /** Step `i` of the run drops the log. */
  predicate DropsAt(steps: seq<Step>, i: nat)
    requires i < |steps|
  {
    steps[i].StartReplay? && Enabled(Run(steps[..i]), StartReplay) && Drops(Run(steps[..i]))
  }

  /** Step `k` records at least one non-empty update. */
  predicate RecordsAt(steps: seq<Step>, k: nat)
    requires k < |steps|
  {
    steps[k].Record? && Enabled(Run(steps[..k]), steps[k]) && Real(steps[k].updates) != []
  }

  predicate BacksUpAt(steps: seq<Step>, j: nat)
    requires j < |steps|
  {
    steps[j].Backup? && Enabled(Run(steps[..j]), Backup) && MayBackUp(Run(steps[..j]))
  }

  lemma RunNext(steps: seq<Step>, n: nat)
    requires n < |steps|
    ensures Run(steps[..n + 1]) == Do(Run(steps[..n]), steps[n])
  {
    assert steps[..n + 1][..n] == steps[..n];
  }

  /** Without a real update in between, the guard stays closed in memory and on disk alike. */
  lemma {:induction false} GuardStaysClosed(steps: seq<Step>, i: nat, n: nat)
    requires i < n <= |steps| && DropsAt(steps, i)
    requires forall k :: i < k < n ==> !RecordsAt(steps, k)
    ensures Run(steps[..n]).store.postReset && Run(steps[..n]).durable.postReset
    decreases n
  {
    RunNext(steps, n - 1);
    if n > i + 1 {
      GuardStaysClosed(steps, i, n - 1);
      assert !RecordsAt(steps, n - 1);
    }
  }

  /** In every run, between a drop and a later backup some non-empty update was recorded. */
  lemma NoBackupOfADroppedRoom(steps: seq<Step>, i: nat, j: nat)
    requires i < j < |steps| && DropsAt(steps, i) && BacksUpAt(steps, j)
    ensures exists k :: i < k < j && RecordsAt(steps, k)
  {
    if forall k :: i < k < j ==> !RecordsAt(steps, k) {
      GuardStaysClosed(steps, i, j);
    }
  }

  /** A backup that is due happens: a non-empty update is put with everything else unless the last put would shrink. */
  lemma RecordedIsBackedUp(steps: seq<Step>, update: Update)
    requires var r := Run(steps); r.phase.Serving? && r.live && update.size > 0
    ensures var r, n := Run(steps), Run(steps + [Record([update]), Backup]);
            n.backup == if KeyOps(r.store.backed) <= Content(r) + update.ops then Some(Content(r) + update.ops) else r.backup
  {
    RunTwo(steps, Record([update]), Backup);
    var r, n := Run(steps), Do(Run(steps), Record([update]));
    assert [update][1..] == [] && Real([update]) == [update] && OpsOf([update]) == update.ops + OpsOf([]);
    ContentIsKept(r, Record([update]));
    assert Content(n) == Content(r) + update.ops;
    assert n.store.dirty && !n.store.postReset && n.store.backed == r.store.backed && n.backup == r.backup;
  }

  /** After a put, without a real update and without a crash there is nothing to put. */
  lemma {:induction false} CleanStaysClean(steps: seq<Step>, i: nat, n: nat)
    requires i < n <= |steps| && BacksUpAt(steps, i)
    requires forall k :: i < k < n ==> !RecordsAt(steps, k) && !steps[k].Crash?
    ensures !Run(steps[..n]).store.dirty
    decreases n
  {
    RunNext(steps, n - 1);
    if n > i + 1 {
      CleanStaysClean(steps, i, n - 1);
      assert !RecordsAt(steps, n - 1) && !steps[n - 1].Crash?;
    }
  }

  /** In every run, between two backups some non-empty update was recorded or the room crashed. */
  lemma EveryBackupIsNews(steps: seq<Step>, i: nat, j: nat)
    requires i < j < |steps| && BacksUpAt(steps, i) && BacksUpAt(steps, j)
    ensures exists k :: i < k < j && (RecordsAt(steps, k) || steps[k].Crash?)
  {
    if forall k :: i < k < j ==> !RecordsAt(steps, k) && !steps[k].Crash? {
      CleanStaysClean(steps, i, j);
    }
  }

  // ── what a crash costs ────────────────────────────────────────────────────

  /** Flushed and committed, nothing is lost: a crash leaves exactly what the room held. */
  lemma CommittedIsSafe(steps: seq<Step>)
    requires Run(steps).phase.Serving?
    ensures Content(Run(steps + [Flush, Commit] + [Crash])) == Content(Run(steps))
  {
    RunTwo(steps, Flush, Commit);
    RunSnoc(steps + [Flush, Commit], Crash);
    ContentIsKept(Run(steps), Flush);
  }

  /** Uncommitted, everything since the last commit is lost. */
  lemma UncommittedIsLost(r: Room, updates: seq<Update>)
    requires r.phase.Serving?
    ensures Content(Do(Do(Do(r, Record(updates)), Flush), Crash)) == Content(Do(r, Crash))
  {
    var n := Do(Do(r, Record(updates)), Flush);
    assert n.durable == r.durable;
    ContentIsKept(n, Crash);
    ContentIsKept(r, Crash);
  }

  /** Folding leaves a replay nothing but the snapshot and the buffer, and takes nothing away. */
  lemma FoldingEmptiesTheLog(r: Room)
    requires Enabled(r, Fold)
    ensures var n := Do(r, Fold);
            n.store.log == [] && n.store.snapshot + OpsOf(n.pending) == Content(r) && n.pending == r.pending
  {
  }

  /** Step `k` finishes a replay. */
  predicate FinishesAt(steps: seq<Step>, k: nat)
    requires k < |steps|
  {
    steps[k].FinishReplay? && Enabled(Run(steps[..k]), FinishReplay)
  }

  lemma {:induction false} ColdStaysCold(steps: seq<Step>, i: nat, n: nat)
    requires i < n <= |steps| && (steps[i].Crash? || (steps[i].Release? && Enabled(Run(steps[..i]), Release)))
    requires forall k :: i < k < n ==> !FinishesAt(steps, k)
    ensures !Run(steps[..n]).live
    decreases n
  {
    RunNext(steps, n - 1);
    if n > i + 1 {
      ColdStaysCold(steps, i, n - 1);
      assert !FinishesAt(steps, n - 1);
    }
  }

  /** In every run, after a crash or a release nothing is recorded, folded or put before a replay has finished. */
  lemma NothingWithoutAReplay(steps: seq<Step>, i: nat, j: nat)
    requires i < j < |steps| && (steps[i].Crash? || (steps[i].Release? && Enabled(Run(steps[..i]), Release)))
    requires (steps[j].Record? || steps[j].Fold? || steps[j].Backup?) && Enabled(Run(steps[..j]), steps[j])
    ensures exists k :: i < k < j && FinishesAt(steps, k)
  {
    if forall k :: i < k < j ==> !FinishesAt(steps, k) {
      ColdStaysCold(steps, i, j);
    }
  }

  // ── the backup only grows, unless a crash forgets a put ───────────────────

  /** The operations a key says are backed up; no key says none. */
  function KeyOps(key: Option<set<nat>>): set<nat> {
    if key.Some? then key.value else {}
  }

  /** A crash now would forget no put. */
  predicate Remembered(r: Room) {
    KeyOps(r.durable.backed) == KeyOps(r.store.backed)
  }

  /** No crash among `more`, which follows `start`, forgets a put. */
  ghost predicate RemembersFrom(start: seq<Step>, more: seq<Step>)
    decreases |more|
  {
    more != [] ==>
      var front := more[..|more| - 1];
      RemembersFrom(start, front) && (more[|more| - 1].Crash? ==> Remembered(Run(start + front)))
  }

  ghost predicate PutsRemembered(steps: seq<Step>) {
    RemembersFrom([], steps)
  }

  predicate Grew(a: Option<set<nat>>, b: Option<set<nat>>) {
    a.None? || (b.Some? && a.value <= b.value)
  }

  lemma RememberedStep(steps: seq<Step>)
    requires steps != [] && PutsRemembered(steps)
    ensures PutsRemembered(steps[..|steps| - 1])
    ensures steps[|steps| - 1].Crash? ==> Remembered(Run(steps[..|steps| - 1]))
  {
    assert [] + steps[..|steps| - 1] == steps[..|steps| - 1];
  }

  lemma {:induction false} KeyNamesTheBackup(steps: seq<Step>)
    requires PutsRemembered(steps)
    ensures KeyOps(Run(steps).store.backed) == KeyOps(Run(steps).backup)
    ensures KeyOps(Run(steps).durable.backed) <= KeyOps(Run(steps).store.backed)
    decreases |steps|
  {
    if steps != [] {
      RememberedStep(steps);
      KeyNamesTheBackup(steps[..|steps| - 1]);
    }
  }

  /** While puts are remembered, every later backup includes every earlier one, across drops and crashes. */
  lemma {:induction false} BackupsOnlyGrow(steps: seq<Step>, i: nat)
    requires PutsRemembered(steps) && i <= |steps|
    ensures Grew(Run(steps[..i]).backup, Run(steps).backup)
    decreases |steps|
  {
    if i == |steps| {
      assert steps[..i] == steps;
    } else {
      var front := steps[..|steps| - 1];
      RememberedStep(steps);
      BackupsOnlyGrow(front, i);
      KeyNamesTheBackup(front);
      assert front[..i] == steps[..i];
    }
  }

  // ── exactly which crashes cost a backup ───────────────────────────────────

  lemma {:induction false} RemembersConcat(start: seq<Step>, a: seq<Step>, b: seq<Step>)
    requires RemembersFrom(start, a) && RemembersFrom(start + a, b)
    ensures RemembersFrom(start, a + b)
    decreases |b|
  {
    if b == [] {
      assert a + b == a;
    } else {
      var front := b[..|b| - 1];
      RemembersConcat(start, a, front);
      assert (a + b)[..|a + b| - 1] == a + front;
      Regroup(start, a, front);
    }
  }

  lemma {:induction false} NoCrashRemembers(start: seq<Step>, more: seq<Step>)
    requires forall s :: s in more ==> !s.Crash?
    ensures RemembersFrom(start, more)
    decreases |more|
  {
    if more != [] {
      NoCrashRemembers(start, more[..|more| - 1]);
    }
  }

  /** `n` cold starts, each of which dies. */
  function Deaths(n: nat): seq<Step> {
    if n == 0 then [] else Deaths(n - 1) + [StartReplay, Crash]
  }

  /** A room at rest after a crash: nothing in memory, nothing uncommitted. */
  predicate Cold(r: Room) {
    r.phase.Serving? && !r.live && r.pending == [] && r.store == r.durable
  }

  lemma DieOnce(start: seq<Step>)
    requires Cold(Run(start)) && Run(start).store.attempts < REPLAY_CRASH_LIMIT
    ensures var r, d := Run(start), Run(start + [StartReplay, Crash]);
            Cold(d) && d.store == r.store.(attempts := r.store.attempts + 1) && d.backup == r.backup
    ensures RemembersFrom(start, [StartReplay, Crash])
  {
    RunSnoc(start, StartReplay);
    RunTwo(start, StartReplay, Crash);
    NoCrashRemembers(start, [StartReplay]);
    assert [StartReplay, Crash][..1] == [StartReplay];
  }

  lemma {:induction false} DieOften(start: seq<Step>, n: nat)
    requires Cold(Run(start)) && Run(start).store.attempts + n <= REPLAY_CRASH_LIMIT
    ensures var r, d := Run(start), Run(start + Deaths(n));
            Cold(d) && d.store == r.store.(attempts := r.store.attempts + n) && d.backup == r.backup
    ensures RemembersFrom(start, Deaths(n))
  {
    if n == 0 {
      assert start + [] == start;
    } else {
      DieOften(start, n - 1);
      DieOnce(start + Deaths(n - 1));
      Regroup(start, Deaths(n - 1), [StartReplay, Crash]);
      RemembersConcat(start, Deaths(n - 1), [StartReplay, Crash]);
    }
  }

  /** A cold room that has died too often is emptied, fed exactly `ops` and backed up. */
  function Refill(ops: set<nat>): seq<Step> {
    [StartReplay, FinishReplay] + [Record([Update(ops, 1)]), Flush, Backup]
  }

  lemma RefilledRoom(r: Room, ops: set<nat>)
    requires r.phase.Serving? && r.live && r.pending == [] && r.store.log == [] && r.store.snapshot == {}
    requires KeyOps(r.store.backed) <= ops
    ensures Do(Do(Do(r, Record([Update(ops, 1)])), Flush), Backup).backup == Some(ops)
  {
    var u := Update(ops, 1);
    assert [u][1..] == [] && Real([u]) == [u];
    assert [] + [u] == [u] && OpsOf([u]) == ops + OpsOf([]) && OpsOf([]) == {};
    var full := Do(Do(r, Record([u])), Flush);
    assert full.store.log == [u] && full.pending == [];
    assert Content(full) == ops;
  }

  lemma RefillPuts(start: seq<Step>, ops: set<nat>)
    requires Cold(Run(start)) && Drops(Run(start)) && KeyOps(Run(start).store.backed) == ops
    ensures Run(start + Refill(ops)).backup == Some(ops)
    ensures RemembersFrom(start, Refill(ops))
  {
    var warm := start + [StartReplay, FinishReplay];
    RunTwo(start, StartReplay, FinishReplay);
    RunThree(warm, Record([Update(ops, 1)]), Flush, Backup);
    RefilledRoom(Run(warm), ops);
    Regroup(start, [StartReplay, FinishReplay], [Record([Update(ops, 1)]), Flush, Backup]);
    NoCrashRemembers(start, Refill(ops));
  }

  /** The worst that can follow a crash: deaths up to a drop, then a put of just what the durable key names. */
  function WorstAfter(r: Room): seq<Step> {
    Deaths(if r.durable.attempts < REPLAY_CRASH_LIMIT then REPLAY_CRASH_LIMIT - r.durable.attempts else 0)
    + Refill(KeyOps(r.durable.backed))
  }

  lemma WorstFollows(steps: seq<Step>)
    ensures var after := steps + [Crash];
            RemembersFrom(after, WorstAfter(Run(steps)))
            && Run(after + WorstAfter(Run(steps))).backup == Some(KeyOps(Run(steps).durable.backed))
  {
    var r, after := Run(steps), steps + [Crash];
    RunSnoc(steps, Crash);
    var n := if r.durable.attempts < REPLAY_CRASH_LIMIT then REPLAY_CRASH_LIMIT - r.durable.attempts else 0;
    var ops := KeyOps(r.durable.backed);
    if n == 0 {
      assert after + [] == after;
    } else {
      DieOften(after, n);
    }
    RefillPuts(after + Deaths(n), ops);
    RemembersConcat(after, Deaths(n), Refill(ops));
    Regroup(after, Deaths(n), Refill(ops));
  }

  /**
   A crash leaves the backup safe for good exactly when the durable key names every operation the
   current key does: then it grows through whatever follows, as long as no later crash forgets a put;
   otherwise some such continuation puts a backup that lacks one.
   */
  lemma CrashKeepsTheBackupIff(steps: seq<Step>)
    requires PutsRemembered(steps)
    ensures Remembered(Run(steps))
       <==> forall more :: RemembersFrom(steps + [Crash], more) ==> Grew(Run(steps).backup, Run(steps + [Crash] + more).backup)
  {
    KeyNamesTheBackup(steps);
    if Remembered(Run(steps)) {
      forall more | RemembersFrom(steps + [Crash], more)
        ensures Grew(Run(steps).backup, Run(steps + [Crash] + more).backup)
      {
        RememberedRunGrows(steps, more);
      }
    } else {
      WorstFollows(steps);
      assert !Grew(Run(steps).backup, Run(steps + [Crash] + WorstAfter(Run(steps))).backup);
    }
  }

  lemma RememberedRunGrows(steps: seq<Step>, more: seq<Step>)
    requires PutsRemembered(steps) && Remembered(Run(steps)) && RemembersFrom(steps + [Crash], more)
    ensures Grew(Run(steps).backup, Run(steps + [Crash] + more).backup)
  {
    var after := steps + [Crash];
    assert after[..|after| - 1] == steps && [] + steps == steps;
    assert PutsRemembered(after);
    assert [] + after == after;
    RemembersConcat([], after, more);
    BackupsOnlyGrow(after + more, |steps|);
    assert (after + more)[..|steps|] == steps;
  }

  lemma RunSnoc(steps: seq<Step>, step: Step)
    ensures Run(steps + [step]) == Do(Run(steps), step)
  {
  }

  lemma RunTwo(steps: seq<Step>, a: Step, b: Step)
    ensures Run(steps + [a, b]) == Do(Do(Run(steps), a), b)
  {
    RunSnoc(steps, a);
    RunSnoc(steps + [a], b);
    assert steps + [a, b] == steps + [a] + [b];
  }

  lemma RunThree(steps: seq<Step>, a: Step, b: Step, c: Step)
    ensures Run(steps + [a, b, c]) == Do(Do(Do(Run(steps), a), b), c)
  {
    RunTwo(steps, a, b);
    RunSnoc(steps + [a, b], c);
    assert steps + [a, b, c] == steps + [a, b] + [c];
  }

  function One(op: nat): Update {
    Update({op}, 1)
  }

  lemma OpsOfOne(op: nat)
    ensures Real([One(op)]) == [One(op)] && OpsOf([One(op)]) == {op} && OpsOf([]) == {}
  {
  }

  function Put(op: nat): seq<Step> {
    [Record([One(op)]), Flush, Backup]
  }

  /** A live room with nothing buffered whose log holds `ops` as single updates. */
  lemma PutStep(steps: seq<Step>, op: nat)
    requires var r := Run(steps); r.phase.Serving? && r.live && r.pending == []
    requires var r := Run(steps); r.store.backed.Some? ==> r.store.backed.value <= Content(r)
    ensures var r, n := Run(steps), Run(steps + Put(op));
            && n.phase.Serving? && n.live && n.pending == []
            && n.store.log == r.store.log + [One(op)] && n.store.snapshot == r.store.snapshot
            && Content(n) == Content(r) + {op}
            && n.backup == Some(Content(n)) && n.store.backed == n.backup && n.durable == r.durable
            && n.store.attempts == r.store.attempts
  {
    var r := Run(steps);
    RunThree(steps, Record([One(op)]), Flush, Backup);
    OpsOfOne(op);
    assert [] + [One(op)] == [One(op)];
    OpsOfConcat(r.store.log, [One(op)]);
  }

  const WARM: seq<Step> := [StartReplay, FinishReplay]

  lemma WarmRun()
    ensures Run(WARM) == Finished(Started(NEW_ROOM))
  {
  }

  /** A warm room that put one update and committed. */
  function OncePut(): seq<Step> {
    WARM + Put(1) + [Commit]
  }

  lemma AfterOncePut()
    ensures var r := Run(OncePut());
            && r.phase.Serving? && r.live && r.pending == [] && Content(r) == {1}
            && r.durable == r.store && r.store.backed == r.backup == Some({1}) && r.store.attempts == 0
  {
    WarmRun();
    PutStep(WARM, 1);
    assert Content(Run(WARM)) == {};
    RunSnoc(WARM + Put(1), Commit);
  }

  lemma AfterForgottenPut(steps: seq<Step>)
    requires var r := Run(steps);
             && r.phase.Serving? && r.live && r.pending == [] && Content(r) == {1}
             && r.durable == r.store && r.store.backed == Some({1}) && r.store.attempts == 0
    ensures var r := Run(steps + Put(2) + [Crash, StartReplay, FinishReplay]);
            && r.phase.Serving? && r.live && r.pending == [] && Content(r) == {1} && r.store.backed == Some({1})
    ensures Run(steps + Put(2)).backup == Some({1, 2})
  {
    PutStep(steps, 2);
    assert Content(Run(steps + Put(2))) == {1} + {2} == {1, 2};
    RunThree(steps + Put(2), Crash, StartReplay, FinishReplay);
  }

  /**
   The proviso is needed: a put whose key a crash rolled back can be replaced by a backup without
   what only that put had.
   */
  lemma ForgottenPutShrinksTheBackup()
    ensures var first := OncePut() + Put(2);
            var second := first + [Crash, StartReplay, FinishReplay] + Put(3);
            Run(first).backup == Some({1, 2}) && Run(second).backup == Some({1, 3})
  {
    AfterOncePut();
    AfterForgottenPut(OncePut());
    var c := OncePut() + Put(2) + [Crash, StartReplay, FinishReplay];
    PutStep(c, 3);
    assert Content(Run(c + Put(3))) == {1} + {3} == {1, 3};
  }

  /**
   The guard alone does not mean the room has anything: the update that opened it may be acknowledged,
   its flag committed, and the update itself lost with the buffer. Only the inclusion test stands then.
   */
  lemma GuardOpensOnAnEmptyRoom(steps: seq<Step>, update: Update)
    requires var r := Run(steps);
             r.phase.Serving? && r.live && r.pending == [] && r.store.log == [] && r.store.snapshot == {} && r.store.postReset
    requires update.size > 0
    ensures var n := Run(steps + [Record([update]), Commit, Crash]);
            && !n.store.postReset && n.store.dirty && Content(n) == {}
            && (MayBackUp(n) <==> n.store.backed.None? || n.store.backed.value == {})
  {
    RunThree(steps, Record([update]), Commit, Crash);
    assert [update][1..] == [];
    assert Real([update]) == [update];
  }

  /** A room that put one update, then died three times, dropped its log and warmed up again. */
  function Emptied(): seq<Step> {
    OncePut() + [Crash] + Deaths(3) + [StartReplay, FinishReplay]
  }

  lemma EmptiedRun()
    ensures var r := Run(Emptied());
            && r.phase.Serving? && r.live && r.pending == [] && r.store.log == [] && r.store.snapshot == {}
            && r.store.postReset && r.store.backed == r.backup == Some({1})
  {
    AfterOncePut();
    RunSnoc(OncePut(), Crash);
    DieOften(OncePut() + [Crash], 3);
    RunTwo(OncePut() + [Crash] + Deaths(3), StartReplay, FinishReplay);
  }

  /** It does happen: the guard of that room opens on nothing, and only the inclusion test keeps its backup. */
  lemma GuardDoesOpen(update: Update)
    requires update.size > 0
    ensures var n := Run(Emptied() + [Record([update]), Commit, Crash]);
            !n.store.postReset && n.store.dirty && Content(n) == {} && n.backup == Some({1}) && !MayBackUp(n)
  {
    EmptiedRun();
    GuardOpensOnAnEmptyRoom(Emptied(), update);
    RunThree(Emptied(), Record([update]), Commit, Crash);
    assert 1 in {1};
  }

  // ── the room object ───────────────────────────────────────────────────────

  class SessionObject {
    var store: Store
    var durable: Store
    var pending: seq<Update>
    var live: bool
    var phase: Phase
    ghost var backup: Option<set<nat>>
    ghost var deaths: nat
    ghost var redrop: bool

    ghost function Now(): Room
      reads this
    {
      Room(store, durable, pending, live, phase, backup, deaths, redrop)
    }

    constructor ()
      ensures Now() == NEW_ROOM
    {
      store, durable, pending, live, phase := NEW_STORE, NEW_STORE, [], false, Serving;
      backup, deaths, redrop := None, 0, false;
    }

    method Sync()
      modifies this`durable
      ensures durable == store
    {
      durable := store;
    }

    method Drop()
      modifies this`store, this`pending
      ensures Now() == DropLog(old(Now()))
    {
      store := store.(snapshot := {}, log := [], postReset := true);
      pending := [];
    }

    /** The first half of a cold start, up to the sync that makes the raised count durable. */
    method BeginReplay()
      requires phase.Serving? && !live
      modifies this
      ensures Now() == Do(old(Now()), StartReplay)
    {
      var attempts := store.attempts;
      if attempts >= REPLAY_CRASH_LIMIT {
        Drop();
        deaths, redrop := 0, true;
      }
      store := store.(attempts := attempts + 1);
      Sync();
      phase := Replaying;
    }

    /** The second half, once every row has been imported. */
    method EndReplay()
      requires phase.Replaying?
      modifies this
      ensures Now() == Do(old(Now()), FinishReplay)
    {
      store := store.(attempts := 0);
      Sync();
      live, phase, deaths, redrop := true, Serving, 0, false;
    }

    method RecordLoroUpdates(updates: seq<Update>)
      requires phase.Serving? && live
      modifies this
      ensures Now() == Do(old(Now()), Record(updates))
    {
      var landed := false;
      for i := 0 to |updates|
        invariant Now() == old(Now()).(pending := pending)
        invariant pending + Real(updates[i..]) == old(pending) + Real(updates)
        invariant landed <==> pending != old(pending)
        invariant old(pending) <= pending
      {
        assert updates[i..][0] == updates[i] && updates[i..][1..] == updates[i + 1..];
        if updates[i].size == 0 {
          continue;
        }
        landed := true;
        Regroup(pending, [updates[i]], Real(updates[i + 1..]));
        pending := pending + [updates[i]];
      }
      assert pending == old(pending) + Real(updates);
      if !landed {
        return;
      }
      store := store.(dirty := true, postReset := false);
    }

    method FlushPending()
      requires phase.Serving?
      modifies this
      ensures Now() == Do(old(Now()), Flush)
    {
      for i := 0 to |pending|
        invariant Now() == old(Now()).(store := store)
        invariant store == old(store).(log := old(store).log + pending[..i])
      {
        assert pending[..i + 1] == pending[..i] + [pending[i]];
        Regroup(old(store).log, pending[..i], [pending[i]]);
        store := store.(log := store.log + [pending[i]]);
      }
      assert pending[..|pending|] == pending;
      pending := [];
    }

    method AlarmBackup()
      requires phase.Serving? && live
      modifies this
      ensures Now() == Do(old(Now()), Backup)
    {
      if !store.dirty || store.postReset {
        return;
      }
      var content := Materialize();
      if store.backed.Some? && !(store.backed.value <= content) {
        return;
      }
      backup := Some(content);
      store := store.(backed := Some(content), dirty := false);
    }

    method Materialize() returns (doc: set<nat>)
      ensures doc == Content(Now())
    {
      doc := store.snapshot;
      for i := 0 to |store.log|
        invariant doc + OpsOf(store.log[i..]) == store.snapshot + OpsOf(store.log)
      {
        assert store.log[i..][1..] == store.log[i + 1..];
        doc := doc + store.log[i].ops;
      }
      ghost var logged := doc;
      for i := 0 to |pending|
        invariant doc + OpsOf(pending[i..]) == logged + OpsOf(pending)
      {
        assert pending[i..][1..] == pending[i + 1..];
        doc := doc + pending[i].ops;
      }
    }
  }
}
