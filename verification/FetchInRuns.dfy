/**
 The resumable download against the room it downloads from: where committed numbers are never reused,
 a response stamp names one checkpoint, and a fetch returns one that really was current.
 */
module FetchInRuns {
  import opened Prelude
  import opened ChatLog
  import opened ChatSync
  import opened ChatLaws
  import opened ChatConservation
  import opened CheckpointFetch

  /** The number of the checkpoint never goes back, and stays only with the checkpoint itself. */
  ghost predicate Onward(a: Log, b: Log) {
    a.checkpoint.Some? ==>
      b.checkpoint.Some? && (b.checkpoint == a.checkpoint || a.checkpoint.value.covered < b.checkpoint.value.covered)
  }

  lemma StepOnward(w: World, step: Step)
    requires LogOk(w.log, w.accepted) && StrictStep(w, step)
    ensures Onward(w.log, Do(w, step).log)
  {
    if step.CommitPost? {
      CommitEffect(w.log, w.accepted, step.post.covered, step.post.frontier, step.post.blob);
    } else {
      CheckpointStays(w, step);
    }
  }

  lemma {:induction false} RunsGoOnward(devices: set<string>, steps: seq<Step>, m: nat)
    requires Strict(devices, steps) && m <= |steps|
    ensures Onward(Run(devices, steps[..m]).log, Run(devices, steps).log)
    decreases |steps|
  {
    if m == |steps| {
      assert steps[..m] == steps;
    } else {
      var front := steps[..|steps| - 1];
      RunsGoOnward(devices, front, m);
      assert front[..m] == steps[..m];
      RunsKeepBase(devices, front);
      StepOnward(Run(devices, front), steps[|steps| - 1]);
    }
  }

  lemma {:induction false} StrictPrefix(devices: set<string>, steps: seq<Step>, n: nat)
    requires Strict(devices, steps) && n <= |steps|
    ensures Strict(devices, steps[..n])
    decreases |steps|
  {
    if n == |steps| {
      assert steps[..n] == steps;
    } else {
      StrictPrefix(devices, steps[..|steps| - 1], n);
      assert steps[..|steps| - 1][..n] == steps[..n];
    }
  }

  /** In every run that commits only past the floor, two checkpoints of one number are one checkpoint. */
  lemma NumbersNameCheckpoints(devices: set<string>, steps: seq<Step>, m: nat, n: nat)
    requires Strict(devices, steps) && m <= n <= |steps|
    requires var a, b := Run(devices, steps[..m]).log.checkpoint, Run(devices, steps[..n]).log.checkpoint;
             a.Some? && b.Some? && a.value.covered == b.value.covered
    ensures Run(devices, steps[..m]).log.checkpoint == Run(devices, steps[..n]).log.checkpoint
  {
    StrictPrefix(devices, steps, n);
    RunsGoOnward(devices, steps[..n], m);
    assert steps[..n][..m] == steps[..m];
  }

  /** What the room serves of its checkpoint; `payload` gives the bytes. */
  function Current(log: Log, payload: Checkpoint -> Bytes): Option<Blob> {
    if log.checkpoint.Some? then Some(Blob(log.checkpoint.value.covered, payload(log.checkpoint.value))) else None
  }

  /** Attempt `i` is answered by the room as it is after `times[i]` steps of the run. */
  ghost predicate AnsweredBy(devices: set<string>, steps: seq<Step>, times: seq<nat>, attempts: seq<Attempt>, payload: Checkpoint -> Bytes) {
    && |times| == |attempts|
    && forall i :: 0 <= i < |attempts| && attempts[i].Answer? ==>
         times[i] <= |steps| && attempts[i].current == Current(Run(devices, steps[..times[i]]).log, payload)
  }

  lemma StampsAreUnique(devices: set<string>, steps: seq<Step>, times: seq<nat>, attempts: seq<Attempt>, payload: Checkpoint -> Bytes)
    requires Strict(devices, steps) && AnsweredBy(devices, steps, times, attempts, payload)
    ensures StampsNameBlobs(attempts)
  {
    forall i, j | 0 <= i < |attempts| && 0 <= j < |attempts|
      && attempts[i].Answer? && attempts[j].Answer? && attempts[i].current.Some? && attempts[j].current.Some?
      && attempts[i].current.value.stamp == attempts[j].current.value.stamp
      ensures attempts[i].current == attempts[j].current
    {
      if times[i] <= times[j] {
        NumbersNameCheckpoints(devices, steps, times[i], times[j]);
      } else {
        NumbersNameCheckpoints(devices, steps, times[j], times[i]);
      }
    }
  }

  /**
   A fetch made against any such run, however its attempts are dropped and whatever is committed between
   them, returns the whole payload of a checkpoint that was current at one of them.
   */
  lemma FetchReturnsACheckpoint(devices: set<string>, steps: seq<Step>, times: seq<nat>, attempts: seq<Attempt>, payload: Checkpoint -> Bytes)
    requires Strict(devices, steps) && AnsweredBy(devices, steps, times, attempts, payload)
    requires |attempts| <= ATTEMPTS && CheckpointFetch.Fetch(attempts).Complete?
    ensures exists i :: 0 <= i < |attempts| && attempts[i].Answer?
              && var log := Run(devices, steps[..times[i]]).log;
                 log.checkpoint.Some? && CheckpointFetch.Fetch(attempts).bytes == payload(log.checkpoint.value)
  {
    StampsAreUnique(devices, steps, times, attempts, payload);
    FetchNeverSplices(attempts);
    var b :| Served(attempts, b) && CheckpointFetch.Fetch(attempts).bytes == b.bytes;
    var i :| 0 <= i < |attempts| && attempts[i].Answer? && attempts[i].current == Some(b);
    assert attempts[i].current == Current(Run(devices, steps[..times[i]]).log, payload);
  }
}
