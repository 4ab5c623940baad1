/**
 The resumable checkpoint download: a ranged GET on the server, and the client's loop that keeps the
 bytes of a dropped attempt and asks for the rest (`edge/src/chat-room.ts`,
 `crates/engine/src/chat2_host.rs`). Ranges are those of section 14.2 of RFC 9110.
 */
module CheckpointFetch {
  import opened Prelude

  const ATTEMPTS: nat := 4

  type Bytes = seq<byte>

  /** One committed checkpoint payload, with the number that stamps every response. */
  datatype Blob = Blob(stamp: nat, bytes: Bytes)

  // ── the server ────────────────────────────────────────────────────────────

  datatype Response = Response(status: nat, stamp: Option<nat>, body: Bytes)

  /** A start of zero is no range at all. */
  function ParseRangeStart(start: Option<nat>): Option<nat> {
    if start.Some? && start.value > 0 then start else None
  }

  function Serve(blob: Option<Blob>, start: Option<nat>): Response {
    if blob.None? then Response(404, None, [])
    else
      var range := ParseRangeStart(start);
      var bytes := blob.value.bytes;
      if range.None? then Response(200, Some(blob.value.stamp), bytes)
      else if range.value >= |bytes| then Response(416, None, [])
      else Response(206, Some(blob.value.stamp), bytes[range.value..])
  }

  // ── the client ────────────────────────────────────────────────────────────

  /**
   What the network makes of one attempt: nothing arrives, or the answer to it does, computed from
   whichever checkpoint is current then, and `arrived` bytes of its body before the stream ends or drops.
   */
  datatype Attempt = NoAnswer | Answer(current: Option<Blob>, arrived: nat, dropped: bool)

  datatype Fetched = Complete(bytes: Bytes) | Failed(reason: string)

  datatype Progress = Progress(got: Bytes, seen: Option<nat>)

  /** One turn of the loop: the bytes to go on with, or the result. */
  datatype Turn = Again(next: Progress) | Done(result: Fetched)

  function Request(got: Bytes): Option<nat> {
    if got == [] then None else Some(|got|)
  }

  function TakeTurn(p: Progress, a: Attempt): Turn {
    if a.NoAnswer? then Again(p)
    else
      var res := Serve(a.current, Request(p.got));
      if res.stamp.Some? && p.seen.Some? && res.stamp != p.seen then Again(Progress([], res.stamp))
      else
        var seen := if res.stamp.Some? then res.stamp else p.seen;
        if res.status == 200 || res.status == 206 then
          var got := if res.status == 200 then [] else p.got;
          if a.dropped then Again(Progress(got + res.body[..Min(a.arrived, |res.body|)], seen))
          else Done(Complete(got + res.body))
        else if res.status == 416 then Done(Failed("checkpoint range beyond end"))
        else if res.status == 404 then Done(Failed("no checkpoint"))
        else Done(Failed("checkpoint HTTP error"))
  }

  function FetchFrom(p: Progress, attempts: seq<Attempt>): Fetched
    decreases |attempts|
  {
    if attempts == [] then Failed("checkpoint fetch exhausted resume attempts")
    else
      match TakeTurn(p, attempts[0])
      case Done(result) => result
      case Again(next) => FetchFrom(next, attempts[1..])
  }

  function Fetch(attempts: seq<Attempt>): Fetched {
    FetchFrom(Progress([], None), attempts[..Min(|attempts|, ATTEMPTS)])
  }

  /** The loop: `got` and `seen` are carried from one attempt to the next. */
  method FetchCheckpoint(attempts: seq<Attempt>) returns (result: Fetched)
    requires |attempts| == ATTEMPTS
    ensures result == Fetch(attempts)
  {
    var got: Bytes, seen: Option<nat> := [], None;
    assert attempts[..ATTEMPTS] == attempts && attempts[0..] == attempts;
    for n := 0 to ATTEMPTS
      invariant FetchFrom(Progress(got, seen), attempts[n..]) == Fetch(attempts)
    {
      assert attempts[n..][0] == attempts[n] && attempts[n..][1..] == attempts[n + 1..];
      if attempts[n].NoAnswer? {
        continue;
      }
      var res := Serve(attempts[n].current, Request(got));
      if res.stamp.Some? && seen.Some? && res.stamp != seen {
        got, seen := [], res.stamp;
        continue;
      }
      if res.stamp.Some? {
        seen := res.stamp;
      }
      if res.status == 200 {
        got := [];
      } else if res.status != 206 {
        return Failed(if res.status == 416 then "checkpoint range beyond end"
                      else if res.status == 404 then "no checkpoint" else "checkpoint HTTP error");
      }
      if !attempts[n].dropped {
        return Complete(got + res.body);
      }
      got := got + res.body[..Min(attempts[n].arrived, |res.body|)];
    }
    result := Failed("checkpoint fetch exhausted resume attempts");
  }

  // ── no splicing ───────────────────────────────────────────────────────────

  ghost predicate Served(attempts: seq<Attempt>, b: Blob) {
    exists i :: 0 <= i < |attempts| && attempts[i].Answer? && attempts[i].current == Some(b)
  }

  /** A stamp names one payload among everything the attempts met. */
  ghost predicate StampsNameBlobs(attempts: seq<Attempt>) {
    forall i, j :: 0 <= i < |attempts| && 0 <= j < |attempts|
      && attempts[i].Answer? && attempts[j].Answer? && attempts[i].current.Some? && attempts[j].current.Some?
      && attempts[i].current.value.stamp == attempts[j].current.value.stamp
      ==> attempts[i].current == attempts[j].current
  }

  /** What is kept is the start of the one payload its stamp names. */
  ghost predicate Sound(all: seq<Attempt>, p: Progress) {
    && (p.got != [] ==> p.seen.Some?)
    && (p.seen.Some? ==> exists b :: Served(all, b) && b.stamp == p.seen.value && p.got <= b.bytes)
  }

  lemma TurnIsSound(all: seq<Attempt>, p: Progress, i: nat)
    requires i < |all| && StampsNameBlobs(all) && Sound(all, p)
    ensures var t := TakeTurn(p, all[i]);
            && (t.Again? ==> Sound(all, t.next))
            && (t.Done? && t.result.Complete? ==> exists b :: Served(all, b) && t.result.bytes == b.bytes)
  {
    if all[i].Answer? && all[i].current.Some? {
      var c := all[i].current.value;
      assert Served(all, c);
      if p.seen.Some? && c.stamp == p.seen.value {
        var b :| Served(all, b) && b.stamp == p.seen.value && p.got <= b.bytes;
        assert b == c;
        assert p.got == c.bytes[..|p.got|];
        assert c.bytes == p.got + c.bytes[|p.got|..];
      }
      assert [] + c.bytes == c.bytes;
    }
  }

  lemma {:induction false} FetchFromIsSound(all: seq<Attempt>, p: Progress, n: nat)
    requires n <= |all| && StampsNameBlobs(all) && Sound(all, p)
    ensures FetchFrom(p, all[n..]).Complete? ==> exists b :: Served(all, b) && FetchFrom(p, all[n..]).bytes == b.bytes
    decreases |all| - n
  {
    if n < |all| {
      assert all[n..][0] == all[n] && all[n..][1..] == all[n + 1..];
      TurnIsSound(all, p, n);
      if TakeTurn(p, all[n]).Again? {
        FetchFromIsSound(all, TakeTurn(p, all[n]).next, n + 1);
      }
    }
  }

  /**
   Whatever is dropped and however often the checkpoint is replaced meanwhile, the bytes returned are
   one committed payload, whole, provided no two payloads share a stamp.
   */
  lemma FetchNeverSplices(attempts: seq<Attempt>)
    requires |attempts| <= ATTEMPTS && StampsNameBlobs(attempts)
    ensures Fetch(attempts).Complete? ==> exists b :: Served(attempts, b) && Fetch(attempts).bytes == b.bytes
  {
    assert attempts[..|attempts|] == attempts && attempts[0..] == attempts;
    FetchFromIsSound(attempts, Progress([], None), 0);
  }

  // ── two payloads under one stamp ──────────────────────────────────────────

  /** Some fetch, each of whose attempts meets one of the two, returns bytes that are neither. */
  ghost predicate SplicedBy(x: Blob, y: Blob, attempts: seq<Attempt>) {
    && |attempts| <= ATTEMPTS
    && (forall a :: a in attempts && a.Answer? ==> a.current == Some(x) || a.current == Some(y))
    && Fetch(attempts).Complete? && Fetch(attempts).bytes != x.bytes && Fetch(attempts).bytes != y.bytes
  }

  /** Two differences for payloads of one length, one within the shorter for payloads of two. */
  ghost predicate Spliceable(x: Bytes, y: Bytes) {
    if |x| == |y| then exists i, j :: 0 <= i < j < |x| && x[i] != y[i] && x[j] != y[j]
    else exists i :: 0 <= i < |x| && i < |y| && x[i] != y[i]
  }

  /** Every byte is the byte of one of the two at its place. */
  ghost predicate Mixes(got: Bytes, x: Bytes, y: Bytes) {
    forall i :: 0 <= i < |got| ==> (i < |x| && got[i] == x[i]) || (i < |y| && got[i] == y[i])
  }

  lemma TurnMixes(x: Blob, y: Blob, p: Progress, a: Attempt)
    requires x.stamp == y.stamp && Mixes(p.got, x.bytes, y.bytes) && (p.seen.Some? ==> p.seen.value == x.stamp)
    requires a.Answer? ==> a.current == Some(x) || a.current == Some(y)
    ensures var t := TakeTurn(p, a);
            && (t.Again? ==> Mixes(t.next.got, x.bytes, y.bytes) && (t.next.seen.Some? ==> t.next.seen.value == x.stamp))
            && (t.Done? && t.result.Complete? ==>
                  Mixes(t.result.bytes, x.bytes, y.bytes) && (|t.result.bytes| == |x.bytes| || |t.result.bytes| == |y.bytes|))
  {
  }

  lemma {:induction false} FetchMixes(x: Blob, y: Blob, p: Progress, attempts: seq<Attempt>)
    requires x.stamp == y.stamp && Mixes(p.got, x.bytes, y.bytes) && (p.seen.Some? ==> p.seen.value == x.stamp)
    requires forall a :: a in attempts && a.Answer? ==> a.current == Some(x) || a.current == Some(y)
    ensures var f := FetchFrom(p, attempts);
            f.Complete? ==> Mixes(f.bytes, x.bytes, y.bytes) && (|f.bytes| == |x.bytes| || |f.bytes| == |y.bytes|)
    decreases |attempts|
  {
    if attempts != [] {
      assert attempts[0] in attempts && forall a :: a in attempts[1..] ==> a in attempts;
      TurnMixes(x, y, p, attempts[0]);
      if TakeTurn(p, attempts[0]).Again? {
        FetchMixes(x, y, TakeTurn(p, attempts[0]).next, attempts[1..]);
      }
    }
  }

  /** Bytes that mix two payloads which cannot be told apart often enough are one of them. */
  lemma MixIsOne(bytes: Bytes, x: Bytes, y: Bytes)
    requires Mixes(bytes, x, y) && (|bytes| == |x| || |bytes| == |y|) && !Spliceable(x, y)
    ensures bytes == x || bytes == y
  {
    if |x| == |y| && bytes != x {
      var i :| 0 <= i < |bytes| && bytes[i] != x[i];
      forall j | 0 <= j < |bytes|
        ensures bytes[j] == y[j]
      {
      }
    }
  }

  /** A drop after `k` bytes of one payload, then the rest of the other. */
  lemma DropSplices(first: Blob, second: Blob, k: nat)
    requires first.stamp == second.stamp && 0 < k <= |first.bytes| && k < |second.bytes|
    ensures Fetch([Answer(Some(first), k, true), Answer(Some(second), 0, false)]) == Complete(first.bytes[..k] + second.bytes[k..])
  {
    var one, two := Answer(Some(first), k, true), Answer(Some(second), 0, false);
    var held := Progress(first.bytes[..k], Some(first.stamp));
    assert [one, two][..2] == [one, two] && [one, two][1..] == [two] && [two][1..] == [];
    assert [] + first.bytes[..k] == first.bytes[..k];
    assert TakeTurn(Progress([], None), one) == Again(held);
    assert TakeTurn(held, two) == Done(Complete(first.bytes[..k] + second.bytes[k..]));
    assert FetchFrom(held, [two]) == Complete(first.bytes[..k] + second.bytes[k..]);
  }

  lemma DropMakesNeither(x: Blob, y: Blob, first: Blob, second: Blob, k: nat)
    requires first.stamp == second.stamp && 0 < k <= |first.bytes| && k < |second.bytes|
    requires (first == x && second == y) || (first == y && second == x)
    requires var spliced := first.bytes[..k] + second.bytes[k..]; spliced != x.bytes && spliced != y.bytes
    ensures exists attempts :: SplicedBy(x, y, attempts)
  {
    DropSplices(first, second, k);
    assert SplicedBy(x, y, [Answer(Some(first), k, true), Answer(Some(second), 0, false)]);
  }

  lemma SpliceableIsSpliced(x: Blob, y: Blob)
    requires x.stamp == y.stamp && Spliceable(x.bytes, y.bytes)
    ensures exists attempts :: SplicedBy(x, y, attempts)
  {
    if |x.bytes| == |y.bytes| {
      var i, j :| 0 <= i < j < |x.bytes| && x.bytes[i] != y.bytes[i] && x.bytes[j] != y.bytes[j];
      var spliced := x.bytes[..j] + y.bytes[j..];
      assert spliced[i] == x.bytes[i] && spliced[j] == y.bytes[j];
      DropMakesNeither(x, y, x, y, j);
    } else {
      var i :| 0 <= i < |x.bytes| && i < |y.bytes| && x.bytes[i] != y.bytes[i];
      var short, long := if |x.bytes| < |y.bytes| then x else y, if |x.bytes| < |y.bytes| then y else x;
      var spliced := short.bytes[..i + 1] + long.bytes[i + 1..];
      assert spliced[i] == short.bytes[i] && |spliced| == |long.bytes|;
      DropMakesNeither(x, y, short, long, i + 1);
    }
  }

  /**
   Without that proviso, exactly when a fetch can return bytes that are neither payload: two of the same
   stamp and length differ in at least two places, or two of different lengths within the shorter one.
   */
  lemma SharedStampSplicesIff(x: Blob, y: Blob)
    requires x.stamp == y.stamp
    ensures (exists attempts :: SplicedBy(x, y, attempts)) <==> Spliceable(x.bytes, y.bytes)
  {
    if Spliceable(x.bytes, y.bytes) {
      SpliceableIsSpliced(x, y);
    }
    forall attempts | SplicedBy(x, y, attempts)
      ensures Spliceable(x.bytes, y.bytes)
    {
      assert attempts[..|attempts|] == attempts;
      FetchMixes(x, y, Progress([], None), attempts);
      if !Spliceable(x.bytes, y.bytes) {
        MixIsOne(Fetch(attempts).bytes, x.bytes, y.bytes);
      }
    }
  }

  // ── progress ──────────────────────────────────────────────────────────────

  function Arrived(attempts: seq<Attempt>): nat {
    if attempts == [] then 0 else (if attempts[0].Answer? then attempts[0].arrived else 0) + Arrived(attempts[1..])
  }

  ghost predicate Holding(b: Blob, p: Progress) {
    p.got <= b.bytes && (p.got != [] ==> p.seen.Some?) && (p.seen.Some? ==> p.seen.value == b.stamp)
  }

  /** One attempt at a checkpoint that stays current. */
  lemma TurnOn(b: Blob, p: Progress, a: Attempt)
    requires Holding(b, p) && a.Answer? && a.current == Some(b) && b.bytes != []
    ensures |p.got| == |b.bytes| ==> TakeTurn(p, a) == Done(Failed("checkpoint range beyond end"))
    ensures |p.got| < |b.bytes| && !a.dropped ==> TakeTurn(p, a) == Done(Complete(b.bytes))
    ensures |p.got| < |b.bytes| && a.dropped ==>
              var t := TakeTurn(p, a);
              t.Again? && Holding(b, t.next) && |t.next.got| == Min(|p.got| + a.arrived, |b.bytes|)
  {
    assert p.got == b.bytes[..|p.got|];
    assert b.bytes == p.got + b.bytes[|p.got|..];
    assert [] + b.bytes == b.bytes;
    if |p.got| < |b.bytes| && a.dropped {
      var more := Min(a.arrived, |b.bytes| - |p.got|);
      assert b.bytes[|p.got|..][..more] == b.bytes[|p.got|..|p.got| + more];
      assert p.got + b.bytes[|p.got|..|p.got| + more] == b.bytes[..|p.got| + more];
      assert [] + b.bytes[..Min(a.arrived, |b.bytes|)] == b.bytes[..Min(a.arrived, |b.bytes|)];
    }
  }

  /**
   With one checkpoint current throughout, no byte is fetched twice: the first attempt that is not
   dropped completes the download, unless every byte had arrived before it. Then the range starts past
   the end and the fetch fails with the whole payload in hand.
   */
  lemma {:induction false} ResumeCompletesIff(b: Blob, p: Progress, attempts: seq<Attempt>)
    requires attempts != [] && b.bytes != [] && Holding(b, p)
    requires forall a :: a in attempts ==> a.Answer? && a.current == Some(b)
    requires forall i :: 0 <= i < |attempts| ==> (attempts[i].dropped <==> i < |attempts| - 1)
    ensures FetchFrom(p, attempts)
         == if |p.got| + Arrived(attempts[..|attempts| - 1]) < |b.bytes| then Complete(b.bytes)
            else Failed("checkpoint range beyond end")
    decreases |attempts|
  {
    var a, rest := attempts[0], attempts[1..];
    TurnOn(b, p, a);
    if |attempts| == 1 {
      assert attempts[..0] == [];
    } else {
      var front := attempts[..|attempts| - 1];
      assert front[0] == a && front[1..] == rest[..|rest| - 1];
      if |p.got| < |b.bytes| {
        ResumeCompletesIff(b, TakeTurn(p, a).next, rest);
      }
    }
  }

  // ── unanswered and replaced attempts ──────────────────────────────────────

  function Answered(attempts: seq<Attempt>): seq<Attempt> {
    if attempts == [] then [] else (if attempts[0].Answer? then [attempts[0]] else []) + Answered(attempts[1..])
  }

  /** An attempt that gets no answer costs one of the four and nothing else. */
  lemma {:induction false} UnansweredAreSkipped(p: Progress, attempts: seq<Attempt>)
    ensures FetchFrom(p, attempts) == FetchFrom(p, Answered(attempts))
    decreases |attempts|
  {
    if attempts != [] {
      var a, rest := attempts[0], attempts[1..];
      if a.Answer? {
        assert Answered(attempts)[0] == a && Answered(attempts)[1..] == Answered(rest);
        if TakeTurn(p, a).Again? {
          UnansweredAreSkipped(TakeTurn(p, a).next, rest);
        }
      } else {
        assert Answered(attempts) == Answered(rest);
        UnansweredAreSkipped(p, rest);
      }
    }
  }

  /** An answer with another stamp than the bytes held throws them away and keeps nothing of its own. */
  lemma ReplacementStartsOver(p: Progress, attempts: seq<Attempt>)
    requires attempts != [] && attempts[0].Answer? && attempts[0].current.Some?
    requires p.seen.Some? && attempts[0].current.value.stamp != p.seen.value
    requires |p.got| < |attempts[0].current.value.bytes|
    ensures FetchFrom(p, attempts) == FetchFrom(Progress([], Some(attempts[0].current.value.stamp)), attempts[1..])
  {
  }

  /** A checkpoint that is gone, or shorter than what is held, ends the fetch. */
  lemma NothingLeftToFetch(p: Progress, attempts: seq<Attempt>)
    requires attempts != [] && attempts[0].Answer?
    ensures attempts[0].current.None? ==> FetchFrom(p, attempts) == Failed("no checkpoint")
    ensures attempts[0].current.Some? && p.got != [] && |p.got| >= |attempts[0].current.value.bytes| ==>
              FetchFrom(p, attempts) == Failed("checkpoint range beyond end")
  {
  }

  /** Attempts that all were answered, or not at all, from one checkpoint, none of them undropped but the last. */
  ghost predicate OneCheckpoint(b: Blob, attempts: seq<Attempt>) {
    && attempts != [] && attempts[|attempts| - 1].Answer? && !attempts[|attempts| - 1].dropped
    && (forall a :: a in attempts && a.Answer? ==> a.current == Some(b))
    && forall i :: 0 <= i < |attempts| - 1 && attempts[i].Answer? ==> attempts[i].dropped
  }

  lemma {:induction false} AnsweredConcat(a: seq<Attempt>, b: seq<Attempt>)
    ensures Answered(a + b) == Answered(a) + Answered(b)
  {
    if a == [] {
      assert a + b == b;
    } else {
      assert (a + b)[0] == a[0] && (a + b)[1..] == a[1..] + b;
      AnsweredConcat(a[1..], b);
      Regroup(if a[0].Answer? then [a[0]] else [], Answered(a[1..]), Answered(b));
    }
  }

  lemma {:induction false} AnsweredHold(attempts: seq<Attempt>)
    ensures forall a :: a in Answered(attempts) <==> a in attempts && a.Answer?
    ensures Arrived(Answered(attempts)) == Arrived(attempts)
  {
    if attempts != [] {
      AnsweredHold(attempts[1..]);
      var out := Answered(attempts);
      if attempts[0].Answer? {
        assert out[0] == attempts[0] && out[1..] == Answered(attempts[1..]);
      } else {
        assert out == Answered(attempts[1..]);
      }
      assert forall a :: a in attempts <==> a == attempts[0] || a in attempts[1..];
    }
  }

  lemma AnsweredAre(attempts: seq<Attempt>, b: Blob)
    requires OneCheckpoint(b, attempts)
    ensures var out := Answered(attempts);
            && out != [] && (forall a :: a in out ==> a.Answer? && a.current == Some(b))
            && (forall i :: 0 <= i < |out| ==> (out[i].dropped <==> i < |out| - 1))
            && Arrived(out[..|out| - 1]) == Arrived(attempts[..|attempts| - 1])
  {
    var front, last := attempts[..|attempts| - 1], attempts[|attempts| - 1];
    assert attempts == front + [last];
    AnsweredConcat(front, [last]);
    assert [last][1..] == [] && Answered([last]) == [last];
    AnsweredHold(front);
    var out := Answered(front);
    assert Answered(attempts)[..|Answered(attempts)| - 1] == out;
    forall a | a in front && a.Answer?
      ensures a.dropped && a.current == Some(b)
    {
      var i :| 0 <= i < |front| && front[i] == a;
      assert attempts[i] == a && a in attempts;
    }
    assert forall i :: 0 <= i < |out| ==> out[i] in out;
    assert last in attempts;
  }

  /**
   When a fetch completes: of any attempts with one checkpoint current throughout, dropped, unanswered and at
   last undropped, exactly if some byte had not arrived before the last.
   */
  lemma FetchCompletesIff(b: Blob, attempts: seq<Attempt>)
    requires |attempts| <= 4 && OneCheckpoint(b, attempts) && b.bytes != []
    ensures Fetch(attempts)
         == if Arrived(attempts[..|attempts| - 1]) < |b.bytes| then Complete(b.bytes)
            else Failed("checkpoint range beyond end")
  {
    assert attempts[..|attempts|] == attempts;
    UnansweredAreSkipped(Progress([], None), attempts);
    AnsweredAre(attempts, b);
    ResumeCompletesIff(b, Progress([], None), Answered(attempts));
  }

  /** Four attempts without a last byte end the fetch, whatever would have come after them. */
  lemma FourAttemptsAreAll(attempts: seq<Attempt>)
    requires |attempts| >= 4 && forall i :: 0 <= i < 4 ==> attempts[i].NoAnswer?
    ensures Fetch(attempts) == Failed("checkpoint fetch exhausted resume attempts")
  {
    var four := attempts[..4];
    UnansweredAreSkipped(Progress([], None), four);
    NoneAnswered(four);
  }

  lemma {:induction false} NoneAnswered(attempts: seq<Attempt>)
    requires forall i :: 0 <= i < |attempts| ==> attempts[i].NoAnswer?
    ensures Answered(attempts) == []
    decreases |attempts|
  {
    if attempts != [] {
      NoneAnswered(attempts[1..]);
    }
  }

  /** The same after a replacement: only what comes after the answer that revealed it counts. */
  lemma {:induction false} FetchAfterReplacement(b: Blob, c: Blob, p: Progress, before: seq<Attempt>, revealed: Attempt, after: seq<Attempt>)
    requires b.bytes != [] && c.bytes != [] && b.stamp != c.stamp && Holding(b, p) && p.seen.Some?
    requires forall a :: a in before && a.Answer? ==> a.current == Some(b) && a.dropped
    requires |p.got| + Arrived(before) < Min(|b.bytes|, |c.bytes|)
    requires revealed.Answer? && revealed.current == Some(c) && OneCheckpoint(c, after)
    ensures FetchFrom(p, before + [revealed] + after)
         == if Arrived(after[..|after| - 1]) < |c.bytes| then Complete(c.bytes)
            else Failed("checkpoint range beyond end")
    decreases |before|
  {
    var all := before + [revealed] + after;
    if before == [] {
      assert all[0] == revealed && all[1..] == after;
      ReplacementStartsOver(p, all);
      var anew := Progress([], Some(c.stamp));
      UnansweredAreSkipped(anew, after);
      AnsweredAre(after, c);
      ResumeCompletesIff(c, anew, Answered(after));
    } else {
      var a, rest := before[0], before[1..];
      assert a in before && forall x :: x in rest ==> x in before;
      assert all[0] == a && all[1..] == rest + [revealed] + after;
      if a.Answer? {
        TurnOn(b, p, a);
        FetchAfterReplacement(b, c, TakeTurn(p, a).next, rest, revealed, after);
      } else {
        FetchAfterReplacement(b, c, p, rest, revealed, after);
      }
    }
  }
}
