/**
 What a transcript frame carries, and when it is a reset: entries are sent anew only if they are new, moved,
 or changed other than by one text growing at its end (`crates/doc/src/transcript_delta.rs`).
 */
module TranscriptFrames {
  import opened Prelude
  import opened MessageParts
  import opened TranscriptDelta

  // ── what happened to an entry ─────────────────────────────────────────────

  /** Place `p` is the last in `s` of that name. */
  ghost predicate LastNamed(s: seq<Entry>, p: nat, id: string) {
    p < |s| && s[p].id == id && forall j :: p < j < |s| ==> s[j].id != id
  }

  /** Both are first, or both stand behind entries of one name. */
  ghost predicate SamePlace(prev: seq<Entry>, p: nat, next: seq<Entry>, i: nat) {
    p < |prev| && i < |next| && (p == 0 <==> i == 0) && (p > 0 && i > 0 ==> prev[p - 1].id == next[i - 1].id)
  }

  /** The text part at `k` of `b` is that of `a` with more at its end, and they are alike in everything else. */
  ghost predicate TextGrewAt(a: Entry, b: Entry, k: nat) {
    && b == a.(parts := b.parts) && k < |a.parts| == |b.parts|
    && (forall j :: 0 <= j < |a.parts| && j != k ==> a.parts[j] == b.parts[j])
    && a.parts[k].Text? && b.parts[k].Text? && a.parts[k].id == b.parts[k].id && a.parts[k].text < b.parts[k].text
  }

  ghost predicate TextGrew(a: Entry, b: Entry) {
    exists k: nat :: TextGrewAt(a, b, k)
  }

  /** Entry `i` was already there, in the same place. */
  ghost predicate Stayed(prev: seq<Entry>, next: seq<Entry>, i: nat, p: nat) {
    i < |next| && LastNamed(prev, p, next[i].id) && SamePlace(prev, p, next, i)
  }

  ghost predicate Grew(prev: seq<Entry>, next: seq<Entry>, i: nat) {
    exists p: nat :: Stayed(prev, next, i, p) && TextGrew(prev[p], next[i])
  }

  ghost predicate Kept(prev: seq<Entry>, next: seq<Entry>, i: nat) {
    exists p: nat :: Stayed(prev, next, i, p) && prev[p] == next[i]
  }

  /** New, moved, or changed in any other way. */
  ghost predicate Anew(prev: seq<Entry>, next: seq<Entry>, i: nat) {
    i < |next| && !Kept(prev, next, i) && !Grew(prev, next, i)
  }

  ghost function AnewAmong(prev: seq<Entry>, next: seq<Entry>, n: nat): set<nat> {
    set i: nat | i < n && Anew(prev, next, i)
  }

  ghost function GrewAmong(prev: seq<Entry>, next: seq<Entry>, n: nat): set<nat> {
    set i: nat | i < n && Grew(prev, next, i)
  }

  lemma LastNamedIs(s: seq<Entry>, id: string, p: nat)
    ensures LastNamed(s, p, id) <==> LastIndex(s, id) == Some(p)
  {
  }

  lemma GrowthIs(a: Entry, b: Entry, k: nat)
    ensures TextGrewAt(a, b, k) <==> GrowsAt(a, b, k)
  {
    if TextGrewAt(a, b, k) {
      assert b.parts == a.parts[k := b.parts[k]];
    }
  }

  lemma PlaceIs(prev: seq<Entry>, p: nat, next: seq<Entry>, i: nat)
    requires p < |prev| && i < |next|
    ensures SamePlace(prev, p, next, i) <==> After(prev, p) == After(next, i)
  {
  }

  lemma GrewIs(a: Entry, b: Entry)
    ensures TextGrew(a, b) <==> TextGrowth(a, b).Some?
    ensures a == b ==> !TextGrew(a, b)
  {
    forall k: nat
      ensures TextGrewAt(a, b, k) <==> GrowsAt(a, b, k)
    {
      GrowthIs(a, b, k);
    }
  }

  /** The change the diff finds is the one that happened. */
  lemma ChangeIs(prev: seq<Entry>, next: seq<Entry>, i: nat)
    requires i < |next|
    ensures ChangeOf(prev, next, i).Keep? <==> Kept(prev, next, i)
    ensures ChangeOf(prev, next, i).Grow? <==> Grew(prev, next, i)
    ensures ChangeOf(prev, next, i).Put? <==> Anew(prev, next, i)
  {
    forall p: nat
      ensures LastNamed(prev, p, next[i].id) <==> LastIndex(prev, next[i].id) == Some(p)
    {
      LastNamedIs(prev, next[i].id, p);
    }
    var at := LastIndex(prev, next[i].id);
    if at.Some? {
      PlaceIs(prev, at.value, next, i);
      GrewIs(prev[at.value], next[i]);
      assert Stayed(prev, next, i, at.value) <==> After(prev, at.value) == After(next, i);
    }
  }

  // ── counting ──────────────────────────────────────────────────────────────

  lemma AnewNext(prev: seq<Entry>, next: seq<Entry>, n: nat)
    ensures |AnewAmong(prev, next, n + 1)| == |AnewAmong(prev, next, n)| + if Anew(prev, next, n) then 1 else 0
  {
    var front, more := AnewAmong(prev, next, n), AnewAmong(prev, next, n + 1);
    assert more == front + if Anew(prev, next, n) then {n} else {};
  }

  lemma GrewNext(prev: seq<Entry>, next: seq<Entry>, n: nat)
    ensures |GrewAmong(prev, next, n + 1)| == |GrewAmong(prev, next, n)| + if Grew(prev, next, n) then 1 else 0
  {
    var front, more := GrewAmong(prev, next, n), GrewAmong(prev, next, n + 1);
    assert more == front + if Grew(prev, next, n) then {n} else {};
  }

  lemma UpsertsNext(prev: seq<Entry>, next: seq<Entry>, n: nat)
    requires n < |next|
    ensures Upserts(prev, next, n + 1)
         == Upserts(prev, next, n) + if Anew(prev, next, n) then [Upsert(After(next, n), next[n])] else []
  {
    ChangeIs(prev, next, n);
  }

  lemma AppendsNext(prev: seq<Entry>, next: seq<Entry>, n: nat)
    requires n < |next|
    ensures Grew(prev, next, n) ==> ChangeOf(prev, next, n).Grow?
    ensures Appends(prev, next, n + 1)
         == Appends(prev, next, n) + if Grew(prev, next, n) then [ChangeOf(prev, next, n).append] else []
  {
    ChangeIs(prev, next, n);
  }

  lemma NothingYet(prev: seq<Entry>, next: seq<Entry>)
    ensures Upserts(prev, next, 0) == [] && Appends(prev, next, 0) == []
    ensures AnewAmong(prev, next, 0) == {} && GrewAmong(prev, next, 0) == {}
  {
  }

  lemma UpsertsCount(prev: seq<Entry>, next: seq<Entry>)
    ensures |Upserts(prev, next, |next|)| == |AnewAmong(prev, next, |next|)|
  {
    NothingYet(prev, next);
    for n := 0 to |next|
      invariant |Upserts(prev, next, n)| == |AnewAmong(prev, next, n)|
    {
      UpsertsNext(prev, next, n);
      AnewNext(prev, next, n);
    }
  }

  lemma AppendsCount(prev: seq<Entry>, next: seq<Entry>)
    ensures |Appends(prev, next, |next|)| == |GrewAmong(prev, next, |next|)|
  {
    NothingYet(prev, next);
    for n := 0 to |next|
      invariant |Appends(prev, next, n)| == |GrewAmong(prev, next, n)|
    {
      AppendsNext(prev, next, n);
      GrewNext(prev, next, n);
    }
  }

  /** The frame is a reset, which holds the whole transcript, exactly if more than four entries are half sent anew. */
  lemma ResetIff(prev: seq<Entry>, next: seq<Entry>)
    ensures Diff(prev, next).Reset? <==> |next| > 4 && 2 * |AnewAmong(prev, next, |next|)| >= |next|
    ensures Diff(prev, next).Reset? ==> Diff(prev, next).entries == next
  {
    UpsertsCount(prev, next);
  }

  // ── what a delta carries ──────────────────────────────────────────────────

  /** Entry `i` with the name of the one before it. */
  ghost predicate Sends(next: seq<Entry>, i: nat, u: Upsert) {
    i < |next| && u.entry == next[i] && u.after == if i == 0 then None else Some(next[i - 1].id)
  }

  /** Just the text that entry `i` gained. */
  ghost predicate SendsGrowth(prev: seq<Entry>, next: seq<Entry>, i: nat, a: TextAppend) {
    exists p: nat, k: nat :: Stayed(prev, next, i, p) && TextGrewAt(prev[p], next[i], k)
      && a.entry == next[i].id && a.part == next[i].parts[k].id
      && prev[p].parts[k].text + a.text == next[i].parts[k].text && a.len == |next[i].parts[k].text|
  }

  /** The upsert is that of an entry sent anew. */
  ghost predicate IsAnew(prev: seq<Entry>, next: seq<Entry>, u: Upsert) {
    exists i: nat :: Anew(prev, next, i) && Sends(next, i, u)
  }

  ghost predicate IsSent(next: seq<Entry>, i: nat, us: seq<Upsert>) {
    exists u :: u in us && Sends(next, i, u)
  }

  lemma OneSent(prev: seq<Entry>, next: seq<Entry>, n: nat)
    requires Anew(prev, next, n)
    ensures Sends(next, n, Upsert(After(next, n), next[n])) && IsAnew(prev, next, Upsert(After(next, n), next[n]))
  {
    assert Sends(next, n, Upsert(After(next, n), next[n]));
  }

  lemma StillSent(next: seq<Entry>, i: nat, us: seq<Upsert>, more: seq<Upsert>)
    requires IsSent(next, i, us)
    ensures IsSent(next, i, us + more)
  {
    var u :| u in us && Sends(next, i, u);
    assert u in us + more;
  }

  ghost predicate UpsertsFound(prev: seq<Entry>, next: seq<Entry>, n: nat)
    requires n <= |next|
  {
    && (forall u :: u in Upserts(prev, next, n) ==> IsAnew(prev, next, u))
    && forall i: nat :: i < n && Anew(prev, next, i) ==> IsSent(next, i, Upserts(prev, next, n))
  }

  lemma {:induction false} UpsertsAre(prev: seq<Entry>, next: seq<Entry>, n: nat)
    requires n <= |next|
    ensures UpsertsFound(prev, next, n)
  {
    if n > 0 {
      UpsertsAre(prev, next, n - 1);
      UpsertsStep(prev, next, n - 1);
    } else {
      NothingYet(prev, next);
    }
  }

  lemma UpsertsStep(prev: seq<Entry>, next: seq<Entry>, n: nat)
    requires n < |next| && UpsertsFound(prev, next, n)
    ensures UpsertsFound(prev, next, n + 1)
  {
    UpsertsNext(prev, next, n);
    var us, more := Upserts(prev, next, n), if Anew(prev, next, n) then [Upsert(After(next, n), next[n])] else [];
    if Anew(prev, next, n) {
      OneSent(prev, next, n);
      assert more[0] in us + more;
    }
    forall i: nat | i < n && Anew(prev, next, i)
      ensures IsSent(next, i, us + more)
    {
      StillSent(next, i, us, more);
    }
  }

  lemma GrowthIsSent(prev: seq<Entry>, next: seq<Entry>, i: nat)
    requires i < |next| && ChangeOf(prev, next, i).Grow?
    ensures SendsGrowth(prev, next, i, ChangeOf(prev, next, i).append)
  {
    var p := LastIndex(prev, next[i].id).value;
    LastNamedIs(prev, next[i].id, p);
    PlaceIs(prev, p, next, i);
    var k: nat :| GrowsAt(prev[p], next[i], k) && ChangeOf(prev, next, i).append == AppendAt(prev[p], next[i], k);
    GrowthIs(prev[p], next[i], k);
    assert Stayed(prev, next, i, p);
  }

  ghost predicate IsGrowth(prev: seq<Entry>, next: seq<Entry>, a: TextAppend) {
    exists i: nat :: SendsGrowth(prev, next, i, a)
  }

  ghost predicate GrowthSent(prev: seq<Entry>, next: seq<Entry>, i: nat, appends: seq<TextAppend>) {
    exists a :: a in appends && SendsGrowth(prev, next, i, a)
  }

  lemma StillGrown(prev: seq<Entry>, next: seq<Entry>, i: nat, appends: seq<TextAppend>, more: seq<TextAppend>)
    requires GrowthSent(prev, next, i, appends)
    ensures GrowthSent(prev, next, i, appends + more)
  {
    var a :| a in appends && SendsGrowth(prev, next, i, a);
    assert a in appends + more;
  }

  lemma OneGrowth(prev: seq<Entry>, next: seq<Entry>, n: nat, appends: seq<TextAppend>)
    requires n < |next| && ChangeOf(prev, next, n).Grow?
    ensures IsGrowth(prev, next, ChangeOf(prev, next, n).append)
    ensures GrowthSent(prev, next, n, appends + [ChangeOf(prev, next, n).append])
  {
    var a := ChangeOf(prev, next, n).append;
    GrowthIsSent(prev, next, n);
    assert SendsGrowth(prev, next, n, a) && a in appends + [a];
  }

  ghost predicate AppendsFound(prev: seq<Entry>, next: seq<Entry>, n: nat)
    requires n <= |next|
  {
    && (forall a :: a in Appends(prev, next, n) ==> IsGrowth(prev, next, a))
    && forall i: nat :: i < n && Grew(prev, next, i) ==> GrowthSent(prev, next, i, Appends(prev, next, n))
  }

  lemma AppendsStep(prev: seq<Entry>, next: seq<Entry>, n: nat)
    requires n < |next| && AppendsFound(prev, next, n)
    ensures AppendsFound(prev, next, n + 1)
  {
    AppendsNext(prev, next, n);
    var appends := Appends(prev, next, n);
    if Grew(prev, next, n) {
      var more := [ChangeOf(prev, next, n).append];
      OneGrowth(prev, next, n, appends);
      forall i: nat | i < n && Grew(prev, next, i)
        ensures GrowthSent(prev, next, i, appends + more)
      {
        StillGrown(prev, next, i, appends, more);
      }
    } else {
      assert appends + [] == appends;
    }
  }

  lemma {:induction false} AppendsAre(prev: seq<Entry>, next: seq<Entry>, n: nat)
    requires n <= |next|
    ensures AppendsFound(prev, next, n)
  {
    if n > 0 {
      AppendsAre(prev, next, n - 1);
      AppendsStep(prev, next, n - 1);
    } else {
      NothingYet(prev, next);
    }
  }

  ghost predicate Names(s: seq<Entry>, id: string) {
    exists j :: 0 <= j < |s| && s[j].id == id
  }

  lemma NamesSnoc(s: seq<Entry>, id: string)
    requires s != []
    ensures Names(s, id) <==> Names(s[..|s| - 1], id) || id == s[|s| - 1].id
  {
    var front := s[..|s| - 1];
    if Names(front, id) {
      var j :| 0 <= j < |front| && front[j].id == id;
      assert s[j].id == id;
    }
    assert forall j :: 0 <= j < |front| ==> front[j] == s[j];
  }

  lemma {:induction false} DroppedAre(s: seq<Entry>, other: seq<Entry>)
    ensures forall id :: id in Dropped(s, other) <==> Names(s, id) && !Names(other, id)
    decreases |s|
  {
    if s != [] {
      DroppedAre(s[..|s| - 1], other);
      forall id
        ensures Names(s, id) <==> Names(s[..|s| - 1], id) || id == s[|s| - 1].id
      {
        NamesSnoc(s, id);
      }
    }
  }

  /**
   A delta carries exactly the entries that are new, moved or otherwise changed, one append for each that
   merely grew, and the names of those that are gone.
   */
  lemma DeltaCarries(prev: seq<Entry>, next: seq<Entry>)
    requires Diff(prev, next).Delta?
    ensures var d := Diff(prev, next);
            && |d.upsert| == |AnewAmong(prev, next, |next|)| && |d.append| == |GrewAmong(prev, next, |next|)|
            && (forall u :: u in d.upsert ==> IsAnew(prev, next, u))
            && (forall i: nat :: Anew(prev, next, i) ==> IsSent(next, i, d.upsert))
            && (forall a :: a in d.append ==> IsGrowth(prev, next, a))
            && (forall i: nat :: Grew(prev, next, i) ==> GrowthSent(prev, next, i, d.append))
            && (forall id :: id in d.remove <==> Names(prev, id) && !Names(next, id))
            && d.count == |next|
  {
    UpsertsCount(prev, next);
    AppendsCount(prev, next);
    UpsertsAre(prev, next, |next|);
    AppendsAre(prev, next, |next|);
    DroppedAre(prev, next);
  }

  // ── a streamed delta ──────────────────────────────────────────────────────

  /** The transcript after a text delta has been folded into entry `i`. */
  function Streamed(s: seq<Entry>, i: nat, delta: Bytes): seq<Entry>
    requires i < |s|
  {
    s[i := s[i].(parts := Fold(s[i].parts, TextDelta(delta)))]
  }

  lemma StreamingGrows(e: Entry, delta: Bytes)
    requires e.parts != [] && e.parts[|e.parts| - 1].Text? && delta != []
    ensures var last := e.parts[|e.parts| - 1];
            TextGrowth(e, e.(parts := Fold(e.parts, TextDelta(delta))))
            == Some(TextAppend(e.id, last.id, delta, |last.text| + |delta|))
  {
    var n, k := e.(parts := Fold(e.parts, TextDelta(delta))), |e.parts| - 1;
    var last := e.parts[k];
    assert n.parts[k] == Text(last.id, last.text + delta);
    assert |n.parts[k].text| > |last.text|;
    assert TextGrewAt(e, n, k);
    GrowthIs(e, n, k);
    forall j: nat | GrowsAt(e, n, j)
      ensures j == k
    {
      OnlyGrowthPoint(e, n, j, k);
    }
    assert (last.text + delta)[|last.text|..] == delta;
  }

  lemma StreamingChange(s: seq<Entry>, i: nat, delta: Bytes, j: nat)
    requires DistinctIds(s) && i < |s| && s[i].parts != [] && s[i].parts[|s[i].parts| - 1].Text? && delta != []
    requires j < |s|
    ensures var last := s[i].parts[|s[i].parts| - 1];
            ChangeOf(s, Streamed(s, i, delta), j)
            == if j == i then Grow(TextAppend(s[i].id, last.id, delta, |last.text| + |delta|)) else Keep
  {
    var next := Streamed(s, i, delta);
    StreamingGrows(s[i], delta);
    assert next[j].id == s[j].id;
    LastAt(s, j);
    assert After(s, j) == After(next, j);
    GrewIs(s[i], next[i]);
  }

  lemma OneAppend(prev: seq<Entry>, next: seq<Entry>, i: nat, append: TextAppend)
    requires i < |next|
    requires forall j: nat :: j < |next| ==> ChangeOf(prev, next, j) == if j == i then Grow(append) else Keep
    ensures Upserts(prev, next, |next|) == [] && Appends(prev, next, |next|) == [append]
  {
    NothingYet(prev, next);
    for n := 0 to |next|
      invariant Upserts(prev, next, n) == [] && Appends(prev, next, n) == if i < n then [append] else []
    {
      OneMore(prev, next, n);
    }
  }

  /**
   While text streams into the last part of an entry, each frame is one append of just the new bytes,
   however long the transcript.
   */
  lemma StreamingSendsOneAppend(s: seq<Entry>, i: nat, delta: Bytes)
    requires DistinctIds(s) && i < |s| && s[i].parts != [] && s[i].parts[|s[i].parts| - 1].Text? && delta != []
    ensures var last := s[i].parts[|s[i].parts| - 1];
            Diff(s, Streamed(s, i, delta))
            == Delta([], [TextAppend(s[i].id, last.id, delta, |last.text| + |delta|)], [], |s|)
  {
    var next, last := Streamed(s, i, delta), s[i].parts[|s[i].parts| - 1];
    forall j: nat | j < |next|
      ensures ChangeOf(s, next, j) == if j == i then Grow(TextAppend(s[i].id, last.id, delta, |last.text| + |delta|)) else Keep
    {
      StreamingChange(s, i, delta, j);
    }
    OneAppend(s, next, i, TextAppend(s[i].id, last.id, delta, |last.text| + |delta|));
    NoneDropped(s, next);
  }

  lemma OneMore(prev: seq<Entry>, next: seq<Entry>, n: nat)
    requires n < |next|
    ensures Upserts(prev, next, n + 1)
         == Upserts(prev, next, n) + if ChangeOf(prev, next, n).Put? then [Upsert(After(next, n), next[n])] else []
    ensures Appends(prev, next, n + 1)
         == Appends(prev, next, n) + if ChangeOf(prev, next, n).Grow? then [ChangeOf(prev, next, n).append] else []
  {
  }

  lemma NoneDropped(s: seq<Entry>, next: seq<Entry>)
    requires |next| == |s| && forall j :: 0 <= j < |s| ==> next[j].id == s[j].id
    ensures Dropped(s, next) == []
  {
    DroppedAre(s, next);
    forall id | Names(s, id)
      ensures Names(next, id)
    {
      var j :| 0 <= j < |s| && s[j].id == id;
      assert next[j].id == id;
    }
    NothingIn(Dropped(s, next));
  }

  lemma NothingIn(ids: seq<string>)
    ensures ids == [] || ids[0] in ids
  {
  }
}
