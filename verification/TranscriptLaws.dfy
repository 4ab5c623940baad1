/**
 When a patched copy equals the transcript it was diffed against: exactly when the entries the delta
 leaves in place already stand in the right order and each append finds the part that grew.
 */
module TranscriptLaws {
  import opened Prelude
  import opened MessageParts
  import opened TranscriptDelta

  // ── positions under removal and insertion ─────────────────────────────────

  lemma Removal(s: seq<Entry>, p: nat)
    requires DistinctIds(s) && p < |s|
    ensures var rest := s[..p] + s[p + 1..];
            && DistinctIds(rest) && |rest| == |s| - 1
            && (forall j :: 0 <= j < p ==> rest[j] == s[j])
            && (forall j :: p <= j < |rest| ==> rest[j] == s[j + 1])
  {
  }

  lemma PosIs(s: seq<Entry>, id: string, p: nat)
    requires p < |s| && s[p].id == id && forall j :: 0 <= j < p ==> s[j].id != id
    ensures Pos(s, id) == p
  {
  }

  /** Entries before the removed one stay, the ones after it move down by one. */
  lemma RemovedFound(s: seq<Entry>, id: string, x: string)
    requires DistinctIds(s) && Has(s, id) && x != id && Has(s, x)
    ensures Pos(Removed(s, id), x) == Pos(s, x) - if Pos(s, id) < Pos(s, x) then 1 else 0
    ensures Has(Removed(s, id), x) && Removed(s, id)[Pos(Removed(s, id), x)] == s[Pos(s, x)]
  {
    var p, q := Pos(s, id), Pos(s, x);
    var rest := s[..p] + s[p + 1..];
    Removal(s, p);
    if q < p {
      PosIs(rest, x, q);
    } else {
      assert rest[q - 1] == s[q];
      PosIs(rest, x, q - 1);
    }
  }

  lemma RemovedAbsent(s: seq<Entry>, id: string, x: string)
    requires DistinctIds(s) && Has(s, id) && !Has(s, x)
    ensures !Has(Removed(s, id), x)
  {
  }

  lemma RemovedPosOf(s: seq<Entry>, id: string, x: string)
    requires DistinctIds(s) && x != id
    ensures var rest := Removed(s, id);
            && (Has(rest, x) <==> Has(s, x))
            && (Has(s, x) ==> rest[Pos(rest, x)] == s[Pos(s, x)]
                              && Pos(rest, x) == Pos(s, x) - if Pos(s, id) < Pos(s, x) then 1 else 0)
  {
    if Has(s, id) {
      if Has(s, x) {
        RemovedFound(s, id, x);
      } else {
        RemovedAbsent(s, id, x);
      }
    }
  }

  lemma RemovedShape(s: seq<Entry>, id: string)
    requires DistinctIds(s)
    ensures DistinctIds(Removed(s, id)) && !Has(Removed(s, id), id)
    ensures |Removed(s, id)| == |s| - if Has(s, id) then 1 else 0
  {
  }

  lemma Insertion(s: seq<Entry>, at: nat, e: Entry)
    requires DistinctIds(s) && at <= |s| && !Has(s, e.id)
    ensures var out := Inserted(s, at, e);
            && DistinctIds(out) && |out| == |s| + 1 && out[at] == e && Pos(out, e.id) == at
            && (forall j :: 0 <= j < at ==> out[j] == s[j])
            && (forall j :: at < j < |out| ==> out[j] == s[j - 1])
  {
  }

  lemma InsertedPosOf(s: seq<Entry>, at: nat, e: Entry, x: string)
    requires DistinctIds(s) && at <= |s| && !Has(s, e.id) && x != e.id
    ensures var out := Inserted(s, at, e);
            && (Has(out, x) <==> Has(s, x))
            && (Has(s, x) ==> out[Pos(out, x)] == s[Pos(s, x)]
                              && Pos(out, x) == Pos(s, x) + if at <= Pos(s, x) then 1 else 0)
  {
    var out, q := Inserted(s, at, e), Pos(s, x);
    Insertion(s, at, e);
    if q == |s| {
      assert forall j :: 0 <= j < |out| ==> out[j].id != x;
    } else if q < at {
      PosAt(out, q);
    } else {
      assert out[q + 1] == s[q];
      PosAt(out, q + 1);
    }
  }

  ghost predicate SameBut(s: seq<Entry>, out: seq<Entry>, id: string) {
    && (forall x :: x != id ==> (Has(out, x) <==> Has(s, x)) && (Has(s, x) ==> out[Pos(out, x)] == s[Pos(s, x)]))
    && (forall x, y :: x != id && y != id && Has(s, x) && Has(s, y) ==>
          (Pos(out, x) < Pos(out, y) <==> Pos(s, x) < Pos(s, y)))
  }

  /** An upsert puts its entry right after the anchor and moves nothing else past anything else. */
  function SlotFor(s: seq<Entry>, u: Upsert): nat {
    var rest := Removed(s, u.entry.id);
    if u.after.None? then 0 else Pos(rest, u.after.value) + 1
  }

  ghost predicate Anchored(s: seq<Entry>, u: Upsert) {
    u.after.Some? ==> Has(s, u.after.value) && u.after.value != u.entry.id
  }

  lemma PlaceIs(s: seq<Entry>, u: Upsert)
    requires DistinctIds(s) && Anchored(s, u)
    ensures SlotFor(s, u) <= |Removed(s, u.entry.id)|
    ensures Place(s, u) == Some(Inserted(Removed(s, u.entry.id), SlotFor(s, u), u.entry))
    ensures DistinctIds(Removed(s, u.entry.id)) && !Has(Removed(s, u.entry.id), u.entry.id)
    ensures DistinctIds(Place(s, u).value) && Pos(Place(s, u).value, u.entry.id) == SlotFor(s, u)
    ensures Has(Place(s, u).value, u.entry.id) && Place(s, u).value[SlotFor(s, u)] == u.entry
  {
    RemovedShape(s, u.entry.id);
    if u.after.Some? {
      RemovedPosOf(s, u.entry.id, u.after.value);
    }
    Insertion(Removed(s, u.entry.id), SlotFor(s, u), u.entry);
  }

  /** Where everything but the placed entry ends up. */
  lemma PlacePosOf(s: seq<Entry>, u: Upsert, x: string)
    requires DistinctIds(s) && Anchored(s, u) && x != u.entry.id
    requires Place(s, u).Some?
    ensures var out := Place(s, u).value;
            && (Has(out, x) <==> Has(s, x))
            && (Has(s, x) ==>
                  var q := Pos(s, x) - if Pos(s, u.entry.id) < Pos(s, x) then 1 else 0;
                  && out[Pos(out, x)] == s[Pos(s, x)]
                  && Pos(out, x) == q + if SlotFor(s, u) <= q then 1 else 0)
  {
    PlaceIs(s, u);
    RemovedPosOf(s, u.entry.id, x);
    InsertedPosOf(Removed(s, u.entry.id), SlotFor(s, u), u.entry, x);
  }

  lemma PlaceAfterAnchor(s: seq<Entry>, u: Upsert, x: string)
    requires DistinctIds(s) && Anchored(s, u) && x != u.entry.id && Has(s, x)
    requires Place(s, u).Some?
    ensures Pos(Place(s, u).value, u.entry.id) < Pos(Place(s, u).value, x)
       <==> u.after.None? || Pos(s, u.after.value) < Pos(s, x)
  {
    PlaceIs(s, u);
    PlacePosOf(s, u, x);
    if u.after.Some? {
      RemovedPosOf(s, u.entry.id, u.after.value);
    }
  }

  /** An upsert puts its entry right after the anchor and moves nothing else past anything else. */
  lemma PlaceEffect(s: seq<Entry>, u: Upsert)
    requires DistinctIds(s) && Anchored(s, u)
    ensures Place(s, u).Some?
    ensures var out := Place(s, u).value;
            && DistinctIds(out) && SameBut(s, out, u.entry.id)
            && Has(out, u.entry.id) && out[Pos(out, u.entry.id)] == u.entry
            && forall x :: x != u.entry.id && Has(s, x) ==>
                 (Pos(out, u.entry.id) < Pos(out, x) <==> u.after.None? || Pos(s, u.after.value) < Pos(s, x))
  {
    PlaceIs(s, u);
    var out := Place(s, u).value;
    forall x | x != u.entry.id
      ensures Has(out, x) <==> Has(s, x)
      ensures Has(s, x) ==> out[Pos(out, x)] == s[Pos(s, x)]
      ensures Has(s, x) ==> (Pos(out, u.entry.id) < Pos(out, x) <==> u.after.None? || Pos(s, u.after.value) < Pos(s, x))
    {
      PlacePosOf(s, u, x);
      if Has(s, x) {
        PlaceAfterAnchor(s, u, x);
      }
    }
    forall x, y | x != u.entry.id && y != u.entry.id && Has(s, x) && Has(s, y)
      ensures Pos(out, x) < Pos(out, y) <==> Pos(s, x) < Pos(s, y)
    {
      PlacePosOf(s, u, x);
      PlacePosOf(s, u, y);
    }
  }

  // ── the state while upserts are placed ────────────────────────────────────

  /** What entry `i` is once every upsert is placed and before any text is appended. */
  ghost function BaseAt(prev: seq<Entry>, next: seq<Entry>, i: nat): Entry
    requires i < |next|
  {
    if ChangeOf(prev, next, i).Grow? then prev[LastIndex(prev, next[i].id).value] else next[i]
  }

  /** The delta leaves this entry where it is. */
  ghost predicate Kept(prev: seq<Entry>, next: seq<Entry>, id: string) {
    Has(next, id) && !ChangeOf(prev, next, Pos(next, id)).Put?
  }

  /** The entries left in place stand in the same order in both transcripts. */
  ghost predicate KeptInOrder(prev: seq<Entry>, next: seq<Entry>) {
    forall a, b :: Kept(prev, next, a) && Kept(prev, next, b) && Pos(next, a) < Pos(next, b) ==> Pos(prev, a) < Pos(prev, b)
  }

  ghost predicate Shape(prev: seq<Entry>, next: seq<Entry>, i: nat, cur: seq<Entry>)
    requires i <= |next|
  {
    && DistinctIds(cur)
    && (forall x :: Has(cur, x) <==> Has(next, x) && (Has(prev, x) || Pos(next, x) < i))
    && (forall x :: Has(cur, x) ==>
          cur[Pos(cur, x)] == if Pos(next, x) < i then BaseAt(prev, next, Pos(next, x)) else prev[Pos(prev, x)])
  }

  ghost predicate Done(prev: seq<Entry>, next: seq<Entry>, i: nat, id: string) {
    Has(next, id) && (Pos(next, id) < i || Kept(prev, next, id))
  }

  ghost predicate InOrder(prev: seq<Entry>, next: seq<Entry>, i: nat, cur: seq<Entry>) {
    forall a, b :: Done(prev, next, i, a) && Done(prev, next, i, b) ==>
      (Pos(cur, a) < Pos(cur, b) <==> Pos(next, a) < Pos(next, b))
  }

  /** Entries left in place never pass each other, whatever is placed around them. */
  ghost predicate KeptStill(prev: seq<Entry>, next: seq<Entry>, cur: seq<Entry>) {
    forall a, b :: Kept(prev, next, a) && Kept(prev, next, b) ==>
      (Pos(cur, a) < Pos(cur, b) <==> Pos(prev, a) < Pos(prev, b))
  }

  lemma KeptIsInBoth(prev: seq<Entry>, next: seq<Entry>, id: string)
    requires DistinctIds(prev) && DistinctIds(next) && Kept(prev, next, id)
    ensures Has(prev, id) && BaseAt(prev, next, Pos(next, id)) == prev[Pos(prev, id)]
  {
  }

  lemma PlaceStepShape(prev: seq<Entry>, next: seq<Entry>, i: nat, cur: seq<Entry>, out: seq<Entry>)
    requires DistinctIds(prev) && DistinctIds(next) && i < |next| && Shape(prev, next, i, cur)
    requires ChangeOf(prev, next, i).Put? && DistinctIds(out) && SameBut(cur, out, next[i].id)
    requires Has(out, next[i].id) && out[Pos(out, next[i].id)] == next[i]
    ensures Shape(prev, next, i + 1, out)
  {
  }

  lemma DoneIsPresent(prev: seq<Entry>, next: seq<Entry>, i: nat, cur: seq<Entry>, id: string)
    requires DistinctIds(prev) && DistinctIds(next) && i <= |next| && Shape(prev, next, i, cur)
    requires Done(prev, next, i, id)
    ensures Has(cur, id)
  {
  }

  lemma PlaceStepOrder(prev: seq<Entry>, next: seq<Entry>, i: nat, cur: seq<Entry>, out: seq<Entry>)
    requires DistinctIds(prev) && DistinctIds(next) && i < |next| && Shape(prev, next, i, cur)
    requires ChangeOf(prev, next, i).Put? && InOrder(prev, next, i, cur)
    requires DistinctIds(out) && SameBut(cur, out, next[i].id) && Has(out, next[i].id)
    requires forall x :: x != next[i].id && Has(cur, x) ==>
               (Pos(out, next[i].id) < Pos(out, x) <==> i == 0 || Pos(cur, next[i - 1].id) < Pos(cur, x))
    ensures InOrder(prev, next, i + 1, out)
  {
    var e := next[i].id;
    PosAt(next, i);
    if i > 0 {
      PosAt(next, i - 1);
    }
    forall b | Done(prev, next, i + 1, b) && b != e
      ensures Done(prev, next, i, b) && Has(cur, b) && Has(out, b)
      ensures Pos(out, e) < Pos(out, b) <==> i < Pos(next, b)
      ensures Pos(out, e) != Pos(out, b) && Pos(next, b) != i
    {
      DoneIsPresent(prev, next, i, cur, b);
      if i > 0 {
        assert Done(prev, next, i, next[i - 1].id);
      }
    }
  }

  lemma PlaceStep(prev: seq<Entry>, next: seq<Entry>, i: nat, cur: seq<Entry>)
    requires DistinctIds(prev) && DistinctIds(next) && i < |next| && Shape(prev, next, i, cur)
    requires ChangeOf(prev, next, i).Put?
    ensures var out := Place(cur, Upsert(After(next, i), next[i]));
            && out.Some? && Shape(prev, next, i + 1, out.value)
            && (InOrder(prev, next, i, cur) ==> InOrder(prev, next, i + 1, out.value))
            && (KeptStill(prev, next, cur) ==> KeptStill(prev, next, out.value))
  {
    PosAt(next, i);
    if i > 0 {
      PosAt(next, i - 1);
    }
    var u := Upsert(After(next, i), next[i]);
    PlaceEffect(cur, u);
    var out := Place(cur, u).value;
    PlaceStepShape(prev, next, i, cur, out);
    if InOrder(prev, next, i, cur) {
      PlaceStepOrder(prev, next, i, cur, out);
    }
    forall a | Kept(prev, next, a)
      ensures Has(cur, a) && a != next[i].id
    {
      KeptIsInBoth(prev, next, a);
    }
  }

  lemma KeepStep(prev: seq<Entry>, next: seq<Entry>, i: nat, cur: seq<Entry>)
    requires DistinctIds(prev) && DistinctIds(next) && i < |next| && Shape(prev, next, i, cur)
    requires !ChangeOf(prev, next, i).Put?
    ensures Shape(prev, next, i + 1, cur)
    ensures InOrder(prev, next, i, cur) ==> InOrder(prev, next, i + 1, cur)
  {
    PosAt(next, i);
    KeptIsInBoth(prev, next, next[i].id);
    assert forall x :: Has(next, x) && Pos(next, x) == i ==> x == next[i].id;
    assert forall x :: Done(prev, next, i + 1, x) ==> Done(prev, next, i, x);
  }

  /** Everything known about the copy after the first `i` entries have been dealt with. */
  ghost predicate Placed(prev: seq<Entry>, next: seq<Entry>, i: nat, ordered: bool, cur: seq<Entry>)
    requires i <= |next|
  {
    Shape(prev, next, i, cur) && KeptStill(prev, next, cur) && (ordered ==> InOrder(prev, next, i, cur))
  }

  /** The copy after entry `i` has been dealt with. */
  ghost function Advance(prev: seq<Entry>, next: seq<Entry>, i: nat, cur: seq<Entry>): Option<seq<Entry>>
    requires i < |next|
  {
    if ChangeOf(prev, next, i).Put? then Place(cur, Upsert(After(next, i), next[i])) else Some(cur)
  }

  lemma PlacedStep(prev: seq<Entry>, next: seq<Entry>, i: nat, ordered: bool, cur: seq<Entry>)
    requires DistinctIds(prev) && DistinctIds(next) && i < |next| && Placed(prev, next, i, ordered, cur)
    ensures Advance(prev, next, i, cur).Some? && Placed(prev, next, i + 1, ordered, Advance(prev, next, i, cur).value)
  {
    if ChangeOf(prev, next, i).Put? {
      PlaceStep(prev, next, i, cur);
    } else {
      KeepStep(prev, next, i, cur);
    }
  }

  lemma UpsertsStep(prev: seq<Entry>, next: seq<Entry>, start: seq<Entry>, i: nat)
    requires i < |next| && PlaceAll(start, Upserts(prev, next, i)).Some?
    ensures PlaceAll(start, Upserts(prev, next, i + 1)) == Advance(prev, next, i, PlaceAll(start, Upserts(prev, next, i)).value)
  {
    var us := Upserts(prev, next, i);
    var u := Upsert(After(next, i), next[i]);
    assert (us + [u])[..|us|] == us;
    assert us + [] == us;
  }

  /** The copies passed through, one per entry of `next`. */
  ghost function CopyAt(prev: seq<Entry>, next: seq<Entry>, start: seq<Entry>, i: nat): Option<seq<Entry>>
    requires i <= |next|
  {
    PlaceAll(start, Upserts(prev, next, i))
  }

  ghost predicate PlacedOpt(prev: seq<Entry>, next: seq<Entry>, i: nat, ordered: bool, cur: Option<seq<Entry>>)
    requires i <= |next|
  {
    cur.Some? && Placed(prev, next, i, ordered, cur.value)
  }

  lemma PlacedOptStep(prev: seq<Entry>, next: seq<Entry>, start: seq<Entry>, i: nat, ordered: bool)
    requires DistinctIds(prev) && DistinctIds(next) && i < |next|
    requires PlacedOpt(prev, next, i, ordered, CopyAt(prev, next, start, i))
    ensures PlacedOpt(prev, next, i + 1, ordered, CopyAt(prev, next, start, i + 1))
  {
    var cur := CopyAt(prev, next, start, i).value;
    UpsertsStep(prev, next, start, i);
    assert CopyAt(prev, next, start, i + 1) == Advance(prev, next, i, cur);
    PlacedStep(prev, next, i, ordered, cur);
  }

  lemma CopyAtStart(prev: seq<Entry>, next: seq<Entry>, start: seq<Entry>)
    ensures CopyAt(prev, next, start, 0) == Some(start)
  {
  }

  lemma {:induction false} PlacedUpTo(prev: seq<Entry>, next: seq<Entry>, start: seq<Entry>, i: nat, ordered: bool)
    requires DistinctIds(prev) && DistinctIds(next) && i <= |next|
    requires PlacedOpt(prev, next, 0, ordered, CopyAt(prev, next, start, 0))
    ensures PlacedOpt(prev, next, i, ordered, CopyAt(prev, next, start, i))
  {
    for j := 0 to i
      invariant PlacedOpt(prev, next, j, ordered, CopyAt(prev, next, start, j))
    {
      PlacedOptStep(prev, next, start, j, ordered);
    }
  }

  // ── the removals ──────────────────────────────────────────────────────────

  lemma {:induction false} DroppedAre(s: seq<Entry>, other: seq<Entry>, id: string)
    ensures id in Dropped(s, other) <==> Has(s, id) && !Has(other, id)
    decreases |s|
  {
    if s != [] {
      var front := s[..|s| - 1];
      DroppedAre(front, other, id);
      assert Has(s, id) <==> Has(front, id) || s[|s| - 1].id == id by {
        if Has(front, id) {
          assert s[Pos(front, id)].id == id;
        }
        if Has(s, id) && Pos(s, id) < |front| {
          assert front[Pos(s, id)].id == id;
        }
      }
    }
  }

  lemma PosCons(e: Entry, t: seq<Entry>, x: string)
    ensures Pos([e] + t, x) == if e.id == x then 0 else 1 + Pos(t, x)
  {
    PosTail([e] + t, x);
    assert ([e] + t)[1..] == t;
  }

  lemma PosTail(s: seq<Entry>, x: string)
    requires s != []
    ensures Pos(s, x) == if s[0].id == x then 0 else 1 + Pos(s[1..], x)
    ensures Has(s, x) <==> s[0].id == x || Has(s[1..], x)
  {
  }

  lemma {:induction false} WithoutKeeps(s: seq<Entry>, gone: seq<string>, x: string)
    requires DistinctIds(s)
    ensures var out := Without(s, gone);
            && (Has(out, x) <==> Has(s, x) && x !in gone)
            && (Has(out, x) ==> out[Pos(out, x)] == s[Pos(s, x)])
  {
    if s != [] {
      var tail := s[1..];
      var rest := Without(tail, gone);
      assert DistinctIds(tail) by {
        assert forall i :: 0 <= i < |tail| ==> tail[i] == s[i + 1];
      }
      WithoutKeeps(tail, gone, x);
      PosTail(s, x);
      if s[0].id in gone {
        assert Without(s, gone) == rest;
        if s[0].id == x && Has(rest, x) {
          assert false;
        }
      } else {
        PosCons(s[0], rest, x);
      }
    }
  }

  lemma {:induction false} WithoutPos(s: seq<Entry>, gone: seq<string>, x: string, y: string)
    requires DistinctIds(s) && Has(Without(s, gone), x) && Has(Without(s, gone), y)
    ensures Pos(Without(s, gone), x) < Pos(Without(s, gone), y) <==> Pos(s, x) < Pos(s, y)
  {
    var tail := s[1..];
    var rest := Without(tail, gone);
    assert DistinctIds(tail) by {
      assert forall i :: 0 <= i < |tail| ==> tail[i] == s[i + 1];
    }
    WithoutKeeps(s, gone, x);
    WithoutKeeps(s, gone, y);
    PosTail(s, x);
    PosTail(s, y);
    if s[0].id in gone {
      assert Without(s, gone) == rest;
      WithoutPos(tail, gone, x, y);
    } else {
      PosCons(s[0], rest, x);
      PosCons(s[0], rest, y);
      if x != s[0].id && y != s[0].id {
        WithoutPos(tail, gone, x, y);
      }
    }
  }

  lemma {:induction false} WithoutDistinct(s: seq<Entry>, gone: seq<string>)
    requires DistinctIds(s)
    ensures DistinctIds(Without(s, gone))
    ensures forall e :: e in Without(s, gone) ==> e in s
  {
    if s != [] {
      var tail := s[1..];
      assert forall i :: 0 <= i < |tail| ==> tail[i] == s[i + 1];
      WithoutDistinct(tail, gone);
      forall e | e in Without(tail, gone)
        ensures e.id != s[0].id
      {
        var j :| 0 <= j < |tail| && tail[j] == e;
      }
    }
  }

  lemma StartShape(prev: seq<Entry>, next: seq<Entry>)
    requires DistinctIds(prev) && DistinctIds(next)
    ensures var start := Without(prev, Dropped(prev, next));
            && Shape(prev, next, 0, start) && KeptStill(prev, next, start)
            && (KeptInOrder(prev, next) ==> InOrder(prev, next, 0, start))
  {
    var gone := Dropped(prev, next);
    var start := Without(prev, gone);
    WithoutDistinct(prev, gone);
    forall x
      ensures Has(start, x) <==> Has(prev, x) && Has(next, x)
      ensures Has(start, x) ==> start[Pos(start, x)] == prev[Pos(prev, x)]
    {
      DroppedAre(prev, next, x);
      WithoutKeeps(prev, gone, x);
    }
    forall a, b | Kept(prev, next, a) && Kept(prev, next, b)
      ensures Pos(start, a) < Pos(start, b) <==> Pos(prev, a) < Pos(prev, b)
      ensures a != b ==> Pos(prev, a) != Pos(prev, b) && Pos(next, a) != Pos(next, b)
    {
      KeptIsInBoth(prev, next, a);
      KeptIsInBoth(prev, next, b);
      assert Has(start, a) && Has(start, b);
      WithoutPos(prev, gone, a, b);
    }
  }

  // ── lists in the same order ───────────────────────────────────────────────

  lemma {:induction false} SameLength(x: seq<Entry>, y: seq<Entry>)
    requires DistinctIds(x) && DistinctIds(y) && forall id :: Has(x, id) <==> Has(y, id)
    ensures |x| == |y|
    decreases |x|
  {
    if x == [] {
      assert y != [] ==> Has(y, y[0].id);
    } else {
      var h := x[0].id;
      assert Has(x, h);
      RemovedShape(x, h);
      RemovedShape(y, h);
      forall id
        ensures Has(Removed(x, h), id) <==> Has(Removed(y, h), id)
      {
        if id != h {
          RemovedPosOf(x, h, id);
          RemovedPosOf(y, h, id);
        }
      }
      SameLength(Removed(x, h), Removed(y, h));
    }
  }

  ghost predicate SameEntries(x: seq<Entry>, y: seq<Entry>) {
    forall id :: (Has(x, id) <==> Has(y, id)) && (Has(x, id) ==> x[Pos(x, id)] == y[Pos(y, id)])
  }

  ghost predicate SameOrder(x: seq<Entry>, y: seq<Entry>) {
    forall a, b :: Has(x, a) && Has(x, b) ==> (Pos(x, a) < Pos(x, b) <==> Pos(y, a) < Pos(y, b))
  }

  lemma TailPos(s: seq<Entry>, id: string)
    requires DistinctIds(s) && s != []
    ensures Has(s[1..], id) <==> Has(s, id) && id != s[0].id
    ensures Has(s[1..], id) ==> Pos(s[1..], id) == Pos(s, id) - 1 && s[1..][Pos(s[1..], id)] == s[Pos(s, id)]
  {
  }

  lemma SameHead(x: seq<Entry>, y: seq<Entry>)
    requires DistinctIds(x) && DistinctIds(y) && SameEntries(x, y) && SameOrder(x, y) && x != []
    ensures y != [] && x[0] == y[0]
  {
    var h := x[0].id;
    assert Pos(x, h) == 0 && Has(x, h) && Has(y, h);
    var g := y[0].id;
    assert Pos(y, g) == 0 && Has(y, g) && Has(x, g);
    assert Pos(y, h) == 0;
  }

  lemma SameTails(x: seq<Entry>, y: seq<Entry>)
    requires DistinctIds(x) && DistinctIds(y) && SameEntries(x, y) && SameOrder(x, y) && x != []
    requires y != [] && x[0] == y[0]
    ensures DistinctIds(x[1..]) && DistinctIds(y[1..]) && SameEntries(x[1..], y[1..]) && SameOrder(x[1..], y[1..])
  {
    assert forall i :: 0 <= i < |x[1..]| ==> x[1..][i] == x[i + 1];
    assert forall i :: 0 <= i < |y[1..]| ==> y[1..][i] == y[i + 1];
    forall id
      ensures Has(x[1..], id) <==> Has(x, id) && id != x[0].id
      ensures Has(x[1..], id) ==> Pos(x[1..], id) == Pos(x, id) - 1 && x[1..][Pos(x[1..], id)] == x[Pos(x, id)]
      ensures Has(y[1..], id) <==> Has(y, id) && id != x[0].id
      ensures Has(y[1..], id) ==> Pos(y[1..], id) == Pos(y, id) - 1 && y[1..][Pos(y[1..], id)] == y[Pos(y, id)]
    {
      TailPos(x, id);
      TailPos(y, id);
    }
  }

  lemma {:induction false} SameOrderSameList(x: seq<Entry>, y: seq<Entry>)
    requires DistinctIds(x) && DistinctIds(y) && SameEntries(x, y) && SameOrder(x, y)
    ensures x == y
    decreases |x|
  {
    if x == [] {
      assert y != [] ==> Has(y, y[0].id);
    } else {
      SameHead(x, y);
      SameTails(x, y);
      SameOrderSameList(x[1..], y[1..]);
      assert x == [x[0]] + x[1..] && y == [y[0]] + y[1..];
    }
  }

  // ── what the placing phase leaves ─────────────────────────────────────────

  ghost function Base(prev: seq<Entry>, next: seq<Entry>): (out: seq<Entry>)
    ensures |out| == |next|
    ensures forall i :: 0 <= i < |out| ==> out[i] == BaseAt(prev, next, i)
  {
    seq(|next|, i requires 0 <= i < |next| => BaseAt(prev, next, i))
  }

  lemma BaseId(prev: seq<Entry>, next: seq<Entry>, i: nat)
    requires i < |next|
    ensures BaseAt(prev, next, i).id == next[i].id
  {
  }

  lemma BasePos(prev: seq<Entry>, next: seq<Entry>, id: string)
    requires DistinctIds(next)
    ensures DistinctIds(Base(prev, next))
    ensures Pos(Base(prev, next), id) == Pos(next, id)
  {
    var base := Base(prev, next);
    forall i | 0 <= i < |next|
      ensures base[i].id == next[i].id
    {
      BaseId(prev, next, i);
    }
  }

  /** The copy once every upsert is placed. */
  ghost function AfterPlacing(prev: seq<Entry>, next: seq<Entry>): Option<seq<Entry>> {
    PlaceAll(Without(prev, Dropped(prev, next)), Upserts(prev, next, |next|))
  }

  ghost predicate HoldsBase(prev: seq<Entry>, next: seq<Entry>, cur: seq<Entry>) {
    && DistinctIds(cur) && |cur| == |next|
    && forall x :: (Has(cur, x) <==> Has(next, x)) && (Has(cur, x) ==> cur[Pos(cur, x)] == BaseAt(prev, next, Pos(next, x)))
  }

  lemma PlacingDone(prev: seq<Entry>, next: seq<Entry>)
    requires DistinctIds(prev) && DistinctIds(next)
    ensures PlacedOpt(prev, next, |next|, KeptInOrder(prev, next), AfterPlacing(prev, next))
  {
    var start := Without(prev, Dropped(prev, next));
    StartShape(prev, next);
    CopyAtStart(prev, next, start);
    PlacedUpTo(prev, next, start, |next|, KeptInOrder(prev, next));
  }

  lemma PlacedHoldsBase(prev: seq<Entry>, next: seq<Entry>, ordered: bool, cur: seq<Entry>)
    requires DistinctIds(prev) && DistinctIds(next) && Placed(prev, next, |next|, ordered, cur)
    ensures HoldsBase(prev, next, cur)
  {
    SameLength(cur, next);
  }

  lemma PlacedInOrderIsBase(prev: seq<Entry>, next: seq<Entry>, cur: seq<Entry>)
    requires DistinctIds(prev) && DistinctIds(next) && Placed(prev, next, |next|, true, cur)
    ensures cur == Base(prev, next)
  {
    var base := Base(prev, next);
    forall x
      ensures Pos(base, x) == Pos(next, x) && DistinctIds(base)
    {
      BasePos(prev, next, x);
    }
    forall x
      ensures Has(cur, x) <==> Has(base, x)
      ensures Has(cur, x) ==> Done(prev, next, |next|, x)
      ensures Has(cur, x) ==> cur[Pos(cur, x)] == base[Pos(base, x)]
    {
      BasePos(prev, next, x);
    }
    SameOrderSameList(cur, base);
  }

  // ── the text appends ──────────────────────────────────────────────────────

  /** The grown part is the first text part with its id, which is the part an append finds. */
  ghost predicate GrowsFirst(prev: seq<Entry>, next: seq<Entry>, i: nat)
    requires i < |next|
  {
    var change := ChangeOf(prev, next, i);
    change.Grow? ==>
      var was := BaseAt(prev, next, i);
      GrowsAt(was, next[i], TextPos(was.parts, change.append.part))
  }

  ghost predicate GrowsFirstParts(prev: seq<Entry>, next: seq<Entry>) {
    forall i :: 0 <= i < |next| ==> GrowsFirst(prev, next, i)
  }

  /** What the append for entry `i`, if there is one, makes of it. */
  ghost function GrownAt(prev: seq<Entry>, next: seq<Entry>, i: nat): Option<Entry>
    requires i < |next|
  {
    var change := ChangeOf(prev, next, i);
    if change.Grow? then GrowEntry(BaseAt(prev, next, i), change.append) else Some(BaseAt(prev, next, i))
  }

  lemma GrowthFrom(p: Entry, n: Entry)
    requires TextGrowth(p, n).Some?
    ensures GrowEntry(p, TextGrowth(p, n).value) == Some(n) <==> GrowsAt(p, n, TextPos(p.parts, TextGrowth(p, n).value.part))
  {
    var k: nat :| GrowsAt(p, n, k) && TextGrowth(p, n).value == AppendAt(p, n, k);
    var a := AppendAt(p, n, k);
    var q := TextPos(p.parts, a.part);
    assert p.parts[k].text + a.text == n.parts[k].text;
    if q == k {
      assert n.parts == p.parts[k := n.parts[k]];
    } else {
      assert q < k;
      assert n.parts[k] != p.parts[k];
      assert GrowEntry(p, a).Some? ==> GrowEntry(p, a).value.parts[k] == p.parts[k];
      if GrowsAt(p, n, q) {
        OnlyGrowthPoint(p, n, q, k);
      }
    }
  }

  lemma GrownIsNextIff(prev: seq<Entry>, next: seq<Entry>, i: nat)
    requires i < |next|
    ensures GrownAt(prev, next, i) == Some(next[i]) <==> GrowsFirst(prev, next, i)
  {
    if ChangeOf(prev, next, i).Grow? {
      GrowthFrom(BaseAt(prev, next, i), next[i]);
    }
  }

  lemma GrowthTargets(prev: seq<Entry>, next: seq<Entry>, i: nat)
    requires i < |next| && ChangeOf(prev, next, i).Grow?
    ensures ChangeOf(prev, next, i).append.entry == next[i].id
  {
  }

  ghost predicate AllGrow(prev: seq<Entry>, next: seq<Entry>, i: nat)
    requires i <= |next|
  {
    forall j :: 0 <= j < i ==> GrownAt(prev, next, j).Some?
  }

  /** Same entries at the same places, the first `i` of `next` grown. */
  ghost predicate GrownTo(prev: seq<Entry>, next: seq<Entry>, cur: seq<Entry>, out: seq<Entry>, i: nat)
    requires i <= |next| && AllGrow(prev, next, i)
  {
    && |out| == |cur|
    && forall k :: 0 <= k < |cur| ==>
         && out[k].id == cur[k].id
         && (Pos(next, cur[k].id) < i ==> out[k] == GrownAt(prev, next, Pos(next, cur[k].id)).value)
         && (Pos(next, cur[k].id) >= i ==> out[k] == cur[k])
  }

  lemma AppendsStep(prev: seq<Entry>, next: seq<Entry>, cur: seq<Entry>, i: nat)
    requires i < |next|
    ensures GrowAll(cur, Appends(prev, next, i + 1))
         == var was := GrowAll(cur, Appends(prev, next, i));
            var change := ChangeOf(prev, next, i);
            if was.Some? && change.Grow? then GrowIn(was.value, change.append) else was
  {
    var all, change := Appends(prev, next, i), ChangeOf(prev, next, i);
    if change.Grow? {
      assert (all + [change.append])[..|all|] == all;
    } else {
      assert all + [] == all;
    }
  }

  lemma SameIdsSamePos(a: seq<Entry>, b: seq<Entry>, id: string)
    requires |a| == |b| && forall k :: 0 <= k < |a| ==> a[k].id == b[k].id
    ensures Pos(a, id) == Pos(b, id)
  {
  }

  lemma GrowOne(prev: seq<Entry>, next: seq<Entry>, cur: seq<Entry>, was: seq<Entry>, i: nat)
    requires DistinctIds(next) && i < |next| && HoldsBase(prev, next, cur)
    requires AllGrow(prev, next, i) && GrownTo(prev, next, cur, was, i) && ChangeOf(prev, next, i).Grow?
    ensures var out := GrowIn(was, ChangeOf(prev, next, i).append);
            && (out.Some? <==> AllGrow(prev, next, i + 1))
            && (out.Some? ==> GrownTo(prev, next, cur, out.value, i + 1))
  {
    var id := next[i].id;
    PosAt(next, i);
    GrowthTargets(prev, next, i);
    SameIdsSamePos(cur, was, id);
    assert Has(cur, id);
    var p := Pos(was, id);
    assert was[p] == cur[p] == BaseAt(prev, next, i);
    forall k | 0 <= k < |cur| && k != p
      ensures Pos(next, cur[k].id) != i
    {
      assert cur[k].id != cur[p].id;
    }
    assert GrowIn(was, ChangeOf(prev, next, i).append).Some? <==> GrownAt(prev, next, i).Some?;
    assert AllGrow(prev, next, i + 1) <==> GrownAt(prev, next, i).Some?;
  }

  ghost predicate GrownOpt(prev: seq<Entry>, next: seq<Entry>, cur: seq<Entry>, out: Option<seq<Entry>>, i: nat)
    requires i <= |next|
  {
    && (out.Some? <==> AllGrow(prev, next, i))
    && (out.Some? ==> GrownTo(prev, next, cur, out.value, i))
  }

  lemma GrownStep(prev: seq<Entry>, next: seq<Entry>, cur: seq<Entry>, i: nat)
    requires DistinctIds(next) && i < |next| && HoldsBase(prev, next, cur)
    requires GrownOpt(prev, next, cur, GrowAll(cur, Appends(prev, next, i)), i)
    ensures GrownOpt(prev, next, cur, GrowAll(cur, Appends(prev, next, i + 1)), i + 1)
  {
    AppendsStep(prev, next, cur, i);
    var was := GrowAll(cur, Appends(prev, next, i));
    if was.Some? {
      if ChangeOf(prev, next, i).Grow? {
        GrowOne(prev, next, cur, was.value, i);
      } else {
        NotGrown(prev, next, cur, was.value, i);
      }
    } else {
      assert !AllGrow(prev, next, i + 1);
    }
  }

  lemma NoneGrownYet(prev: seq<Entry>, next: seq<Entry>, cur: seq<Entry>)
    ensures GrownOpt(prev, next, cur, GrowAll(cur, Appends(prev, next, 0)), 0)
  {
  }

  lemma {:induction false} GrownUpTo(prev: seq<Entry>, next: seq<Entry>, cur: seq<Entry>, i: nat)
    requires DistinctIds(next) && i <= |next| && HoldsBase(prev, next, cur)
    ensures GrownOpt(prev, next, cur, GrowAll(cur, Appends(prev, next, i)), i)
  {
    if i == 0 {
      NoneGrownYet(prev, next, cur);
    } else {
      GrownUpTo(prev, next, cur, i - 1);
      GrownStep(prev, next, cur, i - 1);
    }
  }

  lemma NotGrown(prev: seq<Entry>, next: seq<Entry>, cur: seq<Entry>, was: seq<Entry>, i: nat)
    requires DistinctIds(next) && i < |next| && HoldsBase(prev, next, cur)
    requires AllGrow(prev, next, i) && GrownTo(prev, next, cur, was, i) && !ChangeOf(prev, next, i).Grow?
    ensures AllGrow(prev, next, i + 1) && GrownTo(prev, next, cur, was, i + 1)
  {
  }

  // ── the round trip ────────────────────────────────────────────────────────

  ghost predicate RoundTrips(prev: seq<Entry>, next: seq<Entry>) {
    TooBig(|Upserts(prev, next, |next|)|, |next|) || (KeptInOrder(prev, next) && GrowsFirstParts(prev, next))
  }

  lemma DeltaOfPatch(prev: seq<Entry>, next: seq<Entry>)
    requires DistinctIds(prev) && DistinctIds(next)
    ensures AfterPlacing(prev, next).Some? && HoldsBase(prev, next, AfterPlacing(prev, next).value)
    ensures Patched(prev, DeltaOf(prev, next)) == GrowAll(AfterPlacing(prev, next).value, Appends(prev, next, |next|))
  {
    PlacingDone(prev, next);
    var cur := AfterPlacing(prev, next).value;
    PlacedHoldsBase(prev, next, KeptInOrder(prev, next), cur);
    GrownUpTo(prev, next, cur, |next|);
  }

  lemma InOrderPatches(prev: seq<Entry>, next: seq<Entry>)
    requires DistinctIds(prev) && DistinctIds(next)
    requires KeptInOrder(prev, next) && GrowsFirstParts(prev, next)
    ensures Patched(prev, DeltaOf(prev, next)) == Some(next)
  {
    DeltaOfPatch(prev, next);
    PlacingDone(prev, next);
    var cur := AfterPlacing(prev, next).value;
    PlacedInOrderIsBase(prev, next, cur);
    GrownUpTo(prev, next, cur, |next|);
    forall i | 0 <= i < |next|
      ensures GrownAt(prev, next, i) == Some(next[i]) && cur[i].id == next[i].id && Pos(next, next[i].id) == i
    {
      assert GrowsFirst(prev, next, i);
      GrownIsNextIff(prev, next, i);
      BaseId(prev, next, i);
      PosAt(next, i);
    }
    assert AllGrow(prev, next, |next|);
    var out := GrowAll(cur, Appends(prev, next, |next|)).value;
    assert forall i :: 0 <= i < |next| ==> out[i] == next[i];
    assert out == next;
  }

  lemma PatchedMeansInOrder(prev: seq<Entry>, next: seq<Entry>)
    requires DistinctIds(prev) && DistinctIds(next)
    requires Patched(prev, DeltaOf(prev, next)) == Some(next)
    ensures KeptInOrder(prev, next) && GrowsFirstParts(prev, next)
  {
    DeltaOfPatch(prev, next);
    PlacingDone(prev, next);
    var cur := AfterPlacing(prev, next).value;
    GrownUpTo(prev, next, cur, |next|);
    forall id
      ensures Pos(cur, id) == Pos(next, id)
    {
      SameIdsSamePos(cur, next, id);
    }
    forall i | 0 <= i < |next|
      ensures GrowsFirst(prev, next, i)
    {
      PosAt(next, i);
      GrownIsNextIff(prev, next, i);
    }
  }

  /**
   Patching a copy of `prev` with the frame diffed from `prev` to `next` gives exactly `next` if and
   only if the frame is a reset, or the entries it leaves in place keep their order and each text
   append finds the part that grew.
   */
  lemma RoundTripIff(prev: seq<Entry>, next: seq<Entry>)
    requires DistinctIds(prev) && DistinctIds(next)
    ensures Patched(prev, Diff(prev, next)) == Some(next) <==> RoundTrips(prev, next)
  {
    if !TooBig(|Upserts(prev, next, |next|)|, |next|) {
      if KeptInOrder(prev, next) && GrowsFirstParts(prev, next) {
        InOrderPatches(prev, next);
      }
      if Patched(prev, DeltaOf(prev, next)) == Some(next) {
        PatchedMeansInOrder(prev, next);
      }
    }
  }

  // ── the promise in plain terms ────────────────────────────────────────────

  /** No two text parts of the entry share an id. */
  ghost predicate DistinctTexts(e: Entry) {
    forall i, j :: 0 <= i < j < |e.parts| && e.parts[i].Text? && e.parts[j].Text? ==> e.parts[i].id != e.parts[j].id
  }

  ghost predicate CommonInOrder(prev: seq<Entry>, next: seq<Entry>) {
    forall a, b :: Has(prev, a) && Has(prev, b) && Has(next, a) && Has(next, b) && Pos(next, a) < Pos(next, b)
      ==> Pos(prev, a) < Pos(prev, b)
  }

  lemma DistinctTextsGrowFirstParts(prev: seq<Entry>, next: seq<Entry>)
    requires forall i :: 0 <= i < |prev| ==> DistinctTexts(prev[i])
    ensures GrowsFirstParts(prev, next)
  {
  }

  /** What the event fold produces never has two text parts of one id, so its growth is always found. */
  lemma FoldedEntriesHaveDistinctTexts(e: Entry, events: seq<Event>)
    requires e.parts == FoldAll(events)
    ensures DistinctTexts(e)
  {
    forall i, j | 0 <= i < j < |e.parts| && e.parts[i].Text? && e.parts[j].Text?
      ensures e.parts[i].id != e.parts[j].id
    {
      TextIdsAreDistinct(events, i, j);
    }
  }

  /** Distinct ids and common entries in the same relative order are enough. */
  lemma RoundTrip(prev: seq<Entry>, next: seq<Entry>)
    requires DistinctIds(prev) && DistinctIds(next) && CommonInOrder(prev, next)
    requires forall i :: 0 <= i < |prev| ==> DistinctTexts(prev[i])
    ensures Patched(prev, Diff(prev, next)) == Some(next)
  {
    forall a, b | Kept(prev, next, a) && Kept(prev, next, b) && Pos(next, a) < Pos(next, b)
      ensures Pos(prev, a) < Pos(prev, b)
    {
      KeptIsInBoth(prev, next, a);
      KeptIsInBoth(prev, next, b);
    }
    DistinctTextsGrowFirstParts(prev, next);
    RoundTripIff(prev, next);
  }

  /**
   The tripwire does not help: on distinct ids the patch always succeeds, with the right entries and
   the right count, whether or not it put them in the right order.
   */
  lemma TheTripwireNeverFires(prev: seq<Entry>, next: seq<Entry>)
    requires DistinctIds(prev) && DistinctIds(next)
    requires forall i :: 0 <= i < |prev| ==> DistinctTexts(prev[i])
    ensures Patched(prev, Diff(prev, next)).Some?
    ensures var out := Patched(prev, Diff(prev, next)).value;
            |out| == |next| && forall id :: Has(next, id) ==> Has(out, id) && out[Pos(out, id)] == next[Pos(next, id)]
  {
    DistinctTextsGrowFirstParts(prev, next);
    DeltaOfPatch(prev, next);
    var cur := AfterPlacing(prev, next).value;
    GrownUpTo(prev, next, cur, |next|);
    forall i | 0 <= i < |next|
      ensures GrownAt(prev, next, i) == Some(next[i])
    {
      assert GrowsFirst(prev, next, i);
      GrownIsNextIff(prev, next, i);
    }
    var out := GrowAll(cur, Appends(prev, next, |next|)).value;
    forall id | Has(next, id)
      ensures Has(out, id) && out[Pos(out, id)] == next[Pos(next, id)]
    {
      SameIdsSamePos(cur, out, id);
      assert Has(cur, id);
    }
  }

  // ── a stream of frames ────────────────────────────────────────────────────

  /** A subscriber's copy after the reset for `states[0]` and one diff per later state. */
  ghost function CopyAfter(states: seq<seq<Entry>>, n: nat): Option<seq<Entry>>
    requires n < |states|
  {
    if n == 0 then Some(states[0])
    else
      var held := CopyAfter(states, n - 1);
      if held.None? then None else Patched(held.value, Diff(states[n - 1], states[n]))
  }

  /** One state to the next, for a copy that is current. */
  lemma NextIsCurrentIff(prev: seq<Entry>, next: seq<Entry>, held: Option<seq<Entry>>)
    requires DistinctIds(prev) && DistinctIds(next) && held == Some(prev)
    ensures Patched(held.value, Diff(prev, next)) == Some(next) <==> RoundTrips(prev, next)
  {
    RoundTripIff(prev, next);
  }

  ghost predicate AllDistinct(states: seq<seq<Entry>>, n: nat)
    requires n < |states|
  {
    DistinctIds(states[n]) && (n > 0 ==> AllDistinct(states, n - 1))
  }

  ghost predicate AllRoundTrip(states: seq<seq<Entry>>, n: nat)
    requires n < |states|
  {
    n > 0 ==> AllRoundTrip(states, n - 1) && RoundTrips(states[n - 1], states[n])
  }

  /** The copy was the latest transcript after every state up to `n`. */
  ghost predicate AlwaysCurrent(states: seq<seq<Entry>>, n: nat)
    requires n < |states|
  {
    CopyAfter(states, n) == Some(states[n]) && (n > 0 ==> AlwaysCurrent(states, n - 1))
  }

  /** A subscriber fed successive frames holds the latest transcript all along exactly when every diff round-trips. */
  lemma {:induction false} SubscriberIsCurrentIff(states: seq<seq<Entry>>, n: nat)
    requires n < |states| && AllDistinct(states, n)
    ensures AlwaysCurrent(states, n) <==> AllRoundTrip(states, n)
  {
    if n > 0 {
      SubscriberIsCurrentIff(states, n - 1);
      if CopyAfter(states, n - 1) == Some(states[n - 1]) {
        AllDistinctStep(states, n);
        NextIsCurrentIff(states[n - 1], states[n], CopyAfter(states, n - 1));
      }
    }
  }

  lemma AllDistinctStep(states: seq<seq<Entry>>, n: nat)
    requires 0 < n < |states| && AllDistinct(states, n)
    ensures DistinctIds(states[n]) && DistinctIds(states[n - 1])
  {
    assert AllDistinct(states, n - 1);
  }

  // ── a silent failure ──────────────────────────────────────────────────────

  function Plain(id: string): Entry {
    Entry(id, "assistant", [], 0, "dev", None, None)
  }

  function Crossed(): (seq<Entry>, seq<Entry>) {
    ([Plain("r"), Plain("z"), Plain("u"), Plain("k")], [Plain("u"), Plain("k"), Plain("r"), Plain("z")])
  }

  lemma CrossingDiff()
    ensures var (prev, next) := Crossed();
            Diff(prev, next) == Delta([Upsert(None, Plain("u")), Upsert(Some("k"), Plain("r"))], [], [], 4)
  {
    var (prev, next) := Crossed();
    assert DistinctIds(prev) && DistinctIds(next);
    LastAt(prev, 0); LastAt(prev, 1); LastAt(prev, 2); LastAt(prev, 3);
    PosAt(next, 0); PosAt(next, 1); PosAt(next, 2); PosAt(next, 3);
    assert ChangeOf(prev, next, 0) == Put && ChangeOf(prev, next, 1) == Keep;
    assert ChangeOf(prev, next, 2) == Put && ChangeOf(prev, next, 3) == Keep;
    var first, second := Upsert(None, Plain("u")), Upsert(Some("k"), Plain("r"));
    assert Upserts(prev, next, 1) == [first];
    assert Upserts(prev, next, 2) == [first];
    assert Upserts(prev, next, 3) == [first, second];
    assert Upserts(prev, next, 4) == [first, second];
    assert Appends(prev, next, 0) == [] && Appends(prev, next, 1) == [];
    assert Appends(prev, next, 2) == [] && Appends(prev, next, 3) == [];
    assert Appends(prev, next, 4) == [];
    NoneDropped(prev, next);
  }

  lemma {:induction false} NoneDropped(s: seq<Entry>, other: seq<Entry>)
    requires forall i :: 0 <= i < |s| ==> Has(other, s[i].id)
    ensures Dropped(s, other) == []
    decreases |s|
  {
    if s != [] {
      NoneDropped(s[..|s| - 1], other);
    }
  }

  lemma PlaceBy(s: seq<Entry>, u: Upsert, p: nat, at: nat, rest: seq<Entry>, out: seq<Entry>)
    requires DistinctIds(s) && p < |s| && s[p].id == u.entry.id && rest == s[..p] + s[p + 1..]
    requires at <= |rest| && out == rest[..at] + [u.entry] + rest[at..]
    requires if u.after.None? then at == 0 else at > 0 && rest[at - 1].id == u.after.value
    ensures Place(s, u) == Some(out)
  {
  }

  lemma PlaceTwo(s: seq<Entry>, first: Upsert, second: Upsert, mid: seq<Entry>, out: seq<Entry>)
    requires Place(s, first) == Some(mid) && Place(mid, second) == Some(out)
    ensures PlaceAll(s, [first, second]) == Some(out)
  {
    assert [first, second][..1] == [first] && [first][..0] == [];
    assert PlaceAll(s, [first]) == Some(mid);
  }

  lemma PatchOf(s: seq<Entry>, us: seq<Upsert>, out: seq<Entry>)
    requires PlaceAll(s, us) == Some(out)
    ensures Patched(s, Delta(us, [], [], |out|)) == Some(out)
  {
    NothingWithout(s);
  }

  lemma CrossingPlaces()
    ensures var r, z, u, k := Plain("r"), Plain("z"), Plain("u"), Plain("k");
            && Place([r, z, u, k], Upsert(None, u)) == Some([u, r, z, k])
            && Place([u, r, z, k], Upsert(Some("k"), r)) == Some([u, z, k, r])
  {
    var r, z, u, k := Plain("r"), Plain("z"), Plain("u"), Plain("k");
    PlaceBy([r, z, u, k], Upsert(None, u), 2, 0, [r, z, k], [u, r, z, k]);
    PlaceBy([u, r, z, k], Upsert(Some("k"), r), 1, 3, [u, z, k], [u, z, k, r]);
  }

  /**
   The smallest silent failure: two entries are left in place while crossing each other, the patch
   succeeds, the count matches, and the order is wrong.
   */
  lemma CrossingEntriesArePatchedWrong()
    ensures var (prev, next) := Crossed();
            && Patched(prev, Diff(prev, next)) == Some([Plain("u"), Plain("z"), Plain("k"), Plain("r")])
            && Patched(prev, Diff(prev, next)) != Some(next)
  {
    var r, z, u, k := Plain("r"), Plain("z"), Plain("u"), Plain("k");
    var first, second := Upsert(None, u), Upsert(Some("k"), r);
    CrossingDiff();
    CrossingPlaces();
    PlaceTwo([r, z, u, k], first, second, [u, r, z, k], [u, z, k, r]);
    PatchOf([r, z, u, k], [first, second], [u, z, k, r]);
    assert [u, z, k, r][1] != [u, k, r, z][1];
  }
}
