/**
 Transcript frames: diffing two transcripts into a frame and patching a held copy in place
 (`crates/doc/src/transcript_delta.rs`).
 */
module TranscriptDelta {
  import opened Prelude
  import opened MessageParts

  datatype Entry = Entry(
    id: string,
    role: string,
    parts: seq<Part>,
    createdAt: int,
    deviceId: string,
    status: Option<string>,
    continuationOf: Option<string>)

  datatype Upsert = Upsert(after: Option<string>, entry: Entry)

  datatype TextAppend = TextAppend(entry: string, part: string, text: Bytes, len: nat)

  datatype Frame =
    | Reset(entries: seq<Entry>)
    | Delta(upsert: seq<Upsert>, append: seq<TextAppend>, remove: seq<string>, count: nat)

  // ── positions ─────────────────────────────────────────────────────────────

  /** The first entry from `i` on that is named `id`, or the length when there is none. */
  function PosFrom(s: seq<Entry>, id: string, i: nat): (p: nat)
    requires i <= |s|
    ensures i <= p <= |s|
    ensures p < |s| ==> s[p].id == id
    ensures forall j :: i <= j < p ==> s[j].id != id
    decreases |s| - i
  {
    if i == |s| || s[i].id == id then i else PosFrom(s, id, i + 1)
  }

  function Pos(s: seq<Entry>, id: string): (p: nat)
    ensures p <= |s|
    ensures p < |s| ==> s[p].id == id
    ensures forall j :: 0 <= j < p ==> s[j].id != id
  {
    PosFrom(s, id, 0)
  }

  predicate Has(s: seq<Entry>, id: string) {
    Pos(s, id) < |s|
  }

  function LastBefore(s: seq<Entry>, id: string, n: nat): (p: Option<nat>)
    requires n <= |s|
    ensures p.Some? ==> p.value < n && s[p.value].id == id
    ensures p.Some? ==> forall j :: p.value < j < n ==> s[j].id != id
    ensures p.None? ==> forall j :: 0 <= j < n ==> s[j].id != id
  {
    if n == 0 then None else if s[n - 1].id == id then Some(n - 1) else LastBefore(s, id, n - 1)
  }

  /** The last entry named `id`: what a map from id to index ends up holding. */
  function LastIndex(s: seq<Entry>, id: string): (p: Option<nat>)
    ensures p.Some? ==> p.value < |s| && s[p.value].id == id
    ensures p.None? ==> forall j :: 0 <= j < |s| ==> s[j].id != id
  {
    LastBefore(s, id, |s|)
  }

  ghost predicate DistinctIds(s: seq<Entry>) {
    forall i, j :: 0 <= i < j < |s| ==> s[i].id != s[j].id
  }

  lemma PosAt(s: seq<Entry>, i: nat)
    requires DistinctIds(s) && i < |s|
    ensures Pos(s, s[i].id) == i
  {
  }

  lemma LastAt(s: seq<Entry>, i: nat)
    requires DistinctIds(s) && i < |s|
    ensures LastIndex(s, s[i].id) == Some(i)
  {
  }

  // ── the diff ──────────────────────────────────────────────────────────────

  function After(s: seq<Entry>, i: nat): Option<string>
    requires i < |s|
  {
    if i == 0 then None else Some(s[i - 1].id)
  }

  /** `n` is `p` with text appended to the text part at `k`, and nothing else changed. */
  predicate GrowsAt(p: Entry, n: Entry, k: nat) {
    && k < |p.parts| == |n.parts|
    && n == p.(parts := p.parts[k := n.parts[k]])
    && p.parts[k] != n.parts[k]
    && p.parts[k].Text? && n.parts[k].Text? && p.parts[k].id == n.parts[k].id
    && IsPrefix(p.parts[k].text, n.parts[k].text)
  }

  function AppendAt(p: Entry, n: Entry, k: nat): TextAppend
    requires GrowsAt(p, n, k)
  {
    TextAppend(n.id, n.parts[k].id, n.parts[k].text[|p.parts[k].text|..], |n.parts[k].text|)
  }

  ghost function TextGrowth(p: Entry, n: Entry): Option<TextAppend> {
    if exists k: nat :: GrowsAt(p, n, k) then
      var k: nat :| GrowsAt(p, n, k);
      Some(AppendAt(p, n, k))
    else None
  }

  lemma OnlyGrowthPoint(p: Entry, n: Entry, k: nat, j: nat)
    requires GrowsAt(p, n, k) && j < |p.parts| && p.parts[j] != n.parts[j]
    ensures j == k
  {
  }

  method TryTextAppend(p: Entry, n: Entry) returns (append: Option<TextAppend>)
    requires p != n
    ensures append == TextGrowth(p, n)
  {
    append := None;
    if p != n.(parts := p.parts) || |p.parts| != |n.parts| {
      return;
    }
    ghost var at: nat := 0;
    for i := 0 to |p.parts|
      invariant append.None? ==> p.parts[..i] == n.parts[..i]
      invariant append.Some? ==> at < i && n.parts[..i] == p.parts[..i][at := n.parts[at]]
      invariant append.Some? ==>
                  && p.parts[at] != n.parts[at]
                  && p.parts[at].Text? && n.parts[at].Text? && p.parts[at].id == n.parts[at].id
                  && IsPrefix(p.parts[at].text, n.parts[at].text)
                  && append.value == TextAppend(n.id, n.parts[at].id, n.parts[at].text[|p.parts[at].text|..], |n.parts[at].text|)
    {
      var x, y := p.parts[i], n.parts[i];
      assert p.parts[..i + 1] == p.parts[..i] + [x] && n.parts[..i + 1] == n.parts[..i] + [y];
      if x != y {
        if !x.Text? || !y.Text? || x.id != y.id || !IsPrefix(x.text, y.text) || append.Some? {
          NoGrowth(p, n, i, at, append.Some?);
          append := None;
          return;
        }
        append := Some(TextAppend(n.id, y.id, y.text[|x.text|..], |y.text|));
        at := i;
      }
    }
    assert p.parts[..|p.parts|] == p.parts && n.parts[..|p.parts|] == n.parts;
    assert append.Some?;
    assert GrowsAt(p, n, at);
    forall k: nat | GrowsAt(p, n, k)
      ensures k == at
    {
      OnlyGrowthPoint(p, n, k, at);
    }
  }

  /** A second difference, or one that is not text growing at its end, rules the append out. */
  lemma NoGrowth(p: Entry, n: Entry, i: nat, at: nat, second: bool)
    requires i < |p.parts| == |n.parts| && p.parts[i] != n.parts[i]
    requires second ==> at < i && p.parts[at] != n.parts[at]
    requires second || !(p.parts[i].Text? && n.parts[i].Text? && p.parts[i].id == n.parts[i].id
                         && IsPrefix(p.parts[i].text, n.parts[i].text))
    ensures TextGrowth(p, n) == None
  {
  }

  datatype Change = Keep | Grow(append: TextAppend) | Put

  /** What becomes of entry `i`: an entry that moved, or changed other than by growing text, is put anew. */
  ghost function ChangeOf(prev: seq<Entry>, next: seq<Entry>, i: nat): Change
    requires i < |next|
  {
    match LastIndex(prev, next[i].id)
    case None => Put
    case Some(p) =>
      if After(prev, p) != After(next, i) then Put
      else if prev[p] == next[i] then Keep
      else if TextGrowth(prev[p], next[i]).Some? then Grow(TextGrowth(prev[p], next[i]).value)
      else Put
  }

  ghost function Upserts(prev: seq<Entry>, next: seq<Entry>, n: nat): seq<Upsert>
    requires n <= |next|
  {
    if n == 0 then []
    else
      Upserts(prev, next, n - 1)
      + if ChangeOf(prev, next, n - 1).Put? then [Upsert(After(next, n - 1), next[n - 1])] else []
  }

  ghost function Appends(prev: seq<Entry>, next: seq<Entry>, n: nat): seq<TextAppend>
    requires n <= |next|
  {
    if n == 0 then []
    else
      var change := ChangeOf(prev, next, n - 1);
      Appends(prev, next, n - 1) + if change.Grow? then [change.append] else []
  }

  /** The ids of `s`, in order, that `other` does not have. */
  function Dropped(s: seq<Entry>, other: seq<Entry>): seq<string>
    decreases |s|
  {
    if s == [] then []
    else
      var last := s[|s| - 1].id;
      Dropped(s[..|s| - 1], other) + if Has(other, last) then [] else [last]
  }

  /** The delta as the code builds it, before the size rule. */
  ghost function DeltaOf(prev: seq<Entry>, next: seq<Entry>): Frame {
    Delta(Upserts(prev, next, |next|), Appends(prev, next, |next|), Dropped(prev, next), |next|)
  }

  predicate TooBig(upserts: nat, total: nat) {
    upserts * 2 >= Max(total, 1) && total > 4
  }

  ghost function Diff(prev: seq<Entry>, next: seq<Entry>): Frame {
    if TooBig(|DeltaOf(prev, next).upsert|, |next|) then Reset(next) else DeltaOf(prev, next)
  }

  method DiffTranscript(prev: seq<Entry>, next: seq<Entry>) returns (frame: Frame)
    ensures frame == Diff(prev, next)
  {
    var remove: seq<string> := [];
    for i := 0 to |prev|
      invariant remove == Dropped(prev[..i], next)
    {
      assert prev[..i + 1][..i] == prev[..i];
      if !Has(next, prev[i].id) {
        remove := remove + [prev[i].id];
      }
    }
    assert prev[..|prev|] == prev;
    var upsert: seq<Upsert>, append: seq<TextAppend> := [], [];
    for i := 0 to |next|
      invariant upsert == Upserts(prev, next, i)
      invariant append == Appends(prev, next, i)
    {
      var entry, after := next[i], After(next, i);
      match LastIndex(prev, entry.id) {
        case None =>
          upsert := upsert + [Upsert(after, entry)];
        case Some(p) =>
          if prev[p] != entry || After(prev, p) != after {
            var grown: Option<TextAppend> := None;
            if After(prev, p) == after {
              grown := TryTextAppend(prev[p], entry);
            }
            if grown.Some? {
              append := append + [grown.value];
            } else {
              upsert := upsert + [Upsert(after, entry)];
            }
          }
      }
    }
    frame := if TooBig(|upsert|, |next|) then Reset(next) else Delta(upsert, append, remove, |next|);
  }

  // ── the patch ─────────────────────────────────────────────────────────────

  function Without(s: seq<Entry>, gone: seq<string>): seq<Entry> {
    if s == [] then []
    else (if s[0].id in gone then [] else [s[0]]) + Without(s[1..], gone)
  }

  function Removed(s: seq<Entry>, id: string): seq<Entry> {
    var p := Pos(s, id);
    if p < |s| then s[..p] + s[p + 1..] else s
  }

  function Inserted(s: seq<Entry>, at: nat, e: Entry): seq<Entry>
    requires at <= |s|
  {
    s[..at] + [e] + s[at..]
  }

  function Place(s: seq<Entry>, u: Upsert): Option<seq<Entry>> {
    var rest := Removed(s, u.entry.id);
    if u.after.None? then Some(Inserted(rest, 0, u.entry))
    else if Has(rest, u.after.value) then Some(Inserted(rest, Pos(rest, u.after.value) + 1, u.entry))
    else None
  }

  function PlaceAll(s: seq<Entry>, us: seq<Upsert>): Option<seq<Entry>>
    decreases |us|
  {
    if us == [] then Some(s)
    else
      var mid := PlaceAll(s, us[..|us| - 1]);
      if mid.None? then None else Place(mid.value, us[|us| - 1])
  }

  /** The first text part named `id`, or the length when there is none. */
  function TextPos(parts: seq<Part>, id: string): (p: nat)
    ensures p <= |parts|
    ensures p < |parts| ==> parts[p].Text? && parts[p].id == id
    ensures forall j :: 0 <= j < p ==> !(parts[j].Text? && parts[j].id == id)
  {
    if parts == [] || (parts[0].Text? && parts[0].id == id) then 0 else 1 + TextPos(parts[1..], id)
  }

  function GrowEntry(e: Entry, a: TextAppend): Option<Entry> {
    var q := TextPos(e.parts, a.part);
    if q == |e.parts| || |e.parts[q].text + a.text| != a.len then None
    else Some(e.(parts := e.parts[q := Text(e.parts[q].id, e.parts[q].text + a.text)]))
  }

  function GrowIn(s: seq<Entry>, a: TextAppend): Option<seq<Entry>> {
    var p := Pos(s, a.entry);
    if p == |s| || GrowEntry(s[p], a).None? then None else Some(s[p := GrowEntry(s[p], a).value])
  }

  function GrowAll(s: seq<Entry>, appends: seq<TextAppend>): Option<seq<Entry>>
    decreases |appends|
  {
    if appends == [] then Some(s)
    else
      var mid := GrowAll(s, appends[..|appends| - 1]);
      if mid.None? then None else GrowIn(mid.value, appends[|appends| - 1])
  }

  /** `None` is the desync error. */
  function Patched(s: seq<Entry>, frame: Frame): Option<seq<Entry>> {
    match frame
    case Reset(entries) => Some(entries)
    case Delta(upsert, append, remove, count) =>
      var placed := PlaceAll(Without(s, remove), upsert);
      if placed.None? then None
      else
        var grown := GrowAll(placed.value, append);
        if grown.Some? && |grown.value| == count then grown else None
  }

  /** A consumer's copy of the transcript. */
  class Held {
    var current: seq<Entry>

    constructor ()
      ensures current == []
    {
      current := [];
    }

    /** On failure the copy is left wherever the patch stopped, as the caller is told. */
    method Apply(frame: Frame) returns (ok: bool)
      modifies this
      ensures ok <==> Patched(old(current), frame).Some?
      ensures ok ==> Some(current) == Patched(old(current), frame)
    {
      if frame.Reset? {
        current := frame.entries;
        return true;
      }
      if frame.remove != [] {
        Retain(frame.remove);
      } else {
        NothingWithout(current);
      }
      ok := PutAll(frame.upsert);
      if !ok {
        return;
      }
      ok := AppendAll(frame.append);
      if !ok {
        return;
      }
      ok := |current| == frame.count;
    }

    method PutAll(us: seq<Upsert>) returns (ok: bool)
      modifies this
      ensures ok <==> PlaceAll(old(current), us).Some?
      ensures ok ==> Some(current) == PlaceAll(old(current), us)
    {
      assert us[..0] == [];
      for i := 0 to |us|
        invariant PlaceAll(old(current), us[..i]) == Some(current)
      {
        assert us[..i + 1][..i] == us[..i];
        ok := Put(us[i]);
        if !ok {
          PlaceAllFails(old(current), us, i + 1);
          return;
        }
      }
      assert us[..|us|] == us;
      ok := true;
    }

    method Put(u: Upsert) returns (ok: bool)
      modifies this
      ensures ok <==> Place(old(current), u).Some?
      ensures ok ==> Some(current) == Place(old(current), u)
    {
      TakeOut(u.entry.id);
      var at := 0;
      if u.after.Some? {
        var anchor := Pos(current, u.after.value);
        if anchor == |current| {
          return false;
        }
        at := anchor + 1;
      }
      current := current[..at] + [u.entry] + current[at..];
      ok := true;
    }

    method TakeOut(id: string)
      modifies this
      ensures current == Removed(old(current), id)
    {
      var existing := Pos(current, id);
      if existing < |current| {
        current := current[..existing] + current[existing + 1..];
      }
    }

    method AppendAll(appends: seq<TextAppend>) returns (ok: bool)
      modifies this
      ensures ok <==> GrowAll(old(current), appends).Some?
      ensures ok ==> Some(current) == GrowAll(old(current), appends)
    {
      assert appends[..0] == [];
      for i := 0 to |appends|
        invariant GrowAll(old(current), appends[..i]) == Some(current)
      {
        assert appends[..i + 1][..i] == appends[..i];
        ok := Append(appends[i]);
        if !ok {
          GrowAllFails(old(current), appends, i + 1);
          return;
        }
      }
      assert appends[..|appends|] == appends;
      ok := true;
    }

    method Append(a: TextAppend) returns (ok: bool)
      modifies this
      ensures ok <==> GrowIn(old(current), a).Some?
      ensures ok ==> Some(current) == GrowIn(old(current), a)
    {
      var p := Pos(current, a.entry);
      if p == |current| {
        return false;
      }
      var target := current[p];
      var q := TextPos(target.parts, a.part);
      if q == |target.parts| {
        return false;
      }
      var tail := target.parts[q].text + a.text;
      current := current[p := target.(parts := target.parts[q := Text(target.parts[q].id, tail)])];
      ok := |tail| == a.len;
    }

    method Retain(gone: seq<string>)
      modifies this
      ensures current == Without(old(current), gone)
    {
      var kept: seq<Entry> := [];
      for i := 0 to |current|
        invariant current == old(current)
        invariant kept + Without(current[i..], gone) == Without(current, gone)
      {
        assert current[i..][1..] == current[i + 1..];
        var mine := if current[i].id in gone then [] else [current[i]];
        Regroup(kept, mine, Without(current[i + 1..], gone));
        kept := kept + mine;
      }
      current := kept;
    }
  }

  lemma {:induction false} NothingWithout(s: seq<Entry>)
    ensures Without(s, []) == s
  {
    if s != [] {
      NothingWithout(s[1..]);
    }
  }

  lemma {:induction false} PlaceAllFails(s: seq<Entry>, us: seq<Upsert>, n: nat)
    requires n <= |us| && PlaceAll(s, us[..n]).None?
    ensures PlaceAll(s, us).None?
    decreases |us|
  {
    if n < |us| {
      assert us[..|us| - 1][..n] == us[..n];
      PlaceAllFails(s, us[..|us| - 1], n);
    } else {
      assert us[..n] == us;
    }
  }

  lemma {:induction false} GrowAllFails(s: seq<Entry>, appends: seq<TextAppend>, n: nat)
    requires n <= |appends| && GrowAll(s, appends[..n]).None?
    ensures GrowAll(s, appends).None?
    decreases |appends|
  {
    if n < |appends| {
      assert appends[..|appends| - 1][..n] == appends[..n];
      GrowAllFails(s, appends[..|appends| - 1], n);
    } else {
      assert appends[..n] == appends;
    }
  }
}
