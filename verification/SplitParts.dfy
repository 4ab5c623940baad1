/**
 Splitting an entry's parts into chunks that fit inline, cutting long text only between characters
 (`crates/doc/src/parts.rs`). Characters are UTF-8 as in section 3 of RFC 3629.
 */
module SplitParts {
  import opened Prelude
  import opened MessageParts
  import Hlc

  const MSG_INLINE_MAX: nat := 256 * 1024

  // ── UTF-8 ─────────────────────────────────────────────────────────────────

  /** `10xxxxxx` */
  predicate Continuation(b: byte) {
    0x80 <= b < 0xC0
  }

  /** How many bytes the character started by `b` takes; zero for a byte that starts none. */
  function CharLen(b: byte): nat {
    if b < 0x80 then 1
    else if 0xC0 <= b < 0xE0 then 2
    else if 0xE0 <= b < 0xF0 then 3
    else if 0xF0 <= b < 0xF8 then 4
    else 0
  }

  /** Whole characters: a leading byte, then as many continuation bytes as it announces. */
  ghost predicate WholeChars(s: Bytes)
    decreases |s|
  {
    s != [] ==>
      var n := CharLen(s[0]);
      && 0 < n <= |s|
      && (forall i :: 1 <= i < n ==> Continuation(s[i]))
      && WholeChars(s[n..])
  }

  predicate IsCharBoundary(s: Bytes, i: nat)
    requires i <= |s|
  {
    i == 0 || i == |s| || !Continuation(s[i])
  }

  /** Of any four consecutive places at least one is between characters. */
  lemma {:induction false} BoundaryNear(s: Bytes, i: nat)
    requires WholeChars(s) && 3 <= i < |s|
    ensures exists j :: i - 3 <= j <= i && IsCharBoundary(s, j)
    decreases |s|
  {
    var n := CharLen(s[0]);
    if i < n {
      assert IsCharBoundary(s, 0);
    } else if i < n + 3 {
      assert n < |s|;
      assert s[n..][0] == s[n] && CharLen(s[n..][0]) > 0;
      assert IsCharBoundary(s, n);
    } else {
      BoundaryNear(s[n..], i - n);
      var j :| i - n - 3 <= j <= i - n && IsCharBoundary(s[n..], j);
      if j == 0 {
        assert s[n..][0] == s[n] && CharLen(s[n..][0]) > 0;
      }
      assert IsCharBoundary(s, n + j);
    }
  }

  /** Cutting at a boundary leaves whole characters on both sides. */
  lemma {:induction false} CutKeepsChars(s: Bytes, i: nat)
    requires WholeChars(s) && i <= |s| && IsCharBoundary(s, i)
    ensures WholeChars(s[..i]) && WholeChars(s[i..])
    decreases |s|
  {
    if i == 0 {
      assert s[..0] == [] && s[0..] == s;
    } else if i == |s| {
      assert s[..|s|] == s && s[|s|..] == [];
    } else {
      var n := CharLen(s[0]);
      BoundaryInRest(s, i);
      CutKeepsChars(s[n..], i - n);
      JoinedChar(s, i, n);
    }
  }

  lemma BoundaryInRest(s: Bytes, i: nat)
    requires WholeChars(s) && 0 < i < |s| && IsCharBoundary(s, i)
    ensures CharLen(s[0]) <= i && IsCharBoundary(s[CharLen(s[0])..], i - CharLen(s[0]))
  {
  }

  /** The first character put back in front of what follows it up to a cut. */
  lemma JoinedChar(s: Bytes, i: nat, n: nat)
    requires WholeChars(s) && 0 < n <= i < |s| && n == CharLen(s[0])
    requires WholeChars(s[n..][..i - n]) && WholeChars(s[n..][i - n..])
    ensures WholeChars(s[..i]) && WholeChars(s[i..])
  {
    var front := s[..i];
    assert front[n..] == s[n..][..i - n];
    assert s[n..][i - n..] == s[i..];
    assert front[0] == s[0] && forall k :: 1 <= k < n ==> front[k] == s[k];
  }

  // ── cutting one text ──────────────────────────────────────────────────────

  /** The last boundary at or before `end`. */
  function StepBack(s: Bytes, end: nat): (e: nat)
    requires end <= |s|
    ensures e <= end && IsCharBoundary(s, e)
    ensures forall j :: e < j <= end ==> !IsCharBoundary(s, j)
  {
    if IsCharBoundary(s, end) then end else StepBack(s, end - 1)
  }

  /** The next cut, with the source's guard against a cut that makes no progress. */
  function NextCut(s: Bytes, start: nat): (end: nat)
    requires start < |s|
    ensures start < end <= |s|
  {
    var end := StepBack(s, Min(start + MSG_INLINE_MAX, |s|));
    if end <= start then |s| else end
  }

  function PieceId(id: string, piece: nat): string {
    if piece == 0 then id else id + "~" + Hlc.Decimal(piece)
  }

  function Cut(id: string, s: Bytes, start: nat, piece: nat): seq<Part>
    requires start <= |s|
    decreases |s| - start
  {
    if start == |s| then []
    else
      var end := NextCut(s, start);
      [Text(PieceId(id, piece), s[start..end])] + Cut(id, s, end, piece + 1)
  }

  /** On whole characters the guard is dead code: the cut it protects always moves forward. */
  lemma GuardIsUnreachable(s: Bytes, start: nat)
    requires WholeChars(s) && start < |s|
    ensures start < StepBack(s, Min(start + MSG_INLINE_MAX, |s|))
    ensures NextCut(s, start) == StepBack(s, Min(start + MSG_INLINE_MAX, |s|)) <= start + MSG_INLINE_MAX
  {
    var end := Min(start + MSG_INLINE_MAX, |s|);
    if end < |s| {
      BoundaryNear(s, end);
      var j :| end - 3 <= j <= end && IsCharBoundary(s, j);
      assert j <= StepBack(s, end);
    }
  }

  ghost predicate PieceOk(p: Part) {
    p.Text? && 0 < |p.text| <= MSG_INLINE_MAX && WholeChars(p.text)
  }

  lemma {:induction false} CutJoins(id: string, s: Bytes, start: nat, piece: nat)
    requires start <= |s|
    ensures Texts(Cut(id, s, start, piece)) == s[start..]
    decreases |s| - start
  {
    if start < |s| {
      var end := NextCut(s, start);
      CutJoins(id, s, end, piece + 1);
      assert Cut(id, s, start, piece)[1..] == Cut(id, s, end, piece + 1);
      assert s[start..] == s[start..end] + s[end..];
    }
  }

  lemma CutStep(id: string, s: Bytes, start: nat, piece: nat)
    requires start < |s|
    ensures Cut(id, s, start, piece)
         == [Text(PieceId(id, piece), s[start..NextCut(s, start)])] + Cut(id, s, NextCut(s, start), piece + 1)
  {
  }

  /** Every piece is a non-empty run of whole characters that fits inline. */
  lemma {:induction false} CutIsFaithful(id: string, s: Bytes, start: nat, piece: nat)
    requires WholeChars(s) && start <= |s| && IsCharBoundary(s, start)
    ensures forall p :: p in Cut(id, s, start, piece) ==> PieceOk(p)
    decreases |s| - start
  {
    if start < |s| {
      GuardIsUnreachable(s, start);
      PieceIsWhole(s, start, NextCut(s, start));
      CutStep(id, s, start, piece);
      CutIsFaithful(id, s, NextCut(s, start), piece + 1);
    }
  }

  /** Pieces keep the part's id, numbered from the second on. */
  lemma {:induction false} CutIds(id: string, s: Bytes, start: nat, piece: nat, i: nat)
    requires start <= |s| && i < |Cut(id, s, start, piece)|
    ensures Cut(id, s, start, piece)[i].id == if piece + i == 0 then id else id + "~" + Hlc.Decimal(piece + i)
    decreases |s| - start
  {
    CutStep(id, s, start, piece);
    if i > 0 {
      CutIds(id, s, NextCut(s, start), piece + 1, i - 1);
    }
  }

  lemma PieceIsWhole(s: Bytes, start: nat, end: nat)
    requires WholeChars(s) && start <= end <= |s| && IsCharBoundary(s, start) && IsCharBoundary(s, end)
    ensures WholeChars(s[start..end])
  {
    CutKeepsChars(s, end);
    var front := s[..end];
    assert IsCharBoundary(front, start) by {
      if 0 < start < end {
        assert front[start] == s[start];
      }
    }
    CutKeepsChars(front, start);
    assert front[start..] == s[start..end];
  }

  /** The next place between characters is one character on. */
  lemma NextBoundary(s: Bytes, i: nat)
    requires WholeChars(s) && i < |s| && IsCharBoundary(s, i)
    ensures 0 < CharLen(s[i]) && i + CharLen(s[i]) <= |s| && IsCharBoundary(s, i + CharLen(s[i]))
  {
    CutKeepsChars(s, i);
    var rest := s[i..];
    var n := CharLen(rest[0]);
    if n < |rest| {
      assert rest[n..][0] == rest[n] == s[i + n];
    }
  }

  /** A cut is as late as it can be: the next character would not have fit. */
  lemma CutIsLate(s: Bytes, start: nat)
    requires WholeChars(s) && start < |s| && NextCut(s, start) < |s|
    ensures NextCut(s, start) - start + CharLen(s[NextCut(s, start)]) > 256 * 1024
  {
    GuardIsUnreachable(s, start);
    NextBoundary(s, NextCut(s, start));
  }

  lemma CutShape(id: string, s: Bytes, start: nat, piece: nat)
    requires start < |s|
    ensures var out, end := Cut(id, s, start, piece), NextCut(s, start);
            && out[0] == Text(PieceId(id, piece), s[start..end]) && s[start..end] != [] && s[start..end][0] == s[start]
            && |s[start..end]| == end - start && out[1..] == Cut(id, s, end, piece + 1)
  {
    CutStep(id, s, start, piece);
  }

  /** Every piece but the last is as long as the limit and the characters allow. */
  lemma {:induction false} PiecesAreFull(id: string, s: Bytes, start: nat, piece: nat, i: nat)
    requires WholeChars(s) && start <= |s| && IsCharBoundary(s, start) && i + 1 < |Cut(id, s, start, piece)|
    ensures var out := Cut(id, s, start, piece);
            out[i].Text? && out[i + 1].Text? && out[i + 1].text != []
            && |out[i].text| + CharLen(out[i + 1].text[0]) > 256 * 1024
    decreases i
  {
    var out, end := Cut(id, s, start, piece), NextCut(s, start);
    CutShape(id, s, start, piece);
    assert out[1..][i] == out[i + 1];
    if i == 0 {
      CutShape(id, s, end, piece + 1);
      CutIsLate(s, start);
    } else {
      GuardIsUnreachable(s, start);
      assert out[1..][i - 1] == out[i];
      PiecesAreFull(id, s, end, piece + 1, i - 1);
    }
  }

  // ── packing into chunks ───────────────────────────────────────────────────

  function SizeOf(value: Option<Bytes>): nat {
    if value.Some? then |value.value| else 0
  }

  function ByteLen(p: Part): nat {
    match p
    case Text(_, text) => |text|
    case Tool(_, call, _, _, output, diff, _, _, _, stats, _, _, _) => |call| + SizeOf(output) + SizeOf(diff) + SizeOf(stats)
    case Input(_, _, questions, _) => |questions|
    case Error(_, message) => |message|
  }

  function Total(parts: seq<Part>): nat {
    if parts == [] then 0 else ByteLen(parts[0]) + Total(parts[1..])
  }

  lemma {:induction false} TotalSnoc(parts: seq<Part>, p: Part)
    ensures Total(parts + [p]) == Total(parts) + ByteLen(p)
  {
    if parts == [] {
      assert parts + [p] == [p] && [p][1..] == [];
    } else {
      assert (parts + [p])[0] == parts[0] && (parts + [p])[1..] == parts[1..] + [p];
      TotalSnoc(parts[1..], p);
    }
  }

  lemma {:induction false} TotalHas(parts: seq<Part>, p: Part)
    requires p in parts
    ensures ByteLen(p) <= Total(parts)
  {
    if p != parts[0] {
      TotalHas(parts[1..], p);
    }
  }

  /** One chunk after another; a part that no longer fits opens the next. */
  function Pack(chunks: seq<seq<Part>>, p: Part): seq<seq<Part>>
    requires chunks != []
  {
    var last := chunks[|chunks| - 1];
    if Total(last) > 0 && Total(last) + ByteLen(p) > MSG_INLINE_MAX then chunks + [[p]]
    else chunks[|chunks| - 1 := last + [p]]
  }

  function PackAll(chunks: seq<seq<Part>>, parts: seq<Part>): (out: seq<seq<Part>>)
    requires chunks != []
    ensures out != []
    decreases |parts|
  {
    if parts == [] then chunks else PackAll(Pack(chunks, parts[0]), parts[1..])
  }

  predicate Oversized(p: Part) {
    p.Text? && |p.text| > MSG_INLINE_MAX
  }

  function Pieces(p: Part): seq<Part> {
    if Oversized(p) then Cut(p.id, p.text, 0, 0) else [p]
  }

  function AllPieces(parts: seq<Part>): seq<Part> {
    if parts == [] then [] else Pieces(parts[0]) + AllPieces(parts[1..])
  }

  function Split(parts: seq<Part>): seq<seq<Part>> {
    PackAll([[]], AllPieces(parts))
  }

  /** Concatenating the entries' parts in list order. */
  function JoinContinuations(entries: seq<seq<Part>>): seq<Part> {
    if entries == [] then [] else entries[0] + JoinContinuations(entries[1..])
  }

  lemma {:induction false} JoinConcat(a: seq<seq<Part>>, b: seq<seq<Part>>)
    ensures JoinContinuations(a + b) == JoinContinuations(a) + JoinContinuations(b)
  {
    if a == [] {
      assert a + b == b;
    } else {
      assert (a + b)[0] == a[0] && (a + b)[1..] == a[1..] + b;
      JoinConcat(a[1..], b);
      Regroup(a[0], JoinContinuations(a[1..]), JoinContinuations(b));
    }
  }

  lemma JoinOne(a: seq<Part>)
    ensures JoinContinuations([a]) == a
  {
  }

  lemma PackJoins(chunks: seq<seq<Part>>, p: Part)
    requires chunks != []
    ensures JoinContinuations(Pack(chunks, p)) == JoinContinuations(chunks) + [p]
  {
    var front, last := chunks[..|chunks| - 1], chunks[|chunks| - 1];
    assert chunks == front + [last];
    JoinConcat(front, [last]);
    JoinOne(last);
    if Pack(chunks, p) == chunks + [[p]] {
      JoinConcat(chunks, [[p]]);
      JoinOne([p]);
    } else {
      assert Pack(chunks, p) == front + [last + [p]];
      JoinConcat(front, [last + [p]]);
      JoinOne(last + [p]);
      Regroup(JoinContinuations(front), last, [p]);
    }
  }

  lemma {:induction false} PackAllJoins(chunks: seq<seq<Part>>, parts: seq<Part>)
    requires chunks != []
    ensures JoinContinuations(PackAll(chunks, parts)) == JoinContinuations(chunks) + parts
    decreases |parts|
  {
    if parts == [] {
      assert JoinContinuations(chunks) + [] == JoinContinuations(chunks);
    } else {
      PackJoins(chunks, parts[0]);
      PackAllJoins(Pack(chunks, parts[0]), parts[1..]);
      Regroup(JoinContinuations(chunks), [parts[0]], parts[1..]);
      assert [parts[0]] + parts[1..] == parts;
    }
  }

  ghost predicate AllFit(chunks: seq<seq<Part>>) {
    forall i :: 0 <= i < |chunks| ==> Total(chunks[i]) <= MSG_INLINE_MAX
  }

  lemma {:induction false} PackAllFits(chunks: seq<seq<Part>>, parts: seq<Part>)
    requires chunks != [] && AllFit(chunks)
    requires forall p :: p in parts ==> ByteLen(p) <= MSG_INLINE_MAX
    ensures AllFit(PackAll(chunks, parts))
    decreases |parts|
  {
    if parts != [] {
      var last, p := chunks[|chunks| - 1], parts[0];
      assert ByteLen(p) <= MSG_INLINE_MAX;
      TotalSnoc(last, p);
      TotalSnoc([], p);
      assert [] + [p] == [p];
      PackAllFits(Pack(chunks, p), parts[1..]);
    }
  }

  lemma {:induction false} PartIsInAChunk(chunks: seq<seq<Part>>, p: Part)
    requires p in JoinContinuations(chunks)
    ensures exists i :: 0 <= i < |chunks| && p in chunks[i]
  {
    if p !in chunks[0] {
      PartIsInAChunk(chunks[1..], p);
      var i :| 0 <= i < |chunks[1..]| && p in chunks[1..][i];
      assert p in chunks[i + 1];
    }
  }

  ghost predicate NeededAt(chunks: seq<seq<Part>>, j: nat)
    requires 0 < j < |chunks|
  {
    chunks[j] != [] && Total(chunks[j - 1]) > 0 && Total(chunks[j - 1]) + ByteLen(chunks[j][0]) > 256 * 1024
  }

  /** No chunk could have taken the first part of the next. */
  ghost predicate NoneTooSoon(chunks: seq<seq<Part>>) {
    forall j :: 0 < j < |chunks| ==> NeededAt(chunks, j)
  }

  lemma {:induction false} PackIsTight(chunks: seq<seq<Part>>, parts: seq<Part>)
    requires chunks != [] && NoneTooSoon(chunks) && (|chunks| > 1 ==> chunks[|chunks| - 1] != [])
    ensures NoneTooSoon(PackAll(chunks, parts))
    decreases |parts|
  {
    if parts != [] {
      var next := Pack(chunks, parts[0]);
      forall j | 0 < j < |next|
        ensures NeededAt(next, j)
      {
        if j < |chunks| {
          assert NeededAt(chunks, j);
        }
      }
      PackIsTight(next, parts[1..]);
    }
  }

  // ── the whole split ───────────────────────────────────────────────────────

  ghost predicate TextsAreWhole(parts: seq<Part>) {
    forall i :: 0 <= i < |parts| && parts[i].Text? ==> WholeChars(parts[i].text)
  }

  lemma {:induction false} AllPiecesFit(parts: seq<Part>)
    requires TextsAreWhole(parts)
    ensures forall q :: q in AllPieces(parts) ==> ByteLen(q) <= MSG_INLINE_MAX || (!q.Text? && q in parts)
    ensures forall p :: p in parts && !Oversized(p) ==> p in AllPieces(parts)
  {
    if parts != [] {
      AllPiecesFit(parts[1..]);
      var p := parts[0];
      if Oversized(p) {
        CutIsFaithful(p.id, p.text, 0, 0);
      }
      assert forall q :: q in AllPieces(parts) ==> q in Pieces(p) || q in AllPieces(parts[1..]);
    }
  }

  /** Every chunk fits inline exactly when every part that cannot be cut does. */
  lemma ChunksFitIff(parts: seq<Part>)
    requires TextsAreWhole(parts)
    ensures AllFit(Split(parts)) <==> forall p :: p in parts && !p.Text? ==> ByteLen(p) <= MSG_INLINE_MAX
  {
    var pieces := AllPieces(parts);
    AllPiecesFit(parts);
    PackAllJoins([[]], pieces);
    JoinOne([]);
    assert JoinContinuations(Split(parts)) == [] + pieces;
    if forall p :: p in parts && !p.Text? ==> ByteLen(p) <= MSG_INLINE_MAX {
      assert Total([]) == 0;
      PackAllFits([[]], pieces);
    }
    if AllFit(Split(parts)) {
      forall p | p in parts && !p.Text?
        ensures ByteLen(p) <= MSG_INLINE_MAX
      {
        PartIsInAChunk(Split(parts), p);
        var i :| 0 <= i < |Split(parts)| && p in Split(parts)[i];
        TotalHas(Split(parts)[i], p);
      }
    }
  }

  /** The split uses no chunk it does not need: a new one is opened only for a part that the last cannot take. */
  lemma ChunksAreFull(parts: seq<Part>)
    ensures NoneTooSoon(Split(parts))
  {
    PackIsTight([[]], AllPieces(parts));
  }

  /** A text that fits stays one part, and whatever is not text is never cut. */
  lemma {:induction false} OnlyLongTextsAreCut(parts: seq<Part>)
    requires forall p :: p in parts && p.Text? ==> |p.text| <= 256 * 1024
    ensures JoinContinuations(Split(parts)) == parts
  {
    AllPiecesWhole(parts);
    PackAllJoins([[]], parts);
    JoinOne([]);
    assert [] + parts == parts;
  }

  lemma {:induction false} AllPiecesWhole(parts: seq<Part>)
    requires forall p :: p in parts ==> !Oversized(p)
    ensures AllPieces(parts) == parts
  {
    if parts != [] {
      AllPiecesWhole(parts[1..]);
      assert parts == [parts[0]] + parts[1..];
    }
  }

  function Opaque(parts: seq<Part>): seq<Part> {
    if parts == [] then [] else (if parts[0].Text? then [] else [parts[0]]) + Opaque(parts[1..])
  }

  lemma {:induction false} OpaqueConcat(a: seq<Part>, b: seq<Part>)
    ensures Opaque(a + b) == Opaque(a) + Opaque(b)
  {
    if a == [] {
      assert a + b == b;
    } else {
      assert (a + b)[0] == a[0] && (a + b)[1..] == a[1..] + b;
      OpaqueConcat(a[1..], b);
      Regroup(if a[0].Text? then [] else [a[0]], Opaque(a[1..]), Opaque(b));
    }
  }

  lemma {:induction false} NoOpaque(parts: seq<Part>)
    requires forall p :: p in parts ==> p.Text?
    ensures Opaque(parts) == []
  {
    if parts != [] {
      NoOpaque(parts[1..]);
    }
  }

  lemma WholeConcat(a: seq<Part>, b: seq<Part>)
    requires TextsAreWhole(a) && TextsAreWhole(b)
    ensures TextsAreWhole(a + b)
  {
  }

  lemma PiecesAre(p: Part)
    requires p.Text? ==> WholeChars(p.text)
    ensures Texts(Pieces(p)) == Texts([p]) && Opaque(Pieces(p)) == Opaque([p]) && TextsAreWhole(Pieces(p))
  {
    if Oversized(p) {
      CutJoins(p.id, p.text, 0, 0);
      assert [p][1..] == [] && p.text[0..] == p.text && p.text + [] == p.text;
      CutIsFaithful(p.id, p.text, 0, 0);
      NoOpaque(Pieces(p));
      assert forall i :: 0 <= i < |Pieces(p)| ==> Pieces(p)[i] in Cut(p.id, p.text, 0, 0);
    }
  }

  lemma {:induction false} AllPiecesAre(parts: seq<Part>)
    requires TextsAreWhole(parts)
    ensures Texts(AllPieces(parts)) == Texts(parts) && Opaque(AllPieces(parts)) == Opaque(parts)
    ensures TextsAreWhole(AllPieces(parts))
  {
    if parts != [] {
      var p, rest := parts[0], parts[1..];
      AllPiecesAre(rest);
      PiecesAre(p);
      TextsConcat(Pieces(p), AllPieces(rest));
      OpaqueConcat(Pieces(p), AllPieces(rest));
      WholeConcat(Pieces(p), AllPieces(rest));
      TextsConcat([p], rest);
      OpaqueConcat([p], rest);
      assert [p] + rest == parts;
    }
  }

  /** Joining the chunks gives back every part in order, with the same text, still cut between characters only. */
  lemma SplitLosesNothing(parts: seq<Part>)
    requires TextsAreWhole(parts)
    ensures var joined := JoinContinuations(Split(parts));
            && joined == AllPieces(parts) && Texts(joined) == Texts(parts) && Opaque(joined) == Opaque(parts)
            && TextsAreWhole(joined)
  {
    PackAllJoins([[]], AllPieces(parts));
    JoinOne([]);
    assert [] + AllPieces(parts) == AllPieces(parts);
    AllPiecesAre(parts);
  }

  // ── the loops ─────────────────────────────────────────────────────────────

  lemma {:induction false} PackAllConcat(chunks: seq<seq<Part>>, a: seq<Part>, b: seq<Part>)
    requires chunks != []
    ensures PackAll(chunks, a + b) == PackAll(PackAll(chunks, a), b)
    decreases |a|
  {
    if a == [] {
      assert a + b == b;
    } else {
      assert (a + b)[0] == a[0] && (a + b)[1..] == a[1..] + b;
      PackAllConcat(Pack(chunks, a[0]), a[1..], b);
    }
  }

  lemma PackCut(chunks: seq<seq<Part>>, id: string, text: Bytes, start: nat, piece: nat)
    requires chunks != [] && start < |text|
    ensures PackAll(chunks, Cut(id, text, start, piece))
         == PackAll(Pack(chunks, Text(PieceId(id, piece), text[start..NextCut(text, start)])), Cut(id, text, NextCut(text, start), piece + 1))
  {
  }

  method FindCut(text: Bytes, start: nat) returns (end: nat)
    requires start < |text|
    ensures end == NextCut(text, start)
  {
    end := Min(start + MSG_INLINE_MAX, |text|);
    while !IsCharBoundary(text, end)
      invariant end <= |text|
      invariant StepBack(text, end) == StepBack(text, Min(start + MSG_INLINE_MAX, |text|))
      decreases end
    {
      end := end - 1;
    }
    if end <= start {
      end := |text|;
    }
  }

  class Splitter {
    var chunks: seq<seq<Part>>
    var currentBytes: nat

    ghost predicate Valid()
      reads this
    {
      chunks != [] && currentBytes == Total(chunks[|chunks| - 1])
    }

    constructor ()
      ensures Valid() && chunks == [[]]
    {
      chunks, currentBytes := [[]], 0;
    }

    method PushPart(p: Part)
      requires Valid()
      modifies this
      ensures Valid() && chunks == Pack(old(chunks), p)
    {
      var len := ByteLen(p);
      ghost var last := chunks[|chunks| - 1];
      TotalSnoc(last, p);
      TotalSnoc([], p);
      assert [] + [p] == [p];
      if currentBytes > 0 && currentBytes + len > MSG_INLINE_MAX {
        chunks := chunks + [[]];
        currentBytes := 0;
      }
      currentBytes := currentBytes + len;
      chunks := chunks[|chunks| - 1 := chunks[|chunks| - 1] + [p]];
      assert chunks == Pack(old(chunks), p);
    }

    method PushPieces(id: string, text: Bytes)
      requires Valid()
      modifies this
      ensures Valid() && chunks == PackAll(old(chunks), Cut(id, text, 0, 0))
    {
      var start, piece := 0, 0;
      while start < |text|
        invariant Valid() && start <= |text|
        invariant PackAll(chunks, Cut(id, text, start, piece)) == PackAll(old(chunks), Cut(id, text, 0, 0))
        decreases |text| - start
      {
        var end := FindCut(text, start);
        PackCut(chunks, id, text, start, piece);
        PushPart(Text(PieceId(id, piece), text[start..end]));
        start, piece := end, piece + 1;
      }
    }

    method SplitAll(parts: seq<Part>)
      requires Valid() && chunks == [[]]
      modifies this
      ensures chunks == Split(parts)
    {
      assert parts[0..] == parts;
      for i := 0 to |parts|
        invariant Valid()
        invariant PackAll(chunks, AllPieces(parts[i..])) == Split(parts)
      {
        assert parts[i..][0] == parts[i] && parts[i..][1..] == parts[i + 1..];
        PackAllConcat(chunks, Pieces(parts[i]), AllPieces(parts[i + 1..]));
        if Oversized(parts[i]) {
          PushPieces(parts[i].id, parts[i].text);
        } else {
          assert [parts[i]][1..] == [];
          PushPart(parts[i]);
        }
      }
    }
  }
}
