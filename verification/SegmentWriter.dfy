/**
 The streaming writer: at each commit tick it writes into the stored entry only what changed since the
 last one, and must leave what writing the final parts once would leave (`crates/doc/src/schema.rs`).
 */
module SegmentWriter {
  import opened Prelude
  import opened MessageParts

  // ── the stored form of a part ─────────────────────────────────────────────

  /** A part map; an absent key is `None`. */
  datatype DocPart = DocPart(
    id: string,
    kind: string,
    text: Option<Bytes>,
    call: Option<Json>,
    isError: Option<bool>,
    questions: Option<Json>,
    resolved: Option<bool>,
    message: Option<Bytes>,
    output: Option<Bytes>,
    diff: Option<Json>,
    outputRef: Option<string>,
    outputBytes: Option<nat>,
    diffRef: Option<string>,
    diffStats: Option<Json>,
    subagentRef: Option<string>,
    subagentStatus: Option<string>,
    subagentTail: Option<Bytes>)

  function Blank(id: string, kind: string): DocPart {
    DocPart(id, kind, None, None, None, None, None, None, None, None, None, None, None, None, None, None, None)
  }

  function StatusName(s: Option<SubagentStatus>): Option<string> {
    match s
    case None => None
    case Some(Running) => Some("running")
    case Some(Finished) => Some("done")
    case Some(Broken) => Some("failed")
  }

  function StatusOf(name: Option<string>): Option<SubagentStatus> {
    if name == Some("running") then Some(Running)
    else if name == Some("done") then Some(Finished)
    else if name == Some("failed") then Some(Broken)
    else None
  }

  /** `isError` is written only once the result has arrived: its presence marks the resolution. */
  function ToDoc(p: Part): DocPart {
    match p
    case Text(id, text) => Blank(id, "text").(text := Some(text))
    case Tool(id, call, isError, resolved, output, diff, outputRef, outputBytes, diffRef, diffStats, sref, status, tail) =>
      Blank(id, "tool").(call := Some(call), isError := if resolved then Some(isError) else None,
                         output := output, diff := diff, outputRef := outputRef, outputBytes := outputBytes,
                         diffRef := diffRef, diffStats := diffStats, subagentRef := sref,
                         subagentStatus := StatusName(status), subagentTail := tail)
    case Input(_, request, questions, resolved) =>
      Blank(request, "input").(questions := Some(questions), resolved := Some(resolved))
    case Error(id, message) => Blank(id, "error").(message := Some(message))
  }

  function OrElse<T>(value: Option<T>, default: T): T {
    if value.Some? then value.value else default
  }

  /** `[]` as a JSON value. */
  const NO_QUESTIONS: Json := [0x5B, 0x5D]

  /** Anything malformed degrades to an empty text. */
  function FromDoc(d: DocPart): Part {
    if d.kind == "tool" then
      if d.call.None? then Text(d.id, [])
      else Tool(d.id, d.call.value, OrElse(d.isError, false), d.isError.Some?, d.output, d.diff, d.outputRef,
                d.outputBytes, d.diffRef, d.diffStats, d.subagentRef, StatusOf(d.subagentStatus), d.subagentTail)
    else if d.kind == "input" then Input(d.id, d.id, OrElse(d.questions, NO_QUESTIONS), OrElse(d.resolved, false))
    else if d.kind == "error" then Error(d.id, OrElse(d.message, []))
    else Text(d.id, OrElse(d.text, []))
  }

  lemma StatusRoundTrips(s: Option<SubagentStatus>)
    ensures StatusOf(StatusName(s)) == s
  {
    assert "running"[0] != "done"[0] && "running"[0] != "failed"[0] && "done"[0] != "failed"[0];
  }

  /** The words the stored form is written in. */
  lemma StoredWords(p: Part)
    ensures ToDoc(p).kind == match p { case Text(_, _) => "text" case Input(_, _, _, _) => "input" case Error(_, _) => "error"
                                        case Tool(_, _, _, _, _, _, _, _, _, _, _, _, _) => "tool" }
    ensures p.Tool? ==>
              ToDoc(p).subagentStatus == match p.subagentStatus { case None => None case Some(Running) => Some("running")
                                                                  case Some(Finished) => Some("done") case Some(Broken) => Some("failed") }
    ensures ToDoc(p).isError.Some? <==> p.Tool? && p.resolved
    ensures ToDoc(p).id == if p.Input? then p.requestId else p.id
  {
  }

  /** Which parts come back from the document as they went in. */
  lemma ReadsBackIff(p: Part)
    ensures FromDoc(ToDoc(p)) == p
       <==> (p.Tool? ==> p.resolved || !p.isError) && (p.Input? ==> p.id == p.requestId)
  {
    assert "tool"[0] != "input"[0] && "error"[0] != "input"[0] && "tool"[0] != "error"[0];
    assert "text"[1] == 'e' && "tool"[1] == 'o' && "text"[0] != "input"[0] && "text"[0] != "error"[0];
    if p.Tool? {
      StatusRoundTrips(p.subagentStatus);
    }
  }

  /** What a reader of a folded entry sees: the same parts, except that an input answers to its request id. */
  lemma FoldedReadsBack(parts: seq<Part>, i: nat)
    requires Folded(parts) && i < |parts|
    ensures var p := parts[i];
            FromDoc(ToDoc(p)) == if p.Input? then Input(p.requestId, p.requestId, p.questions, p.resolved) else p
  {
    var p := parts[i];
    ReadsBackIff(p);
    if p.Input? {
      ReadsBackIff(Input(p.requestId, p.requestId, p.questions, p.resolved));
    }
  }

  // ── one part ──────────────────────────────────────────────────────────────

  function Over<T>(stored: Option<T>, update: Option<T>): Option<T> {
    if update.Some? then update else stored
  }

  /** Field by field, writing what is present and leaving what is absent alone. */
  function UpdateFields(s: DocPart, d: DocPart): DocPart {
    s.(call := Over(s.call, d.call), isError := Over(s.isError, d.isError), questions := Over(s.questions, d.questions),
       resolved := Over(s.resolved, d.resolved), message := Over(s.message, d.message), output := Over(s.output, d.output),
       diff := Over(s.diff, d.diff), outputRef := Over(s.outputRef, d.outputRef), outputBytes := Over(s.outputBytes, d.outputBytes),
       diffRef := Over(s.diffRef, d.diffRef), diffStats := Over(s.diffStats, d.diffStats), subagentRef := Over(s.subagentRef, d.subagentRef),
       subagentStatus := Over(s.subagentStatus, d.subagentStatus), subagentTail := Over(s.subagentTail, d.subagentTail),
       text := if s.text.Some? && d.text.Some? then d.text else s.text)
  }

  /** `None` is a schema error: the stored part has no text to append to. */
  function SyncPart(s: DocPart, was: Part, part: Part): Option<DocPart> {
    if was == part then Some(s)
    else if was.Text? && part.Text? && IsPrefix(was.text, part.text) then
      if |part.text| == |was.text| then Some(s)
      else if s.text.Some? then Some(s.(text := Some(s.text.value + part.text[|was.text|..])))
      else None
    else Some(UpdateFields(s, ToDoc(part)))
  }

  predicate Keeps<T>(a: Option<T>, b: Option<T>) {
    a.Some? ==> b.Some?
  }

  /** No optional field goes from present to absent. */
  predicate NothingDropped(a: DocPart, b: DocPart) {
    && Keeps(a.text, b.text) && Keeps(a.call, b.call) && Keeps(a.isError, b.isError) && Keeps(a.questions, b.questions)
    && Keeps(a.resolved, b.resolved) && Keeps(a.message, b.message) && Keeps(a.output, b.output) && Keeps(a.diff, b.diff)
    && Keeps(a.outputRef, b.outputRef) && Keeps(a.outputBytes, b.outputBytes) && Keeps(a.diffRef, b.diffRef)
    && Keeps(a.diffStats, b.diffStats) && Keeps(a.subagentRef, b.subagentRef) && Keeps(a.subagentStatus, b.subagentStatus)
    && Keeps(a.subagentTail, b.subagentTail)
  }

  /** The same part later on: its text may have grown, any other field may have changed in any way. */
  predicate Continues(a: Part, b: Part) {
    match a
    case Text(id, text) => b.Text? && b.id == id && IsPrefix(text, b.text)
    case Tool(id, _, _, _, _, _, _, _, _, _, _, _, _) => b.Tool? && b.id == id
    case Input(_, request, _, _) => b.Input? && b.requestId == request
    case Error(id, _) => b.Error? && b.id == id
  }

  ghost predicate Continuation(a: seq<Part>, b: seq<Part>) {
    |a| <= |b| && forall i :: 0 <= i < |a| ==> Continues(a[i], b[i])
  }

  lemma ContinuationOn(a: seq<Part>, b: seq<Part>, c: seq<Part>)
    requires Continuation(a, b) && Continuation(b, c)
    ensures Continuation(a, c)
  {
    forall i | 0 <= i < |a|
      ensures Continues(a[i], c[i])
    {
      if a[i].Text? {
        assert c[i].text[..|b[i].text|][..|a[i].text|] == c[i].text[..|a[i].text|];
      }
    }
  }

  // ── which fields are there ────────────────────────────────────────────────

  datatype Field =
    | FText | FCall | FIsError | FQuestions | FResolved | FMessage | FOutput | FDiff
    | FOutputRef | FOutputBytes | FDiffRef | FDiffStats | FSubagentRef | FSubagentStatus | FSubagentTail

  predicate HasField(d: DocPart, f: Field) {
    match f
    case FText => d.text.Some?
    case FCall => d.call.Some?
    case FIsError => d.isError.Some?
    case FQuestions => d.questions.Some?
    case FResolved => d.resolved.Some?
    case FMessage => d.message.Some?
    case FOutput => d.output.Some?
    case FDiff => d.diff.Some?
    case FOutputRef => d.outputRef.Some?
    case FOutputBytes => d.outputBytes.Some?
    case FDiffRef => d.diffRef.Some?
    case FDiffStats => d.diffStats.Some?
    case FSubagentRef => d.subagentRef.Some?
    case FSubagentStatus => d.subagentStatus.Some?
    case FSubagentTail => d.subagentTail.Some?
  }

  lemma ContentKept(a: DocPart, b: DocPart)
    requires forall f :: HasField(a, f) ==> HasField(b, f)
    ensures Keeps(a.text, b.text) && Keeps(a.call, b.call) && Keeps(a.isError, b.isError) && Keeps(a.questions, b.questions)
            && Keeps(a.resolved, b.resolved) && Keeps(a.message, b.message) && Keeps(a.output, b.output) && Keeps(a.diff, b.diff)
  {
    assert HasField(a, FText) ==> HasField(b, FText);
    assert HasField(a, FCall) ==> HasField(b, FCall);
    assert HasField(a, FIsError) ==> HasField(b, FIsError);
    assert HasField(a, FQuestions) ==> HasField(b, FQuestions);
    assert HasField(a, FResolved) ==> HasField(b, FResolved);
    assert HasField(a, FMessage) ==> HasField(b, FMessage);
    assert HasField(a, FOutput) ==> HasField(b, FOutput);
    assert HasField(a, FDiff) ==> HasField(b, FDiff);
  }

  lemma ReferencesKept(a: DocPart, b: DocPart)
    requires forall f :: HasField(a, f) ==> HasField(b, f)
    ensures Keeps(a.outputRef, b.outputRef) && Keeps(a.outputBytes, b.outputBytes) && Keeps(a.diffRef, b.diffRef) && Keeps(a.diffStats, b.diffStats)
            && Keeps(a.subagentRef, b.subagentRef) && Keeps(a.subagentStatus, b.subagentStatus) && Keeps(a.subagentTail, b.subagentTail)
  {
    assert HasField(a, FOutputRef) ==> HasField(b, FOutputRef);
    assert HasField(a, FOutputBytes) ==> HasField(b, FOutputBytes);
    assert HasField(a, FDiffRef) ==> HasField(b, FDiffRef);
    assert HasField(a, FDiffStats) ==> HasField(b, FDiffStats);
    assert HasField(a, FSubagentRef) ==> HasField(b, FSubagentRef);
    assert HasField(a, FSubagentStatus) ==> HasField(b, FSubagentStatus);
    assert HasField(a, FSubagentTail) ==> HasField(b, FSubagentTail);
  }

  lemma NothingDroppedMeans(a: DocPart, b: DocPart)
    ensures NothingDropped(a, b) <==> forall f :: HasField(a, f) ==> HasField(b, f)
  {
    if forall f :: HasField(a, f) ==> HasField(b, f) {
      ContentKept(a, b);
      ReferencesKept(a, b);
    }
  }

  /** The stored part has every value a fresh write would have, and perhaps fields it would not. */
  predicate Holds(s: DocPart, d: DocPart) {
    s.id == d.id && s.kind == d.kind && s.text == d.text && UpdateFields(s, d) == s
  }

  lemma HeldFields(s: DocPart, d: DocPart, f: Field)
    requires Holds(s, d) && HasField(d, f)
    ensures HasField(s, f)
  {
  }

  /** Without a field too many the stored part is the fresh write. */
  lemma HoldsExactly(s: DocPart, d: DocPart)
    requires Holds(s, d)
    ensures s == d <==> NothingDropped(s, d)
  {
  }

  lemma UpdateTracks(s: DocPart, d: DocPart, f: Field)
    requires s.id == d.id && s.kind == d.kind && s.text.Some? == d.text.Some?
    ensures Holds(UpdateFields(s, d), d)
    ensures HasField(UpdateFields(s, d), f) <==> HasField(s, f) || HasField(d, f)
  {
  }

  /** One part at one tick: it then holds what a fresh write would, and has every field it ever had. */
  lemma SyncPartTracks(s: DocPart, was: Part, part: Part, f: Field)
    requires Holds(s, ToDoc(was)) && Continues(was, part)
    ensures SyncPart(s, was, part).Some?
    ensures Holds(SyncPart(s, was, part).value, ToDoc(part))
    ensures HasField(SyncPart(s, was, part).value, f) <==> HasField(s, f) || HasField(ToDoc(part), f)
  {
    if was == part {
      if HasField(ToDoc(part), f) {
        HeldFields(s, ToDoc(part), f);
      }
    } else if was.Text? {
      assert part.text == was.text + part.text[|was.text|..];
    } else {
      UpdateTracks(s, ToDoc(part), f);
    }
  }

  // ── one commit tick ───────────────────────────────────────────────────────

  /** After the first `n` folded parts have been looked at. */
  function SyncTo(stored: seq<DocPart>, written: seq<Part>, folded: seq<Part>, n: nat): Option<seq<DocPart>>
    requires n <= |folded|
  {
    if n == 0 then Some(stored)
    else
      var i, before := n - 1, SyncTo(stored, written, folded, n - 1);
      if before.None? then None
      else if i >= |written| then Some(before.value + [ToDoc(folded[i])])
      else if written[i] == folded[i] then before
      else if i >= |before.value| then None
      else
        var part := SyncPart(before.value[i], written[i], folded[i]);
        if part.None? then None else Some(before.value[i := part.value])
  }

  function Mirror(written: seq<Part>, folded: seq<Part>): seq<Part> {
    if |folded| < |written| then folded + written[|folded|..] else folded
  }

  /** Writing the parts once, from nothing. */
  function Pushed(parts: seq<Part>): (out: seq<DocPart>)
    ensures |out| == |parts|
    ensures forall i :: 0 <= i < |out| ==> out[i] == ToDoc(parts[i])
  {
    seq(|parts|, i requires 0 <= i < |parts| => ToDoc(parts[i]))
  }

  ghost predicate NoneDropped(a: seq<Part>, b: seq<Part>) {
    |a| <= |b| && forall i :: 0 <= i < |a| ==> NothingDropped(ToDoc(a[i]), ToDoc(b[i]))
  }

  /** What one part should be stored as after the first `n` have been looked at. */
  function SyncedPart(stored: seq<DocPart>, written: seq<Part>, folded: seq<Part>, n: nat, i: nat): Option<DocPart>
    requires |stored| == |written| && n <= |folded| && (i < n || i < |written|)
  {
    if i >= n then Some(stored[i])
    else if i >= |written| then Some(ToDoc(folded[i]))
    else SyncPart(stored[i], written[i], folded[i])
  }

  ghost predicate SyncedUpTo(stored: seq<DocPart>, written: seq<Part>, folded: seq<Part>, n: nat, out: Option<seq<DocPart>>)
    requires |stored| == |written| && n <= |folded|
  {
    && out.Some? && |out.value| == Max(|written|, n)
    && forall i :: 0 <= i < |out.value| ==> SyncedPart(stored, written, folded, n, i) == Some(out.value[i])
  }

  /** The document holds what the mirror says was written. */
  ghost predicate Mirrors(stored: seq<DocPart>, written: seq<Part>) {
    |stored| == |written| && forall i :: 0 <= i < |stored| ==> Holds(stored[i], ToDoc(written[i]))
  }

  lemma SyncStep(stored: seq<DocPart>, written: seq<Part>, folded: seq<Part>, n: nat)
    requires Mirrors(stored, written) && Continuation(written, folded) && n < |folded|
    requires SyncedUpTo(stored, written, folded, n, SyncTo(stored, written, folded, n))
    ensures SyncedUpTo(stored, written, folded, n + 1, SyncTo(stored, written, folded, n + 1))
  {
    var before := SyncTo(stored, written, folded, n).value;
    if n < |written| {
      SyncPartTracks(stored[n], written[n], folded[n], FText);
      assert SyncedPart(stored, written, folded, n, n) == Some(before[n]);
    }
    forall i | 0 <= i < |before| && i != n
      ensures SyncedPart(stored, written, folded, n + 1, i) == Some(before[i])
    {
      assert SyncedPart(stored, written, folded, n, i) == Some(before[i]);
    }
  }

  lemma SyncStart(stored: seq<DocPart>, written: seq<Part>, folded: seq<Part>)
    requires |stored| == |written|
    ensures SyncedUpTo(stored, written, folded, 0, SyncTo(stored, written, folded, 0))
  {
  }

  lemma SyncToIs(stored: seq<DocPart>, written: seq<Part>, folded: seq<Part>, n: nat)
    requires Mirrors(stored, written) && Continuation(written, folded) && n <= |folded|
    ensures SyncedUpTo(stored, written, folded, n, SyncTo(stored, written, folded, n))
  {
    SyncStart(stored, written, folded);
    for i := 0 to n
      invariant SyncedUpTo(stored, written, folded, i, SyncTo(stored, written, folded, i))
    {
      SyncStep(stored, written, folded, i);
    }
  }

  /** The document after one tick. */
  function Synced(stored: seq<DocPart>, written: seq<Part>, folded: seq<Part>): Option<seq<DocPart>> {
    SyncTo(stored, written, folded, |folded|)
  }

  lemma SyncTracks(stored: seq<DocPart>, written: seq<Part>, folded: seq<Part>)
    requires Mirrors(stored, written) && Continuation(written, folded)
    ensures Synced(stored, written, folded).Some?
    ensures var out := Synced(stored, written, folded).value;
            && Mirrors(out, folded)
            && forall i, f :: 0 <= i < |out| ==>
                 (HasField(out[i], f) <==> (i < |stored| && HasField(stored[i], f)) || HasField(ToDoc(folded[i]), f))
  {
    SyncToIs(stored, written, folded, |folded|);
    var out := Synced(stored, written, folded).value;
    forall i, f | 0 <= i < |out|
      ensures Holds(out[i], ToDoc(folded[i]))
      ensures HasField(out[i], f) <==> (i < |stored| && HasField(stored[i], f)) || HasField(ToDoc(folded[i]), f)
    {
      assert SyncedPart(stored, written, folded, |folded|, i) == Some(out[i]);
      if i < |written| {
        SyncPartTracks(stored[i], written[i], folded[i], f);
      }
    }
    assert forall i :: 0 <= i < |out| ==> Holds(out[i], ToDoc(folded[i])) by {
      forall i | 0 <= i < |out|
        ensures Holds(out[i], ToDoc(folded[i]))
      {
        assert HasField(out[i], FText) || !HasField(out[i], FText);
      }
    }
  }

  lemma PushedMirrors(parts: seq<Part>)
    ensures Mirrors(Pushed(parts), parts)
  {
  }

  lemma MirrorIsPushedIff(out: seq<DocPart>, parts: seq<Part>)
    requires Mirrors(out, parts)
    ensures out == Pushed(parts) <==> forall i, f :: 0 <= i < |out| && HasField(out[i], f) ==> HasField(ToDoc(parts[i]), f)
  {
    forall i | 0 <= i < |out|
      ensures out[i] == ToDoc(parts[i]) <==> forall f :: HasField(out[i], f) ==> HasField(ToDoc(parts[i]), f)
    {
      HoldsExactly(out[i], ToDoc(parts[i]));
      NothingDroppedMeans(out[i], ToDoc(parts[i]));
    }
    SameAsPushed(out, parts);
  }

  lemma SameAsPushed(out: seq<DocPart>, parts: seq<Part>)
    requires |out| == |parts|
    ensures out == Pushed(parts) <==> forall i :: 0 <= i < |parts| ==> out[i] == ToDoc(parts[i])
  {
  }

  lemma NoneDroppedMeans(a: seq<Part>, b: seq<Part>)
    requires |a| <= |b|
    ensures NoneDropped(a, b) <==> forall i, f :: 0 <= i < |a| && HasField(ToDoc(a[i]), f) ==> HasField(ToDoc(b[i]), f)
  {
    forall i | 0 <= i < |a|
      ensures NothingDropped(ToDoc(a[i]), ToDoc(b[i])) <==> forall f :: HasField(ToDoc(a[i]), f) ==> HasField(ToDoc(b[i]), f)
    {
      NothingDroppedMeans(ToDoc(a[i]), ToDoc(b[i]));
    }
  }

  /**
   The incremental writer refines the one-shot writer at each tick: from a faithful document the sync
   leaves exactly what pushing the folded parts once would, if and only if no optional field of a part
   already written went from present to absent.
   */
  lemma SyncIsExactIff(written: seq<Part>, folded: seq<Part>)
    requires Continuation(written, folded)
    ensures Synced(Pushed(written), written, folded).Some?
    ensures Synced(Pushed(written), written, folded).value == Pushed(folded) <==> NoneDropped(written, folded)
  {
    PushedMirrors(written);
    SyncTracks(Pushed(written), written, folded);
    MirrorIsPushedIff(Synced(Pushed(written), written, folded).value, folded);
    NoneDroppedMeans(written, folded);
  }

  // ── which events drop a field ─────────────────────────────────────────────

  /** A result without a diff for a tool whose earlier result had one. */
  ghost predicate ForgetsStats(parts: seq<Part>, e: Event) {
    e.ToolResult? && e.stats.None?
    && exists i :: 0 <= i < |parts| && parts[i].Tool? && parts[i].id == e.result && parts[i].diffStats.Some?
  }

  lemma RefreshDropsIff(p: Part, e: Event)
    requires p.Tool? ==> p.output.None? && p.diff.None? && p.outputBytes.None?
    ensures NothingDropped(ToDoc(p), ToDoc(Refresh(p, e)))
       <==> !(e.ToolResult? && e.stats.None? && p.Tool? && p.id == e.result && p.diffStats.Some?)
  {
  }

  /** A second result without a diff is the one event of the fold that takes a stored field away. */
  lemma FoldDropsIff(parts: seq<Part>, e: Event)
    requires Folded(parts) && !Resets(e)
    ensures NoneDropped(parts, Fold(parts, e)) <==> !ForgetsStats(parts, e)
  {
    forall i | 0 <= i < |parts|
      ensures NothingDropped(ToDoc(parts[i]), ToDoc(Refresh(parts[i], e)))
         <==> !(e.ToolResult? && e.stats.None? && parts[i].Tool? && parts[i].id == e.result && parts[i].diffStats.Some?)
    {
      RefreshDropsIff(parts[i], e);
    }
    if e.ToolResult? || e.InputResolved? || e.Subagent? {
      assert Fold(parts, e) == RefreshAll(parts, e);
    } else {
      assert forall i :: 0 <= i < |parts| ==> NothingDropped(ToDoc(parts[i]), ToDoc(Fold(parts, e)[i]));
    }
  }

  lemma NoneDroppedOn(a: seq<Part>, b: seq<Part>, c: seq<Part>)
    requires NoneDropped(a, b) && NoneDropped(b, c)
    ensures NoneDropped(a, c)
  {
    forall i | 0 <= i < |a|
      ensures NothingDropped(ToDoc(a[i]), ToDoc(c[i]))
    {
      assert NothingDropped(ToDoc(b[i]), ToDoc(c[i]));
    }
  }

  // ── a whole stream ────────────────────────────────────────────────────────

  /**
   Events arrive, spawn chips are stamped with the document of their subagent, the end of a run settles
   every input, and commit ticks fall wherever they fall.
   */
  datatype Action = Arrives(event: Event) | Stamp(tool: string, doc: string) | SettleInputs | Tick

  function Stamped(parts: seq<Part>, tool: string, doc: string): (out: seq<Part>)
    ensures |out| == |parts|
    ensures forall i :: 0 <= i < |out| ==>
              out[i] == if parts[i].Tool? && parts[i].id == tool then parts[i].(subagentRef := Some(doc)) else parts[i]
  {
    seq(|parts|, i requires 0 <= i < |parts| =>
      if parts[i].Tool? && parts[i].id == tool then parts[i].(subagentRef := Some(doc)) else parts[i])
  }

  function Settled(parts: seq<Part>): (out: seq<Part>)
    ensures |out| == |parts|
    ensures forall i :: 0 <= i < |out| ==>
              out[i] == if parts[i].Input? then Input(parts[i].id, parts[i].requestId, parts[i].questions, true) else parts[i]
  {
    seq(|parts|, i requires 0 <= i < |parts| =>
      if parts[i].Input? then Input(parts[i].id, parts[i].requestId, parts[i].questions, true) else parts[i])
  }

  /** What a tick writes: the parts with every tool call passed through the privacy policy. */
  function Rendered(parts: seq<Part>, policy: Json -> Json): (out: seq<Part>)
    ensures |out| == |parts|
    ensures forall i :: 0 <= i < |out| ==> out[i] == if parts[i].Tool? then parts[i].(call := policy(parts[i].call)) else parts[i]
  {
    seq(|parts|, i requires 0 <= i < |parts| => if parts[i].Tool? then parts[i].(call := policy(parts[i].call)) else parts[i])
  }

  datatype Stream = Stream(parts: seq<Part>, stored: seq<DocPart>, written: seq<Part>, failed: bool)

  function Ticked(s: Stream, policy: Json -> Json): Stream {
    var out := Synced(s.stored, s.written, Rendered(s.parts, policy));
    if out.None? then s.(failed := true) else s.(stored := out.value, written := Mirror(s.written, Rendered(s.parts, policy)))
  }

  function Acted(s: Stream, action: Action, policy: Json -> Json): Stream {
    match action
    case Arrives(e) => s.(parts := Fold(s.parts, e))
    case Stamp(tool, doc) => s.(parts := Stamped(s.parts, tool, doc))
    case SettleInputs => s.(parts := Settled(s.parts))
    case Tick => Ticked(s, policy)
  }

  function Streamed(actions: seq<Action>, policy: Json -> Json): Stream
    decreases |actions|
  {
    if actions == [] then Stream([], [], [], false)
    else Acted(Streamed(actions[..|actions| - 1], policy), actions[|actions| - 1], policy)
  }

  /** No event starts a new turn. */
  ghost predicate OneTurn(actions: seq<Action>) {
    forall i :: 0 <= i < |actions| && actions[i].Arrives? ==> !Resets(actions[i].event)
  }

  /** What was written at each tick, oldest first. */
  function TickedParts(actions: seq<Action>, policy: Json -> Json): seq<seq<Part>>
    decreases |actions|
  {
    if actions == [] then []
    else
      var front := actions[..|actions| - 1];
      TickedParts(front, policy)
      + if actions[|actions| - 1].Tick? then [Rendered(Streamed(front, policy).parts, policy)] else []
  }

  /** Some tick wrote part `i` with field `f`. */
  ghost predicate EverHad(history: seq<seq<Part>>, i: nat, f: Field) {
    exists h :: 0 <= h < |history| && i < |history[h]| && HasField(ToDoc(history[h][i]), f)
  }

  lemma EverHadMore(history: seq<seq<Part>>, parts: seq<Part>, i: nat, f: Field)
    ensures EverHad(history + [parts], i, f) <==> EverHad(history, i, f) || (i < |parts| && HasField(ToDoc(parts[i]), f))
  {
    var all := history + [parts];
    assert all[|history|] == parts;
    if EverHad(history, i, f) {
      var h :| 0 <= h < |history| && i < |history[h]| && HasField(ToDoc(history[h][i]), f);
      assert all[h] == history[h];
    }
  }

  /** The document holds what was last written, and has just the fields that were ever written. */
  ghost predicate Tracks(s: Stream, history: seq<seq<Part>>, policy: Json -> Json) {
    && !s.failed && Mirrors(s.stored, s.written) && Continuation(s.written, Rendered(s.parts, policy))
    && (forall h :: 0 <= h < |history| ==> |history[h]| <= |s.written|)
    && (forall i, f :: 0 <= i < |s.stored| ==> (HasField(s.stored[i], f) <==> EverHad(history, i, f)))
  }

  lemma RenderedContinues(a: seq<Part>, b: seq<Part>, policy: Json -> Json)
    requires Continuation(a, b)
    ensures Continuation(Rendered(a, policy), Rendered(b, policy))
  {
  }

  lemma SelfContinues(parts: seq<Part>)
    ensures Continuation(parts, parts)
  {
    forall i | 0 <= i < |parts|
      ensures Continues(parts[i], parts[i])
    {
      assert parts[i].Text? ==> parts[i].text[..|parts[i].text|] == parts[i].text;
    }
  }

  lemma EvolvesIsContinuation(a: seq<Part>, b: seq<Part>)
    requires Evolves(a, b)
    ensures Continuation(a, b)
  {
    forall i | 0 <= i < |a|
      ensures Continues(a[i], b[i])
    {
      assert PartEvolves(a[i], b[i]);
    }
  }

  /** Whatever happens between ticks only carries the parts on. */
  lemma ActionContinues(s: Stream, action: Action, policy: Json -> Json)
    requires !action.Tick? && (action.Arrives? ==> !Resets(action.event))
    ensures Continuation(s.parts, Acted(s, action, policy).parts)
  {
    if action.Arrives? {
      FoldEvolves(s.parts, action.event);
      EvolvesIsContinuation(s.parts, Fold(s.parts, action.event));
    } else {
      SelfContinues(s.parts);
      var out := Acted(s, action, policy).parts;
      assert forall i :: 0 <= i < |out| ==> Continues(s.parts[i], s.parts[i]);
    }
  }

  lemma ActionTracks(s: Stream, history: seq<seq<Part>>, action: Action, policy: Json -> Json)
    requires Tracks(s, history, policy) && !action.Tick? && (action.Arrives? ==> !Resets(action.event))
    ensures Tracks(Acted(s, action, policy), history, policy)
  {
    ActionContinues(s, action, policy);
    var out := Acted(s, action, policy).parts;
    RenderedContinues(s.parts, out, policy);
    ContinuationOn(s.written, Rendered(s.parts, policy), Rendered(out, policy));
  }

  lemma TickTracks(s: Stream, history: seq<seq<Part>>, policy: Json -> Json)
    requires Tracks(s, history, policy)
    ensures Tracks(Ticked(s, policy), history + [Rendered(s.parts, policy)], policy)
    ensures Ticked(s, policy).written == Rendered(s.parts, policy)
  {
    var now := Rendered(s.parts, policy);
    SyncTracks(s.stored, s.written, now);
    SelfContinues(now);
    var out := Ticked(s, policy);
    forall i, f | 0 <= i < |out.stored|
      ensures HasField(out.stored[i], f) <==> EverHad(history + [now], i, f)
    {
      EverHadMore(history, now, i, f);
      if EverHad(history, i, f) {
        assert i < |s.stored|;
      }
    }
  }

  lemma {:induction false} StreamTracks(actions: seq<Action>, policy: Json -> Json)
    requires OneTurn(actions)
    ensures Tracks(Streamed(actions, policy), TickedParts(actions, policy), policy)
    decreases |actions|
  {
    if actions != [] {
      var front, last := actions[..|actions| - 1], actions[|actions| - 1];
      StreamTracks(front, policy);
      var s, history := Streamed(front, policy), TickedParts(front, policy);
      if last.Tick? {
        TickTracks(s, history, policy);
      } else {
        assert history + [] == history;
        ActionTracks(s, history, last, policy);
      }
    }
  }

  /** The document after a last tick. */
  function Final(actions: seq<Action>, policy: Json -> Json): Stream {
    Ticked(Streamed(actions, policy), policy)
  }

  /**
   The incremental writer refines the one-shot writer over a whole turn, wherever the ticks fall and
   whatever is stamped or settled in between: after a last tick the document is the final parts written
   once, if and only if no field that any earlier tick wrote is absent from them.
   */
  lemma WriterRefinesOneShotIff(actions: seq<Action>, policy: Json -> Json)
    requires OneTurn(actions)
    ensures var end := Rendered(Streamed(actions, policy).parts, policy);
            && !Final(actions, policy).failed
            && (Final(actions, policy).stored == Pushed(end)
                <==> forall h :: h in TickedParts(actions, policy) ==> NoneDropped(h, end))
  {
    var s, history := Streamed(actions, policy), TickedParts(actions, policy);
    var end := Rendered(s.parts, policy);
    StreamTracks(actions, policy);
    TickTracks(s, history, policy);
    MirrorIsPushedIff(Final(actions, policy).stored, end);
    FieldsLeftIff(s, history, policy);
  }

  lemma FieldsLeftIff(s: Stream, history: seq<seq<Part>>, policy: Json -> Json)
    requires Tracks(s, history, policy) && Tracks(Ticked(s, policy), history + [Rendered(s.parts, policy)], policy)
    requires Ticked(s, policy).written == Rendered(s.parts, policy)
    ensures var end, stored := Rendered(s.parts, policy), Ticked(s, policy).stored;
            (forall i, f :: 0 <= i < |stored| && HasField(stored[i], f) ==> HasField(ToDoc(end[i]), f))
            <==> forall h :: h in history ==> NoneDropped(h, end)
  {
    var end, stored := Rendered(s.parts, policy), Ticked(s, policy).stored;
    if forall h :: h in history ==> NoneDropped(h, end) {
      forall i, f | 0 <= i < |stored| && HasField(stored[i], f)
        ensures HasField(ToDoc(end[i]), f)
      {
        EverHadMore(history, end, i, f);
        if EverHad(history, i, f) {
          var h :| 0 <= h < |history| && i < |history[h]| && HasField(ToDoc(history[h][i]), f);
          assert history[h] in history;
          NoneDroppedMeans(history[h], end);
        }
      }
    }
    if forall i, f :: 0 <= i < |stored| && HasField(stored[i], f) ==> HasField(ToDoc(end[i]), f) {
      forall h | h in history
        ensures NoneDropped(h, end)
      {
        var n :| 0 <= n < |history| && history[n] == h;
        forall i, f | 0 <= i < |h| && HasField(ToDoc(h[i]), f)
          ensures HasField(ToDoc(end[i]), f)
        {
          EverHadMore(history, end, i, f);
          assert EverHad(history, i, f);
        }
        NoneDroppedMeans(h, end);
      }
    }
  }

  // ── turns that forget nothing ─────────────────────────────────────────────

  /** No result of the turn lacks the statistics an earlier one brought. */
  ghost predicate ForgetsNothing(actions: seq<Action>, policy: Json -> Json)
    decreases |actions|
  {
    actions != [] ==>
      var front, last := actions[..|actions| - 1], actions[|actions| - 1];
      ForgetsNothing(front, policy) && (last.Arrives? ==> !ForgetsStats(Streamed(front, policy).parts, last.event))
  }

  lemma RenderedDrops(a: seq<Part>, b: seq<Part>, policy: Json -> Json)
    requires NoneDropped(a, b) && Continuation(a, b)
    ensures NoneDropped(Rendered(a, policy), Rendered(b, policy))
  {
  }

  lemma ActionDropsNothing(s: Stream, action: Action, policy: Json -> Json)
    requires Folded(s.parts) && !action.Tick?
    requires action.Arrives? ==> !Resets(action.event) && !ForgetsStats(s.parts, action.event)
    ensures Folded(Acted(s, action, policy).parts) && NoneDropped(s.parts, Acted(s, action, policy).parts)
  {
    if action.Arrives? {
      FoldKeepsShape(s.parts, action.event);
      FoldDropsIff(s.parts, action.event);
    }
  }

  lemma NothingDroppedSince(history: seq<seq<Part>>, a: seq<Part>, b: seq<Part>)
    requires (forall h :: h in history ==> NoneDropped(h, a)) && NoneDropped(a, b)
    ensures forall h :: h in history ==> NoneDropped(h, b)
  {
    forall h | h in history
      ensures NoneDropped(h, b)
    {
      NoneDroppedOn(h, a, b);
    }
  }

  lemma {:induction false} ForgetsNothingDropsNothing(actions: seq<Action>, policy: Json -> Json)
    requires OneTurn(actions) && ForgetsNothing(actions, policy)
    ensures Folded(Streamed(actions, policy).parts)
    ensures forall h :: h in TickedParts(actions, policy) ==> NoneDropped(h, Rendered(Streamed(actions, policy).parts, policy))
    decreases |actions|
  {
    if actions != [] {
      var front, last := actions[..|actions| - 1], actions[|actions| - 1];
      ForgetsNothingDropsNothing(front, policy);
      var s := Streamed(front, policy);
      if !last.Tick? {
        var out := Acted(s, last, policy).parts;
        ActionContinues(s, last, policy);
        ActionDropsNothing(s, last, policy);
        RenderedDrops(s.parts, out, policy);
        NothingDroppedSince(TickedParts(front, policy), Rendered(s.parts, policy), Rendered(out, policy));
      }
    }
  }

  /** In particular a turn in which no result forgets statistics is written as if at once. */
  lemma WriterRefinesOneShot(actions: seq<Action>, policy: Json -> Json)
    requires OneTurn(actions) && ForgetsNothing(actions, policy)
    ensures Final(actions, policy).stored == Pushed(Rendered(Streamed(actions, policy).parts, policy))
  {
    ForgetsNothingDropsNothing(actions, policy);
    WriterRefinesOneShotIff(actions, policy);
  }

  lemma FoldAllSnoc(events: seq<Event>, e: Event)
    ensures FoldAll(events + [e]) == Fold(FoldAll(events), e)
  {
    assert (events + [e])[..|events|] == events;
  }

  /** A call, a result with statistics, and the result again without. */
  function TwoResults(): seq<Event> {
    [ToolCall("t", []), ToolResult("t", false, Some([])), ToolResult("t", false, None)]
  }

  lemma TwoResultsFold()
    ensures FoldAll(TwoResults()[..2]) == [Tool("t", [], false, true, None, None, None, None, None, Some([]), None, None, None)]
    ensures FoldAll(TwoResults()) == Fold(FoldAll(TwoResults()[..2]), TwoResults()[2])
  {
    var turn := TwoResults();
    FoldAllSnoc([], turn[0]);
    FoldAllSnoc([turn[0]], turn[1]);
    FoldAllSnoc(turn[..2], turn[2]);
    assert turn[..2] == [turn[0]] + [turn[1]] && [] + [turn[0]] == [turn[0]] && turn[..2] + [turn[2]] == turn;
    assert FoldAll([turn[0]]) == [NewTool("t", [])];
  }

  /** The event left out above does break it: the stored statistics outlive the parts. */
  lemma ForgottenStatsStay()
    ensures var parts, after := FoldAll(TwoResults()[..2]), FoldAll(TwoResults());
            && Continuation(parts, after)
            && Synced(Pushed(parts), parts, after).Some?
            && Synced(Pushed(parts), parts, after).value != Pushed(after)
  {
    var parts, after := FoldAll(TwoResults()[..2]), FoldAll(TwoResults());
    TwoResultsFold();
    FoldEvolves(parts, TwoResults()[2]);
    EvolvesIsContinuation(parts, after);
    assert after[0].diffStats.None?;
    SyncIsExactIff(parts, after);
    assert !NothingDropped(ToDoc(parts[0]), ToDoc(after[0]));
  }

  // ── the writer object ─────────────────────────────────────────────────────

  class Writer {
    /** The parts list of the stored entry, and its status field. */
    var stored: seq<DocPart>
    var status: string
    /** What has been written so far. */
    var written: seq<Part>

    constructor Begin()
      ensures stored == [] && written == [] && status == "streaming"
    {
      stored, written, status := [], [], "streaming";
    }

    /** Reattaching to an entry with the mirror an earlier writer left. */
    constructor Resume(stored: seq<DocPart>, status: string, written: seq<Part>)
      ensures this.stored == stored && this.status == status && this.written == written
    {
      this.stored, this.status, this.written := stored, status, written;
    }

    method Sync(folded: seq<Part>) returns (ok: bool)
      modifies this`stored, this`written
      ensures ok <==> SyncTo(old(stored), old(written), folded, |folded|).Some?
      ensures ok ==> Some(stored) == SyncTo(old(stored), old(written), folded, |folded|)
      ensures ok ==> written == Mirror(old(written), folded)
    {
      ok := true;
      for i := 0 to |folded|
        invariant ok
        invariant Some(stored) == SyncTo(old(stored), old(written), folded, i)
        invariant |written| == Max(|old(written)|, i)
        invariant forall j :: 0 <= j < |written| ==> written[j] == if j < i then folded[j] else old(written)[j]
      {
        var part := folded[i];
        SyncNext(old(stored), old(written), folded, i);
        if i >= |written| {
          stored := stored + [ToDoc(part)];
          written := written + [part];
        } else if written[i] != part {
          ok := Rewrite(i, part);
          if !ok {
            SyncFails(old(stored), old(written), folded, i + 1);
            return;
          }
          written := written[i := part];
        }
      }
      assert written == Mirror(old(written), folded);
    }

    /** One part map in place; no such map, or no text to append to, is the schema error. */
    method Rewrite(i: nat, part: Part) returns (ok: bool)
      requires i < |written|
      modifies this`stored
      ensures ok <==> i < |old(stored)| && SyncPart(old(stored)[i], written[i], part).Some?
      ensures ok ==> stored == old(stored)[i := SyncPart(old(stored)[i], written[i], part).value]
    {
      if i >= |stored| {
        return false;
      }
      var synced := SyncPart(stored[i], written[i], part);
      if synced.None? {
        return false;
      }
      stored := stored[i := synced.value];
      ok := true;
    }

    method Finish(folded: seq<Part>, terminal: string) returns (ok: bool)
      modifies this
      ensures ok <==> SyncTo(old(stored), old(written), folded, |folded|).Some?
      ensures ok ==> Some(stored) == SyncTo(old(stored), old(written), folded, |folded|) && status == terminal
      ensures !ok ==> status == old(status)
    {
      ok := Sync(folded);
      if ok {
        status := terminal;
      }
    }
  }

  /** One more part looked at. */
  lemma SyncNext(stored: seq<DocPart>, written: seq<Part>, folded: seq<Part>, i: nat)
    requires i < |folded| && SyncTo(stored, written, folded, i).Some?
    ensures var before := SyncTo(stored, written, folded, i).value;
            SyncTo(stored, written, folded, i + 1)
            == if i >= |written| then Some(before + [ToDoc(folded[i])])
               else if written[i] == folded[i] then Some(before)
               else if i >= |before| || SyncPart(before[i], written[i], folded[i]).None? then None
               else Some(before[i := SyncPart(before[i], written[i], folded[i]).value])
  {
  }

  lemma {:induction false} SyncFails(stored: seq<DocPart>, written: seq<Part>, folded: seq<Part>, n: nat)
    requires n <= |folded| && SyncTo(stored, written, folded, n).None?
    ensures SyncTo(stored, written, folded, |folded|).None?
    decreases |folded| - n
  {
    if n < |folded| {
      SyncFails(stored, written, folded, n + 1);
    }
  }
}
