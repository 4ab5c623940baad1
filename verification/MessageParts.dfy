/**
 Message parts: folding agent events into the parts of the live entry, and splitting a long list of
 parts into entries (`crates/doc/src/parts.rs`).
 */
module MessageParts {
  import opened Prelude
  import Hlc

  type Bytes = seq<byte>

  /** A JSON value by its serialized form. */
  type Json = Bytes

  datatype SubagentStatus = Running | Finished | Broken

  datatype Part =
    | Text(id: string, text: Bytes)
    | Tool(
        id: string,
        call: Json,
        isError: bool,
        resolved: bool,
        output: Option<Bytes>,
        diff: Option<Json>,
        outputRef: Option<string>,
        outputBytes: Option<nat>,
        diffRef: Option<string>,
        diffStats: Option<Json>,
        subagentRef: Option<string>,
        subagentStatus: Option<SubagentStatus>,
        subagentTail: Option<Bytes>)
    | Input(id: string, requestId: string, questions: Json, resolved: bool)
    | Error(id: string, message: Bytes)

  // ── the fold ──────────────────────────────────────────────────────────────

  datatype SubagentEvent = SubDone(errored: bool) | SubUserMessage | SubOther

  /** `stats` is what `diff_stat` makes of the result's diff, if there is one. */
  datatype Event =
    | SessionStarted
    | Steered
    | TextDelta(delta: Bytes)
    | ToolCall(tool: string, newCall: Json)
    | ToolResult(result: string, failed: bool, stats: Option<Json>)
    | InputRequested(request: string, asked: Json)
    | InputResolved(answered: string)
    | AgentError(reason: Bytes)
    | Done(failure: Option<Bytes>)
    | Subagent(parent: string, inner: SubagentEvent)
    | Unrendered

  function Numbered(prefix: string, n: nat): string {
    prefix + Hlc.Decimal(n)
  }

  function NewTool(id: string, call: Json): Part {
    Tool(id, call, false, false, None, None, None, None, None, None, None, None, None)
  }

  /** The first tool part named `id`, or the length when there is none. */
  function FindTool(parts: seq<Part>, id: string, i: nat): (p: nat)
    requires i <= |parts|
    ensures i <= p <= |parts|
    ensures p < |parts| ==> parts[p].Tool? && parts[p].id == id
    ensures forall j :: i <= j < p ==> !(parts[j].Tool? && parts[j].id == id)
    decreases |parts| - i
  {
    if i == |parts| || (parts[i].Tool? && parts[i].id == id) then i else FindTool(parts, id, i + 1)
  }

  function HasId(parts: seq<Part>, id: string): bool {
    exists i :: 0 <= i < |parts| && parts[i].id == id
  }

  /** Outputs and inline diffs never enter the document; a result keeps the statistics of its own diff only. */
  function Resolve(p: Part, e: Event): Part
    requires e.ToolResult?
  {
    if p.Tool? && p.id == e.result then
      p.(isError := e.failed, resolved := true, output := None, outputBytes := None, diff := None, diffStats := e.stats)
    else p
  }

  function Answer(p: Part, request: string): Part {
    if p.Input? && p.requestId == request then p.(resolved := true) else p
  }

  /** A subagent's end settles its chip, a new message revives it, and anything else never regresses it. */
  function Lifecycle(p: Part, e: Event): Part
    requires e.Subagent?
  {
    if !(p.Tool? && p.id == e.parent) then p
    else if e.inner.SubDone? then p.(subagentStatus := Some(if e.inner.errored then Broken else Finished))
    else if e.inner.SubUserMessage? then p.(subagentStatus := Some(Running))
    else if p.subagentStatus == Some(Finished) || p.subagentStatus == Some(Broken) then p
    else p.(subagentStatus := Some(Running))
  }

  /** The in-place half of an event: what it does to each part already there. */
  function Refresh(p: Part, e: Event): Part {
    match e
    case ToolResult(_, _, _) => Resolve(p, e)
    case InputResolved(request) => Answer(p, request)
    case Subagent(_, _) => Lifecycle(p, e)
    case _ => p
  }

  function RefreshAll(parts: seq<Part>, e: Event): (out: seq<Part>)
    ensures |out| == |parts|
    ensures forall i :: 0 <= i < |out| ==> out[i] == Refresh(parts[i], e)
  {
    seq(|parts|, i requires 0 <= i < |parts| => Refresh(parts[i], e))
  }

  function Fold(parts: seq<Part>, e: Event): seq<Part> {
    match e
    case SessionStarted => []
    case Steered => []
    case TextDelta(delta) =>
      var n := |parts|;
      if n > 0 && parts[n - 1].Text? then parts[n - 1 := Text(parts[n - 1].id, parts[n - 1].text + delta)]
      else parts + [Text(Numbered("t", n), delta)]
    case ToolCall(id, call) =>
      var p := FindTool(parts, id, 0);
      if p < |parts| then parts[p := parts[p].(call := call)] else parts + [NewTool(id, call)]
    case InputRequested(request, questions) =>
      if HasId(parts, "in-" + request) then parts else parts + [Input("in-" + request, request, questions, false)]
    case AgentError(reason) => parts + [Error(Numbered("e", |parts|), reason)]
    case Done(failure) => if failure.Some? then parts + [Error(Numbered("e", |parts|), failure.value)] else parts
    case Unrendered => parts
    case _ => RefreshAll(parts, e)
  }

  /** The accumulator the engine folds into as events stream by. */
  class Accumulator {
    var parts: seq<Part>

    constructor ()
      ensures parts == []
    {
      parts := [];
    }

    method FoldEvent(e: Event)
      modifies this
      ensures parts == Fold(old(parts), e)
    {
      match e {
        case SessionStarted => parts := [];
        case Steered => parts := [];
        case TextDelta(delta) =>
          if |parts| > 0 && parts[|parts| - 1].Text? {
            var tail := parts[|parts| - 1];
            parts := parts[|parts| - 1 := tail.(text := tail.text + delta)];
          } else {
            parts := parts + [Text(Numbered("t", |parts|), delta)];
          }
        case ToolCall(id, call) =>
          var p := FindTool(parts, id, 0);
          if p < |parts| {
            parts := parts[p := parts[p].(call := call)];
          } else {
            parts := parts + [NewTool(id, call)];
          }
        case InputRequested(request, questions) =>
          if !HasId(parts, "in-" + request) {
            parts := parts + [Input("in-" + request, request, questions, false)];
          }
        case AgentError(reason) => parts := parts + [Error(Numbered("e", |parts|), reason)];
        case Done(failure) =>
          if failure.Some? {
            parts := parts + [Error(Numbered("e", |parts|), failure.value)];
          }
        case Unrendered =>
        case _ =>
          for i := 0 to |parts|
            invariant |parts| == |old(parts)|
            invariant forall j :: 0 <= j < i ==> parts[j] == Refresh(old(parts)[j], e)
            invariant forall j :: i <= j < |parts| ==> parts[j] == old(parts)[j]
          {
            parts := parts[i := Refresh(parts[i], e)];
          }
      }
    }
  }

  // ── the fold only appends ─────────────────────────────────────────────────

  predicate Resets(e: Event) {
    e.SessionStarted? || e.Steered?
  }

  predicate IsPrefix(a: Bytes, b: Bytes) {
    |a| <= |b| && b[..|a|] == a
  }

  /** What may become of one part as events go by. */
  predicate PartEvolves(a: Part, b: Part) {
    match a
    case Text(id, text) => b.Text? && b.id == id && IsPrefix(text, b.text)
    case Tool(id, _, _, resolved, _, _, outputRef, _, diffRef, _, subagentRef, status, tail) =>
      && b.Tool? && b.id == id && (resolved ==> b.resolved) && (status.Some? ==> b.subagentStatus.Some?)
      && (a.output.None? ==> b.output.None?) && (a.outputBytes.None? ==> b.outputBytes.None?) && (a.diff.None? ==> b.diff.None?)
      && b.outputRef == outputRef && b.diffRef == diffRef && b.subagentRef == subagentRef && b.subagentTail == tail
    case Input(id, request, questions, resolved) =>
      b.Input? && b.id == id && b.requestId == request && b.questions == questions && (resolved ==> b.resolved)
    case Error(_, _) => b == a
  }

  /** Parts are only ever added at the end, and only the trailing text grows. */
  ghost predicate Evolves(a: seq<Part>, b: seq<Part>) {
    && |a| <= |b|
    && (forall i :: 0 <= i < |a| ==> PartEvolves(a[i], b[i]))
    && (forall i :: 0 <= i < |a| - 1 && a[i].Text? ==> b[i] == a[i])
  }

  lemma RefreshEvolves(p: Part, e: Event)
    ensures PartEvolves(p, Refresh(p, e))
    ensures p.Text? ==> Refresh(p, e) == p
  {
  }

  lemma SelfEvolves(p: Part)
    ensures PartEvolves(p, p)
  {
  }

  /** Every event that does not start a new turn leaves what is there in place. */
  lemma FoldEvolves(parts: seq<Part>, e: Event)
    requires !Resets(e)
    ensures Evolves(parts, Fold(parts, e))
  {
    forall i | 0 <= i < |parts|
      ensures PartEvolves(parts[i], Fold(parts, e)[i])
      ensures i < |parts| - 1 && parts[i].Text? ==> Fold(parts, e)[i] == parts[i]
    {
      RefreshEvolves(parts[i], e);
      SelfEvolves(parts[i]);
      if e.TextDelta? && i == |parts| - 1 && parts[i].Text? {
        assert (parts[i].text + e.delta)[..|parts[i].text|] == parts[i].text;
      }
    }
  }

  lemma EvolvesOn(a: seq<Part>, b: seq<Part>, c: seq<Part>)
    requires Evolves(a, b) && Evolves(b, c)
    ensures Evolves(a, c)
  {
  }

  // ── ids of text parts ─────────────────────────────────────────────────────

  /** A text part is named after the place it was added at; a failure mark means the result has arrived. */
  ghost predicate Folded(parts: seq<Part>) {
    forall i :: 0 <= i < |parts| ==>
      && (parts[i].Text? ==> parts[i].id == Numbered("t", i))
      && (parts[i].Tool? ==> (parts[i].isError ==> parts[i].resolved) && parts[i].output.None? && parts[i].diff.None? && parts[i].outputBytes.None?)
      && (parts[i].Input? ==> parts[i].id == "in-" + parts[i].requestId)
  }

  lemma FoldKeepsShape(parts: seq<Part>, e: Event)
    requires Folded(parts)
    ensures Folded(Fold(parts, e))
  {
  }

  function FoldAll(events: seq<Event>): seq<Part>
    decreases |events|
  {
    if events == [] then [] else Fold(FoldAll(events[..|events| - 1]), events[|events| - 1])
  }

  lemma {:induction false} FoldAllIsFolded(events: seq<Event>)
    ensures Folded(FoldAll(events))
    decreases |events|
  {
    if events != [] {
      FoldAllIsFolded(events[..|events| - 1]);
      FoldKeepsShape(FoldAll(events[..|events| - 1]), events[|events| - 1]);
    }
  }

  lemma NumbersDiffer(prefix: string, a: nat, b: nat)
    requires Numbered(prefix, a) == Numbered(prefix, b)
    ensures a == b
  {
    assert Numbered(prefix, a)[|prefix|..] == Hlc.Decimal(a);
    assert Numbered(prefix, b)[|prefix|..] == Hlc.Decimal(b);
    Hlc.ValueOfDecimal(a);
    Hlc.ValueOfDecimal(b);
  }

  /** No two text parts of a folded entry share an id, whatever the agent sends. */
  lemma TextIdsAreDistinct(events: seq<Event>, i: nat, j: nat)
    requires i < j < |FoldAll(events)| && FoldAll(events)[i].Text? && FoldAll(events)[j].Text?
    ensures FoldAll(events)[i].id != FoldAll(events)[j].id
  {
    FoldAllIsFolded(events);
    if FoldAll(events)[i].id == FoldAll(events)[j].id {
      NumbersDiffer("t", i, j);
    }
  }

  // ── what the fold conserves ───────────────────────────────────────────────

  /** The text of a list of parts, in order. */
  function Texts(parts: seq<Part>): Bytes {
    if parts == [] then [] else (if parts[0].Text? then parts[0].text else []) + Texts(parts[1..])
  }

  lemma {:induction false} TextsConcat(a: seq<Part>, b: seq<Part>)
    ensures Texts(a + b) == Texts(a) + Texts(b)
  {
    if a == [] {
      assert a + b == b;
    } else {
      assert (a + b)[0] == a[0] && (a + b)[1..] == a[1..] + b;
      TextsConcat(a[1..], b);
      Regroup(if a[0].Text? then a[0].text else [], Texts(a[1..]), Texts(b));
    }
  }

  lemma TextsOne(p: Part)
    ensures Texts([p]) == if p.Text? then p.text else []
  {
  }

  /** Only the kind and text of the parts matter to their text. */
  lemma {:induction false} SameTexts(a: seq<Part>, b: seq<Part>)
    requires |a| == |b| && forall i :: 0 <= i < |a| ==> a[i].Text? == b[i].Text? && (a[i].Text? ==> a[i].text == b[i].text)
    ensures Texts(a) == Texts(b)
  {
    if a != [] {
      SameTexts(a[1..], b[1..]);
    }
  }

  function TextOf(e: Event): Bytes {
    if e.TextDelta? then e.delta else []
  }

  lemma AppendedTexts(parts: seq<Part>, p: Part)
    ensures Texts(parts + [p]) == Texts(parts) + if p.Text? then p.text else []
  {
    TextsConcat(parts, [p]);
    TextsOne(p);
  }

  lemma TailGrowsTexts(parts: seq<Part>, delta: Bytes)
    requires parts != [] && parts[|parts| - 1].Text?
    ensures var n := |parts|;
            Texts(parts[n - 1 := Text(parts[n - 1].id, parts[n - 1].text + delta)]) == Texts(parts) + delta
  {
    var n := |parts|;
    var front, last := parts[..n - 1], parts[n - 1];
    assert parts == front + [last];
    assert parts[n - 1 := Text(last.id, last.text + delta)] == front + [Text(last.id, last.text + delta)];
    AppendedTexts(front, last);
    AppendedTexts(front, Text(last.id, last.text + delta));
    Regroup(Texts(front), last.text, delta);
  }

  /** Every event of a turn adds its own text at the end and disturbs none. */
  lemma FoldConservesText(parts: seq<Part>, e: Event)
    requires !Resets(e)
    ensures Texts(Fold(parts, e)) == Texts(parts) + TextOf(e)
  {
    var out := Fold(parts, e);
    if e.TextDelta? && parts != [] && parts[|parts| - 1].Text? {
      TailGrowsTexts(parts, e.delta);
    } else if |out| > |parts| {
      assert out == parts + [out[|parts|]];
      AppendedTexts(parts, out[|parts|]);
    } else {
      SameTexts(parts, out);
      assert Texts(parts) + [] == Texts(parts);
    }
  }

  function Deltas(events: seq<Event>): Bytes
    decreases |events|
  {
    if events == [] then [] else Deltas(events[..|events| - 1]) + TextOf(events[|events| - 1])
  }

  /** Streaming conserves text: within one turn the parts hold every delta once, in the order it came. */
  lemma {:induction false} TextIsConserved(events: seq<Event>)
    requires forall i :: 0 <= i < |events| ==> !Resets(events[i])
    ensures Texts(FoldAll(events)) == Deltas(events)
    decreases |events|
  {
    if events != [] {
      TextIsConserved(events[..|events| - 1]);
      FoldConservesText(FoldAll(events[..|events| - 1]), events[|events| - 1]);
    }
  }

  /** No two tool parts and no two inputs share an id. */
  ghost predicate UniqueIds(parts: seq<Part>) {
    forall i, j :: 0 <= i < j < |parts| ==>
      && (parts[i].Tool? && parts[j].Tool? ==> parts[i].id != parts[j].id)
      && (parts[i].Input? && parts[j].Input? ==> parts[i].id != parts[j].id)
  }

  lemma FoldKeepsUnique(parts: seq<Part>, e: Event)
    requires UniqueIds(parts)
    ensures UniqueIds(Fold(parts, e))
  {
    var out := Fold(parts, e);
    forall i | 0 <= i < |parts| && !Resets(e)
      ensures out[i].id == parts[i].id && out[i].Tool? == parts[i].Tool? && out[i].Input? == parts[i].Input?
    {
      RefreshEvolves(parts[i], e);
    }
  }

  /** Retried calls and requests refresh the part they named before instead of adding another. */
  lemma {:induction false} ToolAndInputIdsAreUnique(events: seq<Event>)
    ensures UniqueIds(FoldAll(events))
    decreases |events|
  {
    if events != [] {
      ToolAndInputIdsAreUnique(events[..|events| - 1]);
      FoldKeepsUnique(FoldAll(events[..|events| - 1]), events[|events| - 1]);
    }
  }

  /** An event the agent repeats at once changes nothing the second time, unless it carries text or an error. */
  lemma RepeatedEventIsIdempotent(parts: seq<Part>, e: Event)
    requires !e.TextDelta? && !e.AgentError? && !(e.Done? && e.failure.Some?)
    ensures Fold(Fold(parts, e), e) == Fold(parts, e)
  {
    var once := Fold(parts, e);
    match e
    case ToolCall(id, call) =>
      var p := FindTool(parts, id, 0);
      FoundAgain(parts, once, id, p);
    case InputRequested(request, questions) =>
      if !HasId(parts, "in-" + request) {
        assert once[|parts|].id == "in-" + request;
      }
    case ToolResult(_, _, _) => assert Fold(once, e) == once;
    case InputResolved(_) => assert Fold(once, e) == once;
    case Subagent(_, _) => assert Fold(once, e) == once;
    case _ =>
  }

  lemma FoundAgain(parts: seq<Part>, once: seq<Part>, id: string, p: nat)
    requires p == FindTool(parts, id, 0) && p < |once| && once[p].Tool? && once[p].id == id
    requires forall j :: 0 <= j < p ==> once[j] == parts[j]
    ensures FindTool(once, id, 0) == p
    ensures once[p := once[p].(call := once[p].call)] == once
  {
  }

  predicate SettledChip(p: Part) {
    p.Tool? && (p.subagentStatus == Some(Finished) || p.subagentStatus == Some(Broken))
  }

  /** One event leaves a settled chip settled unless it is a new message to its subagent. */
  lemma ChipStaysSettled(parts: seq<Part>, e: Event, i: nat)
    requires i < |parts| && SettledChip(parts[i]) && !Resets(e)
    requires !(e.Subagent? && e.parent == parts[i].id && e.inner.SubUserMessage?)
    ensures i < |Fold(parts, e)| && SettledChip(Fold(parts, e)[i]) && Fold(parts, e)[i].id == parts[i].id
  {
    RefreshEvolves(parts[i], e);
  }

  /** Through the rest of a turn a settled subagent chip stays settled, unless a new message revives the subagent. */
  lemma {:induction false} SettledChipsLast(parts: seq<Part>, events: seq<Event>, i: nat)
    requires i < |parts| && SettledChip(parts[i])
    requires forall k :: 0 <= k < |events| ==>
               !Resets(events[k]) && !(events[k].Subagent? && events[k].parent == parts[i].id && events[k].inner.SubUserMessage?)
    ensures i < |FoldFrom(parts, events)| && SettledChip(FoldFrom(parts, events)[i])
    decreases |events|
  {
    if events != [] {
      ChipStaysSettled(parts, events[0], i);
      SettledChipsLast(Fold(parts, events[0]), events[1..], i);
    }
  }

  /** A result marks its tool resolved and nothing in the turn ever unmarks it. */
  lemma {:induction false} ResolutionsLast(parts: seq<Part>, events: seq<Event>, i: nat)
    requires i < |parts| && (parts[i].Tool? || parts[i].Input?) && parts[i].resolved
    requires forall k :: 0 <= k < |events| ==> !Resets(events[k])
    ensures var out := FoldFrom(parts, events);
            i < |out| && (out[i].Tool? || out[i].Input?) && out[i].resolved && out[i].id == parts[i].id
    decreases |events|
  {
    if events != [] {
      FoldEvolves(parts, events[0]);
      ResolutionsLast(Fold(parts, events[0]), events[1..], i);
    }
  }

  function FoldFrom(parts: seq<Part>, events: seq<Event>): seq<Part>
    decreases |events|
  {
    if events == [] then parts else FoldFrom(Fold(parts, events[0]), events[1..])
  }

  /** The fold only ever appends: through a whole turn earlier parts stay in place and earlier text never changes. */
  lemma {:induction false} TurnEvolves(parts: seq<Part>, events: seq<Event>)
    requires forall k :: 0 <= k < |events| ==> !Resets(events[k])
    ensures Evolves(parts, FoldFrom(parts, events))
    decreases |events|
  {
    if events == [] {
      forall i | 0 <= i < |parts|
        ensures PartEvolves(parts[i], parts[i])
      {
        SelfEvolves(parts[i]);
      }
    } else {
      FoldEvolves(parts, events[0]);
      TurnEvolves(Fold(parts, events[0]), events[1..]);
      EvolvesOn(parts, Fold(parts, events[0]), FoldFrom(parts, events));
    }
  }
}
