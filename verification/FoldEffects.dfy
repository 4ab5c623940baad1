/**
 What each event does to the parts of the live entry, and what a whole turn leaves of each tool and each
 input (`crates/doc/src/parts.rs`).
 */
module FoldEffects {
  import opened Prelude
  import opened MessageParts
  import Hlc

  // ── one event ─────────────────────────────────────────────────────────────

  /** A result resolves every tool of its id with its own verdict and statistics, and touches nothing else. */
  lemma ResultsResolve(parts: seq<Part>, id: string, failed: bool, stats: Option<Json>, i: nat)
    requires i < |parts|
    ensures var out := Fold(parts, ToolResult(id, failed, stats));
            && |out| == |parts|
            && (if parts[i].Tool? && parts[i].id == id then
                  out[i] == Tool(id, parts[i].call, failed, true, None, None, parts[i].outputRef, None, parts[i].diffRef, stats,
                                 parts[i].subagentRef, parts[i].subagentStatus, parts[i].subagentTail)
                else out[i] == parts[i])
  {
  }

  /** An answer resolves every input of its request. */
  lemma AnswersResolve(parts: seq<Part>, request: string, i: nat)
    requires i < |parts|
    ensures var out := Fold(parts, InputResolved(request));
            && |out| == |parts|
            && out[i] == if parts[i].Input? && parts[i].requestId == request
                         then Input(parts[i].id, request, parts[i].questions, true) else parts[i]
  {
  }

  ghost predicate ToolAt(parts: seq<Part>, i: nat, id: string) {
    i < |parts| && parts[i].Tool? && parts[i].id == id
  }

  /** A call is held by the one tool of its id: refreshed where it was, or new at the end with nothing known of it yet. */
  lemma CallsAreHeld(parts: seq<Part>, id: string, call: Json)
    requires UniqueIds(parts)
    ensures var out := Fold(parts, ToolCall(id, call));
            && (forall i: nat :: ToolAt(parts, i, id) ==>
                  && |out| == |parts| && (forall j :: 0 <= j < |parts| && j != i ==> out[j] == parts[j])
                  && out[i] == Tool(id, call, parts[i].isError, parts[i].resolved, parts[i].output, parts[i].diff, parts[i].outputRef,
                                    parts[i].outputBytes, parts[i].diffRef, parts[i].diffStats, parts[i].subagentRef,
                                    parts[i].subagentStatus, parts[i].subagentTail))
            && ((forall i: nat :: !ToolAt(parts, i, id)) ==>
                  out == parts + [Tool(id, call, false, false, None, None, None, None, None, None, None, None, None)])
  {
    var p := FindTool(parts, id, 0);
    assert p < |parts| ==> ToolAt(parts, p, id);
  }

  ghost predicate Named(parts: seq<Part>, id: string) {
    exists i :: 0 <= i < |parts| && parts[i].id == id
  }

  /** A request is shown once, unresolved, named after itself, however often the agent repeats it. */
  lemma RequestsAreShown(parts: seq<Part>, request: string, questions: Json)
    ensures var out := Fold(parts, InputRequested(request, questions));
            && Named(out, "in-" + request)
            && out == if Named(parts, "in-" + request) then parts
                      else parts + [Input("in-" + request, request, questions, false)]
  {
    var id := "in-" + request;
    var out := Fold(parts, InputRequested(request, questions));
    if !Named(parts, id) {
      assert out[|parts|].id == id;
    }
  }

  /** Text goes on at the end of a trailing text part, and starts a new one after anything else. */
  lemma TextTrails(parts: seq<Part>, delta: Bytes)
    ensures var out, n := Fold(parts, TextDelta(delta)), |parts|;
            if n > 0 && parts[n - 1].Text? then
              out == parts[..n - 1] + [Text(parts[n - 1].id, parts[n - 1].text + delta)]
            else out == parts + [Text("t" + Hlc.Decimal(n), delta)]
  {
    var n := |parts|;
    if n > 0 && parts[n - 1].Text? {
      assert parts[n - 1 := Text(parts[n - 1].id, parts[n - 1].text + delta)]
          == parts[..n - 1] + [Text(parts[n - 1].id, parts[n - 1].text + delta)];
    }
  }

  /** Errors of the agent and of the turn's end become visible parts, named after their place. */
  lemma ErrorsAreShown(parts: seq<Part>, e: Event)
    requires e.AgentError? || (e.Done? && e.failure.Some?)
    ensures Fold(parts, e) == parts + [Error(Numbered("e", |parts|), if e.AgentError? then e.reason else e.failure.value)]
  {
  }

  /** A turn starts empty, and what is not rendered changes nothing. */
  lemma TurnsStartEmpty(parts: seq<Part>)
    ensures Fold(parts, SessionStarted) == [] && Fold(parts, Steered) == []
    ensures Fold(parts, Done(None)) == parts && Fold(parts, Unrendered) == parts
  {
  }

  /**
   A subagent's end leaves its chip broken exactly if it errored and finished otherwise, a message to it
   leaves the chip running, and any other sign of life does unless the chip was settled. Nothing else changes.
   */
  lemma ChipsFollow(parts: seq<Part>, parent: string, inner: SubagentEvent, i: nat)
    requires i < |parts|
    ensures var out := Fold(parts, Subagent(parent, inner));
            && |out| == |parts|
            && (!(parts[i].Tool? && parts[i].id == parent) ==> out[i] == parts[i])
            && (parts[i].Tool? && parts[i].id == parent ==>
                  && out[i].Tool? && out[i].(subagentStatus := parts[i].subagentStatus) == parts[i]
                  && (inner.SubDone? ==> out[i].subagentStatus == Some(if inner.errored then Broken else Finished))
                  && (inner.SubUserMessage? ==> out[i].subagentStatus == Some(Running))
                  && (inner.SubOther? ==>
                        out[i].subagentStatus == if SettledChip(parts[i]) then parts[i].subagentStatus else Some(Running)))
  {
  }

  // ── a whole turn ──────────────────────────────────────────────────────────

  ghost predicate CallOf(events: seq<Event>, j: nat, id: string) {
    j < |events| && events[j].ToolCall? && events[j].tool == id
  }

  ghost predicate ResultOf(events: seq<Event>, k: nat, id: string) {
    k < |events| && events[k].ToolResult? && events[k].result == id
  }

  /** The last result for `id` is event `k`, and a call came before it. */
  ghost predicate LastResult(events: seq<Event>, k: nat, id: string) {
    && ResultOf(events, k, id) && (exists j: nat :: j < k && CallOf(events, j, id))
    && forall l: nat :: k < l ==> !ResultOf(events, l, id)
  }

  ghost predicate LastCall(events: seq<Event>, j: nat, id: string) {
    CallOf(events, j, id) && forall l: nat :: j < l ==> !CallOf(events, l, id)
  }

  ghost predicate Called(events: seq<Event>, id: string) {
    exists j: nat :: CallOf(events, j, id)
  }

  /** What a turn's events say of the tool `p`. */
  ghost predicate ToolTold(events: seq<Event>, p: Part)
    requires p.Tool?
  {
    && (exists j: nat :: LastCall(events, j, p.id) && p.call == events[j].newCall)
    && (p.resolved <==> exists k: nat :: LastResult(events, k, p.id))
    && (forall k: nat :: LastResult(events, k, p.id) ==> p.isError == events[k].failed && p.diffStats == events[k].stats)
    && (!p.resolved ==> !p.isError && p.diffStats.None?)
  }

  ghost predicate ToolsTold(events: seq<Event>, parts: seq<Part>) {
    && (forall i :: 0 <= i < |parts| && parts[i].Tool? ==> ToolTold(events, parts[i]))
    && forall id :: Called(events, id) ==> exists i: nat :: ToolAt(parts, i, id)
  }

  lemma Snoc(events: seq<Event>, e: Event, l: nat, id: string)
    ensures CallOf(events + [e], l, id) <==> CallOf(events, l, id) || (l == |events| && e.ToolCall? && e.tool == id)
    ensures ResultOf(events + [e], l, id) <==> ResultOf(events, l, id) || (l == |events| && e.ToolResult? && e.result == id)
  {
  }

  /** An event about something else tells nothing new of a tool. */
  lemma NothingNew(events: seq<Event>, e: Event, p: Part, q: Part)
    requires p.Tool? && q.Tool? && ToolTold(events, p)
    requires !(e.ToolCall? && e.tool == p.id) && !(e.ToolResult? && e.result == p.id)
    requires q.id == p.id && q.call == p.call && q.resolved == p.resolved && q.isError == p.isError && q.diffStats == p.diffStats
    ensures ToolTold(events + [e], q)
  {
    var more := events + [e];
    forall l: nat
      ensures CallOf(more, l, p.id) <==> CallOf(events, l, p.id)
      ensures ResultOf(more, l, p.id) <==> ResultOf(events, l, p.id)
    {
      Snoc(events, e, l, p.id);
    }
    forall k: nat
      ensures LastResult(more, k, p.id) <==> LastResult(events, k, p.id)
      ensures LastCall(more, k, p.id) <==> LastCall(events, k, p.id)
    {
    }
    var j: nat :| LastCall(events, j, p.id) && p.call == events[j].newCall;
    assert more[j] == events[j] && LastCall(more, j, p.id);
    forall k: nat | LastResult(more, k, p.id)
      ensures q.isError == more[k].failed && q.diffStats == more[k].stats
    {
      assert more[k] == events[k];
    }
  }

  /** The call again: new arguments, nothing else. */
  lemma CallTold(events: seq<Event>, e: Event, p: Part)
    requires p.Tool? && e.ToolCall? && e.tool == p.id && ToolTold(events, p)
    ensures ToolTold(events + [e], p.(call := e.newCall))
  {
    var more, q := events + [e], p.(call := e.newCall);
    forall l: nat
      ensures CallOf(more, l, p.id) <==> CallOf(events, l, p.id) || l == |events|
      ensures ResultOf(more, l, p.id) <==> ResultOf(events, l, p.id)
    {
      Snoc(events, e, l, p.id);
    }
    forall k: nat
      ensures LastResult(more, k, p.id) <==> LastResult(events, k, p.id)
    {
    }
    assert more[|events|] == e && LastCall(more, |events|, p.id);
    forall k: nat | LastResult(more, k, p.id)
      ensures q.isError == more[k].failed && q.diffStats == more[k].stats
    {
      assert more[k] == events[k];
    }
  }

  lemma NewCallTold(events: seq<Event>, e: Event)
    requires e.ToolCall? && !Called(events, e.tool)
    ensures ToolTold(events + [e], NewTool(e.tool, e.newCall))
  {
    var more := events + [e];
    forall l: nat
      ensures CallOf(more, l, e.tool) <==> l == |events|
      ensures ResultOf(more, l, e.tool) <==> ResultOf(events, l, e.tool)
    {
      Snoc(events, e, l, e.tool);
    }
    assert more[|events|] == e && LastCall(more, |events|, e.tool);
  }

  /** A result: the last one now. */
  lemma ResultTold(events: seq<Event>, e: Event, p: Part, q: Part)
    requires p.Tool? && q.Tool? && e.ToolResult? && e.result == p.id && ToolTold(events, p)
    requires q.id == p.id && q.call == p.call && q.resolved && q.isError == e.failed && q.diffStats == e.stats
    ensures ToolTold(events + [e], q)
  {
    var more := events + [e];
    forall l: nat
      ensures CallOf(more, l, p.id) <==> CallOf(events, l, p.id)
      ensures ResultOf(more, l, p.id) <==> ResultOf(events, l, p.id) || l == |events|
    {
      Snoc(events, e, l, p.id);
    }
    var j: nat :| LastCall(events, j, p.id) && p.call == events[j].newCall;
    assert more[j] == events[j] && LastCall(more, j, p.id) && CallOf(more, j, p.id);
    assert more[|events|] == e && LastResult(more, |events|, p.id);
    forall k: nat | LastResult(more, k, p.id)
      ensures k == |events|
    {
    }
  }

  lemma PartTold(events: seq<Event>, parts: seq<Part>, e: Event, i: nat)
    requires ToolsTold(events, parts) && UniqueIds(parts) && !Resets(e)
    requires i < |Fold(parts, e)| && Fold(parts, e)[i].Tool?
    ensures ToolTold(events + [e], Fold(parts, e)[i])
  {
    var out := Fold(parts, e);
    if i >= |parts| {
      CallsAreHeld(parts, e.tool, e.newCall);
      assert forall t: nat :: !ToolAt(parts, t, e.tool);
      assert !Called(events, e.tool);
      NewCallTold(events, e);
    } else {
      OldPartTold(events, parts, e, i);
    }
  }

  lemma OldPartTold(events: seq<Event>, parts: seq<Part>, e: Event, i: nat)
    requires ToolsTold(events, parts) && UniqueIds(parts) && !Resets(e)
    requires i < |parts| && Fold(parts, e)[i].Tool?
    ensures ToolTold(events + [e], Fold(parts, e)[i])
  {
    RefreshEvolves(parts[i], e);
    var p, q := parts[i], Fold(parts, e)[i];
    assert p.Tool? && ToolTold(events, p);
    if e.ToolCall? && e.tool == p.id {
      CallsAreHeld(parts, e.tool, e.newCall);
      assert ToolAt(parts, i, e.tool);
      CallTold(events, e, p);
    } else if e.ToolResult? && e.result == p.id {
      ResultsResolve(parts, e.result, e.failed, e.stats, i);
      ResultTold(events, e, p, q);
    } else {
      OthersLeave(parts, e, i);
      NothingNew(events, e, p, q);
    }
  }

  /** An event about something else leaves a tool's call and verdict alone. */
  lemma OthersLeave(parts: seq<Part>, e: Event, i: nat)
    requires i < |parts| && parts[i].Tool? && !Resets(e)
    requires !(e.ToolCall? && e.tool == parts[i].id) && !(e.ToolResult? && e.result == parts[i].id)
    ensures var p, q := parts[i], Fold(parts, e)[i];
            && q.Tool? && q.id == p.id && q.call == p.call && q.resolved == p.resolved
            && q.isError == p.isError && q.diffStats == p.diffStats
  {
  }

  lemma CalledIsThere(events: seq<Event>, parts: seq<Part>, e: Event, id: string)
    requires ToolsTold(events, parts) && UniqueIds(parts) && !Resets(e) && Called(events + [e], id)
    ensures exists i: nat :: ToolAt(Fold(parts, e), i, id)
  {
    var out := Fold(parts, e);
    if Called(events, id) {
      var i: nat :| ToolAt(parts, i, id);
      RefreshEvolves(parts[i], e);
      assert ToolAt(out, i, id);
    } else {
      var j: nat :| CallOf(events + [e], j, id);
      Snoc(events, e, j, id);
      var p := FindTool(parts, id, 0);
      assert ToolAt(out, p, id);
    }
  }

  /**
   What a turn leaves of its tools: there is one for each id called, with the arguments of the last call; it
   is resolved exactly if a result for it came after a call, and failed or not, with the statistics it has,
   as the last of those results says.
   */
  lemma {:induction false} TurnTellsItsTools(events: seq<Event>)
    requires forall k :: 0 <= k < |events| ==> !Resets(events[k])
    ensures ToolsTold(events, FoldAll(events))
    decreases |events|
  {
    if events != [] {
      var front, e := events[..|events| - 1], events[|events| - 1];
      TurnTellsItsTools(front);
      ToolAndInputIdsAreUnique(front);
      assert front + [e] == events;
      forall i | 0 <= i < |FoldAll(events)| && FoldAll(events)[i].Tool?
        ensures ToolTold(events, FoldAll(events)[i])
      {
        PartTold(front, FoldAll(front), e, i);
      }
      forall id | Called(events, id)
        ensures exists i: nat :: ToolAt(FoldAll(events), i, id)
      {
        assert Called(front + [e], id);
        CalledIsThere(front, FoldAll(front), e, id);
        var i: nat :| ToolAt(Fold(FoldAll(front), e), i, id);
        assert FoldAll(events) == Fold(FoldAll(front), e) && ToolAt(FoldAll(events), i, id);
      }
    }
  }

  // ── its inputs ────────────────────────────────────────────────────────────

  ghost predicate RequestOf(events: seq<Event>, j: nat, request: string) {
    j < |events| && events[j].InputRequested? && events[j].request == request
  }

  ghost predicate AnswerTo(events: seq<Event>, k: nat, request: string) {
    k < |events| && events[k].InputResolved? && events[k].answered == request
  }

  /** An answer that came after a request. */
  ghost predicate Answered(events: seq<Event>, request: string) {
    exists j: nat, k: nat :: j < k && RequestOf(events, j, request) && AnswerTo(events, k, request)
  }

  /** What a turn's events say of the input `p`: it asks what some request asked, and is resolved if it was answered. */
  ghost predicate InputTold(events: seq<Event>, p: Part)
    requires p.Input?
  {
    && p.id == "in-" + p.requestId
    && (exists j: nat :: RequestOf(events, j, p.requestId) && p.questions == events[j].asked)
    && (p.resolved <==> Answered(events, p.requestId))
  }

  ghost predicate InputsTold(events: seq<Event>, parts: seq<Part>) {
    && (forall i :: 0 <= i < |parts| && parts[i].Input? ==> InputTold(events, parts[i]))
    && forall j: nat :: j < |events| && events[j].InputRequested? ==> Named(parts, "in-" + events[j].request)
  }

  lemma SnocInput(events: seq<Event>, e: Event, l: nat, request: string)
    ensures RequestOf(events + [e], l, request) <==> RequestOf(events, l, request) || (l == |events| && e.InputRequested? && e.request == request)
    ensures AnswerTo(events + [e], l, request) <==> AnswerTo(events, l, request) || (l == |events| && e.InputResolved? && e.answered == request)
  {
  }

  lemma AnsweredSnoc(events: seq<Event>, e: Event, request: string)
    ensures Answered(events + [e], request)
        <==> Answered(events, request)
             || (e.InputResolved? && e.answered == request && exists j: nat :: RequestOf(events, j, request))
  {
    var more := events + [e];
    forall l: nat
      ensures RequestOf(more, l, request) <==> RequestOf(events, l, request) || (l == |events| && e.InputRequested? && e.request == request)
      ensures AnswerTo(more, l, request) <==> AnswerTo(events, l, request) || (l == |events| && e.InputResolved? && e.answered == request)
    {
      SnocInput(events, e, l, request);
    }
    if e.InputResolved? && e.answered == request && exists j: nat :: RequestOf(events, j, request) {
      var j: nat :| RequestOf(events, j, request);
      assert RequestOf(more, j, request) && AnswerTo(more, |events|, request);
    }
  }

  lemma OldInputTold(events: seq<Event>, parts: seq<Part>, e: Event, i: nat)
    requires InputsTold(events, parts) && !Resets(e) && i < |parts| && Fold(parts, e)[i].Input?
    ensures InputTold(events + [e], Fold(parts, e)[i])
  {
    RefreshEvolves(parts[i], e);
    var p, q := parts[i], Fold(parts, e)[i];
    assert p.Input? && InputTold(events, p);
    AnsweredSnoc(events, e, p.requestId);
    var j: nat :| RequestOf(events, j, p.requestId) && p.questions == events[j].asked;
    SnocInput(events, e, j, p.requestId);
    assert (events + [e])[j] == events[j];
    if e.InputResolved? {
      AnswersResolve(parts, e.answered, i);
    }
  }

  lemma NewInputTold(events: seq<Event>, parts: seq<Part>, e: Event)
    requires InputsTold(events, parts) && e.InputRequested? && !Named(parts, "in-" + e.request)
    ensures InputTold(events + [e], Input("in-" + e.request, e.request, e.asked, false))
  {
    var more := events + [e];
    AnsweredSnoc(events, e, e.request);
    SnocInput(events, e, |events|, e.request);
    assert more[|events|] == e && RequestOf(more, |events|, e.request);
    forall j: nat
      ensures !RequestOf(events, j, e.request)
    {
      assert j < |events| && events[j].InputRequested? ==> Named(parts, "in-" + events[j].request);
    }
  }

  lemma StillNamed(parts: seq<Part>, e: Event, id: string)
    requires Named(parts, id) && !Resets(e)
    ensures Named(Fold(parts, e), id)
  {
    var i :| 0 <= i < |parts| && parts[i].id == id;
    RefreshEvolves(parts[i], e);
    assert Fold(parts, e)[i].id == id;
  }

  lemma InputStep(events: seq<Event>, parts: seq<Part>, e: Event)
    requires InputsTold(events, parts) && !Resets(e)
    ensures InputsTold(events + [e], Fold(parts, e))
  {
    var more, out := events + [e], Fold(parts, e);
    forall i | 0 <= i < |out| && out[i].Input?
      ensures InputTold(more, out[i])
    {
      if i < |parts| {
        OldInputTold(events, parts, e, i);
      } else {
        RequestsAreShown(parts, e.request, e.asked);
        NewInputTold(events, parts, e);
      }
    }
    forall j: nat | j < |more| && more[j].InputRequested?
      ensures Named(out, "in-" + more[j].request)
    {
      if j < |events| {
        StillNamed(parts, e, "in-" + events[j].request);
      } else {
        RequestsAreShown(parts, e.request, e.asked);
      }
    }
  }

  /** What a turn leaves of its inputs: each asks what its request asked, and is resolved exactly if it was answered after that. */
  lemma {:induction false} TurnTellsItsInputs(events: seq<Event>)
    requires forall k :: 0 <= k < |events| ==> !Resets(events[k])
    ensures InputsTold(events, FoldAll(events))
    decreases |events|
  {
    if events != [] {
      var front, e := events[..|events| - 1], events[|events| - 1];
      TurnTellsItsInputs(front);
      InputStep(front, FoldAll(front), e);
      assert front + [e] == events;
    }
  }

  /** A turn start forgets everything before it. */
  lemma {:induction false} OnlyTheLastTurnCounts(before: seq<Event>, start: Event, turn: seq<Event>)
    requires Resets(start)
    ensures FoldAll(before + [start] + turn) == FoldAll(turn)
    decreases |turn|
  {
    var all := before + [start] + turn;
    if turn == [] {
      assert all[..|all| - 1] == before && all[|all| - 1] == start;
    } else {
      OnlyTheLastTurnCounts(before, start, turn[..|turn| - 1]);
      assert all[..|all| - 1] == before + [start] + turn[..|turn| - 1];
    }
  }
}
