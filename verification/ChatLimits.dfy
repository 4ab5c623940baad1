/**
 Runs that mark where the guarantees of the chat relay end: a checkpoint that prunes between a client's
 state frame and its rows request, a checkpoint captured before a fetched one is imported and committed
 at the floor, and a checkpoint captured while a row is landing.
 */
module ChatLimits {
  import opened Prelude
  import opened ChatLog
  import opened ChatSync
  import opened ChatLaws

  const DEVICES: set<string> := {"a", "b"}

  function Pair(a: Client, b: Client): map<string, Client> {
    map["a" := a, "b" := b]
  }

  lemma PairUpdated(a: Client, b: Client, k: Client)
    ensures Pair(a, b)["a" := k] == Pair(k, b) && Pair(a, b)["b" := k] == Pair(a, k)
  {
  }

  const U: Update := Update({1}, 1)
  const ROW: LogRow := LogRow(1, "a", "x", U)
  const UPLOADED: Log := Log([ROW], 1, 0, None)
  const PRUNED: Log := Log([], 1, 1, Some(Checkpoint(1, U, Some({1}))))
  const POST: Post := Post(1, Some({1}), U, None)

  function W(log: Log, a: Client, b: Client, posts: set<Post>): World {
    World(log, Pair(a, b), posts, if log.head == 0 then [] else [ROW], map["x" := ("a", U)])
  }

  lemma Next(w: World, step: Step, n: World)
    requires Reachable(DEVICES, w) && StrictStep(w, step) && Do(w, step) == n
    ensures Reachable(DEVICES, n)
  {
    ReachStep(DEVICES, w, step);
  }

  // ── device `a` writes, pushes and is acknowledged ─────────────────────────

  function A1(): Client { NewClient().(doc := {1}, pending := [Pending("x", U)]) }
  function A2(): Client { A1().(phase := Greeting, up := [Hello]) }
  function A3(): Client { A1().(phase := Greeting, down := [State(Head(0, 0, false, None))]) }
  function A4(): Client { A1().(amnestied := true, phase := Backfill, up := [RowsReq(0, false), PushUp("x", U)]) }
  function A5(): Client { A4().(up := [PushUp("x", U)], down := [RowsDone(0, 0, Some({}))]) }
  function A6(): Client { A4().(up := [], down := [RowsDone(0, 0, Some({})), Ack("x", 1)]) }
  function A7(): Client { A4().(up := [], down := [Ack("x", 1)], resumed := true, phase := Steady, whole := true) }
  function A8(): Client { A7().(down := [], pending := [], cursor := 1, saved := ({1}, 1)) }

  lemma Wrote()
    ensures Reachable(DEVICES, W(EMPTY_LOG, A1(), NewClient(), {}))
  {
    var w0 := World(EMPTY_LOG, Pair(NewClient(), NewClient()), {}, [], map[]);
    ReachStart(DEVICES);
    assert Start(DEVICES).clients == Pair(NewClient(), NewClient());
    PairUpdated(NewClient(), NewClient(), A1());
    assert w0.issued["x" := ("a", U)] == map["x" := ("a", U)];
    assert NewClient().doc + U.ops == {1};
    assert NewClient().pending + [Pending("x", U)] == [Pending("x", U)];
    assert Do(w0, Write("a", "x", U)) == W(EMPTY_LOG, A1(), NewClient(), {});
    Next(w0, Write("a", "x", U), W(EMPTY_LOG, A1(), NewClient(), {}));
  }

  lemma Greeted()
    ensures Reachable(DEVICES, W(EMPTY_LOG, A3(), NewClient(), {}))
  {
    Wrote();
    PairUpdated(A1(), NewClient(), A2());
    Next(W(EMPTY_LOG, A1(), NewClient(), {}), Dial("a"), W(EMPTY_LOG, A2(), NewClient(), {}));
    PairUpdated(A2(), NewClient(), A3());
    assert A2().up[1..] == [] && A2().down + [State(Head(0, 0, false, None))] == A3().down;
    Next(W(EMPTY_LOG, A2(), NewClient(), {}), Serve("a"), W(EMPTY_LOG, A3(), NewClient(), {}));
  }

  lemma Planned()
    ensures Reachable(DEVICES, W(EMPTY_LOG, A4(), NewClient(), {}))
  {
    Greeted();
    PairUpdated(A3(), NewClient(), A4());
    assert A3().down[1..] == [];
    assert Pushes(A1().pending) == [PushUp("x", U)];
    assert [] + [RowsReq(0, false)] + [PushUp("x", U)] == A4().up;
    assert Receive(A3()) == A4();
    Next(W(EMPTY_LOG, A3(), NewClient(), {}), Deliver("a"), W(EMPTY_LOG, A4(), NewClient(), {}));
  }

  lemma Answered()
    ensures Reachable(DEVICES, W(EMPTY_LOG, A5(), NewClient(), {}))
  {
    Planned();
    var w := W(EMPTY_LOG, A4(), NewClient(), {});
    PairUpdated(A4(), NewClient(), A5());
    assert A4().up[1..] == A5().up;
    assert OpsFrom([], 0) == {};
    assert RowsReply(w, "a", 0, false) == A5().down;
    assert A4().down + A5().down == A5().down;
    Next(w, Serve("a"), W(EMPTY_LOG, A5(), NewClient(), {}));
  }

  lemma Pushed()
    ensures Reachable(DEVICES, W(UPLOADED, A6(), NewClient(), {}))
  {
    Answered();
    var w := W(EMPTY_LOG, A5(), NewClient(), {});
    PairUpdated(A5(), NewClient(), A6());
    assert A5().up[1..] == [] && A5().down + [Ack("x", 1)] == A6().down;
    assert Append(EMPTY_LOG, "a", "x", U) == AppendResult(UPLOADED, Appended(1, false)) by {
      assert EMPTY_LOG.rows + [ROW] == [ROW];
    }
    assert AcceptedAfter(EMPTY_LOG, [], "a", "x", U) == [ROW] by {
      assert [] + [ROW] == [ROW];
    }
    assert Relay(Pair(A5(), NewClient()), "a", [RowDown(ROW)]) == Pair(A5(), NewClient());
    Next(w, Serve("a"), W(UPLOADED, A6(), NewClient(), {}));
  }

  lemma Acknowledged()
    ensures Reachable(DEVICES, W(UPLOADED, A8(), NewClient(), {}))
  {
    Pushed();
    PairUpdated(A6(), NewClient(), A7());
    assert A6().down[1..] == A7().down;
    assert Receive(A6()) == A7();
    Next(W(UPLOADED, A6(), NewClient(), {}), Deliver("a"), W(UPLOADED, A7(), NewClient(), {}));
    PairUpdated(A7(), NewClient(), A8());
    assert A7().down[1..] == [];
    assert DropBatch([Pending("x", U)], "x") == [] by {
      assert [Pending("x", U)][1..] == [];
    }
    assert Receive(A7()) == A8();
    Next(W(UPLOADED, A7(), NewClient(), {}), Deliver("a"), W(UPLOADED, A8(), NewClient(), {}));
  }

  // ── pruned between state and rows request ─────────────────────────────────

  function B1(): Client { NewClient().(phase := Greeting, up := [Hello]) }
  function B2(): Client { NewClient().(phase := Greeting, down := [State(Head(1, 0, false, None))]) }
  function B3(): Client { NewClient().(amnestied := true, phase := Backfill, up := [RowsReq(0, false)], since := 1) }
  function B4(): Client { B3().(up := [], down := [RowsDone(1, 0, None)]) }
  function B5(): Client { B3().(up := [], resumed := true, phase := Steady) }

  lemma ReaderGreeted()
    ensures Reachable(DEVICES, W(UPLOADED, A8(), B2(), {}))
  {
    Acknowledged();
    PairUpdated(A8(), NewClient(), B1());
    Next(W(UPLOADED, A8(), NewClient(), {}), Dial("b"), W(UPLOADED, A8(), B1(), {}));
    PairUpdated(A8(), B1(), B2());
    assert B1().up[1..] == [] && B1().down + B2().down == B2().down;
    Next(W(UPLOADED, A8(), B1(), {}), Serve("b"), W(UPLOADED, A8(), B2(), {}));
  }

  lemma ReaderPlanned()
    ensures Reachable(DEVICES, W(UPLOADED, A8(), B3(), {}))
  {
    ReaderGreeted();
    PairUpdated(A8(), B2(), B3());
    assert B2().down[1..] == [] && Pushes([]) == [];
    assert [] + [RowsReq(0, false)] + [] == B3().up;
    assert Receive(B2()) == B3();
    Next(W(UPLOADED, A8(), B2(), {}), Deliver("b"), W(UPLOADED, A8(), B3(), {}));
  }

  lemma CommitsFirst()
    ensures Commit(UPLOADED, 1, Some({1}), U) == CommitResult(PRUNED, Committed(1, 1))
  {
    assert [ROW][1..] == [];
    assert RowsAfter([ROW], 1, "") == [];
  }

  /** A whole capture, with nothing in between. */
  ghost function Captured(w: World, c: string): World
    requires c in w.clients
  {
    var k := w.clients[c];
    var note := Noted(k.cursor, k.landing);
    Do(Do(Do(w, Note(c)), Export(c, note, 1)), Capture(c, Draft(note, Update(k.doc, 1))))
  }

  /** The client after it, and what is posted. */
  function Drafted(k: Client): Client {
    var note := Noted(k.cursor, k.landing);
    k.(notes := k.notes + {note}, drafts := k.drafts + {Draft(note, Update(k.doc, 1))})
  }

  function Posted(k: Client): Post {
    Post(k.cursor, Some(k.doc), Update(k.doc, 1), k.landing)
  }

  lemma NoteReached(w: World, c: string)
    requires Reachable(DEVICES, w) && c in w.clients
    ensures var k := w.clients[c];
            var n := w.(clients := w.clients[c := k.(notes := k.notes + {Noted(k.cursor, k.landing)})]);
            Do(w, Note(c)) == n && Reachable(DEVICES, n)
  {
    ReachStep(DEVICES, w, Note(c));
  }

  lemma ExportReached(w: World, c: string, note: Noted)
    requires Reachable(DEVICES, w) && c in w.clients && note in w.clients[c].notes
    ensures var k := w.clients[c];
            var n := w.(clients := w.clients[c := k.(drafts := k.drafts + {Draft(note, Update(k.doc, 1))})]);
            Do(w, Export(c, note, 1)) == n && Reachable(DEVICES, n)
  {
    ReachStep(DEVICES, w, Export(c, note, 1));
  }

  lemma PostReached(w: World, c: string, draft: Draft)
    requires Reachable(DEVICES, w) && c in w.clients && draft in w.clients[c].drafts
    ensures var n := w.(posts := w.posts + {Post(draft.note.cursor, Some(w.clients[c].doc), draft.blob, draft.note.landing)});
            Do(w, Capture(c, draft)) == n && Reachable(DEVICES, n)
  {
    ReachStep(DEVICES, w, Capture(c, draft));
  }

  lemma Composes(w: World, c: string, w1: World, w2: World, n: World)
    requires c in w.clients && Do(w, Note(c)) == w1
    requires Do(w1, Export(c, Noted(w.clients[c].cursor, w.clients[c].landing), 1)) == w2
    requires Do(w2, Capture(c, Draft(Noted(w.clients[c].cursor, w.clients[c].landing), Update(w.clients[c].doc, 1)))) == n
    ensures Captured(w, c) == n
  {
  }

  lemma Drafts(k: Client)
    ensures var noted := k.(notes := k.notes + {Noted(k.cursor, k.landing)});
            noted.(drafts := noted.drafts + {Draft(Noted(k.cursor, k.landing), Update(noted.doc, 1))}) == Drafted(k)
  {
  }

  lemma CaptureReached(w: World, c: string)
    requires Reachable(DEVICES, w) && c in w.clients
    ensures Reachable(DEVICES, Captured(w, c))
    ensures Captured(w, c) == w.(clients := w.clients[c := Drafted(w.clients[c])], posts := w.posts + {Posted(w.clients[c])})
  {
    var k := w.clients[c];
    var note := Noted(k.cursor, k.landing);
    var w1 := w.(clients := w.clients[c := k.(notes := k.notes + {note})]);
    NoteReached(w, c);
    ExportReached(w1, c, note);
    Drafts(k);
    var w2 := w.(clients := w.clients[c := Drafted(k)]);
    assert w2 == w1.(clients := w1.clients[c := Drafted(k)]) by {
      assert w1.clients[c := Drafted(k)] == w.clients[c := Drafted(k)];
    }
    PostReached(w2, c, Draft(note, Update(k.doc, 1)));
    Composes(w, c, w1, w2, w2.(posts := w2.posts + {Posted(k)}));
  }

  lemma Captures(log: Log, a: Client, b: Client, posts: set<Post>, c: string)
    requires Reachable(DEVICES, W(log, a, b, posts)) && (c == "a" || c == "b")
    ensures var k := if c == "a" then a else b;
            && Reachable(DEVICES, W(log, if c == "a" then Drafted(a) else a, if c == "b" then Drafted(b) else b, posts + {Posted(k)}))
            && Captured(W(log, a, b, posts), c)
               == W(log, if c == "a" then Drafted(a) else a, if c == "b" then Drafted(b) else b, posts + {Posted(k)})
  {
    CaptureReached(W(log, a, b, posts), c);
    PairUpdated(a, b, Drafted(if c == "a" then a else b));
  }

  function A9(): Client { Drafted(A8()) }

  lemma CaptureBeforePruning(b: Client)
    requires Reachable(DEVICES, W(UPLOADED, A8(), b, {}))
    ensures Reachable(DEVICES, W(UPLOADED, A9(), b, {POST}))
  {
    Captures(UPLOADED, A8(), b, {}, "a");
    assert {} + {Posted(A8())} == {POST};
  }

  lemma CommitPrunes(b: Client)
    requires Reachable(DEVICES, W(UPLOADED, A8(), b, {}))
    ensures Reachable(DEVICES, W(PRUNED, A9(), b, {POST}))
  {
    CaptureBeforePruning(b);
    CommitsFirst();
    Next(W(UPLOADED, A9(), b, {POST}), CommitPost(POST), W(PRUNED, A9(), b, {POST}));
  }

  lemma LateAnswer()
    ensures Reachable(DEVICES, W(PRUNED, A9(), B4(), {POST}))
  {
    ReaderPlanned();
    CommitPrunes(B3());
    var w3 := W(PRUNED, A9(), B3(), {POST});
    PairUpdated(A9(), B3(), B4());
    assert B3().up[1..] == [] && B3().down + B4().down == B4().down;
    assert RowsReply(w3, "b", 0, false) == B4().down;
    Next(w3, Serve("b"), W(PRUNED, A9(), B4(), {POST}));
  }

  lemma LateAnswerHandled()
    ensures Reachable(DEVICES, W(PRUNED, A9(), B5(), {POST}))
  {
    LateAnswer();
    PairUpdated(A9(), B4(), B5());
    assert B4().down[1..] == [];
    assert Receive(B4()) == B5();
    Next(W(PRUNED, A9(), B4(), {POST}), Deliver("b"), W(PRUNED, A9(), B5(), {POST}));
  }

  /**
   Completeness at the end of a backfill is not unconditional: when a checkpoint commits between a
   client's state frame and its rows request, the client ends up steady, with nothing in flight and no
   gap flagged, without an accepted update.
   */
  lemma PruningInBetweenIsMissed()
    ensures exists w :: Reachable(DEVICES, w) && "b" in w.clients
              && w.clients["b"].phase.Steady? && !w.clients["b"].gap
              && w.clients["b"].up == [] && w.clients["b"].down == []
              && !Covers(w.accepted, |w.accepted|, w.clients["b"].doc)
  {
    LateAnswerHandled();
    var w5 := W(PRUNED, A9(), B5(), {POST});
    assert 1 in w5.accepted[0].update.ops && 1 !in B5().doc;
    assert w5.clients["b"] == B5();
  }

  // ── captured while a fetch is outstanding ─────────────────────────────────

  function C2(): Client { NewClient().(phase := Greeting, down := [State(Head(1, 1, true, Some({1})))]) }
  function C3(): Client {
    NewClient().(amnestied := true, cursor := 1, raised := true, up := [RowsReq(1, false)],
                 phase := Fetching(Head(1, 1, true, Some({1})), [], None), since := 1)
  }

  lemma LateReaderGreeted()
    ensures Reachable(DEVICES, W(PRUNED, A9(), C2(), {POST}))
  {
    Acknowledged();
    CommitPrunes(NewClient());
    PairUpdated(A9(), NewClient(), B1());
    Next(W(PRUNED, A9(), NewClient(), {POST}), Dial("b"), W(PRUNED, A9(), B1(), {POST}));
    PairUpdated(A9(), B1(), C2());
    assert B1().up[1..] == [] && B1().down + C2().down == C2().down;
    Next(W(PRUNED, A9(), B1(), {POST}), Serve("b"), W(PRUNED, A9(), C2(), {POST}));
  }

  lemma FetchOutstanding()
    ensures Reachable(DEVICES, W(PRUNED, A9(), C3(), {POST}))
  {
    LateReaderGreeted();
    PairUpdated(A9(), C2(), C3());
    assert C2().down[1..] == [] && Pushes([]) == [];
    assert 1 in {1} && {1} != {};
    assert [] + [RowsReq(1, false)] + [] == C3().up;
    assert Receive(C2()) == C3();
    Next(W(PRUNED, A9(), C2(), {POST}), Deliver("b"), W(PRUNED, A9(), C3(), {POST}));
  }

  /**
   A commit at the floor does lose updates: in a world reached without one, a client that is not handling
   any row captures a checkpoint while its own fetch is outstanding, and committing that loses an
   accepted update.
   */
  lemma CapturingTooEarlyLosesAnUpdate()
    ensures exists w ::
              && Reachable(DEVICES, w) && "b" in w.clients && w.clients["b"].raised && w.clients["b"].landing.None?
              && var n, post := Captured(w, "b"), Posted(w.clients["b"]);
                 post in n.posts && AtTheFloor(n.log, post) && NothingLost(n) && !NothingLost(Do(n, CommitPost(post)))
  {
    FetchOutstanding();
    var w := W(PRUNED, A9(), C3(), {POST});
    Captures(PRUNED, A9(), C3(), {POST}, "b");
    EarlyCommit(W(PRUNED, A9(), Drafted(C3()), {POST} + {Posted(C3())}), Posted(C3()));
    assert w.clients["b"] == C3();
  }

  lemma EarlyCommit(w: World, post: Post)
    requires w.log == PRUNED && w.accepted == [ROW] && post in w.posts && post == Post(1, Some({}), Update({}, 1), None)
    ensures AtTheFloor(w.log, post) && NothingLost(w) && !NothingLost(Do(w, CommitPost(post)))
  {
    assert RowsAfter([], 1, "") == [];
    assert U.ops <= HeldBy(PRUNED);
    OnlyRow(w);
    var after := Do(w, CommitPost(post));
    assert after.log == Log([], 1, 1, Some(Checkpoint(1, Update({}, 1), Some({}))));
    assert 1 in after.accepted[0].update.ops && 1 !in HeldBy(after.log);
  }

  lemma OnlyRow(w: World)
    requires w.accepted == [ROW] && U.ops <= HeldBy(w.log)
    ensures NothingLost(w)
  {
  }

  // ── captured while a row is landing ───────────────────────────────────────

  function D1(): Client { B3().(up := [], down := [RowDown(ROW), RowsDone(1, 0, Some({1}))]) }
  function D2(): Client { B3().(up := [], down := [RowsDone(1, 0, Some({1}))], cursor := 1, landing := Some(ROW)) }
  function D3(): Client { Drafted(D2()) }
  function D4(): Client { D3().(doc := {1}, landing := None, saved := ({1}, 1)) }

  lemma RowSent()
    ensures Reachable(DEVICES, W(UPLOADED, A8(), D1(), {}))
  {
    ReaderPlanned();
    var w := W(UPLOADED, A8(), B3(), {});
    PairUpdated(A8(), B3(), D1());
    assert OpsFrom([ROW], 0) == {1} by {
      assert [ROW][0].update.ops == {1};
    }
    assert RowsAfter([ROW], 0, "") == [ROW] by {
      assert [ROW][1..] == [] && [ROW] + [] == [ROW];
    }
    assert RowsReply(w, "b", 0, false) == D1().down;
    assert B3().up[1..] == [] && B3().down + D1().down == D1().down;
    Next(w, Serve("b"), W(UPLOADED, A8(), D1(), {}));
  }

  lemma RowLanding()
    ensures Reachable(DEVICES, W(UPLOADED, A8(), D2(), {}))
  {
    RowSent();
    PairUpdated(A8(), D1(), D2());
    assert D1().down[1..] == D2().down;
    assert Receive(D1()) == D2();
    Next(W(UPLOADED, A8(), D1(), {}), Deliver("b"), W(UPLOADED, A8(), D2(), {}));
  }

  lemma RowImported()
    ensures Reachable(DEVICES, W(UPLOADED, A8(), D4(), {Posted(D2())}))
  {
    RowLanding();
    Captures(UPLOADED, A8(), D2(), {}, "b");
    assert {} + {Posted(D2())} == {Posted(D2())};
    PairUpdated(A8(), D3(), D4());
    assert {} + U.ops == {1};
    assert ImportRow(D3()) == D4();
    Next(W(UPLOADED, A8(), D3(), {Posted(D2())}), Land("b"), W(UPLOADED, A8(), D4(), {Posted(D2())}));
  }

  /** Committing to the uploaded log a checkpoint of the one row there is. */
  lemma CommitsOne(w: World, post: Post)
    requires w.log == UPLOADED && post in w.posts && post.covered == 1 && post.blob.size == 1
    ensures GoesThrough(UPLOADED, post) && StrictStep(w, CommitPost(post))
    ensures Do(w, CommitPost(post)).log == Log([], 1, 1, Some(Checkpoint(1, post.blob, post.frontier)))
  {
    assert [ROW][1..] == [];
    assert RowsAfter([ROW], 1, "") == [];
  }

  /**
   No check on the number a post claims makes the server safe: in one reachable world the same client has
   posted two checkpoints of one number, neither while raised, and both commit past the floor. The one
   captured after the row had landed keeps everything; the one captured before loses an accepted update.
   */
  lemma NoCheckOnTheNumberSuffices()
    ensures exists w, p, q ::
              && Reachable(DEVICES, w) && p in w.posts && q in w.posts && p.covered == q.covered
              && GoesThrough(w.log, p) && GoesThrough(w.log, q) && !AtTheFloor(w.log, p) && !AtTheFloor(w.log, q)
              && StrictStep(w, CommitPost(p)) && StrictStep(w, CommitPost(q))
              && NothingLost(Do(w, CommitPost(p))) && !NothingLost(Do(w, CommitPost(q)))
  {
    RowImported();
    Captures(UPLOADED, A8(), D4(), {Posted(D2())}, "b");
    var w := W(UPLOADED, A8(), Drafted(D4()), {Posted(D2())} + {Posted(D4())});
    OneNumberTwoFates(w, Posted(D4()), Posted(D2()));
  }

  lemma OneNumberTwoFates(w: World, p: Post, q: Post)
    requires w.log == UPLOADED && w.accepted == [ROW] && p in w.posts && q in w.posts
    requires p.covered == q.covered == 1 && p.blob == Update({1}, 1) && q.blob == Update({}, 1)
    ensures GoesThrough(w.log, p) && GoesThrough(w.log, q) && !AtTheFloor(w.log, p) && !AtTheFloor(w.log, q)
    ensures StrictStep(w, CommitPost(p)) && StrictStep(w, CommitPost(q))
    ensures NothingLost(Do(w, CommitPost(p))) && !NothingLost(Do(w, CommitPost(q)))
  {
    CommitsOne(w, p);
    CommitsOne(w, q);
    OnlyRow(Do(w, CommitPost(p)));
    var n := Do(w, CommitPost(q));
    assert 1 in n.accepted[0].update.ops && 1 !in HeldBy(n.log);
  }
}
