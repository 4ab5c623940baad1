/**
 Which batches of a replica's queue are on their way, and what taking one out of the queue leaves.
 */
module RegistryFlight {
  import opened Prelude
  import opened RegistryCore
  import opened RegistryDoc

  /** A batch as it was written, whatever its flag. */
  datatype Written = Written(id: string, ops: seq<Op>)

  function Of(b: Batch): Written {
    Written(b.id, b.ops)
  }

  ghost predicate Distinct(pending: seq<Batch>) {
    forall i, j :: 0 <= i < j < |pending| ==> pending[i].id != pending[j].id
  }

  /**
   In flight are, in order, the batches in transit, whose pushes or acks are on the link, and among them
   bad ones, which have been refused and which nothing will ever take out of the queue.
   */
  ghost predicate Matches(pending: seq<Batch>, transit: seq<string>, bad: Written -> bool)
    decreases |pending|
  {
    if pending == [] then transit == []
    else if !pending[0].inFlight then transit == [] && forall b :: b in pending ==> !b.inFlight
    else
      || (transit != [] && transit[0] == pending[0].id && Matches(pending[1..], transit[1..], bad))
      || (bad(Of(pending[0])) && Matches(pending[1..], transit, bad))
  }

  /** Batches that are not in flight can be queued behind any. */
  lemma {:induction false} MatchesQueued(pending: seq<Batch>, transit: seq<string>, more: seq<Batch>, bad: Written -> bool)
    requires Matches(pending, transit, bad) && forall b :: b in more ==> !b.inFlight
    ensures Matches(pending + more, transit, bad)
    decreases |pending|
  {
    if pending == [] {
      assert pending + more == more;
    } else {
      assert (pending + more)[0] == pending[0] && (pending + more)[1..] == pending[1..] + more;
      if pending[0].inFlight {
        if transit != [] && transit[0] == pending[0].id && Matches(pending[1..], transit[1..], bad) {
          MatchesQueued(pending[1..], transit[1..], more, bad);
        } else {
          MatchesQueued(pending[1..], transit, more, bad);
        }
      }
    }
  }

  lemma {:induction false} MatchesNone(pending: seq<Batch>, bad: Written -> bool)
    requires forall b :: b in pending ==> !b.inFlight
    ensures Matches(pending, [], bad)
  {
  }

  /** What is in transit is queued. */
  lemma {:induction false} MatchesOnly(pending: seq<Batch>, transit: seq<string>, id: string, bad: Written -> bool)
    requires Matches(pending, transit, bad) && forall b :: b in pending ==> b.id != id
    ensures id !in transit
    decreases |pending|
  {
    if pending != [] && pending[0].inFlight {
      assert forall b :: b in pending[1..] ==> b in pending;
      if transit != [] && transit[0] == pending[0].id && Matches(pending[1..], transit[1..], bad) {
        MatchesOnly(pending[1..], transit[1..], id, bad);
      } else {
        MatchesOnly(pending[1..], transit, id, bad);
      }
    }
  }

  /** A bad batch may drop out of the transit at any place. */
  lemma {:induction false} MatchesRefused(pending: seq<Batch>, transit: seq<string>, k: nat, bad: Written -> bool)
    requires Matches(pending, transit, bad) && k < |transit|
    requires forall b :: b in pending && b.id == transit[k] ==> bad(Of(b))
    ensures Matches(pending, transit[..k] + transit[k + 1..], bad)
    decreases |pending|
  {
    var rest := transit[..k] + transit[k + 1..];
    if transit[0] == pending[0].id && Matches(pending[1..], transit[1..], bad) {
      if k == 0 {
        assert rest == transit[1..];
      } else {
        MatchesRefused(pending[1..], transit[1..], k - 1, bad);
        assert rest[0] == transit[0] && rest[1..] == transit[1..][..k - 1] + transit[1..][k..];
      }
    } else {
      MatchesRefused(pending[1..], transit, k, bad);
    }
  }

  lemma DropOne(pending: seq<Batch>, before: seq<string>, id: string, after: seq<string>, bad: Written -> bool)
    requires Matches(pending, before + ([id] + after), bad)
    requires forall b :: b in pending && b.id == id ==> bad(Of(b))
    ensures Matches(pending, before + after, bad)
  {
    var transit, k := before + ([id] + after), |before|;
    assert transit[k] == id;
    MatchesRefused(pending, transit, k, bad);
    assert transit[..k] + transit[k + 1..] == before + after;
  }

  /** The first ack to come names the first batch in flight that is not bad. */
  lemma {:induction false} MatchesHead(pending: seq<Batch>, transit: seq<string>, bad: Written -> bool) returns (p: nat)
    requires Matches(pending, transit, bad) && transit != []
    ensures p < |pending| && pending[p].id == transit[0] && Matches(pending[p + 1..], transit[1..], bad)
    ensures forall i :: 0 <= i < p ==> pending[i].inFlight && bad(Of(pending[i]))
    ensures Matches(pending[..p] + pending[p + 1..], transit[1..], bad)
    decreases |pending|
  {
    if transit[0] == pending[0].id && Matches(pending[1..], transit[1..], bad) {
      p := 0;
      assert pending[..0] + pending[1..] == pending[1..];
    } else {
      var q := MatchesHead(pending[1..], transit, bad);
      p := q + 1;
      assert pending[1..][q + 1..] == pending[p + 1..];
      var left := pending[..p] + pending[p + 1..];
      assert left[0] == pending[0] && left[1..] == pending[1..][..q] + pending[1..][q + 1..];
    }
  }

  function Ids(batches: seq<Batch>): (out: seq<string>)
    ensures |out| == |batches|
    ensures forall i :: 0 <= i < |out| ==> out[i] == batches[i].id
  {
    seq(|batches|, i requires 0 <= i < |batches| => batches[i].id)
  }

  lemma MarkedTail(pending: seq<Batch>)
    requires pending != []
    ensures var marked := Marked(pending, true);
            marked[0].inFlight && Of(marked[0]) == Of(pending[0]) && marked[1..] == Marked(pending[1..], true)
  {
  }

  lemma PushableTail(pending: seq<Batch>)
    requires pending != []
    ensures Ids(Pushable(pending)) == (if pending[0].inFlight then [] else [pending[0].id]) + Ids(Pushable(pending[1..]))
  {
  }

  lemma {:induction false} NonePushed(pending: seq<Batch>, bad: Written -> bool)
    requires forall i :: 0 <= i < |pending| ==> !pending[i].inFlight
    ensures Matches(Marked(pending, true), Ids(Pushable(pending)), bad)
    decreases |pending|
  {
    if pending != [] {
      MarkedTail(pending);
      PushableTail(pending);
      NonePushed(pending[1..], bad);
      assert Ids(Pushable(pending))[1..] == Ids(Pushable(pending[1..]));
    }
  }

  /** Pushing puts whatever was not in flight at the end of the transit. */
  lemma {:induction false} MatchesPushed(pending: seq<Batch>, transit: seq<string>, bad: Written -> bool)
    requires Matches(pending, transit, bad)
    ensures Matches(Marked(pending, true), transit + Ids(Pushable(pending)), bad)
    decreases |pending|
  {
    if pending == [] {
    } else if !pending[0].inFlight {
      assert forall i :: 0 <= i < |pending| ==> pending[i] in pending;
      NonePushed(pending, bad);
      assert transit + Ids(Pushable(pending)) == Ids(Pushable(pending));
    } else {
      var rest, more := pending[1..], Ids(Pushable(pending[1..]));
      MarkedTail(pending);
      PushableTail(pending);
      assert transit + Ids(Pushable(pending)) == transit + more;
      if transit != [] && transit[0] == pending[0].id && Matches(rest, transit[1..], bad) {
        MatchesPushed(rest, transit[1..], bad);
        assert (transit + more)[1..] == transit[1..] + more;
      } else {
        MatchesPushed(rest, transit, bad);
      }
    }
  }

  lemma {:induction false} KeepsOthers(pending: seq<Batch>, batch: string)
    requires forall i :: 0 <= i < |pending| ==> pending[i].id != batch
    ensures Retain(pending, batch) == pending
  {
    if pending != [] {
      KeepsOthers(pending[1..], batch);
    }
  }

  /** An ack takes out the batch it names and nothing else. */
  lemma {:induction false} RetainAllBut(pending: seq<Batch>, p: nat)
    requires Distinct(pending) && p < |pending|
    ensures Retain(pending, pending[p].id) == pending[..p] + pending[p + 1..]
  {
    var rest := pending[1..];
    if p == 0 {
      assert forall i :: 0 <= i < |rest| ==> rest[i] == pending[i + 1];
      KeepsOthers(rest, pending[0].id);
      assert pending[..0] + pending[1..] == rest;
    } else {
      assert forall i :: 0 <= i < |rest| ==> rest[i] == pending[i + 1];
      RetainAllBut(rest, p - 1);
      assert pending[..p] + pending[p + 1..] == [pending[0]] + (rest[..p - 1] + rest[p..]);
    }
  }
}
