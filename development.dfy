/** The development stages: the fan-out of draft tickets to `agent_work`, the
    per-ticket work, the join that merges their deltas, and the merge stage. */
module Development {
  import opened Wrappers
  import opened State

  /** The node name every invocation targets. */
  const AgentWorkTarget: string := "agent_work"

  /** `Send("agent_work", {"ticket": t})`: an invocation of a node with a payload. */
  datatype Send = Send(target: string, ticket: Ticket)

  // ---------------------------------------------------------------------
  // dispatch_agents
  // ---------------------------------------------------------------------

  /** `[t for t in tickets if t["status"] == "draft"]` */
  function DraftTickets(tickets: seq<Ticket>): (r: seq<Ticket>)
    ensures |r| <= |tickets|
    ensures forall t :: t in r ==> t in tickets && t.status == Draft
  {
    if tickets == [] then []
    else (if tickets[0].status == Draft then [tickets[0]] else []) + DraftTickets(tickets[1..])
  }

  /** One invocation of `agent_work` per ticket, in order. */
  function SendsFor(pending: seq<Ticket>): seq<Send> {
    if pending == [] then [] else [Send(AgentWorkTarget, pending[0])] + SendsFor(pending[1..])
  }

  /** The invocations `dispatch_agents` emits for a ticket list. */
  function DispatchSends(tickets: seq<Ticket>): seq<Send> {
    SendsFor(DraftTickets(tickets))
  }

  lemma {:induction false} SendsForConcat(a: seq<Ticket>, b: seq<Ticket>)
    ensures SendsFor(a + b) == SendsFor(a) + SendsFor(b)
    decreases |a|
  {
    if a == [] {
      assert a + b == b;
    } else {
      assert (a + b)[1..] == a[1..] + b;
      SendsForConcat(a[1..], b);
    }
  }

  /** `dispatch_agents`: filters the draft tickets, then appends one Send per
      pending ticket; the state is only read. */
  method DispatchAgents(s: ScrumState) returns (sends: seq<Send>)
    ensures sends == DispatchSends(s.tickets)
  {
    var pending := DraftTickets(s.tickets);
    sends := [];
    for i := 0 to |pending|
      invariant sends == SendsFor(pending[..i])
    {
      assert pending[..i + 1] == pending[..i] + [pending[i]];
      SendsForConcat(pending[..i], [pending[i]]);
      sends := sends + [Send(AgentWorkTarget, pending[i])];
    }
    assert pending[..|pending|] == pending;
  }

  /** Every invocation targets "agent_work" and carries, unchanged, a draft
      ticket of the list. */
  lemma {:induction false} DispatchTargets(tickets: seq<Ticket>, i: nat)
    requires i < |DispatchSends(tickets)|
    ensures DispatchSends(tickets)[i].target == AgentWorkTarget
    ensures DispatchSends(tickets)[i].ticket.status == Draft
    ensures DispatchSends(tickets)[i].ticket in tickets
    ensures |DispatchSends(tickets)| == |DraftTickets(tickets)|
    ensures DispatchSends(tickets)[i].ticket == DraftTickets(tickets)[i]
  {
    SendsForLength(DraftTickets(tickets));
    SendsForAt(DraftTickets(tickets), i);
  }

  lemma {:induction false} SendsForAt(pending: seq<Ticket>, i: nat)
    requires i < |pending|
    ensures |SendsFor(pending)| == |pending|
    ensures SendsFor(pending)[i] == Send(AgentWorkTarget, pending[i])
    decreases |pending|
  {
    SendsForLength(pending);
    if i > 0 {
      SendsForAt(pending[1..], i - 1);
    }
  }

  lemma {:induction false} SendsForLength(pending: seq<Ticket>)
    ensures |SendsFor(pending)| == |pending|
    decreases |pending|
  {
    if pending != [] {
      SendsForLength(pending[1..]);
    }
  }

  /** The invocations follow the ticket list: dispatching a concatenation is
      the concatenation of the dispatches, so relative order is kept. */
  lemma {:induction false} DispatchOrder(a: seq<Ticket>, b: seq<Ticket>)
    ensures DispatchSends(a + b) == DispatchSends(a) + DispatchSends(b)
  {
    DraftTicketsConcat(a, b);
    SendsForConcat(DraftTickets(a), DraftTickets(b));
  }

  lemma {:induction false} DraftTicketsConcat(a: seq<Ticket>, b: seq<Ticket>)
    ensures DraftTickets(a + b) == DraftTickets(a) + DraftTickets(b)
    decreases |a|
  {
    if a == [] {
      assert a + b == b;
    } else {
      assert (a + b)[0] == a[0];
      assert (a + b)[1..] == a[1..] + b;
      DraftTicketsConcat(a[1..], b);
    }
  }

  /** Exactly one invocation per draft ticket (counting repeated tickets) and
      none for a ticket of any other status. */
  lemma {:induction false} DispatchCount(tickets: seq<Ticket>, t: Ticket)
    ensures multiset(DispatchSends(tickets))[Send(AgentWorkTarget, t)] ==
            if t.status == Draft then multiset(tickets)[t] else 0
    decreases |tickets|
  {
    if tickets != [] {
      var rest := tickets[1..];
      assert tickets == [tickets[0]] + rest;
      DispatchOrder([tickets[0]], rest);
      DispatchCount(rest, t);
      assert DraftTickets([tickets[0]]) == (if tickets[0].status == Draft then [tickets[0]] else []) by {
        assert [tickets[0]][1..] == [];
      }
    }
  }

  /** `dispatch_agents` returns [] exactly when no ticket is a draft (in
      particular for an empty ticket list). */
  lemma {:induction false} DispatchEmpty(tickets: seq<Ticket>)
    ensures DispatchSends(tickets) == [] <==> forall t :: t in tickets ==> t.status != Draft
    decreases |tickets|
  {
    SendsForLength(DraftTickets(tickets));
    if tickets != [] {
      DispatchEmpty(tickets[1..]);
      SendsForLength(DraftTickets(tickets[1..]));
      assert forall t :: t in tickets <==> t == tickets[0] || t in tickets[1..] by {
        assert tickets == [tickets[0]] + tickets[1..];
      }
    }
  }

  // ---------------------------------------------------------------------
  // agent_work
  // ---------------------------------------------------------------------

  /** The payload ticket as `agent_work` returns it: status "review", every
      other field as received. */
  function Reviewed(t: Ticket): Ticket {
    t.(status := TicketStatus.Review)
  }

  /** `agent_work`: a delta whose only key is `completed_tickets`, holding the
      payload ticket with status "review". */
  function AgentWorkNode(payload: Ticket): (d: Delta)
    ensures d.completedTickets.Some? && |d.completedTickets.value| == 1
    ensures d.completedTickets.value[0].status == TicketStatus.Review
    ensures d.completedTickets.value[0].(status := payload.status) == payload
    ensures d.(completedTickets := None) == NoChange
    ensures forall s :: Merge(s, d) == s.(completedTickets := s.completedTickets + [Reviewed(payload)])
  {
    var d := NoChange.(completedTickets := Some([Reviewed(payload)]));
    assert forall s :: Merge(s, d) == s.(completedTickets := s.completedTickets + [Reviewed(payload)]) by {
      forall s ensures Merge(s, d) == s.(completedTickets := s.completedTickets + [Reviewed(payload)]) {
        assert s.tickets + [] == s.tickets;
      }
    }
    d
  }

  // ---------------------------------------------------------------------
  // The join
  // ---------------------------------------------------------------------

  /** The order in which the invocations of one fan-out finish. Each choice
      picks, modulo the number still running, the next one to finish; an empty
      choice list keeps invocation order. Every choice list yields an
      arrangement of the same invocations. */
  function CompletionOrder(sends: seq<Send>, choices: seq<nat>): (r: seq<Send>)
    ensures multiset(r) == multiset(sends)
    decreases |sends|
  {
    if sends == [] then []
    else
      var k := if choices == [] then 0 else choices[0] % |sends|;
      var rest := sends[..k] + sends[k + 1..];
      MultisetSplit(sends, k);
      [sends[k]] + CompletionOrder(rest, if choices == [] then [] else choices[1..])
  }

  /** With no choices the join sees the invocations in the order they were sent. */
  lemma {:induction false} CompletionOrderDefault(sends: seq<Send>)
    ensures CompletionOrder(sends, []) == sends
    decreases |sends|
  {
    if sends != [] {
      assert sends[..0] + sends[1..] == sends[1..];
      CompletionOrderDefault(sends[1..]);
    }
  }

  /** The completed tickets produced by a sequence of finished invocations. */
  function ReviewedAll(arrived: seq<Send>): seq<Ticket> {
    if arrived == [] then [] else [Reviewed(arrived[0].ticket)] + ReviewedAll(arrived[1..])
  }

  /** The join: every `agent_work` delta merged in the order the invocations
      finished. Only `completed_tickets` changes, and it grows by the reviewed
      payloads in that order. */
  function Join(base: ScrumState, arrived: seq<Send>): (r: ScrumState)
    ensures r == base.(completedTickets := base.completedTickets + ReviewedAll(arrived))
    decreases |arrived|
  {
    if arrived == [] then
      assert base.completedTickets + [] == base.completedTickets;
      base
    else
      var next := Merge(base, AgentWorkNode(arrived[0].ticket));
      assert next.completedTickets + ReviewedAll(arrived[1..]) ==
             base.completedTickets + ReviewedAll(arrived);
      Join(next, arrived[1..])
  }

  lemma {:induction false} ReviewedAllConcat(a: seq<Send>, b: seq<Send>)
    ensures ReviewedAll(a + b) == ReviewedAll(a) + ReviewedAll(b)
    decreases |a|
  {
    if a == [] {
      assert a + b == b;
    } else {
      assert (a + b)[1..] == a[1..] + b;
      ReviewedAllConcat(a[1..], b);
    }
  }

  /** Taking out one invocation takes out its one reviewed ticket. */
  lemma ReviewedAllRemove(left: seq<Send>, x: Send, right: seq<Send>)
    ensures multiset(ReviewedAll(left + [x] + right)) ==
            multiset(ReviewedAll(left + right)) + multiset{Reviewed(x.ticket)}
  {
    ReviewedAllConcat(left + [x], right);
    ReviewedAllConcat(left, [x]);
    ReviewedAllConcat(left, right);
    assert ReviewedAll([x]) == [Reviewed(x.ticket)];
    var l, r := ReviewedAll(left), ReviewedAll(right);
    calc {
      multiset(ReviewedAll(left + [x] + right));
      multiset(l + [Reviewed(x.ticket)] + r);
      multiset(l) + multiset{Reviewed(x.ticket)} + multiset(r);
      multiset(l + r) + multiset{Reviewed(x.ticket)};
    }
  }

  /** Matching the first of `a` with an equal element of `b` leaves two
      arrangements of the same invocations. */
  lemma RemoveMatching(a: seq<Send>, b: seq<Send>, j: nat)
    requires multiset(a) == multiset(b) && a != [] && j < |b| && b[j] == a[0]
    ensures multiset(a[1..]) == multiset(b[..j] + b[j + 1..])
  {
    var x, rest := a[0], b[..j] + b[j + 1..];
    MultisetSplit(a, 0);
    MultisetSplit(b, j);
    SplitAt(a, 0);
    assert multiset(a[1..]) + multiset{x} == multiset(rest) + multiset{x};
    assert multiset(a[1..]) == multiset(a[1..]) + multiset{x} - multiset{x};
    assert multiset(rest) == multiset(rest) + multiset{x} - multiset{x};
  }

  /** The multiset of completed tickets depends only on which invocations
      finished, not on their order. */
  lemma {:induction false} ReviewedAllPermutation(a: seq<Send>, b: seq<Send>)
    requires multiset(a) == multiset(b)
    ensures multiset(ReviewedAll(a)) == multiset(ReviewedAll(b))
    decreases |a|
  {
    if a != [] {
      assert a[0] in multiset(b);
      var j :| 0 <= j < |b| && b[j] == a[0];
      RemoveMatching(a, b, j);
      ReviewedAllPermutation(a[1..], b[..j] + b[j + 1..]);
      ReviewedAllRemove(b[..j], a[0], b[j + 1..]);
      ReviewedAllRemove([], a[0], a[1..]);
      SplitAt(b, j);
      SplitAt(a, 0);
    }
  }

  lemma SplitAt(b: seq<Send>, j: nat)
    requires j < |b|
    ensures b[..j] + [b[j]] + b[j + 1..] == b
    ensures j == 0 ==> b[..j] + b[j + 1..] == b[1..]
  {
  }

  /** Taking out the `j`-th element takes one copy of it out of the multiset. */
  lemma MultisetSplit(b: seq<Send>, j: nat)
    requires j < |b|
    ensures multiset(b) == multiset(b[..j] + b[j + 1..]) + multiset{b[j]}
  {
    SplitAt(b, j);
    calc {
      multiset(b);
      multiset(b[..j] + [b[j]] + b[j + 1..]);
      multiset(b[..j]) + multiset{b[j]} + multiset(b[j + 1..]);
      multiset(b[..j] + b[j + 1..]) + multiset{b[j]};
    }
  }

  /** Whatever order the invocations finish in, the joined state differs from
      the invocation-order join only in the order of `completed_tickets`. */
  lemma JoinOrderIrrelevant(base: ScrumState, sends: seq<Send>, choices: seq<nat>)
    ensures Join(base, CompletionOrder(sends, choices)).(completedTickets := []) ==
            Join(base, sends).(completedTickets := [])
    ensures multiset(Join(base, CompletionOrder(sends, choices)).completedTickets) ==
            multiset(Join(base, sends).completedTickets)
  {
    ReviewedAllPermutation(CompletionOrder(sends, choices), sends);
  }

  /** For a fan-out over draft tickets, the join appends each draft, with
      status "review", exactly once. */
  lemma {:induction false} JoinCompletesDrafts(base: ScrumState, tickets: seq<Ticket>, t: Ticket)
    requires t.status == Draft
    ensures var joined := Join(base, DispatchSends(tickets));
            multiset(joined.completedTickets)[Reviewed(t)] ==
            multiset(base.completedTickets)[Reviewed(t)] + multiset(DraftTickets(tickets))[t]
  {
    ReviewedAllSends(DraftTickets(tickets), t);
  }

  lemma {:induction false} ReviewedAllSends(pending: seq<Ticket>, t: Ticket)
    requires forall u :: u in pending ==> u.status == Draft
    requires t.status == Draft
    ensures multiset(ReviewedAll(SendsFor(pending)))[Reviewed(t)] == multiset(pending)[t]
    decreases |pending|
  {
    if pending != [] {
      var p := pending[0];
      assert pending == [p] + pending[1..];
      ReviewedAllSends(pending[1..], t);
      assert Reviewed(p) == Reviewed(t) <==> p == t by {
        if Reviewed(p) == Reviewed(t) {
          assert p == Reviewed(p).(status := Draft);
        }
      }
    }
  }

  /** A list of drafts passes the filter whole. */
  lemma {:induction false} AllDraftsKept(tickets: seq<Ticket>)
    requires forall t :: t in tickets ==> t.status == Draft
    ensures DraftTickets(tickets) == tickets
    decreases |tickets|
  {
    if tickets != [] {
      assert forall t :: t in tickets[1..] ==> t in tickets;
      AllDraftsKept(tickets[1..]);
      assert [tickets[0]] + tickets[1..] == tickets;
    }
  }

  /** Joining the invocations for `pending` in invocation order completes
      each of them, reviewed, in the same order. */
  lemma {:induction false} ReviewedSendsFor(pending: seq<Ticket>)
    ensures |ReviewedAll(SendsFor(pending))| == |pending|
    ensures forall i :: 0 <= i < |pending| ==> ReviewedAll(SendsFor(pending))[i] == Reviewed(pending[i])
    decreases |pending|
  {
    if pending != [] {
      ReviewedSendsFor(pending[1..]);
      var sends := SendsFor(pending);
      assert sends[1..] == SendsFor(pending[1..]);
    }
  }

  // ---------------------------------------------------------------------
  // git_merge_node
  // ---------------------------------------------------------------------

  /** `git_merge_node` returns `{"pending_merges": []}` whatever the state. */
  function GitMergeNode(s: ScrumState): (d: Delta)
    ensures forall base :: Merge(base, d) == base.(pendingMerges := Some([]))
  {
    var d := NoChange.(pendingMerges := Some([]));
    assert forall base :: Merge(base, d) == base.(pendingMerges := Some([])) by {
      forall base ensures Merge(base, d) == base.(pendingMerges := Some([])) {
        MergeNoChange(base);
      }
    }
    d
  }
}
