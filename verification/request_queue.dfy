/**
 * The request scheduler: three FIFO queues (`main`, `waiting`, `watching`)
 * and the results handed back to callers. One step of the worker loop
 * takes the head of `main`; how running its block ended is a parameter.
 */
module Requests {
  import opened Results

  datatype Kind = LookRequest | FlipRequest | MapRequest | WatchRequest

  /** A queued request; `id` stands for the caller's private result queue. */
  datatype Request = Request(id: nat, kind: Kind)

  /** How running a request's block ended. */
  datatype BlockOutcome = Returned(output: string) | WaitForCard | Raised(message: string)

  /** What a caller receives on its result queue. */
  datatype Reply = Value(output: string) | Error(message: string)

  datatype Fill = Fill(request: Request, reply: Reply)

  datatype Queues = Queues(main: seq<Request>, waiting: seq<Request>, watching: seq<Request>, filled: seq<Fill>)

  /** Every request still queued somewhere. */
  function Pending(q: Queues): seq<Request> {
    q.main + q.waiting + q.watching
  }

  /** Every request that has received its result, in the order of the results. */
  function Served(fills: seq<Fill>): seq<Request> {
    seq(|fills|, k requires 0 <= k < |fills| => fills[k].request)
  }

  /** `update_all_watchers`: every watcher moves, in order, to the tail of `main`. */
  function Drain(q: Queues): (r: Queues)
    ensures multiset(Pending(r)) == multiset(Pending(q)) && r.filled == q.filled
    ensures r.watching == [] && r.waiting == q.waiting
  {
    q.(main := q.main + q.watching, watching := [])
  }

  /** `pop_one_waiting_request`: the head of `waiting`, if any, moves to the tail of `main`. */
  function AdmitOne(q: Queues): (r: Queues)
    ensures multiset(Pending(r)) == multiset(Pending(q)) && r.filled == q.filled && r.watching == q.watching
    ensures q.waiting != [] ==> r.main == q.main + [q.waiting[0]] && r.waiting == q.waiting[1..]
  {
    if q.waiting == [] then q
    else
      assert q.waiting == [q.waiting[0]] + q.waiting[1..];
      q.(main := q.main + [q.waiting[0]], waiting := q.waiting[1..])
  }

  function Filled(q: Queues, r: Request, reply: Reply): Queues {
    q.(filled := q.filled + [Fill(r, reply)])
  }

  /** One iteration of `process_requests`, the block of the head of `main` having ended as `o`. */
  function Step(q: Queues, o: BlockOutcome): (r: Queues)
    requires |q.main| > 0
    // `main` is served first in, first out: what stood behind the head is now at the front, in order
    ensures |r.main| >= |q.main| - 1 && r.main[..|q.main| - 1] == q.main[1..]
  {
    var head := q.main[0];
    var rest := q.(main := q.main[1..]);
    match o
    case Returned(output) =>
      var served := Filled(rest, head, Value(output));
      var drained := if head.kind == FlipRequest || head.kind == MapRequest then Drain(served) else served;
      if head.kind == FlipRequest then AdmitOne(drained) else drained
    case WaitForCard =>
      rest.(waiting := rest.waiting + [head])
    case Raised(message) =>
      Filled(Drain(rest), head, Error(message))
  }

  /** The requests still queued after a step: the same, less the head unless it was parked. */
  lemma PendingAfterStep(q: Queues, o: BlockOutcome)
    requires |q.main| > 0
    ensures o.WaitForCard? ==> multiset(Pending(Step(q, o))) == multiset(Pending(q))
    ensures !o.WaitForCard? ==> multiset(Pending(Step(q, o))) + multiset{q.main[0]} == multiset(Pending(q))
  {
    var head := q.main[0];
    var rest := q.(main := q.main[1..]);
    assert q.main == [head] + q.main[1..];
    assert multiset(Pending(q)) == multiset(Pending(rest)) + multiset{head};
    match o
    case WaitForCard =>
    case Returned(output) =>
      var served := Filled(rest, head, Value(output));
      var drained := if head.kind == FlipRequest || head.kind == MapRequest then Drain(served) else served;
    case Raised(message) =>
  }

  /** The results after a step: the same, plus one for the head unless it was parked. */
  lemma FilledAfterStep(q: Queues, o: BlockOutcome)
    requires |q.main| > 0
    ensures o.WaitForCard? ==> Step(q, o).filled == q.filled
    ensures o.Returned? ==> Step(q, o).filled == q.filled + [Fill(q.main[0], Value(o.output))]
    ensures o.Raised? ==> Step(q, o).filled == q.filled + [Fill(q.main[0], Error(o.message))]
  {
    var head := q.main[0];
    var rest := q.(main := q.main[1..]);
    if o.Returned? {
      var served := Filled(rest, head, Value(o.output));
      var drained := if head.kind == FlipRequest || head.kind == MapRequest then Drain(served) else served;
    }
  }

  /**
   * A step never duplicates or drops a request: the head either receives
   * exactly one result or moves to `waiting`, every other request stays
   * queued exactly once, and earlier results are kept.
   */
  lemma StepConserves(q: Queues, o: BlockOutcome)
    requires |q.main| > 0
    ensures var r := Step(q, o);
      && multiset(Pending(r)) + multiset(Served(r.filled)) == multiset(Pending(q)) + multiset(Served(q.filled))
      && r.filled[..|q.filled|] == q.filled
      && (o.WaitForCard? ==> r.filled == q.filled && multiset(Pending(r)) == multiset(Pending(q)))
      && (!o.WaitForCard? ==> |r.filled| == |q.filled| + 1 && r.filled[|q.filled|].request == q.main[0])
  {
    var r := Step(q, o);
    PendingAfterStep(q, o);
    FilledAfterStep(q, o);
    if o.WaitForCard? {
      assert r.filled == q.filled;
    } else {
      var head := q.main[0];
      var f := r.filled[|q.filled|];
      assert r.filled == q.filled + [f] && f.request == head;
      assert r.filled[..|q.filled|] == q.filled;
      ServedSnoc(q.filled, f);
      var before, after := multiset(Served(q.filled)), multiset(Served(r.filled));
      assert after == before + multiset{head};
      assert multiset(Pending(r)) + multiset{head} == multiset(Pending(q));
      calc {
        multiset(Pending(r)) + after;
        multiset(Pending(r)) + multiset{head} + before;
        multiset(Pending(q)) + before;
      }
    }
  }

  lemma ServedSnoc(fills: seq<Fill>, f: Fill)
    ensures Served(fills + [f]) == Served(fills) + [f.request]
  {
  }

  /**
   * A successful block: its output is the result. After a flip or a map
   * every watcher moves to `main` in order; after a flip (only) the head
   * of `waiting` follows them. A look or a watch disturbs no other queue.
   */
  lemma StepReturned(q: Queues, output: string)
    requires |q.main| > 0
    ensures var r := Step(q, Returned(output));
      var head := q.main[0];
      var changing := head.kind == FlipRequest || head.kind == MapRequest;
      && r.filled == q.filled + [Fill(head, Value(output))]
      && (changing ==> r.watching == [] && r.main[..|q.main| - 1 + |q.watching|] == q.main[1..] + q.watching)
      && (!changing ==> r.watching == q.watching && r.waiting == q.waiting && r.main == q.main[1..])
      && (head.kind == MapRequest ==> r.waiting == q.waiting && r.main == q.main[1..] + q.watching)
      && (head.kind == FlipRequest && q.waiting != [] ==>
            r.waiting == q.waiting[1..] && r.main == q.main[1..] + q.watching + [q.waiting[0]])
      && (head.kind == FlipRequest && q.waiting == [] ==>
            r.waiting == [] && r.main == q.main[1..] + q.watching)
  {
    var head := q.main[0];
    var served := Filled(q.(main := q.main[1..]), head, Value(output));
    if head.kind == FlipRequest || head.kind == MapRequest {
      var drained := Drain(served);
      assert drained.main == q.main[1..] + q.watching;
      if head.kind == FlipRequest && q.waiting != [] {
        var r := AdmitOne(drained);
        assert r.main == q.main[1..] + q.watching + [q.waiting[0]];
        assert r.main[..|q.main| - 1 + |q.watching|] == q.main[1..] + q.watching;
      }
    }
  }

  /** A block that must wait for a card parks its request at the tail of `waiting`; nothing else moves and no result is given. */
  lemma StepWaits(q: Queues)
    requires |q.main| > 0
    ensures var r := Step(q, WaitForCard);
      r == Queues(q.main[1..], q.waiting + [q.main[0]], q.watching, q.filled)
  {
  }

  /** Any other error becomes the result; every watcher moves to `main`, and `waiting` is untouched. */
  lemma StepRaised(q: Queues, message: string)
    requires |q.main| > 0
    ensures var r := Step(q, Raised(message));
      r == Queues(q.main[1..] + q.watching, q.waiting, [], q.filled + [Fill(q.main[0], Error(message))])
  {
  }

  /** Runs one step per outcome, or None once `main` is empty before an outcome is used. */
  function Run(q: Queues, os: seq<BlockOutcome>): Option<Queues>
    decreases |os|
  {
    if os == [] then Some(q)
    else if q.main == [] then None
    else Run(Step(q, os[0]), os[1..])
  }

  /**
   * Fairness of `main`: whatever the outcomes of the blocks before it, the
   * request at position k of `main` is at its head after exactly k steps.
   */
  lemma {:induction false} ServedInTurn(q: Queues, os: seq<BlockOutcome>, k: nat)
    requires k == |os| && k < |q.main|
    decreases k
    ensures Run(q, os).Some? && |Run(q, os).value.main| > 0
    ensures Run(q, os).value.main[0] == q.main[k]
  {
    if k > 0 {
      var q' := Step(q, os[0]);
      assert q'.main[..|q.main| - 1] == q.main[1..];
      assert q'.main[k - 1] == q.main[k];
      ServedInTurn(q', os[1..], k - 1);
      assert Run(q, os) == Run(q', os[1..]);
    }
  }

  /** Every request queued or served has an id below `n`. */
  predicate IdsBelow(q: Queues, n: nat) {
    forall r :: r in Pending(q) + Served(q.filled) ==> r.id < n
  }

  /** A step hands out no new request, so ids below a bound stay below it. */
  lemma StepKeepsIds(q: Queues, o: BlockOutcome, n: nat)
    requires |q.main| > 0 && IdsBelow(q, n)
    ensures IdsBelow(Step(q, o), n)
  {
    var r := Step(q, o);
    StepConserves(q, o);
    forall x | x in Pending(r) + Served(r.filled) ensures x.id < n {
      assert x in multiset(Pending(r)) + multiset(Served(r.filled));
      assert x in multiset(Pending(q)) + multiset(Served(q.filled));
      assert x in Pending(q) + Served(q.filled);
    }
  }

  // ----- the queue object -----

  class RequestQueue {
    var main: seq<Request>
    var waiting: seq<Request>
    var watching: seq<Request>
    var filled: seq<Fill>
    var nextId: nat

    function State(): Queues
      reads this
    {
      Queues(main, waiting, watching, filled)
    }

    /** Every id handed out so far is below `nextId`, so the next one is fresh. */
    predicate Valid()
      reads this
    {
      IdsBelow(State(), nextId)
    }

    /** `initialize`: three empty queues. The worker thread is not modelled. */
    constructor ()
      ensures State() == Queues([], [], [], []) && nextId == 0
      ensures Valid()
    {
      main := [];
      waiting := [];
      watching := [];
      filled := [];
      nextId := 0;
    }

    /** `enqueue_look`: a look request joins the tail of `main`. */
    method EnqueueLook() returns (id: nat)
      modifies this
      requires Valid()
      ensures Valid()
      ensures forall r :: r in Pending(old(State())) + Served(old(filled)) ==> r.id != id
      ensures id == old(nextId) && nextId == id + 1
      ensures State() == old(State()).(main := old(main) + [Request(id, LookRequest)])
    {
      id := nextId;
      nextId := nextId + 1;
      main := main + [Request(id, LookRequest)];
    }

    /** `enqueue_flip`: a flip request joins the tail of `main`. */
    method EnqueueFlip() returns (id: nat)
      modifies this
      requires Valid()
      ensures Valid()
      ensures forall r :: r in Pending(old(State())) + Served(old(filled)) ==> r.id != id
      ensures id == old(nextId) && nextId == id + 1
      ensures State() == old(State()).(main := old(main) + [Request(id, FlipRequest)])
    {
      id := nextId;
      nextId := nextId + 1;
      main := main + [Request(id, FlipRequest)];
    }

    /** `enqueue_map`: a map request joins the tail of `main`. */
    method EnqueueMap() returns (id: nat)
      modifies this
      requires Valid()
      ensures Valid()
      ensures forall r :: r in Pending(old(State())) + Served(old(filled)) ==> r.id != id
      ensures id == old(nextId) && nextId == id + 1
      ensures State() == old(State()).(main := old(main) + [Request(id, MapRequest)])
    {
      id := nextId;
      nextId := nextId + 1;
      main := main + [Request(id, MapRequest)];
    }

    /** `enqueue_watch`: a watch request joins `watching`, not `main`. */
    method EnqueueWatch() returns (id: nat)
      modifies this
      requires Valid()
      ensures Valid()
      ensures forall r :: r in Pending(old(State())) + Served(old(filled)) ==> r.id != id
      ensures id == old(nextId) && nextId == id + 1
      ensures State() == old(State()).(watching := old(watching) + [Request(id, WatchRequest)])
    {
      id := nextId;
      nextId := nextId + 1;
      watching := watching + [Request(id, WatchRequest)];
    }

    /** `next_request`: takes the head of `main` (the blocking wait on an empty queue is not modelled). */
    method NextRequest() returns (r: Request)
      requires |main| > 0
      modifies this
      ensures r == old(main[0])
      ensures State() == old(State()).(main := old(main[1..]))
      ensures nextId == old(nextId)
    {
      r := main[0];
      main := main[1..];
    }

    /** `update_all_watchers`: moves watchers one by one until `watching` is empty. */
    method UpdateAllWatchers()
      modifies this
      ensures State() == Drain(old(State()))
      ensures nextId == old(nextId)
    {
      while watching != []
        invariant main + watching == old(main) + old(watching)
        invariant waiting == old(waiting) && filled == old(filled) && nextId == old(nextId)
        decreases |watching|
      {
        main := main + [watching[0]];
        watching := watching[1..];
      }
    }

    /** `pop_one_waiting_request`. */
    method PopOneWaitingRequest()
      modifies this
      ensures State() == AdmitOne(old(State()))
      ensures nextId == old(nextId)
    {
      if waiting == [] {
        return;
      }
      main := main + [waiting[0]];
      waiting := waiting[1..];
    }

    /** One iteration of `process_requests`, its block having ended as `o`. */
    method ProcessRequest(o: BlockOutcome)
      requires |main| > 0 && Valid()
      modifies this
      ensures State() == Step(old(State()), o)
      ensures nextId == old(nextId)
      ensures Valid()
    {
      StepKeepsIds(State(), o, nextId);
      var request := NextRequest();
      match o
      case Returned(output) =>
        filled := filled + [Fill(request, Value(output))];
        if request.kind == FlipRequest || request.kind == MapRequest {
          UpdateAllWatchers();
        }
        if request.kind == FlipRequest {
          PopOneWaitingRequest();
        }
      case WaitForCard =>
        waiting := waiting + [request];
      case Raised(message) =>
        UpdateAllWatchers();
        filled := filled + [Fill(request, Error(message))];
    }
  }
}
