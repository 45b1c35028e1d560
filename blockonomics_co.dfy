/** The Blockonomics worker, in its per-request reply design. It collects
    requests into a batch of at most 25, asks the provider for all their
    addresses at once, and routes each returned balance for a requested
    address to the reply target of the last request for that address. A
    balance for an address nobody requested reaches no one. A failed batch
    is put back on the worker's input.

    As for Blockcypher, the loop is specified by `Step` on an explicit
    `State`, and the class `Blockonomics` is proved to follow it. */
module BlockonomicsCo {
  import opened Common

  /** Most addresses in one request. */
  const BatchLimit := 25
  const WorkerName := "blockonomics"

  /** Stands for the reply channel a requester hands in with its address. */
  type ReplyId = nat

  datatype Request = Request(address: string, replyTo: ReplyId)

  /** One balance of the provider's reply. */
  datatype Balance = Balance(addr: string, confirmed: int, unconfirmed: int)

  /** A result on its way to the reply target it was routed to. */
  datatype Routed = Routed(target: ReplyId, result: Result)

  /** What the worker's `select` can observe. The loop has no stop case.
      Each event carries the reply the provider gives if it makes the
      worker flush. */
  datatype Event =
    | Receive(reply: Reply<seq<Balance>>)
    | Timeout(reply: Reply<seq<Balance>>)

  /** The pending requests, the worker's input queue and every result
      routed so far. */
  datatype State = State(requests: seq<Request>, input: seq<Request>, routed: seq<Routed>)

  /** `do`: the balances of a decoded 200 reply; any other status, a
      transport error or an undecodable body is a failure. */
  function Do(reply: Reply<seq<Balance>>): (r: Option<seq<Balance>>)
    ensures r.Some? <==> reply.Succeeded()
    ensures r.Some? ==> r == reply.body
    ensures reply.Response? && reply.status != 200 ==> r == None
  {
    match reply
    case TransportError => None
    case Response(status, body) => if status != 200 then None else body
  }

  /** The address-to-reply-target map `process` builds: each request in
      turn binds its address, so a later request overrides an earlier one
      for the same address. */
  function ReplyTargets(requests: seq<Request>): (m: map<string, ReplyId>)
    ensures forall a :: a in m <==> exists k :: 0 <= k < |requests| && requests[k].address == a
  {
    if requests == [] then map[]
    else
      var last := requests[|requests| - 1];
      ReplyTargets(requests[..|requests| - 1])[last.address := last.replyTo]
  }

  /** The reply target of an address is that of the last request for it. */
  lemma {:induction false} LaterRequestWins(requests: seq<Request>, i: nat)
    requires i < |requests|
    requires forall j :: i < j < |requests| ==> requests[j].address != requests[i].address
    ensures requests[i].address in ReplyTargets(requests)
    ensures ReplyTargets(requests)[requests[i].address] == requests[i].replyTo
    decreases |requests|
  {
    if i < |requests| - 1 {
      LaterRequestWins(requests[..|requests| - 1], i);
    }
  }

  function ToResult(p: Balance): Result {
    Result(WorkerName, p.addr, p.confirmed + p.unconfirmed, p.confirmed, p.unconfirmed)
  }

  /** A routed result is labelled with this provider, totals its two
      amounts, and goes to the target recorded for its address. */
  ghost predicate Delivered(targets: map<string, ReplyId>, r: Routed) {
    && r.result.source == WorkerName
    && r.result.total == r.result.confirmed + r.result.unconfirmed
    && r.result.address in targets
    && r.target == targets[r.result.address]
  }

  /** The results of a successful reply, in reply order. A balance for an
      address nobody asked for is sent on a nil channel, which blocks
      forever, so it reaches no one. */
  function Routes(targets: map<string, ReplyId>, balances: seq<Balance>): (rs: seq<Routed>)
    ensures |rs| <= |balances|
    ensures forall k :: 0 <= k < |rs| ==> Delivered(targets, rs[k])
    ensures (forall j :: 0 <= j < |balances| ==> balances[j].addr in targets) ==>
      |rs| == |balances| &&
      forall k :: 0 <= k < |rs| ==>
        rs[k].result.address == balances[k].addr &&
        rs[k].result.confirmed == balances[k].confirmed &&
        rs[k].result.unconfirmed == balances[k].unconfirmed
    ensures forall j :: 0 <= j < |balances| && balances[j].addr in targets ==>
      Routed(targets[balances[j].addr], ToResult(balances[j])) in rs
  {
    if balances == [] then []
    else
      var p := balances[|balances| - 1];
      var rest := Routes(targets, balances[..|balances| - 1]);
      if p.addr in targets then rest + [Routed(targets[p.addr], ToResult(p))] else rest
  }

  /** Routing a reply split in two routes each part in turn: the results
      keep the reply's order and no balance is routed twice or lost. */
  lemma {:induction false} RoutesAppend(targets: map<string, ReplyId>, xs: seq<Balance>, ys: seq<Balance>)
    ensures Routes(targets, xs + ys) == Routes(targets, xs) + Routes(targets, ys)
    decreases |ys|
  {
    if ys == [] {
      assert xs + ys == xs;
    } else {
      var init := ys[..|ys| - 1];
      RoutesAppend(targets, xs, init);
      assert (xs + ys)[..|xs + ys| - 1] == xs + init;
      assert (xs + ys)[|xs + ys| - 1] == ys[|ys| - 1];
    }
  }

  /** A single balance yields exactly one result, with its own amounts and
      the target recorded for its address, or none when its address was
      not requested. */
  lemma RoutesOne(targets: map<string, ReplyId>, p: Balance)
    ensures p.addr in targets ==> Routes(targets, [p]) == [Routed(targets[p.addr], ToResult(p))]
    ensures p.addr !in targets ==> Routes(targets, [p]) == []
  {
    assert [p][..0] == [];
  }

  /** A reply that repeats a requested address and also holds one nobody
      asked for: each requested balance is routed once, in reply order, and
      the other is dropped. */
  lemma MixedReplyRoutesRequestedOnly()
    ensures var a := Balance("a", 5, 1);
      Routes(map["a" := 7], [a, Balance("z", 1, 1), a]) ==
        [Routed(7, Result(WorkerName, "a", 6, 5, 1)), Routed(7, Result(WorkerName, "a", 6, 5, 1))]
  {
    var t := map["a" := 7];
    var a, z := Balance("a", 5, 1), Balance("z", 1, 1);
    RoutesAppend(t, [a, z], [a]);
    RoutesAppend(t, [a], [z]);
    RoutesOne(t, a);
    RoutesOne(t, z);
    assert [a] + [z] == [a, z];
    assert [a, z] + [a] == [a, z, a];
  }

  /** The effect of `process`: routed results on success, every request
      back on the input otherwise. */
  function Processed(s: State, requests: seq<Request>, reply: Reply<seq<Balance>>): State
  {
    match Do(reply)
    case None => s.(input := s.input + requests)
    case Some(balances) => s.(routed := s.routed + Routes(ReplyTargets(requests), balances))
  }

  /** One turn of the worker's loop. */
  function Step(s: State, e: Event): State
  {
    match e
    case Receive(reply) =>
      if s.input == [] then s
      else
        var batch := s.requests + [s.input[0]];
        var t := s.(input := s.input[1..]);
        if |batch| == BatchLimit then Processed(t, batch, reply).(requests := [])
        else t.(requests := batch)
    case Timeout(reply) =>
      if s.requests == [] then s else Processed(s, s.requests, reply).(requests := [])
  }

  function Run(s: State, events: seq<Event>): State
    decreases |events|
  {
    if events == [] then s else Step(Run(s, events[..|events| - 1]), events[|events| - 1])
  }

  lemma RunSnoc(s: State, events: seq<Event>, e: Event)
    ensures Run(s, events + [e]) == Step(Run(s, events), e)
  {
    assert (events + [e])[..|events|] == events;
  }

  /** Between events the pending batch holds fewer than `BatchLimit`
      requests. */
  lemma {:induction false} BatchStaysUnderLimit(s: State, events: seq<Event>)
    requires |s.requests| < BatchLimit
    ensures |Run(s, events).requests| < BatchLimit
    decreases |events|
  {
    if events != [] {
      BatchStaysUnderLimit(s, events[..|events| - 1]);
    }
  }

  /** An arrival joins the batch and flushes it exactly when it reaches
      `BatchLimit`; otherwise only the batch and the input change. */
  lemma ReceiveFlushesIff(s: State, reply: Reply<seq<Balance>>)
    requires s.input != []
    ensures Step(s, Receive(reply)).requests == [] <==> |s.requests| + 1 == BatchLimit
    ensures |s.requests| + 1 != BatchLimit ==>
      Step(s, Receive(reply)) == s.(requests := s.requests + [s.input[0]], input := s.input[1..])
    ensures |s.requests| + 1 == BatchLimit ==>
      var t := Step(s, Receive(reply)); var batch := s.requests + [s.input[0]];
      && (!reply.Succeeded() ==> t.input == s.input[1..] + batch && t.routed == s.routed)
      && (reply.Succeeded() ==>
            t.input == s.input[1..] &&
            t.routed == s.routed + Routes(ReplyTargets(batch), reply.body.value))
  {
  }

  /** A timeout flushes a non-empty batch, requeueing or routing it, and
      ignores an empty one. */
  lemma TimeoutFlushes(s: State, reply: Reply<seq<Balance>>)
    ensures s.requests == [] ==> Step(s, Timeout(reply)) == s
    ensures s.requests != [] ==> var t := Step(s, Timeout(reply));
      && t.requests == []
      && (!reply.Succeeded() ==> t.input == s.input + s.requests && t.routed == s.routed)
      && (reply.Succeeded() ==>
            t.input == s.input &&
            t.routed == s.routed + Routes(ReplyTargets(s.requests), reply.body.value))
  {
  }

  /** A failed call puts every request of the batch back on the input, in
      order, and routes nothing; a successful one routes the reply's
      balances and leaves the input alone. */
  lemma FlushOutcome(s: State, requests: seq<Request>, reply: Reply<seq<Balance>>)
    ensures var t := Processed(s, requests, reply);
      && t.requests == s.requests
      && (!reply.Succeeded() ==> t.input == s.input + requests && t.routed == s.routed)
      && (reply.Succeeded() ==>
            t.input == s.input &&
            t.routed == s.routed + Routes(ReplyTargets(requests), reply.body.value))
  {
  }

  /** One address alone is not sent until the timeout; then it is sent by
      itself and its balance is routed back to its requester. */
  lemma SingleRequestWaitsForTimeout(a: string, to: ReplyId, confirmed: int, unconfirmed: int)
    ensures var s1 := Step(State([], [Request(a, to)], []), Receive(TransportError));
      s1.requests == [Request(a, to)] && s1.routed == []
    ensures var r := Run(State([], [Request(a, to)], []),
                         [Receive(TransportError), Timeout(Response(200, Some([Balance(a, confirmed, unconfirmed)])))]);
      r.requests == [] && r.input == [] &&
      r.routed == [Routed(to, Result(WorkerName, a, confirmed + unconfirmed, confirmed, unconfirmed))]
  {
    var e1, e2 := Receive(TransportError), Timeout(Response(200, Some([Balance(a, confirmed, unconfirmed)])));
    var s0 := State([], [Request(a, to)], []);
    var s1 := State([Request(a, to)], [], []);
    assert Run(s0, [e1]) == s1 by {
      RunSnoc(s0, [], e1);
      assert [] + [e1] == [e1];
    }
    RunSnoc(s0, [e1], e2);
    assert [e1] + [e2] == [e1, e2];
    var targets := ReplyTargets([Request(a, to)]);
    assert [Request(a, to)][..0] == [];
    assert targets == map[a := to];
    assert [Balance(a, confirmed, unconfirmed)][..0] == [];
  }

  /** The first loop of `process`: the batch's addresses in request order
      and the address-to-reply-target map. */
  method CollectTargets(requests: seq<Request>) returns (addresses: seq<string>, addrToChan: map<string, ReplyId>)
    ensures |addresses| == |requests|
    ensures forall k :: 0 <= k < |requests| ==> addresses[k] == requests[k].address
    ensures addrToChan == ReplyTargets(requests)
  {
    addresses := [];
    addrToChan := map[];
    for i := 0 to |requests|
      invariant |addresses| == i
      invariant forall k :: 0 <= k < i ==> addresses[k] == requests[k].address
      invariant addrToChan == ReplyTargets(requests[..i])
    {
      addresses := addresses + [requests[i].address];
      addrToChan := addrToChan[requests[i].address := requests[i].replyTo];
      assert requests[..i + 1][..i] == requests[..i];
    }
    assert requests[..|requests|] == requests;
  }

  /** Resubmits requests to a channel, in order (the counterpart of
      `SubmitAddresses` for requests). */
  method SubmitRequests(requests: seq<Request>, ch: Channel<Request>)
    modifies ch
    ensures ch.items == old(ch.items) + requests
  {
    for i := 0 to |requests|
      invariant ch.items == old(ch.items) + requests[..i]
    {
      ch.Send(requests[i]);
      assert requests[..i + 1] == requests[..i] + [requests[i]];
    }
    assert requests[..|requests|] == requests;
  }

  /** The Blockonomics worker object. `replies` stands for the requesters'
      reply channels: a send to target `t` appends a `Routed` with `t`. */
  class Blockonomics {
    const name: string
    const input: Channel<Request>

    ghost predicate Valid() {
      name == WorkerName
    }

    ghost function Snapshot(requests: seq<Request>, replies: Channel<Routed>): State
      reads input, replies
    {
      State(requests, input.items, replies.items)
    }

    /** `NewBlockonomics`: the worker with its own, empty request channel. */
    constructor ()
      ensures Valid() && fresh(input) && input.items == []
    {
      name := WorkerName;
      input := new Channel();
    }

    /** The event loop. It never stops by itself; `pending` is the batch
        it holds when the schedule runs out. */
    method Start(events: seq<Event>, replies: Channel<Routed>) returns (pending: seq<Request>)
      requires Valid() && replies as object != input
      modifies input, replies
      ensures Snapshot(pending, replies) == Run(old(Snapshot([], replies)), events)
    {
      ghost var init := Snapshot([], replies);
      var requests: seq<Request> := [];
      for i := 0 to |events|
        invariant Snapshot(requests, replies) == Run(init, events[..i])
      {
        match events[i] {
          case Receive(reply) =>
            if input.items != [] {
              var request := input.Receive();
              requests := requests + [request];
              if |requests| == BatchLimit {
                Process(requests, reply, replies);
                requests := [];
              }
            }
          case Timeout(reply) =>
            if |requests| > 0 {
              Process(requests, reply, replies);
              requests := [];
            }
        }
        assert events[..i + 1][..i] == events[..i];
      }
      assert events[..|events|] == events;
      pending := requests;
    }

    /** `process`: routes the results of a successful reply to their
        requesters, or resubmits the whole batch. */
    method Process(requests: seq<Request>, reply: Reply<seq<Balance>>, replies: Channel<Routed>)
      requires Valid() && replies as object != input
      modifies input, replies
      ensures Snapshot([], replies) == Processed(old(Snapshot([], replies)), requests, reply)
    {
      var addresses, addrToChan := CollectTargets(requests);
      var resp := Do(reply);
      if resp.None? {
        SubmitRequests(requests, input);
        return;
      }
      Emit(addrToChan, resp.value, replies);
    }

    /** The second loop of `process`: one result per returned balance, sent
        to the reply target recorded for its address. */
    method Emit(addrToChan: map<string, ReplyId>, balances: seq<Balance>, replies: Channel<Routed>)
      requires Valid()
      modifies replies
      ensures replies.items == old(replies.items) + Routes(addrToChan, balances)
    {
      for i := 0 to |balances|
        invariant replies.items == old(replies.items) + Routes(addrToChan, balances[..i])
      {
        var p := balances[i];
        var h := Result(name, p.addr, p.confirmed + p.unconfirmed, p.confirmed, p.unconfirmed);
        if p.addr in addrToChan {
          replies.Send(Routed(addrToChan[p.addr], h));
        }
        ghost var done := balances[..i + 1];
        assert done[..i] == balances[..i] && done[i] == p;
        assert Routes(addrToChan, done) == Routes(addrToChan, balances[..i]) +
          (if p.addr in addrToChan then [Routed(addrToChan[p.addr], ToResult(p))] else []);
      }
      assert balances[..|balances|] == balances;
    }
  }
}
