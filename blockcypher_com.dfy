/** The Blockcypher worker. It takes addresses from the shared input into a
    batch of at most three, charges the batches it sends on arrival (but not
    those a timeout sends) to a counter checked against the provider's quota
    of 200 per UTC hour, turns a successful reply into results on the
    shared output, and puts a failed batch back on the input.

    The worker's event loop is specified by `Step` on an explicit `State`;
    the class `Blockcypher` runs the same loop on its fields and channels
    and is proved to end in the state `Run` gives. */
module BlockcypherCom {
  import opened Common

  /** Most addresses in one request. */
  const BatchLimit := 3
  /** Addresses the provider answers per UTC hour. */
  const HourlyLimit := 200
  /** One hour in nanoseconds (Go's `time.Hour`). */
  const Hour := 3_600_000_000_000
  const WorkerName := "blockcypher"

  /** One balance record of the provider's reply. */
  datatype Record = Record(addr: string, confirmed: int, unconfirmed: int, total: int)

  /** What the worker's `select` can observe. `Receive` and `Timeout` carry
      the reply the provider gives if the event makes the worker flush. */
  datatype Event =
    | Receive(reply: Reply<seq<Record>>)
    | Timeout(reply: Reply<seq<Record>>)
    | HourTick(now: int)
    | Stop

  /** The pending batch, the hourly counter, the time of the last reset,
      the shared input queue, the shared output stream, and whether the
      loop still runs. */
  datatype State = State(
    batch: seq<string>,
    count: int,
    lastUTCReset: int,
    input: seq<string>,
    output: seq<Result>,
    running: bool)

  predicate RateLimited(reply: Reply<seq<Record>>) {
    reply.Response? && reply.status == 429
  }

  /** What one call to the provider yields: the records, or `None` for a
      failure, and the hourly counter afterwards. */
  datatype Called = Called(records: Option<seq<Record>>, count: int)

  function CallOutcome(count: int, reply: Reply<seq<Record>>): Called
  {
    match reply
    case TransportError => Called(None, count)
    case Response(status, body) =>
      if status != 200 then
        Called(None, if status == 429 then HourlyLimit else count)
      else
        Called(body, count)
  }

  /** A call succeeds exactly on a decoded 200 reply; 429 saturates the
      counter and every other reply leaves it alone. */
  lemma CallOutcomeCases(count: int, reply: Reply<seq<Record>>)
    ensures CallOutcome(count, reply).records.Some? <==> reply.Succeeded()
    ensures reply.Succeeded() ==> CallOutcome(count, reply).records == reply.body
    ensures CallOutcome(count, reply).count == if RateLimited(reply) then HourlyLimit else count
  {
  }

  /** One result per record, in record order, with every field copied. */
  function Results(recs: seq<Record>): (rs: seq<Result>)
    ensures |rs| == |recs|
    ensures forall k :: 0 <= k < |recs| ==>
      rs[k].source == WorkerName && rs[k].address == recs[k].addr &&
      rs[k].confirmed == recs[k].confirmed && rs[k].unconfirmed == recs[k].unconfirmed &&
      rs[k].total == recs[k].total
  {
    if recs == [] then []
    else
      var p := recs[|recs| - 1];
      Results(recs[..|recs| - 1]) + [Result(WorkerName, p.addr, p.total, p.confirmed, p.unconfirmed)]
  }

  /** The effect of `process` on the state: results on success, the
      addresses back on the input otherwise. */
  function Processed(s: State, addresses: seq<string>, reply: Reply<seq<Record>>): State
  {
    var c := CallOutcome(s.count, reply);
    match c.records
    case None => s.(count := c.count, input := s.input + addresses)
    case Some(recs) => s.(count := c.count, output := s.output + Results(recs))
  }

  /** An arrival flushes when the batch is full or uses up what is left of
      the hourly quota. */
  predicate FlushDue(n: int, count: int) {
    n == BatchLimit || n == HourlyLimit - count
  }

  /** One turn of the worker's loop. */
  function Step(s: State, e: Event): State
  {
    if !s.running then s
    else match e
      case Receive(reply) =>
        if s.input == [] then s
        else
          var batch := s.batch + [s.input[0]];
          var t := s.(batch := batch, input := s.input[1..]);
          if FlushDue(|batch|, s.count) then
            Processed(t.(count := s.count + |batch|), batch, reply).(batch := [])
          else
            t
      case Timeout(reply) =>
        // the counter is raised by the length of the already cleared batch
        if s.batch == [] then s else Processed(s, s.batch, reply).(batch := [])
      case HourTick(now) => s.(count := 0, lastUTCReset := now)
      case Stop => s.(running := false)
  }

  function Run(s: State, events: seq<Event>): State
    decreases |events|
  {
    if events == [] then s else Step(Run(s, events[..|events| - 1]), events[|events| - 1])
  }

  lemma {:induction false} RunAppend(s: State, xs: seq<Event>, ys: seq<Event>)
    ensures Run(s, xs + ys) == Run(Run(s, xs), ys)
    decreases |ys|
  {
    if ys == [] {
      assert xs + ys == xs;
    } else {
      assert (xs + ys)[..|xs + ys| - 1] == xs + ys[..|ys| - 1];
      RunAppend(s, xs, ys[..|ys| - 1]);
    }
  }

  lemma RunSnoc(s: State, events: seq<Event>, e: Event)
    ensures Run(s, events + [e]) == Step(Run(s, events), e)
  {
    assert (events + [e])[..|events|] == events;
  }

  /** A stopped worker ignores every later event. */
  lemma {:induction false} RunStopped(s: State, events: seq<Event>)
    requires !s.running
    ensures Run(s, events) == s
    decreases |events|
  {
    if events != [] {
      RunStopped(s, events[..|events| - 1]);
    }
  }

  /** Once the loop has returned, the rest of the schedule changes nothing. */
  lemma RunAfterStop(s: State, done: seq<Event>, rest: seq<Event>)
    requires !Run(s, done).running
    ensures Run(s, done + rest) == Run(s, done)
  {
    RunAppend(s, done, rest);
    RunStopped(Run(s, done), rest);
  }

  /** Between events the pending batch holds fewer than `BatchLimit`
      addresses. */
  lemma {:induction false} BatchStaysUnderLimit(s: State, events: seq<Event>)
    requires |s.batch| < BatchLimit
    ensures |Run(s, events).batch| < BatchLimit
    decreases |events|
  {
    if events != [] {
      BatchStaysUnderLimit(s, events[..|events| - 1]);
    }
  }

  /** On an arrival the address leaves the input and joins the batch; the
      batch is flushed exactly when its new length is `BatchLimit` or what
      is left of the quota, and otherwise nothing else changes. */
  lemma ReceiveFlushesIff(s: State, reply: Reply<seq<Record>>)
    requires s.running && s.input != []
    ensures var t := Step(s, Receive(reply));
      t.batch == [] <==> FlushDue(|s.batch| + 1, s.count)
    ensures !FlushDue(|s.batch| + 1, s.count) ==>
      Step(s, Receive(reply)) == s.(batch := s.batch + [s.input[0]], input := s.input[1..])
  {
  }

  /** An arrival that flushes charges the whole batch to the counter before
      the call and does not refund it on failure; only a 429 overrides it.
      A failed batch goes back to the input, a successful one becomes
      results. The loop goes on. */
  lemma ArrivalFlushCharges(s: State, reply: Reply<seq<Record>>)
    requires s.running && s.input != [] && FlushDue(|s.batch| + 1, s.count)
    ensures var t := Step(s, Receive(reply)); var batch := s.batch + [s.input[0]];
      && t.batch == []
      && t.running && t.lastUTCReset == s.lastUTCReset
      && t.count == (if RateLimited(reply) then HourlyLimit else s.count + |batch|)
      && (reply.Succeeded() ==> t.input == s.input[1..] && t.output == s.output + Results(reply.body.value))
      && (!reply.Succeeded() ==> t.input == s.input[1..] + batch && t.output == s.output)
  {
  }

  /** A timeout flushes a non-empty batch and empties it without charging
      the counter, and the loop goes on; on an empty batch it changes
      nothing. */
  lemma TimeoutFlushes(s: State, reply: Reply<seq<Record>>)
    requires s.running
    ensures s.batch == [] ==> Step(s, Timeout(reply)) == s
    ensures s.batch != [] ==> var t := Step(s, Timeout(reply));
      && t.batch == []
      && t.running && t.lastUTCReset == s.lastUTCReset
      && t.count == (if RateLimited(reply) then HourlyLimit else s.count)
      && (reply.Succeeded() ==> t.input == s.input && t.output == s.output + Results(reply.body.value))
      && (!reply.Succeeded() ==> t.input == s.input + s.batch && t.output == s.output)
  {
  }

  /** The hourly tick resets the counter, leaves the batch alone and keeps
      the loop going; a stop ends the loop and abandons the batch without a
      flush, changing nothing else. */
  lemma TickAndStop(s: State, now: int, later: seq<Event>)
    requires s.running
    ensures var t := Step(s, HourTick(now));
      t.running && t.count == 0 && t.lastUTCReset == now && t.batch == s.batch && t.input == s.input && t.output == s.output
    ensures var t := Step(s, Stop);
      !t.running && t.batch == s.batch && t.count == s.count && t.lastUTCReset == s.lastUTCReset &&
      t.input == s.input && t.output == s.output
    ensures Run(Step(s, Stop), later) == Step(s, Stop)
  {
    RunStopped(Step(s, Stop), later);
  }

  /** The worker as the pool starts it: empty batch, counter zero. */
  function Fresh(input: seq<string>, now: int): State {
    State([], 0, now, input, [], true)
  }

  /** Three addresses submitted before any timeout are sent in one request,
      and a successful reply yields their three results. */
  lemma ThreeArrivalsFlushOnce(a: string, b: string, c: string, recs: seq<Record>)
    requires |recs| == 3
    ensures var r := Run(Fresh([a, b, c], 0), [Receive(TransportError), Receive(TransportError), Receive(Response(200, Some(recs)))]);
      r.batch == [] && r.input == [] && r.count == 3 && r.output == Results(recs) && |r.output| == 3
  {
    var e1, e3 := Receive(TransportError), Receive(Response(200, Some(recs)));
    var s0 := Fresh([a, b, c], 0);
    RunSnoc(s0, [], e1);
    RunSnoc(s0, [e1], e1);
    RunSnoc(s0, [e1, e1], e3);
    assert [] + [e1] == [e1] && [e1] + [e1] == [e1, e1] && [e1, e1] + [e3] == [e1, e1, e3];
    var s1 := Step(s0, e1);
    assert s1.batch == [a] && s1.input == [b, c] && s1.count == 0;
    var s2 := Step(s1, e1);
    assert s2.batch == [a, b] && s2.input == [c] && s2.count == 0;
    assert Step(s2, e3) == s2.(batch := [], input := [], count := 3, output := [] + Results(recs));
    assert [] + Results(recs) == Results(recs);
  }

  /** When the call for those three addresses fails at the transport, all
      three are back on the input and no result is published. */
  lemma ThreeArrivalsRequeued(a: string, b: string, c: string)
    ensures var r := Run(Fresh([a, b, c], 0), [Receive(TransportError), Receive(TransportError), Receive(TransportError)]);
      r.batch == [] && r.input == [a, b, c] && r.output == [] && r.count == 3
  {
    var e := Receive(TransportError);
    var s0 := Fresh([a, b, c], 0);
    RunSnoc(s0, [], e);
    RunSnoc(s0, [e], e);
    RunSnoc(s0, [e, e], e);
    var s1 := Step(s0, e);
    assert s1.batch == [a] && s1.input == [b, c];
    var s2 := Step(s1, e);
    assert s2.batch == [a, b] && s2.input == [c] && s2.count == 0;
    assert Step(s2, e) == s2.(batch := [], input := [a, b, c], count := 3);
  }

  /** With one address of quota left, the first arrival is flushed alone. */
  lemma LastQuotaSlotFlushesAlone(s: State, reply: Reply<seq<Record>>)
    requires s.running && s.batch == [] && s.count == HourlyLimit - 1 && s.input != []
    ensures Step(s, Receive(reply)).batch == []
    ensures Step(s, Receive(reply)).count == HourlyLimit
    ensures !reply.Succeeded() ==> Step(s, Receive(reply)).input == s.input[1..] + [s.input[0]]
  {
  }

  /** Nanoseconds from `now` to the next UTC hour boundary. The argument
      `t` is ignored: the source reads the clock instead, given here as
      `now` (nanoseconds since the Unix epoch). */
  function DurationTillNextUTCHour(t: int, now: int): (d: int)
    ensures 0 < d <= Hour
    ensures OnHourBoundary(now + d)
    ensures forall b :: now < b && OnHourBoundary(b) ==> now + d <= b
  {
    NextBoundaryIsFirst(now);
    Hour - now % Hour
  }

  predicate OnHourBoundary(instant: int) {
    instant % Hour == 0
  }

  lemma NextBoundaryIsFirst(now: int)
    ensures forall b :: now < b && OnHourBoundary(b) ==> now - now % Hour + Hour <= b
  {
    forall b | now < b && OnHourBoundary(b)
      ensures now - now % Hour + Hour <= b
    {
      assert b == (b / Hour) * Hour;
      assert now == (now / Hour) * Hour + now % Hour;
      assert now / Hour < b / Hour;
    }
  }

  /** The Blockcypher worker object. */
  class Blockcypher {
    const w: W
    var currentHourlyCount: int
    var lastUTCReset: int

    ghost predicate Valid() {
      w.name == WorkerName && w.input as object != w.output as object
    }

    /** The worker's state, given the batch held in `Start`'s local
        variable and whether the loop still runs. */
    ghost function Snapshot(batch: seq<string>, running: bool): State
      reads this, w.input, w.output
    {
      State(batch, currentHourlyCount, lastUTCReset, w.input.items, w.output.items, running)
    }

    /** `NewBlockcypher`: the descriptor the pool lists for this worker,
        a zero counter and the reset time `now`. */
    constructor (input: Channel<string>, output: Channel<Result>, stop: Channel<()>, now: int)
      requires input as object != output as object
      ensures Valid()
      ensures w == WorkersAll(input, output, stop)[1] && w.Name() == WorkerName
      ensures currentHourlyCount == 0 && lastUTCReset == now
    {
      w := W(WorkerName, input, output, stop);
      currentHourlyCount := 0;
      lastUTCReset := now;
    }

    /** The event loop. It returns when it handles a stop, or when the
        schedule runs out; `pending` is the batch it holds then. */
    method Start(events: seq<Event>) returns (pending: seq<string>, running: bool)
      requires Valid()
      modifies this, w.input, w.output
      ensures Snapshot(pending, running) == Run(old(Snapshot([], true)), events)
    {
      ghost var init := Snapshot([], true);
      var addresses: seq<string> := [];
      running := true;
      var i := 0;
      while i < |events| && running
        invariant 0 <= i <= |events|
        invariant Snapshot(addresses, running) == Run(init, events[..i])
      {
        // At the hourly limit the source sleeps until the next UTC hour
        // here; sleeping changes none of the worker's state.
        match events[i] {
          case Receive(reply) =>
            if w.input.items != [] {
              var address := w.input.Receive();
              addresses := addresses + [address];
              if |addresses| == BatchLimit || |addresses| == HourlyLimit - currentHourlyCount {
                currentHourlyCount := currentHourlyCount + |addresses|;
                Process(addresses, reply);
                addresses := [];
              }
            }
          case Timeout(reply) =>
            if |addresses| > 0 {
              Process(addresses, reply);
              addresses := [];
              currentHourlyCount := currentHourlyCount + |addresses|;
            }
          case HourTick(now) =>
            lastUTCReset := now;
            currentHourlyCount := 0;
          case Stop =>
            running := false;
        }
        assert events[..i + 1][..i] == events[..i];
        i := i + 1;
      }
      if i < |events| {
        RunAfterStop(init, events[..i], events[i..]);
        assert events[..i] + events[i..] == events;
      } else {
        assert events[..i] == events;
      }
      pending := addresses;
    }

    /** `do`: one request for the batch. A 429 sets the counter to the
        hourly limit; every reply but a decoded 200 is a failure. */
    method Do(addresses: seq<string>, reply: Reply<seq<Record>>) returns (records: Option<seq<Record>>)
      modifies this`currentHourlyCount
      ensures Called(records, currentHourlyCount) == CallOutcome(old(currentHourlyCount), reply)
    {
      match reply {
        case TransportError =>
          records := None;
        case Response(status, body) =>
          if status != 200 {
            if status == 429 {
              currentHourlyCount := HourlyLimit;
            }
            records := None;
          } else {
            records := body;
          }
      }
    }

    /** `process`: results on the output on success, the batch back on the
        input on failure. */
    method Process(addresses: seq<string>, reply: Reply<seq<Record>>)
      requires Valid()
      modifies this`currentHourlyCount, w.input, w.output
      ensures Snapshot([], true) == Processed(old(Snapshot([], true)), addresses, reply)
    {
      var resp := Do(addresses, reply);
      if resp.None? {
        SubmitAddresses(addresses, w.input);
        return;
      }
      var recs := resp.value;
      for i := 0 to |recs|
        invariant w.output.items == old(w.output.items) + Results(recs[..i])
        invariant w.input.items == old(w.input.items)
        invariant currentHourlyCount == CallOutcome(old(currentHourlyCount), reply).count
      {
        var p := recs[i];
        w.output.Send(Result(w.Name(), p.addr, p.total, p.confirmed, p.unconfirmed));
        assert recs[..i + 1][..i] == recs[..i];
      }
      assert recs[..|recs|] == recs;
    }
  }

  // ---------------------------------------------------------------------
  // The quota accounting as evidently intended.

  /** The loop with the two corrections: a timeout flush charges its batch
      to the counter, and while the counter is at the limit the worker
      sleeps, so no arrival or timeout is handled until the hourly tick. */
  function StepIntended(s: State, e: Event): State
  {
    if !s.running then s
    else match e
      case Receive(_) =>
        if s.count >= HourlyLimit then s else Step(s, e)
      case Timeout(reply) =>
        if s.count >= HourlyLimit || s.batch == [] then s
        else Processed(s.(count := s.count + |s.batch|), s.batch, reply).(batch := [])
      case _ => Step(s, e)
  }

  function RunIntended(s: State, events: seq<Event>): State
    decreases |events|
  {
    if events == [] then s else StepIntended(RunIntended(s, events[..|events| - 1]), events[|events| - 1])
  }

  /** The counter never exceeds the quota, and a pending batch always fits
      in what is left of it. */
  ghost predicate WithinQuota(s: State) {
    0 <= s.count <= HourlyLimit
    && |s.batch| < BatchLimit
    && (s.batch != [] ==> s.count + |s.batch| < HourlyLimit)
  }

  /** With the corrections, a timeout flush charges every address it sends. */
  lemma IntendedTimeoutFlushCharges(s: State, reply: Reply<seq<Record>>)
    requires s.running && s.batch != [] && s.count < HourlyLimit && !RateLimited(reply)
    ensures StepIntended(s, Timeout(reply)).count == s.count + |s.batch|
    ensures StepIntended(s, Timeout(reply)).batch == []
  {
  }

  lemma IntendedStepWithinQuota(s: State, e: Event)
    requires WithinQuota(s)
    ensures WithinQuota(StepIntended(s, e))
  {
  }

  /** With the corrections, the counter stays within the quota through any
      schedule of events. */
  lemma {:induction false} IntendedQuotaNeverExceeded(s: State, events: seq<Event>)
    requires WithinQuota(s)
    ensures WithinQuota(RunIntended(s, events))
    ensures RunIntended(s, events).count <= HourlyLimit
    decreases |events|
  {
    if events != [] {
      IntendedQuotaNeverExceeded(s, events[..|events| - 1]);
      IntendedStepWithinQuota(RunIntended(s, events[..|events| - 1]), events[|events| - 1]);
    }
  }

  /** As written: an address sent on a timeout is never counted. One
      address arrives and times out; its result is published and the
      counter is still zero. */
  lemma TimeoutFlushGoesUncounted(a: string)
    ensures var r := Run(Fresh([a], 0), [Receive(TransportError), Timeout(Response(200, Some([Record(a, 5, 0, 5)])))]);
      r.count == 0 && |r.output| == 1 && r.batch == [] && r.input == []
  {
    var e1, e2 := Receive(TransportError), Timeout(Response(200, Some([Record(a, 5, 0, 5)])));
    var s0 := Fresh([a], 0);
    RunSnoc(s0, [], e1);
    RunSnoc(s0, [e1], e2);
    var s1 := Step(s0, e1);
    assert s1.batch == [a] && s1.input == [] && s1.count == 0;
    assert |Results([Record(a, 5, 0, 5)])| == 1;
  }

  /** As written: after a 429 the counter is at the limit, yet arrivals are
      still handled, and a full batch takes the counter to 203. */
  lemma QuotaOverrun(x: string, a: string, b: string, c: string)
    ensures var r := Run(Fresh([x, a, b, c], 0),
      [Receive(TransportError), Timeout(Response(429, None)),
       Receive(TransportError), Receive(TransportError), Receive(Response(200, Some([]))) ]);
      r.count == HourlyLimit + 3 && r.input == [x]
  {
    var e1, e2, e3 := Receive(TransportError), Timeout(Response(429, None)), Receive(Response(200, Some([])));
    var s0 := Fresh([x, a, b, c], 0);
    var s1 := State([x], 0, 0, [a, b, c], [], true);
    var s2 := State([], HourlyLimit, 0, [a, b, c, x], [], true);
    var s3 := State([a], HourlyLimit, 0, [b, c, x], [], true);
    var s4 := State([a, b], HourlyLimit, 0, [c, x], [], true);
    assert Run(s0, [e1]) == s1 by {
      RunSnoc(s0, [], e1);
      assert [] + [e1] == [e1];
    }
    assert Run(s0, [e1, e2]) == s2 by {
      RunSnoc(s0, [e1], e2);
      assert [e1] + [e2] == [e1, e2];
    }
    assert Run(s0, [e1, e2, e1]) == s3 by {
      RunSnoc(s0, [e1, e2], e1);
      assert [e1, e2] + [e1] == [e1, e2, e1];
    }
    assert Run(s0, [e1, e2, e1, e1]) == s4 by {
      RunSnoc(s0, [e1, e2, e1], e1);
      assert [e1, e2, e1] + [e1] == [e1, e2, e1, e1];
    }
    RunSnoc(s0, [e1, e2, e1, e1], e3);
    assert [e1, e2, e1, e1] + [e3] == [e1, e2, e1, e1, e3];
    assert Step(s4, e3).count == HourlyLimit + 3 && Step(s4, e3).input == [x];
  }
}
