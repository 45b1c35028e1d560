/** Vocabulary shared by the balance workers: the result record, the
    outcome of one call to a provider, channels, the worker descriptor,
    the worker set and the submission helper. */
module Common {

  datatype Option<+T> = None | Some(value: T)

  /** The balance of one address as reported by one provider. Amounts
      are in satoshi, so they are modelled as integers. */
  datatype Result = Result(source: string, address: string, total: int, confirmed: int, unconfirmed: int)

  /** What one HTTP request to a provider came back with: the transport
      failed, or a response arrived with a status code and a body that
      decoded (`Some`) or did not (`None`). */
  datatype Reply<+B> = TransportError | Response(status: int, body: Option<B>)
  {
    /** The only reply a worker turns into results. */
    predicate Succeeded() {
      Response? && status == 200 && body.Some?
    }
  }

  /** A channel, seen as a FIFO queue: a send appends at the back and a
      receive takes the front. */
  class Channel<T> {
    var items: seq<T>

    constructor ()
      ensures items == []
    {
      items := [];
    }

    method Send(x: T)
      modifies this
      ensures items == old(items) + [x]
    {
      items := items + [x];
    }

    /** Only a channel holding a value can be received from; a `select`
        case on an empty channel is never chosen. */
    method Receive() returns (x: T)
      requires items != []
      modifies this
      ensures old(items) == [x] + items
    {
      x := items[0];
      items := items[1..];
    }
  }

  /** The fields nearly every worker has: its name and the shared input,
      output and stop handles. */
  datatype W = W(name: string, input: Channel<string>, output: Channel<Result>, stop: Channel<()>)
  {
    function Name(): string {
      name
    }
  }

  /** The worker set of the pool: Blockonomics, then Blockcypher, every
      one bound to the same three handles. */
  function WorkersAll(input: Channel<string>, output: Channel<Result>, exit: Channel<()>): (ws: seq<W>)
    ensures |ws| == 2
    ensures ws[0].Name() == "blockonomics" && ws[1].Name() == "blockcypher"
    ensures forall k :: 0 <= k < |ws| ==> ws[k].input == input && ws[k].output == output && ws[k].stop == exit
  {
    [W("blockonomics", input, output, exit), W("blockcypher", input, output, exit)]
  }

  /** Puts every address on the channel, in order. */
  method SubmitAddresses(addrs: seq<string>, ch: Channel<string>)
    modifies ch
    ensures ch.items == old(ch.items) + addrs
    ensures |ch.items| == |old(ch.items)| + |addrs|
    ensures multiset(ch.items) == multiset(old(ch.items)) + multiset(addrs)
    ensures addrs == [] ==> ch.items == old(ch.items)
  {
    for i := 0 to |addrs|
      invariant ch.items == old(ch.items) + addrs[..i]
    {
      ch.Send(addrs[i]);
      assert addrs[..i + 1] == addrs[..i] + [addrs[i]];
    }
    assert addrs[..|addrs|] == addrs;
  }
}
