/** The Kafka transaction consumer loop (internal/infrastructure/kafka/consumer.go).
    The reader is an abstract sequence of read results. The handler (in the
    service, a closure around FraudDetector.Detect) keeps state between
    calls, so it is given by the outcome of each of its calls: `outcomes(k)`
    is what its k-th call returns, counting from 0. */
module KafkaConsumer {
  import opened Wrappers
  import opened Domain

  /** A message body: a JSON transaction, or bytes that do not decode as one. */
  datatype Payload = TransactionJson(tx: Transaction) | Malformed(text: string)

  /** One ReadMessage call: a message, or an error (cancellation included). */
  datatype ReadResult = Read(payload: Payload) | ReadFailed(error: string)

  /** The error lines the loop logs. */
  datatype LogEntry = ReadError(error: string) | ParseError | HandlerFailed(txId: string, error: string)

  function Decode(p: Payload): (r: Option<Transaction>)
    ensures r.Some? <==> p.TransactionJson?
  {
    if p.TransactionJson? then Some(p.tx) else None
  }

  /** Reading eventually fails: the loop has no exit other than a read
      error, so a run that ends is one whose reads reach a failure. */
  predicate EndsInReadError(stream: seq<ReadResult>) {
    |stream| > 0 && (stream[0].ReadFailed? || EndsInReadError(stream[1..]))
  }

  /** The position of the first failed read. */
  function FirstReadError(stream: seq<ReadResult>): (k: nat)
    requires EndsInReadError(stream)
    ensures k < |stream| && stream[k].ReadFailed?
    ensures forall i :: 0 <= i < k ==> stream[i].Read?
  {
    if stream[0].ReadFailed? then 0
    else
      var k := FirstReadError(stream[1..]);
      assert forall i :: 1 <= i < k + 1 ==> stream[i] == stream[1..][i - 1];
      k + 1
  }

  /** The messages the reader delivers before its first failed read. */
  function Delivered(stream: seq<ReadResult>): (ps: seq<Payload>)
    requires EndsInReadError(stream)
    ensures |ps| == FirstReadError(stream)
    ensures forall i :: 0 <= i < |ps| ==> stream[i] == Read(ps[i])
  {
    if stream[0].ReadFailed? then []
    else
      var rest := Delivered(stream[1..]);
      assert forall i :: 1 <= i < |rest| + 1 ==> stream[i] == stream[1..][i - 1];
      [stream[0].payload] + rest
  }

  /** The handler call one delivered message causes: none when it does not
      decode. */
  function CallOf(p: Payload): seq<Transaction> {
    match Decode(p)
    case None => []
    case Some(tx) => [tx]
  }

  /** The lines one delivered message logs, when a handler call it makes is
      call number `k`. */
  function LogOf(p: Payload, k: nat, outcomes: nat -> Outcome): seq<LogEntry> {
    match Decode(p)
    case None => [ParseError]
    case Some(tx) =>
      match outcomes(k)
      case Pass => []
      case Fail(e) => [HandlerFailed(tx.id, e)]
  }

  /** The handler calls made for a run of delivered messages: one per
      decodable message, in read order. */
  function Calls(msgs: seq<Payload>): seq<Transaction> {
    if msgs == [] then [] else CallOf(msgs[0]) + Calls(msgs[1..])
  }

  /** The lines logged for a run of delivered messages whose first handler
      call is call number `first`: each decodable message's call takes the
      next number. */
  function Logged(msgs: seq<Payload>, outcomes: nat -> Outcome, first: nat): seq<LogEntry> {
    if msgs == [] then []
    else LogOf(msgs[0], first, outcomes) + Logged(msgs[1..], outcomes, first + |CallOf(msgs[0])|)
  }

  /** Consume: read, skip what does not decode, call the handler and log its
      failure, until a read fails; that error is returned. There is no nil
      return. */
  method Consume(stream: seq<ReadResult>, outcomes: nat -> Outcome)
    returns (calls: seq<Transaction>, log: seq<LogEntry>, err: string)
    requires EndsInReadError(stream)
    ensures err == stream[FirstReadError(stream)].error
    ensures calls == Calls(Delivered(stream))
    ensures log == Logged(Delivered(stream), outcomes, 0) + [ReadError(err)]
  {
    var i := 0;
    calls, log := [], [];
    ghost var read: seq<Payload> := [];
    ghost var k := FirstReadError(stream);
    while true
      invariant 0 <= i <= k
      invariant |read| == i && forall j :: 0 <= j < i ==> stream[j] == Read(read[j])
      invariant calls == Calls(read)
      invariant log == Logged(read, outcomes, 0)
      decreases |stream| - i
    {
      if stream[i].ReadFailed? {
        assert i == k;
        assert read == Delivered(stream);
        log := log + [ReadError(stream[i].error)];
        err := stream[i].error;
        return;
      }
      var p := stream[i].payload;
      CallsOneMore(read, p);
      LoggedOneMore(read, p, outcomes, 0, |calls|);
      read := read + [p];
      i := i + 1;
      var decoded := Decode(p);
      if decoded.None? {
        assert CallOf(p) == [] && LogOf(p, |calls|, outcomes) == [ParseError];
        log := log + [ParseError];
        continue;
      }
      var tx := decoded.value;
      assert CallOf(p) == [tx];
      var outcome := outcomes(|calls|);
      if outcome.Fail? {
        assert LogOf(p, |calls|, outcomes) == [HandlerFailed(tx.id, outcome.error)];
        log := log + [HandlerFailed(tx.id, outcome.error)];
      } else {
        assert LogOf(p, |calls|, outcomes) == [];
      }
      calls := calls + [tx];
    }
  }

  /** One more delivered message adds its own handler call. */
  lemma CallsOneMore(prefix: seq<Payload>, p: Payload)
    ensures Calls(prefix + [p]) == Calls(prefix) + CallOf(p)
  {
    CallsSplit(prefix, [p]);
    assert [p][1..] == [];
  }

  /** One more delivered message adds its own log lines; its call, if any,
      is call number `k`, the one after those of the prefix. */
  lemma LoggedOneMore(prefix: seq<Payload>, p: Payload, outcomes: nat -> Outcome, first: nat, k: nat)
    requires k == first + |Calls(prefix)|
    ensures Logged(prefix + [p], outcomes, first) == Logged(prefix, outcomes, first) + LogOf(p, k, outcomes)
  {
    LoggedSplit(prefix, [p], outcomes, first);
    assert [p][1..] == [];
  }

  /** Handling distributes over concatenation: messages are handled in read
      order, and the second part's handler calls come after the first's. */
  lemma HandleSplits(a: seq<Payload>, b: seq<Payload>, outcomes: nat -> Outcome, first: nat)
    ensures Calls(a + b) == Calls(a) + Calls(b)
    ensures Logged(a + b, outcomes, first) == Logged(a, outcomes, first) + Logged(b, outcomes, first + |Calls(a)|)
  {
    CallsSplit(a, b);
    LoggedSplit(a, b, outcomes, first);
  }

  lemma {:induction false} CallsSplit(a: seq<Payload>, b: seq<Payload>)
    ensures Calls(a + b) == Calls(a) + Calls(b)
    decreases |a|
  {
    if a == [] {
      assert a + b == b;
    } else {
      var rest := a[1..];
      assert (a + b)[0] == a[0] && (a + b)[1..] == rest + b;
      CallsSplit(rest, b);
      CallsAssociate(CallOf(a[0]), Calls(rest), Calls(b));
    }
  }

  lemma CallsAssociate(x: seq<Transaction>, y: seq<Transaction>, z: seq<Transaction>)
    ensures x + (y + z) == (x + y) + z
  {
  }

  lemma {:induction false} LoggedSplit(a: seq<Payload>, b: seq<Payload>, outcomes: nat -> Outcome, first: nat)
    ensures Logged(a + b, outcomes, first) == Logged(a, outcomes, first) + Logged(b, outcomes, first + |Calls(a)|)
    decreases |a|
  {
    if a == [] {
      assert a + b == b;
    } else {
      var next := first + |CallOf(a[0])|;
      var rest := a[1..];
      assert (a + b)[0] == a[0] && (a + b)[1..] == rest + b;
      LoggedSplit(rest, b, outcomes, next);
      LogAssociates(LogOf(a[0], first, outcomes), Logged(rest, outcomes, next),
                    Logged(b, outcomes, next + |Calls(rest)|));
    }
  }

  lemma LogAssociates(x: seq<LogEntry>, y: seq<LogEntry>, z: seq<LogEntry>)
    ensures x + (y + z) == (x + y) + z
  {
  }

  /** The handler is called with exactly the transactions of the decodable
      messages, once for each message that decodes to it, and never more
      often than there are messages. */
  lemma CalledIffDecodable(msgs: seq<Payload>)
    ensures forall tx :: tx in Calls(msgs) <==> TransactionJson(tx) in msgs
    ensures forall tx :: multiset(Calls(msgs))[tx] == multiset(msgs)[TransactionJson(tx)]
    ensures |Calls(msgs)| <= |msgs|
  {
    CallCounts(msgs);
    CallsAtMostMessages(msgs);
  }

  lemma {:induction false} CallCounts(msgs: seq<Payload>)
    ensures forall tx :: multiset(Calls(msgs))[tx] == multiset(msgs)[TransactionJson(tx)]
  {
    if msgs != [] {
      var head, rest := msgs[0], msgs[1..];
      CallCounts(rest);
      assert msgs == [head] + rest;
      var mm := multiset(msgs);
      var mc := multiset(Calls(msgs));
      assert mm == multiset([head]) + multiset(rest);
      assert mc == multiset(CallOf(head)) + multiset(Calls(rest));
      forall tx
        ensures mc[tx] == mm[TransactionJson(tx)]
      {
        assert multiset(CallOf(head))[tx] == multiset([head])[TransactionJson(tx)];
      }
    }
  }

  lemma {:induction false} CallsAtMostMessages(msgs: seq<Payload>)
    ensures |Calls(msgs)| <= |msgs|
  {
    if msgs != [] {
      CallsAtMostMessages(msgs[1..]);
    }
  }

  /** A message whose handler call fails is logged and the next messages are
      still handled, by the calls that follow. */
  lemma HandlerFailureContinues(a: seq<Payload>, tx: Transaction, b: seq<Payload>,
                                outcomes: nat -> Outcome, first: nat)
    requires outcomes(first + |Calls(a)|).Fail?
    ensures var all := a + [TransactionJson(tx)] + b;
      var k := first + |Calls(a)|;
      && Calls(all) == Calls(a) + [tx] + Calls(b)
      && Logged(all, outcomes, first)
         == Logged(a, outcomes, first) + [HandlerFailed(tx.id, outcomes(k).error)] + Logged(b, outcomes, k + 1)
  {
    var rest := [TransactionJson(tx)] + b;
    var k := first + |Calls(a)|;
    assert a + [TransactionJson(tx)] + b == a + rest;
    assert rest[0] == TransactionJson(tx) && rest[1..] == b;
    HandleSplits(a, rest, outcomes, first);
    CallsAssociate(Calls(a), [tx], Calls(b));
    LogAssociates(Logged(a, outcomes, first), [HandlerFailed(tx.id, outcomes(k).error)], Logged(b, outcomes, k + 1));
  }

  /** A message that does not decode is logged as a parse error and causes no
      handler call, so the next handler call keeps its number. */
  lemma MalformedSkipped(a: seq<Payload>, text: string, b: seq<Payload>,
                         outcomes: nat -> Outcome, first: nat)
    ensures var all := a + [Malformed(text)] + b;
      && Calls(all) == Calls(a) + Calls(b)
      && Logged(all, outcomes, first)
         == Logged(a, outcomes, first) + [ParseError] + Logged(b, outcomes, first + |Calls(a)|)
  {
    var rest := [Malformed(text)] + b;
    var k := first + |Calls(a)|;
    assert a + [Malformed(text)] + b == a + rest;
    assert rest[0] == Malformed(text) && rest[1..] == b;
    HandleSplits(a, rest, outcomes, first);
    assert Calls(rest) == Calls(b);
    LogAssociates(Logged(a, outcomes, first), [ParseError], Logged(b, outcomes, k));
  }

  /** The handler keeps state, so the same transaction delivered twice can
      fare differently: a first call that fails and a second that succeeds
      log one handler failure, and both calls are made. */
  lemma RedeliveryCanSucceed(tx: Transaction, outcomes: nat -> Outcome)
    requires outcomes(0).Fail? && outcomes(1) == Pass
    ensures var twice := [TransactionJson(tx), TransactionJson(tx)];
      && Calls(twice) == [tx, tx]
      && Logged(twice, outcomes, 0) == [HandlerFailed(tx.id, outcomes(0).error)]
  {
    var one := [TransactionJson(tx)];
    assert one[..0] == [];
    assert Calls(one) == [tx];
    assert Logged(one, outcomes, 0) == [HandlerFailed(tx.id, outcomes(0).error)];
    assert Logged(one, outcomes, 1) == [];
    HandleSplits(one, one, outcomes, 0);
    assert one + one == [TransactionJson(tx), TransactionJson(tx)];
  }
}
