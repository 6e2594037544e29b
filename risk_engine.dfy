/** The risk-scoring client (internal/infrastructure/grpc_client/risk_engine.go):
    a read-through cache in Redis keyed by (user, merchant) in front of a
    remote call made with up to three attempts. */
module RiskEngine {
  import opened Wrappers
  import opened Domain
  import opened BoundedRetry
  import opened RedisCache

  const MaxAttempts: nat := 3
  const RemoteFailurePrefix := "remote ai-risk-engine failure: "

  /** The profile summary sent with a request; the source formats it as
      "risk_score:%d,max_tx:%.2f,avg_tx:%.2f". */
  datatype UserContext = UserContext(riskScore: int, maxTx: int, avgTx: int)

  datatype AnalyzeRequest = AnalyzeRequest(
    transactionId: string,
    userId: string,
    amount: int,
    merchant: string,
    location: string,
    userProfileContext: UserContext)

  datatype AnalyzeResponse = AnalyzeResponse(reason: string, aiPushMsg: string, isBlocked: bool)

  /** The request for a transaction: it identifies the transaction and its
      user by the transaction's own fields, and carries only the user's
      profile summary, not the stored id or the ban flag. */
  function BuildRequest(tx: Transaction, user: User): (q: AnalyzeRequest)
    ensures q.transactionId == tx.id && q.userId == tx.userId && q.amount == tx.amount
         && q.merchant == tx.merchant && q.location == tx.location
    ensures q.userProfileContext == UserContext(user.riskScore, user.maxTx, user.avgTx)
  {
    AnalyzeRequest(tx.id, tx.userId, tx.amount, tx.merchant, tx.location,
      UserContext(user.riskScore, user.maxTx, user.avgTx))
  }

  /** The alert built from a fresh remote answer: the transaction's fields and
      the response's verdict. */
  function AlertFrom(tx: Transaction, resp: AnalyzeResponse): (a: FraudAlert)
    ensures a.transactionId == tx.id && a.amount == tx.amount
         && a.location == tx.location && a.merchant == tx.merchant
    ensures AnalyzeResponse(a.reason, a.aiPushMsg, a.isBlocked) == resp
  {
    FraudAlert(tx.id, resp.reason, resp.aiPushMsg, resp.isBlocked, tx.amount, tx.location, tx.merchant)
  }

  /** The cached alert Analyze returns without a remote call: there is one
      exactly when the GET succeeds and finds a stored JSON alert, and it is
      that alert. */
  function CachedAlert(store: map<string, Value>, key: string, getErr: Option<string>): (r: Option<FraudAlert>)
    ensures r.Some? <==> getErr.None? && key in store && store[key].AlertJson?
    ensures r.Some? ==> store[key] == AlertJson(r.value)
  {
    if getErr.None? && key in store then DecodeAlert(store[key]) else None
  }

  /** What the remote call contributes to Analyze when the cache does not
      answer: the alert built from the first successful attempt, or the
      wrapped retry-go error listing the three attempts' errors. */
  function RemoteVerdict(tx: Transaction, outcomes: seq<Attempt<AnalyzeResponse>>): (r: Result<FraudAlert>)
    requires MaxAttempts <= |outcomes|
    ensures r.Ok? <==> exists i :: 0 <= i < MaxAttempts && outcomes[i].Succeeded?
    ensures r.Ok? ==> exists i :: 0 <= i < MaxAttempts
                       && outcomes[i] == Succeeded(AnalyzeResponse(r.value.reason, r.value.aiPushMsg, r.value.isBlocked))
                       && forall j :: 0 <= j < i ==> outcomes[j].AttemptFailed?
    ensures r.Ok? ==> (r.value.transactionId == tx.id && r.value.amount == tx.amount
                   && r.value.location == tx.location && r.value.merchant == tx.merchant)
    ensures r.Err? ==> r.error == RemoteFailurePrefix + AllAttemptsFail(ErrorsOf(outcomes[..MaxAttempts]))
  {
    RetryContract(outcomes, MaxAttempts);
    match Retry(outcomes, MaxAttempts).0
    case Ok(resp) => Ok(AlertFrom(tx, resp))
    case Err(_) => Err(RemoteFailurePrefix + AllAttemptsFail(ErrorsOf(outcomes[..MaxAttempts])))
  }

  class RiskClient {
    const redis: Redis
    /** Whether the client holds a gRPC connection (`conn != nil`). */
    const hasConn: bool

    constructor (redis: Redis, hasConn: bool)
      ensures this.redis == redis && this.hasConn == hasConn
    {
      this.redis := redis;
      this.hasConn := hasConn;
    }

    /** fetchRemoteAnalysis: send the same request up to three times and stop
        at the first answer. Returns the answer or the wrapped error, and the
        requests sent. */
    method FetchRemoteAnalysis(tx: Transaction, user: User, outcomes: seq<Attempt<AnalyzeResponse>>)
      returns (r: Result<AnalyzeResponse>, sent: seq<AnalyzeRequest>)
      requires MaxAttempts <= |outcomes|
      ensures 1 <= |sent| <= MaxAttempts
      ensures |sent| == Retry(outcomes, MaxAttempts).1
      ensures forall q :: q in sent ==> q == BuildRequest(tx, user)
      ensures forall i :: 0 <= i < |sent| - 1 ==> outcomes[i].AttemptFailed?
      ensures r.Ok? ==> outcomes[|sent| - 1] == Succeeded(r.value)
      ensures r.Err? <==> forall i :: 0 <= i < MaxAttempts ==> outcomes[i].AttemptFailed?
      ensures r.Err? ==> |sent| == MaxAttempts
      ensures r.Err? ==> r.error == RemoteFailurePrefix + AllAttemptsFail(ErrorsOf(outcomes[..MaxAttempts]))
    {
      var req := BuildRequest(tx, user);
      var i := 0;
      sent := [];
      var lastErr := "";
      var errs: seq<string> := [];
      var answer: Option<AnalyzeResponse> := None;
      while i < MaxAttempts && answer.None?
        invariant 0 <= i <= MaxAttempts
        invariant |sent| == i
        invariant forall q :: q in sent ==> q == req
        invariant forall k :: 0 <= k < i - (if answer.Some? then 1 else 0) ==> outcomes[k].AttemptFailed?
        invariant answer.Some? ==> i >= 1 && outcomes[i - 1] == Succeeded(answer.value)
        invariant answer.None? && i > 0 ==> outcomes[i - 1] == AttemptFailed(lastErr)
        invariant answer.None? ==> |errs| == i && forall k :: 0 <= k < i ==> outcomes[k] == AttemptFailed(errs[k])
        invariant answer.None? && i < MaxAttempts ==>
          Retry(outcomes, MaxAttempts) == (Retry(outcomes[i..], MaxAttempts - i).0, Retry(outcomes[i..], MaxAttempts - i).1 + i)
        invariant answer.Some? ==> Retry(outcomes, MaxAttempts) == (Ok(answer.value), i)
        invariant answer.None? && i == MaxAttempts ==> Retry(outcomes, MaxAttempts) == (Err(lastErr), i)
        decreases MaxAttempts - i
      {
        assert outcomes[i..][1..] == outcomes[i + 1..];
        sent := sent + [req];
        match outcomes[i] {
          case Succeeded(resp) => answer := Some(resp);
          case AttemptFailed(e) =>
            lastErr := e;
            errs := errs + [e];
        }
        i := i + 1;
      }
      RetryContract(outcomes, MaxAttempts);
      if answer.Some? {
        r := Ok(answer.value);
      } else {
        assert errs == ErrorsOf(outcomes[..MaxAttempts]);
        r := Err(RemoteFailurePrefix + AllAttemptsFail(errs));
      }
    }

    /** Analyze: a decodable cached verdict for (user, merchant) is returned
        as it is, with no remote call; otherwise the remote verdict is built
        from the transaction and the answer and, on success, cached for five
        minutes. A failed cache write is ignored. */
    method Analyze(tx: Transaction, user: User, getErr: Option<string>,
                   outcomes: seq<Attempt<AnalyzeResponse>>, setErr: Option<string>)
      returns (r: Result<FraudAlert>, sent: seq<AnalyzeRequest>)
      requires MaxAttempts <= |outcomes|
      modifies redis
      ensures var key := RiskKey(tx.userId, tx.merchant);
        var hit := CachedAlert(old(redis.store), key, getErr);
        if hit.Some? then
          r == Ok(hit.value) && sent == [] && redis.store == old(redis.store) && redis.ttl == old(redis.ttl)
        else
          && 1 <= |sent| <= MaxAttempts
          && |sent| == Retry(outcomes, MaxAttempts).1
          && (forall q :: q in sent ==> q == BuildRequest(tx, user))
          && r == RemoteVerdict(tx, outcomes)
          && (if r.Ok? && setErr.None? then
                redis.store == old(redis.store)[key := AlertJson(r.value)]
                && redis.ttl == old(redis.ttl)[key := RiskTtl]
              else redis.store == old(redis.store) && redis.ttl == old(redis.ttl))
    {
      var key := RiskKey(tx.userId, tx.merchant);
      var reply := redis.Get(key, getErr);
      if reply.Hit? {
        var decoded := DecodeAlert(reply.v);
        if decoded.Some? {
          return Ok(decoded.value), [];
        }
      }
      var resp;
      resp, sent := FetchRemoteAnalysis(tx, user, outcomes);
      RetryContract(outcomes, MaxAttempts);
      if resp.Err? {
        return Err(resp.error), sent;
      }
      var alert := AlertFrom(tx, resp.value);
      var _ := redis.Set(key, AlertJson(alert), RiskTtl, setErr);
      r := Ok(alert);
    }

    /** The read-through cache over two calls. Once a call has produced a
        verdict and its cache write succeeded, a later call for another
        transaction of the same user at the same merchant whose GET succeeds
        sends no request and answers with that verdict. When the first call
        asked the engine, the answer carries the first transaction's id. */
    method AnalyzeTwice(tx1: Transaction, user1: User, getErr1: Option<string>,
                        outcomes1: seq<Attempt<AnalyzeResponse>>,
                        tx2: Transaction, user2: User, outcomes2: seq<Attempt<AnalyzeResponse>>)
      returns (r1: Result<FraudAlert>, r2: Result<FraudAlert>, sent2: seq<AnalyzeRequest>)
      requires MaxAttempts <= |outcomes1| && MaxAttempts <= |outcomes2|
      requires tx2.userId == tx1.userId && tx2.merchant == tx1.merchant
      modifies redis
      ensures r1.Ok? ==> r2 == r1 && sent2 == []
      ensures r1.Ok? && CachedAlert(old(redis.store), RiskKey(tx1.userId, tx1.merchant), getErr1).None?
              ==> r2.value.transactionId == tx1.id
    {
      var sent1;
      r1, sent1 := Analyze(tx1, user1, getErr1, outcomes1, None);
      r2, sent2 := Analyze(tx2, user2, None, outcomes2, None);
    }

    /** Close: nil when there is no connection, otherwise the connection's
        own close result. */
    method Close(closeErr: Option<string>) returns (r: Outcome)
      ensures !hasConn ==> r == Pass
      ensures hasConn && closeErr.None? ==> r == Pass
      ensures hasConn && closeErr.Some? ==> r == Fail(closeErr.value)
    {
      if hasConn && closeErr.Some? {
        r := Fail(closeErr.value);
      } else {
        r := Pass;
      }
    }
  }

  /** The request does not depend on the stored user's id or ban flag: two
      profiles with the same risk score and amounts give the same request. */
  lemma RequestUsesProfileOnly(tx: Transaction, u1: User, u2: User)
    requires u1.riskScore == u2.riskScore && u1.maxTx == u2.maxTx && u1.avgTx == u2.avgTx
    ensures BuildRequest(tx, u1) == BuildRequest(tx, u2)
  {
  }
}
