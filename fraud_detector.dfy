/** The per-transaction decision path (internal/usecase/fraud_detector.go).
    The four collaborators are objects whose state the detector changes: a
    repository of users and fraud events, a velocity store of counters per
    (user, location), and a publisher's log of alerts. What each collaborator
    call answers or whether it fails is given by a `Collaborators` record. */
module FraudDetection {
  import opened Wrappers
  import opened Domain

  const VelocityThreshold: int := 10
  const DefaultRiskScore: int := 15
  const FailSafeReason := "AI Rate Limit reached - System in monitoring mode"

  /** The profile created for a user seen for the first time. */
  function DefaultUser(userId: string): User {
    User(userId, DefaultRiskScore, false, 0, 0)
  }

  /** The verdict substituted when the AI client fails. */
  const FailSafeVerdict := FraudAlert("", FailSafeReason, "", false, 0, "", "")

  predicate IsVelocityFraud(hasCache: bool, velocity: int) {
    hasCache && velocity > VelocityThreshold
  }

  function EffectiveVerdict(ai: Result<FraudAlert>): FraudAlert {
    if ai.Ok? then ai.value else FailSafeVerdict
  }

  /** The alert Detect publishes, given whether a velocity store is wired in,
      the velocity it read and the AI client's answer. It is blocked exactly
      when the velocity signal fires or the AI verdict blocks, so a failed AI
      call never blocks by itself. It copies id, amount, location and
      merchant from the transaction and the reason verbatim from the AI
      verdict (or the fail-safe text), and carries no push message. */
  function Verdict(tx: Transaction, hasCache: bool, velocity: int, ai: Result<FraudAlert>): (a: FraudAlert)
    ensures a.isBlocked <==> (hasCache && velocity > VelocityThreshold) || (ai.Ok? && ai.value.isBlocked)
    ensures a.transactionId == tx.id && a.amount == tx.amount
         && a.location == tx.location && a.merchant == tx.merchant
    ensures a.reason == (if ai.Ok? then ai.value.reason else FailSafeReason)
    ensures a.aiPushMsg == ""
  {
    var v := EffectiveVerdict(ai);
    FraudAlert(tx.id, v.reason, "", IsVelocityFraud(hasCache, velocity) || v.isBlocked,
               tx.amount, tx.location, tx.merchant)
  }

  /** The audit record saved for a transaction. */
  function EventOf(tx: Transaction, blocked: bool, reason: string): FraudEvent {
    FraudEvent(tx.id, tx.userId, tx.merchant, tx.amount, tx.location, blocked, reason, "")
  }

  /** The event Detect saves: it describes the transaction and agrees with
      the published alert on the blocked flag and the reason. */
  function EventFor(tx: Transaction, hasCache: bool, velocity: int, ai: Result<FraudAlert>): (e: FraudEvent)
    ensures var a := Verdict(tx, hasCache, velocity, ai);
      && e.transactionId == a.transactionId && e.isBlocked == a.isBlocked && e.aiReason == a.reason
      && e.userId == tx.userId && e.merchant == tx.merchant
      && e.amount == tx.amount && e.location == tx.location && e.aiPushMsg == ""
  {
    var v := EffectiveVerdict(ai);
    EventOf(tx, IsVelocityFraud(hasCache, velocity) || v.isBlocked, v.reason)
  }

  function Bump(counters: map<(string, string), nat>, userId: string, location: string): map<(string, string), nat> {
    var key := (userId, location);
    counters[key := (if key in counters then counters[key] else 0) + 1]
  }

  // ---------------------------------------------------------------------
  // Properties of the verdict

  /** The threshold is strict: a velocity of exactly 10 is not fraud. */
  lemma VelocityThresholdIsStrict(tx: Transaction, ai: Result<FraudAlert>)
    requires ai.Ok? && !ai.value.isBlocked
    ensures !Verdict(tx, true, 10, ai).isBlocked
    ensures Verdict(tx, true, 11, ai).isBlocked
  {
  }

  /** Without a velocity store the velocity reading is ignored. */
  lemma NoCacheIgnoresVelocity(tx: Transaction, velocity: int, ai: Result<FraudAlert>)
    ensures Verdict(tx, false, velocity, ai) == Verdict(tx, false, 0, ai)
  {
  }

  predicate OccursAt(s: string, sub: string, i: int) {
    0 <= i && i + |sub| <= |s| && s[i..i + |sub|] == sub
  }

  ghost predicate Contains(s: string, sub: string) {
    exists i :: OccursAt(s, sub, i)
  }

  const VelocityBlockMarker := "[Velocity Block]"
  const NormalReason := "Looks like a normal transaction"

  /** A text without '[' cannot contain the velocity-block marker. */
  lemma NoMarkerWithoutBracket(s: string)
    requires '[' !in s
    ensures !Contains(s, VelocityBlockMarker)
  {
    forall i ensures !OccursAt(s, VelocityBlockMarker, i) {
      if 0 <= i && i + |VelocityBlockMarker| <= |s| {
        assert s[i..i + |VelocityBlockMarker|][0] == s[i];
      }
    }
  }

  /** The scenario of a velocity of 15 with a non-blocking AI: the alert is
      blocked, yet its reason is the AI's text, without the
      "[Velocity Block]" marker a test of the source expects. */
  lemma VelocityBlockScenario(tx: Transaction)
    ensures var a := Verdict(tx, true, 15, Ok(FraudAlert("", NormalReason, "", false, 0, "", "")));
      a.isBlocked && a.reason == NormalReason && !Contains(a.reason, VelocityBlockMarker)
  {
    assert forall k :: 0 <= k < |NormalReason| ==> NormalReason[k] != '[';
    NoMarkerWithoutBracket(NormalReason);
  }

  /** The scenario of a velocity of 2 with a non-blocking AI: allowed. */
  lemma NormalTransactionScenario(tx: Transaction)
    ensures !Verdict(tx, true, 2, Ok(FraudAlert("", NormalReason, "", false, 0, "", ""))).isBlocked
  {
  }

  // ---------------------------------------------------------------------
  // Collaborators

  /** The outcomes of the collaborator calls of one Detect call. `velocity`
      is what GetVelocity returned; its error is discarded by the detector.
      `analyze` is the AI client's answer for the transaction and the
      resolved user. */
  datatype Collaborators = Collaborators(
    lookupErr: Option<string>,
    createErr: Option<string>,
    velocity: int,
    analyze: (Transaction, User) -> Result<FraudAlert>,
    saveErr: Option<string>,
    incrementErr: Option<string>,
    publishErr: Option<string>)

  /** The Repository: users by id and the fraud-event log. A missing user
      reads as `(nil, nil)`. */
  class Repository {
    var users: map<string, User>
    var events: seq<FraudEvent>

    constructor (users: map<string, User>)
      ensures this.users == users && events == []
    {
      this.users := users;
      events := [];
    }

    method GetUserByID(id: string, fault: Option<string>) returns (r: Result<Option<User>>)
      ensures fault.Some? ==> r == Err(fault.value)
      ensures fault.None? && id in users ==> r == Ok(Some(users[id]))
      ensures fault.None? && id !in users ==> r == Ok(None)
    {
      if fault.Some? {
        r := Err(fault.value);
      } else if id in users {
        r := Ok(Some(users[id]));
      } else {
        r := Ok(None);
      }
    }

    method CreateUser(user: User, fault: Option<string>) returns (r: Outcome)
      modifies this
      ensures events == old(events)
      ensures fault.Some? ==> r == Fail(fault.value) && users == old(users)
      ensures fault.None? ==> r == Pass && users == old(users)[user.id := user]
    {
      if fault.Some? {
        r := Fail(fault.value);
      } else {
        users := users[user.id := user];
        r := Pass;
      }
    }

    method SaveFraudEvent(event: FraudEvent, fault: Option<string>) returns (r: Outcome)
      modifies this
      ensures users == old(users)
      ensures fault.Some? ==> r == Fail(fault.value) && events == old(events)
      ensures fault.None? ==> r == Pass && events == old(events) + [event]
    {
      if fault.Some? {
        r := Fail(fault.value);
      } else {
        events := events + [event];
        r := Pass;
      }
    }
  }

  /** The RateLimitRepository's write side as the detector sees it through
      its interface: a counter per (user, location). It abstracts the Redis
      counters that RedisCache.RedisRepository.IncrementVelocity maintains
      (a `velocity:<user>:<location>` key with a 60-second TTL), whose
      reading back the detector takes as the velocity parameter. */
  class VelocityStore {
    var counters: map<(string, string), nat>

    constructor ()
      ensures counters == map[]
    {
      counters := map[];
    }

    method IncrementVelocity(userId: string, location: string, fault: Option<string>) returns (r: Outcome)
      modifies this
      ensures fault.Some? ==> r == Fail(fault.value) && counters == old(counters)
      ensures fault.None? ==> r == Pass && counters == Bump(old(counters), userId, location)
    {
      if fault.Some? {
        r := Fail(fault.value);
      } else {
        counters := Bump(counters, userId, location);
        r := Pass;
      }
    }
  }

  /** The FraudPublisher: the alerts published so far. */
  class AlertLog {
    var published: seq<FraudAlert>

    constructor ()
      ensures published == []
    {
      published := [];
    }

    method Publish(alert: FraudAlert, fault: Option<string>) returns (r: Outcome)
      modifies this
      ensures fault.Some? ==> r == Fail(fault.value) && published == old(published)
      ensures fault.None? ==> r == Pass && published == old(published) + [alert]
    {
      if fault.Some? {
        r := Fail(fault.value);
      } else {
        published := published + [alert];
        r := Pass;
      }
    }
  }

  class FraudDetector {
    const repo: Repository
    /** The velocity store, or null when none is wired in. */
    const cache: VelocityStore?
    const publisher: AlertLog

    constructor (repo: Repository, cache: VelocityStore?, publisher: AlertLog)
      ensures this.repo == repo && this.cache == cache && this.publisher == publisher
    {
      this.repo := repo;
      this.cache := cache;
      this.publisher := publisher;
    }

    /** Detect: resolve (or create) the user, read velocity, ask the AI with
        a fail-safe fallback, then save the event, bump the velocity counter
        and publish, ignoring save and increment failures. Returns nil or the
        error that stopped it. */
    method Detect(tx: Transaction, env: Collaborators) returns (err: Option<string>)
      modifies repo, cache, publisher
      // GetUserByID fails: nothing changes.
      ensures env.lookupErr.Some? ==>
        && err == Some("failed to get user: " + env.lookupErr.value)
        && repo.users == old(repo.users) && repo.events == old(repo.events)
        && publisher.published == old(publisher.published)
        && (cache != null ==> cache.counters == old(cache.counters))
      // The user is new and CreateUser fails: nothing changes.
      ensures env.lookupErr.None? && tx.userId !in old(repo.users) && env.createErr.Some? ==>
        && err == Some("failed to create user: " + env.createErr.value)
        && repo.users == old(repo.users) && repo.events == old(repo.events)
        && publisher.published == old(publisher.published)
        && (cache != null ==> cache.counters == old(cache.counters))
      // The user is resolved: every remaining step runs once.
      ensures env.lookupErr.None? && (tx.userId in old(repo.users) || env.createErr.None?) ==>
        var user := if tx.userId in old(repo.users) then old(repo.users)[tx.userId] else DefaultUser(tx.userId);
        var ai := env.analyze(tx, user);
        && repo.users == old(repo.users)[tx.userId := user]
        && repo.events == old(repo.events)
             + (if env.saveErr.None? then [EventFor(tx, cache != null, env.velocity, ai)] else [])
        && (cache != null ==>
             cache.counters == if env.incrementErr.None? then Bump(old(cache.counters), tx.userId, tx.location)
                               else old(cache.counters))
        && publisher.published == old(publisher.published)
             + (if env.publishErr.None? then [Verdict(tx, cache != null, env.velocity, ai)] else [])
        && err == env.publishErr
    {
      var lookup := repo.GetUserByID(tx.userId, env.lookupErr);
      if lookup.Err? {
        return Some("failed to get user: " + lookup.error);
      }
      var user: User;
      if lookup.value.Some? {
        user := lookup.value.value;
      } else {
        user := DefaultUser(tx.userId);
        var created := repo.CreateUser(user, env.createErr);
        if created.Fail? {
          return Some("failed to create user: " + created.error);
        }
      }

      var isVelocityFraud := false;
      if cache != null {
        var vel := env.velocity;
        if vel > VelocityThreshold {
          isVelocityFraud := true;
        }
      }

      var alert: FraudAlert;
      var answer := env.analyze(tx, user);
      if answer.Err? {
        alert := FailSafeVerdict;
      } else {
        alert := answer.value;
      }

      var finalBlocked := isVelocityFraud || alert.isBlocked;

      var event := EventOf(tx, finalBlocked, alert.reason);
      var _ := repo.SaveFraudEvent(event, env.saveErr);

      if cache != null {
        var _ := cache.IncrementVelocity(tx.userId, tx.location, env.incrementErr);
      }

      var outAlert := FraudAlert(tx.id, alert.reason, "", finalBlocked, tx.amount, tx.location, tx.merchant);
      var published := publisher.Publish(outAlert, env.publishErr);
      if published.Fail? {
        return Some(published.error);
      }
      return None;
    }
  }
}
