/** Service configuration (internal/config/config.go): every setting is read
    from the environment with a default, the broker list is the comma split
    of KAFKA_BROKERS, and the result is validated. The environment is a map
    from variable names to values. */
module Config {
  import opened Wrappers

  type Env = map<string, string>

  datatype Settings = Settings(
    kafkaBrokers: seq<string>,
    kafkaTopic: string,
    alertsTopic: string,
    redisAddr: string,
    postgresDsn: string,
    riskEngineAddr: string,
    dashboardPort: string,
    dashboardGroupId: string)

  const BrokersRequired := "CRITICAL: KAFKA_BROKERS is required"
  const DsnRequired := "CRITICAL: POSTGRES_DSN is required"

  const DefaultBrokers := "kafka:9092"
  const DefaultKafkaTopic := "raw-transactions"
  const DefaultAlertsTopic := "fraud-alerts"
  const DefaultRedisAddr := "redis:6379"
  const DefaultPostgresDsn := "host=postgres port=5432 user=user password=password dbname=fraud_radar sslmode=disable"
  const DefaultRiskEngineAddr := "ai-risk-engine:50051"
  const DefaultDashboardPort := ":8080"
  const DefaultDashboardGroupId := "dashboard-group"

  /** getEnv: a variable that is set wins, even when its value is empty. */
  function GetEnv(env: Env, key: string, fallback: string): (v: string)
    ensures key in env ==> v == env[key]
    ensures key !in env ==> v == fallback
  {
    if key in env then env[key] else fallback
  }

  /** strings.Split(s, ","): the pieces between commas; the empty string
      gives one empty piece. */
  function Split(s: string): (parts: seq<string>)
    ensures |parts| >= 1
    ensures forall i :: 0 <= i < |parts| ==> ',' !in parts[i]
    decreases |s|
  {
    if s == [] then [""]
    else
      var rest := Split(s[1..]);
      if s[0] == ',' then [""] + rest
      else [[s[0]] + rest[0]] + rest[1..]
  }

  /** One piece more than there are commas. */
  lemma {:induction false} SplitCount(s: string)
    ensures |Split(s)| == multiset(s)[','] + 1
    decreases |s|
  {
    if s != [] {
      SplitCount(s[1..]);
      assert s == [s[0]] + s[1..];
    }
  }

  /** strings.Join(parts, ","). */
  function Join(parts: seq<string>): string
    requires |parts| >= 1
    decreases |parts|
  {
    if |parts| == 1 then parts[0] else parts[0] + "," + Join(parts[1..])
  }

  /** Splitting and joining back gives the original text. */
  lemma {:induction false} JoinSplit(s: string)
    ensures Join(Split(s)) == s
    decreases |s|
  {
    if s != [] {
      var rest := Split(s[1..]);
      JoinSplit(s[1..]);
      if s[0] == ',' {
        assert Split(s)[1..] == rest;
      } else {
        var parts := Split(s);
        assert parts[0] == [s[0]] + rest[0];
        assert parts[1..] == rest[1..];
        if |rest| == 1 {
          assert Join(parts) == [s[0]] + rest[0];
        } else {
          assert Join(rest) == rest[0] + "," + Join(rest[1..]);
        }
      }
    }
  }

  /** Joining comma-free pieces and splitting gives the pieces back. */
  lemma {:induction false} SplitJoin(parts: seq<string>)
    requires |parts| >= 1
    requires forall i :: 0 <= i < |parts| ==> ',' !in parts[i]
    ensures Split(Join(parts)) == parts
    decreases |parts|, |parts[0]|
  {
    if parts[0] == [] {
      if |parts| > 1 {
        SplitJoin(parts[1..]);
        assert Join(parts) == [','] + Join(parts[1..]);
      }
    } else {
      var p := parts[0];
      var shorter := [p[1..]] + parts[1..];
      assert forall i :: 1 <= i < |shorter| ==> shorter[i] == parts[i];
      assert ',' !in shorter[0] by {
        forall i | 0 <= i < |p[1..]| ensures p[1..][i] != ',' {
          assert p[1..][i] == p[i + 1];
        }
      }
      SplitJoin(shorter);
      var j := Join(parts);
      if |parts| == 1 {
        assert j == p == [p[0]] + p[1..];
      } else {
        assert j == [p[0]] + Join(shorter);
      }
      assert p[0] != ',' by { assert p[0] == parts[0][0]; }
      assert j[0] == p[0] && j[1..] == Join(shorter);
      assert p == [p[0]] + p[1..];
    }
  }

  /** The first broker is empty exactly when KAFKA_BROKERS is empty or starts
      with a comma. */
  lemma FirstBrokerEmpty(s: string)
    ensures Split(s)[0] == "" <==> s == "" || s[0] == ','
  {
  }

  /** Config.Validate: the broker list must have a non-empty first entry, and
      the DSN must be non-empty; the broker check comes first. */
  function Validate(c: Settings): (r: Outcome)
    ensures r == Pass <==> |c.kafkaBrokers| > 0 && c.kafkaBrokers[0] != "" && c.postgresDsn != ""
    ensures r == Fail(BrokersRequired) <==> |c.kafkaBrokers| == 0 || c.kafkaBrokers[0] == ""
    ensures r == Fail(DsnRequired) <==> |c.kafkaBrokers| > 0 && c.kafkaBrokers[0] != "" && c.postgresDsn == ""
  {
    if |c.kafkaBrokers| == 0 || c.kafkaBrokers[0] == "" then Fail(BrokersRequired)
    else if c.postgresDsn == "" then Fail(DsnRequired)
    else Pass
  }

  /** Validate looks at the brokers and the DSN only: an empty Redis address,
      topic or port never fails it. */
  lemma ValidateChecksOnlyBrokersAndDsn(c: Settings, other: Settings)
    requires c.kafkaBrokers == other.kafkaBrokers && c.postgresDsn == other.postgresDsn
    ensures Validate(c) == Validate(other)
    ensures Validate(c.(redisAddr := "")) == Validate(c)
  {
  }

  /** The settings read from the environment, before validation: at least
      one comma-free broker, and the brokers join back to the KAFKA_BROKERS
      value (or its default); every other setting is its variable or its
      default. */
  function Load(env: Env): (r: Settings)
    ensures |r.kafkaBrokers| >= 1
    ensures forall i :: 0 <= i < |r.kafkaBrokers| ==> ',' !in r.kafkaBrokers[i]
    ensures Join(r.kafkaBrokers) == GetEnv(env, "KAFKA_BROKERS", DefaultBrokers)
    ensures r.kafkaTopic == GetEnv(env, "KAFKA_TOPIC", DefaultKafkaTopic)
    ensures r.alertsTopic == GetEnv(env, "ALERTS_TOPIC", DefaultAlertsTopic)
    ensures r.redisAddr == GetEnv(env, "REDIS_ADDR", DefaultRedisAddr)
    ensures r.postgresDsn == GetEnv(env, "POSTGRES_DSN", DefaultPostgresDsn)
    ensures r.riskEngineAddr == GetEnv(env, "RISK_ENGINE_ADDR", DefaultRiskEngineAddr)
    ensures r.dashboardPort == GetEnv(env, "DASHBOARD_PORT", DefaultDashboardPort)
    ensures r.dashboardGroupId == GetEnv(env, "DASHBOARD_GROUP_ID", DefaultDashboardGroupId)
  {
    JoinSplit(GetEnv(env, "KAFKA_BROKERS", DefaultBrokers));
    Settings(
      Split(GetEnv(env, "KAFKA_BROKERS", DefaultBrokers)),
      GetEnv(env, "KAFKA_TOPIC", DefaultKafkaTopic),
      GetEnv(env, "ALERTS_TOPIC", DefaultAlertsTopic),
      GetEnv(env, "REDIS_ADDR", DefaultRedisAddr),
      GetEnv(env, "POSTGRES_DSN", DefaultPostgresDsn),
      GetEnv(env, "RISK_ENGINE_ADDR", DefaultRiskEngineAddr),
      GetEnv(env, "DASHBOARD_PORT", DefaultDashboardPort),
      GetEnv(env, "DASHBOARD_GROUP_ID", DefaultDashboardGroupId))
  }

  /** config.New. */
  function New(env: Env): (r: Result<Settings>)
    ensures r.Ok? ==> r.value == Load(env)
  {
    match Validate(Load(env))
    case Pass => Ok(Load(env))
    case Fail(e) => Err(e)
  }

  /** New fails exactly when KAFKA_BROKERS is set to a value that is empty or
      starts with a comma, or POSTGRES_DSN is set to the empty string; the
      broker error wins when both hold. */
  lemma NewFailsIff(env: Env)
    ensures var brokersBad := "KAFKA_BROKERS" in env
                              && (env["KAFKA_BROKERS"] == "" || env["KAFKA_BROKERS"][0] == ',');
      var dsnBad := "POSTGRES_DSN" in env && env["POSTGRES_DSN"] == "";
      && (New(env).Err? <==> brokersBad || dsnBad)
      && (brokersBad ==> New(env) == Err(BrokersRequired))
      && (!brokersBad && dsnBad ==> New(env) == Err(DsnRequired))
  {
    FirstBrokerEmpty(GetEnv(env, "KAFKA_BROKERS", DefaultBrokers));
    assert DefaultBrokers[0] != ',';
  }

  /** With nothing set, New succeeds with every default and the single broker
      kafka:9092. */
  lemma NewDefaults()
    ensures New(map[]) == Ok(Settings(
      ["kafka:9092"], DefaultKafkaTopic, DefaultAlertsTopic, DefaultRedisAddr,
      DefaultPostgresDsn, DefaultRiskEngineAddr, DefaultDashboardPort, DefaultDashboardGroupId))
  {
    assert Split(DefaultBrokers) == [DefaultBrokers] by {
      assert ',' !in DefaultBrokers;
      SplitJoin([DefaultBrokers]);
    }
  }
}
