/** Bounded retry, as used by the risk client (retry-go with three attempts)
    and by the Kafka admin dial loop (ten attempts): try the attempts in order
    and stop at the first success. The remote side is an abstract sequence of
    attempt outcomes. */
module BoundedRetry {
  import opened Wrappers
  import opened Decimal

  datatype Attempt<T> = Succeeded(value: T) | AttemptFailed(error: string)

  /** The result of trying `outcomes[..limit]` in order: the first success, or
      the last error when every attempt fails; and the number of attempts made. */
  function Retry<T>(outcomes: seq<Attempt<T>>, limit: nat): (Result<T>, nat)
    requires 0 < limit <= |outcomes|
    decreases limit
  {
    match outcomes[0]
    case Succeeded(v) => (Ok(v), 1)
    case AttemptFailed(e) =>
      if limit == 1 then (Err(e), 1)
      else
        var (r, n) := Retry(outcomes[1..], limit - 1);
        (r, n + 1)
  }

  /** Retry makes at least one and at most `limit` attempts, stops at the first
      success and returns its value, and fails only when all `limit` attempts
      fail, with the last one's error. */
  lemma {:induction false} RetryContract<T>(outcomes: seq<Attempt<T>>, limit: nat)
    requires 0 < limit <= |outcomes|
    ensures var (r, n) := Retry(outcomes, limit);
      && 1 <= n <= limit
      && (forall i :: 0 <= i < n - 1 ==> outcomes[i].AttemptFailed?)
      && (r.Ok? ==> outcomes[n - 1] == Succeeded(r.value))
      && (r.Err? ==> n == limit && outcomes[limit - 1] == AttemptFailed(r.error))
      && (r.Ok? <==> exists i :: 0 <= i < limit && outcomes[i].Succeeded?)
  {
    if outcomes[0].AttemptFailed? && limit > 1 {
      var tail := outcomes[1..];
      RetryContract(tail, limit - 1);
      var (r, n) := Retry(tail, limit - 1);
      forall i | 0 <= i < n ensures outcomes[i].AttemptFailed? {
        if i > 0 { assert outcomes[i] == tail[i - 1]; }
      }
      if r.Ok? {
        var j :| 0 <= j < limit - 1 && tail[j].Succeeded?;
        assert outcomes[j + 1] == tail[j];
      } else {
        forall i | 0 <= i < limit ensures outcomes[i].AttemptFailed? {
          if i > 0 { assert outcomes[i] == tail[i - 1]; }
        }
      }
    }
  }

  // ---------------------------------------------------------------------
  // The error retry-go returns when every attempt fails

  /** The error text of each attempt, in order (empty for a success). */
  function ErrorsOf<T>(outcomes: seq<Attempt<T>>): (errs: seq<string>)
    ensures |errs| == |outcomes|
    ensures forall i :: 0 <= i < |outcomes| && outcomes[i].AttemptFailed? ==> errs[i] == outcomes[i].error
  {
    seq(|outcomes|, i requires 0 <= i < |outcomes| => if outcomes[i].AttemptFailed? then outcomes[i].error else "")
  }

  /** The lines `#<k>: <error>`, numbered from `first`, joined by newlines. */
  function Numbered(errs: seq<string>, first: nat): string
    decreases |errs|
  {
    if errs == [] then ""
    else
      var line := "#" + NatToString(first) + ": " + errs[0];
      if |errs| == 1 then line else line + "\n" + Numbered(errs[1..], first + 1)
  }

  /** retry-go's message when all attempts fail: a header, then one numbered
      line per attempt. */
  function AllAttemptsFail(errs: seq<string>): string {
    "All attempts fail:\n" + Numbered(errs, 1)
  }

  /** The numbered list ends with the last attempt's error. */
  lemma {:induction false} NumberedEndsWithLast(errs: seq<string>, first: nat)
    requires |errs| >= 1
    ensures var s := Numbered(errs, first);
      var last := errs[|errs| - 1];
      |last| <= |s| && s[|s| - |last|..] == last
    decreases |errs|
  {
    if |errs| > 1 {
      NumberedEndsWithLast(errs[1..], first + 1);
      var line := "#" + NatToString(first) + ": " + errs[0];
      var rest := Numbered(errs[1..], first + 1);
      assert Numbered(errs, first) == (line + "\n") + rest;
    }
  }

  /** Three failed attempts read as the header and the lines #1, #2 and #3,
      in attempt order. */
  lemma ThreeAttemptsMessage(a: string, b: string, c: string)
    ensures AllAttemptsFail([a, b, c])
         == "All attempts fail:\n#1: " + a + "\n#2: " + b + "\n#3: " + c
  {
    assert NatToString(1) == "1" && NatToString(2) == "2" && NatToString(3) == "3";
    assert [a, b, c][1..] == [b, c] && [b, c][1..] == [c];
    var l3 := "#3: " + c;
    var l2 := "#2: " + b + "\n" + l3;
    assert Numbered([c], 3) == l3;
    assert Numbered([b, c], 2) == l2;
    assert Numbered([a, b, c], 1) == "#1: " + a + "\n" + l2;
  }
}
