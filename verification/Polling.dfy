/**
 The bounded waits: kubectl (cmd/frkrup/kubernetes.go), the local services and
 the database (cmd/frkrup/infrastructure.go), the gateways (cmd/frkrup/gateway.go).
 What a command answers and how long it takes are functions of its number.
 */
module Polling {
  import opened Wrappers

  const RETRY_SLEEP_MS: nat := 3000

  /** All commands before the last failed. */
  predicate OnlyLastMaySucceed(answers: nat -> bool, issued: nat) {
    forall i: nat :: i + 1 < issued ==> !answers(i)
  }

  /**
   retryKubectlWait with a deadline of `seconds`: command number i succeeds if
   answers(i) and takes took(i) ms, at most `limit`.  It issues at most
   seconds/3 + 2 commands, is over `limit` + 3 s after the deadline at the
   latest, and succeeds exactly if the last command it issued did.  The bound
   on the commands is met when commands take no time.
   */
  method RetryKubectlWait(seconds: nat, answers: nat -> bool, took: nat -> nat, ghost limit: nat, start: nat)
    returns (ok: bool, issued: nat, now: nat)
    requires forall i: nat :: took(i) <= limit
    ensures 1 <= issued <= seconds / 3 + 2
    ensures start <= now <= start + 1000 * seconds + 3000 + limit
    ensures ok <==> answers(issued - 1)
    ensures OnlyLastMaySucceed(answers, issued)
    ensures !ok ==> now > start + 1000 * seconds
    ensures (forall i: nat :: took(i) == 0) ==> (ok <==> exists i: nat :: i <= seconds / 3 + 1 && answers(i))
  {
    var end := start + 1000 * seconds;
    now, issued := start, 0;
    while true
      invariant start + RETRY_SLEEP_MS * issued <= now
      invariant issued == 0 ==> now == start
      invariant (forall i: nat :: took(i) == 0) ==> now == start + RETRY_SLEEP_MS * issued
      invariant now <= end + RETRY_SLEEP_MS
      invariant forall i: nat :: i < issued ==> !answers(i)
      decreases end + RETRY_SLEEP_MS - now
    {
      ok := answers(issued);
      now := now + took(issued);
      issued := issued + 1;
      if ok {
        return;
      }
      if now > end {
        return;
      }
      now := now + RETRY_SLEEP_MS;
    }
  }

  // ---------------------------------------------------------------- gateway health

  /** A health answer: the HTTP status and, when the body is JSON, the reported status. */
  datatype Response = NoResponse | Http(code: int, reported: Option<string>)

  /** checkGatewayHealth: 200, and "healthy" if the body says anything. */
  predicate Healthy(r: Response) {
    r.Http? && r.code == 200 && (r.reported.Some? ==> r.reported.value == "healthy")
  }

  /** The health rule on every kind of answer. */
  lemma HealthRule(code: int, status: string)
    ensures !Healthy(NoResponse)
    ensures Healthy(Http(code, None)) <==> code == 200
    ensures Healthy(Http(code, Some(status))) <==> code == 200 && status == "healthy"
  {
  }

  /**
   VerifyGatewaysWithRetries: it passes exactly if some attempt among the first
   maxRetries finds both gateways healthy (or none is asked for), stops at the
   first such attempt and sleeps two seconds between attempts.
   */
  method VerifyGatewaysWithRetries(maxRetries: int, ingest: nat -> Response, streaming: nat -> Response)
    returns (ok: bool, attempts: nat, sleptMs: nat)
    ensures ok <==> maxRetries <= 0 || exists i: nat :: i < maxRetries && Healthy(ingest(i)) && Healthy(streaming(i))
    ensures ok && maxRetries > 0 ==>
      && 1 <= attempts <= maxRetries && Healthy(ingest(attempts - 1)) && Healthy(streaming(attempts - 1))
      && forall i: nat :: i < attempts - 1 ==> !(Healthy(ingest(i)) && Healthy(streaming(i)))
    ensures !ok ==> attempts == maxRetries
    ensures maxRetries > 0 ==> sleptMs == 2000 * (attempts - 1)
  {
    attempts, sleptMs := 0, 0;
    var i: nat := 0;
    while i < maxRetries
      invariant attempts == i && sleptMs == 2000 * i
      invariant maxRetries > 0 ==> i < maxRetries
      invariant forall j: nat :: j < i ==> !(Healthy(ingest(j)) && Healthy(streaming(j)))
      decreases maxRetries - i
    {
      attempts := attempts + 1;
      var err := !Healthy(ingest(i));
      if !err {
        err := !Healthy(streaming(i));
      }
      if err {
        if i < maxRetries - 1 {
          sleptMs := sleptMs + 2000;
          i := i + 1;
          continue;
        }
        return false, attempts, sleptMs;
      }
      return true, attempts, sleptMs;
    }
    ok := true;
  }
}
