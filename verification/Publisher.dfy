/** The RabbitMQ publisher's retry loop. */
module Publisher {
  import opened Common

  function Pow2(n: nat): nat { if n == 0 then 1 else 2 * Pow2(n - 1) }

  /** Seconds slept after k failed attempts: 2 + 4 + ... + 2^k. */
  lemma {:induction false} WaitsAddUp(k: nat)
    ensures Waited(k) == Pow2(k + 1) - 2
  {
    if k > 0 { WaitsAddUp(k - 1); }
  }

  function Waited(k: nat): nat { if k == 0 then 0 else Waited(k - 1) + Pow2(k) }

  /** attempt(i) says whether the i-th attempt succeeds. The loop stops at the first success; it
      raises only after `retries` failures, having slept also after the last of them. */
  method Publish(attempt: nat -> bool, retries: nat) returns (ok: bool, attempts: nat, waited: nat)
    ensures attempts <= retries
    ensures ok <==> exists i: nat :: i < retries && attempt(i)
    ensures ok ==> attempts > 0 && attempt(attempts - 1) && forall i: nat :: i < attempts - 1 ==> !attempt(i)
    ensures ok ==> waited == Pow2(attempts) - 2
    ensures !ok ==> attempts == retries && waited == Pow2(retries + 1) - 2
  {
    var failed := 0;
    waited := 0;
    while failed < retries
      invariant failed <= retries && waited == Pow2(failed + 1) - 2
      invariant forall i: nat :: i < failed ==> !attempt(i)
    {
      if attempt(failed) { return true, failed + 1, waited; }
      failed := failed + 1;
      waited := waited + Pow2(failed);
    }
    ok, attempts := false, retries;
  }
}
