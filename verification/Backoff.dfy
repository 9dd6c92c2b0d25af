/** The retry delay shared by the activity, learning and automation workers, and what a whole
    series of retries adds up to. */
module Backoff {

  function Min(a: int, b: int): int { if a < b then a else b }

  function Max(a: int, b: int): int { if a < b then b else a }

  function Pow2(n: nat): (r: nat)
    ensures r >= 1
  {
    if n == 0 then 1 else 2 * Pow2(n - 1)
  }

  /** Seconds to wait after attempt number `attempt` has failed. */
  function DelaySeconds(attempt: int): nat {
    Min(3_600, 30 * Pow2(Max(0, attempt - 1)))
  }

  /** The delays after attempts 1..n, added up. */
  function TotalDelay(n: nat): nat {
    if n == 0 then 0 else TotalDelay(n - 1) + DelaySeconds(n)
  }

  lemma {:induction false} Pow2Monotone(a: nat, b: nat)
    requires a <= b
    ensures Pow2(a) <= Pow2(b)
    decreases b
  {
    if a < b {
      Pow2Monotone(a, b - 1);
    }
  }

  lemma Pow2Small()
    ensures Pow2(0) == 1 && Pow2(1) == 2 && Pow2(2) == 4 && Pow2(3) == 8
    ensures Pow2(4) == 16 && Pow2(5) == 32 && Pow2(6) == 64 && Pow2(7) == 128
  {
    assert Pow2(2) == 4;
    assert Pow2(4) == 16;
    assert Pow2(6) == 64;
  }

  /** The first seven delays double, every later one is an hour. */
  lemma {:induction false} TotalDelayClosedForm(r: nat)
    ensures r <= 7 ==> TotalDelay(r) == 30 * (Pow2(r) - 1)
    ensures r >= 7 ==> TotalDelay(r) == 3_810 + 3_600 * (r - 7)
  {
    Pow2Small();
    if r > 0 {
      TotalDelayClosedForm(r - 1);
      if r <= 7 {
        Pow2Monotone(r - 1, 6);
      } else {
        Pow2Monotone(7, r - 1);
      }
    }
  }

  lemma {:induction false} TotalDelayMonotone(a: nat, b: nat)
    requires a <= b
    ensures TotalDelay(a) <= TotalDelay(b)
    decreases b
  {
    if a < b {
      TotalDelayMonotone(a, b - 1);
    }
  }
}
