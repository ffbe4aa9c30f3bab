/**
 The throttle on responses in time-wait: a packet is answered when the count of packets received has a single
 bit set. Counts are natural numbers; on them the machine's `&` is the bitwise conjunction defined here.
 */
module Backoff {

  function BitAnd(a: nat, b: nat): nat {
    if a == 0 || b == 0 then 0
    else 2 * BitAnd(a / 2, b / 2) + (if a % 2 == 1 && b % 2 == 1 then 1 else 0)
  }

  /** QuicTimeWaitListManager::ShouldSendResponse, called with a count of at least one. */
  predicate ShouldSendResponse(receivedPacketCount: nat)
    requires receivedPacketCount >= 1
  {
    BitAnd(receivedPacketCount, receivedPacketCount - 1) == 0
  }

  function Pow2(k: nat): (r: nat)
    ensures r >= 1
  {
    if k == 0 then 1 else 2 * Pow2(k - 1)
  }

  ghost predicate IsPowerOfTwo(n: nat) {
    exists k: nat :: Pow2(k) == n
  }

  lemma {:induction false} BitAndSelf(n: nat)
    ensures BitAnd(n, n) == n
  {
    if n > 0 {
      BitAndSelf(n / 2);
    }
  }

  lemma Doubling(n: nat)
    requires n >= 1
    ensures IsPowerOfTwo(2 * n) <==> IsPowerOfTwo(n)
  {
    if IsPowerOfTwo(n) {
      var k: nat :| Pow2(k) == n;
      assert Pow2(k + 1) == 2 * n;
    }
    if IsPowerOfTwo(2 * n) {
      var k: nat :| Pow2(k) == 2 * n;
      assert Pow2(k - 1) == n;
    }
  }

  /** A count is answered exactly when it is a power of two. */
  lemma {:induction false} RespondsAtPowersOfTwo(n: nat)
    requires n >= 1
    ensures ShouldSendResponse(n) <==> IsPowerOfTwo(n)
  {
    if n == 1 {
      assert Pow2(0) == 1;
    } else if n % 2 == 0 {
      assert (n - 1) / 2 == n / 2 - 1 && (n - 1) % 2 == 1;
      RespondsAtPowersOfTwo(n / 2);
      Doubling(n / 2);
    } else {
      BitAndSelf(n / 2);
      assert (n - 1) / 2 == n / 2;
      assert forall k: nat :: Pow2(k) == 1 || Pow2(k) % 2 == 0;
    }
  }

  /** How many of the first `n` packets are answered. */
  function Responses(n: nat): nat {
    if n == 0 then 0 else Responses(n - 1) + (if ShouldSendResponse(n) then 1 else 0)
  }

  function Log2(n: nat): (k: nat)
    requires n >= 1
    ensures Pow2(k) <= n < Pow2(k + 1)
  {
    if n == 1 then 0 else Log2(n / 2) + 1
  }

  lemma {:induction false} Pow2Increases(a: nat, b: nat)
    requires a < b
    ensures Pow2(a) < Pow2(b)
  {
    if a + 1 < b {
      Pow2Increases(a, b - 1);
    }
  }

  lemma Log2IsUnique(n: nat, k: nat)
    requires n >= 1 && Pow2(k) <= n < Pow2(k + 1)
    ensures Log2(n) == k
  {
    if Log2(n) < k {
      if Log2(n) + 1 < k { Pow2Increases(Log2(n) + 1, k); }
    } else if k < Log2(n) {
      if k + 1 < Log2(n) { Pow2Increases(k + 1, Log2(n)); }
    }
  }

  /** Exponential backoff: the first `n` packets draw one response more than the binary logarithm of `n`. */
  lemma {:induction false} ResponsesAreLogarithmic(n: nat)
    requires n >= 1
    ensures Responses(n) == Log2(n) + 1
  {
    if n == 1 {
      assert ShouldSendResponse(1);
      assert Responses(0) == 0;
    } else {
      ResponsesAreLogarithmic(n - 1);
      RespondsAtPowersOfTwo(n);
      var k := Log2(n - 1);
      if n == Pow2(k + 1) {
        Pow2Increases(k + 1, k + 2);
        Log2IsUnique(n, k + 1);
      } else {
        Log2IsUnique(n, k);
        if IsPowerOfTwo(n) {
          var j: nat :| Pow2(j) == n;
          if j <= k { if j < k { Pow2Increases(j, k); } } else if j > k + 1 { Pow2Increases(k + 1, j); }
        }
      }
    }
  }
}
