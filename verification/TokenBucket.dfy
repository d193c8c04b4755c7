/**
  checkRateLimit: a token bucket refilled continuously at `rate` tokens a second and capped at
  `rate`. The decision for one message uses two numbers; the theorems say that together the
  decisions enforce, exactly, a bound on every window of the arrival stream.
 */
module TokenBucket {

  /** The bucket after `gain` tokens have been added, capped at `rate`. */
  function Refilled(rate: real, tokens: real, gain: real): real {
    if tokens + gain > rate then rate else tokens + gain
  }

  class Limiter {
    const maxRate: int
    var tokens: real
    var lastRefill: real

    /** A new client starts with a full bucket. */
    constructor (maxRate: int, now: real)
      ensures this.maxRate == maxRate && lastRefill == now
      ensures tokens == (if maxRate <= 0 then 1.0 else maxRate as real)
    {
      this.maxRate := maxRate;
      tokens := if maxRate <= 0 then 1.0 else maxRate as real;
      lastRefill := now;
    }

    method CheckRateLimit(now: real) returns (allowed: bool)
      modifies this
      ensures maxRate <= 0 ==> allowed && tokens == old(tokens) && lastRefill == old(lastRefill)
      ensures maxRate > 0 ==>
                var full := Refilled(maxRate as real, old(tokens), (now - old(lastRefill)) * (maxRate as real));
                allowed == (full >= 1.0) && tokens == (if allowed then full - 1.0 else full) && lastRefill == now
    {
      if maxRate <= 0 {
        return true;
      }
      var elapsed := now - lastRefill;
      lastRefill := now;
      var rate := maxRate as real;
      tokens := tokens + elapsed * rate;
      assert tokens == old(tokens) + (now - old(lastRefill)) * (maxRate as real);
      if tokens > rate {
        tokens := rate;
      }
      if tokens < 1.0 {
        return false;
      }
      tokens := tokens - 1.0;
      allowed := true;
    }

    /** The messages of one connection: which of the arrivals are accepted. */
    method CheckAll(arrivals: seq<real>, ghost minted: seq<real>) returns (accepted: seq<bool>)
      requires maxRate > 0 && tokens == maxRate as real
      requires Mints(maxRate as real, lastRefill, arrivals, minted)
      modifies this
      ensures |accepted| == |arrivals|
      ensures forall i :: 0 <= i < |arrivals| ==> (accepted[i] <==> Accepts(maxRate as real, minted, i))
    {
      accepted := [];
      ghost var start := lastRefill;
      for n := 0 to |arrivals|
        invariant |accepted| == n
        invariant tokens == TokensBefore(maxRate as real, minted, n)
        invariant lastRefill == Previous(start, arrivals, n)
        invariant forall i :: 0 <= i < n ==> (accepted[i] <==> Accepts(maxRate as real, minted, i))
      {
        assert MintsAt(maxRate as real, start, arrivals, minted, n);
        assert TokensAt(maxRate as real, minted, n)
            == Refilled(maxRate as real, tokens, (arrivals[n] - lastRefill) * (maxRate as real));
        var ok := CheckRateLimit(arrivals[n]);
        accepted := accepted + [ok];
      }
    }
  }

  // ---------------------------------------------------------------- the stream of decisions

  /** The time of the last refill before arrival i; `start` is when the client connected. */
  ghost function Previous(start: real, arrivals: seq<real>, i: nat): real
    requires i <= |arrivals|
  {
    if i == 0 then start else arrivals[i - 1]
  }

  ghost function Gain(minted: seq<real>, i: nat): real
    requires i < |minted|
  {
    if i == 0 then minted[0] else minted[i] - minted[i - 1]
  }

  ghost predicate MintsAt(rate: real, start: real, arrivals: seq<real>, minted: seq<real>, i: nat)
    requires i < |arrivals| == |minted|
  {
    Gain(minted, i) == (arrivals[i] - Previous(start, arrivals, i)) * rate
  }

  /**
    minted[i] is the number of tokens minted from `start` up to arrival i, as if the bucket had no
    cap. The bucket gains the difference between two of them, so all that follows is linear.
   */
  ghost predicate Mints(rate: real, start: real, arrivals: seq<real>, minted: seq<real>) {
    |arrivals| == |minted| && forall i :: 0 <= i < |arrivals| ==> MintsAt(rate, start, arrivals, minted, i)
  }

  /** The tokens left over before arrival i. */
  ghost function TokensBefore(rate: real, minted: seq<real>, i: nat): real
    requires i <= |minted|
    decreases i, 0
  {
    if i == 0 then rate
    else
      var full := TokensAt(rate, minted, i - 1);
      if full >= 1.0 then full - 1.0 else full
  }

  /** The tokens in the bucket when arrival i is checked. */
  ghost function TokensAt(rate: real, minted: seq<real>, i: nat): real
    requires i < |minted|
    decreases i, 1
  {
    Refilled(rate, TokensBefore(rate, minted, i), Gain(minted, i))
  }

  ghost predicate Accepts(rate: real, minted: seq<real>, i: nat)
    requires i < |minted|
  {
    TokensAt(rate, minted, i) >= 1.0
  }

  ghost predicate Rising(minted: seq<real>) {
    && (forall i :: 0 <= i < |minted| ==> minted[i] >= 0.0)
    && (forall i, j :: 0 <= i <= j < |minted| ==> minted[i] <= minted[j])
  }

  /** How many of the arrivals i..j (inclusive) were accepted. */
  ghost function AcceptedIn(rate: real, minted: seq<real>, i: nat, j: nat): nat
    requires i <= j < |minted|
    decreases j
  {
    (if Accepts(rate, minted, j) then 1 else 0) + (if i == j then 0 else AcceptedIn(rate, minted, i, j - 1))
  }

  lemma {:induction false} TokensBounded(rate: real, minted: seq<real>, i: nat)
    requires rate >= 1.0 && Rising(minted) && i <= |minted|
    ensures 0.0 <= TokensBefore(rate, minted, i) <= rate
  {
    if i > 0 {
      TokensBounded(rate, minted, i - 1);
    }
  }

  /** What is left after arrival j, plus what was accepted since i, never exceeds the envelope. */
  lemma {:induction false} SpendingBounded(rate: real, minted: seq<real>, i: nat, j: nat)
    requires rate >= 1.0 && Rising(minted) && i <= j < |minted|
    ensures TokensBefore(rate, minted, j + 1) + AcceptedIn(rate, minted, i, j) as real <= rate + minted[j] - minted[i]
    decreases j
  {
    if i < j {
      SpendingBounded(rate, minted, i, j - 1);
    }
  }

  lemma {:induction false} AllAcceptedCount(rate: real, minted: seq<real>, i: nat, j: nat)
    requires i <= j < |minted|
    requires forall k :: i <= k <= j ==> Accepts(rate, minted, k)
    ensures AcceptedIn(rate, minted, i, j) == j - i + 1
    decreases j
  {
    if i < j {
      AllAcceptedCount(rate, minted, i, j - 1);
    }
  }

  /**
    While everything is accepted the level of the bucket is that of the tightest window ending now:
    some arrival i from which the window to j leaves exactly the tokens that are left.
   */
  lemma {:induction false} TightestWindow(rate: real, minted: seq<real>, j: nat) returns (i: nat)
    requires rate >= 1.0 && Rising(minted) && j < |minted|
    requires forall k :: 0 <= k < j ==> Accepts(rate, minted, k)
    ensures i <= j
    ensures TokensAt(rate, minted, j) == rate + minted[j] - minted[i] - (j - i) as real
  {
    if j == 0 || TokensBefore(rate, minted, j) + Gain(minted, j) > rate {
      i := j;
    } else {
      i := TightestWindow(rate, minted, j - 1);
      assert Accepts(rate, minted, j - 1);
    }
  }

  lemma {:induction false} FittingStreamAccepted(rate: real, minted: seq<real>, n: nat)
    requires rate >= 1.0 && Rising(minted) && n <= |minted|
    requires forall i, j :: 0 <= i <= j < |minted| ==> (j - i + 1) as real <= rate + minted[j] - minted[i]
    ensures forall k :: 0 <= k < n ==> Accepts(rate, minted, k)
  {
    if n > 0 {
      FittingStreamAccepted(rate, minted, n - 1);
      var i := TightestWindow(rate, minted, n - 1);
      assert (n - 1 - i + 1) as real <= rate + minted[n - 1] - minted[i];
    }
  }

  // ---------------------------------------------------------------- the main results, in time

  /** The envelope: `count` messages between times t and u. */
  ghost predicate Fits(rate: real, count: int, t: real, u: real) {
    count as real <= rate + rate * (u - t)
  }

  ghost predicate Ordered(start: real, arrivals: seq<real>) {
    && (forall i :: 0 <= i < |arrivals| ==> start <= arrivals[i])
    && (forall i, j :: 0 <= i <= j < |arrivals| ==> arrivals[i] <= arrivals[j])
  }

  /** Every stream has its minted tokens, so nothing below is restricted by asking for them. */
  lemma {:induction false} StreamMints(rate: real, start: real, arrivals: seq<real>) returns (minted: seq<real>)
    ensures Mints(rate, start, arrivals, minted)
  {
    var n := |arrivals|;
    if n == 0 {
      minted := [];
    } else {
      var front := StreamMints(rate, start, arrivals[..n - 1]);
      var gain := (arrivals[n - 1] - Previous(start, arrivals, n - 1)) * rate;
      minted := front + [if n == 1 then gain else front[n - 2] + gain];
      forall i | 0 <= i < n
        ensures MintsAt(rate, start, arrivals, minted, i)
      {
        if i < n - 1 {
          assert MintsAt(rate, start, arrivals[..n - 1], front, i);
        }
      }
    }
  }

  lemma GainGrows(rate: real, t: real, u: real)
    requires rate >= 0.0 && t <= u
    ensures (u - t) * rate >= 0.0
  {}

  lemma WindowsAdd(rate: real, t: real, u: real, v: real)
    ensures rate * (u - t) + (v - u) * rate == rate * (v - t)
  {}

  /** The tokens minted over a window. */
  lemma {:induction false} MintedWindow(rate: real, start: real, arrivals: seq<real>, minted: seq<real>, i: nat, j: nat)
    requires Mints(rate, start, arrivals, minted) && i <= j < |arrivals|
    ensures minted[j] - minted[i] == rate * (arrivals[j] - arrivals[i])
    decreases j
  {
    if i < j {
      MintedWindow(rate, start, arrivals, minted, i, j - 1);
      assert MintsAt(rate, start, arrivals, minted, j);
      WindowsAdd(rate, arrivals[i], arrivals[j - 1], arrivals[j]);
    }
  }

  lemma MintedStep(rate: real, start: real, arrivals: seq<real>, minted: seq<real>, j: nat)
    requires j < |arrivals| == |minted| && MintsAt(rate, start, arrivals, minted, j)
    requires rate >= 1.0 && Previous(start, arrivals, j) <= arrivals[j]
    ensures minted[j] >= if j == 0 then 0.0 else minted[j - 1]
  {
    GainGrows(rate, Previous(start, arrivals, j), arrivals[j]);
  }

  lemma {:induction false} MintedRises(rate: real, start: real, arrivals: seq<real>, minted: seq<real>, i: nat, j: nat)
    requires rate >= 1.0 && Ordered(start, arrivals) && Mints(rate, start, arrivals, minted) && i <= j < |arrivals|
    ensures 0.0 <= minted[i] <= minted[j]
    decreases j
  {
    MintedStep(rate, start, arrivals, minted, j);
    if i < j {
      MintedRises(rate, start, arrivals, minted, i, j - 1);
    } else if j > 0 {
      MintedRises(rate, start, arrivals, minted, j - 1, j - 1);
    }
  }

  lemma MintedIsRising(rate: real, start: real, arrivals: seq<real>, minted: seq<real>)
    requires rate >= 1.0 && Ordered(start, arrivals) && Mints(rate, start, arrivals, minted)
    ensures Rising(minted)
  {
    forall i, j | 0 <= i <= j < |minted|
      ensures 0.0 <= minted[i] <= minted[j]
    {
      MintedRises(rate, start, arrivals, minted, i, j);
    }
  }

  lemma AcceptedFits(rate: real, minted: seq<real>, i: nat, j: nat)
    requires rate >= 1.0 && Rising(minted) && i <= j < |minted|
    ensures AcceptedIn(rate, minted, i, j) as real <= rate + minted[j] - minted[i]
  {
    SpendingBounded(rate, minted, i, j);
    TokensBounded(rate, minted, j + 1);
  }

  /** For any stream at all, the accepted messages alone satisfy the envelope in every window. */
  lemma AcceptedStreamFits(rate: real, start: real, arrivals: seq<real>, minted: seq<real>, i: nat, j: nat)
    requires rate >= 1.0 && Ordered(start, arrivals) && Mints(rate, start, arrivals, minted) && i <= j < |arrivals|
    ensures Fits(rate, AcceptedIn(rate, minted, i, j), arrivals[i], arrivals[j])
  {
    MintedIsRising(rate, start, arrivals, minted);
    AcceptedFits(rate, minted, i, j);
    MintedWindow(rate, start, arrivals, minted, i, j);
  }

  ghost predicate AcceptedInFull(rate: real, minted: seq<real>) {
    forall k :: 0 <= k < |minted| ==> Accepts(rate, minted, k)
  }

  ghost predicate EveryWindowFits(rate: real, arrivals: seq<real>) {
    forall i, j :: 0 <= i <= j < |arrivals| ==> Fits(rate, j - i + 1, arrivals[i], arrivals[j])
  }

  lemma WindowFitsMinted(rate: real, start: real, arrivals: seq<real>, minted: seq<real>, i: nat, j: nat)
    requires Mints(rate, start, arrivals, minted) && i <= j < |arrivals|
    ensures Fits(rate, j - i + 1, arrivals[i], arrivals[j]) <==> (j - i + 1) as real <= rate + minted[j] - minted[i]
  {
    MintedWindow(rate, start, arrivals, minted, i, j);
  }

  lemma FullStreamFits(rate: real, minted: seq<real>, i: nat, j: nat)
    requires rate >= 1.0 && Rising(minted) && i <= j < |minted| && AcceptedInFull(rate, minted)
    ensures (j - i + 1) as real <= rate + minted[j] - minted[i]
  {
    AllAcceptedCount(rate, minted, i, j);
    AcceptedFits(rate, minted, i, j);
  }

  /**
    The bucket is exact: a stream is accepted in full if and only if every window from arrival i to
    arrival j holds at most rate + rate * (t_j - t_i) messages.
   */
  lemma AcceptedInFullExactlyWhenFits(rate: real, start: real, arrivals: seq<real>, minted: seq<real>)
    requires rate >= 1.0 && Ordered(start, arrivals) && Mints(rate, start, arrivals, minted)
    ensures AcceptedInFull(rate, minted) <==> EveryWindowFits(rate, arrivals)
  {
    MintedIsRising(rate, start, arrivals, minted);
    if AcceptedInFull(rate, minted) {
      forall i, j | 0 <= i <= j < |arrivals|
        ensures Fits(rate, j - i + 1, arrivals[i], arrivals[j])
      {
        FullStreamFits(rate, minted, i, j);
        WindowFitsMinted(rate, start, arrivals, minted, i, j);
      }
    }
    if EveryWindowFits(rate, arrivals) {
      forall i, j | 0 <= i <= j < |minted|
        ensures (j - i + 1) as real <= rate + minted[j] - minted[i]
      {
        assert Fits(rate, j - i + 1, arrivals[i], arrivals[j]);
        WindowFitsMinted(rate, start, arrivals, minted, i, j);
      }
      FittingStreamAccepted(rate, minted, |minted|);
    }
  }
}
