// The limiter of first announces: tokenBucket.allow, with the refill as an integer quotient of nanoseconds.
module TokenBucket {
  import opened Types

  datatype Bucket = Bucket(tokens: int, rate: int, burst: int, lastTick: int)
  {
    // NewForwarderManager makes rate and burst positive.
    predicate Ok() {
      0 <= tokens <= burst && 0 < rate && 0 < burst && ZERO_TIME <= lastTick
    }

    function Refilled(now: int): Bucket {
      var b := if lastTick == ZERO_TIME then this.(lastTick := now, tokens := burst) else this;
      var refill := (now - b.lastTick) * rate / SECOND;
      if now > b.lastTick && rate > 0 && refill > 0
      then b.(tokens := Min(burst, b.tokens + refill), lastTick := now) else b
    }

    predicate Allows(now: int) {
      Refilled(now).tokens > 0
    }

    function Called(now: int): Bucket {
      var b := Refilled(now);
      if b.tokens > 0 then b.(tokens := b.tokens - 1) else b
    }
  }

  class Limiter {
    var tokens: int
    const rate: int
    const burst: int
    var lastTick: int

    function View(): Bucket
      reads this
    {
      Bucket(tokens, rate, burst, lastTick)
    }

    constructor (rate: int, burst: int)
      requires 0 < rate && 0 < burst
      ensures View() == Bucket(burst, rate, burst, ZERO_TIME) && View().Ok()
    {
      this.rate, this.burst, tokens, lastTick := rate, burst, burst, ZERO_TIME;
    }

    method Allow(now: int) returns (granted: bool)
      requires View().Ok() && lastTick <= now
      modifies this
      ensures granted == old(View()).Allows(now) && View() == old(View()).Called(now) && View().Ok()
    {
      ghost var was := View();
      Keeps(was, now);
      if lastTick == ZERO_TIME {
        lastTick := now;
        tokens := burst;
      }
      var elapsed := now - lastTick;
      if elapsed > 0 && rate > 0 {
        var refill := elapsed * rate / SECOND;
        if refill > 0 {
          tokens := Min(burst, tokens + refill);
          lastTick := now;
        }
      }
      assert View() == was.Refilled(now);
      if tokens > 0 {
        tokens := tokens - 1;
        return true;
      }
      return false;
    }
  }

  lemma Keeps(b: Bucket, now: int)
    requires b.Ok() && b.lastTick <= now
    ensures b.Refilled(now).Ok() && b.Called(now).Ok()
    ensures b.Called(now).lastTick <= now && b.Called(now).rate == b.rate && b.Called(now).burst == b.burst
  {
  }

  // The instants of the calls; allow reads a clock that never goes back, under its lock.
  ghost predicate Times(b: Bucket, at: seq<int>) {
    && (at != [] ==> b.lastTick <= at[0] && ZERO_TIME < at[0])
    && (forall i, j :: 0 <= i < j < |at| ==> at[i] <= at[j])
  }

  function After(b: Bucket, at: seq<int>): Bucket {
    if at == [] then b else After(b, at[..|at| - 1]).Called(at[|at| - 1])
  }

  function Grants(b: Bucket, at: seq<int>): nat {
    if at == [] then 0
    else Grants(b, at[..|at| - 1]) + if After(b, at[..|at| - 1]).Allows(at[|at| - 1]) then 1 else 0
  }

  lemma {:induction false} AfterOk(b: Bucket, at: seq<int>)
    requires b.Ok() && Times(b, at)
    ensures var e := After(b, at);
            && e.Ok() && e.rate == b.rate && e.burst == b.burst
            && (at != [] ==> ZERO_TIME < e.lastTick <= at[|at| - 1])
  {
    if at != [] {
      AfterOk(b, at[..|at| - 1]);
      Keeps(After(b, at[..|at| - 1]), at[|at| - 1]);
    }
  }

  // What a span of time is worth, in tokens times SECOND.
  function Worth(rate: int, span: int): int {
    rate * span
  }

  // Credit: the tokens, and what time has earned since the last refill.
  function Credit(b: Bucket, now: int): int {
    SECOND * b.tokens + Worth(b.rate, now - b.lastTick)
  }

  lemma Quotient(x: int)
    ensures x / SECOND * SECOND <= x < (x / SECOND + 1) * SECOND
  {
  }

  // From a to b and from b to c is from a to c.
  lemma WorthAdds(rate: int, a: int, b: int, c: int)
    ensures Worth(rate, c - a) == Worth(rate, b - a) + Worth(rate, c - b) && Worth(rate, a - a) == 0
  {
    assert rate * ((b - a) + (c - b)) == rate * (b - a) + rate * (c - b);
  }

  lemma CreditGrows(b: Bucket, t: int, now: int)
    ensures Credit(b, now) == Credit(b, t) + Worth(b.rate, now - t)
  {
    WorthAdds(b.rate, b.lastTick, t, now);
  }

  // A refill never creates credit, and leaves less than one token uncredited.
  lemma RefillCredit(b: Bucket, now: int)
    requires b.Ok() && ZERO_TIME < b.lastTick <= now
    ensures Credit(b.Refilled(now), now) <= Credit(b, now)
    ensures Credit(b.Refilled(now), now) <= SECOND * b.burst + SECOND - 1
  {
    var earned := (now - b.lastTick) * b.rate;
    Quotient(earned);
    assert b.rate * (now - b.lastTick) == earned;
    if now > b.lastTick && earned / SECOND > 0 {
      assert b.Refilled(now).lastTick == now && b.rate * (now - now) == 0;
    } else {
      assert earned < SECOND by {
        if now == b.lastTick {
          assert earned == 0;
        }
      }
    }
  }

  // A first call starts from a full bucket.
  lemma FirstCredit(b: Bucket, now: int)
    requires b.Ok() && b.lastTick == ZERO_TIME < now
    ensures Credit(b.Refilled(now), now) == SECOND * b.burst
  {
    assert b.Refilled(now) == b.(lastTick := now, tokens := b.burst);
    assert b.rate * (now - now) == 0;
  }

  // Every grant is paid from the credit of the window's first call, or from the time that passed since.
  lemma {:induction false} GrantsArePaid(b: Bucket, at: seq<int>)
    requires b.Ok() && Times(b, at) && at != []
    ensures SECOND * Grants(b, at) + Credit(After(b, at), at[|at| - 1])
            <= SECOND * b.burst + SECOND - 1 + Worth(b.rate, at[|at| - 1] - at[0])
  {
    hide Worth, Credit, Bucket.Refilled, Bucket.Called, Bucket.Allows;
    var n := |at| - 1;
    var front, now := at[..n], at[n];
    var e := After(b, front);
    AfterOk(b, front);
    WorthAdds(b.rate, at[0], if n == 0 then now else at[n - 1], now);
    if front == [] {
      assert now == at[0];
      if e.lastTick == ZERO_TIME { FirstCredit(e, now); } else { RefillCredit(e, now); }
    } else {
      GrantsArePaid(b, front);
      CreditGrows(e, at[n - 1], now);
      RefillCredit(e, now);
    }
    CallCredit(e, now);
  }

  lemma CallCredit(b: Bucket, now: int)
    ensures Credit(b.Called(now), now) == Credit(b.Refilled(now), now) - if b.Allows(now) then SECOND else 0
  {
  }

  lemma UnspentCredit(b: Bucket, now: int)
    requires b.Ok() && b.lastTick <= now
    ensures 0 <= Credit(b, now)
  {
    var waited := now - b.lastTick;
    assert 0 <= b.rate * waited;
  }

  // Calls over a window of T nanoseconds are granted at most burst + rate * T + 1 times, T in seconds,
  // whatever the bucket's state at the start of the window.
  lemma WindowBound(b: Bucket, at: seq<int>)
    requires b.Ok() && Times(b, at) && at != []
    ensures SECOND * Grants(b, at) <= SECOND * (b.burst + 1) - 1 + b.rate * (at[|at| - 1] - at[0])
  {
    GrantsArePaid(b, at);
    AfterOk(b, at);
    UnspentCredit(After(b, at), at[|at| - 1]);
  }

  // A refused call leaves the bucket as it was: polling does not postpone the next token.
  lemma RefusedLeavesBucket(b: Bucket, now: int)
    requires b.Ok() && ZERO_TIME < b.lastTick <= now && !b.Allows(now)
    ensures b.Called(now) == b
  {
  }

  // Callers that keep polling get a token once 1 / rate seconds have passed since the last refill.
  lemma {:induction false} PollingSucceeds(b: Bucket, at: seq<int>)
    requires b.Ok() && ZERO_TIME < b.lastTick && Times(b, at) && at != []
    requires b.rate * (at[|at| - 1] - b.lastTick) >= SECOND
    ensures Grants(b, at) >= 1
  {
    if Grants(b, at) == 0 {
      AllRefused(b, at[..|at| - 1]);
      EarnedIsGranted(b, at[|at| - 1]);
    }
  }

  // 1 / rate seconds after the last refill a call is granted.
  lemma EarnedIsGranted(b: Bucket, now: int)
    requires b.Ok() && ZERO_TIME < b.lastTick <= now && b.rate * (now - b.lastTick) >= SECOND
    ensures b.Allows(now)
  {
    var earned := (now - b.lastTick) * b.rate;
    Quotient(earned);
    assert earned == b.rate * (now - b.lastTick);
    assert now - b.lastTick == 0 ==> earned == 0;
  }

  lemma {:induction false} AllRefused(b: Bucket, at: seq<int>)
    requires b.Ok() && ZERO_TIME < b.lastTick && Times(b, at) && Grants(b, at) == 0
    ensures After(b, at) == b
  {
    if at != [] {
      AllRefused(b, at[..|at| - 1]);
      RefusedLeavesBucket(b, at[|at| - 1]);
    }
  }

  // Lower bounds

  // Whole tokens that the time since the last refill is worth.
  function Earned(b: Bucket, now: int): int {
    (now - b.lastTick) * b.rate / SECOND
  }

  lemma EarnedIsNatural(b: Bucket, now: int)
    requires b.Ok() && b.lastTick <= now
    ensures 0 <= Earned(b, now)
  {
    var waited := now - b.lastTick;
    assert 0 <= waited * b.rate;
  }

  // One call, exactly: it is granted if there is a token after the refill, the refill adds to the tokens left and
  // stops at burst, and a grant takes one.
  lemma CallAccounts(b: Bucket, now: int)
    requires b.Ok() && ZERO_TIME < b.lastTick <= now
    ensures b.Allows(now) <==> b.tokens + Earned(b, now) > 0
    ensures b.Called(now).tokens + (if b.Allows(now) then 1 else 0) == Min(b.burst, b.tokens + Earned(b, now))
    ensures b.Called(now).lastTick == if Earned(b, now) > 0 then now else b.lastTick
  {
    EarnedIsNatural(b, now);
    if now == b.lastTick {
      assert (now - b.lastTick) * b.rate == 0;
    }
  }

  // The first call of all finds a full bucket.
  lemma FirstCall(b: Bucket, now: int)
    requires b.Ok() && b.lastTick == ZERO_TIME < now
    ensures b.Allows(now) && b.Called(now) == b.(tokens := b.burst - 1, lastTick := now)
  {
    assert (now - now) * b.rate == 0;
  }

  // What a caller can count on: the tokens left, or a full bucket before the first call.
  function Saved(b: Bucket): int {
    if b.lastTick == ZERO_TIME then b.burst else b.tokens
  }

  // No token is lost: those saved at the start were granted since, or are still there.
  lemma {:induction false} NothingLost(b: Bucket, at: seq<int>)
    requires b.Ok() && Times(b, at) && at != []
    ensures After(b, at).tokens + Grants(b, at) >= Saved(b)
  {
    var n := |at| - 1;
    var front, now := at[..n], at[n];
    var e := After(b, front);
    AfterOk(b, front);
    if front != [] {
      NothingLost(b, front);
    }
    if e.lastTick == ZERO_TIME {
      FirstCall(e, now);
    } else {
      CallAccounts(e, now);
      EarnedIsNatural(e, now);
    }
  }

  // Whatever the instants of the calls, all are granted as long as the tokens saved at the start last: burst calls
  // from the first one on, and k calls when k tokens are there.
  lemma {:induction false} SavedAreGranted(b: Bucket, at: seq<int>)
    requires b.Ok() && Times(b, at)
    ensures Grants(b, at) >= Min(|at|, Saved(b))
  {
    if at != [] {
      var n := |at| - 1;
      var front, now := at[..n], at[n];
      var e := After(b, front);
      AfterOk(b, front);
      SavedAreGranted(b, front);
      if front != [] {
        NothingLost(b, front);
      }
      if e.lastTick == ZERO_TIME {
        FirstCall(e, now);
      } else {
        CallAccounts(e, now);
        EarnedIsNatural(e, now);
      }
    }
  }

  // No refill of these calls is cut off at burst.
  ghost predicate NeverFull(b: Bucket, at: seq<int>) {
    at != [] ==>
      var n := |at| - 1;
      NeverFull(b, at[..n]) && After(b, at[..n]).tokens + Earned(After(b, at[..n]), at[n]) <= b.burst
  }

  // A quotient of at least one is more than half of what is divided.
  lemma MoreThanHalf(x: int)
    requires x / SECOND > 0
    ensures 2 * SECOND * (x / SECOND) > x
  {
    Quotient(x);
  }

  // While the bucket is not full, refills are worth at least half of the time they cover: the part of a token that
  // a refill drops is less than the tokens it adds.
  lemma {:induction false} RefillsEarn(b: Bucket, at: seq<int>)
    requires b.Ok() && ZERO_TIME < b.lastTick && Times(b, at) && NeverFull(b, at)
    ensures var e := After(b, at);
            2 * SECOND * (Grants(b, at) + e.tokens - b.tokens) >= Worth(b.rate, e.lastTick - b.lastTick)
  {
    hide Worth, Earned, Bucket.Refilled, Bucket.Called, Bucket.Allows;
    if at == [] {
      WorthAdds(b.rate, b.lastTick, b.lastTick, b.lastTick);
    } else {
      var n := |at| - 1;
      var front, now := at[..n], at[n];
      var e := After(b, front);
      AfterOk(b, front);
      RefillsEarn(b, front);
      CallAccounts(e, now);
      EarnedIsNatural(e, now);
      if Earned(e, now) > 0 {
        RefillEarns(e, now);
        WorthAdds(b.rate, b.lastTick, e.lastTick, now);
      }
    }
  }

  lemma RefillEarns(b: Bucket, now: int)
    requires Earned(b, now) > 0
    ensures 2 * SECOND * Earned(b, now) > Worth(b.rate, now - b.lastTick)
  {
    MoreThanHalf((now - b.lastTick) * b.rate);
    assert (now - b.lastTick) * b.rate == b.rate * (now - b.lastTick);
  }

  // After a call, less than one token of time is waiting.
  lemma LittleWaits(b: Bucket, now: int)
    requires b.Ok() && ZERO_TIME < b.lastTick <= now
    ensures Worth(b.rate, now - b.Called(now).lastTick) < SECOND
  {
    CallAccounts(b, now);
    EarnedIsNatural(b, now);
    Quotient((now - b.lastTick) * b.rate);
    assert (now - b.lastTick) * b.rate == b.rate * (now - b.lastTick);
    assert b.rate * (now - now) == 0;
  }

  // Over a window in which the bucket never fills up, the grants and the tokens left are at least the tokens at the
  // start and half of the time's worth, less half a token.
  lemma TimeIsWorthGrants(b: Bucket, at: seq<int>)
    requires b.Ok() && ZERO_TIME < b.lastTick && Times(b, at) && at != [] && NeverFull(b, at)
    ensures 2 * SECOND * (Grants(b, at) + After(b, at).tokens - b.tokens) > b.rate * (at[|at| - 1] - b.lastTick) - SECOND
  {
    hide NeverFull, Bucket.Refilled, Bucket.Called, Bucket.Allows;
    TimeIsWorth(b, at);
  }

  lemma TimeIsWorth(b: Bucket, at: seq<int>)
    requires b.Ok() && ZERO_TIME < b.lastTick && Times(b, at) && at != [] && NeverFull(b, at)
    ensures 2 * SECOND * (Grants(b, at) + After(b, at).tokens - b.tokens) >
            Worth(b.rate, at[|at| - 1] - b.lastTick) - SECOND
  {
    hide Worth, NeverFull, Grants, Bucket.Refilled, Bucket.Called, Bucket.Allows;
    var n := |at| - 1;
    RefillsEarn(b, at);
    AfterOk(b, at[..n]);
    LittleWaits(After(b, at[..n]), at[n]);
    WorthAdds(b.rate, b.lastTick, After(b, at).lastTick, at[n]);
  }
}
