/** What the rate limiter charges and mints, to the permit: no more than the bytes need, no less than the time earns. */
module RateCharges {
  import opened Types
  import opened Arith
  import opened RateLimiter

  // ---- one second's worth

  /** The whole kibibytes of the rate, but at least one permit and at most what a semaphore call can take. */
  lemma OneSecond(rate: nat)
    ensures 1024 <= rate < 0x8000_0000 * 1024 ==> MaxPermits(rate) * 1024 <= rate < MaxPermits(rate) * 1024 + 1024
    ensures rate < 1024 ==> MaxPermits(rate) == 1
    ensures rate >= 0x8000_0000 * 1024 ==> MaxPermits(rate) == 0x7fff_ffff
  {
  }

  // ---- charges

  /** No request is charged more than its bytes rounded up to whole permits. */
  ghost predicate FairInv(s: Limiter) {
    && s.spent * 1024 <= s.bytes + 1023 * s.served
    && forall i | 0 <= i < |s.queue| :: s.queue[i].cost * 1024 <= s.queue[i].bytes + 1023
  }

  lemma CostIsFair(bytes: nat, max: nat)
    ensures Needed(bytes, max) * 1024 <= bytes + 1023
  {
    DivCeilIs(bytes, 1024);
  }

  lemma {:induction false} GiveFair(s: Limiter, n: nat)
    requires FairInv(s)
    ensures FairInv(Give(s, n))
    decreases |s.queue|
  {
    if s.queue != [] && n >= s.queue[0].left {
      var w := s.queue[0];
      GiveFair(s.(queue := s.queue[1..], served := s.served + 1, spent := s.spent + w.cost, bytes := s.bytes + w.bytes), n - w.left);
    }
  }

  lemma DoFair(s: Limiter, e: Event)
    requires FairInv(s) && CanDo(s, e) && s.leftover >= 0.0
    ensures FairInv(Do(s, e))
  {
    match e
    case Wake(dt) =>
    case Add => GiveFair(s.(toAdd := 0, minted := s.minted + s.toAdd), s.toAdd);
    case Acquire(b) => CostIsFair(b, s.max); hide Needed;
  }

  lemma {:induction false} RunFair(s: Limiter, events: seq<Event>)
    requires FairInv(s) && Run(s, events).Some?
    ensures FairInv(Run(s, events).value)
    decreases |events|
  {
    if events != [] {
      DoFair(s, events[0]);
      hide FairInv, CanDo, Do;
      RunFair(Do(s, events[0]), events[1..]);
    }
  }

  /** Over every run, served requests have paid for less than one kibibyte each beyond the bytes they carried. */
  lemma ChargesAreFair(bytesPerSec: nat, events: seq<Event>)
    requires Run(Start(bytesPerSec), events).Some?
    ensures var s := Run(Start(bytesPerSec), events).value;
            s.served > 0 ==> s.spent * 1024 < s.bytes + 1024 * s.served
  {
    hide Run, MaxPermits;
    RunFair(Start(bytesPerSec), events);
  }

  /** A request that the free permits cover is served at once and takes no more of them than its bytes need. */
  lemma ServedAtOnce(s: Limiter, bytes: nat)
    requires Inv(s) && 0 < bytes <= s.avail * 1024
    ensures var t := Request(s, bytes);
            && t.served == s.served + 1 && t.bytes == s.bytes + bytes && t.queue == s.queue == []
            && (s.avail - t.avail) * 1024 < bytes + 1024 && t.spent - s.spent == s.avail - t.avail
  {
    DivCeilIs(bytes, 1024);
    CostIsFair(bytes, s.max);
    var need := DivCeil(bytes, 1024);
    assert need <= s.avail;
  }

  /** No request overtakes another: while one waits, every later one that is not empty waits behind it. */
  lemma NobodyOvertakes(s: Limiter, bytes: nat)
    requires Inv(s) && s.queue != [] && bytes > 0
    ensures var t := Request(s, bytes);
            |t.queue| == |s.queue| + 1 && t.queue[..|s.queue|] == s.queue && t.queue[|s.queue|].bytes == bytes && t.served == s.served
  {
    DivCeilIs(bytes, 1024);
    assert Needed(bytes, s.max) > 0;
  }

  // ---- minting

  /** Whole permits for which the bucket has no room at a round of the refill thread. */
  ghost function Refused(s: Limiter, e: Event): nat
    requires s.leftover >= 0.0 && CanDo(s, e)
  {
    if e.Wake? then Max(0, Mint(s.max, s.leftover, e.dt).Floor - (s.max - s.avail)) else 0
  }

  /** The same over a run. */
  ghost function Lost(s: Limiter, events: seq<Event>): nat
    decreases |events|
  {
    if events == [] || !CanDo(s, events[0]) || s.leftover < 0.0 then 0
    else Refused(s, events[0]) + Lost(Do(s, events[0]), events[1..])
  }

  /** Permits in circulation, decided on, and the fraction carried over. */
  ghost function Made(s: Limiter): real { s.minted as real + s.toAdd as real + s.leftover }

  lemma WakeMakes(s: Limiter, dt: real)
    requires Inv(s) && CanDo(s, Wake(dt))
    ensures Made(WakeUp(s, dt)) + Refused(s, Wake(dt)) as real == Made(s) + dt * s.max as real
  {
    assert Mint(s.max, s.leftover, dt) == dt * s.max as real + s.leftover;
    hide Held, WaiterOk, MaxPermits, Budget, Mint;
  }

  lemma GiveMakes(s: Limiter)
    requires Inv(s) && CanDo(s, Add)
    ensures Made(Do(s, Add)) == Made(s) && Do(s, Add).elapsed == s.elapsed && Do(s, Add).max == s.max
  {
    GiveKeeps(s.(toAdd := 0, minted := s.minted + s.toAdd), s.toAdd);
    hide Held, WaiterOk, MaxPermits, Budget, Give;
  }

  lemma RequestMakes(s: Limiter, b: nat)
    ensures var t := Request(s, b);
            t.minted == s.minted && t.toAdd == s.toAdd && t.leftover == s.leftover && t.elapsed == s.elapsed && t.max == s.max
  {
    hide Needed;
  }

  lemma StepMakes(s: Limiter, e: Event)
    requires Inv(s) && CanDo(s, e)
    ensures var t := Do(s, e);
            && t.max == s.max
            && Made(t) + Refused(s, e) as real + Budget(s.max, s.elapsed) == Made(s) + Budget(s.max, t.elapsed)
  {
    hide Held, WaiterOk, MaxPermits, Mint, Give, Request;
    match e
    case Wake(dt) =>
      WakeMakes(s, dt);
      Spread(s.max as real, s.elapsed, dt);
    case Add => GiveMakes(s);
    case Acquire(b) => RequestMakes(s, b);
  }

  lemma {:induction false} RunMakes(s: Limiter, events: seq<Event>)
    requires Inv(s) && Run(s, events).Some?
    ensures var t := Run(s, events).value;
            Made(t) + Lost(s, events) as real + Budget(s.max, s.elapsed) == Made(s) + Budget(s.max, t.elapsed)
    decreases |events|
  {
    if events != [] {
      DoKeeps(s, events[0]);
      StepMakes(s, events[0]);
      LostSplits(s, events);
      hide Inv, CanDo, Do, Made, Budget, Refused, Lost;
      RunMakes(Do(s, events[0]), events[1..]);
    }
  }

  lemma LostSplits(s: Limiter, events: seq<Event>)
    requires events != [] && s.leftover >= 0.0 && CanDo(s, events[0])
    ensures Lost(s, events) == Refused(s, events[0]) + Lost(Do(s, events[0]), events[1..])
  {
    hide Refused, Do;
  }

  /**
    Nothing is lost but what the bucket has no room for: over every run, permits minted, decided on, carried over as
    a fraction, and refused by a full bucket add up to the rate times the time.
  */
  lemma MintIsExact(bytesPerSec: nat, events: seq<Event>)
    requires Run(Start(bytesPerSec), events).Some?
    ensures var s := Run(Start(bytesPerSec), events).value;
            && s.minted as real + s.toAdd as real + s.leftover + Lost(Start(bytesPerSec), events) as real
               == Budget(MaxPermits(bytesPerSec), s.elapsed)
            && s.minted == s.spent + Held(s.queue) + s.avail
  {
    var start := Start(bytesPerSec);
    assert Made(start) == 0.0 && Budget(start.max, start.elapsed) == 0.0;
    StartOk(bytesPerSec);
    hide Run, MaxPermits, Budget, Lost, Start;
    RunMakes(start, events);
    RunKeeps(start, events);
    hide Held, WaiterOk;
  }
}
