/** The token bucket: permits minted by elapsed time, handed out first come first served. Time is in real seconds. */
module RateLimiter {
  import opened Types
  import opened Arith

  const UNIT: nat := 1024

  /** One second's worth of permits: at least one, at most what a semaphore call can take. */
  function MaxPermits(bytesPerSec: nat): (m: nat)
    ensures 0 < m <= 0x7fff_ffff
    ensures bytesPerSec >= UNIT ==> m * UNIT <= bytesPerSec
  {
    Min(Max(bytesPerSec / UNIT, 1), 0x7fff_ffff)
  }

  /** What a request costs; larger requests are clipped to one second's worth. */
  function Needed(bytes: nat, max: nat): nat { Min(DivCeil(bytes, UNIT), max) }

  /** A request in the queue, `left` permits short of being served. */
  datatype Waiter = Waiter(bytes: nat, cost: nat, left: nat)

  datatype Limiter = Limiter(
    rate: nat, max: nat,
    // the semaphore: free permits, and the queue; permits go to the head of the queue first
    avail: nat, queue: seq<Waiter>,
    // the refill thread: the fraction carried over, and what it has decided to add but not added yet
    leftover: real, toAdd: nat,
    // history: elapsed time, whole permits minted, requests made and served, what the served ones cost and carried
    elapsed: real, minted: nat, issued: nat, served: nat, spent: nat, bytes: nat)

  function Start(bytesPerSec: nat): Limiter {
    Limiter(bytesPerSec, MaxPermits(bytesPerSec), 0, [], 0.0, 0, 0.0, 0, 0, 0, 0, 0)
  }

  datatype Event = Wake(dt: real) | Add | Acquire(bytes: nat)

  /** The refill thread sleeps at least 10 ms, and finishes one round before the next. */
  predicate CanDo(s: Limiter, e: Event) {
    match e
    case Wake(dt) => dt >= 0.01 && s.toAdd == 0
    case Add => s.toAdd > 0
    case Acquire(_) => true
  }

  /** Permits earned since the last round, with the fraction carried over. */
  function Mint(max: nat, leftover: real, dt: real): (m: real)
    requires dt >= 0.0 && leftover >= 0.0
    ensures m >= leftover
  {
    NonNegative(dt, max as real);
    dt * max as real + leftover
  }

  lemma NonNegative(x: real, y: real)
    requires x >= 0.0 && y >= 0.0
    ensures x * y >= 0.0
  {
  }

  /** Elapsed time becomes whole permits, as far as the bucket has room; the fraction is carried over. */
  function WakeUp(s: Limiter, dt: real): Limiter
    requires dt >= 0.0 && s.leftover >= 0.0
  {
    var mint := Mint(s.max, s.leftover, dt);
    var whole := mint.Floor;
    s.(leftover := mint - whole as real, elapsed := s.elapsed + dt,
       toAdd := if s.avail < s.max && whole > 0 then Min(whole, s.max - s.avail) else 0)
  }

  /** add_permits: the head of the queue is filled first, the rest is free. */
  function Give(s: Limiter, n: nat): Limiter
    decreases |s.queue|
  {
    if s.queue == [] then s.(avail := s.avail + n)
    else
      var w := s.queue[0];
      if n < w.left then s.(queue := [w.(left := w.left - n)] + s.queue[1..])
      else Give(s.(queue := s.queue[1..], served := s.served + 1, spent := s.spent + w.cost, bytes := s.bytes + w.bytes), n - w.left)
  }

  /**
    acquire_many: served at once when the permits are there, else queued with what there is. An empty request needs
    no permit and takes no place in the queue.
  */
  function Request(s: Limiter, bytes: nat): Limiter {
    var cost := Needed(bytes, s.max);
    var t := s.(issued := s.issued + 1);
    if bytes == 0 then s
    else if s.avail >= cost
    then t.(avail := s.avail - cost, served := s.served + 1, spent := s.spent + cost, bytes := s.bytes + bytes)
    else t.(avail := 0, queue := s.queue + [Waiter(bytes, cost, cost - s.avail)])
  }

  function Do(s: Limiter, e: Event): Limiter
    requires CanDo(s, e) && s.leftover >= 0.0
  {
    match e
    case Wake(dt) => WakeUp(s, dt)
    case Add => Give(s.(toAdd := 0, minted := s.minted + s.toAdd), s.toAdd)
    case Acquire(b) => Request(s, b)
  }

  // ---- in place

  /** The shared semaphore with its queue, and the refill thread's locals. */
  class Bucket {
    const rate: nat
    const max: nat
    var avail: nat
    var queue: seq<Waiter>
    var leftover: real
    var toAdd: nat
    ghost var elapsed: real
    ghost var minted: nat
    ghost var issued: nat
    ghost var served: nat
    ghost var spent: nat
    ghost var bytes: nat

    ghost function State(): Limiter
      reads this
    {
      Limiter(rate, max, avail, queue, leftover, toAdd, elapsed, minted, issued, served, spent, bytes)
    }

    constructor (bytesPerSec: nat)
      ensures State() == Start(bytesPerSec)
    {
      rate, max := bytesPerSec, MaxPermits(bytesPerSec);
      avail, queue, leftover, toAdd := 0, [], 0.0, 0;
      elapsed, minted, issued, served, spent, bytes := 0.0, 0, 0, 0, 0, 0;
    }

    /** One round of the refill loop up to the decision how much to add. */
    method Wake(dt: real)
      requires CanDo(State(), Event.Wake(dt)) && leftover >= 0.0
      modifies this
      ensures State() == Do(old(State()), Event.Wake(dt))
    {
      var mint := Mint(max, leftover, dt);
      var mintWhole := mint.Floor;
      leftover := mint - mintWhole as real;
      elapsed := elapsed + dt;
      var cur := avail;
      if cur < max {
        if mintWhole > 0 {
          toAdd := Min(mintWhole, max - cur);
        }
      }
    }

    /** add_permits, waking the queue in order. */
    method AddPermits()
      requires CanDo(State(), Add) && leftover >= 0.0
      modifies this
      ensures State() == Do(old(State()), Add)
    {
      var n: nat := toAdd;
      minted := minted + n;
      toAdd := 0;
      ghost var goal := Give(State(), n);
      while queue != [] && n >= queue[0].left
        invariant Give(State(), n) == goal
        decreases |queue|
      {
        var w := queue[0];
        n := n - w.left;
        queue := queue[1..];
        served, spent, bytes := served + 1, spent + w.cost, bytes + w.bytes;
      }
      if queue == [] {
        avail := avail + n;
      } else {
        queue := [queue[0].(left := queue[0].left - n)] + queue[1..];
      }
    }

    /** acquire, up to the point where the caller either has its permits or waits in the queue. */
    method Acquire(b: nat) returns (done: bool)
      modifies this
      ensures leftover == old(leftover) && (leftover >= 0.0 ==> State() == Do(old(State()), Event.Acquire(b)))
      ensures done <==> b == 0 || served == old(served) + 1
    {
      var cost := Needed(b, max);
      if b == 0 {
        return true;
      }
      issued := issued + 1;
      if avail >= cost {
        avail := avail - cost;
        served, spent, bytes := served + 1, spent + cost, bytes + b;
        done := true;
      } else {
        queue := queue + [Waiter(b, cost, cost - avail)];
        avail := 0;
        done := false;
      }
    }
  }

  // ---- the invariant

  /** Permits already set aside for queued requests. */
  function Held(queue: seq<Waiter>): int {
    if queue == [] then 0 else queue[0].cost - queue[0].left + Held(queue[1..])
  }

  predicate WaiterOk(s: Limiter, w: Waiter) {
    w.cost == Needed(w.bytes, s.max) && 0 < w.left <= w.cost
  }

  ghost predicate Inv(s: Limiter) {
    && s.max == MaxPermits(s.rate)
    && 0.0 <= s.leftover < 1.0 && s.elapsed >= 0.0
    && s.avail + s.toAdd <= s.max
    && (forall i | 0 <= i < |s.queue| :: WaiterOk(s, s.queue[i]))
    && (s.queue != [] ==> s.avail == 0)
    && s.served + |s.queue| == s.issued
    && s.spent + Held(s.queue) + s.avail == s.minted
    && s.minted as real + s.toAdd as real + s.leftover <= Budget(s.max, s.elapsed)
  }

  /** What the rate allows in a time. */
  ghost function Budget(max: nat, t: real): real { max as real * t }

  lemma {:induction false} HeldAppend(q: seq<Waiter>, w: Waiter)
    ensures Held(q + [w]) == Held(q) + w.cost - w.left
  {
    if q == [] {
      assert (q + [w])[1..] == [];
    } else {
      HeldAppend(q[1..], w);
      assert (q + [w])[1..] == q[1..] + [w];
    }
  }

  lemma {:induction false} HeldNat(s: Limiter, q: seq<Waiter>)
    requires forall i | 0 <= i < |q| :: WaiterOk(s, q[i])
    ensures Held(q) >= 0
  {
    if q != [] {
      HeldNat(s, q[1..]);
    }
  }

  /** The part of the invariant that moves while permits are handed out. */
  ghost predicate Handing(s: Limiter, n: nat) {
    && s.avail + n <= s.max && s.max == MaxPermits(s.rate)
    && (forall i | 0 <= i < |s.queue| :: WaiterOk(s, s.queue[i]))
    && (s.queue != [] ==> s.avail == 0)
    && s.served + |s.queue| == s.issued
    && s.spent + Held(s.queue) + s.avail + n == s.minted
  }

  lemma {:induction false} GiveKeeps(s: Limiter, n: nat)
    requires Handing(s, n)
    ensures Handing(Give(s, n), 0)
    ensures var t := Give(s, n);
            t == s.(avail := t.avail, queue := t.queue, served := t.served, spent := t.spent, bytes := t.bytes)
    decreases |s.queue|
  {
    if s.queue != [] {
      var w := s.queue[0];
      assert WaiterOk(s, w);
      if n >= w.left {
        GiveKeeps(s.(queue := s.queue[1..], served := s.served + 1, spent := s.spent + w.cost, bytes := s.bytes + w.bytes), n - w.left);
      } else {
        var q := [w.(left := w.left - n)] + s.queue[1..];
        assert q[1..] == s.queue[1..];
      }
    }
  }

  lemma WakeKeeps(s: Limiter, dt: real)
    requires Inv(s) && CanDo(s, Wake(dt))
    ensures Inv(WakeUp(s, dt))
  {
    Spread(s.max as real, s.elapsed, dt);
    assert Mint(s.max, s.leftover, dt) == dt * s.max as real + s.leftover;
    assert Budget(s.max, s.elapsed + dt) == Budget(s.max, s.elapsed) + dt * s.max as real;
    hide Held, WaiterOk, MaxPermits, Mint, Budget;
    var t := WakeUp(s, dt);
    assert t.toAdd as real + t.leftover <= Mint(s.max, s.leftover, dt);
  }

  lemma Spread(m: real, a: real, b: real)
    ensures m * (a + b) == m * a + b * m
  {
  }

  lemma RequestKeeps(s: Limiter, bytes: nat)
    requires Inv(s)
    ensures Inv(Request(s, bytes))
  {
    var cost := Needed(bytes, s.max);
    assert bytes > 0 ==> cost > 0;
    hide Needed, MaxPermits, Budget;
    if s.avail < cost {
      HeldAppend(s.queue, Waiter(bytes, cost, cost - s.avail));
      assert WaiterOk(s, Waiter(bytes, cost, cost - s.avail));
    }
  }

  lemma DoKeeps(s: Limiter, e: Event)
    requires Inv(s) && CanDo(s, e)
    ensures Inv(Do(s, e))
  {
    match e
    case Wake(dt) => WakeKeeps(s, dt);
    case Add => AddKeeps(s);
    case Acquire(b) => RequestKeeps(s, b);
  }

  lemma AddKeeps(s: Limiter)
    requires Inv(s) && CanDo(s, Add)
    ensures Inv(Do(s, Add))
  {
    hide Held, MaxPermits, Give, Budget;
    var mid := s.(toAdd := 0, minted := s.minted + s.toAdd);
    assert mid.queue == s.queue && forall i | 0 <= i < |mid.queue| :: WaiterOk(mid, mid.queue[i]) by {
      assert forall i | 0 <= i < |s.queue| :: WaiterOk(s, s.queue[i]);
    }
    assert Handing(mid, s.toAdd);
    GiveKeeps(mid, s.toAdd);
    var t := Give(mid, s.toAdd);
    assert t.minted as real == s.minted as real + s.toAdd as real && t.elapsed == s.elapsed && t.max == s.max;
  }

  // ---- runs

  function Run(s: Limiter, events: seq<Event>): Option<Limiter>
    decreases |events|
  {
    if events == [] then Some(s)
    else if CanDo(s, events[0]) && s.leftover >= 0.0 then Run(Do(s, events[0]), events[1..])
    else None
  }

  lemma {:induction false} RunKeeps(s: Limiter, events: seq<Event>)
    requires Inv(s) && Run(s, events).Some?
    ensures Inv(Run(s, events).value)
    decreases |events|
  {
    if events != [] {
      DoKeeps(s, events[0]);
      hide Inv, CanDo, Do;
      RunKeeps(Do(s, events[0]), events[1..]);
    }
  }

  /** Over every run: permits granted plus permits free never exceed the rate times the time, nor do the free ones exceed one second's worth. */
  lemma PermitsBounded(bytesPerSec: nat, events: seq<Event>)
    requires Run(Start(bytesPerSec), events).Some?
    ensures var s := Run(Start(bytesPerSec), events).value;
            && s.avail <= MaxPermits(bytesPerSec)
            && (s.spent + s.avail) as real <= Budget(MaxPermits(bytesPerSec), s.elapsed)
  {
    StartOk(bytesPerSec);
    hide Run, Start, Inv, MaxPermits, Budget;
    RunKeeps(Start(bytesPerSec), events);
    RunFixed(Start(bytesPerSec), events);
    SpentAtMost(Run(Start(bytesPerSec), events).value);
  }

  lemma StartOk(bytesPerSec: nat)
    ensures Inv(Start(bytesPerSec)) && BytesInv(Start(bytesPerSec))
    ensures Start(bytesPerSec).rate == bytesPerSec && Start(bytesPerSec).max == MaxPermits(bytesPerSec)
  {
  }

  lemma SpentAtMost(s: Limiter)
    requires Inv(s)
    ensures s.avail <= s.max && (s.spent + s.avail) as real <= Budget(s.max, s.elapsed)
  {
    HeldNat(s, s.queue);
    hide Held, MaxPermits, WaiterOk, Budget;
    assert s.spent + s.avail <= s.minted;
  }

  lemma {:induction false} RunFixed(s: Limiter, events: seq<Event>)
    requires Inv(s) && Run(s, events).Some?
    ensures Run(s, events).value.rate == s.rate && Run(s, events).value.max == s.max
    decreases |events|
  {
    if events != [] {
      DoKeeps(s, events[0]);
      if events[0].Add? {
        GiveKeeps(s.(toAdd := 0, minted := s.minted + s.toAdd), s.toAdd);
      }
      hide Inv, CanDo, Give;
      RunFixed(Do(s, events[0]), events[1..]);
    }
  }

  // ---- bytes

  /** No request in the run asks for more than one second's bytes. */
  predicate Modest(events: seq<Event>, rate: nat) {
    forall i | 0 <= i < |events| && events[i].Acquire? :: events[i].bytes <= rate
  }

  /** What served requests carried is covered by what they cost. */
  ghost predicate BytesInv(s: Limiter) {
    && s.bytes * s.max <= s.rate * s.spent
    && forall i | 0 <= i < |s.queue| :: s.queue[i].bytes * s.max <= s.rate * s.queue[i].cost
  }

  lemma CostCovers(bytes: nat, rate: nat)
    requires bytes <= rate
    ensures bytes * MaxPermits(rate) <= rate * Needed(bytes, MaxPermits(rate))
  {
    var max := MaxPermits(rate);
    DivCeilIs(bytes, UNIT);
    if Needed(bytes, max) == max {
      Products(bytes, rate, max);
    } else {
      var n := Needed(bytes, max);
      if n == 0 {
        return;
      }
      assert max > 1 && rate >= UNIT;
      Products(bytes, n * UNIT, max);
      Products(max * UNIT, rate, n);
      assert n * UNIT * max == max * UNIT * n;
    }
  }

  lemma {:induction false} GiveBytes(s: Limiter, n: nat)
    requires BytesInv(s)
    ensures BytesInv(Give(s, n))
    decreases |s.queue|
  {
    if s.queue != [] {
      var w := s.queue[0];
      if n >= w.left {
        assert (s.bytes + w.bytes) * s.max == s.bytes * s.max + w.bytes * s.max;
        assert s.rate * (s.spent + w.cost) == s.rate * s.spent + s.rate * w.cost;
        GiveBytes(s.(queue := s.queue[1..], served := s.served + 1, spent := s.spent + w.cost, bytes := s.bytes + w.bytes), n - w.left);
      }
    }
  }

  lemma RequestBytes(s: Limiter, bytes: nat)
    requires BytesInv(s) && s.max == MaxPermits(s.rate) && bytes <= s.rate
    ensures BytesInv(Request(s, bytes))
  {
    CostCovers(bytes, s.rate);
    var cost := Needed(bytes, s.max);
    assert (s.bytes + bytes) * s.max == s.bytes * s.max + bytes * s.max;
    assert s.rate * (s.spent + cost) == s.rate * s.spent + s.rate * cost;
  }

  lemma {:induction false} RunBytes(s: Limiter, events: seq<Event>)
    requires Inv(s) && BytesInv(s) && Modest(events, s.rate) && Run(s, events).Some?
    ensures BytesInv(Run(s, events).value)
    decreases |events|
  {
    if events != [] {
      var e := events[0];
      var t := Do(s, e);
      DoKeeps(s, e);
      RunFixed(s, [e]);
      assert Run(s, [e]).value == t;
      StepBytes(s, e);
      hide Inv, BytesInv, CanDo, Do;
      assert Modest(events[1..], s.rate);
      RunBytes(t, events[1..]);
    }
  }

  lemma StepBytes(s: Limiter, e: Event)
    requires Inv(s) && BytesInv(s) && CanDo(s, e) && (e.Acquire? ==> e.bytes <= s.rate)
    ensures BytesInv(Do(s, e))
  {
    hide Give, Request, Held, WaiterOk, MaxPermits;
    match e
    case Wake(dt) =>
    case Add => GiveBytes(s.(toAdd := 0, minted := s.minted + s.toAdd), s.toAdd);
    case Acquire(b) => RequestBytes(s, b);
  }

  /** With requests of at most one second's bytes, the bytes let through stay within the rate times the time. */
  lemma BytesBounded(bytesPerSec: nat, events: seq<Event>)
    requires Run(Start(bytesPerSec), events).Some? && Modest(events, bytesPerSec)
    ensures var s := Run(Start(bytesPerSec), events).value;
            s.bytes as real <= Budget(bytesPerSec, s.elapsed)
  {
    StartOk(bytesPerSec);
    hide Run, Start, Inv, MaxPermits, Budget, BytesInv, Modest;
    RunKeeps(Start(bytesPerSec), events);
    RunFixed(Start(bytesPerSec), events);
    RunBytes(Start(bytesPerSec), events);
    SpentAtMost(Run(Start(bytesPerSec), events).value);
    BytesCovered(Run(Start(bytesPerSec), events).value);
  }

  lemma BytesCovered(s: Limiter)
    requires BytesInv(s) && s.max > 0 && (s.spent + s.avail) as real <= Budget(s.max, s.elapsed)
    ensures s.bytes as real <= Budget(s.rate, s.elapsed)
  {
    SpentOnly(s);
    Scale(s.bytes, s.max, s.rate, s.spent, s.elapsed);
  }

  lemma Scale(bytes: nat, max: nat, rate: nat, spent: nat, t: real)
    requires max > 0 && bytes * max <= rate * spent && spent as real <= max as real * t
    ensures bytes as real <= rate as real * t
  {
    ProductReal(bytes, max);
    ProductReal(rate, spent);
    ScaleReal(bytes as real, max as real, rate as real, spent as real, t);
  }

  lemma SpentOnly(s: Limiter)
    requires (s.spent + s.avail) as real <= Budget(s.max, s.elapsed)
    ensures s.spent as real <= s.max as real * s.elapsed
  {
  }

  lemma ProductReal(a: nat, b: nat)
    ensures (a * b) as real == a as real * b as real
  {
  }

  lemma ScaleReal(b: real, m: real, r: real, p: real, t: real)
    requires m > 0.0 && r >= 0.0 && b * m <= r * p && p <= m * t
    ensures b <= r * t
  {
    RealMono(r, p, m * t);
    Regroup(r, m, t);
    if b > r * t {
      RealLess(r * t, b, m);
    }
  }

  lemma Regroup(r: real, m: real, t: real)
    ensures r * (m * t) == (r * t) * m
  {
  }

  lemma RealMono(k: real, x: real, y: real)
    requires k >= 0.0 && x <= y
    ensures k * x <= k * y
  {
  }

  lemma RealLess(x: real, y: real, m: real)
    requires x < y && m > 0.0
    ensures x * m < y * m
  {
  }

  /** The bound needs that limit: any larger request breaks it, one second after the start. */
  lemma BytesExceeded(bytesPerSec: nat, bytes: nat) returns (events: seq<Event>)
    requires bytes > bytesPerSec
    ensures Run(Start(bytesPerSec), events).Some?
    ensures var s := Run(Start(bytesPerSec), events).value;
            s.elapsed == 1.0 && s.bytes as real > Budget(bytesPerSec, s.elapsed)
    ensures events == [Wake(1.0), Add, Acquire(bytes)]
  {
    var s := Start(bytesPerSec);
    events := [Wake(1.0), Add, Acquire(bytes)];
    DivCeilIs(bytes, UNIT);
    assert Needed(bytes, s.max) <= s.max;
    hide Needed, MaxPermits;
    var s1 := Do(s, Wake(1.0));
    assert s1.toAdd == s.max && s1.leftover == 0.0;
    var s2 := Do(s1, Add);
    assert s2.avail == s.max;
    var s3 := Do(s2, Acquire(bytes));
    assert s3.bytes == bytes;
    assert events[1..] == [Add, Acquire(bytes)] && events[1..][1..] == [Acquire(bytes)] && [Acquire(bytes)][1..] == [];
    assert Run(s3, []) == Some(s3);
    assert Run(s2, [Acquire(bytes)]) == Some(s3);
    assert Run(s1, events[1..]) == Some(s3);
  }

  // ---- every request is served

  /** What the first n requests in the queue still lack. */
  function Lacking(queue: seq<Waiter>, n: nat): nat
    requires n <= |queue|
  {
    if n == 0 then 0 else queue[0].left + Lacking(queue[1..], n - 1)
  }

  /** How far the request with number `ticket` is from being served; 0 once it is. */
  function Short(s: Limiter, ticket: nat): nat
    requires ticket < s.served + |s.queue|
  {
    if ticket < s.served then 0 else Lacking(s.queue, ticket + 1 - s.served)
  }

  lemma {:induction false} LackingPositive(s: Limiter, n: nat)
    requires n <= |s.queue| && forall i | 0 <= i < |s.queue| :: WaiterOk(s, s.queue[i])
    ensures Lacking(s.queue, n) >= n
    decreases n
  {
    if n > 0 {
      assert WaiterOk(s, s.queue[0]);
      LackingPositive(s.(queue := s.queue[1..]), n - 1);
    }
  }

  lemma {:induction false} LackingAppend(q: seq<Waiter>, w: Waiter, n: nat)
    requires n <= |q|
    ensures Lacking(q + [w], n) == Lacking(q, n)
  {
    if n > 0 {
      LackingAppend(q[1..], w, n - 1);
      assert (q + [w])[1..] == q[1..] + [w];
    }
  }

  lemma HandOne(s: Limiter, n: nat)
    requires Handing(s, n) && s.queue != [] && n >= s.queue[0].left
    ensures var w := s.queue[0];
            Handing(s.(queue := s.queue[1..], served := s.served + 1, spent := s.spent + w.cost, bytes := s.bytes + w.bytes), n - w.left)
  {
  }

  lemma GiveHead(s: Limiter, n: nat)
    requires s.queue != [] && n >= s.queue[0].left
    ensures var w := s.queue[0];
            var t := s.(queue := s.queue[1..], served := s.served + 1, spent := s.spent + w.cost, bytes := s.bytes + w.bytes);
            Give(s, n) == Give(t, n - w.left)
  {
  }

  /** Handing out n permits brings every request n permits closer, or serves it. */
  lemma {:induction false} GiveShort(s: Limiter, n: nat, ticket: nat)
    requires Handing(s, n) && ticket < s.issued
    ensures Give(s, n).served + |Give(s, n).queue| == s.issued
    ensures Short(Give(s, n), ticket) == Max(0, Short(s, ticket) - n)
    ensures Short(Give(s, n), ticket) == 0 ==> ticket < Give(s, n).served
    decreases |s.queue|
  {
    GiveKeeps(s, n);
    if s.queue == [] {
      assert ticket < s.served;
    } else {
      var w := s.queue[0];
      assert WaiterOk(s, w);
      if n >= w.left {
        var t := s.(queue := s.queue[1..], served := s.served + 1, spent := s.spent + w.cost, bytes := s.bytes + w.bytes);
        HandOne(s, n);
        hide Handing, Held, WaiterOk;
        GiveShort(t, n - w.left, ticket);
        GiveHead(s, n);
        assert Short(s, ticket) == if ticket >= s.served then w.left + Short(t, ticket) else 0;
        assert ticket < s.served ==> Short(t, ticket) == 0;
      } else {
        var q := [w.(left := w.left - n)] + s.queue[1..];
        assert q[1..] == s.queue[1..];
        if ticket >= s.served {
          LackingPositive(s.(queue := s.queue[1..]), ticket - s.served);
        }
      }
    }
  }

  /** Twice what is missing, less what the next round already has in hand. */
  ghost function Distance(s: Limiter, ticket: nat): real
    requires ticket < s.served + |s.queue|
  {
    2.0 * Short(s, ticket) as real - s.leftover - 2.0 * s.toAdd as real
  }

  ghost predicate Waiting(s: Limiter, ticket: nat) {
    Inv(s) && ticket < s.issued && s.served <= ticket
  }

  /** A round of the refill thread brings a waiting request closer by a fixed step; other events do not push it back. */
  lemma StepCloser(s: Limiter, e: Event, ticket: nat)
    requires Waiting(s, ticket) && CanDo(s, e)
    ensures Inv(Do(s, e)) && ticket < Do(s, e).issued
    ensures Waiting(Do(s, e), ticket) ==>
              Distance(Do(s, e), ticket) <= Distance(s, ticket) - if e.Wake? then 0.01 else 0.0
  {
    DoKeeps(s, e);
    match e
    case Wake(dt) => WakeCloser(s, dt, ticket);
    case Add => AddCloser(s, ticket);
    case Acquire(b) => RequestCloser(s, b, ticket);
  }

  lemma WakeCloser(s: Limiter, dt: real, ticket: nat)
    requires Waiting(s, ticket) && CanDo(s, Wake(dt))
    ensures WakeUp(s, dt).issued == s.issued && WakeUp(s, dt).queue == s.queue && WakeUp(s, dt).served == s.served
    ensures Distance(WakeUp(s, dt), ticket) <= Distance(s, ticket) - 0.01
  {
    var t := WakeUp(s, dt);
    EarnsSome(s, dt);
    assert s.avail == 0 && Short(t, ticket) == Short(s, ticket);
    hide Lacking, Held, WaiterOk, MaxPermits, Mint, Budget;
    var whole := Mint(s.max, s.leftover, dt).Floor;
    assert t.toAdd == if whole > 0 then Min(whole, s.max) else 0;
    assert t.leftover == Mint(s.max, s.leftover, dt) - whole as real;
  }

  lemma EarnsSome(s: Limiter, dt: real)
    requires dt >= 0.01 && s.leftover >= 0.0 && s.max >= 1
    ensures Mint(s.max, s.leftover, dt) >= s.leftover + 0.01
  {
    var m := s.max as real;
    assert m >= 1.0;
    RealMono(dt, 1.0, m);
  }

  lemma AddCloser(s: Limiter, ticket: nat)
    requires Waiting(s, ticket) && CanDo(s, Add)
    ensures Do(s, Add).served + |Do(s, Add).queue| == s.issued == Do(s, Add).issued
    ensures ticket >= Do(s, Add).served ==> Distance(Do(s, Add), ticket) <= Distance(s, ticket)
  {
    var mid := s.(toAdd := 0, minted := s.minted + s.toAdd);
    GiveKeeps(mid, s.toAdd);
    GiveShort(mid, s.toAdd, ticket);
    hide Lacking, Held, WaiterOk, MaxPermits, Give, Budget;
    assert Short(mid, ticket) == Short(s, ticket);
  }

  lemma RequestCloser(s: Limiter, b: nat, ticket: nat)
    requires Waiting(s, ticket)
    ensures Request(s, b).issued >= s.issued
    ensures ticket < Request(s, b).served + |Request(s, b).queue|
    ensures ticket >= Request(s, b).served ==> Distance(Request(s, b), ticket) <= Distance(s, ticket)
  {
    var cost := Needed(b, s.max);
    if b > 0 && s.avail < cost {
      LackingAppend(s.queue, Waiter(b, cost, cost - s.avail), ticket + 1 - s.served);
    }
    assert b > 0 ==> cost > 0;
    hide Lacking, Held, WaiterOk, MaxPermits, Needed, Budget;
  }

  function Wakes(events: seq<Event>): nat {
    if events == [] then 0 else (if events[0].Wake? then 1 else 0) + Wakes(events[1..])
  }

  lemma ServedStays(s: Limiter, e: Event)
    requires Inv(s) && CanDo(s, e)
    ensures Do(s, e).served >= s.served
  {
    if e.Add? {
      GiveServes(s.(toAdd := 0, minted := s.minted + s.toAdd), s.toAdd);
    }
  }

  lemma {:induction false} GiveServes(s: Limiter, n: nat)
    ensures Give(s, n).served >= s.served
    decreases |s.queue|
  {
    if s.queue != [] && n >= s.queue[0].left {
      var w := s.queue[0];
      GiveServes(s.(queue := s.queue[1..], served := s.served + 1, spent := s.spent + w.cost, bytes := s.bytes + w.bytes), n - w.left);
    }
  }

  lemma {:induction false} RunServes(s: Limiter, events: seq<Event>, ticket: nat)
    requires Inv(s) && ticket < s.issued && Run(s, events).Some?
    ensures Inv(Run(s, events).value) && ticket < Run(s, events).value.issued
    ensures ticket < s.served ==> ticket < Run(s, events).value.served
    ensures ticket >= s.served && ticket >= Run(s, events).value.served ==>
              Distance(Run(s, events).value, ticket) <= Distance(s, ticket) - 0.01 * Wakes(events) as real
    decreases |events|
  {
    if events != [] {
      var e := events[0];
      var t := Do(s, e);
      DoKeeps(s, e);
      ServedStays(s, e);
      Issued(s, e);
      if ticket >= s.served {
        StepCloser(s, e, ticket);
      }
      hide Inv, CanDo, Do, Distance;
      assert Waiting(s, ticket) <==> ticket >= s.served;
      RunServes(t, events[1..], ticket);
    }
  }

  lemma Issued(s: Limiter, e: Event)
    requires Inv(s) && CanDo(s, e)
    ensures Do(s, e).issued >= s.issued
  {
    if e.Add? {
      GiveKeeps(s.(toAdd := 0, minted := s.minted + s.toAdd), s.toAdd);
    }
  }

  /**
    Every request is served: whatever else arrives, a waiting request is through after a number of refill rounds
    fixed by what it and the requests before it still lack.
  */
  lemma EveryRequestServed(s: Limiter, events: seq<Event>, ticket: nat)
    requires Inv(s) && ticket < s.issued && Run(s, events).Some?
    requires Wakes(events) >= 200 * Short(s, ticket) + 300 + 200 * s.max
    ensures ticket < Run(s, events).value.served
  {
    var t := Run(s, events).value;
    RunServes(s, events, ticket);
    RunFixed(s, events);
    Enough(Wakes(events), Short(s, ticket), s.max);
  }

  lemma Enough(wakes: nat, short: nat, max: nat)
    requires wakes >= 200 * short + 300 + 200 * max
    ensures 0.01 * wakes as real >= 2.0 * short as real + 3.0 + 2.0 * max as real
  {
  }
}
