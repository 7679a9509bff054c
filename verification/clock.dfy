/** The swappable clock of SystemTime and SystemTimeScope. `SystemTime` holds
    four public provider slots (`Now`, `Today`, `CstNow`, `CstToday`) that any
    code may reassign; the defaults of the last three read `Now` again on every
    call. A `SystemTimeScope` records the `Now` provider active when it is
    created, installs its own, and puts the recorded one back when disposed.

    A DateTime is its tick count (100 ns since 0001-01-01 00:00). The real
    clock and the conversion to Central time are outside the model: every read
    takes them from an `Env` value, the wall-clock reading at the moment of the
    call and the UTC-to-Central conversion of the platform. */
module Clock {
  import Civil

  const TicksPerDay := 864_000_000_000
  /** DateTime.MaxValue.Ticks: the last tick of 9999-12-31. */
  const MaxTicks := 3_155_378_975_999_999_999

  type DateTime = t: int | 0 <= t <= MaxTicks

  /** `DateTime.Date`: midnight at the start of the day that holds t. */
  function Date(t: DateTime): (r: DateTime)
    ensures r % TicksPerDay == 0 && r <= t < r + TicksPerDay
  {
    t - t % TicksPerDay
  }

  /** Midnight of a day is the only midnight less than a day before any of
      its instants, so Date picks it out. */
  lemma DateUnique(t: DateTime, m: DateTime)
    requires m % TicksPerDay == 0 && m <= t < m + TicksPerDay
    ensures Date(t) == m
  {
    var d := Date(t);
    assert d / TicksPerDay == t / TicksPerDay == m / TicksPerDay;
  }

  /** Truncating twice is truncating once. */
  lemma DateIdempotent(t: DateTime)
    ensures Date(Date(t)) == Date(t)
  {
    DateUnique(Date(t), Date(t));
  }

  /** The day number (see module Civil) of an instant. */
  function DayOf(t: DateTime): (n: int)
    ensures Civil.InRange(n) && n * TicksPerDay <= t < (n + 1) * TicksPerDay
  {
    t / TicksPerDay
  }

  /** Truncating to midnight keeps the day. */
  lemma DateKeepsDay(t: DateTime)
    ensures DayOf(Date(t)) == DayOf(t) && Date(t) == DayOf(t) * TicksPerDay
  {
    var n := DayOf(t);
    assert Date(t) == n * TicksPerDay;
  }

  /** What a reassigned slot may hold: the real UTC clock (the default of
      `Now`), a provider that returns one fixed instant (what the DateTime
      form of SystemTimeScope installs), or any function of the wall clock. */
  datatype Provider = UtcNow | Fixed(at: DateTime) | Custom(f: DateTime -> DateTime)

  /** A `Today`, `CstNow` or `CstToday` slot: its default lambda, or a provider
      assigned in its place. */
  datatype Slot = Default | Replaced(provider: Provider)

  /** The world at the moment of a read: the wall-clock UTC time and the
      platform's UTC-to-Central conversion. */
  datatype Env = Env(utcNow: DateTime, toCst: DateTime -> DateTime)

  /** Calling a provider. */
  function Call(p: Provider, env: Env): (r: DateTime)
    ensures p.UtcNow? ==> r == env.utcNow
    ensures p.Fixed? ==> r == p.at
  {
    match p
    case UtcNow => env.utcNow
    case Fixed(at) => at
    case Custom(f) => f(env.utcNow)
  }

  /** A fixed provider ignores the world: it returns the same instant at every
      wall-clock time and under every conversion. */
  lemma FixedIgnoresWorld(t: DateTime, e1: Env, e2: Env)
    ensures Call(Fixed(t), e1) == Call(Fixed(t), e2) == t
  {
  }

  /** The static class SystemTime: one mutable slot per public field. */
  class SystemTime {
    var now: Provider
    var today: Slot
    var cstNow: Slot
    var cstToday: Slot

    /** The static initializers: `Now` reads the real UTC clock and the other
        three slots hold their default lambdas. */
    constructor()
      ensures now == UtcNow && today == Default && cstNow == Default && cstToday == Default
    {
      now := UtcNow;
      today := Default;
      cstNow := Default;
      cstToday := Default;
    }

    /** `SystemTime.Now()`: whatever the installed provider returns. */
    function Now(env: Env): (r: DateTime)
      reads this
      ensures now == UtcNow ==> r == env.utcNow
      ensures now.Fixed? ==> r == now.at
    {
      Call(now, env)
    }

    /** `SystemTime.Today()`: by default midnight of the day `Now()` returns at
        the time of the call. */
    function Today(env: Env): (r: DateTime)
      reads this
      ensures today == Default ==>
        r % TicksPerDay == 0 && r <= Now(env) < r + TicksPerDay
    {
      match today
      case Default => Date(Now(env))
      case Replaced(p) => Call(p, env)
    }

    /** `SystemTime.CstNow()`: by default the Central-time reading of `Now()`
        at the time of the call. */
    function CstNow(env: Env): (r: DateTime)
      reads this
      ensures cstNow == Default ==> r == env.toCst(Now(env))
    {
      match cstNow
      case Default => env.toCst(Now(env))
      case Replaced(p) => Call(p, env)
    }

    /** `SystemTime.CstToday()`: by default midnight of the day `CstNow()`
        returns at the time of the call. */
    function CstToday(env: Env): (r: DateTime)
      reads this
      ensures cstToday == Default ==>
        r % TicksPerDay == 0 && r <= CstNow(env) < r + TicksPerDay
    {
      match cstToday
      case Default => Date(CstNow(env))
      case Replaced(p) => Call(p, env)
    }

    /** Assigning `SystemTime.Now`; the other three slots keep their values. */
    method SetNow(p: Provider)
      modifies this`now
      ensures now == p
    {
      now := p;
    }

    /** Assigning `SystemTime.Today`; the other three slots keep their values. */
    method SetToday(p: Provider)
      modifies this`today
      ensures today == Replaced(p)
    {
      today := Replaced(p);
    }

    /** Assigning `SystemTime.CstNow`; the other three slots keep their values. */
    method SetCstNow(p: Provider)
      modifies this`cstNow
      ensures cstNow == Replaced(p)
    {
      cstNow := Replaced(p);
    }

    /** Assigning `SystemTime.CstToday`; the other three slots keep their values. */
    method SetCstToday(p: Provider)
      modifies this`cstToday
      ensures cstToday == Replaced(p)
    {
      cstToday := Replaced(p);
    }
  }

  /** A scope that overrides `SystemTime.Now` until it is disposed. */
  class SystemTimeScope {
    /** The SystemTime whose `Now` slot the scope overrides (the static class
        in the original). */
    const clock: SystemTime
    /** `_systemTime`: the provider that was installed when the scope was
        created. */
    const systemTime: Provider

    /** The Func form: record the current provider, then install `now`. */
    constructor(clock: SystemTime, now: Provider)
      modifies clock`now
      ensures this.clock == clock && systemTime == old(clock.now)
      ensures clock.now == now
    {
      this.clock := clock;
      systemTime := clock.now;
      new;
      clock.SetNow(now);
    }

    /** The DateTime form: as the Func form with a provider that returns `now`
        on every call. */
    constructor At(clock: SystemTime, now: DateTime)
      modifies clock`now
      ensures this.clock == clock && systemTime == old(clock.now)
      ensures clock.now == Fixed(now)
      ensures forall env :: clock.Now(env) == now
    {
      this.clock := clock;
      systemTime := clock.now;
      new;
      clock.SetNow(Fixed(now));
    }

    /** Put back the provider recorded at creation, whatever is installed now. */
    method Dispose()
      modifies clock`now
      ensures clock.now == systemTime
    {
      clock.SetNow(systemTime);
    }

    /** `SystemTimeScope.New(Func<DateTime>)`: the Func-form constructor. */
    static method New(clock: SystemTime, now: Provider) returns (s: SystemTimeScope)
      modifies clock`now
      ensures fresh(s) && s.clock == clock && s.systemTime == old(clock.now)
      ensures clock.now == now
    {
      s := new SystemTimeScope(clock, now);
    }

    /** `SystemTimeScope.New(DateTime)`: the DateTime-form constructor. */
    static method NewAt(clock: SystemTime, now: DateTime) returns (s: SystemTimeScope)
      modifies clock`now
      ensures fresh(s) && s.clock == clock && s.systemTime == old(clock.now)
      ensures clock.now == Fixed(now)
    {
      s := new SystemTimeScope.At(clock, now);
    }
  }
}

/** How scopes behave when several are created and disposed in sequence. */
module ClockScenarios {
  import opened Clock

  /** Nested scopes disposed innermost first restore each enclosing provider
      in turn and finally the original one; each scope's provider is seen
      while it is innermost. */
  method NestedScopesRestore(clock: SystemTime, outer: Provider, inner: Provider)
    returns (inOuter: Provider, inInner: Provider, afterInner: Provider)
    modifies clock`now
    ensures inOuter == outer && inInner == inner && afterInner == outer
    ensures clock.now == old(clock.now)
  {
    var s1 := SystemTimeScope.New(clock, outer);
    inOuter := clock.now;
    var s2 := SystemTimeScope.New(clock, inner);
    inInner := clock.now;
    s2.Dispose();
    afterInner := clock.now;
    s1.Dispose();
  }

  /** Restoring is per scope, not a stack: disposing the outer scope first and
      the inner one second leaves the outer scope's provider installed. */
  method OutOfOrderDispose(clock: SystemTime, outer: Provider, inner: Provider)
    returns (afterOuter: Provider)
    modifies clock`now
    ensures afterOuter == old(clock.now)
    ensures clock.now == outer
  {
    var s1 := SystemTimeScope.New(clock, outer);
    var s2 := SystemTimeScope.New(clock, inner);
    s1.Dispose();
    afterOuter := clock.now;
    s2.Dispose();
  }

  /** Disposing a scope twice in a row leaves what disposing it once leaves. */
  method DisposeTwice(s: SystemTimeScope) returns (afterFirst: Provider)
    modifies s.clock`now
    ensures afterFirst == s.systemTime && s.clock.now == afterFirst
  {
    s.Dispose();
    afterFirst := s.clock.now;
    s.Dispose();
  }

  /** A scope only ever writes `Now`: the other three slots are the same
      while it is active and after it is disposed. */
  method ScopeTouchesOnlyNow(clock: SystemTime, p: Provider)
    returns (todayDuring: Slot, cstNowDuring: Slot, cstTodayDuring: Slot)
    modifies clock`now
    ensures todayDuring == old(clock.today) && cstNowDuring == old(clock.cstNow)
    ensures cstTodayDuring == old(clock.cstToday)
    ensures clock.today == old(clock.today) && clock.cstNow == old(clock.cstNow)
    ensures clock.cstToday == old(clock.cstToday)
    ensures clock.now == old(clock.now)
  {
    var s := SystemTimeScope.New(clock, p);
    todayDuring, cstNowDuring, cstTodayDuring := clock.today, clock.cstNow, clock.cstToday;
    s.Dispose();
  }

  /** A scope fixed at a midnight makes default `Today()` return exactly
      that instant: truncating a midnight leaves it where it is. */
  method MidnightScopeToday(clock: SystemTime, t: DateTime, env: Env) returns (today: DateTime)
    requires clock.today == Default
    modifies clock`now
    ensures today == Date(t)
  {
    var midnight := Date(t);
    var s := SystemTimeScope.NewAt(clock, midnight);
    today := clock.Today(env);
    DateIdempotent(t);
    DateUnique(midnight, today);
    s.Dispose();
  }

  /** With `Today` left at its default, a scope at instant t makes `Today()`
      return midnight of t's day, and `CstToday()` (also at its default) the
      midnight of the Central-time reading of t, although neither slot was
      assigned. */
  method TodayFollowsScope(clock: SystemTime, t: DateTime, env: Env)
    returns (today: DateTime, cstToday: DateTime)
    requires clock.today == Default && clock.cstNow == Default && clock.cstToday == Default
    modifies clock`now
    ensures today == Date(t) && DayOf(today) == DayOf(t)
    ensures cstToday == Date(env.toCst(t))
  {
    var s := SystemTimeScope.NewAt(clock, t);
    today := clock.Today(env);
    DateUnique(t, today);
    DateKeepsDay(t);
    cstToday := clock.CstToday(env);
    DateUnique(env.toCst(t), cstToday);
    s.Dispose();
  }
}
