/** The token bucket in front of every SEC request, and the budget its four processes share. */
module RateLimiter {
  import opened Common

  type Caller = nat

  /** Requests per second, and the burst a full bucket allows. */
  datatype Config = Config(rate: real, capacity: real) {
    ghost predicate Valid() {
      rate > 0.0 && capacity >= 1.0
    }
  }

  datatype Admission = Admission(caller: Caller, at: int)

  /** The bucket's fields, with the callers behind its promise chain and the log of those it let through. */
  datatype State = State(tokens: real, lastRefill: int, queue: seq<Caller>, log: seq<Admission>)

  /** A caller joins the chain, or the caller at its head reads the clock, waits if it must, and leaves. */
  datatype Event = Call(caller: Caller) | Serve(now: int, woken: int)

  /** The tokens that `ms` milliseconds of refill are worth. */
  function Earned(c: Config, ms: int): real {
    ms as real / 1000.0 * c.rate
  }

  function Min(a: real, b: real): real {
    if a <= b then a else b
  }

  function Refilled(c: Config, s: State, now: int): State {
    s.(tokens := Min(c.capacity, s.tokens + Earned(c, now - s.lastRefill)), lastRefill := now)
  }

  function WaitMs(c: Config, tokens: real): real
    requires c.rate != 0.0
  {
    (1.0 - tokens) / c.rate * 1000.0
  }

  predicate MustWait(c: Config, s: State, now: int) {
    Refilled(c, s, now).tokens < 1.0
  }

  /** The bucket just before the head of the chain takes its token. */
  function BeforeTaking(c: Config, s: State, now: int, woken: int): State {
    if MustWait(c, s, now) then Refilled(c, Refilled(c, s, now), woken) else Refilled(c, s, now)
  }

  function Served(c: Config, s: State, now: int, woken: int): State
    requires s.queue != []
  {
    var b := BeforeTaking(c, s, now, woken);
    State(b.tokens - 1.0, b.lastRefill, s.queue[1..], s.log + [Admission(s.queue[0], b.lastRefill)])
  }

  function Step(c: Config, s: State, e: Event): State
    requires e.Serve? ==> s.queue != []
  {
    match e
    case Call(caller) => s.(queue := s.queue + [caller])
    case Serve(now, woken) => Served(c, s, now, woken)
  }

  /** The clock never goes back, and a timer fires at most `early` milliseconds before its delay is over. */
  ghost predicate Timely(c: Config, early: int, s: State, e: Event)
    requires c.rate != 0.0
  {
    e.Serve? ==>
      && s.queue != []
      && s.lastRefill <= e.now
      && (MustWait(c, s, e.now) ==>
            && e.now <= e.woken
            && e.now as real + WaitMs(c, Refilled(c, s, e.now).tokens) - early as real <= e.woken as real)
  }

  ghost predicate Timed(c: Config, early: int, s: State, events: seq<Event>)
    requires c.rate != 0.0
    decreases |events|
  {
    events == [] || (Timely(c, early, s, events[0]) && Timed(c, early, Step(c, s, events[0]), events[1..]))
  }

  function Run(c: Config, early: int, s: State, events: seq<Event>): State
    requires c.rate != 0.0
    requires Timed(c, early, s, events)
    decreases |events|
  {
    if events == [] then s else Run(c, early, Step(c, s, events[0]), events[1..])
  }

  function Initial(c: Config, start: int): State {
    State(c.capacity, start, [], [])
  }

  /** The object of the same name: its methods are the steps above. */
  class TokenBucket {
    const ratePerSecond: real
    const capacity: real
    var tokens: real
    var lastRefill: int
    var queue: seq<Caller>
    var log: seq<Admission>

    function Settings(): Config {
      Config(ratePerSecond, capacity)
    }

    function Contents(): State
      reads this
    {
      State(tokens, lastRefill, queue, log)
    }

    constructor (ratePerSecond: real, capacity: real, now: int)
      ensures Settings() == Config(ratePerSecond, capacity)
      ensures Contents() == Initial(Settings(), now)
    {
      this.ratePerSecond := ratePerSecond;
      this.capacity := capacity;
      tokens := capacity;
      lastRefill := now;
      queue := [];
      log := [];
    }

    method Refill(now: int)
      modifies this`tokens, this`lastRefill
      ensures Contents() == Refilled(Settings(), old(Contents()), now)
    {
      var elapsedSeconds := (now - lastRefill) as real / 1000.0;
      tokens := Min(capacity, tokens + elapsedSeconds * ratePerSecond);
      lastRefill := now;
    }

    /** `acquire` up to its `await previous`: the caller is behind everyone who called before it. */
    method Join(caller: Caller)
      modifies this`queue
      ensures Contents() == Step(Settings(), old(Contents()), Call(caller))
    {
      queue := queue + [caller];
    }

    /** The rest of `acquire`, once the caller before this one has released the chain. */
    method TakeToken(now: int, woken: int) returns (caller: Caller)
      requires queue != []
      modifies this
      ensures Contents() == Step(Settings(), old(Contents()), Serve(now, woken))
      ensures caller == old(queue)[0]
    {
      caller := queue[0];
      Refill(now);
      if tokens < 1.0 {
        Refill(woken);
      }
      tokens := tokens - 1.0;
      queue := queue[1..];
      log := log + [Admission(caller, lastRefill)];
    }
  }

  /** Nobody overtakes: those let through, then those waiting, are the callers in the order they called. */
  function Callers(log: seq<Admission>): seq<Caller> {
    seq(|log|, i requires 0 <= i < |log| => log[i].caller)
  }

  function CallsOf(events: seq<Event>): seq<Caller> {
    if events == [] then []
    else (if events[0].Call? then [events[0].caller] else []) + CallsOf(events[1..])
  }

  lemma CallsOfFirst(events: seq<Event>)
    requires events != []
    ensures CallsOf(events) == CallsOf([events[0]]) + CallsOf(events[1..])
  {
    assert [events[0]][1..] == [];
  }

  lemma CallersOneMore(log: seq<Admission>, a: Admission)
    ensures Callers(log + [a]) == Callers(log) + [a.caller]
  {
  }

  lemma StepKeepsOrder(c: Config, s: State, e: Event)
    requires e.Serve? ==> s.queue != []
    ensures var t := Step(c, s, e);
            Callers(t.log) + t.queue == Callers(s.log) + s.queue + CallsOf([e])
  {
    var t := Step(c, s, e);
    assert [e][1..] == [];
    if e.Serve? {
      CallersOneMore(s.log, t.log[|s.log|]);
      SplitFirst(s.queue);
      Associates(Callers(s.log), [s.queue[0]], s.queue[1..]);
    } else {
      Associates(Callers(s.log), s.queue, [e.caller]);
    }
  }

  lemma {:induction false} CallersLeaveInOrder(c: Config, early: int, s: State, events: seq<Event>)
    requires c.rate != 0.0 && Timed(c, early, s, events)
    ensures var t := Run(c, early, s, events);
            Callers(t.log) + t.queue == Callers(s.log) + s.queue + CallsOf(events)
    decreases |events|
  {
    if events == [] {
    } else {
      var e, rest := events[0], events[1..];
      StepKeepsOrder(c, s, e);
      CallsOfFirst(events);
      CallersLeaveInOrder(c, early, Step(c, s, e), rest);
      assert Run(c, early, s, events) == Run(c, early, Step(c, s, e), rest);
      Associates(Callers(s.log) + s.queue, CallsOf([e]), CallsOf(rest));
    }
  }

  /**
   * What every admission keeps. The last clause bounds any stretch of consecutive admissions;
   * the one before it says how much the balance may have fallen since each of them.
   */
  ghost predicate Inv(c: Config, early: int, s: State) {
    && s.tokens <= c.capacity
    && (s.log != [] ==> s.tokens >= -Earned(c, early))
    && (s.log == [] ==> s.tokens == c.capacity)
    && (forall i :: 0 <= i < |s.log| ==>
          s.tokens <= c.capacity - (|s.log| - i) as real + Earned(c, s.lastRefill - s.log[i].at))
    && (forall i, j :: 0 <= i <= j < |s.log| ==>
          (j - i + 1) as real <= c.capacity + Earned(c, s.log[j].at - s.log[i].at + early))
  }

  lemma EarnedAdds(c: Config, a: int, b: int)
    ensures Earned(c, a) + Earned(c, b) == Earned(c, a + b)
  {
    assert (a + b) as real / 1000.0 == a as real / 1000.0 + b as real / 1000.0;
  }

  lemma EarnedGrows(c: Config, a: int, b: int)
    requires c.rate > 0.0 && a <= b
    ensures Earned(c, a) <= Earned(c, b)
  {
    EarnedAdds(c, a, b - a);
    var seconds := (b - a) as real / 1000.0;
    assert seconds * c.rate >= 0.0;
  }

  /** The wait is long enough: what it earns, less what an early timer costs, makes up the missing token. */
  lemma WaitEarnsTheRest(c: Config, tokens: real, slept: int, early: int)
    requires c.rate > 0.0
    requires WaitMs(c, tokens) - early as real <= slept as real
    ensures tokens + Earned(c, slept) >= 1.0 - Earned(c, early)
  {
    var need := (1.0 - tokens) / c.rate;
    assert need * c.rate == 1.0 - tokens;
    var slack := (slept as real + early as real) / 1000.0 - need;
    assert slack >= 0.0;
    assert slack * c.rate >= 0.0;
    assert slack * c.rate == Earned(c, slept + early) - (1.0 - tokens) by {
      assert (slept + early) as real / 1000.0 == slack + need;
      assert (slack + need) * c.rate == slack * c.rate + need * c.rate;
    }
    EarnedAdds(c, slept, early);
  }

  /** And no longer than needed: refilling for exactly that long makes up exactly one token. */
  lemma WaitIsExact(c: Config, tokens: real)
    requires c.rate > 0.0
    ensures tokens + WaitMs(c, tokens) / 1000.0 * c.rate == 1.0
  {
    var need := (1.0 - tokens) / c.rate;
    assert need * c.rate == 1.0 - tokens;
    assert WaitMs(c, tokens) / 1000.0 == need;
  }

  /** A caller is let through at once exactly if a whole token is there; otherwise when its timer fires. */
  lemma AdmittedWhen(c: Config, s: State, now: int, woken: int)
    requires s.queue != []
    ensures var log := Step(c, s, Serve(now, woken)).log;
            var balance := s.tokens + (now - s.lastRefill) as real / 1000.0 * c.rate;
            log == s.log + [Admission(s.queue[0], if balance >= 1.0 && c.capacity >= 1.0 then now else woken)]
  {
  }

  lemma BalanceBeforeTaking(c: Config, early: int, s: State, e: Event)
    requires c.Valid() && early >= 0 && e.Serve? && Timely(c, early, s, e)
    ensures var b := BeforeTaking(c, s, e.now, e.woken);
            && s.lastRefill <= b.lastRefill
            && 1.0 - Earned(c, early) <= b.tokens <= c.capacity
            && b.tokens <= s.tokens + Earned(c, b.lastRefill - s.lastRefill)
  {
    var b := BeforeTaking(c, s, e.now, e.woken);
    EarnedGrows(c, 0, early);
    if MustWait(c, s, e.now) {
      var r := Refilled(c, s, e.now);
      WaitEarnsTheRest(c, r.tokens, e.woken - e.now, early);
      EarnedAdds(c, e.now - s.lastRefill, e.woken - e.now);
    }
  }

  /** The balance after an admission, against each admission so far. */
  lemma ServeKeepsBalance(c: Config, early: int, s: State, e: Event, i: nat)
    requires c.Valid() && early >= 0 && Inv(c, early, s) && e.Serve? && Timely(c, early, s, e)
    requires i < |Step(c, s, e).log|
    ensures var t := Step(c, s, e);
            && t.tokens <= c.capacity - (|t.log| - i) as real + Earned(c, t.lastRefill - t.log[i].at)
            && (|t.log| - i) as real <= c.capacity + Earned(c, t.lastRefill - t.log[i].at + early)
  {
    var b := BeforeTaking(c, s, e.now, e.woken);
    var t := Step(c, s, e);
    BalanceBeforeTaking(c, early, s, e);
    EarnedGrows(c, 0, early);
    if i < |s.log| {
      assert t.log[i] == s.log[i];
      EarnedAdds(c, b.lastRefill - s.lastRefill, s.lastRefill - s.log[i].at);
    }
    EarnedAdds(c, b.lastRefill - t.log[i].at, early);
  }

  lemma ServeKeepsStretches(c: Config, early: int, s: State, e: Event, i: nat, j: nat)
    requires c.Valid() && early >= 0 && Inv(c, early, s) && e.Serve? && Timely(c, early, s, e)
    requires i <= j < |Step(c, s, e).log|
    ensures var t := Step(c, s, e);
            (j - i + 1) as real <= c.capacity + Earned(c, t.log[j].at - t.log[i].at + early)
  {
    var t := Step(c, s, e);
    if j < |s.log| {
      assert t.log[j] == s.log[j] && t.log[i] == s.log[i];
    } else {
      ServeKeepsBalance(c, early, s, e, i);
    }
  }

  lemma StepKeepsInv(c: Config, early: int, s: State, e: Event)
    requires c.Valid() && early >= 0 && Inv(c, early, s) && Timely(c, early, s, e)
    ensures Inv(c, early, Step(c, s, e))
  {
    if e.Serve? {
      var t := Step(c, s, e);
      BalanceBeforeTaking(c, early, s, e);
      forall i | 0 <= i < |t.log|
        ensures t.tokens <= c.capacity - (|t.log| - i) as real + Earned(c, t.lastRefill - t.log[i].at)
      {
        ServeKeepsBalance(c, early, s, e, i);
      }
      forall i, j | 0 <= i <= j < |t.log|
        ensures (j - i + 1) as real <= c.capacity + Earned(c, t.log[j].at - t.log[i].at + early)
      {
        ServeKeepsStretches(c, early, s, e, i, j);
      }
    }
  }

  lemma {:induction false} RunKeepsInv(c: Config, early: int, s: State, events: seq<Event>)
    requires c.Valid() && early >= 0 && Inv(c, early, s) && Timed(c, early, s, events)
    ensures Inv(c, early, Run(c, early, s, events))
    decreases |events|
  {
    if events == [] {
    } else {
      StepKeepsInv(c, early, s, events[0]);
      RunKeepsInv(c, early, Step(c, s, events[0]), events[1..]);
    }
  }

  /** The requests let through from `from` to `to`, both included. */
  function Window(log: seq<Admission>, from: int, to: int): set<int> {
    set i | 0 <= i < |log| && from <= log[i].at <= to
  }

  lemma {:induction false} Extremes(s: set<int>) returns (low: int, high: int)
    requires s != {}
    ensures low in s && high in s && forall i :: i in s ==> low <= i <= high
    decreases |s|
  {
    var x := Member(s);
    low, high := x, x;
    if s != {x} {
      var l, h := Extremes(s - {x});
      low, high := if x < l then x else l, if x > h then x else h;
      forall i | i in s
        ensures low <= i <= high
      {
        assert i == x || i in s - {x};
      }
    }
  }

  /** No window of any run holds more than the burst, plus what its length and one early timer earn. */
  lemma WindowBound(c: Config, early: int, start: int, events: seq<Event>, from: int, to: int)
    requires c.Valid() && early >= 0 && from <= to
    requires Timed(c, early, Initial(c, start), events)
    ensures var log := Run(c, early, Initial(c, start), events).log;
            && |Window(log, from, to)| as real <= c.capacity + Earned(c, to - from + early)
            && Window(log, from, to) == set i | 0 <= i < |log| && from <= log[i].at <= to
  {
    var s := Run(c, early, Initial(c, start), events);
    RunKeepsInv(c, early, Initial(c, start), events);
    var w := Window(s.log, from, to);
    EarnedGrows(c, 0, to - from + early);
    if w != {} {
      var i, j := Extremes(w);
      IntervalCardinality(w, i, j);
      EarnedGrows(c, s.log[j].at - s.log[i].at + early, to - from + early);
    }
  }

  // The four services that call SEC, with the share each is given.
  const BURST := 1.0
  const API := Config(1.0, BURST)
  const PARSER := Config(2.0, BURST)
  const POLLER := Config(2.0, BURST)
  const RECONCILE := Config(1.0, BURST)

  /** In one second a service admits its burst, its share, and what an early timer adds to the share. */
  lemma ShareInOneSecond(c: Config, early: int, start: int, events: seq<Event>, from: int)
    requires c.Valid() && early >= 0 && Timed(c, early, Initial(c, start), events)
    ensures |Window(Run(c, early, Initial(c, start), events).log, from, from + 1000)| as real
            <= c.capacity + c.rate + Earned(c, early)
  {
    WindowBound(c, early, start, events, from, from + 1000);
    EarnedAdds(c, 1000, early);
    assert Earned(c, 1000) == c.rate;
  }

  /** Whatever the four processes do, SEC sees at most ten of their requests in any one second. */
  lemma BudgetHolds(start: seq<int>, api: seq<Event>, parser: seq<Event>, poller: seq<Event>, reconcile: seq<Event>,
                    from: int)
    requires |start| == 4
    requires Timed(API, 1, Initial(API, start[0]), api)
    requires Timed(PARSER, 1, Initial(PARSER, start[1]), parser)
    requires Timed(POLLER, 1, Initial(POLLER, start[2]), poller)
    requires Timed(RECONCILE, 1, Initial(RECONCILE, start[3]), reconcile)
    ensures |Window(Run(API, 1, Initial(API, start[0]), api).log, from, from + 1000)|
            + |Window(Run(PARSER, 1, Initial(PARSER, start[1]), parser).log, from, from + 1000)|
            + |Window(Run(POLLER, 1, Initial(POLLER, start[2]), poller).log, from, from + 1000)|
            + |Window(Run(RECONCILE, 1, Initial(RECONCILE, start[3]), reconcile).log, from, from + 1000)|
            <= 10
  {
    ShareInOneSecond(API, 1, start[0], api, from);
    ShareInOneSecond(PARSER, 1, start[1], parser, from);
    ShareInOneSecond(POLLER, 1, start[2], poller, from);
    ShareInOneSecond(RECONCILE, 1, start[3], reconcile, from);
  }
}
