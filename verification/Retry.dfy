/**
 * `fetchWithRetry` under `secFetch`, any number of fetches at once: every attempt, a retry included, waits for a
 * token of its own before its request goes out.
 */
module Retry {
  import opened Common
  import Bucket = RateLimiter

  type Caller = Bucket.Caller

  datatype Outcome = Response(status: int) | Threw(error: string)

  const MAX_RETRIES := 3

  predicate IsRetryableStatus(status: int) {
    500 <= status < 600
  }

  /** A 5xx answer or a failed connection may still succeed later; anything else is final. */
  predicate Transient(o: Outcome) {
    o.Threw? || IsRetryableStatus(o.status)
  }

  /** Where a fetch is: behind the bucket, let through as the bucket's n-th, out, backing off, or done. */
  datatype Phase = Waiting | Admitted(ticket: nat) | Sent | BackingOff | Finished(result: Outcome)

  datatype Fetch = Fetch(phase: Phase, attempts: nat)

  /** A request that reached SEC, with the admission it was sent on. */
  datatype Request = Request(caller: Caller, ticket: nat, at: int)

  datatype State = State(bucket: Bucket.State, fetches: map<Caller, Fetch>, requests: seq<Request>)

  /** A request leaves at most `delay` milliseconds after its admission; timers fire at most `early` too soon. */
  datatype Settings = Settings(bucket: Bucket.Config, maxRetries: nat, early: int, delay: int) {
    ghost predicate Valid() {
      bucket.Valid() && early >= 0 && delay >= 0
    }
  }

  datatype Event =
    | Begin(id: Caller)
    | Admit(now: int, woken: int)
    | Send(id: Caller, at: int)
    | Respond(id: Caller, outcome: Outcome)
    | TryAgain(id: Caller)

  ghost predicate Enabled(c: Settings, s: State, e: Event)
    requires c.bucket.rate != 0.0
  {
    match e
    case Begin(id) => id !in s.fetches
    case Admit(now, woken) =>
      s.bucket.queue != [] && Bucket.Timely(c.bucket, c.early, s.bucket, Bucket.Serve(now, woken))
    case Send(id, at) =>
      && id in s.fetches && s.fetches[id].phase.Admitted? && s.fetches[id].phase.ticket < |s.bucket.log|
      && var admittedAt := s.bucket.log[s.fetches[id].phase.ticket].at;
         admittedAt <= at <= admittedAt + c.delay
    case Respond(id, _) => id in s.fetches && s.fetches[id].phase == Sent
    case TryAgain(id) => id in s.fetches && s.fetches[id].phase == BackingOff
  }

  /** What an answer leaves a fetch with: another attempt after a pause, or the result. */
  function AfterAnswer(maxRetries: nat, attempts: nat, o: Outcome): Phase {
    if Transient(o) && attempts <= maxRetries then BackingOff else Finished(o)
  }

  function Step(c: Settings, s: State, e: Event): State
    requires c.bucket.rate != 0.0 && Enabled(c, s, e)
  {
    match e
    case Begin(id) =>
      State(Bucket.Step(c.bucket, s.bucket, Bucket.Call(id)), s.fetches[id := Fetch(Waiting, 0)], s.requests)
    case Admit(now, woken) =>
      var id := s.bucket.queue[0];
      State(Bucket.Step(c.bucket, s.bucket, Bucket.Serve(now, woken)),
            if id in s.fetches then s.fetches[id := s.fetches[id].(phase := Admitted(|s.bucket.log|))] else s.fetches,
            s.requests)
    case Send(id, at) =>
      var f := s.fetches[id];
      State(s.bucket, s.fetches[id := Fetch(Sent, f.attempts + 1)], s.requests + [Request(id, f.phase.ticket, at)])
    case Respond(id, outcome) =>
      var f := s.fetches[id];
      s.(fetches := s.fetches[id := f.(phase := AfterAnswer(c.maxRetries, f.attempts, outcome))])
    case TryAgain(id) =>
      State(Bucket.Step(c.bucket, s.bucket, Bucket.Call(id)), s.fetches[id := s.fetches[id].(phase := Waiting)],
              s.requests)
  }

  ghost predicate Legal(c: Settings, s: State, events: seq<Event>)
    requires c.bucket.rate != 0.0
    decreases |events|
  {
    events == [] || (Enabled(c, s, events[0]) && Legal(c, Step(c, s, events[0]), events[1..]))
  }

  ghost function Run(c: Settings, s: State, events: seq<Event>): State
    requires c.bucket.rate != 0.0 && Legal(c, s, events)
    decreases |events|
  {
    if events == [] then s else Run(c, Step(c, s, events[0]), events[1..])
  }

  function Initial(c: Settings, start: int): State {
    State(Bucket.Initial(c.bucket, start), map[], [])
  }

  // What every run keeps.

  function RequestsOf(requests: seq<Request>, id: Caller): nat {
    if requests == [] then 0
    else RequestsOf(requests[..|requests| - 1], id) + if requests[|requests| - 1].caller == id then 1 else 0
  }

  /** A ticket is an admission of that caller. */
  predicate IsTicket(s: State, id: Caller, ticket: nat) {
    ticket < |s.bucket.log| && s.bucket.log[ticket].caller == id
  }

  /** Every request went out on an admission of its own caller's, soon after it. */
  ghost predicate Paid(c: Settings, s: State) {
    forall i :: 0 <= i < |s.requests| ==>
      var r := s.requests[i];
      IsTicket(s, r.caller, r.ticket) && s.bucket.log[r.ticket].at <= r.at <= s.bucket.log[r.ticket].at + c.delay
  }

  /** No admission is used twice. */
  ghost predicate UsedOnce(s: State) {
    && (forall i, j :: 0 <= i < j < |s.requests| ==> s.requests[i].ticket != s.requests[j].ticket)
    && (forall id :: id in s.fetches && s.fetches[id].phase.Admitted? ==>
          && IsTicket(s, id, s.fetches[id].phase.ticket)
          && forall i :: 0 <= i < |s.requests| ==> s.requests[i].ticket != s.fetches[id].phase.ticket)
  }

  /** How far a fetch can be after so many requests. */
  predicate Follows(maxRetries: nat, f: Fetch) {
    match f.phase
    case Waiting => f.attempts <= maxRetries
    case Admitted(_) => f.attempts <= maxRetries
    case Sent => 1 <= f.attempts <= maxRetries + 1
    case BackingOff => 1 <= f.attempts <= maxRetries
    case Finished(o) => 1 <= f.attempts <= maxRetries + 1 && (!Transient(o) || f.attempts == maxRetries + 1)
  }

  ghost predicate Counted(c: Settings, s: State) {
    && (forall id :: id in s.fetches ==> s.fetches[id].attempts == RequestsOf(s.requests, id))
    && (forall id :: id !in s.fetches ==> RequestsOf(s.requests, id) == 0)
    && (forall id :: id in s.fetches ==> Follows(c.maxRetries, s.fetches[id]))
    && (forall i :: 0 <= i < |s.bucket.queue| ==> IsQueued(s, s.bucket.queue[i]))
    && (forall i, j :: 0 <= i < j < |s.bucket.queue| ==> s.bucket.queue[i] != s.bucket.queue[j])
  }

  /** Only a fetch that waits is behind the bucket, once. */
  predicate IsQueued(s: State, id: Caller) {
    id in s.fetches && s.fetches[id].phase == Waiting
  }

  ghost predicate Inv(c: Settings, s: State) {
    Paid(c, s) && UsedOnce(s) && Counted(c, s)
  }

  lemma RequestsOneMore(requests: seq<Request>, r: Request, id: Caller)
    ensures RequestsOf(requests + [r], id) == RequestsOf(requests, id) + if r.caller == id then 1 else 0
  {
    WithoutLast(requests, r);
  }

  lemma StepKeepsPaid(c: Settings, s: State, e: Event)
    requires c.Valid() && Paid(c, s) && UsedOnce(s) && Enabled(c, s, e)
    ensures Paid(c, Step(c, s, e))
  {
    var t := Step(c, s, e);
    forall i | 0 <= i < |t.requests|
      ensures var r := t.requests[i];
              && IsTicket(t, r.caller, r.ticket)
              && t.bucket.log[r.ticket].at <= r.at <= t.bucket.log[r.ticket].at + c.delay
    {
      if i < |s.requests| {
        assert t.requests[i] == s.requests[i];
        assert t.bucket.log[s.requests[i].ticket] == s.bucket.log[s.requests[i].ticket];
      }
    }
  }

  lemma StepKeepsUsedOnce(c: Settings, s: State, e: Event)
    requires c.Valid() && Paid(c, s) && UsedOnce(s) && Counted(c, s) && Enabled(c, s, e)
    ensures UsedOnce(Step(c, s, e))
  {
    var t := Step(c, s, e);
    forall id | id in t.fetches && t.fetches[id].phase.Admitted?
      ensures IsTicket(t, id, t.fetches[id].phase.ticket)
      ensures forall i :: 0 <= i < |t.requests| ==> t.requests[i].ticket != t.fetches[id].phase.ticket
    {
      AdmittedStays(c, s, e, id);
    }
  }

  lemma AdmittedStays(c: Settings, s: State, e: Event, id: Caller)
    requires c.Valid() && Paid(c, s) && UsedOnce(s) && Counted(c, s) && Enabled(c, s, e)
    requires var t := Step(c, s, e); id in t.fetches && t.fetches[id].phase.Admitted?
    ensures var t := Step(c, s, e);
            && IsTicket(t, id, t.fetches[id].phase.ticket)
            && forall i :: 0 <= i < |t.requests| ==> t.requests[i].ticket != t.fetches[id].phase.ticket
  {
    var t := Step(c, s, e);
    if e.Admit? && id == s.bucket.queue[0] {
      assert forall i :: 0 <= i < |s.requests| ==> IsTicket(s, s.requests[i].caller, s.requests[i].ticket);
    } else {
      assert t.fetches[id] == s.fetches[id];
      if e.Send? {
        assert s.bucket.log[s.fetches[e.id].phase.ticket].caller == e.id;
      }
    }
  }

  lemma StepKeepsQueue(c: Settings, s: State, e: Event)
    requires c.Valid() && Counted(c, s) && Enabled(c, s, e)
    ensures var t := Step(c, s, e);
            && (forall i :: 0 <= i < |t.bucket.queue| ==> IsQueued(t, t.bucket.queue[i]))
            && (forall i, j :: 0 <= i < j < |t.bucket.queue| ==> t.bucket.queue[i] != t.bucket.queue[j])
  {
    var t := Step(c, s, e);
    forall i | 0 <= i < |t.bucket.queue|
      ensures IsQueued(t, t.bucket.queue[i])
    {
      if e.Admit? {
        assert t.bucket.queue[i] == s.bucket.queue[i + 1] && IsQueued(s, s.bucket.queue[i + 1]);
        assert s.bucket.queue[0] != s.bucket.queue[i + 1];
      } else if i < |s.bucket.queue| {
        assert t.bucket.queue[i] == s.bucket.queue[i] && IsQueued(s, s.bucket.queue[i]);
      }
    }
    forall i, j | 0 <= i < j < |t.bucket.queue|
      ensures t.bucket.queue[i] != t.bucket.queue[j]
    {
      if e.Admit? {
        assert t.bucket.queue[i] == s.bucket.queue[i + 1] && t.bucket.queue[j] == s.bucket.queue[j + 1];
      } else if j < |s.bucket.queue| {
        assert t.bucket.queue[i] == s.bucket.queue[i] && t.bucket.queue[j] == s.bucket.queue[j];
      } else {
        assert t.bucket.queue[i] == s.bucket.queue[i] && IsQueued(s, s.bucket.queue[i]);
      }
    }
  }

  lemma StepKeepsCounted(c: Settings, s: State, e: Event)
    requires c.Valid() && Counted(c, s) && Enabled(c, s, e)
    ensures Counted(c, Step(c, s, e))
  {
    var t := Step(c, s, e);
    StepKeepsQueue(c, s, e);
    forall id
      ensures RequestsOf(t.requests, id) == if id in t.fetches then t.fetches[id].attempts else 0
      ensures id in t.fetches ==> Follows(c.maxRetries, t.fetches[id])
    {
      if e.Send? {
        RequestsOneMore(s.requests, t.requests[|s.requests|], id);
      }
      if e.Admit? {
        assert IsQueued(s, s.bucket.queue[0]);
      }
    }
  }

  lemma {:induction false} RunKeepsInv(c: Settings, s: State, events: seq<Event>)
    requires c.Valid() && Inv(c, s) && Legal(c, s, events)
    ensures Inv(c, Run(c, s, events))
    decreases |events|
  {
    if events != [] {
      StepKeepsPaid(c, s, events[0]);
      StepKeepsUsedOnce(c, s, events[0]);
      StepKeepsCounted(c, s, events[0]);
      RunKeepsInv(c, Step(c, s, events[0]), events[1..]);
    }
  }

  /** After any run: as many requests for a fetch as attempts, and it stops at a final outcome or the last attempt. */
  lemma AttemptsAreBounded(c: Settings, start: int, events: seq<Event>, id: Caller)
    requires c.Valid() && Legal(c, Initial(c, start), events)
    ensures var s := Run(c, Initial(c, start), events);
            && RequestsOf(s.requests, id) <= c.maxRetries + 1
            && (id in s.fetches && s.fetches[id].phase.Finished? ==>
                  && RequestsOf(s.requests, id) >= 1
                  && var o := s.fetches[id].phase.result;
                     o.Threw? || 500 <= o.status <= 599 ==> RequestsOf(s.requests, id) == c.maxRetries + 1)
  {
    RunKeepsInv(c, Initial(c, start), events);
    CountsAreBounded(c, Run(c, Initial(c, start), events), id);
  }

  lemma CountsAreBounded(c: Settings, s: State, id: Caller)
    requires Counted(c, s)
    ensures RequestsOf(s.requests, id) <= c.maxRetries + 1
    ensures id in s.fetches && s.fetches[id].phase.Finished? ==>
              RequestsOf(s.requests, id) >= 1
              && (Transient(s.fetches[id].phase.result) ==> RequestsOf(s.requests, id) == c.maxRetries + 1)
  {
    if id in s.fetches {
      assert Follows(c.maxRetries, s.fetches[id]);
    }
  }

  /** Only a server's error or a failed connection is tried again: any other answer, a 404 say, ends the fetch. */
  lemma WhatIsTriedAgain(c: Settings, s: State, id: Caller, o: Outcome)
    requires c.Valid() && Counted(c, s) && Enabled(c, s, Respond(id, o))
    ensures var f := Step(c, s, Respond(id, o)).fetches[id];
            && f.attempts == s.fetches[id].attempts
            && f.phase == if (o.Threw? || 500 <= o.status <= 599) && RequestsOf(s.requests, id) <= c.maxRetries
                          then BackingOff else Finished(o)
  {
  }

  // What reaches SEC in a window.

  /** The steps as the bucket sees them. */
  function BucketEvents(events: seq<Event>): seq<Bucket.Event> {
    if events == [] then []
    else
      (match events[0]
       case Begin(id) => [Bucket.Call(id)]
       case TryAgain(id) => [Bucket.Call(id)]
       case Admit(now, woken) => [Bucket.Serve(now, woken)]
       case _ => [])
      + BucketEvents(events[1..])
  }

  /** The bucket under the fetches makes one of its own runs. */
  lemma {:induction false} BucketRuns(c: Settings, s: State, events: seq<Event>)
    requires c.bucket.rate != 0.0 && Legal(c, s, events)
    ensures Bucket.Timed(c.bucket, c.early, s.bucket, BucketEvents(events))
    ensures Run(c, s, events).bucket == Bucket.Run(c.bucket, c.early, s.bucket, BucketEvents(events))
    decreases |events|
  {
    if events != [] {
      var rest := BucketEvents(events[1..]);
      BucketRuns(c, Step(c, s, events[0]), events[1..]);
      if BucketEvents(events) != rest {
        assert BucketEvents(events)[1..] == rest;
      }
    }
  }

  /** The requests from `from` to `to`, both included. */
  function SentIn(requests: seq<Request>, from: int, to: int): set<int> {
    set i | 0 <= i < |requests| && from <= requests[i].at <= to
  }

  function TicketsOf(requests: seq<Request>, s: set<int>): set<int>
    requires forall i :: i in s ==> 0 <= i < |requests|
  {
    set i | i in s :: requests[i].ticket
  }

  lemma OneMoreTicket(requests: seq<Request>, s: set<int>, x: int)
    requires (forall i :: i in s ==> 0 <= i < |requests|) && 0 <= x < |requests| && x !in s
    requires forall i, j :: 0 <= i < j < |requests| ==> requests[i].ticket != requests[j].ticket
    ensures TicketsOf(requests, s + {x}) == TicketsOf(requests, s) + {requests[x].ticket}
    ensures requests[x].ticket !in TicketsOf(requests, s)
  {
    forall i | i in s
      ensures requests[i].ticket != requests[x].ticket
    {
      assert i < x || x < i;
    }
  }

  lemma {:induction false} TicketsAreAsMany(requests: seq<Request>, s: set<int>)
    requires forall i :: i in s ==> 0 <= i < |requests|
    requires forall i, j :: 0 <= i < j < |requests| ==> requests[i].ticket != requests[j].ticket
    ensures |TicketsOf(requests, s)| == |s|
  {
    if s != {} {
      var x := Member(s);
      TicketsAreAsMany(requests, s - {x});
      OneMoreTicket(requests, s - {x}, x);
      assert s == (s - {x}) + {x};
    }
  }

  /**
   * Of all fetches together, retries included, no window sees more requests than the bucket's bound for one
   * `delay` longer.
   */
  lemma RequestsInWindow(c: Settings, start: int, events: seq<Event>, from: int, to: int)
    requires c.Valid() && from <= to && Legal(c, Initial(c, start), events)
    ensures var requests := Run(c, Initial(c, start), events).requests;
            |set i | 0 <= i < |requests| && from <= requests[i].at <= to| as real
            <= c.bucket.capacity + Bucket.Earned(c.bucket, to - from + c.delay + c.early)
  {
    var s := Run(c, Initial(c, start), events);
    var sent := SentIn(s.requests, from, to);
    RunKeepsInv(c, Initial(c, start), events);
    BucketRuns(c, Initial(c, start), events);
    Bucket.WindowBound(c.bucket, c.early, start, BucketEvents(events), from - c.delay, to);
    TicketsAreAsMany(s.requests, sent);
    var tickets := TicketsOf(s.requests, sent);
    assert tickets <= Bucket.Window(s.bucket.log, from - c.delay, to);
    SubsetIsNoLarger(tickets, Bucket.Window(s.bucket.log, from - c.delay, to));
    assert sent == set i | 0 <= i < |s.requests| && from <= s.requests[i].at <= to;
  }

  /** How many requests a process sends from `from` on in one second. */
  ghost function SentInSecond(c: Settings, start: int, events: seq<Event>, from: int): nat
    requires c.Valid() && Legal(c, Initial(c, start), events)
  {
    var requests := Run(c, Initial(c, start), events).requests;
    |set i | 0 <= i < |requests| && from <= requests[i].at <= from + 1000|
  }

  lemma ShareInOneSecond(c: Settings, start: int, events: seq<Event>, from: int, share: int)
    requires c.Valid() && Legal(c, Initial(c, start), events) && c.early + c.delay <= 100
    requires c.bucket.capacity == 1.0 && c.bucket.rate == share as real && share <= 9
    ensures SentInSecond(c, start, events, from) <= share + 1
  {
    RequestsInWindow(c, start, events, from, from + 1000);
    Bucket.EarnedGrows(c.bucket, 1000 + c.delay + c.early, 1100);
    assert Bucket.Earned(c.bucket, 1100) == 1.1 * share as real;
  }

  /**
   * The four services together send at most ten requests in any second, however many fetches each runs and however
   * often they are retried, if a request leaves within 100 milliseconds of its admission, an early timer included.
   */
  lemma RequestBudgetHolds(c: seq<Settings>, start: seq<int>, events: seq<seq<Event>>, from: int)
    requires |c| == |start| == |events| == 4
    requires c[0].bucket == Bucket.API && c[1].bucket == Bucket.PARSER
    requires c[2].bucket == Bucket.POLLER && c[3].bucket == Bucket.RECONCILE
    requires forall k :: 0 <= k < 4 ==>
               c[k].Valid() && c[k].early + c[k].delay <= 100 && Legal(c[k], Initial(c[k], start[k]), events[k])
    ensures SentInSecond(c[0], start[0], events[0], from) + SentInSecond(c[1], start[1], events[1], from)
            + SentInSecond(c[2], start[2], events[2], from) + SentInSecond(c[3], start[3], events[3], from) <= 10
  {
    ShareInOneSecond(c[0], start[0], events[0], from, 1);
    ShareInOneSecond(c[1], start[1], events[1], from, 2);
    ShareInOneSecond(c[2], start[2], events[2], from, 2);
    ShareInOneSecond(c[3], start[3], events[3], from, 1);
  }

  // One call of `secFetch`.

  /**
   * One attempt as it may go: what other fetches do while this one waits, when it is let through and its request
   * leaves, the answer, and what others do during the pause before the next attempt.
   */
  datatype Attempt = Attempt(meanwhile: seq<Event>, now: int, woken: int, at: int, outcome: Outcome, pause: seq<Event>)

  /** The steps of a fetch from an attempt on. */
  function FetchEvents(id: Caller, attempts: seq<Attempt>, first: bool): seq<Event> {
    if attempts == [] then []
    else
      var a := attempts[0];
      OneAttempt(id, a, first)
      + if Transient(a.outcome) && |attempts| > 1 then a.pause + FetchEvents(id, attempts[1..], false) else []
  }

  /** Call the bucket, be let through, send, and be answered. */
  function OneAttempt(id: Caller, a: Attempt, first: bool): seq<Event> {
    [if first then Begin(id) else TryAgain(id)] + a.meanwhile
    + [Admit(a.now, a.woken), Send(id, a.at), Respond(id, a.outcome)]
  }

  lemma {:induction false} RunConcat(c: Settings, s: State, a: seq<Event>, b: seq<Event>)
    requires c.bucket.rate != 0.0
    ensures Legal(c, s, a + b) <==> Legal(c, s, a) && Legal(c, Run(c, s, a), b)
    ensures Legal(c, s, a + b) ==> Run(c, s, a + b) == Run(c, Run(c, s, a), b)
    decreases |a|
  {
    if a == [] {
      assert a + b == b;
    } else {
      assert (a + b)[1..] == a[1..] + b;
      if Enabled(c, s, a[0]) {
        RunConcat(c, Step(c, s, a[0]), a[1..], b);
      }
    }
  }

  /** The fetches of one process, over its bucket. */
  class SecClient {
    const bucket: Bucket.TokenBucket
    const maxRetries: nat
    var fetches: map<Caller, Fetch>
    var requests: seq<Request>

    constructor (bucket: Bucket.TokenBucket, maxRetries: nat := MAX_RETRIES)
      ensures this.bucket == bucket && this.maxRetries == maxRetries && fetches == map[] && requests == []
    {
      this.bucket, this.maxRetries := bucket, maxRetries;
      fetches, requests := map[], [];
    }

    function Contents(): State
      reads this, bucket
    {
      State(bucket.Contents(), fetches, requests)
    }

    ghost predicate Runs(c: Settings) {
      c.Valid() && c.bucket == bucket.Settings() && c.maxRetries == maxRetries
    }

    method Do(e: Event, ghost c: Settings)
      requires Runs(c) && Enabled(c, Contents(), e)
      modifies this, bucket
      ensures Contents() == Step(c, old(Contents()), e)
    {
      match e
      case Begin(id) =>
        bucket.Join(id);
        fetches := fetches[id := Fetch(Waiting, 0)];
      case Admit(now, woken) =>
        var ticket := |bucket.log|;
        var id := bucket.TakeToken(now, woken);
        if id in fetches {
          fetches := fetches[id := fetches[id].(phase := Admitted(ticket))];
        }
      case Send(id, at) =>
        requests := requests + [Request(id, fetches[id].phase.ticket, at)];
        fetches := fetches[id := Fetch(Sent, fetches[id].attempts + 1)];
      case Respond(id, outcome) =>
        var again := Transient(outcome) && fetches[id].attempts <= maxRetries;
        fetches := fetches[id := fetches[id].(phase := if again then BackingOff else Finished(outcome))];
      case TryAgain(id) =>
        bucket.Join(id);
        fetches := fetches[id := fetches[id].(phase := Waiting)];
    }

    method DoAll(events: seq<Event>, ghost c: Settings)
      requires Runs(c) && Legal(c, Contents(), events)
      modifies this, bucket
      ensures Contents() == Run(c, old(Contents()), events)
    {
      ghost var s := Contents();
      for i := 0 to |events|
        invariant Legal(c, s, events[..i]) && Contents() == Run(c, s, events[..i])
        invariant Legal(c, Contents(), events[i..])
      {
        OneEvent(c, s, events, i);
        Do(events[i], c);
      }
      WholePrefix(events);
    }

    /**
     * Tries until an outcome is final or the retries are used up, and hands back the last outcome: a response is
     * returned (a 5xx one too, on the last attempt), an error is thrown.
     */
    method SecFetch(id: Caller, attempts: seq<Attempt>, ghost c: Settings) returns (result: Outcome, made: nat)
      requires Runs(c) && |attempts| == maxRetries + 1
      requires Legal(c, Contents(), FetchEvents(id, attempts, true))
      modifies this, bucket
      ensures Contents() == Run(c, old(Contents()), FetchEvents(id, attempts, true))
      ensures 1 <= made <= maxRetries + 1 && result == attempts[made - 1].outcome
      ensures forall k :: 0 <= k < made - 1 && attempts[k].outcome.Response? ==>
                500 <= attempts[k].outcome.status <= 599
      ensures made <= maxRetries ==> result.Response? && !(500 <= result.status <= 599)
    {
      ghost var s, all := Contents(), FetchEvents(id, attempts, true);
      made := 0;
      while true
        invariant 0 <= made <= maxRetries
        invariant Legal(c, Contents(), FetchEvents(id, attempts[made..], made == 0))
        invariant Run(c, Contents(), FetchEvents(id, attempts[made..], made == 0)) == Run(c, s, all)
        invariant forall k :: 0 <= k < made ==> Transient(attempts[k].outcome)
        decreases maxRetries - made
      {
        var a := attempts[made];
        AttemptThenRest(c, Contents(), id, attempts[made..], made == 0);
        assert attempts[made..][1..] == attempts[made + 1..];
        DoAll(OneAttempt(id, a, made == 0), c);
        result, made := a.outcome, made + 1;
        if !Transient(result) || made > maxRetries {
          return;
        }
        DoAll(a.pause, c);
      }
    }
  }

  lemma AttemptThenRest(c: Settings, s: State, id: Caller, attempts: seq<Attempt>, first: bool)
    requires c.bucket.rate != 0.0 && attempts != [] && Legal(c, s, FetchEvents(id, attempts, first))
    ensures var a := attempts[0];
            && Legal(c, s, OneAttempt(id, a, first))
            && var t := Run(c, s, OneAttempt(id, a, first));
               if Transient(a.outcome) && |attempts| > 1 then
                 var rest := FetchEvents(id, attempts[1..], false);
                 && Legal(c, t, a.pause) && Legal(c, Run(c, t, a.pause), rest)
                 && Run(c, s, FetchEvents(id, attempts, first)) == Run(c, Run(c, t, a.pause), rest)
               else Run(c, s, FetchEvents(id, attempts, first)) == t
  {
    var a := attempts[0];
    var one := OneAttempt(id, a, first);
    var after := if Transient(a.outcome) && |attempts| > 1 then a.pause + FetchEvents(id, attempts[1..], false) else [];
    RunConcat(c, s, one, after);
    if Transient(a.outcome) && |attempts| > 1 {
      RunConcat(c, Run(c, s, one), a.pause, FetchEvents(id, attempts[1..], false));
    }
  }

  lemma OneEvent(c: Settings, s: State, events: seq<Event>, i: nat)
    requires c.bucket.rate != 0.0 && i < |events|
    requires Legal(c, s, events[..i]) && Legal(c, Run(c, s, events[..i]), events[i..])
    ensures var t := Run(c, s, events[..i]);
            && Enabled(c, t, events[i]) && Legal(c, Step(c, t, events[i]), events[i + 1..])
            && Legal(c, s, events[..i + 1]) && Run(c, s, events[..i + 1]) == Step(c, t, events[i])
  {
    var t := Run(c, s, events[..i]);
    OneFurther(events, i);
    assert events[i..][1..] == events[i + 1..];
    assert [events[i]][1..] == [];
    assert Legal(c, t, [events[i]]) && Run(c, t, [events[i]]) == Run(c, Step(c, t, events[i]), []);
    RunConcat(c, s, events[..i], [events[i]]);
  }
}
