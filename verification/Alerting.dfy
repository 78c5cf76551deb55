/** The heartbeat's two checks on the poller, and the rule that reports each outage once. */
module Alerting {
  import opened Common

  datatype AlertType = PollerSilence | PollerFailing

  /** A completed `poller_runs` row. */
  datatype PollerRun = PollerRun(finishedAt: int, companiesChecked: nat, companiesFailed: nat) {
    /** More than half of the companies could not be checked. */
    predicate Failing() {
      companiesChecked > 0 && 2 * companiesFailed > companiesChecked
    }

    predicate Healthy() {
      2 * companiesFailed <= companiesChecked
    }
  }

  datatype Alert = Alert(alertType: AlertType, at: int)

  /** The two tables the checks use - completed runs in the order they finished - and the alerts delivered. */
  datatype State = State(runs: seq<PollerRun>, lastAlerted: map<AlertType, int>, delivered: seq<Alert>)

  datatype Settings = Settings(thresholdMinutes: int, monitoringSince: Option<int>)

  const MINUTE_MS := 60_000
  const FAILING_CYCLES := 2

  function LastSuccess(s: State): Option<int> {
    if s.runs == [] then None else Some(s.runs[|s.runs| - 1].finishedAt)
  }

  /** The newest healthy run, which the outage a failing check reports began after. */
  function LastHealthy(runs: seq<PollerRun>): Option<int> {
    if runs == [] then None
    else if runs[|runs| - 1].Healthy() then Some(runs[|runs| - 1].finishedAt)
    else LastHealthy(runs[..|runs| - 1])
  }

  predicate SilentTooLong(c: Settings, s: State, now: int) {
    var since := if LastSuccess(s).Some? then LastSuccess(s) else c.monitoringSince;
    since.None? || now - since.value > c.thresholdMinutes * MINUTE_MS
  }

  predicate BlockedTwice(s: State) {
    && |s.runs| >= FAILING_CYCLES
    && forall i :: |s.runs| - FAILING_CYCLES <= i < |s.runs| ==> s.runs[i].Failing()
  }

  /** What a check sees, and when the outage it would report began. */
  predicate Sees(c: Settings, s: State, kind: AlertType, now: int) {
    match kind
    case PollerSilence => SilentTooLong(c, s, now)
    case PollerFailing => BlockedTwice(s)
  }

  function OutageStartedAfter(s: State, kind: AlertType): Option<int> {
    match kind
    case PollerSilence => LastSuccess(s)
    case PollerFailing => LastHealthy(s.runs)
  }

  predicate AlreadyReported(s: State, kind: AlertType, outageStartedAfter: Option<int>) {
    && kind in s.lastAlerted
    && (outageStartedAfter.None? || s.lastAlerted[kind] > outageStartedAfter.value)
  }

  function Recorded(s: State, kind: AlertType, now: int): State {
    s.(lastAlerted := s.lastAlerted[kind := now], delivered := s.delivered + [Alert(kind, now)])
  }

  /** A check decides to send from what it reads; only a delivered alert is recorded. */
  predicate Decides(c: Settings, s: State, kind: AlertType, now: int) {
    Sees(c, s, kind, now) && !AlreadyReported(s, kind, OutageStartedAfter(s, kind))
  }

  /** A poll cycle completes, or one check runs - reading, sending and recording in one step. */
  datatype Event =
    | Completed(at: int, checked: nat, failed: nat)
    | Check(at: int, kind: AlertType, deliverable: bool)

  function Step(c: Settings, s: State, e: Event): State {
    match e
    case Completed(at, checked, failed) => s.(runs := s.runs + [PollerRun(at, checked, failed)])
    case Check(at, kind, deliverable) =>
      if Decides(c, s, kind, at) && deliverable then Recorded(s, kind, at) else s
  }

  function Run(c: Settings, s: State, events: seq<Event>): State
    decreases |events|
  {
    if events == [] then s else Run(c, Step(c, s, events[0]), events[1..])
  }

  /** How sending went; a refused delivery is thrown. */
  datatype Sending = Sent | AlreadyKnown | Thrown

  /** What a check returns, or that it threw. */
  datatype SilenceCheck = SilenceChecked(alerted: bool, lastSuccessAt: Option<int>) | SilenceThrown
  datatype FailureCheck = FailureChecked(alerted: bool, failing: bool) | FailureThrown

  /** The tables and the sender, as the heartbeat process works on them. */
  class Heartbeat {
    var runs: seq<PollerRun>
    var lastAlerted: map<AlertType, int>
    var delivered: seq<Alert>

    function Contents(): State
      reads this
    {
      State(runs, lastAlerted, delivered)
    }

    constructor ()
      ensures Contents() == State([], map[], [])
    {
      runs, lastAlerted, delivered := [], map[], [];
    }

    /** Sends unless the outage was reported before; records only what was delivered. */
    method SendOncePerOutage(kind: AlertType, outageStartedAfter: Option<int>, now: int, deliverable: bool)
      returns (result: Sending)
      modifies this`lastAlerted, this`delivered
      ensures result == AlreadyKnown <==> AlreadyReported(old(Contents()), kind, outageStartedAfter)
      ensures result == Thrown ==> !deliverable
      ensures result == Sent ==> deliverable
      ensures Contents() == if result == Sent then Recorded(old(Contents()), kind, now) else old(Contents())
    {
      var known := kind in lastAlerted;
      if known && (outageStartedAfter.None? || lastAlerted[kind] > outageStartedAfter.value) {
        return AlreadyKnown;
      }
      if !deliverable {
        return Thrown;
      }
      delivered := delivered + [Alert(kind, now)];
      lastAlerted := lastAlerted[kind := now];
      return Sent;
    }

    method CheckPollerHeartbeat(c: Settings, now: int, deliverable: bool) returns (result: SilenceCheck)
      modifies this`lastAlerted, this`delivered
      ensures Contents() == Step(c, old(Contents()), Check(now, PollerSilence, deliverable))
      ensures result.SilenceThrown? <==> Decides(c, old(Contents()), PollerSilence, now) && !deliverable
      ensures result.SilenceChecked? ==>
                result == SilenceChecked(Contents() != old(Contents()), LastSuccess(old(Contents())))
    {
      var lastSuccessAt := if |runs| > 0 then Some(runs[|runs| - 1].finishedAt) else None;
      var silentSince := if lastSuccessAt.Some? then lastSuccessAt else c.monitoringSince;
      if silentSince.Some? && now - silentSince.value <= c.thresholdMinutes * MINUTE_MS {
        return SilenceChecked(false, lastSuccessAt);
      }
      var sending := SendOncePerOutage(PollerSilence, lastSuccessAt, now, deliverable);
      assert sending == Sent ==> |delivered| == |old(delivered)| + 1;
      return if sending == Thrown then SilenceThrown else SilenceChecked(sending == Sent, lastSuccessAt);
    }

    method CheckPollerFailures(c: Settings, now: int, deliverable: bool) returns (result: FailureCheck)
      modifies this`lastAlerted, this`delivered
      ensures Contents() == Step(c, old(Contents()), Check(now, PollerFailing, deliverable))
      ensures result.FailureThrown? <==> Decides(c, old(Contents()), PollerFailing, now) && !deliverable
      ensures result.FailureChecked? ==>
                result == FailureChecked(Contents() != old(Contents()), BlockedTwice(old(Contents())))
    {
      var n := |runs|;
      var failing := n >= FAILING_CYCLES && runs[n - 1].Failing() && runs[n - 2].Failing();
      if !failing {
        return FailureChecked(false, false);
      }
      var lastHealthy := None;
      var i := n;
      assert runs[..n] == runs;
      while i > 0 && lastHealthy.None?
        invariant 0 <= i <= n
        invariant lastHealthy.None? ==> LastHealthy(runs) == LastHealthy(runs[..i])
        invariant lastHealthy.Some? ==> LastHealthy(runs) == lastHealthy
        invariant Contents() == old(Contents())
        decreases i, lastHealthy.None?
      {
        assert runs[..i][..i - 1] == runs[..i - 1];
        i := i - 1;
        if runs[i].Healthy() {
          lastHealthy := Some(runs[i].finishedAt);
        }
      }
      var sending := SendOncePerOutage(PollerFailing, lastHealthy, now, deliverable);
      assert sending == Sent ==> |delivered| == |old(delivered)| + 1;
      return if sending == Thrown then FailureThrown else FailureChecked(sending == Sent, true);
    }
  }

  /** No table entry is newer than `clock`. */
  ghost predicate UpTo(s: State, clock: int) {
    && (forall i :: 0 <= i < |s.runs| ==> s.runs[i].finishedAt <= clock)
    && (forall k :: k in s.lastAlerted ==> s.lastAlerted[k] <= clock)
  }

  /** Events at strictly increasing times, all after `clock`. */
  ghost predicate Increasing(clock: int, events: seq<Event>)
    decreases |events|
  {
    events == [] || (clock < events[0].at && Increasing(events[0].at, events[1..]))
  }

  function DeliveredOf(kind: AlertType, alerts: seq<Alert>): nat {
    if alerts == [] then 0
    else DeliveredOf(kind, alerts[..|alerts| - 1]) + (if alerts[|alerts| - 1].alertType == kind then 1 else 0)
  }

  /** How many alerts of one kind a run of events delivers. */
  function AlertsDuring(c: Settings, s: State, kind: AlertType, events: seq<Event>): int {
    DeliveredOf(kind, Run(c, s, events).delivered) - DeliveredOf(kind, s.delivered)
  }

  /** Whether an event ends the kind of outage in question: any success, or a healthy cycle. */
  predicate Recovers(kind: AlertType, e: Event) {
    e.Completed? && (kind == PollerFailing ==> 2 * e.failed <= e.checked)
  }

  /** Some check in the run, with delivery working, sees the outage. */
  ghost predicate Witnessed(c: Settings, s: State, kind: AlertType, events: seq<Event>)
    decreases |events|
  {
    && events != []
    && ((events[0].Check? && events[0].kind == kind && events[0].deliverable && Sees(c, s, kind, events[0].at))
        || Witnessed(c, Step(c, s, events[0]), kind, events[1..]))
  }

  lemma StepIsUpTo(c: Settings, s: State, clock: int, e: Event)
    requires UpTo(s, clock) && clock <= e.at
    ensures UpTo(Step(c, s, e), e.at)
  {
  }

  /** Until the poller recovers, the start of the outage does not move. */
  lemma OutageStartIsStable(c: Settings, s: State, kind: AlertType, e: Event)
    requires !Recovers(kind, e)
    ensures OutageStartedAfter(Step(c, s, e), kind) == OutageStartedAfter(s, kind)
  {
    if e.Completed? {
      var r := PollerRun(e.at, e.checked, e.failed);
      assert (s.runs + [r])[..|s.runs|] == s.runs;
    }
  }

  lemma {:induction false} LastHealthyIsPast(runs: seq<PollerRun>, clock: int)
    requires forall i :: 0 <= i < |runs| ==> runs[i].finishedAt <= clock
    ensures LastHealthy(runs).Some? ==> LastHealthy(runs).value <= clock
    decreases |runs|
  {
    if runs != [] && !runs[|runs| - 1].Healthy() {
      LastHealthyIsPast(runs[..|runs| - 1], clock);
    }
  }

  /** Runs are in the order they finished. */
  ghost predicate InOrder(runs: seq<PollerRun>) {
    forall i, j :: 0 <= i <= j < |runs| ==> runs[i].finishedAt <= runs[j].finishedAt
  }

  lemma {:induction false} LastHealthyMeans(runs: seq<PollerRun>)
    requires InOrder(runs)
    ensures LastHealthy(runs).None?
      <==> forall i :: 0 <= i < |runs| ==> 2 * runs[i].companiesFailed > runs[i].companiesChecked
    ensures forall i :: 0 <= i < |runs| && 2 * runs[i].companiesFailed <= runs[i].companiesChecked ==>
              LastHealthy(runs).Some? && runs[i].finishedAt <= LastHealthy(runs).value
    ensures LastHealthy(runs).Some? ==>
              exists i :: 0 <= i < |runs| && 2 * runs[i].companiesFailed <= runs[i].companiesChecked
                          && runs[i].finishedAt == LastHealthy(runs).value
    decreases |runs|
  {
    if runs != [] && !runs[|runs| - 1].Healthy() {
      var n := |runs| - 1;
      LastHealthyMeans(runs[..n]);
      assert forall i :: 0 <= i < n ==> runs[..n][i] == runs[i];
    }
  }

  /** The alert goes out and is recorded, or nothing happens. */
  ghost predicate Alerts(s: State, t: State, kind: AlertType, now: int, sent: bool) {
    t == if sent then State(s.runs, s.lastAlerted[kind := now], s.delivered + [Alert(kind, now)]) else s
  }

  /**
   * With delivery working, a silence check alerts exactly if more than the threshold's minutes have passed since the
   * last completed run - since monitoring began if there is none - and no alert of its kind is newer than that run.
   */
  lemma WhenSilenceIsReported(c: Settings, s: State, now: int)
    ensures var since := if s.runs != [] then Some(s.runs[|s.runs| - 1].finishedAt) else c.monitoringSince;
            var silent := since.None? || now - since.value > c.thresholdMinutes * 60_000;
            var reported := PollerSilence in s.lastAlerted
                            && (s.runs == [] || s.lastAlerted[PollerSilence] > s.runs[|s.runs| - 1].finishedAt);
            Alerts(s, Step(c, s, Check(now, PollerSilence, true)), PollerSilence, now, silent && !reported)
  {
  }

  /**
   * A failure check does exactly if the last two completed runs, not just the last one, each failed for more than half
   * of their companies, and no alert of its kind is newer than every healthy run.
   */
  lemma WhenFailureIsReported(c: Settings, s: State, now: int)
    requires InOrder(s.runs)
    ensures var n := |s.runs|;
            var failing := n >= 2 && s.runs[n - 1].companiesChecked > 0 && s.runs[n - 2].companiesChecked > 0
                           && 2 * s.runs[n - 1].companiesFailed > s.runs[n - 1].companiesChecked
                           && 2 * s.runs[n - 2].companiesFailed > s.runs[n - 2].companiesChecked;
            var reported := PollerFailing in s.lastAlerted
                            && forall i :: 0 <= i < n && 2 * s.runs[i].companiesFailed <= s.runs[i].companiesChecked
                                           ==> s.runs[i].finishedAt < s.lastAlerted[PollerFailing];
            Alerts(s, Step(c, s, Check(now, PollerFailing, true)), PollerFailing, now, failing && !reported)
  {
    LastHealthyMeans(s.runs);
    var n := |s.runs|;
    if n >= 2 {
      assert BlockedTwice(s) <==> s.runs[n - 1].Failing() && s.runs[n - 2].Failing();
    }
  }

  /** One event delivers at most one alert; it does so when it decides to, and then the outage counts as reported. */
  lemma StepDelivers(c: Settings, s: State, clock: int, kind: AlertType, e: Event)
    requires UpTo(s, clock) && clock < e.at && !Recovers(kind, e)
    ensures var s1 := Step(c, s, e);
            var sees := e.Check? && e.kind == kind && e.deliverable && Sees(c, s, kind, e.at);
            var before := AlreadyReported(s, kind, OutageStartedAfter(s, kind));
            && DeliveredOf(kind, s1.delivered) == DeliveredOf(kind, s.delivered) + (if sees && !before then 1 else 0)
            && AlreadyReported(s1, kind, OutageStartedAfter(s1, kind)) == (sees || before)
  {
    OutageStartIsStable(c, s, kind, e);
    LastHealthyIsPast(s.runs, clock);
    if e.Check? && e.deliverable && Decides(c, s, e.kind, e.at) {
      var a := Alert(e.kind, e.at);
      assert (s.delivered + [a])[..|s.delivered|] == s.delivered;
    }
  }

  /**
   * While the poller does not recover, exactly one alert is delivered if the outage was not reported
   * before and some check with working delivery sees it, and none otherwise - for both kinds of check.
   */
  lemma {:induction false} OncePerOutage(c: Settings, s: State, clock: int, kind: AlertType, events: seq<Event>)
    requires UpTo(s, clock) && Increasing(clock, events)
    requires forall i :: 0 <= i < |events| ==> !Recovers(kind, events[i])
    ensures AlertsDuring(c, s, kind, events)
            == if !AlreadyReported(s, kind, OutageStartedAfter(s, kind)) && Witnessed(c, s, kind, events) then 1 else 0
    decreases |events|
  {
    if events == [] {
    } else {
      StepIsUpTo(c, s, clock, events[0]);
      StepDelivers(c, s, clock, kind, events[0]);
      OncePerOutage(c, Step(c, s, events[0]), events[0].at, kind, events[1..]);
    }
  }

  lemma {:induction false} SplitRun(c: Settings, s: State, clock: int, a: seq<Event>, b: seq<Event>) returns (late: int)
    requires UpTo(s, clock) && Increasing(clock, a + b)
    ensures Run(c, s, a + b) == Run(c, Run(c, s, a), b)
    ensures UpTo(Run(c, s, a), late) && Increasing(late, b)
    decreases |a|
  {
    if a == [] {
      assert a + b == b;
      late := clock;
    } else {
      assert (a + b)[1..] == a[1..] + b;
      StepIsUpTo(c, s, clock, a[0]);
      late := SplitRun(c, Step(c, s, a[0]), a[0].at, a[1..], b);
    }
  }

  const EMPTY := State([], map[], [])

  /**
   * From empty tables on: between a recovery and the next one, the number of alerts is one when some
   * check with working delivery saw the outage, and zero when none did.
   */
  lemma AlertsBetweenRecoveries(c: Settings, kind: AlertType, clock: int, before: seq<Event>, recovery: Event,
          outage: seq<Event>)
    requires Increasing(clock, before + ([recovery] + outage))
    requires Recovers(kind, recovery)
    requires forall i :: 0 <= i < |outage| ==> !Recovers(kind, outage[i])
    ensures var s := Step(c, Run(c, EMPTY, before), recovery);
            AlertsDuring(c, s, kind, outage) == if Witnessed(c, s, kind, outage) then 1 else 0
  {
    var late := SplitRun(c, EMPTY, clock, before, [recovery] + outage);
    var r := Run(c, EMPTY, before);
    var s := Step(c, r, recovery);
    assert ([recovery] + outage)[1..] == outage;
    StepIsUpTo(c, r, late, recovery);
    OncePerOutage(c, s, recovery.at, kind, outage);
  }

  /** The check is not atomic in the database: a recovery lands between its decision and its record. */
  function Raced(c: Settings, s: State, kind: AlertType, recovery: Event, recordAt: int): State {
    Recorded(Step(c, s, recovery), kind, recordAt)
  }

  /** The record is then newer than the recovery, and no check of the outage that follows delivers anything. */
  lemma RaceSuppressesNextOutage(c: Settings, s: State, kind: AlertType, readAt: int, recovery: Event, recordAt: int,
                                 outage: seq<Event>)
    requires Decides(c, s, kind, readAt) && UpTo(s, readAt)
    requires Recovers(kind, recovery) && readAt < recovery.at < recordAt
    requires Increasing(recordAt, outage) && forall i :: 0 <= i < |outage| ==> !Recovers(kind, outage[i])
    ensures AlertsDuring(c, Raced(c, s, kind, recovery, recordAt), kind, outage) == 0
  {
    OncePerOutage(c, Raced(c, s, kind, recovery, recordAt), recordAt, kind, outage);
  }

  /** Two failing cycles, or a long enough silence, and then a check with working delivery. */
  function OutageAfter(c: Settings, kind: AlertType, from: int): seq<Event> {
    match kind
    case PollerSilence =>
      [Check(from + 1 + if c.thresholdMinutes > 0 then c.thresholdMinutes * MINUTE_MS else 0, PollerSilence, true)]
    case PollerFailing => [Completed(from + 1, 1, 1), Completed(from + 2, 1, 1), Check(from + 3, PollerFailing, true)]
  }

  /** Every such race, of either kind, can hide a whole outage that a check with working delivery sees. */
  lemma RaceHidesAnOutage(c: Settings, s: State, kind: AlertType, readAt: int, recovery: Event, recordAt: int)
    requires Decides(c, s, kind, readAt) && UpTo(s, readAt)
    requires Recovers(kind, recovery) && readAt < recovery.at < recordAt
    ensures var raced, outage := Raced(c, s, kind, recovery, recordAt), OutageAfter(c, kind, recordAt);
            && Witnessed(c, raced, kind, outage) && AlertsDuring(c, raced, kind, outage) == 0
  {
    var raced, outage := Raced(c, s, kind, recovery, recordAt), OutageAfter(c, kind, recordAt);
    if kind == PollerFailing {
      FailingOutageIsWitnessed(c, raced, recordAt);
    } else {
      assert outage[1..] == [];
      assert LastSuccess(raced) == Some(recovery.at);
    }
    RaceSuppressesNextOutage(c, s, kind, readAt, recovery, recordAt, outage);
  }

  lemma FailingOutageIsWitnessed(c: Settings, s: State, from: int)
    ensures var outage := OutageAfter(c, PollerFailing, from);
            && Witnessed(c, s, PollerFailing, outage) && Increasing(from, outage)
  {
    var outage := OutageAfter(c, PollerFailing, from);
    var s1 := Step(c, s, outage[0]);
    var s2 := Step(c, s1, outage[1]);
    assert outage[1..][1..] == [outage[2]] && [outage[2]][1..] == [];
    assert s2.runs == s.runs + [PollerRun(from + 1, 1, 1), PollerRun(from + 2, 1, 1)];
    assert BlockedTwice(s2);
    assert Increasing(from + 2, [outage[2]]) && Increasing(from + 1, outage[1..]);
    assert Witnessed(c, s2, PollerFailing, [outage[2]]);
    assert Witnessed(c, s1, PollerFailing, outage[1..]);
  }
}
