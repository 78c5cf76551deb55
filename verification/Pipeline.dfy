/**
 * The three workers behind the queues `filing.discovered`, `filing.parsed` and `scores.updated`.
 * Any number of attempts run at once; delivery is at least once; an attempt may stop anywhere.
 */
module Pipeline {
  import opened Common

  type Accession(!new, ==) = string

  /** The stages, named after the row each claims in `stage_completions`. */
  datatype Stage = Parsed | Scored | Notified

  /** One stage of one filing. */
  datatype Work = Work(accession: Accession, stage: Stage)

  /** An attempt before its claim, or after winning it and before the effect it guards. */
  datatype Attempt = Attempt(work: Work, won: bool)

  /**
   * `effects` counts what each stage has done: a `filing.parsed` job, a `scores.updated` job, an alert.
   * `lost` counts the attempts that won a claim and stopped before the effect. `acked` holds the work
   * some attempt finished normally, `unwatched` what ended early because nobody watches the company.
   */
  datatype State = State(
    discovered: multiset<Accession>,
    claims: set<Work>,
    effects: multiset<Work>,
    attempts: map<nat, Attempt>,
    lost: multiset<Work>,
    acked: set<Work>,
    unwatched: set<Work>)

  const EMPTY := State(multiset{}, {}, multiset{}, map[], multiset{}, {}, {})

  datatype Event =
    | Discover(accession: Accession)
    | Deliver(id: nat, work: Work)
    | NobodyWatches(id: nat)
    | Claim(id: nat)
    | Perform(id: nat)
    | Stop(id: nat)

  /** The job that work consumes: the previous stage's effect, or a discovered filing. */
  predicate HasJob(s: State, w: Work) {
    match w.stage
    case Parsed => w.accession in s.discovered
    case Scored => w.(stage := Parsed) in s.effects
    case Notified => w.(stage := Scored) in s.effects
  }

  predicate Enabled(s: State, e: Event) {
    match e
    case Discover(_) => true
    case Deliver(id, w) => id !in s.attempts && HasJob(s, w)
    case NobodyWatches(id) => id in s.attempts && !s.attempts[id].won && s.attempts[id].work.stage == Notified
    case Claim(id) => id in s.attempts && !s.attempts[id].won
    case Perform(id) => id in s.attempts && s.attempts[id].won
    case Stop(id) => id in s.attempts
  }

  function Step(s: State, e: Event): State
    requires Enabled(s, e)
  {
    match e
    case Discover(a) => s.(discovered := s.discovered + multiset{a})
    case Deliver(id, w) => s.(attempts := s.attempts[id := Attempt(w, false)])
    case NobodyWatches(id) =>
      var w := s.attempts[id].work;
      s.(attempts := s.attempts - {id}, acked := s.acked + {w}, unwatched := s.unwatched + {w})
    case Claim(id) =>
      var w := s.attempts[id].work;
      if w in s.claims then s.(attempts := s.attempts - {id}, acked := s.acked + {w})
      else s.(attempts := s.attempts[id := Attempt(w, true)], claims := s.claims + {w})
    case Perform(id) =>
      var w := s.attempts[id].work;
      s.(attempts := s.attempts - {id}, effects := s.effects + multiset{w}, acked := s.acked + {w})
    case Stop(id) =>
      var Attempt(w, won) := s.attempts[id];
      s.(attempts := s.attempts - {id}, lost := if won then s.lost + multiset{w} else s.lost)
  }

  ghost predicate Legal(s: State, events: seq<Event>)
    decreases |events|
  {
    events == [] || (Enabled(s, events[0]) && Legal(Step(s, events[0]), events[1..]))
  }

  function Run(s: State, events: seq<Event>): State
    requires Legal(s, events)
    decreases |events|
  {
    if events == [] then s else Run(Step(s, events[0]), events[1..])
  }

  lemma RunOfTwo(s: State, a: Event, b: Event)
    requires Enabled(s, a) && Enabled(Step(s, a), b)
    ensures Legal(s, [a, b]) && Run(s, [a, b]) == Step(Step(s, a), b)
  {
    assert [a, b][1..] == [b];
    assert Run(Step(s, a), [b]) == Run(Step(Step(s, a), b), []);
  }

  lemma RunOfThree(s: State, a: Event, b: Event, c: Event)
    requires Enabled(s, a) && Enabled(Step(s, a), b) && Enabled(Step(Step(s, a), b), c)
    ensures Legal(s, [a, b, c]) && Run(s, [a, b, c]) == Step(Step(Step(s, a), b), c)
  {
    assert [a, b, c][1..] == [b, c];
    RunOfTwo(Step(s, a), b, c);
  }

  /** Where an attempt stops: before its claim, after winning it, or not at all. */
  datatype StopPoint = BeforeClaim | AfterClaim | Never

  /** The steps of one attempt that runs alone from delivery on. */
  function AttemptEvents(s: State, id: nat, w: Work, watched: bool, stop: StopPoint): seq<Event> {
    if w.stage == Notified && !watched && !stop.BeforeClaim? then [Deliver(id, w), NobodyWatches(id)]
    else match stop
      case BeforeClaim => [Deliver(id, w), Stop(id)]
      case AfterClaim => if w in s.claims then [Deliver(id, w), Claim(id)] else [Deliver(id, w), Claim(id), Stop(id)]
      case Never => if w in s.claims then [Deliver(id, w), Claim(id)] else [Deliver(id, w), Claim(id), Perform(id)]
  }

  /** What those steps come to. */
  lemma AttemptOutcome(s: State, id: nat, w: Work, watched: bool, stop: StopPoint)
    requires id !in s.attempts && HasJob(s, w)
    ensures Legal(s, AttemptEvents(s, id, w, watched, stop))
    ensures Run(s, AttemptEvents(s, id, w, watched, stop))
            == if stop.BeforeClaim? then s
               else if w.stage == Notified && !watched then s.(acked := s.acked + {w}, unwatched := s.unwatched + {w})
               else if w in s.claims then s.(acked := s.acked + {w})
               else if stop.AfterClaim? then s.(claims := s.claims + {w}, lost := s.lost + multiset{w})
               else s.(claims := s.claims + {w}, effects := s.effects + multiset{w}, acked := s.acked + {w})
  {
    var events := AttemptEvents(s, id, w, watched, stop);
    var delivered := s.attempts[id := Attempt(w, false)];
    assert delivered - {id} == s.attempts;
    assert delivered[id := Attempt(w, true)] - {id} == s.attempts;
    if |events| == 2 {
      RunOfTwo(s, events[0], events[1]);
    } else {
      RunOfThree(s, events[0], events[1], events[2]);
    }
  }

  /** The tables and queues, with the three job handlers as their methods. */
  class Workers {
    var discovered: multiset<Accession>
    var claims: set<Work>
    var effects: multiset<Work>
    var attempts: map<nat, Attempt>
    var lost: multiset<Work>
    var acked: set<Work>
    var unwatched: set<Work>

    function Contents(): State
      reads this
    {
      State(discovered, claims, effects, attempts, lost, acked, unwatched)
    }

    constructor ()
      ensures Contents() == EMPTY
    {
      discovered, claims, effects, attempts := multiset{}, {}, multiset{}, map[];
      lost, acked, unwatched := multiset{}, {}, {};
    }

    /** Inserts the row unless it is there, in one statement; true when this call inserted it. */
    method ClaimStage(accession: Accession, stage: Stage) returns (first: bool)
      modifies this`claims
      ensures first == (Work(accession, stage) !in old(claims))
      ensures claims == old(claims) + {Work(accession, stage)}
    {
      first := Work(accession, stage) !in claims;
      claims := claims + {Work(accession, stage)};
    }

    /** What the three handlers share: claim, then the effect the claim guards. */
    method ClaimThenPerform(ghost id: nat, accession: Accession, stage: Stage, stop: StopPoint)
      requires id !in attempts
      requires HasJob(Contents(), Work(accession, stage))
      modifies this
      ensures Legal(old(Contents()), AttemptEvents(old(Contents()), id, Work(accession, stage), true, stop))
      ensures Contents() == Run(old(Contents()), AttemptEvents(old(Contents()), id, Work(accession, stage), true, stop))
    {
      var w := Work(accession, stage);
      AttemptOutcome(Contents(), id, w, true, stop);
      if stop == BeforeClaim {
        return;
      }
      var first := ClaimStage(accession, stage);
      if !first {
        acked := acked + {w};
        assert claims == old(claims);
        return;
      }
      if stop == AfterClaim {
        lost := lost + multiset{w};
        return;
      }
      effects := effects + multiset{w};
      acked := acked + {w};
    }

    method ProcessFilingDiscovered(ghost id: nat, accession: Accession, stop: StopPoint)
      requires id !in attempts && accession in discovered
      modifies this
      ensures Legal(old(Contents()), AttemptEvents(old(Contents()), id, Work(accession, Parsed), true, stop))
      ensures Contents()
              == Run(old(Contents()), AttemptEvents(old(Contents()), id, Work(accession, Parsed), true, stop))
    {
      ClaimThenPerform(id, accession, Parsed, stop);
    }

    method ProcessFilingParsed(ghost id: nat, accession: Accession, stop: StopPoint)
      requires id !in attempts && Work(accession, Parsed) in effects
      modifies this
      ensures Legal(old(Contents()), AttemptEvents(old(Contents()), id, Work(accession, Scored), true, stop))
      ensures Contents()
              == Run(old(Contents()), AttemptEvents(old(Contents()), id, Work(accession, Scored), true, stop))
    {
      ClaimThenPerform(id, accession, Scored, stop);
    }

    /** Alerts only when somebody watches the company, which is checked before the claim. */
    method ProcessScoresUpdated(ghost id: nat, accession: Accession, watchers: nat, stop: StopPoint)
      requires id !in attempts && Work(accession, Scored) in effects
      modifies this
      ensures Legal(old(Contents()), AttemptEvents(old(Contents()), id, Work(accession, Notified), watchers > 0, stop))
      ensures Contents()
              == Run(old(Contents()), AttemptEvents(old(Contents()), id, Work(accession, Notified), watchers > 0, stop))
    {
      var w := Work(accession, Notified);
      if watchers == 0 && stop != BeforeClaim {
        AttemptOutcome(Contents(), id, w, false, stop);
        acked := acked + {w};
        unwatched := unwatched + {w};
        return;
      }
      ClaimThenPerform(id, accession, Notified, stop);
    }
  }

  /** The attempts that hold a won claim on `w` and have not performed its effect yet. */
  function Holders(s: State, w: Work): set<nat> {
    set id | id in s.attempts && s.attempts[id] == Attempt(w, true)
  }

  /**
   * The account that every step balances: a claim is spent on one effect, is held by one attempt,
   * or was lost with one. Work is done only for jobs that exist.
   */
  ghost predicate Balanced(s: State) {
    forall w :: (if w in s.claims then 1 else 0) == s.effects[w] + s.lost[w] + |Holders(s, w)|
  }

  ghost predicate JobsExist(s: State) {
    && (forall w :: w in s.claims ==> HasJob(s, w))
    && (forall id :: id in s.attempts ==> HasJob(s, s.attempts[id].work))
  }

  ghost predicate Inv(s: State) {
    && Balanced(s)
    && JobsExist(s)
    && (forall w :: w in s.acked ==> w in s.claims || w in s.unwatched)
    && (forall w :: w in s.unwatched ==> w.stage == Notified)
  }

  lemma JobsRemain(s: State, e: Event, w: Work)
    requires Enabled(s, e) && HasJob(s, w)
    ensures HasJob(Step(s, e), w)
  {
  }

  lemma HoldersAfter(s: State, e: Event, w: Work)
    requires Enabled(s, e)
    ensures var t := Step(s, e);
            Holders(t, w)
            == if e.Claim? && s.attempts[e.id].work == w && w !in s.claims then Holders(s, w) + {e.id}
               else if e.Perform? || e.Stop? || e.Claim? || e.NobodyWatches? then Holders(s, w) - {e.id}
               else Holders(s, w)
  {
  }

  lemma StepBalances(s: State, e: Event, w: Work)
    requires Balanced(s) && Enabled(s, e)
    ensures var t := Step(s, e);
            (if w in t.claims then 1 else 0) == t.effects[w] + t.lost[w] + |Holders(t, w)|
  {
    HoldersAfter(s, e, w);
    assert (if w in s.claims then 1 else 0) == s.effects[w] + s.lost[w] + |Holders(s, w)|;
    if !e.Discover? && !e.Deliver? {
      WithoutOne(Holders(s, w), e.id);
    }
  }

  lemma WithoutOne(ids: set<nat>, id: nat)
    ensures |ids - {id}| == |ids| - if id in ids then 1 else 0
    ensures id !in ids ==> |ids + {id}| == |ids| + 1
  {
    if id in ids {
      assert ids == (ids - {id}) + {id};
    } else {
      assert ids - {id} == ids;
    }
  }

  lemma StepKeepsJobs(s: State, e: Event)
    requires JobsExist(s) && Enabled(s, e)
    ensures JobsExist(Step(s, e))
  {
    var t := Step(s, e);
    forall w | w in t.claims
      ensures HasJob(t, w)
    {
      assert w in s.claims || (e.Claim? && w == s.attempts[e.id].work);
      JobsRemain(s, e, w);
    }
    forall id | id in t.attempts
      ensures HasJob(t, t.attempts[id].work)
    {
      assert (id in s.attempts && t.attempts[id].work == s.attempts[id].work) || e == Deliver(id, t.attempts[id].work);
      JobsRemain(s, e, t.attempts[id].work);
    }
  }

  lemma StepKeepsInv(s: State, e: Event)
    requires Inv(s) && Enabled(s, e)
    ensures Inv(Step(s, e))
  {
    var t := Step(s, e);
    forall w
      ensures (if w in t.claims then 1 else 0) == t.effects[w] + t.lost[w] + |Holders(t, w)|
    {
      StepBalances(s, e, w);
    }
    StepKeepsJobs(s, e);
    if e.Perform? {
      HolderHasClaimed(s, e.id);
    }
  }

  lemma HolderHasClaimed(s: State, id: nat)
    requires Inv(s) && id in s.attempts && s.attempts[id].won
    ensures s.attempts[id].work in s.claims
  {
    var w := s.attempts[id].work;
    assert id in Holders(s, w);
    assert (if w in s.claims then 1 else 0) == s.effects[w] + s.lost[w] + |Holders(s, w)|;
  }

  lemma {:induction false} RunKeepsInv(s: State, events: seq<Event>)
    requires Inv(s) && Legal(s, events)
    ensures Inv(Run(s, events))
    decreases |events|
  {
    if events != [] {
      StepKeepsInv(s, events[0]);
      RunKeepsInv(Step(s, events[0]), events[1..]);
    }
  }

  lemma EmptyInv()
    ensures Inv(EMPTY)
  {
    assert forall w :: Holders(EMPTY, w) == {};
  }

  /**
   * Whatever is redelivered, discovered twice or stopped midway: at most one `filing.parsed` job, one
   * `scores.updated` job and one alert for each filing, and none without the one before it.
   */
  lemma AtMostOnce(events: seq<Event>, a: Accession)
    requires Legal(EMPTY, events)
    ensures var s := Run(EMPTY, events);
            && s.effects[Work(a, Notified)] <= s.effects[Work(a, Scored)] <= s.effects[Work(a, Parsed)] <= 1
            && (s.effects[Work(a, Parsed)] == 1 ==> a in s.discovered)
  {
    EmptyInv();
    RunKeepsInv(EMPTY, events);
    var s := Run(EMPTY, events);
    forall w
      ensures s.effects[w] <= 1 && (s.effects[w] == 1 ==> HasJob(s, w))
    {
      assert s.effects[w] + s.lost[w] + |Holders(s, w)| == if w in s.claims then 1 else 0;
    }
  }

  /**
   * With no attempt in flight, a stage that was reached had its effect exactly once or was lost in a stop
   * exactly once.
   */
  lemma EffectsAtRest(events: seq<Event>, w: Work)
    requires Legal(EMPTY, events) && Run(EMPTY, events).attempts == map[]
    ensures var s := Run(EMPTY, events);
            s.effects[w] + s.lost[w] == if w in s.claims then 1 else 0
  {
    EmptyInv();
    RunKeepsInv(EMPTY, events);
    assert Holders(Run(EMPTY, events), w) == {};
  }

  /** Every job there is has been finished normally by some attempt, and none is running. */
  ghost predicate Settled(s: State) {
    s.attempts == map[] && forall w :: HasJob(s, w) ==> w in s.acked
  }

  /**
   * Once every job has been worked off, a discovered filing has exactly one job at each later stage and,
   * if somebody watched its company whenever that was checked, exactly one alert - precisely when no
   * attempt stopped between winning one of its claims and the effect.
   */
  lemma ExactlyOnceIffNoneLost(events: seq<Event>, a: Accession)
    requires Legal(EMPTY, events)
    requires Settled(Run(EMPTY, events)) && a in Run(EMPTY, events).discovered
    requires Work(a, Notified) !in Run(EMPTY, events).unwatched
    ensures var s := Run(EMPTY, events);
            (forall stage :: s.effects[Work(a, stage)] == 1) <==> (forall stage :: s.lost[Work(a, stage)] == 0)
  {
    var s := Run(EMPTY, events);
    EmptyInv();
    RunKeepsInv(EMPTY, events);
    var parsed, scored, notified := Work(a, Parsed), Work(a, Scored), Work(a, Notified);
    EffectsAtRest(events, parsed);
    EffectsAtRest(events, scored);
    EffectsAtRest(events, notified);
    assert HasJob(s, parsed);
    assert parsed in s.claims;
    assert HasJob(s, scored) <==> s.effects[parsed] == 1;
    assert HasJob(s, notified) <==> s.effects[scored] == 1;
    assert forall stage :: Work(a, stage) == parsed || Work(a, stage) == scored || Work(a, stage) == notified;
  }

  /**
   * A stop after the claim is final: however often the job is delivered again afterwards, the effect
   * never happens and nothing downstream does.
   */
  lemma {:induction false} LostForGood(s: State, events: seq<Event>, w: Work)
    requires Inv(s) && Legal(s, events) && s.lost[w] > 0
    ensures Run(s, events).effects[w] == 0
    decreases |events|
  {
    assert s.effects[w] + s.lost[w] + |Holders(s, w)| == if w in s.claims then 1 else 0;
    if events != [] {
      StepKeepsInv(s, events[0]);
      LostForGood(Step(s, events[0]), events[1..], w);
    }
  }
}
